/** What holds in every reachable state whether or not commits are fenced: the log is gapless,
    every event was computed from exactly the events before it, spend counts each step once,
    claims carry distinct tokens, and one attempt asks the provider at most once per step. */
module Durability {
  import opened Options
  import opened Store
  import opened Money
  import opened Budget
  import opened Agent
  import opened Leases
  import opened Engine
  import opened Protocol

  /* ---------- how an event came about ---------- */

  predicate Fits(e: Event, out: Outcome) {
    e.kind == out.kind && e.payload == out.payload && e.meta.final == out.final
  }

  function AnswerIn(p: Payload): Response
    requires p.AgentPayload?
  {
    Response(p.action, p.inTokens, p.outTokens, p.cost)
  }

  // The event that next_step computes from the prefix `pre`, up to what the outside world chose.
  ghost predicate Computed(cfg: Config, pre: seq<Event>, e: Event) {
    match cfg.spec
    case Toy(steps, cost) =>
      Fits(e, ToyOutcome(steps, cost, Claim(cfg.task, cfg.run, e.meta.worker, e.meta.attempt), |pre|))
    case Coding(prompt, maxSteps) =>
      match CheckLimits(pre, cfg.budget, maxSteps)
      case Some(t) => Fits(e, StopOutcome(t))
      case None =>
        && e.payload.AgentPayload?
        && AnswerTo(cfg.env, Messages(prompt, pre), AnswerIn(e.payload))
        && Fits(e, AgentOutcome(AnswerIn(e.payload), e.payload.observation))
  }

  // The event by which a worker gives up: fatal error, or an attempt that may not be retried.
  predicate GaveUp(cfg: Config, e: Event) {
    exists fatal :: Fits(e, FailedOutcome(fatal, e.meta.attempt)) && (fatal || e.meta.attempt >= cfg.maxAttempts)
  }

  ghost predicate Justified(cfg: Config, pre: seq<Event>, e: Event) {
    Computed(cfg, pre, e) || GaveUp(cfg, e)
  }

  ghost predicate AllJustified(cfg: Config, log: seq<Event>) {
    forall i :: 0 <= i < |log| ==> Justified(cfg, log[..i], log[i])
  }

  function AsEvent(c: Claim, n: nat, out: Outcome): Event {
    Event(n + 1, out.kind, out.payload, StepKey(c.run, n), MetaOf(c, out))
  }

  function StatusFor(kind: Kind): RunStatus {
    if kind.Failure? then Failed else if kind.OverBudget? then BudgetExceeded else Succeeded
  }

  predicate Coherent(out: Outcome) {
    out.cost == CostOf(out.payload) && out.status == StatusFor(out.kind)
  }

  /* ---------- the invariant ---------- */

  // The log a process decided on, while it is inside one step.
  function Snapshot(at: Local): Option<seq<Event>> {
    if at.Have? || at.Missed? || at.Called? || at.Returned? || at.Answered? then Some(at.log) else None
  }

  ghost predicate LocalOk(cfg: Config, log: seq<Event>, attempts: nat, at: Local) {
    && 1 <= at.claim.attempt <= attempts
    && at.claim.run == cfg.run && at.claim.task == cfg.task
    && (Snapshot(at).Some? ==> at.log <= log)
    && (at.Missed? || at.Called? || at.Returned? || at.Answered? ==>
          cfg.spec.Coding? && CheckLimits(at.log, cfg.budget, cfg.spec.maxSteps) == None)
    && (at.Returned? ==> cfg.env.answers(Messages(cfg.spec.prompt, at.log), at.answer))
    && (at.Answered? ==> AnswerTo(cfg.env, Messages(cfg.spec.prompt, at.log), at.answer))
    && (at.Releasing? ==> at.claim.attempt < cfg.maxAttempts)
    && (at.Counting? ==> at.fatal || at.claim.attempt >= cfg.maxAttempts)
    && (at.Ready? ==>
          && at.n <= |log| && Coherent(at.out)
          && Justified(cfg, log[..at.n], AsEvent(at.claim, at.n, at.out))
          && (at.closing ==> at.out.final))
  }

  ghost predicate CacheOk(cfg: Config, cache: map<CacheKey, Response>) {
    forall key :: key in cache ==> AnswerTo(cfg.env, key.messages, cache[key])
  }

  // Every call is for a step the log has reached, under the key of that step's prefix.
  ghost predicate CallOk(cfg: Config, log: seq<Event>, attempts: nat, call: Call) {
    && cfg.spec.Coding?
    && 1 <= call.attempt <= attempts
    && call.step <= |log|
    && call.key == KeyFor(cfg, log[..call.step])
  }

  // The calls this claim made so far are for steps before the one it works on.
  predicate CallsBehind(log: seq<Event>, at: Local, call: Call) {
    call.attempt == at.claim.attempt ==>
      match at
      case Loop(_, _) => call.step < |log|
      case Have(_, _, snap) => call.step < |snap|
      case Missed(_, snap) => call.step < |snap|
      case Called(_, snap) => call.step <= |snap|
      case Returned(_, snap, _) => call.step <= |snap|
      case Answered(_, snap, _) => call.step <= |snap|
      case Ready(_, n, _, closing) => closing || call.step <= n
      case Releasing(_) => true
      case Counting(_, _) => true
  }

  ghost predicate RowsOk(cfg: Config, rows: Rows) {
    && Gapless(cfg.run, rows.log)
    && AllJustified(cfg, rows.log)
    && rows.run.spent == Spent(rows.log)
    && rows.run.budget == cfg.budget
    && (rows.run.status.Pending? <==> rows.task.attempt == 0)
    && (rows.task.attempt == 0 ==> rows.log == [] && rows.task.status.Queued?)
  }

  ghost predicate ProcsOk(cfg: Config, s: Sys) {
    && (forall p :: p in s.procs ==> LocalOk(cfg, s.rows.log, s.rows.task.attempt, s.procs[p]))
    && (forall p, q :: p in s.procs && q in s.procs && p != q ==>
          s.procs[p].claim.attempt != s.procs[q].claim.attempt)
    && (forall p :: p in s.procs && s.rows.task.status.Leased? && s.procs[p].claim.attempt == s.rows.task.attempt
          ==> s.rows.task.owner == Some(s.procs[p].claim.worker))
  }

  ghost predicate CallsOk(cfg: Config, s: Sys) {
    && (forall i :: 0 <= i < |s.calls| ==> CallOk(cfg, s.rows.log, s.rows.task.attempt, s.calls[i]))
    && (forall i, j :: 0 <= i < j < |s.calls| ==>
          s.calls[i].step != s.calls[j].step || s.calls[i].attempt != s.calls[j].attempt)
    && (forall i, p :: 0 <= i < |s.calls| && p in s.procs ==> CallsBehind(s.rows.log, s.procs[p], s.calls[i]))
  }

  ghost predicate Base(cfg: Config, s: Sys) {
    && RowsOk(cfg, s.rows) && CacheOk(cfg, s.cache) && ProcsOk(cfg, s) && CallsOk(cfg, s)
  }

  /* ---------- preservation ---------- */

  lemma LocalOkGrows(cfg: Config, log: seq<Event>, attempts: nat, log': seq<Event>, attempts': nat, at: Local)
    requires LocalOk(cfg, log, attempts, at) && log <= log' && attempts <= attempts'
    ensures LocalOk(cfg, log', attempts', at)
  {
    if at.Ready? { assert log'[..at.n] == log[..at.n]; }
  }

  lemma CallOkGrows(cfg: Config, log: seq<Event>, attempts: nat, log': seq<Event>, attempts': nat, call: Call)
    requires CallOk(cfg, log, attempts, call) && log <= log' && attempts <= attempts'
    ensures CallOk(cfg, log', attempts', call)
  {
    assert log'[..call.step] == log[..call.step];
  }

  /** Only the position of process p moved: the rest of the invariant carries over. */
  lemma Moved(cfg: Config, s: Sys, p: Proc, at: Local)
    requires Base(cfg, s) && p in s.procs
    requires at.claim == s.procs[p].claim
    requires LocalOk(cfg, s.rows.log, s.rows.task.attempt, at)
    requires forall i :: 0 <= i < |s.calls| ==> CallsBehind(s.rows.log, at, s.calls[i])
    ensures Base(cfg, At(s, p, at))
  {
  }

  lemma Dropped(cfg: Config, s: Sys, p: Proc)
    requires Base(cfg, s)
    ensures Base(cfg, Drop(s, p))
  {
  }

  /** The task row changed without touching the token, or the owner of a leased row. */
  lemma Relet(cfg: Config, s: Sys, task: TaskRow, reaps: nat, releases: nat)
    requires Base(cfg, s) && task.attempt == s.rows.task.attempt
    requires task.status.Leased? ==> s.rows.task.status.Leased? && task.owner == s.rows.task.owner
    requires task.attempt == 0 ==> task.status.Queued?
    ensures Base(cfg, s.(rows := s.rows.(task := task), reaps := reaps, releases := releases))
  {
  }

  /** The log and the token grew: what was known of processes and calls is still so. */
  lemma Outlives(cfg: Config, s: Sys, log: seq<Event>, attempts: nat)
    requires ProcsOk(cfg, s) && CallsOk(cfg, s) && s.rows.log <= log && s.rows.task.attempt <= attempts
    ensures forall q :: q in s.procs ==> LocalOk(cfg, log, attempts, s.procs[q])
    ensures forall i :: 0 <= i < |s.calls| ==> CallOk(cfg, log, attempts, s.calls[i])
    ensures forall i, q :: 0 <= i < |s.calls| && q in s.procs ==> CallsBehind(log, s.procs[q], s.calls[i])
  {
    forall q | q in s.procs ensures LocalOk(cfg, log, attempts, s.procs[q]) {
      LocalOkGrows(cfg, s.rows.log, s.rows.task.attempt, log, attempts, s.procs[q]);
    }
    forall i | 0 <= i < |s.calls| ensures CallOk(cfg, log, attempts, s.calls[i]) {
      CallOkGrows(cfg, s.rows.log, s.rows.task.attempt, log, attempts, s.calls[i]);
    }
    forall i, q | 0 <= i < |s.calls| && q in s.procs ensures CallsBehind(log, s.procs[q], s.calls[i]) {
      assert CallsBehind(s.rows.log, s.procs[q], s.calls[i]);
    }
  }

  // Tokens of processes and calls were all issued.
  lemma TokensIssued(cfg: Config, s: Sys)
    requires ProcsOk(cfg, s) && CallsOk(cfg, s)
    ensures forall q :: q in s.procs ==> s.procs[q].claim.attempt <= s.rows.task.attempt
    ensures forall i :: 0 <= i < |s.calls| ==> s.calls[i].attempt <= s.rows.task.attempt
  {
    forall q | q in s.procs ensures s.procs[q].claim.attempt <= s.rows.task.attempt {
      assert LocalOk(cfg, s.rows.log, s.rows.task.attempt, s.procs[q]);
    }
    forall i | 0 <= i < |s.calls| ensures s.calls[i].attempt <= s.rows.task.attempt {
      assert CallOk(cfg, s.rows.log, s.rows.task.attempt, s.calls[i]);
    }
  }

  lemma ClaimKeepsProcs(cfg: Config, s: Sys, p: Proc, worker: WorkerId, now: int, lease: int)
    requires ProcsOk(cfg, s) && CallsOk(cfg, s)
    ensures ProcsOk(cfg, StepClaim(cfg, s, p, worker, now, lease))
  {
    Outlives(cfg, s, s.rows.log, s.rows.task.attempt + 1);
    TokensIssued(cfg, s);
  }

  lemma ClaimKeepsCalls(cfg: Config, s: Sys, p: Proc, worker: WorkerId, now: int, lease: int)
    requires ProcsOk(cfg, s) && CallsOk(cfg, s)
    ensures CallsOk(cfg, StepClaim(cfg, s, p, worker, now, lease))
  {
    Outlives(cfg, s, s.rows.log, s.rows.task.attempt + 1);
    TokensIssued(cfg, s);
  }

  lemma ClaimKeepsRows(cfg: Config, s: Sys, p: Proc, worker: WorkerId, now: int, lease: int)
    requires RowsOk(cfg, s.rows)
    ensures RowsOk(cfg, StepClaim(cfg, s, p, worker, now, lease).rows)
  {
  }

  lemma ClaimKeepsBase(cfg: Config, s: Sys, p: Proc, worker: WorkerId, now: int, lease: int)
    requires Base(cfg, s)
    ensures Base(cfg, StepClaim(cfg, s, p, worker, now, lease))
  {
    ClaimKeepsRows(cfg, s, p, worker, now, lease);
    ClaimKeepsProcs(cfg, s, p, worker, now, lease);
    ClaimKeepsCalls(cfg, s, p, worker, now, lease);
  }

  lemma JustifiedAppend(cfg: Config, log: seq<Event>, e: Event)
    requires AllJustified(cfg, log) && Justified(cfg, log, e)
    ensures AllJustified(cfg, log + [e])
  {
    forall i | 0 <= i < |log + [e]| ensures Justified(cfg, (log + [e])[..i], (log + [e])[i]) {
      assert (log + [e])[..i] == log[..i];
      if i == |log| { assert log[..i] == log; }
    }
  }

  /** The commit either leaves the rows alone or appends the event of step |log|. */
  lemma CommitShape(cfg: Config, s: Sys, p: Proc, now: int)
    requires Base(cfg, s) && p in s.procs && s.procs[p].Ready?
    ensures var at := s.procs[p];
            var reply := CommitReply(cfg.fenced, s.rows, at.claim, now, at.n);
            && (reply.AlreadyCommitted? ==> at.n < |s.rows.log|)
            && (reply.Committed? ==>
                  && at.n == |s.rows.log|
                  && AfterCommit(s.rows, at.claim, at.n, at.out).log == s.rows.log + [AsEvent(at.claim, at.n, at.out)])
  {
    var at := s.procs[p];
    GaplessAppend(cfg.run, s.rows.log, at.n, at.out.kind, at.out.payload, MetaOf(at.claim, at.out));
  }

  lemma CommitKeepsLog(cfg: Config, s: Sys, p: Proc, now: int)
    requires Base(cfg, s) && p in s.procs && s.procs[p].Ready? && s.procs[p].n == |s.rows.log|
    ensures var at := s.procs[p];
            var log' := s.rows.log + [AsEvent(at.claim, at.n, at.out)];
            && Gapless(cfg.run, log') && AllJustified(cfg, log')
            && Spent(log') == AddSpend(s.rows.run.spent, at.out.cost)
  {
    var at := s.procs[p];
    var e := AsEvent(at.claim, at.n, at.out);
    assert LocalOk(cfg, s.rows.log, s.rows.task.attempt, at);
    assert s.rows.log[..at.n] == s.rows.log;
    JustifiedAppend(cfg, s.rows.log, e);
    SpentAppend(s.rows.log, e);
  }

  // The rows with one more event, charged and, if final, closed.
  lemma WrittenRowsOk(cfg: Config, s: Sys, p: Proc, run: RunStatus, task: TaskStatus)
    requires Base(cfg, s) && p in s.procs && s.procs[p].Ready? && s.procs[p].n == |s.rows.log| && !run.Pending?
    ensures var at, rows := s.procs[p], s.rows;
            RowsOk(cfg, Rows(rows.run.(spent := AddSpend(rows.run.spent, at.out.cost), status := run),
                             rows.task.(status := task), rows.log + [AsEvent(at.claim, at.n, at.out)]))
  {
    CommitKeepsLog(cfg, s, p, 0);
    assert LocalOk(cfg, s.rows.log, s.rows.task.attempt, s.procs[p]);
  }

  lemma CommitKeepsRows(cfg: Config, s: Sys, p: Proc, now: int)
    requires Base(cfg, s) && p in s.procs && s.procs[p].Ready?
    ensures var at := s.procs[p]; RowsOk(cfg, CommitRows(cfg.fenced, s.rows, at.claim, now, at.n, at.out))
  {
    var at := s.procs[p];
    CommitShape(cfg, s, p, now);
    if CommitReply(cfg.fenced, s.rows, at.claim, now, at.n).Committed? {
      var run := if at.out.final then at.out.status else s.rows.run.status;
      var task := if at.out.final then TaskStatus.Done else s.rows.task.status;
      ReadyIsStarted(cfg, s, p);
      WrittenRowsOk(cfg, s, p, run, task);
      assert AfterCommit(s.rows, at.claim, at.n, at.out)
          == Rows(s.rows.run.(spent := AddSpend(s.rows.run.spent, at.out.cost), status := run),
                  s.rows.task.(status := task), s.rows.log + [AsEvent(at.claim, at.n, at.out)]);
    }
  }

  lemma ReadyIsStarted(cfg: Config, s: Sys, p: Proc)
    requires Base(cfg, s) && p in s.procs && s.procs[p].Ready?
    ensures !s.rows.run.status.Pending? && !s.procs[p].out.status.Pending?
  {
    assert LocalOk(cfg, s.rows.log, s.rows.task.attempt, s.procs[p]);
  }

  /** The log grew, the task row kept its token and was at most closed. */
  lemma Grown(cfg: Config, s: Sys, rows: Rows)
    requires Base(cfg, s) && RowsOk(cfg, rows)
    requires s.rows.log <= rows.log && rows.task.attempt == s.rows.task.attempt
    requires rows.task.owner == s.rows.task.owner && (rows.task.status.Leased? ==> s.rows.task.status.Leased?)
    ensures Base(cfg, s.(rows := rows))
  {
    Outlives(cfg, s, rows.log, rows.task.attempt);
  }

  lemma CommittedKeepsBase(cfg: Config, s: Sys, p: Proc, now: int)
    requires Base(cfg, s) && p in s.procs && s.procs[p].Ready?
    ensures var at := s.procs[p]; var rows := CommitRows(cfg.fenced, s.rows, at.claim, now, at.n, at.out);
            && Base(cfg, s.(rows := rows))
            && (!CommitReply(cfg.fenced, s.rows, at.claim, now, at.n).LeaseLost? ==> at.n < |rows.log|)
  {
    CommitShape(cfg, s, p, now);
    CommitKeepsRows(cfg, s, p, now);
    Grown(cfg, s, CommitRows(cfg.fenced, s.rows, s.procs[p].claim, now, s.procs[p].n, s.procs[p].out));
  }

  // commit_step returned and the loop goes on.
  lemma ReturnKeepsBase(cfg: Config, s: Sys, p: Proc, mounted: bool)
    requires Base(cfg, s) && p in s.procs && s.procs[p].Ready? && !s.procs[p].closing && s.procs[p].n < |s.rows.log|
    ensures Base(cfg, At(s, p, Loop(s.procs[p].claim, mounted)))
  {
    var at := s.procs[p];
    assert LocalOk(cfg, s.rows.log, s.rows.task.attempt, at);
    forall i | 0 <= i < |s.calls| ensures CallsBehind(s.rows.log, Loop(at.claim, mounted), s.calls[i]) {
      assert CallsBehind(s.rows.log, at, s.calls[i]);
    }
    Moved(cfg, s, p, Loop(at.claim, mounted));
  }

  lemma CommitKeepsBase(cfg: Config, s: Sys, p: Proc, now: int)
    requires Base(cfg, s) && p in s.procs && s.procs[p].Ready?
    ensures var at := s.procs[p]; Base(cfg, StepCommit(cfg, s, p, at.claim, at.n, at.out, now))
  {
    var at := s.procs[p];
    var s1 := s.(rows := CommitRows(cfg.fenced, s.rows, at.claim, now, at.n, at.out));
    CommittedKeepsBase(cfg, s, p, now);
    if CommitReply(cfg.fenced, s.rows, at.claim, now, at.n).LeaseLost? || at.out.final {
      Dropped(cfg, s1, p);
    } else {
      assert LocalOk(cfg, s.rows.log, s.rows.task.attempt, at);
      ReturnKeepsBase(cfg, s1, p, cfg.spec.Coding?);
    }
  }

  lemma ComputedIsOk(cfg: Config, log: seq<Event>, attempts: nat, at: Local, out: Outcome)
    requires LocalOk(cfg, log, attempts, at) && at.Have? && Coherent(out)
    requires Computed(cfg, at.log, AsEvent(at.claim, |at.log|, out))
    ensures LocalOk(cfg, log, attempts, Ready(at.claim, |at.log|, out, false))
  {
    assert log[..|at.log|] == at.log;
  }

  // next_step ends with an outcome, with an answer from the cache, or with none.
  lemma NextIsOk(cfg: Config, s: Sys, p: Proc)
    requires Base(cfg, s) && p in s.procs && s.procs[p].Have?
    ensures var at := s.procs[p]; var s' := StepNext(cfg, s, p, at.claim, at.mounted, at.log);
            s' != s ==> p in s'.procs && s' == At(s, p, s'.procs[p]) && s'.procs[p].claim == at.claim
                        && LocalOk(cfg, s.rows.log, s.rows.task.attempt, s'.procs[p])
  {
    var at := s.procs[p];
    assert LocalOk(cfg, s.rows.log, s.rows.task.attempt, at);
    match cfg.spec {
      case Toy(steps, cost) =>
        ComputedIsOk(cfg, s.rows.log, s.rows.task.attempt, at, ToyOutcome(steps, cost, at.claim, |at.log|));
      case Coding(_, maxSteps) =>
        var stop := CheckLimits(at.log, cfg.budget, maxSteps);
        if stop.Some? {
          ComputedIsOk(cfg, s.rows.log, s.rows.task.attempt, at, StopOutcome(stop.value));
        } else if KeyFor(cfg, at.log) in s.cache {
          CachedIsOk(cfg, s, p);
        }
    }
  }

  lemma CachedIsOk(cfg: Config, s: Sys, p: Proc)
    requires Base(cfg, s) && p in s.procs && s.procs[p].Have? && cfg.spec.Coding?
    requires CheckLimits(s.procs[p].log, cfg.budget, cfg.spec.maxSteps) == None
    requires KeyFor(cfg, s.procs[p].log) in s.cache
    ensures var at := s.procs[p];
            LocalOk(cfg, s.rows.log, s.rows.task.attempt, Answered(at.claim, at.log, s.cache[KeyFor(cfg, at.log)]))
  {
    assert LocalOk(cfg, s.rows.log, s.rows.task.attempt, s.procs[p]);
  }

  lemma NextStepKeepsBase(cfg: Config, s: Sys, p: Proc)
    requires Base(cfg, s) && p in s.procs && s.procs[p].Have?
    ensures var at := s.procs[p]; Base(cfg, StepNext(cfg, s, p, at.claim, at.mounted, at.log))
  {
    var at := s.procs[p];
    var s' := StepNext(cfg, s, p, at.claim, at.mounted, at.log);
    NextIsOk(cfg, s, p);
    if s' != s {
      forall i | 0 <= i < |s.calls| ensures CallsBehind(s.rows.log, s'.procs[p], s.calls[i]) {
        assert CallsBehind(s.rows.log, at, s.calls[i]);
      }
      Moved(cfg, s, p, s'.procs[p]);
    }
  }

  function AfterRecord(cfg: Config, s: Sys, p: Proc): Sys
    requires cfg.spec.Coding? && p in s.procs && s.procs[p].Missed?
  {
    var at := s.procs[p];
    var call := Call(|at.log|, KeyFor(cfg, at.log), at.claim.attempt, at.claim.worker);
    At(s.(calls := s.calls + [call]), p, Called(at.claim, at.log))
  }

  lemma RecordKeepsCalls(cfg: Config, s: Sys, p: Proc)
    requires Base(cfg, s) && p in s.procs && s.procs[p].Missed?
    ensures CallsOk(cfg, AfterRecord(cfg, s, p))
  {
    var at, log := s.procs[p], s.rows.log;
    assert LocalOk(cfg, log, s.rows.task.attempt, at) && log[..|at.log|] == at.log;
    var call := Call(|at.log|, KeyFor(cfg, at.log), at.claim.attempt, at.claim.worker);
    assert CallOk(cfg, log, s.rows.task.attempt, call);
    var s' := At(s.(calls := s.calls + [call]), p, Called(at.claim, at.log));
    forall i, q | 0 <= i < |s'.calls| && q in s'.procs ensures CallsBehind(log, s'.procs[q], s'.calls[i]) {
      if i < |s.calls| { assert CallsBehind(log, s.procs[q], s.calls[i]); }
    }
    forall i | 0 <= i < |s.calls| ensures s.calls[i].step != call.step || s.calls[i].attempt != call.attempt {
      assert CallsBehind(log, at, s.calls[i]);
    }
  }

  lemma RecordKeepsBase(cfg: Config, s: Sys, p: Proc)
    requires Base(cfg, s) && p in s.procs && s.procs[p].Missed?
    ensures Base(cfg, AfterRecord(cfg, s, p))
  {
    RecordKeepsCalls(cfg, s, p);
  }

  lemma StoreKeepsBase(cfg: Config, s: Sys, p: Proc)
    requires Base(cfg, s) && p in s.procs && s.procs[p].Returned?
    ensures var at := s.procs[p]; var key := KeyFor(cfg, at.log);
            Base(cfg, At(s.(cache := if key in s.cache then s.cache else s.cache[key := Stored(at.answer)]),
                         p, Answered(at.claim, at.log, at.answer)))
  {
    var at := s.procs[p];
    var key := KeyFor(cfg, at.log);
    var s1 := s.(cache := if key in s.cache then s.cache else s.cache[key := Stored(at.answer)]);
    assert CacheOk(cfg, s1.cache);
    forall i | 0 <= i < |s.calls| ensures CallsBehind(s.rows.log, Answered(at.claim, at.log, at.answer), s.calls[i]) {
      assert CallsBehind(s.rows.log, at, s.calls[i]);
    }
    Moved(cfg, s1, p, Answered(at.claim, at.log, at.answer));
  }

  lemma ExecuteKeepsBase(cfg: Config, s: Sys, p: Proc, dirs: map<nat, Files>, seen: Observation)
    requires Base(cfg, s) && p in s.procs && s.procs[p].Answered?
    ensures var at := s.procs[p];
            Base(cfg, At(s.(dirs := dirs), p, Ready(at.claim, |at.log|, AgentOutcome(at.answer, seen), false)))
  {
    var at := s.procs[p];
    assert s.rows.log[..|at.log|] == at.log;
    var ready := Ready(at.claim, |at.log|, AgentOutcome(at.answer, seen), false);
    forall i | 0 <= i < |s.calls| ensures CallsBehind(s.rows.log, ready, s.calls[i]) {
      assert CallsBehind(s.rows.log, at, s.calls[i]);
    }
    Moved(cfg, s.(dirs := dirs), p, ready);
  }

  // A move that keeps the snapshot, or takes a new one, or turns to the error handler.
  lemma ThinkKeepsBase(cfg: Config, s: Sys, p: Proc, at': Local, dirs: map<nat, Files>)
    requires Base(cfg, s) && p in s.procs
    requires var at := s.procs[p];
             || (at.Loop? && at' == Have(at.claim, at.mounted, s.rows.log))
             || (at.Have? && at' == Have(at.claim, true, at.log))
             || (at.Called? && at'.Returned? && at'.claim == at.claim && at'.log == at.log
                 && cfg.env.answers(Messages(cfg.spec.prompt, at.log), at'.answer))
             || (at' == Releasing(at.claim) && at.claim.attempt < cfg.maxAttempts)
             || (at'.Counting? && at'.claim == at.claim && (at'.fatal || at.claim.attempt >= cfg.maxAttempts))
             || (at.Counting? && at' == Ready(at.claim, |s.rows.log|, FailedOutcome(at.fatal, at.claim.attempt), true))
    ensures Base(cfg, At(s.(dirs := dirs), p, at'))
  {
    var at := s.procs[p];
    forall i | 0 <= i < |s.calls| ensures CallsBehind(s.rows.log, at', s.calls[i]) {
      assert CallsBehind(s.rows.log, at, s.calls[i]);
    }
    if at'.Ready? { assert GaveUp(cfg, AsEvent(at.claim, at'.n, FailedOutcome(at.fatal, at.claim.attempt))); }
    Moved(cfg, s.(dirs := dirs), p, at');
  }

  lemma ReleaseKeepsBase(cfg: Config, s: Sys, p: Proc, now: int, backoff: int)
    requires Base(cfg, s) && p in s.procs
    ensures var rows := s.rows.(task := Release(s.rows.task, now, backoff));
            Base(cfg, Drop(s.(rows := rows, releases := s.releases + 1), p))
  {
    Relet(cfg, s, Release(s.rows.task, now, backoff), s.reaps, s.releases + 1);
    Dropped(cfg, s.(rows := s.rows.(task := Release(s.rows.task, now, backoff)), releases := s.releases + 1), p);
  }

  lemma RowStepKeepsBase(cfg: Config, s: Sys, l: Label)
    requires Base(cfg, s) && OnRows(l) && l.p in s.procs
    ensures Base(cfg, StepProc(cfg, s, l, s.procs[l.p]))
  {
    var at := s.procs[l.p];
    if StepProc(cfg, s, l, at) == s { return; }
    match l {
      case Heartbeat(p, now, lease) =>
        if HoldsLease(s.rows.task, at.claim, now) {
          Relet(cfg, s, Renew(s.rows.task, now, lease), s.reaps, s.releases);
        } else {
          Dropped(cfg, s, p);
        }
      case Commit(p, now) => CommitKeepsBase(cfg, s, p, now);
      case ReleaseTask(p, now, backoff) =>
        if Carries(s.rows.task, at.claim) { ReleaseKeepsBase(cfg, s, p, now, backoff); } else { Dropped(cfg, s, p); }
    }
  }

  lemma ProcStepKeepsBase(cfg: Config, s: Sys, l: Label)
    requires Base(cfg, s) && !l.ClaimTask? && !l.Reap? && !l.Crash? && l.p in s.procs
    ensures Base(cfg, StepProc(cfg, s, l, s.procs[l.p]))
  {
    var p, s' := l.p, StepProc(cfg, s, l, s.procs[l.p]);
    if OnRows(l) { RowStepKeepsBase(cfg, s, l); }
    if s' == s || OnRows(l) { return; }
    match l {
      case NextStep(_) => NextStepKeepsBase(cfg, s, p);
      case RecordCall(_) => RecordKeepsBase(cfg, s, p);
      case StoreAnswer(_) => StoreKeepsBase(cfg, s, p);
      case ExecuteTool(_) => ExecuteKeepsBase(cfg, s, p, s'.dirs, s'.procs[p].out.payload.observation);
      case ReadLog(_) => ThinkKeepsBase(cfg, s, p, s'.procs[p], s'.dirs);
      case Mount(_) => ThinkKeepsBase(cfg, s, p, s'.procs[p], s'.dirs);
      case ProviderAnswers(_, _) => ThinkKeepsBase(cfg, s, p, s'.procs[p], s'.dirs);
      case Raise(_, _) => ThinkKeepsBase(cfg, s, p, s'.procs[p], s'.dirs);
      case CountEvents(_) => ThinkKeepsBase(cfg, s, p, s'.procs[p], s'.dirs);
    }
  }

  lemma StepKeepsBase(cfg: Config, s: Sys, l: Label)
    requires Base(cfg, s)
    ensures Base(cfg, Step(cfg, s, l))
  {
    match l {
      case ClaimTask(p, worker, now, lease) => ClaimKeepsBase(cfg, s, p, worker, now, lease);
      case Reap(now) => if Reapable(s.rows.task, now) { Relet(cfg, s, Requeue(s.rows.task), s.reaps + 1, s.releases); }
      case Crash(p) => Dropped(cfg, s, p);
      case _ => if l.p in s.procs { ProcStepKeepsBase(cfg, s, l); }
    }
  }

  lemma {:induction false} ExecKeepsBase(cfg: Config, s: Sys, ls: seq<Label>)
    requires Base(cfg, s)
    ensures Base(cfg, Exec(cfg, s, ls))
  {
    if ls != [] {
      ExecKeepsBase(cfg, s, ls[..|ls| - 1]);
      StepKeepsBase(cfg, Exec(cfg, s, ls[..|ls| - 1]), ls[|ls| - 1]);
    }
  }

  lemma ReachableIsBase(cfg: Config, s: Sys)
    requires Reachable(cfg, s)
    ensures Base(cfg, s)
  {
    var now, ls :| s == Exec(cfg, Init(cfg, now), ls);
    ExecKeepsBase(cfg, Init(cfg, now), ls);
  }
}
