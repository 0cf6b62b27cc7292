/** The protocol's promises over whole runs, read off the invariants. */
module Guarantees {
  import opened Options
  import opened Store
  import opened Money
  import opened Budget
  import opened Agent
  import opened Leases
  import opened Engine
  import opened Protocol
  import opened Durability
  import opened Fencing

  /* ---------- with or without the fence ---------- */

  /** Idempotency alone: whatever crashes, takeovers and zombies occur, and even unfenced, the
      log is gapless, spend counts every event once, and event i was decided on events 0..i. */
  lemma IdempotencyAlone(cfg: Config, s: Sys)
    requires Reachable(cfg, s)
    ensures Gapless(cfg.run, s.rows.log)
    ensures s.rows.run.spent == Spent(s.rows.log)
    ensures AllJustified(cfg, s.rows.log)
  {
    ReachableIsBase(cfg, s);
  }

  lemma StepExtendsLog(cfg: Config, s: Sys, l: Label)
    ensures s.rows.log <= Step(cfg, s, l).rows.log
    ensures s.rows.task.attempt <= Step(cfg, s, l).rows.task.attempt
    ensures s.calls <= Step(cfg, s, l).calls
    ensures forall key :: key in s.cache ==> key in Step(cfg, s, l).cache && Step(cfg, s, l).cache[key] == s.cache[key]
  {
    StepRows(cfg, s, l);
    StepCalls(cfg, s, l);
    StepCache(cfg, s, l);
  }

  /** The log, the calls and the cache are append-only and tokens only go up. */
  lemma {:induction false} HistoryIsImmutable(cfg: Config, s: Sys, ls: seq<Label>)
    requires Base(cfg, s)
    ensures var s' := Exec(cfg, s, ls);
            && s.rows.log <= s'.rows.log && s.calls <= s'.calls
            && s.rows.task.attempt <= s'.rows.task.attempt
            && (forall key :: key in s.cache ==> key in s'.cache && s'.cache[key] == s.cache[key])
  {
    if ls != [] {
      var pre := ls[..|ls| - 1];
      HistoryIsImmutable(cfg, s, pre);
      ExecKeepsBase(cfg, s, pre);
      StepExtendsLog(cfg, Exec(cfg, s, pre), ls[|ls| - 1]);
    }
  }

  /** One attempt asks the provider at most once per step, and all calls for one step were made
      under one cache key, the key of the committed prefix. */
  lemma NoDoubleBilling(cfg: Config, s: Sys)
    requires Reachable(cfg, s)
    ensures forall i, j :: 0 <= i < j < |s.calls| && s.calls[i].step == s.calls[j].step ==>
              s.calls[i].attempt != s.calls[j].attempt && s.calls[i].key == s.calls[j].key
    ensures s.calls != [] ==> cfg.spec.Coding?
    ensures forall i :: 0 <= i < |s.calls| ==>
              s.calls[i].step <= |s.rows.log| && s.calls[i].key == KeyFor(cfg, s.rows.log[..s.calls[i].step])
  {
    ReachableIsBase(cfg, s);
    if s.calls != [] { assert CallOk(cfg, s.rows.log, s.rows.task.attempt, s.calls[0]); }
    forall i | 0 <= i < |s.calls|
      ensures s.calls[i].step <= |s.rows.log| && s.calls[i].key == KeyFor(cfg, s.rows.log[..s.calls[i].step])
    {
      assert CallOk(cfg, s.rows.log, s.rows.task.attempt, s.calls[i]);
    }
  }

  // The attempts that looked step n up in vain and have not recorded their call yet.
  ghost function InWindow(s: Sys, n: nat): set<nat> {
    set p | p in s.procs && s.procs[p].Missed? && |s.procs[p].log| == n :: s.procs[p].claim.attempt
  }

  ghost predicate OnlyWindowCalls(cfg: Config, s: Sys, n: nat, window: set<nat>, known: nat) {
    && cfg.spec.Coding? && n <= |s.rows.log| && KeyFor(cfg, s.rows.log[..n]) in s.cache
    && InWindow(s, n) <= window
    && forall i :: known <= i < |s.calls| && s.calls[i].step == n ==> s.calls[i].attempt in window
  }

  // A process that a step leaves at Missed was there before, or just missed with an empty cache.
  lemma MissedFrom(cfg: Config, s: Sys, l: Label, p: Proc)
    requires p in Step(cfg, s, l).procs && Step(cfg, s, l).procs[p].Missed?
    ensures p in s.procs
    ensures s.procs[p] == Step(cfg, s, l).procs[p]
            || (s.procs[p].Have? && cfg.spec.Coding? && KeyFor(cfg, s.procs[p].log) !in s.cache
                && Step(cfg, s, l).procs[p] == Missed(s.procs[p].claim, s.procs[p].log))
  {
    if !Actor(l, p) { StepOthers(cfg, s, l, p); }
  }

  lemma WindowShrinks(cfg: Config, s: Sys, l: Label, n: nat)
    requires Base(cfg, s) && cfg.spec.Coding? && n <= |s.rows.log| && KeyFor(cfg, s.rows.log[..n]) in s.cache
    ensures InWindow(Step(cfg, s, l), n) <= InWindow(s, n)
  {
    var s' := Step(cfg, s, l);
    forall q | q in s.procs && s.procs[q].Have? && |s.procs[q].log| == n
      ensures s.procs[q].log == s.rows.log[..n]
    {
      assert LocalOk(cfg, s.rows.log, s.rows.task.attempt, s.procs[q]);
    }
    forall a | a in InWindow(s', n) ensures a in InWindow(s, n) {
      var p :| p in s'.procs && s'.procs[p].Missed? && |s'.procs[p].log| == n && s'.procs[p].claim.attempt == a;
      MissedFrom(cfg, s, l, p);
    }
  }

  lemma WindowStep(cfg: Config, s: Sys, l: Label, n: nat, window: set<nat>, known: nat)
    requires Base(cfg, s) && OnlyWindowCalls(cfg, s, n, window, known)
    ensures OnlyWindowCalls(cfg, Step(cfg, s, l), n, window, known)
  {
    var s' := Step(cfg, s, l);
    StepExtendsLog(cfg, s, l);
    StepCalls(cfg, s, l);
    assert s'.rows.log[..n] == s.rows.log[..n];
    WindowShrinks(cfg, s, l, n);
    if s'.calls != s.calls && |s.procs[l.p].log| == n { assert s.procs[l.p].claim.attempt in InWindow(s, n); }
  }

  /** Once an answer for step n is cached, the only further calls for step n come from the
      attempts that had already looked it up in vain: after the window is empty there is none. */
  lemma {:induction false} OnlyTheWindowRepeats(cfg: Config, s: Sys, ls: seq<Label>, n: nat)
    requires Base(cfg, s) && cfg.spec.Coding? && n <= |s.rows.log| && KeyFor(cfg, s.rows.log[..n]) in s.cache
    ensures OnlyWindowCalls(cfg, Exec(cfg, s, ls), n, InWindow(s, n), |s.calls|)
  {
    if ls != [] {
      var pre := ls[..|ls| - 1];
      OnlyTheWindowRepeats(cfg, s, pre, n);
      ExecKeepsBase(cfg, s, pre);
      WindowStep(cfg, Exec(cfg, s, pre), ls[|ls| - 1], n, InWindow(s, n), |s.calls|);
    }
  }

  /** The six-decimal spend column of every reachable state is within half a micro-dollar per
      event of the exact sum, and is that sum when every cost is a whole number of them. */
  lemma SpendIsNearlyExact(cfg: Config, s: Sys)
    requires Reachable(cfg, s)
    ensures var drift := s.rows.run.spent as real - Total(s.rows.log) * 1000000.0;
            && -(|s.rows.log| as real) / 2.0 <= drift <= |s.rows.log| as real / 2.0
            && (AllWhole(s.rows.log) ==> drift == 0.0)
  {
    ReachableIsBase(cfg, s);
    SpendDrift(s.rows.log);
    if AllWhole(s.rows.log) { SpendExact(s.rows.log); }
  }

  // What a recorded reason claims about the events before it.
  predicate ReasonHolds(cfg: Config, pre: seq<Event>, e: Event)
    requires e.payload.ReasonPayload?
  {
    match e.payload.reason
    case BudgetReached => Total(pre) >= cfg.budget
    case MaxStepsReached(m) => cfg.spec.Coding? && m == cfg.spec.maxSteps <= |pre| && Total(pre) < cfg.budget
    case LoopDetected => DetectLoop(pre) && Total(pre) < cfg.budget
    case FatalError => true
    case WorkerError(attempts) => attempts == e.meta.attempt >= cfg.maxAttempts
  }

  /** A run is only ever closed for a reason that is true of its log: the cap was reached, the
      steps were used up, the actions loop, or the attempts are exhausted. */
  lemma RecordedReasonsHold(cfg: Config, s: Sys, i: nat)
    requires Reachable(cfg, s) && i < |s.rows.log| && s.rows.log[i].payload.ReasonPayload?
    ensures ReasonHolds(cfg, s.rows.log[..i], s.rows.log[i])
    ensures s.rows.log[i].meta.final
  {
    ReachableIsBase(cfg, s);
    assert Justified(cfg, s.rows.log[..i], s.rows.log[i]);
  }

  /* ---------- fenced runs ---------- */

  /** Fencing safety under arbitrary clock readings. */
  lemma FencingSafety(cfg: Config, s: Sys)
    requires cfg.fenced && Reachable(cfg, s)
    ensures Chronological(s.rows.log, s.rows.task.attempt)
    ensures FinalOnlyLast(s.rows.log)
    ensures s.rows.task.status.Done? <==> Ended(s.rows.log)
    ensures s.rows.run.status.Terminal() <==> Ended(s.rows.log)
    ensures Ended(s.rows.log) ==> s.rows.run.status == StatusFor(s.rows.log[|s.rows.log| - 1].kind)
  {
    ReachableIsFenced(cfg, s);
  }

  /** A finished run never changes again: no row of it, by any process, in any continuation. */
  lemma {:induction false} FinishedIsForever(cfg: Config, s: Sys, ls: seq<Label>)
    requires cfg.fenced && Reachable(cfg, s) && s.rows.run.status.Terminal()
    ensures Exec(cfg, s, ls).rows == s.rows
  {
    ReachableIsFenced(cfg, s);
    if ls != [] {
      FinishedIsForever(cfg, s, ls[..|ls| - 1]);
      StepRows(cfg, Exec(cfg, s, ls[..|ls| - 1]), ls[|ls| - 1]);
    }
  }

  // Label k of the run takes the task and issues a token.
  ghost predicate Issues(cfg: Config, s: Sys, ls: seq<Label>, k: nat) {
    k < |ls| && ls[k].ClaimTask? && Exec(cfg, s, ls[..k + 1]) != Exec(cfg, s, ls[..k])
  }

  ghost function TokenAt(cfg: Config, s: Sys, ls: seq<Label>, k: nat): nat
    requires k <= |ls|
  {
    Exec(cfg, s, ls[..k]).rows.task.attempt
  }

  lemma {:induction false} TokensOnlyRise(cfg: Config, s: Sys, ls: seq<Label>, i: nat, j: nat)
    requires Base(cfg, s) && i <= j <= |ls|
    ensures TokenAt(cfg, s, ls, i) <= TokenAt(cfg, s, ls, j)
    decreases j
  {
    if i < j {
      TokensOnlyRise(cfg, s, ls, i, j - 1);
      ExecKeepsBase(cfg, s, ls[..j - 1]);
      assert ls[..j][..j - 1] == ls[..j - 1];
      StepExtendsLog(cfg, Exec(cfg, s, ls[..j - 1]), ls[j - 1]);
    }
  }

  lemma IssueRaises(cfg: Config, s: Sys, ls: seq<Label>, k: nat)
    requires Issues(cfg, s, ls, k)
    ensures TokenAt(cfg, s, ls, k + 1) == TokenAt(cfg, s, ls, k) + 1
  {
    assert ls[..k + 1][..k] == ls[..k];
  }

  /** Each token is issued to at most one claim. */
  lemma TokensIssuedOnce(cfg: Config, s: Sys, ls: seq<Label>, i: nat, j: nat)
    requires Base(cfg, s) && Issues(cfg, s, ls, i) && Issues(cfg, s, ls, j) && i < j
    ensures TokenAt(cfg, s, ls, i + 1) < TokenAt(cfg, s, ls, j + 1)
  {
    TokensOnlyRise(cfg, s, ls, i + 1, j);
    IssueRaises(cfg, s, ls, j);
  }

  /** Token conservation and bounded retry: every token was issued after a reap, a release or
      at the start, at most maxAttempts - 1 errors are retried, so only reaping is unbounded. */
  lemma BoundedRetry(cfg: Config, s: Sys)
    requires cfg.fenced && Reachable(cfg, s) && cfg.maxAttempts >= 1
    ensures s.rows.task.attempt == s.reaps + s.releases + (if s.rows.task.status.Queued? then 0 else 1)
    ensures s.releases <= cfg.maxAttempts - 1
    ensures s.rows.task.attempt <= s.reaps + cfg.maxAttempts
  {
    ReachableIsFenced(cfg, s);
  }

  // A held lease makes the commit write: the step is the next one and its key is not there.
  lemma HeldCommits(cfg: Config, s: Sys, p: Proc, now: int)
    requires cfg.fenced && Reachable(cfg, s) && p in s.procs && s.procs[p].Ready?
    requires HoldsLease(s.rows.task, s.procs[p].claim, now)
    ensures var at := s.procs[p];
            && CommitReply(true, s.rows, at.claim, now, at.n).Committed?
            && Coherent(at.out)
            && AfterCommit(s.rows, at.claim, at.n, at.out).log == s.rows.log + [AsEvent(at.claim, |s.rows.log|, at.out)]
  {
    ReachableIsFenced(cfg, s);
    var at := s.procs[p];
    CommitShape(cfg, s, p, now);
    assert LocalOk(cfg, s.rows.log, s.rows.task.attempt, at);
    assert HolderOk(cfg, s.rows.log, s.dirs, at);
  }

  /** From worker code a commit is either rejected by the fence or writes its step: the
      already-committed reply cannot occur, and writing a final step finishes task and run. */
  lemma CommitWritesOrIsRejected(cfg: Config, s: Sys, p: Proc, now: int)
    requires cfg.fenced && Reachable(cfg, s) && p in s.procs && s.procs[p].Ready?
    ensures var at, rows' := s.procs[p], Step(cfg, s, Commit(p, now)).rows;
            var t, c := s.rows.task, s.procs[p].claim;
            var held := t.status == Leased && t.owner == Some(c.worker) && t.attempt == c.attempt
                        && t.expires.Some? && now < t.expires.value;
            && (!held ==> CommitReply(true, s.rows, at.claim, now, at.n).LeaseLost? && rows' == s.rows)
            && (held ==> rows'.log == s.rows.log + [AsEvent(at.claim, |s.rows.log|, at.out)]
                         && rows'.run.spent == AddSpend(s.rows.run.spent, CostOf(at.out.payload)))
            && (held && at.out.final ==> rows'.task.status.Done? && rows'.run.status == StatusFor(at.out.kind))
  {
    if HoldsLease(s.rows.task, s.procs[p].claim, now) { HeldCommits(cfg, s, p, now); }
  }

  /** Limits survive takeovers: in every reachable state of a coding run, each charged event was
      decided within the limits, and on a fenced log that bounds the whole run. */
  lemma LimitsSurvive(cfg: Config, s: Sys)
    requires Reachable(cfg, s) && cfg.spec.Coding?
    ensures LimitsRespected(s.rows.log, cfg.budget, cfg.spec.maxSteps)
    ensures cfg.fenced ==>
              && |s.rows.log| <= (if cfg.spec.maxSteps > 0 then cfg.spec.maxSteps else 0) + 1
              && (forall i :: 0 <= i < |s.rows.log| && s.rows.log[i].payload.AgentPayload? ==>
                    Total(s.rows.log[..i]) < cfg.budget)
              && (forall i :: 0 <= i < |Actions(s.rows.log)| ==> !FourAlike(Actions(s.rows.log), i))
  {
    ReachableIsBase(cfg, s);
    var log := s.rows.log;
    forall i | 0 <= i < |log| && log[i].payload.AgentPayload?
      ensures CheckLimits(log[..i], cfg.budget, cfg.spec.maxSteps) == None
    {
      assert Justified(cfg, log[..i], log[i]);
    }
    if cfg.fenced {
      ReachableIsFenced(cfg, s);
      forall i | 0 <= i < |log| - 1 ensures log[i].payload.AgentPayload? && !log[i].meta.final {
        assert Justified(cfg, log[..i], log[i]);
      }
      LimitsBoundTheLog(log, cfg.budget, cfg.spec.maxSteps);
    }
  }

  /** The owner's files before a step are those the log describes, whichever attempts wrote it,
      and they are what a takeover would rebuild whenever a takeover can rebuild at all. */
  lemma WorkspaceIsTheLog(cfg: Config, s: Sys, p: Proc)
    requires cfg.fenced && Reachable(cfg, s) && p in s.procs && Holder(s.rows, s.procs[p].claim)
    requires var at := s.procs[p];
             || at.Missed? || at.Called? || at.Returned? || at.Answered?
             || (at.Have? && at.mounted) || (at.Loop? && at.mounted)
    ensures FilesAre(s.dirs, s.procs[p].claim.attempt, Live(cfg.env, s.rows.log))
    ensures StringContents(s.rows.log) <==> Replay(cfg.env, s.rows.log).Some?
    ensures StringContents(s.rows.log) ==> Replay(cfg.env, s.rows.log) == Some(s.dirs[s.procs[p].claim.attempt])
  {
    ReachableIsFenced(cfg, s);
    assert HolderOk(cfg, s.rows.log, s.dirs, s.procs[p]);
    RebuildExact(cfg.env, s.rows.log);
  }

  /** No step of another process, zombie or not, touches the directory of p. */
  lemma OthersWriteElsewhere(cfg: Config, s: Sys, l: Label, p: Proc)
    requires Reachable(cfg, s) && p in s.procs
    requires l.Reap? || l.p != p
    ensures var own := s.procs[p].claim.attempt;
            && (own in Step(cfg, s, l).dirs <==> own in s.dirs)
            && (own in s.dirs ==> Step(cfg, s, l).dirs[own] == s.dirs[own])
  {
    StepDirs(cfg, s, l);
    if !l.Reap? && l.p in s.procs { DistinctTokens(cfg, s, p, l.p); }
  }

  /** Two live processes never work under the same token. */
  lemma DistinctTokens(cfg: Config, s: Sys, p: Proc, q: Proc)
    requires Reachable(cfg, s) && p in s.procs && q in s.procs && p != q
    ensures s.procs[p].claim.attempt != s.procs[q].claim.attempt
  {
    ReachableIsBase(cfg, s);
  }
}
