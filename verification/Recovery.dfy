/** No run is stranded: whatever happened before, one fresh worker and the reaper can bring the
    run to its end, with no help from any process that was at work. */
module Recovery {
  import opened Store
  import opened Agent
  import opened Leases
  import opened Engine
  import opened Protocol
  import opened Durability
  import opened Fencing
  import opened Guarantees
  import opened LeaseClock

  // A step of p or of the reaper that is no exception and no crash, by a clock past `from`.
  predicate Smooth(l: Label, p: Proc, from: int) {
    (l.Reap? || (l.p == p && !l.Raise? && !l.Crash?)) && ReadsFrom(l, from)
  }

  ghost predicate LeadsTo(cfg: Config, s: Sys, s': Sys, p: Proc, from: int) {
    exists ls :: s' == Exec(cfg, s, ls) && forall i :: 0 <= i < |ls| ==> Smooth(ls[i], p, from)
  }

  // s arises from the reachable state s0 by steps of p and the reaper.
  ghost predicate Onward(cfg: Config, s0: Sys, s: Sys, p: Proc, from: int) {
    Reachable(cfg, s) && LeadsTo(cfg, s0, s, p, from)
  }

  lemma LeadsFurther(cfg: Config, s0: Sys, ls: seq<Label>, l: Label, p: Proc, from: int, s': Sys)
    requires (forall i :: 0 <= i < |ls| ==> Smooth(ls[i], p, from)) && Smooth(l, p, from)
    requires s' == Exec(cfg, s0, ls + [l])
    ensures LeadsTo(cfg, s0, s', p, from)
  {
    assert forall i :: 0 <= i < |ls + [l]| ==> Smooth((ls + [l])[i], p, from);
  }

  lemma Go(cfg: Config, s0: Sys, s: Sys, p: Proc, from: int, l: Label) returns (s': Sys)
    requires Onward(cfg, s0, s, p, from) && Smooth(l, p, from)
    ensures s' == Step(cfg, s, l) && Onward(cfg, s0, s', p, from)
  {
    s' := Step(cfg, s, l);
    Advance(cfg, s, l);
    var ls :| s == Exec(cfg, s0, ls) && forall i :: 0 <= i < |ls| ==> Smooth(ls[i], p, from);
    ExecMore(cfg, s0, ls, l);
    LeadsFurther(cfg, s0, ls, l, p, from, s');
  }

  /* ---------- taking over ---------- */

  lemma {:induction false} LeasesHaveExpiry(cfg: Config, now: int, ls: seq<Label>)
    ensures var t := Exec(cfg, Init(cfg, now), ls).rows.task; t.status.Leased? ==> t.expires.Some?
  {
    if ls != [] {
      LeasesHaveExpiry(cfg, now, ls[..|ls| - 1]);
      StepRows(cfg, Exec(cfg, Init(cfg, now), ls[..|ls| - 1]), ls[|ls| - 1]);
    }
  }

  // p holds the task at time now and stands at the top of its loop.
  ghost predicate AtWork(s: Sys, p: Proc, now: int) {
    p in s.procs && s.procs[p].Loop? && HoldsLease(s.rows.task, s.procs[p].claim, now)
  }

  function Later(a: int, b: int): int { if a < b then b else a }

  lemma OpenTask(cfg: Config, s: Sys)
    requires cfg.fenced && Reachable(cfg, s) && !s.rows.run.status.Terminal()
    ensures s.rows.task.status.Queued? || (s.rows.task.status.Leased? && s.rows.task.expires.Some?)
  {
    ReachableIsFenced(cfg, s);
    var start, ls :| s == Exec(cfg, Init(cfg, start), ls);
    LeasesHaveExpiry(cfg, start, ls);
  }

  lemma Requeued(cfg: Config, s0: Sys, p: Proc, from: int) returns (s: Sys)
    requires cfg.fenced && Reachable(cfg, s0) && !s0.rows.run.status.Terminal()
    ensures Onward(cfg, s0, s, p, from) && s.rows.task.status.Queued?
    ensures s.rows.log == s0.rows.log && s.procs == s0.procs && s.cache == s0.cache
    ensures s.rows.task.attempt == s0.rows.task.attempt
  {
    OpenTask(cfg, s0);
    assert s0 == Exec(cfg, s0, []);
    s := s0;
    if s.rows.task.status.Leased? { s := Go(cfg, s0, s, p, from, Reap(Later(s.rows.task.expires.value + 1, from))); }
  }

  /** A run that has not ended can be taken over by any process that is idle. */
  lemma TakeOver(cfg: Config, s0: Sys, p: Proc, from: int) returns (s: Sys, now: int)
    requires cfg.fenced && Reachable(cfg, s0) && !s0.rows.run.status.Terminal() && p !in s0.procs
    ensures Onward(cfg, s0, s, p, from) && AtWork(s, p, now) && now >= from
    ensures s.rows.log == s0.rows.log && !s.procs[p].mounted && s.cache == s0.cache
    ensures s.procs == s0.procs[p := s.procs[p]]
    ensures s.procs[p].claim.attempt == s.rows.task.attempt == s0.rows.task.attempt + 1
  {
    s := Requeued(cfg, s0, p, from);
    now := Later(s.rows.task.available, from);
    s := Go(cfg, s0, s, p, from, ClaimTask(p, "fresh", now, 1));
  }

  /* ---------- one round ---------- */

  ghost predicate Answers(env: Env, m: seq<Message>) {
    exists r :: env.answers(m, r)
  }

  // The provider answers every history, and with nothing on which _execute would raise.
  ghost predicate Usable(env: Env) {
    && (forall m :: Answers(env, m))
    && (forall m, r, files :: env.answers(m, r) ==> Execute(env, files, r.action).Performed?)
  }

  lemma UsableAnswer(env: Env, m: seq<Message>, r: Response, files: Files)
    requires Usable(env) && AnswerTo(env, m, r)
    ensures Execute(env, files, r.action).Performed?
  {
    if !env.answers(m, r) {
      var given :| env.answers(m, given) && r == Stored(given);
      assert Execute(env, files, given.action).Performed?;
    }
  }

  // p is about to commit the step after the log; the rows are those of before.
  ghost predicate Prepared(s: Sys, s': Sys, p: Proc) {
    && p in s.procs && p in s'.procs && s'.rows == s.rows
    && s'.procs[p].Ready? && s'.procs[p].claim == s.procs[p].claim && s'.procs[p].n == |s.rows.log|
  }

  lemma PrepareToy(cfg: Config, s0: Sys, s: Sys, p: Proc, from: int, now: int) returns (s': Sys)
    requires Onward(cfg, s0, s, p, from) && AtWork(s, p, now) && cfg.spec.Toy?
    ensures Onward(cfg, s0, s', p, from) && Prepared(s, s', p)
  {
    s' := Go(cfg, s0, s, p, from, ReadLog(p));
    s' := Go(cfg, s0, s', p, from, NextStep(p));
  }

  lemma CanRebuild(cfg: Config, s: Sys)
    requires cfg.fenced && Reachable(cfg, s) && StringContents(s.rows.log)
    ensures Replay(cfg.env, s.rows.log).Some?
  {
    ReachableIsFenced(cfg, s);
    RebuildExact(cfg.env, s.rows.log);
  }

  lemma Mounted(cfg: Config, s: Sys, p: Proc)
    requires cfg.spec.Coding? && Replay(cfg.env, s.rows.log).Some?
    requires p in s.procs && s.procs[p].Have? && !s.procs[p].mounted && s.procs[p].log == s.rows.log
    ensures var s', at := Step(cfg, s, Mount(p)), Have(s.procs[p].claim, true, s.rows.log);
            s'.rows == s.rows && s'.cache == s.cache && s'.procs == s.procs[p := at]
  {
  }

  // read_events, and the workspace if there is none yet.
  lemma ReadAndMount(cfg: Config, s0: Sys, s: Sys, p: Proc, from: int) returns (s': Sys)
    requires cfg.fenced && Onward(cfg, s0, s, p, from) && p in s.procs && s.procs[p].Loop? && cfg.spec.Coding?
    requires s.procs[p].mounted || StringContents(s.rows.log)
    ensures Onward(cfg, s0, s', p, from) && s'.rows == s.rows && s'.cache == s.cache
    ensures s'.procs == s.procs[p := Have(s.procs[p].claim, true, s.rows.log)]
  {
    s' := Go(cfg, s0, s, p, from, ReadLog(p));
    if !s.procs[p].mounted {
      CanRebuild(cfg, s);
      Mounted(cfg, s', p);
      s' := Go(cfg, s0, s', p, from, Mount(p));
    }
  }

  // p stands at `at` in s', with the rows and claim of s.
  ghost predicate MovedTo(s: Sys, s': Sys, p: Proc, at: Local) {
    p in s.procs && s'.rows == s.rows && p in s'.procs && s'.procs[p] == at && at.claim == s.procs[p].claim
  }

  lemma GoTo(cfg: Config, s0: Sys, s: Sys, p: Proc, from: int, l: Label, at: Local) returns (s': Sys)
    requires Onward(cfg, s0, s, p, from) && Smooth(l, p, from) && MovedTo(s, Step(cfg, s, l), p, at)
    ensures Onward(cfg, s0, s', p, from) && MovedTo(s, s', p, at)
  {
    s' := Go(cfg, s0, s, p, from, l);
  }

  lemma Record(cfg: Config, s0: Sys, s: Sys, p: Proc, from: int) returns (s': Sys)
    requires Onward(cfg, s0, s, p, from) && p in s.procs && s.procs[p].Missed? && cfg.spec.Coding?
    ensures Onward(cfg, s0, s', p, from) && MovedTo(s, s', p, Called(s.procs[p].claim, s.procs[p].log))
  {
    s' := GoTo(cfg, s0, s, p, from, RecordCall(p), Called(s.procs[p].claim, s.procs[p].log));
  }

  lemma Receive(cfg: Config, s0: Sys, s: Sys, p: Proc, from: int) returns (s': Sys, r: Response)
    requires Onward(cfg, s0, s, p, from) && p in s.procs && s.procs[p].Called? && cfg.spec.Coding?
    requires Answers(cfg.env, Messages(cfg.spec.prompt, s.procs[p].log))
    ensures Onward(cfg, s0, s', p, from) && MovedTo(s, s', p, Returned(s.procs[p].claim, s.procs[p].log, r))
  {
    r :| cfg.env.answers(Messages(cfg.spec.prompt, s.procs[p].log), r);
    s' := GoTo(cfg, s0, s, p, from, ProviderAnswers(p, r), Returned(s.procs[p].claim, s.procs[p].log, r));
  }

  lemma Keep(cfg: Config, s0: Sys, s: Sys, p: Proc, from: int) returns (s': Sys)
    requires Onward(cfg, s0, s, p, from) && p in s.procs && s.procs[p].Returned? && cfg.spec.Coding?
    ensures Onward(cfg, s0, s', p, from)
    ensures MovedTo(s, s', p, Answered(s.procs[p].claim, s.procs[p].log, s.procs[p].answer))
  {
    s' := GoTo(cfg, s0, s, p, from, StoreAnswer(p), Answered(s.procs[p].claim, s.procs[p].log, s.procs[p].answer));
  }

  // From a missed lookup to an answer in hand.
  lemma Ask(cfg: Config, s0: Sys, s: Sys, p: Proc, from: int) returns (s': Sys)
    requires Onward(cfg, s0, s, p, from) && cfg.spec.Coding? && Usable(cfg.env)
    requires p in s.procs && s.procs[p].Missed?
    ensures Onward(cfg, s0, s', p, from) && s'.rows == s.rows
    ensures p in s'.procs && s'.procs[p].Answered? && s'.procs[p].claim == s.procs[p].claim
  {
    var s1 := Record(cfg, s0, s, p, from);
    var s2, r := Receive(cfg, s0, s1, p, from);
    s' := Keep(cfg, s0, s2, p, from);
  }

  // The holder's directory is there, and the tool call in its hand does not raise.
  lemma ToolIsUsable(cfg: Config, s: Sys, p: Proc, now: int)
    requires cfg.fenced && Reachable(cfg, s) && Usable(cfg.env)
    requires p in s.procs && s.procs[p].Answered? && HoldsLease(s.rows.task, s.procs[p].claim, now)
    ensures cfg.spec.Coding? && s.procs[p].log == s.rows.log && s.procs[p].claim.attempt in s.dirs
    ensures Execute(cfg.env, s.dirs[s.procs[p].claim.attempt], s.procs[p].answer.action).Performed?
  {
    ReachableIsFenced(cfg, s);
    var at := s.procs[p];
    assert HolderOk(cfg, s.rows.log, s.dirs, at) && LocalOk(cfg, s.rows.log, s.rows.task.attempt, at);
    UsableAnswer(cfg.env, Messages(cfg.spec.prompt, at.log), at.answer, s.dirs[at.claim.attempt]);
  }

  lemma ToolUsed(cfg: Config, s: Sys, p: Proc)
    requires p in s.procs && s.procs[p].Answered? && s.procs[p].log == s.rows.log && s.procs[p].claim.attempt in s.dirs
    requires Execute(cfg.env, s.dirs[s.procs[p].claim.attempt], s.procs[p].answer.action).Performed?
    ensures Prepared(s, Step(cfg, s, ExecuteTool(p)), p)
  {
  }

  lemma UseTool(cfg: Config, s0: Sys, s: Sys, p: Proc, from: int, now: int) returns (s': Sys)
    requires cfg.fenced && Onward(cfg, s0, s, p, from) && Usable(cfg.env)
    requires p in s.procs && s.procs[p].Answered? && HoldsLease(s.rows.task, s.procs[p].claim, now)
    ensures Onward(cfg, s0, s', p, from) && Prepared(s, s', p)
  {
    ToolIsUsable(cfg, s, p, now);
    ToolUsed(cfg, s, p);
    s' := Go(cfg, s0, s, p, from, ExecuteTool(p));
  }

  // After the limits and the cache lookup.
  ghost predicate Decided(s: Sys, s': Sys, p: Proc) {
    && p in s.procs && p in s'.procs && s'.rows == s.rows && s'.procs[p].claim == s.procs[p].claim
    && var at := s'.procs[p]; at.Missed? || at.Answered? || (at.Ready? && at.n == |s.rows.log|)
  }

  lemma LimitsAndLookup(cfg: Config, s: Sys, p: Proc)
    requires p in s.procs && s.procs[p].Have? && s.procs[p].mounted && s.procs[p].log == s.rows.log
    ensures Decided(s, Step(cfg, s, NextStep(p)), p)
  {
  }

  lemma Decide(cfg: Config, s0: Sys, s: Sys, p: Proc, from: int) returns (s': Sys)
    requires Onward(cfg, s0, s, p, from)
    requires p in s.procs && s.procs[p].Have? && s.procs[p].mounted && s.procs[p].log == s.rows.log
    ensures Onward(cfg, s0, s', p, from) && Decided(s, s', p)
  {
    LimitsAndLookup(cfg, s, p);
    s' := Go(cfg, s0, s, p, from, NextStep(p));
  }

  lemma PrepareCoding(cfg: Config, s0: Sys, s: Sys, p: Proc, from: int, now: int) returns (s': Sys)
    requires cfg.fenced && Onward(cfg, s0, s, p, from) && AtWork(s, p, now) && cfg.spec.Coding? && Usable(cfg.env)
    requires s.procs[p].mounted || StringContents(s.rows.log)
    ensures Onward(cfg, s0, s', p, from) && Prepared(s, s', p)
  {
    s' := ReadAndMount(cfg, s0, s, p, from);
    s' := Decide(cfg, s0, s', p, from);
    if s'.procs[p].Missed? { s' := Ask(cfg, s0, s', p, from); }
    if s'.procs[p].Answered? { s' := UseTool(cfg, s0, s', p, from, now); }
  }

  /* ---------- to the end ---------- */

  function Bound(spec: Spec): int { if spec.Toy? then spec.steps else spec.maxSteps }

  // The steps a run that has not ended may still take.
  function StepsLeft(spec: Spec, n: nat): nat { if n < Bound(spec) then Bound(spec) - n else 0 }

  lemma LastToyStepIsFinal(cfg: Config, log: seq<Event>)
    requires cfg.spec.Toy? && 1 <= cfg.spec.steps <= |log| && AllJustified(cfg, log)
    ensures log[cfg.spec.steps - 1].meta.final
  {
    var i := cfg.spec.steps - 1;
    assert Justified(cfg, log[..i], log[i]);
  }

  lemma OpenToyIsShort(cfg: Config, s: Sys)
    requires cfg.fenced && Reachable(cfg, s) && cfg.spec.Toy? && cfg.spec.steps >= 1 && !s.rows.run.status.Terminal()
    ensures |s.rows.log| < cfg.spec.steps
  {
    ReachableIsFenced(cfg, s);
    if |s.rows.log| >= cfg.spec.steps { LastToyStepIsFinal(cfg, s.rows.log); }
  }

  lemma OpenCodingIsShort(cfg: Config, s: Sys, p: Proc)
    requires cfg.fenced && Reachable(cfg, s) && cfg.spec.Coding?
    requires p in s.procs && s.procs[p].Ready? && s.procs[p].n == |s.rows.log| && !s.procs[p].out.final
    ensures |s.rows.log| < cfg.spec.maxSteps
  {
    ReachableIsFenced(cfg, s);
    var at := s.procs[p];
    assert LocalOk(cfg, s.rows.log, s.rows.task.attempt, at);
    assert s.rows.log[..at.n] == s.rows.log;
  }

  // The run has ended, or it is one step further with p still at work.
  ghost predicate Progress(cfg: Config, s: Sys, s': Sys, p: Proc, now: int) {
    || s'.rows.run.status.Terminal()
    || (AtWork(s', p, now) && s'.procs[p].mounted == cfg.spec.Coding? && |s'.rows.log| == |s.rows.log| + 1
        && |s.rows.log| < Bound(cfg.spec))
  }

  // A held lease backs a run that has not ended.
  lemma HeldIsOpen(cfg: Config, s: Sys, p: Proc, now: int)
    requires cfg.fenced && Reachable(cfg, s) && p in s.procs && HoldsLease(s.rows.task, s.procs[p].claim, now)
    ensures !s.rows.run.status.Terminal()
  {
    ReachableIsFenced(cfg, s);
  }

  lemma CommitProgresses(cfg: Config, s: Sys, p: Proc, now: int)
    requires cfg.fenced && Reachable(cfg, s) && (cfg.spec.Toy? ==> cfg.spec.steps >= 1)
    requires p in s.procs && s.procs[p].Ready? && s.procs[p].n == |s.rows.log|
    requires HoldsLease(s.rows.task, s.procs[p].claim, now)
    ensures Progress(cfg, s, Step(cfg, s, Commit(p, now)), p, now)
  {
    CommitWritesOrIsRejected(cfg, s, p, now);
    if !s.procs[p].out.final {
      HeldIsOpen(cfg, s, p, now);
      if cfg.spec.Toy? { OpenToyIsShort(cfg, s); } else { OpenCodingIsShort(cfg, s, p); }
    }
  }

  lemma CommitPrepared(cfg: Config, s0: Sys, s: Sys, p: Proc, from: int, now: int) returns (s': Sys)
    requires cfg.fenced && Onward(cfg, s0, s, p, from) && (cfg.spec.Toy? ==> cfg.spec.steps >= 1) && from <= now
    requires p in s.procs && s.procs[p].Ready? && s.procs[p].n == |s.rows.log|
    requires HoldsLease(s.rows.task, s.procs[p].claim, now)
    ensures Onward(cfg, s0, s', p, from) && Progress(cfg, s, s', p, now)
  {
    CommitProgresses(cfg, s, p, now);
    s' := Go(cfg, s0, s, p, from, Commit(p, now));
  }

  lemma Round(cfg: Config, s0: Sys, s: Sys, p: Proc, from: int, now: int) returns (s': Sys)
    requires cfg.fenced && Onward(cfg, s0, s, p, from) && AtWork(s, p, now) && from <= now
    requires cfg.spec.Toy? ==> cfg.spec.steps >= 1
    requires cfg.spec.Coding? ==> Usable(cfg.env) && (s.procs[p].mounted || StringContents(s.rows.log))
    ensures Onward(cfg, s0, s', p, from) && Progress(cfg, s, s', p, now)
  {
    if cfg.spec.Toy? { s' := PrepareToy(cfg, s0, s, p, from, now); }
    else { s' := PrepareCoding(cfg, s0, s, p, from, now); }
    s' := CommitPrepared(cfg, s0, s', p, from, now);
  }

  lemma {:induction false} WorkToTheEnd(cfg: Config, s0: Sys, s: Sys, p: Proc, from: int, now: int) returns (s': Sys)
    requires cfg.fenced && Onward(cfg, s0, s, p, from) && AtWork(s, p, now) && from <= now
    requires cfg.spec.Toy? ==> cfg.spec.steps >= 1
    requires cfg.spec.Coding? ==> Usable(cfg.env) && (s.procs[p].mounted || StringContents(s.rows.log))
    ensures Onward(cfg, s0, s', p, from) && s'.rows.run.status.Terminal()
    decreases StepsLeft(cfg.spec, |s.rows.log|)
  {
    s' := Round(cfg, s0, s, p, from, now);
    if !s'.rows.run.status.Terminal() { s' := WorkToTheEnd(cfg, s0, s', p, from, now); }
  }

  /** From every reachable fenced state, however it came about, steps of any one idle process
      and of the reaper, at clock readings as late as one likes, lead to the end of the run, if
      the provider's answers are usable and the workspace can be rebuilt. */
  lemma NoRunIsStranded(cfg: Config, s: Sys, p: Proc, from: int)
    requires cfg.fenced && Reachable(cfg, s) && p !in s.procs
    requires cfg.spec.Toy? ==> cfg.spec.steps >= 1
    requires cfg.spec.Coding? ==> Usable(cfg.env) && StringContents(s.rows.log)
    ensures exists s' :: LeadsTo(cfg, s, s', p, from) && s'.rows.run.status.Terminal()
  {
    if s.rows.run.status.Terminal() {
      assert s == Exec(cfg, s, []);
      assert LeadsTo(cfg, s, s, p, from);
    } else {
      var s1, now := TakeOver(cfg, s, p, from);
      var s2 := WorkToTheEnd(cfg, s, s1, p, from, now);
    }
  }
}
