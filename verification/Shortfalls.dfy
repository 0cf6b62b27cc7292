/** What the documentation suggests and the protocol does not give: calls of one step in the order
    of their attempts, with the exact condition, and a bound on attempts. */
module Shortfalls {
  import opened Options
  import opened Store
  import opened Money
  import opened Budget
  import opened Engine
  import opened Protocol
  import opened Durability

  /* ---------- a call that is recorded late ---------- */

  // Some step has a later call of a smaller attempt.
  predicate RecordedLate(s: Sys) {
    exists i, j :: 0 <= i < j < |s.calls| && s.calls[i].step == s.calls[j].step
                   && s.calls[i].attempt > s.calls[j].attempt
  }

  // The limits leave the first step to the provider.
  predicate AsksAtAll(cfg: Config) {
    cfg.spec.Coding? && CheckLimits([], cfg.budget, cfg.spec.maxSteps) == None
  }

  // A process that just claimed the task looks step 0 up in vain.
  lemma LookUp(cfg: Config, s: Sys, p: Proc) returns (s': Sys)
    requires AsksAtAll(cfg) && Reachable(cfg, s) && s.rows.log == [] && s.cache == map[]
    requires p in s.procs && s.procs[p].Loop? && !s.procs[p].mounted
    ensures Reachable(cfg, s') && s'.rows == s.rows && s'.cache == s.cache
    ensures s'.procs == s.procs[p := Missed(s.procs[p].claim, [])]
  {
    Advance(cfg, s, ReadLog(p));
    var s1 := Step(cfg, s, ReadLog(p));
    Advance(cfg, s1, Mount(p));
    var s2 := Step(cfg, s1, Mount(p));
    Advance(cfg, s2, NextStep(p));
    s' := Step(cfg, s2, NextStep(p));
  }

  // Two attempts have looked step 0 up in vain, one after the other.
  lemma TwoLookUps(cfg: Config) returns (s: Sys)
    requires AsksAtAll(cfg)
    ensures Reachable(cfg, s) && 0 in s.procs && 1 in s.procs && s.procs[0].Missed? && s.procs[1].Missed?
    ensures s.procs[0].log == s.procs[1].log == [] && s.procs[0].claim.attempt < s.procs[1].claim.attempt
  {
    var s0 := Init(cfg, 0);
    assert s0 == Exec(cfg, s0, []);
    Advance(cfg, s0, ClaimTask(0, "A", 0, 1));
    var s1 := LookUp(cfg, Step(cfg, s0, ClaimTask(0, "A", 0, 1)), 0);
    Advance(cfg, s1, Reap(2));
    var s2 := Step(cfg, s1, Reap(2));
    Advance(cfg, s2, ClaimTask(1, "B", 2, 9));
    s := LookUp(cfg, Step(cfg, s2, ClaimTask(1, "B", 2, 9)), 1);
  }

  // The first one records its call last.
  lemma LateRecord(cfg: Config) returns (s: Sys)
    requires AsksAtAll(cfg)
    ensures Reachable(cfg, s) && RecordedLate(s)
  {
    var s0 := TwoLookUps(cfg);
    var s1 := Step(cfg, s0, RecordCall(1));
    Advance(cfg, s0, RecordCall(1));
    s := Step(cfg, s1, RecordCall(0));
    Advance(cfg, s1, RecordCall(0));
    var n := |s0.calls|;
    assert s.calls[n].attempt > s.calls[n + 1].attempt;
  }

  // Limits that stop the empty log stop every log, for none is ever charged.
  lemma {:induction false} StoppedForGood(cfg: Config, log: seq<Event>)
    requires cfg.spec.Coding? && !AsksAtAll(cfg) && AllJustified(cfg, log)
    ensures Total(log) == 0.0 && CheckLimits(log, cfg.budget, cfg.spec.maxSteps).Some?
  {
    if log != [] {
      var pre := log[..|log| - 1];
      forall i | 0 <= i < |pre| ensures Justified(cfg, pre[..i], pre[i]) {
        assert pre[..i] == log[..i] && Justified(cfg, log[..i], log[i]);
      }
      StoppedForGood(cfg, pre);
      assert Justified(cfg, pre, log[|log| - 1]);
    }
  }

  // A process that would record a call has a log within the limits.
  lemma CallersAreWithinLimits(cfg: Config, s: Sys, p: Proc)
    requires Base(cfg, s) && p in s.procs && s.procs[p].Missed?
    ensures AsksAtAll(cfg)
  {
    var log, snap := s.rows.log, s.procs[p].log;
    assert LocalOk(cfg, log, s.rows.task.attempt, s.procs[p]);
    if !AsksAtAll(cfg) {
      forall i | 0 <= i < |snap| ensures Justified(cfg, snap[..i], snap[i]) {
        assert snap[..i] == log[..i] && Justified(cfg, log[..i], log[i]);
      }
      StoppedForGood(cfg, snap);
    }
  }

  lemma {:induction false} NobodyAsks(cfg: Config, now: int, ls: seq<Label>)
    requires !AsksAtAll(cfg)
    ensures Exec(cfg, Init(cfg, now), ls).calls == []
  {
    if ls != [] {
      var pre, l := ls[..|ls| - 1], ls[|ls| - 1];
      NobodyAsks(cfg, now, pre);
      var s := Exec(cfg, Init(cfg, now), pre);
      assert Reachable(cfg, s);
      ReachableIsBase(cfg, s);
      StepCalls(cfg, s, l);
      if l.RecordCall? && l.p in s.procs && s.procs[l.p].Missed? { CallersAreWithinLimits(cfg, s, l.p); }
    }
  }

  /** A zombie may record its call after that of a later attempt: exactly in those runs, fenced or
      not, that ask the provider at all. */
  lemma CallsRecordedLate(cfg: Config)
    ensures (exists s :: Reachable(cfg, s) && RecordedLate(s)) <==> AsksAtAll(cfg)
  {
    if AsksAtAll(cfg) {
      var s := LateRecord(cfg);
    } else {
      forall s | Reachable(cfg, s) ensures !RecordedLate(s) {
        var now, ls :| s == Exec(cfg, Init(cfg, now), ls);
        NobodyAsks(cfg, now, ls);
      }
    }
  }

  /* ---------- attempts without bound ---------- */

  /** Crash by crash the reaper gives the task to a new attempt: no bound on attempts holds, with
      or without the fence. */
  lemma {:induction false} AttemptsAreUnbounded(cfg: Config, k: nat) returns (s: Sys)
    ensures Reachable(cfg, s) && s.procs == map[] && !s.rows.run.status.Terminal()
    ensures s.rows.task.status.Queued? && s.rows.task.attempt == k
  {
    s := Init(cfg, 0);
    assert s == Exec(cfg, s, []);
    if k > 0 {
      s := AttemptsAreUnbounded(cfg, k - 1);
      var now := s.rows.task.available;
      Advance(cfg, s, ClaimTask(0, "worker", now, 1));
      s := Step(cfg, s, ClaimTask(0, "worker", now, 1));
      Advance(cfg, s, Crash(0));
      s := Step(cfg, s, Crash(0));
      Advance(cfg, s, Reap(now + 2));
      s := Step(cfg, s, Reap(now + 2));
    }
  }
}
