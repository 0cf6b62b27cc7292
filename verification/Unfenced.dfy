/** Without the fence the log stays gapless, but a zombie regresses the writer tokens and
    writes behind the final event: a run in the manner of chaos/scenarios.py's zombie_replay. */
module Unfenced {
  import opened Store
  import opened Leases
  import opened Engine
  import opened Protocol
  import opened Durability
  import opened Fencing

  // Process p reads the log and computes a toy step.
  lemma Prepare(cfg: Config, s: Sys, p: Proc) returns (s': Sys)
    requires Reachable(cfg, s) && cfg.spec.Toy?
    requires p in s.procs && s.procs[p].Loop? && !s.procs[p].mounted
    ensures Reachable(cfg, s') && s'.rows == s.rows
    ensures var c, n := s.procs[p].claim, |s.rows.log|;
            s'.procs == s.procs[p := Ready(c, n, ToyOutcome(cfg.spec.steps, cfg.spec.cost, c, n), false)]
  {
    var s1 := Step(cfg, s, ReadLog(p));
    Advance(cfg, s, ReadLog(p));
    s' := Step(cfg, s1, NextStep(p));
    Advance(cfg, s1, NextStep(p));
  }

  lemma CommitsNow(cfg: Config, s: Sys, p: Proc, now: int)
    requires Reachable(cfg, s) && p in s.procs && s.procs[p].Ready?
    ensures Reachable(cfg, StepCommit(cfg, s, p, s.procs[p].claim, s.procs[p].n, s.procs[p].out, now))
  {
    Advance(cfg, s, Commit(p, now));
  }

  // Process p commits a toy step that it computed on the whole log.
  lemma CommitToyStep(cfg: Config, s: Sys, p: Proc, now: int) returns (s': Sys)
    requires Reachable(cfg, s) && cfg.spec.Toy?
    requires p in s.procs && var at := s.procs[p];
             && at == Ready(at.claim, |s.rows.log|,
                            ToyOutcome(cfg.spec.steps, cfg.spec.cost, at.claim, |s.rows.log|), false)
             && PassesFence(cfg.fenced, s.rows.task, at.claim, now)
    ensures Reachable(cfg, s')
    ensures var c, n := s.procs[p].claim, |s.rows.log|;
            && |s'.rows.log| == n + 1 && s'.rows.log[..n] == s.rows.log
            && s'.rows.log[n].meta == Meta(c.worker, c.attempt, n == cfg.spec.steps - 1)
            && CostOf(s'.rows.log[n].payload) == cfg.spec.cost
            && s'.rows.task.attempt == s.rows.task.attempt
            && s'.procs == if n == cfg.spec.steps - 1 then s.procs - {p} else s.procs[p := Loop(c, false)]
  {
    ReachableIsBase(cfg, s);
    CommitShape(cfg, s, p, now);
    CommitsNow(cfg, s, p, now);
    s' := StepCommit(cfg, s, p, s.procs[p].claim, |s.rows.log|, s.procs[p].out, now);
  }

  // Process p reads the log, computes a toy step and commits it, whatever became of its claim.
  lemma OneToyStep(cfg: Config, s: Sys, p: Proc) returns (s': Sys)
    requires Reachable(cfg, s) && !cfg.fenced && cfg.spec.Toy?
    requires p in s.procs && s.procs[p].Loop? && !s.procs[p].mounted
    ensures Reachable(cfg, s')
    ensures var c, n := s.procs[p].claim, |s.rows.log|;
            && |s'.rows.log| == n + 1 && s'.rows.log[..n] == s.rows.log
            && s'.rows.log[n].meta == Meta(c.worker, c.attempt, n == cfg.spec.steps - 1)
            && s'.rows.task.attempt == s.rows.task.attempt
            && s'.procs == if n == cfg.spec.steps - 1 then s.procs - {p} else s.procs
  {
    var s1 := Prepare(cfg, s, p);
    s' := CommitToyStep(cfg, s1, p, 0);
  }

  lemma {:induction false} ManyToySteps(cfg: Config, s: Sys, p: Proc, upTo: nat) returns (s': Sys)
    requires Reachable(cfg, s) && !cfg.fenced && cfg.spec.Toy?
    requires p in s.procs && s.procs[p].Loop? && !s.procs[p].mounted
    requires |s.rows.log| <= upTo < cfg.spec.steps
    ensures Reachable(cfg, s') && s'.procs == s.procs && s'.rows.task.attempt == s.rows.task.attempt
    ensures |s'.rows.log| == upTo && s.rows.log <= s'.rows.log
    ensures forall i :: |s.rows.log| <= i < upTo ==> s'.rows.log[i].meta.attempt == s.procs[p].claim.attempt
    decreases upTo - |s.rows.log|
  {
    s' := s;
    if |s.rows.log| < upTo {
      var s1 := OneToyStep(cfg, s, p);
      s' := ManyToySteps(cfg, s1, p, upTo);
      assert s'.rows.log[|s.rows.log|] == s1.rows.log[|s.rows.log|];
    }
  }

  // Process p raises a fatal error and counts the events.
  lemma RaiseAndCount(cfg: Config, s: Sys, p: Proc) returns (s': Sys)
    requires Reachable(cfg, s) && p in s.procs && s.procs[p].Loop?
    ensures Reachable(cfg, s') && s'.rows == s.rows
    ensures var c := s.procs[p].claim;
            s'.procs == s.procs[p := Ready(c, |s.rows.log|, FailedOutcome(true, c.attempt), true)]
  {
    var c := s.procs[p].claim;
    Advance(cfg, s, Raise(p, true));
    var s1 := At(s, p, Counting(c, true));
    Advance(cfg, s1, CountEvents(p));
    s' := At(s1, p, Ready(c, |s.rows.log|, FailedOutcome(true, c.attempt), true));
  }

  // Process p commits a final outcome on the whole log.
  lemma CommitLast(cfg: Config, s: Sys, p: Proc) returns (s': Sys)
    requires Reachable(cfg, s) && !cfg.fenced && p in s.procs && s.procs[p].Ready?
    requires s.procs[p].n == |s.rows.log| && s.procs[p].out.final
    ensures Reachable(cfg, s') && s'.procs == s.procs - {p} && s'.rows.task.attempt == s.rows.task.attempt
    ensures s'.rows.log == s.rows.log + [AsEvent(s.procs[p].claim, |s.rows.log|, s.procs[p].out)]
  {
    ReachableIsBase(cfg, s);
    CommitShape(cfg, s, p, 0);
    CommitsNow(cfg, s, p, 0);
    s' := StepCommit(cfg, s, p, s.procs[p].claim, s.procs[p].n, s.procs[p].out, 0);
  }

  // Process p closes the run under its token, whatever became of it.
  lemma GiveUp(cfg: Config, s: Sys, p: Proc) returns (s': Sys)
    requires Reachable(cfg, s) && !cfg.fenced && p in s.procs && s.procs[p].Loop?
    ensures Reachable(cfg, s') && s'.procs == s.procs - {p} && s'.rows.task.attempt == s.rows.task.attempt
    ensures var c, n := s.procs[p].claim, |s.rows.log|;
            && |s'.rows.log| == n + 1 && s'.rows.log[..n] == s.rows.log
            && s'.rows.log[n].meta == Meta(c.worker, c.attempt, true)
  {
    var s1 := RaiseAndCount(cfg, s, p);
    s' := CommitLast(cfg, s1, p);
  }

  // Worker 0 pauses past its lease, and worker 1 holds the task.
  lemma Superseded(cfg: Config) returns (s: Sys)
    ensures Reachable(cfg, s) && s.rows.log == [] && s.rows.task.attempt == 2 && s.procs.Keys == {0, 1}
    ensures s.procs[0] == Loop(Claim(cfg.task, cfg.run, "A", 1), false)
    ensures s.procs[1] == Loop(Claim(cfg.task, cfg.run, "B", 2), false)
  {
    s := Init(cfg, 0);
    assert s == Exec(cfg, s, []);
    Advance(cfg, s, ClaimTask(0, "A", 0, 1));
    s := Step(cfg, s, ClaimTask(0, "A", 0, 1));
    Advance(cfg, s, Reap(2));
    s := Step(cfg, s, Reap(2));
    Advance(cfg, s, ClaimTask(1, "B", 2, 9));
    s := Step(cfg, s, ClaimTask(1, "B", 2, 9));
  }

  lemma StaleWriterCloses(cfg: Config) returns (s: Sys)
    requires !cfg.fenced
    ensures Reachable(cfg, s) && !Chronological(s.rows.log, s.rows.task.attempt) && !FinalOnlyLast(s.rows.log)
  {
    var s0 := Superseded(cfg);
    var s1 := GiveUp(cfg, s0, 1);
    s := GiveUp(cfg, s1, 0);
    assert s.rows.log[0] == s1.rows.log[0];
  }

  /** For every workflow, provider and limit, the fence is exactly what keeps stale writers out: it
      decides whether tokens rise along every log, and whether nothing follows a final event. */
  lemma SafeExactlyIfFenced(cfg: Config)
    ensures (forall s :: Reachable(cfg, s) ==> Chronological(s.rows.log, s.rows.task.attempt)) <==> cfg.fenced
    ensures (forall s :: Reachable(cfg, s) ==> FinalOnlyLast(s.rows.log)) <==> cfg.fenced
  {
    if cfg.fenced {
      forall s | Reachable(cfg, s)
        ensures Chronological(s.rows.log, s.rows.task.attempt) && FinalOnlyLast(s.rows.log)
      {
        ReachableIsFenced(cfg, s);
      }
    } else {
      var s := StaleWriterCloses(cfg);
    }
  }

  /** For every toy run: worker A pauses past its lease, B takes over and finishes the run, and
      A wakes and writes one more event under its stale token. */
  lemma ZombieReplay(cfg: Config)
    requires !cfg.fenced && cfg.spec.Toy? && cfg.spec.steps >= 1
    ensures exists s :: Reachable(cfg, s) && !Chronological(s.rows.log, s.rows.task.attempt)
                        && !FinalOnlyLast(s.rows.log)
  {
    var n := cfg.spec.steps;
    var s3 := Superseded(cfg);
    var s4 := ManyToySteps(cfg, s3, 1, n - 1);
    var s5 := OneToyStep(cfg, s4, 1);
    var s6 := OneToyStep(cfg, s5, 0);
    assert s6.rows.log[n - 1] == s5.rows.log[n - 1];
  }
}
