/** A run that raises at every attempt does not retry for ever: once the attempts are used up, the
    worker closes it as failed. */
module Poison {
  import opened Store
  import opened Leases
  import opened Engine
  import opened Protocol
  import opened Guarantees
  import opened LeaseClock
  import opened Recovery

  // A step of the reaper, or of p whose every attempt raises before it computes a step.
  predicate Failing(l: Label, p: Proc, from: int) {
    && ReadsFrom(l, from)
    && (l.Reap? || (l.p == p && (l.ClaimTask? || (l.Raise? && !l.fatal)
                                 || l.ReleaseTask? || l.CountEvents? || l.Commit?)))
  }

  ghost predicate FailsBy(cfg: Config, s0: Sys, s: Sys, p: Proc, from: int) {
    exists ls :: s == Exec(cfg, s0, ls) && forall i :: 0 <= i < |ls| ==> Failing(ls[i], p, from)
  }

  // s arises from s0 by such steps.
  ghost predicate Fails(cfg: Config, s0: Sys, s: Sys, p: Proc, from: int) {
    Reachable(cfg, s) && FailsBy(cfg, s0, s, p, from)
  }

  lemma FailsFurther(cfg: Config, s0: Sys, ls: seq<Label>, l: Label, p: Proc, from: int, s': Sys)
    requires (forall i :: 0 <= i < |ls| ==> Failing(ls[i], p, from)) && Failing(l, p, from)
    requires s' == Exec(cfg, s0, ls + [l])
    ensures FailsBy(cfg, s0, s', p, from)
  {
    assert forall i :: 0 <= i < |ls + [l]| ==> Failing((ls + [l])[i], p, from);
  }

  lemma FailOn(cfg: Config, s0: Sys, s: Sys, p: Proc, from: int, l: Label) returns (s': Sys)
    requires Fails(cfg, s0, s, p, from) && Failing(l, p, from)
    ensures s' == Step(cfg, s, l) && Fails(cfg, s0, s', p, from)
  {
    s' := Step(cfg, s, l);
    Advance(cfg, s, l);
    var ls :| s == Exec(cfg, s0, ls) && forall i :: 0 <= i < |ls| ==> Failing(ls[i], p, from);
    ExecMore(cfg, s0, ls, l);
    FailsFurther(cfg, s0, ls, l, p, from, s');
  }

  // The run is open and p is idle.
  ghost predicate OpenFor(s: Sys, p: Proc) {
    !s.rows.run.status.Terminal() && p !in s.procs
  }

  lemma Requeues(cfg: Config, s0: Sys, s: Sys, p: Proc, from: int) returns (s': Sys)
    requires cfg.fenced && Fails(cfg, s0, s, p, from) && OpenFor(s, p)
    ensures Fails(cfg, s0, s', p, from) && OpenFor(s', p) && s'.rows.task.status.Queued?
    ensures s'.rows.log == s.rows.log && s'.rows.task.attempt == s.rows.task.attempt
  {
    OpenTask(cfg, s);
    s' := s;
    if s.rows.task.status.Leased? {
      s' := FailOn(cfg, s0, s, p, from, Reap(Later(s.rows.task.expires.value + 1, from)));
    }
  }

  lemma Claimed(cfg: Config, s: Sys, p: Proc, now: int)
    requires p !in s.procs && Claimable(s.rows.task, now)
    ensures var s' := Step(cfg, s, ClaimTask(p, "worker", now, 1));
            && AtWork(s', p, now) && s'.rows.log == s.rows.log
            && s'.procs[p].claim.attempt == s.rows.task.attempt + 1 == s'.rows.task.attempt
  {
  }

  lemma TakesOver(cfg: Config, s0: Sys, s: Sys, p: Proc, from: int) returns (s': Sys, now: int)
    requires cfg.fenced && Fails(cfg, s0, s, p, from) && OpenFor(s, p)
    ensures Fails(cfg, s0, s', p, from) && AtWork(s', p, now) && now >= from
    ensures s'.rows.log == s.rows.log && s'.procs[p].claim.attempt == s.rows.task.attempt + 1 == s'.rows.task.attempt
  {
    var s1 := Requeues(cfg, s0, s, p, from);
    now := Later(s1.rows.task.available, from);
    Claimed(cfg, s1, p, now);
    s' := FailOn(cfg, s0, s1, p, from, ClaimTask(p, "worker", now, 1));
  }

  lemma Raised(cfg: Config, s: Sys, p: Proc)
    requires p in s.procs && s.procs[p].Loop?
    ensures var c := s.procs[p].claim;
            Step(cfg, s, Raise(p, false))
              == At(s, p, if c.attempt < cfg.maxAttempts then Releasing(c) else Counting(c, false))
  {
  }

  lemma Released(cfg: Config, s: Sys, p: Proc, now: int, backoff: int)
    requires p in s.procs && s.procs[p].Releasing? && Carries(s.rows.task, s.procs[p].claim)
    ensures var s' := Step(cfg, s, ReleaseTask(p, now, backoff));
            s'.rows == s.rows.(task := Release(s.rows.task, now, backoff)) && p !in s'.procs
  {
  }

  // The attempt raises and may be retried.
  lemma Retries(cfg: Config, s0: Sys, s: Sys, p: Proc, from: int, now: int, backoff: int) returns (s': Sys)
    requires cfg.fenced && Fails(cfg, s0, s, p, from) && AtWork(s, p, now) && now >= from
    requires s.procs[p].claim.attempt < cfg.maxAttempts && !s.rows.run.status.Terminal()
    ensures Fails(cfg, s0, s', p, from) && OpenFor(s', p)
    ensures s'.rows.log == s.rows.log && s'.rows.task.attempt == s.rows.task.attempt
  {
    Raised(cfg, s, p);
    var s1 := FailOn(cfg, s0, s, p, from, Raise(p, false));
    Released(cfg, At(s, p, Releasing(s.procs[p].claim)), p, now, backoff);
    s' := FailOn(cfg, s0, s1, p, from, ReleaseTask(p, now, backoff));
  }

  lemma Counted(cfg: Config, s: Sys, p: Proc)
    requires p in s.procs && s.procs[p].Counting?
    ensures var at := s.procs[p];
            Step(cfg, s, CountEvents(p))
              == At(s, p, Ready(at.claim, |s.rows.log|, FailedOutcome(at.fatal, at.claim.attempt), true))
  {
  }

  // p gives up on the whole log.
  lemma Counts(cfg: Config, s0: Sys, s: Sys, p: Proc, from: int, now: int) returns (s': Sys)
    requires cfg.fenced && Fails(cfg, s0, s, p, from) && AtWork(s, p, now)
    requires s.procs[p].claim.attempt >= cfg.maxAttempts
    ensures Fails(cfg, s0, s', p, from) && s'.rows == s.rows && p in s'.procs
    ensures var c := s.procs[p].claim; s'.procs[p] == Ready(c, |s.rows.log|, FailedOutcome(false, c.attempt), true)
  {
    Raised(cfg, s, p);
    var s1 := FailOn(cfg, s0, s, p, from, Raise(p, false));
    Counted(cfg, At(s, p, Counting(s.procs[p].claim, false)), p);
    s' := FailOn(cfg, s0, s1, p, from, CountEvents(p));
  }

  // `after` is `before`, closed by the event that reports the attempts used up.
  predicate ClosedAsFailed(before: seq<Event>, after: Sys) {
    && |after.rows.log| == |before| + 1 && after.rows.log[..|before|] == before
    && after.rows.log[|before|].payload == ReasonPayload(WorkerError(after.rows.task.attempt))
    && after.rows.run.status == Failed && after.rows.task.status.Done?
  }

  lemma GivesUp(cfg: Config, s0: Sys, s: Sys, p: Proc, from: int, now: int) returns (s': Sys)
    requires cfg.fenced && Fails(cfg, s0, s, p, from) && AtWork(s, p, now) && now >= from
    requires s.procs[p].claim.attempt == s.rows.task.attempt >= cfg.maxAttempts
    ensures Fails(cfg, s0, s', p, from) && ClosedAsFailed(s.rows.log, s')
  {
    var s1 := Counts(cfg, s0, s, p, from, now);
    CommitWritesOrIsRejected(cfg, s1, p, now);
    s' := FailOn(cfg, s0, s1, p, from, Commit(p, now));
    StepRows(cfg, s1, Commit(p, now));
  }

  lemma {:induction false} FailsToTheEnd(cfg: Config, s0: Sys, s: Sys, p: Proc, from: int, backoff: int)
    returns (s': Sys)
    requires cfg.fenced && Fails(cfg, s0, s, p, from) && OpenFor(s, p)
    ensures Fails(cfg, s0, s', p, from) && ClosedAsFailed(s.rows.log, s')
    decreases cfg.maxAttempts - s.rows.task.attempt
  {
    var s1, now := TakesOver(cfg, s0, s, p, from);
    if s1.rows.task.attempt < cfg.maxAttempts {
      HeldIsOpen(cfg, s1, p, now);
      var s2 := Retries(cfg, s0, s1, p, from, now, backoff);
      s' := FailsToTheEnd(cfg, s0, s2, p, from, backoff);
    } else {
      s' := GivesUp(cfg, s0, s1, p, from, now);
    }
  }

  /** From every reachable fenced state of an open run, an idle worker whose attempts all raise
      ends it: retried at most up to max_attempts, the run is closed as failed, with the reason. */
  lemma PoisonRunEndsFailed(cfg: Config, s: Sys, p: Proc, from: int, backoff: int)
    requires cfg.fenced && Reachable(cfg, s) && OpenFor(s, p)
    ensures exists s' :: Fails(cfg, s, s', p, from) && ClosedAsFailed(s.rows.log, s')
  {
    assert s == Exec(cfg, s, []);
    var s' := FailsToTheEnd(cfg, s, s, p, from, backoff);
  }
}
