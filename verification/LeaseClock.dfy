/** Leases against the clock: a lost lease stays lost, and a lease ends only by expiry, by a
    release or by the final commit of its own holder. */
module LeaseClock {
  import opened Options
  import opened Store
  import opened Leases
  import opened Engine
  import opened Protocol
  import opened Durability
  import Guarantees

  // The steps that read the clock.
  predicate Reads(l: Label) {
    l.ClaimTask? || l.Heartbeat? || l.Reap? || l.Commit? || l.ReleaseTask?
  }

  // The clock reading of a step, if it takes one, is at or after t.
  predicate ReadsFrom(l: Label, t: int) {
    Reads(l) ==> l.now >= t
  }

  predicate NotBefore(ls: seq<Label>, t: int) {
    forall i :: 0 <= i < |ls| ==> ReadsFrom(ls[i], t)
  }

  // The row is leased to the claim's worker under its token, until after `time`.
  predicate Backs(t: TaskRow, c: Claim, time: int) {
    && t.status == Leased && t.owner == Some(c.worker) && t.attempt == c.attempt
    && t.expires.Some? && time < t.expires.value
  }

  // The claim was issued and the row does not back it at that time.
  predicate Lost(t: TaskRow, c: Claim, time: int) {
    c.attempt <= t.attempt && !Backs(t, c, time)
  }

  lemma LostStays(cfg: Config, s: Sys, l: Label, c: Claim, time: int)
    requires Lost(s.rows.task, c, time) && ReadsFrom(l, time)
    ensures Lost(Step(cfg, s, l).rows.task, c, time)
  {
    StepRows(cfg, s, l);
  }

  /** Once the lease check has failed for a claim, it fails in every continuation whose clock
      does not run back: each later heartbeat finds no row and each later commit is rejected. */
  lemma {:induction false} LossIsPermanent(cfg: Config, s: Sys, ls: seq<Label>, c: Claim, time: int, later: int)
    requires Lost(s.rows.task, c, time) && NotBefore(ls, time) && time <= later
    ensures var s' := Exec(cfg, s, ls);
            && Lost(s'.rows.task, c, time)
            && !Backs(s'.rows.task, c, later)
            && (forall n :: cfg.fenced ==> CommitReply(cfg.fenced, s'.rows, c, later, n).LeaseLost?)
  {
    if ls != [] {
      var pre, l := ls[..|ls| - 1], ls[|ls| - 1];
      LossIsPermanent(cfg, s, pre, c, time, later);
      LostStays(cfg, Exec(cfg, s, pre), l, c, time);
    }
  }

  /** A worker that learns of the loss, by heartbeat or by a rejected commit, has lost the claim
      for good; under the fence it drops it at once. */
  lemma WorkerLearnsOfLoss(cfg: Config, s: Sys, p: Proc, l: Label, ls: seq<Label>)
    requires cfg.fenced && Reachable(cfg, s) && p in s.procs
    requires (l.Heartbeat? || (l.Commit? && s.procs[p].Ready?)) && l.p == p
    requires !Backs(s.rows.task, s.procs[p].claim, l.now) && NotBefore(ls, l.now)
    ensures Step(cfg, s, l).rows == s.rows
    ensures InMain(s.procs[p]) || l.Commit? ==> p !in Step(cfg, s, l).procs
    ensures !Backs(Exec(cfg, Step(cfg, s, l), ls).rows.task, s.procs[p].claim, l.now)
  {
    ReachableIsBase(cfg, s);
    LossIsPermanent(cfg, Step(cfg, s, l), ls, s.procs[p].claim, l.now, l.now);
  }

  /** An expired lease backs nothing, reaped or not: under the fence a commit then changes no row
      and ends the claim, and a heartbeat changes no row. */
  lemma ExpiredLeaseFails(cfg: Config, s: Sys, p: Proc, now: int, lease: int)
    requires p in s.procs && s.rows.task.expires.Some? && s.rows.task.expires.value <= now
    ensures cfg.fenced && s.procs[p].Ready? ==> Step(cfg, s, Commit(p, now)) == Drop(s, p)
    ensures var at := s.procs[p];
            var handling := at.Releasing? || at.Counting? || (at.Ready? && at.closing);
            Step(cfg, s, Heartbeat(p, now, lease)) == if cfg.fenced && !handling then Drop(s, p) else s
  {
  }

  /** An exception ends the step of a process, retried up to the last attempt unless it is fatal; in
      the handling of one, none is handled again. */
  lemma ExceptionsAreHandled(cfg: Config, s: Sys, p: Proc, fatal: bool)
    requires p in s.procs
    ensures var at := s.procs[p];
            var handling := at.Releasing? || at.Counting? || (at.Ready? && at.closing);
            Step(cfg, s, Raise(p, fatal))
              == if handling then s
                 else if at.claim.attempt < cfg.maxAttempts && !fatal then At(s, p, Releasing(at.claim))
                 else At(s, p, Counting(at.claim, fatal))
  {
  }

  // Label k of the run is the commit of event i, by the holder of an unexpired lease.
  ghost predicate CommittedInTime(cfg: Config, s0: Sys, ls: seq<Label>, i: nat, k: nat)
    requires i < |Exec(cfg, s0, ls).rows.log|
  {
    && k < |ls| && ls[k].Commit?
    && var s, e := Exec(cfg, s0, ls[..k]), Exec(cfg, s0, ls).rows.log[i];
       && |s.rows.log| == i && Exec(cfg, s0, ls[..k + 1]).rows.log == s.rows.log + [e]
       && s.rows.task.status == Leased && s.rows.task.owner == Some(e.meta.worker)
       && s.rows.task.attempt == e.meta.attempt
       && s.rows.task.expires.Some? && ls[k].now < s.rows.task.expires.value
  }

  lemma CommitNow(cfg: Config, s: Sys, l: Label)
    requires cfg.fenced && Base(cfg, s) && Step(cfg, s, l).rows.log != s.rows.log
    ensures l.Commit? && l.p in s.procs && s.procs[l.p].Ready? && Backs(s.rows.task, s.procs[l.p].claim, l.now)
    ensures var at := s.procs[l.p]; Step(cfg, s, l).rows.log == s.rows.log + [AsEvent(at.claim, |s.rows.log|, at.out)]
  {
    StepRows(cfg, s, l);
    CommitShape(cfg, s, l.p, l.now);
  }

  lemma InTimeStays(cfg: Config, s0: Sys, ls: seq<Label>, l: Label, i: nat, k: nat)
    requires i < |Exec(cfg, s0, ls).rows.log| && CommittedInTime(cfg, s0, ls, i, k)
    ensures i < |Exec(cfg, s0, ls + [l]).rows.log| && CommittedInTime(cfg, s0, ls + [l], i, k)
  {
    var longer := ls + [l];
    assert longer[..|ls|] == ls && longer[..k] == ls[..k] && longer[..k + 1] == ls[..k + 1];
    Guarantees.StepExtendsLog(cfg, Exec(cfg, s0, ls), l);
  }

  lemma InTimeNow(cfg: Config, s0: Sys, ls: seq<Label>, l: Label)
    requires cfg.fenced && Base(cfg, Exec(cfg, s0, ls))
    requires Step(cfg, Exec(cfg, s0, ls), l).rows.log != Exec(cfg, s0, ls).rows.log
    ensures var i := |Exec(cfg, s0, ls).rows.log|;
            |Exec(cfg, s0, ls + [l]).rows.log| == i + 1 && CommittedInTime(cfg, s0, ls + [l], i, |ls|)
  {
    var longer := ls + [l];
    assert longer[..|ls|] == ls && longer[..|ls| + 1] == longer;
    CommitNow(cfg, Exec(cfg, s0, ls), l);
  }

  /** Every event of a fenced run was committed before the expiry that then stood in the task row,
      by the worker and under the token that stood there. */
  lemma {:induction false} EventsAreInTime(cfg: Config, now: int, ls: seq<Label>, i: nat) returns (k: nat)
    requires cfg.fenced && i < |Exec(cfg, Init(cfg, now), ls).rows.log|
    ensures CommittedInTime(cfg, Init(cfg, now), ls, i, k)
  {
    var s0, pre, l := Init(cfg, now), ls[..|ls| - 1], ls[|ls| - 1];
    assert pre + [l] == ls;
    assert Reachable(cfg, Exec(cfg, s0, pre));
    ReachableIsBase(cfg, Exec(cfg, s0, pre));
    if i < |Exec(cfg, s0, pre).rows.log| {
      k := EventsAreInTime(cfg, now, pre, i);
      InTimeStays(cfg, s0, pre, l, i, k);
    } else {
      k := |pre|;
      InTimeNow(cfg, s0, pre, l);
    }
  }

  /* ---------- the backoff ---------- */

  // The row may not be claimed before the time, and nobody holds it.
  predicate BacksOff(t: TaskRow, until: int, attempt: nat) {
    t.status != Leased && t.available == until && t.attempt == attempt
  }

  lemma BackoffStays(cfg: Config, s: Sys, l: Label, until: int, attempt: nat)
    requires BacksOff(s.rows.task, until, attempt) && (l.ClaimTask? ==> l.now < until)
    ensures BacksOff(Step(cfg, s, l).rows.task, until, attempt)
  {
    StepRows(cfg, s, l);
  }

  /** A task that was given back at t with a backoff b is not granted to anybody by a clock below
      t + b: up to the first claim at that time or later, every claim finds no row. */
  lemma {:induction false} BackoffIsKept(cfg: Config, s: Sys, p: Proc, t: int, b: int, ls: seq<Label>, l: Label)
    requires p in s.procs && s.procs[p].Releasing? && s.rows.task.status == Leased
    requires s.rows.task.owner == Some(s.procs[p].claim.worker) && s.rows.task.attempt == s.procs[p].claim.attempt
    requires forall k :: 0 <= k < |ls| && ls[k].ClaimTask? ==> ls[k].now < t + b
    requires l.ClaimTask? && l.now < t + b
    ensures var s' := Exec(cfg, Step(cfg, s, ReleaseTask(p, t, b)), ls);
            BacksOff(s'.rows.task, t + b, s.rows.task.attempt) && Step(cfg, s', l) == s'
  {
    if ls != [] {
      var pre := ls[..|ls| - 1];
      forall k | 0 <= k < |pre| && pre[k].ClaimTask? ensures pre[k].now < t + b { assert pre[k] == ls[k]; }
      BackoffIsKept(cfg, s, p, t, b, pre, l);
      BackoffStays(cfg, Exec(cfg, Step(cfg, s, ReleaseTask(p, t, b)), pre), ls[|ls| - 1], t + b, s.rows.task.attempt);
    }
  }

  /** A claim is granted exactly if the process is idle and the row is queued and due. */
  lemma ClaimsWhenDue(cfg: Config, s: Sys, p: Proc, worker: WorkerId, now: int, lease: int)
    ensures var s', t := Step(cfg, s, ClaimTask(p, worker, now, lease)), s.rows.task;
            if p !in s.procs && t.status == Queued && t.available <= now
            then && s'.rows.task == TaskRow(Leased, Some(worker), Some(now + lease), t.attempt + 1, t.available)
                 && p in s'.procs && s'.procs[p].claim == Claim(cfg.task, cfg.run, worker, t.attempt + 1)
            else s' == s
  {
  }

  // The step by which a process working under token `attempt` gives the task up or finishes it.
  predicate EndsOwn(s: Sys, l: Label, attempt: nat) {
    && (l.ReleaseTask? || l.Commit?) && l.p in s.procs && s.procs[l.p].claim.attempt == attempt
    && (l.Commit? ==> s.procs[l.p].Ready? && s.procs[l.p].out.final)
  }

  // The row carries the claim at least until `until`.
  predicate Bought(t: TaskRow, c: Claim, until: int) {
    Carries(t, c) && t.expires.Some? && t.expires.value >= until
  }

  // By a clock past `from`: heartbeats are for `lease` or more, the reaper looks no later than
  // from + lease, and the holder neither releases nor finishes.
  predicate Undisturbed(s: Sys, l: Label, c: Claim, from: int, lease: int) {
    && ReadsFrom(l, from) && (l.Heartbeat? ==> l.lease >= lease) && (l.Reap? ==> l.now <= from + lease)
    && !EndsOwn(s, l, c.attempt)
  }

  lemma BoughtStays(cfg: Config, s: Sys, l: Label, c: Claim, from: int, lease: int)
    requires cfg.fenced && Bought(s.rows.task, c, from + lease) && Undisturbed(s, l, c, from, lease)
    ensures Bought(Step(cfg, s, l).rows.task, c, from + lease)
  {
    StepRows(cfg, s, l);
  }

  lemma {:induction false} BoughtLasts(cfg: Config, s: Sys, ls: seq<Label>, c: Claim, from: int, lease: int)
    requires cfg.fenced && Bought(s.rows.task, c, from + lease)
    requires forall k :: 0 <= k < |ls| ==> Undisturbed(Exec(cfg, s, ls[..k]), ls[k], c, from, lease)
    ensures Bought(Exec(cfg, s, ls).rows.task, c, from + lease)
  {
    if ls != [] {
      var pre := ls[..|ls| - 1];
      forall k | 0 <= k < |pre| ensures Undisturbed(Exec(cfg, s, pre[..k]), pre[k], c, from, lease) {
        assert pre[..k] == ls[..k] && pre[k] == ls[k];
      }
      BoughtLasts(cfg, s, pre, c, from, lease);
      BoughtStays(cfg, Exec(cfg, s, pre), ls[|ls| - 1], c, from, lease);
    }
  }

  /** A successful heartbeat at `now` buys the whole lease: whatever zombies, reapers and other
      workers do in between, a commit of the holder before now + lease passes the fence. */
  lemma HeartbeatBuysTheLease(cfg: Config, s: Sys, p: Proc, now: int, lease: int, ls: seq<Label>, time: int)
    requires cfg.fenced && p in s.procs && HoldsLease(s.rows.task, s.procs[p].claim, now)
    requires var s1 := Step(cfg, s, Heartbeat(p, now, lease));
             forall k :: 0 <= k < |ls| ==> Undisturbed(Exec(cfg, s1, ls[..k]), ls[k], s.procs[p].claim, now, lease)
    requires time < now + lease
    ensures var s1 := Step(cfg, s, Heartbeat(p, now, lease));
            HoldsLease(Exec(cfg, s1, ls).rows.task, s.procs[p].claim, time)
  {
    BoughtLasts(cfg, Step(cfg, s, Heartbeat(p, now, lease)), ls, s.procs[p].claim, now, lease);
  }

  /* ---------- a heartbeat schedule ---------- */

  predicate IsBeat(l: Label, p: Proc) { l.Heartbeat? && l.p == p }

  // The latest reading of the clock, h at first.
  function Clock(ls: seq<Label>, h: int): int {
    if ls == [] then h else if Reads(ls[|ls| - 1]) then ls[|ls| - 1].now else Clock(ls[..|ls| - 1], h)
  }

  // The reading at p's last heartbeat, h at first.
  function LastBeat(ls: seq<Label>, p: Proc, h: int): int {
    if ls == [] then h else if IsBeat(ls[|ls| - 1], p) then ls[|ls| - 1].now else LastBeat(ls[..|ls| - 1], p, h)
  }

  // The clock does not run back, and p's heartbeats, each for `lease`, are less than that apart.
  predicate OnSchedule(ls: seq<Label>, p: Proc, h: int, lease: int) {
    ls != [] ==>
      var pre, l := ls[..|ls| - 1], ls[|ls| - 1];
      && OnSchedule(pre, p, h, lease)
      && (Reads(l) ==> Clock(pre, h) <= l.now)
      && (IsBeat(l, p) ==> l.lease == lease && l.now < LastBeat(pre, p, h) + lease)
  }

  // The steps by which p itself lets the task go.
  predicate Quits(s: Sys, l: Label, p: Proc) {
    && !l.Reap? && l.p == p
    && (l.Crash? || l.ReleaseTask? || (l.Commit? && p in s.procs && s.procs[p].Ready? && s.procs[p].out.final))
  }

  // p works under claim c, and its lease runs until `until` at least.
  ghost predicate Keeps(s: Sys, p: Proc, c: Claim, until: int) {
    p in s.procs && s.procs[p].claim == c && Bought(s.rows.task, c, until)
  }

  lemma RowKept(cfg: Config, s: Sys, l: Label, p: Proc, c: Claim, until: int)
    requires cfg.fenced && Reachable(cfg, s) && Keeps(s, p, c, until) && !Quits(s, l, p)
    requires Reads(l) ==> l.now < until
    ensures Bought(Step(cfg, s, l).rows.task, c, if IsBeat(l, p) then l.now + l.lease else until)
  {
    if !l.Reap? && l.p in s.procs && l.p != p { Guarantees.DistinctTokens(cfg, s, p, l.p); }
    StepRows(cfg, s, l);
  }

  lemma OwnStepStays(cfg: Config, s: Sys, l: Label, p: Proc, c: Claim, until: int)
    requires cfg.fenced && Keeps(s, p, c, until) && !l.Reap? && l.p == p && !Quits(s, l, p)
    requires Reads(l) ==> l.now < until
    ensures p in Step(cfg, s, l).procs
  {
    match l {
      case Heartbeat(_, _, _) =>
      case NextStep(_) =>
      case Commit(_, _) =>
      case Raise(_, _) =>
      case _ =>
    }
  }

  lemma StepKeeps(cfg: Config, s: Sys, l: Label, p: Proc, c: Claim, until: int)
    requires cfg.fenced && Reachable(cfg, s) && Keeps(s, p, c, until) && !Quits(s, l, p)
    requires Reads(l) ==> l.now < until
    ensures Keeps(Step(cfg, s, l), p, c, if IsBeat(l, p) then l.now + l.lease else until)
  {
    RowKept(cfg, s, l, p, c, until);
    if Actor(l, p) { OwnStepStays(cfg, s, l, p, c, until); } else { StepOthers(cfg, s, l, p); }
    StepClaims(cfg, s, l, p);
  }

  lemma {:induction false} ReachableOn(cfg: Config, s: Sys, ls: seq<Label>)
    requires Reachable(cfg, s)
    ensures Reachable(cfg, Exec(cfg, s, ls))
  {
    if ls != [] {
      ReachableOn(cfg, s, ls[..|ls| - 1]);
      Advance(cfg, Exec(cfg, s, ls[..|ls| - 1]), ls[|ls| - 1]);
    }
  }

  /** A worker whose heartbeats are less than a lease apart, by a clock that does not run back, is
      never reaped nor fenced out, whatever reapers and other workers do in between: until a lease
      after its last heartbeat it holds the task, unless it lets it go itself. */
  lemma {:induction false} RenewedLeaseSurvives(cfg: Config, s: Sys, ls: seq<Label>, p: Proc, h: int, lease: int)
    requires cfg.fenced && Reachable(cfg, s) && p in s.procs && Bought(s.rows.task, s.procs[p].claim, h + lease)
    requires OnSchedule(ls, p, h, lease) && Clock(ls, h) < LastBeat(ls, p, h) + lease
    requires forall k :: 0 <= k < |ls| ==> !Quits(Exec(cfg, s, ls[..k]), ls[k], p)
    ensures Keeps(Exec(cfg, s, ls), p, s.procs[p].claim, LastBeat(ls, p, h) + lease)
    ensures HoldsLease(Exec(cfg, s, ls).rows.task, s.procs[p].claim, Clock(ls, h))
  {
    if ls != [] {
      var pre, l := ls[..|ls| - 1], ls[|ls| - 1];
      forall k | 0 <= k < |pre| ensures !Quits(Exec(cfg, s, pre[..k]), pre[k], p) {
        assert pre[..k] == ls[..k] && pre[k] == ls[k];
      }
      RenewedLeaseSurvives(cfg, s, pre, p, h, lease);
      ReachableOn(cfg, s, pre);
      StepKeeps(cfg, Exec(cfg, s, pre), l, p, s.procs[p].claim, LastBeat(pre, p, h) + lease);
    }
  }
}
