/** The condition on costs is exact: an answer whose cost does not fit the cache column makes a
    takeover visible. A worker that dies or is paused after caching the answer leaves the rounded
    cost to its successor, and the log differs from that of the worker that never crashes. */
module Divergence {
  import opened Store
  import opened Money
  import opened Agent
  import opened Leases
  import opened Engine
  import opened Protocol
  import opened Durability
  import opened Fencing
  import opened Sequential
  import opened Recovery
  import opened LoneRuns
  import opened FirstWriter

  // `after` is `before` and one event that was charged the rounded cost of the provider's answer.
  predicate OneRounded(cfg: Config, oracle: seq<Message> -> Response, before: seq<Event>, after: seq<Event>)
    requires cfg.spec.Coding?
  {
    && |after| == |before| + 1 && after[..|before|] == before
    && var e := after[|before|];
       && e.payload.AgentPayload? && e.payload.cost == CachedCost(AnswerAt(cfg, oracle, before).cost)
       && (e.kind.Finish? || e.kind.AgentStep?)
  }

  // A worker finds the answer that another one cached, and commits the step with it.
  lemma UseCached(cfg: Config, oracle: seq<Message> -> Response, c: Claim, s: Sys, p: Proc, lone: seq<Event>, now: int)
    returns (s': Sys)
    requires cfg.fenced && Reachable(cfg, s) && AtWork(s, p, now) && Asks(cfg, oracle, c, lone)
    requires s.procs[p].mounted || StringContents(s.rows.log)
    requires EraseAll(s.rows.log) == EraseAll(lone) && KeyFor(cfg, s.rows.log) in s.cache
    requires s.cache[KeyFor(cfg, s.rows.log)] == Stored(AnswerAt(cfg, oracle, s.rows.log))
    ensures Reachable(cfg, s') && OneRounded(cfg, oracle, s.rows.log, s'.rows.log)
  {
    var log := s.rows.log;
    SameAsk(cfg, oracle, c, log, lone);
    Hold(cfg, s, p, now);
    var s1 := ReadAndMount(cfg, s, s, p, now);
    Hit(cfg, s1, p);
    Advance(cfg, s1, NextStep(p));
    s' := UseAnswer(cfg, At(s1, p, Answered(s1.procs[p].claim, log, s.cache[KeyFor(cfg, log)])), p, now);
  }

  // A held lease backs a run that has not ended, and so may anyone take it over.
  lemma Succeed(cfg: Config, s: Sys, p: Proc, q: Proc) returns (s': Sys, now: int)
    requires cfg.fenced && Reachable(cfg, s) && p in s.procs && q !in s.procs && !Ended(s.rows.log)
    ensures Reachable(cfg, s') && AtWork(s', q, now) && !s'.procs[q].mounted
    ensures s'.rows.log == s.rows.log && s'.cache == s.cache && s'.procs == s.procs[q := s'.procs[q]]
  {
    ReachableIsFenced(cfg, s);
    s', now := TakeOver(cfg, s, q, 0);
  }

  /** At step 0: the first worker caches its answer and is overtaken. */
  lemma FirstStepDiverges(cfg: Config, oracle: seq<Message> -> Response, c: Claim) returns (s: Sys)
    requires cfg.fenced && cfg.spec.Coding? && Obeys(cfg.env, oracle) && Asks(cfg, oracle, c, [])
    ensures Reachable(cfg, s) && OneRounded(cfg, oracle, [], s.rows.log)
  {
    var s0, _ := FirstClaim(cfg);
    var s1 := AskNext(cfg, s0, 0, AnswerAt(cfg, oracle, []));
    var s2, now := Succeed(cfg, s1, 0, 1);
    s := UseCached(cfg, oracle, c, s2, 1, [], now);
  }

  /** Later: worker 0 commits step 0 and is paused at the top of its loop, mounted. Worker 1 takes
      over and works on; worker 0 wakes, reads the log and caches the answer that worker 1 then
      finds. Only the log of step 0 is ever replayed. */
  lemma LaterStepDiverges(cfg: Config, oracle: seq<Message> -> Response, c: Claim, lone: seq<Event>)
    returns (s: Sys, log: seq<Event>)
    requires cfg.fenced && cfg.spec.Coding? && Obeys(cfg.env, oracle) && c.run == cfg.run
    requires |lone| > 0 && Scripted(cfg, oracle, c, lone) && StringContents(lone[..1])
    ensures EraseAll(log) == EraseAll(lone) && Reachable(cfg, s) && OneRounded(cfg, oracle, log, s.rows.log)
  {
    var s1, now := Overtaken(cfg, oracle, c, lone);
    log := s1.rows.log;
    assert lone[..|lone|] == lone && Asks(cfg, oracle, c, lone[..|lone|]);
    SameAsk(cfg, oracle, c, log, lone);
    var s2 := AskNext(cfg, s1, 0, AnswerAt(cfg, oracle, log));
    s := UseCached(cfg, oracle, c, s2, 1, lone, now);
  }

  // Worker 0 stands mounted at the top of its loop, worker 1 holds the task, the log is `lone`.
  lemma Overtaken(cfg: Config, oracle: seq<Message> -> Response, c: Claim, lone: seq<Event>) returns (s: Sys, now: int)
    requires cfg.fenced && cfg.spec.Coding? && Obeys(cfg.env, oracle) && c.run == cfg.run
    requires |lone| > 0 && Scripted(cfg, oracle, c, lone) && StringContents(lone[..1])
    ensures Follows(cfg, s, 1, lone, |lone|, now)
    ensures 0 in s.procs && s.procs[0].Loop? && s.procs[0].mounted
  {
    var s0, now0 := FirstClaim(cfg);
    var s1 := LoneRun(cfg, oracle, c, s0, 0, lone, 1, now0);
    SameStrings(s1.rows.log, lone[..1]);
    HeldIsOpen(cfg, s1, 0, now0);
    var s2;
    s2, now := TakeOver(cfg, s1, 1, 0);
    s := LoneRun(cfg, oracle, c, s2, 1, lone, |lone|, now);
  }

  lemma SameCost(a: seq<Event>, b: seq<Event>, i: nat)
    requires EraseAll(a) == EraseAll(b) && i < |a|
    ensures |a| == |b| && CostOf(a[i].payload) == CostOf(b[i].payload)
  {
    SameEnd(a, b);
    assert EraseAll(a)[i] == EraseAll(b)[i];
    assert Erase(a[i]) == Erase(b[i]);
  }

  lemma LoneCost(cfg: Config, oracle: seq<Message> -> Response, c: Claim, lone: seq<Event>)
    requires lone == Alone(cfg, oracle, c, |lone|) && Asks(cfg, oracle, c, lone)
    ensures var next := Alone(cfg, oracle, c, |lone| + 1);
            |next| == |lone| + 1 && CostOf(next[|lone|].payload) == AnswerAt(cfg, oracle, lone).cost
  {
    assert Alone(cfg, oracle, c, |lone| + 1) == lone + [AsEvent(c, |lone|, NextOutcome(cfg, oracle, c, lone).value)];
  }

  // A log whose last event has the rounded cost is not the lone worker's.
  lemma RoundedDiffers(cfg: Config, oracle: seq<Message> -> Response, c: Claim, log: seq<Event>, lone: seq<Event>,
                       after: seq<Event>)
    requires lone == Alone(cfg, oracle, c, |lone|) && EraseAll(log) == EraseAll(lone)
    requires Asks(cfg, oracle, c, lone) && !ChargesWhole(cfg, oracle, c, lone) && OneRounded(cfg, oracle, log, after)
    ensures !IsSequential(cfg, oracle, c, after)
  {
    var n := |lone|;
    SameEnd(log, lone);
    SameAsk(cfg, oracle, c, log, lone);
    var next := Alone(cfg, oracle, c, n + 1);
    LoneCost(cfg, oracle, c, lone);
    if EraseAll(after) == EraseAll(next) { SameCost(after, next, n); }
  }

  // The steps at which a rounded cost can reach the log: at step 0 two workers may ask; later only
  // if a second one can mount what the first step wrote.
  predicate Exposed(cfg: Config, oracle: seq<Message> -> Response, c: Claim, n: nat) {
    n == 0 || StringContents(Alone(cfg, oracle, c, 1))
  }

  lemma Diverges(cfg: Config, oracle: seq<Message> -> Response, c: Claim, n: nat) returns (s: Sys)
    requires cfg.fenced && cfg.spec.Coding? && Obeys(cfg.env, oracle) && c.run == cfg.run
    requires Exposed(cfg, oracle, c, n) && !ChargesWhole(cfg, oracle, c, Alone(cfg, oracle, c, n))
    ensures Reachable(cfg, s) && !IsSequential(cfg, oracle, c, s.rows.log)
  {
    var lone, log := Alone(cfg, oracle, c, n), [];
    AloneIsScripted(cfg, oracle, c, n, lone);
    if n == 0 {
      s := FirstStepDiverges(cfg, oracle, c);
    } else {
      AlonePrefix(cfg, oracle, c, 1, n);
      s, log := LaterStepDiverges(cfg, oracle, c, lone);
    }
    RoundedDiffers(cfg, oracle, c, log, lone, s.rows.log);
  }

  // A first event of the lone worker that cannot be rebuilt seals every log that begins with it.
  lemma SealedLog(cfg: Config, oracle: seq<Message> -> Response, c: Claim, s: Sys)
    requires cfg.fenced && Reachable(cfg, s) && s.rows.log != [] && !StringContents(Alone(cfg, oracle, c, 1))
    requires EraseAll(s.rows.log[..1]) == EraseAll(Alone(cfg, oracle, c, 1))
    ensures Sealed(cfg, s.rows.log)
  {
    ReachableIsFenced(cfg, s);
    var first := s.rows.log[..1];
    forall i | 0 <= i < |first| ensures ObservedIn(cfg.env, first[..i], first[i]) {
      assert ObservedIn(cfg.env, s.rows.log[..i], s.rows.log[i]) && first[..i] == s.rows.log[..i];
    }
    RebuildExact(cfg.env, first);
    if StringContents(first) { SameStrings(Alone(cfg, oracle, c, 1), first); }
  }

  // Where the first step sealed the log, the costs of later steps are never rounded.
  lemma UnroundedBehind(cfg: Config, oracle: seq<Message> -> Response, c: Claim, s: Sys, i: nat)
    requires cfg.fenced && cfg.spec.Coding? && Reachable(cfg, s) && Deterministic(cfg.env, oracle)
    requires !StringContents(Alone(cfg, oracle, c, 1)) && 1 <= i < |s.rows.log|
    requires FollowsAlone(cfg, oracle, c, s.rows.log, i)
    ensures Unrounded(cfg, oracle, s.rows.log[..i], s.rows.log[i])
  {
    var log := s.rows.log;
    AlonePrefix(cfg, oracle, c, 1, i);
    SameEnd(log[..i], Alone(cfg, oracle, c, i));
    EraseAppend(log[..i], log[i]);
    EraseAppend(Alone(cfg, oracle, c, i), log[i]);
    assert log[..i][..1] == log[..1] && Alone(cfg, oracle, c, i)[..1] == Alone(cfg, oracle, c, 1);
    SealedLog(cfg, oracle, c, s);
    LaterAnswersAreFresh(cfg, s, i);
  }

  lemma UnexposedIsSequential(cfg: Config, oracle: seq<Message> -> Response, c: Claim, s: Sys)
    requires cfg.fenced && cfg.spec.Coding? && Reachable(cfg, s) && c.run == cfg.run && Deterministic(cfg.env, oracle)
    requires !StringContents(Alone(cfg, oracle, c, 1)) && ChargesWhole(cfg, oracle, c, [])
    ensures IsSequential(cfg, oracle, c, s.rows.log)
  {
    EarlierAreComputed(cfg, s);
    var log := s.rows.log;
    forall i | 0 <= i < |log| && FollowsAlone(cfg, oracle, c, log, i) && Computed(cfg, log[..i], log[i])
      ensures Unrounded(cfg, oracle, log[..i], log[i])
    {
      if i == 0 {
        EventAt(cfg, s.rows, 0);
        WholeIsUnrounded(cfg, oracle, c, [], log[0]);
      } else {
        UnroundedBehind(cfg, oracle, c, s, i);
      }
    }
    SequentialIfUnrounded(cfg, oracle, c, s);
  }

  /** Exactly when crashes are invisible: with a provider that answers deterministically, every
      reachable fenced log is sequential if and only if the lone worker is charged whole
      micro-dollars at every exposed step. */
  lemma SequentialExactly(cfg: Config, oracle: seq<Message> -> Response, c: Claim)
    requires cfg.fenced && cfg.spec.Coding? && c.run == cfg.run
    requires Deterministic(cfg.env, oracle) && Obeys(cfg.env, oracle)
    ensures (forall s :: Reachable(cfg, s) ==> IsSequential(cfg, oracle, c, s.rows.log))
              <==> forall n: nat :: Exposed(cfg, oracle, c, n) ==>
                     ChargesWhole(cfg, oracle, c, Alone(cfg, oracle, c, n))
  {
    if n: nat :| Exposed(cfg, oracle, c, n) && !ChargesWhole(cfg, oracle, c, Alone(cfg, oracle, c, n)) {
      var s := Diverges(cfg, oracle, c, n);
    } else {
      forall s | Reachable(cfg, s) ensures IsSequential(cfg, oracle, c, s.rows.log) {
        if StringContents(Alone(cfg, oracle, c, 1)) {
          CrashRunsAreSequential(cfg, oracle, c, s);
        } else {
          assert Exposed(cfg, oracle, c, 0);
          UnexposedIsSequential(cfg, oracle, c, s);
        }
      }
    }
  }
}
