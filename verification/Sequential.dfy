/** Crash runs refine sequential runs: with a deterministic provider, the log of any fenced run,
    with writers erased, is a prefix of the one log that a single worker without crashes
    writes, except for at most one closing give-up event. */
module Sequential {
  import opened Options
  import opened Store
  import opened Money
  import opened Budget
  import opened Agent
  import opened Leases
  import opened Engine
  import opened Protocol
  import opened Durability
  import opened Fencing

  // The provider's answer is a function of the messages.
  ghost predicate Deterministic(env: Env, oracle: seq<Message> -> Response) {
    forall m, r :: env.answers(m, r) ==> r == oracle(m)
  }

  // The next step is a function of the log; a toy step is one whatever the provider.
  ghost predicate Settled(cfg: Config, oracle: seq<Message> -> Response) {
    cfg.spec.Coding? ==> Deterministic(cfg.env, oracle)
  }

  // One step of a worker that never fails: next_step on the prefix; None when it raises.
  function NextOutcome(cfg: Config, oracle: seq<Message> -> Response, c: Claim, pre: seq<Event>): Option<Outcome> {
    match cfg.spec
    case Toy(steps, cost) => Some(ToyOutcome(steps, cost, c, |pre|))
    case Coding(prompt, maxSteps) =>
      match CheckLimits(pre, cfg.budget, maxSteps)
      case Some(t) => Some(StopOutcome(t))
      case None =>
        var r := oracle(Messages(prompt, pre));
        var x := Execute(cfg.env, Live(cfg.env, pre), r.action);
        if x.Performed? then Some(AgentOutcome(r, x.observation)) else None
  }

  // The log after n more steps of that worker; it stops at a final step or when a step raises.
  function StepsFrom(cfg: Config, oracle: seq<Message> -> Response, c: Claim, start: seq<Event>, n: nat): seq<Event> {
    if n == 0 then start
    else
      var pre := StepsFrom(cfg, oracle, c, start, n - 1);
      if Ended(pre) then pre
      else match NextOutcome(cfg, oracle, c, pre)
           case Some(out) => pre + [AsEvent(c, |pre|, out)]
           case None => pre
  }

  // The log of its first n steps.
  function Alone(cfg: Config, oracle: seq<Message> -> Response, c: Claim, n: nat): seq<Event> {
    StepsFrom(cfg, oracle, c, [], n)
  }

  // The step after `pre` asks the provider and does not raise.
  predicate Asks(cfg: Config, oracle: seq<Message> -> Response, c: Claim, pre: seq<Event>) {
    && cfg.spec.Coding? && !Ended(pre) && CheckLimits(pre, cfg.budget, cfg.spec.maxSteps) == None
    && NextOutcome(cfg, oracle, c, pre).Some?
  }

  // If the step after `pre` is an answered one, the answer costs whole micro-dollars.
  predicate ChargesWhole(cfg: Config, oracle: seq<Message> -> Response, c: Claim, pre: seq<Event>) {
    Asks(cfg, oracle, c, pre) ==> WholeMicros(oracle(Messages(cfg.spec.prompt, pre)).cost)
  }

  // The lone worker is charged whole micro-dollars throughout.
  ghost predicate WholeAlong(cfg: Config, oracle: seq<Message> -> Response, c: Claim) {
    forall n: nat :: ChargesWhole(cfg, oracle, c, Alone(cfg, oracle, c, n))
  }

  /* ---------- erasing the writer ---------- */

  function ErasePayload(p: Payload): Payload {
    if p.ToyPayload? then p.(worker := "", attempt := 0) else p
  }

  function Erase(e: Event): Event {
    e.(payload := ErasePayload(e.payload), meta := Meta("", 0, e.meta.final))
  }

  function EraseAll(log: seq<Event>): seq<Event> {
    seq(|log|, i requires 0 <= i < |log| => Erase(log[i]))
  }

  lemma EraseAppend(log: seq<Event>, e: Event)
    ensures EraseAll(log + [e]) == EraseAll(log) + [Erase(e)]
    ensures forall i :: 0 <= i <= |log| ==> EraseAll(log[..i]) == EraseAll(log)[..i]
  {
  }

  lemma SamePayload(a: seq<Event>, b: seq<Event>, i: nat)
    requires EraseAll(a) == EraseAll(b) && i < |a|
    ensures |a| == |b| && ErasePayload(a[i].payload) == ErasePayload(b[i].payload)
    ensures EraseAll(a[..i]) == EraseAll(b[..i])
  {
    assert |a| == |EraseAll(a)| == |b|;
    assert EraseAll(a)[i] == EraseAll(b)[i];
    assert Erase(a[i]) == Erase(b[i]);
    EraseAppend(a, a[i]);
    EraseAppend(b, b[i]);
  }

  lemma {:induction false} SameCounts(a: seq<Event>, b: seq<Event>)
    requires EraseAll(a) == EraseAll(b)
    ensures Total(a) == Total(b) && Actions(a) == Actions(b)
  {
    assert |a| == |EraseAll(a)| == |b|;
    if a != [] {
      SamePayload(a, b, |a| - 1);
      SameCounts(a[..|a| - 1], b[..|b| - 1]);
    }
  }

  lemma {:induction false} SameHistory(env: Env, prompt: string, a: seq<Event>, b: seq<Event>)
    requires EraseAll(a) == EraseAll(b)
    ensures Messages(prompt, a) == Messages(prompt, b) && Live(env, a) == Live(env, b)
  {
    assert |a| == |EraseAll(a)| == |b|;
    if a != [] {
      SamePayload(a, b, |a| - 1);
      SameHistory(env, prompt, a[..|a| - 1], b[..|b| - 1]);
    }
  }

  // What a step reads off the log does not depend on who wrote it.
  lemma SameReading(env: Env, prompt: string, a: seq<Event>, b: seq<Event>)
    requires EraseAll(a) == EraseAll(b)
    ensures Total(a) == Total(b) && Actions(a) == Actions(b)
    ensures Messages(prompt, a) == Messages(prompt, b) && Live(env, a) == Live(env, b)
  {
    SameCounts(a, b);
    SameHistory(env, prompt, a, b);
  }

  lemma SameNext(cfg: Config, oracle: seq<Message> -> Response, c: Claim, c': Claim, a: seq<Event>, b: seq<Event>)
    requires EraseAll(a) == EraseAll(b) && c.run == c'.run
    ensures var out, out' := NextOutcome(cfg, oracle, c, a), NextOutcome(cfg, oracle, c', b);
            && (out.Some? <==> out'.Some?)
            && (out.Some? ==> Erase(AsEvent(c, |a|, out.value)) == Erase(AsEvent(c', |b|, out'.value)))
  {
    assert |a| == |EraseAll(a)| == |b|;
    match cfg.spec {
      case Toy(_, _) =>
      case Coding(prompt, _) => SameReading(cfg.env, prompt, a, b);
    }
  }

  lemma SameEnd(a: seq<Event>, b: seq<Event>)
    requires EraseAll(a) == EraseAll(b)
    ensures |a| == |b| && (Ended(a) <==> Ended(b))
  {
    assert |a| == |EraseAll(a)| == |b|;
    if a != [] { assert EraseAll(a)[|a| - 1] == EraseAll(b)[|b| - 1]; }
  }

  // What is charged after a prefix does not depend on who wrote it.
  lemma SameCharge(cfg: Config, oracle: seq<Message> -> Response, c: Claim, c': Claim, a: seq<Event>, b: seq<Event>)
    requires EraseAll(a) == EraseAll(b) && c.run == c'.run && ChargesWhole(cfg, oracle, c', b)
    ensures ChargesWhole(cfg, oracle, c, a)
  {
    if cfg.spec.Coding? {
      SameReading(cfg.env, cfg.spec.prompt, a, b);
      SameEnd(a, b);
      SameNext(cfg, oracle, c, c', a, b);
    }
  }

  // What the event was charged is what the provider asked for, not a rounded copy.
  predicate Unrounded(cfg: Config, oracle: seq<Message> -> Response, pre: seq<Event>, e: Event) {
    cfg.spec.Coding? && e.payload.AgentPayload? ==> e.payload.cost == oracle(Messages(cfg.spec.prompt, pre)).cost
  }

  // A computed event is the provider's answer, fresh or rounded by the cache.
  lemma ComputedAnswer(cfg: Config, oracle: seq<Message> -> Response, pre: seq<Event>, e: Event)
    requires Deterministic(cfg.env, oracle) && Computed(cfg, pre, e) && cfg.spec.Coding? && e.payload.AgentPayload?
    ensures CheckLimits(pre, cfg.budget, cfg.spec.maxSteps) == None
    ensures var r := oracle(Messages(cfg.spec.prompt, pre));
            AnswerIn(e.payload) == r || AnswerIn(e.payload) == Stored(r)
  {
  }

  /** A computed event whose observation fits the workspace is the sequential worker's event,
      if its cost came through the cache unrounded. */
  lemma ComputedIsNext(cfg: Config, oracle: seq<Message> -> Response, pre: seq<Event>, e: Event)
    requires Settled(cfg, oracle) && Computed(cfg, pre, e) && ObservedIn(cfg.env, pre, e)
    requires Unrounded(cfg, oracle, pre, e)
    ensures var c := Claim(cfg.task, cfg.run, e.meta.worker, e.meta.attempt);
            NextOutcome(cfg, oracle, c, pre).Some? && Fits(e, NextOutcome(cfg, oracle, c, pre).value)
  {
    if cfg.spec.Coding? && e.payload.AgentPayload? {
      ComputedAnswer(cfg, oracle, pre, e);
      assert AnswerIn(e.payload) == oracle(Messages(cfg.spec.prompt, pre));
    }
  }

  // The lone worker's step after the log is there, and charged whole: so this one is unrounded.
  lemma WholeIsUnrounded(cfg: Config, oracle: seq<Message> -> Response, c: Claim, pre: seq<Event>, e: Event)
    requires Settled(cfg, oracle) && !Ended(pre) && Computed(cfg, pre, e) && ObservedIn(cfg.env, pre, e)
    requires ChargesWhole(cfg, oracle, c, pre)
    ensures Unrounded(cfg, oracle, pre, e)
  {
    if cfg.spec.Coding? && e.payload.AgentPayload? {
      ComputedAnswer(cfg, oracle, pre, e);
      assert e.payload.action == oracle(Messages(cfg.spec.prompt, pre)).action;
      assert Asks(cfg, oracle, c, pre);
    }
  }

  // Events 0..k of the log are those of the lone worker.
  ghost predicate FollowsAlone(cfg: Config, oracle: seq<Message> -> Response, c: Claim, log: seq<Event>, k: nat) {
    k <= |log| && EraseAll(log[..k]) == EraseAll(Alone(cfg, oracle, c, k))
  }

  // The step of a worker with claim c' continues the lone worker's log.
  lemma Continues(cfg: Config, oracle: seq<Message> -> Response, c: Claim, c': Claim, pre: seq<Event>, out: Outcome)
    requires c.run == c'.run && !Ended(pre) && EraseAll(pre) == EraseAll(Alone(cfg, oracle, c, |pre|))
    requires NextOutcome(cfg, oracle, c', pre) == Some(out)
    ensures EraseAll(pre + [AsEvent(c', |pre|, out)]) == EraseAll(Alone(cfg, oracle, c, |pre| + 1))
  {
    var alone := Alone(cfg, oracle, c, |pre|);
    SameNext(cfg, oracle, c', c, pre, alone);
    SameEnd(pre, alone);
    var next := AsEvent(c, |alone|, NextOutcome(cfg, oracle, c, alone).value);
    assert Alone(cfg, oracle, c, |pre| + 1) == alone + [next];
    EraseAppend(pre, AsEvent(c', |pre|, out));
    EraseAppend(alone, next);
  }

  lemma FollowsStep(cfg: Config, oracle: seq<Message> -> Response, c: Claim, pre: seq<Event>, e: Event)
    requires Settled(cfg, oracle) && c.run == cfg.run
    requires Computed(cfg, pre, e) && ObservedIn(cfg.env, pre, e) && !Ended(pre)
    requires e.seqNo == |pre| + 1 && e.key == StepKey(cfg.run, |pre|)
    requires EraseAll(pre) == EraseAll(Alone(cfg, oracle, c, |pre|)) && Unrounded(cfg, oracle, pre, e)
    ensures EraseAll(pre + [e]) == EraseAll(Alone(cfg, oracle, c, |pre| + 1))
  {
    var c' := Claim(cfg.task, cfg.run, e.meta.worker, e.meta.attempt);
    ComputedIsNext(cfg, oracle, pre, e);
    Continues(cfg, oracle, c, c', pre, NextOutcome(cfg, oracle, c', pre).value);
  }

  // What a fenced log says of its event i.
  lemma EventAt(cfg: Config, rows: Rows, i: nat)
    requires Gapless(cfg.run, rows.log) && LogFenced(cfg, rows) && i < |rows.log|
    ensures ObservedIn(cfg.env, rows.log[..i], rows.log[i]) && !Ended(rows.log[..i])
    ensures rows.log[i].seqNo == i + 1 && rows.log[i].key == StepKey(cfg.run, i)
    ensures rows.log[..i + 1] == rows.log[..i] + [rows.log[i]]
  {
  }

  // Events that continue the lone worker's log are charged as the provider asked.
  ghost predicate UnroundedAlong(cfg: Config, oracle: seq<Message> -> Response, c: Claim, log: seq<Event>) {
    forall i :: 0 <= i < |log| && FollowsAlone(cfg, oracle, c, log, i) && Computed(cfg, log[..i], log[i]) ==>
      Unrounded(cfg, oracle, log[..i], log[i])
  }

  lemma {:induction false} PrefixFollows(cfg: Config, oracle: seq<Message> -> Response, c: Claim, rows: Rows, k: nat)
    requires Settled(cfg, oracle) && UnroundedAlong(cfg, oracle, c, rows.log) && c.run == cfg.run
    requires Gapless(cfg.run, rows.log) && LogFenced(cfg, rows)
    requires k <= |rows.log| && forall i :: 0 <= i < k ==> Computed(cfg, rows.log[..i], rows.log[i])
    ensures FollowsAlone(cfg, oracle, c, rows.log, k)
  {
    if k > 0 {
      var pre, e := rows.log[..k - 1], rows.log[k - 1];
      PrefixFollows(cfg, oracle, c, rows, k - 1);
      EventAt(cfg, rows, k - 1);
      FollowsStep(cfg, oracle, c, pre, e);
    }
  }

  // In a fenced log only the last event can be a closing one.
  lemma EarlierAreComputed(cfg: Config, s: Sys)
    requires cfg.fenced && Reachable(cfg, s)
    ensures Gapless(cfg.run, s.rows.log) && LogFenced(cfg, s.rows)
    ensures forall i :: 0 <= i < |s.rows.log| - 1 ==> Computed(cfg, s.rows.log[..i], s.rows.log[i])
    ensures var n := |s.rows.log|;
            n > 0 ==> Computed(cfg, s.rows.log[..n - 1], s.rows.log[n - 1]) || GaveUp(cfg, s.rows.log[n - 1])
  {
    ReachableIsFenced(cfg, s);
    var log, n := s.rows.log, |s.rows.log|;
    forall i | 0 <= i < n - 1 ensures Computed(cfg, log[..i], log[i]) {
      assert Justified(cfg, log[..i], log[i]);
      assert !log[i].meta.final;
    }
    if n > 0 { assert Justified(cfg, log[..n - 1], log[n - 1]); }
  }

  // The erased log is the lone worker's after as many steps, or all of it is except the last
  // event, and that one is the closing event of a worker that gave up.
  ghost predicate IsSequential(cfg: Config, oracle: seq<Message> -> Response, c: Claim, log: seq<Event>) {
    var n := |log|;
    || EraseAll(log) == EraseAll(Alone(cfg, oracle, c, n))
    || (n > 0 && GaveUp(cfg, log[n - 1]) && EraseAll(log[..n - 1]) == EraseAll(Alone(cfg, oracle, c, n - 1)))
  }

  lemma FollowsUpTo(cfg: Config, oracle: seq<Message> -> Response, c: Claim, s: Sys, k: nat)
    requires cfg.fenced && Reachable(cfg, s) && c.run == cfg.run
    requires Settled(cfg, oracle) && UnroundedAlong(cfg, oracle, c, s.rows.log)
    requires k <= |s.rows.log| && (k < |s.rows.log| || k == 0 || Computed(cfg, s.rows.log[..k - 1], s.rows.log[k - 1]))
    ensures FollowsAlone(cfg, oracle, c, s.rows.log, k)
  {
    EarlierAreComputed(cfg, s);
    PrefixFollows(cfg, oracle, c, s.rows, k);
  }

  lemma LastGaveUp(cfg: Config, s: Sys)
    requires cfg.fenced && Reachable(cfg, s) && s.rows.log != []
    requires !Computed(cfg, s.rows.log[..|s.rows.log| - 1], s.rows.log[|s.rows.log| - 1])
    ensures GaveUp(cfg, s.rows.log[|s.rows.log| - 1])
  {
    EarlierAreComputed(cfg, s);
  }

  lemma FollowedIsSequential(cfg: Config, oracle: seq<Message> -> Response, c: Claim, log: seq<Event>)
    requires var n := |log|;
             || FollowsAlone(cfg, oracle, c, log, n)
             || (n > 0 && FollowsAlone(cfg, oracle, c, log, n - 1) && GaveUp(cfg, log[n - 1]))
    ensures IsSequential(cfg, oracle, c, log)
  {
    assert log[..|log|] == log;
  }

  /** Unless a cost was rounded on its way, a reachable fenced log is sequential. */
  lemma SequentialIfUnrounded(cfg: Config, oracle: seq<Message> -> Response, c: Claim, s: Sys)
    requires cfg.fenced && Reachable(cfg, s) && c.run == cfg.run
    requires Settled(cfg, oracle) && UnroundedAlong(cfg, oracle, c, s.rows.log)
    ensures IsSequential(cfg, oracle, c, s.rows.log)
  {
    var log, n := s.rows.log, |s.rows.log|;
    if n == 0 || Computed(cfg, log[..n - 1], log[n - 1]) {
      FollowsUpTo(cfg, oracle, c, s, n);
    } else {
      FollowsUpTo(cfg, oracle, c, s, n - 1);
      LastGaveUp(cfg, s);
    }
    FollowedIsSequential(cfg, oracle, c, log);
  }

  lemma WholeIsUnroundedAlong(cfg: Config, oracle: seq<Message> -> Response, c: Claim, s: Sys)
    requires cfg.fenced && Reachable(cfg, s)
    requires Settled(cfg, oracle) && WholeAlong(cfg, oracle, c)
    ensures UnroundedAlong(cfg, oracle, c, s.rows.log)
  {
    EarlierAreComputed(cfg, s);
    var log := s.rows.log;
    forall i | 0 <= i < |log| && FollowsAlone(cfg, oracle, c, log, i) && Computed(cfg, log[..i], log[i])
      ensures Unrounded(cfg, oracle, log[..i], log[i])
    {
      EventAt(cfg, s.rows, i);
      SameCharge(cfg, oracle, c, c, log[..i], Alone(cfg, oracle, c, i));
      WholeIsUnrounded(cfg, oracle, c, log[..i], log[i]);
    }
  }

  /** The theorem: whatever the crashes, takeovers and zombies, every reachable fenced log of a
      deterministic workflow is sequential, if what it is charged fits the cost column. */
  lemma CrashRunsAreSequential(cfg: Config, oracle: seq<Message> -> Response, c: Claim, s: Sys)
    requires cfg.fenced && Reachable(cfg, s) && c.run == cfg.run
    requires Settled(cfg, oracle) && WholeAlong(cfg, oracle, c)
    ensures IsSequential(cfg, oracle, c, s.rows.log)
  {
    WholeIsUnroundedAlong(cfg, oracle, c, s);
    SequentialIfUnrounded(cfg, oracle, c, s);
  }

  /* ---------- how long the lone worker works ---------- */

  // The longest log of a run.
  function Longest(cfg: Config): int {
    match cfg.spec
    case Toy(steps, _) => steps
    case Coding(_, maxSteps) => (if maxSteps > 0 then maxSteps else 0) + 1
  }

  lemma LastStepIsFinal(cfg: Config, oracle: seq<Message> -> Response, c: Claim, pre: seq<Event>)
    requires |pre| + 1 == Longest(cfg)
    ensures NextOutcome(cfg, oracle, c, pre).Some? && NextOutcome(cfg, oracle, c, pre).value.final
  {
    if cfg.spec.Coding? { assert CheckLimits(pre, cfg.budget, cfg.spec.maxSteps).Some?; }
  }

  lemma {:induction false} AloneEnds(cfg: Config, oracle: seq<Message> -> Response, c: Claim, n: nat)
    requires cfg.spec.Toy? ==> cfg.spec.steps >= 1
    ensures |Alone(cfg, oracle, c, n)| <= Longest(cfg)
    ensures |Alone(cfg, oracle, c, n)| == Longest(cfg) ==> Ended(Alone(cfg, oracle, c, n))
  {
    if n > 0 {
      var pre := Alone(cfg, oracle, c, n - 1);
      AloneEnds(cfg, oracle, c, n - 1);
      if |pre| + 1 == Longest(cfg) { LastStepIsFinal(cfg, oracle, c, pre); }
    }
  }
}
