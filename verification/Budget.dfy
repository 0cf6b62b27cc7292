/** Run limits, decided from the replayed events only. */
module Budget {
  import opened Options
  import opened Store
  import opened Money

  const LOOP_WINDOW: nat := 3

  datatype Termination = Termination(status: RunStatus, reason: Reason)

  // The part of an action that _fingerprint serialises; the serialisation is injective.
  function Fingerprint(action: Action): Action {
    map k | k in action && !(k != "" && k[0] == '_') :: action[k]
  }

  // The key is no provider metadata.
  predicate IsPublic(key: string) {
    key == "" || key[0] != '_'
  }

  // The actions have the same public keys, with the same values.
  ghost predicate AgreeInPublic(a: Action, b: Action) {
    forall key: string :: IsPublic(key) ==> (key in a <==> key in b) && (key in a ==> a[key] == b[key])
  }

  /** Two actions have one fingerprint exactly if they agree in all public keys. */
  lemma FingerprintExact(a: Action, b: Action)
    ensures Fingerprint(a) == Fingerprint(b) <==> AgreeInPublic(a, b)
  {
    var x, y := Fingerprint(a), Fingerprint(b);
    if x == y {
      forall key: string | IsPublic(key) ensures (key in a <==> key in b) && (key in a ==> a[key] == b[key]) {
        assert key in x <==> key in a;
        assert key in y <==> key in b;
      }
    }
    if AgreeInPublic(a, b) {
      forall key ensures (key in x <==> key in y) && (key in x ==> x[key] == y[key]) {
        assert key in x <==> key in a && IsPublic(key);
        assert key in y <==> key in b && IsPublic(key);
      }
    }
  }

  // The actions of the events that carry one, in log order.
  function Actions(log: seq<Event>): seq<Action> {
    if log == [] then []
    else
      var pre, last := Actions(log[..|log| - 1]), log[|log| - 1].payload;
      if last.AgentPayload? then pre + [last.action] else pre
  }

  // The n actions from index i on have one fingerprint.
  predicate Alike(a: seq<Action>, i: nat, n: nat)
    requires i + n <= |a|
  {
    forall j :: i <= j < i + n ==> Fingerprint(a[j]) == Fingerprint(a[i])
  }

  predicate FourAlike(a: seq<Action>, i: nat) {
    i + 4 <= |a| && Alike(a, i, 4)
  }

  predicate DetectLoop(log: seq<Event>) {
    var a := Actions(log);
    |a| >= LOOP_WINDOW && Alike(a, |a| - LOOP_WINDOW, LOOP_WINDOW)
  }

  /** A loop is three actions at the end of the log that agree in all public keys. */
  lemma LoopExact(log: seq<Event>)
    ensures DetectLoop(log) <==>
              var a, n := Actions(log), |Actions(log)|;
              n >= 3 && AgreeInPublic(a[n - 3], a[n - 2]) && AgreeInPublic(a[n - 3], a[n - 1])
  {
    var a, n := Actions(log), |Actions(log)|;
    if n >= 3 {
      FingerprintExact(a[n - 3], a[n - 2]);
      FingerprintExact(a[n - 3], a[n - 1]);
      assert Alike(a, n - 3, 3) <==>
             Fingerprint(a[n - 2]) == Fingerprint(a[n - 3]) && Fingerprint(a[n - 1]) == Fingerprint(a[n - 3]);
    }
  }

  function CheckLimits(log: seq<Event>, budget: real, maxSteps: int): Option<Termination> {
    if Total(log) >= budget then Some(Termination(BudgetExceeded, BudgetReached))
    else if |log| >= maxSteps then Some(Termination(Failed, MaxStepsReached(maxSteps)))
    else if DetectLoop(log) then Some(Termination(Failed, LoopDetected))
    else None
  }

  /** The cost cap comes first, then the number of steps, then the loop. */
  lemma CheckLimitsExact(log: seq<Event>, budget: real, maxSteps: int)
    ensures var stop := CheckLimits(log, budget, maxSteps);
            && (stop == None <==> Total(log) < budget && |log| < maxSteps && !DetectLoop(log))
            && (stop.Some? && stop.value.reason == BudgetReached <==> Total(log) >= budget)
            && (stop.Some? && stop.value.reason == MaxStepsReached(maxSteps) <==>
                  Total(log) < budget && |log| >= maxSteps)
            && (stop.Some? && stop.value.reason == LoopDetected <==>
                  Total(log) < budget && |log| < maxSteps && DetectLoop(log))
            && (stop.Some? ==> stop.value.status == if Total(log) >= budget then BudgetExceeded else Failed)
  {
  }

  // Every charged event was decided on a prefix that was within the limits.
  ghost predicate LimitsRespected(log: seq<Event>, budget: real, maxSteps: int) {
    forall i :: 0 <= i < |log| && log[i].payload.AgentPayload?
      ==> CheckLimits(log[..i], budget, maxSteps) == None
  }

  // Events without an action are final, and a final event is the last one.
  predicate ClosedOnlyAtEnd(log: seq<Event>) {
    forall i :: 0 <= i < |log| - 1 ==> log[i].payload.AgentPayload? && !log[i].meta.final
  }

  lemma {:induction false} ActionsOfCharged(log: seq<Event>)
    requires forall i :: 0 <= i < |log| ==> log[i].payload.AgentPayload?
    ensures |Actions(log)| == |log|
    ensures forall i :: 0 <= i < |log| ==> Actions(log)[i] == log[i].payload.action
  {
    if log != [] { ActionsOfCharged(log[..|log| - 1]); }
  }

  /** What the per-step check buys for the whole log: the number of events is bounded, the
      charge before the last charged call stayed below the budget, and no four consecutive
      actions have the same fingerprint. */
  lemma LimitsBoundTheLog(log: seq<Event>, budget: real, maxSteps: int)
    requires LimitsRespected(log, budget, maxSteps) && ClosedOnlyAtEnd(log)
    ensures |log| <= (if maxSteps > 0 then maxSteps else 0) + 1
    ensures forall i :: 0 <= i < |log| && log[i].payload.AgentPayload? ==> Total(log[..i]) < budget
    ensures forall i :: 0 <= i < |Actions(log)| ==> !FourAlike(Actions(log), i)
  {
    if |log| >= 2 {
      assert log[|log| - 2].payload.AgentPayload?;
      assert CheckLimits(log[..|log| - 2], budget, maxSteps) == None;
    }
    forall i | 0 <= i < |Actions(log)| && FourAlike(Actions(log), i) ensures false {
      NoFourAlike(log, budget, maxSteps, i);
    }
  }

  lemma NoFourAlike(log: seq<Event>, budget: real, maxSteps: int, i: nat)
    requires LimitsRespected(log, budget, maxSteps) && ClosedOnlyAtEnd(log)
    requires i < |Actions(log)|
    ensures !FourAlike(Actions(log), i)
  {
    if i + 4 <= |Actions(log)| {
      ActionsOfPrefix(log, i + 3);
      var pre := log[..i + 3];
      assert log[i + 3].payload.AgentPayload? && CheckLimits(pre, budget, maxSteps) == None;
      assert !DetectLoop(pre);
      FewerAlike(Actions(log), Actions(pre), i);
    }
  }

  // The first n actions are those of the first n events, and the next event is charged.
  lemma ActionsOfPrefix(log: seq<Event>, n: nat)
    requires ClosedOnlyAtEnd(log) && n < |Actions(log)|
    ensures n < |log| && log[n].payload.AgentPayload?
    ensures Actions(log[..n]) == Actions(log)[..n]
  {
    var charged := if log[|log| - 1].payload.AgentPayload? then log else log[..|log| - 1];
    ActionsOfCharged(charged);
    assert log[..n] == charged[..n] && log[n] == charged[n];
    ActionsOfCharged(log[..n]);
  }

  lemma FewerAlike(a: seq<Action>, b: seq<Action>, i: nat)
    requires i + 4 <= |a| && b == a[..i + 3] && !Alike(b, i, 3)
    ensures !Alike(a, i, 4)
  {
    var j :| i <= j < i + 3 && Fingerprint(b[j]) != Fingerprint(b[i]);
    assert b[j] == a[j] && b[i] == a[i];
  }
}
