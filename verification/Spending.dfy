/** Exactly when the spend checker accepts every reachable state: the six-decimal column rounds a
    finer cost away, and the checker fires on a run in which nothing went wrong. */
module Spending {
  import opened Store
  import opened Money
  import opened Agent
  import opened Leases
  import opened Engine
  import opened Protocol
  import opened Durability
  import opened Fencing
  import opened Sequential
  import opened LoneRuns
  import opened FirstWriter
  import opened Checkers
  import opened Unfenced

  /* ---------- prefixes of reachable logs ---------- */

  lemma StepAddsAtMostOne(cfg: Config, s: Sys, l: Label)
    requires Base(cfg, s)
    ensures var log' := Step(cfg, s, l).rows.log; s.rows.log <= log' && |log'| <= |s.rows.log| + 1
  {
    StepRows(cfg, s, l);
    if l.Commit? && l.p in s.procs && s.procs[l.p].Ready? { CommitShape(cfg, s, l.p, l.now); }
  }

  // Up to a step that writes the log, nobody has asked for the step after it.
  lemma NobodyAhead(cfg: Config, now: int, ls: seq<Label>, l: Label)
    requires cfg.fenced && cfg.spec.Coding?
    ensures var s := Exec(cfg, Init(cfg, now), ls);
            Step(cfg, s, l).rows.log != s.rows.log ==> Below(Step(cfg, s, l).cache, |s.rows.log| + 1)
  {
    var s := Exec(cfg, Init(cfg, now), ls);
    ExecKeepsSolo(cfg, now, ls);
    StepRows(cfg, s, l);
    StepCache(cfg, s, l);
  }

  /** Every prefix of a reachable log is itself the log of a reachable state, and of one in which
      no answer to a later step is cached. */
  lemma {:induction false} PrefixIsReachable(cfg: Config, now: int, ls: seq<Label>, k: nat) returns (s: Sys)
    requires k <= |Exec(cfg, Init(cfg, now), ls).rows.log|
    ensures Reachable(cfg, s) && s.rows.log == Exec(cfg, Init(cfg, now), ls).rows.log[..k]
    ensures cfg.fenced && cfg.spec.Coding? ==> Below(s.cache, k)
  {
    s := Exec(cfg, Init(cfg, now), ls);
    if ls != [] {
      var pre := ls[..|ls| - 1];
      var s0 := Exec(cfg, Init(cfg, now), pre);
      assert Reachable(cfg, s0);
      ReachableIsBase(cfg, s0);
      StepAddsAtMostOne(cfg, s0, ls[|ls| - 1]);
      if k <= |s0.rows.log| {
        s := PrefixIsReachable(cfg, now, pre, k);
      } else if cfg.fenced && cfg.spec.Coding? {
        NobodyAhead(cfg, now, pre, ls[|ls| - 1]);
      }
    }
  }

  // Two matching columns one event apart: the event's cost is whole.
  lemma MatchingIsWhole(before: Sys, after: Sys, e: Event)
    requires after.rows.log == before.rows.log + [e] && SpendMatches(before) && SpendMatches(after)
    ensures WholeMicros(CostOf(e.payload))
  {
    SpentAppend(before.rows.log, e);
    var micros := CostOf(e.payload) * 1000000.0;
    assert micros == (after.rows.run.spent - before.rows.run.spent) as real;
  }

  lemma AlwaysMatchingIsWhole(cfg: Config, s: Sys)
    requires forall t :: Reachable(cfg, t) ==> SpendMatches(t)
    requires Reachable(cfg, s)
    ensures AllWhole(s.rows.log)
  {
    var now, ls :| s == Exec(cfg, Init(cfg, now), ls);
    forall i | 0 <= i < |s.rows.log| ensures WholeMicros(CostOf(s.rows.log[i].payload)) {
      var before := PrefixIsReachable(cfg, now, ls, i);
      var after := PrefixIsReachable(cfg, now, ls, i + 1);
      assert s.rows.log[..i + 1] == s.rows.log[..i] + [s.rows.log[i]];
      MatchingIsWhole(before, after, s.rows.log[i]);
    }
  }

  /** For every workflow, provider and fence: spend_consistency accepts every reachable state if
      and only if no reachable log is charged a fraction of a micro-dollar. */
  lemma SpendCheckerExact(cfg: Config)
    ensures (forall s :: Reachable(cfg, s) ==> SpendMatches(s))
              <==> forall s :: Reachable(cfg, s) ==> AllWhole(s.rows.log)
  {
    if forall s :: Reachable(cfg, s) ==> SpendMatches(s) {
      forall s | Reachable(cfg, s) ensures AllWhole(s.rows.log) { AlwaysMatchingIsWhole(cfg, s); }
    } else {
      var s :| Reachable(cfg, s) && !SpendMatches(s);
      ReachableStatesPass(cfg, s);
    }
  }

  /* ---------- toy runs ---------- */

  // One toy step of a fresh run, committed under the first lease.
  lemma FirstToyStep(cfg: Config) returns (s: Sys)
    requires cfg.spec.Toy?
    ensures Reachable(cfg, s) && |s.rows.log| == 1 && CostOf(s.rows.log[0].payload) == cfg.spec.cost
  {
    var s0 := Init(cfg, 0);
    assert s0 == Exec(cfg, s0, []);
    var claim := ClaimTask(0, "A", 0, 2);
    Advance(cfg, s0, claim);
    var s2 := Prepare(cfg, Step(cfg, s0, claim), 0);
    s := CommitToyStep(cfg, s2, 0, 1);
  }

  lemma ToyCosts(cfg: Config, s: Sys, i: nat)
    requires Reachable(cfg, s) && cfg.spec.Toy? && i < |s.rows.log|
    ensures CostOf(s.rows.log[i].payload) == cfg.spec.cost || CostOf(s.rows.log[i].payload) == 0.0
  {
    ReachableIsBase(cfg, s);
    assert Justified(cfg, s.rows.log[..i], s.rows.log[i]);
  }

  /** For toy runs the condition is on the step cost. */
  lemma ToySpendExact(cfg: Config)
    requires cfg.spec.Toy?
    ensures (forall s :: Reachable(cfg, s) ==> SpendMatches(s)) <==> WholeMicros(cfg.spec.cost)
  {
    SpendCheckerExact(cfg);
    if WholeMicros(cfg.spec.cost) {
      forall s, i | Reachable(cfg, s) && 0 <= i < |s.rows.log| ensures WholeMicros(CostOf(s.rows.log[i].payload)) {
        ToyCosts(cfg, s, i);
      }
    } else {
      var s := FirstToyStep(cfg);
      assert !AllWhole(s.rows.log);
    }
  }

  /* ---------- agent runs ---------- */

  lemma ChargedIsComputed(cfg: Config, s: Sys, i: nat)
    requires cfg.fenced && Reachable(cfg, s) && i < |s.rows.log| && s.rows.log[i].payload.AgentPayload?
    ensures Gapless(cfg.run, s.rows.log) && LogFenced(cfg, s.rows)
    ensures forall j :: 0 <= j <= i ==> Computed(cfg, s.rows.log[..j], s.rows.log[j])
  {
    EarlierAreComputed(cfg, s);
  }

  lemma ClosingIsFree(cfg: Config, s: Sys, i: nat)
    requires Reachable(cfg, s) && cfg.spec.Coding? && i < |s.rows.log| && !s.rows.log[i].payload.AgentPayload?
    ensures CostOf(s.rows.log[i].payload) == 0.0
  {
    ReachableIsBase(cfg, s);
    assert Justified(cfg, s.rows.log[..i], s.rows.log[i]);
  }

  // An event of a run that is charged whole micro-dollars throughout.
  lemma EventIsWhole(cfg: Config, oracle: seq<Message> -> Response, c: Claim, s: Sys, i: nat)
    requires cfg.fenced && Reachable(cfg, s) && cfg.spec.Coding? && c.run == cfg.run && i < |s.rows.log|
    requires Deterministic(cfg.env, oracle) && WholeAlong(cfg, oracle, c)
    ensures WholeMicros(CostOf(s.rows.log[i].payload))
  {
    var log := s.rows.log;
    if log[i].payload.AgentPayload? {
      ChargedIsComputed(cfg, s, i);
      WholeIsUnroundedAlong(cfg, oracle, c, s);
      PrefixFollows(cfg, oracle, c, s.rows, i);
      EventAt(cfg, s.rows, i);
      SameCharge(cfg, oracle, c, c, log[..i], Alone(cfg, oracle, c, i));
      ComputedIsAsked(cfg, oracle, c, log[..i], log[i]);
    } else {
      ClosingIsFree(cfg, s, i);
    }
  }

  lemma ComputedIsAsked(cfg: Config, oracle: seq<Message> -> Response, c: Claim, pre: seq<Event>, e: Event)
    requires Deterministic(cfg.env, oracle) && cfg.spec.Coding? && e.payload.AgentPayload? && !Ended(pre)
    requires Computed(cfg, pre, e) && ObservedIn(cfg.env, pre, e) && ChargesWhole(cfg, oracle, c, pre)
    requires Unrounded(cfg, oracle, pre, e)
    ensures WholeMicros(e.payload.cost)
  {
    ComputedAnswer(cfg, oracle, pre, e);
    assert e.payload.action == oracle(Messages(cfg.spec.prompt, pre)).action;
    assert Asks(cfg, oracle, c, pre);
  }

  // The lone worker's step n, charged as it asked.
  lemma ChargedAsAsked(cfg: Config, oracle: seq<Message> -> Response, c: Claim, n: nat) returns (s: Sys)
    requires cfg.fenced && cfg.spec.Coding? && Obeys(cfg.env, oracle) && c.run == cfg.run
    requires Asks(cfg, oracle, c, Alone(cfg, oracle, c, n))
    ensures Reachable(cfg, s) && |s.rows.log| == n + 1
    ensures CostOf(s.rows.log[n].payload) == AnswerAt(cfg, oracle, Alone(cfg, oracle, c, n)).cost
  {
    var lone := Alone(cfg, oracle, c, n);
    AloneIsScripted(cfg, oracle, c, n, lone);
    var s0, now := FirstClaim(cfg);
    var s1 := LoneRun(cfg, oracle, c, s0, 0, lone, n, now);
    assert lone[..n] == lone;
    SameAsk(cfg, oracle, c, s1.rows.log, lone);
    var s2 := AskNext(cfg, s1, 0, AnswerAt(cfg, oracle, s1.rows.log));
    s := UseAnswer(cfg, s2, 0, now);
  }

  /** For agent runs with a provider that answers deterministically, the condition is that the
      lone worker is charged whole micro-dollars. */
  lemma AgentSpendExact(cfg: Config, oracle: seq<Message> -> Response, c: Claim)
    requires cfg.fenced && cfg.spec.Coding? && c.run == cfg.run
    requires Deterministic(cfg.env, oracle) && Obeys(cfg.env, oracle)
    ensures (forall s :: Reachable(cfg, s) ==> SpendMatches(s)) <==> WholeAlong(cfg, oracle, c)
  {
    SpendCheckerExact(cfg);
    if WholeAlong(cfg, oracle, c) {
      forall s, i | Reachable(cfg, s) && 0 <= i < |s.rows.log| ensures WholeMicros(CostOf(s.rows.log[i].payload)) {
        EventIsWhole(cfg, oracle, c, s, i);
      }
    } else {
      var n: nat :| !ChargesWhole(cfg, oracle, c, Alone(cfg, oracle, c, n));
      var s := ChargedAsAsked(cfg, oracle, c, n);
      assert !AllWhole(s.rows.log);
    }
  }
}
