/** Runs of the protocol that are built step by step: a process that asks the provider, uses the
    answer, and so writes, on its own, any log that the lone worker writes. */
module LoneRuns {
  import opened Options
  import opened Store
  import opened Budget
  import opened Agent
  import opened Leases
  import opened Engine
  import opened Protocol
  import opened Durability
  import opened Fencing
  import opened Guarantees
  import opened Sequential
  import opened Recovery

  // The provider answers, and as the oracle says.
  ghost predicate Obeys(env: Env, oracle: seq<Message> -> Response) {
    forall m :: env.answers(m, oracle(m))
  }

  function AnswerAt(cfg: Config, oracle: seq<Message> -> Response, log: seq<Event>): Response
    requires cfg.spec.Coding?
  {
    oracle(Messages(cfg.spec.prompt, log))
  }

  lemma Hold(cfg: Config, s: Sys, p: Proc, from: int)
    requires Reachable(cfg, s)
    ensures Onward(cfg, s, s, p, from)
  {
    assert s == Exec(cfg, s, []);
  }

  /* ---------- one step of a process on its own ---------- */

  lemma Miss(cfg: Config, s: Sys, p: Proc)
    requires cfg.spec.Coding? && p in s.procs && s.procs[p].Have? && s.procs[p].mounted
    requires CheckLimits(s.procs[p].log, cfg.budget, cfg.spec.maxSteps) == None
    requires KeyFor(cfg, s.procs[p].log) !in s.cache
    ensures Step(cfg, s, NextStep(p)) == At(s, p, Missed(s.procs[p].claim, s.procs[p].log))
  {
  }

  lemma Hit(cfg: Config, s: Sys, p: Proc)
    requires cfg.spec.Coding? && p in s.procs && s.procs[p].Have? && s.procs[p].mounted
    requires CheckLimits(s.procs[p].log, cfg.budget, cfg.spec.maxSteps) == None
    requires KeyFor(cfg, s.procs[p].log) in s.cache
    ensures var log := s.procs[p].log;
            Step(cfg, s, NextStep(p)) == At(s, p, Answered(s.procs[p].claim, log, s.cache[KeyFor(cfg, log)]))
  {
  }

  // s' is s with p at `at` and the given cache, up to the record of calls.
  ghost predicate Reaches(cfg: Config, s: Sys, s': Sys, p: Proc, at: Local, cache: map<CacheKey, Response>) {
    Reachable(cfg, s') && s'.rows == s.rows && s'.procs == s.procs[p := at] && s'.cache == cache
  }

  lemma RecordStep(cfg: Config, s: Sys, p: Proc) returns (s': Sys)
    requires cfg.spec.Coding? && Reachable(cfg, s) && p in s.procs && s.procs[p].Missed?
    ensures Reaches(cfg, s, s', p, Called(s.procs[p].claim, s.procs[p].log), s.cache)
  {
    s' := Step(cfg, s, RecordCall(p));
    Advance(cfg, s, RecordCall(p));
  }

  lemma AnswerStep(cfg: Config, s: Sys, p: Proc, r: Response) returns (s': Sys)
    requires cfg.spec.Coding? && Reachable(cfg, s) && p in s.procs && s.procs[p].Called?
    requires cfg.env.answers(Messages(cfg.spec.prompt, s.procs[p].log), r)
    ensures Reaches(cfg, s, s', p, Returned(s.procs[p].claim, s.procs[p].log, r), s.cache)
  {
    s' := Step(cfg, s, ProviderAnswers(p, r));
    Advance(cfg, s, ProviderAnswers(p, r));
  }

  lemma StoreStep(cfg: Config, s: Sys, p: Proc) returns (s': Sys)
    requires cfg.spec.Coding? && Reachable(cfg, s) && p in s.procs && s.procs[p].Returned?
    requires KeyFor(cfg, s.procs[p].log) !in s.cache
    ensures var c, log, r := s.procs[p].claim, s.procs[p].log, s.procs[p].answer;
            Reaches(cfg, s, s', p, Answered(c, log, r), s.cache[KeyFor(cfg, log) := Stored(r)])
  {
    s' := Step(cfg, s, StoreAnswer(p));
    Advance(cfg, s, StoreAnswer(p));
  }

  /** A first asking ends with the fresh answer in hand and its rounded copy in the cache. */
  lemma AskFirst(cfg: Config, s: Sys, p: Proc, r: Response) returns (s': Sys)
    requires cfg.spec.Coding? && Reachable(cfg, s) && p in s.procs && s.procs[p].Have? && s.procs[p].mounted
    requires cfg.env.answers(Messages(cfg.spec.prompt, s.procs[p].log), r)
    requires CheckLimits(s.procs[p].log, cfg.budget, cfg.spec.maxSteps) == None
    requires KeyFor(cfg, s.procs[p].log) !in s.cache
    ensures var c, log := s.procs[p].claim, s.procs[p].log;
            Reaches(cfg, s, s', p, Answered(c, log, r), s.cache[KeyFor(cfg, log) := Stored(r)])
  {
    Miss(cfg, s, p);
    Advance(cfg, s, NextStep(p));
    var s1 := RecordStep(cfg, At(s, p, Missed(s.procs[p].claim, s.procs[p].log)), p);
    var s2 := AnswerStep(cfg, s1, p, r);
    s' := StoreStep(cfg, s2, p);
  }

  // The answer in p's hand is used on the logged workspace, and the step is committed.
  lemma ToolStep(cfg: Config, s: Sys, p: Proc) returns (s': Sys)
    requires cfg.fenced && Reachable(cfg, s) && p in s.procs && s.procs[p].Answered? && Holder(s.rows, s.procs[p].claim)
    requires s.procs[p].log == s.rows.log
    requires Execute(cfg.env, Live(cfg.env, s.rows.log), s.procs[p].answer.action).Performed?
    ensures var at := s.procs[p];
            var x := Execute(cfg.env, Live(cfg.env, s.rows.log), at.answer.action);
            Reaches(cfg, s, s', p, Ready(at.claim, |at.log|, AgentOutcome(at.answer, x.observation), false), s.cache)
  {
    WorkspaceIsTheLog(cfg, s, p);
    s' := Step(cfg, s, ExecuteTool(p));
    Advance(cfg, s, ExecuteTool(p));
  }

  lemma CommitStep(cfg: Config, s: Sys, p: Proc, now: int) returns (s': Sys)
    requires cfg.fenced && cfg.spec.Coding? && Reachable(cfg, s) && p in s.procs && s.procs[p].Ready?
    requires HoldsLease(s.rows.task, s.procs[p].claim, now)
    ensures Reachable(cfg, s') && s'.cache == s.cache
    ensures s'.rows.log == s.rows.log + [AsEvent(s.procs[p].claim, |s.rows.log|, s.procs[p].out)]
    ensures !s.procs[p].out.final ==> AtWork(s', p, now) && s'.procs == s.procs[p := Loop(s.procs[p].claim, true)]
  {
    HeldCommits(cfg, s, p, now);
    s' := Step(cfg, s, Commit(p, now));
    Advance(cfg, s, Commit(p, now));
  }

  lemma UseAnswer(cfg: Config, s: Sys, p: Proc, now: int) returns (s': Sys)
    requires cfg.fenced && cfg.spec.Coding? && Reachable(cfg, s) && p in s.procs && s.procs[p].Answered?
    requires s.procs[p].log == s.rows.log && HoldsLease(s.rows.task, s.procs[p].claim, now)
    requires Execute(cfg.env, Live(cfg.env, s.rows.log), s.procs[p].answer.action).Performed?
    ensures Reachable(cfg, s') && s'.cache == s.cache
    ensures var c, r, log := s.procs[p].claim, s.procs[p].answer, s.rows.log;
            var out := AgentOutcome(r, Execute(cfg.env, Live(cfg.env, log), r.action).observation);
            && s'.rows.log == log + [AsEvent(c, |log|, out)]
            && (!out.final ==> AtWork(s', p, now) && s'.procs == s.procs[p := Loop(c, true)])
  {
    var s1 := ToolStep(cfg, s, p);
    s' := CommitStep(cfg, s1, p, now);
  }

  /* ---------- the lone worker as a run of the protocol ---------- */

  // p works on a log of n events, and the cache knows no answer for a later step.
  ghost predicate Works(cfg: Config, s: Sys, p: Proc, n: nat, now: int) {
    && Reachable(cfg, s) && AtWork(s, p, now) && |s.rows.log| == n
    && (s.procs[p].mounted || StringContents(s.rows.log))
    && forall key :: key in s.cache ==> key.step < n
  }

  lemma OpenStepsAsk(cfg: Config, oracle: seq<Message> -> Response, c: Claim, pre: seq<Event>)
    requires cfg.spec.Coding? && !Ended(pre) && NextOutcome(cfg, oracle, c, pre).Some?
    requires !NextOutcome(cfg, oracle, c, pre).value.final
    ensures Asks(cfg, oracle, c, pre)
  {
  }

  // A log that the lone worker's n steps leave open has n events.
  lemma OpenIsLonger(cfg: Config, oracle: seq<Message> -> Response, c: Claim, n: nat)
    requires n > 0 && !Ended(Alone(cfg, oracle, c, n)) && NextOutcome(cfg, oracle, c, Alone(cfg, oracle, c, n)).Some?
    ensures var pre := Alone(cfg, oracle, c, n - 1);
            && !Ended(pre) && NextOutcome(cfg, oracle, c, pre).Some? && !NextOutcome(cfg, oracle, c, pre).value.final
            && Alone(cfg, oracle, c, n) == pre + [AsEvent(c, |pre|, NextOutcome(cfg, oracle, c, pre).value)]
  {
  }

  /** If the lone worker's step n asks the provider, so did the step before. */
  lemma StepBefore(cfg: Config, oracle: seq<Message> -> Response, c: Claim, n: nat, lone: seq<Event>)
    returns (pre: seq<Event>, e: Event)
    requires n > 0 && lone == Alone(cfg, oracle, c, n) && Asks(cfg, oracle, c, lone)
    ensures pre == Alone(cfg, oracle, c, n - 1) && Asks(cfg, oracle, c, pre)
    ensures IsNext(cfg, oracle, c, pre, e) && lone == pre + [e]
  {
    pre := Alone(cfg, oracle, c, n - 1);
    OpenIsLonger(cfg, oracle, c, n);
    OpenStepsAsk(cfg, oracle, c, pre);
    e := AsEvent(c, |pre|, NextOutcome(cfg, oracle, c, pre).value);
  }

  // What step n of the lone worker needs is there for whoever stands on the same log.
  lemma SameAsk(cfg: Config, oracle: seq<Message> -> Response, c: Claim, a: seq<Event>, b: seq<Event>)
    requires EraseAll(a) == EraseAll(b) && Asks(cfg, oracle, c, b)
    ensures cfg.spec.Coding? && CheckLimits(a, cfg.budget, cfg.spec.maxSteps) == None && !Ended(a)
    ensures AnswerAt(cfg, oracle, a) == AnswerAt(cfg, oracle, b)
    ensures Execute(cfg.env, Live(cfg.env, a), AnswerAt(cfg, oracle, a).action).Performed?
    ensures NextOutcome(cfg, oracle, c, a).Some?
  {
    SameReading(cfg.env, cfg.spec.prompt, a, b);
    SameEnd(a, b);
  }

  lemma SameStrings(a: seq<Event>, b: seq<Event>)
    requires EraseAll(a) == EraseAll(b) && StringContents(b)
    ensures StringContents(a)
  {
    SameEnd(a, b);
    forall i | 0 <= i < |a| && IsWrite(a[i].payload)
      ensures Content(a[i].payload.action).Some? && Content(a[i].payload.action).value.Str?
    {
      assert EraseAll(a)[i] == EraseAll(b)[i];
      assert Erase(a[i]) == Erase(b[i]);
    }
  }

  // p reads the log and asks for a step that is not in the cache.
  lemma AskNext(cfg: Config, s: Sys, p: Proc, r: Response) returns (s': Sys)
    requires cfg.fenced && cfg.spec.Coding? && Reachable(cfg, s)
    requires cfg.env.answers(Messages(cfg.spec.prompt, s.rows.log), r)
    requires p in s.procs && s.procs[p].Loop? && (s.procs[p].mounted || StringContents(s.rows.log))
    requires CheckLimits(s.rows.log, cfg.budget, cfg.spec.maxSteps) == None && KeyFor(cfg, s.rows.log) !in s.cache
    ensures var log := s.rows.log;
            Reaches(cfg, s, s', p, Answered(s.procs[p].claim, log, r), s.cache[KeyFor(cfg, log) := Stored(r)])
  {
    Hold(cfg, s, p, 0);
    var s1 := ReadAndMount(cfg, s, s, p, 0);
    s' := AskFirst(cfg, s1, p, r);
  }

  // p takes step n, which does not end the run.
  lemma LoneStep(cfg: Config, oracle: seq<Message> -> Response, s: Sys, p: Proc, n: nat, now: int) returns (s': Sys)
    requires cfg.fenced && cfg.spec.Coding? && Obeys(cfg.env, oracle) && Works(cfg, s, p, n, now)
    requires CheckLimits(s.rows.log, cfg.budget, cfg.spec.maxSteps) == None
    requires var out := NextOutcome(cfg, oracle, s.procs[p].claim, s.rows.log); out.Some? && !out.value.final
    ensures Works(cfg, s', p, n + 1, now) && s'.procs == s.procs[p := Loop(s.procs[p].claim, true)]
    ensures var c, log := s.procs[p].claim, s.rows.log;
            s'.rows.log == log + [AsEvent(c, |log|, NextOutcome(cfg, oracle, c, log).value)]
  {
    var s1 := AskNext(cfg, s, p, AnswerAt(cfg, oracle, s.rows.log));
    s' := UseAnswer(cfg, s1, p, now);
  }

  lemma OwnRun(cfg: Config, s: Sys, p: Proc)
    requires Reachable(cfg, s) && p in s.procs
    ensures s.procs[p].claim.run == cfg.run
  {
    ReachableIsBase(cfg, s);
    assert LocalOk(cfg, s.rows.log, s.rows.task.attempt, s.procs[p]);
  }

  lemma FirstClaim(cfg: Config) returns (s: Sys, now: int)
    requires cfg.fenced
    ensures Works(cfg, s, 0, 0, now) && s.procs.Keys == {0} && s.rows.log == []
  {
    var s0 := Init(cfg, 0);
    assert s0 == Exec(cfg, s0, []);
    s, now := TakeOver(cfg, s0, 0, 0);
  }

  // Every event of `lone` is the next outcome of the events before it, and so is the one to come.
  ghost predicate Scripted(cfg: Config, oracle: seq<Message> -> Response, c: Claim, lone: seq<Event>) {
    && Asks(cfg, oracle, c, lone)
    && forall k: nat :: k < |lone| ==> ScriptedAt(cfg, oracle, c, lone, k)
  }

  predicate ScriptedAt(cfg: Config, oracle: seq<Message> -> Response, c: Claim, lone: seq<Event>, k: nat)
    requires k < |lone|
  {
    Asks(cfg, oracle, c, lone[..k]) && IsNext(cfg, oracle, c, lone[..k], lone[k])
  }

  predicate IsNext(cfg: Config, oracle: seq<Message> -> Response, c: Claim, pre: seq<Event>, e: Event) {
    var next := NextOutcome(cfg, oracle, c, pre);
    next.Some? && !next.value.final && e == AsEvent(c, |pre|, next.value)
  }

  lemma ScriptGrows(cfg: Config, oracle: seq<Message> -> Response, c: Claim, pre: seq<Event>, e: Event,
                    lone: seq<Event>)
    requires Scripted(cfg, oracle, c, pre) && IsNext(cfg, oracle, c, pre, e)
    requires lone == pre + [e] && Asks(cfg, oracle, c, lone)
    ensures Scripted(cfg, oracle, c, lone)
  {
    forall k: nat | k < |lone| ensures ScriptedAt(cfg, oracle, c, lone, k) {
      if k < |pre| {
        assert ScriptedAt(cfg, oracle, c, pre, k) && lone[..k] == pre[..k];
      } else {
        assert lone[..k] == pre;
      }
    }
  }

  lemma {:induction false} AloneIsScripted(cfg: Config, oracle: seq<Message> -> Response, c: Claim, n: nat,
                                           lone: seq<Event>)
    requires lone == Alone(cfg, oracle, c, n) && Asks(cfg, oracle, c, lone)
    ensures |lone| == n && Scripted(cfg, oracle, c, lone)
    decreases n
  {
    if n > 0 {
      var pre, e := StepBefore(cfg, oracle, c, n, lone);
      AloneIsScripted(cfg, oracle, c, n - 1, pre);
      ScriptGrows(cfg, oracle, c, pre, e, lone);
    }
  }

  lemma {:induction false} AlonePrefix(cfg: Config, oracle: seq<Message> -> Response, c: Claim, k: nat, n: nat)
    requires k <= n
    ensures Alone(cfg, oracle, c, k) <= Alone(cfg, oracle, c, n)
    ensures |Alone(cfg, oracle, c, k)| <= k && |Alone(cfg, oracle, c, n)| <= |Alone(cfg, oracle, c, k)| + n - k
    decreases n
  {
    if k < n { AlonePrefix(cfg, oracle, c, k, n - 1); } else if k > 0 { AlonePrefix(cfg, oracle, c, k - 1, n - 1); }
  }

  // p has written, or found, the first k events of `lone`, writers aside.
  ghost predicate Follows(cfg: Config, s: Sys, p: Proc, lone: seq<Event>, k: nat, now: int) {
    k <= |lone| && Works(cfg, s, p, k, now) && EraseAll(s.rows.log) == EraseAll(lone[..k])
  }

  lemma SameNextEvent(cfg: Config, oracle: seq<Message> -> Response, c: Claim, own: Claim,
                      log: seq<Event>, pre: seq<Event>, e: Event)
    requires EraseAll(log) == EraseAll(pre) && c.run == own.run
    requires Asks(cfg, oracle, c, pre) && IsNext(cfg, oracle, c, pre, e)
    ensures var next := NextOutcome(cfg, oracle, own, log);
            && next.Some? && !next.value.final
            && EraseAll(log + [AsEvent(own, |log|, next.value)]) == EraseAll(pre + [e])
  {
    SameNext(cfg, oracle, own, c, log, pre);
    SameEnd(log, pre);
    EraseAppend(pre, e);
    EraseAppend(log, AsEvent(own, |log|, NextOutcome(cfg, oracle, own, log).value));
  }

  // One more event, the next one after `pre`.
  lemma FollowEvent(cfg: Config, oracle: seq<Message> -> Response, c: Claim, s: Sys, p: Proc, pre: seq<Event>, e: Event,
                    now: int)
    returns (s': Sys)
    requires cfg.fenced && cfg.spec.Coding? && Obeys(cfg.env, oracle) && c.run == cfg.run
    requires Asks(cfg, oracle, c, pre) && IsNext(cfg, oracle, c, pre, e)
    requires Works(cfg, s, p, |pre|, now) && EraseAll(s.rows.log) == EraseAll(pre)
    ensures Works(cfg, s', p, |pre| + 1, now) && EraseAll(s'.rows.log) == EraseAll(pre + [e])
    ensures s'.procs == s.procs[p := Loop(s.procs[p].claim, true)]
  {
    OwnRun(cfg, s, p);
    SameAsk(cfg, oracle, c, s.rows.log, pre);
    SameNextEvent(cfg, oracle, c, s.procs[p].claim, s.rows.log, pre, e);
    s' := LoneStep(cfg, oracle, s, p, |pre|, now);
  }

  lemma ScriptAt(cfg: Config, oracle: seq<Message> -> Response, c: Claim, lone: seq<Event>, k: nat)
    requires Scripted(cfg, oracle, c, lone) && k < |lone|
    ensures Asks(cfg, oracle, c, lone[..k]) && IsNext(cfg, oracle, c, lone[..k], lone[k])
    ensures lone[..k] + [lone[k]] == lone[..k + 1]
  {
    assert ScriptedAt(cfg, oracle, c, lone, k);
  }

  lemma FollowOn(cfg: Config, oracle: seq<Message> -> Response, c: Claim, s: Sys, p: Proc, lone: seq<Event>, k: nat,
                 now: int)
    returns (s': Sys)
    requires cfg.fenced && cfg.spec.Coding? && Obeys(cfg.env, oracle) && c.run == cfg.run
    requires Scripted(cfg, oracle, c, lone) && k < |lone| && Follows(cfg, s, p, lone, k, now)
    ensures Follows(cfg, s', p, lone, k + 1, now) && s'.procs == s.procs[p := Loop(s.procs[p].claim, true)]
  {
    ScriptAt(cfg, oracle, c, lone, k);
    s' := FollowEvent(cfg, oracle, c, s, p, lone[..k], lone[k], now);
  }

  // Only p moved from s to s', and at most to the top of its loop, mounted.
  predicate OnlyWorked(s: Sys, s': Sys, p: Proc) {
    && p in s.procs && p in s'.procs
    && (s'.procs == s.procs || s'.procs == s.procs[p := Loop(s.procs[p].claim, true)])
  }

  lemma WorkedTwice(s: Sys, s1: Sys, s2: Sys, p: Proc)
    requires OnlyWorked(s, s1, p) && p in s1.procs && s2.procs == s1.procs[p := Loop(s1.procs[p].claim, true)]
    ensures OnlyWorked(s, s2, p) && s2.procs[p].Loop? && s2.procs[p].mounted
  {
  }

  lemma FollowFurther(cfg: Config, oracle: seq<Message> -> Response, c: Claim, s: Sys, s1: Sys, p: Proc,
                      lone: seq<Event>, k: nat, now: int)
    returns (s': Sys)
    requires cfg.fenced && cfg.spec.Coding? && Obeys(cfg.env, oracle) && c.run == cfg.run
    requires Scripted(cfg, oracle, c, lone) && k < |lone| && Follows(cfg, s1, p, lone, k, now) && OnlyWorked(s, s1, p)
    ensures Follows(cfg, s', p, lone, k + 1, now) && OnlyWorked(s, s', p) && s'.procs[p].Loop? && s'.procs[p].mounted
  {
    s' := FollowOn(cfg, oracle, c, s1, p, lone, k, now);
    WorkedTwice(s, s1, s', p);
  }

  /** A process can go on writing, on its own, any log that the lone worker writes. */
  lemma {:induction false} LoneRun(cfg: Config, oracle: seq<Message> -> Response, c: Claim, s: Sys, p: Proc,
                                   lone: seq<Event>, k: nat, now: int)
    returns (s': Sys)
    requires cfg.fenced && cfg.spec.Coding? && Obeys(cfg.env, oracle) && c.run == cfg.run
    requires Scripted(cfg, oracle, c, lone) && |s.rows.log| <= k <= |lone|
    requires Follows(cfg, s, p, lone, |s.rows.log|, now)
    ensures Follows(cfg, s', p, lone, k, now)
    ensures OnlyWorked(s, s', p) && (k > |s.rows.log| ==> s'.procs[p].mounted)
    decreases k
  {
    if k == |s.rows.log| {
      s' := s;
    } else {
      var s1 := LoneRun(cfg, oracle, c, s, p, lone, k - 1, now);
      s' := FollowFurther(cfg, oracle, c, s, s1, p, lone, k - 1, now);
    }
  }
}
