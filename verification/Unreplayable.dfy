/** Logs that no later attempt can replay: exactly when a run can reach one, at whatever step, and
    what becomes of it then. */
module Unreplayable {
  import opened Options
  import opened Store
  import opened Budget
  import opened Agent
  import opened Leases
  import opened Engine
  import opened Protocol
  import opened Durability
  import opened Fencing
  import opened Guarantees
  import opened Sequential
  import opened Recovery
  import opened LoneRuns
  import opened Spending

  /* ---------- when a run gets there ---------- */

  // A write that _execute performs and materialize_workspace cannot repeat.
  predicate WritesNoString(env: Env, action: Action) {
    && IsTool(action, "write_file") && Target(env, action).Some?
    && Content(action).Some? && !Content(action).value.Str?
  }

  // The run is open, and no takeover can rebuild its workspace.
  ghost predicate Unreplayable(cfg: Config, s: Sys) {
    Reachable(cfg, s) && !Ended(s.rows.log) && Replay(cfg.env, s.rows.log) == None
  }

  // The run is open and within its limits, and the provider may now answer with r.
  ghost predicate MayAnswer(cfg: Config, s: Sys, r: Response) {
    && cfg.spec.Coding? && Reachable(cfg, s) && !Ended(s.rows.log)
    && CheckLimits(s.rows.log, cfg.budget, cfg.spec.maxSteps) == None
    && cfg.env.answers(Messages(cfg.spec.prompt, s.rows.log), r)
  }

  lemma IdleProcess(procs: map<Proc, Local>) returns (p: Proc)
    ensures p !in procs
  {
    p := 0;
    var seen: set<Proc> := {};
    while p in procs
      invariant seen <= procs.Keys && forall q :: q in seen ==> q < p
      decreases procs.Keys - seen
    {
      seen, p := seen + {p}, p + 1;
    }
  }

  // The same log, worked on by an idle process, before anyone has asked for its next step.
  lemma Unasked(cfg: Config, s: Sys) returns (s': Sys, p: Proc, now: int)
    requires cfg.fenced && cfg.spec.Coding? && Reachable(cfg, s) && !Ended(s.rows.log)
    ensures Reachable(cfg, s') && s'.rows.log == s.rows.log && AtWork(s', p, now)
    ensures KeyFor(cfg, s.rows.log) !in s'.cache
  {
    var at, ls :| s == Exec(cfg, Init(cfg, at), ls);
    var log := s.rows.log;
    var s1 := PrefixIsReachable(cfg, at, ls, |log|);
    assert log[..|log|] == log;
    p := IdleProcess(s1.procs);
    FencingSafety(cfg, s1);
    s', now := TakeOver(cfg, s1, p, 0);
  }

  lemma WriteRuns(env: Env, files: Files, action: Action)
    requires WritesNoString(env, action)
    ensures var x := Execute(env, files, action); x.Performed? && x.observation == Written && !IsTool(action, "finish")
  {
    assert Str("write_file") != Str("finish") by { assert "write_file"[0] != "finish"[0]; }
  }

  lemma CannotRepeat(env: Env, pre: seq<Event>, e: Event)
    requires IsWrite(e.payload) && WritesNoString(env, e.payload.action)
    ensures Replay(env, pre + [e]) == None
  {
    assert (pre + [e])[..|pre|] == pre;
  }

  lemma WritePerformed(cfg: Config, c: Claim, pre: seq<Event>, r: Response)
    requires WritesNoString(cfg.env, r.action)
    ensures var x := Execute(cfg.env, Live(cfg.env, pre), r.action);
            && x.Performed? && !AgentOutcome(r, x.observation).final
            && Replay(cfg.env, pre + [AsEvent(c, |pre|, AgentOutcome(r, x.observation))]) == None
  {
    WriteRuns(cfg.env, Live(cfg.env, pre), r.action);
    CannotRepeat(cfg.env, pre, AsEvent(c, |pre|, AgentOutcome(r, Written)));
  }

  /** If the provider may answer with such a write, at whatever step, the run can reach an open
      state whose log no later attempt can replay. */
  lemma UnreplayableIsReachable(cfg: Config, s: Sys, r: Response) returns (s': Sys)
    requires cfg.fenced && MayAnswer(cfg, s, r) && WritesNoString(cfg.env, r.action)
    ensures Unreplayable(cfg, s')
  {
    s' := s;
    if Replay(cfg.env, s.rows.log).Some? {
      var s1, p, now := Unasked(cfg, s);
      ReachableIsFenced(cfg, s1);
      RebuildExact(cfg.env, s1.rows.log);
      var s2 := AskNext(cfg, s1, p, r);
      WritePerformed(cfg, s2.procs[p].claim, s.rows.log, r);
      s' := UseAnswer(cfg, s2, p, now);
    }
  }

  /** Conversely such a log holds a write that the provider gave at an open state. */
  lemma UnreplayableWasAnswered(cfg: Config, s: Sys) returns (s': Sys, r: Response)
    requires cfg.fenced && Unreplayable(cfg, s)
    ensures MayAnswer(cfg, s', r) && WritesNoString(cfg.env, r.action)
  {
    var log := s.rows.log;
    ReachableIsFenced(cfg, s);
    RebuildExact(cfg.env, log);
    var i :| 0 <= i < |log| && IsWrite(log[i].payload)
             && !(Content(log[i].payload.action).Some? && Content(log[i].payload.action).value.Str?);
    r := WriteWasAnswered(cfg, s, i);
    var now, ls :| s == Exec(cfg, Init(cfg, now), ls);
    s' := PrefixIsReachable(cfg, now, ls, i);
  }

  lemma WriteWasAnswered(cfg: Config, s: Sys, i: nat) returns (r: Response)
    requires cfg.fenced && Reachable(cfg, s) && i < |s.rows.log| && s.rows.log[i].payload.AgentPayload?
    ensures cfg.spec.Coding? && CheckLimits(s.rows.log[..i], cfg.budget, cfg.spec.maxSteps) == None
    ensures !Ended(s.rows.log[..i]) && ObservedIn(cfg.env, s.rows.log[..i], s.rows.log[i])
    ensures cfg.env.answers(Messages(cfg.spec.prompt, s.rows.log[..i]), r) && r.action == s.rows.log[i].payload.action
  {
    ReachableIsFenced(cfg, s);
    EventAt(cfg, s.rows, i);
    var messages, p := Messages(cfg.spec.prompt, s.rows.log[..i]), s.rows.log[i].payload;
    assert Justified(cfg, s.rows.log[..i], s.rows.log[i]);
    r := AnswerIn(p);
    if !cfg.env.answers(messages, r) {
      var given :| cfg.env.answers(messages, given) && AnswerIn(p) == Stored(given);
      r := given;
    }
  }

  /** Exactly when a run can get stuck so: some open state is within its limits, and there the
      provider may answer with a write whose content is no string. */
  lemma UnreplayableExactly(cfg: Config)
    requires cfg.fenced
    ensures (exists s :: Unreplayable(cfg, s))
              <==> exists s, r :: MayAnswer(cfg, s, r) && WritesNoString(cfg.env, r.action)
  {
    if s :| Unreplayable(cfg, s) {
      var s', r := UnreplayableWasAnswered(cfg, s);
    }
    if s, r :| MayAnswer(cfg, s, r) && WritesNoString(cfg.env, r.action) {
      var s' := UnreplayableIsReachable(cfg, s, r);
    }
  }

  // The lone worker's step n is such a write.
  predicate BreaksAt(cfg: Config, oracle: seq<Message> -> Response, c: Claim, n: nat) {
    var lone := Alone(cfg, oracle, c, n);
    Asks(cfg, oracle, c, lone) && WritesNoString(cfg.env, AnswerAt(cfg, oracle, lone).action)
  }

  lemma BreaksAtAStep(cfg: Config, oracle: seq<Message> -> Response, c: Claim, n: nat) returns (s: Sys)
    requires cfg.fenced && Obeys(cfg.env, oracle) && c.run == cfg.run && BreaksAt(cfg, oracle, c, n)
    ensures Unreplayable(cfg, s)
  {
    var lone := Alone(cfg, oracle, c, n);
    AloneIsScripted(cfg, oracle, c, n, lone);
    var s0, now := FirstClaim(cfg);
    var s1 := LoneRun(cfg, oracle, c, s0, 0, lone, n, now);
    assert lone[..n] == lone;
    SameAsk(cfg, oracle, c, s1.rows.log, lone);
    s := UnreplayableIsReachable(cfg, s1, AnswerAt(cfg, oracle, s1.rows.log));
  }

  lemma AnsweredAlone(cfg: Config, oracle: seq<Message> -> Response, c: Claim, s: Sys, r: Response)
    requires cfg.fenced && MayAnswer(cfg, s, r) && WritesNoString(cfg.env, r.action) && c.run == cfg.run
    requires Deterministic(cfg.env, oracle) && WholeAlong(cfg, oracle, c)
    ensures BreaksAt(cfg, oracle, c, |s.rows.log|)
  {
    var log := s.rows.log;
    CrashRunsAreSequential(cfg, oracle, c, s);
    assert EraseAll(log) == EraseAll(Alone(cfg, oracle, c, |log|));
    WritePerformed(cfg, c, log, r);
    assert Asks(cfg, oracle, c, log);
    SameAsk(cfg, oracle, c, Alone(cfg, oracle, c, |log|), log);
  }

  /** With a provider that answers deterministically, and whole micro-dollars: iff some step of the
      lone worker is such a write. */
  lemma UnreplayableAlong(cfg: Config, oracle: seq<Message> -> Response, c: Claim)
    requires cfg.fenced && c.run == cfg.run && Deterministic(cfg.env, oracle) && Obeys(cfg.env, oracle)
    requires WholeAlong(cfg, oracle, c)
    ensures (exists s :: Unreplayable(cfg, s)) <==> exists n: nat :: BreaksAt(cfg, oracle, c, n)
  {
    if s :| Unreplayable(cfg, s) {
      var s', r := UnreplayableWasAnswered(cfg, s);
      AnsweredAlone(cfg, oracle, c, s', r);
    }
    if n: nat :| BreaksAt(cfg, oracle, c, n) {
      var s' := BreaksAtAStep(cfg, oracle, c, n);
    }
  }

  /* ---------- what becomes of the run ---------- */

  // A process of a later attempt than a0: it never had a workspace, or is giving up.
  predicate Unmounted(cfg: Config, log0: seq<Event>, at: Local) {
    match at
    case Loop(_, mounted) => !mounted
    case Have(_, mounted, snap) => !mounted && log0 <= snap
    case Ready(c, n, out, closing) => closing && out.final && GaveUp(cfg, AsEvent(c, n, out))
    case Releasing(_) => true
    case Counting(_, _) => true
    case _ => false
  }

  ghost predicate LaterUnmounted(cfg: Config, s: Sys, log0: seq<Event>, a0: nat) {
    && log0 <= s.rows.log && a0 <= s.rows.task.attempt
    && forall p :: p in s.procs && s.procs[p].claim.attempt > a0 ==> Unmounted(cfg, log0, s.procs[p])
  }

  // Events of later attempts than a0 only close the run.
  predicate LaterOnlyClose(cfg: Config, log: seq<Event>, a0: nat) {
    forall i :: 0 <= i < |log| && log[i].meta.attempt > a0 ==> GaveUp(cfg, log[i]) && log[i].meta.final
  }

  lemma UnmountedStays(cfg: Config, s: Sys, l: Label, log0: seq<Event>, a0: nat)
    requires cfg.spec.Coding? && Replay(cfg.env, log0) == None && LaterUnmounted(cfg, s, log0, a0)
    requires !l.ClaimTask? && !l.Reap? && !l.Crash? && l.p in s.procs && s.procs[l.p].claim.attempt > a0
    requires LocalOk(cfg, s.rows.log, s.rows.task.attempt, s.procs[l.p])
    requires l.p in StepProc(cfg, s, l, s.procs[l.p]).procs
    ensures Unmounted(cfg, log0, StepProc(cfg, s, l, s.procs[l.p]).procs[l.p])
  {
    var at := s.procs[l.p];
    assert Unmounted(cfg, log0, at);
    if at.Have? && l.Mount? {
      assert at.log[..|log0|] == log0;
      ReplayStops(cfg.env, at.log, |log0|);
    } else if at.Counting? && l.CountEvents? {
      assert Fits(AsEvent(at.claim, |s.rows.log|, FailedOutcome(at.fatal, at.claim.attempt)),
                  FailedOutcome(at.fatal, at.claim.attempt));
    } else if OnRows(l) {
      RowStepUnmounted(cfg, s, l, log0, at);
    }
  }

  lemma RowStepUnmounted(cfg: Config, s: Sys, l: Label, log0: seq<Event>, at: Local)
    requires cfg.spec.Coding? && OnRows(l) && l.p in s.procs && at == s.procs[l.p] && Unmounted(cfg, log0, at)
    requires l.p in StepProc(cfg, s, l, at).procs
    ensures Unmounted(cfg, log0, StepProc(cfg, s, l, at).procs[l.p])
  {
  }

  lemma LaterStayUnmounted(cfg: Config, s: Sys, l: Label, log0: seq<Event>, a0: nat, p: Proc)
    requires cfg.spec.Coding? && Base(cfg, s) && Replay(cfg.env, log0) == None && LaterUnmounted(cfg, s, log0, a0)
    requires p in Step(cfg, s, l).procs && Step(cfg, s, l).procs[p].claim.attempt > a0
    ensures Unmounted(cfg, log0, Step(cfg, s, l).procs[p])
  {
    StepClaims(cfg, s, l, p);
    if !Actor(l, p) {
      StepOthers(cfg, s, l, p);
    } else if p in s.procs && !l.ClaimTask? && !l.Crash? {
      assert LocalOk(cfg, s.rows.log, s.rows.task.attempt, s.procs[p]);
      UnmountedStays(cfg, s, l, log0, a0);
    }
  }

  lemma StepKeepsUnmounted(cfg: Config, s: Sys, l: Label, log0: seq<Event>, a0: nat)
    requires cfg.spec.Coding? && Base(cfg, s) && Replay(cfg.env, log0) == None && LaterUnmounted(cfg, s, log0, a0)
    ensures LaterUnmounted(cfg, Step(cfg, s, l), log0, a0)
  {
    var s' := Step(cfg, s, l);
    StepExtendsLog(cfg, s, l);
    forall p | p in s'.procs && s'.procs[p].claim.attempt > a0 ensures Unmounted(cfg, log0, s'.procs[p]) {
      LaterStayUnmounted(cfg, s, l, log0, a0, p);
    }
  }

  lemma StepKeepsClosing(cfg: Config, s: Sys, l: Label, log0: seq<Event>, a0: nat)
    requires cfg.spec.Coding? && Base(cfg, s) && LaterUnmounted(cfg, s, log0, a0) && LaterOnlyClose(cfg, s.rows.log, a0)
    ensures LaterOnlyClose(cfg, Step(cfg, s, l).rows.log, a0)
  {
    StepRows(cfg, s, l);
    if l.Commit? && l.p in s.procs && s.procs[l.p].Ready? {
      CommitShape(cfg, s, l.p, l.now);
      assert LocalOk(cfg, s.rows.log, s.rows.task.attempt, s.procs[l.p]);
    }
  }

  lemma {:induction false} LaterAttemptsOnlyClose(cfg: Config, s: Sys, ls: seq<Label>)
    requires cfg.spec.Coding? && Base(cfg, s) && Replay(cfg.env, s.rows.log) == None
    requires LaterOnlyClose(cfg, s.rows.log, s.rows.task.attempt)
    ensures LaterUnmounted(cfg, Exec(cfg, s, ls), s.rows.log, s.rows.task.attempt)
    ensures LaterOnlyClose(cfg, Exec(cfg, s, ls).rows.log, s.rows.task.attempt)
  {
    if ls == [] {
      forall p | p in s.procs ensures s.procs[p].claim.attempt <= s.rows.task.attempt {
        assert LocalOk(cfg, s.rows.log, s.rows.task.attempt, s.procs[p]);
      }
    } else {
      var pre := ls[..|ls| - 1];
      LaterAttemptsOnlyClose(cfg, s, pre);
      ExecKeepsBase(cfg, s, pre);
      StepKeepsUnmounted(cfg, Exec(cfg, s, pre), ls[|ls| - 1], s.rows.log, s.rows.task.attempt);
      StepKeepsClosing(cfg, Exec(cfg, s, pre), ls[|ls| - 1], s.rows.log, s.rows.task.attempt);
    }
  }

  /** Once the log cannot be replayed, no attempt that starts later computes a step, in any
      continuation: all it can write is the event by which it gives the run up. */
  lemma UnreplayableRunOnlyCloses(cfg: Config, s: Sys, ls: seq<Label>, i: nat)
    requires cfg.fenced && cfg.spec.Coding? && Reachable(cfg, s) && Replay(cfg.env, s.rows.log) == None
    requires i < |Exec(cfg, s, ls).rows.log| && Exec(cfg, s, ls).rows.log[i].meta.attempt > s.rows.task.attempt
    ensures GaveUp(cfg, Exec(cfg, s, ls).rows.log[i]) && Exec(cfg, s, ls).rows.log[i].meta.final
  {
    ReachableIsFenced(cfg, s);
    LaterAttemptsOnlyClose(cfg, s, ls);
  }
}
