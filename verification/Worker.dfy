/** The loops of the worker: rebuilding the workspace, building the messages, one agent step,
    and execute_task for a worker that keeps its lease, proved to finish the job. */
module Worker {
  import opened Options
  import opened Store
  import opened Budget
  import opened Agent
  import opened Leases
  import opened Engine
  import opened Protocol
  import opened Durability
  import opened Fencing
  import opened Sequential
  import opened Recovery
  import opened Records
  import opened Tables

  // materialize_workspace; None when an exception escapes.
  method Materialize(env: Env, log: seq<Event>) returns (files: Option<Files>)
    ensures files == Replay(env, log)
  {
    var tree: Files := map[];
    var i := 0;
    while i < |log|
      invariant 0 <= i <= |log| && Replay(env, log[..i]) == Some(tree)
    {
      assert log[..i + 1][..i] == log[..i];
      var p := log[i].payload;
      if IsWrite(p) {
        var path, content := Target(env, p.action), Content(p.action);
        if path.None? || content.None? || !content.value.Str? {
          ReplayStops(env, log, i + 1);
          return None;
        }
        tree := tree[path.value := content.value.s];
      }
      i := i + 1;
    }
    assert log[..i] == log;
    files := Some(tree);
  }

  method BuildMessages(prompt: string, log: seq<Event>) returns (messages: seq<Message>)
    ensures messages == Messages(prompt, log) && IsHistory(messages, prompt, log)
  {
    messages := [Prompt(prompt)];
    var i := 0;
    while i < |log|
      invariant 0 <= i <= |log| && messages == Messages(prompt, log[..i])
    {
      assert log[..i + 1][..i] == log[..i];
      if log[i].payload.AgentPayload? {
        messages := messages + [Assistant(log[i].payload.action)];
        messages := messages + [Observed(log[i].payload.observation)];
      }
      i := i + 1;
    }
    assert log[..i] == log;
    MessagesAreHistory(prompt, log);
  }

  /* ---------- one agent step ---------- */

  // What complete_cached comes back with, given what the provider would reply.
  function AnswerFor(cfg: Config, cache: map<CacheKey, Response>, log: seq<Event>, reply: Option<Response>)
    : Option<Response>
    requires cfg.spec.Coding?
  {
    if KeyFor(cfg, log) in cache then Some(cache[KeyFor(cfg, log)]) else reply
  }

  // The step after `pre` when complete_cached comes back with r; None when it raises.
  function StepWith(cfg: Config, c: Claim, pre: seq<Event>, r: Option<Response>): Option<Outcome> {
    match cfg.spec
    case Toy(steps, cost) => Some(ToyOutcome(steps, cost, c, |pre|))
    case Coding(_, maxSteps) =>
      match CheckLimits(pre, cfg.budget, maxSteps)
      case Some(t) => Some(StopOutcome(t))
      case None =>
        if r.None? then None
        else
          var x := Execute(cfg.env, Live(cfg.env, pre), r.value.action);
          if x.Performed? then Some(AgentOutcome(r.value, x.observation)) else None
  }

  // The outcome of a step, with what ends a run and how: a toy run its last step, an agent's run
  // the tool `finish` or a limit.
  ghost predicate EndsRight(cfg: Config, n: nat, out: Outcome) {
    && out.cost == CostOf(out.payload)
    && match out.payload
       case ToyPayload(i, value, _, _, cost) =>
         && cfg.spec.Toy? && i == n && value == n * n && cost == cfg.spec.cost && out.kind == ToyStep
         && (out.final <==> n == cfg.spec.steps - 1) && (out.final ==> out.status == Succeeded)
       case AgentPayload(action, _, _, _, _) =>
         && (out.final <==> Calls(action, "finish")) && (out.final ==> out.status == Succeeded)
         && out.kind == if Calls(action, "finish") then Finish else AgentStep
       case ReasonPayload(reason) =>
         && out.final && out.status == (if reason == BudgetReached then BudgetExceeded else Failed)
         && out.kind == if reason == BudgetReached then OverBudget else Failure
  }

  lemma AnswerEndsRight(cfg: Config, n: nat, r: Response, seen: Observation)
    ensures EndsRight(cfg, n, AgentOutcome(r, seen))
  {
  }

  lemma StopEndsRight(cfg: Config, log: seq<Event>, maxSteps: int)
    ensures var stop := CheckLimits(log, cfg.budget, maxSteps);
            stop.Some? ==> EndsRight(cfg, |log|, StopOutcome(stop.value))
  {
  }

  lemma StepEndsRight(cfg: Config, c: Claim, pre: seq<Event>, r: Option<Response>)
    requires StepWith(cfg, c, pre, r).Some?
    ensures EndsRight(cfg, |pre|, StepWith(cfg, c, pre, r).value)
  {
    if cfg.spec.Coding? {
      StopEndsRight(cfg, pre, cfg.spec.maxSteps);
      if r.Some? && Execute(cfg.env, Live(cfg.env, pre), r.value.action).Performed? {
        AnswerEndsRight(cfg, |pre|, r.value, Execute(cfg.env, Live(cfg.env, pre), r.value.action).observation);
      }
    }
  }

  // What the last event says of a run that has ended.
  predicate SaysEnd(cfg: Config, e: Event, status: RunStatus) {
    && (status == Succeeded <==> Completes(cfg, e))
    && (status == BudgetExceeded <==> e.payload == ReasonPayload(BudgetReached))
  }

  lemma EndSays(cfg: Config, c: Claim, n: nat, out: Outcome)
    requires EndsRight(cfg, n, out) && out.final
    ensures SaysEnd(cfg, AsEvent(c, n, out), StatusFor(out.kind))
  {
  }

  class AgentWorkflow {
    const cfg: Config
    var workspace: Option<Files>     // this attempt's directory, once it is materialised

    constructor (cfg: Config)
      ensures this.cfg == cfg && workspace == None
    {
      this.cfg := cfg;
      workspace := None;
    }

    // The directory, if materialised, holds what the log describes.
    predicate InStep(log: seq<Event>)
      reads this
    {
      workspace.Some? ==> workspace.value == Live(cfg.env, log)
    }

    // The step fits the prefix, and the directory holds what the log with it describes.
    ghost predicate InStepAfter(log: seq<Event>, out: Outcome)
      reads this
    {
      out.payload.AgentPayload? ==>
        && workspace.Some?
        && forall e: Event :: e.payload == out.payload ==>
             ObservedIn(cfg.env, log, e) && workspace.value == Live(cfg.env, log + [e])
    }

    // The workspace is there, or can be rebuilt.
    predicate HasWorkspace(log: seq<Event>)
      reads this
    {
      workspace.Some? || StringContents(log)
    }

    // AgentWorkflow.next_step; None when it raises.
    method NextStep(db: Database, c: Claim, log: seq<Event>, reply: Option<Response>, rival: Option<Response>)
      returns (out: Option<Outcome>)
      requires db.Valid() && cfg.spec.Coding? && c.run == cfg.run && InStep(log) && Consistent(cfg.env, log)
      modifies this`workspace, db`cache, db`calls
      ensures db.Valid()
      ensures out == if old(HasWorkspace(log)) then StepWith(cfg, c, log, AnswerFor(cfg, old(db.cache), log, reply))
                     else None
      ensures out.Some? ==> InStepAfter(log, out.value) && EndsRight(cfg, |log|, out.value)
      ensures if old(HasWorkspace(log)) && CheckLimits(log, cfg.budget, cfg.spec.maxSteps) == None
                 && KeyFor(cfg, log) !in old(db.cache)
              then && db.calls == old(db.calls) + [(c.run, Call(|log|, KeyFor(cfg, log), c.attempt, c.worker))]
                   && db.cache == old(db.cache) + FirstCached(KeyFor(cfg, log), rival, reply)
              else db.calls == old(db.calls) && db.cache == old(db.cache)
    {
      RebuildExact(cfg.env, log);
      ghost var r := AnswerFor(cfg, db.cache, log, reply);
      if StepWith(cfg, c, log, r).Some? { StepEndsRight(cfg, c, log, r); }
      if workspace.None? {
        workspace := Materialize(cfg.env, log);
        if workspace.None? { return None; }
      }
      var stop := CheckLimits(log, cfg.budget, cfg.spec.maxSteps);
      if stop.Some? { return Some(StopOutcome(stop.value)); }
      var messages := BuildMessages(cfg.spec.prompt, log);
      var answer := db.CompleteCached(cfg.provider, c.run, |log|, messages, c.attempt, c.worker, reply, rival);
      if answer.None? { return None; }
      var x := Execute(cfg.env, workspace.value, answer.value.action);
      if x.Raised? { return None; }
      workspace := Some(x.files);
      out := Some(AgentOutcome(answer.value, x.observation));
      forall e: Event | e.payload == out.value.payload
        ensures ObservedIn(cfg.env, log, e) && workspace.value == Live(cfg.env, log + [e])
      {
        assert ObservedIn(cfg.env, log, e);
        LiveAppend(cfg.env, log, e);
      }
    }
  }

  /* ---------- a run under way ---------- */

  // A log that the next step may extend.
  ghost predicate UnderWay(cfg: Config, rows: Rows) {
    && Gapless(cfg.run, rows.log) && Consistent(cfg.env, rows.log) && !Ended(rows.log)
    && (cfg.spec.Toy? ==> |rows.log| < cfg.spec.steps)
  }

  /** Every reachable fenced state in which a process holds the task is such a start, so any
      takeover can be finished by ExecuteTask below; of a deterministic workflow charged in whole
      micro-dollars the log is moreover the lone worker's. */
  lemma HolderIsUnderWay(cfg: Config, oracle: seq<Message> -> Response, s: Sys, p: Proc)
    requires cfg.fenced && Reachable(cfg, s) && p in s.procs && Holder(s.rows, s.procs[p].claim)
    requires cfg.spec.Toy? ==> cfg.spec.steps >= 1
    ensures UnderWay(cfg, s.rows) && s.procs[p].claim.run == cfg.run && s.procs[p].claim.task == cfg.task
    ensures Settled(cfg, oracle) && WholeAlong(cfg, oracle, s.procs[p].claim) ==>
              EraseAll(s.rows.log) == EraseAll(Alone(cfg, oracle, s.procs[p].claim, |s.rows.log|))
  {
    ReachableIsFenced(cfg, s);
    assert LocalOk(cfg, s.rows.log, s.rows.task.attempt, s.procs[p]);
    if cfg.spec.Toy? { OpenToyIsShort(cfg, s); }
    if Settled(cfg, oracle) && WholeAlong(cfg, oracle, s.procs[p].claim) {
      CrashRunsAreSequential(cfg, oracle, s.procs[p].claim, s);
    }
  }

  lemma StepIsCoherent(cfg: Config, c: Claim, log: seq<Event>, r: Option<Response>)
    requires cfg.spec.Toy? ==> |log| < cfg.spec.steps
    requires StepWith(cfg, c, log, r).Some?
    ensures var out := StepWith(cfg, c, log, r).value; Coherent(out) && (!out.final ==> |log| + 1 < Longest(cfg))
  {
  }

  /** Committing a step under a held lease: a final outcome closes task and run, any other leaves
      the run under way and the lease in place. */
  lemma OneMore(cfg: Config, c: Claim, rows: Rows, now: int, r: Option<Response>)
    requires c.run == cfg.run && HoldsLease(rows.task, c, now) && UnderWay(cfg, rows)
    requires var out := StepWith(cfg, c, rows.log, r);
             out.Some? && ObservedIn(cfg.env, rows.log, AsEvent(c, |rows.log|, out.value))
    ensures var out := StepWith(cfg, c, rows.log, r).value;
            var rows' := CommitRows(cfg.fenced, rows, c, now, |rows.log|, out);
            && rows'.log == rows.log + [AsEvent(c, |rows.log|, out)]
            && (if out.final then Ended(rows'.log) && rows'.task.status.Done? && rows'.run.status == StatusFor(out.kind)
                else UnderWay(cfg, rows') && rows'.task == rows.task && |rows'.log| < Longest(cfg))
  {
    var log, out := rows.log, StepWith(cfg, c, rows.log, r).value;
    StepIsCoherent(cfg, c, log, r);
    ConsistentAppend(cfg.env, log, AsEvent(c, |log|, out));
    GaplessAppend(cfg.run, log, |log|, out.kind, out.payload, MetaOf(c, out));
  }

  /* ---------- execute_task ---------- */

  // The claim's run is under way in the tables.
  ghost predicate Working(db: Database, cfg: Config, c: Claim)
    reads db
  {
    db.Knows(c) && UnderWay(cfg, db.RowsOf(c))
  }

  // Task and run are closed, with the status of the last event.
  ghost predicate Finished(db: Database, c: Claim)
    reads db
  {
    && db.Knows(c)
    && var rows := db.RowsOf(c);
       Ended(rows.log) && rows.task.status.Done? && rows.run.status == StatusFor(rows.log[|rows.log| - 1].kind)
  }

  predicate IsLast(log: seq<Event>, e: Event) {
    log != [] && log[|log| - 1] == e
  }

  // Task and run are closed, and the status is what the workflow came to.
  ghost predicate FinishedRight(db: Database, cfg: Config, c: Claim)
    reads db
  {
    Finished(db, c) && forall e :: IsLast(db.events[c.run], e) ==> SaysEnd(cfg, e, db.runs[c.run].status)
  }

  // Only the rows of the claim's run differ from the given ones.
  ghost predicate OnlyOwnRows(runs: map<RunId, RunRow>, tasks: map<TaskId, TaskRow>, events: map<RunId, seq<Event>>,
                              db: Database, c: Claim)
    reads db
  {
    && db.runs - {c.run} == runs - {c.run} && db.tasks - {c.task} == tasks - {c.task}
    && db.events - {c.run} == events - {c.run}
  }

  // What the provider replies: any function of the number of calls so far and the messages.
  type Provider = (nat, seq<Message>) -> Option<Response>

  // What complete_cached comes back with after k calls.
  function AnswerNow(cfg: Config, cache: map<CacheKey, Response>, k: nat, provider: Provider, log: seq<Event>)
    : Option<Response>
  {
    if cfg.spec.Coding? then AnswerFor(cfg, cache, log, provider(k, Messages(cfg.spec.prompt, log))) else None
  }

  // At most the provider's reply to call k is new in the cache, under the key of the log.
  predicate Remembers(cfg: Config, before: map<CacheKey, Response>, k: nat, after: map<CacheKey, Response>,
                      provider: Provider, log: seq<Event>)
  {
    || after == before
    || (cfg.spec.Coding?
        && after == before + FirstCached(KeyFor(cfg, log), None, provider(k, Messages(cfg.spec.prompt, log))))
  }

  // workflow.next_step; None when it raises.
  method Compute(db: Database, workflow: AgentWorkflow, provider: Provider, c: Claim, log: seq<Event>)
    returns (out: Option<Outcome>)
    requires var cfg := workflow.cfg;
             && Working(db, cfg, c) && c.run == cfg.run && log == db.events[c.run]
             && (cfg.spec.Coding? ==> workflow.InStep(log))
    modifies db`cache, db`calls, workflow`workspace
    ensures Working(db, workflow.cfg, c)
    ensures out == if workflow.cfg.spec.Toy? || old(workflow.HasWorkspace(log))
                   then StepWith(workflow.cfg, c, log,
                                 AnswerNow(workflow.cfg, old(db.cache), old(|db.calls|), provider, log))
                   else None
    ensures out.Some? ==> ObservedIn(workflow.cfg.env, log, AsEvent(c, |log|, out.value))
    ensures out.Some? && !out.value.final && workflow.cfg.spec.Coding? ==>
              workflow.InStep(log + [AsEvent(c, |log|, out.value)]) && workflow.workspace.Some?
    ensures Remembers(workflow.cfg, old(db.cache), old(|db.calls|), db.cache, provider, log)
  {
    var cfg := workflow.cfg;
    if cfg.spec.Toy? {
      out := Some(ToyOutcome(cfg.spec.steps, cfg.spec.cost, c, |log|));
    } else {
      var reply := provider(|db.calls|, Messages(cfg.spec.prompt, log));
      out := workflow.NextStep(db, c, log, reply, None);
      if out.Some? && out.value.payload.AgentPayload? {
        assert ObservedIn(cfg.env, log, AsEvent(c, |log|, out.value));
      }
    }
  }

  // commit_step of a computed outcome under a held lease.
  method CommitOutcome(db: Database, cfg: Config, c: Claim, now: int, log: seq<Event>, out: Outcome,
                       ghost r: Option<Response>)
    requires Working(db, cfg, c) && db.fenced == cfg.fenced && c.run == cfg.run && log == db.events[c.run]
    requires HoldsLease(db.tasks[c.task], c, now)
    requires StepWith(cfg, c, log, r) == Some(out) && ObservedIn(cfg.env, log, AsEvent(c, |log|, out))
    modifies db`runs, db`tasks, db`events
    ensures db.Knows(c) && db.events[c.run] == log + [AsEvent(c, |log|, out)]
    ensures out.final ==> Finished(db, c)
    ensures !out.final ==> Working(db, cfg, c) && db.tasks[c.task] == old(db.tasks[c.task]) && |log| + 1 < Longest(cfg)
    ensures OnlyOwnRows(old(db.runs), old(db.tasks), old(db.events), db, c)
  {
    ghost var rows := db.RowsOf(c);
    OneMore(cfg, c, rows, now, r);
    var reply := db.CommitStep(c, now, |log|, out);
    assert db.RowsOf(c) == CommitRows(cfg.fenced, rows, c, now, |log|, out);
  }

  /** One round of execute_task under a lease that holds at `now`. */
  method Round(db: Database, workflow: AgentWorkflow, provider: Provider, c: Claim, now: int)
    returns (out: Option<Outcome>)
    requires var cfg := workflow.cfg;
             && Working(db, cfg, c) && db.fenced == cfg.fenced && c.run == cfg.run
             && HoldsLease(db.tasks[c.task], c, now)
             && (cfg.spec.Coding? ==> workflow.InStep(db.events[c.run]))
    modifies db, workflow`workspace
    ensures var log := old(db.events[c.run]);
            out == if workflow.cfg.spec.Toy? || old(workflow.HasWorkspace(db.events[c.run]))
                   then StepWith(workflow.cfg, c, log,
                                 AnswerNow(workflow.cfg, old(db.cache), old(|db.calls|), provider, log))
                   else None
    ensures out.None? ==> Working(db, workflow.cfg, c) && db.events == old(db.events) && db.tasks == old(db.tasks)
    ensures out.Some? ==>
              && db.Knows(c)
              && db.events[c.run] == old(db.events[c.run]) + [AsEvent(c, |old(db.events[c.run])|, out.value)]
    ensures out.Some? && out.value.final ==> FinishedRight(db, workflow.cfg, c)
    ensures OnlyOwnRows(old(db.runs), old(db.tasks), old(db.events), db, c)
    ensures out.Some? && !out.value.final ==>
              && Working(db, workflow.cfg, c) && db.tasks[c.task] == old(db.tasks[c.task])
              && |db.events[c.run]| < Longest(workflow.cfg)
              && (workflow.cfg.spec.Coding? ==> workflow.InStep(db.events[c.run]) && workflow.workspace.Some?)
    ensures Remembers(workflow.cfg, old(db.cache), old(|db.calls|), db.cache, provider, old(db.events[c.run]))
  {
    var cfg := workflow.cfg;
    var log := db.ReadEvents(c.run);
    ghost var r := AnswerNow(cfg, db.cache, |db.calls|, provider, log);
    out := Compute(db, workflow, provider, c, log);
    if out.None? { return; }
    StepEndsRight(cfg, c, log, r);
    if out.value.final { EndSays(cfg, c, |log|, out.value); }
    CommitOutcome(db, cfg, c, now, log, out.value, r);
  }

  // No tool call of these answers raises, and the provider always replies.
  ghost predicate Reliable(cfg: Config, provider: Provider, cache: map<CacheKey, Response>) {
    && (forall k, m :: provider(k, m).Some?)
    && (forall k, m, files :: provider(k, m).Some? ==> Execute(cfg.env, files, provider(k, m).value.action).Performed?)
    && (forall key, files :: key in cache ==> Execute(cfg.env, files, cache[key].action).Performed?)
  }

  // The provider says what the oracle says, and so does the cache for the steps from n on.
  ghost predicate Speaks(cfg: Config, oracle: seq<Message> -> Response, provider: Provider,
                         cache: map<CacheKey, Response>, n: nat) {
    && (forall k, m :: provider(k, m) == Some(oracle(m)))
    && forall key :: key in cache && key.step >= n ==> cache[key] == oracle(key.messages)
  }

  // The log is the lone worker's, writers aside.
  ghost predicate IsLone(cfg: Config, oracle: seq<Message> -> Response, c: Claim, log: seq<Event>) {
    EraseAll(log) == EraseAll(Alone(cfg, oracle, c, |log|))
  }

  ghost predicate StartsLone(cfg: Config, oracle: seq<Message> -> Response, c: Claim, provider: Provider,
                             cache: map<CacheKey, Response>, log: seq<Event>) {
    IsLone(cfg, oracle, c, log) && Speaks(cfg, oracle, provider, cache, |log|)
  }

  lemma StaysLone(cfg: Config, oracle: seq<Message> -> Response, c: Claim, provider: Provider,
                  cache: map<CacheKey, Response>, k: nat, cache': map<CacheKey, Response>,
                  log: seq<Event>, out: Outcome)
    requires StartsLone(cfg, oracle, c, provider, cache, log) && !Ended(log) && c.run == cfg.run
    requires StepWith(cfg, c, log, AnswerNow(cfg, cache, k, provider, log)) == Some(out)
    requires Remembers(cfg, cache, k, cache', provider, log)
    ensures StartsLone(cfg, oracle, c, provider, cache', log + [AsEvent(c, |log|, out)])
  {
    if cfg.spec.Coding? {
      assert AnswerNow(cfg, cache, k, provider, log) == Some(oracle(Messages(cfg.spec.prompt, log)));
    }
    assert NextOutcome(cfg, oracle, c, log) == Some(out);
    Continues(cfg, oracle, c, c, log, out);
  }

  lemma StaysReliable(cfg: Config, provider: Provider, cache: map<CacheKey, Response>, k: nat,
                      cache': map<CacheKey, Response>, log: seq<Event>)
    requires Reliable(cfg, provider, cache) && Remembers(cfg, cache, k, cache', provider, log)
    ensures Reliable(cfg, provider, cache')
    ensures forall c :: StepWith(cfg, c, log, AnswerNow(cfg, cache, k, provider, log)).Some?
  {
  }

  // What was true of provider, cache and log at the start and is to stay true.
  ghost predicate StillHolds(cfg: Config, oracle: seq<Message> -> Response, c: Claim, provider: Provider,
                             cache: map<CacheKey, Response>, log: seq<Event>, reliable: bool, lone: bool) {
    (reliable ==> Reliable(cfg, provider, cache)) && (lone ==> StartsLone(cfg, oracle, c, provider, cache, log))
  }

  lemma HoldsOn(cfg: Config, oracle: seq<Message> -> Response, c: Claim, provider: Provider,
                cache: map<CacheKey, Response>, k: nat, cache': map<CacheKey, Response>, log: seq<Event>,
                reliable: bool, lone: bool)
    requires StillHolds(cfg, oracle, c, provider, cache, log, reliable, lone) && !Ended(log) && c.run == cfg.run
    requires Remembers(cfg, cache, k, cache', provider, log)
    ensures var out := StepWith(cfg, c, log, AnswerNow(cfg, cache, k, provider, log));
            && (reliable ==> out.Some?)
            && (out.Some? ==>
                  StillHolds(cfg, oracle, c, provider, cache', log + [AsEvent(c, |log|, out.value)], reliable, lone))
  {
    var out := StepWith(cfg, c, log, AnswerNow(cfg, cache, k, provider, log));
    if reliable { StaysReliable(cfg, provider, cache, k, cache', log); }
    if lone && out.Some? { StaysLone(cfg, oracle, c, provider, cache, k, cache', log, out.value); }
  }

  /** execute_task for a worker whose lease covers every reading of the clock, with any provider,
      any costs and any cached answers. It terminates; a toy run always ends, and so does a coding
      run unless a step raises; then task and run are closed. If provider and cache speak for the
      oracle and the log was the lone worker's, it is the lone worker's log that is completed. */
  method ExecuteTask(db: Database, cfg: Config, provider: Provider, c: Claim, clock: nat -> int,
                     ghost oracle: seq<Message> -> Response)
    returns (finished: bool)
    requires Working(db, cfg, c) && db.fenced == cfg.fenced && c.run == cfg.run
    requires forall k: nat :: HoldsLease(db.tasks[c.task], c, clock(k))
    modifies db
    ensures db.Knows(c) && old(db.events[c.run]) <= db.events[c.run]
    ensures finished ==> FinishedRight(db, cfg, c)
    ensures OnlyOwnRows(old(db.runs), old(db.tasks), old(db.events), db, c)
    ensures !finished ==> Working(db, cfg, c) && db.tasks[c.task] == old(db.tasks[c.task])
    ensures cfg.spec.Toy? ==> finished
    ensures Reliable(cfg, provider, old(db.cache)) && StringContents(old(db.events[c.run])) ==> finished
    ensures |db.events[c.run]| <= Longest(cfg) || |db.events[c.run]| <= |old(db.events[c.run])| + 1
    ensures StartsLone(cfg, oracle, c, provider, old(db.cache), old(db.events[c.run])) ==>
              IsLone(cfg, oracle, c, db.events[c.run])
  {
    var workflow := new AgentWorkflow(cfg);
    var k := 0;
    ghost var runs, tasks, events := db.runs, db.tasks, db.events;
    ghost var reliable := Reliable(cfg, provider, db.cache);
    ghost var lone := StartsLone(cfg, oracle, c, provider, db.cache, db.events[c.run]);
    while true
      invariant Working(db, cfg, c) && fresh(workflow) && workflow.cfg == cfg
      invariant OnlyOwnRows(runs, tasks, events, db, c)
      invariant db.tasks[c.task] == old(db.tasks[c.task]) && old(db.events[c.run]) <= db.events[c.run]
      invariant cfg.spec.Coding? ==> workflow.InStep(db.events[c.run])
      invariant |db.events[c.run]| < Longest(cfg) || db.events[c.run] == old(db.events[c.run])
      invariant cfg.spec.Coding? && StringContents(old(db.events[c.run])) ==> workflow.HasWorkspace(db.events[c.run])
      invariant StillHolds(cfg, oracle, c, provider, db.cache, db.events[c.run], reliable, lone)
      decreases Longest(cfg) - |db.events[c.run]|
    {
      ghost var log, cache, calls := db.events[c.run], db.cache, |db.calls|;
      var out := Round(db, workflow, provider, c, clock(k));
      k := k + 1;
      HoldsOn(cfg, oracle, c, provider, cache, calls, db.cache, log, reliable, lone);
      if out.None? { return false; }
      if out.value.final { return true; }
    }
  }
}
