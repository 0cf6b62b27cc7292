/** What the log and the rows of a reachable run say, field by field: which step ends a run and
    with which status, and what each event records. */
module Records {
  import opened Options
  import opened Store
  import opened Money
  import opened Agent
  import opened Engine
  import opened Protocol
  import opened Durability
  import opened Fencing

  // The action calls the tool.
  predicate Calls(action: Action, tool: string) {
    "tool" in action && action["tool"] == Str(tool)
  }

  /* ---------- events ---------- */

  lemma EventIsJustified(cfg: Config, s: Sys, i: nat)
    requires Reachable(cfg, s) && i < |s.rows.log|
    ensures Justified(cfg, s.rows.log[..i], s.rows.log[i])
  {
    ReachableIsBase(cfg, s);
  }

  /** A toy event holds its index, the square of it, its writer and the step cost; the step with
      index steps - 1 is the final one. */
  lemma ToyEventSays(cfg: Config, s: Sys, i: nat)
    requires Reachable(cfg, s) && i < |s.rows.log| && s.rows.log[i].payload.ToyPayload?
    ensures var e := s.rows.log[i];
            && cfg.spec.Toy? && e.kind == ToyStep
            && e.payload == ToyPayload(i, i * i, e.meta.worker, e.meta.attempt, cfg.spec.cost)
            && (e.meta.final <==> i == cfg.spec.steps - 1)
  {
    EventIsJustified(cfg, s, i);
  }

  // The cost of the answer, or of its copy in the cache.
  predicate CostAnswered(cost: real, asked: real) {
    cost == asked || (WholeMicros(cost) && -0.5 <= cost * 1000000.0 - asked * 1000000.0 <= 0.5)
  }

  // The event records the answer.
  predicate AnswerRecorded(p: Payload, r: Response) {
    && p.AgentPayload? && p.action == r.action && p.inTokens == r.inTokens && p.outTokens == r.outTokens
    && CostAnswered(p.cost, r.cost)
  }

  /** An agent's event holds an answer that the provider gave to the history before it; it is the
      final one, and is of kind finish, exactly if the answer calls the tool `finish`. */
  lemma AgentEventSays(cfg: Config, s: Sys, i: nat) returns (r: Response)
    requires Reachable(cfg, s) && i < |s.rows.log| && s.rows.log[i].payload.AgentPayload?
    ensures cfg.spec.Coding? && cfg.env.answers(Messages(cfg.spec.prompt, s.rows.log[..i]), r)
    ensures var e := s.rows.log[i];
            && AnswerRecorded(e.payload, r)
            && (e.meta.final <==> Calls(r.action, "finish"))
            && e.kind == if Calls(r.action, "finish") then Finish else AgentStep
  {
    EventIsJustified(cfg, s, i);
    var messages, p := Messages(cfg.spec.prompt, s.rows.log[..i]), s.rows.log[i].payload;
    r := AnswerIn(p);
    if !cfg.env.answers(messages, r) {
      var given :| cfg.env.answers(messages, given) && AnswerIn(p) == Stored(given);
      r := given;
    }
  }

  /** A reason is the payload of a final event, of kind budget_exceeded for the cost cap and
      failed otherwise. */
  lemma ReasonEventSays(cfg: Config, s: Sys, i: nat)
    requires Reachable(cfg, s) && i < |s.rows.log| && s.rows.log[i].payload.ReasonPayload?
    ensures var e := s.rows.log[i];
            e.meta.final && e.kind == if e.payload.reason == BudgetReached then OverBudget else Failure
  {
    EventIsJustified(cfg, s, i);
  }

  /* ---------- what a step observed ---------- */

  function ClippedAt2000(text: string): string {
    if |text| <= 2000 then text else text[..2000] + "...[truncated]"
  }

  // The path in the arguments of the action, as safe_join resolves it.
  function PathIn(env: Env, action: Action): Option<Path> {
    if "args" in action && action["args"].Obj? && "path" in action["args"].fields
       && action["args"].fields["path"].Str?
    then env.resolve(action["args"].fields["path"].s)
    else None
  }

  // The arguments hold the key.
  predicate Passes(action: Action, key: string) {
    "args" in action && action["args"].Obj? && key in action["args"].fields
  }

  // The observation is the sandbox's result, clipped.
  predicate IsResult(seen: Observation, r: SandboxResult) {
    && seen.Ran? && seen.exitCode == r.exitCode && seen.timedOut == r.timedOut && seen.oomKilled == r.oomKilled
    && seen.stdout == ClippedAt2000(r.stdout) && seen.stderr == ClippedAt2000(r.stderr)
  }

  function SummaryIn(env: Env, action: Action): string {
    if !Passes(action, "summary") then ""
    else var given := action["args"].fields["summary"]; if given.Str? then given.s else env.render(given)
  }

  // What the action observes on the files, tool by tool.
  predicate Observes(env: Env, files: Files, action: Action, seen: Observation) {
    if Calls(action, "write_file") then
      seen == if PathIn(env, action).Some? && Passes(action, "content") then Written else Error(BadArguments)
    else if Calls(action, "run_code") then
      if PathIn(env, action).Some? then IsResult(seen, env.sandbox(files, PathIn(env, action).value))
      else seen == Error(BadArguments)
    else if Calls(action, "finish") then seen == Summary(SummaryIn(env, action))
    else seen == Error(if Calls(action, "invalid") then NoToolCall else UnknownTool)
  }

  lemma ExecuteObserves(env: Env, files: Files, action: Action)
    ensures var x := Execute(env, files, action); x.Performed? ==> Observes(env, files, action, x.observation)
    ensures Execute(env, files, action).Raised? <==>
              Calls(action, "finish") && "args" in action && !action["args"].Obj?
  {
  }

  /** Each event of a fenced log records what its action observes on the files that the events
      before it describe. */
  lemma ObservationSays(cfg: Config, s: Sys, i: nat)
    requires cfg.fenced && Reachable(cfg, s) && i < |s.rows.log| && s.rows.log[i].payload.AgentPayload?
    ensures var p := s.rows.log[i].payload;
            Observes(cfg.env, Live(cfg.env, s.rows.log[..i]), p.action, p.observation)
  {
    ReachableIsFenced(cfg, s);
    assert ObservedIn(cfg.env, s.rows.log[..i], s.rows.log[i]);
    ExecuteObserves(cfg.env, Live(cfg.env, s.rows.log[..i]), s.rows.log[i].payload.action);
  }

  /* ---------- the status of a run ---------- */

  // The event is the last step of a workflow that came to its end.
  predicate Completes(cfg: Config, e: Event) {
    match e.payload
    case ToyPayload(i, _, _, _, _) => cfg.spec.Toy? && i == cfg.spec.steps - 1
    case AgentPayload(action, _, _, _, _) => Calls(action, "finish")
    case ReasonPayload(_) => false
  }

  /** The status of a fenced run is what its last event says: succeeded if the workflow came to its
      end, budget_exceeded if the cost cap closed it, failed if anything else did. */
  lemma StatusSays(cfg: Config, s: Sys)
    requires cfg.fenced && Reachable(cfg, s)
    ensures var log, status := s.rows.log, s.rows.run.status;
            && (status.Succeeded? <==> log != [] && Completes(cfg, log[|log| - 1]))
            && (status.BudgetExceeded? <==> log != [] && log[|log| - 1].payload == ReasonPayload(BudgetReached))
            && (status.Failed? <==> log != [] && log[|log| - 1].payload.ReasonPayload?
                                    && log[|log| - 1].payload != ReasonPayload(BudgetReached))
            && (status.Pending? <==> s.rows.task.attempt == 0)
  {
    ReachableIsFenced(cfg, s);
    var log := s.rows.log;
    if log != [] {
      var i := |log| - 1;
      match log[i].payload {
        case ToyPayload(_, _, _, _, _) => ToyEventSays(cfg, s, i);
        case AgentPayload(_, _, _, _, _) => var r := AgentEventSays(cfg, s, i);
        case ReasonPayload(_) => ReasonEventSays(cfg, s, i);
      }
    }
  }
}
