/** The tables of the event store: rows, events, the idempotent append and the money column.
    Every run has exactly one task, so the rows that concern one run form one `Rows` value. */
module Store {
  import opened Options

  type RunId = nat
  type TaskId = nat
  type WorkerId = string

  /* ---------- values stored in event payloads ---------- */

  datatype Json = Null | Str(s: string) | Num(n: int) | Obj(fields: map<string, Json>)

  // What a provider asks for: {"tool": ..., "args": {...}} plus "_"-prefixed provider metadata.
  type Action = map<string, Json>

  datatype Observation =
    | Written                                  // {"ok": True}
    | Ran(exitCode: int, stdout: string, stderr: string, timedOut: bool, oomKilled: bool)
    | Summary(text: string)
    | Error(problem: Problem)                  // the only shape with an "error" key

  // The message under "error", up to its details.
  datatype Problem = BadArguments | NoToolCall | UnknownTool

  datatype Reason =
    | BudgetReached
    | MaxStepsReached(maxSteps: int)
    | LoopDetected
    | FatalError
    | WorkerError(attempts: nat)

  datatype Payload =
    | ToyPayload(i: nat, value: nat, worker: WorkerId, attempt: nat, cost: real)
    | AgentPayload(action: Action, observation: Observation, inTokens: int, outTokens: int, cost: real)
    | ReasonPayload(reason: Reason)

  // The cost a payload records, 0 if it records none.
  function CostOf(p: Payload): real {
    match p
    case ToyPayload(_, _, _, _, c) => c
    case AgentPayload(_, _, _, _, c) => c
    case ReasonPayload(_) => 0.0
  }

  /* ---------- rows ---------- */

  datatype RunStatus = Pending | Running | Succeeded | Failed | BudgetExceeded
  {
    predicate Terminal() { Succeeded? || Failed? || BudgetExceeded? }
  }

  // `spent` is NUMERIC(12,6): a whole number of micro-dollars.
  datatype RunRow = RunRow(status: RunStatus, budget: real, spent: int)

  datatype TaskStatus = Queued | Leased | Done

  datatype TaskRow = TaskRow(status: TaskStatus, owner: Option<WorkerId>, expires: Option<int>,
                             attempt: nat, available: int)

  // The text run:step; a run id holds no colon, so the text determines both parts.
  datatype StepKey = StepKey(run: RunId, step: nat)

  datatype Meta = Meta(worker: WorkerId, attempt: nat, final: bool)

  // The event types toy_step, agent_step, finish, budget_exceeded and failed.
  datatype Kind = ToyStep | AgentStep | Finish | OverBudget | Failure

  datatype Event = Event(seqNo: int, kind: Kind, payload: Payload, key: StepKey, meta: Meta)

  // The committed rows of one run; the events stand in the order of insertion.
  datatype Rows = Rows(run: RunRow, task: TaskRow, log: seq<Event>)

  /* ---------- append ---------- */

  function MaxSeq(log: seq<Event>): (m: int)
    ensures forall i :: 0 <= i < |log| ==> log[i].seqNo <= m
    ensures m == 0 || exists i :: 0 <= i < |log| && log[i].seqNo == m
  {
    if log == [] then 0
    else
      var m := MaxSeq(log[..|log| - 1]);
      var last := log[|log| - 1].seqNo;
      if last > m then last else m
  }

  predicate HasKey(log: seq<Event>, key: StepKey) {
    exists i :: 0 <= i < |log| && log[i].key == key
  }

  // The state the append leaves: unchanged when the key is present, else one more event.
  function Append(log: seq<Event>, key: StepKey, kind: Kind, payload: Payload, meta: Meta): seq<Event> {
    if HasKey(log, key) then log
    else log + [Event(MaxSeq(log) + 1, kind, payload, key, meta)]
  }

  // seq is 1..n and the keys are run:0 .. run:n-1.
  predicate Gapless(run: RunId, log: seq<Event>) {
    forall i :: 0 <= i < |log| ==> log[i].seqNo == i + 1 && log[i].key == StepKey(run, i)
  }

  /** In a gapless log the key of step n is present exactly when n < |log|, so an append at
      any n up to the end either changes nothing or adds the event numbered |log| + 1. */
  lemma GaplessAppend(run: RunId, log: seq<Event>, n: nat, kind: Kind, payload: Payload, meta: Meta)
    requires Gapless(run, log) && n <= |log|
    ensures HasKey(log, StepKey(run, n)) <==> n < |log|
    ensures MaxSeq(log) == |log|
    ensures var log' := Append(log, StepKey(run, n), kind, payload, meta);
            Gapless(run, log') && log' == if n < |log| then log
                                          else log + [Event(|log| + 1, kind, payload, StepKey(run, n), meta)]
  {
    if n < |log| { assert log[n].key == StepKey(run, n); }
    if log != [] { assert log[|log| - 1].seqNo == |log|; }
  }

  /** Appending twice under one key is appending once: the second call is a no-op. */
  lemma AppendIdempotent(log: seq<Event>, key: StepKey, kind: Kind, p: Payload, m: Meta,
                         kind': Kind, p': Payload, m': Meta)
    ensures Append(Append(log, key, kind, p, m), key, kind', p', m') == Append(log, key, kind, p, m)
  {
    var once := Append(log, key, kind, p, m);
    if !HasKey(log, key) { assert once[|log|].key == key; }
  }
}
