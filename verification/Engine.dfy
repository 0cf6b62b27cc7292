/** Step outcomes, the atomic step commit, and the rows of a fresh run. */
module Engine {
  import opened Options
  import opened Store
  import opened Money
  import opened Budget
  import opened Agent
  import opened Leases

  datatype Spec = Toy(steps: int, cost: real) | Coding(prompt: string, maxSteps: int)

  datatype Config = Config(fenced: bool, maxAttempts: int, run: RunId, task: TaskId, provider: string,
                           spec: Spec, budget: real, env: Env)

  datatype Outcome = Outcome(kind: Kind, payload: Payload, cost: real, final: bool, status: RunStatus)

  /* ---------- outcomes ---------- */

  function ToyOutcome(steps: int, cost: real, c: Claim, n: nat): Outcome {
    Outcome(ToyStep, ToyPayload(n, n * n, c.worker, c.attempt, cost), cost, n == steps - 1, Succeeded)
  }

  function StopOutcome(t: Termination): Outcome {
    Outcome(if t.status.BudgetExceeded? then OverBudget else Failure,
            ReasonPayload(t.reason), 0.0, true, t.status)
  }

  function AgentOutcome(r: Response, seen: Observation): Outcome {
    var finished := IsTool(r.action, "finish");
    Outcome(if finished then Finish else AgentStep,
            AgentPayload(r.action, seen, r.inTokens, r.outTokens, r.cost), r.cost, finished, Succeeded)
  }

  function FailedOutcome(fatal: bool, attempt: nat): Outcome {
    Outcome(Failure, ReasonPayload(if fatal then FatalError else WorkerError(attempt)), 0.0, true, Failed)
  }

  /* ---------- the commit transaction ---------- */

  datatype Reply = LeaseLost | AlreadyCommitted | Committed

  function MetaOf(c: Claim, out: Outcome): Meta {
    Meta(c.worker, c.attempt, out.final)
  }

  // assert_lease
  predicate PassesFence(fenced: bool, t: TaskRow, c: Claim, now: int) {
    fenced ==> HoldsLease(t, c, now)
  }

  function CommitReply(fenced: bool, rows: Rows, c: Claim, now: int, n: nat): Reply {
    if !PassesFence(fenced, rows.task, c, now) then LeaseLost
    else if HasKey(rows.log, StepKey(c.run, n)) then AlreadyCommitted
    else Committed
  }

  // The rows after a commit that wrote: one event, its cost, and the closing of a final step.
  function AfterCommit(rows: Rows, c: Claim, n: nat, out: Outcome): Rows {
    Rows(rows.run.(spent := AddSpend(rows.run.spent, out.cost),
                   status := if out.final then out.status else rows.run.status),
         rows.task.(status := if out.final then TaskStatus.Done else rows.task.status),
         Append(rows.log, StepKey(c.run, n), out.kind, out.payload, MetaOf(c, out)))
  }

  function CommitRows(fenced: bool, rows: Rows, c: Claim, now: int, n: nat, out: Outcome): Rows {
    if CommitReply(fenced, rows, c, now, n).Committed? then AfterCommit(rows, c, n, out) else rows
  }

  /** A commit in the fields of the rows: it is rejected exactly if the fence is on and the task row
      is not leased to the claim's worker under its token until after now; it writes nothing if the
      step's key is there; and else one event, the cost to half a micro-dollar, and, on a final
      step, the end of task and run. */
  lemma CommitInFields(fenced: bool, rows: Rows, c: Claim, now: int, n: nat, out: Outcome)
    ensures var t, reply := rows.task, CommitReply(fenced, rows, c, now, n);
            var rows' := CommitRows(fenced, rows, c, now, n, out);
            var held := t.status == Leased && t.owner == Some(c.worker) && t.attempt == c.attempt
                        && t.expires.Some? && now < t.expires.value;
            var present := exists i :: 0 <= i < |rows.log| && rows.log[i].key == StepKey(c.run, n);
            && (reply == LeaseLost <==> fenced && !held)
            && (reply == AlreadyCommitted <==> (fenced ==> held) && present)
            && (reply != Committed ==> rows' == rows)
            && (reply == Committed ==>
                  && (exists e :: rows'.log == rows.log + [e] && e.key == StepKey(c.run, n) && e.kind == out.kind
                                  && e.payload == out.payload && e.meta == Meta(c.worker, c.attempt, out.final))
                  && -0.5 <= rows'.run.spent as real - rows.run.spent as real - out.cost * 1000000.0 <= 0.5
                  && rows'.run.budget == rows.run.budget
                  && rows'.run.status == (if out.final then out.status else rows.run.status)
                  && rows'.task == TaskRow(if out.final then Done else t.status, t.owner, t.expires, t.attempt,
                                           t.available))
  {
    var rows' := CommitRows(fenced, rows, c, now, n, out);
    if CommitReply(fenced, rows, c, now, n) == Committed {
      assert rows'.log == rows.log + [rows'.log[|rows.log|]];
    }
  }

  // claim_task's effect on the run row.
  function Started(run: RunRow): RunRow {
    if run.status.Pending? then run.(status := Running) else run
  }

  function FreshRows(budget: real, now: int): Rows {
    Rows(RunRow(Pending, budget, 0), TaskRow(Queued, None, None, 0, now), [])
  }
}
