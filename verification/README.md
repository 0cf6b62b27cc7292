# Phoenix: a verified model of durable agent runs

Phoenix runs agent tasks on a pool of workers that may crash, pause and wake up late. Its state is
a handful of PostgreSQL tables: `runs`, `tasks`, `events`, `llm_cache` and `provider_calls`. A
worker claims a task under a lease, reads the event log, computes the next step from it and commits
the step in one transaction that checks the lease and the fencing token (`tasks.attempt`), appends
the event under the key `run:step`, adds the cost to the run and closes run and task on the final
step. This project models that protocol, the agent layer on top of it, the checkers that the chaos
suite applies to the tables, and four of the reference solutions of the evaluation suite, and
proves what they are for.

`dafny verify dfyconfig.toml` checks everything.

## How the modules fit together

| module | contents |
|---|---|
| `Options` | the one type that all modules share |
| `Store`, `Money`, `Budget`, `Agent`, `Leases`, `Engine` | rows, idempotent append, rounding of the spend column, limits, tools and workspace replay, the lease state machine, the atomic commit |
| `Protocol` | the labelled transition system of one run: one label is one statement, one transaction or one local computation of one process; a paused worker takes no step, a zombie is a process whose claim the row no longer carries, a crash drops the process |
| `Durability`, `Fencing` | the two inductive invariants, without and with the fence |
| `Records` | what every logged event and the status of a run say, field by field |
| `Guarantees`, `Sequential`, `LeaseClock`, `Recovery`, `Poison` | the promises over whole runs: safety, crash transparency, leases by the clock, and how a run ends |
| `LoneRuns`, `FirstWriter`, `Divergence`, `Spending`, `Unreplayable`, `Shortfalls`, `Unfenced` | runs that reach what is promised not to happen, and the exact conditions under which none does |
| `Transactions` | commit and claim split into their SQL statements with row locks, refined to `Protocol` |
| `Fleet` | many runs in shared tables, with one answer cache and one pool of processes, projected to `Protocol` run by run |
| `FleetTransactions` | the statements of open transactions on many runs, interleaved, refined to courses of `Fleet` |
| `Tables`, `Worker` | the tables updated in place and the worker's loops, proved against the functions above |
| `Implementation` | each method of `Tables` is one statement of `Fleet` |
| `Checkers` | the chaos checkers as loops, proved exact, and shown to accept every reachable state |
| `Audit` | the checkers on the shared tables of a whole course |
| `TopologicalOrder`, `Evaluation`, `CoinChange`, `LfuCache` | the four reference solutions |

The chain is: statements of concurrent transactions on many runs (`FleetTransactions`, and for one
run `Transactions`) commit courses of atomic statements on shared tables (`Fleet`), which perform
for each run steps of the protocol (`Protocol`); every reachable state satisfies the invariants
(`Durability`, `Fencing`); the guarantees follow. The in-place methods of `Tables` have the
protocol's row functions as their contracts, and `Implementation` shows that tables which hold the
rows of a course, as empty ones do, hold those of a longer course after each of them.

## Assumptions

- Every run has one task, because `submit_run` creates both together; all workers use the same
  provider name and `max_attempts`; the run's budget is the value the column stores.
- `cache_key` is injective: the key is modelled as the record that is hashed.
- Row locks are held until the transaction ends, a statement sees the latest committed rows, and
  `now()` is the time at which the transaction began. Every clock reading is an arbitrary argument;
  only `LeaseClock` and `Recovery` ask that readings do not run back.
- The sandbox leaves the workspace's files alone and is an uninterpreted function of them. The
  provider is an arbitrary relation from message histories to answers.
- Toy runs have at least one step where a statement says so.
- A payload stores its cost as text. Costs are compared as numbers: a cached cost comes back with six
  decimals, so two logs that agree here can differ in trailing zeros.
- `reaps` and `releases` in the state only count; nothing reads them.

## Where the code falls short of its documentation

- `materialize_workspace` writes `content` as it is, `_execute` writes `str(content)`. A step whose
  content is not a string succeeds and can never be replayed (`Agent.NumberContentNotRebuilt` is the
  shortest such log). `Agent.RebuildExact` says exactly when a rebuild succeeds, and
  `Unreplayable.UnreplayableExactly` exactly when a run can get stuck so: iff at some open state
  within the limits, at whatever step, the provider may answer with such a write.
  `Unreplayable.UnreplayableAlong` says it of the lone worker's steps.
  `Unreplayable.UnreplayableRunOnlyCloses` says what follows: no later attempt computes a step; all
  it can add is the event that gives the run up.
- `spent_usd` has six decimals, so for a step cost finer than a micro-dollar `spend_consistency`
  reports a violation on a run in which nothing went wrong. `Spending.SpendCheckerExact` is the exact
  condition for every workflow, `Spending.ToySpendExact` and `Spending.AgentSpendExact` say it in
  terms of the step cost and of the provider's answers; `Guarantees.SpendIsNearlyExact` bounds the
  drift.
- A cached answer comes back with its cost rounded to six decimals, so a crash can show in the log.
  `Divergence.SequentialExactly` says exactly when crash runs equal the run of a lone worker. The
  costs that count are those of the steps at which two workers can come to use one answer: step 0
  always, and the later ones iff a second worker can rebuild what step 0 wrote. Toy runs never ask,
  so `Sequential.CrashRunsAreSequential` covers them at any cost.
- `no_double_billing` speaks of a repeat by a later attempt. A zombie may record its call late, and
  then attempts fall along the record: exactly in the runs that ask the provider at all, which is
  decided by the limits on the empty log (`Shortfalls.CallsRecordedLate`). What holds is: by another
  attempt (`Guarantees.NoDoubleBilling`), and only by one that had looked the answer up before it
  was cached (`Guarantees.OnlyTheWindowRepeats`).
- The `attempt` of a task is not bounded by `max_attempts`: reaping is unbounded, for every workflow
  and with or without the fence (`Shortfalls.AttemptsAreUnbounded`). `Guarantees.BoundedRetry` says what is bounded.

Without the fence a stale worker can write behind the final event. `Unfenced.SafeExactlyIfFenced`
says that this is so for every configuration; `Unfenced.ZombieReplay` is the run of the chaos
scenario, for toy runs.

## Model

| member | source | states |
|---|---|---|
| Store.GaplessAppend | src/phoenix/store.py:105-131 | in a gapless log the key of step n is present iff n < length, and an append at any n up to the end keeps seq 1..n and keys run:0..n-1 |
| Store.AppendIdempotent | src/phoenix/store.py:117-121 | a second append under the same key changes nothing, whatever it carries |
| Money.CachedCost | src/phoenix/llm/cache.py:52-59 | a cost that went through the cache column is a whole number of micro-dollars within half of one, and unchanged if it was one |
| Money.RoundHalf | src/phoenix/engine.py:140-142 | half a micro-dollar is rounded away from zero |
| Money.SpendDrift | src/phoenix/engine.py:140-142 | after n events the six-decimal column is within n half micro-dollars of the exact sum |
| Money.SpendExact | migrations/002_spend_precision.sql:1-3 | with whole micro-dollar costs the column is the exact sum |
| Money.TokenCostWhole | src/phoenix/llm/base.py:29-35 | whole-dollar prices per million tokens give whole micro-dollar costs |
| Money.TokenCostOfEach | src/phoenix/llm/base.py:29-35 | a million input tokens cost the input price, a million output tokens the output price, and the two add up |
| Budget.LimitsBoundTheLog | src/phoenix/budget.py:40-51 | checking before each call bounds the log by max(max_steps, 0) + 1 events, keeps the total before every charged call below budget, and excludes four consecutive actions with one fingerprint |
| Budget.FingerprintExact | src/phoenix/budget.py:27-30 | two actions have one fingerprint iff they agree in all keys that do not begin with an underscore |
| Budget.LoopExact | src/phoenix/budget.py:33-37 | a loop is detected iff there are three actions and the last three agree in all those keys |
| Agent.RebuildExact | src/phoenix/agent.py:45-55 | replaying a log rebuilds the files the workers saw iff every successful write carried a string |
| Agent.FilesAreLastWrites | src/phoenix/agent.py:134-141 | the workspace holds exactly the paths that were written, each with the text of the last successful write to it |
| Agent.MessagesAreHistory | src/phoenix/agent.py:58-64 | the history is the prompt and, for each charged event in order, its action and what was observed; 1 + 2n messages in all |
| Unreplayable.UnreplayableIsReachable | src/phoenix/agent.py:45-55 | from any open state within the limits at which the provider may answer with a write whose content is no string, there is an open state whose log replay cannot get through |
| Unreplayable.UnreplayableWasAnswered | src/phoenix/agent.py:134-140 | and such a log holds a write that the provider gave at an open state within the limits |
| Unreplayable.UnreplayableExactly | src/phoenix/agent.py:45-55 | so with the fence a run can get stuck that way iff the provider may give such an answer at some open state within the limits |
| Unreplayable.UnreplayableAlong | src/phoenix/agent.py:45-55 | for a provider that answers deterministically and in whole micro-dollars: iff some step of the lone worker is such a write |
| Unreplayable.UnreplayableRunOnlyCloses | src/phoenix/engine.py:171-196 | once the log of a fenced run cannot be replayed, every event that a later attempt writes, in any continuation, is the final one of giving up |
| Shortfalls.NobodyAsks | src/phoenix/budget.py:40-51 | a run whose limits stop the empty log never calls the provider |
| Shortfalls.CallsRecordedLate | src/phoenix/llm/cache.py:44-53 | fenced or not: a later row of one step can have the smaller attempt iff the workflow is an agent whose limits leave the empty log to the provider |
| Shortfalls.AttemptsAreUnbounded | src/phoenix/leases.py:75-82 | for every k, fenced or not, an open run is reachable whose attempt is k |
| Durability.CommitShape | src/phoenix/engine.py:122-150 | a commit finds its step already there only for an earlier step, and otherwise appends the event of exactly the next one |
| Engine.CommitInFields | src/phoenix/engine.py:122-150 | rejected iff the fence is on and the task row is not leased to the worker under the token until after now; nothing written iff the step key is there; else one event, the cost to half a micro-dollar, and on a final step the end of task and run |
| Durability.StepKeepsBase | src/phoenix/engine.py:153-196 | every statement, local computation or crash keeps: gapless log, each event computed from exactly its prefix, spend counted once, cached answers genuine, stale snapshots are prefixes, tokens distinct, calls in step |
| Fencing.StepKeepsFenced | src/phoenix/leases.py:38-113 | with the fence every step keeps: writer tokens rise, nothing after the final event, status columns in step with the log, retries counted, the holder works on the whole log in the workspace the log describes |
| Guarantees.IdempotencyAlone | src/phoenix/store.py:112-131 | fence on or off, in every reachable state seq is 1..n, keys are run:0..n-1, spend adds each event once and event i was decided on events 0..i |
| Guarantees.HistoryIsImmutable | src/phoenix/llm/cache.py:31-60 | over any continuation the log and the call record only grow, cached answers never change, tokens never fall |
| Guarantees.NoDoubleBilling | src/phoenix/llm/cache.py:31-60 | over all runs one attempt asks at most once per step, and every call for a step was made under the key of the committed prefix |
| Guarantees.OnlyTheWindowRepeats | src/phoenix/llm/cache.py:3-8 | once an answer is cached, only attempts that had already missed it can still ask, in every continuation |
| Guarantees.SpendIsNearlyExact | src/phoenix/engine.py:138-142 | in every reachable state the column is within n half micro-dollars of the exact sum, and exact for whole micro-dollar costs |
| Guarantees.RecordedReasonsHold | src/phoenix/agent.py:97-105 | a run is closed only for a reason that is true of the events before: cap reached, steps used up, loop, attempts exhausted; and such an event is final. A fatal error says nothing about the log |
| Guarantees.FencingSafety | src/phoenix/leases.py:99-113 | in every reachable fenced state tokens along the log never fall, nothing follows the final event, and task done, run terminal and last event final are equivalent |
| Guarantees.FinishedIsForever | src/phoenix/engine.py:142-150 | no row of a finished run ever changes, in any continuation |
| Guarantees.TokensIssuedOnce | src/phoenix/leases.py:48-54 | two claims never get the same token |
| Guarantees.BoundedRetry | src/phoenix/engine.py:171-178 | attempt = reaps + releases + (0 if queued, else 1); at most max_attempts - 1 errors are retried; attempt <= reaps + max_attempts |
| Guarantees.CommitWritesOrIsRejected | src/phoenix/engine.py:122-150 | from worker code a fenced commit is rejected iff the lease is not held and otherwise writes its step; the already-committed reply cannot occur; a final step finishes task and run |
| Guarantees.LimitsSurvive | src/phoenix/agent.py:97-105 | in every reachable state, across takeovers, each charged event was decided within the limits, with the bounds on length, total and repetition that follow |
| Records.ToyEventSays | src/phoenix/engine.py:56-69 | event i of a toy run holds i, i squared, its writer and the step cost, and is final iff i is steps - 1 |
| Records.AgentEventSays | src/phoenix/agent.py:118-132 | an agent's event holds an answer the provider gave to the history before it, its cost possibly rounded by the cache; it is final, and of kind finish, iff the answer calls the tool finish |
| Records.ReasonEventSays | src/phoenix/agent.py:97-104 | an event with a reason is final, of kind budget_exceeded for the cost cap and failed for any other |
| Records.ObservationSays | src/phoenix/agent.py:134-162 | tool by tool: each event of a fenced log records what its action does on the files of the prefix, with exit code, clipped output and flags of the sandbox in their places |
| Records.StatusSays | src/phoenix/engine.py:142-150 | a fenced run is succeeded iff its last event is a finish call or the last toy step, budget_exceeded iff the cost cap closed it, failed iff another reason did |
| Guarantees.WorkspaceIsTheLog | src/phoenix/agent.py:88-96 | before a step the holder's files are those of the logged writes, whichever attempts made them, and what a takeover would rebuild if it can rebuild |
| Guarantees.OthersWriteElsewhere | src/phoenix/agent.py:88-91 | no step of another process touches a process's directory |
| Guarantees.DistinctTokens | src/phoenix/leases.py:34 | two live processes never work under one token |
| Sequential.ComputedIsNext | src/phoenix/agent.py:93-132 | a logged event whose observation fits the workspace is the event the lone worker computes from the same prefix |
| Sequential.CrashRunsAreSequential | src/phoenix/engine.py:153-164 | for a toy run, or an agent run whose provider answers deterministically in whole micro-dollars, the log of every reachable fenced state, writers erased, is a prefix of the one log of a worker that never crashes, up to one closing give-up event |
| LoneRuns.LoneRun | src/phoenix/engine.py:153-164 | a process that holds the task can write any log the lone worker writes, on its own, from any prefix of it |
| Sequential.SequentialIfUnrounded | src/phoenix/llm/cache.py:37-60 | with a deterministic provider a reachable fenced log can differ from the lone worker's only through a rounded cost in it |
| FirstWriter.StepKeepsSolo | src/phoenix/agent.py:88-91 | every step keeps: once a first event is logged that cannot be rebuilt, processes of other attempts work on step 0 at most, have no workspace or give up, and its writer finds no answer cached for its next step |
| FirstWriter.LaterAnswersAreFresh | src/phoenix/llm/cache.py:37-60 | if the first step wrote what cannot be rebuilt, every later answer in a reachable log is one the provider gave, never its rounded copy |
| Divergence.Diverges | src/phoenix/llm/cache.py:37-60 | if the answer to step n does not fit the cache column, and n is 0 or the write of step 0 can be rebuilt, some reachable log is not the lone worker's: an overtaken worker caches the answer and the holder is charged the rounded cost |
| Divergence.SequentialExactly | src/phoenix/engine.py:153-164 | for a provider that answers deterministically: every reachable fenced log is the lone worker's, up to a closing give-up event, iff the answers to step 0, and if its write can be rebuilt to all later steps, cost whole micro-dollars |
| Unfenced.SafeExactlyIfFenced | src/phoenix/chaos/scenarios.py:215-250 | for every workflow, provider and limit: tokens rise along every reachable log iff the fence is on, and nothing follows a final event in any of them iff the fence is on |
| LeaseClock.LossIsPermanent | src/phoenix/leases.py:61-72 | once the row is not leased to a claim until after some time, by status, owner, token and expiry, that stays so in every continuation whose clock does not run back, and commits are rejected |
| LeaseClock.WorkerLearnsOfLoss | src/phoenix/engine.py:199-207 | a failed heartbeat or rejected commit changes no row, ends the claim and is final |
| LeaseClock.ExpiredLeaseFails | src/phoenix/leases.py:99-113 | an expired lease backs nothing, reaped or not: a fenced commit changes no row and ends the claim, a heartbeat changes no row |
| LeaseClock.EventsAreInTime | src/phoenix/leases.py:99-113 | every event of a fenced run was committed by a clock before the expiry that then stood in the row, by the worker and under the token that stood there |
| LeaseClock.ClaimsWhenDue | src/phoenix/leases.py:38-58 | a claim is granted iff the process is idle and the row queued and due, and then writes exactly the owner, the expiry and the next token |
| LeaseClock.BackoffIsKept | src/phoenix/leases.py:85-96 | after a release at t with backoff b, no claim by a clock below t + b changes anything |
| LeaseClock.ExceptionsAreHandled | src/phoenix/engine.py:171-178 | an exception is retried iff it is not fatal and attempts are left, and leads to giving up otherwise; none is handled in the handling of another |
| LeaseClock.RenewedLeaseSurvives | src/phoenix/engine.py:199-207 | heartbeats less than a lease apart, by a clock that does not run back, keep the claim through everything that reapers and other workers do: until a lease after the last one the holder passes the fence, unless it lets the task go itself |
| LeaseClock.HeartbeatBuysTheLease | src/phoenix/leases.py:61-72 | after a successful heartbeat the holder passes the fence at every time before now + lease, whatever the others do |
| Recovery.TakeOver | src/phoenix/leases.py:38-58 | a run that has not ended can be taken over by any idle process, at any later time |
| Recovery.NoRunIsStranded | src/phoenix/engine.py:218-254 | from every reachable fenced state the steps of any one idle process and the reaper lead to the end of the run, if provider answers are usable and the workspace can be rebuilt |
| Poison.PoisonRunEndsFailed | src/phoenix/engine.py:171-196 | from every reachable fenced state of an open run, an idle worker whose attempts all raise and the reaper bring it to its end: the log as it was and one event that reports the attempts, run failed, task done |
| Transactions.ActRefines | src/phoenix/engine.py:128-150 | each statement of an interleaving changes the committed rows by exactly one atomic step or not at all |
| Transactions.ActKeepsIsolation | src/phoenix/leases.py:99-113 | what an open transaction has read and written privately stays consistent with the rows it locked |
| Transactions.InterleavingsRefineAtomic | src/phoenix/store.py:96-99 | the committed state of every reachable interleaving of statements is a reachable state of the atomic protocol |
| Transactions.AtomicRunsInterleave | src/phoenix/engine.py:128-150 | and every run of the atomic protocol is the committed state of an interleaving in which all transactions are closed: the statements lose none of its behaviours |
| Transactions.ClaimsNeverWait | src/phoenix/leases.py:48-57 | fenced or not, in every isolated state a claim never waits for the run row: a commit that holds it found the run started |
| Transactions.WaitingIsAcyclic | src/phoenix/leases.py:99-102 | fenced or not, the locks ahead fall along every chain of waiting |
| Transactions.SomebodyRuns | src/phoenix/store.py:112-116 | while transactions are open, one of them can execute its next statement: no deadlock |
| FleetTransactions.CommitsStatement | src/phoenix/engine.py:128-150 | what a statement on one of many runs commits is an enabled statement of the fleet |
| FleetTransactions.ActKeepsSound | src/phoenix/leases.py:38-58 | every action keeps: each run isolated, no process at work or in a transaction elsewhere while it claims, the committed world a course |
| FleetTransactions.InterleavingsRefineCourses | src/phoenix/store.py:96-99 | the committed world of every interleaving of statements on any number of runs is a course of the fleet, so each run in it is a reachable state of the protocol |
| FleetTransactions.SomebodyRuns | src/phoenix/store.py:112-116 | while transactions are open on one of many runs, one of them can execute its next statement |
| Fleet.StepOnSlice | src/phoenix/llm/base.py:38-42 | a step that looks up and inserts in the answer cache of all runs does what it does on the entries of its own run |
| Fleet.OtherEntriesStay | src/phoenix/llm/base.py:38-42 | and leaves the answers of every other run alone |
| Fleet.StatementProjects | src/phoenix/leases.py:75-82 | one statement on the shared tables, a submit at any time among them, is for each run one step of its own protocol or nothing |
| Fleet.RunsAreIndependent | src/phoenix/llm/base.py:38-42 | every run of a shared database, whenever it was submitted, seen alone, is a reachable state of the protocol |
| Tables.Database.SubmitRun | src/phoenix/engine.py:112-119 | creates the run and its queued task together and changes nothing else |
| Tables.Database.FirstAvailable | src/phoenix/leases.py:42-47 | the claimable unlocked task that became available first, or none iff there is none |
| Tables.Database.ClaimTask | src/phoenix/leases.py:38-58 | grants that task under the next token and starts a pending run; all other rows stay |
| Tables.Database.Heartbeat | src/phoenix/leases.py:61-72 | extends the lease iff the claim still holds it |
| Tables.Database.ReapExpired | src/phoenix/leases.py:75-82 | requeues exactly the unlocked leased tasks whose lease expired, and counts them |
| Tables.Database.ReleaseTask | src/phoenix/leases.py:85-96 | gives the task back with a backoff iff the row still carries the claim |
| Tables.Database.AssertLease | src/phoenix/leases.py:99-113 | passes iff the fence is off or the claim holds an unexpired lease |
| Tables.Database.AppendEvent | src/phoenix/store.py:105-131 | fails iff the run is missing, reports the existing seq iff the key is present, and else appends under the next seq |
| Tables.Database.ReadEvents | src/phoenix/store.py:134-143 | all events of the run, each as often as it is stored, sorted by seq; the log itself if that is gapless |
| Tables.Database.CommitStep | src/phoenix/engine.py:122-150 | the reply and the new rows are those of the atomic commit; any other reply than committed changes nothing |
| Tables.Database.CompleteCached | src/phoenix/llm/cache.py:31-60 | a hit returns the stored answer and changes nothing; a miss records one call, raises iff the provider does, and otherwise returns the fresh answer, which is stored unless a rival's came first |
| Implementation.Starts | src/phoenix/engine.py:112-119 | empty tables hold the empty course |
| Implementation.Submits | src/phoenix/engine.py:112-119 | tables that hold the rows of a course hold those of a longer one after submit_run, which is the statement Submit |
| Implementation.Claims | src/phoenix/leases.py:38-58 | and after claim_task, which is a ClaimTask of the granted run or nothing |
| Implementation.Beats | src/phoenix/leases.py:61-72 | and after heartbeat, which answers whether the lease is held |
| Implementation.Releases | src/phoenix/leases.py:85-96 | and after release_task, which answers whether the row carries the claim |
| Implementation.Commits | src/phoenix/engine.py:122-150 | and after commit_step, which replies as the atomic commit does |
| Implementation.Reads | src/phoenix/store.py:134-143 | and after read_events, which gives the process the log of the run, in order |
| Implementation.Reaps | src/phoenix/leases.py:75-82 | and after reap_expired, which is one pass of the reaper over all runs whose task is not locked |
| Implementation.Asks | src/phoenix/llm/cache.py:31-60 | and after complete_cached, which is the lookup on a hit, the lookup and the record of the call on a miss without reply, and with a reply its arrival and insertion as well |
| Worker.Materialize | src/phoenix/agent.py:45-55 | the loop rebuilds the replayed files or raises iff the replay does |
| Worker.BuildMessages | src/phoenix/agent.py:58-64 | the loop builds the history: the prompt, and each charged event's action and observation, by index |
| Worker.AgentWorkflow.NextStep | src/phoenix/agent.py:93-132 | for any log, provider reply and rival: yields the step of the log with the answer that cache and provider give, final iff it calls finish or a limit stops it, leaves the directory as the log with that step describes, and raises iff that step does or the workspace is missing and cannot be rebuilt |
| Worker.HolderIsUnderWay | src/phoenix/engine.py:153-164 | every reachable holder is in a state from which execute_task may start; if costs are whole micro-dollars its log is also the lone worker's |
| Sequential.AloneEnds | src/phoenix/engine.py:56-69 | a lone worker's log is at most steps, or max_steps + 1, events long and has ended when it is that long |
| Worker.OneMore | src/phoenix/engine.py:158-164 | committing a computed step under a held lease appends it; a final one closes task and run with its status, any other leaves a log that may go on and is still short enough |
| Worker.Round | src/phoenix/engine.py:158-164 | one round under a held lease appends the event of the computed step, whatever it costs and wherever its answer came from, and on a final step finishes task and run; if the step raises nothing is committed |
| Worker.ExecuteTask | src/phoenix/engine.py:153-164 | terminates with any provider, cache and costs; unless a step raises the run ends with task done, succeeded iff the last event is a finish call or the last toy step and budget_exceeded iff the cost cap closed it; no step raises if the workspace can be rebuilt and the provider and cache give usable answers; with a provider and cache that say what an oracle says, and a log that is the lone worker's, it completes that log |
| Checkers.ScanWriters | src/phoenix/chaos/invariants.py:65-78 | the loop with its early breaks reports exactly the first event that follows a final one or falls behind an earlier attempt, the former if both, and nothing iff there is none |
| Checkers.CheckLog | src/phoenix/chaos/invariants.py:58-78 | for one run reports exactly: a gap in seqs, a gap in keys, and that first event, each iff it is there; so nothing iff the log is intact |
| Checkers.LogIntegrity | src/phoenix/chaos/invariants.py:43-81 | passes iff the log of every run is intact |
| Checkers.NoDoubleBilling | src/phoenix/chaos/invariants.py:84-111 | passes iff no (run, step, attempt) repeats; lists exactly the steps asked more than once by different attempts |
| Checkers.SpendConsistency | src/phoenix/chaos/invariants.py:114-133 | passes iff every run's column is the exact sum of its event costs |
| Checkers.ReachableStatesPass | src/phoenix/chaos/invariants.py:43-111 | every reachable state satisfies what the billing checker checks, every fenced one what the log checker checks, and with whole micro-dollar costs what the spend checker checks |
| Audit.NobodyBilledTwice | src/phoenix/chaos/invariants.py:84-111 | in the shared table of calls of any course, in whatever order it is read, no (run, step, attempt) repeats |
| Audit.CheckCourse | src/phoenix/chaos/invariants.py:43-133 | on the tables of any course of fenced runs the log and billing checkers pass, and the spend checker if all costs are whole micro-dollars |
| Spending.PrefixIsReachable | src/phoenix/store.py:105-131 | every prefix of a reachable log is the log of a reachable state, and for fenced agent runs of one in which no answer to a later step is cached |
| Spending.SpendCheckerExact | src/phoenix/chaos/invariants.py:114-133 | for every workflow and provider, fenced or not: the spend checker accepts every reachable state iff all events of all reachable logs cost whole micro-dollars |
| Spending.ToySpendExact | src/phoenix/chaos/invariants.py:114-133 | for toy runs: iff the step cost is a whole number of micro-dollars |
| Spending.AgentSpendExact | src/phoenix/chaos/invariants.py:114-133 | for fenced agent runs with a provider that answers deterministically: iff every answer the lone worker is charged for costs a whole number of micro-dollars |
| TopologicalOrder.LexExact | src/phoenix/evals/challenge/C06_build_order/solution.py:13-22 | the order in which the least is meant: a prefix, or a smaller task at the first difference |
| TopologicalOrder.GreedyIsLeast | src/phoenix/evals/challenge/C06_build_order/solution.py:13-22 | placing the least ready task each time gives the lexicographically least valid order |
| TopologicalOrder.CycleForbidsOrder | src/phoenix/evals/challenge/C06_build_order/solution.py:23-24 | with a cycle no valid order exists |
| TopologicalOrder.StuckHasCycle | src/phoenix/evals/challenge/C06_build_order/solution.py:23-24 | a remainder in which every task waits for another contains a cycle |
| TopologicalOrder.OrderExact | src/phoenix/evals/challenge/C06_build_order/solution.py:4-22 | a valid order, in terms of the input: every name that occurs, once, behind all it lists |
| TopologicalOrder.BuildOrder | src/phoenix/evals/challenge/C06_build_order/solution.py:4-25 | returns the lexicographically least of the orders that hold every name once behind all it lists, and raises iff there is a cycle, so iff there is no such order |
| Evaluation.Evaluator.FactorAt | src/phoenix/evals/tasks/12_evaluate_expression/solution.py:34-42 | parse_factor with its moving position answers, and stops, as the recursive descent function does; the mutual recursion terminates |
| Evaluation.Evaluator.TermAt | src/phoenix/evals/tasks/12_evaluate_expression/solution.py:25-32 | the same for parse_term and its loop |
| Evaluation.Evaluator.ExprAt | src/phoenix/evals/tasks/12_evaluate_expression/solution.py:16-23 | the same for parse_expr and its loop |
| Evaluation.BuildsSpelled | src/phoenix/evals/tasks/12_evaluate_expression/solution.py:16-42 | anywhere in a token list, the parser of a level reads what the grammar spells there, redundant parentheses and odd closers included, exactly to its end, and builds that tree |
| Evaluation.AcceptsExactly | src/phoenix/evals/tasks/12_evaluate_expression/solution.py:16-44 | the parser reads a tree up to a position iff the tokens begin with a spelling of that tree, up to there, and no operator follows |
| Evaluation.Precedence | src/phoenix/evals/tasks/12_evaluate_expression/solution.py:16-32 | x o1 y o2 z spells x o1 (y o2 z) iff o1 is + or - and o2 is * or /, and (x o1 y) o2 z otherwise |
| Evaluation.MinusFirst | src/phoenix/evals/tasks/12_evaluate_expression/solution.py:34-37 | a minus sign applies to its operand before any operator |
| Evaluation.PrintSpells | src/phoenix/evals/tasks/12_evaluate_expression/solution.py:16-42 | a tree printed with only the needed parentheses is a spelling of it |
| Evaluation.PrintIsShortest | src/phoenix/evals/tasks/12_evaluate_expression/solution.py:16-42 | and no spelling of the tree, at that level, is shorter: every parenthesis is needed |
| Evaluation.RoundTrip | src/phoenix/evals/tasks/12_evaluate_expression/solution.py:16-44 | evaluating a tree printed with only the needed parentheses consumes all tokens and gives the tree's value |
| Evaluation.PrintIsUnambiguous | src/phoenix/evals/tasks/12_evaluate_expression/solution.py:16-42 | different trees print differently: no parenthesis that matters is left out |
| Evaluation.Evaluate | src/phoenix/evals/tasks/12_evaluate_expression/solution.py:4-44 | on any tokens, the value of the tree that their beginning spells, or an exception iff it spells none or that tree has no value; on three operands, by the precedence above |
| CoinChange.Unimprovable | src/phoenix/evals/tasks/13_min_coins/solution.py:4-7 | an attained entry that no single coin improves is optimal over all choices, given that the smaller ones are |
| CoinChange.MinCoins | src/phoenix/evals/tasks/13_min_coins/solution.py:1-8 | the least size of a choice of coins that sums to the amount, and -1 iff none does, so the sentinel is never an answer |
| LfuCache.VictimIsUnique | src/phoenix/evals/challenge/C10_lfu_cache/solution.py:23-24 | the least used, then least recently used, key is unique |
| LfuCache.UsesStep | src/phoenix/evals/challenge/C10_lfu_cache/solution.py:14-28 | a key's count is its uses since its last insertion |
| LfuCache.EvictionStep | src/phoenix/evals/challenge/C10_lfu_cache/solution.py:22-26 | a new key in a full cache replaces exactly the victim |
| LfuCache.LFUCache.constructor | src/phoenix/evals/challenge/C10_lfu_cache/solution.py:2-7 | the empty dictionaries agree with the empty history |
| LfuCache.UseAgrees | src/phoenix/evals/challenge/C10_lfu_cache/solution.py:9-12 | raising the count and setting the tick of a resident key keeps the dictionaries in step with the history |
| LfuCache.LFUCache.Get | src/phoenix/evals/challenge/C10_lfu_cache/solution.py:14-18 | answers what the history of calls says, -1 for a key that is not resident |
| LfuCache.LFUCache.Victim | src/phoenix/evals/challenge/C10_lfu_cache/solution.py:23 | the key with the least (frequency, last use) |
| LfuCache.GetAgrees | src/phoenix/evals/challenge/C10_lfu_cache/solution.py:14-18 | a get keeps the dictionaries in step with the history |
| LfuCache.PutAgrees | src/phoenix/evals/challenge/C10_lfu_cache/solution.py:20-28 | a put that first drops the least key of a full cache keeps the dictionaries in step with the history |
| LfuCache.LFUCache.Put | src/phoenix/evals/challenge/C10_lfu_cache/solution.py:20-28 | the three dictionaries hold exactly the keys the history says, never more than the capacity |

## Left out

- PostgreSQL, asyncpg, JSON encoding, UUIDs, migrations: tables are maps and sequences, ids are numbers, a payload is a datatype; `jsonb` key order and duplicate keys do not occur.
- The HTTP API, the CLI, timelines, report tables, `.env` loading and benchmarks: plumbing and formatting.
- The real providers, their retry delays and pacing: an answer, or an exception, is the environment's choice.
- The Docker sandbox and files that sandboxed code creates: a run is a function of the files that leaves them as they are, so nothing is claimed about rebuilding such files.
- File-system errors, directories as such, symbolic links and the pattern of `safe_join`: a path is resolved by a function that may refuse it, and other exceptions appear as the label Raise.
- The texts of error messages and of exceptions in give-up reasons.
- Chaos scheduling and its seeded plans; `termination`, `_cap` and `check_all` of the checkers, which are comprehensions and formatting.
- The 28-digit context of Decimal and overflow of NUMERIC columns: costs are real numbers.
- The loops of `run_worker`, `_heartbeat_loop` and `_reaper_loop`, which do not end, are not methods: their rounds are the labels of `Protocol`, in any order and number.
- Fairness and wall-clock recovery times: `Recovery.NoRunIsStranded` says that an end can always be reached, not that a scheduler reaches it.
- Worker.ExecuteTask: without interference, for a lease that covers every reading of the clock; interleavings with other workers are what `Protocol`, `Transactions` and `Fleet` cover.
- Implementation.Asks: for a complete_cached that nobody interrupts; a rival's insert in between is in the contract of `Tables.Database.CompleteCached`, and in `Protocol` the four statements interleave freely.
- FleetTransactions.InterleavingsRefineCourses: `submit_run`'s two inserts and a pass of the reaper are single statements; the reaper skips the rows that are locked when it runs.
- `build_order` on names: tasks are their ranks in alphabetical order, and the heap is the multiset of its elements with extract-min.
- The tokenizer of `evaluate` and floating point: tokens are given, numbers and their operations are abstract, and an operation may raise.
- `min_coins` with negative coins or a negative amount, where the table is indexed out of its intended range.
- LFU keys and values other than integers.
- The remaining reference solutions and the wrong-solution controls: they would add easy members only.
