/** The durable step-commit protocol as a labelled transition system over the rows of one run,
    the answer cache, the provider calls, the per-attempt workspaces, and any number of worker
    processes. One label is one statement, one transaction or one local computation; a paused
    worker simply takes no step, and a zombie is a process whose claim the task row no longer
    carries. A label that is not enabled leaves the system as it is. */
module Protocol {
  import opened Store
  import opened Budget
  import opened Agent
  import opened Leases
  import opened Engine

  type Proc = nat

  datatype CacheKey = CacheKey(provider: string, run: RunId, step: nat, messages: seq<Message>)

  datatype Call = Call(step: nat, key: CacheKey, attempt: nat, worker: WorkerId)

  // Where a process is inside run_worker; a process that is not in the map holds no claim.
  datatype Local =
    | Loop(claim: Claim, mounted: bool)                       // top of execute_task's loop
    | Have(claim: Claim, mounted: bool, log: seq<Event>)      // read_events returned
    | Missed(claim: Claim, log: seq<Event>)                   // the cache had no answer
    | Called(claim: Claim, log: seq<Event>)                   // the call is on record
    | Returned(claim: Claim, log: seq<Event>, answer: Response)
    | Answered(claim: Claim, log: seq<Event>, answer: Response)
    | Ready(claim: Claim, n: nat, out: Outcome, closing: bool) // about to commit step n
    | Releasing(claim: Claim)                                 // _handle_error, retry
    | Counting(claim: Claim, fatal: bool)                     // _handle_error, give up

  // `reaps` and `releases` only count; nothing reads them.
  datatype Sys = Sys(rows: Rows, cache: map<CacheKey, Response>, calls: seq<Call>,
                     dirs: map<nat, Files>, procs: map<Proc, Local>, reaps: nat, releases: nat)

  datatype Label =
    | ClaimTask(p: Proc, worker: WorkerId, now: int, lease: int)
    | Heartbeat(p: Proc, now: int, lease: int)
    | Reap(now: int)
    | ReadLog(p: Proc)
    | Mount(p: Proc)
    | NextStep(p: Proc)
    | RecordCall(p: Proc)
    | ProviderAnswers(p: Proc, answer: Response)
    | StoreAnswer(p: Proc)
    | ExecuteTool(p: Proc)
    | Commit(p: Proc, now: int)
    | Raise(p: Proc, fatal: bool)
    | ReleaseTask(p: Proc, now: int, backoff: int)
    | CountEvents(p: Proc)
    | Crash(p: Proc)

  function Init(cfg: Config, now: int): Sys {
    Sys(FreshRows(cfg.budget, now), map[], [], map[], map[], 0, 0)
  }

  function KeyFor(cfg: Config, log: seq<Event>): CacheKey
    requires cfg.spec.Coding?
  {
    CacheKey(cfg.provider, cfg.run, |log|, Messages(cfg.spec.prompt, log))
  }

  function At(s: Sys, p: Proc, l: Local): Sys { s.(procs := s.procs[p := l]) }

  function Drop(s: Sys, p: Proc): Sys { s.(procs := s.procs - {p}) }

  // The body of execute_task is still running, so losing the heartbeat cancels it.
  predicate InMain(l: Local) {
    !l.Releasing? && !l.Counting? && !(l.Ready? && l.closing)
  }

  ghost function Step(cfg: Config, s: Sys, l: Label): Sys {
    match l
    case ClaimTask(p, worker, now, lease) => StepClaim(cfg, s, p, worker, now, lease)
    case Reap(now) =>
      if Reapable(s.rows.task, now)
      then s.(rows := s.rows.(task := Requeue(s.rows.task)), reaps := s.reaps + 1)
      else s
    case Crash(p) => Drop(s, p)
    case _ => if l.p in s.procs then StepProc(cfg, s, l, s.procs[l.p]) else s
  }

  function StepClaim(cfg: Config, s: Sys, p: Proc, worker: WorkerId, now: int, lease: int): Sys {
    var t := s.rows.task;
    if p in s.procs || !Claimable(t, now) then s
    else
      At(s.(rows := s.rows.(task := Grant(t, worker, now, lease), run := Started(s.rows.run))),
         p, Loop(Claim(cfg.task, cfg.run, worker, t.attempt + 1), false))
  }

  ghost function StepProc(cfg: Config, s: Sys, l: Label, at: Local): Sys
    requires !l.ClaimTask? && !l.Reap? && !l.Crash?
  {
    match l
    case Heartbeat(p, now, lease) => StepHeartbeat(cfg, s, p, at, now, lease)
    case ReadLog(p) => if at.Loop? then At(s, p, Have(at.claim, at.mounted, s.rows.log)) else s
    case Mount(p) => StepMount(cfg, s, p, at)
    case NextStep(p) => if at.Have? then StepNext(cfg, s, p, at.claim, at.mounted, at.log) else s
    case RecordCall(p) => StepRecord(cfg, s, p, at)
    case ProviderAnswers(p, answer) =>
      if at.Called? && cfg.spec.Coding? && cfg.env.answers(Messages(cfg.spec.prompt, at.log), answer)
      then At(s, p, Returned(at.claim, at.log, answer))
      else s
    case StoreAnswer(p) => StepStore(cfg, s, p, at)
    case ExecuteTool(p) => StepTool(cfg, s, p, at)
    case Commit(p, now) => if at.Ready? then StepCommit(cfg, s, p, at.claim, at.n, at.out, now) else s
    case Raise(p, fatal) =>
      if !InMain(at) then s
      else if at.claim.attempt < cfg.maxAttempts && !fatal then At(s, p, Releasing(at.claim))
      else At(s, p, Counting(at.claim, fatal))
    case ReleaseTask(p, now, backoff) => StepRelease(s, p, at, now, backoff)
    case CountEvents(p) =>
      if at.Counting?
      then At(s, p, Ready(at.claim, |s.rows.log|, FailedOutcome(at.fatal, at.claim.attempt), true))
      else s
  }

  // materialize_workspace, on the first step of an attempt.
  function StepMount(cfg: Config, s: Sys, p: Proc, at: Local): Sys {
    if !at.Have? || at.mounted || cfg.spec.Toy? then s
    else
      var files := Replay(cfg.env, at.log);
      if files.Some?
      then At(s.(dirs := s.dirs[at.claim.attempt := files.value]), p, Have(at.claim, true, at.log))
      else s
  }

  function StepRecord(cfg: Config, s: Sys, p: Proc, at: Local): Sys {
    if !at.Missed? || cfg.spec.Toy? then s
    else
      var call := Call(|at.log|, KeyFor(cfg, at.log), at.claim.attempt, at.claim.worker);
      At(s.(calls := s.calls + [call]), p, Called(at.claim, at.log))
  }

  // The answer is cached unless one is there.
  function StepStore(cfg: Config, s: Sys, p: Proc, at: Local): Sys {
    if !at.Returned? || cfg.spec.Toy? then s
    else
      var key := KeyFor(cfg, at.log);
      var cache := if key in s.cache then s.cache else s.cache[key := Stored(at.answer)];
      At(s.(cache := cache), p, Answered(at.claim, at.log, at.answer))
  }

  function StepTool(cfg: Config, s: Sys, p: Proc, at: Local): Sys {
    if !at.Answered? || at.claim.attempt !in s.dirs then s
    else
      var x := Execute(cfg.env, s.dirs[at.claim.attempt], at.answer.action);
      if x.Performed?
      then At(s.(dirs := s.dirs[at.claim.attempt := x.files]), p,
              Ready(at.claim, |at.log|, AgentOutcome(at.answer, x.observation), false))
      else s
  }

  function StepRelease(s: Sys, p: Proc, at: Local, now: int, backoff: int): Sys {
    if !at.Releasing? then s
    else if Carries(s.rows.task, at.claim)
    then Drop(s.(rows := s.rows.(task := Release(s.rows.task, now, backoff)), releases := s.releases + 1), p)
    else Drop(s, p)
  }

  function StepHeartbeat(cfg: Config, s: Sys, p: Proc, at: Local, now: int, lease: int): Sys {
    if HoldsLease(s.rows.task, at.claim, now)
    then s.(rows := s.rows.(task := Renew(s.rows.task, now, lease)))
    else if cfg.fenced && InMain(at) then Drop(s, p) else s
  }

  function StepNext(cfg: Config, s: Sys, p: Proc, c: Claim, mounted: bool, log: seq<Event>): Sys {
    match cfg.spec
    case Toy(steps, cost) => At(s, p, Ready(c, |log|, ToyOutcome(steps, cost, c, |log|), false))
    case Coding(prompt, maxSteps) =>
      if !mounted then s
      else
        var stop := CheckLimits(log, cfg.budget, maxSteps);
        var key := KeyFor(cfg, log);
        if stop.Some? then At(s, p, Ready(c, |log|, StopOutcome(stop.value), false))
        else if key in s.cache then At(s, p, Answered(c, log, s.cache[key]))
        else At(s, p, Missed(c, log))
  }

  // A lost lease ends the claim, and so does a final outcome whatever the commit replied.
  function StepCommit(cfg: Config, s: Sys, p: Proc, c: Claim, n: nat, out: Outcome, now: int): Sys {
    var s' := s.(rows := CommitRows(cfg.fenced, s.rows, c, now, n, out));
    if CommitReply(cfg.fenced, s.rows, c, now, n).LeaseLost? || out.final then Drop(s', p)
    else At(s', p, Loop(c, cfg.spec.Coding?))
  }

  /* ---------- what a step can change ---------- */

  predicate Actor(l: Label, p: Proc) {
    !l.Reap? && l.p == p
  }

  // The steps of a process that also work on the rows.
  predicate OnRows(l: Label) {
    l.Heartbeat? || l.Commit? || l.ReleaseTask?
  }

  // At most the position of p changed, or p left.
  predicate OnlyMoves(procs: map<Proc, Local>, procs': map<Proc, Local>, p: Proc, c: Claim) {
    || procs' == procs || procs' == procs - {p}
    || (p in procs' && procs' == procs[p := procs'[p]] && procs'[p].claim == c)
  }

  lemma RowStepMoves(cfg: Config, s: Sys, l: Label, at: Local)
    requires OnRows(l)
    ensures OnlyMoves(s.procs, StepProc(cfg, s, l, at).procs, l.p, at.claim)
  {
    match l {
      case Heartbeat(_, _, _) =>
      case Commit(_, _) =>
      case ReleaseTask(_, _, _) =>
    }
  }

  lemma AgentStepMoves(cfg: Config, s: Sys, l: Label, at: Local)
    requires l.Mount? || l.RecordCall? || l.StoreAnswer? || l.ExecuteTool?
    ensures OnlyMoves(s.procs, StepProc(cfg, s, l, at).procs, l.p, at.claim)
  {
    match l {
      case Mount(_) =>
      case RecordCall(_) =>
      case StoreAnswer(_) =>
      case ExecuteTool(_) =>
    }
  }

  lemma ProcMoves(cfg: Config, s: Sys, l: Label, at: Local)
    requires !l.ClaimTask? && !l.Reap? && !l.Crash?
    ensures OnlyMoves(s.procs, StepProc(cfg, s, l, at).procs, l.p, at.claim)
  {
    if OnRows(l) {
      RowStepMoves(cfg, s, l, at);
    } else if l.Mount? || l.RecordCall? || l.StoreAnswer? || l.ExecuteTool? {
      AgentStepMoves(cfg, s, l, at);
    } else {
      match l {
        case NextStep(_) =>
        case Raise(_, _) =>
        case _ =>
      }
    }
  }

  lemma StepRows(cfg: Config, s: Sys, l: Label)
    ensures var s' := Step(cfg, s, l);
            || s'.rows == s.rows
            || (l.ClaimTask? && l.p !in s.procs && Claimable(s.rows.task, l.now)
                && s'.rows == Rows(Started(s.rows.run), Grant(s.rows.task, l.worker, l.now, l.lease), s.rows.log))
            || (l.Heartbeat? && l.p in s.procs && HoldsLease(s.rows.task, s.procs[l.p].claim, l.now)
                && s'.rows == s.rows.(task := Renew(s.rows.task, l.now, l.lease)))
            || (l.Reap? && Reapable(s.rows.task, l.now) && s'.rows == s.rows.(task := Requeue(s.rows.task)))
            || (l.ReleaseTask? && l.p in s.procs && s.procs[l.p].Releasing? && Carries(s.rows.task, s.procs[l.p].claim)
                && s'.rows == s.rows.(task := Release(s.rows.task, l.now, l.backoff)))
            || (l.Commit? && l.p in s.procs && s.procs[l.p].Ready?
                && s'.rows == CommitRows(cfg.fenced, s.rows, s.procs[l.p].claim, l.now,
                                         s.procs[l.p].n, s.procs[l.p].out))
  {
  }

  lemma StepCalls(cfg: Config, s: Sys, l: Label)
    ensures var s' := Step(cfg, s, l);
            || s'.calls == s.calls
            || (l.RecordCall? && l.p in s.procs && s.procs[l.p].Missed? && cfg.spec.Coding?
                && s'.calls == s.calls + [Call(|s.procs[l.p].log|, KeyFor(cfg, s.procs[l.p].log),
                                               s.procs[l.p].claim.attempt, s.procs[l.p].claim.worker)])
  {
  }

  lemma StepCache(cfg: Config, s: Sys, l: Label)
    ensures var s' := Step(cfg, s, l);
            || s'.cache == s.cache
            || (l.StoreAnswer? && l.p in s.procs && s.procs[l.p].Returned? && cfg.spec.Coding?
                && var key := KeyFor(cfg, s.procs[l.p].log);
                   key !in s.cache && s'.cache == s.cache[key := Stored(s.procs[l.p].answer)])
  {
  }

  // At most the directory `own` changed.
  predicate OnlyWrites(dirs: map<nat, Files>, dirs': map<nat, Files>, own: nat) {
    dirs' == dirs || (own in dirs' && dirs' == dirs[own := dirs'[own]])
  }

  lemma ProcWrites(cfg: Config, s: Sys, l: Label, at: Local)
    requires !l.ClaimTask? && !l.Reap? && !l.Crash?
    ensures OnlyWrites(s.dirs, StepProc(cfg, s, l, at).dirs, at.claim.attempt)
  {
    match l {
      case Mount(_) =>
      case ExecuteTool(_) =>
      case _ =>
    }
  }

  // A step changes at most the directory of the process that takes it.
  lemma StepDirs(cfg: Config, s: Sys, l: Label)
    ensures var s' := Step(cfg, s, l);
            s'.dirs == s.dirs || (!l.Reap? && l.p in s.procs && OnlyWrites(s.dirs, s'.dirs, s.procs[l.p].claim.attempt))
  {
    if !l.ClaimTask? && !l.Reap? && !l.Crash? && l.p in s.procs { ProcWrites(cfg, s, l, s.procs[l.p]); }
  }

  lemma StepOthers(cfg: Config, s: Sys, l: Label, p: Proc)
    requires !Actor(l, p)
    ensures p in Step(cfg, s, l).procs <==> p in s.procs
    ensures p in s.procs ==> Step(cfg, s, l).procs[p] == s.procs[p]
  {
    if !l.ClaimTask? && !l.Reap? && !l.Crash? && l.p in s.procs { ProcMoves(cfg, s, l, s.procs[l.p]); }
  }

  lemma StepClaims(cfg: Config, s: Sys, l: Label, p: Proc)
    requires p in Step(cfg, s, l).procs
    ensures p !in s.procs ==> Actor(l, p) && l.ClaimTask?
    ensures var c := Step(cfg, s, l).procs[p].claim;
            c == if p in s.procs then s.procs[p].claim else Claim(cfg.task, cfg.run, l.worker, s.rows.task.attempt + 1)
  {
    if !l.ClaimTask? && !l.Reap? && !l.Crash? && l.p in s.procs { ProcMoves(cfg, s, l, s.procs[l.p]); }
  }

  /* ---------- runs ---------- */

  ghost function Exec(cfg: Config, s: Sys, ls: seq<Label>): Sys {
    if ls == [] then s else Step(cfg, Exec(cfg, s, ls[..|ls| - 1]), ls[|ls| - 1])
  }

  ghost predicate Reachable(cfg: Config, s: Sys) {
    exists now, ls :: s == Exec(cfg, Init(cfg, now), ls)
  }

  lemma ExecMore(cfg: Config, s: Sys, ls: seq<Label>, l: Label)
    ensures Exec(cfg, s, ls + [l]) == Step(cfg, Exec(cfg, s, ls), l)
  {
    assert (ls + [l])[..|ls|] == ls;
  }

  lemma Advance(cfg: Config, s: Sys, l: Label)
    requires Reachable(cfg, s)
    ensures Reachable(cfg, Step(cfg, s, l))
  {
    var now, ls :| s == Exec(cfg, Init(cfg, now), ls);
    ExecMore(cfg, Init(cfg, now), ls, l);
  }
}
