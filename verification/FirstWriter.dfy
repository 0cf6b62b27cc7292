/** Logs whose first step wrote what cannot be rebuilt: no later attempt can mount a workspace, so
    the attempt that wrote the first event is the only one that ever asks for a later step, and
    every answer it uses is fresh. */
module FirstWriter {
  import opened Options
  import opened Store
  import opened Budget
  import opened Agent
  import opened Leases
  import opened Engine
  import opened Protocol
  import opened Durability
  import opened Fencing

  ghost predicate Sealed(cfg: Config, log: seq<Event>) {
    log != [] && Replay(cfg.env, log[..1]) == None
  }

  // The cache knows answers for the first k steps only.
  ghost predicate Below(cache: map<CacheKey, Response>, k: int) {
    forall key :: key in cache ==> key.step < k
  }

  // The payload is not an answer, or a fresh one.
  ghost predicate FreshAt(cfg: Config, pre: seq<Event>, p: Payload)
    requires cfg.spec.Coding?
  {
    p.AgentPayload? ==> cfg.env.answers(Messages(cfg.spec.prompt, pre), AnswerIn(p))
  }

  // A process that works on step 0, or has no workspace, or is giving up.
  predicate Outside(at: Local) {
    match at
    case Loop(_, mounted) => !mounted
    case Have(_, mounted, snap) => mounted ==> snap == []
    case Missed(_, snap) => snap == []
    case Called(_, snap) => snap == []
    case Returned(_, snap, _) => snap == []
    case Answered(_, snap, _) => snap == []
    case Ready(_, n, out, closing) => if closing then out.payload.ReasonPayload? else n == 0
    case Releasing(_) => true
    case Counting(_, _) => true
  }

  // The first writer at a later step: nobody has cached an answer for it.
  ghost predicate Inside(cfg: Config, log: seq<Event>, cache: map<CacheKey, Response>, at: Local)
    requires cfg.spec.Coding?
  {
    match at
    case Loop(_, mounted) => mounted && Below(cache, |log|)
    case Have(_, mounted, snap) => mounted && snap != [] && Below(cache, |snap|)
    case Missed(_, snap) => snap != [] && Below(cache, |snap|)
    case Called(_, snap) => snap != [] && Below(cache, |snap|)
    case Returned(_, snap, r) =>
      snap != [] && Below(cache, |snap|) && cfg.env.answers(Messages(cfg.spec.prompt, snap), r)
    case Answered(_, snap, r) =>
      snap != [] && Below(cache, |snap| + 1) && cfg.env.answers(Messages(cfg.spec.prompt, snap), r)
    case Ready(_, n, out, closing) =>
      if closing then out.payload.ReasonPayload?
      else 0 < n <= |log| && Below(cache, n + 1) && FreshAt(cfg, log[..n], out.payload)
    case Releasing(_) => true
    case Counting(_, _) => true
  }

  ghost predicate LocalSolo(cfg: Config, log: seq<Event>, cache: map<CacheKey, Response>, at: Local)
    requires cfg.spec.Coding?
  {
    && (log == [] ==> Outside(at))
    && (Sealed(cfg, log) ==>
          if at.claim.attempt == log[0].meta.attempt then Inside(cfg, log, cache, at) else Outside(at))
  }

  // Later events of a sealed log are fresh answers.
  ghost predicate LaterFresh(cfg: Config, log: seq<Event>)
    requires cfg.spec.Coding?
  {
    Sealed(cfg, log) ==> forall i :: 1 <= i < |log| ==> FreshAt(cfg, log[..i], log[i].payload)
  }

  ghost predicate ProcsSolo(cfg: Config, s: Sys)
    requires cfg.spec.Coding?
  {
    forall p :: p in s.procs ==> LocalSolo(cfg, s.rows.log, s.cache, s.procs[p])
  }

  ghost predicate Solo(cfg: Config, s: Sys)
    requires cfg.spec.Coding?
  {
    Below(s.cache, |s.rows.log| + 1) && LaterFresh(cfg, s.rows.log) && ProcsSolo(cfg, s)
  }

  /* ---------- preservation ---------- */

  lemma StaysSealed(cfg: Config, log: seq<Event>, log': seq<Event>)
    requires log != [] && log <= log'
    ensures Sealed(cfg, log') <==> Sealed(cfg, log)
    ensures log'[0] == log[0]
  {
    assert log'[..1] == log[..1];
  }

  lemma SealedCannotMount(cfg: Config, log: seq<Event>, snap: seq<Event>)
    requires Sealed(cfg, log) && snap <= log && snap != []
    ensures Replay(cfg.env, snap) == None
  {
    assert snap[..1] == log[..1];
    ReplayStops(cfg.env, snap, 1);
  }

  lemma SoloReads(cfg: Config, s: Sys, p: Proc)
    requires cfg.spec.Coding? && Solo(cfg, s) && p in s.procs && s.procs[p].Loop?
    ensures LocalSolo(cfg, s.rows.log, s.cache, Have(s.procs[p].claim, s.procs[p].mounted, s.rows.log))
  {
  }

  lemma SoloMounts(cfg: Config, s: Sys, p: Proc)
    requires cfg.spec.Coding? && Base(cfg, s) && Solo(cfg, s) && p in s.procs && s.procs[p].Have?
    requires Replay(cfg.env, s.procs[p].log).Some?
    ensures LocalSolo(cfg, s.rows.log, s.cache, Have(s.procs[p].claim, true, s.procs[p].log))
  {
    var at := s.procs[p];
    assert LocalOk(cfg, s.rows.log, s.rows.task.attempt, at);
    if Sealed(cfg, s.rows.log) && at.log != [] { SealedCannotMount(cfg, s.rows.log, at.log); }
  }

  lemma SoloStops(cfg: Config, s: Sys, p: Proc, t: Termination)
    requires cfg.spec.Coding? && Base(cfg, s) && Solo(cfg, s)
    requires p in s.procs && s.procs[p].Have? && s.procs[p].mounted
    ensures var at := s.procs[p];
            LocalSolo(cfg, s.rows.log, s.cache, Ready(at.claim, |at.log|, StopOutcome(t), false))
  {
    assert LocalSolo(cfg, s.rows.log, s.cache, s.procs[p]);
    assert LocalOk(cfg, s.rows.log, s.rows.task.attempt, s.procs[p]);
  }

  // The first writer never hits.
  lemma SoloLooksUp(cfg: Config, s: Sys, p: Proc)
    requires cfg.spec.Coding? && Solo(cfg, s) && p in s.procs && s.procs[p].Have? && s.procs[p].mounted
    ensures var at, key := s.procs[p], KeyFor(cfg, s.procs[p].log);
            LocalSolo(cfg, s.rows.log, s.cache,
                      if key in s.cache then Answered(at.claim, at.log, s.cache[key]) else Missed(at.claim, at.log))
  {
    assert LocalSolo(cfg, s.rows.log, s.cache, s.procs[p]);
  }

  lemma SoloDecides(cfg: Config, s: Sys, p: Proc)
    requires cfg.spec.Coding? && Base(cfg, s) && Solo(cfg, s) && p in s.procs && s.procs[p].Have?
    ensures var at := s.procs[p]; var s' := StepNext(cfg, s, p, at.claim, at.mounted, at.log);
            s' == s || (p in s'.procs && LocalSolo(cfg, s.rows.log, s.cache, s'.procs[p]))
  {
    var at := s.procs[p];
    if at.mounted {
      var stop := CheckLimits(at.log, cfg.budget, cfg.spec.maxSteps);
      if stop.Some? { SoloStops(cfg, s, p, stop.value); } else { SoloLooksUp(cfg, s, p); }
    }
  }

  lemma SoloExecutes(cfg: Config, s: Sys, p: Proc, seen: Observation)
    requires cfg.spec.Coding? && Base(cfg, s) && Solo(cfg, s) && p in s.procs && s.procs[p].Answered?
    ensures var at := s.procs[p];
            LocalSolo(cfg, s.rows.log, s.cache, Ready(at.claim, |at.log|, AgentOutcome(at.answer, seen), false))
  {
    var at := s.procs[p];
    assert LocalSolo(cfg, s.rows.log, s.cache, at);
    assert LocalOk(cfg, s.rows.log, s.rows.task.attempt, at);
    assert s.rows.log[..|at.log|] == at.log;
  }

  // What another process caches does not concern q: it is outside, or the answer is for step 0.
  lemma SoloSees(cfg: Config, s: Sys, p: Proc, q: Proc, cache: map<CacheKey, Response>)
    requires cfg.spec.Coding? && Base(cfg, s) && Solo(cfg, s) && p in s.procs && q in s.procs && q != p
    requires s.procs[p].Returned?
    requires forall key :: key in cache ==> key in s.cache || key == KeyFor(cfg, s.procs[p].log)
    ensures LocalSolo(cfg, s.rows.log, cache, s.procs[q])
  {
    assert s.procs[q].claim.attempt != s.procs[p].claim.attempt;
    assert LocalSolo(cfg, s.rows.log, s.cache, s.procs[q]) && LocalSolo(cfg, s.rows.log, s.cache, s.procs[p]);
  }

  lemma SoloStores(cfg: Config, s: Sys, p: Proc)
    requires cfg.spec.Coding? && Base(cfg, s) && Solo(cfg, s) && p in s.procs && s.procs[p].Returned?
    ensures Solo(cfg, StepStore(cfg, s, p, s.procs[p]))
  {
    var at, s', log := s.procs[p], StepStore(cfg, s, p, s.procs[p]), s.rows.log;
    assert LocalOk(cfg, log, s.rows.task.attempt, at) && LocalSolo(cfg, log, s.cache, at);
    assert |at.log| <= |log|;
    forall q | q in s.procs && q != p ensures LocalSolo(cfg, log, s'.cache, s.procs[q]) {
      SoloSees(cfg, s, p, q, s'.cache);
    }
    assert LocalSolo(cfg, log, s'.cache, s'.procs[p]);
  }

  // A move that keeps the snapshot, or turns to the error handler, and touches neither rows nor cache.
  lemma SoloThinks(cfg: Config, s: Sys, p: Proc, at': Local)
    requires cfg.spec.Coding? && Solo(cfg, s) && p in s.procs && at'.claim == s.procs[p].claim
    requires var at := s.procs[p];
             || (at.Missed? && at' == Called(at.claim, at.log))
             || (at.Called? && at'.Returned? && at'.log == at.log
                 && cfg.env.answers(Messages(cfg.spec.prompt, at.log), at'.answer))
             || at'.Releasing? || at'.Counting?
             || (at'.Ready? && at'.closing && at'.out.payload.ReasonPayload?)
    ensures LocalSolo(cfg, s.rows.log, s.cache, at')
  {
    assert LocalSolo(cfg, s.rows.log, s.cache, s.procs[p]);
  }

  lemma SoloKept(cfg: Config, s: Sys, s': Sys, p: Proc)
    requires cfg.spec.Coding? && Solo(cfg, s) && s'.rows.log == s.rows.log && s'.cache == s.cache
    requires p in s'.procs && LocalSolo(cfg, s.rows.log, s.cache, s'.procs[p])
    requires s'.procs == s.procs[p := s'.procs[p]]
    ensures Solo(cfg, s')
  {
  }

  // The first event: whoever wrote it is the first writer, all others are outside.
  lemma SoloBegins(cfg: Config, s: Sys, p: Proc, e: Event, rows: Rows)
    requires cfg.spec.Coding? && Base(cfg, s) && Solo(cfg, s) && s.rows.log == [] && p in s.procs
    requires rows.log == [e] && e.meta.attempt == s.procs[p].claim.attempt
    ensures Solo(cfg, Drop(s.(rows := rows), p))
    ensures Sealed(cfg, rows.log) ==> Inside(cfg, rows.log, s.cache, Loop(s.procs[p].claim, true))
  {
    forall q | q in s.procs && q != p ensures LocalSolo(cfg, rows.log, s.cache, s.procs[q]) {
      assert LocalSolo(cfg, s.rows.log, s.cache, s.procs[q]);
    }
  }

  lemma SoloGrows(cfg: Config, s: Sys, q: Proc, log: seq<Event>)
    requires cfg.spec.Coding? && Base(cfg, s) && Solo(cfg, s) && s.rows.log != [] && s.rows.log <= log && q in s.procs
    ensures LocalSolo(cfg, log, s.cache, s.procs[q])
  {
    StaysSealed(cfg, s.rows.log, log);
    assert LocalSolo(cfg, s.rows.log, s.cache, s.procs[q]);
    if s.procs[q].Ready? && s.procs[q].n <= |s.rows.log| { assert log[..s.procs[q].n] == s.rows.log[..s.procs[q].n]; }
  }

  // A later event: the first writer's, and fresh, or a closing one.
  lemma SoloContinues(cfg: Config, s: Sys, p: Proc, rows: Rows)
    requires cfg.spec.Coding? && Base(cfg, s) && Solo(cfg, s) && s.rows.log != []
    requires p in s.procs && s.procs[p].Ready? && s.procs[p].n == |s.rows.log|
    requires rows.log == s.rows.log + [AsEvent(s.procs[p].claim, |s.rows.log|, s.procs[p].out)]
    ensures Solo(cfg, Drop(s.(rows := rows), p))
    ensures !s.procs[p].closing ==> LocalSolo(cfg, rows.log, s.cache, Loop(s.procs[p].claim, true))
  {
    var log, at := s.rows.log, s.procs[p];
    StaysSealed(cfg, log, rows.log);
    forall q | q in s.procs ensures LocalSolo(cfg, rows.log, s.cache, s.procs[q]) { SoloGrows(cfg, s, q, rows.log); }
    assert LocalSolo(cfg, log, s.cache, at);
    if Sealed(cfg, log) {
      forall i | 1 <= i < |rows.log| ensures FreshAt(cfg, rows.log[..i], rows.log[i].payload) {
        assert rows.log[..i] == log[..i];
      }
    }
  }

  lemma SoloCommits(cfg: Config, s: Sys, p: Proc, now: int)
    requires cfg.fenced && cfg.spec.Coding? && Base(cfg, s) && Fenced(cfg, s) && Solo(cfg, s)
    requires p in s.procs && s.procs[p].Ready?
    ensures var at := s.procs[p]; Solo(cfg, StepCommit(cfg, s, p, at.claim, at.n, at.out, now))
  {
    var at := s.procs[p];
    var rows := CommitRows(true, s.rows, at.claim, now, at.n, at.out);
    CommitShape(cfg, s, p, now);
    if HoldsLease(s.rows.task, at.claim, now) {
      assert HolderOk(cfg, s.rows.log, s.dirs, at) && LocalOk(cfg, s.rows.log, s.rows.task.attempt, at);
      if s.rows.log == [] { SoloBegins(cfg, s, p, AsEvent(at.claim, 0, at.out), rows); }
      else { SoloContinues(cfg, s, p, rows); }
    }
  }

  // The steps of a process that touch neither the log nor the cache.
  predicate Quiet(l: Label) {
    || l.ReadLog? || l.Mount? || l.NextStep? || l.RecordCall? || l.ProviderAnswers? || l.ExecuteTool?
    || l.Raise? || l.CountEvents?
  }

  lemma QuietMove(cfg: Config, s: Sys, l: Label)
    requires Quiet(l) && l.p in s.procs
    ensures var s' := StepProc(cfg, s, l, s.procs[l.p]);
            && s'.rows == s.rows && s'.cache == s.cache
            && (s' == s || (l.p in s'.procs && s'.procs == s.procs[l.p := s'.procs[l.p]]))
  {
  }

  lemma QuietSolo(cfg: Config, s: Sys, l: Label)
    requires cfg.spec.Coding? && Base(cfg, s) && Solo(cfg, s) && Quiet(l) && l.p in s.procs
    ensures var s' := StepProc(cfg, s, l, s.procs[l.p]);
            s' == s || (l.p in s'.procs && LocalSolo(cfg, s.rows.log, s.cache, s'.procs[l.p]))
  {
    var p, at, s' := l.p, s.procs[l.p], StepProc(cfg, s, l, s.procs[l.p]);
    if s' == s { return; }
    match l {
      case ReadLog(_) => SoloReads(cfg, s, p);
      case Mount(_) => SoloMounts(cfg, s, p);
      case NextStep(_) => SoloDecides(cfg, s, p);
      case ExecuteTool(_) => SoloExecutes(cfg, s, p, s'.procs[p].out.payload.observation);
      case RecordCall(_) => SoloThinks(cfg, s, p, s'.procs[p]);
      case ProviderAnswers(_, _) => SoloThinks(cfg, s, p, s'.procs[p]);
      case Raise(_, _) => SoloThinks(cfg, s, p, s'.procs[p]);
      case CountEvents(_) => SoloThinks(cfg, s, p, s'.procs[p]);
    }
  }

  lemma SoloProcs(cfg: Config, s: Sys, l: Label)
    requires cfg.fenced && cfg.spec.Coding? && Base(cfg, s) && Fenced(cfg, s) && Solo(cfg, s)
    requires !l.ClaimTask? && !l.Reap? && !l.Crash? && l.p in s.procs
    ensures Solo(cfg, StepProc(cfg, s, l, s.procs[l.p]))
  {
    var p, at := l.p, s.procs[l.p];
    if Quiet(l) {
      QuietMove(cfg, s, l);
      QuietSolo(cfg, s, l);
      if StepProc(cfg, s, l, at) != s { SoloKept(cfg, s, StepProc(cfg, s, l, at), p); }
    } else {
      match l {
        case StoreAnswer(_) => if at.Returned? { SoloStores(cfg, s, p); }
        case Commit(_, now) => if at.Ready? { SoloCommits(cfg, s, p, now); }
        case Heartbeat(_, _, _) =>
        case ReleaseTask(_, _, _) =>
      }
    }
  }

  // A fresh token is not that of an event.
  lemma SoloClaims(cfg: Config, s: Sys, p: Proc, worker: WorkerId, now: int, lease: int)
    requires cfg.spec.Coding? && Fenced(cfg, s) && Solo(cfg, s)
    ensures Solo(cfg, StepClaim(cfg, s, p, worker, now, lease))
  {
  }

  lemma StepKeepsSolo(cfg: Config, s: Sys, l: Label)
    requires cfg.fenced && cfg.spec.Coding? && Base(cfg, s) && Fenced(cfg, s) && Solo(cfg, s)
    ensures Solo(cfg, Step(cfg, s, l))
  {
    match l {
      case ClaimTask(p, worker, now, lease) => SoloClaims(cfg, s, p, worker, now, lease);
      case Reap(_) =>
      case Crash(_) =>
      case _ => if l.p in s.procs { SoloProcs(cfg, s, l); }
    }
  }

  lemma {:induction false} ExecKeepsSolo(cfg: Config, now: int, ls: seq<Label>)
    requires cfg.fenced && cfg.spec.Coding?
    ensures Solo(cfg, Exec(cfg, Init(cfg, now), ls))
  {
    if ls != [] {
      var pre := ls[..|ls| - 1];
      ExecKeepsSolo(cfg, now, pre);
      ExecKeepsFenced(cfg, Init(cfg, now), pre);
      StepKeepsSolo(cfg, Exec(cfg, Init(cfg, now), pre), ls[|ls| - 1]);
    }
  }

  /** When the first step wrote what cannot be rebuilt, every later answer in the log is fresh. */
  lemma LaterAnswersAreFresh(cfg: Config, s: Sys, i: nat)
    requires cfg.fenced && cfg.spec.Coding? && Reachable(cfg, s) && Sealed(cfg, s.rows.log) && 1 <= i < |s.rows.log|
    ensures FreshAt(cfg, s.rows.log[..i], s.rows.log[i].payload)
  {
    var now, ls :| s == Exec(cfg, Init(cfg, now), ls);
    ExecKeepsSolo(cfg, now, ls);
  }
}
