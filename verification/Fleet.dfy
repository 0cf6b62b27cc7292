/** Many runs in shared tables, worked on by one pool of processes: what happens to one run is
    a run of the single-run protocol, whatever the processes do to the others. */
module Fleet {
  import opened Store
  import opened Agent
  import opened Leases
  import opened Engine
  import opened Protocol

  // The tables of the runs submitted so far; workspaces are directories <run>/a<attempt>.
  datatype World = World(rows: map<RunId, Rows>, cache: map<CacheKey, Response>, calls: seq<(RunId, Call)>,
                         dirs: map<RunId, map<nat, Files>>, procs: map<Proc, Local>,
                         reaps: map<RunId, nat>, releases: map<RunId, nat>)

  // The runs that are ever submitted.
  type Configs = map<RunId, Config>

  /* ---------- what concerns one run ---------- */

  function CallsOf(calls: seq<(RunId, Call)>, run: RunId): seq<Call> {
    if calls == [] then []
    else
      var mine, last := CallsOf(calls[..|calls| - 1], run), calls[|calls| - 1];
      if last.0 == run then mine + [last.1] else mine
  }

  function CacheOf(cache: map<CacheKey, Response>, run: RunId): map<CacheKey, Response> {
    map key | key in cache && key.run == run :: cache[key]
  }

  function DirsOf(dirs: map<RunId, map<nat, Files>>, run: RunId): map<nat, Files> {
    if run in dirs then dirs[run] else map[]
  }

  function ProcsOf(procs: map<Proc, Local>, run: RunId): map<Proc, Local> {
    map p | p in procs && procs[p].claim.run == run :: procs[p]
  }

  datatype Part = Part(cache: map<CacheKey, Response>, calls: seq<Call>, dirs: map<nat, Files>, procs: map<Proc, Local>)

  function PartOf(g: World, run: RunId): Part {
    Part(CacheOf(g.cache, run), CallsOf(g.calls, run), DirsOf(g.dirs, run), ProcsOf(g.procs, run))
  }

  predicate Has(g: World, run: RunId) {
    run in g.rows && run in g.reaps && run in g.releases
  }

  function Together(rows: Rows, part: Part, reaps: nat, releases: nat): Sys {
    Sys(rows, part.cache, part.calls, part.dirs, part.procs, reaps, releases)
  }

  function Cell(g: World, run: RunId): Sys
    requires Has(g, run)
  {
    Together(g.rows[run], PartOf(g, run), g.reaps[run], g.releases[run])
  }

  // What a statement for the run works on: its own rows, processes and directories, and the
  // answer cache of all runs.
  function View(g: World, run: RunId): Sys
    requires Has(g, run)
  {
    Cell(g, run).(cache := g.cache)
  }

  predicate Traceless(g: World, run: RunId) {
    PartOf(g, run) == Part(map[], [], map[], map[])
  }

  // Runs that are not submitted yet have left no trace.
  predicate WellFormed(cfgs: Configs, g: World) {
    && g.rows.Keys <= cfgs.Keys && g.reaps.Keys == g.rows.Keys && g.releases.Keys == g.rows.Keys
    && (forall run :: run in cfgs ==> cfgs[run].run == run)
    && forall run :: run in cfgs && run !in g.rows ==> Traceless(g, run)
  }

  /* ---------- statements on the shared tables ---------- */

  function Tagged(run: RunId, calls: seq<Call>): seq<(RunId, Call)> {
    seq(|calls|, i requires 0 <= i < |calls| => (run, calls[i]))
  }

  function MergeCalls(calls: seq<(RunId, Call)>, run: RunId, mine: seq<Call>): seq<(RunId, Call)> {
    var known := |CallsOf(calls, run)|;
    if known <= |mine| then calls + Tagged(run, mine[known..]) else calls
  }

  function MergeProcs(procs: map<Proc, Local>, run: RunId, mine: map<Proc, Local>): map<Proc, Local> {
    (map p | p in procs && procs[p].claim.run != run :: procs[p]) + mine
  }

  // The shared tables after the statement that turned the run's view into s.
  function Merge(g: World, run: RunId, s: Sys): World
    requires Has(g, run)
  {
    World(g.rows[run := s.rows], s.cache, MergeCalls(g.calls, run, s.calls), g.dirs[run := s.dirs],
          MergeProcs(g.procs, run, s.procs), g.reaps[run := s.reaps], g.releases[run := s.releases])
  }

  datatype Statement = Submit(run: RunId, now: int) | On(run: RunId, l: Label) | ReapAll(now: int, skipped: set<RunId>)

  // A process works for one run at a time; only an idle one claims.
  predicate Enabled(g: World, run: RunId, l: Label) {
    match l
    case Reap(_) => false
    case ClaimTask(p, _, _, _) => p !in g.procs
    case _ => l.p in g.procs && g.procs[l.p].claim.run == run
  }

  function Submitted(g: World, run: RunId, budget: real, now: int): World {
    g.(rows := g.rows[run := FreshRows(budget, now)], reaps := g.reaps[run := 0], releases := g.releases[run := 0])
  }

  // The tables after one pass of the reaper, which skips the rows that others have locked.
  function Reaped(g: World, now: int, skipped: set<RunId>): World {
    g.(rows := map run | run in g.rows ::
         if run !in skipped && Reapable(g.rows[run].task, now)
         then g.rows[run].(task := Requeue(g.rows[run].task)) else g.rows[run],
       reaps := map run | run in g.reaps ::
         if run in g.rows && run !in skipped && Reapable(g.rows[run].task, now) then g.reaps[run] + 1 else g.reaps[run])
  }

  ghost function Act(cfgs: Configs, g: World, e: Statement): World
    requires WellFormed(cfgs, g)
  {
    match e
    case Submit(run, now) => if run in cfgs && run !in g.rows then Submitted(g, run, cfgs[run].budget, now) else g
    case On(run, l) =>
      if run in g.rows && Enabled(g, run, l) then Merge(g, run, Step(cfgs[run], View(g, run), l)) else g
    case ReapAll(now, skipped) => Reaped(g, now, skipped)
  }

  /* ---------- the shared cache ---------- */

  lemma BlindRowStep(cfg: Config, s: Sys, l: Label, at: Local, cache: map<CacheKey, Response>)
    requires OnRows(l)
    ensures StepProc(cfg, s.(cache := cache), l, at) == StepProc(cfg, s, l, at).(cache := cache)
  {
    match l {
      case Heartbeat(_, _, _) =>
      case Commit(_, _) =>
      case ReleaseTask(_, _, _) =>
    }
  }

  // Steps that neither look up nor insert do not see the cache.
  lemma BlindStep(cfg: Config, s: Sys, l: Label, at: Local, cache: map<CacheKey, Response>)
    requires !l.ClaimTask? && !l.Reap? && !l.Crash? && !l.NextStep? && !l.StoreAnswer?
    ensures StepProc(cfg, s.(cache := cache), l, at) == StepProc(cfg, s, l, at).(cache := cache)
  {
    match l {
      case Mount(_) =>
      case RecordCall(_) =>
      case ExecuteTool(_) =>
      case _ => if OnRows(l) { BlindRowStep(cfg, s, l, at, cache); }
    }
  }

  lemma BlindClaim(cfg: Config, s: Sys, p: Proc, worker: WorkerId, now: int, lease: int, cache: map<CacheKey, Response>)
    ensures StepClaim(cfg, s.(cache := cache), p, worker, now, lease)
              == StepClaim(cfg, s, p, worker, now, lease).(cache := cache)
  {
  }

  // The lookup finds in the whole cache what it finds among the run's own entries.
  lemma LookUpOnSlice(cfg: Config, s: Sys, p: Proc, at: Local)
    requires at.Have?
    ensures StepNext(cfg, s.(cache := CacheOf(s.cache, cfg.run)), p, at.claim, at.mounted, at.log)
              == StepNext(cfg, s, p, at.claim, at.mounted, at.log).(cache := CacheOf(s.cache, cfg.run))
  {
    if cfg.spec.Coding? {
      var key := KeyFor(cfg, at.log);
      assert key in s.cache <==> key in CacheOf(s.cache, cfg.run);
    }
  }

  lemma StoreOnSlice(cfg: Config, s: Sys, p: Proc, at: Local)
    ensures StepStore(cfg, s.(cache := CacheOf(s.cache, cfg.run)), p, at)
              == StepStore(cfg, s, p, at).(cache := CacheOf(StepStore(cfg, s, p, at).cache, cfg.run))
  {
    if at.Returned? && cfg.spec.Coding? {
      var key, stored := KeyFor(cfg, at.log), Stored(at.answer);
      assert key in s.cache <==> key in CacheOf(s.cache, cfg.run);
      assert CacheOf(s.cache[key := stored], cfg.run) == CacheOf(s.cache, cfg.run)[key := stored];
    }
  }

  lemma ProcStepOnSlice(cfg: Config, s: Sys, l: Label, at: Local)
    requires !l.ClaimTask? && !l.Reap? && !l.Crash?
    ensures var s' := StepProc(cfg, s, l, at);
            StepProc(cfg, s.(cache := CacheOf(s.cache, cfg.run)), l, at) == s'.(cache := CacheOf(s'.cache, cfg.run))
  {
    if l.NextStep? {
      if at.Have? { LookUpOnSlice(cfg, s, l.p, at); }
    } else if l.StoreAnswer? {
      StoreOnSlice(cfg, s, l.p, at);
    } else {
      BlindStep(cfg, s, l, at, CacheOf(s.cache, cfg.run));
      BlindStep(cfg, s, l, at, s.cache);
    }
  }

  /** A step on the cache of all runs is the step on the run's own entries: it looks up, and
      inserts, under keys of its own run only. */
  lemma StepOnSlice(cfg: Config, s: Sys, l: Label)
    ensures Step(cfg, s.(cache := CacheOf(s.cache, cfg.run)), l)
              == Step(cfg, s, l).(cache := CacheOf(Step(cfg, s, l).cache, cfg.run))
  {
    match l {
      case ClaimTask(p, worker, now, lease) =>
        BlindClaim(cfg, s, p, worker, now, lease, CacheOf(s.cache, cfg.run));
        BlindClaim(cfg, s, p, worker, now, lease, s.cache);
      case Reap(_) =>
      case Crash(_) =>
      case _ => if l.p in s.procs { ProcStepOnSlice(cfg, s, l, s.procs[l.p]); }
    }
  }

  // ... and leaves those of other runs alone.
  lemma OtherEntriesStay(cfg: Config, s: Sys, l: Label, other: RunId)
    requires other != cfg.run
    ensures CacheOf(Step(cfg, s, l).cache, other) == CacheOf(s.cache, other)
  {
    StepCache(cfg, s, l);
  }

  /* ---------- isolation ---------- */

  lemma {:induction false} CallsSplit(calls: seq<(RunId, Call)>, more: seq<(RunId, Call)>, run: RunId)
    ensures CallsOf(calls + more, run) == CallsOf(calls, run) + CallsOf(more, run)
  {
    if more == [] {
      assert calls + more == calls;
    } else {
      assert (calls + more)[..|calls + more| - 1] == calls + more[..|more| - 1];
      CallsSplit(calls, more[..|more| - 1], run);
    }
  }

  lemma {:induction false} CallsTagged(run: RunId, calls: seq<Call>, other: RunId)
    ensures CallsOf(Tagged(run, calls), other) == if other == run then calls else []
  {
    if calls != [] {
      var t := Tagged(run, calls);
      assert t[..|t| - 1] == Tagged(run, calls[..|calls| - 1]);
      CallsTagged(run, calls[..|calls| - 1], other);
    }
  }

  lemma MergedCalls(calls: seq<(RunId, Call)>, run: RunId, mine: seq<Call>, other: RunId)
    requires CallsOf(calls, run) <= mine
    ensures CallsOf(MergeCalls(calls, run, mine), other) == if other == run then mine else CallsOf(calls, other)
  {
    var more := mine[|CallsOf(calls, run)|..];
    CallsSplit(calls, Tagged(run, more), other);
    CallsTagged(run, more, other);
  }

  lemma MergedProcs(procs: map<Proc, Local>, run: RunId, mine: map<Proc, Local>, other: RunId)
    requires forall p :: p in mine ==> mine[p].claim.run == run && (p in procs ==> procs[p].claim.run == run)
    ensures ProcsOf(MergeProcs(procs, run, mine), other) == if other == run then mine else ProcsOf(procs, other)
  {
  }

  /** Merging a run's view back gives that run this view, and no other run anything. */
  lemma Merged(g: World, run: RunId, s: Sys, other: RunId)
    requires Has(g, run) && CallsOf(g.calls, run) <= s.calls
    requires other != run ==> CacheOf(s.cache, other) == CacheOf(g.cache, other)
    requires forall p :: p in s.procs ==> s.procs[p].claim.run == run && (p in g.procs ==> g.procs[p].claim.run == run)
    ensures PartOf(Merge(g, run, s), other)
              == if other == run then Part(CacheOf(s.cache, run), s.calls, s.dirs, s.procs) else PartOf(g, other)
  {
    MergedCalls(g.calls, run, s.calls, other);
    MergedProcs(g.procs, run, s.procs, other);
  }

  lemma StepMerges(cfgs: Configs, g: World, run: RunId, l: Label, other: RunId)
    requires WellFormed(cfgs, g) && run in g.rows && Enabled(g, run, l)
    ensures var s' := Step(cfgs[run], View(g, run), l);
            PartOf(Merge(g, run, s'), other)
              == if other == run then Part(CacheOf(s'.cache, run), s'.calls, s'.dirs, s'.procs) else PartOf(g, other)
  {
    var s, s' := View(g, run), Step(cfgs[run], View(g, run), l);
    StepCalls(cfgs[run], s, l);
    if other != run { OtherEntriesStay(cfgs[run], s, l, other); }
    forall p | p in s'.procs ensures s'.procs[p].claim.run == run && (p in g.procs ==> g.procs[p].claim.run == run) {
      StepClaims(cfgs[run], s, l, p);
    }
    Merged(g, run, s', other);
  }

  // The step that a statement of the fleet is for one run, if it is one.
  function StepFor(g: World, e: Statement, run: RunId): seq<Label> {
    match e
    case Submit(_, _) => []
    case On(r, l) => if r == run && Enabled(g, r, l) then [l] else []
    case ReapAll(now, skipped) => if run in skipped then [] else [Reap(now)]
  }

  lemma OnProjects(cfgs: Configs, g: World, run: RunId, l: Label, other: RunId)
    requires WellFormed(cfgs, g) && run in g.rows && Enabled(g, run, l) && other in g.rows
    ensures Cell(Merge(g, run, Step(cfgs[run], View(g, run), l)), other)
              == if other == run then Step(cfgs[run], Cell(g, run), l) else Cell(g, other)
  {
    StepMerges(cfgs, g, run, l, other);
    StepOnSlice(cfgs[run], View(g, run), l);
    assert View(g, run).(cache := CacheOf(g.cache, run)) == Cell(g, run);
  }

  lemma ReapProjects(cfg: Config, g: World, now: int, skipped: set<RunId>, run: RunId)
    requires Has(g, run)
    ensures Cell(Reaped(g, now, skipped), run)
              == if run in skipped then Cell(g, run) else Step(cfg, Cell(g, run), Reap(now))
  {
    var s, r := Cell(g, run), Cell(Reaped(g, now, skipped), run);
    assert r == s.(rows := r.rows, reaps := r.reaps);
  }

  lemma MergeKeepsRuns(g: World, run: RunId, s: Sys)
    requires Has(g, run) && g.reaps.Keys == g.rows.Keys && g.releases.Keys == g.rows.Keys
    ensures var g' := Merge(g, run, s);
            g'.rows.Keys == g.rows.Keys && g'.reaps.Keys == g.rows.Keys && g'.releases.Keys == g.rows.Keys
  {
    assert g.rows[run := s.rows].Keys == g.rows.Keys + {run};
    assert g.reaps[run := s.reaps].Keys == g.reaps.Keys + {run};
    assert g.releases[run := s.releases].Keys == g.releases.Keys + {run};
  }

  lemma OnKeepsForm(cfgs: Configs, g: World, run: RunId, l: Label)
    requires WellFormed(cfgs, g) && run in g.rows && Enabled(g, run, l)
    ensures WellFormed(cfgs, Merge(g, run, Step(cfgs[run], View(g, run), l)))
  {
    MergeKeepsRuns(g, run, Step(cfgs[run], View(g, run), l));
    forall other | other in cfgs && other !in g.rows
      ensures Traceless(Merge(g, run, Step(cfgs[run], View(g, run), l)), other)
    {
      assert Traceless(g, other);
      StepMerges(cfgs, g, run, l, other);
    }
  }

  lemma ReapKeepsForm(cfgs: Configs, g: World, now: int, skipped: set<RunId>)
    requires WellFormed(cfgs, g)
    ensures WellFormed(cfgs, Reaped(g, now, skipped))
  {
    forall other | other in cfgs && other !in g.rows ensures Traceless(Reaped(g, now, skipped), other) {
      assert Traceless(g, other);
    }
  }

  lemma SubmitKeepsForm(cfgs: Configs, g: World, run: RunId, now: int)
    requires WellFormed(cfgs, g) && run in cfgs && run !in g.rows
    ensures WellFormed(cfgs, Submitted(g, run, cfgs[run].budget, now))
    ensures Cell(Submitted(g, run, cfgs[run].budget, now), run) == Init(cfgs[run], now)
  {
    var g' := Submitted(g, run, cfgs[run].budget, now);
    assert g'.rows.Keys == g.rows.Keys + {run} && g'.reaps.Keys == g.rows.Keys + {run};
    assert g'.releases.Keys == g.rows.Keys + {run};
    forall other | other in cfgs && other !in g'.rows ensures Traceless(g', other) { assert Traceless(g, other); }
    assert Traceless(g, run);
  }

  lemma ActKeepsForm(cfgs: Configs, g: World, e: Statement)
    requires WellFormed(cfgs, g)
    ensures WellFormed(cfgs, Act(cfgs, g, e))
  {
    match e {
      case Submit(run, now) => if run in cfgs && run !in g.rows { SubmitKeepsForm(cfgs, g, run, now); }
      case On(run, l) => if run in g.rows && Enabled(g, run, l) { OnKeepsForm(cfgs, g, run, l); }
      case ReapAll(now, skipped) => ReapKeepsForm(cfgs, g, now, skipped);
    }
  }

  lemma SubmitLeavesOthers(cfgs: Configs, g: World, run: RunId, now: int, other: RunId)
    requires WellFormed(cfgs, g) && run in cfgs && run !in g.rows && other in g.rows
    ensures Cell(Submitted(g, run, cfgs[run].budget, now), other) == Cell(g, other)
  {
    assert PartOf(Submitted(g, run, cfgs[run].budget, now), other) == PartOf(g, other);
  }

  /** One statement on the shared tables is, for each run, a step of its own protocol or nothing. */
  lemma StatementProjects(cfgs: Configs, g: World, e: Statement, run: RunId)
    requires WellFormed(cfgs, g) && run in g.rows
    ensures Has(Act(cfgs, g, e), run)
    ensures Cell(Act(cfgs, g, e), run) == (if StepFor(g, e, run) == [] then Cell(g, run)
                                           else Step(cfgs[run], Cell(g, run), StepFor(g, e, run)[0]))
  {
    ActKeepsForm(cfgs, g, e);
    match e {
      case Submit(r, now) => if r in cfgs && r !in g.rows { SubmitLeavesOthers(cfgs, g, r, now, run); }
      case On(r, l) =>
        if r in g.rows && Enabled(g, r, l) {
          MergeKeepsRuns(g, r, Step(cfgs[r], View(g, r), l));
          OnProjects(cfgs, g, r, l, run);
        }
      case ReapAll(now, skipped) => ReapProjects(cfgs[run], g, now, skipped, run);
    }
  }

  /* ---------- whole runs of the fleet ---------- */

  const EMPTY: World := World(map[], map[], [], map[], map[], map[], map[])

  // The world after some statements.
  ghost function Acts(cfgs: Configs, g: World, es: seq<Statement>): (g': World)
    requires WellFormed(cfgs, g)
    ensures WellFormed(cfgs, g')
    decreases |es|
  {
    if es == [] then g
    else
      var before := Acts(cfgs, g, es[..|es| - 1]);
      ActKeepsForm(cfgs, before, es[|es| - 1]);
      Act(cfgs, before, es[|es| - 1])
  }

  lemma OneMoreAct(cfgs: Configs, g: World, es: seq<Statement>, e: Statement)
    requires WellFormed(cfgs, g)
    ensures Acts(cfgs, g, es + [e]) == Act(cfgs, Acts(cfgs, g, es), e)
  {
    assert (es + [e])[..|es|] == es;
  }

  ghost function Course(cfgs: Configs, es: seq<Statement>): (g: World)
    requires forall run :: run in cfgs ==> cfgs[run].run == run
    ensures WellFormed(cfgs, g)
  {
    Acts(cfgs, EMPTY, es)
  }

  lemma OnlySubmitAdds(cfgs: Configs, g: World, e: Statement, run: RunId)
    requires WellFormed(cfgs, g) && run !in g.rows && run in Act(cfgs, g, e).rows
    ensures e.Submit? && e.run == run && run in cfgs
  {
    if e.On? && e.run in g.rows && Enabled(g, e.run, e.l) {
      MergeKeepsRuns(g, e.run, Step(cfgs[e.run], View(g, e.run), e.l));
    }
  }

  /** Every run of a shared database, seen alone, is a reachable state of the protocol: so all
      that is proved of reachable states holds of every run, whatever happens to the others. */
  lemma {:induction false} RunsAreIndependent(cfgs: Configs, es: seq<Statement>, run: RunId)
    requires (forall r :: r in cfgs ==> cfgs[r].run == r) && run in Course(cfgs, es).rows
    ensures Reachable(cfgs[run], Cell(Course(cfgs, es), run))
    decreases |es|
  {
    var e, before := es[|es| - 1], Course(cfgs, es[..|es| - 1]);
    if run in before.rows {
      RunsAreIndependent(cfgs, es[..|es| - 1], run);
      StatementProjects(cfgs, before, e, run);
      if StepFor(before, e, run) != [] { Advance(cfgs[run], Cell(before, run), StepFor(before, e, run)[0]); }
    } else {
      OnlySubmitAdds(cfgs, before, e, run);
      SubmitKeepsForm(cfgs, before, run, e.now);
      assert Init(cfgs[run], e.now) == Exec(cfgs[run], Init(cfgs[run], e.now), []);
    }
  }

  // The world is that of some course.
  ghost predicate OnCourse(cfgs: Configs, g: World)
    requires forall run :: run in cfgs ==> cfgs[run].run == run
  {
    exists es :: g == Course(cfgs, es)
  }

  lemma CourseIsReachable(cfgs: Configs, g: World, run: RunId)
    requires WellFormed(cfgs, g) && OnCourse(cfgs, g) && run in g.rows
    ensures Reachable(cfgs[run], Cell(g, run))
  {
    var es :| g == Course(cfgs, es);
    RunsAreIndependent(cfgs, es, run);
  }

  lemma OneMoreOnCourse(cfgs: Configs, es: seq<Statement>, e: Statement)
    requires forall run :: run in cfgs ==> cfgs[run].run == run
    ensures Course(cfgs, es + [e]) == Act(cfgs, Course(cfgs, es), e)
  {
    OneMoreAct(cfgs, EMPTY, es, e);
  }

  lemma CourseGoesOn(cfgs: Configs, g: World, e: Statement, g': World)
    requires WellFormed(cfgs, g) && OnCourse(cfgs, g) && g' == Act(cfgs, g, e)
    ensures WellFormed(cfgs, g') && OnCourse(cfgs, g')
  {
    var es :| g == Course(cfgs, es);
    OneMoreOnCourse(cfgs, es, e);
    assert g' == Course(cfgs, es + [e]);
  }

  lemma {:induction false} CourseGoesOnBy(cfgs: Configs, g: World, es: seq<Statement>, g': World)
    requires WellFormed(cfgs, g) && OnCourse(cfgs, g) && g' == Acts(cfgs, g, es)
    ensures WellFormed(cfgs, g') && OnCourse(cfgs, g')
    decreases |es|
  {
    if es != [] {
      var before := Acts(cfgs, g, es[..|es| - 1]);
      CourseGoesOnBy(cfgs, g, es[..|es| - 1], before);
      CourseGoesOn(cfgs, before, es[|es| - 1], g');
    }
  }
}
