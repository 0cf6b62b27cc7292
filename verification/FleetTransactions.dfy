/** Many runs and many open transactions: statements of the commits and claims of all runs, single
    statements, submissions and passes of the reaper, interleaved in any order. What they commit is
    a course of the fleet, and no run deadlocks. */
module FleetTransactions {
  import opened Options
  import opened Store
  import opened Engine
  import opened Protocol
  import opened Fleet
  import Durability
  import Transactions

  // The open transactions on one run, and who holds the locks of its two rows.
  datatype Session = Session(txns: map<Proc, Transactions.Txn>, taskLock: Option<Proc>, runLock: Option<Proc>)

  const IDLE: Session := Session(map[], None, None)

  datatype State = State(g: World, open: map<RunId, Session>)

  datatype Action =
    | Submits(run: RunId, now: int)
    | In(run: RunId, a: Transactions.Action)
    | ReapsAll(now: int)

  function SessionOf(m: State, run: RunId): Session {
    if run in m.open then m.open[run] else IDLE
  }

  function DbOf(m: State, run: RunId): Transactions.Db
    requires Has(m.g, run)
  {
    var x := SessionOf(m, run);
    Transactions.Db(View(m.g, run), x.txns, x.taskLock, x.runLock)
  }

  predicate InTransaction(m: State, p: Proc) {
    exists run :: run in m.open && p in m.open[run].txns
  }

  // Only a process that does nothing else begins a claim, and only a pass of the reaper reaps.
  predicate Allowed(m: State, a: Transactions.Action) {
    && (a.Outside? ==> !a.l.Reap?)
    && (a.BeginClaim? ==> a.p !in m.g.procs && !InTransaction(m, a.p))
  }

  // The runs whose task row a reaper skips.
  function Locked(m: State): set<RunId> {
    set run | run in m.open && m.open[run].taskLock.Some?
  }

  ghost function ActIn(cfg: Config, m: State, run: RunId, a: Transactions.Action): State
    requires Has(m.g, run)
  {
    var d := Transactions.Act(cfg, DbOf(m, run), a);
    State(if d.w == View(m.g, run) then m.g else Merge(m.g, run, d.w),
          m.open[run := Session(d.txns, d.taskLock, d.runLock)])
  }

  ghost function Act(cfgs: Configs, m: State, e: Action): State
    requires WellFormed(cfgs, m.g)
  {
    match e
    case Submits(run, now) => m.(g := Fleet.Act(cfgs, m.g, Submit(run, now)))
    case In(run, a) => if run in m.g.rows && Allowed(m, a) then ActIn(cfgs[run], m, run, a) else m
    case ReapsAll(now) => m.(g := Fleet.Act(cfgs, m.g, ReapAll(now, Locked(m))))
  }

  /* ---------- the invariant ---------- */

  predicate Claims(x: Session, p: Proc) {
    p in x.txns && x.txns[p].Claiming()
  }

  // Who is claiming a task does nothing else.
  ghost predicate Apart(m: State) {
    forall run, p :: run in m.open && Claims(m.open[run], p) ==> Single(m, run, p)
  }

  // p is at work on no run, and in no transaction on another one.
  predicate Single(m: State, run: RunId, p: Proc) {
    p !in m.g.procs && forall other :: other in m.open && p in m.open[other].txns ==> other == run
  }

  ghost predicate IsolatedIn(cfgs: Configs, m: State, run: RunId)
    requires run in cfgs && Has(m.g, run)
  {
    Transactions.Isolated(cfgs[run], DbOf(m, run))
  }

  ghost predicate Sound(cfgs: Configs, m: State) {
    && WellFormed(cfgs, m.g) && OnCourse(cfgs, m.g) && m.open.Keys <= m.g.rows.Keys && Apart(m)
    && forall run :: run in m.g.rows ==> IsolatedIn(cfgs, m, run)
  }

  // Isolation rests on rows and processes, not on cache, calls or directories.
  lemma SameIsolation(cfg: Config, d: Transactions.Db, d': Transactions.Db)
    requires Transactions.Isolated(cfg, d) && d'.w.rows == d.w.rows && d'.w.procs == d.w.procs
    requires d'.txns == d.txns && d'.taskLock == d.taskLock && d'.runLock == d.runLock
    ensures Transactions.Isolated(cfg, d')
  {
    forall p | p in d'.txns ensures Transactions.View(cfg, d'.w, p, d'.txns[p]) {
      assert Transactions.View(cfg, d.w, p, d.txns[p]);
    }
  }

  lemma SameCell(g: World, g': World, run: RunId)
    requires Has(g, run) && Has(g', run) && Cell(g', run) == Cell(g, run)
    ensures View(g', run).rows == View(g, run).rows && View(g', run).procs == View(g, run).procs
  {
    assert View(g', run).rows == Cell(g', run).rows && View(g', run).procs == Cell(g', run).procs;
  }

  lemma CourseIsStarted(cfgs: Configs, g: World, run: RunId)
    requires WellFormed(cfgs, g) && OnCourse(cfgs, g) && run in g.rows
    ensures Transactions.ReadyMeansStarted(View(g, run))
  {
    CourseIsReachable(cfgs, g, run);
    ReachableIsStarted(cfgs[run], Cell(g, run));
    SameCell(g, g, run);
    assert View(g, run).procs == Cell(g, run).procs;
  }

  lemma ReachableIsStarted(cfg: Config, s: Sys)
    requires Reachable(cfg, s)
    ensures Transactions.ReadyMeansStarted(s)
  {
    Durability.ReachableIsBase(cfg, s);
    Transactions.BaseIsStarted(cfg, s);
  }

  /* ---------- one run's statements ---------- */

  // Where the open transactions of a run come from.
  lemma TxnsFrom(cfg: Config, d: Transactions.Db, a: Transactions.Action, q: Proc)
    requires q in Transactions.Act(cfg, d, a).txns
    ensures || (q in d.txns && Transactions.Act(cfg, d, a).txns[q].Claiming() == d.txns[q].Claiming())
            || (a.BeginClaim? && q == a.p)
            || (a.BeginCommit? && q == a.p && q in d.w.procs && !Transactions.Act(cfg, d, a).txns[q].Claiming())
  {
    match a {
      case Outside(l) =>
      case BeginCommit(_, _) =>
      case BeginClaim(_, _, _, _) =>
      case Statement(p) => if q == p { StatementKeepsKind(cfg, d, p); } else { OthersKeepTxns(cfg, d, p, q); }
    }
  }

  lemma StatementKeepsKind(cfg: Config, d: Transactions.Db, p: Proc)
    requires p in Transactions.RunStatement(cfg, d, p).txns
    ensures p in d.txns && Transactions.RunStatement(cfg, d, p).txns[p].Claiming() == d.txns[p].Claiming()
  {
  }

  lemma OthersKeepTxns(cfg: Config, d: Transactions.Db, p: Proc, q: Proc)
    requires q != p && q in Transactions.RunStatement(cfg, d, p).txns
    ensures q in d.txns && Transactions.RunStatement(cfg, d, p).txns[q] == d.txns[q]
  {
  }

  // A process that turns up in a run was claiming its task.
  lemma ProcsFrom(cfg: Config, d: Transactions.Db, a: Transactions.Action, q: Proc)
    requires Transactions.Isolated(cfg, d) && q in Transactions.Act(cfg, d, a).w.procs && q !in d.w.procs
    ensures q in d.txns && d.txns[q].Claiming()
  {
    Transactions.ActRefines(cfg, d, a);
    var l := Transactions.AtomicStep(cfg, d, a);
    if l.Some? { StepClaims(cfg, d.w, l.value, q); }
  }

  lemma NoEffect(cfg: Config, w: Sys, l: Label)
    requires !l.ClaimTask? && !l.Reap? && l.p !in w.procs
    ensures Step(cfg, w, l) == w
  {
  }

  // A statement that changes the committed world is a step of a process at work on the run, or
  // the claim of one that was claiming.
  lemma ChangesByStep(cfg: Config, d: Transactions.Db, a: Transactions.Action) returns (l: Label)
    requires Transactions.Isolated(cfg, d) && (a.Outside? ==> !a.l.Reap?)
    requires Transactions.Act(cfg, d, a).w != d.w
    ensures !l.Reap? && Transactions.Act(cfg, d, a).w == Step(cfg, d.w, l)
    ensures if l.ClaimTask? then l.p in d.txns && d.txns[l.p].Claiming() else l.p in d.w.procs
  {
    Transactions.ActRefines(cfg, d, a);
    l := Transactions.AtomicStep(cfg, d, a).value;
    if !l.ClaimTask? && l.p !in d.w.procs { NoEffect(cfg, d.w, l); }
  }

  lemma StatementMerges(cfgs: Configs, g: World, run: RunId, l: Label, w: Sys)
    requires WellFormed(cfgs, g) && run in g.rows && Enabled(g, run, l) && w == Step(cfgs[run], View(g, run), l)
    ensures Fleet.Act(cfgs, g, On(run, l)) == Merge(g, run, w)
  {
  }

  lemma AtWorkIsEnabled(g: World, run: RunId, l: Label)
    requires Has(g, run) && !l.Reap? && if l.ClaimTask? then l.p !in g.procs else l.p in View(g, run).procs
    ensures Enabled(g, run, l)
  {
  }

  /** What a statement on one run commits is a statement of the fleet, or nothing. */
  lemma CommitsStatement(cfgs: Configs, m: State, run: RunId, a: Transactions.Action, d: Transactions.Db)
    returns (l: Label)
    requires Sound(cfgs, m) && run in m.g.rows && Allowed(m, a)
    requires d == Transactions.Act(cfgs[run], DbOf(m, run), a) && d.w != View(m.g, run)
    ensures Enabled(m.g, run, l) && d.w == Step(cfgs[run], View(m.g, run), l)
  {
    assert IsolatedIn(cfgs, m, run);
    l := ChangesByStep(cfgs[run], DbOf(m, run), a);
    if l.ClaimTask? { assert Claims(m.open[run], l.p) && Single(m, run, l.p); }
    AtWorkIsEnabled(m.g, run, l);
  }

  lemma OthersStay(cfgs: Configs, g: World, run: RunId, l: Label, w: Sys, other: RunId)
    requires WellFormed(cfgs, g) && run in g.rows && Enabled(g, run, l) && w == Step(cfgs[run], View(g, run), l)
    requires other in g.rows && other != run
    ensures Has(Merge(g, run, w), other) && Cell(Merge(g, run, w), other) == Cell(g, other)
  {
    OnProjects(cfgs, g, run, l, other);
  }

  lemma MergedIsOnCourse(cfgs: Configs, g: World, run: RunId, l: Label, w: Sys)
    requires WellFormed(cfgs, g) && OnCourse(cfgs, g) && run in g.rows && Enabled(g, run, l)
    requires w == Step(cfgs[run], View(g, run), l)
    ensures var g' := Merge(g, run, w); WellFormed(cfgs, g') && OnCourse(cfgs, g') && g'.rows.Keys == g.rows.Keys
  {
    StatementMerges(cfgs, g, run, l, w);
    CourseGoesOn(cfgs, g, On(run, l), Merge(g, run, w));
    MergeKeepsRuns(g, run, w);
  }

  // The world after a statement on one run: still a course, and the other runs are as before.
  lemma InKeepsCourse(cfgs: Configs, m: State, run: RunId, a: Transactions.Action)
    requires Sound(cfgs, m) && run in m.g.rows && Allowed(m, a)
    ensures var g' := ActIn(cfgs[run], m, run, a).g;
            && WellFormed(cfgs, g') && OnCourse(cfgs, g') && g'.rows.Keys == m.g.rows.Keys
            && forall other :: other in m.g.rows && other != run ==> Cell(g', other) == Cell(m.g, other)
  {
    var d := Transactions.Act(cfgs[run], DbOf(m, run), a);
    if d.w != View(m.g, run) {
      var l := CommitsStatement(cfgs, m, run, a, d);
      MergedIsOnCourse(cfgs, m.g, run, l, d.w);
      forall other | other in m.g.rows && other != run ensures Cell(Merge(m.g, run, d.w), other) == Cell(m.g, other) {
        OthersStay(cfgs, m.g, run, l, d.w, other);
      }
    }
  }

  // The run's rows and processes are those its own statement left.
  lemma InSetsOwn(cfgs: Configs, m: State, run: RunId, a: Transactions.Action)
    requires Sound(cfgs, m) && run in m.g.rows && Allowed(m, a)
    ensures var d, g' := Transactions.Act(cfgs[run], DbOf(m, run), a), ActIn(cfgs[run], m, run, a).g;
            Has(g', run) && View(g', run).rows == d.w.rows && View(g', run).procs == d.w.procs
  {
    var d := Transactions.Act(cfgs[run], DbOf(m, run), a);
    if d.w != View(m.g, run) {
      var l := CommitsStatement(cfgs, m, run, a, d);
      MergeKeepsRuns(m.g, run, d.w);
      StepMerges(cfgs, m.g, run, l, run);
    }
  }

  // Isolation carries over to a state with the same sessions, rows and processes of the run.
  lemma IsolationMoves(cfgs: Configs, m': State, run: RunId, d: Transactions.Db)
    requires run in cfgs && Has(m'.g, run) && Transactions.Isolated(cfgs[run], d)
    requires SessionOf(m', run) == Session(d.txns, d.taskLock, d.runLock)
    requires View(m'.g, run).rows == d.w.rows && View(m'.g, run).procs == d.w.procs
    ensures IsolatedIn(cfgs, m', run)
  {
    SameIsolation(cfgs[run], d, DbOf(m', run));
  }

  lemma UntouchedStays(cfgs: Configs, m: State, m': State, run: RunId)
    requires run in cfgs && Has(m.g, run) && IsolatedIn(cfgs, m, run)
    requires Has(m'.g, run) && Cell(m'.g, run) == Cell(m.g, run) && SessionOf(m', run) == SessionOf(m, run)
    ensures IsolatedIn(cfgs, m', run)
  {
    SameCell(m.g, m'.g, run);
    IsolationMoves(cfgs, m', run, DbOf(m, run));
  }

  lemma ActsInIsolation(cfgs: Configs, m: State, run: RunId, a: Transactions.Action)
    requires Sound(cfgs, m) && run in m.g.rows
    ensures Transactions.Isolated(cfgs[run], Transactions.Act(cfgs[run], DbOf(m, run), a))
  {
    assert IsolatedIn(cfgs, m, run);
    CourseIsStarted(cfgs, m.g, run);
    Transactions.ActKeepsIsolation(cfgs[run], DbOf(m, run), a);
  }

  lemma OwnIsolation(cfgs: Configs, m: State, run: RunId, a: Transactions.Action, m': State)
    requires Sound(cfgs, m) && run in m.g.rows && Allowed(m, a) && m' == ActIn(cfgs[run], m, run, a)
    ensures Has(m'.g, run) && IsolatedIn(cfgs, m', run)
  {
    ActsInIsolation(cfgs, m, run, a);
    InSetsOwn(cfgs, m, run, a);
    IsolationMoves(cfgs, m', run, Transactions.Act(cfgs[run], DbOf(m, run), a));
  }

  lemma InKeepsIsolation(cfgs: Configs, m: State, run: RunId, a: Transactions.Action, other: RunId, m': State)
    requires Sound(cfgs, m) && run in m.g.rows && Allowed(m, a) && m' == ActIn(cfgs[run], m, run, a)
    requires other in m.g.rows
    ensures Has(m'.g, other) && IsolatedIn(cfgs, m', other)
  {
    if other == run {
      OwnIsolation(cfgs, m, run, a, m');
    } else {
      InKeepsCourse(cfgs, m, run, a);
      assert IsolatedIn(cfgs, m, other);
      UntouchedStays(cfgs, m, m', other);
    }
  }

  // A process after a statement was one before, or was claiming the run's task.
  lemma InProcsFrom(cfgs: Configs, m: State, run: RunId, a: Transactions.Action, q: Proc)
    requires Sound(cfgs, m) && run in m.g.rows && q in ActIn(cfgs[run], m, run, a).g.procs
    ensures q in m.g.procs || Claims(SessionOf(m, run), q)
  {
    var d := Transactions.Act(cfgs[run], DbOf(m, run), a);
    assert IsolatedIn(cfgs, m, run);
    if q in d.w.procs && q !in View(m.g, run).procs { ProcsFrom(cfgs[run], DbOf(m, run), a, q); }
  }

  // q was in a transaction of the same kind, or is idle, or is at work and commits.
  predicate TxnFrom(m: State, m': State, run: RunId, q: Proc) {
    || (q in SessionOf(m, run).txns && Claims(SessionOf(m', run), q) == Claims(SessionOf(m, run), q))
    || (q !in m.g.procs && !InTransaction(m, q))
    || (q in m.g.procs && !Claims(SessionOf(m', run), q))
  }

  // What a statement on the run changes about who does what.
  ghost predicate Moves(m: State, m': State, run: RunId) {
    && m'.open == m.open[run := SessionOf(m', run)]
    && (forall q :: q in SessionOf(m', run).txns ==> TxnFrom(m, m', run, q))
    && (forall q :: q in m'.g.procs ==> q in m.g.procs || Claims(SessionOf(m, run), q))
    && (forall q :: Claims(SessionOf(m', run), q) ==> q !in m'.g.procs)
  }

  lemma ClaimerApart(m: State, m': State, run: RunId, r: RunId, q: Proc)
    requires Apart(m) && Moves(m, m', run) && r in m'.open && Claims(m'.open[r], q)
    ensures Single(m', r, q)
  {
    if r == run {
      assert TxnFrom(m, m', run, q);
      if q in SessionOf(m, run).txns { assert Claims(m.open[run], q); }
    } else {
      assert Claims(m.open[r], q) && InTransaction(m, q);
      assert Single(m, r, q);
      assert q in SessionOf(m', run).txns ==> TxnFrom(m, m', run, q);
    }
  }

  lemma MovesKeepApart(m: State, m': State, run: RunId)
    requires Apart(m) && Moves(m, m', run)
    ensures Apart(m')
  {
    forall r, q | r in m'.open && Claims(m'.open[r], q)
      ensures Single(m', r, q)
    {
      ClaimerApart(m, m', run, r, q);
    }
  }

  // A process that is not at work on the run was at work before.
  lemma ProcsStay(cfgs: Configs, m: State, run: RunId, a: Transactions.Action, m': State, q: Proc)
    requires Sound(cfgs, m) && run in m.g.rows && Allowed(m, a) && m' == ActIn(cfgs[run], m, run, a)
    requires q in m'.g.procs && Has(m'.g, run) && q !in View(m'.g, run).procs
    ensures q in m.g.procs && m'.g.procs[q].claim.run != run
  {
    InSetsOwn(cfgs, m, run, a);
  }

  lemma ClaimerWasIdle(m: State, m': State, run: RunId, q: Proc)
    requires Apart(m) && TxnFrom(m, m', run, q) && Claims(SessionOf(m', run), q)
    ensures q !in m.g.procs
  {
    if q in SessionOf(m, run).txns && Claims(SessionOf(m, run), q) { assert Single(m, run, q); }
  }

  lemma ClaimerIsNotAtWork(cfgs: Configs, m: State, run: RunId, q: Proc)
    requires run in cfgs && Has(m.g, run) && IsolatedIn(cfgs, m, run) && Claims(SessionOf(m, run), q)
    ensures q !in View(m.g, run).procs
  {
    assert Transactions.View(cfgs[run], DbOf(m, run).w, q, SessionOf(m, run).txns[q]);
  }

  lemma InMoves(cfgs: Configs, m: State, run: RunId, a: Transactions.Action, m': State)
    requires Sound(cfgs, m) && run in m.g.rows && Allowed(m, a) && m' == ActIn(cfgs[run], m, run, a)
    ensures Moves(m, m', run)
  {
    forall q | q in SessionOf(m', run).txns ensures TxnFrom(m, m', run, q) { InTxnsFrom(cfgs, m, run, a, m', q); }
    forall q | q in m'.g.procs ensures q in m.g.procs || Claims(SessionOf(m, run), q) {
      InProcsFrom(cfgs, m, run, a, q);
    }
    OwnIsolation(cfgs, m, run, a, m');
    forall q | Claims(SessionOf(m', run), q) ensures q !in m'.g.procs {
      ClaimerWasIdle(m, m', run, q);
      ClaimerIsNotAtWork(cfgs, m', run, q);
      if q in m'.g.procs { ProcsStay(cfgs, m, run, a, m', q); }
    }
  }

  lemma InTxnsFrom(cfgs: Configs, m: State, run: RunId, a: Transactions.Action, m': State, q: Proc)
    requires Sound(cfgs, m) && run in m.g.rows && Allowed(m, a) && m' == ActIn(cfgs[run], m, run, a)
    requires q in SessionOf(m', run).txns
    ensures TxnFrom(m, m', run, q)
  {
    TxnsFrom(cfgs[run], DbOf(m, run), a, q);
  }

  /* ---------- the other actions ---------- */

  // A pass of the reaper and a run whose task row is not locked.
  lemma ReapedRun(cfgs: Configs, m: State, now: int, m': State, run: RunId)
    requires run in cfgs && Has(m.g, run) && IsolatedIn(cfgs, m, run) && SessionOf(m, run).taskLock == None
    requires Has(m'.g, run) && m'.open == m.open && Cell(m'.g, run) == Step(cfgs[run], Cell(m.g, run), Reap(now))
    ensures IsolatedIn(cfgs, m', run)
  {
    var d := Transactions.RunOutside(cfgs[run], DbOf(m, run), Reap(now));
    Transactions.OutsideKeepsIsolation(cfgs[run], DbOf(m, run), Reap(now));
    assert View(m'.g, run).rows == Cell(m'.g, run).rows && View(m'.g, run).procs == Cell(m'.g, run).procs;
    IsolationMoves(cfgs, m', run, d);
  }

  lemma ReapsKeepIsolation(cfgs: Configs, m: State, now: int, m': State, run: RunId)
    requires Sound(cfgs, m) && m' == m.(g := Reaped(m.g, now, Locked(m))) && run in m.g.rows
    ensures Has(m'.g, run) && IsolatedIn(cfgs, m', run)
  {
    assert IsolatedIn(cfgs, m, run);
    ReapProjects(cfgs[run], m.g, now, Locked(m), run);
    if run in Locked(m) { UntouchedStays(cfgs, m, m', run); } else { ReapedRun(cfgs, m, now, m', run); }
  }

  lemma ReapsKeepSound(cfgs: Configs, m: State, now: int)
    requires Sound(cfgs, m)
    ensures Sound(cfgs, Act(cfgs, m, ReapsAll(now)))
  {
    var m' := Act(cfgs, m, ReapsAll(now));
    CourseGoesOn(cfgs, m.g, ReapAll(now, Locked(m)), m'.g);
    SameApart(m, m');
    forall run | run in m'.g.rows ensures IsolatedIn(cfgs, m', run) { ReapsKeepIsolation(cfgs, m, now, m', run); }
  }

  // A run that has just been submitted is worked on by nobody.
  lemma FreshRun(cfgs: Configs, m: State, run: RunId, now: int, m': State)
    requires Sound(cfgs, m) && run in cfgs && run !in m.g.rows
    requires m' == m.(g := Submitted(m.g, run, cfgs[run].budget, now))
    ensures Has(m'.g, run) && IsolatedIn(cfgs, m', run)
  {
    SubmitKeepsForm(cfgs, m.g, run, now);
    assert View(m'.g, run).procs == Cell(m'.g, run).procs == map[];
  }

  // Apartness is about processes and sessions only.
  lemma SameApart(m: State, m': State)
    requires Apart(m) && m'.g.procs == m.g.procs && m'.open == m.open
    ensures Apart(m')
  {
    forall run, p | run in m'.open && Claims(m'.open[run], p) ensures Single(m', run, p) { assert Single(m, run, p); }
  }

  lemma SubmittedOthers(cfgs: Configs, m: State, run: RunId, now: int, m': State, r: RunId)
    requires Sound(cfgs, m) && run in cfgs && run !in m.g.rows && r in m.g.rows
    requires m' == m.(g := Submitted(m.g, run, cfgs[run].budget, now))
    ensures Has(m'.g, r) && IsolatedIn(cfgs, m', r)
  {
    assert IsolatedIn(cfgs, m, r);
    SubmitLeavesOthers(cfgs, m.g, run, now, r);
    UntouchedStays(cfgs, m, m', r);
  }

  lemma SubmittedIsSound(cfgs: Configs, m: State, run: RunId, now: int, m': State)
    requires Sound(cfgs, m) && run in cfgs && run !in m.g.rows
    requires m' == m.(g := Submitted(m.g, run, cfgs[run].budget, now))
    ensures Sound(cfgs, m')
  {
    CourseGoesOn(cfgs, m.g, Submit(run, now), m'.g);
    SameApart(m, m');
    forall r | r in m'.g.rows ensures IsolatedIn(cfgs, m', r) {
      if r == run { FreshRun(cfgs, m, run, now, m'); } else { SubmittedOthers(cfgs, m, run, now, m', r); }
    }
  }

  lemma SubmitsKeepSound(cfgs: Configs, m: State, run: RunId, now: int)
    requires Sound(cfgs, m)
    ensures Sound(cfgs, Act(cfgs, m, Submits(run, now)))
  {
    if run in cfgs && run !in m.g.rows {
      SubmittedIsSound(cfgs, m, run, now, m.(g := Submitted(m.g, run, cfgs[run].budget, now)));
    }
  }

  lemma InKeepsSound(cfgs: Configs, m: State, run: RunId, a: Transactions.Action, m': State)
    requires Sound(cfgs, m) && run in m.g.rows && Allowed(m, a) && m' == ActIn(cfgs[run], m, run, a)
    ensures Sound(cfgs, m')
  {
    InKeepsCourse(cfgs, m, run, a);
    InMoves(cfgs, m, run, a, m');
    MovesKeepApart(m, m', run);
    forall r | r in m.g.rows ensures IsolatedIn(cfgs, m', r) { InKeepsIsolation(cfgs, m, run, a, r, m'); }
  }

  lemma ActKeepsSound(cfgs: Configs, m: State, e: Action)
    requires Sound(cfgs, m)
    ensures Sound(cfgs, Act(cfgs, m, e))
  {
    match e {
      case Submits(run, now) => SubmitsKeepSound(cfgs, m, run, now);
      case ReapsAll(now) => ReapsKeepSound(cfgs, m, now);
      case In(run, a) =>
        if run in m.g.rows && Allowed(m, a) {
          InKeepsSound(cfgs, m, run, a, ActIn(cfgs[run], m, run, a));
        }
    }
  }

  /* ---------- whole interleavings ---------- */

  ghost function Interleave(cfgs: Configs, acts: seq<Action>): (m: State)
    requires forall run :: run in cfgs ==> cfgs[run].run == run
    ensures Sound(cfgs, m)
    decreases |acts|
  {
    if acts == [] then
      assert EMPTY == Course(cfgs, []);
      State(EMPTY, map[])
    else
      var before := Interleave(cfgs, acts[..|acts| - 1]);
      ActKeepsSound(cfgs, before, acts[|acts| - 1]);
      Act(cfgs, before, acts[|acts| - 1])
  }

  /** Whatever statements of whatever transactions interleave, on any number of runs, what is
      committed is a course of the fleet: so every run of it, seen alone, is a reachable state of
      the protocol. */
  lemma InterleavingsRefineCourses(cfgs: Configs, acts: seq<Action>)
    requires forall run :: run in cfgs ==> cfgs[run].run == run
    ensures var g := Interleave(cfgs, acts).g;
            OnCourse(cfgs, g) && forall run :: run in g.rows ==> Reachable(cfgs[run], Cell(g, run))
  {
    var g := Interleave(cfgs, acts).g;
    forall run | run in g.rows ensures Reachable(cfgs[run], Cell(g, run)) {
      CourseIsReachable(cfgs, g, run);
    }
  }

  lemma OneRuns(cfgs: Configs, m: State, run: RunId, p: Proc) returns (q: Proc)
    requires Sound(cfgs, m) && run in m.open && p in m.open[run].txns
    ensures q in m.open[run].txns
    ensures Transactions.Act(cfgs[run], DbOf(m, run), Transactions.Statement(q)) != DbOf(m, run)
  {
    assert IsolatedIn(cfgs, m, run);
    CourseIsStarted(cfgs, m.g, run);
    q := Transactions.SomebodyRuns(cfgs[run], DbOf(m, run), p);
  }

  /** No deadlock: while transactions are open on a run, one of them can execute its next statement. */
  lemma SomebodyRuns(cfgs: Configs, acts: seq<Action>, run: RunId, p: Proc) returns (q: Proc)
    requires forall r :: r in cfgs ==> cfgs[r].run == r
    requires var m := Interleave(cfgs, acts); run in m.open && p in m.open[run].txns
    ensures var m := Interleave(cfgs, acts);
            && run in m.g.rows && q in m.open[run].txns
            && Transactions.Act(cfgs[run], DbOf(m, run), Transactions.Statement(q)) != DbOf(m, run)
  {
    var m := Interleave(cfgs, acts);
    q := OneRuns(cfgs, m, run, p);
  }
}
