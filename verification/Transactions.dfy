/** The commit and claim transactions statement by statement, with row locks held until the
    transaction ends, interleaved with everything else. Each interleaving performs steps of the
    atomic protocol, and no two transactions ever wait for each other. */
module Transactions {
  import opened Options
  import opened Store
  import opened Money
  import opened Leases
  import opened Engine
  import opened Protocol
  import opened Durability

  /** Where an open transaction stands. now() is the time at which the transaction began. What a
      statement wrote is private to the transaction until it commits. */
  datatype Txn =
    | Begun(now: int)                                   // before assert_lease
    | Checked(now: int)                                 // lease asserted (or fence off)
    | RunLocked(now: int)                               // run row locked
    | Found(now: int)                                   // the step's key is there: return False
    | Absent(now: int)                                  // the step's key is not there
    | Numbered(now: int, next: int)                     // COALESCE(MAX(seq), 0) + 1
    | Inserted(now: int, event: Event)
    | Charged(now: int, event: Event, run: RunRow)
    | TaskClosed(now: int, event: Event, run: RunRow, task: TaskRow)
    | RunClosed(now: int, event: Event, run: RunRow, task: TaskRow)
    | Selected(now: int, worker: WorkerId, lease: int)  // claim: task row locked
    | Granted(now: int, worker: WorkerId, lease: int, task: TaskRow)
    | Touched(now: int, worker: WorkerId, lease: int, task: TaskRow, started: Option<RunRow>)
  {
    predicate Claiming() { Selected? || Granted? || Touched? }
  }

  datatype Db = Db(w: Sys, txns: map<Proc, Txn>, taskLock: Option<Proc>, runLock: Option<Proc>)

  datatype Action =
    | Outside(l: Label)                  // a single statement, a local computation or a crash
    | BeginCommit(p: Proc, now: int)
    | BeginClaim(p: Proc, worker: WorkerId, now: int, lease: int)
    | Statement(p: Proc)                 // the next statement, or COMMIT, of p's transaction

  function Free(lock: Option<Proc>, p: Proc): Option<Proc> {
    if lock == Some(p) then None else lock
  }

  // End of p's transaction: locks are released; the committed world becomes w.
  function Close(m: Db, p: Proc, w: Sys): Db {
    Db(w, m.txns - {p}, Free(m.taskLock, p), Free(m.runLock, p))
  }

  function Put(m: Db, p: Proc, t: Txn): Db { m.(txns := m.txns[p := t]) }

  /* ---------- single statements ---------- */

  // A statement that updates the task row waits for its lock only if the row matches.
  predicate MayRun(m: Db, l: Label) {
    match l
    case ClaimTask(_, _, _, _) => false
    case Commit(_, _) => false
    case Reap(_) => m.taskLock == None                     // SKIP LOCKED: otherwise nothing happens
    case Crash(_) => true
    case Raise(_, _) => true
    case Heartbeat(p, now, _) =>
      p in m.w.procs && (m.taskLock == None || !HoldsLease(m.w.rows.task, m.w.procs[p].claim, now))
    case ReleaseTask(p, _, _) =>
      p !in m.txns && p in m.w.procs && (m.taskLock == None || !Carries(m.w.rows.task, m.w.procs[p].claim))
    case _ => l.p !in m.txns
  }

  // A process whose position changed has left its transaction, which rolls back.
  predicate Left(m: Db, w: Sys, p: Proc) {
    p in m.w.procs && (p !in w.procs || w.procs[p] != m.w.procs[p])
  }

  ghost function RunOutside(cfg: Config, m: Db, l: Label): Db {
    if !MayRun(m, l) then m
    else
      var w := Step(cfg, m.w, l);
      if !l.Reap? && (l.Crash? || Left(m, w, l.p)) then Close(m, l.p, w) else m.(w := w)
  }

  /* ---------- statements of a transaction ---------- */

  // The process after commit_step returned.
  function Return(cfg: Config, w: Sys, p: Proc, c: Claim, out: Outcome): Sys {
    if out.final then Drop(w, p) else At(w, p, Loop(c, cfg.spec.Coding?))
  }

  function RunStatement(cfg: Config, m: Db, p: Proc): Db {
    if p !in m.txns then m
    else if m.txns[p].Claiming() then RunClaim(cfg, m, p, m.txns[p])
    else if p in m.w.procs && m.w.procs[p].Ready? then
      RunCommit(cfg, m, p, m.txns[p], m.w.procs[p].claim, m.w.procs[p].n, m.w.procs[p].out)
    else m
  }

  function RunCommit(cfg: Config, m: Db, p: Proc, t: Txn, c: Claim, n: nat, out: Outcome): Db
    requires !t.Claiming()
  {
    var rows, key := m.w.rows, StepKey(c.run, n);
    match t
    case Begun(now) =>
      if !cfg.fenced then Put(m, p, Checked(now))
      else if !HoldsLease(rows.task, c, now) then Close(m, p, Drop(m.w, p))     // LeaseLostError
      else if m.taskLock == None then Put(m.(taskLock := Some(p)), p, Checked(now))
      else m                                                                    // wait
    case Checked(now) =>
      if m.runLock == None then Put(m.(runLock := Some(p)), p, RunLocked(now)) else m
    case RunLocked(now) => Put(m, p, if HasKey(rows.log, key) then Found(now) else Absent(now))
    case Found(_) => Close(m, p, Return(cfg, m.w, p, c, out))
    case Absent(now) => Put(m, p, Numbered(now, MaxSeq(rows.log) + 1))
    case Numbered(now, next) => Put(m, p, Inserted(now, Event(next, out.kind, out.payload, key, MetaOf(c, out))))
    case Inserted(now, e) => Put(m, p, Charged(now, e, rows.run.(spent := AddSpend(rows.run.spent, out.cost))))
    case Charged(now, e, run) =>
      if !out.final then Close(m, p, Return(cfg, m.w.(rows := Rows(run, rows.task, rows.log + [e])), p, c, out))
      else if m.taskLock == None || m.taskLock == Some(p)
      then Put(m.(taskLock := Some(p)), p, TaskClosed(now, e, run, rows.task.(status := TaskStatus.Done)))
      else m                                                                    // wait
    case TaskClosed(now, e, run, task) => Put(m, p, RunClosed(now, e, run.(status := out.status), task))
    case RunClosed(_, e, run, task) =>
      Close(m, p, Return(cfg, m.w.(rows := Rows(run, task, rows.log + [e])), p, c, out))
  }

  function RunClaim(cfg: Config, m: Db, p: Proc, t: Txn): Db
    requires t.Claiming()
  {
    var rows := m.w.rows;
    match t
    case Selected(now, worker, lease) => Put(m, p, Granted(now, worker, lease, Grant(rows.task, worker, now, lease)))
    case Granted(now, worker, lease, task) =>
      if !rows.run.status.Pending? then Put(m, p, Touched(now, worker, lease, task, None))
      else if m.runLock == None
      then Put(m.(runLock := Some(p)), p, Touched(now, worker, lease, task, Some(rows.run.(status := Running))))
      else m                                                                    // wait
    case Touched(_, worker, _, task, started) =>
      var run := if started.Some? then started.value else rows.run;
      Close(m, p, At(m.w.(rows := Rows(run, task, rows.log)), p,
                     Loop(Claim(cfg.task, cfg.run, worker, task.attempt), false)))
  }

  ghost function Act(cfg: Config, m: Db, a: Action): Db {
    match a
    case Outside(l) => RunOutside(cfg, m, l)
    case BeginCommit(p, now) =>
      if p !in m.txns && p in m.w.procs && m.w.procs[p].Ready? then Put(m, p, Begun(now)) else m
    case BeginClaim(p, worker, now, lease) =>
      if p !in m.txns && p !in m.w.procs && m.taskLock == None && Claimable(m.w.rows.task, now)
      then Put(m.(taskLock := Some(p)), p, Selected(now, worker, lease))
      else m                                               // no row: claim_task returns None
    case Statement(p) => RunStatement(cfg, m, p)
  }

  /* ---------- the invariant ---------- */

  predicate HoldsTask(cfg: Config, t: Txn) {
    t.Claiming() || t.TaskClosed? || t.RunClosed? || (cfg.fenced && !t.Begun?)
  }

  predicate HoldsRun(t: Txn) {
    if t.Claiming() then t.Touched? && t.started.Some? else !t.Begun? && !t.Checked?
  }

  // The transaction's private knowledge and writes agree with the committed rows.
  predicate CommitView(cfg: Config, rows: Rows, t: Txn, c: Claim, n: nat, out: Outcome)
    requires !t.Claiming()
  {
    var key := StepKey(c.run, n);
    var event := Event(MaxSeq(rows.log) + 1, out.kind, out.payload, key, MetaOf(c, out));
    var charged := rows.run.(spent := AddSpend(rows.run.spent, out.cost));
    && (cfg.fenced && !t.Begun? ==> HoldsLease(rows.task, c, t.now))
    && (t.Found? ==> HasKey(rows.log, key))
    && (t.Absent? || t.Numbered? || t.Inserted? || t.Charged? || t.TaskClosed? || t.RunClosed? ==>
          !HasKey(rows.log, key))
    && (t.Numbered? ==> t.next == MaxSeq(rows.log) + 1)
    && (t.Inserted? || t.Charged? || t.TaskClosed? || t.RunClosed? ==> t.event == event)
    && (t.Charged? || t.TaskClosed? ==> t.run == charged)
    && (t.RunClosed? ==> t.run == charged.(status := out.status))
    && (t.TaskClosed? || t.RunClosed? ==> out.final && t.task == rows.task.(status := TaskStatus.Done))
  }

  predicate ClaimView(rows: Rows, t: Txn)
    requires t.Claiming()
  {
    && Claimable(rows.task, t.now)
    && (t.Granted? || t.Touched? ==> t.task == Grant(rows.task, t.worker, t.now, t.lease))
    && (t.Touched? ==> if t.started.Some? then t.started.value == Started(rows.run) else !rows.run.status.Pending?)
  }

  predicate View(cfg: Config, w: Sys, p: Proc, t: Txn) {
    if t.Claiming() then p !in w.procs && ClaimView(w.rows, t)
    else p in w.procs && w.procs[p].Ready?
         && CommitView(cfg, w.rows, t, w.procs[p].claim, w.procs[p].n, w.procs[p].out)
  }

  // A process that is about to commit works on a started run, and will not leave it pending.
  predicate ReadyMeansStarted(w: Sys) {
    forall p :: p in w.procs && w.procs[p].Ready? ==>
      !w.rows.run.status.Pending? && !w.procs[p].out.status.Pending?
  }

  ghost predicate Isolated(cfg: Config, m: Db) {
    && (forall p :: p in m.txns ==> View(cfg, m.w, p, m.txns[p]))
    && (forall p :: m.taskLock == Some(p) <==> p in m.txns && HoldsTask(cfg, m.txns[p]))
    && (forall p :: m.runLock == Some(p) <==> p in m.txns && HoldsRun(m.txns[p]))
  }

  /* ---------- refinement ---------- */

  // The atomic step that an action amounts to, if it amounts to one.
  function AtomicStep(cfg: Config, m: Db, a: Action): Option<Label> {
    match a
    case Outside(l) => if MayRun(m, l) then Some(l) else None
    case BeginCommit(_, _) => None
    case BeginClaim(_, _, _, _) => None
    case Statement(p) =>
      if p !in m.txns then None
      else match m.txns[p]
           case Begun(now) =>
             if cfg.fenced && p in m.w.procs && !HoldsLease(m.w.rows.task, m.w.procs[p].claim, now)
             then Some(Commit(p, now)) else None
           case Found(now) => Some(Commit(p, now))
           case Charged(now, _, _) =>
             if p in m.w.procs && m.w.procs[p].Ready? && !m.w.procs[p].out.final then Some(Commit(p, now)) else None
           case RunClosed(now, _, _, _) => Some(Commit(p, now))
           case Touched(now, worker, lease, _, _) => Some(ClaimTask(p, worker, now, lease))
           case _ => None
  }

  lemma CommitRefines(cfg: Config, m: Db, p: Proc)
    requires Isolated(cfg, m) && p in m.txns && !m.txns[p].Claiming()
    ensures var w', l := RunStatement(cfg, m, p).w, AtomicStep(cfg, m, Statement(p));
            w' == if l.Some? then Step(cfg, m.w, l.value) else m.w
  {
    assert View(cfg, m.w, p, m.txns[p]);
  }

  lemma ClaimRefines(cfg: Config, m: Db, p: Proc)
    requires Isolated(cfg, m) && p in m.txns && m.txns[p].Claiming()
    ensures var w', l := RunStatement(cfg, m, p).w, AtomicStep(cfg, m, Statement(p));
            w' == if l.Some? then Step(cfg, m.w, l.value) else m.w
  {
    assert View(cfg, m.w, p, m.txns[p]);
  }

  /** Every interleaving of statements changes the committed world exactly by atomic steps: a
      transaction's only visible effect is that of the whole transaction at its COMMIT. */
  lemma ActRefines(cfg: Config, m: Db, a: Action)
    requires Isolated(cfg, m)
    ensures var l := AtomicStep(cfg, m, a);
            Act(cfg, m, a).w == if l.Some? then Step(cfg, m.w, l.value) else m.w
  {
    match a {
      case Statement(p) =>
        if p in m.txns { if m.txns[p].Claiming() { ClaimRefines(cfg, m, p); } else { CommitRefines(cfg, m, p); } }
      case _ =>
    }
  }

  /* ---------- isolation is kept ---------- */

  // A view rests only on the rows its transaction has locked and on its own process.
  lemma ViewFrame(cfg: Config, w: Sys, w': Sys, p: Proc, t: Txn)
    requires View(cfg, w, p, t)
    requires p in w'.procs <==> p in w.procs
    requires p in w.procs ==> w'.procs[p] == w.procs[p]
    requires HoldsTask(cfg, t) ==> w'.rows.task == w.rows.task
    requires HoldsRun(t) ==> w'.rows.run == w.rows.run && w'.rows.log == w.rows.log
    requires !w.rows.run.status.Pending? ==> !w'.rows.run.status.Pending?
    ensures View(cfg, w', p, t)
  {
  }

  /** p's transaction moves on without touching the committed rows; locks only accumulate. */
  lemma Inside(cfg: Config, m: Db, p: Proc, t: Txn, taskLock: Option<Proc>, runLock: Option<Proc>)
    requires Isolated(cfg, m) && View(cfg, m.w, p, t)
    requires p in m.txns ==> (HoldsTask(cfg, m.txns[p]) ==> HoldsTask(cfg, t)) && (HoldsRun(m.txns[p]) ==> HoldsRun(t))
    requires if HoldsTask(cfg, t) then taskLock == Some(p) && m.taskLock in {None, Some(p)} else taskLock == m.taskLock
    requires if HoldsRun(t) then runLock == Some(p) && m.runLock in {None, Some(p)} else runLock == m.runLock
    ensures Isolated(cfg, Db(m.w, m.txns[p := t], taskLock, runLock))
  {
    assert p !in m.txns ==> m.taskLock != Some(p) && m.runLock != Some(p);
  }

  /** p's transaction ends and the world becomes w: nobody else's locked rows changed. */
  lemma Ending(cfg: Config, m: Db, p: Proc, w: Sys)
    requires Isolated(cfg, m)
    requires forall q :: q != p ==> (q in w.procs <==> q in m.w.procs) && (q in w.procs ==> w.procs[q] == m.w.procs[q])
    requires w.rows.task == m.w.rows.task || m.taskLock in {None, Some(p)}
    requires (w.rows.run == m.w.rows.run && w.rows.log == m.w.rows.log) || m.runLock in {None, Some(p)}
    requires !m.w.rows.run.status.Pending? ==> !w.rows.run.status.Pending?
    ensures Isolated(cfg, Close(m, p, w))
  {
    var m' := Close(m, p, w);
    forall q | q in m'.txns ensures View(cfg, w, q, m'.txns[q]) {
      ViewFrame(cfg, m.w, w, q, m.txns[q]);
    }
  }

  // The view after the next statement of a commit that stays open.
  lemma NextView(cfg: Config, m: Db, p: Proc)
    requires Isolated(cfg, m) && p in m.txns && !m.txns[p].Claiming() && p in RunStatement(cfg, m, p).txns
    ensures View(cfg, m.w, p, RunStatement(cfg, m, p).txns[p]) && !RunStatement(cfg, m, p).txns[p].Claiming()
  {
    assert View(cfg, m.w, p, m.txns[p]);
  }

  lemma CommitKeepsIsolation(cfg: Config, m: Db, p: Proc)
    requires Isolated(cfg, m) && ReadyMeansStarted(m.w) && p in m.txns && !m.txns[p].Claiming()
    ensures Isolated(cfg, RunStatement(cfg, m, p))
  {
    var t, m' := m.txns[p], RunStatement(cfg, m, p);
    assert View(cfg, m.w, p, t);
    if p in m'.txns {
      NextView(cfg, m, p);
      if m' != m { Inside(cfg, m, p, m'.txns[p], m'.taskLock, m'.runLock); }
    } else {
      CommitEnds(cfg, m, p);
    }
  }

  lemma CommitEnds(cfg: Config, m: Db, p: Proc)
    requires Isolated(cfg, m) && ReadyMeansStarted(m.w) && p in m.txns && !m.txns[p].Claiming()
    requires p !in RunStatement(cfg, m, p).txns
    ensures Isolated(cfg, RunStatement(cfg, m, p))
  {
    assert View(cfg, m.w, p, m.txns[p]);
    Ending(cfg, m, p, RunStatement(cfg, m, p).w);
  }

  lemma ClaimKeepsIsolation(cfg: Config, m: Db, p: Proc)
    requires Isolated(cfg, m) && p in m.txns && m.txns[p].Claiming()
    ensures Isolated(cfg, RunStatement(cfg, m, p))
  {
    var t, m' := m.txns[p], RunStatement(cfg, m, p);
    assert View(cfg, m.w, p, t);
    if p in m'.txns {
      if m' != m { Inside(cfg, m, p, m'.txns[p], m'.taskLock, m'.runLock); }
    } else {
      Ending(cfg, m, p, m'.w);
    }
  }

  lemma OutsideKeepsIsolation(cfg: Config, m: Db, l: Label)
    requires Isolated(cfg, m)
    ensures Isolated(cfg, RunOutside(cfg, m, l))
  {
    if MayRun(m, l) {
      var w := Step(cfg, m.w, l);
      StepRows(cfg, m.w, l);
      forall q | !Actor(l, q)
        ensures (q in w.procs <==> q in m.w.procs) && (q in w.procs ==> w.procs[q] == m.w.procs[q])
      {
        StepOthers(cfg, m.w, l, q);
      }
      if !l.Reap? && (l.Crash? || Left(m, w, l.p)) {
        Ending(cfg, m, l.p, w);
      } else {
        forall q | q in m.txns ensures View(cfg, w, q, m.txns[q]) {
          assert View(cfg, m.w, q, m.txns[q]);
          ViewFrame(cfg, m.w, w, q, m.txns[q]);
        }
      }
    }
  }

  /** What an open transaction has read and written privately stays in step with the rows. */
  lemma ActKeepsIsolation(cfg: Config, m: Db, a: Action)
    requires Isolated(cfg, m) && ReadyMeansStarted(m.w)
    ensures Isolated(cfg, Act(cfg, m, a))
  {
    match a {
      case Outside(l) => OutsideKeepsIsolation(cfg, m, l);
      case BeginCommit(p, now) =>
        if Act(cfg, m, a) != m { Inside(cfg, m, p, Begun(now), m.taskLock, m.runLock); }
      case BeginClaim(p, worker, now, lease) =>
        if Act(cfg, m, a) != m { Inside(cfg, m, p, Selected(now, worker, lease), Some(p), m.runLock); }
      case Statement(p) =>
        if p in m.txns {
          if m.txns[p].Claiming() { ClaimKeepsIsolation(cfg, m, p); } else { CommitKeepsIsolation(cfg, m, p); }
        }
    }
  }

  lemma BaseIsStarted(cfg: Config, w: Sys)
    requires Base(cfg, w)
    ensures ReadyMeansStarted(w)
  {
    forall p | p in w.procs && w.procs[p].Ready?
      ensures !w.rows.run.status.Pending? && !w.procs[p].out.status.Pending?
    {
      ReadyIsStarted(cfg, w, p);
    }
  }

  /* ---------- whole runs ---------- */

  ghost function Interleave(cfg: Config, m: Db, acts: seq<Action>): Db {
    if acts == [] then m else Act(cfg, Interleave(cfg, m, acts[..|acts| - 1]), acts[|acts| - 1])
  }

  function Quiet(w: Sys): Db { Db(w, map[], None, None) }

  ghost predicate ReachableDb(cfg: Config, m: Db) {
    exists now, acts :: m == Interleave(cfg, Quiet(Init(cfg, now)), acts)
  }

  lemma {:induction false} InterleavingIsARun(cfg: Config, now: int, acts: seq<Action>) returns (ls: seq<Label>)
    ensures var m := Interleave(cfg, Quiet(Init(cfg, now)), acts);
            Isolated(cfg, m) && m.w == Exec(cfg, Init(cfg, now), ls)
  {
    ls := [];
    if acts != [] {
      var pre, a := acts[..|acts| - 1], acts[|acts| - 1];
      ls := InterleavingIsARun(cfg, now, pre);
      var m := Interleave(cfg, Quiet(Init(cfg, now)), pre);
      assert Reachable(cfg, m.w);
      ReachableIsBase(cfg, m.w);
      BaseIsStarted(cfg, m.w);
      ActKeepsIsolation(cfg, m, a);
      ActRefines(cfg, m, a);
      if AtomicStep(cfg, m, a).Some? {
        assert (ls + [AtomicStep(cfg, m, a).value])[..|ls|] == ls;
        ls := ls + [AtomicStep(cfg, m, a).value];
      }
    }
  }

  /** Transaction refinement: the committed world of every reachable interleaving is a reachable
      state of the atomic protocol, so all that is proved of the latter holds of the former. */
  lemma InterleavingsRefineAtomic(cfg: Config, m: Db)
    requires ReachableDb(cfg, m)
    ensures Reachable(cfg, m.w) && Isolated(cfg, m) && ReadyMeansStarted(m.w)
  {
    var now, acts :| m == Interleave(cfg, Quiet(Init(cfg, now)), acts);
    var ls := InterleavingIsARun(cfg, now, acts);
    ReachableIsBase(cfg, m.w);
    BaseIsStarted(cfg, m.w);
  }

  /* ---------- every atomic run is an interleaving ---------- */

  lemma AdvanceDb(cfg: Config, m: Db, a: Action)
    requires ReachableDb(cfg, m)
    ensures ReachableDb(cfg, Act(cfg, m, a))
  {
    var now, acts :| m == Interleave(cfg, Quiet(Init(cfg, now)), acts);
    assert (acts + [a])[..|acts|] == acts;
    assert Act(cfg, m, a) == Interleave(cfg, Quiet(Init(cfg, now)), acts + [a]);
  }

  // p's transaction, which began at `now`, is the only one.
  ghost predicate Only(cfg: Config, m: Db, p: Proc, now: int) {
    && m.txns.Keys == {p} && m.txns[p].now == now && m.taskLock in {None, Some(p)} && m.runLock in {None, Some(p)}
    && Isolated(cfg, m) && ReadyMeansStarted(m.w)
  }

  // How many statements a commit or a claim can still have ahead.
  function StatementsAhead(t: Txn): nat {
    match t
    case Begun(_) => 9
    case Checked(_) => 8
    case RunLocked(_) => 7
    case Absent(_) => 6
    case Numbered(_, _) => 5
    case Inserted(_, _) => 4
    case Charged(_, _, _) => 3
    case TaskClosed(_, _, _, _) => 2
    case RunClosed(_, _, _, _) => 1
    case Found(_) => 1
    case Selected(_, _, _) => 3
    case Granted(_, _, _, _) => 2
    case Touched(_, _, _, _, _) => 1
  }

  // The step that p's transaction is to be.
  function Goal(p: Proc, t: Txn): Label {
    if t.Claiming() then ClaimTask(p, t.worker, t.now, t.lease) else Commit(p, t.now)
  }

  // Alone, a transaction never waits: it goes on, or ends as the whole step.
  lemma CommitGoesOn(cfg: Config, m: Db, p: Proc, now: int)
    requires Only(cfg, m, p, now) && !m.txns[p].Claiming() && p in RunStatement(cfg, m, p).txns
    ensures var m' := RunStatement(cfg, m, p);
            && m'.w == m.w && m'.txns.Keys == {p} && Goal(p, m'.txns[p]) == Goal(p, m.txns[p])
            && StatementsAhead(m'.txns[p]) < StatementsAhead(m.txns[p])
  {
    assert View(cfg, m.w, p, m.txns[p]);
  }

  lemma CommitIsOver(cfg: Config, m: Db, p: Proc, now: int)
    requires Only(cfg, m, p, now) && !m.txns[p].Claiming() && p !in RunStatement(cfg, m, p).txns
    ensures RunStatement(cfg, m, p) == Quiet(Step(cfg, m.w, Commit(p, now)))
  {
    assert View(cfg, m.w, p, m.txns[p]);
    CommitRefines(cfg, m, p);
  }

  lemma ClaimGoesOn(cfg: Config, m: Db, p: Proc, now: int)
    requires Only(cfg, m, p, now) && m.txns[p].Claiming()
    ensures var m', t := RunStatement(cfg, m, p), m.txns[p];
            if p in m'.txns
            then && m'.w == m.w && m'.txns.Keys == {p} && Goal(p, m'.txns[p]) == Goal(p, t)
                 && StatementsAhead(m'.txns[p]) < StatementsAhead(t)
            else m' == Quiet(Step(cfg, m.w, Goal(p, t)))
  {
    assert View(cfg, m.w, p, m.txns[p]);
    ClaimRefines(cfg, m, p);
  }

  // Only open transactions hold locks.
  lemma OwnLocks(cfg: Config, m: Db, p: Proc)
    requires Isolated(cfg, m) && m.txns.Keys == {p}
    ensures m.taskLock in {None, Some(p)} && m.runLock in {None, Some(p)}
  {
    if m.taskLock.Some? { assert m.taskLock.value in m.txns; }
    if m.runLock.Some? { assert m.runLock.value in m.txns; }
  }

  lemma {:induction false} RunsToItsEnd(cfg: Config, m: Db, p: Proc, now: int)
    requires ReachableDb(cfg, m) && Only(cfg, m, p, now)
    ensures ReachableDb(cfg, Quiet(Step(cfg, m.w, Goal(p, m.txns[p]))))
    decreases StatementsAhead(m.txns[p])
  {
    var m' := Act(cfg, m, Statement(p));
    AdvanceDb(cfg, m, Statement(p));
    ActKeepsIsolation(cfg, m, Statement(p));
    if m.txns[p].Claiming() {
      ClaimGoesOn(cfg, m, p, now);
    } else if p in m'.txns {
      CommitGoesOn(cfg, m, p, now);
    } else {
      CommitIsOver(cfg, m, p, now);
    }
    if p in m'.txns {
      OwnLocks(cfg, m', p);
      RunsToItsEnd(cfg, m', p, now);
    }
  }

  lemma QuietIsOnly(cfg: Config, w: Sys, p: Proc, t: Txn, taskLock: Option<Proc>)
    requires Reachable(cfg, w) && View(cfg, w, p, t) && (t.Begun? || t.Selected?)
    requires taskLock == if t.Selected? then Some(p) else None
    ensures Only(cfg, Db(w, map[p := t], taskLock, None), p, t.now)
  {
    ReachableIsBase(cfg, w);
    BaseIsStarted(cfg, w);
  }

  lemma OutsideStep(cfg: Config, w: Sys, l: Label)
    requires !l.ClaimTask? && !l.Commit?
    ensures RunOutside(cfg, Quiet(w), l) == Quiet(Step(cfg, w, l))
  {
  }

  lemma StepInterleaves(cfg: Config, w: Sys, l: Label)
    requires Reachable(cfg, w) && ReachableDb(cfg, Quiet(w))
    ensures ReachableDb(cfg, Quiet(Step(cfg, w, l)))
  {
    match l {
      case Commit(p, now) =>
        if p in w.procs && w.procs[p].Ready? {
          AdvanceDb(cfg, Quiet(w), BeginCommit(p, now));
          QuietIsOnly(cfg, w, p, Begun(now), None);
          RunsToItsEnd(cfg, Db(w, map[p := Begun(now)], None, None), p, now);
        }
      case ClaimTask(p, worker, now, lease) =>
        if p !in w.procs && Claimable(w.rows.task, now) {
          AdvanceDb(cfg, Quiet(w), BeginClaim(p, worker, now, lease));
          QuietIsOnly(cfg, w, p, Selected(now, worker, lease), Some(p));
          RunsToItsEnd(cfg, Db(w, map[p := Selected(now, worker, lease)], Some(p), None), p, now);
        }
      case _ =>
        AdvanceDb(cfg, Quiet(w), Outside(l));
        OutsideStep(cfg, w, l);
    }
  }

  /** Every run of the atomic protocol is the committed world of an interleaving, with all
      transactions closed: the statements lose none of its behaviours. */
  lemma {:induction false} AtomicRunsInterleave(cfg: Config, now: int, ls: seq<Label>)
    ensures ReachableDb(cfg, Quiet(Exec(cfg, Init(cfg, now), ls)))
  {
    if ls == [] {
      assert Quiet(Init(cfg, now)) == Interleave(cfg, Quiet(Init(cfg, now)), []);
    } else {
      var pre := ls[..|ls| - 1];
      AtomicRunsInterleave(cfg, now, pre);
      StepInterleaves(cfg, Exec(cfg, Init(cfg, now), pre), ls[|ls| - 1]);
    }
  }

  /* ---------- waiting ---------- */

  // p's next statement needs a lock that q holds.
  predicate WaitsFor(cfg: Config, m: Db, p: Proc, q: Proc) {
    && p in m.txns && q in m.txns && p != q
    && match m.txns[p]
       case Begun(now) => cfg.fenced && m.taskLock == Some(q) && p in m.w.procs
                          && HoldsLease(m.w.rows.task, m.w.procs[p].claim, now)
       case Checked(_) => m.runLock == Some(q)
       case Charged(_, _, _) => p in m.w.procs && m.w.procs[p].Ready? && m.w.procs[p].out.final && m.taskLock == Some(q)
       case Granted(_, _, _, _) => m.w.rows.run.status.Pending? && m.runLock == Some(q)
       case _ => false
  }

  // How far a transaction still is from its last lock.
  function LocksAhead(t: Txn): nat {
    if t.Begun? then 3 else if t.Checked? then 2 else if t.Charged? then 1 else 0
  }

  lemma CommitIsStarted(cfg: Config, m: Db, q: Proc)
    requires Isolated(cfg, m) && ReadyMeansStarted(m.w) && q in m.txns && !m.txns[q].Claiming()
    ensures !m.w.rows.run.status.Pending?
  {
    assert View(cfg, m.w, q, m.txns[q]);
  }

  /** A claim never waits for the run row: a commit that holds it found the run started, and two
      claims cannot both hold the task row. */
  lemma ClaimsNeverWait(cfg: Config, m: Db, p: Proc, q: Proc)
    requires Isolated(cfg, m) && ReadyMeansStarted(m.w) && p in m.txns && m.txns[p].Claiming()
    ensures !WaitsFor(cfg, m, p, q)
  {
    if q in m.txns && !m.txns[q].Claiming() { CommitIsStarted(cfg, m, q); }
  }

  lemma CommitWaitsDown(cfg: Config, m: Db, p: Proc, q: Proc)
    requires Isolated(cfg, m) && WaitsFor(cfg, m, p, q) && !m.txns[p].Claiming()
    ensures LocksAhead(m.txns[q]) < LocksAhead(m.txns[p])
  {
  }

  /** Fenced or not, along any chain of waiting transactions the locks ahead fall, so there is no
      cycle. With the fence the task row comes before the run row; without it, a final commit takes
      the task row last, and can then wait only for a claim, which never waits. */
  lemma WaitingIsAcyclic(cfg: Config, m: Db, p: Proc, q: Proc)
    requires Isolated(cfg, m) && ReadyMeansStarted(m.w) && WaitsFor(cfg, m, p, q)
    ensures LocksAhead(m.txns[q]) < LocksAhead(m.txns[p])
  {
    if m.txns[p].Claiming() { ClaimsNeverWait(cfg, m, p, q); } else { CommitWaitsDown(cfg, m, p, q); }
  }

  /** A transaction that waits for nobody can execute its next statement. */
  lemma UnblockedRuns(cfg: Config, m: Db, p: Proc)
    requires Isolated(cfg, m) && p in m.txns
    requires forall q :: !WaitsFor(cfg, m, p, q)
    ensures Act(cfg, m, Statement(p)) != m
  {
    assert View(cfg, m.w, p, m.txns[p]);
    if m.taskLock.Some? { assert !WaitsFor(cfg, m, p, m.taskLock.value); }
    if m.runLock.Some? { assert !WaitsFor(cfg, m, p, m.runLock.value); }
  }

  /** No deadlock: while transactions are open, one of them can execute its next statement. */
  lemma {:induction false} SomebodyRuns(cfg: Config, m: Db, p: Proc) returns (q: Proc)
    requires Isolated(cfg, m) && ReadyMeansStarted(m.w) && p in m.txns
    ensures q in m.txns && Act(cfg, m, Statement(q)) != m
    decreases LocksAhead(m.txns[p])
  {
    if forall r :: !WaitsFor(cfg, m, p, r) {
      UnblockedRuns(cfg, m, p);
      q := p;
    } else {
      var r :| WaitsFor(cfg, m, p, r);
      WaitingIsAcyclic(cfg, m, p, r);
      q := SomebodyRuns(cfg, m, r);
    }
  }
}
