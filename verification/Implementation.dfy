/** The tables updated in place do what the fleet's statements say: each method on the database is
    one statement of the fleet, or for complete_cached the four of them in a row. */
module Implementation {
  import opened Options
  import opened Store
  import opened Budget
  import opened Agent
  import opened Leases
  import opened Engine
  import opened Protocol
  import opened Fleet
  import opened Tables
  import Guarantees

  // The tables as a value.
  datatype Snapshot = Snapshot(runs: map<RunId, RunRow>, tasks: map<TaskId, TaskRow>, runOf: map<TaskId, RunId>,
                               events: map<RunId, seq<Event>>, cache: map<CacheKey, Response>,
                               calls: seq<(RunId, Call)>)

  function Contents(db: Database): Snapshot
    reads db
  {
    Snapshot(db.runs, db.tasks, db.runOf, db.events, db.cache, db.calls)
  }

  // The tables hold the rows, answers and calls of the world.
  ghost predicate Shows(t: Snapshot, cfgs: Configs, g: World) {
    && t.runs.Keys == t.events.Keys == g.rows.Keys <= cfgs.Keys && t.runOf.Keys == t.tasks.Keys
    && t.cache == g.cache && t.calls == g.calls
    && RunsShown(t, cfgs, g) && TasksShown(t, cfgs, g)
  }

  ghost predicate RunsShown(t: Snapshot, cfgs: Configs, g: World)
    requires t.runs.Keys == t.events.Keys == g.rows.Keys <= cfgs.Keys
  {
    forall run :: run in g.rows ==> ShowsRun(t, cfgs, g, run)
  }

  // Every task is that of a run.
  ghost predicate TasksShown(t: Snapshot, cfgs: Configs, g: World)
    requires t.runOf.Keys == t.tasks.Keys && g.rows.Keys <= cfgs.Keys
  {
    forall task :: task in t.tasks ==> t.runOf[task] in g.rows && cfgs[t.runOf[task]].task == task
  }

  ghost predicate ShowsRun(t: Snapshot, cfgs: Configs, g: World, run: RunId)
    requires run in g.rows && run in t.runs && run in t.events && run in cfgs
  {
    var task := cfgs[run].task;
    && task in t.tasks && task in t.runOf && t.runOf[task] == run
    && g.rows[run] == Rows(t.runs[run], t.tasks[task], t.events[run])
  }

  // The database shows the world of some course, and its fence is that of every run.
  ghost predicate Holds(db: Database, cfgs: Configs, g: World)
    reads db
  {
    && WellFormed(cfgs, g) && OnCourse(cfgs, g) && Shows(Contents(db), cfgs, g)
    && forall run :: run in cfgs ==> cfgs[run].fenced == db.fenced
  }

  lemma HoldsIsValid(db: Database, cfgs: Configs, g: World)
    requires Holds(db, cfgs, g)
    ensures db.Valid()
  {
  }

  // Process p works under claim c on a run of the world.
  predicate WorksFor(cfgs: Configs, g: World, p: Proc, c: Claim) {
    p in g.procs && g.procs[p].claim == c && c.run in g.rows && c.run in cfgs && c.task == cfgs[c.run].task
  }

  /* ---------- what one statement changes ---------- */

  // g' is g with new rows for one run, and the same answers and calls.
  ghost predicate RowsSet(cfgs: Configs, g: World, g': World, run: RunId, rows: Rows) {
    WellFormed(cfgs, g') && g'.rows == g.rows[run := rows] && g'.cache == g.cache && g'.calls == g.calls
  }

  // Labels that are single statements on the rows.
  predicate OnRowsOnly(l: Label) {
    l.ClaimTask? || l.Heartbeat? || l.ReleaseTask? || l.Commit? || l.ReadLog?
  }

  lemma RowStatement(cfgs: Configs, g: World, run: RunId, l: Label) returns (g': World)
    requires WellFormed(cfgs, g) && run in g.rows && Enabled(g, run, l) && OnRowsOnly(l)
    ensures g' == Act(cfgs, g, On(run, l))
    ensures RowsSet(cfgs, g, g', run, Step(cfgs[run], View(g, run), l).rows)
    ensures forall p :: p in Step(cfgs[run], View(g, run), l).procs ==>
              p in g'.procs && g'.procs[p] == Step(cfgs[run], View(g, run), l).procs[p]
  {
    g' := Act(cfgs, g, On(run, l));
    ActKeepsForm(cfgs, g, On(run, l));
    StepCache(cfgs[run], View(g, run), l);
    StepCalls(cfgs[run], View(g, run), l);
  }

  lemma ClaimStep(cfg: Config, s: Sys, p: Proc, worker: WorkerId, now: int, lease: int)
    requires p !in s.procs && Claimable(s.rows.task, now)
    ensures var s', t := Step(cfg, s, ClaimTask(p, worker, now, lease)), s.rows.task;
            && s'.rows == Rows(Started(s.rows.run), Grant(t, worker, now, lease), s.rows.log)
            && p in s'.procs && s'.procs[p] == Loop(Claim(cfg.task, cfg.run, worker, t.attempt + 1), false)
  {
  }

  lemma ClaimStatement(cfgs: Configs, g: World, run: RunId, p: Proc, worker: WorkerId, now: int, lease: int)
    returns (g': World)
    requires WellFormed(cfgs, g) && run in g.rows && p !in g.procs && Claimable(g.rows[run].task, now)
    ensures g' == Act(cfgs, g, On(run, ClaimTask(p, worker, now, lease)))
    ensures var rows := g.rows[run];
            && RowsSet(cfgs, g, g', run, Rows(Started(rows.run), Grant(rows.task, worker, now, lease), rows.log))
            && p in g'.procs && g'.procs[p] == Loop(Claim(cfgs[run].task, run, worker, rows.task.attempt + 1), false)
  {
    ClaimStep(cfgs[run], View(g, run), p, worker, now, lease);
    g' := RowStatement(cfgs, g, run, ClaimTask(p, worker, now, lease));
  }

  lemma HeartbeatStatement(cfgs: Configs, g: World, run: RunId, p: Proc, now: int, lease: int) returns (g': World)
    requires WellFormed(cfgs, g) && run in g.rows && p in g.procs && g.procs[p].claim.run == run
    ensures g' == Act(cfgs, g, On(run, Heartbeat(p, now, lease)))
    ensures var rows := g.rows[run];
            RowsSet(cfgs, g, g', run, if HoldsLease(rows.task, g.procs[p].claim, now)
                                      then rows.(task := Renew(rows.task, now, lease)) else rows)
  {
    g' := RowStatement(cfgs, g, run, Heartbeat(p, now, lease));
  }

  lemma ReleaseStatement(cfgs: Configs, g: World, run: RunId, p: Proc, now: int, backoff: int) returns (g': World)
    requires WellFormed(cfgs, g) && run in g.rows && p in g.procs && g.procs[p].claim.run == run
    requires g.procs[p].Releasing?
    ensures g' == Act(cfgs, g, On(run, ReleaseTask(p, now, backoff)))
    ensures var rows := g.rows[run];
            RowsSet(cfgs, g, g', run, if Carries(rows.task, g.procs[p].claim)
                                      then rows.(task := Release(rows.task, now, backoff)) else rows)
  {
    g' := RowStatement(cfgs, g, run, ReleaseTask(p, now, backoff));
  }

  lemma CommitStatement(cfgs: Configs, g: World, run: RunId, p: Proc, now: int) returns (g': World)
    requires WellFormed(cfgs, g) && run in g.rows && p in g.procs && g.procs[p].claim.run == run && g.procs[p].Ready?
    ensures g' == Act(cfgs, g, On(run, Commit(p, now)))
    ensures var at := g.procs[p];
            RowsSet(cfgs, g, g', run, CommitRows(cfgs[run].fenced, g.rows[run], at.claim, now, at.n, at.out))
  {
    g' := RowStatement(cfgs, g, run, Commit(p, now));
  }

  lemma ReadStatement(cfgs: Configs, g: World, run: RunId, p: Proc) returns (g': World)
    requires WellFormed(cfgs, g) && run in g.rows && p in g.procs && g.procs[p].claim.run == run && g.procs[p].Loop?
    ensures g' == Act(cfgs, g, On(run, ReadLog(p))) && RowsSet(cfgs, g, g', run, g.rows[run])
    ensures p in g'.procs && g'.procs[p] == Have(g.procs[p].claim, g.procs[p].mounted, g.rows[run].log)
  {
    g' := RowStatement(cfgs, g, run, ReadLog(p));
    assert p in Step(cfgs[run], View(g, run), ReadLog(p)).procs;
  }

  lemma SubmitStatement(cfgs: Configs, g: World, run: RunId, now: int) returns (g': World)
    requires WellFormed(cfgs, g) && run in cfgs && run !in g.rows
    ensures g' == Act(cfgs, g, Submit(run, now)) && RowsSet(cfgs, g, g', run, FreshRows(cfgs[run].budget, now))
  {
    SubmitKeepsForm(cfgs, g, run, now);
    g' := Act(cfgs, g, Submit(run, now));
  }

  lemma ReapStatement(cfgs: Configs, g: World, now: int, skipped: set<RunId>) returns (g': World)
    requires WellFormed(cfgs, g)
    ensures g' == Act(cfgs, g, ReapAll(now, skipped)) && WellFormed(cfgs, g') && g' == Reaped(g, now, skipped)
  {
    ReapKeepsForm(cfgs, g, now, skipped);
    g' := Reaped(g, now, skipped);
  }

  /* ---------- the tables after a statement ---------- */

  // t with new rows for one run and its task.
  function SetRows(t: Snapshot, run: RunId, task: TaskId, rows: Rows): Snapshot {
    t.(runs := t.runs[run := rows.run], tasks := t.tasks[task := rows.task], events := t.events[run := rows.log])
  }

  lemma RunsChanged(t: Snapshot, cfgs: Configs, g: World, g': World, run: RunId, rows: Rows)
    requires Shows(t, cfgs, g) && run in g.rows && g'.rows == g.rows[run := rows]
    ensures var t' := SetRows(t, run, cfgs[run].task, rows);
            t'.runs.Keys == t'.events.Keys == g'.rows.Keys <= cfgs.Keys && RunsShown(t', cfgs, g')
  {
    assert ShowsRun(t, cfgs, g, run);
    var t' := SetRows(t, run, cfgs[run].task, rows);
    forall r | r in g'.rows ensures ShowsRun(t', cfgs, g', r) { assert ShowsRun(t, cfgs, g, r); }
  }

  lemma RunChanged(t: Snapshot, t': Snapshot, cfgs: Configs, g: World, g': World, run: RunId, rows: Rows)
    requires Shows(t, cfgs, g) && run in g.rows && RowsSet(cfgs, g, g', run, rows)
    requires t' == SetRows(t, run, cfgs[run].task, rows)
    ensures Shows(t', cfgs, g')
  {
    assert ShowsRun(t, cfgs, g, run);
    RunsChanged(t, cfgs, g, g', run, rows);
  }

  lemma RunsAdded(t: Snapshot, cfgs: Configs, g: World, g': World, run: RunId, rows: Rows)
    requires Shows(t, cfgs, g) && run in cfgs && run !in g.rows && cfgs[run].task !in t.tasks
    requires g'.rows == g.rows[run := rows]
    ensures var t' := SetRows(t, run, cfgs[run].task, rows).(runOf := t.runOf[cfgs[run].task := run]);
            t'.runs.Keys == t'.events.Keys == g'.rows.Keys <= cfgs.Keys && RunsShown(t', cfgs, g')
  {
    var t' := SetRows(t, run, cfgs[run].task, rows).(runOf := t.runOf[cfgs[run].task := run]);
    forall r | r in g'.rows ensures ShowsRun(t', cfgs, g', r) {
      if r != run { assert ShowsRun(t, cfgs, g, r); }
    }
  }

  lemma RunAdded(t: Snapshot, t': Snapshot, cfgs: Configs, g: World, g': World, run: RunId, rows: Rows)
    requires Shows(t, cfgs, g) && run in cfgs && run !in g.rows && cfgs[run].task !in t.tasks
    requires g'.rows == g.rows[run := rows] && g'.cache == g.cache && g'.calls == g.calls
    requires t' == SetRows(t, run, cfgs[run].task, rows).(runOf := t.runOf[cfgs[run].task := run])
    ensures Shows(t', cfgs, g')
  {
    RunsAdded(t, cfgs, g, g', run, rows);
    TasksAdded(t, t', cfgs, g, g', run);
  }

  lemma TasksAdded(t: Snapshot, t': Snapshot, cfgs: Configs, g: World, g': World, run: RunId)
    requires Shows(t, cfgs, g) && run in cfgs && run in g'.rows && g.rows.Keys <= g'.rows.Keys <= cfgs.Keys
    requires t'.runOf == t.runOf[cfgs[run].task := run] && t'.tasks.Keys == t.tasks.Keys + {cfgs[run].task}
    ensures t'.runOf.Keys == t'.tasks.Keys && TasksShown(t', cfgs, g')
  {
  }

  lemma ReapShown(t: Snapshot, t': Snapshot, cfgs: Configs, g: World, now: int, locked: set<TaskId>)
    requires Shows(t, cfgs, g) && t' == t.(tasks := t'.tasks) && t'.tasks.Keys == t.tasks.Keys
    requires forall k :: k in t.tasks ==>
               t'.tasks[k] == if k !in locked && Reapable(t.tasks[k], now) then Requeue(t.tasks[k]) else t.tasks[k]
    ensures Shows(t', cfgs, Reaped(g, now, set run | run in g.rows && cfgs[run].task in locked))
  {
    var skipped := set run | run in g.rows && cfgs[run].task in locked;
    forall run | run in g.rows ensures ShowsRun(t', cfgs, Reaped(g, now, skipped), run) {
      assert ShowsRun(t, cfgs, g, run);
    }
  }

  lemma ClaimIsKnown(db: Database, cfgs: Configs, g: World, p: Proc, c: Claim)
    requires Holds(db, cfgs, g) && WorksFor(cfgs, g, p, c)
    ensures db.Knows(c) && db.RowsOf(c) == g.rows[c.run] && cfgs[c.run].fenced == db.fenced
  {
    assert ShowsRun(Contents(db), cfgs, g, c.run);
  }

  // A map that is set to what it holds stays.
  lemma SameEntry<K, V>(m: map<K, V>, k: K)
    requires k in m
    ensures m[k := m[k]] == m
  {
  }

  lemma CourseIsGapless(cfgs: Configs, g: World, run: RunId)
    requires WellFormed(cfgs, g) && OnCourse(cfgs, g) && run in g.rows
    ensures Gapless(run, g.rows[run].log)
  {
    CourseIsReachable(cfgs, g, run);
    Guarantees.IdempotencyAlone(cfgs[run], Cell(g, run));
  }

  /* ---------- the methods ---------- */

  // Empty tables are where a course begins.
  method Starts(fenced: bool, ghost cfgs: Configs) returns (db: Database)
    requires forall run :: run in cfgs ==> cfgs[run].run == run && cfgs[run].fenced == fenced
    ensures fresh(db) && db.fenced == fenced && Holds(db, cfgs, EMPTY)
  {
    db := new Database(fenced);
    assert EMPTY == Course(cfgs, []);
  }

  method Submits(db: Database, ghost cfgs: Configs, ghost g: World, run: RunId, task: TaskId, budget: real, now: int)
    returns (ghost g': World)
    requires Holds(db, cfgs, g) && run !in db.runs && task !in db.tasks
    requires run in cfgs && cfgs[run].task == task && cfgs[run].budget == budget
    modifies db
    ensures g' == Act(cfgs, g, Submit(run, now)) && Holds(db, cfgs, g')
  {
    HoldsIsValid(db, cfgs, g);
    ghost var t := Contents(db);
    g' := SubmitStatement(cfgs, g, run, now);
    CourseGoesOn(cfgs, g, Submit(run, now), g');
    db.SubmitRun(run, task, budget, now);
    RunAdded(t, Contents(db), cfgs, g, g', run, FreshRows(budget, now));
  }

  // The tables after claim_task granted c.
  predicate Granted(t: Snapshot, t': Snapshot, worker: WorkerId, now: int, lease: int, c: Claim) {
    && c.task in t.tasks && c.task in t.runOf && c.run == t.runOf[c.task] && c.worker == worker && c.run in t.runs
    && Claimable(t.tasks[c.task], now) && c.attempt == t.tasks[c.task].attempt + 1
    && t' == t.(tasks := t.tasks[c.task := Grant(t.tasks[c.task], worker, now, lease)],
                runs := t.runs[c.run := Started(t.runs[c.run])])
  }

  // claim_task in terms of the whole tables.
  method ClaimsRow(db: Database, worker: WorkerId, now: int, lease: int, locked: set<TaskId>)
    returns (claim: Option<Claim>)
    requires db.Valid()
    modifies db
    ensures claim == None ==> Contents(db) == old(Contents(db))
    ensures claim.Some? ==> Granted(old(Contents(db)), Contents(db), worker, now, lease, claim.value)
  {
    claim := db.ClaimTask(worker, now, lease, locked);
  }

  function ClaimedRows(rows: Rows, worker: WorkerId, now: int, lease: int): Rows {
    Rows(Started(rows.run), Grant(rows.task, worker, now, lease), rows.log)
  }

  // A granted claim names a run of the world and its task.
  lemma GrantedIsOurs(t: Snapshot, t': Snapshot, cfgs: Configs, g: World, worker: WorkerId, now: int, lease: int,
                      c: Claim)
    requires Shows(t, cfgs, g) && Granted(t, t', worker, now, lease, c)
    ensures c.run in g.rows && c.task == cfgs[c.run].task && g.rows[c.run].task == t.tasks[c.task]
  {
    assert ShowsRun(t, cfgs, g, c.run);
  }

  lemma ClaimShown(t: Snapshot, t': Snapshot, cfgs: Configs, g: World, g': World, worker: WorkerId, now: int,
                   lease: int, c: Claim)
    requires Shows(t, cfgs, g) && Granted(t, t', worker, now, lease, c) && c.run in g.rows
    requires RowsSet(cfgs, g, g', c.run, ClaimedRows(g.rows[c.run], worker, now, lease))
    ensures Shows(t', cfgs, g')
  {
    GrantedIsOurs(t, t', cfgs, g, worker, now, lease, c);
    assert ShowsRun(t, cfgs, g, c.run);
    SameEntry(t.events, c.run);
    RunChanged(t, t', cfgs, g, g', c.run, ClaimedRows(g.rows[c.run], worker, now, lease));
  }

  lemma ClaimActs(t: Snapshot, t': Snapshot, cfgs: Configs, g: World, p: Proc, worker: WorkerId, now: int, lease: int,
                  c: Claim)
    returns (g': World)
    requires WellFormed(cfgs, g) && Shows(t, cfgs, g) && p !in g.procs && Granted(t, t', worker, now, lease, c)
    ensures g' == Act(cfgs, g, On(c.run, ClaimTask(p, worker, now, lease))) && WellFormed(cfgs, g') && c.run in g.rows
    ensures Shows(t', cfgs, g') && p in g'.procs && g'.procs[p] == Loop(c, false)
  {
    GrantedIsOurs(t, t', cfgs, g, worker, now, lease, c);
    g' := ClaimStatement(cfgs, g, c.run, p, worker, now, lease);
    ClaimShown(t, t', cfgs, g, g', worker, now, lease, c);
  }

  method Claims(db: Database, ghost cfgs: Configs, ghost g: World, ghost p: Proc, worker: WorkerId, now: int,
                lease: int, locked: set<TaskId>)
    returns (claim: Option<Claim>, ghost g': World)
    requires Holds(db, cfgs, g) && p !in g.procs
    modifies db
    ensures Holds(db, cfgs, g')
    ensures claim == None ==> g' == g
    ensures claim.Some? ==> claim.value.run in g.rows
                            && g' == Act(cfgs, g, On(claim.value.run, ClaimTask(p, worker, now, lease)))
                            && p in g'.procs && g'.procs[p] == Loop(claim.value, false)
  {
    HoldsIsValid(db, cfgs, g);
    ghost var t := Contents(db);
    claim := ClaimsRow(db, worker, now, lease, locked);
    g' := g;
    if claim.Some? {
      g' := ClaimActs(t, Contents(db), cfgs, g, p, worker, now, lease, claim.value);
      CourseGoesOn(cfgs, g, On(claim.value.run, ClaimTask(p, worker, now, lease)), g');
    }
  }

  // heartbeat in terms of the whole tables.
  method BeatsRow(db: Database, c: Claim, now: int, lease: int) returns (alive: bool)
    requires db.Knows(c)
    modifies db
    ensures alive == HoldsLease(old(db.tasks[c.task]), c, now) && c.task in db.tasks
    ensures db.tasks[c.task] == if alive then Renew(old(db.tasks[c.task]), now, lease) else old(db.tasks[c.task])
    ensures Contents(db) == old(Contents(db)).(tasks := old(db.tasks)[c.task := db.tasks[c.task]])
  {
    alive := db.Heartbeat(c, now, lease);
  }

  method Beats(db: Database, ghost cfgs: Configs, ghost g: World, ghost p: Proc, c: Claim, now: int, lease: int)
    returns (alive: bool, ghost g': World)
    requires Holds(db, cfgs, g) && WorksFor(cfgs, g, p, c)
    modifies db
    ensures alive == HoldsLease(g.rows[c.run].task, c, now)
    ensures g' == Act(cfgs, g, On(c.run, Heartbeat(p, now, lease))) && Holds(db, cfgs, g')
  {
    ClaimIsKnown(db, cfgs, g, p, c);
    ghost var t, rows := Contents(db), g.rows[c.run];
    alive := BeatsRow(db, c, now, lease);
    g' := HeartbeatStatement(cfgs, g, c.run, p, now, lease);
    CourseGoesOn(cfgs, g, On(c.run, Heartbeat(p, now, lease)), g');
    OneTaskRow(t, Contents(db), c);
    RunChanged(t, Contents(db), cfgs, g, g', c.run, rows.(task := db.tasks[c.task]));
  }

  lemma OneTaskRow(t: Snapshot, t': Snapshot, c: Claim)
    requires c.run in t.runs && c.run in t.events && c.task in t.tasks && c.task in t'.tasks
    requires t' == t.(tasks := t.tasks[c.task := t'.tasks[c.task]])
    ensures t' == t.(runs := t.runs[c.run := t.runs[c.run]], tasks := t.tasks[c.task := t'.tasks[c.task]],
                     events := t.events[c.run := t.events[c.run]])
  {
    SameEntry(t.runs, c.run);
    SameEntry(t.events, c.run);
  }

  // release_task in terms of the whole tables.
  method ReleasesRow(db: Database, c: Claim, now: int, backoff: int) returns (ok: bool)
    requires db.Knows(c)
    modifies db
    ensures ok == Carries(old(db.tasks[c.task]), c) && c.task in db.tasks
    ensures db.tasks[c.task] == if ok then Release(old(db.tasks[c.task]), now, backoff) else old(db.tasks[c.task])
    ensures Contents(db) == old(Contents(db)).(tasks := old(db.tasks)[c.task := db.tasks[c.task]])
  {
    ok := db.ReleaseTask(c, now, backoff);
  }

  method Releases(db: Database, ghost cfgs: Configs, ghost g: World, ghost p: Proc, c: Claim, now: int, backoff: int)
    returns (ok: bool, ghost g': World)
    requires Holds(db, cfgs, g) && WorksFor(cfgs, g, p, c) && g.procs[p].Releasing?
    modifies db
    ensures ok == Carries(g.rows[c.run].task, c)
    ensures g' == Act(cfgs, g, On(c.run, ReleaseTask(p, now, backoff))) && Holds(db, cfgs, g')
  {
    ClaimIsKnown(db, cfgs, g, p, c);
    ghost var t, rows := Contents(db), g.rows[c.run];
    ok := ReleasesRow(db, c, now, backoff);
    g' := ReleaseStatement(cfgs, g, c.run, p, now, backoff);
    CourseGoesOn(cfgs, g, On(c.run, ReleaseTask(p, now, backoff)), g');
    OneTaskRow(t, Contents(db), c);
    RunChanged(t, Contents(db), cfgs, g, g', c.run, rows.(task := db.tasks[c.task]));
  }

  // commit_step in terms of the whole tables.
  method CommitsRows(db: Database, c: Claim, now: int, n: nat, out: Outcome) returns (r: CommitResult)
    requires db.Knows(c)
    modifies db
    ensures r == Replied(CommitReply(db.fenced, old(db.RowsOf(c)), c, now, n))
    ensures var t, rows := old(Contents(db)), CommitRows(db.fenced, old(db.RowsOf(c)), c, now, n, out);
            Contents(db) == t.(runs := t.runs[c.run := rows.run], tasks := t.tasks[c.task := rows.task],
                               events := t.events[c.run := rows.log])
  {
    r := db.CommitStep(c, now, n, out);
  }

  method Commits(db: Database, ghost cfgs: Configs, ghost g: World, ghost p: Proc, c: Claim, now: int, n: nat,
                 out: Outcome)
    returns (r: CommitResult, ghost g': World)
    requires Holds(db, cfgs, g) && WorksFor(cfgs, g, p, c)
    requires g.procs[p].Ready? && g.procs[p].n == n && g.procs[p].out == out
    modifies db
    ensures r == Replied(CommitReply(cfgs[c.run].fenced, g.rows[c.run], c, now, n))
    ensures g' == Act(cfgs, g, On(c.run, Commit(p, now))) && Holds(db, cfgs, g')
  {
    ClaimIsKnown(db, cfgs, g, p, c);
    ghost var t, rows := Contents(db), CommitRows(db.fenced, g.rows[c.run], c, now, n, out);
    r := CommitsRows(db, c, now, n, out);
    g' := CommitStatement(cfgs, g, c.run, p, now);
    CourseGoesOn(cfgs, g, On(c.run, Commit(p, now)), g');
    RunChanged(t, Contents(db), cfgs, g, g', c.run, rows);
  }

  method Reads(db: Database, ghost cfgs: Configs, ghost g: World, ghost p: Proc, c: Claim)
    returns (log: seq<Event>, ghost g': World)
    requires Holds(db, cfgs, g) && WorksFor(cfgs, g, p, c) && g.procs[p].Loop?
    ensures g' == Act(cfgs, g, On(c.run, ReadLog(p))) && Holds(db, cfgs, g')
    ensures p in g'.procs && g'.procs[p] == Have(c, g.procs[p].mounted, log)
  {
    ClaimIsKnown(db, cfgs, g, p, c);
    CourseIsGapless(cfgs, g, c.run);
    log := db.ReadEvents(c.run);
    g' := ReadStatement(cfgs, g, c.run, p);
    CourseGoesOn(cfgs, g, On(c.run, ReadLog(p)), g');
    ghost var t := Contents(db);
    SameEntry(t.tasks, c.task);
    OneTaskRow(t, t, c);
    RunChanged(t, t, cfgs, g, g', c.run, g.rows[c.run]);
  }

  // reap_expired in terms of the whole tables.
  method ReapsRows(db: Database, now: int, locked: set<TaskId>) returns (n: nat)
    requires db.Valid()
    modifies db
    ensures Contents(db) == old(Contents(db)).(tasks := db.tasks) && db.tasks.Keys == old(db.tasks).Keys
    ensures forall k :: k in old(db.tasks) ==>
              db.tasks[k] == if k !in locked && Reapable(old(db.tasks)[k], now) then Requeue(old(db.tasks)[k])
                             else old(db.tasks)[k]
  {
    n := db.ReapExpired(now, locked);
  }

  method Reaps(db: Database, ghost cfgs: Configs, ghost g: World, now: int, locked: set<TaskId>)
    returns (n: nat, ghost g': World)
    requires Holds(db, cfgs, g)
    modifies db
    ensures g' == Act(cfgs, g, ReapAll(now, set run | run in g.rows && cfgs[run].task in locked)) && Holds(db, cfgs, g')
  {
    HoldsIsValid(db, cfgs, g);
    ghost var t := Contents(db);
    g' := ReapStatement(cfgs, g, now, set run | run in g.rows && cfgs[run].task in locked);
    CourseGoesOn(cfgs, g, ReapAll(now, set run | run in g.rows && cfgs[run].task in locked), g');
    n := ReapsRows(db, now, locked);
    ReapShown(t, Contents(db), cfgs, g, now, locked);
  }

  /* ---------- complete_cached ---------- */

  // g' is g with other answers and calls, and p at `at`.
  ghost predicate MemorySet(cfgs: Configs, g: World, g': World, p: Proc, at: Local, cache: map<CacheKey, Response>,
                            calls: seq<(RunId, Call)>) {
    && WellFormed(cfgs, g') && g'.rows == g.rows && g'.cache == cache && g'.calls == calls
    && p in g'.procs && g'.procs[p] == at
  }

  // What a step of p gives that leaves the rows alone.
  ghost predicate Remembered(s: Sys, s': Sys, p: Proc, at: Local, cache: map<CacheKey, Response>, calls: seq<Call>) {
    s'.rows == s.rows && s'.cache == cache && s'.calls == s.calls + calls && p in s'.procs && s'.procs[p] == at
  }

  lemma MemoryStatement(cfgs: Configs, g: World, run: RunId, l: Label, at: Local, cache: map<CacheKey, Response>,
                        calls: seq<Call>)
    returns (g': World)
    requires WellFormed(cfgs, g) && run in g.rows && Enabled(g, run, l) && !l.Reap?
    requires Remembered(View(g, run), Step(cfgs[run], View(g, run), l), l.p, at, cache, calls)
    ensures g' == Act(cfgs, g, On(run, l)) && MemorySet(cfgs, g, g', l.p, at, cache, g.calls + Tagged(run, calls))
  {
    g' := Act(cfgs, g, On(run, l));
    ActKeepsForm(cfgs, g, On(run, l));
    var mine, known := View(g, run).calls, |View(g, run).calls|;
    assert (mine + calls)[known..] == calls;
    SameEntry(g.rows, run);
  }

  lemma LookUpStep(cfg: Config, s: Sys, p: Proc)
    requires cfg.spec.Coding? && p in s.procs && s.procs[p].Have? && s.procs[p].mounted
    requires CheckLimits(s.procs[p].log, cfg.budget, cfg.spec.maxSteps) == None
    ensures var c, log, key := s.procs[p].claim, s.procs[p].log, KeyFor(cfg, s.procs[p].log);
            Remembered(s, Step(cfg, s, NextStep(p)), p,
                       if key in s.cache then Answered(c, log, s.cache[key]) else Missed(c, log), s.cache, [])
  {
  }

  lemma RecordStep(cfg: Config, s: Sys, p: Proc)
    requires cfg.spec.Coding? && p in s.procs && s.procs[p].Missed?
    ensures var c, log := s.procs[p].claim, s.procs[p].log;
            Remembered(s, Step(cfg, s, RecordCall(p)), p, Called(c, log), s.cache,
                       [Call(|log|, KeyFor(cfg, log), c.attempt, c.worker)])
  {
  }

  lemma ReplyStep(cfg: Config, s: Sys, p: Proc, r: Response)
    requires cfg.spec.Coding? && p in s.procs && s.procs[p].Called?
    requires cfg.env.answers(Messages(cfg.spec.prompt, s.procs[p].log), r)
    ensures Remembered(s, Step(cfg, s, ProviderAnswers(p, r)), p,
                       Returned(s.procs[p].claim, s.procs[p].log, r), s.cache, [])
  {
  }

  lemma StoreStep(cfg: Config, s: Sys, p: Proc)
    requires cfg.spec.Coding? && p in s.procs && s.procs[p].Returned? && KeyFor(cfg, s.procs[p].log) !in s.cache
    ensures var c, log, r := s.procs[p].claim, s.procs[p].log, s.procs[p].answer;
            Remembered(s, Step(cfg, s, StoreAnswer(p)), p, Answered(c, log, r),
                       s.cache[KeyFor(cfg, log) := Stored(r)], [])
  {
  }

  // p works on the run and is about to look its step up.
  predicate LooksUp(cfgs: Configs, g: World, p: Proc, run: RunId) {
    && run in g.rows && run in cfgs && p in g.procs && g.procs[p].claim.run == run && cfgs[run].spec.Coding?
    && g.procs[p].Have? && g.procs[p].mounted
    && CheckLimits(g.procs[p].log, cfgs[run].budget, cfgs[run].spec.maxSteps) == None
  }

  // A hit is one statement.
  lemma HitStatement(cfgs: Configs, g: World, run: RunId, p: Proc) returns (g': World)
    requires WellFormed(cfgs, g) && LooksUp(cfgs, g, p, run) && KeyFor(cfgs[run], g.procs[p].log) in g.cache
    ensures g' == Act(cfgs, g, On(run, NextStep(p)))
    ensures var c, log := g.procs[p].claim, g.procs[p].log;
            MemorySet(cfgs, g, g', p, Answered(c, log, g.cache[KeyFor(cfgs[run], log)]), g.cache, g.calls)
  {
    var c, log := g.procs[p].claim, g.procs[p].log;
    LookUpStep(cfgs[run], View(g, run), p);
    g' := MemoryStatement(cfgs, g, run, NextStep(p), Answered(c, log, g.cache[KeyFor(cfgs[run], log)]), g.cache, []);
    assert g.calls + Tagged(run, []) == g.calls;
  }

  // One statement after some others.
  lemma ThenAct(cfgs: Configs, g: World, es: seq<Statement>, g1: World, e: Statement, g': World)
    requires WellFormed(cfgs, g) && g1 == Acts(cfgs, g, es) && g' == Act(cfgs, g1, e)
    ensures g' == Acts(cfgs, g, es + [e])
  {
    OneMoreAct(cfgs, g, es, e);
  }

  // The record of a call is one.
  lemma RecordStatement(cfgs: Configs, g: World, run: RunId, p: Proc) returns (g': World)
    requires WellFormed(cfgs, g) && run in g.rows && p in g.procs && g.procs[p].claim.run == run && g.procs[p].Missed?
    requires cfgs[run].spec.Coding?
    ensures g' == Act(cfgs, g, On(run, RecordCall(p)))
    ensures var c, log := g.procs[p].claim, g.procs[p].log;
            MemorySet(cfgs, g, g', p, Called(c, log), g.cache,
                      g.calls + [(run, Call(|log|, KeyFor(cfgs[run], log), c.attempt, c.worker))])
  {
    var c, log := g.procs[p].claim, g.procs[p].log;
    RecordStep(cfgs[run], View(g, run), p);
    var call := Call(|log|, KeyFor(cfgs[run], log), c.attempt, c.worker);
    g' := MemoryStatement(cfgs, g, run, RecordCall(p), Called(c, log), g.cache, [call]);
    assert Tagged(run, [call]) == [(run, call)];
  }

  // A miss and the record of the call are two.
  lemma MissStatements(cfgs: Configs, g: World, run: RunId, p: Proc) returns (g': World)
    requires WellFormed(cfgs, g) && LooksUp(cfgs, g, p, run) && KeyFor(cfgs[run], g.procs[p].log) !in g.cache
    ensures g' == Acts(cfgs, g, [] + [On(run, NextStep(p))] + [On(run, RecordCall(p))])
    ensures var c, log := g.procs[p].claim, g.procs[p].log;
            MemorySet(cfgs, g, g', p, Called(c, log), g.cache,
                      g.calls + [(run, Call(|log|, KeyFor(cfgs[run], log), c.attempt, c.worker))])
  {
    var c, log := g.procs[p].claim, g.procs[p].log;
    LookUpStep(cfgs[run], View(g, run), p);
    var g1 := MemoryStatement(cfgs, g, run, NextStep(p), Missed(c, log), g.cache, []);
    assert g.calls + Tagged(run, []) == g.calls;
    ThenAct(cfgs, g, [], g, On(run, NextStep(p)), g1);
    g' := RecordStatement(cfgs, g1, run, p);
    ThenAct(cfgs, g, [] + [On(run, NextStep(p))], g1, On(run, RecordCall(p)), g');
  }

  // p works on the run and waits for the provider.
  predicate Waits(cfgs: Configs, g: World, p: Proc, run: RunId) {
    && run in g.rows && run in cfgs && p in g.procs && g.procs[p].claim.run == run && cfgs[run].spec.Coding?
    && g.procs[p].Called?
  }

  // The provider's reply and its way into the cache are two more.
  lemma ReplyStatements(cfgs: Configs, g0: World, es: seq<Statement>, g: World, run: RunId, p: Proc, r: Response)
    returns (g': World)
    requires WellFormed(cfgs, g0) && g == Acts(cfgs, g0, es) && Waits(cfgs, g, p, run)
    requires KeyFor(cfgs[run], g.procs[p].log) !in g.cache
    requires cfgs[run].env.answers(Messages(cfgs[run].spec.prompt, g.procs[p].log), r)
    ensures g' == Acts(cfgs, g0, es + [On(run, ProviderAnswers(p, r))] + [On(run, StoreAnswer(p))])
    ensures var c, log := g.procs[p].claim, g.procs[p].log;
            MemorySet(cfgs, g, g', p, Answered(c, log, r), g.cache[KeyFor(cfgs[run], log) := Stored(r)], g.calls)
  {
    var c, log := g.procs[p].claim, g.procs[p].log;
    ReplyStep(cfgs[run], View(g, run), p, r);
    var g1 := MemoryStatement(cfgs, g, run, ProviderAnswers(p, r), Returned(c, log, r), g.cache, []);
    assert g.calls + Tagged(run, []) == g.calls;
    ThenAct(cfgs, g0, es, g, On(run, ProviderAnswers(p, r)), g1);
    StoreStep(cfgs[run], View(g1, run), p);
    g' := MemoryStatement(cfgs, g1, run, StoreAnswer(p), Answered(c, log, r),
                          g.cache[KeyFor(cfgs[run], log) := Stored(r)], []);
    ThenAct(cfgs, g0, es + [On(run, ProviderAnswers(p, r))], g1, On(run, StoreAnswer(p)), g');
  }

  lemma MemoryShown(t: Snapshot, t': Snapshot, cfgs: Configs, g: World, g': World)
    requires Shows(t, cfgs, g) && g'.rows == g.rows && t' == t.(cache := g'.cache, calls := g'.calls)
    ensures Shows(t', cfgs, g')
  {
    forall run | run in g'.rows ensures ShowsRun(t', cfgs, g', run) { assert ShowsRun(t, cfgs, g, run); }
  }

  // The statements of a complete_cached that nobody interrupts.
  function Asking(run: RunId, p: Proc, hit: bool, reply: Option<Response>): seq<Statement> {
    var asked := if hit then [] + [On(run, NextStep(p))] else [] + [On(run, NextStep(p))] + [On(run, RecordCall(p))];
    if hit || reply.None? then asked
    else asked + [On(run, ProviderAnswers(p, reply.value))] + [On(run, StoreAnswer(p))]
  }

  lemma AsksHit(cfgs: Configs, g: World, run: RunId, p: Proc, reply: Option<Response>) returns (g': World)
    requires WellFormed(cfgs, g) && LooksUp(cfgs, g, p, run) && KeyFor(cfgs[run], g.procs[p].log) in g.cache
    ensures g' == Acts(cfgs, g, Asking(run, p, true, reply))
    ensures var c, log := g.procs[p].claim, g.procs[p].log;
            MemorySet(cfgs, g, g', p, Answered(c, log, g.cache[KeyFor(cfgs[run], log)]), g.cache, g.calls)
  {
    g' := HitStatement(cfgs, g, run, p);
    ThenAct(cfgs, g, [], g, On(run, NextStep(p)), g');
  }

  lemma AsksMiss(cfgs: Configs, g: World, run: RunId, p: Proc, reply: Option<Response>) returns (g': World)
    requires WellFormed(cfgs, g) && LooksUp(cfgs, g, p, run) && KeyFor(cfgs[run], g.procs[p].log) !in g.cache
    requires reply.Some? ==> cfgs[run].env.answers(Messages(cfgs[run].spec.prompt, g.procs[p].log), reply.value)
    ensures g' == Acts(cfgs, g, Asking(run, p, false, reply))
    ensures var c, log, key := g.procs[p].claim, g.procs[p].log, KeyFor(cfgs[run], g.procs[p].log);
            MemorySet(cfgs, g, g', p, if reply.Some? then Answered(c, log, reply.value) else Called(c, log),
                      if reply.Some? then g.cache[key := Stored(reply.value)] else g.cache,
                      g.calls + [(run, Call(|log|, key, c.attempt, c.worker))])
  {
    g' := MissStatements(cfgs, g, run, p);
    if reply.Some? {
      g' := ReplyStatements(cfgs, g, [] + [On(run, NextStep(p))] + [On(run, RecordCall(p))], g', run, p, reply.value);
    }
  }

  // The tables after complete_cached asked for c under the key and got the reply.
  predicate AskedFor(t: Snapshot, t': Snapshot, c: Claim, step: nat, key: CacheKey, reply: Option<Response>,
                     answer: Option<Response>) {
    if key in t.cache then answer == Some(t.cache[key]) && t' == t
    else && answer == reply
         && t' == t.(cache := if reply.Some? then t.cache[key := Stored(reply.value)] else t.cache,
                     calls := t.calls + [(c.run, Call(step, key, c.attempt, c.worker))])
  }

  // complete_cached in terms of the whole tables.
  method AsksRows(db: Database, c: Claim, provider: string, messages: seq<Message>, step: nat, reply: Option<Response>)
    returns (answer: Option<Response>)
    modifies db
    ensures AskedFor(old(Contents(db)), Contents(db), c, step, CacheKey(provider, c.run, step, messages), reply, answer)
  {
    var key := CacheKey(provider, c.run, step, messages);
    answer := db.CompleteCached(provider, c.run, step, messages, c.attempt, c.worker, reply, None);
    assert FirstCached(key, None, None) == map[];
  }

  lemma AsksShown(t: Snapshot, t': Snapshot, cfgs: Configs, g: World, p: Proc, c: Claim, reply: Option<Response>,
                  answer: Option<Response>)
    returns (g': World)
    requires WellFormed(cfgs, g) && Shows(t, cfgs, g) && LooksUp(cfgs, g, p, c.run) && g.procs[p].claim == c
    requires AskedFor(t, t', c, |g.procs[p].log|, KeyFor(cfgs[c.run], g.procs[p].log), reply, answer)
    requires reply.Some? ==> cfgs[c.run].env.answers(Messages(cfgs[c.run].spec.prompt, g.procs[p].log), reply.value)
    ensures g' == Acts(cfgs, g, Asking(c.run, p, KeyFor(cfgs[c.run], g.procs[p].log) in g.cache, reply))
    ensures Shows(t', cfgs, g') && WellFormed(cfgs, g') && p in g'.procs
    ensures g'.procs[p] == if answer.Some? then Answered(c, g.procs[p].log, answer.value) else Called(c, g.procs[p].log)
  {
    if KeyFor(cfgs[c.run], g.procs[p].log) in g.cache {
      g' := AsksHit(cfgs, g, c.run, p, reply);
    } else {
      g' := AsksMiss(cfgs, g, c.run, p, reply);
    }
    MemoryShown(t, t', cfgs, g, g');
  }

  /** complete_cached, uninterrupted: on a hit one statement of the fleet; on a miss the lookup and
      the record of the call, and, if the provider replies, two more. */
  method Asks(db: Database, ghost cfgs: Configs, ghost g: World, ghost p: Proc, c: Claim, provider: string,
              messages: seq<Message>, step: nat, reply: Option<Response>)
    returns (answer: Option<Response>, ghost g': World)
    requires Holds(db, cfgs, g) && LooksUp(cfgs, g, p, c.run) && g.procs[p].claim == c
    requires CacheKey(provider, c.run, step, messages) == KeyFor(cfgs[c.run], g.procs[p].log)
    requires reply.Some? ==> cfgs[c.run].env.answers(messages, reply.value)
    modifies db
    ensures Holds(db, cfgs, g') && p in g'.procs
    ensures g' == Acts(cfgs, g, Asking(c.run, p, KeyFor(cfgs[c.run], g.procs[p].log) in g.cache, reply))
    ensures g'.procs[p] == if answer.Some? then Answered(c, g.procs[p].log, answer.value) else Called(c, g.procs[p].log)
  {
    ghost var t := Contents(db);
    answer := AsksRows(db, c, provider, messages, step, reply);
    g' := AsksShown(t, Contents(db), cfgs, g, p, c, reply, answer);
    CourseGoesOnBy(cfgs, g, Asking(c.run, p, KeyFor(cfgs[c.run], g.procs[p].log) in g.cache, reply), g');
  }
}
