/** What the fence adds: no writer with a stale token, nothing after the final event, the
    status columns in step with the log, bounded retries, and a holder that always works on
    the whole log with the workspace that the log describes. Clock readings are arbitrary. */
module Fencing {
  import opened Store
  import opened Budget
  import opened Agent
  import opened Leases
  import opened Engine
  import opened Protocol
  import opened Durability

  // Writer tokens never go backwards and were all issued.
  predicate Chronological(log: seq<Event>, attempts: nat) {
    && (forall i, j :: 0 <= i <= j < |log| ==> log[i].meta.attempt <= log[j].meta.attempt)
    && (forall i :: 0 <= i < |log| ==> 1 <= log[i].meta.attempt <= attempts)
  }

  predicate FinalOnlyLast(log: seq<Event>) {
    forall i :: 0 <= i < |log| - 1 ==> !log[i].meta.final
  }

  predicate Ended(log: seq<Event>) {
    log != [] && log[|log| - 1].meta.final
  }

  ghost predicate LogFenced(cfg: Config, rows: Rows) {
    && Chronological(rows.log, rows.task.attempt)
    && FinalOnlyLast(rows.log)
    && Consistent(cfg.env, rows.log)
    && (rows.task.status.Done? <==> Ended(rows.log))
    && (rows.run.status.Terminal() <==> Ended(rows.log))
    && (Ended(rows.log) ==> rows.run.status == StatusFor(rows.log[|rows.log| - 1].kind))
  }

  predicate CountsOk(cfg: Config, s: Sys) {
    && s.rows.task.attempt == s.reaps + s.releases + (if s.rows.task.status.Queued? then 0 else 1)
    && (s.releases > 0 ==> s.releases < cfg.maxAttempts)
  }

  predicate Holder(rows: Rows, c: Claim) {
    rows.task.status.Leased? && rows.task.attempt == c.attempt
  }

  predicate FilesAre(dirs: map<nat, Files>, attempt: nat, files: Files) {
    attempt in dirs && dirs[attempt] == files
  }

  // What is known of the process whose claim the task row carries.
  ghost predicate HolderOk(cfg: Config, log: seq<Event>, dirs: map<nat, Files>, at: Local) {
    var own := at.claim.attempt;
    match at
    case Loop(_, mounted) => mounted ==> FilesAre(dirs, own, Live(cfg.env, log))
    case Have(_, mounted, snap) => snap == log && (mounted ==> FilesAre(dirs, own, Live(cfg.env, log)))
    case Missed(_, snap) => snap == log && FilesAre(dirs, own, Live(cfg.env, log))
    case Called(_, snap) => snap == log && FilesAre(dirs, own, Live(cfg.env, log))
    case Returned(_, snap, _) => snap == log && FilesAre(dirs, own, Live(cfg.env, log))
    case Answered(_, snap, _) => snap == log && FilesAre(dirs, own, Live(cfg.env, log))
    case Ready(c, n, out, closing) =>
      && n == |log|
      && ObservedIn(cfg.env, log, AsEvent(c, n, out))
      && (cfg.spec.Coding? && !out.final ==> FilesAre(dirs, own, Live(cfg.env, log + [AsEvent(c, n, out)])))
    case Releasing(_) => true
    case Counting(_, _) => true
  }

  ghost predicate HoldersOk(cfg: Config, s: Sys) {
    forall p :: p in s.procs && Holder(s.rows, s.procs[p].claim) ==> HolderOk(cfg, s.rows.log, s.dirs, s.procs[p])
  }

  ghost predicate Fenced(cfg: Config, s: Sys) {
    LogFenced(cfg, s.rows) && CountsOk(cfg, s) && HoldersOk(cfg, s)
  }

  /* ---------- preservation ---------- */

  lemma ConsistentAppend(env: Env, log: seq<Event>, e: Event)
    requires Consistent(env, log) && ObservedIn(env, log, e)
    ensures Consistent(env, log + [e])
  {
    forall i | 0 <= i < |log + [e]| ensures ObservedIn(env, (log + [e])[..i], (log + [e])[i]) {
      assert (log + [e])[..i] == log[..i];
      if i == |log| { assert log[..i] == log; }
    }
  }

  /** One more event under the current token, on a log that had not ended. */
  lemma LogFencedAppend(cfg: Config, rows: Rows, rows': Rows, e: Event)
    requires LogFenced(cfg, rows) && !Ended(rows.log) && ObservedIn(cfg.env, rows.log, e)
    requires e.meta.attempt == rows.task.attempt == rows'.task.attempt >= 1
    requires rows'.log == rows.log + [e]
    requires rows'.task.status.Done? <==> e.meta.final
    requires rows'.run.status.Terminal() <==> e.meta.final
    requires e.meta.final ==> rows'.run.status == StatusFor(e.kind)
    ensures LogFenced(cfg, rows')
  {
    ConsistentAppend(cfg.env, rows.log, e);
    assert rows'.log[|rows'.log| - 1] == e;
    forall i | 0 <= i < |rows'.log| - 1 ensures !rows'.log[i].meta.final {
      assert rows'.log[i] == rows.log[i];
    }
  }

  lemma CommitKeepsLogFenced(cfg: Config, s: Sys, p: Proc, now: int)
    requires cfg.fenced && Base(cfg, s) && Fenced(cfg, s) && p in s.procs && s.procs[p].Ready?
    ensures var at := s.procs[p]; LogFenced(cfg, CommitRows(true, s.rows, at.claim, now, at.n, at.out))
  {
    var at := s.procs[p];
    CommitShape(cfg, s, p, now);
    if CommitReply(true, s.rows, at.claim, now, at.n).Committed? {
      assert Holder(s.rows, at.claim) && HolderOk(cfg, s.rows.log, s.dirs, at);
      assert LocalOk(cfg, s.rows.log, s.rows.task.attempt, at);
      LogFencedAppend(cfg, s.rows, AfterCommit(s.rows, at.claim, at.n, at.out), AsEvent(at.claim, at.n, at.out));
    }
  }

  /** Process p moved on (or away) while the rows stayed; only its own directory changed. */
  lemma HolderMoved(cfg: Config, s: Sys, p: Proc, at: Local, dirs: map<nat, Files>)
    requires Base(cfg, s) && Fenced(cfg, s) && p in s.procs && at.claim == s.procs[p].claim
    requires forall a :: a != at.claim.attempt && a in s.dirs ==> a in dirs && dirs[a] == s.dirs[a]
    requires Holder(s.rows, at.claim) ==> HolderOk(cfg, s.rows.log, dirs, at)
    ensures HoldersOk(cfg, At(s.(dirs := dirs), p, at))
  {
    var s' := At(s.(dirs := dirs), p, at);
    forall q | q in s'.procs && Holder(s'.rows, s'.procs[q].claim)
      ensures HolderOk(cfg, s'.rows.log, dirs, s'.procs[q])
    {
      if q != p { assert s.procs[q].claim.attempt != at.claim.attempt; }
    }
  }

  lemma CommitKeepsHolders(cfg: Config, s: Sys, p: Proc, now: int)
    requires cfg.fenced && Base(cfg, s) && Fenced(cfg, s) && p in s.procs && s.procs[p].Ready?
    ensures var at := s.procs[p]; HoldersOk(cfg, StepCommit(cfg, s, p, at.claim, at.n, at.out, now))
  {
    var at := s.procs[p];
    CommitShape(cfg, s, p, now);
    var s' := StepCommit(cfg, s, p, at.claim, at.n, at.out, now);
    forall q | q in s'.procs && Holder(s'.rows, s'.procs[q].claim)
      ensures HolderOk(cfg, s'.rows.log, s'.dirs, s'.procs[q])
    {
      assert q in s.procs && Holder(s.rows, s.procs[q].claim);
      assert HolderOk(cfg, s.rows.log, s.dirs, s.procs[q]);
      if CommitReply(true, s.rows, at.claim, now, at.n).Committed? {
        assert q == p;
      }
    }
  }

  lemma ClaimKeepsFenced(cfg: Config, s: Sys, p: Proc, worker: WorkerId, now: int, lease: int)
    requires Base(cfg, s) && Fenced(cfg, s)
    ensures Fenced(cfg, StepClaim(cfg, s, p, worker, now, lease))
  {
    var s' := StepClaim(cfg, s, p, worker, now, lease);
    if s' != s {
      assert forall q :: q in s.procs ==> LocalOk(cfg, s.rows.log, s.rows.task.attempt, s.procs[q]);
      assert forall q :: q in s'.procs && q != p ==> s'.procs[q] == s.procs[q];
    }
  }

  /** The task row is given back: nobody holds it afterwards. */
  lemma RequeueKeepsFenced(cfg: Config, s: Sys, task: TaskRow, released: bool)
    requires Base(cfg, s) && Fenced(cfg, s) && s.rows.task.status.Leased?
    requires task.status.Queued? && task.attempt == s.rows.task.attempt
    requires released ==> s.rows.task.attempt < cfg.maxAttempts
    ensures Fenced(cfg, s.(rows := s.rows.(task := task), reaps := s.reaps + (if released then 0 else 1),
                           releases := s.releases + (if released then 1 else 0)))
  {
  }

  lemma DropKeepsFenced(cfg: Config, s: Sys, p: Proc)
    requires Base(cfg, s) && Fenced(cfg, s)
    ensures Fenced(cfg, Drop(s, p))
  {
  }

  lemma RenewKeepsFenced(cfg: Config, s: Sys, now: int, lease: int)
    requires Base(cfg, s) && Fenced(cfg, s)
    ensures Fenced(cfg, s.(rows := s.rows.(task := Renew(s.rows.task, now, lease))))
  {
    var s' := s.(rows := s.rows.(task := Renew(s.rows.task, now, lease)));
    forall q | q in s'.procs && Holder(s'.rows, s'.procs[q].claim)
      ensures HolderOk(cfg, s'.rows.log, s'.dirs, s'.procs[q])
    {
      assert Holder(s.rows, s.procs[q].claim);
    }
  }

  lemma CommitKeepsFenced(cfg: Config, s: Sys, p: Proc, now: int)
    requires cfg.fenced && Base(cfg, s) && Fenced(cfg, s) && p in s.procs && s.procs[p].Ready?
    ensures var at := s.procs[p]; Fenced(cfg, StepCommit(cfg, s, p, at.claim, at.n, at.out, now))
  {
    CommitKeepsLogFenced(cfg, s, p, now);
    CommitKeepsHolders(cfg, s, p, now);
  }

  lemma ToolLeavesWorkspace(cfg: Config, log: seq<Event>, dirs: map<nat, Files>, at: Local)
    requires at.Answered? && HolderOk(cfg, log, dirs, at)
    requires Execute(cfg.env, dirs[at.claim.attempt], at.answer.action).Performed?
    ensures var x := Execute(cfg.env, dirs[at.claim.attempt], at.answer.action);
            HolderOk(cfg, log, dirs[at.claim.attempt := x.files],
                     Ready(at.claim, |at.log|, AgentOutcome(at.answer, x.observation), false))
  {
    var x := Execute(cfg.env, dirs[at.claim.attempt], at.answer.action);
    var e := AsEvent(at.claim, |log|, AgentOutcome(at.answer, x.observation));
    assert ObservedIn(cfg.env, log, e);
    LiveAppend(cfg.env, log, e);
  }

  lemma ExecuteKeepsFenced(cfg: Config, s: Sys, p: Proc, dirs: map<nat, Files>, at': Local)
    requires Base(cfg, s) && Fenced(cfg, s) && p in s.procs && s.procs[p].Answered?
    requires var at := s.procs[p]; var own := at.claim.attempt;
             && own in s.dirs && Execute(cfg.env, s.dirs[own], at.answer.action).Performed?
             && dirs == s.dirs[own := Execute(cfg.env, s.dirs[own], at.answer.action).files]
             && at' == Ready(at.claim, |at.log|, AgentOutcome(at.answer,
                             Execute(cfg.env, s.dirs[own], at.answer.action).observation), false)
    ensures Fenced(cfg, At(s.(dirs := dirs), p, at'))
  {
    if Holder(s.rows, s.procs[p].claim) { ToolLeavesWorkspace(cfg, s.rows.log, s.dirs, s.procs[p]); }
    HolderMoved(cfg, s, p, at', dirs);
  }

  lemma MountIsFenced(cfg: Config, s: Sys, p: Proc, files: Files)
    requires Base(cfg, s) && Fenced(cfg, s) && p in s.procs && s.procs[p].Have? && Holder(s.rows, s.procs[p].claim)
    requires var r := Replay(cfg.env, s.procs[p].log); r.Some? && r.value == files
    ensures var at := s.procs[p];
            HolderOk(cfg, s.rows.log, s.dirs[at.claim.attempt := files], Have(at.claim, true, at.log))
  {
    assert HolderOk(cfg, s.rows.log, s.dirs, s.procs[p]);
    RebuildExact(cfg.env, s.rows.log);
  }

  lemma MountKeepsFenced(cfg: Config, s: Sys, p: Proc)
    requires Base(cfg, s) && Fenced(cfg, s) && p in s.procs && s.procs[p].Have?
    ensures Fenced(cfg, StepMount(cfg, s, p, s.procs[p]))
  {
    var at, s' := s.procs[p], StepMount(cfg, s, p, s.procs[p]);
    if s' != s {
      var files := Replay(cfg.env, at.log).value;
      if Holder(s.rows, at.claim) { MountIsFenced(cfg, s, p, files); }
      HolderMoved(cfg, s, p, Have(at.claim, true, at.log), s.dirs[at.claim.attempt := files]);
    }
  }

  lemma NextIsFenced(cfg: Config, s: Sys, p: Proc)
    requires Base(cfg, s) && Fenced(cfg, s) && p in s.procs && s.procs[p].Have? && Holder(s.rows, s.procs[p].claim)
    ensures var at := s.procs[p]; var s' := StepNext(cfg, s, p, at.claim, at.mounted, at.log);
            s' != s ==> p in s'.procs && HolderOk(cfg, s.rows.log, s.dirs, s'.procs[p])
  {
    var at := s.procs[p];
    assert HolderOk(cfg, s.rows.log, s.dirs, at);
    match cfg.spec {
      case Toy(_, _) =>
      case Coding(_, maxSteps) => if CheckLimits(at.log, cfg.budget, maxSteps).Some? {}
    }
  }

  lemma NextKeepsFenced(cfg: Config, s: Sys, p: Proc)
    requires Base(cfg, s) && Fenced(cfg, s) && p in s.procs && s.procs[p].Have?
    ensures var at := s.procs[p]; Fenced(cfg, StepNext(cfg, s, p, at.claim, at.mounted, at.log))
  {
    var at := s.procs[p];
    var s' := StepNext(cfg, s, p, at.claim, at.mounted, at.log);
    NextIsOk(cfg, s, p);
    if s' != s {
      if Holder(s.rows, at.claim) { NextIsFenced(cfg, s, p); }
      HolderMoved(cfg, s, p, s'.procs[p], s.dirs);
    }
  }

  // The remaining moves keep the snapshot or take a fresh one; the directories stay.
  lemma ThinkKeepsFenced(cfg: Config, s: Sys, p: Proc, s': Sys)
    requires Base(cfg, s) && Fenced(cfg, s) && p in s.procs && p in s'.procs
    requires s' == At(s.(cache := s'.cache, calls := s'.calls), p, s'.procs[p])
    requires s'.procs[p].claim == s.procs[p].claim
    requires var at, at' := s.procs[p], s'.procs[p];
             || (at.Loop? && at' == Have(at.claim, at.mounted, s.rows.log))
             || (at.Missed? && at' == Called(at.claim, at.log))
             || (at.Called? && at'.Returned? && at'.log == at.log)
             || (at.Returned? && at'.Answered? && at'.log == at.log)
             || at'.Releasing? || at'.Counting?
             || (at.Counting? && at' == Ready(at.claim, |s.rows.log|, FailedOutcome(at.fatal, at.claim.attempt), true))
    ensures Fenced(cfg, s')
  {
    HolderMoved(cfg, s, p, s'.procs[p], s.dirs);
  }

  lemma HeartbeatKeepsFenced(cfg: Config, s: Sys, p: Proc, now: int, lease: int)
    requires Base(cfg, s) && Fenced(cfg, s) && p in s.procs
    ensures Fenced(cfg, StepHeartbeat(cfg, s, p, s.procs[p], now, lease))
  {
    if HoldsLease(s.rows.task, s.procs[p].claim, now) { RenewKeepsFenced(cfg, s, now, lease); }
    else { DropKeepsFenced(cfg, s, p); }
  }

  lemma ReleaseKeepsFenced(cfg: Config, s: Sys, p: Proc, now: int, backoff: int)
    requires Base(cfg, s) && Fenced(cfg, s) && p in s.procs
    ensures Fenced(cfg, StepRelease(s, p, s.procs[p], now, backoff))
  {
    var at, task := s.procs[p], Release(s.rows.task, now, backoff);
    if at.Releasing? {
      if Carries(s.rows.task, at.claim) {
        assert LocalOk(cfg, s.rows.log, s.rows.task.attempt, at);
        RequeueKeepsFenced(cfg, s, task, true);
        Relet(cfg, s, task, s.reaps, s.releases + 1);
        DropKeepsFenced(cfg, s.(rows := s.rows.(task := task), releases := s.releases + 1), p);
      } else {
        DropKeepsFenced(cfg, s, p);
      }
    }
  }

  lemma RowStepKeepsFenced(cfg: Config, s: Sys, l: Label)
    requires cfg.fenced && Base(cfg, s) && Fenced(cfg, s) && OnRows(l) && l.p in s.procs
    ensures Fenced(cfg, StepProc(cfg, s, l, s.procs[l.p]))
  {
    if StepProc(cfg, s, l, s.procs[l.p]) == s { return; }
    match l {
      case Heartbeat(p, now, lease) => HeartbeatKeepsFenced(cfg, s, p, now, lease);
      case Commit(p, now) => CommitKeepsFenced(cfg, s, p, now);
      case ReleaseTask(p, now, backoff) => ReleaseKeepsFenced(cfg, s, p, now, backoff);
    }
  }

  // The steps that only move the process on.
  predicate Thinks(l: Label) {
    l.ReadLog? || l.RecordCall? || l.ProviderAnswers? || l.StoreAnswer? || l.Raise? || l.CountEvents?
  }

  lemma ThoughtKeepsFenced(cfg: Config, s: Sys, l: Label)
    requires cfg.fenced && Base(cfg, s) && Fenced(cfg, s) && Thinks(l) && l.p in s.procs
    ensures Fenced(cfg, StepProc(cfg, s, l, s.procs[l.p]))
  {
    var s' := StepProc(cfg, s, l, s.procs[l.p]);
    if s' != s { ThinkKeepsFenced(cfg, s, l.p, s'); }
  }

  lemma ProcStepKeepsFenced(cfg: Config, s: Sys, l: Label)
    requires cfg.fenced && Base(cfg, s) && Fenced(cfg, s)
    requires !l.ClaimTask? && !l.Reap? && !l.Crash? && l.p in s.procs
    ensures Fenced(cfg, StepProc(cfg, s, l, s.procs[l.p]))
  {
    if OnRows(l) {
      RowStepKeepsFenced(cfg, s, l);
    } else if Thinks(l) {
      ThoughtKeepsFenced(cfg, s, l);
    } else {
      var s' := StepProc(cfg, s, l, s.procs[l.p]);
      if s' == s { return; }
      match l {
        case Mount(p) => MountKeepsFenced(cfg, s, p);
        case NextStep(p) => NextKeepsFenced(cfg, s, p);
        case ExecuteTool(p) => ExecuteKeepsFenced(cfg, s, p, s'.dirs, s'.procs[p]);
      }
    }
  }

  lemma StepKeepsFenced(cfg: Config, s: Sys, l: Label)
    requires cfg.fenced && Base(cfg, s) && Fenced(cfg, s)
    ensures Fenced(cfg, Step(cfg, s, l))
  {
    match l {
      case ClaimTask(p, worker, now, lease) => ClaimKeepsFenced(cfg, s, p, worker, now, lease);
      case Reap(now) => if Reapable(s.rows.task, now) { RequeueKeepsFenced(cfg, s, Requeue(s.rows.task), false); }
      case Crash(p) => DropKeepsFenced(cfg, s, p);
      case _ => if l.p in s.procs { ProcStepKeepsFenced(cfg, s, l); }
    }
  }

  lemma {:induction false} ExecKeepsFenced(cfg: Config, s: Sys, ls: seq<Label>)
    requires cfg.fenced && Base(cfg, s) && Fenced(cfg, s)
    ensures Base(cfg, Exec(cfg, s, ls)) && Fenced(cfg, Exec(cfg, s, ls))
  {
    if ls != [] {
      var before := Exec(cfg, s, ls[..|ls| - 1]);
      ExecKeepsFenced(cfg, s, ls[..|ls| - 1]);
      StepKeepsBase(cfg, before, ls[|ls| - 1]);
      StepKeepsFenced(cfg, before, ls[|ls| - 1]);
    }
  }

  lemma ReachableIsFenced(cfg: Config, s: Sys)
    requires cfg.fenced && Reachable(cfg, s)
    ensures Base(cfg, s) && Fenced(cfg, s)
  {
    var now, ls :| s == Exec(cfg, Init(cfg, now), ls);
    ExecKeepsFenced(cfg, Init(cfg, now), ls);
  }
}
