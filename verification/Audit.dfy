/** The chaos checkers on the shared tables: whatever a pool of processes did to any number of
    runs, the log and billing checkers pass, and the spend checker if no cost was finer than a
    micro-dollar. */
module Audit {
  import opened Store
  import opened Money
  import opened Engine
  import opened Protocol
  import opened Fleet
  import opened Checkers

  // The rows of the query over the events table.
  ghost predicate EventRows(g: World, rows: seq<Row>) {
    forall run: RunId :: LogOf(rows, run) == if run in g.rows then g.rows[run].log else []
  }

  // The rows of the provider_calls table as they were inserted.
  function CallTable(calls: seq<(RunId, Call)>): seq<CallRow> {
    seq(|calls|, i requires 0 <= i < |calls| => (calls[i].0, calls[i].1.step, calls[i].1.attempt))
  }

  // The rows of the runs table.
  predicate RunRows(g: World, runs: map<RunId, RunRow>) {
    runs.Keys == g.rows.Keys && forall run :: run in runs ==> runs[run] == g.rows[run].run
  }

  /* ---------- calls ---------- */

  lemma {:induction false} CallsOfSubmitted(cfgs: Configs, es: seq<Statement>, run: RunId)
    requires (forall r :: r in cfgs ==> cfgs[r].run == r) && run !in Course(cfgs, es).rows
    ensures CallsOf(Course(cfgs, es).calls, run) == []
    decreases |es|
  {
    if es != [] {
      var e, g := es[|es| - 1], Course(cfgs, es[..|es| - 1]);
      if e.On? && e.run in g.rows && Enabled(g, e.run, e.l) {
        MergeKeepsRuns(g, e.run, Step(cfgs[e.run], View(g, e.run), e.l));
        StepMerges(cfgs, g, e.run, e.l, run);
        assert PartOf(Course(cfgs, es), run) == PartOf(g, run);
      }
      CallsOfSubmitted(cfgs, es[..|es| - 1], run);
    }
  }

  // A run's calls in the shared table are its own.
  lemma {:induction false} AttemptsOfRun(calls: seq<(RunId, Call)>, cfg: Config, s: Sys, step: nat)
    requires s.calls == CallsOf(calls, cfg.run)
    ensures AttemptsOf(CallTable(calls), cfg.run, step) == AttemptsOf(CallRows(cfg, s), cfg.run, step)
  {
    if calls != [] {
      var pre, last := calls[..|calls| - 1], calls[|calls| - 1];
      var s0 := s.(calls := CallsOf(pre, cfg.run));
      AttemptsOfRun(pre, cfg, s0, step);
      assert CallTable(calls)[..|calls| - 1] == CallTable(pre);
      if last.0 == cfg.run {
        assert CallRows(cfg, s)[..|s.calls| - 1] == CallRows(cfg, s0);
      } else {
        assert CallRows(cfg, s) == CallRows(cfg, s0);
      }
    }
  }

  lemma CallsDiffer(cfgs: Configs, es: seq<Statement>, run: RunId, step: nat)
    requires forall r :: r in cfgs ==> cfgs[r].run == r
    ensures NoRepeats(AttemptsOf(CallTable(Course(cfgs, es).calls), run, step))
  {
    var g := Course(cfgs, es);
    if run in g.rows {
      RunsAreIndependent(cfgs, es, run);
      ReachableStatesPass(cfgs[run], Cell(g, run));
      DistinctInGroup(CallRows(cfgs[run], Cell(g, run)), run, step);
      AttemptsOfRun(g.calls, cfgs[run], Cell(g, run), step);
    } else {
      CallsOfSubmitted(cfgs, es, run);
      NoAttempts(g.calls, run, step);
    }
  }

  lemma {:induction false} NoAttempts(calls: seq<(RunId, Call)>, run: RunId, step: nat)
    requires CallsOf(calls, run) == []
    ensures AttemptsOf(CallTable(calls), run, step) == []
  {
    if calls != [] {
      assert CallTable(calls)[..|calls| - 1] == CallTable(calls[..|calls| - 1]);
      NoAttempts(calls[..|calls| - 1], run, step);
    }
  }

  lemma SameRows<T>(a: seq<T>, b: seq<T>)
    requires NoRepeats(a) && multiset(a) == multiset(b)
    ensures NoRepeats(b)
  {
    CountsDiffer(a);
    CountsDiffer(b);
    forall x ensures x in a <==> x in b {
      assert x in a <==> x in multiset(a);
      assert x in b <==> x in multiset(b);
    }
    assert (set x | x in a) == (set x | x in b);
    assert |a| == |multiset(a)| == |multiset(b)| == |b|;
  }

  /** No (run, step, attempt) occurs twice among the calls of a course. */
  lemma NobodyBilledTwice(cfgs: Configs, es: seq<Statement>, calls: seq<CallRow>)
    requires forall r :: r in cfgs ==> cfgs[r].run == r
    requires multiset(calls) == multiset(CallTable(Course(cfgs, es).calls))
    ensures NoRepeats(calls)
  {
    var table := CallTable(Course(cfgs, es).calls);
    if !NoRepeats(table) {
      var run, step := RepeatInGroup(table);
      CallsDiffer(cfgs, es, run, step);
    }
    SameRows(table, calls);
  }

  /* ---------- logs and spending ---------- */

  /** On a course of fenced runs every log is intact. */
  lemma LogsAreIntact(cfgs: Configs, es: seq<Statement>, run: RunId)
    requires forall r :: r in cfgs ==> cfgs[r].run == r && cfgs[r].fenced
    requires run in Course(cfgs, es).rows
    ensures Intact(run, Course(cfgs, es).rows[run].log)
  {
    RunsAreIndependent(cfgs, es, run);
    ReachableStatesPass(cfgs[run], Cell(Course(cfgs, es), run));
  }

  lemma SpendingMatches(cfgs: Configs, es: seq<Statement>, run: RunId)
    requires forall r :: r in cfgs ==> cfgs[r].run == r
    requires run in Course(cfgs, es).rows && AllWhole(Course(cfgs, es).rows[run].log)
    ensures var rows := Course(cfgs, es).rows[run]; rows.run.spent as real == Total(rows.log) * 1000000.0
  {
    RunsAreIndependent(cfgs, es, run);
    ReachableStatesPass(cfgs[run], Cell(Course(cfgs, es), run));
  }

  /** The three checkers on the tables of any course of fenced runs. */
  method CheckCourse(ghost cfgs: Configs, ghost es: seq<Statement>, runs: map<RunId, RunRow>, events: seq<Row>,
                     calls: seq<CallRow>)
    returns (log: bool, billing: bool, spend: bool)
    requires forall r :: r in cfgs ==> cfgs[r].run == r && cfgs[r].fenced
    requires var g := Course(cfgs, es);
             && RunRows(g, runs) && EventRows(g, events) && multiset(calls) == multiset(CallTable(g.calls))
    ensures log && billing
    ensures (forall run :: run in runs ==> AllWhole(LogOf(events, run))) ==> spend
  {
    log := LogIntegrity(events);
    var repeats;
    billing, repeats := NoDoubleBilling(calls);
    spend := SpendConsistency(runs, events);
    ghost var g := Course(cfgs, es);
    forall run: RunId ensures Intact(run, LogOf(events, run)) {
      if run in g.rows { LogsAreIntact(cfgs, es, run); }
    }
    NobodyBilledTwice(cfgs, es, calls);
    if forall run :: run in runs ==> AllWhole(LogOf(events, run)) {
      forall run | run in runs ensures runs[run].spent as real == Total(LogOf(events, run)) * 1000000.0 {
        SpendingMatches(cfgs, es, run);
      }
    }
  }
}
