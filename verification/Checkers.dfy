/** The chaos checkers over the whole database: what each accepts, exactly, and that the log
    and billing checkers accept every reachable state of fenced runs. */
module Checkers {
  import opened Store
  import opened Money
  import opened Engine
  import opened Protocol
  import opened Durability
  import opened Fencing

  datatype Violation =
    | SeqGap(run: RunId)
    | KeyGap(run: RunId)
    | AfterFinal(run: RunId, seqNo: int)
    | StaleWriter(run: RunId, seqNo: int)

  type Row = (RunId, Event)

  // The rows of one run, in the order of the query.
  function LogOf(rows: seq<Row>, run: RunId): seq<Event> {
    if rows == [] then []
    else
      var log, last := LogOf(rows[..|rows| - 1], run), rows[|rows| - 1];
      if last.0 == run then log + [last.1] else log
  }

  /* ---------- distinct elements ---------- */

  predicate NoRepeats<T(==)>(s: seq<T>) {
    forall i, j :: 0 <= i < j < |s| ==> s[i] != s[j]
  }

  // How many different elements s has.
  function Distinct<T(==)>(s: seq<T>): nat {
    |set x | x in s|
  }

  lemma SplitLast<T>(s: seq<T>, x: T)
    ensures NoRepeats(s + [x]) <==> NoRepeats(s) && x !in s
  {
    var t := s + [x];
    assert forall i :: 0 <= i < |s| ==> t[i] == s[i];
    assert t[|s|] == x;
  }

  lemma {:induction false} CountsDiffer<T>(s: seq<T>)
    ensures Distinct(s) <= |s|
    ensures Distinct(s) == |s| <==> NoRepeats(s)
  {
    if s != [] {
      var pre, last := s[..|s| - 1], s[|s| - 1];
      CountsDiffer(pre);
      assert s == pre + [last];
      assert (set x | x in s) == (set x | x in pre) + {last};
      SplitLast(pre, last);
    }
  }

  predicate AttemptsRise(log: seq<Event>) {
    forall i, j :: 0 <= i <= j < |log| ==> log[i].meta.attempt <= log[j].meta.attempt
  }

  // What log_integrity is meant to enforce for one run.
  predicate Intact(run: RunId, log: seq<Event>) {
    Gapless(run, log) && FinalOnlyLast(log) && AttemptsRise(log)
  }

  predicate SeqsOk(evs: seq<Event>) {
    forall i :: 0 <= i < |evs| ==> evs[i].seqNo == i + 1
  }

  predicate KeysOk(run: RunId, evs: seq<Event>) {
    forall i :: 0 <= i < |evs| ==> evs[i].key == StepKey(run, i)
  }

  // The event numbers of a log, and those of a log without gaps.
  function Seqs(evs: seq<Event>): seq<int> { seq(|evs|, i requires 0 <= i < |evs| => evs[i].seqNo) }
  function UpTo(n: nat): seq<int> { seq(n, i => i + 1) }

  // The keys of a log, and those of the first n steps.
  function Keys(evs: seq<Event>): seq<StepKey> { seq(|evs|, i requires 0 <= i < |evs| => evs[i].key) }
  function StepKeys(run: RunId, n: nat): seq<StepKey> { seq(n, (i: nat) => StepKey(run, i)) }

  lemma Comparisons(run: RunId, evs: seq<Event>)
    ensures Seqs(evs) == UpTo(|evs|) <==> SeqsOk(evs)
    ensures Keys(evs) == StepKeys(run, |evs|) <==> KeysOk(run, evs)
    ensures KeysOk(run, evs) ==> Distinct(Keys(evs)) == |evs|
  {
    var n := |evs|;
    if Seqs(evs) == UpTo(n) {
      forall i | 0 <= i < n ensures evs[i].seqNo == i + 1 { assert Seqs(evs)[i] == UpTo(n)[i]; }
    }
    if Keys(evs) == StepKeys(run, n) {
      forall i | 0 <= i < n ensures evs[i].key == StepKey(run, i) { assert Keys(evs)[i] == StepKeys(run, n)[i]; }
    }
    if KeysOk(run, evs) { CountsDiffer(Keys(evs)); }
  }

  // Event i follows no final event, and no event of a later attempt.
  predicate InLine(evs: seq<Event>, i: nat)
    requires i < |evs|
  {
    forall j :: 0 <= j < i ==> !evs[j].meta.final && evs[j].meta.attempt <= evs[i].meta.attempt
  }

  // What the scan reports of event i.
  function Finding(run: RunId, evs: seq<Event>, i: nat): Violation
    requires i < |evs|
  {
    if exists j :: 0 <= j < i && evs[j].meta.final then AfterFinal(run, evs[i].seqNo)
    else StaleWriter(run, evs[i].seqNo)
  }

  // All events are in line, or the first one that is not is reported.
  predicate FirstFinding(run: RunId, evs: seq<Event>, bad: seq<Violation>) {
    if forall i: nat :: i < |evs| ==> InLine(evs, i) then bad == []
    else exists i: nat :: i < |evs| && !InLine(evs, i) && (forall k: nat :: k < i ==> InLine(evs, k))
                          && bad == [Finding(run, evs, i)]
  }

  lemma AllInLine(evs: seq<Event>)
    ensures (forall i: nat :: i < |evs| ==> InLine(evs, i)) <==> FinalOnlyLast(evs) && AttemptsRise(evs)
  {
    if forall i: nat :: i < |evs| ==> InLine(evs, i) {
      forall i | 0 <= i < |evs| - 1 ensures !evs[i].meta.final { assert InLine(evs, |evs| - 1); }
      forall i, j | 0 <= i <= j < |evs| ensures evs[i].meta.attempt <= evs[j].meta.attempt { assert InLine(evs, j); }
    }
  }

  /** The scan of one run for writes behind the final event and for stale writers: it reports the
      first event that is out of line, and that one only. */
  method ScanWriters(run: RunId, evs: seq<Event>) returns (bad: seq<Violation>)
    ensures FirstFinding(run, evs, bad)
    ensures bad == [] <==> FinalOnlyLast(evs) && AttemptsRise(evs)
  {
    bad := [];
    var lastAttempt, finals, i := 0, 0, 0;
    AllInLine(evs);
    while i < |evs|
      invariant 0 <= i <= |evs| && bad == []
      invariant forall j :: 0 <= j < i ==> evs[j].meta.attempt <= lastAttempt
      invariant lastAttempt == 0 || exists j :: 0 <= j < i && evs[j].meta.attempt == lastAttempt
      invariant finals > 0 <==> exists j :: 0 <= j < i && evs[j].meta.final
      invariant forall k: nat :: k < i ==> InLine(evs, k)
    {
      var e := evs[i];
      if finals > 0 {
        bad := bad + [AfterFinal(run, e.seqNo)];
        assert !InLine(evs, i) && bad == [Finding(run, evs, i)];
        break;
      }
      if e.meta.attempt < lastAttempt {
        bad := bad + [StaleWriter(run, e.seqNo)];
        assert !InLine(evs, i) && bad == [Finding(run, evs, i)];
        break;
      }
      lastAttempt := if lastAttempt > e.meta.attempt then lastAttempt else e.meta.attempt;
      finals := finals + if e.meta.final then 1 else 0;
      i := i + 1;
    }
  }

  // The findings on one run, in the order in which they are reported.
  predicate Findings(run: RunId, evs: seq<Event>, bad: seq<Violation>) {
    var gaps := (if SeqsOk(evs) then [] else [SeqGap(run)]) + (if KeysOk(run, evs) then [] else [KeyGap(run)]);
    |gaps| <= |bad| && bad[..|gaps|] == gaps && FirstFinding(run, evs, bad[|gaps|..])
  }

  /** The body of the loop over runs reports exactly these findings, and none iff the log is
      intact. */
  method CheckLog(run: RunId, evs: seq<Event>) returns (bad: seq<Violation>)
    ensures Findings(run, evs, bad)
    ensures bad == [] <==> Intact(run, evs)
  {
    bad := [];
    Comparisons(run, evs);
    if Seqs(evs) != UpTo(|evs|) { bad := bad + [SeqGap(run)]; }
    if Distinct(Keys(evs)) != |evs| || Keys(evs) != StepKeys(run, |evs|) { bad := bad + [KeyGap(run)]; }
    assert Gapless(run, evs) <==> SeqsOk(evs) && KeysOk(run, evs);
    var found := ScanWriters(run, evs);
    ghost var gaps := bad;
    bad := bad + found;
    assert bad[..|gaps|] == gaps && bad[|gaps|..] == found;
  }

  /** log_integrity passes iff every run with events has an intact log. */
  method LogIntegrity(rows: seq<Row>) returns (passed: bool)
    ensures passed <==> forall run: RunId :: Intact(run, LogOf(rows, run))
  {
    var byRun: map<RunId, seq<Event>> := map[];
    var i := 0;
    while i < |rows|
      invariant 0 <= i <= |rows|
      invariant forall run :: LogOf(rows[..i], run) == if run in byRun then byRun[run] else []
    {
      assert rows[..i + 1][..i] == rows[..i];
      var (run, e) := rows[i];
      byRun := byRun[run := (if run in byRun then byRun[run] else []) + [e]];
      i := i + 1;
    }
    assert rows[..i] == rows;
    var bad: seq<Violation> := [];
    var left := byRun.Keys;
    while left != {}
      invariant left <= byRun.Keys
      invariant bad == [] <==> forall run :: run in byRun && run !in left ==> Intact(run, byRun[run])
      decreases |left|
    {
      var run :| run in left;
      var found := CheckLog(run, byRun[run]);
      bad := bad + found;
      left := left - {run};
    }
    passed := bad == [];
    assert forall run :: run !in byRun ==> Intact(run, LogOf(rows, run));
  }

  /* ---------- billing ---------- */

  // run_id, step_index, attempt
  type CallRow = (RunId, nat, nat)

  // The attempts of one (run, step), in the order of the query.
  function AttemptsOf(rows: seq<CallRow>, run: RunId, step: nat): seq<nat> {
    if rows == [] then []
    else
      var before, last := AttemptsOf(rows[..|rows| - 1], run, step), rows[|rows| - 1];
      if last.0 == run && last.1 == step then before + [last.2] else before
  }

  lemma {:induction false} MemberOf(rows: seq<CallRow>, r: CallRow)
    ensures r in rows <==> r.2 in AttemptsOf(rows, r.0, r.1)
  {
    if rows != [] {
      MemberOf(rows[..|rows| - 1], r);
      assert rows == rows[..|rows| - 1] + [rows[|rows| - 1]];
    }
  }

  lemma GroupStep(pre: seq<CallRow>, last: CallRow, run: RunId, step: nat)
    ensures var mine := AttemptsOf(pre, run, step);
            NoRepeats(AttemptsOf(pre + [last], run, step)) <==>
              NoRepeats(mine) && (run == last.0 && step == last.1 ==> last.2 !in mine)
  {
    assert (pre + [last])[..|pre|] == pre;
    SplitLast(AttemptsOf(pre, run, step), last.2);
  }

  lemma {:induction false} DistinctInGroup(rows: seq<CallRow>, run: RunId, step: nat)
    requires NoRepeats(rows)
    ensures NoRepeats(AttemptsOf(rows, run, step))
  {
    if rows != [] {
      var pre, last := rows[..|rows| - 1], rows[|rows| - 1];
      assert rows == pre + [last];
      SplitLast(pre, last);
      DistinctInGroup(pre, run, step);
      MemberOf(pre, last);
      GroupStep(pre, last, run, step);
    }
  }

  lemma {:induction false} RepeatInGroup(rows: seq<CallRow>) returns (run: RunId, step: nat)
    requires !NoRepeats(rows)
    ensures !NoRepeats(AttemptsOf(rows, run, step))
  {
    var pre, last := rows[..|rows| - 1], rows[|rows| - 1];
    assert rows == pre + [last];
    SplitLast(pre, last);
    if NoRepeats(pre) { run, step := last.0, last.1; } else { run, step := RepeatInGroup(pre); }
    MemberOf(pre, last);
    GroupStep(pre, last, run, step);
  }

  // The loop over the groups.
  method JudgeGroups(groups: map<(RunId, nat), seq<nat>>) returns (passed: bool, retries: set<(RunId, nat)>)
    ensures passed <==> forall g :: g in groups ==> NoRepeats(groups[g])
    ensures forall g :: g in retries <==> g in groups && |groups[g]| > 1 && NoRepeats(groups[g])
  {
    var left := groups.Keys;
    passed, retries := true, {};
    while left != {}
      invariant left <= groups.Keys
      invariant passed ==> forall g :: g in groups && g !in left ==> NoRepeats(groups[g])
      invariant !passed ==> exists g :: g in groups && !NoRepeats(groups[g])
      invariant forall g :: g in retries <==> g in groups && g !in left && |groups[g]| > 1 && NoRepeats(groups[g])
      decreases |left|
    {
      var g :| g in left;
      left := left - {g};
      var attempts := groups[g];
      CountsDiffer(attempts);
      if |attempts| > 1 {
        if Distinct(attempts) == |attempts| { retries := retries + {g}; } else { passed := false; }
      } else {
        assert NoRepeats(attempts);
      }
    }
  }

  /** no_double_billing passes iff no (run, step, attempt) occurs twice; the listed retries are
      exactly the steps that were asked more than once, each time by another attempt. */
  method NoDoubleBilling(rows: seq<CallRow>) returns (passed: bool, retries: set<(RunId, nat)>)
    ensures passed <==> NoRepeats(rows)
    ensures forall run: RunId, step: nat :: (run, step) in retries <==>
              |AttemptsOf(rows, run, step)| > 1 && NoRepeats(AttemptsOf(rows, run, step))
  {
    var groups: map<(RunId, nat), seq<nat>> := map[];
    var i := 0;
    while i < |rows|
      invariant 0 <= i <= |rows|
      invariant forall run: RunId, step: nat :: AttemptsOf(rows[..i], run, step) ==
                  if (run, step) in groups then groups[(run, step)] else []
    {
      assert rows[..i + 1][..i] == rows[..i];
      var at := (rows[i].0, rows[i].1);
      groups := groups[at := (if at in groups then groups[at] else []) + [rows[i].2]];
      i := i + 1;
    }
    assert rows[..i] == rows;
    passed, retries := JudgeGroups(groups);
    assert forall g: (RunId, nat) :: g in groups ==> groups[g] == AttemptsOf(rows, g.0, g.1);
    if NoRepeats(rows) {
      forall g | g in groups ensures NoRepeats(groups[g]) { DistinctInGroup(rows, g.0, g.1); }
    } else {
      ghost var run, step := RepeatInGroup(rows);
      assert (run, step) in groups;
    }
  }

  /* ---------- spend ---------- */

  /** spend_consistency passes iff every run's column is the exact sum of its event costs. */
  method SpendConsistency(runs: map<RunId, RunRow>, rows: seq<Row>) returns (passed: bool)
    ensures passed <==> forall run :: run in runs ==>
              runs[run].spent as real == Total(LogOf(rows, run)) * 1000000.0
  {
    var totals: map<RunId, real> := map[];
    var i := 0;
    while i < |rows|
      invariant 0 <= i <= |rows|
      invariant forall run: RunId :: Total(LogOf(rows[..i], run)) == if run in totals then totals[run] else 0.0
    {
      assert rows[..i + 1][..i] == rows[..i];
      var (run, e) := rows[i];
      SpentAppend(LogOf(rows[..i], run), e);
      totals := totals[run := (if run in totals then totals[run] else 0.0) + CostOf(e.payload)];
      i := i + 1;
    }
    assert rows[..i] == rows;
    var left := runs.Keys;
    passed := true;
    while left != {}
      invariant left <= runs.Keys
      invariant passed <==> forall run :: run in runs && run !in left ==>
                  runs[run].spent as real == Total(LogOf(rows, run)) * 1000000.0
      decreases |left|
    {
      var run :| run in left;
      left := left - {run};
      if runs[run].spent as real != (if run in totals then totals[run] else 0.0) * 1000000.0 { passed := false; }
    }
  }

  /* ---------- reachable states pass ---------- */

  ghost predicate SpendMatches(s: Sys) {
    s.rows.run.spent as real == Total(s.rows.log) * 1000000.0
  }

  // The provider_calls rows of the run.
  function CallRows(cfg: Config, s: Sys): seq<CallRow> {
    seq(|s.calls|, i requires 0 <= i < |s.calls| => (cfg.run, s.calls[i].step, s.calls[i].attempt))
  }

  /** Whatever crashes, pauses and takeovers happened, a fenced run satisfies what log_integrity
      and no_double_billing check, and with whole micro-dollar costs spend_consistency too. */
  lemma ReachableStatesPass(cfg: Config, s: Sys)
    requires Reachable(cfg, s)
    ensures cfg.fenced ==> Intact(cfg.run, s.rows.log)
    ensures NoRepeats(CallRows(cfg, s))
    ensures AllWhole(s.rows.log) ==> SpendMatches(s)
  {
    ReachableIsBase(cfg, s);
    if cfg.fenced { ReachableIsFenced(cfg, s); }
    if AllWhole(s.rows.log) { SpendExact(s.rows.log); }
  }
}
