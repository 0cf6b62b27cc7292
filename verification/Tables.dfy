/** The shared tables of all runs and the statements that change them in place. Each method is
    one transaction or statement; its contract gives the whole new contents by the row
    functions of the protocol, and says that every other row stays. */
module Tables {
  import opened Options
  import opened Store
  import opened Money
  import opened Agent
  import opened Leases
  import opened Engine
  import opened Protocol

  datatype AppendResult = Appended(seqNo: int) | Present(seqNo: int) | RunNotFound

  datatype CommitResult = Replied(reply: Reply) | NoSuchRun

  // In the order of the event numbers.
  predicate InOrder(log: seq<Event>) {
    forall i, j :: 0 <= i < j < |log| ==> log[i].seqNo <= log[j].seqNo
  }

  lemma InsertedInOrder(log: seq<Event>, k: nat, e: Event)
    requires InOrder(log) && k <= |log|
    requires (k > 0 ==> log[k - 1].seqNo <= e.seqNo) && forall i :: k <= i < |log| ==> log[i].seqNo > e.seqNo
    ensures InOrder(log[..k] + [e] + log[k..])
  {
    var r := log[..k] + [e] + log[k..];
    assert forall i :: 0 <= i < k ==> r[i] == log[i] && r[i].seqNo <= e.seqNo;
    assert forall i :: k < i < |r| ==> r[i] == log[i - 1] && r[i].seqNo > e.seqNo;
  }

  lemma InsertedOnce<T>(s: seq<T>, k: nat, x: T)
    requires k <= |s|
    ensures multiset(s[..k] + [x] + s[k..]) == multiset(s) + multiset{x}
  {
    assert s == s[..k] + s[k..];
  }

  // The entry for a key that was not cached: the rival's, or the reply as the columns store it.
  function FirstCached(key: CacheKey, rival: Option<Response>, reply: Option<Response>): map<CacheKey, Response> {
    if rival.Some? then map[key := rival.value]
    else if reply.Some? then map[key := Stored(reply.value)]
    else map[]
  }

  class Database {
    const fenced: bool
    var runs: map<RunId, RunRow>
    var tasks: map<TaskId, TaskRow>
    var runOf: map<TaskId, RunId>
    var events: map<RunId, seq<Event>>
    var cache: map<CacheKey, Response>
    var calls: seq<(RunId, Call)>

    ghost predicate Valid()
      reads this
    {
      && events.Keys == runs.Keys
      && runOf.Keys == tasks.Keys
      && forall t :: t in runOf ==> runOf[t] in runs
    }

    // The rows a claim refers to.
    ghost predicate Knows(c: Claim)
      reads this
    {
      Valid() && c.task in tasks && c.run in runs
    }

    ghost function RowsOf(c: Claim): Rows
      requires Knows(c)
      reads this
    {
      Rows(runs[c.run], tasks[c.task], events[c.run])
    }

    constructor (fenced: bool)
      ensures Valid() && this.fenced == fenced
      ensures runs == map[] && tasks == map[] && runOf == map[] && events == map[]
      ensures calls == [] && cache == map[]
    {
      this.fenced := fenced;
      runs, tasks, runOf, events, cache, calls := map[], map[], map[], map[], map[], [];
    }

    /* ---------- leases.py and submit_run ---------- */

    // The ids are fresh UUIDs.
    method SubmitRun(run: RunId, task: TaskId, budget: real, now: int)
      requires Valid() && run !in runs && task !in tasks
      modifies this
      ensures Valid() && Knows(Claim(task, run, "", 0))
      ensures RowsOf(Claim(task, run, "", 0)) == FreshRows(budget, now)
      ensures runs[run] == RunRow(Pending, budget, 0) && tasks[task] == TaskRow(Queued, None, None, 0, now)
      ensures runs == old(runs)[run := runs[run]] && tasks == old(tasks)[task := tasks[task]]
      ensures events == old(events)[run := []] && runOf == old(runOf)[task := run]
      ensures cache == old(cache) && calls == old(calls)
    {
      runs := runs[run := RunRow(Pending, budget, 0)];
      events := events[run := []];
      tasks := tasks[task := TaskRow(Queued, None, None, 0, now)];
      runOf := runOf[task := run];
    }

    // Rows locked by other transactions are skipped.
    ghost predicate Candidate(t: TaskId, now: int, locked: set<TaskId>)
      reads this
    {
      t in tasks && t !in locked && Claimable(tasks[t], now)
    }

    // ORDER BY available_at ... LIMIT 1
    method FirstAvailable(now: int, locked: set<TaskId>) returns (first: Option<TaskId>)
      ensures first == None <==> forall t :: !Candidate(t, now, locked)
      ensures first == None <==>
                forall t :: t in tasks && t !in locked && tasks[t].status == Queued ==> now < tasks[t].available
      ensures first.Some? ==> Candidate(first.value, now, locked)
      ensures first.Some? ==>
                && first.value in tasks && first.value !in locked
                && tasks[first.value].status == Queued && tasks[first.value].available <= now
      ensures first.Some? ==>
                forall t :: Candidate(t, now, locked) ==> tasks[first.value].available <= tasks[t].available
    {
      var rest := set t | t in tasks && t !in locked && Claimable(tasks[t], now);
      ghost var candidates := rest;
      assert forall t :: Candidate(t, now, locked) <==> t in candidates;
      if rest == {} {
        forall t | t in tasks && t !in locked && tasks[t].status == Queued ensures now < tasks[t].available {
          assert t !in candidates;
        }
        return None;
      }
      var best :| best in rest;
      rest := rest - {best};
      while rest != {}
        invariant best in candidates && rest <= candidates
        invariant forall t :: t in candidates - rest ==> tasks[best].available <= tasks[t].available
        decreases |rest|
      {
        var t :| t in rest;
        if tasks[t].available < tasks[best].available { best := t; }
        rest := rest - {t};
      }
      first := Some(best);
    }

    method ClaimTask(worker: WorkerId, now: int, lease: int, locked: set<TaskId>) returns (claim: Option<Claim>)
      requires Valid()
      modifies this`tasks, this`runs
      ensures Valid()
      ensures claim == None ==> tasks == old(tasks) && runs == old(runs)
                                && forall t :: !old(Candidate(t, now, locked))
      ensures claim == None <==>
                forall t :: t in old(tasks) && t !in locked && old(tasks)[t].status == Queued ==>
                  now < old(tasks)[t].available
      ensures claim.Some? ==>
                var c := claim.value;
                && c.task in old(tasks) && c.task !in locked && c.task in tasks
                && old(tasks)[c.task].status == Queued && old(tasks)[c.task].available <= now
                && tasks[c.task] == TaskRow(Leased, Some(worker), Some(now + lease), c.attempt,
                                            old(tasks)[c.task].available)
      ensures claim.Some? ==>
                var c := claim.value;
                && old(Candidate(c.task, now, locked)) && c.run == runOf[c.task] && c.worker == worker
                && (forall t :: old(Candidate(t, now, locked)) ==>
                      old(tasks)[c.task].available <= old(tasks)[t].available)
                && c.attempt == old(tasks)[c.task].attempt + 1
                && tasks == old(tasks)[c.task := Grant(old(tasks)[c.task], worker, now, lease)]
                && runs == old(runs)[c.run := Started(old(runs)[c.run])]
    {
      var first := FirstAvailable(now, locked);
      assert forall t :: Candidate(t, now, locked) <==> old(Candidate(t, now, locked));
      if first.None? { return None; }
      var best := first.value;
      var row := tasks[best];
      tasks := tasks[best := row.(status := Leased, owner := Some(worker), attempt := row.attempt + 1,
                                  expires := Some(now + lease))];
      var run := runs[runOf[best]];
      if run.status == Pending { run := run.(status := Running); }
      runs := runs[runOf[best] := run];
      claim := Some(Claim(best, runOf[best], worker, row.attempt + 1));
    }

    method Heartbeat(c: Claim, now: int, lease: int) returns (alive: bool)
      requires Valid()
      modifies this`tasks
      ensures Valid()
      ensures alive <==> c.task in old(tasks) && HoldsLease(old(tasks)[c.task], c, now)
      ensures tasks == if alive then old(tasks)[c.task := Renew(old(tasks)[c.task], now, lease)] else old(tasks)
      ensures alive <==>
                && c.task in old(tasks)
                && var t := old(tasks)[c.task];
                   && t.status == Leased && t.owner == Some(c.worker) && t.attempt == c.attempt
                   && t.expires.Some? && now < t.expires.value
      ensures alive ==> tasks[c.task] == old(tasks)[c.task].(expires := Some(now + lease))
    {
      alive := c.task in tasks;
      if alive {
        var t := tasks[c.task];
        alive := t.attempt == c.attempt && t.owner == Some(c.worker) && t.status == Leased
                 && t.expires.Some? && t.expires.value > now;
      }
      if alive { tasks := tasks[c.task := tasks[c.task].(expires := Some(now + lease))]; }
    }

    method ReapExpired(now: int, locked: set<TaskId>) returns (n: nat)
      requires Valid()
      modifies this`tasks
      ensures Valid() && tasks.Keys == old(tasks).Keys
      ensures forall t :: t in tasks ==>
                tasks[t] == if t !in locked && Reapable(old(tasks)[t], now) then Requeue(old(tasks)[t])
                            else old(tasks)[t]
      ensures n == |set t | t in old(tasks) && t !in locked && Reapable(old(tasks)[t], now)|
      ensures forall t :: t in tasks ==>
                var row := old(tasks)[t];
                tasks[t] == if t !in locked && row.status == Leased && row.expires.Some? && row.expires.value < now
                            then TaskRow(Queued, None, None, row.attempt, row.available) else row
    {
      ghost var before := tasks;
      var expired := set t | t in tasks && t !in locked && Reapable(tasks[t], now);
      ghost var all := expired;
      n := 0;
      while expired != {}
        invariant expired <= all && n == |all| - |expired| && tasks.Keys == before.Keys
        invariant forall t :: t in tasks ==>
                    tasks[t] == if t in all - expired then Requeue(before[t]) else before[t]
        decreases |expired|
      {
        var t :| t in expired;
        tasks := tasks[t := tasks[t].(status := Queued, owner := None, expires := None)];
        expired := expired - {t};
        n := n + 1;
      }
    }

    method ReleaseTask(c: Claim, now: int, backoff: int) returns (ok: bool)
      requires Valid()
      modifies this`tasks
      ensures Valid()
      ensures ok <==> c.task in old(tasks) && Carries(old(tasks)[c.task], c)
      ensures tasks == if ok then old(tasks)[c.task := Release(old(tasks)[c.task], now, backoff)] else old(tasks)
      ensures ok <==>
                && c.task in old(tasks)
                && var t := old(tasks)[c.task];
                   t.status == Leased && t.owner == Some(c.worker) && t.attempt == c.attempt
      ensures ok ==> tasks[c.task] == TaskRow(Queued, None, None, c.attempt, now + backoff)
    {
      ok := c.task in tasks;
      if ok {
        var t := tasks[c.task];
        ok := t.attempt == c.attempt && t.owner == Some(c.worker) && t.status == Leased;
      }
      if ok {
        var free := tasks[c.task].(status := Queued, owner := None, expires := None, available := now + backoff);
        tasks := tasks[c.task := free];
      }
    }

    // Raises LeaseLostError (false) unless the claim holds an unexpired lease or the fence is off.
    method AssertLease(c: Claim, now: int) returns (ok: bool)
      ensures ok <==> (fenced ==> c.task in tasks && HoldsLease(tasks[c.task], c, now))
      ensures ok <==>
                !fenced || (&& c.task in tasks
                            && var t := tasks[c.task];
                               && t.status == Leased && t.owner == Some(c.worker) && t.attempt == c.attempt
                               && t.expires.Some? && now < t.expires.value)
    {
      if !fenced { return true; }
      if c.task !in tasks { return false; }
      var t := tasks[c.task];
      ok := t.attempt == c.attempt && t.owner == Some(c.worker) && t.status == Leased
            && t.expires.Some? && t.expires.value > now;
    }

    /* ---------- store.py ---------- */

    method AppendEvent(run: RunId, key: StepKey, kind: Kind, payload: Payload, meta: Meta) returns (r: AppendResult)
      requires Valid()
      modifies this`events
      ensures Valid()
      ensures r.RunNotFound? <==> run !in runs
      ensures run !in runs ==> events == old(events)
      ensures run in runs ==>
                && events == old(events)[run := Append(old(events)[run], key, kind, payload, meta)]
                && (r.Present? <==> HasKey(old(events)[run], key))
                && exists i :: 0 <= i < |events[run]| && events[run][i].key == key && events[run][i].seqNo == r.seqNo
    {
      if run !in runs { return RunNotFound; }
      var log := events[run];
      var i, top := 0, 0;
      while i < |log|
        invariant 0 <= i <= |log|
        invariant forall k :: 0 <= k < i ==> log[k].key != key
        invariant top == MaxSeq(log[..i])
      {
        if log[i].key == key { return Present(log[i].seqNo); }
        if log[i].seqNo > top { top := log[i].seqNo; }
        assert log[..i + 1][..i] == log[..i];
        i := i + 1;
      }
      assert log[..i] == log;
      var e := Event(top + 1, kind, payload, key, meta);
      events := events[run := log + [e]];
      assert events[run][|log|] == e;
      r := Appended(top + 1);
    }

    // The place of an event among events that are in order.
    static method InsertBySeq(log: seq<Event>, e: Event) returns (r: seq<Event>)
      requires InOrder(log)
      ensures InOrder(r) && multiset(r) == multiset(log) + multiset{e}
      ensures (forall i :: 0 <= i < |log| ==> log[i].seqNo <= e.seqNo) ==> r == log + [e]
    {
      var k := |log|;
      while k > 0 && log[k - 1].seqNo > e.seqNo
        invariant 0 <= k <= |log|
        invariant forall i :: k <= i < |log| ==> log[i].seqNo > e.seqNo
      {
        k := k - 1;
      }
      r := log[..k] + [e] + log[k..];
      InsertedInOrder(log, k, e);
      InsertedOnce(log, k, e);
    }

    /** The committed events of the run, each as often as it is there, in
        the order of their numbers; a gapless log comes back as it was written. */
    method ReadEvents(run: RunId) returns (log: seq<Event>)
      requires Valid()
      ensures InOrder(log) && multiset(log) == multiset(if run in runs then events[run] else [])
      ensures run in runs && Gapless(run, events[run]) ==> log == events[run]
    {
      log := [];
      if run !in events { return; }
      var rows, i := events[run], 0;
      while i < |rows|
        invariant 0 <= i <= |rows| && InOrder(log) && multiset(log) == multiset(rows[..i])
        invariant Gapless(run, rows) ==> log == rows[..i]
      {
        assert rows[..i + 1] == rows[..i] + [rows[i]];
        log := InsertBySeq(log, rows[i]);
        i := i + 1;
      }
      assert rows[..i] == rows;
    }

    /* ---------- engine.py: commit_step ---------- */

    method CommitStep(c: Claim, now: int, n: nat, out: Outcome) returns (r: CommitResult)
      requires Valid()
      modifies this`runs, this`tasks, this`events
      ensures Valid()
      ensures !old(Knows(c)) && fenced ==> r == Replied(LeaseLost) || r == NoSuchRun
      ensures old(Knows(c)) ==>
                && r == Replied(CommitReply(fenced, old(RowsOf(c)), c, now, n))
                && Knows(c) && RowsOf(c) == CommitRows(fenced, old(RowsOf(c)), c, now, n, out)
                && runs == old(runs)[c.run := runs[c.run]]
                && tasks == old(tasks)[c.task := tasks[c.task]]
                && events == old(events)[c.run := events[c.run]]
      ensures r != Replied(Committed) ==> runs == old(runs) && tasks == old(tasks) && events == old(events)
      ensures r == Replied(LeaseLost) <==>
                fenced && !(&& c.task in old(tasks)
                            && var t := old(tasks)[c.task];
                               && t.status == Leased && t.owner == Some(c.worker) && t.attempt == c.attempt
                               && t.expires.Some? && now < t.expires.value)
    {
      var held := AssertLease(c, now);
      if !held { return Replied(LeaseLost); }
      var res := AppendEvent(c.run, StepKey(c.run, n), out.kind, out.payload, Meta(c.worker, c.attempt, out.final));
      if res.RunNotFound? { return NoSuchRun; }
      if res.Present? { return Replied(AlreadyCommitted); }
      ChargeAndClose(c, out);
      r := Replied(Committed);
    }

    // The rest of the transaction, once the event is in.
    method ChargeAndClose(c: Claim, out: Outcome)
      requires Valid() && c.run in runs
      modifies this`runs, this`tasks
      ensures Valid()
      ensures runs == old(runs)[c.run := old(runs)[c.run].(
                        spent := AddSpend(old(runs)[c.run].spent, out.cost),
                        status := if out.final then out.status else old(runs)[c.run].status)]
      ensures tasks == if out.final && c.task in old(tasks)
                       then old(tasks)[c.task := old(tasks)[c.task].(status := TaskStatus.Done)] else old(tasks)
    {
      runs := runs[c.run := runs[c.run].(spent := AddSpend(runs[c.run].spent, out.cost))];
      if out.final {
        if c.task in tasks { tasks := tasks[c.task := tasks[c.task].(status := TaskStatus.Done)]; }
        runs := runs[c.run := runs[c.run].(status := out.status)];
      }
    }

    /* ---------- llm/cache.py ---------- */

    /** The record of the call precedes the call, which may raise (reply None); `rival` is the answer
        another worker caches meanwhile, if one does. A cached answer is never replaced. */
    method CompleteCached(provider: string, run: RunId, step: nat, messages: seq<Message>, attempt: nat,
                          worker: WorkerId, reply: Option<Response>, rival: Option<Response>)
      returns (answer: Option<Response>)
      modifies this`cache, this`calls
      ensures var key := CacheKey(provider, run, step, messages);
              if key in old(cache)
              then answer == Some(old(cache)[key]) && cache == old(cache) && calls == old(calls)
              else && answer == reply
                   && cache == old(cache) + FirstCached(key, rival, reply)
                   && calls == old(calls) + [(run, Call(step, key, attempt, worker))]
      ensures var key := CacheKey(provider, run, step, messages);
              key !in old(cache) && rival == None && reply.Some? ==>
                && key in cache && cache[key].action == reply.value.action
                && cache[key].inTokens == reply.value.inTokens && cache[key].outTokens == reply.value.outTokens
                && -0.5 <= cache[key].cost * 1000000.0 - reply.value.cost * 1000000.0 <= 0.5
    {
      var key := CacheKey(provider, run, step, messages);
      if key in cache { return Some(cache[key]); }
      calls := calls + [(run, Call(step, key, attempt, worker))];
      if rival.Some? { cache := cache[key := rival.value]; }
      if reply.None? { return None; }
      if key !in cache { cache := cache[key := Stored(reply.value)]; }
      answer := reply;
    }
  }
}
