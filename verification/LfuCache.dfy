/** The reference solution of task C10: a least-frequently-used cache of three dictionaries,
    proved against a specification that only looks at the history of calls. */
module LfuCache {

  type Key = int
  type Value = int

  datatype Call = Get(key: Key) | Put(key: Key, value: Value)

  datatype History = Start | Then(past: History, call: Call)
  {
    function Length(): nat { if Start? then 0 else past.Length() + 1 }
  }

  /* ---------- the specification: what the history says ---------- */

  // The number of calls on k from the call with index `from` on.
  function CallsOn(h: History, k: Key, from: nat): nat {
    if h.Start? || h.Length() <= from then 0
    else CallsOn(h.past, k, from) + if h.call.key == k then 1 else 0
  }

  // The index of the last call on k, -1 if there is none.
  function LastCall(h: History, k: Key): int {
    if h.Start? then -1 else if h.call.key == k then h.past.Length() else LastCall(h.past, k)
  }

  // The value of the last put of k.
  function LastValue(h: History, k: Key): Value {
    if h.Start? then -1
    else if h.call.Put? && h.call.key == k then h.call.value
    else LastValue(h.past, k)
  }

  // The keys in the cache after the calls of h.
  ghost function Resident(cap: int, h: History): set<Key>
    decreases h, 0
  {
    if h.Start? then {}
    else
      var keys := Resident(cap, h.past);
      if h.call.Get? || cap <= 0 || h.call.key in keys then keys
      else if |keys| < cap then keys + {h.call.key}
      else (set x | x in keys && !IsVictim(cap, h.past, keys, x)) + {h.call.key}
  }

  // The index of the call that brought a resident key in.
  ghost function InsertedAt(cap: int, h: History, k: Key): nat
    decreases h, 1
  {
    if h.Start? then 0
    else if k in Resident(cap, h.past) then InsertedAt(cap, h.past, k)
    else h.past.Length()
  }

  // The uses of a resident key since its last insertion, the insertion included.
  ghost function Uses(cap: int, h: History, k: Key): nat
    decreases h, 2
  {
    CallsOn(h, k, InsertedAt(cap, h, k))
  }

  // x goes before y: fewer uses, or as many and used less recently.
  ghost predicate GoesBefore(cap: int, h: History, x: Key, y: Key)
    decreases h, 3
  {
    Uses(cap, h, x) < Uses(cap, h, y) || (Uses(cap, h, x) == Uses(cap, h, y) && LastCall(h, x) <= LastCall(h, y))
  }

  ghost predicate IsVictim(cap: int, h: History, keys: set<Key>, x: Key)
    decreases h, 4
  {
    x in keys && forall y :: y in keys ==> GoesBefore(cap, h, x, y)
  }

  // What get(k) answers after the calls of h.
  ghost function Answer(cap: int, h: History, k: Key): Value {
    if k in Resident(cap, h) then LastValue(h, k) else -1
  }

  /* ---------- facts about the specification ---------- */

  lemma {:induction false} LastCallIsOne(h: History, k: Key, k': Key)
    ensures -1 <= LastCall(h, k) < h.Length()
    ensures LastCall(h, k) >= 0 && LastCall(h, k) == LastCall(h, k') ==> k == k'
  {
    if h.Then? {
      LastCallIsOne(h.past, k, k');
      LastCallIsOne(h.past, k', k);
    }
  }

  lemma {:induction false} ResidentWasCalled(cap: int, h: History, k: Key)
    requires k in Resident(cap, h)
    ensures LastCall(h, k) >= 0
  {
    if h.call.key != k { ResidentWasCalled(cap, h.past, k); }
  }

  /** Two resident keys are never used last by the same call, so the victim is unique. */
  lemma VictimIsUnique(cap: int, h: History, x: Key, y: Key)
    requires IsVictim(cap, h, Resident(cap, h), x) && IsVictim(cap, h, Resident(cap, h), y)
    ensures x == y
  {
    ResidentWasCalled(cap, h, x);
    LastCallIsOne(h, x, y);
    assert GoesBefore(cap, h, x, y) && GoesBefore(cap, h, y, x);
  }

  lemma {:induction false} InsertedBefore(cap: int, h: History, k: Key)
    ensures InsertedAt(cap, h, k) <= h.Length()
    ensures k in Resident(cap, h) ==> InsertedAt(cap, h, k) < h.Length()
  {
    if h.Then? { InsertedBefore(cap, h.past, k); }
  }

  /** One more call adds a use to the key it is on, if that key stays or comes in. */
  lemma UsesStep(cap: int, h: History, call: Call, k: Key)
    requires k in Resident(cap, Then(h, call))
    ensures Uses(cap, Then(h, call), k) ==
              (if k in Resident(cap, h) then Uses(cap, h, k) else 0) + (if call.key == k then 1 else 0)
  {
    var h' := Then(h, call);
    InsertedBefore(cap, h, k);
    if k in Resident(cap, h) {
      assert CallsOn(h', k, InsertedAt(cap, h, k)) == Uses(cap, h, k) + if call.key == k then 1 else 0;
    } else {
      assert call.key == k && CallsOn(h, k, h.Length()) == 0;
      assert CallsOn(h', k, h.Length()) == 1;
    }
  }

  // The keys after an eviction are all but the victim, and the new one.
  lemma EvictionStep(cap: int, h: History, k: Key, v: Value, victim: Key)
    requires cap > 0 && k !in Resident(cap, h) && |Resident(cap, h)| >= cap
    requires IsVictim(cap, h, Resident(cap, h), victim)
    ensures Resident(cap, Then(h, Put(k, v))) == Resident(cap, h) - {victim} + {k}
  {
    forall x | x in Resident(cap, h) && IsVictim(cap, h, Resident(cap, h), x) ensures x == victim {
      VictimIsUnique(cap, h, x, victim);
    }
  }

  /* ---------- the records of the resident keys ---------- */

  datatype Record = Record(value: Value, uses: nat, lastCall: int)

  ghost function RecordOf(cap: int, h: History, k: Key): Record {
    Record(LastValue(h, k), Uses(cap, h, k), LastCall(h, k))
  }

  // p is what the history says of the resident keys.
  ghost predicate Records(cap: int, h: History, p: map<Key, Record>) {
    p.Keys == Resident(cap, h) && forall k :: k in p ==> p[k] == RecordOf(cap, h, k)
  }

  // The records after a call that uses key k: the keys of `gone` leave, the others stay.
  function AfterUse(p: map<Key, Record>, gone: set<Key>, call: Call, v: Value, n: nat): map<Key, Record> {
    (p - gone)[call.key := Record(v, (if call.key in p then p[call.key].uses else 0) + 1, n)]
  }

  lemma UseRecords(cap: int, h: History, call: Call, p: map<Key, Record>, gone: set<Key>, v: Value)
    requires Records(cap, h, p) && call.key !in gone
    requires Resident(cap, Then(h, call)) == p.Keys - gone + {call.key}
    requires if call.Put? then v == call.value else call.key in p && v == p[call.key].value
    ensures Records(cap, Then(h, call), AfterUse(p, gone, call, v, h.Length()))
  {
    var p' := AfterUse(p, gone, call, v, h.Length());
    forall x | x in p' ensures p'[x] == RecordOf(cap, Then(h, call), x) {
      UsesStep(cap, h, call, x);
      if x != call.key { assert p'[x] == p[x]; }
    }
  }

  lemma IdleRecords(cap: int, h: History, call: Call, p: map<Key, Record>)
    requires Records(cap, h, p) && call.key !in p && Resident(cap, Then(h, call)) == p.Keys
    ensures Records(cap, Then(h, call), p)
  {
    forall x | x in p ensures p[x] == RecordOf(cap, Then(h, call), x) { UsesStep(cap, h, call, x); }
  }

  lemma CallsAreBehind(cap: int, h: History, p: map<Key, Record>)
    requires Records(cap, h, p)
    ensures forall x :: x in p ==> p[x].lastCall < h.Length()
  {
    forall x | x in p ensures p[x].lastCall < h.Length() { LastCallIsOne(h, x, x); }
  }

  /* ---------- the dictionaries ---------- */

  datatype Dicts = Dicts(vals: map<Key, Value>, freq: map<Key, nat>, last: map<Key, nat>, tick: nat)

  // The dictionaries hold the records; ticks order the keys as their last calls do.
  ghost predicate Match(p: map<Key, Record>, d: Dicts) {
    && d.vals.Keys == p.Keys && d.freq.Keys == p.Keys && d.last.Keys == p.Keys
    && (forall k :: k in p ==> d.vals[k] == p[k].value && d.freq[k] == p[k].uses && d.last[k] <= d.tick)
    && (forall x, y :: x in p && y in p ==> (d.last[x] < d.last[y] <==> p[x].lastCall < p[y].lastCall))
  }

  // After dropping `gone`, key k is used and maps to v.
  function Use(d: Dicts, gone: set<Key>, k: Key, v: Value): Dicts {
    Dicts((d.vals - gone)[k := v],
          (d.freq - gone)[k := (if k in d.freq - gone then (d.freq - gone)[k] else 0) + 1],
          (d.last - gone)[k := d.tick + 1], d.tick + 1)
  }

  lemma UseMatches(p: map<Key, Record>, d: Dicts, gone: set<Key>, call: Call, v: Value, n: nat)
    requires Match(p, d) && call.key !in gone && forall x :: x in p ==> p[x].lastCall < n
    ensures Match(AfterUse(p, gone, call, v, n), Use(d, gone, call.key, v))
  {
  }

  // The dictionaries agree with the history and fit the capacity.
  ghost predicate Agree(cap: int, h: History, d: Dicts) {
    && (exists p :: Records(cap, h, p) && Match(p, d))
    && |d.vals.Keys| <= (if cap > 0 then cap else 0)
  }

  lemma UseAgrees(cap: int, h: History, call: Call, d: Dicts, gone: set<Key>, v: Value)
    requires Agree(cap, h, d) && call.key !in gone
    requires Resident(cap, Then(h, call)) == d.vals.Keys - gone + {call.key}
    requires |d.vals.Keys - gone + {call.key}| <= (if cap > 0 then cap else 0)
    requires if call.Put? then v == call.value else call.key in d.vals && v == d.vals[call.key]
    ensures Agree(cap, Then(h, call), Use(d, gone, call.key, v))
  {
    var p :| Records(cap, h, p) && Match(p, d);
    UseRecords(cap, h, call, p, gone, v);
    CallsAreBehind(cap, h, p);
    UseMatches(p, d, gone, call, v, h.Length());
    assert Use(d, gone, call.key, v).vals.Keys == d.vals.Keys - gone + {call.key};
  }

  lemma IdleAgrees(cap: int, h: History, call: Call, d: Dicts)
    requires Agree(cap, h, d) && call.key !in d.vals && Resident(cap, Then(h, call)) == d.vals.Keys
    ensures Agree(cap, Then(h, call), d)
  {
    var p :| Records(cap, h, p) && Match(p, d);
    IdleRecords(cap, h, call, p);
  }

  /** What agreement says of one key: it is there iff the history says so, with that value. */
  lemma AgreeAt(cap: int, h: History, d: Dicts, k: Key)
    requires Agree(cap, h, d)
    ensures d.vals.Keys == d.freq.Keys == d.last.Keys == Resident(cap, h)
    ensures Answer(cap, h, k) == if k in d.vals then d.vals[k] else -1
  {
    var p :| Records(cap, h, p) && Match(p, d);
    if k in p { assert p[k] == RecordOf(cap, h, k); }
  }

  // get and put on the dictionaries.
  function AfterGet(d: Dicts, k: Key): Dicts {
    if k in d.vals then Use(d, {}, k, d.vals[k]) else d
  }

  lemma GetAgrees(cap: int, h: History, d: Dicts, k: Key)
    requires Agree(cap, h, d)
    ensures Agree(cap, Then(h, Get(k)), AfterGet(d, k))
    ensures Answer(cap, h, k) == if k in d.vals then d.vals[k] else -1
  {
    AgreeAt(cap, h, d, k);
    if k in d.vals {
      assert d.vals.Keys - {} + {k} == d.vals.Keys;
      UseAgrees(cap, h, Get(k), d, {}, d.vals[k]);
    } else {
      IdleAgrees(cap, h, Get(k), d);
    }
  }

  // The least used, then least recently used, of the dictionaries' keys.
  predicate IsLeast(d: Dicts, x: Key)
    requires d.freq.Keys == d.last.Keys
  {
    x in d.freq && forall y :: y in d.freq ==>
      d.freq[x] < d.freq[y] || (d.freq[x] == d.freq[y] && d.last[x] <= d.last[y])
  }

  lemma LeastIsVictim(cap: int, h: History, d: Dicts, x: Key)
    requires Agree(cap, h, d) && d.freq.Keys == d.last.Keys && IsLeast(d, x)
    ensures IsVictim(cap, h, Resident(cap, h), x)
  {
    var p :| Records(cap, h, p) && Match(p, d);
    assert p[x] == RecordOf(cap, h, x);
    forall y | y in p ensures GoesBefore(cap, h, x, y) {
      assert p[y] == RecordOf(cap, h, y);
      assert !(d.last[y] < d.last[x]) || d.freq[x] < d.freq[y];
    }
  }

  // What put must drop first.
  predicate Drops(cap: int, d: Dicts, k: Key, gone: set<Key>)
    requires d.freq.Keys == d.last.Keys
  {
    if k !in d.vals && |d.vals| >= cap then exists x :: x in gone && gone == {x} && IsLeast(d, x) else gone == {}
  }

  // A key leaves and another one comes.
  lemma Swapped(keys: set<Key>, x: Key, k: Key)
    requires x in keys && k !in keys
    ensures |keys - {x} + {k}| == |keys|
  {
  }

  lemma EvictKeys(cap: int, h: History, d: Dicts, k: Key, v: Value, x: Key)
    requires Agree(cap, h, d) && cap > 0 && d.freq.Keys == d.last.Keys && IsLeast(d, x)
    requires k !in d.vals && |d.vals.Keys| >= cap
    ensures Resident(cap, Then(h, Put(k, v))) == d.vals.Keys - {x} + {k} && |d.vals.Keys - {x} + {k}| <= cap
  {
    AgreeAt(cap, h, d, k);
    LeastIsVictim(cap, h, d, x);
    EvictionStep(cap, h, k, v, x);
    Swapped(d.vals.Keys, x, k);
  }

  // The keys that are resident after a put.
  lemma PutKeys(cap: int, h: History, d: Dicts, k: Key, v: Value, gone: set<Key>)
    requires Agree(cap, h, d) && cap > 0 && d.freq.Keys == d.last.Keys && Drops(cap, d, k, gone)
    ensures k !in gone && Resident(cap, Then(h, Put(k, v))) == d.vals.Keys - gone + {k}
    ensures |d.vals.Keys - gone + {k}| <= cap
  {
    AgreeAt(cap, h, d, k);
    assert |d.vals| == |d.vals.Keys|;
    if gone != {} {
      var x :| x in gone && gone == {x} && IsLeast(d, x);
      EvictKeys(cap, h, d, k, v, x);
    } else if k in d.vals {
      assert d.vals.Keys - gone + {k} == d.vals.Keys;
    } else {
      assert d.vals.Keys - gone == d.vals.Keys;
    }
  }

  lemma PutAgrees(cap: int, h: History, d: Dicts, k: Key, v: Value, gone: set<Key>)
    requires Agree(cap, h, d) && cap > 0 && d.freq.Keys == d.last.Keys && Drops(cap, d, k, gone)
    ensures Agree(cap, Then(h, Put(k, v)), Use(d, gone, k, v))
  {
    PutKeys(cap, h, d, k, v, gone);
    UseAgrees(cap, h, Put(k, v), d, gone, v);
  }

  // An element of a set that is not empty.
  method PickFrom<T>(s: set<T>) returns (x: T)
    requires s != {}
    ensures x in s
  {
    x :| x in s;
  }

  /* ---------- the cache ---------- */

  class LFUCache {
    const cap: int
    var vals: map<Key, Value>
    var freq: map<Key, nat>
    var last: map<Key, nat>
    var tick: nat
    ghost var history: History       // the calls so far

    function State(): Dicts
      reads this
    {
      Dicts(vals, freq, last, tick)
    }

    ghost predicate Valid()
      reads this
    {
      Agree(cap, history, State())
    }

    constructor (capacity: int)
      ensures Valid() && cap == capacity && history == Start
    {
      cap := capacity;
      vals, freq, last, tick, history := map[], map[], map[], 0, Start;
      new;
      assert Records(cap, Start, map[]) && Match(map[], State());
    }

    // _touch
    method Touch(k: Key)
      modifies this`freq, this`last, this`tick
      ensures tick == old(tick) + 1
      ensures freq == old(freq)[k := (if k in old(freq) then old(freq)[k] else 0) + 1]
      ensures last == old(last)[k := tick]
    {
      tick := tick + 1;
      freq := freq[k := (if k in freq then freq[k] else 0) + 1];
      last := last[k := tick];
    }

    /** get answers what the history says; a hit is a use, a miss changes no dictionary. */
    method Get(k: Key) returns (r: Value)
      requires Valid()
      modifies this
      ensures Valid() && history == Then(old(history), Call.Get(k))
      ensures r == Answer(cap, old(history), k)
      ensures k !in old(vals) ==> State() == old(State())
    {
      GetAgrees(cap, history, State(), k);
      r := Look(k);
      history := Then(history, Call.Get(k));
    }

    // get on the dictionaries
    method Look(k: Key) returns (r: Value)
      modifies this`freq, this`last, this`tick
      ensures State() == AfterGet(old(State()), k)
      ensures r == if k in vals then vals[k] else -1
    {
      if k !in vals { return -1; }
      assert vals - {} == vals && freq - {} == freq && last - {} == last;
      Touch(k);
      r := vals[k];
    }

    // The key with the least pair of frequency and last tick.
    method Victim() returns (victim: Key)
      requires vals.Keys == freq.Keys == last.Keys && vals.Keys != {}
      ensures IsLeast(State(), victim)
    {
      var left := vals.Keys;
      victim := PickFrom(left);
      while left != {}
        invariant victim in vals && left <= vals.Keys
        invariant forall y :: y in vals && y !in left ==>
                    freq[victim] < freq[y] || (freq[victim] == freq[y] && last[victim] <= last[y])
        decreases |left|
      {
        var x := PickFrom(left);
        if freq[x] < freq[victim] || (freq[x] == freq[victim] && last[x] < last[victim]) { victim := x; }
        left := left - {x};
      }
    }

    // A key that is not to go makes room for k: what put drops before it stores k.
    method MakeRoom(k: Key) returns (ghost gone: set<Key>)
      requires vals.Keys == freq.Keys == last.Keys && cap > 0
      modifies this`vals, this`freq, this`last
      ensures Drops(cap, old(State()), k, gone)
      ensures vals == old(vals) - gone && freq == old(freq) - gone && last == old(last) - gone
    {
      gone := {};
      if k !in vals && |vals| >= cap {
        assert |vals.Keys| == |vals|;
        var victim := Victim();
        gone := {victim};
        vals, freq, last := vals - {victim}, freq - {victim}, last - {victim};
      } else {
        assert vals - {} == vals && freq - {} == freq && last - {} == last;
      }
    }

    // put on the dictionaries, for a positive capacity
    method Store(k: Key, v: Value) returns (ghost gone: set<Key>)
      requires vals.Keys == freq.Keys == last.Keys && cap > 0
      modifies this`vals, this`freq, this`last, this`tick
      ensures Drops(cap, old(State()), k, gone) && State() == Use(old(State()), gone, k, v)
    {
      gone := MakeRoom(k);
      vals := vals[k := v];
      Touch(k);
    }

    /** put: the dictionaries follow the history by one call; a new key in a full cache evicts
        the one least frequently, then least recently, used. */
    method Put(k: Key, v: Value)
      requires Valid()
      modifies this
      ensures Valid() && history == Then(old(history), Call.Put(k, v))
      ensures vals.Keys == freq.Keys == last.Keys == Resident(cap, history)
      ensures |vals.Keys| <= (if cap > 0 then cap else 0)
    {
      ghost var h, d := history, State();
      AgreeAt(cap, h, d, k);
      if cap <= 0 {
        IdleAgrees(cap, h, Call.Put(k, v), d);
      } else {
        ghost var gone := Store(k, v);
        PutAgrees(cap, h, d, k, v, gone);
      }
      history := Then(h, Call.Put(k, v));
      AgreeAt(cap, history, State(), k);
    }
  }
}
