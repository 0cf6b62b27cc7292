/** The reference solution of task C06: Kahn's algorithm with a min-heap. Task names are
    represented by their ranks in alphabetical order. The heap is the multiset of its elements. */
module TopologicalOrder {
  import opened Options

  type Task = nat
  type Deps = map<Task, seq<Task>>

  ghost function Tasks(deps: Deps): set<Task> {
    deps.Keys + set t, p | t in deps.Keys && p in deps[t] :: p
  }

  // The prerequisites of t; duplicates are harmless, a task that is no key has none.
  function Pre(deps: Deps, t: Task): set<Task> {
    if t in deps then set p | p in deps[t] else {}
  }

  function Elements(s: seq<Task>): set<Task> { set x | x in s }

  predicate Distinct(s: seq<Task>) {
    forall i, j :: 0 <= i < j < |s| ==> s[i] != s[j]
  }

  // Every prerequisite stands earlier.
  ghost predicate PrerequisitesFirst(deps: Deps, s: seq<Task>) {
    forall i :: 0 <= i < |s| ==> Pre(deps, s[i]) <= Elements(s[..i])
  }

  ghost predicate IsOrder(deps: Deps, s: seq<Task>) {
    Distinct(s) && Elements(s) == Tasks(deps) && PrerequisitesFirst(deps, s)
  }

  predicate LexAtMost(a: seq<Task>, b: seq<Task>) {
    a != [] ==> b != [] && (a[0] < b[0] || (a[0] == b[0] && LexAtMost(a[1..], b[1..])))
  }

  // The lists agree up to k, and there a has the smaller task.
  predicate DiffersBelow(a: seq<Task>, b: seq<Task>, k: nat) {
    k < |a| && k < |b| && a[..k] == b[..k] && a[k] < b[k]
  }

  lemma HeadsAgree(a: seq<Task>, b: seq<Task>)
    ensures forall k: nat :: DiffersBelow(a, b, k) ==> a[0] < b[0] || a[0] == b[0]
  {
    forall k: nat | DiffersBelow(a, b, k) ensures a[0] < b[0] || a[0] == b[0] {
      if k > 0 { assert a[..k][0] == b[..k][0]; }
    }
  }

  /** LexAtMost is the lexicographic order: a is a prefix of b, or smaller where they first differ. */
  lemma {:induction false} LexExact(a: seq<Task>, b: seq<Task>)
    ensures LexAtMost(a, b) <==> a <= b || exists k: nat :: DiffersBelow(a, b, k)
  {
    if a != [] && b != [] && a[0] == b[0] {
      LexExact(a[1..], b[1..]);
      assert a == [a[0]] + a[1..] && b == [b[0]] + b[1..];
      if k: nat :| DiffersBelow(a, b, k) {
        assert k > 0;
        assert a[1..][..k - 1] == a[..k][1..] && b[1..][..k - 1] == b[..k][1..];
        assert DiffersBelow(a[1..], b[1..], k - 1);
      }
      if k: nat :| DiffersBelow(a[1..], b[1..], k) {
        assert a[..k + 1] == [a[0]] + a[1..][..k] && b[..k + 1] == [b[0]] + b[1..][..k];
        assert DiffersBelow(a, b, k + 1);
      }
    } else if a != [] && b != [] && a[0] < b[0] {
      assert DiffersBelow(a, b, 0);
    } else {
      HeadsAgree(a, b);
    }
  }

  // c[1] is a prerequisite of c[0], and so on around.
  ghost predicate IsCycle(deps: Deps, c: seq<Task>) {
    && c != []
    && (forall i :: 0 <= i < |c| - 1 ==> c[i + 1] in Pre(deps, c[i]))
    && c[0] in Pre(deps, c[|c| - 1])
  }

  // Not placed yet, with all prerequisites placed.
  ghost predicate IsReady(deps: Deps, placed: set<Task>, t: Task) {
    t in Tasks(deps) && t !in placed && Pre(deps, t) <= placed
  }

  // Each element was the least ready task when it was placed.
  ghost predicate Greedy(deps: Deps, s: seq<Task>) {
    forall i, t :: 0 <= i < |s| && IsReady(deps, Elements(s[..i]), t) ==> s[i] <= t
  }

  /* ---------- the greedy order is the least ---------- */

  lemma {:induction false} SizeOf(s: seq<Task>)
    requires Distinct(s)
    ensures |Elements(s)| == |s|
  {
    if s != [] {
      var n := |s| - 1;
      SizeOf(s[..n]);
      assert Elements(s) == Elements(s[..n]) + {s[n]};
      assert s[n] !in s[..n];
    }
  }

  lemma {:induction false} AgreeingPrefix(deps: Deps, s: seq<Task>, o: seq<Task>, k: nat)
    requires IsOrder(deps, s) && Greedy(deps, s) && IsOrder(deps, o) && |s| == |o|
    requires k <= |s| && s[..k] == o[..k]
    ensures LexAtMost(s[k..], o[k..])
    decreases |s| - k
  {
    if k < |s| {
      assert o[k] in Elements(o);
      assert IsReady(deps, Elements(s[..k]), o[k]);
      if s[k] == o[k] {
        assert s[..k + 1] == s[..k] + [s[k]] && o[..k + 1] == o[..k] + [o[k]];
        AgreeingPrefix(deps, s, o, k + 1);
        assert s[k..][1..] == s[k + 1..] && o[k..][1..] == o[k + 1..];
      }
    }
  }

  lemma GreedyIsLeast(deps: Deps, s: seq<Task>, o: seq<Task>)
    requires IsOrder(deps, s) && Greedy(deps, s) && IsOrder(deps, o)
    ensures LexAtMost(s, o)
  {
    SizeOf(s);
    SizeOf(o);
    AgreeingPrefix(deps, s, o, 0);
    assert s[0..] == s && o[0..] == o;
  }

  /* ---------- cycles ---------- */

  lemma {:induction false} CycleStays(deps: Deps, c: seq<Task>, o: seq<Task>, k: nat)
    requires IsCycle(deps, c) && PrerequisitesFirst(deps, o) && k <= |o|
    ensures forall i :: 0 <= i < |c| ==> c[i] !in o[..k]
    decreases k
  {
    if k > 0 {
      CycleStays(deps, c, o, k - 1);
      assert o[..k] == o[..k - 1] + [o[k - 1]];
      forall i | 0 <= i < |c| ensures c[i] != o[k - 1] {
        var next := if i < |c| - 1 then c[i + 1] else c[0];
        assert next in Pre(deps, c[i]) && next !in o[..k - 1];
        assert Pre(deps, o[k - 1]) <= Elements(o[..k - 1]);
      }
    }
  }

  /** No order places a task of a cycle. */
  lemma CycleForbidsOrder(deps: Deps, c: seq<Task>, o: seq<Task>)
    requires IsCycle(deps, c)
    ensures !IsOrder(deps, o)
  {
    var last := c[|c| - 1];
    assert last in deps && c[0] in deps[last];
    assert c[0] in Tasks(deps);
    if PrerequisitesFirst(deps, o) {
      CycleStays(deps, c, o, |o|);
      assert o[..|o|] == o;
    }
  }

  // A walk from t along prerequisites inside `rest`.
  ghost predicate IsWalk(deps: Deps, rest: set<Task>, w: seq<Task>) {
    && (forall i :: 0 <= i < |w| ==> w[i] in rest)
    && (forall i :: 0 <= i < |w| - 1 ==> w[i + 1] in Pre(deps, w[i]))
  }

  lemma Element<T>(s: set<T>) returns (x: T)
    requires s != {}
    ensures x in s
  {
    x :| x in s;
  }

  lemma {:induction false} WalkOfLength(deps: Deps, rest: set<Task>, n: nat) returns (w: seq<Task>)
    requires rest != {} && forall t :: t in rest ==> Pre(deps, t) * rest != {}
    ensures |w| == n + 1 && IsWalk(deps, rest, w)
  {
    if n == 0 {
      var t := Element(rest);
      w := [t];
    } else {
      w := WalkOfLength(deps, rest, n - 1);
      var last := w[|w| - 1];
      assert last in rest;
      var p := Element(Pre(deps, last) * rest);
      w := w + [p];
    }
  }

  lemma {:induction false} DistinctFits(s: seq<Task>, rest: set<Task>)
    requires Distinct(s) && Elements(s) <= rest
    ensures |s| <= |rest|
    decreases s
  {
    if s != [] {
      var n := |s| - 1;
      assert s[n] in s;
      DistinctFits(s[..n], rest - {s[n]});
    }
  }

  lemma Repeated(s: seq<Task>) returns (i: nat, j: nat)
    requires !Distinct(s)
    ensures i < j < |s| && s[i] == s[j]
  {
    i, j :| 0 <= i < j < |s| && s[i] == s[j];
  }

  /** A remainder in which every task still waits for another one contains a cycle. */
  lemma StuckHasCycle(deps: Deps, rest: set<Task>) returns (c: seq<Task>)
    requires rest != {} && forall t :: t in rest ==> Pre(deps, t) * rest != {}
    ensures IsCycle(deps, c)
  {
    var w := WalkOfLength(deps, rest, |rest|);
    if Distinct(w) { DistinctFits(w, rest); }
    var i, j := Repeated(w);
    c := w[i..j];
    assert forall k :: 0 <= k < |c| ==> c[k] == w[i + k];
    assert w[j] in Pre(deps, w[j - 1]);
  }

  /* ---------- the algorithm ---------- */

  // Takes the least element off the heap.
  method PopLeast(heap: multiset<Task>) returns (t: Task, rest: multiset<Task>)
    requires heap != multiset{}
    ensures t in heap && rest == heap - multiset{t}
    ensures forall x :: x in heap ==> t <= x
  {
    t :| t in heap;
    var left := heap - multiset{t};
    while left != multiset{}
      invariant t in heap && left <= heap
      invariant forall x :: x in heap && x !in left ==> t <= x
      decreases |left|
    {
      var x :| x in left;
      if x < t { t := x; }
      left := left - multiset{x};
    }
    rest := heap - multiset{t};
  }

  // x is listed by one of the given tasks.
  ghost predicate ListedBy(deps: Deps, some: set<Task>, x: Task) {
    exists t :: t in some && t in deps && x in deps[t]
  }

  lemma OneMoreLists(deps: Deps, some: set<Task>, t: Task)
    requires t in deps
    ensures forall x :: ListedBy(deps, some + {t}, x) <==> ListedBy(deps, some, x) || x in deps[t]
  {
    forall x ensures ListedBy(deps, some + {t}, x) <==> ListedBy(deps, some, x) || x in deps[t] {
      if x in deps[t] { assert t in some + {t}; }
    }
  }

  method AllTasks(deps: Deps) returns (tasks: set<Task>)
    ensures tasks == Tasks(deps)
  {
    tasks := deps.Keys;
    var keys := deps.Keys;
    while keys != {}
      invariant keys <= deps.Keys
      invariant forall x :: x in tasks <==> x in deps || ListedBy(deps, deps.Keys - keys, x)
      decreases |keys|
    {
      var t :| t in keys;
      OneMoreLists(deps, deps.Keys - keys, t);
      assert deps.Keys - (keys - {t}) == deps.Keys - keys + {t};
      tasks := tasks + set p | p in deps[t];
      keys := keys - {t};
    }
    assert deps.Keys - keys == deps.Keys;
    forall x ensures x in Tasks(deps) <==> x in deps || ListedBy(deps, deps.Keys, x) {}
  }

  // dependents[p] lists, once each, the tasks of `scanned` that have p among their prerequisites.
  ghost predicate ListsDependents(deps: Deps, tasks: set<Task>, scanned: set<Task>, dependents: map<Task, seq<Task>>) {
    && dependents.Keys == tasks
    && (forall p :: p in tasks ==> Distinct(dependents[p]))
    && (forall p, t :: p in tasks ==> (t in dependents[p] <==> t in scanned && p in Pre(deps, t)))
  }

  // Lists t as a dependent of each of its prerequisites.
  method AppendToEach(dependents: map<Task, seq<Task>>, t: Task, ps: set<Task>) returns (after: map<Task, seq<Task>>)
    requires ps <= dependents.Keys
    ensures after.Keys == dependents.Keys
    ensures forall p :: p in after ==> after[p] == if p in ps then dependents[p] + [t] else dependents[p]
  {
    after := dependents;
    var left := ps;
    while left != {}
      invariant left <= ps && after.Keys == dependents.Keys
      invariant forall p :: p in after ==> after[p] == if p in ps - left then dependents[p] + [t] else dependents[p]
      decreases |left|
    {
      var p :| p in left;
      after := after[p := after[p] + [t]];
      left := left - {p};
    }
  }

  lemma OneMoreScanned(deps: Deps, tasks: set<Task>, scanned: set<Task>, t: Task,
                       before: map<Task, seq<Task>>, after: map<Task, seq<Task>>)
    requires ListsDependents(deps, tasks, scanned, before) && t !in scanned && after.Keys == tasks
    requires forall p :: p in after ==> after[p] == if p in Pre(deps, t) then before[p] + [t] else before[p]
    ensures ListsDependents(deps, tasks, scanned + {t}, after)
  {
    forall p | p in tasks ensures Distinct(after[p]) {
      assert t !in before[p];
    }
  }

  // One round of the scan that lists the dependents.
  method ScanOne(deps: Deps, tasks: set<Task>, ghost scanned: set<Task>, t: Task, dependents: map<Task, seq<Task>>)
    returns (after: map<Task, seq<Task>>)
    requires tasks == Tasks(deps) && t in tasks && t !in scanned && ListsDependents(deps, tasks, scanned, dependents)
    ensures ListsDependents(deps, tasks, scanned + {t}, after)
  {
    assert Pre(deps, t) <= Tasks(deps);
    after := AppendToEach(dependents, t, Pre(deps, t));
    OneMoreScanned(deps, tasks, scanned, t, dependents, after);
  }

  method Dependents(deps: Deps, tasks: set<Task>) returns (dependents: map<Task, seq<Task>>)
    requires tasks == Tasks(deps)
    ensures ListsDependents(deps, tasks, tasks, dependents)
  {
    dependents := map t | t in tasks :: [];
    var left := tasks;
    while left != {}
      invariant left <= tasks && ListsDependents(deps, tasks, tasks - left, dependents)
      decreases |left|
    {
      var t :| t in left;
      dependents := ScanOne(deps, tasks, tasks - left, t, dependents);
      assert tasks - (left - {t}) == (tasks - left) + {t};
      left := left - {t};
    }
    assert tasks - left == tasks;
  }

  // The tasks ready after placing `placed` and then t, and how they arise.
  lemma ReadyAfter(deps: Deps, placed: set<Task>, t: Task, x: Task)
    requires IsReady(deps, placed, t) && forall y :: y in placed ==> Pre(deps, y) <= placed
    ensures IsReady(deps, placed + {t}, x) <==>
              x != t && (IsReady(deps, placed, x)
                         || (x in Tasks(deps) && t in Pre(deps, x) && Pre(deps, x) <= placed + {t}))
  {
  }

  ghost predicate HeapIs(deps: Deps, placed: set<Task>, heap: multiset<Task>) {
    forall x :: heap[x] == if IsReady(deps, placed, x) then 1 else 0
  }

  // The heap before the pop, less t, plus the dependents of t that became free.
  lemma HeapAfter(deps: Deps, placed: set<Task>, t: Task, dependents: seq<Task>, heap: multiset<Task>,
                  heap': multiset<Task>)
    requires IsReady(deps, placed, t) && forall y :: y in placed ==> Pre(deps, y) <= placed
    requires forall x :: x in dependents <==> x in Tasks(deps) && t in Pre(deps, x)
    requires HeapIs(deps, placed, heap + multiset{t})
    requires forall x :: heap'[x] == heap[x] + if x in dependents && Pre(deps, x) <= placed + {t} then 1 else 0
    ensures HeapIs(deps, placed + {t}, heap')
  {
    forall x ensures heap'[x] == if IsReady(deps, placed + {t}, x) then 1 else 0 {
      ReadyAfter(deps, placed, t, x);
      assert (heap + multiset{t})[x] == if IsReady(deps, placed, x) then 1 else 0;
    }
  }

  // prereq holds what each task still waits for.
  ghost predicate WaitsIs(deps: Deps, placed: set<Task>, prereq: map<Task, set<Task>>) {
    prereq.Keys == Tasks(deps) && forall x :: x in prereq ==> prereq[x] == Pre(deps, x) - placed
  }

  // Takes t off what its dependents wait for, and pushes those that wait for nothing more.
  method Discard(t: Task, dependents: seq<Task>, prereq: map<Task, set<Task>>, heap: multiset<Task>)
    returns (prereq': map<Task, set<Task>>, heap': multiset<Task>)
    requires Distinct(dependents) && forall x :: x in dependents ==> x in prereq
    ensures prereq'.Keys == prereq.Keys
    ensures forall x :: x in prereq ==> prereq'[x] == if x in dependents then prereq[x] - {t} else prereq[x]
    ensures forall x :: heap'[x] == heap[x] + if x in dependents && prereq[x] - {t} == {} then 1 else 0
  {
    prereq', heap' := prereq, heap;
    var i := 0;
    while i < |dependents|
      invariant 0 <= i <= |dependents| && prereq'.Keys == prereq.Keys
      invariant forall x :: x in prereq ==>
                  prereq'[x] == if x in dependents[..i] then prereq[x] - {t} else prereq[x]
      invariant forall x :: heap'[x] == heap[x] +
                  if x in dependents[..i] && x in prereq && prereq[x] - {t} == {} then 1 else 0
    {
      var d := dependents[i];
      assert d in dependents && d !in dependents[..i];
      assert dependents[..i + 1] == dependents[..i] + [d];
      prereq' := prereq'[d := prereq'[d] - {t}];
      if prereq'[d] == {} { heap' := heap' + multiset{d}; }
      i := i + 1;
    }
    assert dependents[..i] == dependents;
  }

  lemma WaitsAfter(deps: Deps, placed: set<Task>, t: Task, dependents: seq<Task>,
                   prereq: map<Task, set<Task>>, prereq': map<Task, set<Task>>)
    requires WaitsIs(deps, placed, prereq) && prereq'.Keys == prereq.Keys
    requires forall x :: x in dependents <==> x in Tasks(deps) && t in Pre(deps, x)
    requires forall x :: x in prereq ==> prereq'[x] == if x in dependents then prereq[x] - {t} else prereq[x]
    ensures WaitsIs(deps, placed + {t}, prereq')
    ensures forall x :: x in dependents ==> (prereq[x] - {t} == {} <==> Pre(deps, x) <= placed + {t})
  {
    forall x | x in prereq ensures prereq'[x] == Pre(deps, x) - (placed + {t}) {
      assert prereq[x] == Pre(deps, x) - placed;
    }
  }

  /** Placing t: its dependents lose it as a prerequisite, and those left with none are pushed. */
  method Place(deps: Deps, ghost placed: set<Task>, t: Task, dependents: seq<Task>,
               prereq: map<Task, set<Task>>, heap: multiset<Task>)
    returns (prereq': map<Task, set<Task>>, heap': multiset<Task>)
    requires IsReady(deps, placed, t) && forall y :: y in placed ==> Pre(deps, y) <= placed
    requires Distinct(dependents) && forall x :: x in dependents <==> x in Tasks(deps) && t in Pre(deps, x)
    requires WaitsIs(deps, placed, prereq) && HeapIs(deps, placed, heap + multiset{t})
    ensures WaitsIs(deps, placed + {t}, prereq') && HeapIs(deps, placed + {t}, heap')
  {
    prereq', heap' := Discard(t, dependents, prereq, heap);
    WaitsAfter(deps, placed, t, dependents, prereq, prereq');
    HeapAfter(deps, placed, t, dependents, heap, heap');
  }

  // The heap of the tasks without prerequisites.
  method FirstReady(deps: Deps, prereq: map<Task, set<Task>>) returns (heap: multiset<Task>)
    requires WaitsIs(deps, {}, prereq)
    ensures HeapIs(deps, {}, heap)
  {
    heap := multiset(set t | t in prereq.Keys && prereq[t] == {});
    forall x ensures heap[x] == if IsReady(deps, {}, x) then 1 else 0 {
      assert x in prereq ==> prereq[x] == Pre(deps, x) - {};
    }
  }

  // Placed so far: distinct tasks, prerequisites first, each the least ready one.
  ghost predicate Partial(deps: Deps, s: seq<Task>) {
    Distinct(s) && Elements(s) <= Tasks(deps) && PrerequisitesFirst(deps, s) && Greedy(deps, s)
  }

  lemma PlacedIsClosed(deps: Deps, s: seq<Task>)
    requires PrerequisitesFirst(deps, s)
    ensures forall y :: y in Elements(s) ==> Pre(deps, y) <= Elements(s)
  {
    forall y | y in Elements(s) ensures Pre(deps, y) <= Elements(s) {
      var i :| 0 <= i < |s| && s[i] == y;
      assert Elements(s[..i]) <= Elements(s);
    }
  }

  lemma AppendKeeps(deps: Deps, s: seq<Task>, t: Task)
    requires Partial(deps, s)
    requires IsReady(deps, Elements(s), t) && forall x :: IsReady(deps, Elements(s), x) ==> t <= x
    ensures Elements(s + [t]) == Elements(s) + {t} && Partial(deps, s + [t])
  {
    var s' := s + [t];
    assert forall i :: 0 <= i < |s| ==> s'[..i] == s[..i];
    assert s'[..|s|] == s;
    assert forall i :: 0 <= i < |s| ==> s[i] in Elements(s);
  }

  // A task that is left waits for another task that is left.
  lemma LeftWaits(deps: Deps, placed: set<Task>, t: Task) returns (p: Task)
    requires t in Tasks(deps) - placed && !IsReady(deps, placed, t)
    ensures p in Pre(deps, t) && p in Tasks(deps) - placed
  {
    p :| p in Pre(deps, t) && p !in placed;
    assert t in deps && p in deps[t];
  }

  lemma CompleteIsLeast(deps: Deps, s: seq<Task>)
    requires Partial(deps, s) && Elements(s) == Tasks(deps)
    ensures IsOrder(deps, s) && (forall o :: IsOrder(deps, o) ==> LexAtMost(s, o)) && !exists c :: IsCycle(deps, c)
  {
    forall o | IsOrder(deps, o) ensures LexAtMost(s, o) { GreedyIsLeast(deps, s, o); }
    forall c | IsCycle(deps, c) ensures !IsOrder(deps, s) { CycleForbidsOrder(deps, c, s); }
  }

  /** With nothing ready, either all tasks are placed or the remainder contains a cycle. */
  lemma Conclude(deps: Deps, s: seq<Task>)
    requires Partial(deps, s) && forall t :: !IsReady(deps, Elements(s), t)
    ensures |s| == |Tasks(deps)| ==> IsOrder(deps, s) && (forall o :: IsOrder(deps, o) ==> LexAtMost(s, o))
                                     && !exists c :: IsCycle(deps, c)
    ensures |s| != |Tasks(deps)| ==> exists c :: IsCycle(deps, c)
  {
    var rest := Tasks(deps) - Elements(s);
    SizeOf(s);
    assert Tasks(deps) == Elements(s) + rest;
    if rest == {} {
      CompleteIsLeast(deps, s);
    } else {
      forall t | t in rest ensures Pre(deps, t) * rest != {} {
        var p := LeftWaits(deps, Elements(s), t);
        assert p in Pre(deps, t) * rest;
      }
      var c := StuckHasCycle(deps, rest);
    }
  }

  // The state of the main loop.
  ghost predicate Kahn(deps: Deps, order: seq<Task>, prereq: map<Task, set<Task>>, ready: multiset<Task>) {
    Partial(deps, order) && WaitsIs(deps, Elements(order), prereq) && HeapIs(deps, Elements(order), ready)
  }

  // One round of the main loop.
  method Round(deps: Deps, order: seq<Task>, dependents: map<Task, seq<Task>>, prereq: map<Task, set<Task>>,
               ready: multiset<Task>)
    returns (order': seq<Task>, prereq': map<Task, set<Task>>, ready': multiset<Task>)
    requires Kahn(deps, order, prereq, ready) && ready != multiset{}
    requires ListsDependents(deps, Tasks(deps), Tasks(deps), dependents)
    ensures Kahn(deps, order', prereq', ready')
    ensures Tasks(deps) - Elements(order') < Tasks(deps) - Elements(order)
  {
    var t, rest := PopLeast(ready);
    assert IsReady(deps, Elements(order), t);
    PlacedIsClosed(deps, order);
    assert rest + multiset{t} == ready;
    prereq', ready' := Place(deps, Elements(order), t, dependents[t], prereq, rest);
    AppendKeeps(deps, order, t);
    order' := order + [t];
  }

  // In terms of the input alone: all names that occur, each once, and each behind what it lists.
  ghost predicate RespectsInput(deps: Deps, s: seq<Task>) {
    && (forall t: Task :: t in s <==> t in deps || exists u :: u in deps && t in deps[u])
    && (forall i, j :: 0 <= i < j < |s| ==> s[i] != s[j])
    && forall j, p :: 0 <= j < |s| && s[j] in deps && p in deps[s[j]] ==> exists i :: 0 <= i < j && s[i] == p
  }

  lemma OrderExact(deps: Deps, s: seq<Task>)
    ensures IsOrder(deps, s) <==> RespectsInput(deps, s)
  {
    forall t: Task ensures t in Tasks(deps) <==> t in deps || exists u :: u in deps && t in deps[u] {}
    forall t: Task ensures t in Elements(s) <==> t in s {}
    if IsOrder(deps, s) {
      forall j, p | 0 <= j < |s| && s[j] in deps && p in deps[s[j]] ensures exists i :: 0 <= i < j && s[i] == p {
        assert p in Pre(deps, s[j]) && p in Elements(s[..j]);
      }
    }
    if RespectsInput(deps, s) {
      forall j | 0 <= j < |s| ensures Pre(deps, s[j]) <= Elements(s[..j]) {
        forall p | p in Pre(deps, s[j]) ensures p in Elements(s[..j]) {
          var i :| 0 <= i < j && s[i] == p;
          assert s[..j][i] == p;
        }
      }
    }
  }

  /** build_order: the lexicographically least order that respects all prerequisites, or a
      ValueError (None) exactly when the dependencies contain a cycle. */
  method BuildOrder(deps: Deps) returns (r: Option<seq<Task>>)
    ensures r.Some? ==> IsOrder(deps, r.value) && forall o :: IsOrder(deps, o) ==> LexAtMost(r.value, o)
    ensures r.Some? ==> RespectsInput(deps, r.value) && forall o :: RespectsInput(deps, o) ==> LexAtMost(r.value, o)
    ensures r.None? ==> forall o :: !RespectsInput(deps, o)
    ensures r.None? <==> exists c :: IsCycle(deps, c)
  {
    var tasks := AllTasks(deps);
    var prereq := map t | t in tasks :: Pre(deps, t);
    assert WaitsIs(deps, {}, prereq) by { assert forall x :: x in prereq ==> prereq[x] == Pre(deps, x) - {}; }
    var dependents := Dependents(deps, tasks);
    var ready: multiset<Task> := FirstReady(deps, prereq);
    var order: seq<Task> := [];
    assert Elements(order) == {};
    while ready != multiset{}
      invariant Kahn(deps, order, prereq, ready)
      decreases tasks - Elements(order)
    {
      order, prereq, ready := Round(deps, order, dependents, prereq, ready);
    }
    assert forall t :: !IsReady(deps, Elements(order), t) by { assert forall t: Task :: ready[t] == 0; }
    Conclude(deps, order);
    if |order| != |tasks| {
      ghost var c :| IsCycle(deps, c);
      forall o ensures !RespectsInput(deps, o) {
        CycleForbidsOrder(deps, c, o);
        OrderExact(deps, o);
      }
      return None;
    }
    OrderExact(deps, order);
    forall o | RespectsInput(deps, o) ensures LexAtMost(order, o) { OrderExact(deps, o); }
    r := Some(order);
  }
}
