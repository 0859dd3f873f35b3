/** The Python integration layer over the crew engine
    (AutoGroq/src/integrations/optimized_crewai_integration.py): per-task
    priority and dependency metadata, a dependency- and priority-aware task
    ordering, the split of a task list into fixed-size batches, and the
    assembly of the temporary crew that runs one batch. */
module OptimizedIntegration {
  import opened Base
  import opened CrewErrors
  import opened CrewTasks
  import opened CrewAgents
  import CrewModel

  /** The optimisation metadata create_task records for a task id. */
  datatype Meta = Meta(priority: int, dependencies: seq<int>)

  type Metadata = map<int, Meta>

  /** create_task: the engine's task constructor runs first (and raises on an
      empty description or expected output, leaving the metadata alone);
      otherwise the priority and the dependencies (None becoming []) are
      recorded under the task id, overwriting an earlier entry. */
  function CreateTask(md: Metadata, id: u32, description: string, expected_output: string,
                      agent_name: Option<string>, priority: int, dependencies: Option<seq<int>>)
    : (r: (Result<Task, CrewError>, Metadata))
    ensures r.0 == NewTask(id, description, expected_output, agent_name)
    ensures r.0.Err? ==> r.1 == md
    ensures r.0.Ok? ==> id as int in r.1 && r.1[id as int].priority == priority
    ensures r.0.Ok? ==> r.1[id as int].dependencies == (if dependencies.None? then [] else dependencies.value)
    ensures r.0.Ok? ==> r.1.Keys == md.Keys + {id as int}
    ensures forall k :: k in md && k != id as int ==> k in r.1 && r.1[k] == md[k]
  {
    var t := NewTask(id, description, expected_output, agent_name);
    if t.Err? then (t, md)
    else (t, md[id as int := Meta(priority, if dependencies.None? then [] else dependencies.value)])
  }

  /** The priority used for ordering: the recorded one, else 1. */
  function Priority(md: Metadata, t: Task): int
  {
    if t.id as int in md then md[t.id as int].priority else 1
  }

  /** The declared dependencies: the recorded ones, else none. */
  function Deps(md: Metadata, t: Task): seq<int>
  {
    if t.id as int in md then md[t.id as int].dependencies else []
  }

  function Ids(ts: seq<Task>): (r: seq<int>)
    ensures |r| == |ts|
    ensures forall i :: 0 <= i < |ts| ==> r[i] == ts[i].id as int
  {
    seq(|ts|, i requires 0 <= i < |ts| => ts[i].id as int)
  }

  /** all(d in ids for d in ds), one element at a time. */
  predicate AllIn(ds: seq<int>, ids: seq<int>)
  {
    ds == [] || (ds[0] in ids && AllIn(ds[1..], ids))
  }

  lemma {:induction false} AllInMeans(ds: seq<int>, ids: seq<int>)
    ensures AllIn(ds, ids) <==> forall d :: d in ds ==> d in ids
  {
    if ds != [] {
      AllInMeans(ds[1..], ids);
      assert forall d :: d in ds <==> d == ds[0] || d in ds[1..] by {
        ConsTail(ds);
      }
    }
  }

  lemma {:induction false} AllInGrows(ds: seq<int>, ids: seq<int>, more: seq<int>)
    requires AllIn(ds, ids)
    ensures AllIn(ds, ids + more)
  {
    if ds != [] {
      AllInGrows(ds[1..], ids, more);
    }
  }

  /** Every dependency of t is the id of a task already in `done`. */
  predicate DepsSatisfied(md: Metadata, t: Task, done: seq<Task>)
  {
    AllIn(Deps(md, t), Ids(done))
  }

  // -------------------------------------------------------------------------
  // The stable sort by descending key (list.sort(key=..., reverse=True))
  // -------------------------------------------------------------------------

  /** The ordering key _optimize_task_order sorts on. */
  function PriorityKey(md: Metadata): Task -> int
  {
    t => Priority(md, t)
  }

  predicate SortedDesc<T>(key: T -> int, s: seq<T>)
  {
    forall i, j :: 0 <= i < j < |s| ==> key(s[i]) >= key(s[j])
  }

  /** Place t after every element whose key is at least t's. */
  function Insert<T>(key: T -> int, t: T, s: seq<T>): (r: seq<T>)
    ensures |r| == |s| + 1
  {
    if s == [] then [t]
    else if key(s[0]) >= key(t) then [s[0]] + Insert(key, t, s[1..])
    else [t] + s
  }

  lemma {:induction false} InsertPermutes<T>(key: T -> int, t: T, s: seq<T>)
    ensures multiset(Insert(key, t, s)) == multiset(s) + multiset{t}
  {
    if s != [] && key(s[0]) >= key(t) {
      InsertPermutes(key, t, s[1..]);
      assert s == [s[0]] + s[1..];
    }
  }

  /** Python's stable sort on a key, highest first: each element in turn is
      inserted into the sorted prefix. */
  function SortDesc<T>(key: T -> int, s: seq<T>): (r: seq<T>)
    ensures |r| == |s|
  {
    if s == [] then [] else Insert(key, s[|s| - 1], SortDesc(key, s[..|s| - 1]))
  }

  /** The sort is a permutation of its input. */
  lemma {:induction false} SortPermutes<T>(key: T -> int, s: seq<T>)
    ensures multiset(SortDesc(key, s)) == multiset(s)
  {
    if s != [] {
      SortPermutes(key, s[..|s| - 1]);
      InsertPermutes(key, s[|s| - 1], SortDesc(key, s[..|s| - 1]));
      assert s == s[..|s| - 1] + [s[|s| - 1]];
    }
  }

  /** The elements of s whose key is p, in order. */
  function WithKey<T>(key: T -> int, s: seq<T>, p: int): seq<T>
  {
    if s == [] then []
    else (if key(s[0]) == p then [s[0]] else []) + WithKey(key, s[1..], p)
  }

  lemma {:induction false} WithKeyAppend<T>(key: T -> int, a: seq<T>, b: seq<T>, p: int)
    ensures WithKey(key, a + b, p) == WithKey(key, a, p) + WithKey(key, b, p)
  {
    if a == [] {
      assert a + b == b;
    } else {
      var h := if key(a[0]) == p then [a[0]] else [];
      calc {
        WithKey(key, a + b, p);
        { assert (a + b)[0] == a[0]; assert (a + b)[1..] == a[1..] + b; }
        h + WithKey(key, a[1..] + b, p);
        { WithKeyAppend(key, a[1..], b, p); }
        h + (WithKey(key, a[1..], p) + WithKey(key, b, p));
        (h + WithKey(key, a[1..], p)) + WithKey(key, b, p);
        WithKey(key, a, p) + WithKey(key, b, p);
      }
    }
  }

  lemma {:induction false} InsertBounded<T>(key: T -> int, t: T, s: seq<T>, bound: int)
    requires key(t) <= bound
    requires forall i :: 0 <= i < |s| ==> key(s[i]) <= bound
    ensures forall i :: 0 <= i < |Insert(key, t, s)| ==> key(Insert(key, t, s)[i]) <= bound
  {
    if s != [] && key(s[0]) >= key(t) {
      InsertBounded(key, t, s[1..], bound);
    }
  }

  lemma {:induction false} InsertSorted<T>(key: T -> int, t: T, s: seq<T>)
    requires SortedDesc(key, s)
    ensures SortedDesc(key, Insert(key, t, s))
  {
    if s != [] && key(s[0]) >= key(t) {
      InsertSorted(key, t, s[1..]);
      InsertBounded(key, t, s[1..], key(s[0]));
      var r := Insert(key, t, s[1..]);
      assert Insert(key, t, s) == [s[0]] + r;
    }
  }

  /** The sort orders by descending key. */
  lemma {:induction false} SortIsSorted<T>(key: T -> int, s: seq<T>)
    ensures SortedDesc(key, SortDesc(key, s))
  {
    if s != [] {
      SortIsSorted(key, s[..|s| - 1]);
      InsertSorted(key, s[|s| - 1], SortDesc(key, s[..|s| - 1]));
    }
  }

  lemma {:induction false} NoneWithKey<T>(key: T -> int, s: seq<T>, p: int)
    requires forall i :: 0 <= i < |s| ==> key(s[i]) < p
    ensures WithKey(key, s, p) == []
  {
    if s != [] {
      NoneWithKey(key, s[1..], p);
    }
  }

  function Single<T>(key: T -> int, x: T, p: int): seq<T>
  {
    if key(x) == p then [x] else []
  }

  lemma {:induction false} WithKeyCons<T>(key: T -> int, x: T, s: seq<T>, p: int)
    ensures WithKey(key, [x] + s, p) == Single(key, x, p) + WithKey(key, s, p)
  {
    assert ([x] + s)[0] == x && ([x] + s)[1..] == s;
  }

  /** Inserting into a sorted list appends t to the run of its key. */
  lemma {:induction false} InsertStable<T>(key: T -> int, t: T, s: seq<T>, p: int)
    requires SortedDesc(key, s)
    ensures WithKey(key, Insert(key, t, s), p) == WithKey(key, s, p) + Single(key, t, p)
  {
    if s == [] {
      WithKeyCons(key, t, [], p);
      assert [t] + [] == [t];
    } else if key(s[0]) >= key(t) {
      var tail := s[1..];
      var r1 := Insert(key, t, tail);
      assert Insert(key, t, s) == [s[0]] + r1;
      InsertStable(key, t, tail, p);
      WithKeyCons(key, s[0], r1, p);
      WithKeyCons(key, s[0], tail, p);
      assert [s[0]] + tail == s;
      calc {
        WithKey(key, Insert(key, t, s), p);
        WithKey(key, [s[0]] + r1, p);
        Single(key, s[0], p) + WithKey(key, r1, p);
        Single(key, s[0], p) + (WithKey(key, tail, p) + Single(key, t, p));
        { ConcatAssoc(Single(key, s[0], p), WithKey(key, tail, p), Single(key, t, p)); }
        (Single(key, s[0], p) + WithKey(key, tail, p)) + Single(key, t, p);
        WithKey(key, [s[0]] + tail, p) + Single(key, t, p);
      }
    } else {
      assert Insert(key, t, s) == [t] + s;
      WithKeyCons(key, t, s, p);
      if key(t) == p {
        assert forall i :: 0 <= i < |s| ==> key(s[i]) <= key(s[0]);
        NoneWithKey(key, s, p);
      }
    }
  }

  /** Stability: for every key value, the elements with that key keep their
      input order. */
  lemma {:induction false} SortIsStable<T>(key: T -> int, s: seq<T>, p: int)
    ensures WithKey(key, SortDesc(key, s), p) == WithKey(key, s, p)
  {
    if s != [] {
      var init, last := s[..|s| - 1], s[|s| - 1];
      SortIsStable(key, init, p);
      SortIsSorted(key, init);
      InsertStable(key, last, SortDesc(key, init), p);
      assert s == init + [last];
      WithKeyAppend(key, init, [last], p);
      WithKeyCons(key, last, [], p);
      assert [last] + [] == [last];
    }
  }

  lemma {:induction false} InsertAtEnd<T>(key: T -> int, t: T, s: seq<T>)
    requires forall i :: 0 <= i < |s| ==> key(s[i]) >= key(t)
    ensures Insert(key, t, s) == s + [t]
  {
    if s != [] {
      InsertAtEnd(key, t, s[1..]);
      assert s == [s[0]] + s[1..];
    }
  }

  /** Sorting an already sorted list changes nothing. */
  lemma {:induction false} SortOfSorted<T>(key: T -> int, s: seq<T>)
    requires SortedDesc(key, s)
    ensures SortDesc(key, s) == s
  {
    if s != [] {
      var init := s[..|s| - 1];
      SortOfSorted(key, init);
      InsertAtEnd(key, s[|s| - 1], init);
      assert init + [s[|s| - 1]] == s;
    }
  }

  // -------------------------------------------------------------------------
  // _optimize_task_order
  // -------------------------------------------------------------------------

  /** Every task of `placed` comes after all of its declared dependencies. */
  predicate PlacedAfterDeps(md: Metadata, placed: seq<Task>)
    decreases |placed|
  {
    placed == []
    || (PlacedAfterDeps(md, placed[..|placed| - 1])
        && DepsSatisfied(md, placed[|placed| - 1], placed[..|placed| - 1]))
  }

  /** PlacedAfterDeps spelled out: the dependencies of the task at position k
      are all ids of tasks before position k. */
  lemma {:induction false} PlacedAfterDepsMeans(md: Metadata, placed: seq<Task>)
    ensures PlacedAfterDeps(md, placed)
            <==> forall k :: 0 <= k < |placed| ==> DepsSatisfied(md, placed[k], placed[..k])
    decreases |placed|
  {
    if placed != [] {
      var n := |placed| - 1;
      var init := placed[..n];
      PlacedAfterDepsMeans(md, init);
      forall k | 0 <= k < n ensures init[k] == placed[k] && init[..k] == placed[..k] {
        PrefixOfPrefix(placed, n, k);
      }
    }
  }

  lemma {:induction false} DepsSatisfiedGrows(md: Metadata, t: Task, done: seq<Task>, more: seq<Task>)
    requires DepsSatisfied(md, t, done)
    ensures DepsSatisfied(md, t, done + more)
  {
    AllInGrows(Deps(md, t), Ids(done), Ids(more));
    assert Ids(done + more) == Ids(done) + Ids(more);
  }

  lemma {:induction false} PlacedAfterDepsExtend(md: Metadata, placed: seq<Task>, t: Task)
    requires PlacedAfterDeps(md, placed)
    requires DepsSatisfied(md, t, placed)
    ensures PlacedAfterDeps(md, placed + [t])
  {
    assert (placed + [t])[..|placed|] == placed;
  }

  lemma {:induction false} NothingDoneSatisfiesDeps(md: Metadata, t: Task, done: seq<Task>)
    requires Deps(md, t) != [] && done == []
    ensures !DepsSatisfied(md, t, done)
  {
    assert |Ids(done)| == 0;
  }

  lemma {:induction false} SortKeepsMembers<T>(key: T -> int, s: seq<T>, t: T)
    requires t in SortDesc(key, s)
    ensures t in s
  {
    SortPermutes(key, s);
    assert t in multiset(SortDesc(key, s));
  }

  /** The first pass of _optimize_task_order: tasks without declared
      dependencies are ready, the others wait; both keep input order. */
  method SplitReady(md: Metadata, tasks: seq<Task>) returns (ready: seq<Task>, waiting: seq<Task>)
    ensures multiset(ready) + multiset(waiting) == multiset(tasks)
    ensures forall t :: t in ready ==> Deps(md, t) == []
    ensures forall t :: t in waiting ==> Deps(md, t) != []
    ensures (forall t :: t in tasks ==> Deps(md, t) == []) ==> ready == tasks
  {
    ready, waiting := [], [];
    ghost var noDeps := forall t :: t in tasks ==> Deps(md, t) == [];
    var i := 0;
    while i < |tasks|
      invariant 0 <= i <= |tasks|
      invariant multiset(ready) + multiset(waiting) == multiset(tasks[..i])
      invariant forall t :: t in ready ==> Deps(md, t) == []
      invariant forall t :: t in waiting ==> Deps(md, t) != []
      invariant noDeps ==> ready == tasks[..i]
    {
      assert tasks[..i + 1] == tasks[..i] + [tasks[i]];
      assert noDeps ==> Deps(md, tasks[i]) == [] by {
        assert tasks[i] in tasks;
      }
      if Deps(md, tasks[i]) == [] {
        ready := ready + [tasks[i]];
      } else {
        waiting := waiting + [tasks[i]];
      }
      i := i + 1;
    }
    assert tasks[..i] == tasks;
  }

  /** The scan of the waiting list after each placement: a waiting task whose
      dependencies are now all placed becomes ready, the rest keep waiting. */
  method ReleaseWaiting(md: Metadata, waiting: seq<Task>, placed: seq<Task>)
    returns (released: seq<Task>, stillWaiting: seq<Task>)
    ensures multiset(released) + multiset(stillWaiting) == multiset(waiting)
    ensures |released| + |stillWaiting| == |waiting|
    ensures forall t :: t in released ==> DepsSatisfied(md, t, placed)
    ensures forall t :: t in stillWaiting ==> !DepsSatisfied(md, t, placed)
    ensures waiting == [] ==> released == []
  {
    released, stillWaiting := [], [];
    var j := 0;
    while j < |waiting|
      invariant 0 <= j <= |waiting|
      invariant multiset(released) + multiset(stillWaiting) == multiset(waiting[..j])
      invariant |released| + |stillWaiting| == j
      invariant forall t :: t in released ==> DepsSatisfied(md, t, placed)
      invariant forall t :: t in stillWaiting ==> !DepsSatisfied(md, t, placed)
    {
      assert waiting[..j + 1] == waiting[..j] + [waiting[j]];
      if DepsSatisfied(md, waiting[j], placed) {
        released := released + [waiting[j]];
      } else {
        stillWaiting := stillWaiting + [waiting[j]];
      }
      j := j + 1;
    }
    assert waiting[..j] == waiting;
  }

  /** The state of _optimize_task_order's main loop: placed, ready and waiting
      tasks together are the input; placed tasks follow their dependencies;
      ready tasks have theirs placed, waiting tasks do not; the ready list is
      in priority order; and without any dependencies nothing ever waits and
      the placed and ready tasks together are the priority-sorted input. */
  predicate OrderInv(md: Metadata, tasks: seq<Task>, noDeps: bool,
                     sorted: seq<Task>, ready: seq<Task>, waiting: seq<Task>)
  {
    && multiset(sorted) + multiset(ready) + multiset(waiting) == multiset(tasks)
    && PlacedAfterDeps(md, sorted)
    && (forall t :: t in ready ==> DepsSatisfied(md, t, sorted))
    && (forall t :: t in waiting ==> !DepsSatisfied(md, t, sorted))
    && SortedDesc(PriorityKey(md), ready)
    && (noDeps ==> waiting == [] && sorted + ready == SortDesc(PriorityKey(md), tasks))
  }

  lemma {:induction false} OrderInvInit(md: Metadata, tasks: seq<Task>, ready: seq<Task>, waiting: seq<Task>)
    requires multiset(ready) + multiset(waiting) == multiset(tasks)
    requires forall t :: t in ready ==> Deps(md, t) == []
    requires forall t :: t in waiting ==> Deps(md, t) != []
    requires (forall t :: t in tasks ==> Deps(md, t) == []) ==> ready == tasks
    ensures OrderInv(md, tasks, forall t :: t in tasks ==> Deps(md, t) == [],
                     [], SortDesc(PriorityKey(md), ready), waiting)
  {
    var key := PriorityKey(md);
    SortIsSorted(key, ready);
    SortPermutes(key, ready);
    InitiallyReady(md, ready);
    InitiallyWaiting(md, waiting);
    InitNoDeps(md, tasks, ready, waiting);
  }

  /** Without dependencies every task starts ready, so the ready list is the
      sorted input and nothing waits. */
  lemma {:induction false} InitNoDeps(md: Metadata, tasks: seq<Task>, ready: seq<Task>, waiting: seq<Task>)
    requires multiset(ready) + multiset(waiting) == multiset(tasks)
    requires (forall t :: t in tasks ==> Deps(md, t) == []) ==> ready == tasks
    ensures (forall t :: t in tasks ==> Deps(md, t) == []) ==>
      waiting == [] && [] + SortDesc(PriorityKey(md), ready) == SortDesc(PriorityKey(md), tasks)
  {
    if forall t :: t in tasks ==> Deps(md, t) == [] {
      NothingLeftOver(tasks, ready, waiting);
      assert [] + SortDesc(PriorityKey(md), ready) == SortDesc(PriorityKey(md), ready);
    }
  }

  lemma {:induction false} InitiallyReady(md: Metadata, ready: seq<Task>)
    requires forall t :: t in ready ==> Deps(md, t) == []
    ensures forall t :: t in SortDesc(PriorityKey(md), ready) ==> DepsSatisfied(md, t, [])
  {
    forall t | t in SortDesc(PriorityKey(md), ready) ensures DepsSatisfied(md, t, []) {
      SortKeepsMembers(PriorityKey(md), ready, t);
    }
  }

  lemma {:induction false} InitiallyWaiting(md: Metadata, waiting: seq<Task>)
    requires forall t :: t in waiting ==> Deps(md, t) != []
    ensures forall t :: t in waiting ==> !DepsSatisfied(md, t, [])
  {
    forall t | t in waiting ensures !DepsSatisfied(md, t, []) {
      NothingDoneSatisfiesDeps(md, t, []);
    }
  }

  lemma {:induction false} NothingLeftOver(tasks: seq<Task>, ready: seq<Task>, waiting: seq<Task>)
    requires multiset(ready) + multiset(waiting) == multiset(tasks)
    requires ready == tasks
    ensures waiting == []
  {
    assert |multiset(ready) + multiset(waiting)| == |multiset(ready)| + |multiset(waiting)|;
    assert |multiset(waiting)| == |waiting|;
  }

  lemma {:induction false} OrderInvStep(md: Metadata, tasks: seq<Task>, noDeps: bool,
                     sorted: seq<Task>, ready: seq<Task>, waiting: seq<Task>,
                     released: seq<Task>, stillWaiting: seq<Task>)
    requires OrderInv(md, tasks, noDeps, sorted, ready, waiting)
    requires ready != []
    requires multiset(released) + multiset(stillWaiting) == multiset(waiting)
    requires forall t :: t in released ==> DepsSatisfied(md, t, sorted + [ready[0]])
    requires forall t :: t in stillWaiting ==> !DepsSatisfied(md, t, sorted + [ready[0]])
    requires waiting == [] ==> released == []
    ensures OrderInv(md, tasks, noDeps, sorted + [ready[0]],
                     SortDesc(PriorityKey(md), ready[1..] + released), stillWaiting)
  {
    var key := PriorityKey(md);
    var current := ready[0];
    var merged := ready[1..] + released;
    StepCounts(key, tasks, sorted, ready, waiting, released, stillWaiting);
    PlacedAfterDepsExtend(md, sorted, current);
    StepReadyDeps(md, sorted, ready, released);
    SortIsSorted(key, merged);
    if noDeps {
      StepNoDeps(key, tasks, sorted, ready, released);
    }
  }

  /** Placing the first ready task and re-sorting the ready ones with the
      released ones keeps every task exactly once. */
  lemma {:induction false} StepCounts(key: Task -> int, tasks: seq<Task>, sorted: seq<Task>, ready: seq<Task>,
                                      waiting: seq<Task>, released: seq<Task>, stillWaiting: seq<Task>)
    requires multiset(sorted) + multiset(ready) + multiset(waiting) == multiset(tasks)
    requires ready != []
    requires multiset(released) + multiset(stillWaiting) == multiset(waiting)
    ensures multiset(sorted + [ready[0]]) + multiset(SortDesc(key, ready[1..] + released)) + multiset(stillWaiting)
            == multiset(tasks)
  {
    ConsTail(ready);
    SortPermutes(key, ready[1..] + released);
  }

  /** After the placement every task of the new ready list has its
      dependencies placed. */
  lemma {:induction false} StepReadyDeps(md: Metadata, sorted: seq<Task>, ready: seq<Task>, released: seq<Task>)
    requires ready != []
    requires forall t :: t in ready ==> DepsSatisfied(md, t, sorted)
    requires forall t :: t in released ==> DepsSatisfied(md, t, sorted + [ready[0]])
    ensures forall t :: t in SortDesc(PriorityKey(md), ready[1..] + released) ==> DepsSatisfied(md, t, sorted + [ready[0]])
  {
    var key := PriorityKey(md);
    var merged := ready[1..] + released;
    forall t | t in SortDesc(key, merged) ensures DepsSatisfied(md, t, sorted + [ready[0]]) {
      SortKeepsMembers(key, merged, t);
      if t in ready[1..] {
        DepsSatisfiedGrows(md, t, sorted, [ready[0]]);
      }
    }
  }

  /** Without dependencies nothing is released and the placed and ready
      tasks stay the sorted input. */
  lemma {:induction false} StepNoDeps(key: Task -> int, tasks: seq<Task>, sorted: seq<Task>, ready: seq<Task>, released: seq<Task>)
    requires ready != [] && released == [] && SortedDesc(key, ready)
    requires sorted + ready == SortDesc(key, tasks)
    ensures (sorted + [ready[0]]) + SortDesc(key, ready[1..] + released) == SortDesc(key, tasks)
  {
    var tail := ready[1..];
    AppendEmpty(tail, released);
    SortedTail(key, ready);
    SortOfSorted(key, tail);
    ConsTail(ready);
    ConcatAssoc(sorted, [ready[0]], tail);
  }

  lemma {:induction false} SortedTail<T>(key: T -> int, s: seq<T>)
    requires SortedDesc(key, s) && s != []
    ensures SortedDesc(key, s[1..])
  {
  }

  /** _optimize_task_order: tasks without dependencies start ready, sorted by
      priority; the highest-priority ready task is placed next, then every
      waiting task whose dependencies are all placed becomes ready and the
      ready list is re-sorted; tasks still waiting at the end (a cycle or an
      unknown id) are appended in priority order. `placedCount` is the number
      of tasks placed by the main loop. */
  method OptimizeTaskOrder(md: Metadata, tasks: seq<Task>) returns (sorted: seq<Task>, ghost placedCount: nat)
    ensures multiset(sorted) == multiset(tasks)
    ensures placedCount <= |sorted|
    ensures PlacedAfterDeps(md, sorted[..placedCount])
    ensures SortedDesc(PriorityKey(md), sorted[placedCount..])
    ensures forall t :: t in sorted[placedCount..] ==> !DepsSatisfied(md, t, sorted[..placedCount])
    ensures (forall t :: t in tasks ==> Deps(md, t) == []) ==> sorted == SortDesc(PriorityKey(md), tasks)
  {
    var ready, waiting := SplitReady(md, tasks);
    ghost var noDeps := forall t :: t in tasks ==> Deps(md, t) == [];
    OrderInvInit(md, tasks, ready, waiting);
    ready := SortDesc(PriorityKey(md), ready);
    sorted := [];
    while ready != []
      invariant OrderInv(md, tasks, noDeps, sorted, ready, waiting)
      decreases |ready| + |waiting|
    {
      var current := ready[0];
      var released, stillWaiting := ReleaseWaiting(md, waiting, sorted + [current]);
      OrderInvStep(md, tasks, noDeps, sorted, ready, waiting, released, stillWaiting);
      sorted := sorted + [current];
      ready := SortDesc(PriorityKey(md), ready[1..] + released);
      waiting := stillWaiting;
    }
    placedCount := |sorted|;
    var rest := SortDesc(PriorityKey(md), waiting);
    OrderFinal(md, tasks, noDeps, sorted, waiting);
    sorted := sorted + rest;
  }

  lemma {:induction false} OrderFinal(md: Metadata, tasks: seq<Task>, noDeps: bool, sorted: seq<Task>, waiting: seq<Task>)
    requires OrderInv(md, tasks, noDeps, sorted, [], waiting)
    ensures multiset(sorted + SortDesc(PriorityKey(md), waiting)) == multiset(tasks)
    ensures (sorted + SortDesc(PriorityKey(md), waiting))[..|sorted|] == sorted
    ensures (sorted + SortDesc(PriorityKey(md), waiting))[|sorted|..] == SortDesc(PriorityKey(md), waiting)
    ensures SortedDesc(PriorityKey(md), SortDesc(PriorityKey(md), waiting))
    ensures forall t :: t in SortDesc(PriorityKey(md), waiting) ==> !DepsSatisfied(md, t, sorted)
    ensures noDeps ==> sorted + SortDesc(PriorityKey(md), waiting) == SortDesc(PriorityKey(md), tasks)
  {
    var key := PriorityKey(md);
    var rest := SortDesc(key, waiting);
    SortIsSorted(key, waiting);
    SortPermutes(key, waiting);
    SliceConcat(sorted, rest);
    forall t | t in rest ensures !DepsSatisfied(md, t, sorted) {
      SortKeepsMembers(key, waiting, t);
    }
    if noDeps {
      AppendEmpty(sorted, rest);
    }
  }
}
