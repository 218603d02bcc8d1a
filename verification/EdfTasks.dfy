/**
 EDF tasks and the order of the run queue (userspace/schedulers/edf/edf_scheduler.h).
 */
module EdfTasks {

  datatype RunState = Blocked | Queued | OnCpu | Yielding | Paused

  /** The fields of EdfTask that decide where a task is and where it stands in the run queue. */
  datatype Task = Task(
    state: RunState,
    cpu: nat,
    rqPos: int,
    prioBoost: bool,
    preempted: bool,
    hasParams: bool,
    hasWork: bool,
    qos: nat,
    schedDeadline: int)

  type Tasks = map<nat, Task>

  /** SchedDeadlineGreater: `a` is ordered after `b`. */
  predicate After(a: Task, b: Task) {
    if a.prioBoost != b.prioBoost then b.prioBoost
    else if a.qos != b.qos then a.qos < b.qos
    else a.schedDeadline > b.schedDeadline
  }

  /** The comparator is a strict weak order: what the run queue needs of it. */
  lemma {:induction false} AfterIsOrder(a: Task, b: Task, c: Task)
    ensures !After(a, a)
    ensures After(a, b) ==> !After(b, a)
    ensures !After(a, b) && !After(b, c) ==> !After(a, c)
  {
  }

  /**
   `a` is to run no later than `b`: a boosted task goes before others, then the higher QoS, then the
   earlier deadline.
   */
  predicate NoLessUrgent(a: Task, b: Task) {
    && (b.prioBoost ==> a.prioBoost)
    && (a.prioBoost == b.prioBoost ==> b.qos <= a.qos)
    && (a.prioBoost == b.prioBoost && a.qos == b.qos ==> a.schedDeadline <= b.schedDeadline)
  }

  /** The comparator orders by urgency and by nothing else. */
  lemma {:induction false} AfterIsUrgency(a: Task, b: Task)
    ensures After(a, b) <==> !NoLessUrgent(a, b)
  {
  }

  /** No queued task is more urgent than `t`. */
  ghost predicate MostUrgent(ts: Tasks, t: nat, q: seq<nat>) {
    t in ts && forall x :: x in q ==> x in ts && NoLessUrgent(ts[t], ts[x])
  }

  // ----- the heap -----

  function Parent(i: nat): nat
    requires i > 0
  {
    (i - 1) / 2
  }

  /** The queue holds known tasks, and the position stored in each task is where it stands. */
  ghost predicate Positions(q: seq<nat>, ts: Tasks) {
    && (forall i :: 0 <= i < |q| ==> q[i] in ts && ts[q[i]].rqPos == i)
    && (forall t :: t in ts && t !in q ==> ts[t].rqPos == -1)
  }

  ghost predicate Known(q: seq<nat>, ts: Tasks) {
    forall i :: 0 <= i < |q| ==> q[i] in ts
  }

  /** The task at `i` is not ordered before its parent. */
  ghost predicate InOrder(q: seq<nat>, ts: Tasks, i: nat)
    requires Known(q, ts) && 0 < i < |q|
  {
    !After(ts[q[Parent(i)]], ts[q[i]])
  }

  ghost predicate Heap(q: seq<nat>, ts: Tasks) {
    Known(q, ts) && forall i :: 0 < i < |q| ==> InOrder(q, ts, i)
  }

  /** No task at `i` is ordered before the parent of its parent `p`. */
  ghost predicate SkipOrder(q: seq<nat>, ts: Tasks, p: nat)
    requires Known(q, ts) && p < |q|
  {
    p > 0 ==> forall i :: 0 < i < |q| && Parent(i) == p ==> !After(ts[q[Parent(p)]], ts[q[i]])
  }

  /** A heap but for the task at `p`, whose key may be anything. */
  ghost predicate HeapBut(q: seq<nat>, ts: Tasks, p: nat) {
    && Known(q, ts) && p < |q|
    && (forall i :: 0 < i < |q| && i != p && Parent(i) != p ==> InOrder(q, ts, i))
    && SkipOrder(q, ts, p)
  }

  /** A heap but for the task at `p`, which may be ordered before its parent. */
  ghost predicate HeapUp(q: seq<nat>, ts: Tasks, p: nat) {
    && Known(q, ts) && p < |q|
    && (forall i :: 0 < i < |q| && i != p ==> InOrder(q, ts, i))
    && SkipOrder(q, ts, p)
  }

  /** A heap but for the task at `p`, which may be ordered after its children. */
  ghost predicate HeapDown(q: seq<nat>, ts: Tasks, p: nat) {
    && Known(q, ts) && p < |q|
    && (forall i :: 0 < i < |q| && Parent(i) != p ==> InOrder(q, ts, i))
    && SkipOrder(q, ts, p)
  }

  function Swapped(q: seq<nat>, i: nat, j: nat): seq<nat>
    requires i < |q| && j < |q|
  {
    q[i := q[j]][j := q[i]]
  }

  lemma {:induction false} UpStart(q: seq<nat>, ts: Tasks, p: nat)
    requires HeapBut(q, ts, p) && p > 0 && After(ts[q[Parent(p)]], ts[q[p]])
    ensures HeapUp(q, ts, p)
  {
  }

  lemma {:induction false} UpStep(q: seq<nat>, ts: Tasks, p: nat)
    requires HeapUp(q, ts, p) && p > 0 && After(ts[q[Parent(p)]], ts[q[p]])
    ensures HeapUp(Swapped(q, p, Parent(p)), ts, Parent(p))
  {
    var q', u := Swapped(q, p, Parent(p)), Parent(p);
    forall i | 0 < i < |q'| && i != u ensures InOrder(q', ts, i) {
      if i == p {
      } else if Parent(i) == p {
        assert !After(ts[q[u]], ts[q[i]]);
      } else if Parent(i) == u {
        assert InOrder(q, ts, i);
      } else {
        assert InOrder(q, ts, i);
      }
    }
    if u > 0 {
      forall i | 0 < i < |q'| && Parent(i) == u ensures !After(ts[q'[Parent(u)]], ts[q'[i]]) {
        assert InOrder(q, ts, u);
        if i != p { assert InOrder(q, ts, i); }
      }
    }
  }

  lemma {:induction false} UpDone(q: seq<nat>, ts: Tasks, p: nat)
    requires HeapUp(q, ts, p) && (p == 0 || !After(ts[q[Parent(p)]], ts[q[p]]))
    ensures Heap(q, ts)
  {
  }

  lemma {:induction false} DownStart(q: seq<nat>, ts: Tasks, p: nat)
    requires HeapBut(q, ts, p) && (p == 0 || !After(ts[q[Parent(p)]], ts[q[p]]))
    ensures HeapDown(q, ts, p)
  {
  }

  /** `c` is the child of `p` that is ordered first. */
  lemma {:induction false} DownStep(q: seq<nat>, ts: Tasks, p: nat, c: nat)
    requires HeapDown(q, ts, p) && 0 < c < |q| && Parent(c) == p && After(ts[q[p]], ts[q[c]])
    requires forall i :: 0 < i < |q| && Parent(i) == p ==> !After(ts[q[c]], ts[q[i]])
    ensures HeapDown(Swapped(q, p, c), ts, c)
  {
    var q' := Swapped(q, p, c);
    forall i | 0 < i < |q'| && Parent(i) != c ensures InOrder(q', ts, i) {
      if i == p {
        assert !After(ts[q[Parent(p)]], ts[q[c]]);
      } else if i == c || Parent(i) == p {
      } else {
        assert InOrder(q, ts, i);
      }
    }
    forall i | 0 < i < |q'| && Parent(i) == c ensures !After(ts[q'[Parent(c)]], ts[q'[i]]) {
      assert InOrder(q, ts, i);
    }
  }

  lemma {:induction false} DownDone(q: seq<nat>, ts: Tasks, p: nat)
    requires HeapDown(q, ts, p)
    requires forall i :: 0 < i < |q| && Parent(i) == p ==> !After(ts[q[p]], ts[q[i]])
    ensures Heap(q, ts)
  {
  }

  /** Nothing in a heap is ordered before its first task. */
  lemma {:induction false} FirstIsFirst(q: seq<nat>, ts: Tasks, i: nat)
    requires Heap(q, ts) && i < |q|
    ensures !After(ts[q[0]], ts[q[i]])
  {
    if i > 0 {
      assert InOrder(q, ts, i);
      FirstIsFirst(q, ts, Parent(i));
      AfterIsOrder(ts[q[0]], ts[q[Parent(i)]], ts[q[i]]);
    }
  }

  /** The first task of a heap is a most urgent one. */
  lemma {:induction false} FirstMostUrgent(q: seq<nat>, ts: Tasks)
    requires Heap(q, ts) && q != []
    ensures MostUrgent(ts, q[0], q)
  {
    forall x | x in q ensures x in ts && NoLessUrgent(ts[q[0]], ts[x]) {
      var i :| 0 <= i < |q| && q[i] == x;
      FirstIsFirst(q, ts, i);
      AfterIsUrgency(ts[q[0]], ts[x]);
    }
  }

  // ----- key changes -----

  /** Only the record of the task at `p` may differ between the two tables. */
  ghost predicate OnlyTaskAt(q: seq<nat>, ts: Tasks, ts': Tasks, p: nat) {
    && Known(q, ts) && Known(q, ts') && p < |q|
    && (forall i :: 0 <= i < |q| && i != p ==> ts'[q[i]] == ts[q[i]])
  }

  /** Any change to one queued task leaves a heap but for that task. */
  lemma {:induction false} KeyChanged(q: seq<nat>, ts: Tasks, ts': Tasks, p: nat)
    requires Heap(q, ts) && OnlyTaskAt(q, ts, ts', p)
    ensures HeapBut(q, ts', p)
  {
    forall i | 0 < i < |q| && i != p && Parent(i) != p ensures InOrder(q, ts', i) {
      assert InOrder(q, ts, i);
    }
    if p > 0 {
      assert InOrder(q, ts, p);
      forall i | 0 < i < |q| && Parent(i) == p ensures !After(ts'[q[Parent(p)]], ts'[q[i]]) {
        assert InOrder(q, ts, i);
      }
    }
  }

  /**
   A change to the key of one queued task that no update follows, as when a copy of the scheduling
   parameters that fails has already stored the new QoS class: the queue is still a heap exactly
   when the new key fits between the task's parent and its children.
   */
  lemma {:induction false} KeyChangeUnnoticed(q: seq<nat>, ts: Tasks, ts': Tasks, p: nat)
    requires Heap(q, ts) && OnlyTaskAt(q, ts, ts', p)
    ensures Heap(q, ts') <==>
      && (p > 0 ==> !After(ts'[q[Parent(p)]], ts'[q[p]]))
      && (forall i :: 0 < i < |q| && Parent(i) == p ==> !After(ts'[q[p]], ts'[q[i]]))
  {
    KeyChanged(q, ts, ts', p);
    if p > 0 { assert InOrder(q, ts', p) <==> !After(ts'[q[Parent(p)]], ts'[q[p]]); }
    forall i | 0 < i < |q| && Parent(i) == p
      ensures InOrder(q, ts', i) <==> !After(ts'[q[p]], ts'[q[i]])
    {
    }
  }

  /**
   A raise of the QoS of a queued task that no update follows: the queue is still a heap exactly when
   the task is first or its parent is not ordered after its new key.
   */
  lemma {:induction false} UnnoticedRaise(q: seq<nat>, ts: Tasks, p: nat, qos: nat)
    requires Heap(q, ts) && Positions(q, ts) && p < |q| && ts[q[p]].qos < qos
    ensures var task := ts[q[p]].(qos := qos);
      Heap(q, ts[q[p] := task]) <==> p == 0 || !After(ts[q[Parent(p)]], task)
  {
    var ts' := ts[q[p] := ts[q[p]].(qos := qos)];
    KeyChangeUnnoticed(q, ts, ts', p);
    forall i | 0 < i < |q| && Parent(i) == p ensures !After(ts'[q[p]], ts'[q[i]]) { assert InOrder(q, ts, i); }
  }

  /** A heap with a task added at the end is a heap but for that task. */
  lemma {:induction false} Appended(q: seq<nat>, ts: Tasks, t: nat)
    requires Heap(q, ts) && t in ts
    ensures HeapBut(q + [t], ts, |q|)
  {
    forall i | 0 < i < |q| + 1 && i != |q| && Parent(i) != |q| ensures InOrder(q + [t], ts, i) {
      assert InOrder(q, ts, i);
    }
  }

  /** Putting the last task in place of the one at `p` leaves a heap but for place `p`. */
  lemma {:induction false} LastMovedTo(q: seq<nat>, ts: Tasks, p: nat)
    requires HeapBut(q, ts, p) && p < |q| - 1
    ensures HeapBut(q[..|q| - 1][p := q[|q| - 1]], ts, p)
  {
    var q' := q[..|q| - 1][p := q[|q| - 1]];
    forall i | 0 < i < |q'| && i != p && Parent(i) != p ensures InOrder(q', ts, i) {
      assert InOrder(q, ts, i);
    }
  }

  // ----- positions -----

  /** The two tables hold the same tasks, which differ at most in their position. */
  ghost predicate SameButPos(ts: Tasks, ts': Tasks) {
    && ts.Keys == ts'.Keys
    && (forall t :: t in ts ==> ts'[t] == ts[t].(rqPos := ts'[t].rqPos))
  }

  lemma {:induction false} HeapSame(q: seq<nat>, ts: Tasks, ts': Tasks)
    requires Heap(q, ts) && SameButPos(ts, ts')
    ensures Heap(q, ts')
  {
    forall i | 0 < i < |q| ensures InOrder(q, ts', i) {
      assert InOrder(q, ts, i);
    }
  }

  lemma {:induction false} HeapButSame(q: seq<nat>, ts: Tasks, ts': Tasks, p: nat)
    requires HeapBut(q, ts, p) && SameButPos(ts, ts')
    ensures HeapBut(q, ts', p)
  {
    forall i | 0 < i < |q| && i != p && Parent(i) != p ensures InOrder(q, ts', i) {
      assert InOrder(q, ts, i);
    }
  }

  /** The table after `swap` of the tasks at `i` and `j`. */
  function SwappedPos(q: seq<nat>, ts: Tasks, i: nat, j: nat): Tasks
    requires Known(q, ts) && i < |q| && j < |q|
  {
    ts[q[i] := ts[q[i]].(rqPos := ts[q[j]].rqPos)][q[j] := ts[q[j]].(rqPos := ts[q[i]].rqPos)]
  }

  lemma {:induction false} SwapKeeps(q: seq<nat>, ts: Tasks, i: nat, j: nat)
    requires Positions(q, ts) && i < |q| && j < |q|
    ensures Positions(Swapped(q, i, j), SwappedPos(q, ts, i, j))
    ensures SameButPos(ts, SwappedPos(q, ts, i, j))
  {
    SwapElems(q, i, j);
  }

  /** The two queues hold the same tasks. */
  ghost predicate SameElems(q: seq<nat>, q': seq<nat>) {
    |q| == |q'| && forall x: nat :: x in q' <==> x in q
  }

  lemma {:induction false} SwapElems(q: seq<nat>, i: nat, j: nat)
    requires i < |q| && j < |q|
    ensures SameElems(q, Swapped(q, i, j))
  {
    var q' := Swapped(q, i, j);
    forall x: nat ensures x in q' <==> x in q {
      if x in q { var k :| 0 <= k < |q| && q[k] == x; assert q'[if k == i then j else if k == j then i else k] == x; }
      if x in q' { var k :| 0 <= k < |q| && q'[k] == x; assert q[if k == i then j else if k == j then i else k] == x; }
    }
  }

  /** The queue and table once the last task has been popped. */
  lemma {:induction false} PoppedPositions(q: seq<nat>, ts: Tasks)
    requires Positions(q, ts) && |q| > 0
    ensures var t := q[|q| - 1];
      Positions(q[..|q| - 1], ts[t := ts[t].(rqPos := -1)]) && SameButPos(ts, ts[t := ts[t].(rqPos := -1)])
    ensures Dropped(q, q[..|q| - 1], q[|q| - 1])
  {
    var q', t := q[..|q| - 1], q[|q| - 1];
    forall x: nat ensures x in q' <==> x in q && x != t {
      if x in q && x != t { var k :| 0 <= k < |q| && q[k] == x; assert q'[k] == x; }
      if x in q' { var k :| 0 <= k < |q'| && q'[k] == x; assert q[k] == x; assert ts[x].rqPos == k; }
    }
  }

  lemma {:induction false} PushedPositions(q: seq<nat>, ts: Tasks, t: nat)
    requires Positions(q, ts) && t in ts && t !in q
    ensures Positions(q + [t], ts[t := ts[t].(rqPos := |q|)])
  {
    var q', ts' := q + [t], ts[t := ts[t].(rqPos := |q|)];
    forall x | x in ts' && x !in q' ensures ts'[x].rqPos == -1 {
      assert t == q'[|q|];
    }
  }

  /** `q'` holds the tasks of `q` and `t`, which was not one of them. */
  ghost predicate Added(q: seq<nat>, q': seq<nat>, t: nat) {
    && |q'| == |q| + 1 && t !in q && t in q'
    && forall x: nat :: x != t ==> (x in q' <==> x in q)
  }

  /** `q'` holds the tasks of `q` but `t`, which was one of them. */
  ghost predicate Dropped(q: seq<nat>, q': seq<nat>, t: nat) {
    Added(q', q, t)
  }

  ghost predicate AllWork(q: seq<nat>, ts: Tasks)
    requires Known(q, ts)
  {
    forall i :: 0 <= i < |q| ==> ts[q[i]].hasWork
  }
}
