/**
 The run queue of the EDF scheduler: a binary heap held in a vector, with each task's place in the
 vector stored in the task (userspace/schedulers/edf/edf_scheduler.cc).
 */
module EdfQueue {
  import opened Common

  import opened EdfTasks

  class RunQueue {
    var tasks: Tasks
    var rq: seq<nat>

    constructor ()
      ensures tasks == map[] && rq == []
    {
      tasks := map[];
      rq := [];
    }

    ghost predicate Valid()
      reads this
    {
      Positions(rq, tasks) && Heap(rq, tasks)
    }

    /** The queue and every stored position are right, and `t`, if queued, may be out of order. */
    ghost predicate ValidBut(p: nat)
      reads this
    {
      Positions(rq, tasks) && HeapBut(rq, tasks, p)
    }

    /** Writes the fields of a task that is not queued, or adds such a task. */
    method SetTask(t: nat, task: Task)
      requires Valid() && t !in rq && task.rqPos == -1
      modifies this
      ensures Valid() && rq == old(rq) && tasks == old(tasks)[t := task]
    {
      tasks := tasks[t := task];
      HeapElsewhere(rq, old(tasks), tasks);
    }

    /** Writes the fields of a queued task, its place in the queue excepted. */
    method SetQueuedTask(t: nat, task: Task)
      requires Valid() && t in rq && task.rqPos == tasks[t].rqPos
      modifies this
      ensures rq == old(rq) && tasks == old(tasks)[t := task]
      ensures 0 <= task.rqPos && ValidBut(task.rqPos)
    {
      tasks := tasks[t := task];
      KeyChanged(rq, old(tasks), tasks, task.rqPos);
    }

    method FreeTask(t: nat)
      requires Valid() && t !in rq
      modifies this
      ensures Valid() && rq == old(rq) && tasks == old(tasks) - {t}
    {
      tasks := tasks - {t};
      HeapElsewhere(rq, old(tasks), tasks);
    }

    method Swap(i: nat, j: nat)
      requires Positions(rq, tasks) && i < |rq| && j < |rq|
      modifies this
      ensures rq == Swapped(old(rq), i, j) && Positions(rq, tasks)
      ensures SameButPos(old(tasks), tasks)
      ensures SameElems(old(rq), rq)
    {
      SwapKeeps(rq, tasks, i, j);
      SwapElems(rq, i, j);
      var a, b := rq[i], rq[j];
      var pa, pb := tasks[a].rqPos, tasks[b].rqPos;
      rq := rq[i := b][j := a];
      tasks := tasks[a := tasks[a].(rqPos := pb)][b := tasks[b].(rqPos := pa)];
    }

    method SiftUp(pos0: nat)
      requires Positions(rq, tasks) && HeapUp(rq, tasks, pos0)
      requires pos0 > 0 && After(tasks[rq[Parent(pos0)]], tasks[rq[pos0]])
      modifies this
      ensures Valid() && SameButPos(old(tasks), tasks)
      ensures SameElems(old(rq), rq)
    {
      var pos: nat := pos0;
      ghost var ts := tasks;
      while pos > 0 && After(tasks[rq[(pos - 1) / 2]], tasks[rq[pos]])
        invariant SameButPos(ts, tasks) && Positions(rq, tasks) && HeapUp(rq, ts, pos)
        invariant SameElems(old(rq), rq)
        decreases pos
      {
        UpStep(rq, ts, pos);
        Swap(pos, (pos - 1) / 2);
        pos := (pos - 1) / 2;
      }
      UpDone(rq, ts, pos);
      HeapSame(rq, ts, tasks);
    }

    /** The child of `pos` to be compared with it, or a place beyond the end of the queue. */
    method FirstChild(pos: nat) returns (c: nat)
      requires Known(rq, tasks)
      ensures c < |rq| ==> c > 0 && Parent(c) == pos
      ensures c < |rq| ==> forall i :: 0 < i < |rq| && Parent(i) == pos ==> !After(tasks[rq[c]], tasks[rq[i]])
      ensures c >= |rq| ==> forall i :: 0 < i < |rq| ==> Parent(i) != pos
    {
      c := pos * 2 + 1;
      if pos * 2 + 2 < |rq| && After(tasks[rq[c]], tasks[rq[pos * 2 + 2]]) {
        c := pos * 2 + 2;
      }
      forall i | 0 < i < |rq| && Parent(i) == pos ensures i == 2 * pos + 1 || i == 2 * pos + 2 {
      }
    }

    method SwapDown(pos: nat, c: nat, ghost ts: Tasks)
      requires Positions(rq, tasks) && SameButPos(ts, tasks) && HeapDown(rq, ts, pos)
      requires 0 < c < |rq| && Parent(c) == pos && After(tasks[rq[pos]], tasks[rq[c]])
      requires forall i :: 0 < i < |rq| && Parent(i) == pos ==> !After(tasks[rq[c]], tasks[rq[i]])
      modifies this
      ensures Positions(rq, tasks) && SameButPos(ts, tasks) && HeapDown(rq, ts, c)
      ensures SameElems(old(rq), rq)
    {
      forall i | 0 < i < |rq| && Parent(i) == pos ensures !After(ts[rq[c]], ts[rq[i]]) {
        assert !After(tasks[rq[c]], tasks[rq[i]]);
      }
      DownStep(rq, ts, pos, c);
      Swap(pos, c);
    }

    method SiftDown(pos0: nat)
      requires Positions(rq, tasks) && HeapDown(rq, tasks, pos0)
      modifies this
      ensures Valid() && SameButPos(old(tasks), tasks)
      ensures SameElems(old(rq), rq)
    {
      var pos: nat := pos0;
      ghost var ts := tasks;
      while true
        invariant SameButPos(ts, tasks) && Positions(rq, tasks) && HeapDown(rq, ts, pos)
        invariant SameElems(old(rq), rq)
        decreases |rq| - pos
      {
        var c := FirstChild(pos);
        if c < |rq| && After(tasks[rq[pos]], tasks[rq[c]]) {
          SwapDown(pos, c, ts);
          pos := c;
        } else {
          break;
        }
      }
      NoneBefore(pos, ts);
      DownDone(rq, ts, pos);
      HeapSame(rq, ts, tasks);
    }

    lemma {:induction false} NoneBefore(pos: nat, ts: Tasks)
      requires Known(rq, tasks) && pos < |rq| && SameButPos(ts, tasks)
      requires forall i :: 0 < i < |rq| && Parent(i) == pos ==> !After(tasks[rq[pos]], tasks[rq[i]])
      ensures forall i :: 0 < i < |rq| && Parent(i) == pos ==> !After(ts[rq[pos]], ts[rq[i]])
    {
      forall i | 0 < i < |rq| && Parent(i) == pos ensures !After(ts[rq[pos]], ts[rq[i]]) {
        assert !After(tasks[rq[pos]], tasks[rq[i]]);
      }
    }

    /** Whatever the key of the task at `pos`, moves it where the heap is whole again. */
    method UpdateRunqueuePosition(pos: nat)
      requires pos < |rq| && ValidBut(pos)
      modifies this
      ensures Valid() && SameButPos(old(tasks), tasks)
      ensures SameElems(old(rq), rq)
    {
      if pos > 0 && After(tasks[rq[(pos - 1) / 2]], tasks[rq[pos]]) {
        UpStart(rq, tasks, pos);
        SiftUp(pos);
      } else {
        DownStart(rq, tasks, pos);
        SiftDown(pos);
      }
    }

    method PopLast()
      requires Positions(rq, tasks) && |rq| > 0
      modifies this
      ensures rq == old(rq[..|rq| - 1]) && Dropped(old(rq), rq, old(rq[|rq| - 1]))
      ensures Positions(rq, tasks) && SameButPos(old(tasks), tasks)
    {
      PoppedPositions(rq, tasks);
      var t := rq[|rq| - 1];
      tasks := tasks[t := tasks[t].(rqPos := -1)];
      rq := rq[..|rq| - 1];
    }

    method Push(t: nat)
      requires Valid() && t in tasks && t !in rq
      modifies this
      ensures Valid() && Added(old(rq), rq, t) && SameButPos(old(tasks), tasks)
    {
      ghost var ts := tasks;
      Appended(rq, ts, t);
      PushedPositions(rq, ts, t);
      tasks := tasks[t := tasks[t].(rqPos := |rq|)];
      rq := rq + [t];
      HeapButSame(rq, ts, tasks, |rq| - 1);
      assert Added(old(rq), rq, t) by { assert rq[|rq| - 1] == t; }
      UpdateRunqueuePosition(|rq| - 1);
    }

    /**
     A task with work joins the run queue. A task without work is paused: it is enqueued once its
     scheduling parameters say that it has work.
     */
    method Enqueue(t: nat)
      requires Valid() && t in tasks && t !in rq
      modifies this
      ensures Valid()
      ensures !old(tasks[t].hasWork) ==> rq == old(rq) && tasks == old(tasks[t := tasks[t].(state := Paused)])
      ensures old(tasks[t].hasWork) ==>
        && Added(old(rq), rq, t)
        && SameButPos(old(tasks[t := tasks[t].(state := Queued)]), tasks)
    {
      if !tasks[t].hasWork {
        tasks := tasks[t := tasks[t].(state := Paused)];
        HeapElsewhere(rq, old(tasks), tasks);
      } else {
        tasks := tasks[t := tasks[t].(state := Queued)];
        HeapElsewhere(rq, old(tasks), tasks);
        Push(t);
      }
    }

    /**
     Removes a most urgent task: boosted if any queued one is, among those of its boost of the highest QoS,
     and among those of its boost and QoS of the earliest deadline.
     */
    method Dequeue() returns (t: Option<nat>)
      requires Valid() && AllWork(rq, tasks)
      modifies this
      ensures Valid() && SameButPos(old(tasks), tasks)
      ensures t.None? <==> old(rq) == []
      ensures t.None? ==> rq == []
      ensures t.Some? ==> Dropped(old(rq), rq, t.value) && t.value == old(rq[0])
      ensures t.Some? ==> t.value in tasks && tasks[t.value].hasWork
      ensures t.Some? ==> MostUrgent(old(tasks), t.value, old(rq))
    {
      if rq == [] {
        return None;
      }
      t := Some(rq[0]);
      FirstMostUrgent(rq, tasks);
      PopFirst();
    }

    method PopFirst()
      requires Valid() && rq != []
      modifies this
      ensures Valid() && SameButPos(old(tasks), tasks) && Dropped(old(rq), rq, old(rq[0]))
    {
      var n := |rq|;
      ghost var ts := tasks;
      Moved(rq, ts, 0);
      Swap(0, n - 1);
      PopLast();
      if rq != [] {
        HeapButSame(rq, ts, tasks, 0);
        UpdateRunqueuePosition(0);
      }
    }

    /** The task that Dequeue would take. */
    method Peek() returns (t: Option<nat>)
      requires Valid() && AllWork(rq, tasks)
      ensures t.None? <==> rq == []
      ensures t.Some? ==> t.value == rq[0] && MostUrgent(tasks, t.value, rq)
    {
      if rq == [] {
        return None;
      }
      FirstMostUrgent(rq, tasks);
      return Some(rq[0]);
    }

    method TakeLast()
      requires |rq| > 0 && ValidBut(|rq| - 1)
      modifies this
      ensures Valid() && Dropped(old(rq), rq, old(rq[|rq| - 1])) && SameButPos(old(tasks), tasks)
    {
      LastGone(rq, tasks);
      PopLast();
      HeapSame(rq, old(tasks), tasks);
    }

    method TakeInner(pos: nat)
      requires pos < |rq| - 1 && ValidBut(pos)
      modifies this
      ensures Valid() && Dropped(old(rq), rq, old(rq[pos])) && SameButPos(old(tasks), tasks)
    {
      Moved(rq, tasks, pos);
      Swap(pos, |rq| - 1);
      PopLast();
      HeapButSame(rq, old(tasks), tasks, pos);
      UpdateRunqueuePosition(pos);
    }

    method TakeOut(pos: nat)
      requires pos < |rq| && ValidBut(pos)
      modifies this
      ensures Valid() && Dropped(old(rq), rq, old(rq[pos])) && SameButPos(old(tasks), tasks)
    {
      if pos == |rq| - 1 {
        TakeLast();
      } else {
        TakeInner(pos);
      }
    }

    /** Takes a task out of the middle of the queue, even when its own key has just changed. */
    method RemoveFromRunqueue(t: nat)
      requires t in tasks && t in rq && 0 <= tasks[t].rqPos && ValidBut(tasks[t].rqPos)
      modifies this
      ensures Valid() && Dropped(old(rq), rq, t)
      ensures SameButPos(old(tasks[t := tasks[t].(state := Paused)]), tasks)
    {
      TakeOut(tasks[t].rqPos);
      ghost var ts := tasks;
      tasks := tasks[t := tasks[t].(state := Paused)];
      HeapElsewhere(rq, ts, tasks);
    }

    method UpdateRunqueue(t: nat)
      requires t in tasks && t in rq && 0 <= tasks[t].rqPos && ValidBut(tasks[t].rqPos)
      modifies this
      ensures Valid() && SameButPos(old(tasks), tasks) && SameElems(old(rq), rq)
    {
      UpdateRunqueuePosition(tasks[t].rqPos);
    }
  }

  lemma {:induction false} HeapElsewhere(q: seq<nat>, ts: Tasks, ts': Tasks)
    requires Heap(q, ts) && Known(q, ts') && forall i :: 0 <= i < |q| ==> ts'[q[i]] == ts[q[i]]
    ensures Heap(q, ts')
  {
    forall i | 0 < i < |q| ensures InOrder(q, ts', i) {
      assert InOrder(q, ts, i);
    }
  }

  /** A heap but for its last task loses that task. */
  lemma {:induction false} LastGone(q: seq<nat>, ts: Tasks)
    requires |q| > 0 && HeapBut(q, ts, |q| - 1)
    ensures Heap(q[..|q| - 1], ts)
  {
    var q' := q[..|q| - 1];
    forall i | 0 < i < |q'| ensures InOrder(q', ts, i) {
      assert InOrder(q, ts, i);
    }
  }

  /** Swapping the task at `p` with the last one and dropping the last place. */
  lemma {:induction false} Moved(q: seq<nat>, ts: Tasks, p: nat)
    requires p < |q| && (HeapBut(q, ts, p) || Heap(q, ts))
    ensures p < |q| - 1 ==> HeapBut(Swapped(q, p, |q| - 1)[..|q| - 1], ts, p)
  {
    if p < |q| - 1 {
      if Heap(q, ts) { KeyChanged(q, ts, ts, p); }
      LastMovedTo(q, ts, p);
      assert Swapped(q, p, |q| - 1)[..|q| - 1] == q[..|q| - 1][p := q[|q| - 1]];
    }
  }
}
