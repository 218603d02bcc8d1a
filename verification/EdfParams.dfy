/**
 The agent's copy of the parameters of a sched item, and what a copy that fails does to the run queue
 (userspace/schedulers/edf/orchestrator.h).
 */
module EdfParams {
  import opened EdfTasks
  import opened PrioProtocol

  /** The fields of a sched item, as they were read. */
  datatype Item = Item(sid: nat, wcid: nat, gpid: nat, flags: nat, deadline: nat)

  /** The cached copy, the sequence number it was taken at, and the QoS of its work class. */
  datatype Snapshot = Snapshot(item: Item, seqcount: nat, qos: nat)

  /** read_end: no write was under way, and none has ended since. */
  predicate ReadOk(begin: nat, now: nat) {
    !Locked(begin) && begin == now
  }

  /** The copy after a read that saw sequence number `begin`, the fields `read` and then sequence number `now`. */
  function Copied(c: Snapshot, begin: nat, read: Item, now: nat, qos: nat): Snapshot {
    if begin == c.seqcount then c
    else if ReadOk(begin, now) then Snapshot(read, begin, qos)
    else if !Runnable(c.item.flags) then Snapshot(c.item.(flags := WithRunnable(c.item.flags, true)), begin, qos)
    else c.(qos := qos)
  }

  /** The scheduler is told of a change. */
  predicate Told(c: Snapshot, begin: nat, now: nat) {
    begin != c.seqcount && (ReadOk(begin, now) || !Runnable(c.item.flags))
  }

  class SchedParams {
    var sid: nat
    var wcid: nat
    var gpid: nat
    var flags: nat
    var deadline: nat
    var seqcount: nat
    var qos: nat

    ghost function Value(): Snapshot
      reads this
    {
      Snapshot(Item(sid, wcid, gpid, flags, deadline), seqcount, qos)
    }

    /** Copies the fields of the item if the read was consistent; the QoS is stored either way. */
    method SeqCopyParams(begin: nat, read: Item, now: nat, wcQos: nat) returns (told: bool)
      modifies this
      ensures Value() == Copied(old(Value()), begin, read, now, wcQos)
      ensures told <==> Told(old(Value()), begin, now)
      // Nothing new.
      ensures begin == old(seqcount) ==> !told && Value() == old(Value())
      // A whole copy: no write was under way, and none has ended since.
      ensures begin != old(seqcount) && begin % 2 == 0 && now == begin ==>
        told && Value() == Snapshot(read, begin, wcQos)
      // A failed copy of an item that was not runnable: the runnable bit is set, and the number stored.
      ensures begin != old(seqcount) && (begin % 2 == 1 || now != begin) && old(flags) % 2 == 0 ==>
        && told && seqcount == begin && flags == old(flags) + 1 && qos == wcQos
        && sid == old(sid) && wcid == old(wcid) && gpid == old(gpid) && deadline == old(deadline)
      // A failed copy of one that was: nothing but the QoS changes.
      ensures begin != old(seqcount) && (begin % 2 == 1 || now != begin) && old(flags) % 2 == 1 ==>
        !told && Value() == old(Value()).(qos := wcQos)
    {
      if begin == seqcount {
        return false;
      }
      qos := wcQos;
      if !ReadOk(begin, now) {
        if !Runnable(flags) {
          seqcount := begin;
          flags := WithRunnable(flags, true);
          return true;
        }
        return false;
      }
      seqcount := begin;
      sid := read.sid;
      wcid := read.wcid;
      gpid := read.gpid;
      flags := read.flags;
      deadline := read.deadline;
      return true;
    }
  }

  /** The case in which the QoS changes and nobody is told: the guard of the last branch, with a new QoS. */
  predicate Silent(c: Snapshot, begin: nat, now: nat, qos: nat) {
    begin != c.seqcount && !ReadOk(begin, now) && Runnable(c.item.flags) && qos != c.qos
  }

  lemma {:induction false} SilentExactly(c: Snapshot, begin: nat, read: Item, now: nat, qos: nat)
    ensures !Told(c, begin, now) && Copied(c, begin, read, now, qos).qos != c.qos <==> Silent(c, begin, now, qos)
    ensures !Told(c, begin, now) ==> Copied(c, begin, read, now, qos) == c.(qos := Copied(c, begin, read, now, qos).qos)
  {
  }

  /** A task whose QoS changes from `a` to `b` while it is queued leaves every run queue a heap. */
  ghost predicate Harmless(a: nat, b: nat) {
    forall q: seq<nat>, ts: Tasks, p: nat | Positions(q, ts) && Heap(q, ts) && p < |q| && ts[q[p]].qos == a ::
      Heap(q, ts[q[p] := ts[q[p]].(qos := b)])
  }

  /** A queue of two tasks of one QoS that the change breaks: the second overtakes, or the first falls behind. */
  lemma {:induction false} BreaksPair(a: nat, b: nat)
    requires a != b
    ensures !Harmless(a, b)
  {
    var t := Task(Queued, 0, 0, false, false, true, true, a, 0);
    var q, ts := [1, 2], map[1 := t, 2 := t.(rqPos := 1)];
    assert Parent(1) == 0;
    assert InOrder(q, ts, 1);
    assert Positions(q, ts) && Heap(q, ts);
    var p := if a < b then 1 else 0;
    var ts' := ts[q[p] := ts[q[p]].(qos := b)];
    assert !InOrder(q, ts', 1);
  }

  /**
   A copy that the scheduler is not told of leaves every run queue a heap if and only if it is not the
   silent case, which is known before the call.
   */
  lemma {:induction false} UntoldCopy(c: Snapshot, begin: nat, read: Item, now: nat, qos: nat)
    requires !Told(c, begin, now)
    ensures Harmless(c.qos, Copied(c, begin, read, now, qos).qos) <==> !Silent(c, begin, now, qos)
  {
    SilentExactly(c, begin, read, now, qos);
    if Silent(c, begin, now, qos) {
      BreaksPair(c.qos, qos);
    } else {
      forall q: seq<nat>, ts: Tasks, p: nat | Positions(q, ts) && Heap(q, ts) && p < |q| && ts[q[p]].qos == c.qos
        ensures Heap(q, ts[q[p] := ts[q[p]].(qos := c.qos)])
      {
        assert ts[q[p] := ts[q[p]].(qos := c.qos)] == ts;
      }
    }
  }

  /**
   From a zeroed cache: a runnable item of QoS 1 is copied, and then read again while a writer is inside,
   its work class having risen to QoS 2.
   */
  method SilentRaise(item: Item, read: Item) returns (s: SchedParams, first: bool, told: bool, was: nat)
    requires Runnable(item.flags)
    ensures first && !told && was == 1 && s.qos == 2 && s.Value().item == item && !Harmless(was, s.qos)
  {
    s := new SchedParams;
    s.sid, s.wcid, s.gpid, s.flags, s.deadline, s.seqcount, s.qos := 0, 0, 0, 0, 0, 0, 0;
    first := s.SeqCopyParams(2, item, 2, 1);
    was := s.qos;
    told := s.SeqCopyParams(3, read, 3, 2);
    BreaksPair(1, 2);
  }
}
