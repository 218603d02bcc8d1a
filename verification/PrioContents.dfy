/**
 What the items of a PrioTable hold: over every interleaving an item is what the writes completed so far,
 each as it was asked for, have made of it.
 */
module PrioContents {
  import opened PrioProtocol
  import opened PrioInvariant

  /** A write as it was asked for. */
  datatype Begun = Begun(i: nat, op: WriteOp)

  /**
   What the actions of a run say: `values` is what each item should hold once the writes completed so far
   have been made, and `begun` holds, by writer, the writes asked for and not completed yet.
   */
  datatype Log = Log(values: seq<Rec>, begun: map<nat, Begun>)

  /** The sequence number of item i goes back to even: a write of it is complete. */
  predicate Unlocks(s: State, s': State, i: nat) {
    i < |s.seqnums| && i < |s'.seqnums| && Locked(s.seqnums[i]) && !Locked(s'.seqnums[i])
  }

  /** The log after the action `a`, which leads from `s` to `s'`. */
  function Noted(l: Log, s: State, a: Action, s': State): Log {
    match a
    case StartWrite(w, i, op) => l.(begun := l.begun[w := Begun(i, op)])
    case StepWriter(w, _) =>
      if w in l.begun && Unlocks(s, s', l.begun[w].i) then Completed(l, w) else l
    case _ => l
  }

  function Completed(l: Log, w: nat): Log
    requires w in l.begun
  {
    var b := l.begun[w];
    var known := b.i < |l.values| && |l.values[b.i]| == FIELDS;
    Log(if known then l.values[b.i := Meaning(l.values[b.i], b.op)] else l.values, l.begun - {w})
  }

  /** The log of a run. */
  ghost function LogOf(l: Log, s: State, acts: seq<Action>, retries: nat): Log
    decreases |acts|
  {
    if acts == [] || !TypeOk(s) || !Enabled(s, acts[0]) then l
    else
      var s' := Do(s, acts[0], retries);
      LogOf(Noted(l, s, acts[0], s'), s', acts[1..], retries)
  }

  // ----- the invariant -----

  /** A write is under way at the writer exactly if the log says so. */
  ghost predicate Underway(l: Log, w: Writer, n: nat) {
    match w
    case Waiting(i, op) => n in l.begun && l.begun[n] == Begun(i, op)
    case Writing(i, op, _, _) => n in l.begun && l.begun[n] == Begun(i, op)
    case _ => n !in l.begun
  }

  ghost predicate AllUnderway(s: State, l: Log) {
    && (forall w :: 0 <= w < |s.writers| ==> Underway(l, s.writers[w], w))
    && (forall w :: w in l.begun ==> w < |s.writers|)
  }

  /** In the middle of a write of item i: the fields up to the `k`th are the new ones, and the others as they were. */
  ghost predicate Midway(rec: Rec, before: Rec, op: WriteOp, k: nat) {
    && |rec| == |before| == FIELDS
    && match op
       case SetItem(v) => |v| == FIELDS && k <= FIELDS && rec[..k] == v[..k] && rec[k..] == before[k..]
       case SetRunnable(on) => k <= 1 && rec == if k == 0 then before else Meaning(before, op)
  }

  /** Item i is what the log says, or is being written by one writer from what the log says. */
  ghost predicate Holds(s: State, l: Log, i: nat)
    requires i < |s.items| && i < |l.values|
  {
    && (forall w :: 0 <= w < |s.writers| && InSection(s.writers[w], i) ==>
          Midway(s.items[i], l.values[i], s.writers[w].op, s.writers[w].k))
    && ((forall w :: 0 <= w < |s.writers| ==> !InSection(s.writers[w], i)) ==> s.items[i] == l.values[i])
  }

  ghost predicate Logged(s: State, l: Log) {
    && Inv(s) && |l.values| == |s.items| && AllUnderway(s, l)
    && (forall i :: 0 <= i < |l.values| ==> |l.values[i]| == FIELDS)
    && (forall i :: 0 <= i < |s.items| ==> Holds(s, l, i))
  }

  // ----- steps -----

  lemma {:induction false} StartMidway(rec: Rec, op: WriteOp)
    requires |rec| == FIELDS && (op.SetItem? ==> |op.rec| == FIELDS)
    ensures Midway(rec, rec, op, 0)
  {
    if op.SetItem? { assert rec[..0] == op.rec[..0]; }
  }

  lemma {:induction false} FieldMidway(rec: Rec, before: Rec, op: WriteOp, k: nat)
    requires Midway(rec, before, op, k) && k < FieldsWritten(op)
    ensures Midway(WriteField(rec, op, k), before, op, k + 1)
  {
    if op.SetItem? {
      var rec' := WriteField(rec, op, k);
      assert rec'[..k + 1] == rec[..k] + [op.rec[k]];
      assert rec'[k + 1..] == rec[k..][1..];
      assert before[k..][1..] == before[k + 1..];
      assert op.rec[..k + 1] == op.rec[..k] + [op.rec[k]];
    } else {
      BitMeaning(rec[FLAGS], op.on);
    }
  }

  lemma {:induction false} EndMidway(rec: Rec, before: Rec, op: WriteOp, k: nat)
    requires Midway(rec, before, op, k) && k == FieldsWritten(op)
    ensures rec == Meaning(before, op)
  {
    if op.SetItem? { assert rec == rec[..k] && op.rec == op.rec[..k]; }
  }

  /** Nothing has happened to item i. */
  lemma {:induction false} HoldsOn(s: State, l: Log, s': State, l': Log, i: nat)
    requires i < |s.items| == |s'.items| && i < |l.values| && i < |l'.values| && Holds(s, l, i)
    requires s'.items[i] == s.items[i] && l'.values[i] == l.values[i] && |s'.writers| == |s.writers|
    requires forall w :: 0 <= w < |s.writers| ==>
      (InSection(s.writers[w], i) <==> InSection(s'.writers[w], i)) &&
      (InSection(s.writers[w], i) ==> s'.writers[w].op == s.writers[w].op && s'.writers[w].k == s.writers[w].k)
    ensures Holds(s', l', i)
  {
  }

  /** A writer inside the section of item i is the only one. */
  lemma {:induction false} OnlyInside(s: State, w: nat, v: nat, i: nat)
    requires LockOk(s) && w < |s.writers| && v < |s.writers| && InSection(s.writers[w], i) && v != w
    ensures !InSection(s.writers[v], i)
  {
  }

  /** Nobody is inside the section of an item that is not locked. */
  lemma {:induction false} NobodyInside(s: State, i: nat, w: nat)
    requires TypeOk(s) && LockOk(s) && i < |s.items| && !Locked(s.seqnums[i]) && w < |s.writers|
    ensures !InSection(s.writers[w], i)
  {
    assert HoldsLock(s, s.writers[w]);
  }

  /** A step outside the write sections. */
  lemma {:induction false} LoggedOutside(s: State, l: Log, w: nat, ok: bool, retries: nat)
    requires Logged(s, l) && w < |s.writers| && !s.writers[w].Writing?
    requires s.writers[w].Waiting? ==> Locked(s.seqnums[s.writers[w].i])
    requires Inv(WriterStep(s, w, ok, retries))
    ensures Logged(WriterStep(s, w, ok, retries), Noted(l, s, StepWriter(w, ok), WriterStep(s, w, ok, retries)))
  {
    var s' := WriterStep(s, w, ok, retries);
    assert Underway(l, s.writers[w], w) && s'.seqnums == s.seqnums;
    forall v | 0 <= v < |s'.writers| ensures Underway(l, s'.writers[v], v) { assert Underway(l, s.writers[v], v); }
    forall i | 0 <= i < |s'.items| ensures Holds(s', l, i) { HoldsOn(s, l, s', l, i); }
  }

  lemma {:induction false} LoggedEnter(s: State, l: Log, w: nat, ok: bool, retries: nat)
    requires Logged(s, l) && w < |s.writers| && s.writers[w].Waiting? && !Locked(s.seqnums[s.writers[w].i])
    requires Inv(WriterStep(s, w, ok, retries))
    ensures Logged(WriterStep(s, w, ok, retries), Noted(l, s, StepWriter(w, ok), WriterStep(s, w, ok, retries)))
  {
    var s', i := WriterStep(s, w, ok, retries), s.writers[w].i;
    assert Underway(l, s.writers[w], w) && WriterOk(|s.items|, s.writers[w]);
    forall v | 0 <= v < |s'.writers| ensures Underway(l, s'.writers[v], v) { assert Underway(l, s.writers[v], v); }
    forall j | 0 <= j < |s'.items| ensures Holds(s', l, j) {
      if j == i {
        forall v | 0 <= v < |s.writers| ensures !InSection(s.writers[v], i) { NobodyInside(s, i, v); }
        assert Holds(s, l, i);
        assert s.items[i] == l.values[i] && InSection(s'.writers[w], i);
        StartMidway(s.items[i], s.writers[w].op);
      } else {
        HoldsOn(s, l, s', l, j);
      }
    }
  }

  lemma {:induction false} LoggedField(s: State, l: Log, w: nat, ok: bool, retries: nat)
    requires Logged(s, l) && w < |s.writers| && s.writers[w].Writing?
    requires s.writers[w].k < FieldsWritten(s.writers[w].op) && Inv(WriterStep(s, w, ok, retries))
    ensures Logged(WriterStep(s, w, ok, retries), Noted(l, s, StepWriter(w, ok), WriterStep(s, w, ok, retries)))
  {
    var s', i := WriterStep(s, w, ok, retries), s.writers[w].i;
    assert Underway(l, s.writers[w], w) && WriterOk(|s.items|, s.writers[w]) && s'.seqnums == s.seqnums;
    forall v | 0 <= v < |s'.writers| ensures Underway(l, s'.writers[v], v) { assert Underway(l, s.writers[v], v); }
    forall j | 0 <= j < |s'.items| ensures Holds(s', l, j) {
      if j == i {
        assert Holds(s, l, i) && InSection(s.writers[w], i) && InSection(s'.writers[w], i);
        FieldMidway(s.items[i], l.values[i], s.writers[w].op, s.writers[w].k);
        forall v | 0 <= v < |s'.writers| && v != w ensures !InSection(s'.writers[v], i) { OnlyInside(s', w, v, i); }
      } else {
        HoldsOn(s, l, s', l, j);
      }
    }
  }

  lemma {:induction false} LoggedEnd(s: State, l: Log, w: nat, ok: bool, retries: nat)
    requires Logged(s, l) && w < |s.writers| && s.writers[w].Writing?
    requires s.writers[w].k == FieldsWritten(s.writers[w].op) && Inv(WriterStep(s, w, ok, retries))
    ensures Logged(WriterStep(s, w, ok, retries), Noted(l, s, StepWriter(w, ok), WriterStep(s, w, ok, retries)))
  {
    var s', i := WriterStep(s, w, ok, retries), s.writers[w].i;
    assert Underway(l, s.writers[w], w) && WriterOk(|s.items|, s.writers[w]) && HoldsLock(s, s.writers[w]);
    assert Unlocks(s, s', i);
    var l' := Completed(l, w);
    assert Noted(l, s, StepWriter(w, ok), s') == l';
    EndHolds(s, l, w, s', l', i);
    forall v | 0 <= v < |s'.writers| ensures Underway(l', s'.writers[v], v) { assert Underway(l, s.writers[v], v); }
    forall j | 0 <= j < |s'.items| && j != i ensures Holds(s', l', j) { HoldsOn(s, l, s', l', j); }
  }

  lemma {:induction false} EndHolds(s: State, l: Log, w: nat, s': State, l': Log, i: nat)
    requires Logged(s, l) && w < |s.writers| && InSection(s.writers[w], i) && i < |s.items| == |s'.items|
    requires s.writers[w].k == FieldsWritten(s.writers[w].op) && s'.items == s.items
    requires |s'.writers| == |s.writers| && s'.writers == s.writers[w := s'.writers[w]] && !s'.writers[w].Writing?
    requires |l'.values| == |l.values| && l'.values[i] == Meaning(l.values[i], s.writers[w].op)
    ensures Holds(s', l', i)
  {
    assert Holds(s, l, i);
    EndMidway(s.items[i], l.values[i], s.writers[w].op, s.writers[w].k);
    forall v | 0 <= v < |s'.writers| ensures !InSection(s'.writers[v], i) {
      if v != w { OnlyInside(s, w, v, i); }
    }
  }

  lemma {:induction false} LoggedOther(s: State, l: Log, a: Action, retries: nat)
    requires Logged(s, l) && Enabled(s, a) && !a.StepWriter? && Inv(Do(s, a, retries))
    ensures Logged(Do(s, a, retries), Noted(l, s, a, Do(s, a, retries)))
  {
    var s' := Do(s, a, retries);
    var l' := Noted(l, s, a, s');
    forall v | 0 <= v < |s'.writers| ensures Underway(l', s'.writers[v], v) { assert Underway(l, s.writers[v], v); }
    forall i | 0 <= i < |s'.items| ensures Holds(s', l', i) { HoldsOn(s, l, s', l', i); }
  }

  /** Every step of any writer or of the reader keeps the items what the log says. */
  lemma {:induction false} StepLogged(s: State, l: Log, a: Action, retries: nat)
    requires Logged(s, l) && Enabled(s, a)
    ensures Logged(Do(s, a, retries), Noted(l, s, a, Do(s, a, retries)))
  {
    StepKeeps(s, a, retries);
    if a.StepWriter? {
      var w := s.writers[a.w];
      assert WriterOk(|s.items|, w);
      if w.Writing? && w.k < FieldsWritten(w.op) {
        LoggedField(s, l, a.w, a.ok, retries);
      } else if w.Writing? {
        LoggedEnd(s, l, a.w, a.ok, retries);
      } else if w.Waiting? && !Locked(s.seqnums[w.i]) {
        LoggedEnter(s, l, a.w, a.ok, retries);
      } else {
        LoggedOutside(s, l, a.w, a.ok, retries);
      }
    } else {
      LoggedOther(s, l, a, retries);
    }
  }

  lemma {:induction false} RunLogged(s: State, l: Log, acts: seq<Action>, s': State, retries: nat)
    requires Logged(s, l) && Run(s, acts, s', retries)
    ensures Logged(s', LogOf(l, s, acts, retries))
    decreases |acts|
  {
    if acts != [] {
      var m := Do(s, acts[0], retries);
      StepLogged(s, l, acts[0], retries);
      RunLogged(m, Noted(l, s, acts[0], m), acts[1..], s', retries);
    }
  }

  /** Nothing has been asked for yet, and all items are zero. */
  function Blank(items: nat): Log {
    Log(seq(items, _ => seq(FIELDS, _ => 0)), map[])
  }

  lemma {:induction false} BlankLogged(items: nat, cells: nat, writers: nat)
    requires cells > 0
    ensures Logged(Fresh(items, cells, writers), Blank(items))
  {
    FreshInv(items, cells, writers);
    var s, l := Fresh(items, cells, writers), Blank(items);
    forall i | 0 <= i < items ensures Holds(s, l, i) && |l.values[i]| == FIELDS { }
  }

  lemma {:induction false} NoneBegun(s: State, l: Log)
    requires AllUnderway(s, l) && forall w :: 0 <= w < |s.writers| ==> s.writers[w].Idle?
    ensures l.begun == map[]
  {
    forall w: nat | w < |s.writers| ensures w !in l.begun { assert Underway(l, s.writers[w], w); }
    assert l.begun.Keys == {};
  }

  /**
   Over every interleaving: once the writers have finished and the reader has drained the stream, every
   write that was asked for has been completed, once; every item is what the completed writes, in the order
   of their completion, make of zeroed memory; and so is the reader's copy of every item that was never
   marked runnable before it was set.
   */
  lemma {:induction false} AtRestAsWritten(
    items: nat, cells: nat, writers: nat, acts: seq<Action>, s: State, retries: nat, i: nat)
    requires cells > 0 && i < items
    requires Run(Fresh(items, cells, writers), acts, s, retries) && AtRest(s)
    ensures var log := LogOf(Blank(items), Fresh(items, cells, writers), acts, retries);
      && log.begun == map[] && i < |log.values| && i < |s.items| && i < |s.cache|
      && s.items[i] == log.values[i]
      && (DisciplinedRun(Fresh(items, cells, writers), acts, retries, i) ==> s.cache[i].rec == log.values[i])
  {
    var zero := Fresh(items, cells, writers);
    BlankLogged(items, cells, writers);
    RunLogged(zero, Blank(items), acts, s, retries);
    RunKeeps(zero, acts, s, retries);
    var log := LogOf(Blank(items), zero, acts, retries);
    assert Holds(s, log, i);
    NoneBegun(s, log);
    if DisciplinedRun(zero, acts, retries, i) { AtRestInSync(items, cells, writers, acts, s, retries, i); }
  }
}
