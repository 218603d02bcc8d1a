/**
 The PrioTable operations run one at a time: what a whole call does when no other writer is
 under way (userspace/shared/prio_table.cc, userspace/schedulers/edf/orchestrator.*,
 userspace/experiments/shared/prio_table_helper.cc).
 */
module PrioTable {
  import opened PrioProtocol

  const NO_ENTRIES := -1
  const OVERFLOW := -2

  /** The position of the first cell at or after `p` that is not free; the length when there is none. */
  function FirstUsed(cells: seq<int>, p: nat): (r: nat)
    requires p <= |cells|
    ensures p <= r <= |cells|
    ensures forall j :: p <= j < r ==> cells[j] == FREE
    ensures r < |cells| ==> cells[r] != FREE
    decreases |cells| - p
  {
    if p == |cells| || cells[p] != FREE then p else FirstUsed(cells, p + 1)
  }

  /**
   The try on which MarkUpdatedIndex takes a cell for `idx`: the first at or after the `k`th whose cell is
   free and whose compare-exchange succeeds; the number of tries when there is none.
   */
  function TakenAt(cells: seq<int>, idx: nat, outcomes: seq<bool>, k: nat): (r: nat)
    requires 0 < |cells| && k <= |outcomes|
    ensures k <= r <= |outcomes|
    ensures forall j :: k <= j < r ==> !(outcomes[j] && cells[(idx + j) % |cells|] == FREE)
    ensures r < |outcomes| ==> outcomes[r] && cells[(idx + r) % |cells|] == FREE
    decreases |outcomes| - k
  {
    if k == |outcomes| || (outcomes[k] && cells[(idx + k) % |cells|] == FREE) then k
    else TakenAt(cells, idx, outcomes, k + 1)
  }

  ghost predicate AllFree(cells: seq<int>) {
    forall p :: 0 <= p < |cells| ==> cells[p] == FREE
  }

  /** Index `i` is announced in the stream. */
  ghost predicate Pending(cells: seq<int>, scrapeAll: nat, i: nat) {
    scrapeAll > 0 || i in cells
  }

  /** The record after the first `k` field writes of `op`. */
  function WrittenTo(rec: Rec, op: WriteOp, k: nat): (r: Rec)
    requires |rec| == FIELDS && k <= FieldsWritten(op) && (op.SetItem? ==> |op.rec| == FIELDS)
    ensures |r| == FIELDS
  {
    if k == 0 then rec else WriteField(WrittenTo(rec, op, k - 1), op, k - 1)
  }

  lemma {:induction false} WrittenToEnd(rec: Rec, op: WriteOp)
    requires |rec| == FIELDS && (op.SetItem? ==> |op.rec| == FIELDS)
    ensures WrittenTo(rec, op, FieldsWritten(op)) == Meaning(rec, op)
  {
    if op.SetItem? {
      WrittenPrefix(rec, op, FIELDS);
    } else {
      assert WrittenTo(rec, op, 0) == rec;
      BitMeaning(rec[FLAGS], op.on);
    }
  }

  lemma {:induction false} WrittenPrefix(rec: Rec, op: WriteOp, k: nat)
    requires |rec| == FIELDS && op.SetItem? && |op.rec| == FIELDS && k <= FIELDS
    ensures WrittenTo(rec, op, k) == op.rec[..k] + rec[k..]
  {
    if k > 0 {
      WrittenPrefix(rec, op, k - 1);
    }
  }

  class Table {
    const items: array<Rec>
    const seqnums: array<nat>
    const cells: array<int>
    var scrapeAll: nat
    /** The reader's cached copies. */
    const cache: array<Cache>

    /** No writer is inside a write section. */
    ghost predicate Valid()
      reads this, items, seqnums, cells, cache
    {
      && items.Length == seqnums.Length == cache.Length
      && 0 < cells.Length && (cells as object) != (seqnums as object)
      && (forall i {:trigger ItemOk(i)} {:trigger items[i]} :: 0 <= i < items.Length ==> ItemOk(i))
      && (forall p :: 0 <= p < cells.Length ==> cells[p] == FREE || 0 <= cells[p] < items.Length)
    }

    ghost predicate ItemOk(i: nat)
      reads items, seqnums, cache
    {
      && i < items.Length == seqnums.Length == cache.Length
      && |items[i]| == FIELDS && items[i][SID] < items.Length && |cache[i].rec| == FIELDS
      && !Locked(seqnums[i]) && cache[i].seqnum <= seqnums[i]
      && (cache[i].seqnum == seqnums[i] ==> cache[i].rec == items[i])
    }

    ghost predicate Synced(i: nat)
      requires i < items.Length == cache.Length
      reads items, cache
    {
      cache[i].rec == items[i]
    }

    /** A zeroed table with an empty stream. */
    constructor (numItems: nat, capacity: nat)
      requires capacity > 0
      ensures Valid() && items.Length == numItems && cells.Length == capacity
      ensures fresh(items) && fresh(seqnums) && fresh(cells) && fresh(cache)
      ensures scrapeAll == 0 && AllFree(cells[..])
      ensures forall i :: 0 <= i < numItems ==> items[i] == [0, 0, 0, 0, 0] && Synced(i)
    {
      var zero: Rec := [0, 0, 0, 0, 0];
      items := new Rec[numItems](_ => zero);
      seqnums := new nat[numItems](_ => 0);
      cells := new int[capacity](_ => FREE);
      cache := new Cache[numItems](_ => Cache(0, zero));
      scrapeAll := 0;
    }

    /**
     MarkUpdatedIndex. `outcomes` says for each try whether a compare-exchange on a free cell would
     succeed: it may fail spuriously. The index goes into the first cell taken; if none is, or an
     overflow is pending, scrape_all is bumped.
     */
    method MarkUpdatedIndex(idx: nat, outcomes: seq<bool>)
      requires Valid() && idx < items.Length
      modifies this`scrapeAll, cells
      ensures Valid()
      ensures old(scrapeAll) > 0 || TakenAt(old(cells[..]), idx, outcomes, 0) == |outcomes| ==>
        cells[..] == old(cells[..]) && scrapeAll == old(scrapeAll) + 1
      ensures old(scrapeAll) == 0 && TakenAt(old(cells[..]), idx, outcomes, 0) < |outcomes| ==>
        var p := (idx + TakenAt(old(cells[..]), idx, outcomes, 0)) % cells.Length;
        cells[..] == old(cells[..])[p := idx] && scrapeAll == 0
      ensures forall i :: i == idx || Pending(old(cells[..]), old(scrapeAll), i) ==> Pending(cells[..], scrapeAll, i)
      ensures scrapeAll == 0 ==>
        forall i :: i != idx && Pending(cells[..], scrapeAll, i) ==> Pending(old(cells[..]), old(scrapeAll), i)
    {
      if scrapeAll > 0 {
        scrapeAll := scrapeAll + 1;
        return;
      }
      for k := 0 to |outcomes|
        invariant cells[..] == old(cells[..]) && scrapeAll == old(scrapeAll) && Valid()
        invariant TakenAt(old(cells[..]), idx, outcomes, 0) == TakenAt(old(cells[..]), idx, outcomes, k)
      {
        var cell := (idx + k) % cells.Length;
        if cells[cell] == FREE && outcomes[k] {
          cells[cell] := idx;
          assert cells[..] == old(cells[..])[cell := idx];
          KeepsPending(old(cells[..]), cell, idx);
          return;
        }
      }
      scrapeAll := scrapeAll + 1;
    }

    static lemma {:induction false} KeepsPending(c: seq<int>, p: nat, idx: nat)
      requires p < |c| && c[p] == FREE
      ensures idx in c[p := idx]
      ensures forall i: nat :: i in c ==> i in c[p := idx]
      ensures forall i: nat :: i in c[p := idx] ==> i == idx || i in c
    {
      assert c[p := idx][p] == idx;
      forall i: nat | i in c ensures i in c[p := idx] {
        var j :| 0 <= j < |c| && c[j] == i;
        assert c[p := idx][j] == i;
      }
    }

    static lemma {:induction false} StaysPending(c: seq<int>, p: nat, i: nat)
      requires p < |c| && c[p] != i && i in c
      ensures i in c[p := FREE]
    {
      var j :| 0 <= j < |c| && c[j] == i;
      assert c[p := FREE][j] == i;
    }

    /** NextUpdatedIndex: the first announced index, or an overflow that empties the whole stream. */
    method NextUpdatedIndex() returns (r: int)
      requires Valid()
      modifies this`scrapeAll, cells
      ensures Valid()
      ensures old(scrapeAll) > 0 ==> r == OVERFLOW && scrapeAll == 0 && AllFree(cells[..])
      ensures old(scrapeAll) == 0 ==>
        var p := FirstUsed(old(cells[..]), 0);
        && scrapeAll == 0
        && (p == cells.Length ==> r == NO_ENTRIES && cells[..] == old(cells[..]))
        && (p < cells.Length ==> r == old(cells[p]) && cells[..] == old(cells[..])[p := FREE])
    {
      var full := false;
      if scrapeAll > 0 {
        scrapeAll := 0;
        full := true;
      }
      for i := 0 to cells.Length
        invariant Valid() && scrapeAll == 0 && full == (old(scrapeAll) > 0)
        invariant forall j :: 0 <= j < i ==> cells[j] == FREE
        invariant !full ==> cells[..] == old(cells[..]) && FirstUsed(old(cells[..]), 0) == FirstUsed(old(cells[..]), i)
      {
        var idx := cells[i];
        if idx != FREE {
          cells[i] := FREE;
          if !full {
            return idx;
          }
        }
      }
      r := if full then OVERFLOW else NO_ENTRIES;
    }

    /** SeqCopyParams (and RefreshSchedParam around it): copies an item unless its sequence number is unchanged. */
    method RefreshSchedParam(i: nat) returns (changed: bool)
      requires Valid() && i < items.Length
      modifies cache
      ensures Valid() && Synced(i)
      ensures changed <==> old(cache[i].seqnum) != seqnums[i]
      ensures forall j :: 0 <= j < cache.Length && j != i ==> cache[j] == old(cache[j])
      ensures !changed ==> cache[i] == old(cache[i])
    {
      assert ItemOk(i);
      var begin := seqnums[i];
      if begin == cache[i].seqnum {
        return false;
      }
      var buf: Rec := [];
      for k := 0 to FIELDS
        invariant buf == items[i][..k]
      {
        buf := buf + [items[i][k]];
      }
      cache[i] := Accept(cache[i], buf, begin, seqnums[i]);
      changed := true;
      forall j | 0 <= j < items.Length ensures ItemOk(j) {
        assert j != i ==> old(ItemOk(j));
      }
    }

    method RefreshAllSchedParams()
      requires Valid()
      modifies cache
      ensures Valid()
      ensures forall i :: 0 <= i < items.Length ==> Synced(i)
    {
      for i := 0 to items.Length
        invariant Valid()
        invariant forall j :: 0 <= j < i ==> Synced(j)
      {
        label before:
        var changed := RefreshSchedParam(i);
        assert forall j :: 0 <= j < i ==> old@before(Synced(j)) && cache[j] == old@before(cache[j]);
      }
    }

    /**
     RefreshSchedParams. One call of at most st_cap rounds drains the whole stream and refreshes
     every item announced in it.
     */
    method RefreshSchedParams()
      requires Valid()
      modifies this`scrapeAll, cells, cache
      ensures Valid() && scrapeAll == 0 && AllFree(cells[..])
      ensures forall i :: 0 <= i < items.Length && Pending(old(cells[..]), old(scrapeAll), i) ==> Synced(i)
      ensures forall i :: 0 <= i < items.Length && !Pending(old(cells[..]), old(scrapeAll), i) ==>
        cache[i] == old(cache[i])
    {
      for n := 0 to cells.Length
        invariant Valid() && scrapeAll == old(scrapeAll)
        invariant n > 0 ==> scrapeAll == 0
        invariant forall p :: 0 <= p < n ==> cells[p] == FREE
        invariant forall i :: 0 <= i < items.Length && Pending(old(cells[..]), old(scrapeAll), i) ==>
          Synced(i) || Pending(cells[..], scrapeAll, i)
        invariant forall i :: 0 <= i < items.Length && !Pending(old(cells[..]), old(scrapeAll), i) ==>
          cache[i] == old(cache[i])
        invariant forall i :: 0 <= i < items.Length && Pending(cells[..], scrapeAll, i) ==>
          Pending(old(cells[..]), old(scrapeAll), i)
      {
        ghost var c := cells[..];
        var idx := NextUpdatedIndex();
        if idx == OVERFLOW {
          RefreshAllSchedParams();
          return;
        }
        if idx == NO_ENTRIES {
          return;
        }
        label before:
        var changed := RefreshSchedParam(idx);
        forall i | 0 <= i < items.Length && Pending(old(cells[..]), old(scrapeAll), i)
          ensures Synced(i) || Pending(cells[..], scrapeAll, i)
        {
          assert i != idx ==> cache[i] == old@before(cache[i]);
          if i != idx && i in c { StaysPending(c, FirstUsed(c, 0), i); }
        }
      }
    }

    /**
     The write section of SetSchedItem and MarkRunnability, followed by the mark; the index marked is read
     back from the item.
     */
    method Write(i: nat, op: WriteOp, outcomes: seq<bool>)
      requires Valid() && i < items.Length && OpOk(i, op)
      modifies this`scrapeAll, items, seqnums, cells
      ensures Valid()
      ensures items[i] == Meaning(old(items[i]), op) && seqnums[i] == old(seqnums[i]) + 2
      ensures forall j :: 0 <= j < items.Length && j != i ==> items[j] == old(items[j]) && seqnums[j] == old(seqnums[j])
      ensures forall j :: j == items[i][SID] || Pending(old(cells[..]), old(scrapeAll), j) ==>
        Pending(cells[..], scrapeAll, j)
      ensures scrapeAll == 0 <==>
        old(scrapeAll) == 0 && TakenAt(old(cells[..]), items[i][SID], outcomes, 0) < |outcomes|
      ensures scrapeAll == 0 ==> forall j :: j != items[i][SID] && Pending(cells[..], scrapeAll, j) ==>
        Pending(old(cells[..]), old(scrapeAll), j)
    {
      assert ItemOk(i);
      seqnums[i] := seqnums[i] + 1;
      for k := 0 to FieldsWritten(op)
        modifies items
        invariant |items[i]| == FIELDS && items[i] == WrittenTo(old(items[i]), op, k)
        invariant forall j :: 0 <= j < items.Length && j != i ==> items[j] == old(items[j])
      {
        items[i] := WriteField(items[i], op, k);
      }
      seqnums[i] := seqnums[i] + 1;
      WrittenToEnd(old(items[i]), op);
      forall j | 0 <= j < items.Length ensures ItemOk(j) {
        assert old(ItemOk(j));
      }
      assert cells[..] == old(cells[..]);
      MarkUpdatedIndex(items[i][SID], outcomes);
    }

    /** SetSchedItem: the record must carry its own index. */
    method SetSchedItem(i: nat, rec: Rec, outcomes: seq<bool>)
      requires Valid() && i < items.Length && |rec| == FIELDS && rec[SID] == i
      modifies this`scrapeAll, items, seqnums, cells
      ensures Valid() && items[i] == rec && Pending(cells[..], scrapeAll, i)
      ensures forall j :: 0 <= j < items.Length && j != i ==> items[j] == old(items[j])
      ensures forall j :: Pending(old(cells[..]), old(scrapeAll), j) ==> Pending(cells[..], scrapeAll, j)
    {
      Write(i, SetItem(rec), outcomes);
    }

    /**
     MarkRunnability on a drained table whose cache is in sync, and then a refresh. The reader learns
     the new runnable bit if and only if the item carries its own index, the bit does not change, or
     every compare-exchange fails, so that the mark becomes an overflow.
     */
    method MarkRunnabilityThenRefresh(i: nat, on: bool, outcomes: seq<bool>)
      requires Valid() && i < items.Length && scrapeAll == 0 && AllFree(cells[..])
      requires forall j :: 0 <= j < items.Length ==> Synced(j)
      modifies this`scrapeAll, items, seqnums, cells, cache
      ensures Valid() && scrapeAll == 0 && AllFree(cells[..])
      ensures items[i] == Meaning(old(items[i]), SetRunnable(on))
      ensures forall j :: 0 <= j < items.Length && j != i ==> Synced(j)
      ensures Synced(i) <==>
        old(items[i][SID]) == i || Runnable(old(items[i][FLAGS])) == on ||
        forall k :: 0 <= k < |outcomes| ==> !outcomes[k]
      ensures !Synced(i) ==> cache[i] == old(cache[i])
    {
      assert ItemOk(i);
      assert forall j: nat :: !Pending(cells[..], scrapeAll, j);
      ghost var free := cells[..];
      Write(i, SetRunnable(on), outcomes);
      assert items[i][SID] == old(items[i][SID]);
      NoneTaken(free, items[i][SID], outcomes);
      ghost var overflow := scrapeAll > 0;
      label marked:
      RefreshSchedParams();
      if !overflow && items[i][SID] != i {
        assert !old@marked(Pending(cells[..], scrapeAll, i));
        assert cache[i] == old(cache[i]) && old(Synced(i));
      } else {
        assert old@marked(Pending(cells[..], scrapeAll, i));
        assert Synced(i);
      }
      assert old(Synced(i));
      forall j | 0 <= j < items.Length && j != i ensures Synced(j) {
        assert old(Synced(j));
      }
    }

    /** With all cells free a mark takes one exactly if some compare-exchange succeeds. */
    static lemma {:induction false} NoneTaken(c: seq<int>, idx: nat, outcomes: seq<bool>)
      requires 0 < |c| && AllFree(c)
      ensures TakenAt(c, idx, outcomes, 0) == |outcomes| <==> forall k :: 0 <= k < |outcomes| ==> !outcomes[k]
    {
      var r := TakenAt(c, idx, outcomes, 0);
      forall k | 0 <= k < r ensures !outcomes[k] { assert c[(idx + k) % |c|] == FREE; }
    }
  }

  /** On a fresh table, item 1 is marked runnable before it is set, and the first compare-exchange succeeds. */
  method NeverSetItem() returns (inTable: bool, inCache: bool)
    ensures inTable && !inCache
  {
    var t := new Table(2, 83);
    assert t.cache[1].rec == t.items[1] by { assert t.Synced(1); }
    t.MarkRunnabilityThenRefresh(1, true, [true]);
    assert [true][0] && !t.Synced(1);
    inTable, inCache := Runnable(t.items[1][FLAGS]), Runnable(t.cache[1].rec[FLAGS]);
  }
}
