/**
 Doubly linked lists whose elements are slots of one shared array (userspace/lib/queue.bpf.h).

 Elements are named by their ids 1 .. n, with 0 for "none"; slot 0 of the array is never used.
 */
module ArrList {
  import opened Common

  datatype Entry = Entry(next: nat, prev: nat)

  /** The id at place `i` of a list, or 0 beyond its ends. */
  function At(l: seq<nat>, i: int): nat {
    if 0 <= i < |l| then l[i] else 0
  }

  /** The ids of a list are slots of the array, and no id occurs twice. */
  ghost predicate Slots(s: seq<Entry>, l: seq<nat>) {
    && (forall i :: 0 <= i < |l| ==> 1 <= l[i] < |s|)
    && Distinct(l)
  }

  /** The element at place `i` points to its neighbours. */
  ghost predicate Chained(s: seq<Entry>, l: seq<nat>, i: nat)
    requires Slots(s, l) && i < |l|
  {
    s[l[i]] == Entry(At(l, i + 1), At(l, i - 1))
  }

  /** The array and the head hold the list `l`. */
  ghost predicate Stored(s: seq<Entry>, first: nat, last: nat, l: seq<nat>) {
    && Slots(s, l)
    && first == At(l, 0) && last == At(l, |l| - 1)
    && (forall i :: 0 <= i < |l| ==> Chained(s, l, i))
  }

  /** The list with `id` put at place `k`. */
  function With(l: seq<nat>, k: nat, id: nat): seq<nat>
    requires k <= |l|
  {
    l[..k] + [id] + l[k..]
  }

  /** The two arrays differ at most in the slots of `l`. */
  ghost predicate OnlyIn(s: seq<Entry>, s': seq<Entry>, l: seq<nat>) {
    |s'| == |s| && forall i :: 0 <= i < |s| && i !in l ==> s'[i] == s[i]
  }

  /** `s'` is `s` with `id` linked between the elements at `k - 1` and `k`. */
  ghost predicate Linked(s: seq<Entry>, s': seq<Entry>, l: seq<nat>, k: nat, id: nat) {
    && |s'| == |s| && k <= |l| && 1 <= id < |s|
    && s'[id] == Entry(At(l, k), At(l, k - 1))
    && (forall i :: 0 <= i < |s| && i != id && i != At(l, k) && i != At(l, k - 1) ==> s'[i] == s[i])
    && (0 < At(l, k) < |s| ==> s'[At(l, k)] == s[At(l, k)].(prev := id))
    && (0 < At(l, k - 1) < |s| ==> s'[At(l, k - 1)] == s[At(l, k - 1)].(next := id))
  }

  lemma {:induction false} WithAt(l: seq<nat>, k: nat, id: nat, i: int)
    requires k <= |l|
    ensures At(With(l, k, id), i) == if i < k then At(l, i) else if i == k then id else At(l, i - 1)
  {
  }

  lemma {:induction false} WithSlots(s: seq<Entry>, l: seq<nat>, k: nat, id: nat)
    requires Slots(s, l) && k <= |l| && id !in l && 1 <= id < |s|
    ensures Slots(s, With(l, k, id))
  {
    var l' := With(l, k, id);
    forall i, j | 0 <= i < j < |l'| ensures l'[i] != l'[j] {
      assert i < k ==> l'[i] == l[i];
      assert j > k ==> l'[j] == l[j - 1];
    }
  }

  /** Two places of a list hold the same id only if they are the same place. */
  lemma {:induction false} OnePlace(s: seq<Entry>, l: seq<nat>, i: nat, j: int)
    requires Slots(s, l) && i < |l|
    ensures l[i] == At(l, j) <==> i == j
  {
  }

  lemma {:induction false} LinkedEntry(s: seq<Entry>, s': seq<Entry>, l: seq<nat>, k: nat, id: nat, i: nat)
    requires Slots(s, l) && id !in l && Linked(s, s', l, k, id) && i < |l|
    requires s[l[i]] == Entry(At(l, i + 1), At(l, i - 1))
    ensures s'[l[i]] == Entry(if i + 1 == k then id else At(l, i + 1), if i == k then id else At(l, i - 1))
  {
    OnePlace(s, l, i, k);
    OnePlace(s, l, i, k - 1);
  }

  /** An element after `id` was linked in at `k`. */
  lemma {:induction false} LinkedPlace(s: seq<Entry>, s': seq<Entry>, l: seq<nat>, k: nat, id: nat, i: nat)
    requires Slots(s, l) && id !in l && Linked(s, s', l, k, id) && i <= |l|
    requires i < k ==> s[l[i]] == Entry(At(l, i + 1), At(l, i - 1))
    requires i > k ==> s[l[i - 1]] == Entry(At(l, i), At(l, i - 2))
    requires 1 <= At(With(l, k, id), i) < |s'|
    ensures s'[At(With(l, k, id), i)] == Entry(At(With(l, k, id), i + 1), At(With(l, k, id), i - 1))
  {
    WithAt(l, k, id, i);
    WithAt(l, k, id, i + 1);
    WithAt(l, k, id, i - 1);
    if i < k { LinkedEntry(s, s', l, k, id, i); }
    if i > k { LinkedEntry(s, s', l, k, id, i - 1); }
  }

  lemma {:induction false} LinkedStored(s: seq<Entry>, s': seq<Entry>, first: nat, last: nat, l: seq<nat>, k: nat,
      id: nat)
    requires Stored(s, first, last, l) && id !in l && Linked(s, s', l, k, id)
    ensures Stored(s', if k == 0 then id else first, if k == |l| then id else last, With(l, k, id))
  {
    var l' := With(l, k, id);
    WithSlots(s, l, k, id);
    WithAt(l, k, id, 0);
    WithAt(l, k, id, |l'| - 1);
    forall i | 0 <= i < |l'| ensures Chained(s', l', i) {
      assert i < k ==> Chained(s, l, i);
      assert i > k ==> Chained(s, l, i - 1);
      LinkedPlace(s, s', l, k, id, i);
    }
  }

  /** `s'` is `s` with the element at `k` taken out of the chain. */
  ghost predicate Unlinked(s: seq<Entry>, s': seq<Entry>, l: seq<nat>, k: nat) {
    && |s'| == |s| && k < |l|
    && (forall i :: 0 <= i < |s| && i != l[k] && i != At(l, k + 1) && i != At(l, k - 1) ==> s'[i] == s[i])
    && (0 < At(l, k + 1) < |s| ==> s'[At(l, k + 1)] == s[At(l, k + 1)].(prev := At(l, k - 1)))
    && (0 < At(l, k - 1) < |s| ==> s'[At(l, k - 1)] == s[At(l, k - 1)].(next := At(l, k + 1)))
  }

  lemma {:induction false} WithoutAt(l: seq<nat>, k: nat, i: int)
    requires k < |l|
    ensures At(Without(l, k), i) == if i < k then At(l, i) else At(l, i + 1)
  {
  }

  lemma {:induction false} WithoutSlots(s: seq<Entry>, l: seq<nat>, k: nat)
    requires Slots(s, l) && k < |l|
    ensures Slots(s, Without(l, k)) && l[k] !in Without(l, k)
  {
    var l' := Without(l, k);
    forall i | 0 <= i < |l'| ensures l'[i] == l[if i < k then i else i + 1] {
    }
  }

  lemma {:induction false} UnlinkedEntry(s: seq<Entry>, s': seq<Entry>, l: seq<nat>, k: nat, i: nat)
    requires Slots(s, l) && Unlinked(s, s', l, k) && i < |l| && i != k && s[l[i]] == Entry(At(l, i + 1), At(l, i - 1))
    ensures s'[l[i]] == Entry(if i + 1 == k then At(l, k + 1) else At(l, i + 1),
                              if i == k + 1 then At(l, k - 1) else At(l, i - 1))
  {
    OnePlace(s, l, i, k);
    OnePlace(s, l, i, k - 1);
    OnePlace(s, l, i, k + 1);
  }

  /** An element after the one at `k` was taken out. */
  lemma {:induction false} UnlinkedPlace(s: seq<Entry>, s': seq<Entry>, l: seq<nat>, k: nat, i: nat)
    requires Slots(s, l) && Unlinked(s, s', l, k) && i < |l| - 1
    requires i < k ==> s[l[i]] == Entry(At(l, i + 1), At(l, i - 1))
    requires i >= k ==> s[l[i + 1]] == Entry(At(l, i + 2), At(l, i))
    requires 1 <= At(Without(l, k), i) < |s'|
    ensures s'[At(Without(l, k), i)] == Entry(At(Without(l, k), i + 1), At(Without(l, k), i - 1))
  {
    WithoutAt(l, k, i);
    WithoutAt(l, k, i + 1);
    WithoutAt(l, k, i - 1);
    if i < k { UnlinkedEntry(s, s', l, k, i); } else { UnlinkedEntry(s, s', l, k, i + 1); }
  }

  lemma {:induction false} UnlinkedStored(s: seq<Entry>, s': seq<Entry>, first: nat, last: nat, l: seq<nat>, k: nat)
    requires Stored(s, first, last, l) && Unlinked(s, s', l, k)
    ensures Stored(s', if k == 0 then At(l, 1) else first, if k == |l| - 1 then At(l, k - 1) else last, Without(l, k))
  {
    var l' := Without(l, k);
    WithoutSlots(s, l, k);
    WithoutAt(l, k, 0);
    WithoutAt(l, k, |l'| - 1);
    forall i | 0 <= i < |l'| ensures Chained(s', l', i) {
      assert Chained(s, l, if i < k then i else i + 1);
      UnlinkedPlace(s, s', l, k, i);
    }
  }

  /** A list is not touched by changes to slots that are not its own. */
  lemma {:induction false} OtherList(s: seq<Entry>, s': seq<Entry>, first: nat, last: nat, l: seq<nat>,
      changed: seq<nat>)
    requires Stored(s, first, last, l) && OnlyIn(s, s', changed) && Apart(l, changed)
    ensures Stored(s', first, last, l)
  {
    forall i | 0 <= i < |l| ensures Chained(s', l, i) { assert Chained(s, l, i); }
  }

  /** The two lists share no element. */
  ghost predicate Apart(l: seq<nat>, l': seq<nat>) {
    forall i :: 0 <= i < |l| ==> l[i] !in l'
  }

  lemma {:induction false} ConcatAt(l: seq<nat>, m: seq<nat>, i: int)
    ensures At(l + m, i) == if i < |l| then At(l, i) else At(m, i - |l|)
  {
  }

  /** `s'` is `s` with the end of `l` and the start of `m` linked to each other. */
  ghost predicate Joined(s: seq<Entry>, s': seq<Entry>, l: seq<nat>, m: seq<nat>) {
    var a, b := At(l, |l| - 1), At(m, 0);
    && |s'| == |s|
    && (forall i :: 0 <= i < |s| && i != a && i != b ==> s'[i] == s[i])
    && (0 < a < |s| ==> s'[a] == s[a].(next := b))
    && (0 < b < |s| ==> s'[b] == s[b].(prev := a))
  }

  lemma {:induction false} JoinedSlots(s: seq<Entry>, l: seq<nat>, m: seq<nat>)
    requires Slots(s, l) && Slots(s, m) && Apart(l, m)
    ensures Slots(s, l + m)
  {
    var c := l + m;
    forall i, j | 0 <= i < j < |c| ensures c[i] != c[j] {
      if i < |l| <= j { assert c[j] == m[j - |l|]; }
    }
  }

  lemma {:induction false} JoinedPlace(s: seq<Entry>, s': seq<Entry>, l: seq<nat>, m: seq<nat>, i: nat)
    requires Slots(s, l) && Slots(s, m) && Apart(l, m) && Joined(s, s', l, m) && i < |l| + |m|
    requires i < |l| ==> s[l[i]] == Entry(At(l, i + 1), At(l, i - 1))
    requires i >= |l| ==> s[m[i - |l|]] == Entry(At(m, i - |l| + 1), At(m, i - |l| - 1))
    requires 1 <= At(l + m, i) < |s'|
    ensures s'[At(l + m, i)] == Entry(At(l + m, i + 1), At(l + m, i - 1))
  {
    ConcatAt(l, m, i);
    ConcatAt(l, m, i + 1);
    ConcatAt(l, m, i - 1);
    if i < |l| {
      OnePlace(s, l, i, |l| - 1);
      assert m != [] ==> l[i] != m[0];
    } else {
      OnePlace(s, m, i - |l|, 0);
      assert l != [] ==> l[|l| - 1] != m[i - |l|];
    }
  }

  lemma {:induction false} JoinedStored(s: seq<Entry>, s': seq<Entry>, f: nat, e: nat, l: seq<nat>, f': nat, e': nat,
      m: seq<nat>)
    requires Stored(s, f, e, l) && Stored(s, f', e', m) && Apart(l, m) && Joined(s, s', l, m)
    ensures Stored(s', if l == [] then f' else f, if m == [] then e else e', l + m)
  {
    JoinedSlots(s, l, m);
    ConcatAt(l, m, 0);
    ConcatAt(l, m, |l + m| - 1);
    var c := l + m;
    forall i | 0 <= i < |c| ensures Chained(s', c, i) {
      assert i < |l| ==> Chained(s, l, i);
      assert i >= |l| ==> Chained(s, m, i - |l|);
      JoinedPlace(s, s', l, m, i);
    }
  }

  class Head {
    var first: nat
    var last: nat
    ghost var elems: seq<nat>

    ghost predicate Valid(a: array<Entry>)
      reads this, a
    {
      Stored(a[..], first, last, elems)
    }

    constructor ()
      ensures forall a: array<Entry> {:trigger Valid(a)} :: Valid(a)
      ensures elems == []
    {
      first, last, elems := 0, 0, [];
    }

    method InsertHead(a: array<Entry>, id: nat)
      requires Valid(a) && 1 <= id < a.Length && id !in elems
      modifies this, a
      ensures Valid(a) && elems == [id] + old(elems)
      ensures OnlyIn(old(a[..]), a[..], elems)
    {
      ghost var s, f, e := a[..], first, last;
      a[id] := Entry(first, 0);
      if first == 0 {
        last := id;
      } else if first < a.Length {
        a[first] := a[first].(prev := id);
      }
      first := id;
      LinkedStored(s, a[..], f, e, elems, 0, id);
      elems := With(elems, 0, id);
    }

    method InsertTail(a: array<Entry>, id: nat)
      requires Valid(a) && 1 <= id < a.Length && id !in elems
      modifies this, a
      ensures Valid(a) && elems == old(elems) + [id]
      ensures OnlyIn(old(a[..]), a[..], elems)
    {
      ghost var s, f, e := a[..], first, last;
      a[id] := Entry(0, last);
      if first == 0 {
        first := id;
      } else if 0 < last < a.Length {
        a[last] := a[last].(next := id);
      }
      last := id;
      LinkedStored(s, a[..], f, e, elems, |elems|, id);
      elems := With(elems, |elems|, id);
    }

    /** Puts `id` before the element `lid`, which is at place `k`. */
    method InsertBefore(a: array<Entry>, lid: nat, id: nat, ghost k: nat)
      requires Valid(a) && 1 <= id < a.Length && id !in elems && k < |elems| && elems[k] == lid
      modifies this, a
      ensures Valid(a) && elems == With(old(elems), k, id)
      ensures OnlyIn(old(a[..]), a[..], elems)
    {
      ghost var s, f, e := a[..], first, last;
      assert Chained(s, elems, k);
      OnePlace(s, elems, k, 0);
      OnePlace(s, elems, k, k - 1);
      var prev := a[lid].prev;
      if 0 < prev < a.Length {
        a[prev] := a[prev].(next := id);
      }
      a[id] := Entry(lid, a[lid].prev);
      a[lid] := a[lid].(prev := id);
      if first == lid {
        first := id;
      }
      LinkedStored(s, a[..], f, e, elems, k, id);
      elems := With(elems, k, id);
    }

    /** Puts `id` after the element `lid`, which is at place `k`. */
    method InsertAfter(a: array<Entry>, lid: nat, id: nat, ghost k: nat)
      requires Valid(a) && 1 <= id < a.Length && id !in elems && k < |elems| && elems[k] == lid
      modifies this, a
      ensures Valid(a) && elems == With(old(elems), k + 1, id)
      ensures OnlyIn(old(a[..]), a[..], elems)
    {
      ghost var s, f, e := a[..], first, last;
      assert Chained(s, elems, k);
      OnePlace(s, elems, k, |elems| - 1);
      OnePlace(s, elems, k, k + 1);
      var next := a[lid].next;
      if 0 < next < a.Length {
        a[next] := a[next].(prev := id);
      }
      a[id] := Entry(a[lid].next, lid);
      a[lid] := a[lid].(next := id);
      if last == lid {
        last := id;
      }
      assert Linked(s, a[..], elems, k + 1, id) by { assert At(elems, k + 1 - 1) == lid && At(elems, k + 1) == next; }
      LinkedStored(s, a[..], f, e, elems, k + 1, id);
      elems := With(elems, k + 1, id);
    }

    /** Takes out the element `id`, which is at place `k`. */
    method Remove(a: array<Entry>, id: nat, ghost k: nat)
      requires Valid(a) && k < |elems| && elems[k] == id
      modifies this, a
      ensures Valid(a) && elems == Without(old(elems), k) && a[id] == Entry(0, 0)
      ensures OnlyIn(old(a[..]), a[..], old(elems))
    {
      ghost var s, f, e := a[..], first, last;
      assert Chained(s, elems, k);
      OnePlace(s, elems, k, 0);
      OnePlace(s, elems, k, |elems| - 1);
      OnePlace(s, elems, k, k - 1);
      OnePlace(s, elems, k, k + 1);
      var prev, next := a[id].prev, a[id].next;
      if 0 < prev < a.Length {
        a[prev] := a[prev].(next := a[id].next);
      }
      if 0 < next < a.Length {
        a[next] := a[next].(prev := a[id].prev);
      }
      if first == id {
        first := a[id].next;
      }
      if last == id {
        last := a[id].prev;
      }
      a[id] := Entry(0, 0);
      UnlinkedStored(s, a[..], f, e, elems, k);
      elems := Without(elems, k);
    }

    /** Takes out the first element; 0 when there is none. */
    method PopFirst(a: array<Entry>) returns (id: nat)
      requires Valid(a)
      modifies this, a
      ensures Valid(a) && OnlyIn(old(a[..]), a[..], old(elems))
      ensures if old(elems) == [] then id == 0 && elems == []
              else id == old(elems)[0] && elems == old(elems)[1..] && a[id] == Entry(0, 0)
    {
      ghost var s, f, e := a[..], first, last;
      id := first;
      if 0 < first < a.Length {
        assert Chained(s, elems, 0);
        OnePlace(s, elems, 0, |elems| - 1);
        OnePlace(s, elems, 0, 1);
        var next := a[first].next;
        if 0 < next < a.Length {
          a[next] := a[next].(prev := 0);
        }
        var popped := first;
        first := a[popped].next;
        if last == id {
          last := 0;
        }
        a[popped] := a[popped].(next := 0);
        UnlinkedStored(s, a[..], f, e, elems, 0);
        elems := Without(elems, 0);
      }
    }

    /**
     Moves the elements of `other` to the end of this list. The result is the joined list exactly
     when `other` has elements or this list has none: with nothing to add, the last element of this
     list is forgotten.
     */
    method Concat(a: array<Entry>, other: Head)
      requires Valid(a) && other.Valid(a) && this != other && Apart(elems, other.elems)
      modifies this, other, a
      ensures elems == old(elems) + old(other.elems)
      ensures Valid(a) <==> old(other.elems) != [] || old(elems) == []
      ensures other.Valid(a) && other.elems == []
      ensures OnlyIn(old(a[..]), a[..], elems)
    {
      ghost var s, f, e, f', e', m := a[..], first, last, other.first, other.last, other.elems;
      assert elems != [] && m != [] ==> elems[|elems| - 1] != m[0];
      if 0 < last < a.Length {
        a[last] := a[last].(next := other.first);
      }
      if 0 < other.first < a.Length {
        a[other.first] := a[other.first].(prev := last);
      }
      if first == 0 {
        first := other.first;
      }
      last := other.last;
      JoinedStored(s, a[..], f, e, elems, f', e', m);
      other.first, other.last, other.elems := 0, 0, [];
      elems := elems + m;
    }

    /** The bounded loop over the list: the ids it visits, and whether it stopped short. */
    method Foreach(a: array<Entry>, max: nat) returns (visited: seq<nat>, short: bool)
      requires Valid(a)
      ensures visited == if max < |elems| then elems[..max] else elems
      ensures short <==> max < |elems|
    {
      visited := [];
      var x, i := first, 0;
      while 0 < x < a.Length && i < max
        invariant 0 <= i <= |elems| && i <= max && x == At(elems, i) && visited == elems[..i]
        decreases max - i
      {
        assert Chained(a[..], elems, i);
        visited := visited + [x];
        x := a[x].next;
        i := i + 1;
      }
      short := 0 < x < a.Length;
    }

    /** The bounded loop from the end of the list. */
    method ForeachReverse(a: array<Entry>, max: nat) returns (visited: seq<nat>, short: bool)
      requires Valid(a)
      ensures |visited| == if max < |elems| then max else |elems|
      ensures forall i :: 0 <= i < |visited| ==> visited[i] == elems[|elems| - 1 - i]
      ensures short <==> max < |elems|
    {
      visited := [];
      var x, i := last, 0;
      while 0 < x < a.Length && i < max
        invariant 0 <= i <= |elems| && i <= max && x == At(elems, |elems| - 1 - i) && |visited| == i
        invariant forall j :: 0 <= j < i ==> visited[j] == elems[|elems| - 1 - j]
        decreases max - i
      {
        assert Chained(a[..], elems, |elems| - 1 - i);
        visited := visited + [x];
        x := a[x].prev;
        i := i + 1;
      }
      short := 0 < x < a.Length;
    }
  }
}
