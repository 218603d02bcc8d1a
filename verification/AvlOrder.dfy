/**
 The data part of the node records of userspace/lib/avl.bpf.h: keys, the orphan flag and the
 orphan links; and what it means for a sequence of node ids to be sorted, to receive a node, to
 lose one, and to be summarised by the cached minimum and maximum.
 */
module AvlOrder {
  import opened Common

  import opened AvlShape

  /** The data part of a node record. */
  datatype Info = Info(key: nat, isOrphan: bool, prevOrphan: nat, nextOrphan: nat)

  type Infos = seq<Info>

  function Key(k: Infos, i: nat): nat {
    if i < |k| then k[i].key else 0
  }

  ghost predicate SameKeys(k: Infos, k': Infos) {
    |k| == |k'| && forall i: nat :: i < |k| ==> k'[i].key == k[i].key
  }

  /** In-order keys never decrease. */
  ghost predicate Sorted(k: Infos, q: seq<nat>) {
    forall i, j :: 0 <= i < j < |q| ==> Key(k, q[i]) <= Key(k, q[j])
  }

  ghost predicate AllAtMost(k: Infos, q: seq<nat>, key: nat) {
    forall i :: 0 <= i < |q| ==> Key(k, q[i]) <= key
  }

  ghost predicate AllAbove(k: Infos, q: seq<nat>, key: nat) {
    forall i :: 0 <= i < |q| ==> key < Key(k, q[i])
  }

  /** None of the nodes is flagged as an orphan. */
  ghost predicate NoOrphan(k: Infos, q: seq<nat>) {
    forall i :: 0 <= i < |q| ==> q[i] < |k| && !k[q[i]].isOrphan
  }

  ghost predicate NoneHas(k: Infos, q: seq<nat>, key: nat) {
    forall i :: 0 <= i < |q| ==> Key(k, q[i]) != key
  }

  /** `q'` is `q` with `node` put right after the last element whose key is at most its own. */
  ghost predicate Placed(k: Infos, q: seq<nat>, q': seq<nat>, node: nat) {
    exists a, b :: PlacedBetween(k, q, q', node, a, b)
  }

  ghost predicate PlacedBetween(k: Infos, q: seq<nat>, q': seq<nat>, node: nat, a: seq<nat>, b: seq<nat>) {
    && q == a + b && q' == a + [node] + b
    && AllAtMost(k, a, Key(k, node)) && AllAbove(k, b, Key(k, node))
  }

  /** `q'` is `q` without `node`, all other elements in the same order. */
  ghost predicate Dropped(q: seq<nat>, q': seq<nat>, node: nat) {
    exists a, b :: DroppedBetween(q, q', node, a, b)
  }

  ghost predicate DroppedBetween(q: seq<nat>, q': seq<nat>, node: nat, a: seq<nat>, b: seq<nat>) {
    q == a + [node] + b && q' == a + b
  }

  function First(q: seq<nat>): nat {
    if q == [] then 0 else q[0]
  }

  function Last(q: seq<nat>): nat {
    if q == [] then 0 else q[|q| - 1]
  }

  /** The cache names the leftmost and the rightmost node and their keys. */
  ghost predicate Cached(k: Infos, q: seq<nat>, minId: nat, minKey: nat, maxId: nat, maxKey: nat) {
    && minId == First(q) && maxId == Last(q)
    && (q != [] ==> minKey == Key(k, minId) && maxKey == Key(k, maxId))
  }

  lemma {:induction false} SortedParts(k: Infos, a: seq<nat>, b: seq<nat>)
    requires Sorted(k, a + b)
    ensures Sorted(k, a) && Sorted(k, b)
    ensures forall i, j :: 0 <= i < |a| && 0 <= j < |b| ==> Key(k, a[i]) <= Key(k, b[j])
  {
    forall i, j | 0 <= i < j < |a| ensures Key(k, a[i]) <= Key(k, a[j]) {
      assert (a + b)[i] == a[i] && (a + b)[j] == a[j];
    }
    forall i, j | 0 <= i < j < |b| ensures Key(k, b[i]) <= Key(k, b[j]) {
      assert (a + b)[|a| + i] == b[i] && (a + b)[|a| + j] == b[j];
    }
    forall i, j | 0 <= i < |a| && 0 <= j < |b| ensures Key(k, a[i]) <= Key(k, b[j]) {
      assert (a + b)[i] == a[i] && (a + b)[|a| + j] == b[j];
    }
  }

  lemma {:induction false} NoOrphanParts(k: Infos, a: seq<nat>, node: nat, b: seq<nat>)
    ensures NoOrphan(k, a + [node] + b) <==> NoOrphan(k, a + b) && node < |k| && !k[node].isOrphan
  {
    var q, q' := a + b, a + [node] + b;
    assert q'[|a|] == node;
    assert forall i :: 0 <= i < |q'| && i != |a| ==> q'[i] == q[if i < |a| then i else i - 1];
    assert forall i :: 0 <= i < |q| ==> q[i] == q'[if i < |a| then i else i + 1];
  }

  lemma {:induction false} SortedPlaced(k: Infos, q: seq<nat>, q': seq<nat>, node: nat)
    requires Sorted(k, q) && Placed(k, q, q', node)
    ensures Sorted(k, q')
  {
    var a, b :| PlacedBetween(k, q, q', node, a, b);
    forall i, j | 0 <= i < j < |q'| ensures Key(k, q'[i]) <= Key(k, q'[j]) {
      var i' := if i <= |a| then i else i - 1;
      var j' := if j <= |a| then j else j - 1;
      assert i != |a| ==> q'[i] == q[i'];
      assert j != |a| ==> q'[j] == q[j'];
      assert i < |a| ==> q'[i] == a[i];
      assert j > |a| ==> q'[j] == b[j - |a| - 1];
    }
  }

  lemma {:induction false} SortedDropped(k: Infos, q: seq<nat>, q': seq<nat>, node: nat)
    requires Sorted(k, q) && Dropped(q, q', node)
    ensures Sorted(k, q')
  {
    var a, b :| DroppedBetween(q, q', node, a, b);
    forall i, j | 0 <= i < j < |q'| ensures Key(k, q'[i]) <= Key(k, q'[j]) {
      var i' := if i < |a| then i else i + 1;
      var j' := if j < |a| then j else j + 1;
      assert q'[i] == q[i'] && q'[j] == q[j'];
    }
  }

  /** The insert's "<" and ">=" tests keep the cache exact, across ties. */
  lemma {:induction false} CachedPlaced(k: Infos, q: seq<nat>, q': seq<nat>, node: nat, minId: nat, minKey: nat,
      maxId: nat, maxKey: nat)
    requires Cached(k, q, minId, minKey, maxId, maxKey) && Placed(k, q, q', node)
    requires q != [] ==> minId != 0 && maxId != 0
    ensures var key := Key(k, node);
      var lower, upper := minId == 0 || key < minKey, maxId == 0 || key >= maxKey;
      Cached(k, q', if lower then node else minId, if lower then key else minKey,
                    if upper then node else maxId, if upper then key else maxKey)
  {
    var a, b :| PlacedBetween(k, q, q', node, a, b);
    if a != [] { assert q[0] == a[0] && q'[0] == a[0]; } else if b != [] { assert q[0] == b[0]; }
    if b != [] {
      assert q[|q| - 1] == b[|b| - 1] && q'[|q'| - 1] == b[|b| - 1];
    } else if a != [] {
      assert q[|q| - 1] == a[|a| - 1];
    }
  }

  /** Moving to the next or previous node keeps the cache exact when an end goes. */
  lemma {:induction false} CachedDropped(k: Infos, a: seq<nat>, node: nat, b: seq<nat>,
      minId: nat, minKey: nat, maxId: nat, maxKey: nat, minId': nat, minKey': nat, maxId': nat, maxKey': nat)
    requires Cached(k, a + [node] + b, minId, minKey, maxId, maxKey) && Distinct(a + [node] + b) && 0 !in a + b
    requires if node == minId then minId' == First(b) && (minId' != 0 ==> minKey' == Key(k, minId'))
             else minId' == minId && minKey' == minKey
    requires if node == maxId then maxId' == Last(a) && (maxId' != 0 ==> maxKey' == Key(k, maxId'))
             else maxId' == maxId && maxKey' == maxKey
    ensures Cached(k, a + b, minId', minKey', maxId', maxKey')
  {
    var q, q' := a + [node] + b, a + b;
    assert q[|a|] == node;
    assert a != [] ==> q[0] == a[0] && q'[0] == a[0] && a[|a| - 1] in q';
    assert b != [] ==> q[|q| - 1] == b[|b| - 1] && q'[|q'| - 1] == b[|b| - 1] && b[0] in q';
    assert b == [] && a != [] ==> q'[|q'| - 1] == a[|a| - 1];
    assert a == [] && b != [] ==> q'[0] == b[0];
  }

  // ----- the orphan list -----

  /** `q` is stored as a doubly linked list that starts at `first`. */
  ghost predicate OrphanList(k: Infos, q: seq<nat>, first: nat) {
    && first == First(q)
    && (forall j :: 0 <= j < |q| ==> OrphanAt(k, q, j))
  }

  ghost predicate OrphanAt(k: Infos, q: seq<nat>, j: nat)
    requires j < |q|
  {
    && 1 <= q[j] < |k|
    && k[q[j]].isOrphan
    && k[q[j]].prevOrphan == (if j == 0 then 0 else q[j - 1])
    && k[q[j]].nextOrphan == (if j == |q| - 1 then 0 else q[j + 1])
  }

  /** Only the orphan links of nodes in `ids` changed. */
  ghost predicate OrphansRelinked(k: Infos, k': Infos, ids: set<nat>) {
    && |k| == |k'|
    && (forall i: nat :: i < |k| ==> k'[i].key == k[i].key && k'[i].isOrphan == k[i].isOrphan)
    && InfoOnlyAt(k, k', ids)
  }

  lemma {:induction false} OrphanPushed(k: Infos, k': Infos, q: seq<nat>, node: nat, first: nat)
    requires OrphanList(k, q, first) && Distinct([node] + q) && 1 <= node < |k| && k[node].isOrphan
    requires OrphansRelinked(k, k', {node, first})
    requires k'[node].prevOrphan == 0 && k'[node].nextOrphan == first
    requires first != 0 ==> first < |k| && k'[first] == k[first].(prevOrphan := node)
    ensures OrphanList(k', [node] + q, node)
  {
    var q' := [node] + q;
    forall j | 0 <= j < |q'| ensures OrphanAt(k', q', j) {
      if j > 0 {
        assert q'[j] == q[j - 1] && OrphanAt(k, q, j - 1);
        assert q'[0] != q'[j] && (j > 1 ==> q'[1] != q'[j]);
      }
    }
  }

  lemma {:induction false} OrphanRemoved(k: Infos, k': Infos, q: seq<nat>, j: nat, first: nat)
    requires OrphanList(k, q, first) && Distinct(q) && j < |q| && OrphanAt(k, q, j)
    requires var prev, next := k[q[j]].prevOrphan, k[q[j]].nextOrphan;
      && OrphansRelinked(k, k', {q[j], prev, next})
      && (prev != 0 ==> prev < |k| && k'[prev] == k[prev].(nextOrphan := next))
      && (next != 0 ==> next < |k| && k'[next] == k[next].(prevOrphan := prev))
    ensures OrphanList(k', Without(q, j), if first == q[j] then k[q[j]].nextOrphan else first)
  {
    var q' := Without(q, j);
    forall i | 0 <= i < |q'| ensures OrphanAt(k', q', i) {
      var i0 := if i < j then i else i + 1;
      assert q'[i] == q[i0] && OrphanAt(k, q, i0);
      assert i > 0 ==> q'[i - 1] == q[if i - 1 < j then i - 1 else i];
      assert i < |q'| - 1 ==> q'[i + 1] == q[if i + 1 < j then i + 1 else i + 2];
    }
  }

  // ----- changes that leave keys alone -----

  ghost predicate InfoOnlyAt(k: Infos, k': Infos, ids: set<nat>) {
    |k| == |k'| && forall i: nat :: i < |k| && i !in ids ==> k'[i] == k[i]
  }

  lemma {:induction false} InfoOnlyAtTwice(k: Infos, k1: Infos, k2: Infos, a: set<nat>, b: set<nat>, ids: set<nat>)
    requires InfoOnlyAt(k, k1, a) && InfoOnlyAt(k1, k2, b) && a <= ids && b <= ids
    ensures InfoOnlyAt(k, k2, ids)
  {
  }

  lemma {:induction false} SameKeysKey(k: Infos, k': Infos, i: nat)
    requires SameKeys(k, k')
    ensures Key(k', i) == Key(k, i)
  {
  }

  lemma {:induction false} SortedSameKeys(k: Infos, k': Infos, q: seq<nat>)
    requires SameKeys(k, k') && Sorted(k, q)
    ensures Sorted(k', q)
  {
  }

  lemma {:induction false} CachedSameKeys(k: Infos, k': Infos, q: seq<nat>, minId: nat, minKey: nat, maxId: nat,
      maxKey: nat)
    requires SameKeys(k, k') && Cached(k, q, minId, minKey, maxId, maxKey)
    ensures Cached(k', q, minId, minKey, maxId, maxKey)
  {
  }

  lemma {:induction false} OrphanListFrame(k: Infos, k': Infos, q: seq<nat>, first: nat)
    requires OrphanList(k, q, first) && |k| == |k'|
    requires forall i :: i in q && i < |k| ==> k'[i] == k[i]
    ensures OrphanList(k', q, first)
  {
    forall j | 0 <= j < |q| ensures OrphanAt(k', q, j) {
      assert OrphanAt(k, q, j) && q[j] in q;
    }
  }

  /** The order of nodes whose records are unchanged. */
  lemma {:induction false} OrderFrame(k: Infos, k': Infos, q: seq<nat>, minId: nat, minKey: nat, maxId: nat,
      maxKey: nat)
    requires |k| == |k'| && (forall i :: i in q && i < |k| ==> k'[i] == k[i])
    requires Sorted(k, q) && NoOrphan(k, q) && Cached(k, q, minId, minKey, maxId, maxKey)
    ensures Sorted(k', q) && NoOrphan(k', q) && Cached(k', q, minId, minKey, maxId, maxKey)
  {
    forall i | 0 <= i < |q| ensures q[i] < |k'| && !k'[q[i]].isOrphan && Key(k', q[i]) == Key(k, q[i]) {
      assert q[i] in q;
    }
  }

  // ----- conservation -----

  lemma {:induction false} PlacedBag(k: Infos, q: seq<nat>, q': seq<nat>, node: nat)
    requires Placed(k, q, q', node)
    ensures multiset(q') == multiset(q) + multiset{node} && |q'| == |q| + 1
  {
    var a, b :| PlacedBetween(k, q, q', node, a, b);
  }

  lemma {:induction false} DroppedBag(q: seq<nat>, q': seq<nat>, node: nat)
    requires Dropped(q, q', node)
    ensures multiset(q) == multiset(q') + multiset{node} && |q| == |q'| + 1
  {
    var a, b :| DroppedBetween(q, q', node, a, b);
  }

  lemma {:induction false} PlacedCut(k: Infos, q: seq<nat>, q': seq<nat>, node: nat, a: seq<nat>, b: seq<nat>)
    requires PlacedBetween(k, q, q', node, a, b)
    ensures forall i :: 0 <= i < |q| ==> (i < |a| <==> Key(k, q[i]) <= Key(k, node))
  {
  }

  /** Where an insert puts a node is determined by the keys alone. */
  lemma {:induction false} PlacedUnique(k: Infos, q: seq<nat>, q1: seq<nat>, q2: seq<nat>, node: nat)
    requires Placed(k, q, q1, node) && Placed(k, q, q2, node)
    ensures q1 == q2
  {
    var a1, b1 :| PlacedBetween(k, q, q1, node, a1, b1);
    var a2, b2 :| PlacedBetween(k, q, q2, node, a2, b2);
    PlacedCut(k, q, q1, node, a1, b1);
    PlacedCut(k, q, q2, node, a2, b2);
    var m := if |a1| < |a2| then |a1| else |a2|;
    assert m < |q| ==> (m < |a1| <==> Key(k, q[m]) <= Key(k, node));
    assert a1 == q[..|a1|] && b1 == q[|a1|..];
  }

  /** Nodes with equal keys leave in the order in which they came: the newer one is always behind the older. */
  lemma {:induction false} PlacedBehindEquals(k: Infos, q: seq<nat>, q': seq<nat>, older: nat, node: nat)
    requires Placed(k, q, q', node) && node !in q && older in q && Key(k, older) == Key(k, node)
    ensures exists i, j :: 0 <= i < j < |q'| && q'[i] == older && q'[j] == node
  {
    var a, b :| PlacedBetween(k, q, q', node, a, b);
    var i :| 0 <= i < |q| && q[i] == older;
    PlacedCut(k, q, q', node, a, b);
    assert q'[i] == older && q'[|a|] == node;
  }
}
