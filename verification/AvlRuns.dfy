/**
 Whole runs of operations on one tree (userspace/lib/avl.bpf.h).
 */
module AvlRuns {
  import opened Common
  import opened AvlShape
  import opened AvlRep
  import opened AvlOrder

  import opened AvlTree

  datatype Op = InsertOp(node: nat, key: nat) | DeleteOp(node: nat) | PopMinOp | PopMaxOp

  lemma {:induction false} DistinctBag(q: seq<nat>, n: nat)
    requires Distinct(q) && n in q
    ensures multiset(q)[n] == 1
  {
    if q[0] == n {
      assert n !in q[1..];
    } else {
      assert n in q[1..];
      DistinctBag(q[1..], n);
    }
    assert q == [q[0]] + q[1..];
  }

  /** A node that went is no longer held, and no other node is affected. */
  lemma {:induction false} Gone(q: seq<nat>, q': seq<nat>, n: nat)
    requires Distinct(q) && n in q && multiset(q) == multiset(q') + multiset{n}
    ensures forall i :: i in q' <==> i in q && i != n
  {
    DistinctBag(q, n);
    forall i ensures i in q' <==> i in q && i != n {
      assert i in q' <==> i in multiset(q');
      assert i in q <==> i in multiset(q);
      assert multiset(q')[n] == 0;
    }
  }

  lemma {:induction false} Came(q: seq<nat>, q': seq<nat>, n: nat)
    requires multiset(q') == multiset(q) + multiset{n}
    ensures forall i :: i in q' <==> i in q || i == n
  {
    forall i ensures i in q' <==> i in q || i == n {
      assert i in q' <==> i in multiset(q');
      assert i in q <==> i in multiset(q);
    }
  }

  // ----- first in, first out -----

  /** The records, the nodes of the tree in order, and the number of the operation by which each entered the tree. */
  datatype Snap = Snap(info: Infos, order: seq<nat>, entered: map<nat, nat>)

  /** Of two nodes with the same key the one in front entered the tree first; all entered before operation `n`. */
  ghost predicate Fifo(s: Snap, n: nat) {
    && (forall i :: 0 <= i < |s.order| ==> s.order[i] in s.entered && s.entered[s.order[i]] < n)
    && (forall i, j :: 0 <= i < j < |s.order| && Key(s.info, s.order[i]) == Key(s.info, s.order[j]) ==>
          s.entered[s.order[i]] < s.entered[s.order[j]])
  }

  /** Operation `n` gives its number to the nodes that it brings into the tree, and leaves those of the others. */
  ghost predicate Stamped(s: Snap, s': Snap, n: nat) {
    forall x :: x in s'.order ==>
      x in s'.entered && s'.entered[x] == if x in s.order && x in s.entered then s.entered[x] else n
  }

  /** The node is one of least key and, among those, the one that entered the tree first. */
  ghost predicate FirstOut(s: Snap, m: nat) {
    && m in s.order && m in s.entered
    && forall x :: x in s.order ==>
         Key(s.info, m) < Key(s.info, x) ||
         (Key(s.info, m) == Key(s.info, x) && x in s.entered && (x == m || s.entered[m] < s.entered[x]))
  }

  lemma {:induction false} FifoFirst(s: Snap, n: nat)
    requires Sorted(s.info, s.order) && Fifo(s, n) && s.order != []
    ensures FirstOut(s, s.order[0])
  {
    forall x | x in s.order
      ensures Key(s.info, s.order[0]) < Key(s.info, x) ||
        (Key(s.info, s.order[0]) == Key(s.info, x) && x in s.entered &&
          (x == s.order[0] || s.entered[s.order[0]] < s.entered[x]))
    {
      var i :| 0 <= i < |s.order| && s.order[i] == x;
    }
  }

  /** The place before an insert of the element at place `i` after it. */
  function Source(i: nat, at: nat): nat
    requires i != at
  {
    if i < at then i else i - 1
  }

  lemma {:induction false} PlacedAt(q: seq<nat>, q': seq<nat>, node: nat, a: seq<nat>, b: seq<nat>, i: nat)
    requires q == a + b && q' == a + [node] + b && node !in q && i < |q'| && i != |a|
    ensures Source(i, |a|) < |q| && q'[i] == q[Source(i, |a|)] && q'[i] != node
  {
    assert q[Source(i, |a|)] in q;
  }

  lemma {:induction false} FifoPlaced(s: Snap, q': seq<nat>, node: nat, n: nat) returns (s': Snap)
    requires Fifo(s, n) && Placed(s.info, s.order, q', node) && node !in s.order
    ensures s' == Snap(s.info, q', s.entered[node := n]) && Fifo(s', n + 1) && Stamped(s, s', n)
  {
    s' := Snap(s.info, q', s.entered[node := n]);
    var a, b :| PlacedBetween(s.info, s.order, q', node, a, b);
    PlacedCut(s.info, s.order, q', node, a, b);
    forall i | 0 <= i < |q'| ensures q'[i] in s'.entered && s'.entered[q'[i]] < n + 1 {
      if i != |a| { PlacedAt(s.order, q', node, a, b, i); }
    }
    forall i, j | 0 <= i < j < |q'| && Key(s.info, q'[i]) == Key(s.info, q'[j])
      ensures s'.entered[q'[i]] < s'.entered[q'[j]]
    {
      if i != |a| { PlacedAt(s.order, q', node, a, b, i); }
      if j != |a| { PlacedAt(s.order, q', node, a, b, j); }
    }
    forall x | x in q'
      ensures x in s'.entered && s'.entered[x] == if x in s.order && x in s.entered then s.entered[x] else n
    {
      var i :| 0 <= i < |q'| && q'[i] == x;
      if i != |a| { PlacedAt(s.order, q', node, a, b, i); }
    }
  }

  lemma {:induction false} FifoDropped(s: Snap, q': seq<nat>, node: nat, n: nat) returns (s': Snap)
    requires Fifo(s, n) && Dropped(s.order, q', node)
    ensures s' == s.(order := q') && Fifo(s', n) && forall x :: x in q' ==> x in s.order && x in s.entered
  {
    s' := s.(order := q');
    var a, b :| DroppedBetween(s.order, q', node, a, b);
    forall i | 0 <= i < |q'| ensures q'[i] == s.order[if i < |a| then i else i + 1] {
    }
  }

  lemma {:induction false} FifoSameKeys(s: Snap, k: Infos, n: nat)
    requires Fifo(s, n) && forall i :: 0 <= i < |s.order| ==> Key(k, s.order[i]) == Key(s.info, s.order[i])
    ensures Fifo(s.(info := k), n) && Fifo(s.(info := k), n + 1)
  {
  }

  lemma {:induction false} Tally(came: seq<nat>, c: seq<nat>, went: seq<nat>, w: seq<nat>, q: seq<nat>, q': seq<nat>)
    requires multiset(came) == multiset(went) + multiset(q)
    requires multiset(q) + multiset(c) == multiset(q') + multiset(w)
    ensures multiset(came + c) == multiset(went + w) + multiset(q')
  {
    assert multiset(came + c) == multiset(went) + (multiset(q) + multiset(c));
    assert multiset(went + w) == multiset(went) + multiset(w);
  }

  lemma {:induction false} PopOut(out: seq<nat>, before: seq<nat>, held: seq<nat>, rest: seq<nat>)
    requires before != [] && multiset(held) == multiset(rest) + multiset{before[0]}
    ensures (out + [before[0]]) + before[1..] == out + before
    ensures multiset(out + [before[0]]) + multiset(rest) == multiset(out) + multiset(held)
  {
  }

  // ----- one operation -----

  /** What is in a tree: the records, the tree itself and the orphans. */
  datatype Content = Content(info: Infos, tree: Tree, orphans: seq<nat>)

  /** A content, with the number of the operation by which each node entered the tree. */
  datatype Point = Point(now: Content, entered: map<nat, nat>)

  ghost function Order(c: Content): seq<nat> {
    Inorder(c.tree)
  }

  /** Every node inserted and not yet gone. */
  ghost function HeldOf(c: Content): seq<nat> {
    Order(c) + c.orphans
  }

  ghost function View(p: Point): Snap {
    Snap(p.now.info, Order(p.now), p.entered)
  }

  ghost function Contents(a: Avl): Content
    reads a, a.info
  {
    Content(a.info[..], a.tree, a.orphans)
  }

  /**
   The node is in the tree, right after the nodes of at most its key, or, if it would lie too deep, the
   first orphan.
   */
  ghost predicate Entered(h: nat, c: Content, c': Content, node: nat, key: nat) {
    && Key(c'.info, node) == key && InfoKeysBut(c.info, c'.info, node)
    && if BstLevel(c'.info, c.tree, key) > h then c'.tree == c.tree && c'.orphans == [node] + c.orphans
       else c'.orphans == c.orphans && Placed(c'.info, Order(c), Order(c'), node)
  }

  ghost predicate RefilledFrom(h: nat, c: Content, c': Content, node: nat, mid: Tree) {
    Dropped(Order(c), Inorder(mid), node) && Refilled(c'.info, h, mid, c.orphans, c'.tree, c'.orphans)
  }

  /** The node is gone; if it was in the tree, the first orphan has come in, should it fit. */
  ghost predicate Left(h: nat, c: Content, c': Content, node: nat) {
    && SameKeys(c.info, c'.info)
    && if node in c.orphans then c'.tree == c.tree && Dropped(c.orphans, c'.orphans, node)
       else exists mid :: RefilledFrom(h, c, c', node, mid)
  }

  ghost predicate Same(c: Content, c': Content) {
    SameKeys(c.info, c'.info) && c'.tree == c.tree && c'.orphans == c.orphans
  }

  /** The node that an operation brings in, if any. */
  ghost function Incoming(op: Op, size: nat, c: Content): seq<nat> {
    if op.InsertOp? && 1 <= op.node < size && op.node !in HeldOf(c) then [op.node] else []
  }

  /** The node that an operation takes out, if any. */
  ghost function Outgoing(op: Op, c: Content): seq<nat> {
    match op
    case InsertOp(_, _) => []
    case DeleteOp(x) => if x in HeldOf(c) then [x] else []
    case PopMinOp => if Order(c) == [] then [] else [First(Order(c))]
    case PopMaxOp => if Order(c) == [] then [] else [Last(Order(c))]
  }

  /** What an operation does to the content. */
  ghost predicate Did(op: Op, h: nat, size: nat, c: Content, c': Content) {
    if Incoming(op, size, c) != [] then Entered(h, c, c', op.node, op.key)
    else if Outgoing(op, c) != [] then Left(h, c, c', Outgoing(op, c)[0])
    else Same(c, c')
  }

  /** What operation `n` does: the content changes as it should, and equal keys stay in the order of entry. */
  ghost predicate Effect(op: Op, h: nat, size: nat, p: Point, p': Point, n: nat) {
    && Did(op, h, size, p.now, p'.now) && Fifo(View(p'), n + 1) && Stamped(View(p), View(p'), n)
    && (op.PopMinOp? && Order(p.now) != [] ==> FirstOut(View(p), Outgoing(op, p.now)[0]))
  }

  lemma {:induction false} FifoInserted(s: Snap, k: Infos, q': seq<nat>, node: nat, n: nat)
    returns (entered: map<nat, nat>)
    requires Fifo(s, n) && node !in s.order && InfoKeysBut(s.info, k, node)
    requires q' == s.order || Placed(k, s.order, q', node)
    ensures Fifo(Snap(k, q', entered), n + 1) && Stamped(s, Snap(k, q', entered), n)
  {
    forall i | 0 <= i < |s.order| ensures Key(k, s.order[i]) == Key(s.info, s.order[i]) {
      assert s.order[i] in s.order;
    }
    FifoSameKeys(s, k, n);
    entered := s.entered;
    if q' != s.order {
      var s' := FifoPlaced(s.(info := k), q', node, n);
      entered := s'.entered;
    }
  }

  lemma {:induction false} KeysButSame(k: Infos, k1: Infos, k2: Infos, node: nat)
    requires InfoKeysBut(k, k1, node) && SameKeys(k1, k2)
    ensures InfoKeysBut(k, k2, node) && Key(k2, node) == Key(k1, node)
  {
  }

  /** A caller's insert: the node gets its key and goes into the tree or to the orphans. */
  method InsertKey(a: Avl, node: nat, key: nat)
    requires a.Valid() && 1 <= node < a.links.Length && node !in a.Held()
    modifies a, a.links, a.info
    ensures a.Valid() && multiset(a.Held()) == old(multiset(a.Held())) + multiset{node}
    ensures Entered(a.H, old(Contents(a)), Contents(a), node, key)
  {
    ghost var k, t := a.info[..], a.tree;
    a.SetKey(node, key);
    ghost var k1 := a.info[..];
    assert Key(k1, node) == key && InfoKeysBut(k, k1, node);
    a.Insert(node);
    KeysButSame(k, k1, a.info[..], node);
    BstLevelSameKeys(k1, a.info[..], t, key);
  }

  /** Only the key of `node` may differ. */
  ghost predicate InfoKeysBut(k: Infos, k': Infos, node: nat) {
    |k'| == |k| && forall i :: 0 <= i < |k| && i != node ==> k'[i].key == k[i].key
  }

  /** Taking a node out of the tree, and the orphan that may come in for it. */
  lemma {:induction false} FifoRemoved(s: Snap, k: Infos, h: nat, mid: Tree, orphans: seq<nat>, t: Tree,
      orphans': seq<nat>, node: nat, n: nat)
    returns (entered: map<nat, nat>)
    requires Fifo(s, n) && SameKeys(s.info, k) && Dropped(s.order, Inorder(mid), node)
    requires Refilled(k, h, mid, orphans, t, orphans') && Distinct(s.order + orphans)
    ensures Fifo(Snap(k, Inorder(t), entered), n + 1) && Stamped(s, Snap(k, Inorder(t), entered), n)
  {
    forall i | 0 <= i < |s.order| ensures Key(k, s.order[i]) == Key(s.info, s.order[i]) {
      SameKeysKey(s.info, k, s.order[i]);
    }
    FifoSameKeys(s, k, n);
    var s1 := FifoDropped(s.(info := k), Inorder(mid), node, n);
    entered := s.entered;
    if orphans != [] && BstLevel(k, mid, Key(k, orphans[0])) <= h {
      DistinctParts(s.order, orphans);
      assert orphans[0] in orphans;
      var s2 := FifoPlaced(s1, Inorder(t), orphans[0], n);
      entered := s2.entered;
      RestampedLater(s, s1, s2, orphans[0], n);
    } else {
      FifoSameKeys(s1, k, n);
    }
  }

  lemma {:induction false} RestampedLater(s: Snap, s1: Snap, s2: Snap, o: nat, n: nat)
    requires Stamped(s1, s2, n) && s1.entered == s.entered && o !in s.order
    requires forall x :: x in s1.order ==> x in s.order && x in s.entered
    requires forall x :: x in s2.order ==> x == o || x in s1.order
    ensures Stamped(s, s2, n)
  {
  }

  /** Nothing in the tree has moved. */
  lemma {:induction false} FifoKept(s: Snap, k: Infos, n: nat)
    requires Fifo(s, n) && SameKeys(s.info, k)
    ensures Fifo(s.(info := k), n + 1) && Stamped(s, s.(info := k), n)
  {
    forall i | 0 <= i < |s.order| ensures Key(k, s.order[i]) == Key(s.info, s.order[i]) {
      SameKeysKey(s.info, k, s.order[i]);
    }
    FifoSameKeys(s, k, n);
  }

  lemma {:induction false} HeadDropped(q: seq<nat>)
    requires q != []
    ensures Dropped(q, q[1..], q[0])
  {
    assert DroppedBetween(q, q[1..], q[0], [], q[1..]);
  }

  lemma {:induction false} LastDropped(q: seq<nat>)
    requires q != []
    ensures Dropped(q, q[..|q| - 1], Last(q))
  {
    assert DroppedBetween(q, q[..|q| - 1], Last(q), q[..|q| - 1], []);
  }

  method PopEnd(a: Avl, min: bool) returns (m: nat)
    requires a.Valid()
    modifies a, a.links, a.info
    ensures a.Valid()
    ensures m == (if min then First(old(a.InTree())) else Last(old(a.InTree()))) && (m == 0 <==> old(a.InTree()) == [])
    ensures m == 0 ==> Same(old(Contents(a)), Contents(a))
    ensures m != 0 ==> m in old(a.Held()) && Left(a.H, old(Contents(a)), Contents(a), m)
  {
    ghost var q, c := a.InTree(), Contents(a);
    ghost var mid;
    if min {
      m, mid := a.PopMin();
      if m != 0 { HeadDropped(q); }
    } else {
      m, mid := a.PopMax();
      if m != 0 { LastDropped(q); }
    }
    if m != 0 { PoppedLeft(a.H, c, Contents(a), m, mid); }
  }

  lemma {:induction false} PoppedLeft(h: nat, c: Content, c': Content, m: nat, mid: Tree)
    requires SameKeys(c.info, c'.info) && RefilledFrom(h, c, c', m, mid) && Distinct(HeldOf(c)) && m in Order(c)
    ensures m in HeldOf(c) && Left(h, c, c', m)
  {
    DistinctParts(Order(c), c.orphans);
  }

  // ----- one operation on the tree -----

  /** What an operation may rely on: `held` are the nodes held, each once, and the order is sorted and of entry. */
  ghost predicate Fit(p: Point, held: set<nat>, n: nat) {
    && Sorted(p.now.info, Order(p.now)) && Distinct(HeldOf(p.now)) && SetIs(p.now, held) && Fifo(View(p), n)
  }

  ghost predicate SetIs(c: Content, held: set<nat>) {
    forall x :: x in held <==> x in HeldOf(c)
  }

  /** Operation `n` has its effect, and what came, what went and what is held now are recorded. */
  ghost predicate Recorded(op: Op, h: nat, size: nat, p: Point, p': Point, n: nat,
                           held': set<nat>, came: seq<nat>, went: seq<nat>) {
    && Effect(op, h, size, p, p', n) && SetIs(p'.now, held')
    && came == Incoming(op, size, p.now) && went == Outgoing(op, p.now)
    && multiset(HeldOf(p.now)) + multiset(came) == multiset(HeldOf(p'.now)) + multiset(went)
  }

  lemma {:induction false} EnteredBag(h: nat, c: Content, c': Content, node: nat, key: nat)
    requires Entered(h, c, c', node, key)
    ensures multiset(HeldOf(c')) == multiset(HeldOf(c)) + multiset{node}
  {
    if BstLevel(c'.info, c.tree, key) <= h { PlacedBag(c'.info, Order(c), Order(c'), node); }
  }

  lemma {:induction false} RefilledBag(k: Infos, h: nat, mid: Tree, orphans: seq<nat>, t: Tree, orphans': seq<nat>)
    requires Refilled(k, h, mid, orphans, t, orphans')
    ensures multiset(Inorder(t)) + multiset(orphans') == multiset(Inorder(mid)) + multiset(orphans)
  {
    if orphans != [] && BstLevel(k, mid, Key(k, orphans[0])) <= h {
      PlacedBag(k, Inorder(mid), Inorder(t), orphans[0]);
      FirstApart(orphans);
    }
  }

  lemma {:induction false} FirstApart(q: seq<nat>)
    requires q != []
    ensures multiset(q) == multiset{q[0]} + multiset(q[1..])
  {
    assert q == [q[0]] + q[1..];
  }

  lemma {:induction false} LeftBag(h: nat, c: Content, c': Content, node: nat)
    requires Left(h, c, c', node)
    ensures multiset(HeldOf(c)) == multiset(HeldOf(c')) + multiset{node}
  {
    if node in c.orphans {
      DroppedBag(c.orphans, c'.orphans, node);
    } else {
      var mid :| RefilledFrom(h, c, c', node, mid);
      DroppedBag(Order(c), Inorder(mid), node);
      RefilledBag(c'.info, h, mid, c.orphans, c'.tree, c'.orphans);
    }
  }

  lemma {:induction false} FifoEntered(h: nat, p: Point, c': Content, node: nat, key: nat, n: nat)
    returns (entered: map<nat, nat>)
    requires Fifo(View(p), n) && node !in HeldOf(p.now) && Entered(h, p.now, c', node, key)
    ensures Fifo(View(Point(c', entered)), n + 1) && Stamped(View(p), View(Point(c', entered)), n)
  {
    assert node !in Order(p.now);
    entered := FifoInserted(View(p), c'.info, Order(c'), node, n);
  }

  lemma {:induction false} InsertRecorded(op: Op, h: nat, size: nat, p: Point, c': Content, n: nat, held: set<nat>)
    returns (entered: map<nat, nat>)
    requires Fit(p, held, n) && op.InsertOp? && 1 <= op.node < size && op.node !in held
    requires Entered(h, p.now, c', op.node, op.key)
    ensures Recorded(op, h, size, p, Point(c', entered), n, held + {op.node}, [op.node], [])
  {
    entered := FifoEntered(h, p, c', op.node, op.key, n);
    EnteredBag(h, p.now, c', op.node, op.key);
    Came(HeldOf(p.now), HeldOf(c'), op.node);
  }

  lemma {:induction false} FifoLeft(h: nat, p: Point, c': Content, node: nat, n: nat) returns (entered: map<nat, nat>)
    requires Fifo(View(p), n) && Distinct(HeldOf(p.now)) && Left(h, p.now, c', node)
    ensures Fifo(View(Point(c', entered)), n + 1) && Stamped(View(p), View(Point(c', entered)), n)
  {
    if node in p.now.orphans {
      entered := p.entered;
      FifoKept(View(p), c'.info, n);
    } else {
      var mid :| RefilledFrom(h, p.now, c', node, mid);
      entered := FifoRemoved(View(p), c'.info, h, mid, p.now.orphans, c'.tree, c'.orphans, node, n);
    }
  }

  lemma {:induction false} RemoveRecorded(op: Op, h: nat, size: nat, p: Point, c': Content, n: nat,
      held: set<nat>, node: nat)
    returns (entered: map<nat, nat>)
    requires Fit(p, held, n) && node in held && !op.InsertOp? && Outgoing(op, p.now) == [node]
    requires Left(h, p.now, c', node)
    ensures Recorded(op, h, size, p, Point(c', entered), n, held - {node}, [], [node])
  {
    entered := FifoLeft(h, p, c', node, n);
    LeftHeld(h, p.now, c', node, held);
    LeftEffect(op, h, size, p, Point(c', entered), n, node);
  }

  lemma {:induction false} LeftEffect(op: Op, h: nat, size: nat, p: Point, p': Point, n: nat, node: nat)
    requires Sorted(p.now.info, Order(p.now)) && Fifo(View(p), n) && Left(h, p.now, p'.now, node)
    requires !op.InsertOp? && Outgoing(op, p.now) == [node]
    requires Fifo(View(p'), n + 1) && Stamped(View(p), View(p'), n)
    ensures Effect(op, h, size, p, p', n)
  {
    if Order(p.now) != [] { FifoFirst(View(p), n); }
  }

  lemma {:induction false} LeftHeld(h: nat, c: Content, c': Content, node: nat, held: set<nat>)
    requires Left(h, c, c', node) && Distinct(HeldOf(c)) && SetIs(c, held) && node in held
    ensures multiset(HeldOf(c)) == multiset(HeldOf(c')) + multiset{node} && SetIs(c', held - {node})
  {
    LeftBag(h, c, c', node);
    Gone(HeldOf(c), HeldOf(c'), node);
  }

  lemma {:induction false} SkipRecorded(op: Op, h: nat, size: nat, p: Point, c': Content, n: nat, held: set<nat>)
    requires Fit(p, held, n) && Incoming(op, size, p.now) == [] && Outgoing(op, p.now) == [] && Same(p.now, c')
    ensures Recorded(op, h, size, p, Point(c', p.entered), n, held, [], [])
  {
    FifoKept(View(p), c'.info, n);
  }

  method StepPopped(a: Avl, min: bool, held: set<nat>, ghost entered: map<nat, nat>, ghost n: nat)
    returns (went: seq<nat>, held': set<nat>, ghost entered': map<nat, nat>)
    requires a.Valid() && Fit(Point(Contents(a), entered), held, n)
    modifies a, a.links, a.info
    ensures a.Valid()
    ensures Recorded(if min then PopMinOp else PopMaxOp, a.H, a.links.Length,
                     Point(old(Contents(a)), entered), Point(Contents(a), entered'), n, held', [], went)
  {
    ghost var p, op := Point(Contents(a), entered), if min then PopMinOp else PopMaxOp;
    var m := PopEnd(a, min);
    if m == 0 {
      went, held', entered' := [], held, entered;
      SkipRecorded(op, a.H, a.links.Length, p, Contents(a), n, held);
    } else {
      went, held' := [m], held - {m};
      entered' := RemoveRecorded(op, a.H, a.links.Length, p, Contents(a), n, held, m);
    }
  }

  /** What a valid tree lets an operation rely on. */
  lemma {:induction false} ValidFit(a: Avl)
    requires a.Valid()
    ensures Sorted(a.info[..], a.InTree()) && Distinct(a.Held())
  {
  }

  method DeleteNode(a: Avl, node: nat)
    requires a.Valid() && node in a.Held()
    modifies a, a.links, a.info
    ensures a.Valid() && Left(a.H, old(Contents(a)), Contents(a), node)
  {
    ghost var c := Contents(a);
    ghost var mid := a.Delete(node);
    assert node !in c.orphans ==> RefilledFrom(a.H, c, Contents(a), node, mid);
  }

  /**
   Operation number `n`. An insert of a node that is held, or of no node of the array, and a delete of
   one that is not held are skipped. `held` says which nodes are held.
   */
  method Step(a: Avl, op: Op, held: set<nat>, ghost entered: map<nat, nat>, ghost n: nat)
    returns (came: seq<nat>, went: seq<nat>, held': set<nat>, ghost entered': map<nat, nat>)
    requires a.Valid() && Fit(Point(Contents(a), entered), held, n)
    modifies a, a.links, a.info
    ensures a.Valid()
    ensures Recorded(op, a.H, a.links.Length, Point(old(Contents(a)), entered), Point(Contents(a), entered'), n,
                     held', came, went)
  {
    ghost var p := Point(Contents(a), entered);
    came, went, held', entered' := [], [], held, entered;
    if op.InsertOp? && 1 <= op.node < a.links.Length && op.node !in held {
      InsertKey(a, op.node, op.key);
      came, held' := [op.node], held + {op.node};
      entered' := InsertRecorded(op, a.H, a.links.Length, p, Contents(a), n, held);
    } else if op.DeleteOp? && op.node in held {
      DeleteNode(a, op.node);
      went, held' := [op.node], held - {op.node};
      entered' := RemoveRecorded(op, a.H, a.links.Length, p, Contents(a), n, held, op.node);
    } else if op.PopMinOp? || op.PopMaxOp? {
      went, held', entered' := StepPopped(a, op.PopMinOp?, held, entered, n);
    } else {
      SkipRecorded(op, a.H, a.links.Length, p, p.now, n, held);
    }
  }

  // ----- runs -----

  /** The trace of a run: a point before each operation and one after the last. */
  ghost predicate Traced(ops: seq<Op>, h: nat, size: nat, trace: seq<Point>) {
    && |trace| == |ops| + 1 && HeldOf(trace[0].now) == []
    && forall i :: 0 <= i < |ops| ==> Effect(ops[i], h, size, trace[i], trace[i + 1], i)
  }

  /** The nodes that came in over a run, in this order. */
  ghost function AllCame(ops: seq<Op>, size: nat, trace: seq<Point>): seq<nat>
    requires |ops| <= |trace|
  {
    if ops == [] then []
    else var n := |ops| - 1; AllCame(ops[..n], size, trace[..n]) + Incoming(ops[n], size, trace[n].now)
  }

  /** The nodes that went out over a run, in this order. */
  ghost function AllWent(ops: seq<Op>, trace: seq<Point>): seq<nat>
    requires |ops| <= |trace|
  {
    if ops == [] then []
    else var n := |ops| - 1; AllWent(ops[..n], trace[..n]) + Outgoing(ops[n], trace[n].now)
  }

  lemma {:induction false} TracedOn(ops: seq<Op>, op: Op, h: nat, size: nat, trace: seq<Point>, p: Point)
    requires Traced(ops, h, size, trace) && Effect(op, h, size, trace[|ops|], p, |ops|)
    ensures Traced(ops + [op], h, size, trace + [p])
  {
    var ops', trace' := ops + [op], trace + [p];
    forall i | 0 <= i < |ops'| ensures Effect(ops'[i], h, size, trace'[i], trace'[i + 1], i) {
      if i < |ops| { assert Effect(ops[i], h, size, trace[i], trace[i + 1], i); }
    }
  }

  /** Only the points before an operation count. */
  lemma {:induction false} ListsPrefix(ops: seq<Op>, size: nat, trace: seq<Point>, m: nat)
    requires |ops| <= m <= |trace|
    ensures AllCame(ops, size, trace[..m]) == AllCame(ops, size, trace)
    ensures AllWent(ops, trace[..m]) == AllWent(ops, trace)
  {
    if ops != [] { assert trace[..m][..|ops| - 1] == trace[..|ops| - 1]; }
  }

  lemma {:induction false} ListsOn(ops: seq<Op>, op: Op, size: nat, trace: seq<Point>, p: Point)
    requires |trace| == |ops| + 1
    ensures AllCame(ops + [op], size, trace + [p]) == AllCame(ops, size, trace) + Incoming(op, size, trace[|ops|].now)
    ensures AllWent(ops + [op], trace + [p]) == AllWent(ops, trace) + Outgoing(op, trace[|ops|].now)
  {
    assert (ops + [op])[..|ops|] == ops && (trace + [p])[..|ops|] == trace[..|ops|];
    ListsPrefix(ops, size, trace, |ops|);
  }

  /** A run so far. */
  ghost predicate SoFar(ops: seq<Op>, h: nat, size: nat, trace: seq<Point>,
                        held: set<nat>, came: seq<nat>, went: seq<nat>) {
    && Traced(ops, h, size, trace) && SetIs(trace[|ops|].now, held) && Fifo(View(trace[|ops|]), |ops|)
    && came == AllCame(ops, size, trace) && went == AllWent(ops, trace)
    && multiset(came) == multiset(went) + multiset(HeldOf(trace[|ops|].now))
  }

  lemma {:induction false} SoFarOn(ops: seq<Op>, op: Op, h: nat, size: nat, trace: seq<Point>, p: Point,
      held: set<nat>, held': set<nat>, came: seq<nat>, c: seq<nat>, went: seq<nat>, w: seq<nat>)
    requires SoFar(ops, h, size, trace, held, came, went)
    requires Recorded(op, h, size, trace[|ops|], p, |ops|, held', c, w)
    ensures SoFar(ops + [op], h, size, trace + [p], held', came + c, went + w)
  {
    Tally(came, c, went, w, HeldOf(trace[|ops|].now), HeldOf(p.now));
    TracedOn(ops, op, h, size, trace, p);
    ListsOn(ops, op, size, trace, p);
  }

  method RunOn(a: Avl, op: Op, ghost ops: seq<Op>, ghost trace: seq<Point>,
               held: set<nat>, came: seq<nat>, went: seq<nat>)
    returns (came': seq<nat>, went': seq<nat>, held': set<nat>, ghost p: Point)
    requires a.Valid() && SoFar(ops, a.H, a.links.Length, trace, held, came, went)
    requires trace[|ops|].now == Contents(a)
    modifies a, a.links, a.info
    ensures a.Valid() && p.now == Contents(a)
    ensures SoFar(ops + [op], a.H, a.links.Length, trace + [p], held', came', went')
  {
    ValidFit(a);
    var c, w;
    ghost var e;
    c, w, held', e := Step(a, op, held, trace[|ops|].entered, |ops|);
    p := Point(Contents(a), e);
    SoFarOn(ops, op, a.H, a.links.Length, trace, p, held, held', came, c, went, w);
    came', went' := came + c, went + w;
  }

  /**
   Any sequence of operations on an empty tree, a key chosen anew for every insert, keeps the tree
   valid, and every node that came in is either still held, once, or went out. Each operation does to
   the tree what it should. Throughout, equal keys stand in the order in which their nodes entered the
   tree, and pop_min takes the first of the least.
   */
  method Run(a: Avl, ops: seq<Op>) returns (came: seq<nat>, went: seq<nat>, ghost trace: seq<Point>)
    requires a.Valid() && a.Held() == []
    modifies a, a.links, a.info
    ensures a.Valid() && multiset(came) == multiset(went) + multiset(a.Held())
    ensures Traced(ops, a.H, a.links.Length, trace)
    ensures trace[0].now == old(Contents(a)) && trace[|ops|].now == Contents(a)
    ensures came == AllCame(ops, a.links.Length, trace) && went == AllWent(ops, trace)
  {
    came, went := [], [];
    var held: set<nat> := {};
    trace := [Point(Contents(a), map[])];
    ghost var done := [];
    SoFarStart(Contents(a), a.H, a.links.Length);
    for i := 0 to |ops|
      invariant a.Valid() && done == ops[..i] && |trace| == i + 1 && trace[0].now == old(Contents(a))
      invariant trace[i].now == Contents(a) && SoFar(done, a.H, a.links.Length, trace, held, came, went)
    {
      ghost var p;
      came, went, held, p := RunOn(a, ops[i], done, trace, held, came, went);
      PrefixOn(ops, i);
      trace, done := trace + [p], done + [ops[i]];
    }
    assert done == ops;
  }

  lemma {:induction false} PrefixOn(ops: seq<Op>, i: nat)
    requires i < |ops|
    ensures ops[..i] + [ops[i]] == ops[..i + 1]
  {
  }

  lemma {:induction false} SoFarStart(c: Content, h: nat, size: nat)
    requires HeldOf(c) == []
    ensures SoFar([], h, size, [Point(c, map[])], {}, [], [])
  {
  }

  lemma {:induction false} ListsLast(ops: seq<Op>, size: nat, trace: seq<Point>, n: nat)
    requires n < |ops| <= |trace|
    ensures AllCame(ops[..n + 1], size, trace) == AllCame(ops[..n], size, trace) + Incoming(ops[n], size, trace[n].now)
    ensures AllWent(ops[..n + 1], trace) == AllWent(ops[..n], trace) + Outgoing(ops[n], trace[n].now)
  {
    assert ops[..n + 1][..n] == ops[..n];
    ListsPrefix(ops[..n], size, trace, n);
  }

  lemma {:induction false} DidBag(op: Op, h: nat, size: nat, c: Content, c': Content)
    requires Did(op, h, size, c, c')
    ensures multiset(HeldOf(c)) + multiset(Incoming(op, size, c)) == multiset(HeldOf(c')) + multiset(Outgoing(op, c))
  {
    if Incoming(op, size, c) != [] {
      EnteredBag(h, c, c', op.node, op.key);
    } else if Outgoing(op, c) != [] {
      LeftBag(h, c, c', Outgoing(op, c)[0]);
    }
  }

  /** The nodes that came in before operation `n` are those that went out and those that are held. */
  ghost predicate Kept(ops: seq<Op>, size: nat, trace: seq<Point>, n: nat)
    requires n <= |ops| < |trace|
  {
    multiset(AllCame(ops[..n], size, trace)) == multiset(AllWent(ops[..n], trace)) + multiset(HeldOf(trace[n].now))
  }

  lemma {:induction false} KeptOn(ops: seq<Op>, h: nat, size: nat, trace: seq<Point>, n: nat)
    requires n < |ops| < |trace| && Kept(ops, size, trace, n) && Did(ops[n], h, size, trace[n].now, trace[n + 1].now)
    ensures Kept(ops, size, trace, n + 1)
  {
    var op, c, c', before := ops[n], trace[n].now, trace[n + 1].now, ops[..n];
    DidBag(op, h, size, c, c');
    ListsLast(ops, size, trace, n);
    Tally(AllCame(before, size, trace), Incoming(op, size, c), AllWent(before, trace), Outgoing(op, c),
          HeldOf(c), HeldOf(c'));
  }

  /** So it is at every point of every run. */
  lemma {:induction false} Conservation(ops: seq<Op>, h: nat, size: nat, trace: seq<Point>, n: nat)
    requires Traced(ops, h, size, trace) && n <= |ops|
    ensures Kept(ops, size, trace, n)
  {
    if n > 0 {
      Conservation(ops, h, size, trace, n - 1);
      assert Effect(ops[n - 1], h, size, trace[n - 1], trace[n], n - 1);
      KeptOn(ops, h, size, trace, n - 1);
    }
  }

  /** n held nodes are drained by exactly n pops; without orphans they come out in order. */
  method Drain(a: Avl) returns (out: seq<nat>)
    requires a.Valid()
    modifies a, a.links, a.info
    ensures a.Valid() && a.Held() == []
    ensures |out| == |old(a.Held())| && multiset(out) == multiset(old(a.Held()))
    ensures old(a.orphans) == [] ==> out == old(a.InTree())
  {
    out := [];
    ghost var q, rest := a.InTree(), a.Held();
    while true
      invariant a.Valid() && rest == a.Held()
      invariant |out| + |rest| == |old(a.Held())| && multiset(out) + multiset(rest) == multiset(old(a.Held()))
      invariant old(a.orphans) == [] ==> a.orphans == [] && out + a.InTree() == q
      decreases |rest|
    {
      ghost var before, held := a.InTree(), rest;
      var m, mid := a.PopMin();
      rest := a.Held();
      if m == 0 {
        break;
      }
      PopOut(out, before, held, rest);
      out := out + [m];
    }
  }
}
