/**
 The shape of an AVL tree, as a value: trees of node ids, and trees with a hole.

 A `Ctx` is a tree with one subtree missing, stored from the hole upwards. It is what a
 walk that descends from the root (or climbs back to it) leaves behind, so every loop of
 the tree code is described by a context and the subtree that fills it.
 */
module AvlShape {
  import opened Common

  datatype Tree = Nil | Node(left: Tree, id: nat, right: Tree)

  /** `In(onLeft, id, sib, up)`: the hole is a child of `id`, its left one iff `onLeft`; the other child is `sib`. */
  datatype Ctx = Top | In(onLeft: bool, id: nat, sib: Tree, up: Ctx)

  function Root(t: Tree): nat {
    if t.Nil? then 0 else t.id
  }

  function Height(t: Tree): nat {
    if t.Nil? then 0 else 1 + Max(Height(t.left), Height(t.right))
  }

  function Inorder(t: Tree): seq<nat> {
    if t.Nil? then [] else Inorder(t.left) + [t.id] + Inorder(t.right)
  }

  function Ids(t: Tree): set<nat> {
    if t.Nil? then {} else Ids(t.left) + {t.id} + Ids(t.right)
  }

  /** `t` put in the innermost hole of a context that ends at `id`. */
  function Branch(onLeft: bool, id: nat, sib: Tree, t: Tree): Tree {
    if onLeft then Node(t, id, sib) else Node(sib, id, t)
  }

  function Plug(c: Ctx, t: Tree): Tree {
    if c.Top? then t else Plug(c.up, Branch(c.onLeft, c.id, c.sib, t))
  }

  function CtxIds(c: Ctx): set<nat> {
    if c.Top? then {} else CtxIds(c.up) + {c.id} + Ids(c.sib)
  }

  /** The in-order ids to the left of the hole. */
  function Before(c: Ctx): seq<nat> {
    if c.Top? then [] else if c.onLeft then Before(c.up) else Before(c.up) + Inorder(c.sib) + [c.id]
  }

  /** The in-order ids to the right of the hole. */
  function After(c: Ctx): seq<nat> {
    if c.Top? then [] else if c.onLeft then [c.id] + Inorder(c.sib) + After(c.up) else After(c.up)
  }

  function Depth(c: Ctx): nat {
    if c.Top? then 0 else 1 + Depth(c.up)
  }

  /** The id of the node whose child is the hole; `p0` when the hole is at the top. */
  function HoleParent(c: Ctx, p0: nat): nat {
    if c.Top? then p0 else c.id
  }

  /** The root of the whole tree once `hole` is put in the hole. */
  function RootOf(c: Ctx, hole: nat): nat {
    if c.Top? then hole else RootOf(c.up, c.id)
  }

  /** The height of the whole tree once a subtree of height `h` is put in the hole. */
  function HeightWith(c: Ctx, h: nat): nat {
    if c.Top? then h else HeightWith(c.up, 1 + Max(h, Height(c.sib)))
  }

  /** `inner` placed in the hole of `outer`. */
  function Compose(inner: Ctx, outer: Ctx): Ctx {
    if inner.Top? then outer else In(inner.onLeft, inner.id, inner.sib, Compose(inner.up, outer))
  }

  lemma {:induction false} PlugFacts(c: Ctx, t: Tree)
    ensures Root(Plug(c, t)) == RootOf(c, Root(t))
    ensures Height(Plug(c, t)) == HeightWith(c, Height(t))
    ensures Depth(c) + Height(t) <= Height(Plug(c, t))
  {
    if c.In? {
      PlugFacts(c.up, Branch(c.onLeft, c.id, c.sib, t));
    }
  }

  lemma {:induction false} PlugIds(c: Ctx, t: Tree)
    ensures Ids(Plug(c, t)) == CtxIds(c) + Ids(t)
  {
    if c.In? {
      PlugIds(c.up, Branch(c.onLeft, c.id, c.sib, t));
    }
  }

  lemma {:induction false} Reassociate<T>(a: seq<T>, b: seq<T>, c: seq<T>, d: seq<T>, e: seq<T>)
    ensures a + (b + c + d) + e == a + b + (c + d + e)
    ensures a + (b + c + d) + e == (a + b + c) + d + e
    ensures a + (b + c + d) + e == (a + b) + c + (d + e)
  {
  }

  lemma {:induction false} PlugInorder(c: Ctx, t: Tree)
    ensures Inorder(Plug(c, t)) == Before(c) + Inorder(t) + After(c)
  {
    if c.In? {
      PlugInorder(c.up, Branch(c.onLeft, c.id, c.sib, t));
      if c.onLeft {
        Reassociate(Before(c.up), Inorder(t), [c.id], Inorder(c.sib), After(c.up));
      } else {
        Reassociate(Before(c.up), Inorder(c.sib), [c.id], Inorder(t), After(c.up));
      }
    }
  }

  lemma {:induction false} ComposeFacts(inner: Ctx, outer: Ctx, p0: nat)
    ensures CtxIds(Compose(inner, outer)) == CtxIds(inner) + CtxIds(outer)
    ensures Depth(Compose(inner, outer)) == Depth(inner) + Depth(outer)
    ensures HoleParent(Compose(inner, outer), p0) == HoleParent(inner, HoleParent(outer, p0))
  {
    if inner.In? {
      ComposeFacts(inner.up, outer, p0);
    }
  }

  lemma {:induction false} ComposeOrder(inner: Ctx, outer: Ctx)
    ensures Before(Compose(inner, outer)) == Before(outer) + Before(inner)
    ensures After(Compose(inner, outer)) == After(inner) + After(outer)
  {
    if inner.In? {
      ComposeOrder(inner.up, outer);
      assert inner.onLeft ==>
        [inner.id] + Inorder(inner.sib) + (After(inner.up) + After(outer))
        == [inner.id] + Inorder(inner.sib) + After(inner.up) + After(outer);
      assert !inner.onLeft ==>
        Before(outer) + Before(inner.up) + Inorder(inner.sib) + [inner.id]
        == Before(outer) + (Before(inner.up) + Inorder(inner.sib) + [inner.id]);
    }
  }

  lemma {:induction false} ComposeHeights(inner: Ctx, outer: Ctx, h: nat)
    ensures HeightWith(Compose(inner, outer), h) == HeightWith(outer, HeightWith(inner, h))
  {
    if inner.In? {
      ComposeHeights(inner.up, outer, 1 + Max(h, Height(inner.sib)));
    }
  }

  lemma {:induction false} ComposeRoot(inner: Ctx, outer: Ctx, hole: nat)
    ensures RootOf(Compose(inner, outer), hole) == RootOf(outer, RootOf(inner, hole))
  {
    if inner.In? {
      ComposeRoot(inner.up, outer, inner.id);
    }
  }

  lemma {:induction false} HeightWithMonotone(c: Ctx, h: nat, k: nat)
    requires h <= k
    ensures HeightWith(c, h) <= HeightWith(c, k)
  {
    if c.In? {
      HeightWithMonotone(c.up, 1 + Max(h, Height(c.sib)), 1 + Max(k, Height(c.sib)));
    }
  }

  lemma {:induction false} DepthHeight(c: Ctx, h: nat)
    ensures Depth(c) + h <= HeightWith(c, h)
  {
    if c.In? {
      DepthHeight(c.up, 1 + Max(h, Height(c.sib)));
    }
  }

  lemma {:induction false} InorderIds(t: Tree)
    ensures forall x :: x in Inorder(t) <==> x in Ids(t)
  {
    if t.Node? {
      InorderIds(t.left);
      InorderIds(t.right);
    }
  }

  // ----- no id twice -----

  lemma {:induction false} DistinctParts(a: seq<nat>, b: seq<nat>)
    requires Distinct(a + b)
    ensures Distinct(a) && Distinct(b)
    ensures forall x :: x in a ==> x !in b
  {
    assert forall i :: 0 <= i < |a| ==> (a + b)[i] == a[i];
    assert forall i :: 0 <= i < |b| ==> (a + b)[|a| + i] == b[i];
  }

  /** The parts of a node share no id. */
  lemma {:induction false} DistinctNode(l: Tree, x: nat, r: Tree)
    requires Distinct(Inorder(l) + [x] + Inorder(r))
    ensures Distinct(Inorder(l)) && Distinct(Inorder(r))
    ensures x !in Ids(l) && x !in Ids(r) && Ids(l) !! Ids(r)
  {
    DistinctParts(Inorder(l) + [x], Inorder(r));
    DistinctParts(Inorder(l), [x]);
    InorderIds(l);
    InorderIds(r);
    assert x in Inorder(l) + [x];
    forall y | y in Ids(l) ensures y !in Ids(r) {
      assert y in Inorder(l) + [x];
    }
  }

  lemma {:induction false} CtxOrderIds(c: Ctx)
    ensures forall x :: x in CtxIds(c) <==> x in Before(c) || x in After(c)
  {
    if c.In? {
      CtxOrderIds(c.up);
      InorderIds(c.sib);
    }
  }

  /** A context shares no id with the subtree in its hole. */
  lemma {:induction false} DistinctHole(c: Ctx, t: Tree)
    requires Distinct(Before(c) + Inorder(t) + After(c))
    ensures CtxIds(c) !! Ids(t) && Distinct(Inorder(t))
  {
    DistinctParts(Before(c) + Inorder(t), After(c));
    DistinctParts(Before(c), Inorder(t));
    CtxOrderIds(c);
    InorderIds(t);
    forall y | y in Ids(t) ensures y !in CtxIds(c) {
      assert y in Before(c) + Inorder(t);
    }
  }

  /** The order seen one level up from the hole. */
  lemma {:induction false} OrderUp(c: Ctx, t: Tree)
    requires c.In?
    ensures Before(c.up) + Inorder(Branch(c.onLeft, c.id, c.sib, t)) + After(c.up) == Before(c) + Inorder(t) + After(c)
  {
    if c.onLeft {
      Reassociate(Before(c.up), Inorder(t), [c.id], Inorder(c.sib), After(c.up));
    } else {
      Reassociate(Before(c.up), Inorder(c.sib), [c.id], Inorder(t), After(c.up));
    }
  }

  /** The node above the hole, its other subtree, the subtree in the hole and the rest share no id. */
  lemma {:induction false} DistinctStep(c: Ctx, t: Tree)
    requires c.In? && Distinct(Before(c) + Inorder(t) + After(c))
    ensures c.id !in Ids(t) && c.id !in Ids(c.sib) && Ids(t) !! Ids(c.sib)
    ensures c.id !in CtxIds(c.up) && Ids(t) !! CtxIds(c.up) && Ids(c.sib) !! CtxIds(c.up)
  {
    var b := Branch(c.onLeft, c.id, c.sib, t);
    OrderUp(c, t);
    DistinctHole(c.up, b);
    DistinctNode(b.left, b.id, b.right);
  }

  lemma {:induction false} DistinctAround(c: Ctx, t: Tree)
    requires Distinct(Before(c) + Inorder(t) + After(c))
    ensures Distinct(Before(c) + After(c))
  {
    var q := Before(c) + Inorder(t) + After(c);
    forall i, j | 0 <= i < j < |Before(c) + After(c)| ensures (Before(c) + After(c))[i] != (Before(c) + After(c))[j] {
      var i' := if i < |Before(c)| then i else i + |Inorder(t)|;
      var j' := if j < |Before(c)| then j else j + |Inorder(t)|;
      assert q[i'] == (Before(c) + After(c))[i] && q[j'] == (Before(c) + After(c))[j];
    }
  }

  /** The node above the hole, its other subtree and the rest share no id. */
  lemma {:induction false} DistinctCtx(c: Ctx)
    requires c.In? && Distinct(Before(c) + After(c))
    ensures c.id !in Ids(c.sib) && c.id !in CtxIds(c.up) && Ids(c.sib) !! CtxIds(c.up)
  {
    assert Before(c) + Inorder(Nil) + After(c) == Before(c) + After(c);
    DistinctStep(c, Nil);
  }

  /** The context and the subtree of node `id` inside `t`, itself inside `c`. */
  ghost function Locate(t: Tree, id: nat, c: Ctx): (r: (Ctx, Tree))
    requires id in Ids(t)
    ensures r.1.Node? && r.1.id == id
    ensures Plug(r.0, r.1) == Plug(c, t)
  {
    if t.id == id then (c, t)
    else if id in Ids(t.left) then Locate(t.left, id, In(true, t.id, t.right, c))
    else Locate(t.right, id, In(false, t.id, t.left, c))
  }
}
