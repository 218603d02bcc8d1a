/**
 How a tree is stored in the node array (userspace/lib/avl.bpf.h).

 Nodes refer to each other by id, with 0 for "none"; slot 0 of the array is never used.
 `Rep` says that a subtree is stored correctly: mutual parent and child ids, and every stored
 balance equal to right height minus left height and within [-1, 1]. `RepCtx` says the same of
 a tree with a hole. `RepCtx` takes the height `h` that the stored balances attribute to the
 hole; while an insert or a delete retraces its path, that is one off the height of the
 subtree actually there.
 */
module AvlRep {
  import opened Common

  import opened AvlShape

  /** The linking part of a node record. */
  datatype Link = Link(left: nat, right: nat, parent: nat, balance: int)

  type Links = seq<Link>

  predicate IdOk(s: Links, i: nat) {
    1 <= i < |s|
  }

  ghost predicate Linked(s: Links, x: nat, l: nat, r: nat, p: nat, bal: int) {
    IdOk(s, x) && s[x].left == l && s[x].right == r && s[x].parent == p && s[x].balance == bal && -1 <= bal <= 1
  }

  ghost predicate Rep(s: Links, t: Tree, p: nat) {
    t.Node? ==>
      && Linked(s, t.id, Root(t.left), Root(t.right), p, Height(t.right) - Height(t.left))
      && Rep(s, t.left, t.id)
      && Rep(s, t.right, t.id)
  }

  ghost predicate RepCtx(s: Links, c: Ctx, hole: nat, h: nat, p0: nat) {
    c.In? ==>
      && (if c.onLeft
          then Linked(s, c.id, hole, Root(c.sib), HoleParent(c.up, p0), Height(c.sib) - h)
          else Linked(s, c.id, Root(c.sib), hole, HoleParent(c.up, p0), h - Height(c.sib)))
      && Rep(s, c.sib, c.id)
      && RepCtx(s, c.up, c.id, 1 + Max(h, Height(c.sib)), p0)
  }

  /** A stored tree is a stored context and a stored subtree that fits its hole. */
  lemma {:induction false} Split(s: Links, c: Ctx, t: Tree, p0: nat)
    requires Rep(s, Plug(c, t), p0)
    ensures RepCtx(s, c, Root(t), Height(t), p0)
    ensures Rep(s, t, HoleParent(c, p0))
  {
    if c.In? {
      Split(s, c.up, Branch(c.onLeft, c.id, c.sib, t), p0);
    }
  }

  lemma {:induction false} Join(s: Links, c: Ctx, t: Tree, p0: nat)
    requires RepCtx(s, c, Root(t), Height(t), p0)
    requires Rep(s, t, HoleParent(c, p0))
    ensures Rep(s, Plug(c, t), p0)
  {
    if c.In? {
      Join(s, c.up, Branch(c.onLeft, c.id, c.sib, t), p0);
    }
  }

  /** `inner` hangs below the hole of `outer`. */
  lemma {:induction false} JoinCtx(s: Links, inner: Ctx, outer: Ctx, hole: nat, h: nat, p0: nat)
    requires RepCtx(s, inner, hole, h, HoleParent(outer, p0))
    requires RepCtx(s, outer, RootOf(inner, hole), HeightWith(inner, h), p0)
    ensures RepCtx(s, Compose(inner, outer), hole, h, p0)
  {
    if inner.In? {
      JoinCtx(s, inner.up, outer, inner.id, 1 + Max(h, Height(inner.sib)), p0);
      ComposeFacts(inner.up, outer, p0);
    }
  }

  // ----- framing -----

  /** `s'` differs from `s` at most at the ids listed. */
  ghost predicate OnlyAt(s: Links, s': Links, ids: set<nat>) {
    |s| == |s'| && forall i: nat :: i < |s| && i !in ids ==> s'[i] == s[i]
  }

  lemma {:induction false} OnlyAtTwice(s: Links, s1: Links, s2: Links, a: set<nat>, b: set<nat>, ids: set<nat>)
    requires OnlyAt(s, s1, a) && OnlyAt(s1, s2, b) && a <= ids && b <= ids
    ensures OnlyAt(s, s2, ids)
  {
  }

  /** A subtree away from all writes is still stored. */
  lemma {:induction false} RepFrame(s: Links, s': Links, written: set<nat>, t: Tree, p: nat)
    requires Rep(s, t, p) && OnlyAt(s, s', written) && written !! Ids(t)
    ensures Rep(s', t, p)
  {
    if t.Node? {
      RepFrame(s, s', written, t.left, t.id);
      RepFrame(s, s', written, t.right, t.id);
      assert t.id in Ids(t);
    }
  }

  lemma {:induction false} RepCtxFrame(s: Links, s': Links, written: set<nat>, c: Ctx, hole: nat, h: nat, p0: nat)
    requires RepCtx(s, c, hole, h, p0) && OnlyAt(s, s', written) && written !! CtxIds(c)
    ensures RepCtx(s', c, hole, h, p0)
  {
    if c.In? {
      RepFrame(s, s', written, c.sib, c.id);
      RepCtxFrame(s, s', written, c.up, c.id, 1 + Max(h, Height(c.sib)), p0);
      assert c.id in CtxIds(c);
    }
  }

  ghost predicate Reparented(s: Links, s': Links, i: nat, p: nat) {
    i != 0 ==> i < |s| == |s'| && s'[i] == s[i].(parent := p)
  }

  /** A subtree whose root got a new parent, and that no other write touched. */
  lemma {:induction false} RepAdopted(s: Links, s': Links, written: set<nat>, t: Tree, p: nat, p': nat)
    requires Rep(s, t, p) && OnlyAt(s, s', written) && Distinct(Inorder(t))
    requires written !! (Ids(t) - {Root(t)}) && Reparented(s, s', Root(t), p')
    ensures Rep(s', t, p')
  {
    if t.Node? {
      DistinctNode(t.left, t.id, t.right);
      RepFrame(s, s', written, t.left, t.id);
      RepFrame(s, s', written, t.right, t.id);
    }
  }

  // ----- reading a stored tree -----

  /** The root of a stored tree is a node of it, or 0. */
  lemma {:induction false} RootFacts(s: Links, t: Tree, p: nat)
    requires Rep(s, t, p)
    ensures t.Node? <==> Root(t) != 0
    ensures t.Node? ==> IdOk(s, Root(t)) && Root(t) in Ids(t) && s[Root(t)].parent == p
  {
  }

  lemma {:induction false} RepIdsInRange(s: Links, t: Tree, p: nat)
    requires Rep(s, t, p)
    ensures forall i :: i in Ids(t) ==> IdOk(s, i)
  {
    if t.Node? {
      RepIdsInRange(s, t.left, t.id);
      RepIdsInRange(s, t.right, t.id);
    }
  }

  lemma {:induction false} CtxIdsInRange(s: Links, c: Ctx, hole: nat, h: nat, p0: nat)
    requires RepCtx(s, c, hole, h, p0)
    ensures forall i :: i in CtxIds(c) ==> IdOk(s, i)
  {
    if c.In? {
      RepIdsInRange(s, c.sib, c.id);
      CtxIdsInRange(s, c.up, c.id, 1 + Max(h, Height(c.sib)), p0);
    }
  }
}
