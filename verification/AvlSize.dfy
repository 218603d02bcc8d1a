/**
 How many nodes a tree must hold before an insert can be refused (userspace/lib/avl.bpf.h).

 The header chooses MAX_AVL_HEIGHT as 23 because an AVL tree of n nodes has about
 1.4 * log2(n) levels and ghOSt has at most 64k threads. `MinNodes` is the exact form of that
 argument: the fewest nodes an AVL tree of a given height can have.
 */
module AvlSize {
  import opened Common
  import opened AvlShape
  import opened AvlRep
  import opened AvlOrder
  import opened AvlTree

  function MinNodes(h: nat): nat {
    if h <= 1 then h else 1 + MinNodes(h - 1) + MinNodes(h - 2)
  }

  lemma {:induction false} MinNodesGrows(h: nat, k: nat)
    requires h <= k
    ensures MinNodes(h) <= MinNodes(k)
    decreases k - h
  {
    if h < k {
      MinNodesGrows(h + 1, k);
    }
  }

  lemma {:induction false} SizeAtLeast(s: Links, t: Tree, p: nat)
    requires Rep(s, t, p)
    ensures |Inorder(t)| >= MinNodes(Height(t))
  {
    if t.Node? {
      SizeAtLeast(s, t.left, t.id);
      SizeAtLeast(s, t.right, t.id);
      var low := if Height(t.left) < Height(t.right) then Height(t.left) else Height(t.right);
      if Height(t) >= 2 {
        MinNodesGrows(Height(t) - 2, low);
      }
    }
  }

  lemma {:induction false} LevelBound(k: Infos, t: Tree, key: nat)
    ensures BstLevel(k, t, key) <= Height(t) + 1
  {
    if t.Node? {
      LevelBound(k, if key < Key(k, t.id) then t.left else t.right, key);
    }
  }

  /** No key is too deep for a tree with fewer than MinNodes(H) nodes, so no insert makes an orphan. */
  lemma {:induction false} RoomFor(a: Avl, key: nat)
    requires a.Valid() && |a.InTree()| < MinNodes(a.H)
    ensures BstLevel(a.info[..], a.tree, key) <= a.H
  {
    SizeAtLeast(a.links[..], a.tree, 0);
    if Height(a.tree) >= a.H {
      MinNodesGrows(a.H, Height(a.tree));
    }
    LevelBound(a.info[..], a.tree, key);
  }

  /** With the default MAX_AVL_HEIGHT, 75,023 nodes always fit: more than the 64k threads of ghOSt. */
  lemma {:induction false} DefaultHeight()
    ensures MinNodes(23) == 75024 > 65536
  {
    assert MinNodes(2) == 2 && MinNodes(3) == 4;
    assert MinNodes(4) == 7 && MinNodes(5) == 12;
    assert MinNodes(6) == 20 && MinNodes(7) == 33;
    assert MinNodes(8) == 54 && MinNodes(9) == 88;
    assert MinNodes(10) == 143 && MinNodes(11) == 232;
    assert MinNodes(12) == 376 && MinNodes(13) == 609;
    assert MinNodes(14) == 986 && MinNodes(15) == 1596;
    assert MinNodes(16) == 2583 && MinNodes(17) == 4180;
    assert MinNodes(18) == 6764 && MinNodes(19) == 10945;
    assert MinNodes(20) == 17710 && MinNodes(21) == 28656;
    assert MinNodes(22) == 46367;
  }

  /** A sparsest AVL tree of height `h`, its ids counted in order from `first`. */
  function Sparse(h: nat, first: nat): Tree {
    if h == 0 then Nil
    else if h == 1 then Node(Nil, first, Nil)
    else Node(Sparse(h - 2, first), first + MinNodes(h - 2), Sparse(h - 1, first + MinNodes(h - 2) + 1))
  }

  /** Every node's subtrees differ in height by at most one. */
  predicate Balanced(t: Tree) {
    t.Node? ==> Balanced(t.left) && Balanced(t.right) && -1 <= Height(t.right) - Height(t.left) <= 1
  }

  /** A balanced tree can be stored in any array that has slots for its ids. */
  lemma {:induction false} Storable(s: Links, t: Tree, p: nat) returns (s': Links)
    requires Balanced(t) && Distinct(Inorder(t)) && forall i :: i in Ids(t) ==> 1 <= i < |s|
    ensures Rep(s', t, p) && OnlyAt(s, s', Ids(t))
    decreases t
  {
    s' := s;
    if t.Node? {
      DistinctNode(t.left, t.id, t.right);
      assert t.id in Ids(t) && Ids(t.left) <= Ids(t) && Ids(t.right) <= Ids(t);
      forall i | i in Ids(t.left) || i in Ids(t.right) ensures 1 <= i < |s| { assert i in Ids(t); }
      var s1 := Storable(s, t.left, t.id);
      var s2 := Storable(s1, t.right, t.id);
      RepFrame(s1, s2, Ids(t.right), t.left, t.id);
      s' := s2[t.id := Link(Root(t.left), Root(t.right), p, Height(t.right) - Height(t.left))];
      RepFrame(s2, s', {t.id}, t.left, t.id);
      RepFrame(s2, s', {t.id}, t.right, t.id);
    }
  }

  /** The shape of the sparsest trees. */
  lemma {:induction false} SparseFacts(h: nat, first: nat)
    ensures Height(Sparse(h, first)) == h && Balanced(Sparse(h, first)) && |Inorder(Sparse(h, first))| == MinNodes(h)
    ensures forall i :: 0 <= i < MinNodes(h) ==> Inorder(Sparse(h, first))[i] == first + i
  {
    if h >= 2 {
      SparseFacts(h - 2, first);
      SparseFacts(h - 1, first + MinNodes(h - 2) + 1);
    }
  }

  /** Among equal keys the descent goes right, to the bottom of the sparsest tree. */
  lemma {:induction false} SparseLevel(k: Infos, h: nat, first: nat)
    requires forall i :: 0 <= i < |k| ==> k[i].key == 0
    ensures BstLevel(k, Sparse(h, first), 0) == h + 1
  {
    if h >= 2 {
      SparseLevel(k, h - 1, first + MinNodes(h - 2) + 1);
    }
  }

  /** The bound is sharp: a stored AVL tree of height h with exactly MinNodes(h) nodes refuses a key. */
  lemma {:induction false} RoomIsSharp(k: Infos, s: Links, h: nat) returns (s': Links)
    requires (forall i :: 0 <= i < |k| ==> k[i].key == 0) && MinNodes(h) < |s|
    ensures Rep(s', Sparse(h, 1), 0) && |s'| == |s| && Height(Sparse(h, 1)) == h && Distinct(Inorder(Sparse(h, 1)))
    ensures |Inorder(Sparse(h, 1))| == MinNodes(h) && BstLevel(k, Sparse(h, 1), 0) == h + 1
  {
    SparseFacts(h, 1);
    SparseLevel(k, h, 1);
    InorderIds(Sparse(h, 1));
    s' := Storable(s, Sparse(h, 1), 0);
  }
}
