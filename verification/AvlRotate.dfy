/**
 The four rotations of userspace/lib/avl.bpf.h, in place on the node array.

 Each `Rotate...` method says which records it writes and how; the lemma beside it says what
 that means for the stored tree: the in-order sequence is kept and the subtree at X, whose
 one child Z is two levels taller than the other, is balanced again. As in the source the
 returned subtree root keeps a stale parent id: the caller reconnects it.
 */
module AvlRotate {
  import opened Common
  import opened AvlShape

  import opened AvlRep

  /** What a left rotation of X and its right child Z writes. */
  ghost predicate LeftRotated(s: Links, s': Links, x: nat, z: nat)
    requires IdOk(s, x) && IdOk(s, z)
  {
    var t23 := s[z].left;
    var even := s[z].balance == 0;
    && OnlyAt(s, s', {x, z, t23} - {0})
    && s'[x] == s[x].(right := t23, parent := z, balance := if even then 1 else 0)
    && s'[z] == s[z].(left := x, balance := if even then -1 else 0)
    && Reparented(s, s', t23, x)
  }

  ghost predicate RightRotated(s: Links, s': Links, x: nat, z: nat)
    requires IdOk(s, x) && IdOk(s, z)
  {
    var t23 := s[z].right;
    var even := s[z].balance == 0;
    && OnlyAt(s, s', {x, z, t23} - {0})
    && s'[x] == s[x].(left := t23, parent := z, balance := if even then -1 else 0)
    && s'[z] == s[z].(right := x, balance := if even then 1 else 0)
    && Reparented(s, s', t23, x)
  }

  /** What a right-left rotation of X, its right child Z and Z's left child Y writes. */
  ghost predicate RightLeftRotated(s: Links, s': Links, x: nat, z: nat, y: nat)
    requires IdOk(s, x) && IdOk(s, z) && IdOk(s, y)
  {
    var t2, t3, b := s[y].left, s[y].right, s[y].balance;
    && OnlyAt(s, s', {x, y, z, t2, t3} - {0})
    && s'[x] == s[x].(right := t2, parent := y, balance := if b > 0 then -1 else 0)
    && s'[y] == s[y].(left := x, right := z, balance := 0)
    && s'[z] == s[z].(left := t3, parent := y, balance := if b < 0 then 1 else 0)
    && Reparented(s, s', t2, x)
    && Reparented(s, s', t3, z)
  }

  ghost predicate LeftRightRotated(s: Links, s': Links, x: nat, z: nat, y: nat)
    requires IdOk(s, x) && IdOk(s, z) && IdOk(s, y)
  {
    var t2, t3, b := s[y].left, s[y].right, s[y].balance;
    && OnlyAt(s, s', {x, y, z, t2, t3} - {0})
    && s'[x] == s[x].(left := t3, parent := y, balance := if b < 0 then 1 else 0)
    && s'[y] == s[y].(left := z, right := x, balance := 0)
    && s'[z] == s[z].(right := t2, parent := y, balance := if b > 0 then -1 else 0)
    && Reparented(s, s', t2, z)
    && Reparented(s, s', t3, x)
  }

  /** The ids a rotation touches are pairwise distinct array slots. */
  predicate Separate(s: Links, x: nat, y: nat, z: nat, t2: nat, t3: nat) {
    && IdOk(s, x) && IdOk(s, y) && IdOk(s, z) && t2 < |s| && t3 < |s|
    && x != y && x != z && y != z
    && t2 != x && t2 != y && t2 != z && t3 != x && t3 != y && t3 != z
    && (t2 == t3 ==> t2 == 0)
  }

  method RotateLeft(nodes: array<Link>, x: nat, z: nat) returns (str: nat)
    requires IdOk(nodes[..], x) && IdOk(nodes[..], z)
    requires x != z && nodes[z].left < nodes.Length && nodes[z].left != x && nodes[z].left != z
    modifies nodes
    ensures str == z
    ensures LeftRotated(old(nodes[..]), nodes[..], x, z)
  {
    var t23 := nodes[z].left;
    nodes[x] := nodes[x].(right := t23);
    if t23 != 0 {
      nodes[t23] := nodes[t23].(parent := x);
    }
    nodes[z] := nodes[z].(left := x);
    nodes[x] := nodes[x].(parent := z);
    if nodes[z].balance == 0 {
      nodes[x] := nodes[x].(balance := 1);
      nodes[z] := nodes[z].(balance := -1);
    } else {
      nodes[x] := nodes[x].(balance := 0);
      nodes[z] := nodes[z].(balance := 0);
    }
    str := z;
  }

  method RotateRight(nodes: array<Link>, x: nat, z: nat) returns (str: nat)
    requires IdOk(nodes[..], x) && IdOk(nodes[..], z)
    requires x != z && nodes[z].right < nodes.Length && nodes[z].right != x && nodes[z].right != z
    modifies nodes
    ensures str == z
    ensures RightRotated(old(nodes[..]), nodes[..], x, z)
  {
    var t23 := nodes[z].right;
    nodes[x] := nodes[x].(left := t23);
    if t23 != 0 {
      nodes[t23] := nodes[t23].(parent := x);
    }
    nodes[z] := nodes[z].(right := x);
    nodes[x] := nodes[x].(parent := z);
    if nodes[z].balance == 0 {
      nodes[x] := nodes[x].(balance := -1);
      nodes[z] := nodes[z].(balance := 1);
    } else {
      nodes[x] := nodes[x].(balance := 0);
      nodes[z] := nodes[z].(balance := 0);
    }
    str := z;
  }

  /** Returns X unchanged when Z has no left child; a left-heavy Z always has one. */
  method RotateRightLeft(nodes: array<Link>, x: nat, z: nat) returns (str: nat)
    requires IdOk(nodes[..], x) && IdOk(nodes[..], z)
    requires nodes[z].left != 0 ==> nodes[z].left < nodes.Length
    requires nodes[z].left != 0 ==>
      Separate(nodes[..], x, nodes[z].left, z, nodes[nodes[z].left].left, nodes[nodes[z].left].right)
    modifies nodes
    ensures old(nodes[z].left) == 0 ==> str == x && nodes[..] == old(nodes[..])
    ensures old(nodes[z].left) != 0 ==>
      str == old(nodes[z].left) && RightLeftRotated(old(nodes[..]), nodes[..], x, z, str)
  {
    var y := nodes[z].left;
    if y == 0 {
      return x;
    }
    var t2, t3, bal := nodes[y].left, nodes[y].right, nodes[y].balance;
    nodes[y] := nodes[y].(left := x, right := z, balance := 0);
    nodes[x] := nodes[x].(parent := y, right := t2, balance := if bal > 0 then -1 else 0);
    if t2 != 0 {
      nodes[t2] := nodes[t2].(parent := x);
    }
    nodes[z] := nodes[z].(parent := y, left := t3, balance := if bal < 0 then 1 else 0);
    if t3 != 0 {
      nodes[t3] := nodes[t3].(parent := z);
    }
    str := y;
  }

  method RotateLeftRight(nodes: array<Link>, x: nat, z: nat) returns (str: nat)
    requires IdOk(nodes[..], x) && IdOk(nodes[..], z)
    requires nodes[z].right != 0 ==> nodes[z].right < nodes.Length
    requires nodes[z].right != 0 ==>
      Separate(nodes[..], x, nodes[z].right, z, nodes[nodes[z].right].left, nodes[nodes[z].right].right)
    modifies nodes
    ensures old(nodes[z].right) == 0 ==> str == x && nodes[..] == old(nodes[..])
    ensures old(nodes[z].right) != 0 ==>
      str == old(nodes[z].right) && LeftRightRotated(old(nodes[..]), nodes[..], x, z, str)
  {
    var y := nodes[z].right;
    if y == 0 {
      return x;
    }
    var t2, t3, bal := nodes[y].left, nodes[y].right, nodes[y].balance;
    nodes[y] := nodes[y].(left := z, right := x, balance := 0);
    nodes[z] := nodes[z].(parent := y, right := t2, balance := if bal > 0 then -1 else 0);
    if t2 != 0 {
      nodes[t2] := nodes[t2].(parent := z);
    }
    nodes[x] := nodes[x].(parent := y, left := t3, balance := if bal < 0 then 1 else 0);
    if t3 != 0 {
      nodes[t3] := nodes[t3].(parent := x);
    }
    str := y;
  }

  // ----- what the rotations mean -----

  /** Two nodes and the three subtrees around them share no id. */
  ghost predicate Apart3(x: nat, z: nat, t1: Tree, t23: Tree, t4: Tree) {
    && x != z
    && {x, z} !! Ids(t1) && {x, z} !! Ids(t23) && {x, z} !! Ids(t4)
    && Ids(t1) !! Ids(t23) && Ids(t1) !! Ids(t4) && Ids(t23) !! Ids(t4)
    && Distinct(Inorder(t23))
  }

  /** Three nodes and the four subtrees around them share no id. */
  ghost predicate Apart4(x: nat, y: nat, z: nat, t1: Tree, t2: Tree, t3: Tree, t4: Tree) {
    && x != y && x != z && y != z
    && {x, y, z} !! Ids(t1) && {x, y, z} !! Ids(t2) && {x, y, z} !! Ids(t3) && {x, y, z} !! Ids(t4)
    && Ids(t1) !! Ids(t2) && Ids(t1) !! Ids(t3) && Ids(t1) !! Ids(t4)
    && Ids(t2) !! Ids(t3) && Ids(t2) !! Ids(t4) && Ids(t3) !! Ids(t4)
    && Distinct(Inorder(t2)) && Distinct(Inorder(t3))
  }

  lemma {:induction false} Written3(x: nat, z: nat, t1: Tree, t23: Tree, t4: Tree)
    requires Apart3(x, z, t1, t23, t4)
    ensures var written := {x, z, Root(t23)} - {0};
      written !! Ids(t1) && written !! Ids(t4) && written !! (Ids(t23) - {Root(t23)})
  {
    assert t23.Node? ==> Root(t23) in Ids(t23);
  }

  lemma {:induction false} Written4(x: nat, y: nat, z: nat, t1: Tree, t2: Tree, t3: Tree, t4: Tree)
    requires Apart4(x, y, z, t1, t2, t3, t4)
    ensures var written := {x, y, z, Root(t2), Root(t3)} - {0};
      && written !! Ids(t1) && written !! Ids(t4)
      && written !! (Ids(t2) - {Root(t2)}) && written !! (Ids(t3) - {Root(t3)})
  {
    assert t2.Node? ==> Root(t2) in Ids(t2);
    assert t3.Node? ==> Root(t3) in Ids(t3);
  }

  lemma {:induction false} LeftRotatedRep(s: Links, s': Links, x: nat, z: nat, t1: Tree, t23: Tree, t4: Tree)
    requires IdOk(s, x) && IdOk(s, z) && Apart3(x, z, t1, t23, t4)
    requires Rep(s, t1, x) && Rep(s, t23, z) && Rep(s, t4, z)
    requires s[x].left == Root(t1) && s[z].left == Root(t23) && s[z].right == Root(t4)
    requires s[z].balance == Height(t4) - Height(t23) && 0 <= s[z].balance <= 1 && Height(t4) == Height(t1) + 1
    requires LeftRotated(s, s', x, z)
    ensures Rep(s', Node(Node(t1, x, t23), z, t4), s'[z].parent)
  {
    assert Rep(s', t1, x) && Rep(s', t23, x) && Rep(s', t4, z) by {
      var written := {x, z, Root(t23)} - {0};
      Written3(x, z, t1, t23, t4);
      RepFrame(s, s', written, t1, x);
      RepAdopted(s, s', written, t23, z, x);
      RepFrame(s, s', written, t4, z);
    }
    assert Rep(s', Node(t1, x, t23), z);
  }

  lemma {:induction false} RightRotatedRep(s: Links, s': Links, x: nat, z: nat, t1: Tree, t23: Tree, t4: Tree)
    requires IdOk(s, x) && IdOk(s, z) && Apart3(x, z, t1, t23, t4)
    requires Rep(s, t1, z) && Rep(s, t23, z) && Rep(s, t4, x)
    requires s[x].right == Root(t4) && s[z].left == Root(t1) && s[z].right == Root(t23)
    requires s[z].balance == Height(t23) - Height(t1) && -1 <= s[z].balance <= 0 && Height(t1) == Height(t4) + 1
    requires RightRotated(s, s', x, z)
    ensures Rep(s', Node(t1, z, Node(t23, x, t4)), s'[z].parent)
  {
    assert Rep(s', t1, z) && Rep(s', t23, x) && Rep(s', t4, x) by {
      var written := {x, z, Root(t23)} - {0};
      Written3(x, z, t1, t23, t4);
      RepFrame(s, s', written, t1, z);
      RepAdopted(s, s', written, t23, z, x);
      RepFrame(s, s', written, t4, x);
    }
    assert Rep(s', Node(t23, x, t4), z);
  }

  lemma {:induction false} RightLeftRotatedRep(s: Links, s': Links, x: nat, z: nat, y: nat, t1: Tree, t2: Tree,
      t3: Tree, t4: Tree)
    requires IdOk(s, x) && IdOk(s, y) && IdOk(s, z) && Apart4(x, y, z, t1, t2, t3, t4)
    requires Rep(s, t1, x) && Rep(s, t2, y) && Rep(s, t3, y) && Rep(s, t4, z)
    requires s[x].left == Root(t1) && s[z].right == Root(t4)
    requires s[y].left == Root(t2) && s[y].right == Root(t3) && s[y].balance == Height(t3) - Height(t2)
    requires Height(t4) == Height(t1) == Max(Height(t2), Height(t3)) && -1 <= s[y].balance <= 1
    requires RightLeftRotated(s, s', x, z, y)
    ensures Rep(s', Node(Node(t1, x, t2), y, Node(t3, z, t4)), s'[y].parent)
  {
    assert Rep(s', t1, x) && Rep(s', t2, x) && Rep(s', t3, z) && Rep(s', t4, z) by {
      var written := {x, y, z, Root(t2), Root(t3)} - {0};
      Written4(x, y, z, t1, t2, t3, t4);
      RepFrame(s, s', written, t1, x);
      RepAdopted(s, s', written, t2, y, x);
      RepAdopted(s, s', written, t3, y, z);
      RepFrame(s, s', written, t4, z);
    }
    assert Rep(s', Node(t1, x, t2), y);
    assert Rep(s', Node(t3, z, t4), y);
  }

  lemma {:induction false} LeftRightRotatedRep(s: Links, s': Links, x: nat, z: nat, y: nat, t1: Tree, t2: Tree,
      t3: Tree, t4: Tree)
    requires IdOk(s, x) && IdOk(s, y) && IdOk(s, z) && Apart4(x, y, z, t1, t2, t3, t4)
    requires Rep(s, t1, z) && Rep(s, t2, y) && Rep(s, t3, y) && Rep(s, t4, x)
    requires s[z].left == Root(t1) && s[x].right == Root(t4)
    requires s[y].left == Root(t2) && s[y].right == Root(t3) && s[y].balance == Height(t3) - Height(t2)
    requires Height(t4) == Height(t1) == Max(Height(t2), Height(t3)) && -1 <= s[y].balance <= 1
    requires LeftRightRotated(s, s', x, z, y)
    ensures Rep(s', Node(Node(t1, z, t2), y, Node(t3, x, t4)), s'[y].parent)
  {
    assert Rep(s', t1, z) && Rep(s', t2, z) && Rep(s', t3, x) && Rep(s', t4, x) by {
      var written := {x, y, z, Root(t2), Root(t3)} - {0};
      Written4(x, y, z, t1, t2, t3, t4);
      RepFrame(s, s', written, t1, z);
      RepAdopted(s, s', written, t2, y, z);
      RepAdopted(s, s', written, t3, y, x);
      RepFrame(s, s', written, t4, x);
    }
    assert Rep(s', Node(t1, z, t2), y);
    assert Rep(s', Node(t3, x, t4), y);
  }
}
