/**
 Choosing and applying the rotation for a node X whose child Z is two levels taller than the
 other child: the common core of the insert and the delete retrace of userspace/lib/avl.bpf.h.
 */
module AvlRebalance {
  import opened Common
  import opened AvlShape
  import opened AvlRep

  import opened AvlRotate

  ghost function Lean(t: Tree): int
    requires t.Node?
  {
    Height(t.right) - Height(t.left)
  }

  /** X is stored with child `tall`, on the left iff `onLeft`, and child `low`, two levels lower. */
  ghost predicate Tall(s: Links, onLeft: bool, x: nat, z: nat, low: Tree, tall: Tree) {
    && IdOk(s, x) && tall.Node? && tall.id == z && Height(tall) == Height(low) + 2
    && s[x].left == Root(if onLeft then tall else low)
    && s[x].right == Root(if onLeft then low else tall)
    && Rep(s, tall, x) && Rep(s, low, x)
    && Distinct(Inorder(Branch(onLeft, x, low, tall)))
  }

  /** `r` is what a rotation of X with its children `low` and `tall` (on the left iff `onLeft`) may leave. */
  ghost predicate Rebalanced(r: Tree, onLeft: bool, x: nat, low: Tree, tall: Tree) {
    && r.Node? && tall.Node?
    && Inorder(r) == Inorder(Branch(onLeft, x, low, tall))
    && Ids(r) == Ids(low) + {x} + Ids(tall)
    && Height(r) == Height(tall) + (if Lean(tall) == 0 then 1 else 0)
  }

  lemma {:induction false} Regroup3(a: seq<nat>, x: nat, b: seq<nat>, y: nat, c: seq<nat>)
    ensures a + [x] + (b + [y] + c) == a + [x] + b + [y] + c
  {
  }

  lemma {:induction false} Regroup4(a: seq<nat>, x: nat, b: seq<nat>, y: nat, c: seq<nat>, z: nat, d: seq<nat>)
    ensures a + [x] + b + [y] + (c + [z] + d) == a + [x] + (b + [y] + c) + [z] + d
    ensures a + [x] + b + [y] + (c + [z] + d) == a + [x] + ((b + [y] + c) + [z] + d)
  {
    assert a + [x] + b + [y] + (c + [z] + d) == a + [x] + b + [y] + c + [z] + d;
    assert a + [x] + (b + [y] + c) == a + [x] + b + [y] + c;
    assert a + [x] + ((b + [y] + c) + [z] + d) == a + [x] + (b + [y] + c) + [z] + d;
  }

  // ----- the taller child is on the left -----

  lemma {:induction false} SingleRight(s: Links, x: nat, low: Tree, tall: Tree)
    requires tall.Node? && Tall(s, true, x, tall.id, low, tall) && Lean(tall) <= 0
    ensures Apart3(x, tall.id, tall.left, tall.right, low)
    ensures IdOk(s, tall.id) && s[tall.id].right < |s| && s[tall.id].right != x && s[tall.id].right != tall.id
    ensures Rebalanced(Node(tall.left, tall.id, Node(tall.right, x, low)), true, x, low, tall)
  {
    DistinctNode(tall, x, low);
    DistinctNode(tall.left, tall.id, tall.right);
    RootFacts(s, tall.right, tall.id);
    Regroup3(Inorder(tall.left), tall.id, Inorder(tall.right), x, Inorder(low));
  }

  lemma {:induction false} DoubleRight(s: Links, x: nat, low: Tree, tall: Tree)
    requires tall.Node? && Tall(s, true, x, tall.id, low, tall) && Lean(tall) > 0
    ensures tall.right.Node?
    ensures var yt := tall.right;
      && Apart4(x, yt.id, tall.id, tall.left, yt.left, yt.right, low)
      && Rebalanced(Node(Node(tall.left, tall.id, yt.left), yt.id, Node(yt.right, x, low)), true, x, low, tall)
  {
    var yt := tall.right;
    DistinctNode(tall, x, low);
    DistinctNode(tall.left, tall.id, tall.right);
    DistinctNode(yt.left, yt.id, yt.right);
    assert Rep(s, yt, tall.id);
    assert Inorder(yt) == Inorder(yt.left) + [yt.id] + Inorder(yt.right);
    Regroup4(Inorder(tall.left), tall.id, Inorder(yt.left), yt.id, Inorder(yt.right), x, Inorder(low));
  }

  method RebalanceLeft(links: array<Link>, x: nat, z: nat, ghost low: Tree, ghost tall: Tree)
    returns (str: nat, ghost r: Tree)
    requires Tall(links[..], true, x, z, low, tall)
    modifies links
    ensures Rebalanced(r, true, x, low, tall) && str == r.id && str < links.Length
    ensures Rep(links[..], r, links[str].parent)
    ensures OnlyAt(old(links[..]), links[..], Ids(low) + {x} + Ids(tall))
  {
    ghost var s := links[..];
    if links[z].balance <= 0 {
      SingleRight(s, x, low, tall);
      r := Node(tall.left, z, Node(tall.right, x, low));
      str := RotateRight(links, x, z);
      RightRotatedRep(s, links[..], x, z, tall.left, tall.right, low);
      assert z in Ids(tall);
    } else {
      DoubleRight(s, x, low, tall);
      ghost var yt := tall.right;
      assert Rep(s, yt, z);
      RootFacts(s, yt.left, yt.id);
      RootFacts(s, yt.right, yt.id);
      r := Node(Node(tall.left, z, yt.left), yt.id, Node(yt.right, x, low));
      str := RotateLeftRight(links, x, z);
      LeftRightRotatedRep(s, links[..], x, z, yt.id, tall.left, yt.left, yt.right, low);
    }
  }

  // ----- the taller child is on the right -----

  lemma {:induction false} SingleLeft(s: Links, x: nat, low: Tree, tall: Tree)
    requires tall.Node? && Tall(s, false, x, tall.id, low, tall) && Lean(tall) >= 0
    ensures Apart3(x, tall.id, low, tall.left, tall.right)
    ensures IdOk(s, tall.id) && s[tall.id].left < |s| && s[tall.id].left != x && s[tall.id].left != tall.id
    ensures Rebalanced(Node(Node(low, x, tall.left), tall.id, tall.right), false, x, low, tall)
  {
    DistinctNode(low, x, tall);
    DistinctNode(tall.left, tall.id, tall.right);
    RootFacts(s, tall.left, tall.id);
    Regroup3(Inorder(low), x, Inorder(tall.left), tall.id, Inorder(tall.right));
  }

  lemma {:induction false} DoubleLeft(s: Links, x: nat, low: Tree, tall: Tree)
    requires tall.Node? && Tall(s, false, x, tall.id, low, tall) && Lean(tall) < 0
    ensures tall.left.Node?
    ensures var yt := tall.left;
      && Apart4(x, yt.id, tall.id, low, yt.left, yt.right, tall.right)
      && Rebalanced(Node(Node(low, x, yt.left), yt.id, Node(yt.right, tall.id, tall.right)), false, x, low, tall)
  {
    var yt := tall.left;
    DistinctNode(low, x, tall);
    DistinctNode(tall.left, tall.id, tall.right);
    DistinctNode(yt.left, yt.id, yt.right);
    assert Rep(s, yt, tall.id);
    assert Inorder(yt) == Inorder(yt.left) + [yt.id] + Inorder(yt.right);
    Regroup4(Inorder(low), x, Inorder(yt.left), yt.id, Inorder(yt.right), tall.id, Inorder(tall.right));
  }

  method RebalanceRight(links: array<Link>, x: nat, z: nat, ghost low: Tree, ghost tall: Tree)
    returns (str: nat, ghost r: Tree)
    requires Tall(links[..], false, x, z, low, tall)
    modifies links
    ensures Rebalanced(r, false, x, low, tall) && str == r.id && str < links.Length
    ensures Rep(links[..], r, links[str].parent)
    ensures OnlyAt(old(links[..]), links[..], Ids(low) + {x} + Ids(tall))
  {
    ghost var s := links[..];
    if links[z].balance >= 0 {
      SingleLeft(s, x, low, tall);
      r := Node(Node(low, x, tall.left), z, tall.right);
      str := RotateLeft(links, x, z);
      LeftRotatedRep(s, links[..], x, z, low, tall.left, tall.right);
      assert z in Ids(tall);
    } else {
      DoubleLeft(s, x, low, tall);
      ghost var yt := tall.left;
      assert Rep(s, yt, z);
      RootFacts(s, yt.left, yt.id);
      RootFacts(s, yt.right, yt.id);
      r := Node(Node(low, x, yt.left), yt.id, Node(yt.right, z, tall.right));
      str := RotateRightLeft(links, x, z);
      RightLeftRotatedRep(s, links[..], x, z, yt.id, low, yt.left, yt.right, tall.right);
    }
  }
}
