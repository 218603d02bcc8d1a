/**
 The tree itself: insertion, deletion and the removal of the least and the greatest node, in place over
 the arrays of links and keys, with the list of the nodes that did not fit (userspace/lib/avl.bpf.h).
 */
module AvlTree {
  import opened Common
  import opened AvlShape
  import opened AvlRep
  import opened AvlRotate
  import opened AvlRebalance
  import opened AvlRetrace

  import opened AvlOrder

  /** The level at which plain binary search tree insertion of `key` would put its node. */
  ghost function BstLevel(k: Infos, t: Tree, key: nat): nat {
    if t.Nil? then 1
    else 1 + BstLevel(k, if key < Key(k, t.id) then t.left else t.right, key)
  }

  /**
   The first of `orphans` re-enters tree `mid`, giving `t`, exactly when it fits within `h` levels; else
   nothing changes.
   */
  ghost predicate Refilled(k: Infos, h: nat, mid: Tree, orphans: seq<nat>, t: Tree, orphans': seq<nat>) {
    if orphans != [] && BstLevel(k, mid, Key(k, orphans[0])) <= h
    then Placed(k, Inorder(mid), Inorder(t), orphans[0]) && orphans' == orphans[1..]
    else t == mid && orphans' == orphans
  }

  lemma {:induction false} BstLevelSameKeys(k: Infos, k': Infos, t: Tree, key: nat)
    requires SameKeys(k, k')
    ensures BstLevel(k', t, key) == BstLevel(k, t, key)
  {
    if t.Node? {
      SameKeysKey(k, k', t.id);
      BstLevelSameKeys(k, k', if key < Key(k, t.id) then t.left else t.right, key);
    }
  }

  /**
   struct avl_tree together with the array that holds its nodes. The record of node i is
   `links[i]` and `info[i]`. Several trees may share the arrays.
   */
  class Avl {
    /** MAX_AVL_HEIGHT. */
    const H: nat
    const links: array<Link>
    const info: array<Info>
    var root: nat
    var minId: nat
    var minKey: nat
    var maxId: nat
    var maxKey: nat
    var firstOrphan: nat

    /** The shape of the tree, and the orphans from first to last. */
    ghost var tree: Tree
    ghost var orphans: seq<nat>

    ghost predicate Valid()
      reads this, links, info
    {
      Loose() && (orphans != [] ==> tree.Node?)
    }

    /** As `Valid`, but the tree may be empty while there are orphans: the state in which a delete re-inserts one. */
    ghost predicate Loose()
      reads this, links, info
    {
      Core() && Cached(info[..], Inorder(tree), minId, minKey, maxId, maxKey)
    }

    /** Everything but the cache and the relation between tree and orphans. */
    ghost predicate Core()
      reads this, links, info
    {
      && 1 <= H && 1 <= links.Length == info.Length
      && Rep(links[..], tree, 0) && root == Root(tree) && Height(tree) <= H
      && Distinct(Inorder(tree) + orphans)
      && Sorted(info[..], Inorder(tree))
      && NoOrphan(info[..], Inorder(tree))
      && OrphanList(info[..], orphans, firstOrphan)
    }

    /** The nodes of the tree in order. */
    ghost function InTree(): seq<nat>
      reads this
    {
      Inorder(tree)
    }

    ghost function HeldSet(): set<nat>
      reads this
    {
      Ids(tree) + set i | i in orphans
    }

    /** Every node inserted and not yet deleted. */
    ghost function Held(): seq<nat>
      reads this
    {
      Inorder(tree) + orphans
    }

    constructor (h: nat, links: array<Link>, info: array<Info>)
      requires 1 <= h && 1 <= links.Length == info.Length
      ensures Valid() && this.H == h && this.links == links && this.info == info
      ensures InTree() == [] && orphans == []
    {
      this.H, this.links, this.info := h, links, info;
      root, minId, minKey, maxId, maxKey, firstOrphan := 0, 0, 0, 0, 0, 0;
      tree, orphans := Nil, [];
    }

    // ----- walks -----

    /** avl_min_node: the leftmost node below `x0`, with the path to it. */
    method MinNode(x0: nat, ghost t: Tree, ghost p: nat) returns (m: nat, ghost path: Ctx, ghost mt: Tree)
      requires Rep(links[..], t, p) && x0 == Root(t) && Height(t) <= H
      ensures m == First(Inorder(t))
      ensures t.Node? ==> mt.Node? && mt.id == m && mt.left.Nil? && Plug(path, mt) == t && Before(path) == []
    {
      path, mt := Top, t;
      var x := x0;
      var i := 0;
      while i < H
        invariant 0 <= i == Depth(path)
        invariant Plug(path, mt) == t && x == Root(mt) && Before(path) == []
        invariant Rep(links[..], mt, HoleParent(path, p))
        invariant t.Node? ==> mt.Node?
      {
        if x == 0 {
          return 0, path, mt;
        }
        PlugInorder(path, mt);
        if links[x].left == 0 {
          return x, path, mt;
        }
        assert Rep(links[..], mt.left, x);
        path, mt := In(true, mt.id, mt.right, path), mt.left;
        x := links[x].left;
        i := i + 1;
      }
      PlugFacts(path, mt);
      m := 0;
    }

    /** avl_max_node: the rightmost node below `x0`. */
    method MaxNode(x0: nat, ghost t: Tree, ghost p: nat) returns (m: nat)
      requires Rep(links[..], t, p) && x0 == Root(t) && Height(t) <= H
      ensures m == Last(Inorder(t))
    {
      ghost var path, mt := Top, t;
      var x := x0;
      var i := 0;
      while i < H
        invariant 0 <= i == Depth(path)
        invariant Plug(path, mt) == t && x == Root(mt) && After(path) == []
        invariant Rep(links[..], mt, HoleParent(path, p))
        invariant t.Node? ==> mt.Node?
      {
        if x == 0 {
          return 0;
        }
        PlugInorder(path, mt);
        if links[x].right == 0 {
          return x;
        }
        assert Rep(links[..], mt.right, x);
        path, mt := In(false, mt.id, mt.left, path), mt.right;
        x := links[x].right;
        i := i + 1;
      }
      PlugFacts(path, mt);
      m := 0;
    }

    /** A step of the climbing loops: the node above the hole, and on which side it has the hole. */
    lemma {:induction false} ParentOf(c: Ctx, t: Tree)
      requires Rep(links[..], Plug(c, t), 0) && t.Node? && Distinct(Inorder(Plug(c, t)))
      ensures IdOk(links[..], t.id) && links[t.id].parent == HoleParent(c, 0)
      ensures c.In? ==> IdOk(links[..], c.id) && (c.onLeft <==> links[c.id].left == t.id)
    {
      Split(links[..], c, t, 0);
      PlugInorder(c, t);
      ReadX(links[..], c, t, Height(t));
    }

    /** __avl_next_node: the node after `x`, or 0. */
    method NextNode(x: nat, ghost c: Ctx, ghost t: Tree) returns (m: nat)
      requires Rep(links[..], Plug(c, t), 0) && t.Node? && t.id == x
      requires Distinct(Inorder(Plug(c, t))) && Height(Plug(c, t)) <= H
      ensures m == First(Inorder(t.right) + After(c))
    {
      ParentOf(c, t);
      Split(links[..], c, t, 0);
      PlugFacts(c, t);
      if links[x].right != 0 {
        ghost var path, mt;
        m, path, mt := MinNode(links[x].right, t.right, x);
        return;
      }
      m := 0;
      ghost var k, kt := c, t;
      var y := x;
      var i := 0;
      while i < H
        invariant 0 <= i && i + Depth(k) == Depth(c)
        invariant kt.Node? && kt.id == y && Plug(k, kt) == Plug(c, t) && After(k) == After(c)
      {
        ParentOf(k, kt);
        var parent := links[y].parent;
        if parent == 0 {
          return 0;
        }
        if links[parent].left == y {
          return parent;
        }
        y, kt, k := parent, Branch(k.onLeft, k.id, k.sib, kt), k.up;
        i := i + 1;
      }
      PlugFacts(k, kt);
      assert false;
    }

    /** __avl_prev_node: the node before `x`, or 0. */
    method PrevNode(x: nat, ghost c: Ctx, ghost t: Tree) returns (m: nat)
      requires Rep(links[..], Plug(c, t), 0) && t.Node? && t.id == x
      requires Distinct(Inorder(Plug(c, t))) && Height(Plug(c, t)) <= H
      ensures m == Last(Before(c) + Inorder(t.left))
    {
      ParentOf(c, t);
      Split(links[..], c, t, 0);
      PlugFacts(c, t);
      if links[x].left != 0 {
        m := MaxNode(links[x].left, t.left, x);
        return;
      }
      m := 0;
      ghost var k, kt := c, t;
      var y := x;
      var i := 0;
      while i < H
        invariant 0 <= i && i + Depth(k) == Depth(c)
        invariant kt.Node? && kt.id == y && Plug(k, kt) == Plug(c, t) && Before(k) == Before(c)
      {
        ParentOf(k, kt);
        var parent := links[y].parent;
        if parent == 0 {
          return 0;
        }
        RightSide(k, kt);
        if links[parent].right == y {
          return parent;
        }
        y, kt, k := parent, Branch(k.onLeft, k.id, k.sib, kt), k.up;
        i := i + 1;
      }
      PlugFacts(k, kt);
      assert false;
    }

    lemma {:induction false} RightSide(c: Ctx, t: Tree)
      requires Rep(links[..], Plug(c, t), 0) && t.Node? && Distinct(Inorder(Plug(c, t))) && c.In?
      ensures IdOk(links[..], c.id) && (!c.onLeft <==> links[c.id].right == t.id)
    {
      Split(links[..], c, t, 0);
      PlugInorder(c, t);
      AtX(links[..], c, t, Height(t));
      RootFacts(links[..], c.sib, c.id);
      DistinctStep(c, t);
    }

    /** avl_tree_lookup: a node of the tree with this key, or 0 when there is none. Orphans are not seen. */
    method Lookup(key: nat) returns (m: nat)
      requires Valid()
      ensures m != 0 ==> m in InTree() && m < info.Length && info[m].key == key
      ensures m == 0 ==> NoneHas(info[..], InTree(), key)
    {
      ghost var c, t := Top, tree;
      var x := root;
      var i := 0;
      while i < H
        invariant 0 <= i == Depth(c)
        invariant Plug(c, t) == tree && x == Root(t) && Rep(links[..], t, HoleParent(c, 0))
        invariant NoneHas(info[..], Before(c), key) && NoneHas(info[..], After(c), key)
      {
        if x == 0 {
          PlugInorder(c, t);
          return 0;
        }
        if info[x].key == key {
          FoundInTree(c, t);
          return x;
        }
        DescendMiss(info[..], c, t, key);
        if key < info[x].key {
          x := links[x].left;
          c, t := In(true, t.id, t.right, c), t.left;
        } else {
          x := links[x].right;
          c, t := In(false, t.id, t.left, c), t.right;
        }
        i := i + 1;
      }
      PlugFacts(c, t);
      PlugInorder(c, t);
      m := 0;
    }

    static lemma {:induction false} FoundInTree(c: Ctx, t: Tree)
      requires t.Node?
      ensures t.id in Inorder(Plug(c, t))
    {
      PlugInorder(c, t);
    }

    static lemma {:induction false} DescendMiss(k: Infos, c: Ctx, t: Tree, key: nat)
      requires t.Node? && Sorted(k, Inorder(Plug(c, t))) && Key(k, t.id) != key
      requires NoneHas(k, Before(c), key) && NoneHas(k, After(c), key)
      ensures key < Key(k, t.id) ==> NoneHas(k, [t.id] + Inorder(t.right) + After(c), key)
      ensures key > Key(k, t.id) ==> NoneHas(k, Before(c) + Inorder(t.left) + [t.id], key)
    {
      DescendKeys(k, c, t);
    }

    /** Where a search at node `t` turns, everything on the other side has a smaller or larger key. */
    static lemma {:induction false} DescendKeys(k: Infos, c: Ctx, t: Tree)
      requires t.Node? && Sorted(k, Inorder(Plug(c, t)))
      ensures forall j :: j in Inorder(t.left) ==> Key(k, j) <= Key(k, t.id)
      ensures forall j :: j in Inorder(t.right) ==> Key(k, t.id) <= Key(k, j)
    {
      PlugInorder(c, t);
      SortedParts(k, Before(c) + Inorder(t), After(c));
      SortedParts(k, Before(c), Inorder(t));
      SortedParts(k, Inorder(t.left) + [t.id], Inorder(t.right));
      SortedParts(k, Inorder(t.left), [t.id]);
      assert (Inorder(t.left) + [t.id])[|Inorder(t.left)|] == t.id;
      assert [t.id][0] == t.id;
    }

    // ----- the orphan list -----

    /** __insert_orphan */
    method PushOrphan(node: nat)
      requires OrphanList(info[..], orphans, firstOrphan) && Distinct([node] + orphans)
      requires 1 <= node < info.Length && info[node].isOrphan
      modifies info, `firstOrphan, `orphans
      ensures orphans == [node] + old(orphans) && OrphanList(info[..], orphans, firstOrphan)
      ensures OrphansRelinked(old(info[..]), info[..], {node} + set i | i in old(orphans))
    {
      ghost var k := info[..];
      assert orphans != [] ==> OrphanAt(k, orphans, 0) && ([node] + orphans)[0] != ([node] + orphans)[1] == orphans[0];
      var next := firstOrphan;
      firstOrphan := node;
      if next != 0 {
        info[next] := info[next].(prevOrphan := node);
      }
      info[node] := info[node].(nextOrphan := next, prevOrphan := 0);
      OrphanPushed(k, info[..], orphans, node, next);
      orphans := [node] + orphans;
    }

    /** __remove_orphan */
    method RemoveOrphan(node: nat, ghost j: nat)
      requires OrphanList(info[..], orphans, firstOrphan) && Distinct(orphans)
      requires j < |orphans| && orphans[j] == node
      modifies info, `firstOrphan, `orphans
      ensures orphans == Without(old(orphans), j) && OrphanList(info[..], orphans, firstOrphan)
      ensures OrphansRelinked(old(info[..]), info[..], set i | i in old(orphans))
    {
      ghost var k := info[..];
      assert OrphanAt(k, orphans, j);
      assert j > 0 ==> OrphanAt(k, orphans, j - 1);
      assert j < |orphans| - 1 ==> OrphanAt(k, orphans, j + 1);
      var prev, next := info[node].prevOrphan, info[node].nextOrphan;
      if firstOrphan == node {
        firstOrphan := next;
      }
      if prev != 0 {
        info[prev] := info[prev].(nextOrphan := next);
      }
      if next != 0 {
        info[next] := info[next].(prevOrphan := prev);
      }
      info[node] := info[node].(nextOrphan := 0, prevOrphan := 0);
      OrphanRemoved(k, info[..], orphans, j, old(firstOrphan));
      orphans := Without(orphans, j);
    }

    /** __pop_first_orphan */
    method PopFirstOrphan() returns (o: nat)
      requires OrphanList(info[..], orphans, firstOrphan) && Distinct(orphans)
      modifies info, `firstOrphan, `orphans
      ensures o == First(old(orphans)) && OrphanList(info[..], orphans, firstOrphan)
      ensures orphans == (if o == 0 then [] else old(orphans)[1..]) && (o == 0 ==> info[..] == old(info[..]))
      ensures OrphansRelinked(old(info[..]), info[..], set i | i in old(orphans))
    {
      ghost var k := info[..];
      o := firstOrphan;
      assert orphans != [] ==> OrphanAt(k, orphans, 0);
      assert |orphans| > 1 ==> OrphanAt(k, orphans, 1);
      if o == 0 {
        return;
      }
      var next := info[o].nextOrphan;
      firstOrphan := next;
      if next != 0 {
        info[next] := info[next].(prevOrphan := 0);
      }
      info[o] := info[o].(nextOrphan := 0, prevOrphan := 0);
      OrphanRemoved(k, info[..], orphans, 0, o);
      assert Without(orphans, 0) == orphans[1..];
      orphans := orphans[1..];
    }

    // ----- insert -----

    /**
     The descent of avl_tree_insert: finds the future parent `x` of a node with this key. It
     stops one level short of H, so `next` is still set when the free slot lies too deep.
     */
    method FindSlot(key: nat) returns (x: nat, next: nat, left: bool, ghost c: Ctx, ghost t: Tree)
      requires Loose()
      ensures Plug(c, t) == tree && next == Root(t) && x == HoleParent(c, 0) && (c.In? ==> left == c.onLeft)
      ensures AllAtMost(info[..], Before(c), key) && AllAbove(info[..], After(c), key)
      ensures next == 0 <==> BstLevel(info[..], tree, key) <= H
      ensures Depth(c) + 1 <= H
    {
      x, next, left := 0, root, false;
      c, t := Top, tree;
      var i := 0;
      while i < H - 1
        invariant 0 <= i == Depth(c) <= H - 1
        invariant Plug(c, t) == tree && next == Root(t) && x == HoleParent(c, 0) && (c.In? ==> left == c.onLeft)
        invariant Rep(links[..], t, HoleParent(c, 0))
        invariant AllAtMost(info[..], Before(c), key) && AllAbove(info[..], After(c), key)
        invariant BstLevel(info[..], tree, key) == i + BstLevel(info[..], t, key)
      {
        if next == 0 {
          break;
        }
        x := next;
        DescendBounds(info[..], c, t, key);
        if key < info[x].key {
          next, left := links[x].left, true;
          c, t := In(true, t.id, t.right, c), t.left;
        } else {
          next, left := links[x].right, false;
          c, t := In(false, t.id, t.left, c), t.right;
        }
        i := i + 1;
      }
    }

    static lemma {:induction false} DescendBounds(k: Infos, c: Ctx, t: Tree, key: nat)
      requires t.Node? && Sorted(k, Inorder(Plug(c, t)))
      requires AllAtMost(k, Before(c), key) && AllAbove(k, After(c), key)
      ensures key < Key(k, t.id) ==> AllAbove(k, [t.id] + Inorder(t.right) + After(c), key)
      ensures key >= Key(k, t.id) ==> AllAtMost(k, Before(c) + Inorder(t.left) + [t.id], key)
    {
      DescendKeys(k, c, t);
    }

    /** Child `x` of `p` gives way to `withId`. */
    method ReplaceChild(p: nat, x: nat, withId: nat)
      requires p < links.Length
      modifies links
      ensures links[..] == old(links[..])[p := if old(links[p]).left == x
                                              then old(links[p]).(left := withId) else old(links[p]).(right := withId)]
    {
      if links[p].left == x {
        links[p] := links[p].(left := withId);
      } else {
        links[p] := links[p].(right := withId);
      }
    }

    /**
     Puts `withId` (possibly 0) where `x` hangs below parent `p`. This is __avl_replace_node,
     and also how both retraces reconnect the root of a rotated subtree.
     */
    method Hang(x: nat, p: nat, withId: nat, ghost c: Ctx, ghost h: nat)
      requires RepCtx(links[..], c, x, h, 0) && root == RootOf(c, x)
      requires x != 0 && x !in CtxIds(c) && p == HoleParent(c, 0)
      requires withId < links.Length && (withId == 0 || withId !in CtxIds(c)) && Distinct(Before(c) + After(c))
      modifies links, `root
      ensures RepCtx(links[..], c, withId, h, 0) && root == RootOf(c, withId)
      ensures Reparented(old(links[..]), links[..], withId, p)
      ensures OnlyAt(old(links[..]), links[..], {withId, p} - {0})
    {
      ghost var s := links[..];
      if c.In? { DistinctCtx(c); RootFacts(s, c.sib, c.id); }
      if p != 0 {
        ReplaceChild(p, x, withId);
      } else {
        root := withId;
      }
      if withId != 0 {
        links[withId] := links[withId].(parent := p);
      }
      if c.In? {
        Rehang(s, links[..], {withId, p} - {0}, c, x, withId, h, 0);
      }
    }

    /** Rotates X with its taller child Z and reconnects the result: the rotation step of both retraces. */
    method RotateStep(x: nat, z: nat, onLeft: bool, ghost low: Tree, ghost tall: Tree, ghost c: Ctx, ghost h: nat)
      returns (str: nat, ghost r: Tree)
      requires Tall(links[..], onLeft, x, z, low, tall)
      requires RepCtx(links[..], c, x, h, 0) && root == RootOf(c, x) && links[x].parent == HoleParent(c, 0)
      requires Distinct(Order(c, Branch(onLeft, x, low, tall)))
      modifies links, `root
      ensures Rebalanced(r, onLeft, x, low, tall) && str == r.id && root == RootOf(c, str)
      ensures Climb(links[..], c, r, h)
      ensures OnlyAt(old(links[..]), links[..], CtxIds(c) + Ids(low) + {x} + Ids(tall))
    {
      ghost var s := links[..];
      ghost var b := Branch(onLeft, x, low, tall);
      DistinctHole(c, b);
      var p := links[x].parent;
      if onLeft {
        str, r := RebalanceLeft(links, x, z, low, tall);
      } else {
        str, r := RebalanceRight(links, x, z, low, tall);
      }
      ghost var s1 := links[..];
      RepCtxFrame(s, s1, Ids(b), c, x, h, 0);
      assert str in Ids(r);
      DistinctAround(c, b);
      Hang(x, p, str, c, h);
      assert p != 0 ==> p in CtxIds(c);
      RepAdopted(s1, links[..], {str, p} - {0}, r, s1[str].parent, p);
      OnlyAtTwice(s, s1, links[..], Ids(b), {str, p} - {0}, CtxIds(c) + Ids(low) + {x} + Ids(tall));
    }

    /** Z grew on the heavy side of X: rotate Z up. This always absorbs the growth. */
    method RotateAfterGrowth(x: nat, z: nat, left: bool, ghost s0: Links, ghost c: Ctx, ghost t: Tree,
        ghost order: seq<nat>, ghost ids: set<nat>)
      returns (ghost t': Tree)
      requires Growing(s0, links[..], c, t, H, order, ids) && c.In?
      requires x == c.id && x < links.Length && z == t.id && left == c.onLeft && root == RootOf(c, z)
      requires links[x].balance != 0 && (left <==> links[x].balance < 0)
      modifies links, `root
      ensures Finished(s0, links[..], t', H, order, ids) && root == Root(t')
    {
      ghost var s := links[..];
      AtX(s, c, t, Height(t) - 1);
      GrownTall(s, c, t);
      OrderUp(c, t);
      var str, r := RotateStep(x, z, left, c.sib, t, c.up, Height(t));
      t' := GrowthRotated(s0, s, links[..], c, t, r, H, order, ids);
    }

    /**
     Walks up from the new node until some X absorbs the height increase of its child Z. The
     loop is cut off after H rounds; it always returns from inside.
     */
    method RetraceInsert(x0: nat, z0: nat, ghost c0: Ctx, ghost t0: Tree) returns (ghost t': Tree)
      requires t0.Node? && Height(t0) == 1 && z0 == Root(t0)
      requires Climb(links[..], c0, t0, 0) && x0 == HoleParent(c0, 0) && root == RootOf(c0, z0)
      requires Depth(c0) + 1 <= H && HeightWith(c0, 0) <= H && Distinct(Order(c0, t0))
      modifies links, `root
      ensures Finished(old(links[..]), links[..], t', H, Order(c0, t0), CtxIds(c0) + Ids(t0)) && root == Root(t')
    {
      ghost var s0, order, ids := links[..], Order(c0, t0), CtxIds(c0) + Ids(t0);
      ghost var c, t := c0, t0;
      t' := t0;
      var x, z := x0, z0;
      var i := 0;
      while i < H
        invariant 0 <= i && i + Depth(c) + 1 <= H
        invariant Growing(s0, links[..], c, t, H, order, ids)
        invariant z == t.id && x == HoleParent(c, 0) && root == RootOf(c, z)
      {
        ghost var s := links[..];
        ReadX(s, c, t, Height(t) - 1);
        if x == 0 {
          GrowthToTop(s0, s, c, t, H, order, ids);
          t' := t;
          return;
        }
        var left := links[x].left == z;
        if links[x].balance == 0 {
          links[x] := links[x].(balance := if left then -1 else 1);
          t := GrowthPassedUp(s0, s, links[..], c, t, H, order, ids);
          z := x;
          x := links[x].parent;
          c := c.up;
          i := i + 1;
          continue;
        }
        if (left && links[x].balance > 0) || (!left && links[x].balance < 0) {
          links[x] := links[x].(balance := 0);
          t' := GrowthAbsorbed(s0, s, links[..], c, t, H, order, ids);
          return;
        }
        t' := RotateAfterGrowth(x, z, left, s0, c, t, order, ids);
        return;
      }
      assert false;
    }

    /** X lost a level on its light side: rotate its other child up. The loss is absorbed iff that child was even. */
    method RotateAfterLoss(x: nat, fromLeft: bool, ghost s0: Links, ghost c: Ctx, ghost t: Tree,
        ghost order: seq<nat>, ghost ids: set<nat>)
      returns (str: nat, absorbed: bool, ghost r: Tree)
      requires Shrinking(s0, links[..], c, t, H, order, ids) && c.In?
      requires x == c.id && x < links.Length && fromLeft == c.onLeft && root == RootOf(c, Root(t))
      requires links[x].balance != 0 && (fromLeft <==> links[x].balance > 0)
      modifies links, `root
      ensures r.Node? && str == r.id
      ensures absorbed ==> Finished(s0, links[..], Plug(c.up, r), H, order, ids) && root == Root(Plug(c.up, r))
      ensures !absorbed ==> Shrinking(s0, links[..], c.up, r, H, order, ids) && root == RootOf(c.up, str)
    {
      ghost var s := links[..];
      AtX(s, c, t, Height(t) + 1);
      ShrunkLow(s, c, t);
      OrderUp(c, t);
      var z := if fromLeft then links[x].right else links[x].left;
      absorbed := links[z].balance == 0;
      str, r := RotateStep(x, z, !fromLeft, t, c.sib, c.up, Height(c.sib) + 1);
      LossRotated(s0, s, links[..], c, t, r, H, order, ids);
    }

    /**
     Walks up from X, one of whose subtrees lost a level, until the loss is absorbed. The loop
     is cut off after H rounds; it always returns from inside.
     */
    method RetraceDelete(x0: nat, fromLeft0: bool, ghost c0: Ctx, ghost t0: Tree) returns (ghost t': Tree)
      requires Climb(links[..], c0, t0, Height(t0) + 1)
      requires x0 == HoleParent(c0, 0) && (c0.In? ==> fromLeft0 == c0.onLeft) && root == RootOf(c0, Root(t0))
      requires Depth(c0) + 1 <= H && HeightWith(c0, Height(t0) + 1) <= H && Distinct(Order(c0, t0))
      modifies links, `root
      ensures Finished(old(links[..]), links[..], t', H, Order(c0, t0), CtxIds(c0) + Ids(t0)) && root == Root(t')
    {
      ghost var s0, order, ids := links[..], Order(c0, t0), CtxIds(c0) + Ids(t0);
      ghost var c, t := c0, t0;
      t' := t0;
      var x, fromLeft := x0, fromLeft0;
      var i := 0;
      while i < H
        invariant 0 <= i && i + Depth(c) + 1 <= H
        invariant Shrinking(s0, links[..], c, t, H, order, ids)
        invariant x == HoleParent(c, 0) && (c.In? ==> fromLeft == c.onLeft) && root == RootOf(c, Root(t))
      {
        ghost var s := links[..];
        ReadX(s, c, t, Height(t) + 1);
        if x == 0 {
          LossToTop(s0, s, c, t, H, order, ids);
          t' := t;
          return;
        }
        if links[x].balance == 0 {
          links[x] := links[x].(balance := if fromLeft then 1 else -1);
          t' := LossAbsorbed(s0, s, links[..], c, t, H, order, ids);
          return;
        }
        var p := links[x].parent;
        if (fromLeft && links[x].balance < 0) || (!fromLeft && links[x].balance > 0) {
          links[x] := links[x].(balance := 0);
          t := LossPassedUp(s0, s, links[..], c, t, H, order, ids);
          c := c.up;
          ReadX(links[..], c, t, Height(t) + 1);
          if p == 0 {
            LossToTop(s0, links[..], c, t, H, order, ids);
            t' := t;
            return;
          }
          fromLeft := links[p].left == x;
          x := p;
          i := i + 1;
          continue;
        }
        var str, absorbed, r := RotateAfterLoss(x, fromLeft, s0, c, t, order, ids);
        t, c := r, c.up;
        if absorbed {
          t' := Plug(c, t);
          return;
        }
        ReadX(links[..], c, t, Height(t) + 1);
        if p == 0 {
          LossToTop(s0, links[..], c, t, H, order, ids);
          t' := t;
          return;
        }
        fromLeft := links[p].left == str;
        x := p;
        i := i + 1;
      }
      assert false;
    }

    static lemma {:induction false} LeafFacts(node: nat)
      ensures var leaf := Node(Nil, node, Nil); Inorder(leaf) == [node] && Ids(leaf) == {node} && Height(leaf) == 1
    {
      assert Height(Nil) == 0 && Ids(Nil) == {} && Inorder(Nil) == [];
    }

    /** Links the new leaf below its parent `x` and rebalances. */
    method LinkLeaf(node: nat, x: nat, left: bool, ghost c: Ctx) returns (ghost t': Tree)
      requires Rep(links[..], Plug(c, Nil), 0) && root == Root(Plug(c, Nil)) && Height(Plug(c, Nil)) <= H
      requires x == HoleParent(c, 0) && (c.In? ==> left == c.onLeft) && Depth(c) + 1 <= H
      requires 1 <= node < links.Length && Distinct(Before(c) + [node] + After(c))
      requires links[node].left == links[node].right == 0 && links[node].balance == 0
      modifies links, `root
      ensures Finished(old(links[..]), links[..], t', H, Before(c) + [node] + After(c), CtxIds(c) + {node})
      ensures root == Root(t')
    {
      ghost var s := links[..];
      ghost var leaf := Node(Nil, node, Nil);
      LeafFacts(node);
      DistinctHole(c, leaf);
      Split(s, c, Nil, 0);
      PlugFacts(c, Nil);
      links[node] := links[node].(parent := x);
      if x == 0 {
        root := node;
        t' := leaf;
        assert [] + [node] + [] == [node];
        return;
      }
      DistinctStep(c, leaf);
      if left {
        links[x] := links[x].(left := node);
      } else {
        links[x] := links[x].(right := node);
      }
      Rehang(s, links[..], {node, x}, c, 0, node, 0, 0);
      ghost var s1 := links[..];
      t' := RetraceInsert(x, node, c, leaf);
      OnlyAtTwice(s, s1, links[..], {node, x}, CtxIds(c) + {node}, CtxIds(c) + {node});
    }

    /** What a caller does before an insert: it gives a node that is not held its key. */
    method SetKey(node: nat, key: nat)
      requires Valid() && 1 <= node < info.Length && node !in Held()
      modifies info
      ensures Valid() && info[node] == old(info[node]).(key := key) && InfoOnlyAt(old(info[..]), info[..], {node})
    {
      info[node] := info[node].(key := key);
      OrderFrame(old(info[..]), info[..], Inorder(tree), minId, minKey, maxId, maxKey);
      OrphanListFrame(old(info[..]), info[..], orphans, firstOrphan);
    }

    /** The start of avl_tree_insert: the record of a node that is not held is cleared. */
    method ResetNode(node: nat)
      requires Loose() && 1 <= node < links.Length && node !in Held()
      modifies links, info
      ensures Loose() && SameKeys(old(info[..]), info[..])
      ensures links[node] == old(links[node]).(left := 0, right := 0, balance := 0)
      ensures info[node] == old(info[node]).(isOrphan := false)
      ensures OnlyAt(old(links[..]), links[..], {node}) && InfoOnlyAt(old(info[..]), info[..], {node})
    {
      ghost var s, k := links[..], info[..];
      links[node] := links[node].(left := 0, right := 0, balance := 0);
      info[node] := info[node].(isOrphan := false);
      InorderIds(tree);
      RepFrame(s, links[..], {node}, tree, 0);
      SortedSameKeys(k, info[..], Inorder(tree));
      CachedSameKeys(k, info[..], Inorder(tree), minId, minKey, maxId, maxKey);
      OrphanListFrame(k, info[..], orphans, firstOrphan);
    }

    /** The node goes into the free slot found below `x`. */
    method PlaceInTree(node: nat, x: nat, left: bool, ghost c: Ctx)
      requires Core() && 1 <= node < links.Length && node !in Held() && !info[node].isOrphan
      requires links[node].left == links[node].right == 0 && links[node].balance == 0
      requires tree == Plug(c, Nil) && x == HoleParent(c, 0) && (c.In? ==> left == c.onLeft) && Depth(c) + 1 <= H
      requires AllAtMost(info[..], Before(c), info[node].key) && AllAbove(info[..], After(c), info[node].key)
      modifies links, `root, `tree
      ensures Core() && tree.Node? && Placed(info[..], old(InTree()), InTree(), node)
      ensures old(InTree()) == Before(c) + After(c) && (x == 0 <==> c.Top?)
      ensures OnlyAt(old(links[..]), links[..], {node} + Ids(old(tree)))
    {
      SlotFacts(node, c);
      ghost var q' := Before(c) + [node] + After(c);
      tree := LinkLeaf(node, x, left, c);
      assert InTree() == q';
    }

    lemma {:induction false} SlotFacts(node: nat, c: Ctx)
      requires Core() && tree == Plug(c, Nil) && 1 <= node < links.Length && node !in Held() && !info[node].isOrphan
      requires AllAtMost(info[..], Before(c), info[node].key) && AllAbove(info[..], After(c), info[node].key)
      ensures InTree() == Before(c) + After(c) && Ids(tree) == CtxIds(c) && (HoleParent(c, 0) == 0 <==> c.Top?)
      ensures var q' := Before(c) + [node] + After(c);
        Distinct(q' + orphans) && Distinct(q') && Sorted(info[..], q') && Placed(info[..], InTree(), q', node) &&
          NoOrphan(info[..], q') && q' != []
    {
      PlugInorder(c, Nil);
      PlugIds(c, Nil);
      Split(links[..], c, Nil, 0);
      assert Before(c) + [] + After(c) == Before(c) + After(c);
      NoOrphanParts(info[..], Before(c), node, After(c));
      PlacedFacts(info[..], Before(c), node, After(c), orphans);
    }

    static lemma {:induction false} PlacedFacts(k: Infos, a: seq<nat>, node: nat, b: seq<nat>, o: seq<nat>)
      requires Distinct(a + b + o) && node !in a + b + o && Sorted(k, a + b)
      requires AllAtMost(k, a, Key(k, node)) && AllAbove(k, b, Key(k, node))
      ensures var q' := a + [node] + b;
        Distinct(q' + o) && Distinct(q') && Sorted(k, q') && Placed(k, a + b, q', node) && q' != []
    {
      assert PlacedBetween(k, a + b, a + [node] + b, node, a, b);
      PlacedDistinct(a, node, b, o);
      SortedPlaced(k, a + b, a + [node] + b, node);
    }

    /** The node goes into the tree, and the cache follows. */
    method InsertInTree(node: nat, x: nat, left: bool, ghost c: Ctx)
      requires Loose() && 1 <= node < links.Length && node !in Held() && !info[node].isOrphan
      requires links[node].left == links[node].right == 0 && links[node].balance == 0
      requires tree == Plug(c, Nil) && x == HoleParent(c, 0) && (c.In? ==> left == c.onLeft) && Depth(c) + 1 <= H
      requires AllAtMost(info[..], Before(c), info[node].key) && AllAbove(info[..], After(c), info[node].key)
      modifies links, `root, `tree, `minId, `minKey, `maxId, `maxKey
      ensures Valid() && Placed(info[..], old(InTree()), InTree(), node)
      ensures OnlyAt(old(links[..]), links[..], {node} + Ids(old(tree)))
    {
      ghost var q := Inorder(tree);
      EndsNonzero();
      PlaceInTree(node, x, left, c);
      UpdateCache(node, x, q);
    }

    /** The cache update of an insert. */
    method UpdateCache(node: nat, x: nat, ghost q: seq<nat>)
      requires node < info.Length && Cached(info[..], q, minId, minKey, maxId, maxKey)
      requires Placed(info[..], q, InTree(), node)
      requires (q != [] ==> minId != 0 && maxId != 0) && (x == 0 ==> q == [])
      modifies `minId, `minKey, `maxId, `maxKey
      ensures Cached(info[..], InTree(), minId, minKey, maxId, maxKey)
    {
      CachedPlaced(info[..], q, InTree(), node, minId, minKey, maxId, maxKey);
      var key := info[node].key;
      if x == 0 {
        minId, minKey, maxId, maxKey := node, key, node, key;
      } else {
        if minId == 0 || key < minKey {
          minId, minKey := node, key;
        }
        if maxId == 0 || key >= maxKey {
          maxId, maxKey := node, key;
        }
      }
    }

    lemma {:induction false} EndsNonzero()
      requires Core()
      ensures Inorder(tree) != [] ==> First(Inorder(tree)) != 0 && Last(Inorder(tree)) != 0
    {
      RepIdsInRange(links[..], tree, 0);
      InorderIds(tree);
      assert Inorder(tree) != [] ==> First(Inorder(tree)) in Inorder(tree) && Last(Inorder(tree)) in Inorder(tree);
    }

    static lemma {:induction false} PlacedDistinct(a: seq<nat>, node: nat, b: seq<nat>, o: seq<nat>)
      requires Distinct(a + b + o) && node !in a + b + o
      ensures Distinct(a + [node] + b + o) && Distinct(a + [node] + b)
    {
      var q, q' := a + b + o, a + [node] + b + o;
      forall i, j | 0 <= i < j < |q'| ensures q'[i] != q'[j] {
        assert i != |a| ==> q'[i] == q[if i < |a| then i else i - 1];
        assert j != |a| ==> q'[j] == q[if j < |a| then j else j - 1];
      }
      DistinctParts(a + [node] + b, o);
    }

    /** The steps of avl_tree_insert. */
    method InsertSteps(node: nat)
      requires Loose() && 1 <= node < links.Length && node !in Held()
      modifies this, links, info
      ensures Valid() && SameKeys(old(info[..]), info[..])
      ensures info[node].isOrphan <==> BstLevel(old(info[..]), old(tree), old(info[node].key)) > H
      ensures info[node].isOrphan ==> tree == old(tree) && orphans == [node] + old(orphans)
      ensures !info[node].isOrphan ==> orphans == old(orphans) && Placed(info[..], old(InTree()), InTree(), node)
      ensures OnlyAt(old(links[..]), links[..], old(HeldSet()) + {node})
      ensures InfoOnlyAt(old(info[..]), info[..], old(HeldSet()) + {node})
    {
      ghost var s, k, held := links[..], info[..], HeldSet() + {node};
      ResetNode(node);
      ghost var s1, k1 := links[..], info[..];
      BstLevelSameKeys(k, k1, tree, info[node].key);
      var x, next, left, c, t := FindSlot(info[node].key);
      if next != 0 {
        OrphanIt(node);
        InfoOnlyAtTwice(k, k1, info[..], {node}, held, held);
      } else {
        assert t.Nil? by { Split(links[..], c, t, 0); RootFacts(links[..], t, HoleParent(c, 0)); }
        ghost var ids := {node} + Ids(tree);
        InsertInTree(node, x, left, c);
        OnlyAtTwice(s, s1, links[..], {node}, ids, held);
      }
    }

    /**
     avl_tree_insert. The node becomes an orphan exactly when plain binary search tree insertion
     would put it below level H; otherwise it lands right after the last node whose key is at
     most its own.
     */
    method Insert(node: nat)
      requires Loose() && 1 <= node < links.Length && node !in Held()
      modifies this, links, info
      ensures Valid() && SameKeys(old(info[..]), info[..])
      ensures info[node].isOrphan <==> BstLevel(old(info[..]), old(tree), old(info[node].key)) > H
      ensures info[node].isOrphan ==> tree == old(tree) && orphans == [node] + old(orphans)
      ensures !info[node].isOrphan ==> orphans == old(orphans) && Placed(info[..], old(InTree()), InTree(), node)
      ensures multiset(Held()) == old(multiset(Held())) + multiset{node}
      ensures OnlyAt(old(links[..]), links[..], old(HeldSet()) + {node})
      ensures InfoOnlyAt(old(info[..]), info[..], old(HeldSet()) + {node})
    {
      InsertSteps(node);
      InsertBag(old(InTree()), old(orphans), node);
    }

    lemma {:induction false} InsertBag(q: seq<nat>, o: seq<nat>, node: nat)
      requires (InTree() == q && orphans == [node] + o) || (Placed(info[..], q, InTree(), node) && orphans == o)
      ensures multiset(Held()) == multiset(q + o) + multiset{node}
    {
      if Placed(info[..], q, InTree(), node) && orphans == o {
        PlacedBag(info[..], q, InTree(), node);
      }
    }

    /** The node lies too deep for the tree: it joins the orphan list. */
    method OrphanIt(node: nat)
      requires Loose() && 1 <= node < links.Length && node !in Held() && tree.Node?
      modifies info, `firstOrphan, `orphans
      ensures Valid() && SameKeys(old(info[..]), info[..])
      ensures orphans == [node] + old(orphans) && info[node].isOrphan
      ensures InfoOnlyAt(old(info[..]), info[..], old(HeldSet()) + {node})
    {
      ghost var k := info[..];
      info[node] := info[node].(isOrphan := true);
      ghost var k1 := info[..];
      OrphanListFrame(k, k1, orphans, firstOrphan);
      DistinctFront(Inorder(tree), node, orphans);
      PushOrphan(node);
      SortedSameKeys(k, info[..], Inorder(tree));
      CachedSameKeys(k, info[..], Inorder(tree), minId, minKey, maxId, maxKey);
    }

    static lemma {:induction false} DistinctFront(a: seq<nat>, node: nat, o: seq<nat>)
      requires Distinct(a + o) && node !in a + o
      ensures Distinct(a + ([node] + o)) && Distinct([node] + o)
    {
      assert a + [node] + [] + o == a + ([node] + o);
      assert a + [] + o == a + o;
      PlacedDistinct(a, node, [], o);
      DistinctParts(a, [node] + o);
    }

    // ----- delete -----

    /** The node has at most one child, `child`, which takes its place. */
    method PullUp(node: nat, child: nat, ghost c: Ctx, ghost t: Tree, ghost ct: Tree)
      requires Rep(links[..], Plug(c, t), 0) && root == Root(Plug(c, t)) && Distinct(Order(c, t))
      requires t.Node? && t.id == node && child == Root(ct)
      requires (t.left.Nil? && ct == t.right) || (t.right.Nil? && ct == t.left)
      modifies links, `root
      ensures Climb(links[..], c, ct, Height(ct) + 1) && root == RootOf(c, child)
      ensures OnlyAt(old(links[..]), links[..], CtxIds(c) + Ids(t))
    {
      ghost var s := links[..];
      Split(s, c, t, 0);
      PlugFacts(c, t);
      DistinctHole(c, t);
      DistinctNode(t.left, t.id, t.right);
      DistinctAround(c, t);
      RootFacts(s, ct, node);
      var p := links[node].parent;
      Hang(node, p, child, c, Height(t));
      RepAdopted(s, links[..], {child, p} - {0}, ct, node, p);
    }

    /**
     The "deep next" case: takes `next` out of the right subtree of `node` and hangs what is left of it
     below `next`.
     */
    method TakeNext(node: nat, next: nat, ghost c: Ctx, ghost l: Tree, ghost path: Ctx, ghost nr: Tree, ghost h: nat)
      returns (x: nat, fromLeft: bool)
      requires SuccessorParts(c, l, node, path, next, nr) && path.In? && Before(path) == []
      requires IdOk(links[..], node) && IdOk(links[..], next)
      requires RepCtx(links[..], path, next, h, node) && Rep(links[..], nr, next)
      requires links[next].parent == path.id && links[next].right == Root(nr) && links[node].right == RootOf(path, next)
      modifies links
      ensures x == path.id && fromLeft && path.onLeft
      ensures RepCtx(links[..], path, Root(nr), h, next) && Rep(links[..], nr, path.id)
      ensures links[next] == old(links[next]).(right := RootOf(path, Root(nr)))
      ensures OnlyAt(old(links[..]), links[..], CtxIds(path) + Ids(nr) + {next})
    {
      ghost var s := links[..];
      DistinctCtx(path);
      RootFacts(s, nr, next);
      x := links[next].parent;
      fromLeft := links[x].left == next;
      var below := links[next].right;
      ReplaceChild(x, next, below);
      if below != 0 {
        links[below] := links[below].(parent := x);
      }
      ghost var s1 := links[..];
      Rehang(s, s1, {x, below} - {0}, path, next, below, h, node);
      RepAdopted(s, s1, {x, below} - {0}, nr, next, x);
      TakeNextEnd(node, next, x, c, l, path, nr, h);
    }

    method TakeNextEnd(node: nat, next: nat, ghost x: nat, ghost c: Ctx, ghost l: Tree, ghost path: Ctx,
        ghost nr: Tree, ghost h: nat)
      requires SuccessorParts(c, l, node, path, next, nr) && path.In?
      requires IdOk(links[..], node) && IdOk(links[..], next)
      requires RepCtx(links[..], path, Root(nr), h, node) && Rep(links[..], nr, x)
      requires links[node].right == RootOf(path, Root(nr))
      modifies links
      ensures RepCtx(links[..], path, Root(nr), h, next) && Rep(links[..], nr, x)
      ensures links[next] == old(links[next]).(right := RootOf(path, Root(nr)))
      ensures OnlyAt(old(links[..]), links[..], CtxIds(path) + {next})
    {
      ghost var s1 := links[..];
      var right := links[node].right;
      RootOfIn(path, Root(nr));
      links[next] := links[next].(right := right);
      ghost var s2 := links[..];
      RepCtxFrame(s1, s2, {next}, path, Root(nr), h, node);
      RepFrame(s1, s2, {next}, nr, x);
      CtxIdsInRange(s2, path, Root(nr), h, node);
      links[right] := links[right].(parent := next);
      RetopPath(s2, links[..], path, Root(nr), h, node, next);
      RepFrame(s2, links[..], {right}, nr, x);
    }

    /** Finds the successor of a node with two children, gives it the node's balance and takes it out of its place. */
    method LiftNext(node: nat, ghost c: Ctx, ghost t: Tree)
      returns (next: nat, x: nat, fromLeft: bool, ghost path: Ctx, ghost nr: Tree)
      requires Rep(links[..], Plug(c, t), 0) && Distinct(Order(c, t)) && Height(Plug(c, t)) <= H
      requires t.Node? && t.id == node && t.right.Node?
      modifies links
      ensures Lifted(links[..], c, t.left, node, path, next, nr, Height(t.right) - Height(t.left), Height(t))
      ensures t.right == Plug(path, Node(Nil, next, nr)) && Before(path) == []
      ensures x == HoleParent(path, next) && (path.In? ==> fromLeft == path.onLeft) && (path.Top? ==> !fromLeft)
      ensures OnlyAt(old(links[..]), links[..], Ids(t))
    {
      ghost var s := links[..];
      Split(s, c, t, 0);
      PlugFacts(c, t);
      ghost var mt;
      next, path, mt := MinNode(links[node].right, t.right, node);
      nr := mt.right;
      SuccessorApart(c, t.left, node, path, next, nr);
      PathFacts(s, node, path, mt);
      x, fromLeft := MoveOut(node, next, c, t.left, path, nr);
      LiftedFrame(s, links[..], c, t, path, next, nr);
    }

    /** `next` gets the balance of `node` and, unless it is its child, leaves its place below it. */
    method MoveOut(node: nat, next: nat, ghost c: Ctx, ghost l: Tree, ghost path: Ctx, ghost nr: Tree)
      returns (x: nat, fromLeft: bool)
      requires SuccessorParts(c, l, node, path, next, nr) && Before(path) == []
      requires IdOk(links[..], node) && IdOk(links[..], next)
      requires RepCtx(links[..], path, next, Height(nr) + 1, node) && Rep(links[..], nr, next)
      requires links[next].right == Root(nr) && links[next].parent == HoleParent(path, node)
      requires links[node].right == RootOf(path, next)
      modifies links
      ensures x == HoleParent(path, next) && (path.In? ==> fromLeft == path.onLeft) && (path.Top? ==> !fromLeft)
      ensures RepCtx(links[..], path, Root(nr), Height(nr) + 1, next) && Rep(links[..], nr, x)
      ensures links[next].right == RootOf(path, Root(nr)) && links[next].balance == old(links[node].balance)
      ensures OnlyAt(old(links[..]), links[..], CtxIds(path) + Ids(nr) + {next})
    {
      ghost var s := links[..];
      links[next] := links[next].(balance := links[node].balance);
      RepCtxFrame(s, links[..], {next}, path, next, Height(nr) + 1, node);
      RepFrame(s, links[..], {next}, nr, next);
      if links[next].parent != node {
        x, fromLeft := TakeNext(node, next, c, l, path, nr, Height(nr) + 1);
      } else {
        assert path.Top?;
        x, fromLeft := next, false;
      }
    }

    static lemma {:induction false} PathFacts(s: Links, node: nat, path: Ctx, mt: Tree)
      requires Rep(s, Plug(path, mt), node) && mt.Node? && mt.left.Nil? && node !in CtxIds(path)
      ensures RepCtx(s, path, mt.id, Height(mt.right) + 1, node) && Rep(s, mt.right, mt.id)
      ensures IdOk(s, mt.id) && s[mt.id].right == Root(mt.right) && s[mt.id].parent == HoleParent(path, node)
      ensures HoleParent(path, node) == node <==> path.Top?
      ensures Root(Plug(path, mt)) == RootOf(path, mt.id)
      ensures Ids(Plug(path, mt)) == CtxIds(path) + {mt.id} + Ids(mt.right)
    {
      Split(s, path, mt, node);
      PlugFacts(path, mt);
      PlugIds(path, mt);
    }

    /** `next`, already taken out, replaces `node` and adopts its left subtree. */
    method PlaceNext(node: nat, next: nat, ghost c: Ctx, ghost l: Tree, ghost path: Ctx, ghost nr: Tree,
        ghost bal: int, ghost h: nat)
      requires Lifted(links[..], c, l, node, path, next, nr, bal, h) && SuccessorParts(c, l, node, path, next, nr)
      requires l.Node?
      requires bal == HeightWith(path, Height(nr) + 1) - Height(l) && -1 <= bal <= 1
      requires h == 1 + Max(HeightWith(path, Height(nr) + 1), Height(l)) && root == RootOf(c, node)
      modifies links, `root
      ensures var c' := Compose(path, In(false, next, l, c));
        Climb(links[..], c', nr, Height(nr) + 1) && HeightWith(c', Height(nr) + 1) == HeightWith(c, h) &&
          root == RootOf(c', Root(nr))
      ensures OnlyAt(old(links[..]), links[..], CtxIds(c) + Ids(l) + {next})
    {
      ghost var s := links[..];
      assert l.id in Ids(l);
      RootFacts(s, l, node);
      var p, left := links[node].parent, links[node].left;
      Hang(node, p, next, c, h);
      ghost var s1 := links[..];
      assert p != 0 ==> p in CtxIds(c);
      links[next] := links[next].(left := left);
      links[left] := links[left].(parent := next);
      SuccessorIn(s, s1, links[..], c, l, node, path, next, nr, bal, h);
    }

    /** The node has two children: its successor takes its place and its balance. */
    method ReplaceBySuccessor(node: nat, ghost c: Ctx, ghost t: Tree)
      returns (x: nat, fromLeft: bool, ghost c': Ctx, ghost t': Tree)
      requires Rep(links[..], Plug(c, t), 0) && root == Root(Plug(c, t)) && Distinct(Order(c, t))
      requires Height(Plug(c, t)) <= H
      requires t.Node? && t.id == node && t.left.Node? && t.right.Node?
      modifies links, `root
      ensures Climb(links[..], c', t', Height(t') + 1) && root == RootOf(c', Root(t'))
      ensures x == HoleParent(c', 0) && c'.In? && fromLeft == c'.onLeft
      ensures Unlinked(c, t, c', t', H)
      ensures OnlyAt(old(links[..]), links[..], CtxIds(c) + Ids(t))
    {
      ghost var s := links[..];
      var next, y, side, path, nr := LiftNext(node, c, t);
      ghost var s1 := links[..];
      AfterLift(s, c, t, path, next, nr);
      PlaceNext(node, next, c, t.left, path, nr, Height(t.right) - Height(t.left), Height(t));
      UnlinkedTwo(c, t, path, next, nr, H);
      OnlyAtTwice(s, s1, links[..], Ids(t), CtxIds(c) + Ids(t.left) + {next}, CtxIds(c) + Ids(t));
      x, fromLeft, c', t' := y, side, Compose(path, In(false, next, t.left, c)), nr;
    }

    static lemma {:induction false} AfterLift(s: Links, c: Ctx, t: Tree, path: Ctx, next: nat, nr: Tree)
      requires Rep(s, Plug(c, t), 0) && Distinct(Order(c, t)) && t.Node? && t.right == Plug(path, Node(Nil, next, nr))
      ensures SuccessorParts(c, t.left, t.id, path, next, nr) && next in Ids(t)
      ensures HeightWith(path, Height(nr) + 1) == Height(t.right) && -1 <= Height(t.right) - Height(t.left) <= 1
      ensures Height(t) == 1 + Max(HeightWith(path, Height(nr) + 1), Height(t.left))
      ensures Height(Plug(c, t)) == HeightWith(c, Height(t)) && Root(Plug(c, t)) == RootOf(c, t.id)
    {
      Split(s, c, t, 0);
      PlugFacts(c, t);
      SuccessorApart(c, t.left, t.id, path, next, nr);
      PlugFacts(path, Node(Nil, next, nr));
      PlugIds(path, Node(Nil, next, nr));
    }

    /** Takes the node out of the tree; `x` is the node whose subtree lost a level, on the side `fromLeft`. */
    method Detach(node: nat, ghost c: Ctx, ghost t: Tree)
      returns (x: nat, fromLeft: bool, ghost c': Ctx, ghost t': Tree)
      requires Rep(links[..], Plug(c, t), 0) && root == Root(Plug(c, t)) && Distinct(Order(c, t))
      requires Height(Plug(c, t)) <= H
      requires t.Node? && t.id == node
      modifies links, `root
      ensures Climb(links[..], c', t', Height(t') + 1) && root == RootOf(c', Root(t'))
      ensures x == HoleParent(c', 0) && (c'.In? ==> fromLeft == c'.onLeft)
      ensures Unlinked(c, t, c', t', H)
      ensures OnlyAt(old(links[..]), links[..], CtxIds(c) + Ids(t))
    {
      Split(links[..], c, t, 0);
      PlugFacts(c, t);
      ReadX(links[..], c, t, Height(t));
      if links[node].left == 0 || links[node].right == 0 {
        x := links[node].parent;
        fromLeft := x != 0 && links[x].left == node;
        c', t' := c, if t.left.Nil? then t.right else t.left;
        PullUp(node, if links[node].left == 0 then links[node].right else links[node].left, c, t, t');
        UnlinkedOne(c, t, t', H);
      } else {
        x, fromLeft, c', t' := ReplaceBySuccessor(node, c, t);
      }
    }

    /** Takes the node out of the tree and rebalances. */
    method Unlink(node: nat, ghost c: Ctx, ghost t: Tree) returns (ghost t': Tree)
      requires Rep(links[..], Plug(c, t), 0) && root == Root(Plug(c, t)) && Distinct(Order(c, t))
      requires Height(Plug(c, t)) <= H
      requires t.Node? && t.id == node
      modifies links, `root
      ensures Finished(old(links[..]), links[..], t', H,
        (Before(c) + Inorder(t.left)) + (Inorder(t.right) + After(c)), CtxIds(c) + Ids(t))
      ensures root == Root(t')
    {
      ghost var s := links[..];
      var x, fromLeft, c', ct := Detach(node, c, t);
      ghost var s1 := links[..];
      UnlinkedDistinct(c, t, c', ct, H);
      t' := RetraceDelete(x, fromLeft, c', ct);
      OnlyAtTwice(s, s1, links[..], CtxIds(c) + Ids(t), CtxIds(c') + Ids(ct), CtxIds(c) + Ids(t));
    }

    static lemma {:induction false} UnlinkedDistinct(c: Ctx, t: Tree, c': Ctx, t': Tree, maxHeight: nat)
      requires t.Node? && Unlinked(c, t, c', t', maxHeight) && Distinct(Order(c, t))
      ensures Distinct(Order(c', t'))
    {
      var a, b := Before(c) + Inorder(t.left), Inorder(t.right) + After(c);
      Reassociate(Before(c), Inorder(t.left), [t.id], Inorder(t.right), After(c));
      assert a + [t.id] + b + [] == a + [t.id] + b && a + b + [] == a + b;
      DroppedDistinct(a, t.id, b, []);
    }

    /** The cache update of a delete: when an end of the order goes, its neighbour becomes the end. */
    method MoveCache(node: nat, ghost c: Ctx, ghost t: Tree)
      requires Loose() && tree == Plug(c, t) && t.Node? && t.id == node
      modifies `minId, `minKey, `maxId, `maxKey
      ensures Cached(info[..], (Before(c) + Inorder(t.left)) + (Inorder(t.right) + After(c)), minId, minKey, maxId,
        maxKey)
    {
      ghost var a, b := Before(c) + Inorder(t.left), Inorder(t.right) + After(c);
      DeleteOrder(c, t);
      DistinctParts(Inorder(tree), orphans);
      NeighboursOk(a, node, b);
      ghost var min0, minKey0, max0, maxKey0 := minId, minKey, maxId, maxKey;
      if node == minId {
        minId := NextNode(node, c, t);
        if minId != 0 {
          minKey := info[minId].key;
        }
      }
      if node == maxId {
        maxId := PrevNode(node, c, t);
        if maxId != 0 {
          maxKey := info[maxId].key;
        }
      }
      CachedDropped(info[..], a, node, b, min0, minKey0, max0, maxKey0, minId, minKey, maxId, maxKey);
    }

    lemma {:induction false} NeighboursOk(a: seq<nat>, node: nat, b: seq<nat>)
      requires Core() && InTree() == a + [node] + b
      ensures 0 !in a + b && First(b) < info.Length && Last(a) < info.Length
    {
      RepIdsInRange(links[..], tree, 0);
      InorderIds(tree);
      forall i | i in a + b ensures i in InTree() {
      }
      assert a != [] ==> Last(a) in a + b;
      assert b != [] ==> First(b) in a + b;
    }

    static lemma {:induction false} DeleteOrder(c: Ctx, t: Tree)
      requires t.Node?
      ensures Inorder(Plug(c, t)) == (Before(c) + Inorder(t.left)) + [t.id] + (Inorder(t.right) + After(c))
    {
      PlugInorder(c, t);
      Reassociate(Before(c), Inorder(t.left), [t.id], Inorder(t.right), After(c));
    }

    /** Deletes a node that is in the tree. */
    method DeleteFromTree(node: nat)
      requires Loose() && node in InTree()
      modifies links, `root, `tree, `minId, `minKey, `maxId, `maxKey
      ensures Loose() && Dropped(old(InTree()), InTree(), node)
      ensures OnlyAt(old(links[..]), links[..], Ids(old(tree))) && Ids(tree) <= Ids(old(tree))
    {
      InorderIds(tree);
      ghost var c, t := Locate(tree, node, Top).0, Locate(tree, node, Top).1;
      ghost var q, q' := Inorder(tree), (Before(c) + Inorder(t.left)) + (Inorder(t.right) + After(c));
      DroppedFacts(info[..], c, t, orphans);
      PlugIds(c, t);
      MoveCache(node, c, t);
      tree := Unlink(node, c, t);
      assert Ids(tree) <= Ids(old(tree)) by {
        InorderIds(tree);
        assert forall i :: i in q' ==> i in q;
      }
    }

    static lemma {:induction false} DroppedFacts(k: Infos, c: Ctx, t: Tree, o: seq<nat>)
      requires t.Node? && Distinct(Inorder(Plug(c, t)) + o) && Sorted(k, Inorder(Plug(c, t)))
      requires NoOrphan(k, Inorder(Plug(c, t)))
      ensures var q' := (Before(c) + Inorder(t.left)) + (Inorder(t.right) + After(c));
        Distinct(q' + o) && Sorted(k, q') && NoOrphan(k, q') && Dropped(Inorder(Plug(c, t)), q', t.id) &&
          Distinct(Order(c, t))
    {
      var a, b := Before(c) + Inorder(t.left), Inorder(t.right) + After(c);
      DeleteOrder(c, t);
      PlugInorder(c, t);
      assert DroppedBetween(Inorder(Plug(c, t)), a + b, t.id, a, b);
      SortedDropped(k, Inorder(Plug(c, t)), a + b, t.id);
      NoOrphanParts(k, a, t.id, b);
      DroppedDistinct(a, t.id, b, o);
      DistinctParts(Inorder(Plug(c, t)), o);
    }

    static lemma {:induction false} DroppedDistinct(a: seq<nat>, node: nat, b: seq<nat>, o: seq<nat>)
      requires Distinct(a + [node] + b + o)
      ensures Distinct(a + b + o) && node !in a + b + o
    {
      var q, q' := a + b + o, a + [node] + b + o;
      assert q'[|a|] == node;
      forall i | 0 <= i < |q| ensures q[i] == q'[if i < |a| then i else i + 1] {
      }
    }

    /** Deletes a node that is on the orphan list. */
    method DeleteOrphan(node: nat)
      requires Valid() && node in orphans
      modifies info, `firstOrphan, `orphans
      ensures Valid() && SameKeys(old(info[..]), info[..])
      ensures Dropped(old(orphans), orphans, node)
      ensures InfoOnlyAt(old(info[..]), info[..], set i | i in old(orphans))
    {
      ghost var k, q := info[..], orphans;
      ghost var j :| 0 <= j < |orphans| && orphans[j] == node;
      DistinctParts(Inorder(tree), orphans);
      assert OrphanAt(k, q, j);
      RemoveOrphan(node, j);
      ghost var k1 := info[..];
      RemovedFacts(Inorder(tree), q, j);
      info[node] := info[node].(isOrphan := false);
      OrphanListFrame(k1, info[..], orphans, firstOrphan);
      SortedSameKeys(k, info[..], Inorder(tree));
      CachedSameKeys(k, info[..], Inorder(tree), minId, minKey, maxId, maxKey);
    }

    static lemma {:induction false} RemovedFacts(a: seq<nat>, q: seq<nat>, j: nat)
      requires Distinct(a + q) && j < |q|
      ensures Distinct(a + Without(q, j)) && q[j] !in Without(q, j) && q[j] !in a && Dropped(q, Without(q, j), q[j])
    {
      assert q == q[..j] + [q[j]] + q[j + 1..];
      assert DroppedBetween(q, Without(q, j), q[j], q[..j], q[j + 1..]);
      assert a + q == (a + q[..j]) + [q[j]] + q[j + 1..] + [];
      assert a + Without(q, j) == (a + q[..j]) + q[j + 1..] + [];
      DroppedDistinct(a + q[..j], q[j], q[j + 1..], []);
    }

    static lemma {:induction false} FirstRemoved(a: seq<nat>, q: seq<nat>)
      requires Distinct(a + q) && q != []
      ensures Distinct(a + q[1..]) && q[0] !in a + q[1..]
    {
      RemovedFacts(a, q, 0);
      assert Without(q, 0) == q[1..];
    }

    /** The steps of avl_tree_delete. */
    method DeleteSteps(node: nat) returns (ghost mid: Tree)
      requires Valid() && node in Held()
      modifies this, links, info
      ensures Valid() && SameKeys(old(info[..]), info[..])
      ensures old(node in orphans) ==> tree == old(tree) && Dropped(old(orphans), orphans, node)
      ensures old(node !in orphans) ==>
        Dropped(old(InTree()), Inorder(mid), node) && Refilled(info[..], H, mid, old(orphans), tree, orphans)
      ensures OnlyAt(old(links[..]), links[..], old(HeldSet())) && InfoOnlyAt(old(info[..]), info[..], old(HeldSet()))
    {
      FlagFacts(node);
      mid := tree;
      if info[node].isOrphan {
        DeleteOrphan(node);
        return;
      }
      ghost var s, held := links[..], HeldSet();
      DeleteFromTree(node);
      mid := tree;
      ghost var s1, ids := links[..], HeldSet();
      Refill();
      OnlyAtTwice(s, s1, links[..], held, ids, held);
    }

    /**
     avl_tree_delete. A node of the tree goes, all others keep their order; then the first orphan,
     if any, is inserted again. `mid` is the tree between the two steps.
     */
    method Delete(node: nat) returns (ghost mid: Tree)
      requires Valid() && node in Held()
      modifies this, links, info
      ensures Valid() && SameKeys(old(info[..]), info[..])
      ensures old(node in orphans) ==> tree == old(tree) && Dropped(old(orphans), orphans, node)
      ensures old(node !in orphans) ==>
        Dropped(old(InTree()), Inorder(mid), node) && Refilled(info[..], H, mid, old(orphans), tree, orphans)
      ensures old(multiset(Held())) == multiset(Held()) + multiset{node}
      ensures OnlyAt(old(links[..]), links[..], old(HeldSet())) && InfoOnlyAt(old(info[..]), info[..], old(HeldSet()))
    {
      mid := DeleteSteps(node);
      if node in old(orphans) {
        DroppedBag(old(orphans), orphans, node);
      } else {
        DeleteBag(old(InTree()), old(orphans), mid, node);
      }
    }

    lemma {:induction false} DeleteBag(q: seq<nat>, o: seq<nat>, mid: Tree, node: nat)
      requires Dropped(q, Inorder(mid), node) && Refilled(info[..], H, mid, o, tree, orphans)
      ensures multiset(q + o) == multiset(Held()) + multiset{node}
    {
      DroppedBag(q, Inorder(mid), node);
      RefillBag(o, mid);
      assert multiset(q + o) == multiset(Inorder(mid) + o) + multiset{node};
    }

    lemma {:induction false} RefillBag(o: seq<nat>, mid: Tree)
      requires Refilled(info[..], H, mid, o, tree, orphans)
      ensures multiset(Inorder(mid) + o) == multiset(Held())
    {
      if o != [] && BstLevel(info[..], mid, Key(info[..], o[0])) <= H {
        PlacedBag(info[..], Inorder(mid), Inorder(tree), o[0]);
        assert o == [o[0]] + o[1..];
      }
    }

    /** An orphan flag tells exactly which held nodes are on the orphan list. */
    lemma {:induction false} FlagFacts(node: nat)
      requires Core() && node in Held()
      ensures node < info.Length && (info[node].isOrphan <==> node in orphans)
      ensures node in InTree() <==> node !in orphans
    {
      DistinctParts(Inorder(tree), orphans);
      if node in orphans {
        var j :| 0 <= j < |orphans| && orphans[j] == node;
        assert OrphanAt(info[..], orphans, j);
      }
    }

    /** The end of avl_tree_delete: the first orphan is tried again. */
    method Refill()
      requires Loose()
      modifies this, links, info
      ensures Valid() && SameKeys(old(info[..]), info[..])
      ensures Refilled(info[..], H, old(tree), old(orphans), tree, orphans)
      ensures OnlyAt(old(links[..]), links[..], old(HeldSet())) && InfoOnlyAt(old(info[..]), info[..], old(HeldSet()))
    {
      ghost var k, q, held := info[..], orphans, HeldSet();
      var o := TakeOrphan();
      if o != 0 {
        ghost var k1, ids := info[..], HeldSet() + {o};
        assert [o] + q[1..] == q && ids <= held;
        InsertSteps(o);
        BstLevelSameKeys(k1, info[..], old(tree), Key(k1, o));
        InfoOnlyAtTwice(k, k1, info[..], held, ids, held);
      }
    }

    /** Takes the first orphan off its list. */
    method TakeOrphan() returns (o: nat)
      requires Loose()
      modifies info, `firstOrphan, `orphans
      ensures Loose() && SameKeys(old(info[..]), info[..])
      ensures o == First(old(orphans)) && (o == 0 <==> old(orphans) == [])
      ensures o == 0 ==> orphans == [] && info[..] == old(info[..])
      ensures o != 0 ==> orphans == old(orphans)[1..] && o !in Held() && o < links.Length
      ensures InfoOnlyAt(old(info[..]), info[..], old(HeldSet()))
    {
      ghost var k, q := info[..], orphans;
      DistinctParts(Inorder(tree), orphans);
      assert q != [] ==> OrphanAt(k, q, 0);
      o := PopFirstOrphan();
      if o != 0 {
        FirstRemoved(Inorder(tree), q);
      }
      SortedSameKeys(k, info[..], Inorder(tree));
      CachedSameKeys(k, info[..], Inorder(tree), minId, minKey, maxId, maxKey);
    }

    /** avl_tree_pop_min: the first node in order goes. There is none only when nothing is held at all. */
    method PopMin() returns (m: nat, ghost mid: Tree)
      requires Valid()
      modifies this, links, info
      ensures Valid() && SameKeys(old(info[..]), info[..])
      ensures m == First(old(InTree())) && (m == 0 <==> old(Held()) == [])
      ensures m == 0 ==> InTree() == [] && orphans == []
      ensures m != 0 ==>
        && Inorder(mid) == old(InTree())[1..]
        && Refilled(info[..], H, mid, old(orphans), tree, orphans)
        && old(multiset(Held())) == multiset(Held()) + multiset{m} && |Held()| == |old(Held())| - 1
    {
      EndsNonzero();
      m, mid := minId, tree;
      if m != 0 {
        HeadFacts();
        mid := Delete(m);
        DroppedHead(old(InTree()), Inorder(mid));
        BagSize(old(Held()), Held(), m);
      }
    }

    /** avl_tree_pop_max: the last node in order goes. */
    method PopMax() returns (m: nat, ghost mid: Tree)
      requires Valid()
      modifies this, links, info
      ensures Valid() && SameKeys(old(info[..]), info[..])
      ensures m == Last(old(InTree())) && (m == 0 <==> old(Held()) == [])
      ensures m == 0 ==> InTree() == [] && orphans == []
      ensures m != 0 ==>
        && Inorder(mid) == old(InTree())[..|old(InTree())| - 1]
        && Refilled(info[..], H, mid, old(orphans), tree, orphans)
        && old(multiset(Held())) == multiset(Held()) + multiset{m} && |Held()| == |old(Held())| - 1
    {
      EndsNonzero();
      m, mid := maxId, tree;
      if m != 0 {
        HeadFacts();
        mid := Delete(m);
        DroppedTail(old(InTree()), Inorder(mid));
        BagSize(old(Held()), Held(), m);
      }
    }

    lemma {:induction false} HeadFacts()
      requires Valid() && InTree() != []
      ensures Distinct(InTree())
      ensures First(InTree()) in Held() && First(InTree()) !in orphans
      ensures Last(InTree()) in Held() && Last(InTree()) !in orphans
    {
      DistinctParts(Inorder(tree), orphans);
    }

    static lemma {:induction false} DroppedHead(q: seq<nat>, q': seq<nat>)
      requires q != [] && Distinct(q) && Dropped(q, q', q[0])
      ensures q' == q[1..]
    {
      var a, b :| DroppedBetween(q, q', q[0], a, b);
      assert q[|a|] == q[0];
      assert a == [];
    }

    static lemma {:induction false} DroppedTail(q: seq<nat>, q': seq<nat>)
      requires q != [] && Distinct(q) && Dropped(q, q', q[|q| - 1])
      ensures q' == q[..|q| - 1]
    {
      var a, b :| DroppedBetween(q, q', q[|q| - 1], a, b);
      assert q[|a|] == q[|q| - 1];
      assert b == [];
    }

    static lemma {:induction false} BagSize(q: seq<nat>, q': seq<nat>, node: nat)
      requires multiset(q) == multiset(q') + multiset{node}
      ensures |q| == |q'| + 1
    {
      assert |multiset(q)| == |multiset(q')| + 1;
    }
  }
}
