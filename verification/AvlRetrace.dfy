/**
 Walking back to the root after an insert or a delete (userspace/lib/avl.bpf.h).

 `Climb(s, c, t, h)` is the state of such a walk: subtree `t` is stored in the hole of
 context `c`, while the balances stored in the context were computed for a subtree of
 height `h`. The insert loop runs with `Height(t) == h + 1`, the delete loop with
 `Height(t) == h - 1`, and either stops as soon as the two heights agree.
 */
module AvlRetrace {
  import opened Common
  import opened AvlShape
  import opened AvlRep
  import opened AvlRotate

  import opened AvlRebalance

  ghost predicate Climb(s: Links, c: Ctx, t: Tree, h: nat) {
    RepCtx(s, c, Root(t), h, 0) && Rep(s, t, HoleParent(c, 0))
  }

  /** The nodes of the walk in order. */
  ghost function Order(c: Ctx, t: Tree): seq<nat> {
    Before(c) + Inorder(t) + After(c)
  }

  /** `t` is stored, balanced, low enough and holds exactly `order`. */
  ghost predicate Settled(s: Links, t: Tree, maxHeight: nat, order: seq<nat>) {
    Rep(s, t, 0) && Height(t) <= maxHeight && Inorder(t) == order
  }

  lemma {:induction false} Settle(s: Links, c: Ctx, t: Tree, maxHeight: nat)
    requires Climb(s, c, t, Height(t)) && HeightWith(c, Height(t)) <= maxHeight
    ensures Settled(s, Plug(c, t), maxHeight, Order(c, t))
    ensures Root(Plug(c, t)) == RootOf(c, Root(t))
  {
    Join(s, c, t, 0);
    PlugFacts(c, t);
    PlugInorder(c, t);
  }

  /** The balance that X should have with `t` in the hole. */
  function TrueBalance(c: Ctx, t: Tree): int
    requires c.In?
  {
    if c.onLeft then Height(c.sib) - Height(t) else Height(t) - Height(c.sib)
  }

  /** X as the walk finds it. */
  lemma {:induction false} AtX(s: Links, c: Ctx, t: Tree, h: nat)
    requires Climb(s, c, t, h) && c.In? && Distinct(Order(c, t))
    ensures IdOk(s, c.id)
    ensures s[c.id].balance == if c.onLeft then Height(c.sib) - h else h - Height(c.sib)
    ensures -1 <= s[c.id].balance <= 1
    ensures s[c.id].parent == HoleParent(c.up, 0)
    ensures if c.onLeft then s[c.id].left == Root(t) && s[c.id].right == Root(c.sib)
            else s[c.id].right == Root(t) && s[c.id].left == Root(c.sib)
    ensures t.Node? ==> (c.onLeft <==> s[c.id].left == Root(t))
    ensures HoleParent(c.up, 0) == 0 <==> c.up.Top?
  {
    RootFacts(s, t, c.id);
    RootFacts(s, c.sib, c.id);
    DistinctStep(c, t);
    assert RepCtx(s, c.up, c.id, 1 + Max(h, Height(c.sib)), 0);
  }

  lemma {:induction false} BalanceAtX(s: Links, c: Ctx, t: Tree, h: nat)
    requires Climb(s, c, t, h) && c.In?
    ensures IdOk(s, c.id) && -1 <= s[c.id].balance <= 1
    ensures s[c.id].balance == if c.onLeft then Height(c.sib) - h else h - Height(c.sib)
  {
  }

  /** What the loops read at X. */
  lemma {:induction false} ReadX(s: Links, c: Ctx, t: Tree, h: nat)
    requires Climb(s, c, t, h) && Distinct(Order(c, t))
    ensures c.In? <==> HoleParent(c, 0) != 0
    ensures c.In? ==> IdOk(s, c.id) && s[c.id].parent == HoleParent(c.up, 0)
    ensures c.In? && t.Node? ==> (c.onLeft <==> s[c.id].left == t.id)
  {
    if c.In? { AtX(s, c, t, h); }
  }

  /** Correcting X's balance moves the walk one level up; `b` is the subtree at X. */
  lemma {:induction false} StepUp(s: Links, s': Links, c: Ctx, t: Tree, h: nat, h': nat) returns (b: Tree)
    requires Climb(s, c, t, h) && c.In? && Distinct(Order(c, t)) && -1 <= TrueBalance(c, t) <= 1
    requires IdOk(s, c.id) && s' == s[c.id := s[c.id].(balance := TrueBalance(c, t))]
    requires h' == 1 + Max(h, Height(c.sib))
    ensures b.Node? && b.id == c.id && Climb(s', c.up, b, h')
    ensures Height(b) == 1 + Max(Height(t), Height(c.sib)) && Lean(b) == TrueBalance(c, t)
    ensures HeightWith(c.up, h') == HeightWith(c, h)
    ensures Order(c.up, b) == Order(c, t) && CtxIds(c.up) + Ids(b) == CtxIds(c) + Ids(t)
  {
    b := Branch(c.onLeft, c.id, c.sib, t);
    StepUpRep(s, s', c, t, h, h');
    StepUpIds(c, t);
    OrderUp(c, t);
  }

  lemma {:induction false} StepUpIds(c: Ctx, t: Tree)
    requires c.In?
    ensures CtxIds(c.up) + Ids(Branch(c.onLeft, c.id, c.sib, t)) == CtxIds(c) + Ids(t)
    ensures Height(Branch(c.onLeft, c.id, c.sib, t)) == 1 + Max(Height(t), Height(c.sib))
  {
  }

  lemma {:induction false} StepUpRep(s: Links, s': Links, c: Ctx, t: Tree, h: nat, h': nat)
    requires Climb(s, c, t, h) && c.In? && Distinct(Order(c, t)) && -1 <= TrueBalance(c, t) <= 1
    requires IdOk(s, c.id) && s' == s[c.id := s[c.id].(balance := TrueBalance(c, t))]
    requires h' == 1 + Max(h, Height(c.sib))
    ensures Climb(s', c.up, Branch(c.onLeft, c.id, c.sib, t), h')
  {
    DistinctStep(c, t);
    RepFrame(s, s', {c.id}, c.sib, c.id);
    RepFrame(s, s', {c.id}, t, c.id);
    RepCtxFrame(s, s', {c.id}, c.up, c.id, h', 0);
  }

  /** Only the child slot of the hole's parent changed. */
  lemma {:induction false} Rehang(s: Links, s': Links, written: set<nat>, c: Ctx, hole: nat, hole': nat, h: nat,
      p0: nat)
    requires RepCtx(s, c, hole, h, p0) && c.In?
    requires OnlyAt(s, s', written) && written !! (Ids(c.sib) + CtxIds(c.up)) && IdOk(s, c.id)
    requires s'[c.id] == if c.onLeft then s[c.id].(left := hole') else s[c.id].(right := hole')
    ensures RepCtx(s', c, hole', h, p0)
  {
    RepFrame(s, s', written, c.sib, c.id);
    RepCtxFrame(s, s', written, c.up, c.id, 1 + Max(h, Height(c.sib)), p0);
  }

  /** Only the parent id of the topmost node of a path changed. */
  lemma {:induction false} RetopPath(s: Links, s': Links, c: Ctx, hole: nat, h: nat, p0: nat, p0': nat)
    requires RepCtx(s, c, hole, h, p0) && c.In? && Distinct(Before(c) + After(c))
    requires var top := RootOf(c, hole); IdOk(s, top) && s' == s[top := s[top].(parent := p0')]
    ensures RepCtx(s', c, hole, h, p0')
  {
    DistinctCtx(c);
    RootOfIn(c, hole);
    if c.up.Top? {
      RepFrame(s, s', {c.id}, c.sib, c.id);
    } else {
      RootOfIn(c.up, c.id);
      DistinctUp(c);
      RetopPath(s, s', c.up, c.id, 1 + Max(h, Height(c.sib)), p0, p0');
      RepFrame(s, s', {RootOf(c, hole)}, c.sib, c.id);
    }
  }

  lemma {:induction false} RootOfIn(c: Ctx, hole: nat)
    requires c.In?
    ensures RootOf(c, hole) in CtxIds(c)
  {
    if c.up.In? {
      RootOfIn(c.up, c.id);
    }
  }

  lemma {:induction false} DistinctUp(c: Ctx)
    requires c.In? && Distinct(Before(c) + After(c))
    ensures Distinct(Before(c.up) + After(c.up))
  {
    var b := Branch(c.onLeft, c.id, c.sib, Nil);
    OrderUp(c, Nil);
    assert Before(c) + [] + After(c) == Before(c) + After(c);
    DistinctAround(c.up, b);
  }

  // ----- rotations at X -----

  /** An insert below X on its heavy side: X's child `t` is two levels taller than the other. */
  lemma {:induction false} GrownTall(s: Links, c: Ctx, t: Tree)
    requires t.Node? && Climb(s, c, t, Height(t) - 1) && c.In? && Distinct(Order(c, t))
    requires IdOk(s, c.id) && s[c.id].balance != 0 && (c.onLeft <==> s[c.id].balance < 0)
    ensures Height(t) == Height(c.sib) + 2 && Tall(s, c.onLeft, c.id, t.id, c.sib, t)
  {
    OrderUp(c, t);
    DistinctHole(c.up, Branch(c.onLeft, c.id, c.sib, t));
  }

  /** A loss below X on its light side: the sibling is two levels taller than `t`. */
  lemma {:induction false} ShrunkLow(s: Links, c: Ctx, t: Tree)
    requires Climb(s, c, t, Height(t) + 1) && c.In? && Distinct(Order(c, t))
    requires IdOk(s, c.id) && s[c.id].balance != 0 && (c.onLeft <==> s[c.id].balance > 0)
    ensures Height(c.sib) == Height(t) + 2 && Tall(s, !c.onLeft, c.id, Root(c.sib), t, c.sib)
    ensures IdOk(s, Root(c.sib)) && s[Root(c.sib)].balance == Lean(c.sib)
  {
    OrderUp(c, t);
    DistinctHole(c.up, Branch(c.onLeft, c.id, c.sib, t));
  }

  /** The rotated subtree in place of the one at X. */
  lemma {:induction false} RotatedOrder(c: Ctx, t: Tree, r: Tree)
    requires c.In?
    requires Rebalanced(r, c.onLeft, c.id, c.sib, t) || Rebalanced(r, !c.onLeft, c.id, t, c.sib)
    ensures Order(c.up, r) == Order(c, t)
    ensures CtxIds(c.up) + Ids(r) == CtxIds(c) + Ids(t)
  {
    OrderUp(c, t);
    assert Branch(!c.onLeft, c.id, t, c.sib) == Branch(c.onLeft, c.id, c.sib, t);
  }

  // ----- the insert walk -----

  /** What every walk from array `s0` keeps: the nodes in `order`, and every record outside `ids`. */
  ghost predicate Keeps(s0: Links, s: Links, c: Ctx, t: Tree, order: seq<nat>, ids: set<nat>) {
    Order(c, t) == order && Distinct(order) && CtxIds(c) + Ids(t) == ids && OnlyAt(s0, s, ids)
  }

  /** An insert walk: Z's subtree `t` is one level taller than its context knows. */
  ghost predicate Growing(s0: Links, s: Links, c: Ctx, t: Tree, maxHeight: nat, order: seq<nat>, ids: set<nat>) {
    && t.Node? && (Height(t) == 1 || Lean(t) != 0)
    && Climb(s, c, t, Height(t) - 1)
    && Depth(c) + Height(t) <= maxHeight && HeightWith(c, Height(t) - 1) <= maxHeight
    && Keeps(s0, s, c, t, order, ids)
  }

  ghost predicate Finished(s0: Links, s: Links, t: Tree, maxHeight: nat, order: seq<nat>, ids: set<nat>) {
    Settled(s, t, maxHeight, order) && OnlyAt(s0, s, ids)
  }

  lemma {:induction false} GrowthToTop(s0: Links, s: Links, c: Ctx, t: Tree, maxHeight: nat, order: seq<nat>,
      ids: set<nat>)
    requires Growing(s0, s, c, t, maxHeight, order, ids) && c.Top?
    ensures Finished(s0, s, t, maxHeight, order, ids)
  {
    Settle(s, c, t, maxHeight);
  }

  lemma {:induction false} GrowthPassedUp(s0: Links, s: Links, s': Links, c: Ctx, t: Tree, maxHeight: nat,
      order: seq<nat>, ids: set<nat>)
    returns (b: Tree)
    requires Growing(s0, s, c, t, maxHeight, order, ids) && c.In?
    requires IdOk(s, c.id) && s[c.id].balance == 0
    requires s' == s[c.id := s[c.id].(balance := if c.onLeft then -1 else 1)]
    ensures b.Node? && b.id == c.id && Growing(s0, s', c.up, b, maxHeight, order, ids)
  {
    BalanceAtX(s, c, t, Height(t) - 1);
    b := StepUp(s, s', c, t, Height(t) - 1, Height(t));
  }

  lemma {:induction false} GrowthAbsorbed(s0: Links, s: Links, s': Links, c: Ctx, t: Tree, maxHeight: nat,
      order: seq<nat>, ids: set<nat>)
    returns (t': Tree)
    requires Growing(s0, s, c, t, maxHeight, order, ids) && c.In?
    requires IdOk(s, c.id) && if c.onLeft then s[c.id].balance > 0 else s[c.id].balance < 0
    requires s' == s[c.id := s[c.id].(balance := 0)]
    ensures Finished(s0, s', t', maxHeight, order, ids) && Root(t') == RootOf(c.up, c.id)
  {
    BalanceAtX(s, c, t, Height(t) - 1);
    var b := StepUp(s, s', c, t, Height(t) - 1, Height(t) + 1);
    Settle(s', c.up, b, maxHeight);
    t' := Plug(c.up, b);
  }

  lemma {:induction false} GrowthRotated(s0: Links, s: Links, s': Links, c: Ctx, t: Tree, r: Tree, maxHeight: nat,
      order: seq<nat>, ids: set<nat>)
    returns (t': Tree)
    requires Growing(s0, s, c, t, maxHeight, order, ids) && c.In?
    requires Height(t) == Height(c.sib) + 2 && Rebalanced(r, c.onLeft, c.id, c.sib, t)
    requires Climb(s', c.up, r, Height(t)) && OnlyAt(s, s', CtxIds(c.up) + Ids(c.sib) + {c.id} + Ids(t))
    ensures Finished(s0, s', t', maxHeight, order, ids) && Root(t') == RootOf(c.up, r.id)
  {
    RotatedOrder(c, t, r);
    OnlyAtTwice(s0, s, s', ids, CtxIds(c.up) + Ids(c.sib) + {c.id} + Ids(t), ids);
    assert HeightWith(c, Height(t) - 1) == HeightWith(c.up, Height(t));
    Settle(s', c.up, r, maxHeight);
    t' := Plug(c.up, r);
  }

  // ----- the delete walk -----

  /** A delete walk: the subtree `t` is one level lower than its context knows. */
  ghost predicate Shrinking(s0: Links, s: Links, c: Ctx, t: Tree, maxHeight: nat, order: seq<nat>, ids: set<nat>) {
    && Climb(s, c, t, Height(t) + 1)
    && HeightWith(c, Height(t) + 1) <= maxHeight
    && Keeps(s0, s, c, t, order, ids)
  }

  lemma {:induction false} LossToTop(s0: Links, s: Links, c: Ctx, t: Tree, maxHeight: nat, order: seq<nat>,
      ids: set<nat>)
    requires Shrinking(s0, s, c, t, maxHeight, order, ids) && c.Top?
    ensures Finished(s0, s, t, maxHeight, order, ids)
  {
    Settle(s, c, t, maxHeight);
  }

  lemma {:induction false} LossAbsorbed(s0: Links, s: Links, s': Links, c: Ctx, t: Tree, maxHeight: nat,
      order: seq<nat>, ids: set<nat>)
    returns (t': Tree)
    requires Shrinking(s0, s, c, t, maxHeight, order, ids) && c.In?
    requires IdOk(s, c.id) && s[c.id].balance == 0
    requires s' == s[c.id := s[c.id].(balance := if c.onLeft then 1 else -1)]
    ensures Finished(s0, s', t', maxHeight, order, ids) && Root(t') == RootOf(c.up, c.id)
  {
    BalanceAtX(s, c, t, Height(t) + 1);
    var b := StepUp(s, s', c, t, Height(t) + 1, Height(t) + 2);
    Settle(s', c.up, b, maxHeight);
    t' := Plug(c.up, b);
  }

  lemma {:induction false} LossPassedUp(s0: Links, s: Links, s': Links, c: Ctx, t: Tree, maxHeight: nat,
      order: seq<nat>, ids: set<nat>)
    returns (b: Tree)
    requires Shrinking(s0, s, c, t, maxHeight, order, ids) && c.In?
    requires IdOk(s, c.id) && if c.onLeft then s[c.id].balance < 0 else s[c.id].balance > 0
    requires s' == s[c.id := s[c.id].(balance := 0)]
    ensures b.Node? && b.id == c.id && Shrinking(s0, s', c.up, b, maxHeight, order, ids)
  {
    BalanceAtX(s, c, t, Height(t) + 1);
    b := StepUp(s, s', c, t, Height(t) + 1, Height(t) + 2);
  }

  lemma {:induction false} LossRotated(s0: Links, s: Links, s': Links, c: Ctx, t: Tree, r: Tree, maxHeight: nat,
      order: seq<nat>, ids: set<nat>)
    requires Shrinking(s0, s, c, t, maxHeight, order, ids) && c.In?
    requires Height(c.sib) == Height(t) + 2 && Rebalanced(r, !c.onLeft, c.id, t, c.sib)
    requires Climb(s', c.up, r, Height(c.sib) + 1) && OnlyAt(s, s', CtxIds(c.up) + Ids(t) + {c.id} + Ids(c.sib))
    ensures Lean(c.sib) == 0 ==>
      Finished(s0, s', Plug(c.up, r), maxHeight, order, ids) && Root(Plug(c.up, r)) == RootOf(c.up, r.id)
    ensures Lean(c.sib) != 0 ==> Shrinking(s0, s', c.up, r, maxHeight, order, ids)
  {
    RotatedOrder(c, t, r);
    OnlyAtTwice(s0, s, s', ids, CtxIds(c.up) + Ids(t) + {c.id} + Ids(c.sib), ids);
    assert HeightWith(c, Height(t) + 1) == HeightWith(c.up, Height(c.sib) + 1);
    if Lean(c.sib) == 0 {
      Settle(s', c.up, r, maxHeight);
    }
  }

  // ----- taking out a successor -----

  /** Node `node` with left subtree `l`; its right subtree is `path` down to `next`, whose right subtree is `nr`. */
  ghost function WithSuccessor(l: Tree, node: nat, path: Ctx, next: nat, nr: Tree): Tree {
    Node(l, node, Plug(path, Node(Nil, next, nr)))
  }

  /** All these parts share no id. */
  ghost predicate SuccessorParts(c: Ctx, l: Tree, node: nat, path: Ctx, next: nat, nr: Tree) {
    && node != next && {node, next} !! CtxIds(c) && {node, next} !! Ids(l)
    && {node, next} !! CtxIds(path) && {node, next} !! Ids(nr)
    && CtxIds(c) !! Ids(l) && CtxIds(c) !! CtxIds(path) && CtxIds(c) !! Ids(nr)
    && Ids(l) !! CtxIds(path) && Ids(l) !! Ids(nr) && CtxIds(path) !! Ids(nr)
    && Distinct(Inorder(l)) && Distinct(Inorder(nr))
    && Distinct(Before(path) + After(path)) && Distinct(Before(c) + After(c))
  }

  lemma {:induction false} SuccessorApart(c: Ctx, l: Tree, node: nat, path: Ctx, next: nat, nr: Tree)
    requires Distinct(Order(c, WithSuccessor(l, node, path, next, nr)))
    ensures SuccessorParts(c, l, node, path, next, nr)
  {
    var mt := Node(Nil, next, nr);
    var r := Plug(path, mt);
    DistinctHole(c, Node(l, node, r));
    DistinctAround(c, Node(l, node, r));
    DistinctNode(l, node, r);
    PlugInorder(path, mt);
    PlugIds(path, mt);
    DistinctHole(path, mt);
    DistinctAround(path, mt);
    DistinctNode(Nil, next, nr);
  }

  /** The order once `next` stands where `node` stood. */
  lemma {:induction false} SuccessorOrder(c: Ctx, l: Tree, node: nat, path: Ctx, next: nat, nr: Tree)
    requires Before(path) == []
    ensures var c' := Compose(path, In(false, next, l, c));
      Order(c', nr) == Before(c) + Inorder(l) + (Inorder(Plug(path, Node(Nil, next, nr))) + After(c))
  {
    var mt := Node(Nil, next, nr);
    PlugInorder(path, mt);
    assert Inorder(mt) == [next] + Inorder(nr);
    ComposeOrder(path, In(false, next, l, c));
    SuccessorSeq(Before(c) + Inorder(l), next, Inorder(nr), After(path), After(c));
  }

  lemma {:induction false} SuccessorSeq(a: seq<nat>, x: nat, b: seq<nat>, p: seq<nat>, e: seq<nat>)
    ensures a + [x] + [] + b + (p + e) == a + ([] + ([x] + b) + p + e)
  {
    assert a + [x] + [] + b + (p + e) == a + [x] + b + p + e;
    assert [] + ([x] + b) + p + e == [x] + b + p + e;
    assert a + ([x] + b + p + e) == a + [x] + b + p + e;
  }

  /** `next` is taken out of the right subtree of `node` but not yet in its place. */
  ghost predicate Lifted(s: Links, c: Ctx, l: Tree, node: nat, path: Ctx, next: nat, nr: Tree, bal: int, h: nat) {
    && IdOk(s, node) && IdOk(s, next)
    && RepCtx(s, path, Root(nr), Height(nr) + 1, next) && Rep(s, nr, HoleParent(path, next))
    && s[next].right == RootOf(path, Root(nr)) && s[next].balance == bal
    && RepCtx(s, c, node, h, 0) && Rep(s, l, node)
    && s[node].left == Root(l) && s[node].parent == HoleParent(c, 0)
  }

  lemma {:induction false} LiftedFrame(s: Links, s': Links, c: Ctx, t: Tree, path: Ctx, next: nat, nr: Tree)
    requires Climb(s, c, t, Height(t)) && t.Node? && SuccessorParts(c, t.left, t.id, path, next, nr)
    requires OnlyAt(s, s', CtxIds(path) + Ids(nr) + {next}) && IdOk(s', next)
    requires RepCtx(s', path, Root(nr), Height(nr) + 1, next) && Rep(s', nr, HoleParent(path, next))
    requires s'[next].right == RootOf(path, Root(nr)) && s'[next].balance == s[t.id].balance
    ensures Lifted(s', c, t.left, t.id, path, next, nr, Height(t.right) - Height(t.left), Height(t))
  {
    RepCtxFrame(s, s', CtxIds(path) + Ids(nr) + {next}, c, t.id, Height(t), 0);
    RepFrame(s, s', CtxIds(path) + Ids(nr) + {next}, t.left, t.id);
  }

  /** `next` in its place, with its left subtree and its balance. */
  lemma {:induction false} SuccessorPlaced(s: Links, c: Ctx, l: Tree, path: Ctx, next: nat, nr: Tree, h: nat)
    requires var hr := HeightWith(path, Height(nr) + 1);
      && Linked(s, next, Root(l), RootOf(path, Root(nr)), HoleParent(c, 0), hr - Height(l))
      && h == 1 + Max(hr, Height(l))
    requires RepCtx(s, path, Root(nr), Height(nr) + 1, next) && Rep(s, nr, HoleParent(path, next))
    requires Rep(s, l, next) && RepCtx(s, c, next, h, 0)
    ensures Climb(s, Compose(path, In(false, next, l, c)), nr, Height(nr) + 1)
    ensures HeightWith(Compose(path, In(false, next, l, c)), Height(nr) + 1) == HeightWith(c, h)
    ensures RootOf(Compose(path, In(false, next, l, c)), Root(nr)) == RootOf(c, next)
  {
    var outer := In(false, next, l, c);
    JoinCtx(s, path, outer, Root(nr), Height(nr) + 1, 0);
    ComposeFacts(path, outer, 0);
    ComposeHeights(path, outer, Height(nr) + 1);
    assert HeightWith(outer, HeightWith(path, Height(nr) + 1)) == HeightWith(c, h);
    ComposeRoot(path, outer, Root(nr));
  }

  lemma {:induction false} SuccessorIn(s: Links, s1: Links, s': Links, c: Ctx, l: Tree, node: nat, path: Ctx,
      next: nat, nr: Tree, bal: int, h: nat)
    requires Lifted(s, c, l, node, path, next, nr, bal, h) && SuccessorParts(c, l, node, path, next, nr) && l.Node?
    requires bal == HeightWith(path, Height(nr) + 1) - Height(l) && -1 <= bal <= 1
    requires h == 1 + Max(HeightWith(path, Height(nr) + 1), Height(l))
    requires RepCtx(s1, c, next, h, 0) && OnlyAt(s1, s', {next, l.id})
    requires OnlyAt(s, s', CtxIds(c) + {next, l.id}) && Reparented(s, s', l.id, next)
    requires s'[next] == s[next].(parent := HoleParent(c, 0), left := l.id)
    ensures Climb(s', Compose(path, In(false, next, l, c)), nr, Height(nr) + 1)
    ensures HeightWith(Compose(path, In(false, next, l, c)), Height(nr) + 1) == HeightWith(c, h)
    ensures RootOf(Compose(path, In(false, next, l, c)), Root(nr)) == RootOf(c, next)
  {
    var written := CtxIds(c) + {next, l.id};
    assert l.id in Ids(l);
    RootFacts(s, l, node);
    RepCtxFrame(s1, s', {next, l.id}, c, next, h, 0);
    RepCtxFrame(s, s', written, path, Root(nr), Height(nr) + 1, next);
    RepFrame(s, s', written, nr, HoleParent(path, next));
    RepAdopted(s, s', written, l, node, next);
    SuccessorPlaced(s', c, l, path, next, nr, h);
  }

  /** Where a delete walk starts: `c'` and `t'` hold the nodes of `c` and `t` but for the node at the root of `t`. */
  ghost predicate Unlinked(c: Ctx, t: Tree, c': Ctx, t': Tree, maxHeight: nat)
    requires t.Node?
  {
    && Order(c', t') == (Before(c) + Inorder(t.left)) + (Inorder(t.right) + After(c))
    && CtxIds(c') + Ids(t') <= CtxIds(c) + Ids(t)
    && Depth(c') + 1 <= HeightWith(c', Height(t') + 1) <= maxHeight
  }

  lemma {:induction false} UnlinkedOne(c: Ctx, t: Tree, ct: Tree, maxHeight: nat)
    requires t.Node? && ((t.left.Nil? && ct == t.right) || (t.right.Nil? && ct == t.left))
    requires HeightWith(c, Height(t)) <= maxHeight
    ensures Unlinked(c, t, c, ct, maxHeight)
  {
    DepthHeight(c, Height(ct) + 1);
    assert Height(t) == Height(ct) + 1;
    if t.left.Nil? {
      assert Before(c) + [] + (Inorder(ct) + After(c)) == Before(c) + Inorder(ct) + After(c);
    } else {
      assert Before(c) + Inorder(ct) + ([] + After(c)) == Before(c) + Inorder(ct) + After(c);
    }
  }

  lemma {:induction false} UnlinkedTwo(c: Ctx, t: Tree, path: Ctx, next: nat, nr: Tree, maxHeight: nat)
    requires t.Node? && t.right == Plug(path, Node(Nil, next, nr)) && Before(path) == []
    requires HeightWith(Compose(path, In(false, next, t.left, c)), Height(nr) + 1) <= maxHeight
    ensures Unlinked(c, t, Compose(path, In(false, next, t.left, c)), nr, maxHeight)
  {
    var c' := Compose(path, In(false, next, t.left, c));
    DepthHeight(c', Height(nr) + 1);
    SuccessorOrder(c, t.left, t.id, path, next, nr);
    ComposeFacts(path, In(false, next, t.left, c), 0);
    PlugIds(path, Node(Nil, next, nr));
  }
}
