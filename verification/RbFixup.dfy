/** The repairs of the red-black conditions, as steps on zippers. */
module RbFixup {
  import opened RbShape
  import opened RbBalance
  import opened RbSearch

  /** A red node under a red parent, which is not the root. */
  ghost predicate RedUnderRed(c: Ctx, t: Tree) {
    RedRoot(c, t) && t.Branch? && t.color.Red? && c.Frame? && c.color.Red?
  }

  lemma HasGrandparent(c: Ctx, t: Tree)
    requires RedUnderRed(c, t)
    ensures c.up.Frame? && c.up.color.Black?
  {
  }

  /** The uncle is red: parent and uncle turn black, the grandparent turns red. */
  ghost function Recolored(c: Ctx, t: Tree): Tree
    requires c.Frame? && c.up.Frame? && c.up.sib.Branch?
  {
    var uncle := c.up.sib.(color := Black);
    Make(c.up.side, Red, Make(c.side, Black, t, c.item, c.sib), c.up.item, uncle)
  }

  lemma RecoloredGood(c: Ctx, t: Tree)
    requires RedUnderRed(c, t) && c.up.Frame? && !IsBlack(c.up.sib)
    ensures RedRoot(c.up.up, Recolored(c, t))
    ensures Kin(Plug(c.up.up, Recolored(c, t)), Plug(c, t))
  {
    assert CtxNoRedRed(c.up) && CtxBalanced(c.up, BlackHeight(t)) && RootBlack(c.up);
    var parent := Make(c.side, Black, t, c.item, c.sib);
    MakeGood(c.side, Black, t, c.item, c.sib);
    var uncle := c.up.sib.(color := Black);
    assert NoRedRed(uncle) && Balanced(uncle) && BlackHeight(uncle) == BlackHeight(t) + 1;
    MakeGood(c.up.side, Red, parent, c.up.item, uncle);
    assert Kin(parent, Fill(c, t)) && Kin(uncle, c.up.sib);
    KinPlug(c.up.up, Recolored(c, t), Fill(c.up, Fill(c, t)));
  }

  /** An inner grandchild is rotated outwards; the view moves to its old parent. */
  lemma InnerGood(c: Ctx, t: Tree, s: Side)
    requires RedUnderRed(c, t) && c.up.Frame? && c.up.side == s && c.side == s.Flip()
    ensures
      var t' := Make(s, Red, c.sib, c.item, Near(t, s));
      var c' := Frame(s, Red, t.item, Far(t, s), c.up);
      && Fill(c', t') == Rotated(Fill(c, t), s)
      && RedUnderRed(c', t')
      && Kin(Plug(c', t'), Plug(c, t))
  {
    RotatedKin(Fill(c, t), s);
    KinPlug(c.up, Rotated(Fill(c, t), s), Fill(c, t));
  }

  /** The grandparent tree before the last rotation, with parent black and grandparent red. */
  ghost function Swapped(c: Ctx, t: Tree): Tree
    requires c.Frame? && c.up.Frame?
  {
    Make(c.up.side, Red, Make(c.side, Black, t, c.item, c.sib), c.up.item, c.up.sib)
  }

  lemma OuterGood(c: Ctx, t: Tree, s: Side)
    requires RedUnderRed(c, t) && c.up.Frame? && IsBlack(c.up.sib) && c.up.side == s && c.side == s
    ensures
      var c' := Frame(s, Black, c.item, Make(s, Red, c.sib, c.up.item, c.up.sib), c.up.up);
      && Far(Swapped(c, t), s.Flip()).Branch?
      && Fill(c', t) == Rotated(Swapped(c, t), s.Flip())
      && RedRoot(c', t)
      && Kin(Plug(c', t), Plug(c, t))
  {
    assert CtxNoRedRed(c.up) && CtxBalanced(c.up, BlackHeight(t)) && RootBlack(c.up);
    var far := Make(s, Red, c.sib, c.up.item, c.up.sib);
    assert NoRedRed(far) && Balanced(far) && BlackHeight(far) == BlackHeight(t);
    assert Kin(Make(c.side, Black, t, c.item, c.sib), Fill(c, t));
    RotatedKin(Swapped(c, t), s.Flip());
    KinPlug(c.up.up, Rotated(Swapped(c, t), s.Flip()), Fill(c.up, Fill(c, t)));
  }

  /** The parent and grandparent seen from a focus two frames down. */
  lemma ZipParents(m: Mem, root: Node?, c: Ctx, t: Tree)
    requires Zip(m, root, c, t) && c.Frame? && c.up.Frame?
    ensures Zip(m, root, c.up, Fill(c, t)) && Zip(m, root, c.up.up, Fill(c.up, Fill(c, t)))
    ensures c.item.node in m && c.up.item.node in m && c.item.node != c.up.item.node
    ensures m[c.item.node].parent == c.up.item.node && m[c.item.node].Child(c.side) == Root(t)
    ensures t.Branch? ==> m[c.item.node].Child(c.side.Flip()) != Root(t)
    ensures c.up.sib.Branch? ==> m[c.up.sib.item.node].color == c.up.sib.color
    ensures m[c.up.item.node].Child(c.up.side) == c.item.node && m[c.up.item.node].Child(c.up.side.Flip()) == Root(c.up.sib)
    ensures m[c.up.item.node].parent == Parent(c.up.up)
    ensures c.up.sib.Branch? ==> c.up.sib.item.node in m && c.up.sib.item.node != c.up.item.node && c.up.sib.item.node != c.item.node
  {
    ZipUp(m, root, c, t);
    ZipUp(m, root, c.up, Fill(c, t));
    ZipIn(m, root, c, t);
    assert CtxRep(m, root, c.up, c.item.node) && Rep(m, c.up.sib, c.up.item.node);
    assert c.sib.Branch? ==> c.sib.item.node in CtxNodes(c);
  }

  /** What the focus and its parent hold. */
  lemma ZipFocus(m: Mem, root: Node?, c: Ctx, t: Tree)
    requires Zip(m, root, c, t)
    ensures t.Branch? ==> t.item.node in m && m[t.item.node].parent == Parent(c) && m[t.item.node].color == t.color
    ensures c.Frame? ==> c.item.node in m && m[c.item.node].color == c.color
  {
  }

  lemma RecolorZip(m: Mem, root: Node?, c: Ctx, t: Tree)
    requires Zip(m, root, c, t) && c.Frame? && c.up.Frame? && c.up.sib.Branch?
    ensures c.item.node in m && c.up.sib.item.node in m && c.up.item.node in m
    ensures Zip(Painted(Painted(Painted(m, c.item.node, Black), c.up.sib.item.node, Black), c.up.item.node, Red),
                root, c.up.up, Recolored(c, t))
  {
    ZipParents(m, root, c, t);
    var g := Fill(c.up, Fill(c, t));
    PaintNear(m, root, c.up.up, g, c.up.side, Black);
    var m1 := Painted(m, c.item.node, Black);
    var g1 := Make(c.up.side, c.up.color, Fill(c, t).(color := Black), c.up.item, c.up.sib);
    PaintNear(m1, root, c.up.up, g1, c.up.side.Flip(), Black);
    var m2 := Painted(m1, c.up.sib.item.node, Black);
    var r := Recolored(c, t);
    PaintZip(m2, root, c.up.up, r.(color := c.up.color), Red);
  }

  lemma SwapZip(m: Mem, root: Node?, c: Ctx, t: Tree)
    requires Zip(m, root, c, t) && c.Frame? && c.up.Frame?
    ensures c.item.node in m && c.up.item.node in m
    ensures Zip(Painted(Painted(m, c.item.node, Black), c.up.item.node, Red), root, c.up.up, Swapped(c, t))
  {
    ZipUp(m, root, c, t);
    ZipUp(m, root, c.up, Fill(c, t));
    PaintNear(m, root, c.up.up, Fill(c.up, Fill(c, t)), c.up.side, Black);
    var r := Swapped(c, t);
    PaintZip(Painted(m, c.item.node, Black), root, c.up.up, r.(color := c.up.color), Red);
  }

  lemma SwapNodes(c: Ctx, t: Tree)
    requires c.Frame? && c.up.Frame?
    ensures Nodes(Swapped(c, t)) + CtxNodes(c.up.up) == ItemNodes(Flat(Plug(c, t)))
    ensures {c.item.node, c.up.item.node} <= ItemNodes(Flat(Plug(c, t)))
  {
    PlugNodes(c, t);
    assert Kin(Make(c.side, Black, t, c.item, c.sib), Fill(c, t));
    KinNodes(Swapped(c, t), Fill(c.up, Fill(c, t)));
    PlugNodes(c.up.up, Fill(c.up, Fill(c, t)));
  }

  /** The deletion repair works on a black `t` that lacks one black node. */
  ghost predicate ToRepair(c: Ctx, t: Tree) { Deficient(c, t) && IsBlack(t) && c.Frame? }

  /** The sibling is never null: its black height is one more than that of `t`. */
  lemma HasSibling(c: Ctx, t: Tree)
    requires ToRepair(c, t)
    ensures c.sib.Branch?
    ensures IsBlack(c.sib) ==> BlackHeight(c.sib) == BlackHeight(Near(c.sib, c.side)) + 1
  {
  }

  /** Sibling red: a rotation at the parent makes the sibling black and the parent red. */
  lemma RedSiblingGood(c: Ctx, t: Tree)
    requires ToRepair(c, t) && c.sib.Branch? && c.sib.color.Red?
    ensures
      var s, w := c.side, c.sib;
      var g := Make(s, Red, t, c.item, w.(color := Black));
      var c' := Frame(s, Red, c.item, Near(w, s), Frame(s, Black, w.item, Far(w, s), c.up));
      && Fill(c'.up, Fill(c', t)) == Rotated(g, s)
      && ToRepair(c', t) && IsBlack(c'.sib)
      && Kin(Plug(c', t), Plug(c, t))
  {
    var s, w := c.side, c.sib;
    var g := Make(s, Red, t, c.item, w.(color := Black));
    assert NoRedRed(w) && Balanced(w);
    assert BlackHeight(Near(w, s)) == BlackHeight(t) + 1 == BlackHeight(Far(w, s));
    assert CtxNoRedRed(c.up) && RootBlack(c.up) && CtxBalanced(c.up, BlackHeight(t) + 2);
    var up' := Frame(s, Black, w.item, Far(w, s), c.up);
    assert CtxNoRedRed(up') && RootBlack(up') && CtxBalanced(up', BlackHeight(t) + 1);
    RotatedKin(g, s);
    assert Kin(w.(color := Black), w);
    KinPlug(c.up, Rotated(g, s), Fill(c, t));
  }

  /** Sibling and nephews black: the sibling turns red and the gap moves up. */
  lemma BlackNephewsGood(c: Ctx, t: Tree)
    requires ToRepair(c, t) && c.sib.Branch? && c.sib.color.Black? && IsBlack(c.sib.left) && IsBlack(c.sib.right)
    ensures
      var t' := Make(c.side, c.color, t, c.item, c.sib.(color := Red));
      && Deficient(c.up, t')
      && Kin(Plug(c.up, t'), Plug(c, t))
  {
    var w := c.sib.(color := Red);
    assert NoRedRed(w) && Balanced(w) && BlackHeight(w) == BlackHeight(t);
    assert CtxNoRedRed(c.up) && RootBlack(c.up);
    assert Kin(w, c.sib);
    KinPlug(c.up, Make(c.side, c.color, t, c.item, w), Fill(c, t));
  }

  /** Inner nephew red, outer black: a rotation at the sibling makes the outer nephew red. */
  lemma InnerNephewGood(c: Ctx, t: Tree)
    requires ToRepair(c, t) && c.sib.Branch? && c.sib.color.Black?
    requires IsBlack(Far(c.sib, c.side)) && !IsBlack(Near(c.sib, c.side))
    ensures
      var s, w := c.side, c.sib;
      var w1 := Make(s, Red, Near(w, s).(color := Black), w.item, Far(w, s));
      && Far(w1, s.Flip()).Branch?
      && var c' := c.(sib := Rotated(w1, s.Flip()));
      && ToRepair(c', t) && c'.sib.color.Black? && !IsBlack(Far(c'.sib, s))
      && Kin(Plug(c', t), Plug(c, t))
  {
    var s, w := c.side, c.sib;
    var n := Near(w, s);
    var w1 := Make(s, Red, n.(color := Black), w.item, Far(w, s));
    assert NoRedRed(n) && Balanced(n);
    assert Kin(n.(color := Black), n);
    var w2 := Rotated(w1, s.Flip());
    RotatedKin(w1, s.Flip());
    var o := Far(w2, s);
    assert o == Make(s, Red, Far(n, s), w.item, Far(w, s));
    assert NoRedRed(o) && Balanced(o) && BlackHeight(o) == BlackHeight(t);
    assert Near(w2, s) == Near(n, s);
    assert NoRedRed(w2) && Balanced(w2) && BlackHeight(w2) == BlackHeight(t) + 1;
    KinPlug(c.up, Make(s, c.color, t, c.item, w2), Fill(c, t));
  }

  /** Outer nephew red: the parent tree after its colors changed, before the rotation at the parent. */
  ghost function Spread(c: Ctx, t: Tree): Tree
    requires c.Frame? && c.sib.Branch? && Far(c.sib, c.side).Branch?
  {
    var s, w := c.side, c.sib;
    Make(s, Black, t, c.item, Make(s, c.color, Near(w, s), w.item, Far(w, s).(color := Black)))
  }

  lemma SpreadGood(c: Ctx, t: Tree)
    requires ToRepair(c, t) && c.sib.Branch? && c.sib.color.Black? && !IsBlack(Far(c.sib, c.side))
    ensures RedRoot(c.up, Rotated(Spread(c, t), c.side)) && (IsBlack(Rotated(Spread(c, t), c.side)) || TopBlack(c.up))
    ensures c.up.Top? ==> IsBlack(Rotated(Spread(c, t), c.side))
  {
    var s, w := c.side, c.sib;
    var o := Far(w, s);
    assert Balanced(w) && NoRedRed(w);
    assert NoRedRed(o) && Balanced(o);
    assert BlackHeight(Near(w, s)) == BlackHeight(t) == BlackHeight(o);
    var x := Make(s, Black, t, c.item, Near(w, s));
    MakeGood(s, Black, t, c.item, Near(w, s));
    var r := Rotated(Spread(c, t), s);
    assert r == Make(s, c.color, x, w.item, o.(color := Black));
    MakeGood(s, c.color, x, w.item, o.(color := Black));
  }

  /** A rotation at the parent closes the gap. */
  lemma OuterNephewGood(c: Ctx, t: Tree)
    requires ToRepair(c, t) && c.sib.Branch? && c.sib.color.Black? && !IsBlack(Far(c.sib, c.side))
    ensures RedBlack(Plug(c.up, Rotated(Spread(c, t), c.side)))
    ensures Kin(Plug(c.up, Rotated(Spread(c, t), c.side)), Plug(c, t))
  {
    var s, w := c.side, c.sib;
    var o := Far(w, s);
    SpreadGood(c, t);
    PlugGood(c.up, Rotated(Spread(c, t), s));
    assert Kin(o.(color := Black), o);
    assert Kin(Make(s, c.color, Near(w, s), w.item, o.(color := Black)), w);
    RotatedKin(Spread(c, t), s);
    KinPlug(c.up, Rotated(Spread(c, t), s), Fill(c, t));
  }

  /** Memory facts the deletion repair reads at the parent and the sibling. */
  lemma SiblingSites(m: Mem, root: Node?, c: Ctx, t: Tree)
    requires Zip(m, root, c, t) && c.Frame? && c.sib.Branch?
    ensures c.item.node in m && c.sib.item.node in m && c.item.node != c.sib.item.node
    ensures m[c.item.node].Child(c.side) == Root(t) && m[c.item.node].Child(c.side.Flip()) == c.sib.item.node
    ensures c.sib.item.node != Root(t)
    ensures m[c.item.node].parent == Parent(c.up) && m[c.item.node].color == c.color
    ensures m[c.sib.item.node].color == c.sib.color
    ensures m[c.sib.item.node].left == Root(c.sib.left) && m[c.sib.item.node].right == Root(c.sib.right)
    ensures c.sib.left.Branch? ==> c.sib.left.item.node in m && m[c.sib.left.item.node].color == c.sib.left.color
    ensures c.sib.right.Branch? ==> c.sib.right.item.node in m && m[c.sib.right.item.node].color == c.sib.right.color
  {
    assert Rep(m, c.sib, c.item.node);
    assert Rep(m, c.sib.left, c.sib.item.node) && Rep(m, c.sib.right, c.sib.item.node);
    assert c.sib.item.node in CtxNodes(c);
  }

  /** Parent, sibling and nephews are nodes of the tree. */
  lemma SiblingIn(m: Mem, root: Node?, c: Ctx, t: Tree)
    requires Zip(m, root, c, t) && c.Frame? && c.sib.Branch?
    ensures
      var all := ItemNodes(Flat(Plug(c, t)));
      && all <= m.Keys && c.item.node in all && c.sib.item.node in all
      && (c.sib.left.Branch? ==> c.sib.left.item.node in all)
      && (c.sib.right.Branch? ==> c.sib.right.item.node in all)
    ensures m[c.item.node].color == c.color
  {
    ZipIn(m, root, c, t);
    PlugNodes(c, t);
    assert Nodes(c.sib.left) + Nodes(c.sib.right) <= Nodes(c.sib);
    assert forall u: Tree :: u.Branch? ==> u.item.node in Nodes(u);
  }

  /** Painting the sibling, then the parent. */
  lemma PaintSibling(m: Mem, root: Node?, c: Ctx, t: Tree, kw: Color, kp: Color)
    requires Zip(m, root, c, t) && c.Frame? && c.sib.Branch?
    ensures c.item.node in m && c.sib.item.node in m
    ensures Zip(Painted(Painted(m, c.sib.item.node, kw), c.item.node, kp), root, c.up,
                Make(c.side, kp, t, c.item, c.sib.(color := kw)))
  {
    ZipUp(m, root, c, t);
    PaintNear(m, root, c.up, Fill(c, t), c.side.Flip(), kw);
    var g := Make(c.side, kp, t, c.item, c.sib.(color := kw));
    PaintZip(Painted(m, c.sib.item.node, kw), root, c.up, g.(color := c.color), kp);
  }

  lemma PaintedNodes(c: Ctx, t: Tree, g: Tree)
    requires c.Frame? && Kin(g, Fill(c, t))
    ensures Nodes(g) + CtxNodes(c.up) == ItemNodes(Flat(Plug(c, t)))
  {
    KinNodes(g, Fill(c, t));
    PlugNodes(c.up, Fill(c, t));
  }

  /** Inner nephew painted black, then the sibling red; the view is at the sibling. */
  lemma NephewZip(m: Mem, root: Node?, c: Ctx, t: Tree)
    requires Zip(m, root, c, t) && c.Frame? && c.sib.Branch? && Near(c.sib, c.side).Branch?
    ensures c.sib.item.node in m && Near(c.sib, c.side).item.node in m
    ensures
      var v, w := Near(c.sib, c.side).item.node, c.sib.item.node;
      var over := Frame(c.side.Flip(), c.color, c.item, t, c.up);
      var w1 := Make(c.side, Red, Near(c.sib, c.side).(color := Black), c.sib.item, Far(c.sib, c.side));
      && Zip(Painted(Painted(m, v, Black), w, Red), root, over, w1)
      && Nodes(w1) + CtxNodes(over) == ItemNodes(Flat(Plug(c, t)))
  {
    var over := Frame(c.side.Flip(), c.color, c.item, t, c.up);
    var w1 := Make(c.side, Red, Near(c.sib, c.side).(color := Black), c.sib.item, Far(c.sib, c.side));
    ZipUp(m, root, c, t);
    assert Fill(over, c.sib) == Fill(c, t);
    ZipUp(m, root, over, c.sib);
    PaintNear(m, root, over, c.sib, c.side, Black);
    PaintZip(Painted(m, Near(c.sib, c.side).item.node, Black), root, over, w1.(color := c.sib.color), Red);
    assert Kin(Near(c.sib, c.side).(color := Black), Near(c.sib, c.side));
    KinNodes(w1, c.sib);
    PlugNodes(c, t);
  }

  /** Sibling, parent and outer nephew painted; the view is at the parent. */
  lemma SpreadZip(m: Mem, root: Node?, c: Ctx, t: Tree)
    requires Zip(m, root, c, t) && c.Frame? && c.sib.Branch? && Far(c.sib, c.side).Branch?
    ensures c.item.node in m && c.sib.item.node in m && Far(c.sib, c.side).item.node in m
    ensures
      var v, w := Far(c.sib, c.side).item.node, c.sib.item.node;
      Zip(Painted(Painted(Painted(m, w, c.color), c.item.node, Black), v, Black), root, c.up, Spread(c, t))
  {
    var s, w, o := c.side, c.sib, Far(c.sib, c.side);
    PaintSibling(m, root, c, t, c.color, Black);
    var m2 := Painted(Painted(m, w.item.node, c.color), c.item.node, Black);
    var over := Frame(s.Flip(), Black, c.item, t, c.up);
    var w1 := w.(color := c.color);
    assert Fill(over, w1) == Make(s, Black, t, c.item, w1);
    ZipUp(m2, root, over, w1);
    PaintNear(m2, root, over, w1, s.Flip(), Black);
    var w2 := Make(s, c.color, Near(w, s), w.item, o.(color := Black));
    ZipUp(Painted(m2, o.item.node, Black), root, over, w2);
  }

  lemma SpreadNodes(c: Ctx, t: Tree)
    requires c.Frame? && c.sib.Branch? && Far(c.sib, c.side).Branch?
    ensures Nodes(Spread(c, t)) + CtxNodes(c.up) == ItemNodes(Flat(Plug(c, t)))
  {
    var s, w, o := c.side, c.sib, Far(c.sib, c.side);
    assert Kin(o.(color := Black), o);
    assert Kin(Make(s, c.color, Near(w, s), w.item, o.(color := Black)), w);
    PaintedNodes(c, t, Spread(c, t));
  }

  /** The root pointer meets the focus only at the top. */
  lemma RootAbove(m: Mem, root: Node?, c: Ctx, t: Tree)
    requires Zip(m, root, c, t)
    ensures root == Root(t) <==> c.Top?
  {
    if c.Frame? {
      RootInCtx(m, root, c, Root(t));
      assert t.Branch? ==> t.item.node in Nodes(t);
    }
  }

  lemma {:induction false} RootInCtx(m: Mem, root: Node?, c: Ctx, hole: Node?)
    requires CtxRep(m, root, c, hole) && c.Frame?
    ensures root in CtxNodes(c)
  {
    if c.up.Frame? {
      RootInCtx(m, root, c.up, c.item.node);
    }
  }

  lemma ZipRoot(m: Mem, root: Node?, t: Tree)
    requires Zip(m, root, Top, t)
    ensures root == Root(t)
  {
  }

  lemma BlackFocusGood(c: Ctx, t: Tree)
    requires Deficient(c, t) && t.Branch? && (c.Frame? ==> !IsBlack(t))
    ensures RedBlack(Plug(c, t.(color := Black)))
  {
    PaintedRoot(t);
    if c.Frame? {
      PlugGood(c, t.(color := Black));
    }
  }

  /** A red leaf at an empty focus of a valid tree. */
  lemma NewLeaf(m: Mem, root: Node?, c: Ctx, i: Item)
    requires Zip(m, root, Top, Plug(c, Leaf)) && RedBlack(Plug(c, Leaf)) && Sorted(Flat(Plug(c, Leaf)))
    requires Narrowed(c, i.key) && i.node !in Nodes(Plug(c, Leaf))
    ensures
      var leaf := Branch(Red, Leaf, i, Leaf);
      && Zip(m, root, c, Leaf) && i.node !in CtxNodes(c)
      && RedRoot(c, leaf)
      && Nodes(Plug(c, leaf)) == Nodes(Plug(c, Leaf)) + {i.node} && CtxNodes(c) == Nodes(Plug(c, Leaf))
      && Sorted(Flat(Plug(c, leaf)))
      && MapOf(Flat(Plug(c, leaf))) == MapOf(Flat(Plug(c, Leaf)))[i.key := i.meta]
  {
    hide Zip, Sorted, MapOf, Before, After;
    var leaf := Branch(Red, Leaf, i, Leaf);
    AppendTop(c);
    ZipPlug(m, root, c, Top, Leaf);
    NodesPlug(c, Leaf);
    NodesPlug(c, leaf);
    UnplugGood(c, Leaf);
    InsertMap(c, i);
    FlatPlug(c, leaf);
    assert Flat(leaf) == [i];
  }
}
