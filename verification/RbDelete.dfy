/** Unlinking a node: memory, order and balance of the zipper left behind. */
module RbDelete {
  import opened RbShape
  import opened RbBalance

  /** Memory after `transplant(u, v)`: whatever pointed to `u` from `c` points to `v`. */
  ghost predicate TransplantWrites(m: Mem, m': Mem, root: Node?, root': Node?, c: Ctx, v: Node?) {
    && SameOutside(m, m', (if v == null then {} else {v}) + (if c.Top? then {} else {c.item.node}))
    && (v != null ==> v in m && m'[v] == m[v].(parent := Parent(c)))
    && (if c.Top? then root' == v
        else root' == root && c.item.node in m && m'[c.item.node] == m[c.item.node].WithChild(c.side, v))
  }

  /** A node with no `s` child is replaced by its other child. */
  lemma SpliceZip(m: Mem, m': Mem, root: Node?, root': Node?, c: Ctx, t: Tree, s: Side)
    requires Zip(m, root, c, t) && t.Branch? && Near(t, s).Leaf?
    requires TransplantWrites(m, m', root, root', c, Root(Far(t, s)))
    ensures Zip(m', root', c, Far(t, s))
  {
    ZipIn(m, root, c, t);
    assert Far(t, s).Branch? ==> Far(t, s).item.node in Nodes(t);
    Reparent(m, m', Far(t, s), t.item.node, Parent(c));
    Relink(m, m', root, root', c, t.item.node, Root(Far(t, s)));
  }

  /** What `transplant` and the writes to the successor `y` leave in memory. */
  ghost predicate ReplaceWrites(m: Mem, m': Mem, root: Node?, root': Node?, c: Ctx, t: Tree, y: Item)
    requires t.Branch?
  {
    && SameOutside(m, m', {y.node} + Roots(t.left) + Roots(t.right) + (if c.Top? then {} else {c.item.node}))
    && y.node in m && m'[y.node] == Cell(y.key, y.meta, Root(t.left), Root(t.right), Parent(c), t.color)
    && (forall n :: n in Roots(t.left) + Roots(t.right) ==> n in m && m'[n] == m[n].(parent := y.node))
    && (if c.Top? then root' == y.node
        else root' == root && c.item.node in m && m'[c.item.node] == m[c.item.node].WithChild(c.side, y.node))
  }

  ghost function Roots(t: Tree): set<Node> { if t.Leaf? then {} else {t.item.node} }

  /** A subtree below the replaced node changes its parent and nothing else. */
  lemma ReplaceSubtree(m: Mem, m': Mem, root: Node?, root': Node?, c: Ctx, t: Tree, y: Item, s: Side)
    requires Zip(m, root, c, t) && t.Branch? && y.node !in Nodes(t) + CtxNodes(c)
    requires ReplaceWrites(m, m', root, root', c, t, y)
    ensures Rep(m', Near(t, s), y.node)
  {
    ZipIn(m, root, c, t);
    hide CtxRep, CtxDistinct;
    Reparent(m, m', Near(t, s), t.item.node, y.node);
  }

  lemma ReplaceLink(m: Mem, m': Mem, root: Node?, root': Node?, c: Ctx, t: Tree, y: Item)
    requires Zip(m, root, c, t) && t.Branch? && y.node !in Nodes(t) + CtxNodes(c)
    requires ReplaceWrites(m, m', root, root', c, t, y)
    ensures CtxRep(m', root', c, y.node)
  {
    ZipIn(m, root, c, t);
    assert Roots(t.left) <= Nodes(t.left) && Roots(t.right) <= Nodes(t.right);
    hide Rep;
    Relink(m, m', root, root', c, t.item.node, y.node);
  }

  /** The node at the root of `t` is replaced by a detached node. */
  lemma ReplaceZip(m: Mem, m': Mem, root: Node?, root': Node?, c: Ctx, t: Tree, y: Item)
    requires Zip(m, root, c, t) && t.Branch? && y.node !in Nodes(t) + CtxNodes(c)
    requires ReplaceWrites(m, m', root, root', c, t, y)
    ensures Zip(m', root', c, Branch(t.color, t.left, y, t.right))
  {
    hide CtxRep, CtxDistinct;
    ReplaceSubtree(m, m', root, root', c, t, y, L);
    ReplaceSubtree(m, m', root, root', c, t, y, R);
    ReplaceLink(m, m', root, root', c, t, y);
  }

  /** The node at the root of `t` is replaced by its right child, which has no left child. */
  lemma ReplaceByChildZip(m: Mem, m': Mem, root: Node?, root': Node?, c: Ctx, t: Tree)
    requires Zip(m, root, c, t) && t.Branch? && t.right.Branch? && t.right.left.Leaf?
    requires ReplaceWrites(m, m', root, root', c, t.(right := t.right.right), t.right.item)
    ensures Zip(m', root', c, Branch(t.color, t.left, t.right.item, t.right.right))
  {
    var y := t.right;
    assert Rep(m, y, t.item.node) && Distinct(y) && Nodes(y.right) <= Nodes(y) <= Nodes(t);
    ZipIn(m, root, c, t);
    assert Roots(t.left) <= Nodes(t.left) && Roots(y.right) <= Nodes(y.right);
    Reparent(m, m', t.left, t.item.node, y.item.node);
    Reparent(m, m', y.right, y.item.node, y.item.node);
    Relink(m, m', root, root', c, t.item.node, y.item.node);
  }

  /** All frames are left: the focus is the minimum of the tree. */
  ghost predicate Leftmost(d: Ctx) { d.Frame? ==> d.side.L? && Leftmost(d.up) }

  lemma LeftmostFlat(d: Ctx, t: Tree)
    requires Leftmost(d)
    ensures Before(d) == [] && Flat(Plug(d, t)) == Flat(t) + After(d)
  {
    LeftmostBefore(d);
    FlatPlug(d, t);
  }

  lemma LeftmostBefore(d: Ctx)
    requires Leftmost(d)
    ensures Before(d) == []
  {
  }

  /** Dropping a node without an `s` child. */
  lemma SpliceGood(c: Ctx, t: Tree, s: Side)
    requires RedBlack(Plug(c, t)) && t.Branch? && Near(t, s).Leaf?
    ensures t.color.Black? ==> Deficient(c, Far(t, s))
    ensures t.color.Red? ==> RedBlack(Plug(c, Far(t, s)))
  {
    UnplugGood(c, t);
    assert BlackHeight(Far(t, s)) == 0;
    assert NoRedRed(Far(t, s)) && Balanced(Far(t, s));
    if t.color.Red? {
      PlugGood(c, Far(t, s));
    }
  }

  /** Colors decide balance, entries do not. */
  lemma ReplaceItemGood(c: Ctx, t: Tree, i: Item)
    requires RedBlack(Plug(c, t)) && t.Branch?
    ensures RedBlack(Plug(c, t.(item := i)))
  {
    UnplugGood(c, t);
    PlugGood(c, t.(item := i));
  }

  /** The balance left when the leftmost node of `t.right` takes the place of the root of `t`. */
  lemma SuccessorGood(c: Ctx, t: Tree, d: Ctx, ty: Tree)
    requires RedBlack(Plug(c, t)) && t.Branch? && t.right == Plug(d, ty) && ty.Branch? && ty.left.Leaf?
    ensures
      var cx := Append(d, Frame(R, t.color, ty.item, t.left, c));
      && (ty.color.Black? ==> Deficient(cx, ty.right))
      && (ty.color.Red? ==> RedBlack(Plug(cx, ty.right)))
  {
    ReplaceItemGood(c, t, ty.item);
    var f := Frame(R, t.color, ty.item, t.left, c);
    PlugAppend(d, f, ty);
    assert Plug(f, t.right) == Plug(c, t.(item := ty.item));
    SpliceGood(Append(d, f), ty, L);
  }

  /** The entries left when the root of `t` is replaced by its successor. */
  lemma SuccessorFlat(c: Ctx, t: Tree, d: Ctx, ty: Tree)
    requires t.Branch? && t.right == Plug(d, ty) && ty.Branch? && ty.left.Leaf? && Leftmost(d)
    ensures
      var cx := Append(d, Frame(R, t.color, ty.item, t.left, c));
      Flat(Plug(cx, ty.right)) == Before(c) + (Flat(t.left) + Flat(t.right)) + After(c)
  {
    var f := Frame(R, t.color, ty.item, t.left, c);
    var r := Plug(d, ty.right);
    var u := Branch(t.color, t.left, ty.item, r);
    assert Flat(u) == Flat(t.left) + [ty.item] + Flat(r) && Flat(ty) == [ty.item] + Flat(ty.right) by { MinimumFlat(u, ty); }
    assert Plug(f, r) == Plug(c, u);
    hide Plug, Before, After, Flat;
    PlugAppend(d, f, ty.right);
    LeftmostFlat(d, ty);
    LeftmostFlat(d, ty.right);
    FlatPlug(c, u);
    Shift(Flat(t.left), ty.item, Flat(ty.right), After(d));
  }

  lemma MinimumFlat(u: Tree, ty: Tree)
    requires u.Branch? && ty.Branch? && ty.left.Leaf?
    ensures Flat(u) == Flat(u.left) + [u.item] + Flat(u.right) && Flat(ty) == [ty.item] + Flat(ty.right)
  {
  }

  lemma Shift(a: seq<Item>, i: Item, b: seq<Item>, d: seq<Item>)
    ensures a + [i] + (b + d) == a + ([i] + b + d)
  {
  }

  /** What unlinking the focus reads. */
  lemma FocusSites(m: Mem, root: Node?, c: Ctx, t: Tree)
    requires Zip(m, root, c, t) && t.Branch?
    ensures t.item.node in m && m[t.item.node].left == Root(t.left) && m[t.item.node].right == Root(t.right)
    ensures m[t.item.node].parent == Parent(c) && m[t.item.node].color == t.color
    ensures m[t.item.node].key == t.item.key && m[t.item.node].meta == t.item.meta
    ensures t.left.Branch? ==> t.left.item.node in m && t.left.item.node != t.item.node && t.left.item.node != Parent(c)
    ensures t.right.Branch? ==> t.right.item.node in m && t.right.item.node != t.item.node && t.right.item.node != Parent(c)
    ensures t.left.Branch? && t.right.Branch? ==> t.left.item.node != t.right.item.node
    ensures t.item.node != Parent(c)
    ensures c.Frame? ==> c.item.node in m && m[c.item.node].Child(c.side) == t.item.node
    ensures c.Frame? ==> m[c.item.node].Child(c.side.Flip()) != t.item.node
  {
    assert Rep(m, t.left, t.item.node) && Rep(m, t.right, t.item.node);
    assert forall u: Tree :: u.Branch? ==> u.item.node in Nodes(u);
    assert c.Frame? && c.sib.Branch? ==> c.sib.item.node in CtxNodes(c);
  }

  /** `y` is ready to take the place of `z`, keeping its own right link. */
  ghost predicate AdoptSites(m: Mem, c: Ctx, t: Tree, y: Item)
    requires t.Branch? && t.left.Branch?
  {
    var z, l := t.item.node, t.left.item.node;
    && z in m && m[z].left == l && m[z].color == t.color && m[z].parent == Parent(c)
    && y.node in m && m[y.node].key == y.key && m[y.node].meta == y.meta && m[y.node].right == Root(t.right)
    && l in m && l != y.node && l != z && y.node != z
    && Parent(c) != l && Parent(c) != z && Parent(c) != y.node
    && (t.right.Branch? ==>
          var r := t.right.item.node;
          r in m && m[r].parent == y.node && r != l && r != z && r != y.node && r != Parent(c))
    && (c.Frame? ==> c.item.node in m && m[c.item.node].Child(c.side) == z && m[c.item.node].Child(c.side.Flip()) != z)
  }

  lemma AdjacentSites(m: Mem, root: Node?, c: Ctx, t: Tree)
    requires Zip(m, root, c, t) && t.Branch? && t.left.Branch? && t.right.Branch? && t.right.left.Leaf?
    ensures AdoptSites(m, c, t.(right := t.right.right), t.right.item)
  {
    FocusSites(m, root, c, t);
    var over := Frame(R, t.color, t.item, t.left, c);
    ZipUp(m, root, over, t.right);
    FocusSites(m, root, over, t.right);
    hide Zip, Rep, CtxRep;
    var y := t.right;
    assert Nodes(y.right) <= Nodes(y) && Roots(y.right) <= Nodes(y.right) && Roots(t.left) <= Nodes(t.left);
    assert y.right.Branch? ==> y.right.item.node in Roots(y.right);
    assert t.left.item.node in Roots(t.left);
    assert y.right.Branch? ==> m[y.right.item.node].parent == y.item.node by {
      ChildParent(m, root, over, y);
    }
    DistinctZip(m, root, c, t);
  }

  lemma ChildParent(m: Mem, root: Node?, c: Ctx, t: Tree)
    requires Zip(m, root, c, t) && t.Branch?
    ensures t.right.Branch? ==> t.right.item.node in m && m[t.right.item.node].parent == t.item.node
  {
    assert Rep(m, t.right, t.item.node);
  }

  lemma DistinctZip(m: Mem, root: Node?, c: Ctx, t: Tree)
    requires Zip(m, root, c, t) && t.Branch?
    ensures Nodes(t.left) !! Nodes(t.right) && t.item.node !in Nodes(t.left) + Nodes(t.right)
    ensures Nodes(t) !! CtxNodes(c) && Nodes(t.left) + Nodes(t.right) + {t.item.node} == Nodes(t)
    ensures c.Frame? ==> c.item.node in CtxNodes(c)
  {
  }

  /** Pointing a detached `y` at the right subtree makes it ready. */
  lemma FarSites(m: Mem, m': Mem, root: Node?, c: Ctx, t: Tree, y: Item)
    requires Zip(m, root, c, t) && t.Branch? && t.left.Branch? && t.right.Branch?
    requires y.node in m && y.node !in Nodes(t) + CtxNodes(c) && m[y.node].key == y.key && m[y.node].meta == y.meta
    requires t.right.item.node in m && m' == WithRight(m, y.node, t.right.item.node)
    ensures AdoptSites(m', c, t, y)
  {
    FocusSites(m, root, c, t);
    DistinctZip(m, root, c, t);
    hide Zip, Rep, CtxRep;
    assert t.left.item.node in Nodes(t.left) && t.right.item.node in Nodes(t.right);
  }

  /** `r` becomes the right child of `y`. */
  ghost function WithRight(m: Mem, y: Node, r: Node): Mem
    requires y in m && r in m
  {
    m[y := m[y].(right := r)][r := m[r].(parent := y)]
  }

  /** `l` becomes the left child of `y`, which gets the color `k`. */
  ghost function WithLeft(m: Mem, y: Node, l: Node, k: Color): Mem
    requires y in m && l in m
  {
    m[y := m[y].(left := l, color := k)][l := m[l].(parent := y)]
  }

  lemma AdoptWrites(m: Mem, m1: Mem, m': Mem, root: Node?, root': Node?, c: Ctx, t: Tree, y: Item)
    requires t.Branch? && t.left.Branch? && AdoptSites(m, c, t, y)
    requires TransplantWrites(m, m1, root, root', c, y.node)
    requires y.node in m1 && t.left.item.node in m1 && m' == WithLeft(m1, y.node, t.left.item.node, t.color)
    ensures ReplaceWrites(m, m', root, root', c, t, y)
  {
  }

  lemma FarWrites(m: Mem, m1: Mem, m': Mem, root: Node?, root': Node?, c: Ctx, t: Tree, y: Item)
    requires t.Branch? && t.right.Branch? && y.node in m && t.right.item.node in m && y.node != t.right.item.node
    requires y.node !in CtxNodes(c) && t.right.item.node !in CtxNodes(c) && Roots(t.left) !! {y.node, t.right.item.node}
    requires m1 == WithRight(m, y.node, t.right.item.node)
    requires ReplaceWrites(m1, m', root, root', c, t, y)
    ensures ReplaceWrites(m, m', root, root', c, t, y)
  {
    hide Nodes;
    assert c.Frame? ==> c.item.node in CtxNodes(c);
  }

  /** The entries of `Plug(c, t)` without the one at the root of `t`. */
  ghost function Without(c: Ctx, t: Tree): seq<Item>
    requires t.Branch?
  {
    Before(c) + (Flat(t.left) + Flat(t.right)) + After(c)
  }

  lemma SpliceFlat(c: Ctx, t: Tree, s: Side)
    requires t.Branch? && Near(t, s).Leaf?
    ensures Flat(Plug(c, Far(t, s))) == Without(c, t)
  {
    FlatPlug(c, Far(t, s));
    assert Flat(t.left) + Flat(t.right) == Flat(Far(t, s));
  }

  lemma RemoveOne(a: seq<Item>, i: Item, b: seq<Item>)
    requires NoRepeat((a + [i]) + b)
    ensures ItemNodes(a + b) == ItemNodes((a + [i]) + b) - {i.node}
    ensures i.node in ItemNodes((a + [i]) + b)
  {
    var one := [i];
    assert one[0] in one;
    assert ItemNodes(one) == {i.node};
    ItemNodesConcat(a, one);
    ItemNodesConcat(a + one, b);
    ItemNodesConcat(a, b);
    NoRepeatConcat(a, one);
    NoRepeatConcat(a + one, b);
    hide ItemNodes, NoRepeat;
  }

  lemma WithoutNodes(c: Ctx, t: Tree, u: Tree)
    requires t.Branch? && Distinct(Plug(c, t)) && Flat(u) == Without(c, t)
    ensures Nodes(u) == Nodes(Plug(c, t)) - {t.item.node} && t.item.node in Nodes(Plug(c, t))
  {
    FlatPlug(c, t);
    FlatNodes(Plug(c, t));
    FlatNodes(u);
    assert Flat(t) == Flat(t.left) + [t.item] + Flat(t.right);
    hide Plug, Flat, Nodes, Distinct, Before, After, NoRepeat, ItemNodes;
    Around(Before(c), Flat(t.left), t.item, Flat(t.right), After(c));
    RemoveOne(Before(c) + Flat(t.left), t.item, Flat(t.right) + After(c));
  }

  lemma BottomParent(d: Ctx, base: Ctx)
    ensures Parent(Append(d, base)) == if d.Top? then Parent(base) else d.item.node
  {
  }

  /** Only the right child of `z` itself has `z` as parent. */
  lemma TopOrNot(m: Mem, root: Node?, d: Ctx, zf: Ctx, ty: Tree)
    requires zf.Frame? && Zip(m, root, Append(d, zf), ty) && ty.Branch?
    requires Parent(Append(d, zf)) == zf.item.node
    ensures d.Top?
  {
    if d.Frame? {
      AppendNodes(d.up, zf);
      assert CtxDistinct(Append(d, zf));
    }
  }

  lemma {:induction false} AppendNodes(d: Ctx, base: Ctx)
    ensures CtxNodes(Append(d, base)) == CtxNodes(d) + CtxNodes(base)
  {
    if d.Frame? {
      AppendNodes(d.up, base);
    }
  }

  lemma {:induction false} PlugBranch(d: Ctx, t: Tree)
    ensures d.Frame? || t.Branch? ==> Plug(d, t).Branch?
    decreases d
  {
    if d.Frame? {
      PlugBranch(d.up, Fill(d, t));
    }
  }

  /** The successor occurs nowhere else. */
  lemma DetachedNodes(m: Mem, root: Node?, c: Ctx, t: Tree, d: Ctx, ty: Tree)
    requires t.Branch? && t.right == Plug(d, ty) && ty.Branch? && ty.left.Leaf?
    requires Zip(m, root, Append(d, Frame(R, t.color, t.item, t.left, c)), ty)
    ensures
      var zy := Append(d, Frame(R, t.color, t.item, t.left, c));
      && Nodes(ty.left) == {} && ty.item.node !in Nodes(ty.right) + CtxNodes(zy)
      && CtxNodes(zy) == CtxNodes(d) + Nodes(t.left) + {t.item.node} + CtxNodes(c)
      && Nodes(t) == Nodes(t.left) + {t.item.node} + Nodes(ty.right) + {ty.item.node} + CtxNodes(d)
      && Nodes(t.(right := Plug(d, ty.right))) == Nodes(t.left) + {t.item.node} + Nodes(ty.right) + CtxNodes(d)
  {
    var zf := Frame(R, t.color, t.item, t.left, c);
    DetachedFocus(m, root, Append(d, zf), ty);
    FrameNodes(zf, t, Plug(d, ty.right));
    hide Zip, Distinct, Plug, Nodes, CtxNodes;
    AppendNodes(d, zf);
    NodesPlug(d, ty);
    NodesPlug(d, ty.right);
  }

  lemma DetachedFocus(m: Mem, root: Node?, c: Ctx, ty: Tree)
    requires Zip(m, root, c, ty) && ty.Branch? && ty.left.Leaf?
    ensures Nodes(ty.left) == {} && ty.item.node !in Nodes(ty.right) + CtxNodes(c) && Nodes(ty) == {ty.item.node} + Nodes(ty.right)
  {
  }

  lemma FrameNodes(f: Ctx, t: Tree, r: Tree)
    requires f.Frame? && t.Branch? && f.sib == t.left && f.item == t.item
    ensures CtxNodes(f) == Nodes(t.left) + {t.item.node} + CtxNodes(f.up)
    ensures Nodes(t) == Nodes(t.left) + {t.item.node} + Nodes(t.right)
    ensures Nodes(t.(right := r)) == Nodes(t.left) + {t.item.node} + Nodes(r)
  {
  }

  lemma SameNodes(c: Ctx, t: Tree, i: Item)
    requires t.Branch? && i.node == t.item.node
    ensures Nodes(Plug(c, t)) == Nodes(Plug(c, t.(item := i))) && i.node in Nodes(Plug(c, t))
  {
    NodesPlug(c, t);
    NodesPlug(c, t.(item := i));
  }

  lemma DistinctPlug(m: Mem, root: Node?, c: Ctx, t: Tree)
    requires Zip(m, root, c, t)
    ensures Distinct(Plug(c, t)) && Nodes(Plug(c, t)) == Nodes(t) + CtxNodes(c)
  {
    hide Plug, Nodes, CtxNodes, Distinct;
    RootView(m, root, c, t);
    NodesPlug(c, t);
  }
}
