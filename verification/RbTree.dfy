/** The red-black map of big allocations, with parent pointers and a free list of nodes. */
module RbTree {
  import opened Options
  import opened Numbers
  import opened BigMeta
  import opened RbShape
  import opened RbBalance
  import opened RbFixup
  import opened RbDelete
  import opened RbSearch
  import opened RbPool

  class RBTree {
    var root: Node?
    var freeList: Node?
    ghost var nodes: set<Node>
    ghost var tree: Tree
    ghost var free: seq<Node>
    ghost var chunks: nat

    ghost predicate Valid()
      reads this, nodes
    {
      && Zip(Mem(), root, Top, tree) && RedBlack(tree) && Sorted(Flat(tree))
      && Pool(Mem(), freeList, free, Nodes(tree), chunks)
    }

    /** The finite map this tree stands for. */
    ghost function Contents(): map<nat, BigAllocMeta>
      reads this`tree
    {
      MapOf(Flat(tree))
    }

    constructor ()
      ensures Valid() && Contents() == map[] && nodes == {}
    {
      root, freeList, nodes, tree, free, chunks := null, null, {}, Leaf, [], 0;
    }

    ghost function Mem(): Mem
      reads this`nodes, nodes
    {
      map n | n in nodes :: n.Read()
    }

    function ColorOf(n: Node?): Color
      reads n
    {
      if n == null then Black else n.color
    }

    method RotateLeft(x: Node, ghost c: Ctx, ghost t: Tree)
      requires t.Branch? && t.right.Branch? && t.item.node == x && RotationSites(Mem(), c, t, L)
      modifies this`root, nodes
      ensures RotationWrites(old(Mem()), Mem(), old(root), root, c, t, L)
    {
      var y := x.right;
      x.right := y.left;
      if y.left != null {
        y.left.parent := x;
      }
      y.parent := x.parent;
      if x.parent == null {
        root := y;
      } else if x == x.parent.left {
        x.parent.left := y;
      } else {
        x.parent.right := y;
      }
      y.left := x;
      x.parent := y;
    }

    method RotateRight(x: Node, ghost c: Ctx, ghost t: Tree)
      requires t.Branch? && t.left.Branch? && t.item.node == x && RotationSites(Mem(), c, t, R)
      modifies this`root, nodes
      ensures RotationWrites(old(Mem()), Mem(), old(root), root, c, t, R)
    {
      var y := x.left;
      x.left := y.right;
      if y.right != null {
        y.right.parent := x;
      }
      y.parent := x.parent;
      if x.parent == null {
        root := y;
      } else if x == x.parent.right {
        x.parent.right := y;
      } else {
        x.parent.left := y;
      }
      y.right := x;
      x.parent := y;
    }

    method Rotate(x: Node, s: Side, ghost c: Ctx, ghost t: Tree)
      requires Zip(Mem(), root, c, t) && t.Branch? && Far(t, s).Branch? && t.item.node == x
      modifies this`root, nodes
      ensures Zip(Mem(), root, c, Rotated(t, s))
      ensures SameOutside(old(Mem()), Mem(), Nodes(t) + CtxNodes(c))
    {
      ghost var m := Mem();
      RotationReady(m, root, c, t, s);
      if s.L? {
        RotateLeft(x, c, t);
      } else {
        RotateRight(x, c, t);
      }
      RotateZip(m, Mem(), old(root), root, c, t, s);
    }

    method SetColor(x: Node, k: Color)
      requires x in nodes
      modifies x`color
      ensures Mem() == Painted(old(Mem()), x, k)
    {
      x.color := k;
    }

    /** Uncle red: parent and uncle turn black and the grandparent red. */
    method RecolorUncle(zp: Node, zpp: Node, y: Node, ghost c: Ctx, ghost t: Tree)
      requires Zip(Mem(), root, c, t) && RedUnderRed(c, t) && c.up.Frame? && !IsBlack(c.up.sib)
      requires c.item.node == zp && c.up.item.node == zpp && c.up.sib.item.node == y
      modifies nodes
      ensures Reshaped(old(Mem()), Mem(), root, c, t, c.up.up, Recolored(c, t))
      ensures RedRoot(c.up.up, Recolored(c, t))
    {
      hide Zip, RedRoot, Flat, Plug;
      ghost var m := Mem();
      ZipParents(m, root, c, t);
      PlugNodes(c, t);
      SetColor(zp, Black);
      SetColor(y, Black);
      SetColor(zpp, Red);
      RecolorZip(m, root, c, t);
      RecoloredGood(c, t);
    }

    /** Rotates an inner grandchild outwards; the new view is at its old parent. */
    method RotateInner(zp: Node, s: Side, ghost c: Ctx, ghost t: Tree) returns (ghost c': Ctx, ghost t': Tree)
      requires Zip(Mem(), root, c, t) && RedUnderRed(c, t) && c.up.Frame? && c.up.side == s && c.side == s.Flip()
      requires c.item.node == zp
      modifies this`root, nodes
      ensures Reshaped(old(Mem()), Mem(), root, c, t, c', t') && RedUnderRed(c', t')
      ensures c'.up == c.up && c'.side == s && t'.item.node == zp && c'.item == t.item
    {
      hide Zip, RedRoot;
      ZipUp(Mem(), root, c, t);
      InnerGood(c, t, s);
      PlugNodes(c, t);
      Rotate(zp, s, c.up, Fill(c, t));
      t' := Make(s, Red, c.sib, c.item, Near(t, s));
      c' := Frame(s, Red, t.item, Far(t, s), c.up);
      ZipUp(Mem(), root, c', t');
    }

    /** Outer grandchild with a black uncle: the parent takes the place of the grandparent. */
    method RotateOuter(zp: Node, zpp: Node, s: Side, ghost c: Ctx, ghost t: Tree) returns (ghost c': Ctx)
      requires Zip(Mem(), root, c, t) && RedUnderRed(c, t) && c.up.Frame? && c.up.side == s && c.side == s
      requires IsBlack(c.up.sib) && c.item.node == zp && c.up.item.node == zpp
      modifies this`root, nodes
      ensures Reshaped(old(Mem()), Mem(), root, c, t, c', t) && RedRoot(c', t) && Depth(c') < Depth(c)
    {
      hide Zip, RedRoot, Kin, Nodes, Flat, Plug;
      ZipParents(Mem(), root, c, t);
      OuterGood(c, t, s);
      SwapZip(Mem(), root, c, t);
      SwapNodes(c, t);
      SetColor(zp, Black);
      SetColor(zpp, Red);
      Rotate(zpp, s.Flip(), c.up.up, Swapped(c, t));
      c' := Frame(s, Black, c.item, Make(s, Red, c.sib, c.up.item, c.up.sib), c.up.up);
      ZipUp(Mem(), root, c', t);
    }

    /** The uncle is black: at most two rotations end the repair. */
    method RotateTwice(z: Node, zp: Node, zpp: Node, s: Side, ghost c: Ctx, ghost t: Tree)
      returns (z': Node, ghost c': Ctx, ghost t': Tree)
      requires Zip(Mem(), root, c, t) && RedUnderRed(c, t) && c.up.Frame? && c.up.side == s && IsBlack(c.up.sib)
      requires t.item.node == z && c.item.node == zp && c.up.item.node == zpp && zp in nodes
      requires c.side == s <==> z != (if s.L? then zp.right else zp.left)
      modifies this`root, nodes
      ensures Reshaped(old(Mem()), Mem(), root, c, t, c', t') && RedRoot(c', t') && Depth(c') < Depth(c)
      ensures t'.Branch? && t'.color.Red? && t'.item.node == z'
    {
      hide Zip, RedRoot, Flat, Plug;
      if z == (if s.L? then zp.right else zp.left) {
        ghost var c1;
        z' := zp;
        c1, t' := RotateInner(zp, s, c, t);
        c' := RotateOuter(z, zpp, s, c1, t');
      } else {
        z', t' := z, t;
        c' := RotateOuter(zp, zpp, s, c, t);
      }
    }

    /** One round of the insertion repair. */
    method InsertStep(z: Node, ghost c: Ctx, ghost t: Tree) returns (z': Node, ghost c': Ctx, ghost t': Tree)
      requires Zip(Mem(), root, c, t) && RedUnderRed(c, t) && t.item.node == z
      modifies this`root, nodes
      ensures Reshaped(old(Mem()), Mem(), root, c, t, c', t') && RedRoot(c', t') && Depth(c') < Depth(c)
      ensures t'.Branch? && t'.color.Red? && t'.item.node == z'
    {
      HasGrandparent(c, t);
      ZipParents(Mem(), root, c, t);
      var zp := z.parent;
      var zpp := zp.parent;
      var s := if zp == zpp.left then L else R;
      var y := if s.L? then zpp.right else zpp.left;
      if ColorOf(y) == Red {
        RecolorUncle(zp, zpp, y, c, t);
        z', c', t' := zpp, c.up.up, Recolored(c, t);
      } else {
        z', c', t' := RotateTwice(z, zp, zpp, s, c, t);
      }
    }

    /** The last step of the insertion repair: the root turns black. */
    method BlackenRoot(ghost c: Ctx, ghost t: Tree) returns (ghost t': Tree)
      requires Zip(Mem(), root, c, t) && t.Branch? && RedRoot(c, t) && (IsBlack(t) || TopBlack(c))
      modifies nodes
      ensures Reshaped(old(Mem()), Mem(), root, c, t, Top, t') && RedBlack(t')
    {
      RootView(Mem(), root, c, t);
      PlugGood(c, t);
      t' := Plug(c, t);
      PaintedRoot(t');
      PaintZip(Mem(), root, Top, t', Black);
      SetColor(root, Black);
      t' := t'.(color := Black);
    }

    /** Restores the red-black conditions above a new red node `z`. */
    method InsertFixup(z0: Node, ghost c0: Ctx, ghost t0: Tree) returns (ghost t: Tree)
      requires Zip(Mem(), root, c0, t0) && RedRoot(c0, t0) && t0.Branch? && t0.color.Red? && t0.item.node == z0
      modifies this`root, nodes
      ensures Reshaped(old(Mem()), Mem(), root, c0, t0, Top, t) && RedBlack(t)
    {
      hide Zip, RedRoot, Nodes, Flat, Plug;
      var z := z0;
      ghost var c;
      c, t := c0, t0;
      ZipFocus(Mem(), root, c, t);
      while ColorOf(z.parent) == Red
        invariant Reshaped(old(Mem()), Mem(), root, c0, t0, c, t) && RedRoot(c, t)
        invariant t.Branch? && t.color.Red? && t.item.node == z
        decreases Depth(c)
      {
        ZipFocus(Mem(), root, c, t);
        z, c, t := InsertStep(z, c, t);
      }
      ZipFocus(Mem(), root, c, t);
      t := BlackenRoot(c, t);
    }

    /** Sibling red. */
    method FixRedSibling(xp: Node, w: Node, s: Side, ghost c: Ctx, ghost t: Tree) returns (ghost c': Ctx)
      requires Zip(Mem(), root, c, t) && ToRepair(c, t) && c.sib.Branch? && c.sib.color.Red?
      requires c.item.node == xp && c.sib.item.node == w && c.side == s
      modifies this`root, nodes
      ensures Reshaped(old(Mem()), Mem(), root, c, t, c', t) && ToRepair(c', t) && IsBlack(c'.sib)
      ensures c'.item.node == xp && c'.side == s && c'.color == Red && Depth(c') == Depth(c) + 1
    {
      hide Zip, Deficient, Plug;
      ghost var g := Make(s, Red, t, c.item, c.sib.(color := Black));
      RedSiblingGood(c, t);
      SiblingIn(Mem(), root, c, t);
      PaintSibling(Mem(), root, c, t, Black, Red);
      PaintedNodes(c, t, g);
      SetColor(w, Black);
      SetColor(xp, Red);
      Rotate(xp, s, c.up, g);
      c' := Frame(s, Red, c.item, Near(c.sib, s), Frame(s, Black, c.sib.item, Far(c.sib, s), c.up));
      ZipUp(Mem(), root, c'.up, Fill(c', t));
      ZipUp(Mem(), root, c', t);
    }

    /** Sibling and nephews black. */
    method FixBlackNephews(w: Node, ghost c: Ctx, ghost t: Tree) returns (ghost t': Tree)
      requires Zip(Mem(), root, c, t) && ToRepair(c, t) && c.sib.Branch? && c.sib.color.Black?
      requires IsBlack(c.sib.left) && IsBlack(c.sib.right) && c.sib.item.node == w
      modifies this`root, nodes
      ensures Reshaped(old(Mem()), Mem(), root, c, t, c.up, t') && Deficient(c.up, t')
      ensures t'.Branch? && t'.item == c.item && t'.color == c.color
    {
      hide Zip, Deficient, Nodes, Flat, Plug;
      BlackNephewsGood(c, t);
      SiblingIn(Mem(), root, c, t);
      ZipUp(Mem(), root, c, t);
      PaintNear(Mem(), root, c.up, Fill(c, t), c.side.Flip(), Red);
      SetColor(w, Red);
      t' := Make(c.side, c.color, t, c.item, c.sib.(color := Red));
    }

    /** Inner nephew red, outer black. */
    method FixInnerNephew(w: Node, v: Node, s: Side, ghost c: Ctx, ghost t: Tree) returns (ghost c': Ctx)
      requires Zip(Mem(), root, c, t) && ToRepair(c, t) && c.sib.Branch? && c.sib.color.Black? && c.side == s
      requires IsBlack(Far(c.sib, s)) && !IsBlack(Near(c.sib, s))
      requires c.sib.item.node == w && Near(c.sib, s).item.node == v
      modifies this`root, nodes
      ensures Reshaped(old(Mem()), Mem(), root, c, t, c', t) && ToRepair(c', t)
      ensures c'.sib.Branch? && c'.sib.color.Black? && !IsBlack(Far(c'.sib, s)) && c'.sib.item.node == v
      ensures c' == c.(sib := c'.sib)
    {
      hide Zip, Deficient, Nodes, Flat, Plug;
      ghost var over := Frame(s.Flip(), c.color, c.item, t, c.up);
      ghost var w1 := Make(s, Red, Near(c.sib, s).(color := Black), c.sib.item, Far(c.sib, s));
      InnerNephewGood(c, t);
      SiblingIn(Mem(), root, c, t);
      NephewZip(Mem(), root, c, t);
      SetColor(v, Black);
      SetColor(w, Red);
      Rotate(w, s.Flip(), over, w1);
      c' := c.(sib := Rotated(w1, s.Flip()));
      ZipUp(Mem(), root, over, c'.sib);
      assert Fill(over, c'.sib) == Fill(c', t);
      ZipUp(Mem(), root, c', t);
    }

    /** Outer nephew red: the colors change. */
    method SpreadColors(xp: Node, w: Node, v: Node, ghost c: Ctx, ghost t: Tree)
      requires Zip(Mem(), root, c, t) && c.Frame? && c.sib.Branch? && Far(c.sib, c.side).Branch?
      requires c.item.node == xp && c.sib.item.node == w && Far(c.sib, c.side).item.node == v
      modifies nodes
      ensures Zip(Mem(), root, c.up, Spread(c, t))
      ensures SameOutside(old(Mem()), Mem(), ItemNodes(Flat(Plug(c, t))))
    {
      hide Zip, Deficient, Nodes, Flat, Plug;
      SiblingIn(Mem(), root, c, t);
      SpreadZip(Mem(), root, c, t);
      SetColor(w, xp.color);
      SetColor(xp, Black);
      SetColor(v, Black);
    }

    /** Outer nephew red: after the rotation the whole tree is good. */
    method FixOuterNephew(xp: Node, w: Node, v: Node, s: Side, ghost c: Ctx, ghost t: Tree) returns (ghost t': Tree)
      requires Zip(Mem(), root, c, t) && ToRepair(c, t) && c.sib.Branch? && c.sib.color.Black? && c.side == s
      requires !IsBlack(Far(c.sib, s)) && c.item.node == xp && c.sib.item.node == w && Far(c.sib, s).item.node == v
      modifies this`root, nodes
      ensures Reshaped(old(Mem()), Mem(), root, c, t, Top, t') && RedBlack(t')
    {
      hide Zip, Deficient;
      OuterNephewGood(c, t);
      SpreadNodes(c, t);
      SpreadColors(xp, w, v, c, t);
      Rotate(xp, s, c.up, Spread(c, t));
      t' := Plug(c.up, Rotated(Spread(c, t), s));
      RootView(Mem(), root, c.up, Rotated(Spread(c, t), s));
    }

    /** A black sibling with a red nephew: at most two rotations end the repair. */
    method FixNephew(xp: Node, w: Node, s: Side, ghost c: Ctx, ghost t: Tree) returns (ghost t': Tree)
      requires Zip(Mem(), root, c, t) && ToRepair(c, t) && c.sib.Branch? && c.sib.color.Black? && c.side == s
      requires c.item.node == xp && c.sib.item.node == w && !(IsBlack(c.sib.left) && IsBlack(c.sib.right))
      modifies this`root, nodes
      ensures Reshaped(old(Mem()), Mem(), root, c, t, Top, t') && RedBlack(t')
    {
      hide Zip, Deficient, Flat, Plug;
      SiblingSites(Mem(), root, c, t);
      var outer := if s.L? then w.right else w.left;
      if ColorOf(outer) == Black {
        var inner := if s.L? then w.left else w.right;
        ghost var c1 := FixInnerNephew(w, inner, s, c, t);
        SiblingSites(Mem(), root, c1, t);
        var w' := if s.L? then xp.right else xp.left;
        var outer' := if s.L? then w'.right else w'.left;
        t' := FixOuterNephew(xp, w', outer', s, c1, t);
      } else {
        t' := FixOuterNephew(xp, w, outer, s, c, t);
      }
    }

    /** A round of the deletion repair with a black sibling. */
    method FixBlackSibling(xp: Node, w: Node, s: Side, ghost c: Ctx, ghost t: Tree)
      returns (x': Node?, xp': Node?, ghost c': Ctx, ghost t': Tree)
      requires Zip(Mem(), root, c, t) && ToRepair(c, t) && c.sib.Branch? && c.sib.color.Black? && c.side == s
      requires c.item.node == xp && c.sib.item.node == w
      modifies this`root, nodes
      ensures Reshaped(old(Mem()), Mem(), root, c, t, c', t') && Deficient(c', t') && x' == Root(t') && xp' == Parent(c')
      ensures c' == Top || (c' == c.up && t'.Branch? && t'.color == c.color)
    {
      hide Zip, Flat, Plug;
      SiblingSites(Mem(), root, c, t);
      if ColorOf(w.left) == Black && ColorOf(w.right) == Black {
        t' := FixBlackNephews(w, c, t);
        c' := c.up;
        ZipFocus(Mem(), root, c', t');
        x' := xp;
        xp' := x'.parent;
      } else {
        t' := FixNephew(xp, w, s, c, t);
        c' := Top;
        ZipRoot(Mem(), root, t');
        x' := root;
        xp' := null;
      }
    }

    /** One round of the deletion repair. */
    method DeleteStep(x: Node?, xp: Node, ghost c: Ctx, ghost t: Tree)
      returns (x': Node?, xp': Node?, ghost c': Ctx, ghost t': Tree)
      requires Zip(Mem(), root, c, t) && ToRepair(c, t) && Root(t) == x && c.item.node == xp
      modifies this`root, nodes
      ensures Reshaped(old(Mem()), Mem(), root, c, t, c', t') && Deficient(c', t') && x' == Root(t') && xp' == Parent(c')
      ensures !IsBlack(t') || Depth(c') < Depth(c)
    {
      hide Zip, Flat, Plug, Deficient;
      HasSibling(c, t);
      SiblingSites(Mem(), root, c, t);
      var s := if x == xp.left then L else R;
      var w := if s.L? then xp.right else xp.left;
      if ColorOf(w) == Red {
        ghost var c1 := FixRedSibling(xp, w, s, c, t);
        HasSibling(c1, t);
        SiblingSites(Mem(), root, c1, t);
        var w' := if s.L? then xp.right else xp.left;
        x', xp', c', t' := FixBlackSibling(xp, w', s, c1, t);
      } else {
        x', xp', c', t' := FixBlackSibling(xp, w, s, c, t);
      }
    }

    /** Gives the paths through `t` the black node they lack. */
    method DeleteFixup(x0: Node?, xp0: Node?, ghost c0: Ctx, ghost t0: Tree) returns (ghost t: Tree)
      requires Zip(Mem(), root, c0, t0) && Deficient(c0, t0) && Root(t0) == x0 && Parent(c0) == xp0
      modifies this`root, nodes
      ensures Reshaped(old(Mem()), Mem(), root, c0, t0, Top, t) && RedBlack(t)
    {
      hide Zip, Flat, Plug, Deficient;
      var x, xp := x0, xp0;
      ghost var c;
      c, t := c0, t0;
      ZipFocus(Mem(), root, c, t);
      RootAbove(Mem(), root, c, t);
      while x != root && ColorOf(x) == Black
        invariant Reshaped(old(Mem()), Mem(), root, c0, t0, c, t) && Deficient(c, t)
        invariant x == Root(t) && xp == Parent(c) && (x == root <==> c.Top?) && (IsBlack(t) <==> ColorOf(x) == Black)
        decreases if IsBlack(t) then Depth(c) + 1 else 0
      {
        if xp == null {
          break;
        }
        x, xp, c, t := DeleteStep(x, xp, c, t);
        ZipFocus(Mem(), root, c, t);
        RootAbove(Mem(), root, c, t);
      }
      t := BlackenFocus(x, c, t);
    }

    /** The last step of the deletion repair. */
    method BlackenFocus(x: Node?, ghost c: Ctx, ghost t: Tree) returns (ghost t': Tree)
      requires Zip(Mem(), root, c, t) && Deficient(c, t) && Root(t) == x && (c.Frame? ==> !IsBlack(t))
      modifies nodes
      ensures Reshaped(old(Mem()), Mem(), root, c, t, Top, t') && RedBlack(t')
    {
      t' := t;
      if x != null {
        BlackFocusGood(c, t);
        PaintZip(Mem(), root, c, t, Black);
        KinPlug(c, t.(color := Black), t);
        NodesPlug(c, t);
        FlatNodes(Plug(c, t));
        SetColor(x, Black);
        t' := t.(color := Black);
      }
      RootView(Mem(), root, c, t');
      t' := Plug(c, t');
    }

    /** Makes the parent of `u`, or the root pointer, point to `v`. */
    method Transplant(u: Node, v: Node?, ghost c: Ctx)
      requires u in nodes && (v != null ==> v in nodes && v != Parent(c)) && u.parent == Parent(c)
      requires c.Frame? ==> c.item.node in nodes && Mem()[c.item.node].Child(c.side) == u
                            && Mem()[c.item.node].Child(c.side.Flip()) != u
      modifies this`root, nodes
      ensures TransplantWrites(old(Mem()), Mem(), old(root), root, c, v)
    {
      var up := u.parent;
      if up == null {
        root := v;
      } else if u == up.left {
        up.left := v;
      } else {
        up.right := v;
      }
      if v != null {
        v.parent := up;
      }
    }

    /** Unlinks a node that has no `s` child. */
    method Splice(u: Node, s: Side, ghost c: Ctx, ghost t: Tree)
      requires Zip(Mem(), root, c, t) && t.Branch? && t.item.node == u && Near(t, s).Leaf?
      modifies this`root, nodes
      ensures Zip(Mem(), root, c, Far(t, s))
      ensures SameOutside(old(Mem()), Mem(), Nodes(t.left) + Nodes(t.right) + CtxNodes(c))
    {
      ghost var m := Mem();
      FocusSites(m, root, c, t);
      var v := if s.L? then u.right else u.left;
      Transplant(u, v, c);
      SpliceZip(m, Mem(), old(root), root, c, t, s);
    }

    /** The leftmost node below `x0`. */
    method Minimum(x0: Node, ghost base: Ctx, ghost t0: Tree) returns (x: Node, ghost d: Ctx, ghost t: Tree)
      requires Zip(Mem(), root, base, t0) && t0.Branch? && t0.item.node == x0
      ensures Zip(Mem(), root, Append(d, base), t) && Plug(d, t) == t0 && Leftmost(d)
      ensures t.Branch? && t.item.node == x && t.left.Leaf?
      ensures x in nodes && x.left == null
    {
      x, d, t := x0, Top, t0;
      FocusSites(Mem(), root, base, t);
      while x.left != null
        invariant Zip(Mem(), root, Append(d, base), t) && Plug(d, t) == t0 && Leftmost(d)
        invariant t.Branch? && t.item.node == x && x in nodes && x.left == Root(t.left)
        decreases t
      {
        x := x.left;
        d, t := Frame(L, t.color, t.item, t.right, d), t.left;
        ZipUp(Mem(), root, Append(d, base), t);
        FocusSites(Mem(), root, Append(d, base), t);
      }
    }

    method LinkRight(y: Node, r: Node)
      requires y in nodes && r in nodes && y != r
      modifies y`right, r`parent
      ensures Mem() == WithRight(old(Mem()), y, r)
    {
      y.right := r;
      y.right.parent := y;
    }

    method LinkLeft(y: Node, l: Node, k: Color)
      requires y in nodes && l in nodes && y != l
      modifies y`left, l`parent, y`color
      ensures Mem() == WithLeft(old(Mem()), y, l, k)
    {
      y.left := l;
      y.left.parent := y;
      y.color := k;
    }

    /** `y` takes the place, the left child and the color of `z`. */
    method Adopt(z: Node, y: Node, ghost c: Ctx, ghost t: Tree, ghost i: Item)
      requires t.Branch? && t.left.Branch? && t.item.node == z && i.node == y && AdoptSites(Mem(), c, t, i)
      modifies this`root, nodes
      ensures ReplaceWrites(old(Mem()), Mem(), old(root), root, c, t, i)
    {
      ghost var m := Mem();
      Transplant(z, y, c);
      ghost var m1 := Mem();
      LinkLeft(y, z.left, z.color);
      AdoptWrites(m, m1, Mem(), old(root), root, c, t, i);
    }

    /** The successor of `z` is its right child. */
    method ReplaceAdjacent(z: Node, y: Node, ghost c: Ctx, ghost t: Tree)
      requires Zip(Mem(), root, c, t) && t.Branch? && t.item.node == z && t.left.Branch?
      requires t.right.Branch? && t.right.left.Leaf? && t.right.item.node == y
      modifies this`root, nodes
      ensures Zip(Mem(), root, c, Branch(t.color, t.left, t.right.item, t.right.right))
      ensures SameOutside(old(Mem()), Mem(), Nodes(t) + CtxNodes(c))
    {
      hide Zip;
      ghost var m := Mem();
      AdjacentSites(m, root, c, t);
      Adopt(z, y, c, t.(right := t.right.right), t.right.item);
      ReplaceByChildZip(m, Mem(), old(root), root, c, t);
      assert Nodes(t.right.right) <= Nodes(t.right);
    }

    /** The successor of `z` is a detached node `y`. */
    method ReplaceFar(z: Node, y: Node, ghost c: Ctx, ghost t: Tree, ghost i: Item)
      requires Zip(Mem(), root, c, t) && t.Branch? && t.item.node == z && t.left.Branch? && t.right.Branch?
      requires i.node == y && y in nodes && y !in Nodes(t) + CtxNodes(c) && y.key == i.key && y.meta == i.meta
      modifies this`root, nodes
      ensures Zip(Mem(), root, c, Branch(t.color, t.left, i, t.right))
      ensures SameOutside(old(Mem()), Mem(), Nodes(t) + CtxNodes(c) + {y})
    {
      hide Zip;
      ghost var m := Mem();
      FocusSites(m, root, c, t);
      DistinctZip(m, root, c, t);
      LinkRight(y, z.right);
      ghost var m1 := Mem();
      FarSites(m, m1, root, c, t, i);
      Adopt(z, y, c, t, i);
      FarWrites(m, m1, Mem(), old(root), root, c, t, i);
      ReplaceZip(m, Mem(), old(root), root, c, t, i);
    }

    /** Detaches the successor `y` of `z` and puts it in the place of `z`. */
    method UnlinkFar(z: Node, y: Node, ghost c: Ctx, ghost t: Tree, ghost d: Ctx, ghost ty: Tree)
      requires t.Branch? && t.item.node == z && t.left.Branch? && t.right == Plug(d, ty) && d.Frame?
      requires Zip(Mem(), root, Append(d, Frame(R, t.color, t.item, t.left, c)), ty)
      requires ty.Branch? && ty.left.Leaf? && ty.item.node == y
      modifies this`root, nodes
      ensures Zip(Mem(), root, Append(d, Frame(R, t.color, ty.item, t.left, c)), ty.right)
      ensures SameOutside(old(Mem()), Mem(), Nodes(t) + CtxNodes(c))
    {
      hide Zip, Nodes, CtxNodes, Plug;
      ghost var zf := Frame(R, t.color, t.item, t.left, c);
      ghost var yf := Frame(R, t.color, ty.item, t.left, c);
      ghost var r := Plug(d, ty.right);
      FocusSites(Mem(), root, Append(d, zf), ty);
      DetachedNodes(Mem(), root, c, t, d, ty);
      PlugBranch(d, ty.right);
      Splice(y, L, Append(d, zf), ty);
      ZipPlug(Mem(), root, d, zf, ty.right);
      ZipUp(Mem(), root, zf, r);
      ReplaceFar(z, y, c, t.(right := r), ty.item);
      ZipUp(Mem(), root, yf, r);
      ZipPlug(Mem(), root, d, yf, ty.right);
    }

    /** Unlinks `z`, which has two children: its successor takes its place. */
    method UnlinkInner(z: Node, ghost c: Ctx, ghost t: Tree)
      returns (x: Node?, xp: Node?, k: Color, ghost d: Ctx, ghost ty: Tree)
      requires Zip(Mem(), root, c, t) && t.Branch? && t.item.node == z && t.left.Branch? && t.right.Branch?
      modifies this`root, nodes
      ensures t.right == Plug(d, ty) && Leftmost(d) && ty.Branch? && ty.left.Leaf? && k == ty.color
      ensures Zip(Mem(), root, Append(d, Frame(R, t.color, ty.item, t.left, c)), ty.right)
      ensures x == Root(ty.right) && xp == Parent(Append(d, Frame(R, t.color, ty.item, t.left, c)))
      ensures SameOutside(old(Mem()), Mem(), Nodes(t) + CtxNodes(c))
    {
      hide Zip;
      ghost var zf := Frame(R, t.color, t.item, t.left, c);
      FocusSites(Mem(), root, c, t);
      ZipUp(Mem(), root, zf, t.right);
      var y;
      y, d, ty := Minimum(z.right, zf, t.right);
      ghost var yf := Frame(R, t.color, ty.item, t.left, c);
      ghost var zy := Append(d, zf);
      FocusSites(Mem(), root, zy, ty);
      k := y.color;
      x := y.right;
      BottomParent(d, zf);
      if y.parent == z {
        TopOrNot(Mem(), root, d, zf, ty);
        xp := y;
        ReplaceAdjacent(z, y, c, t);
        ZipUp(Mem(), root, yf, ty.right);
      } else {
        xp := y.parent;
        UnlinkFar(z, y, c, t, d, ty);
        BottomParent(d, yf);
      }
    }

    /** The search: the view ends at the entry for `key`, or where it would be. */
    method FindNode(key: nat) returns (x: Node?, y: Node?, ghost c: Ctx, ghost t: Tree, ghost steps: nat)
      requires Valid()
      ensures Zip(Mem(), root, c, t) && Plug(c, t) == tree && Narrowed(c, key) && x == Root(t) && y == Parent(c)
      ensures x == null <==> key !in Contents()
      ensures x != null ==> x in nodes && x.key == key && x.meta == Contents()[key]
      ensures x != null ==> t.item.key == key
      ensures Pow2(steps) <= (|Contents()| + 1) * (|Contents()| + 1)
    {
      hide Zip, MapOf, Sorted, RedBlack, Pow2, Flat, Nodes, Pool;
      x, y, c, t, steps := root, null, Top, tree, 0;
      ZipRoot(Mem(), root, tree);
      while x != null
        invariant Zip(Mem(), root, c, t) && Plug(c, t) == tree && Narrowed(c, key) && x == Root(t) && y == Parent(c)
        invariant steps == Depth(c)
        decreases t
      {
        FocusSites(Mem(), root, c, t);
        steps := steps + 1;
        if key == x.key {
          HeightPlug(c, t);
          LookupBound(tree, steps);
          FoundOrMissing(c, t, key);
          return;
        }
        var s := if key < x.key then L else R;
        Descend(c, t, s, key);
        y := x;
        x := if key < x.key then x.left else x.right;
        c, t := Frame(s, t.color, t.item, Far(t, s), c), Near(t, s);
        ZipUp(Mem(), root, c, t);
      }
      HeightPlug(c, t);
      LookupBound(tree, steps);
      FoundOrMissing(c, t, key);
    }

    static method NewChunk() returns (chunk: seq<Node>)
      ensures |chunk| == NODE_CHUNK && fresh(chunk)
      ensures forall i, j :: 0 <= i < j < |chunk| ==> chunk[i] != chunk[j]
    {
      chunk := [];
      while |chunk| < NODE_CHUNK
        invariant |chunk| <= NODE_CHUNK
        invariant fresh(chunk)
        invariant forall i, j :: 0 <= i < j < |chunk| ==> chunk[i] != chunk[j]
      {
        var n := new Node();
        chunk := chunk + [n];
      }
    }

    /** Chains the nodes of a new chunk and hangs the old list behind the last one. */
    static method LinkChunk(chunk: seq<Node>, oldHead: Node?)
      requires |chunk| == NODE_CHUNK
      requires forall i, j :: 0 <= i < j < |chunk| ==> chunk[i] != chunk[j]
      modifies chunk
      ensures forall i :: 0 <= i < |chunk| ==> chunk[i].left == NextIn(chunk, i, oldHead)
    {
      var i := 0;
      while i < NODE_CHUNK
        invariant 0 <= i <= NODE_CHUNK
        invariant forall k :: 0 <= k < i ==> chunk[k].left == NextIn(chunk, k, null)
      {
        chunk[i].left := if i + 1 < NODE_CHUNK then chunk[i + 1] else null;
        i := i + 1;
      }
      chunk[NODE_CHUNK - 1].left := oldHead;
    }

    static method MakeChunk(oldHead: Node?) returns (chunk: seq<Node>)
      ensures |chunk| == NODE_CHUNK && fresh(chunk)
      ensures forall i, j :: 0 <= i < j < |chunk| ==> chunk[i] != chunk[j]
      ensures forall i :: 0 <= i < |chunk| ==> chunk[i].left == NextIn(chunk, i, oldHead)
    {
      hide NextIn;
      chunk := NewChunk();
      LinkChunk(chunk, oldHead);
    }

    /** A chunk of fresh nodes goes in front of the free list. */
    method AllocChunk()
      requires Valid()
      modifies this`freeList, this`nodes, this`free, this`chunks
      ensures Valid() && fresh(nodes - old(nodes)) && old(nodes) <= nodes && free != []
    {
      hide Zip, RedBlack, Sorted, Nodes, Pool, NextIn, Members, FreeRep, Chained;
      ghost var m := Mem();
      var chunk := MakeChunk(freeList);
      nodes := nodes + Members(chunk);
      freeList := chunk[0];
      free := chunk + free;
      chunks := chunks + 1;
      MembersIn(chunk);
      ZipIn(m, root, Top, tree);
      FrameZip(m, Mem(), root, Top, tree);
      ChainBuilt(Mem(), chunk, 0, old(freeList));
      assert chunk[0..] == chunk;
      assert Pool(m, old(freeList), old(free), Nodes(tree), old(chunks));
      PoolGrows(m, Mem(), chunk, old(freeList), old(free), Nodes(tree), old(chunks));
    }

    /** Takes the first node off the free list and fills it in. */
    method TakeNode(key: nat, meta: BigAllocMeta) returns (z: Node)
      requires Valid() && freeList != null
      modifies this`freeList, this`free, nodes
      ensures z in nodes && z !in Nodes(tree) && z.Read() == Cell(key, meta, null, null, null, Red)
      ensures Zip(Mem(), root, Top, tree)
      ensures Pool(Mem(), freeList, free, Nodes(tree) + {z}, chunks)
    {
      hide Zip, RedBlack, Sorted, Nodes, Pool, FreeRep, Members;
      FreeHead(Mem(), freeList, free, Nodes(tree), chunks);
      ghost var m, f := Mem(), free;
      z := freeList;
      freeList := z.left;
      free := free[1..];
      z.Reset(key, meta);
      assert SameOutside(m, Mem(), {z});
      PoolTake(m, Mem(), z, f, Nodes(tree), chunks);
      ZipIn(m, root, Top, tree);
      FrameZip(m, Mem(), root, Top, tree);
    }

    method AllocNode(key: nat, meta: BigAllocMeta) returns (z: Node)
      requires Valid()
      modifies this`freeList, this`nodes, this`free, this`chunks, nodes
      ensures old(nodes) <= nodes && fresh(nodes - old(nodes))
      ensures z in nodes && z !in Nodes(tree) && z.Read() == Cell(key, meta, null, null, null, Red)
      ensures Zip(Mem(), root, Top, tree)
      ensures Pool(Mem(), freeList, free, Nodes(tree) + {z}, chunks)
    {
      hide Zip, RedBlack, Sorted, Nodes, Pool, FreeRep, Members;
      if freeList == null {
        AllocChunk();
        FreeHead(Mem(), freeList, free, Nodes(tree), chunks);
      }
      z := TakeNode(key, meta);
    }

    /** Puts a node no longer in the tree in front of the free list. */
    method FreeNode(n: Node)
      requires n in nodes && n !in Nodes(tree) && Zip(Mem(), root, Top, tree)
      requires Pool(Mem(), freeList, free, Nodes(tree) + {n}, chunks)
      modifies this`freeList, this`free, n`left
      ensures Zip(Mem(), root, Top, tree) && Pool(Mem(), freeList, free, Nodes(tree), chunks)
    {
      hide Zip, Nodes, Pool, FreeRep, Members;
      ghost var m := Mem();
      n.left := freeList;
      freeList := n;
      free := [n] + free;
      PoolGive(m, Mem(), old(freeList), old(free), Nodes(tree) + {n}, n, chunks);
      assert Nodes(tree) + {n} - {n} == Nodes(tree);
      ZipIn(m, root, Top, tree);
      FrameZip(m, Mem(), root, Top, tree);
    }

    /** Overwrites the value of an entry. */
    method SetMeta(x: Node, meta: BigAllocMeta, ghost c: Ctx, ghost t: Tree)
      requires Valid() && Zip(Mem(), root, c, t) && Plug(c, t) == tree && t.Branch? && t.item.node == x && x in nodes
      modifies this`tree, x`meta
      ensures Valid() && Contents() == old(Contents())[t.item.key := meta]
    {
      hide Zip, RedBlack, Sorted, Nodes, Pool, Plug, MapOf;
      ghost var m := Mem();
      ghost var u := t.(item := t.item.(meta := meta));
      x.meta := meta;
      tree := Plug(c, u);
      MetaZip(m, Mem(), root, c, t, meta);
      RootView(Mem(), root, c, u);
      ReplaceItemGood(c, t, u.item);
      ReplaceMap(c, t, meta);
      SameNodes(c, t, u.item);
      PoolFrame(m, Mem(), freeList, free, Nodes(tree), chunks);
    }

    /** Hangs the detached node `z` at an empty focus. */
    method Attach(z: Node, y: Node?, ghost c: Ctx, ghost i: Item)
      requires z in nodes && z.Read() == Cell(i.key, i.meta, null, null, null, Red) && i.node == z && y == Parent(c)
      requires Zip(Mem(), root, c, Leaf) && z !in CtxNodes(c) && Narrowed(c, i.key) && Sorted(Flat(Plug(c, Leaf)))
      modifies this`root, nodes
      ensures Zip(Mem(), root, c, Branch(Red, Leaf, i, Leaf))
      ensures SameOutside(old(Mem()), Mem(), {z} + CtxNodes(c))
    {
      ghost var m := Mem();
      ParentKey(m, root, c, i.key);
      z.parent := y;
      if y == null {
        root := z;
      } else if z.key < y.key {
        y.left := z;
      } else {
        y.right := z;
      }
      AttachZip(m, Mem(), old(root), root, c, i);
    }

    /** Links a detached node for a key that is not present, and rebalances. */
    method LinkNew(z: Node, y: Node?, ghost c: Ctx, ghost i: Item) returns (ghost t: Tree)
      requires z in nodes && z.Read() == Cell(i.key, i.meta, null, null, null, Red) && i.node == z && y == Parent(c)
      requires Zip(Mem(), root, Top, Plug(c, Leaf)) && RedBlack(Plug(c, Leaf)) && Sorted(Flat(Plug(c, Leaf)))
      requires z !in Nodes(Plug(c, Leaf)) && Narrowed(c, i.key)
      modifies this`root, nodes
      ensures Zip(Mem(), root, Top, t) && RedBlack(t) && Sorted(Flat(t)) && Nodes(t) == Nodes(Plug(c, Leaf)) + {z}
      ensures MapOf(Flat(t)) == MapOf(Flat(Plug(c, Leaf)))[i.key := i.meta]
      ensures SameOutside(old(Mem()), Mem(), Nodes(t))
    {
      hide Zip, RedBlack, Sorted, Nodes, CtxNodes, Pool, Flat, MapOf, ItemNodes;
      ghost var leaf := Branch(Red, Leaf, i, Leaf);
      NewLeaf(Mem(), root, c, i);
      Attach(z, y, c, i);
      t := InsertFixup(z, c, leaf);
      ReshapedNodes(c, leaf, t);
    }

    method InsertNew(key: nat, meta: BigAllocMeta, y: Node?, ghost c: Ctx)
      requires Valid() && Plug(c, Leaf) == tree && Narrowed(c, key) && y == Parent(c)
      modifies this, nodes
      ensures Valid() && Contents() == old(Contents())[key := meta]
      ensures old(nodes) <= nodes && fresh(nodes - old(nodes))
    {
      hide Zip, RedBlack, Sorted, Nodes, Pool, Plug, Flat, MapOf, Narrowed, SameOutside, Mem;
      var z := AllocNode(key, meta);
      ghost var m := Mem();
      ghost var t := LinkNew(z, y, c, Item(z, key, meta));
      PoolFrame(m, Mem(), freeList, free, Nodes(t), chunks);
      ghost var m' := Mem();
      tree := t;
      assert Mem() == m';
    }

    /** Adds an entry, or overwrites the one that is there. */
    method Insert(key: nat, meta: BigAllocMeta)
      requires Valid()
      modifies this, nodes
      ensures Valid() && Contents() == old(Contents())[key := meta]
      ensures old(nodes) <= nodes && fresh(nodes - old(nodes))
    {
      hide Zip, RedBlack, Sorted, Nodes, Pool, Plug, Flat, MapOf;
      var x, y, c, t, steps := FindNode(key);
      if x != null {
        SetMeta(x, meta, c, t);
      } else {
        InsertNew(key, meta, y, c);
      }
    }

    method Get(key: nat) returns (r: Option<BigAllocMeta>)
      requires Valid()
      ensures r == if key in Contents() then Some(Contents()[key]) else None
    {
      hide Zip, RedBlack, Sorted, Nodes, Pool, MapOf;
      var x, y, c, t, steps := FindNode(key);
      if x == null {
        return None;
      }
      return Some(x.meta);
    }

    method Replace(key: nat, meta: BigAllocMeta) returns (r: Option<BigAllocMeta>)
      requires Valid()
      modifies this, nodes
      ensures Valid() && nodes == old(nodes)
      ensures r == if key in old(Contents()) then Some(old(Contents())[key]) else None
      ensures Contents() == if key in old(Contents()) then old(Contents())[key := meta] else old(Contents())
    {
      hide Zip, RedBlack, Sorted, Nodes, Pool, Plug, Flat, MapOf;
      var x, y, c, t, steps := FindNode(key);
      if x == null {
        return None;
      }
      r := Some(x.meta);
      SetMeta(x, meta, c, t);
    }

    /** Unlinks `z` and leaves the view at the node that moved into the gap. */
    method Unlink(z: Node, ghost c: Ctx, ghost t: Tree)
      returns (x: Node?, xp: Node?, k: Color, ghost cx: Ctx, ghost tx: Tree)
      requires Zip(Mem(), root, c, t) && t.Branch? && t.item.node == z && RedBlack(Plug(c, t))
      modifies this`root, nodes
      ensures Zip(Mem(), root, cx, tx) && x == Root(tx) && xp == Parent(cx)
      ensures Flat(Plug(cx, tx)) == Without(c, t)
      ensures if k.Black? then Deficient(cx, tx) else RedBlack(Plug(cx, tx))
      ensures SameOutside(old(Mem()), Mem(), Nodes(t) + CtxNodes(c))
    {
      hide Zip, RedBlack, Deficient, Flat, Plug, Before, After;
      FocusSites(Mem(), root, c, t);
      k := z.color;
      if z.left == null || z.right == null {
        var s := if z.left == null then L else R;
        x, xp, cx, tx := if s.L? then z.right else z.left, z.parent, c, Far(t, s);
        SpliceGood(c, t, s);
        SpliceFlat(c, t, s);
        Splice(z, s, c, t);
      } else {
        ghost var d, ty;
        x, xp, k, d, ty := UnlinkInner(z, c, t);
        cx, tx := Append(d, Frame(R, t.color, ty.item, t.left, c)), ty.right;
        SuccessorGood(c, t, d, ty);
        SuccessorFlat(c, t, d, ty);
      }
    }

    /** Takes the node `z` out of the tree, rebalances and frees it. */
    method DeleteNode(z: Node, ghost c: Ctx, ghost t: Tree)
      requires Valid() && Zip(Mem(), root, c, t) && t.Branch? && t.item.node == z && Plug(c, t) == tree
      modifies this, nodes
      ensures Valid() && nodes == old(nodes) && Contents() == old(Contents()) - {t.item.key}
    {
      hide Zip, RedBlack, Deficient, Sorted, Nodes, CtxNodes, Pool, Plug, Flat, MapOf, ItemNodes, SameOutside, Mem;
      RemoveMap(c, t);
      ghost var m := Mem();
      ghost var t' := Rebalance(z, c, t);
      PoolFrame(m, Mem(), freeList, free, Nodes(tree), chunks);
      ghost var m' := Mem();
      tree := t';
      assert Mem() == m';
      FreeNode(z);
    }

    /** Unlinks `z` and restores the red-black conditions. */
    method Rebalance(z: Node, ghost c: Ctx, ghost t: Tree) returns (ghost t': Tree)
      requires Zip(Mem(), root, c, t) && t.Branch? && t.item.node == z && RedBlack(Plug(c, t))
      modifies this`root, nodes
      ensures Zip(Mem(), root, Top, t') && RedBlack(t') && Flat(t') == Without(c, t)
      ensures z in nodes && Nodes(t') + {z} == Nodes(Plug(c, t)) && z !in Nodes(t')
      ensures SameOutside(old(Mem()), Mem(), Nodes(Plug(c, t)))
    {
      hide Zip, RedBlack, Deficient, Nodes, CtxNodes, Flat, ItemNodes, Without;
      var x, xp, k;
      ghost var cx, tx;
      FocusSites(Mem(), root, c, t);
      DistinctPlug(Mem(), root, c, t);
      x, xp, k, cx, tx := Unlink(z, c, t);
      WithoutNodes(c, t, Plug(cx, tx));
      if k == Black {
        t' := DeleteFixup(x, xp, cx, tx);
        ReshapedNodes(cx, tx, t');
      } else {
        t' := Plug(cx, tx);
        RootView(Mem(), root, cx, tx);
      }
    }

    method Remove(key: nat) returns (r: Option<BigAllocMeta>)
      requires Valid()
      modifies this, nodes
      ensures Valid() && nodes == old(nodes)
      ensures r == if key in old(Contents()) then Some(old(Contents())[key]) else None
      ensures Contents() == old(Contents()) - {key}
    {
      hide Zip, RedBlack, Sorted, Nodes, Pool, Plug, Flat, MapOf;
      var x, y, c, t, steps := FindNode(key);
      if x == null {
        return None;
      }
      r := Some(x.meta);
      DeleteNode(x, c, t);
    }
  }

  /** A search path of a valid tree of n entries has length at most 2 log2(n + 1). */
  lemma LookupBound(t: Tree, steps: nat)
    requires RedBlack(t) && Sorted(Flat(t)) && steps <= Height(t)
    ensures Pow2(steps) <= (|MapOf(Flat(t))| + 1) * (|MapOf(Flat(t))| + 1)
  {
    HeightBound(t, steps);
    MapSize(Flat(t));
  }

  datatype Op =
    | InsertOp(key: nat, meta: BigAllocMeta)
    | GetOp(key: nat)
    | ReplaceOp(key: nat, meta: BigAllocMeta)
    | RemoveOp(key: nat)

  /** What a finite map answers to one operation, and what it becomes. */
  function MapStep(m: map<nat, BigAllocMeta>, op: Op): (map<nat, BigAllocMeta>, Option<BigAllocMeta>) {
    var found := if op.key in m then Some(m[op.key]) else None;
    match op
    case InsertOp(key, meta) => (m[key := meta], None)
    case GetOp(key) => (m, found)
    case ReplaceOp(key, meta) => (if key in m then m[key := meta] else m, found)
    case RemoveOp(key) => (m - {key}, found)
  }

  function MapRun(m: map<nat, BigAllocMeta>, ops: seq<Op>): seq<Option<BigAllocMeta>>
    decreases |ops|
  {
    if ops == [] then [] else
      var (m', answer) := MapStep(m, ops[0]);
      [answer] + MapRun(m', ops[1..])
  }

  /** Runs a sequence of operations on a new tree. */
  method Run(ops: seq<Op>) returns (answers: seq<Option<BigAllocMeta>>)
    ensures answers == MapRun(map[], ops)
  {
    hide RBTree.Valid, RBTree.Contents;
    var tree := new RBTree();
    answers := [];
    var i := 0;
    assert ops[0..] == ops;
    while i < |ops|
      invariant 0 <= i <= |ops|
      invariant tree.Valid() && fresh(tree) && fresh(tree.nodes)
      invariant answers + MapRun(tree.Contents(), ops[i..]) == MapRun(map[], ops)
    {
      ghost var before := answers;
      ghost var m := tree.Contents();
      var answer := Perform(tree, ops[i]);
      answers := answers + [answer];
      assert ops[i..][1..] == ops[i + 1..];
      assert before + ([answer] + MapRun(tree.Contents(), ops[i + 1..])) == answers + MapRun(tree.Contents(), ops[i + 1..]);
      i := i + 1;
    }
  }

  method Perform(tree: RBTree, op: Op) returns (answer: Option<BigAllocMeta>)
    requires tree.Valid()
    modifies tree, tree.nodes
    ensures tree.Valid() && fresh(tree.nodes - old(tree.nodes))
    ensures (tree.Contents(), answer) == MapStep(old(tree.Contents()), op)
  {
    hide RBTree.Valid, RBTree.Contents;
    answer := None;
    match op
    case InsertOp(key, meta) => tree.Insert(key, meta);
    case GetOp(key) => answer := tree.Get(key);
    case ReplaceOp(key, meta) => answer := tree.Replace(key, meta);
    case RemoveOp(key) => answer := tree.Remove(key);
  }
}
