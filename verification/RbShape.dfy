/** Node cells, ghost trees and ghost zippers for the red-black map, and how memory represents them.

    All reasoning about pointers is done on snapshots: a `Mem` maps every node to the contents of its
    fields, so the lemmas below never mention the heap.  A zipper `(c, t)` is a tree `Plug(c, t)` seen
    from the node at the root of `t`; `c` lists the frames from that node's parent up to the root. */
module RbShape {
  import opened BigMeta

  datatype Color = Red | Black

  datatype Side = L | R {
    function Flip(): Side { if L? then R else L }
  }

  class Node {
    var key: nat
    var meta: BigAllocMeta
    var left: Node?
    var right: Node?
    var parent: Node?
    var color: Color

    constructor ()
      ensures left == null
    {
      key, meta, left, right, parent, color := 0, BigAllocMeta(0, 0, 0, false), null, null, null, Red;
    }

    ghost function Read(): Cell
      reads this
    {
      Cell(key, meta, left, right, parent, color)
    }

    /** A red leaf. */
    method Reset(key: nat, meta: BigAllocMeta)
      modifies this
      ensures Read() == Cell(key, meta, null, null, null, Red)
    {
      this.key, this.meta, left, right, parent, color := key, meta, null, null, null, Red;
    }
  }

  datatype Cell = Cell(key: nat, meta: BigAllocMeta, left: Node?, right: Node?, parent: Node?, color: Color) {
    ghost function Child(s: Side): Node? { if s.L? then left else right }
    ghost function WithChild(s: Side, n: Node?): Cell { if s.L? then this.(left := n) else this.(right := n) }
  }

  type Mem = map<Node, Cell>

  datatype Item = Item(node: Node, key: nat, meta: BigAllocMeta)

  datatype Tree = Leaf | Branch(color: Color, left: Tree, item: Item, right: Tree)

  /** `Frame(s, c, i, sib, up)`: the hole is the `s` child of the node `i`, whose other child is `sib`. */
  datatype Ctx = Top | Frame(side: Side, color: Color, item: Item, sib: Tree, up: Ctx)

  ghost function Root(t: Tree): Node? { if t.Leaf? then null else t.item.node }

  ghost function Parent(c: Ctx): Node? { if c.Top? then null else c.item.node }

  /** The branch whose `s` child is `near` and whose other child is `far`. */
  ghost function Make(s: Side, c: Color, near: Tree, i: Item, far: Tree): (t: Tree)
    ensures t.Branch?
  {
    if s.L? then Branch(c, near, i, far) else Branch(c, far, i, near)
  }

  ghost function Near(t: Tree, s: Side): Tree requires t.Branch? { if s.L? then t.left else t.right }

  ghost function Far(t: Tree, s: Side): Tree requires t.Branch? { if s.L? then t.right else t.left }

  ghost function Fill(c: Ctx, t: Tree): Tree
    requires c.Frame?
  {
    Make(c.side, c.color, t, c.item, c.sib)
  }

  ghost function Plug(c: Ctx, t: Tree): Tree
    decreases c
  {
    if c.Top? then t else Plug(c.up, Fill(c, t))
  }

  /** The frames of `c`, then those of `base`. */
  ghost function Append(c: Ctx, base: Ctx): Ctx {
    if c.Top? then base else c.(up := Append(c.up, base))
  }

  ghost function Nodes(t: Tree): set<Node> {
    if t.Leaf? then {} else Nodes(t.left) + {t.item.node} + Nodes(t.right)
  }

  ghost function CtxNodes(c: Ctx): set<Node> {
    if c.Top? then {} else Nodes(c.sib) + {c.item.node} + CtxNodes(c.up)
  }

  /** No node occurs twice. */
  ghost predicate Distinct(t: Tree) {
    t.Branch? ==>
      && Distinct(t.left) && Distinct(t.right)
      && t.item.node !in Nodes(t.left) && t.item.node !in Nodes(t.right)
      && Nodes(t.left) !! Nodes(t.right)
  }

  ghost predicate CtxDistinct(c: Ctx) {
    c.Frame? ==>
      && Distinct(c.sib) && CtxDistinct(c.up)
      && c.item.node !in Nodes(c.sib) && c.item.node !in CtxNodes(c.up)
      && Nodes(c.sib) !! CtxNodes(c.up)
  }

  /** The in-order sequence of entries. */
  ghost function Flat(t: Tree): seq<Item> {
    if t.Leaf? then [] else Flat(t.left) + [t.item] + Flat(t.right)
  }

  ghost function Before(c: Ctx): seq<Item> {
    if c.Top? then [] else if c.side.L? then Before(c.up) else Before(c.up) + Flat(c.sib) + [c.item]
  }

  ghost function After(c: Ctx): seq<Item> {
    if c.Top? then [] else if c.side.R? then After(c.up) else [c.item] + Flat(c.sib) + After(c.up)
  }

  /** Memory `m` holds the tree `t`, whose root has the parent link `parent`. */
  ghost predicate Rep(m: Mem, t: Tree, parent: Node?) {
    t.Branch? ==>
      && t.item.node in m
      && m[t.item.node] == Cell(t.item.key, t.item.meta, Root(t.left), Root(t.right), parent, t.color)
      && Rep(m, t.left, t.item.node)
      && Rep(m, t.right, t.item.node)
  }

  /** Memory `m` with root pointer `root` holds the frames of `c` around the pointer `hole`. */
  ghost predicate CtxRep(m: Mem, root: Node?, c: Ctx, hole: Node?) {
    if c.Top? then root == hole
    else
      && c.item.node in m
      && m[c.item.node].Child(c.side) == hole
      && m[c.item.node] == Cell(c.item.key, c.item.meta, Root(c.sib), Root(c.sib), Parent(c.up), c.color).WithChild(c.side, hole)
      && Rep(m, c.sib, c.item.node)
      && CtxRep(m, root, c.up, c.item.node)
  }

  /** Memory `m` with root pointer `root` holds `Plug(c, t)`, without sharing. */
  ghost predicate Zip(m: Mem, root: Node?, c: Ctx, t: Tree) {
    && Rep(m, t, Parent(c)) && CtxRep(m, root, c, Root(t))
    && Distinct(t) && CtxDistinct(c) && Nodes(t) !! CtxNodes(c)
  }

  lemma RepIn(m: Mem, t: Tree, parent: Node?)
    requires Rep(m, t, parent)
    ensures Nodes(t) <= m.Keys
  {
  }

  lemma CtxRepIn(m: Mem, root: Node?, c: Ctx, hole: Node?)
    requires CtxRep(m, root, c, hole)
    ensures CtxNodes(c) <= m.Keys
  {
    if c.Frame? {
      RepIn(m, c.sib, c.item.node);
    }
  }

  lemma ZipIn(m: Mem, root: Node?, c: Ctx, t: Tree)
    requires Zip(m, root, c, t)
    ensures Nodes(t) + CtxNodes(c) <= m.Keys
  {
    RepIn(m, t, Parent(c));
    CtxRepIn(m, root, c, Root(t));
  }

  /** Moving the view one node up, or down to the child on the side of the frame. */
  lemma ZipUp(m: Mem, root: Node?, c: Ctx, t: Tree)
    requires c.Frame?
    ensures Zip(m, root, c, t) <==> Zip(m, root, c.up, Fill(c, t))
  {
  }

  lemma {:induction false} ZipPlug(m: Mem, root: Node?, c: Ctx, base: Ctx, t: Tree)
    ensures Zip(m, root, Append(c, base), t) <==> Zip(m, root, base, Plug(c, t))
    decreases c
  {
    if c.Frame? {
      ZipUp(m, root, Append(c, base), t);
      ZipPlug(m, root, c.up, base, Fill(c, t));
    }
  }

  lemma AppendTop(c: Ctx)
    ensures Append(c, Top) == c
  {
  }

  lemma {:induction false} PlugAppend(c: Ctx, base: Ctx, t: Tree)
    ensures Plug(Append(c, base), t) == Plug(base, Plug(c, t))
    decreases c
  {
    if c.Frame? {
      PlugAppend(c.up, base, Fill(c, t));
    }
  }

  lemma {:induction false} NodesPlug(c: Ctx, t: Tree)
    ensures Nodes(Plug(c, t)) == Nodes(t) + CtxNodes(c)
    decreases c
  {
    if c.Frame? {
      NodesPlug(c.up, Fill(c, t));
    }
  }

  lemma Regroup(a: seq<Item>, b: seq<Item>, i: Item, d: seq<Item>, e: seq<Item>)
    ensures a + (b + [i] + d) + e == a + b + ([i] + d + e)
    ensures a + (b + [i] + d) + e == (a + b + [i]) + d + e
  {
  }

  lemma {:induction false} FlatPlug(c: Ctx, t: Tree)
    ensures Flat(Plug(c, t)) == Before(c) + Flat(t) + After(c)
    decreases c
  {
    if c.Frame? {
      FlatPlug(c.up, Fill(c, t));
      if c.side.L? {
        Regroup(Before(c.up), Flat(t), c.item, Flat(c.sib), After(c.up));
      } else {
        Regroup(Before(c.up), Flat(c.sib), c.item, Flat(t), After(c.up));
      }
    }
  }

  /** A tree is untouched by writes to other nodes. */
  lemma FrameRep(m: Mem, m': Mem, t: Tree, parent: Node?)
    requires Rep(m, t, parent)
    requires forall n :: n in Nodes(t) ==> n in m' && n in m && m'[n] == m[n]
    ensures Rep(m', t, parent)
  {
  }

  /** A tree whose root gets a new parent link. */
  lemma Reparent(m: Mem, m': Mem, t: Tree, parent: Node?, parent': Node?)
    requires Rep(m, t, parent) && Distinct(t)
    requires t.Branch? ==> t.item.node in m' && m'[t.item.node] == m[t.item.node].(parent := parent')
    requires forall n :: n in Nodes(t) && n != Root(t) ==> n in m' && n in m && m'[n] == m[n]
    ensures Rep(m', t, parent')
  {
    if t.Branch? {
      FrameRep(m, m', t.left, t.item.node);
      FrameRep(m, m', t.right, t.item.node);
    }
  }

  /** Only the link to the hole was rewritten. */
  ghost predicate Relinked(m: Mem, m': Mem, root: Node?, root': Node?, c: Ctx, hole: Node?) {
    && (forall n :: n in CtxNodes(c) && n != Parent(c) ==> n in m' && n in m && m'[n] == m[n])
    && if c.Top? then root' == hole
       else root' == root && c.item.node in m && c.item.node in m' && m'[c.item.node] == m[c.item.node].WithChild(c.side, hole)
  }

  lemma {:induction false} FrameCtx(m: Mem, m': Mem, root: Node?, c: Ctx, hole: Node?)
    requires CtxRep(m, root, c, hole)
    requires forall n :: n in CtxNodes(c) ==> n in m' && n in m && m'[n] == m[n]
    ensures CtxRep(m', root, c, hole)
  {
    if c.Frame? {
      FrameRep(m, m', c.sib, c.item.node);
      FrameCtx(m, m', root, c.up, c.item.node);
    }
  }

  lemma Relink(m: Mem, m': Mem, root: Node?, root': Node?, c: Ctx, hole: Node?, hole': Node?)
    requires CtxRep(m, root, c, hole) && CtxDistinct(c)
    requires Relinked(m, m', root, root', c, hole')
    ensures CtxRep(m', root', c, hole')
  {
    if c.Frame? {
      FrameRep(m, m', c.sib, c.item.node);
      FrameCtx(m, m', root, c.up, c.item.node);
    }
  }

  ghost function ItemNodes(s: seq<Item>): set<Node> { set i | i in s :: i.node }

  ghost predicate NoRepeat(s: seq<Item>) {
    forall i, j :: 0 <= i < j < |s| ==> s[i].node != s[j].node
  }

  lemma ItemNodesConcat(a: seq<Item>, b: seq<Item>)
    ensures ItemNodes(a + b) == ItemNodes(a) + ItemNodes(b)
  {
    assert forall i :: i in a + b <==> i in a || i in b;
    forall n | n in ItemNodes(a) + ItemNodes(b)
      ensures n in ItemNodes(a + b)
    {
      var i :| (i in a || i in b) && i.node == n;
      assert i in a + b;
    }
  }

  lemma NoRepeatConcat(a: seq<Item>, b: seq<Item>)
    ensures NoRepeat(a + b) <==> NoRepeat(a) && NoRepeat(b) && ItemNodes(a) !! ItemNodes(b)
  {
    var s := a + b;
    if NoRepeat(s) {
      assert forall i :: 0 <= i < |a| ==> a[i] == s[i];
      assert forall i :: 0 <= i < |b| ==> b[i] == s[|a| + i];
      assert forall i, j :: 0 <= i < |a| && 0 <= j < |b| ==> a[i].node != b[j].node;
    } else if NoRepeat(a) && NoRepeat(b) {
      var i, j :| 0 <= i < j < |s| && s[i].node == s[j].node;
      assert i < |a| && j >= |a|;
      assert a[i] in a && b[j - |a|] in b;
      assert s[i].node in ItemNodes(a) && s[i].node in ItemNodes(b);
    }
  }

  /** Nodes and freedom from sharing can be read off the in-order sequence. */
  lemma {:induction false} FlatNodes(t: Tree)
    ensures Nodes(t) == ItemNodes(Flat(t))
    ensures Distinct(t) <==> NoRepeat(Flat(t))
  {
    if t.Branch? {
      FlatNodes(t.left);
      FlatNodes(t.right);
      var a, i, b := Flat(t.left), [t.item], Flat(t.right);
      ItemNodesConcat(a, i);
      ItemNodesConcat(a + i, b);
      NoRepeatConcat(a, i);
      NoRepeatConcat(a + i, b);
      assert ItemNodes(i) == {t.item.node} by { assert i[0] in i; }
    }
  }

  /** The same entries in the same order. */
  ghost predicate Kin(t: Tree, u: Tree) { Flat(t) == Flat(u) }

  lemma KinNodes(t: Tree, u: Tree)
    requires Kin(t, u)
    ensures Nodes(t) == Nodes(u) && (Distinct(t) <==> Distinct(u))
  {
    FlatNodes(t);
    FlatNodes(u);
  }

  lemma KinPlug(c: Ctx, t: Tree, u: Tree)
    requires Kin(t, u)
    ensures Kin(Plug(c, t), Plug(c, u))
  {
    FlatPlug(c, t);
    FlatPlug(c, u);
  }

  /** Nodes outside `touched` keep their cells. */
  ghost predicate SameOutside(m: Mem, m': Mem, touched: set<Node>) {
    m'.Keys == m.Keys && forall n :: n in m && n !in touched ==> m'[n] == m[n]
  }

  /** The rotation at the root of `t` that moves the root down to side `s`. */
  ghost function Rotated(t: Tree, s: Side): Tree
    requires t.Branch? && Far(t, s).Branch?
  {
    var y := Far(t, s);
    Make(s, y.color, Make(s, t.color, Near(t, s), t.item, Near(y, s)), y.item, Far(y, s))
  }

  lemma RotatedKin(t: Tree, s: Side)
    requires t.Branch? && Far(t, s).Branch?
    ensures Kin(Rotated(t, s), t)
  {
    var y := Far(t, s);
    var a, b, d := Flat(Near(t, s)), Flat(Near(y, s)), Flat(Far(y, s));
    if s.L? {
      assert a + [t.item] + (b + [y.item] + d) == (a + [t.item] + b) + [y.item] + d;
    } else {
      assert (d + [y.item] + b) + [t.item] + a == d + [y.item] + (b + [t.item] + a);
    }
  }

  /** What the field writes of a rotation leave in memory. */
  ghost predicate RotationWrites(m: Mem, m': Mem, root: Node?, root': Node?, c: Ctx, t: Tree, s: Side)
    requires t.Branch? && Far(t, s).Branch?
  {
    var x, y := t.item.node, Far(t, s).item.node;
    var b := Root(Near(Far(t, s), s));
    && SameOutside(m, m', {x, y} + (if b == null then {} else {b}) + (if c.Top? then {} else {c.item.node}))
    && x in m && y in m
    && m'[x] == m[x].WithChild(s.Flip(), b).(parent := y)
    && m'[y] == m[y].WithChild(s, x).(parent := Parent(c))
    && (b != null ==> b in m && m'[b] == m[b].(parent := x))
    && (c.Top? ==> root' == y)
    && (c.Frame? ==> root' == root && c.item.node in m && m'[c.item.node] == m[c.item.node].WithChild(c.side, y))
  }

  /** The nodes a rotation touches are different, in memory, and linked as the rotation reads them. */
  ghost predicate RotationSites(m: Mem, c: Ctx, t: Tree, s: Side)
    requires t.Branch? && Far(t, s).Branch?
  {
    var x, y := t.item.node, Far(t, s).item.node;
    var b := Root(Near(Far(t, s), s));
    && x in m && y in m && x != y && b != x && b != y && x != Parent(c) && y != Parent(c)
    && m[x].Child(s.Flip()) == y && m[y].Child(s) == b && m[x].parent == Parent(c)
    && (b != null ==> b in m && b != Parent(c))
    && (c.Frame? ==> c.item.node in m && m[c.item.node].Child(c.side) == x && m[c.item.node].Child(c.side.Flip()) != x)
  }

  lemma RotationReady(m: Mem, root: Node?, c: Ctx, t: Tree, s: Side)
    requires Zip(m, root, c, t) && t.Branch? && Far(t, s).Branch?
    ensures RotationSites(m, c, t, s)
  {
    var y := Far(t, s);
    assert Rep(m, y, t.item.node) && Distinct(y) && Nodes(y) <= Nodes(t);
    assert Rep(m, Near(y, s), y.item.node);
    assert Near(y, s).Branch? ==> Near(y, s).item.node in Nodes(y);
    assert c.Frame? && c.sib.Branch? ==> c.sib.item.node in CtxNodes(c);
  }

  lemma RotateParts(m: Mem, m': Mem, root: Node?, root': Node?, c: Ctx, t: Tree, s: Side)
    requires Zip(m, root, c, t) && t.Branch? && Far(t, s).Branch?
    requires RotationWrites(m, m', root, root', c, t, s)
    ensures Rep(m', Near(t, s), t.item.node)
    ensures Rep(m', Near(Far(t, s), s), t.item.node)
    ensures Rep(m', Far(Far(t, s), s), Far(t, s).item.node)
    ensures CtxRep(m', root', c, Far(t, s).item.node)
  {
    var y := Far(t, s);
    assert Rep(m, y, t.item.node) && Distinct(y) && Nodes(y) <= Nodes(t);
    RepIn(m, t, Parent(c));
    CtxRepIn(m, root, c, t.item.node);
    FrameRep(m, m', Near(t, s), t.item.node);
    FrameRep(m, m', Far(y, s), y.item.node);
    Reparent(m, m', Near(y, s), y.item.node, t.item.node);
    Relink(m, m', root, root', c, t.item.node, y.item.node);
  }

  lemma RotateZip(m: Mem, m': Mem, root: Node?, root': Node?, c: Ctx, t: Tree, s: Side)
    requires Zip(m, root, c, t) && t.Branch? && Far(t, s).Branch?
    requires RotationWrites(m, m', root, root', c, t, s)
    ensures Zip(m', root', c, Rotated(t, s))
    ensures SameOutside(m, m', Nodes(t) + CtxNodes(c))
  {
    RotateParts(m, m', root, root', c, t, s);
    RotatedKin(t, s);
    KinNodes(Rotated(t, s), t);
    var y := Far(t, s);
    assert Nodes(y) <= Nodes(t) && Nodes(Near(y, s)) <= Nodes(y);
    assert Rep(m, y, t.item.node);
    var x' := Make(s, t.color, Near(t, s), t.item, Near(y, s));
    assert Rep(m', x', y.item.node);
  }

  ghost function Painted(m: Mem, n: Node, k: Color): Mem
    requires n in m
  {
    m[n := m[n].(color := k)]
  }

  lemma PaintZip(m: Mem, root: Node?, c: Ctx, t: Tree, k: Color)
    requires Zip(m, root, c, t) && t.Branch?
    ensures t.item.node in m
    ensures Zip(Painted(m, t.item.node, k), root, c, t.(color := k))
    ensures Kin(t, t.(color := k))
  {
    var m' := Painted(m, t.item.node, k);
    RepIn(m, t, Parent(c));
    CtxRepIn(m, root, c, t.item.node);
    FrameRep(m, m', t.left, t.item.node);
    FrameRep(m, m', t.right, t.item.node);
    FrameCtx(m, m', root, c, t.item.node);
  }

  lemma PaintNear(m: Mem, root: Node?, c: Ctx, t: Tree, s: Side, k: Color)
    requires Zip(m, root, c, t) && t.Branch? && Near(t, s).Branch?
    ensures Near(t, s).item.node in m
    ensures Zip(Painted(m, Near(t, s).item.node, k), root, c, Make(s, t.color, Near(t, s).(color := k), t.item, Far(t, s)))
  {
    var over := Frame(s, t.color, t.item, Far(t, s), c);
    ZipUp(m, root, over, Near(t, s));
    PaintZip(m, root, over, Near(t, s), k);
    ZipUp(Painted(m, Near(t, s).item.node, k), root, over, Near(t, s).(color := k));
  }

  /** From a memory holding `Plug(c, t)` to one holding `Plug(c', t')`: same entries, no other node touched. */
  ghost predicate Reshaped(m: Mem, m': Mem, root': Node?, c: Ctx, t: Tree, c': Ctx, t': Tree) {
    && Zip(m', root', c', t')
    && Kin(Plug(c', t'), Plug(c, t))
    && SameOutside(m, m', ItemNodes(Flat(Plug(c, t))))
  }

  lemma PlugNodes(c: Ctx, t: Tree)
    ensures ItemNodes(Flat(Plug(c, t))) == Nodes(t) + CtxNodes(c)
  {
    FlatNodes(Plug(c, t));
    NodesPlug(c, t);
  }

  /** The whole tree, seen from its root. */
  lemma RootView(m: Mem, root: Node?, c: Ctx, t: Tree)
    requires Zip(m, root, c, t)
    ensures Zip(m, root, Top, Plug(c, t)) && root == Root(Plug(c, t))
    ensures t.Branch? ==> Plug(c, t).Branch?
    ensures root != null ==> root in m && root in ItemNodes(Flat(Plug(c, t)))
  {
    AppendTop(c);
    ZipPlug(m, root, c, Top, t);
    PlugNodes(c, t);
    FlatNodes(Plug(c, t));
    FlatPlug(c, t);
  }

  /** Cells may be added and other nodes rewritten without touching the tree. */
  lemma FrameZip(m: Mem, m': Mem, root: Node?, c: Ctx, t: Tree)
    requires Zip(m, root, c, t)
    requires forall n :: n in Nodes(t) + CtxNodes(c) ==> n in m && n in m' && m'[n] == m[n]
    ensures Zip(m', root, c, t)
  {
    FrameRep(m, m', t, Parent(c));
    FrameCtx(m, m', root, c, Root(t));
  }

  /** What linking a new leaf `i` at an empty focus leaves in memory. */
  lemma AttachZip(m: Mem, m': Mem, root: Node?, root': Node?, c: Ctx, i: Item)
    requires Zip(m, root, c, Leaf) && i.node !in CtxNodes(c)
    requires SameOutside(m, m', {i.node} + (if c.Top? then {} else {c.item.node}))
    requires i.node in m && m'[i.node] == Cell(i.key, i.meta, null, null, Parent(c), Red)
    requires if c.Top? then root' == i.node
             else root' == root && c.item.node in m && m'[c.item.node] == m[c.item.node].WithChild(c.side, i.node)
    ensures Zip(m', root', c, Branch(Red, Leaf, i, Leaf))
  {
    ZipIn(m, root, c, Leaf);
    Relink(m, m', root, root', c, null, i.node);
  }

  /** A new value for the entry at the focus. */
  lemma MetaZip(m: Mem, m': Mem, root: Node?, c: Ctx, t: Tree, meta: BigAllocMeta)
    requires Zip(m, root, c, t) && t.Branch? && t.item.node in m
    requires m' == m[t.item.node := m[t.item.node].(meta := meta)]
    ensures Zip(m', root, c, t.(item := t.item.(meta := meta)))
  {
    ZipIn(m, root, c, t);
    FrameRep(m, m', t.left, t.item.node);
    FrameRep(m, m', t.right, t.item.node);
    FrameCtx(m, m', root, c, t.item.node);
  }

  lemma ReshapedNodes(c: Ctx, t: Tree, t': Tree)
    requires Kin(t', Plug(c, t))
    ensures Nodes(t') == Nodes(Plug(c, t)) == ItemNodes(Flat(Plug(c, t)))
  {
    KinNodes(t', Plug(c, t));
    FlatNodes(Plug(c, t));
  }

  lemma Around(a: seq<Item>, l: seq<Item>, i: Item, r: seq<Item>, b: seq<Item>)
    ensures a + (l + [i] + r) + b == (a + l) + [i] + (r + b)
    ensures a + (l + r) + b == (a + l) + (r + b)
    ensures [i] + (r + b) == [i] + r + b
  {
  }
}
