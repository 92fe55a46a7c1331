/** The red-black conditions, on trees and on zippers, and what they give for height. */
module RbBalance {
  import opened Numbers
  import opened RbShape

  ghost predicate IsBlack(t: Tree) { t.Leaf? || t.color.Black? }

  ghost function Blacks(c: Color): nat { if c.Black? then 1 else 0 }

  /** No red node has a red child. */
  ghost predicate NoRedRed(t: Tree) {
    t.Branch? ==>
      && NoRedRed(t.left) && NoRedRed(t.right)
      && (t.color.Red? ==> IsBlack(t.left) && IsBlack(t.right))
  }

  /** The number of black nodes on the leftmost path. */
  ghost function BlackHeight(t: Tree): nat {
    if t.Leaf? then 0 else BlackHeight(t.left) + Blacks(t.color)
  }

  /** Every path below a node has the same number of black nodes. */
  ghost predicate Balanced(t: Tree) {
    t.Branch? ==> Balanced(t.left) && Balanced(t.right) && BlackHeight(t.left) == BlackHeight(t.right)
  }

  ghost predicate RedBlack(t: Tree) { NoRedRed(t) && Balanced(t) && IsBlack(t) }

  ghost predicate TopBlack(c: Ctx) { c.Top? || c.color.Black? }

  ghost predicate CtxNoRedRed(c: Ctx) {
    c.Frame? ==>
      && NoRedRed(c.sib) && CtxNoRedRed(c.up)
      && (c.color.Red? ==> IsBlack(c.sib) && TopBlack(c.up))
  }

  /** The frames are balanced around a subtree of black height `h`. */
  ghost predicate CtxBalanced(c: Ctx, h: nat) {
    c.Frame? ==> Balanced(c.sib) && BlackHeight(c.sib) == h && CtxBalanced(c.up, h + Blacks(c.color))
  }

  /** The outermost frame, which is the root, is black. */
  ghost predicate RootBlack(c: Ctx) {
    c.Frame? ==> if c.up.Top? then c.color.Black? else RootBlack(c.up)
  }

  /** Good except that the root of `t` may be red under a red parent. */
  ghost predicate RedRoot(c: Ctx, t: Tree) {
    NoRedRed(t) && Balanced(t) && CtxNoRedRed(c) && CtxBalanced(c, BlackHeight(t)) && RootBlack(c)
  }

  /** Good except at the root of `t`, which may be red above a red child. */
  ghost predicate KidsGood(t: Tree) {
    t.Branch? ==> NoRedRed(t.left) && NoRedRed(t.right)
  }

  /** Good except that every path through `t` lacks one black node, or the root of `t` should be black. */
  ghost predicate Deficient(c: Ctx, t: Tree) {
    KidsGood(t) && Balanced(t) && CtxNoRedRed(c) && CtxBalanced(c, BlackHeight(t) + 1) && RootBlack(c)
  }

  lemma MakeGood(s: Side, k: Color, a: Tree, i: Item, b: Tree)
    requires Balanced(a) && Balanced(b) && BlackHeight(a) == BlackHeight(b)
    ensures Balanced(Make(s, k, a, i, b)) && BlackHeight(Make(s, k, a, i, b)) == BlackHeight(a) + Blacks(k)
    ensures NoRedRed(a) && NoRedRed(b) && (k.Red? ==> IsBlack(a) && IsBlack(b)) ==> NoRedRed(Make(s, k, a, i, b))
  {
  }

  lemma {:induction false} PlugGood(c: Ctx, t: Tree)
    requires RedRoot(c, t)
    requires IsBlack(t) || TopBlack(c)
    ensures NoRedRed(Plug(c, t)) && Balanced(Plug(c, t))
    ensures c.Frame? || IsBlack(t) ==> IsBlack(Plug(c, t))
    decreases c
  {
    if c.Frame? {
      PlugGood(c.up, Fill(c, t));
    }
  }

  lemma {:induction false} UnplugGood(c: Ctx, t: Tree)
    requires RedBlack(Plug(c, t))
    ensures RedRoot(c, t) && (IsBlack(t) || TopBlack(c))
    ensures c.Top? ==> IsBlack(t)
    decreases c
  {
    if c.Frame? {
      UnplugGood(c.up, Fill(c, t));
    }
  }

  /** Painting the root black repairs a red root. */
  lemma PaintedRoot(t: Tree)
    requires KidsGood(t) && Balanced(t)
    ensures t.Branch? ==> RedBlack(t.(color := Black))
  {
  }

  ghost function Size(t: Tree): nat { |Flat(t)| }

  ghost function Height(t: Tree): nat {
    if t.Leaf? then 0 else 1 + if Height(t.left) > Height(t.right) then Height(t.left) else Height(t.right)
  }

  ghost function Depth(c: Ctx): nat { if c.Top? then 0 else 1 + Depth(c.up) }

  lemma {:induction false} HeightPlug(c: Ctx, t: Tree)
    ensures Depth(c) + Height(t) <= Height(Plug(c, t))
    decreases c
  {
    if c.Frame? {
      HeightPlug(c.up, Fill(c, t));
    }
  }

  lemma {:induction false} BlackHeightSize(t: Tree)
    requires Balanced(t)
    ensures Pow2(BlackHeight(t)) <= Size(t) + 1
  {
    if t.Branch? {
      BlackHeightSize(t.left);
      BlackHeightSize(t.right);
    }
  }

  lemma {:induction false} HeightBlackHeight(t: Tree)
    requires NoRedRed(t) && Balanced(t)
    ensures Height(t) <= 2 * BlackHeight(t) + if IsBlack(t) then 0 else 1
  {
    if t.Branch? {
      HeightBlackHeight(t.left);
      HeightBlackHeight(t.right);
    }
  }

  lemma {:induction false} Pow2Double(n: nat, k: nat)
    requires k <= 2 * n
    ensures Pow2(k) <= Pow2(n) * Pow2(n)
    decreases n, k
  {
    if k == 0 {
      assert Pow2(n) * Pow2(n) >= 1 by { MulPositive(Pow2(n)); }
    } else if k == 1 {
      MulPositive(Pow2(n - 1));
      assert Pow2(n) * Pow2(n) == 4 * (Pow2(n - 1) * Pow2(n - 1));
    } else {
      Pow2Double(n - 1, k - 2);
      assert Pow2(k) == 4 * Pow2(k - 2);
      assert Pow2(n) * Pow2(n) == 4 * (Pow2(n - 1) * Pow2(n - 1));
    }
  }

  lemma MulPositive(x: nat)
    requires x >= 1
    ensures x * x >= 1
  {
  }

  lemma SquareMonotone(x: nat, y: nat)
    requires x <= y
    ensures x * x <= y * y
  {
    assert y * y == x * x + (y - x) * (y + x);
    assert (y - x) * (y + x) >= 0;
  }

  /** A red-black tree of n entries has height at most 2 log2(n + 1). */
  lemma HeightBound(t: Tree, k: nat)
    requires RedBlack(t) && k <= Height(t)
    ensures Pow2(k) <= (Size(t) + 1) * (Size(t) + 1)
  {
    HeightBlackHeight(t);
    BlackHeightSize(t);
    Pow2Double(BlackHeight(t), k);
    SquareMonotone(Pow2(BlackHeight(t)), Size(t) + 1);
  }
}
