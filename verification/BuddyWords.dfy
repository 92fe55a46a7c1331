/** Buddies as the program computes them: flipping one bit of a 64-bit offset. */
module BuddyWords {
  import opened BuddyTiles

  const UNIT: bv64 := 0x40_0000

  function Plus(x: bv64, y: bv64): bv64 { x + y }

  function Flip(x: bv64, y: bv64): bv64 { x ^ y }

  /** The byte offset of a block in its region, as a word. */
  function Bytes(a: nat): bv64 { if a == 0 then 0 else Plus(Bytes(a - 1), UNIT) }

  /** 1 << order. */
  function Width(k: nat): bv64 {
    if k == 0 then 0x40_0000 else if k == 1 then 0x80_0000 else if k == 2 then 0x100_0000 else if k == 3 then 0x200_0000 else 0x400_0000
  }

  lemma TwiceWidth(x: bv64, k: nat)
    requires k < TOP
    ensures Plus(Plus(x, Width(k)), Width(k)) == Plus(x, Width(k + 1))
  {
    hide Plus;
    Twice22(x);
    Twice23(x);
    Twice24(x);
    Twice25(x);
  }

  lemma Twice22(x: bv64)
    ensures Plus(Plus(x, 0x40_0000), 0x40_0000) == Plus(x, 0x80_0000)
  {
  }

  lemma Twice23(x: bv64)
    ensures Plus(Plus(x, 0x80_0000), 0x80_0000) == Plus(x, 0x100_0000)
  {
  }

  lemma Twice24(x: bv64)
    ensures Plus(Plus(x, 0x100_0000), 0x100_0000) == Plus(x, 0x200_0000)
  {
  }

  lemma Twice25(x: bv64)
    ensures Plus(Plus(x, 0x200_0000), 0x200_0000) == Plus(x, 0x400_0000)
  {
  }

  /** A block further on is a width further on. */
  lemma {:induction false} BytesPlus(a: nat, k: nat)
    requires k <= TOP
    ensures Bytes(a + Size(k)) == Plus(Bytes(a), Width(k))
    decreases k
  {
    hide Plus, Width;
    if k == 0 {
      FirstWidth();
    } else {
      BytesPlus(a, k - 1);
      BytesPlus(a + Size(k - 1), k - 1);
      TwiceWidth(Bytes(a), k - 1);
    }
  }

  lemma FirstWidth()
    ensures Width(0) == UNIT
  {
  }

  /** A multiple of twice the width: the bit of the width and all lower ones are off. */
  ghost predicate Aligned(x: bv64, width: bv64) { x & width == 0 && x & (width - 1) == 0 }

  lemma ZeroAligned(k: nat)
    ensures Aligned(0, Width(k))
  {
  }

  lemma NextAligned(x: bv64, k: nat)
    requires k < TOP && Aligned(x, Width(k))
    ensures Aligned(Plus(Plus(x, Width(k)), Width(k)), Width(k))
  {
  }

  lemma FlipAligned(x: bv64, k: nat)
    requires k < TOP && Aligned(x, Width(k))
    ensures Flip(x, Width(k)) == Plus(x, Width(k)) && Flip(Plus(x, Width(k)), Width(k)) == x
  {
  }

  lemma {:induction false} EvenBytes(k: nat, h: nat)
    requires k < TOP
    ensures Aligned(Bytes(Size(k) * (2 * h)), Width(k))
    decreases h
  {
    hide Bytes, Size, Width, Aligned, Plus;
    if h == 0 {
      BytesNone();
      ZeroAligned(k);
    } else {
      EvenBytes(k, h - 1);
      var a := Size(k) * (2 * (h - 1));
      TwoMore(Size(k), h);
      BytesPlus(a + Size(k), k);
      BytesPlus(a, k);
      NextAligned(Bytes(a), k);
    }
  }

  lemma BytesNone()
    ensures Bytes(0) == 0
  {
  }

  lemma TwoMore(n: nat, h: nat)
    requires h > 0
    ensures n * (2 * h) == n * (2 * (h - 1)) + n + n
  {
  }

  /** The buddy of an aligned block is found by flipping the bit of its order in its offset. */
  lemma BuddyIsXor(a: nat, k: nat)
    requires k < TOP && a % Size(k) == 0
    ensures Bytes(Buddy(a, k)) == Flip(Bytes(a), Width(k))
  {
    hide Bytes, Width, Aligned, Buddy, Plus, Flip;
    var h := a / Size(k) / 2;
    var low := Size(k) * (2 * h);
    LowerIndex(a, k, h);
    BuddyFacts(a, k);
    EvenBytes(k, h);
    FlipAligned(Bytes(low), k);
    BytesPlus(low, k);
  }
}
