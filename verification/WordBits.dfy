/** 64-bit words as sets of bits. */
module WordBits {
  const ALL: bv64 := 0xFFFF_FFFF_FFFF_FFFF

  // ----- small numbers -----

  /** A small number as a word. */
  function Index(n: nat): bv64 { if n == 0 then 0 else Index(n - 1) + 1 }

  function Number(b: bv64): nat
    requires b < 256
    decreases b
  {
    if b == 0 then 0 else 1 + Number(b - 1)
  }

  lemma {:induction false} NumberGrows(b: bv64, c: bv64)
    requires b < c < 256
    ensures Number(b) < Number(c)
    decreases c
  {
    if b < c - 1 {
      NumberGrows(b, c - 1);
    }
  }

  lemma OneLess(b: bv64, c: bv64, e: bv64) returns (d: bv64, f: bv64)
    requires b < 256 && 0 < c < 256 && e == b + c && e < 256
    ensures d == c - 1 && f == e - 1 && f == b + d && 0 < e && d < c && f < 256 && d < 256
  {
    d, f := c - 1, e - 1;
  }

  lemma NumberZero(b: bv64)
    ensures Number(0) == 0 && b + 0 == b
  {
  }

  lemma NumberStep(b: bv64, d: bv64)
    requires 0 < b < 256 && d == b - 1
    ensures d < 256 && Number(b) == 1 + Number(d)
  {
  }

  lemma {:induction false} NumberSum(b: bv64, c: bv64)
    requires b < 256 && c < 256 && b + c < 256
    ensures Number(b + c) == Number(b) + Number(c)
    decreases c
  {
    NumberSumTo(b, c, b + c);
  }

  lemma {:induction false} NumberSumTo(b: bv64, c: bv64, e: bv64)
    requires b < 256 && c < 256 && e == b + c && e < 256
    ensures Number(e) == Number(b) + Number(c)
    decreases c
  {
    hide Number;
    if c == 0 {
      NumberZero(b);
    } else {
      var d, f := OneLess(b, c, e);
      NumberSumTo(b, d, f);
      NumberStep(c, d);
      NumberStep(e, f);
    }
  }

  lemma NumberTop()
    ensures Number(63) == 63 && Number(255) == 255
  {
    NumberSum(1, 1);
    NumberSum(2, 1);
    NumberSum(2, 2);
    NumberSum(3, 4);
    NumberSum(4, 4);
    NumberSum(7, 8);
    NumberSum(8, 8);
    NumberSum(15, 16);
    NumberSum(16, 16);
    NumberSum(31, 32);
    NumberSum(32, 32);
    NumberSum(63, 64);
    NumberSum(64, 64);
    NumberSum(127, 128);
  }

  lemma {:induction false} IndexNumber(b: bv64)
    requires b < 256
    ensures Index(Number(b)) == b
    decreases b
  {
    if b > 0 {
      IndexNumber(b - 1);
    }
  }

  lemma {:induction false} NumberOnto(n: nat) returns (b: bv64)
    requires n < 256
    ensures b < 256 && Number(b) == n
    decreases 256 - n
  {
    if n == 255 {
      b := 255;
      NumberTop();
    } else {
      var c := NumberOnto(n + 1);
      b := c - 1;
    }
  }

  lemma IndexByte(n: nat)
    requires n < 256
    ensures Index(n) < 256 && Number(Index(n)) == n
  {
    var b := NumberOnto(n);
    IndexNumber(b);
  }

  lemma IndexOrder(i: nat, j: nat)
    requires i < 256 && j < 256
    ensures i <= j <==> Index(i) <= Index(j)
  {
    hide Index, Number;
    IndexByte(i);
    IndexByte(j);
    if Index(i) < Index(j) {
      NumberGrows(Index(i), Index(j));
    }
    if Index(j) < Index(i) {
      NumberGrows(Index(j), Index(i));
    }
  }

  lemma IndexSmall(n: nat)
    requires n < 64
    ensures Index(n) < 64 && Number(Index(n)) == n
  {
    hide Index, Number;
    IndexByte(n);
    NumberTop();
    IndexNumber(63);
    IndexOrder(n, 63);
  }

  // ----- masks -----

  /** The word with one bit on. */
  function Bit(i: bv64): bv64
    requires i < 64
  {
    1 << i
  }

  /** The program's low and high masks. */
  function LowMask(first: bv64): bv64
    requires first < 64
  {
    ALL << first
  }

  function HighMask(last: bv64): bv64
    requires last < 64
  {
    if last == 63 then ALL else (1 << (last + 1)) - 1
  }

  predicate On(w: bv64, i: bv64)
    requires i < 64
  {
    w & Bit(i) != 0
  }

  lemma LowSelects(first: bv64, i: bv64)
    requires first < 64 && i < 64
    ensures On(LowMask(first), i) <==> first <= i
  {
  }

  lemma HighSelects(last: bv64, i: bv64)
    requires last < 63 && i < 64
    ensures On(HighMask(last), i) <==> i <= last
  {
  }

  lemma AllSelects(i: bv64)
    requires i < 64
    ensures On(HighMask(63), i) && On(ALL, i)
  {
  }

  lemma BitSelects(b: bv64, i: bv64)
    requires b < 64 && i < 64
    ensures On(Bit(b), i) <==> b == i
  {
  }

  lemma AndRaw(x: bv64, y: bv64, i: bv64)
    requires i < 64
    ensures On(x & y, i) <==> On(x, i) && On(y, i)
  {
  }

  lemma NotRaw(x: bv64, i: bv64)
    requires i < 64
    ensures On(!x, i) <==> !On(x, i)
  {
  }

  lemma AndOn(x: bv64, y: bv64, i: bv64)
    requires i < 64
    ensures On(And(x, y), i) <==> On(x, i) && On(y, i)
  {
    hide On, Bit;
    AndRaw(x, y, i);
  }

  lemma NotOn(x: bv64, i: bv64)
    requires i < 64
    ensures On(Not(x), i) <==> !On(x, i)
  {
    hide On, Bit;
    NotRaw(x, i);
  }

  function Not(x: bv64): bv64 { !x }

  function Or(x: bv64, y: bv64): bv64 { x | y }

  function And(x: bv64, y: bv64): bv64 { x & y }

  lemma DeMorgan(x: bv64, y: bv64)
    ensures Or(x, y) == Not(And(Not(x), Not(y)))
  {
  }

  /** Switching a mask on adds its bits, switching it off removes them. */
  lemma MaskedWord(w: bv64, mask: bv64, i: bv64)
    requires i < 64
    ensures On(Or(w, mask), i) <==> On(w, i) || On(mask, i)
    ensures On(And(w, Not(mask)), i) <==> On(w, i) && !On(mask, i)
  {
    hide Bit, On, And, Or, Not;
    DeMorgan(w, mask);
    NotOn(And(Not(w), Not(mask)), i);
    AndOn(Not(w), Not(mask), i);
    NotOn(w, i);
    NotOn(mask, i);
    AndOn(w, Not(mask), i);
  }

  // ----- words as sets -----

  /** The bit with that number is on. */
  predicate Has(w: bv64, i: nat)
    requires i < 64
  {
    IndexSmall(i);
    On(w, Index(i))
  }

  /** The numbers of the bits that are on. */
  ghost function Bits(w: bv64): (r: set<nat>)
    ensures forall i :: i in r <==> i < 64 && Has(w, i)
  {
    set i: nat | i < 64 && Has(w, i)
  }

  /** The bits from `first` upwards. */
  function Low(first: nat): bv64
    requires first < 64
  {
    IndexSmall(first);
    LowMask(Index(first))
  }

  /** The bits up to `last`. */
  function High(last: nat): bv64
    requires last < 64
  {
    IndexSmall(last);
    HighMask(Index(last))
  }

  lemma LowHas(first: nat, i: nat)
    requires first < 64 && i < 64
    ensures Has(Low(first), i) <==> first <= i
  {
    hide On, LowMask, Index, Number;
    IndexSmall(first);
    IndexSmall(i);
    LowSelects(Index(first), Index(i));
    IndexOrder(first, i);
  }

  lemma HighHas(last: nat, i: nat)
    requires last < 64 && i < 64
    ensures Has(High(last), i) <==> i <= last
  {
    hide On, HighMask, Index, Number;
    IndexSmall(last);
    IndexSmall(i);
    if Index(last) < 63 {
      HighSelects(Index(last), Index(i));
    } else {
      AllSelects(Index(i));
    }
    IndexOrder(i, last);
  }

  lemma AndHas(x: bv64, y: bv64, i: nat)
    requires i < 64
    ensures Has(And(x, y), i) <==> Has(x, i) && Has(y, i)
  {
    hide On, And, Index, Number;
    IndexSmall(i);
    AndOn(x, y, Index(i));
  }

  /** low_mask & high_mask. */
  function Mask(first: nat, last: nat): bv64
    requires first < 64 && last < 64
  {
    And(Low(first), High(last))
  }

  /** The mask the program builds selects exactly the bits from `first` to `last`, none if `last` lies before `first`. */
  lemma MaskHas(first: nat, last: nat, i: nat)
    requires first < 64 && last < 64 && i < 64
    ensures Has(Mask(first, last), i) <==> first <= i <= last
  {
    hide Has, Low, High, And;
    AndHas(Low(first), High(last), i);
    LowHas(first, i);
    HighHas(last, i);
  }

  lemma OrBits(w: bv64, mask: bv64)
    ensures Bits(Or(w, mask)) == Bits(w) + Bits(mask)
  {
    hide On, Or, And, Not, Index;
    forall i: nat | i < 64
      ensures Has(Or(w, mask), i) <==> Has(w, i) || Has(mask, i)
    {
      IndexSmall(i);
      MaskedWord(w, mask, Index(i));
    }
  }

  lemma AndNotBits(w: bv64, mask: bv64)
    ensures Bits(And(w, Not(mask))) == Bits(w) - Bits(mask)
  {
    hide On, Or, And, Not, Index;
    forall i: nat | i < 64
      ensures Has(And(w, Not(mask)), i) <==> Has(w, i) && !Has(mask, i)
    {
      IndexSmall(i);
      MaskedWord(w, mask, Index(i));
    }
  }

  /** One bit as a word. */
  function One(i: nat): bv64
    requires i < 64
  {
    IndexSmall(i);
    Bit(Index(i))
  }

  lemma OneBits(i: nat)
    requires i < 64
    ensures Bits(One(i)) == {i}
  {
    hide On, Bit, Index;
    forall j: nat | j < 64
      ensures Has(One(i), j) <==> i == j
    {
      IndexSmall(i);
      IndexSmall(j);
      BitSelects(Index(i), Index(j));
      IndexOrder(i, j);
      IndexOrder(j, i);
    }
  }

  // ----- the lowest bit -----

  ghost predicate NoneBelow(w: bv64, b: bv64)
    requires b < 64
  {
    w & (Bit(b) - 1) == 0
  }

  lemma NothingBelow(w: bv64)
    ensures NoneBelow(w, 0)
  {
  }

  lemma NextBelow(w: bv64, b: bv64)
    requires b < 63 && NoneBelow(w, b) && !On(w, b)
    ensures NoneBelow(w, b + 1)
  {
  }

  lemma NoneAtAll(w: bv64)
    requires NoneBelow(w, 63) && !On(w, 63)
    ensures w == 0
  {
  }

  /** The first bit from `b` upwards that is on. */
  function Lowest(w: bv64, b: bv64): (t: bv64)
    requires w != 0 && b < 64 && NoneBelow(w, b)
    ensures t < 64 && On(w, t) && NoneBelow(w, t)
    decreases 64 - b
  {
    if On(w, b) then b
    else if b < 63 then
      NextBelow(w, b);
      Lowest(w, b + 1)
    else
      NoneAtAll(w);
      0
  }

  /** trailing_zeros. */
  function TrailingZeros(w: bv64): (n: nat)
    requires w != 0
  {
    Number(Lowest(w, 0))
  }

  /** `x` is the lowest bit of `w`. */
  ghost predicate LowestIs(w: bv64, x: bv64) { x != 0 && x & (x - 1) == 0 && w & (x - 1) == 0 && w & x != 0 }

  lemma LowestIsBit(w: bv64, t: bv64)
    requires t < 64 && On(w, t) && NoneBelow(w, t)
    ensures LowestIs(w, Bit(t))
  {
  }

  lemma LowestRaw(w: bv64, x: bv64)
    requires LowestIs(w, x)
    ensures w & (w - 1) == w & !x
  {
  }

  lemma Names(w: bv64, x: bv64)
    ensures And(w, Less(w)) == w & (w - 1) && And(w, Not(x)) == w & !x
  {
  }

  lemma LowestOff(w: bv64, x: bv64)
    requires LowestIs(w, x)
    ensures And(w, Less(w)) == And(w, Not(x))
  {
    hide LowestIs, And, Less, Not;
    LowestRaw(w, x);
    Names(w, x);
  }

  function Less(w: bv64): bv64 { w - 1 }

  lemma {:induction false} NumberSmall(b: bv64)
    requires b < 64
    ensures Number(b) < 64
  {
    hide Number;
    NumberTop();
    if b < 63 {
      NumberGrows(b, 63);
    }
  }

  /** The lowest bit is on, and `bits & (bits - 1)` switches off exactly that one. */
  lemma LowestBit(w: bv64)
    requires w != 0
    ensures TrailingZeros(w) < 64 && TrailingZeros(w) in Bits(w)
    ensures Bits(And(w, Less(w))) == Bits(w) - {TrailingZeros(w)}
  {
    hide On, And, Not, Less, Index, Number, Bit, NoneBelow, Has, LowestIs, Lowest;
    NothingBelow(w);
    var t := Lowest(w, 0);
    var n := TrailingZeros(w);
    NumberSmall(t);
    IndexNumber(t);
    LowestHas(w);
    LowestIsBit(w, t);
    LowestOff(w, Bit(t));
    AndNotBits(w, One(n));
    OneBits(n);
  }

  lemma LowestHas(w: bv64)
    requires w != 0 && TrailingZeros(w) < 64
    ensures Has(w, TrailingZeros(w)) && Index(TrailingZeros(w)) == Lowest(w, 0)
  {
    hide On, Index, Number, Bit, NoneBelow, Lowest;
    NothingBelow(w);
    IndexNumber(Lowest(w, 0));
  }

  lemma BelowOff(w: bv64, t: bv64, i: bv64)
    requires i < t < 64 && NoneBelow(w, t)
    ensures !On(w, i)
  {
  }

  /** No bit that is on has a lower number. */
  lemma LowestLeast(w: bv64, i: nat)
    requires w != 0 && i in Bits(w)
    ensures TrailingZeros(w) <= i
  {
    hide On, Index, Number, Bit, NoneBelow, Lowest;
    NothingBelow(w);
    var t := Lowest(w, 0);
    NumberSmall(t);
    IndexNumber(t);
    IndexSmall(i);
    if i < Number(t) {
      IndexOrder(i, Number(t));
      BelowOff(w, t, Index(i));
    }
  }

  lemma NoBits(i: nat)
    requires i < 64
    ensures !Has(0, i)
  {
    hide Index;
    IndexSmall(i);
  }

  /** A word without bits is zero. */
  lemma EmptyIsZero(w: bv64)
    requires forall i: nat :: i < 64 ==> !Has(w, i)
    ensures w == 0
  {
    hide Has, TrailingZeros;
    if w != 0 {
      LowestBit(w);
    }
  }
}
