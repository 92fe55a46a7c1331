/** Slab size classes and the spans they are refilled from. */
module SizeClasses {
  import opened Options
  import opened Layout
  import opened Numbers

  const SIZE_CLASSES: seq<nat> := [
    16, 32, 48, 64, 80, 96, 128,
    160, 192, 256, 320, 384, 512,
    768, 1024, 1280, 1536, 1792, 2048, 2560, 3072,
    3840, 4096, 8192, 12288, 16384, 24576,
    32768, 65536, 131072, 262144, 524288, 1048576, 2097152]

  function Round16(size: nat): (r: nat)
    ensures size <= r < size + 16
  {
    (size + 15) / 16 * 16
  }

  function RoundPage(size: nat): (r: nat)
    ensures size <= r < size + PAGE && r % PAGE == 0
  {
    (size + 4095) / 4096 * 4096
  }

  /** A block: header and payload in units of 16 bytes. */
  function BlockSize(payload: nat): (b: nat)
    ensures b >= 16
  {
    Round16(payload + HEADER)
  }

  /** Metadata followed by `n` blocks. */
  function SpanBytes(b: nat, n: nat): (r: nat)
    ensures r >= METADATA
  {
    METADATA + b * n
  }

  function Target(payload: nat): nat { if payload <= 128 then 0x8000 else 0x4000 }

  /** ITERATIONS: the blocks a refill aims at. */
  function Iterations(payload: nat): (n: nat)
    ensures n >= 1
  {
    var n := Target(payload) / BlockSize(payload);
    if n == 0 then 1 else n
  }

  /** The blocks that fit in the pages a refill needs anyway. */
  function BlocksInPages(payload: nat): nat {
    (RoundPage(SpanBytes(BlockSize(payload), Iterations(payload))) - METADATA) / BlockSize(payload)
  }

  /** The blocks of a span. */
  function SpanBlocks(payload: nat): (n: nat)
    ensures n >= 1
  {
    if BlocksInPages(payload) > Iterations(payload) then BlocksInPages(payload) else Iterations(payload)
  }

  /** refill_total_bytes_for_payload, which is also what alloc_metadata asks for. */
  function RefillTotal(payload: nat): nat { SpanBytes(BlockSize(payload), SpanBlocks(payload)) }

  /** Filling the pages never asks for more pages, and no further block would fit in them. */
  lemma RefillFillsPages(payload: nat)
    ensures RoundPage(RefillTotal(payload)) == RoundPage(SpanBytes(BlockSize(payload), Iterations(payload)))
    ensures RefillTotal(payload) + BlockSize(payload) > RoundPage(RefillTotal(payload))
  {
    var b, n := BlockSize(payload), Iterations(payload);
    var pages := RoundPage(SpanBytes(b, n));
    var m := (pages - METADATA) / b;
    DivBounds(pages - METADATA, b);
    Quotient(pages - METADATA, b, n);
    hide BlockSize, Iterations, RoundPage;
    MulGrows(b, n, m);
    Successor(b, m);
    SamePage(SpanBytes(b, n), SpanBytes(b, m));
  }

  lemma Successor(b: nat, m: nat)
    ensures b * (m + 1) == b * m + b
  {
  }

  lemma DivBounds(x: nat, b: nat)
    requires b > 0
    ensures b * (x / b) <= x < b * (x / b + 1)
  {
    assert x == b * (x / b) + x % b;
  }

  lemma Quotient(x: nat, b: nat, n: nat)
    requires b > 0 && b * n <= x
    ensures n <= x / b
  {
    DivBounds(x, b);
    MulGrows(b, x / b + 1, n);
  }

  lemma MulGrows(b: nat, x: nat, y: nat)
    ensures x <= y ==> b * x <= b * y
  {
  }

  lemma SamePage(total: nat, more: nat)
    requires total <= more <= RoundPage(total)
    ensures RoundPage(more) == RoundPage(total)
  {
  }

  /** A class refilled block by block has spans of one block. */
  lemma OneBlockSpans(payload: nat)
    requires Iterations(payload) == 1
    ensures SpanBlocks(payload) == 1 && RefillTotal(payload) == METADATA + BlockSize(payload)
  {
    var b := BlockSize(payload);
    assert b > 0x2000 by {
      DivBounds(Target(payload), b);
    }
    DivBounds(RoundPage(METADATA + b) - METADATA, b);
    MulGrows(b, 2, BlocksInPages(payload));
  }

  /** MIN_REFILL_BYTES: no refill of any class needs fewer pages, and some class needs exactly these. */
  method MinRefill() returns (min: nat)
    ensures forall i :: 0 <= i < |SIZE_CLASSES| ==> RoundPage(RefillTotal(SIZE_CLASSES[i])) >= min
    ensures exists i :: 0 <= i < |SIZE_CLASSES| && RoundPage(RefillTotal(SIZE_CLASSES[i])) == min
  {
    hide RefillTotal, RoundPage;
    var i, least, at := 1, RefillTotal(SIZE_CLASSES[0]), 0;
    while i < |SIZE_CLASSES|
      invariant 1 <= i <= |SIZE_CLASSES| && 0 <= at < i && least == RefillTotal(SIZE_CLASSES[at])
      invariant forall j :: 0 <= j < i ==> RefillTotal(SIZE_CLASSES[j]) >= least
    {
      var total := RefillTotal(SIZE_CLASSES[i]);
      if total < least {
        least, at := total, i;
      }
      i := i + 1;
    }
    min := RoundPage(least);
    forall j | 0 <= j < |SIZE_CLASSES|
      ensures RoundPage(RefillTotal(SIZE_CLASSES[j])) >= min
    {
      RoundGrows(least, RefillTotal(SIZE_CLASSES[j]));
    }
  }

  lemma RefillPositive(payload: nat)
    ensures RefillTotal(payload) > 1
  {
    hide SpanBlocks, BlockSize;
  }

  lemma RoundGrows(a: nat, b: nat)
    requires a <= b
    ensures RoundPage(a) <= RoundPage(b)
  {
  }

  // ----- the class of a size -----

  const CLASSES: nat := 34

  /** The class sizes behind their index; a constant function is cheaper to reason about than the table. */
  function ClassSize(i: nat): (n: nat)
    requires i < CLASSES
    ensures n > 0
  {
    SIZE_CLASSES[i]
  }

  /** The first class that is large enough. */
  ghost predicate IsFirst(size: nat, i: nat) {
    i < CLASSES && ClassSize(i) >= size && forall j: nat :: j < i ==> ClassSize(j) < size
  }

  /** The loop behind SIZE_LUT. */
  function Scan(size: nat, class': nat): (r: nat)
    requires class' <= CLASSES
    ensures class' <= r <= CLASSES
    decreases CLASSES - class'
  {
    if class' < CLASSES && ClassSize(class') < size then Scan(size, class' + 1) else class'
  }

  lemma {:induction false} ScanFinds(size: nat, class': nat)
    requires class' <= CLASSES && (forall j: nat :: j < class' ==> ClassSize(j) < size) && size <= SLAB_MAX
    ensures IsFirst(size, Scan(size, class'))
    decreases CLASSES - class'
  {
    assert ClassSize(CLASSES - 1) == SLAB_MAX;
    if class' < CLASSES && ClassSize(class') < size {
      ScanFinds(size, class' + 1);
    }
  }

  const LARGE_SIZE_LUT: seq<nat> := [0, 23, 24, 25, 26, 26, 27, 27]

  /** The number of bits up to the highest one that is on. */
  function BitLength(x: nat): nat { if x == 0 then 0 else 1 + BitLength(x / 2) }

  /** match_size_class. */
  function MatchSizeClass(size: nat): Option<nat> {
    if size == 0 then Some(0)
    else if size <= 4096 then Some(Scan(((size - 1) / 16 + 1) * 16, 0))
    else if size > SLAB_MAX then None
    else if size <= 32768 then Some(LARGE_SIZE_LUT[(size - 1) / 4096])
    else Some(BitLength(size - 1) + 12)
  }

  /** Classes grow. */
  lemma ClassesGrow(i: nat, j: nat)
    requires i < j < CLASSES
    ensures ClassSize(i) < ClassSize(j)
    decreases j
  {
    ClassStep(j);
    if i < j - 1 {
      ClassesGrow(i, j - 1);
    }
  }

  lemma ClassStep(j: nat)
    requires 0 < j < CLASSES
    ensures ClassSize(j - 1) < ClassSize(j)
  {
  }

  lemma ClassOf16(j: nat)
    requires j < CLASSES
    ensures ClassSize(j) % 16 == 0
  {
  }

  /** Being first is being between two neighbours. */
  lemma FirstBetween(size: nat, i: nat)
    requires i < CLASSES && ClassSize(i) >= size && (i > 0 ==> ClassSize(i - 1) < size)
    ensures IsFirst(size, i)
  {
    hide ClassSize;
    forall j: nat | j < i
      ensures ClassSize(j) < size
    {
      if j < i - 1 {
        ClassesGrow(j, i - 1);
      }
    }
  }

  /** Rounding up to sixteen does not change the first class. */
  lemma FirstOf16(size: nat, i: nat)
    requires size > 0 && IsFirst(((size - 1) / 16 + 1) * 16, i)
    ensures IsFirst(size, i)
  {
    hide ClassSize;
    forall j: nat | j < i
      ensures ClassSize(j) < size
    {
      ClassOf16(j);
    }
  }

  lemma {:induction false} BitsOf(x: nat, k: nat)
    requires Pow2(k) <= x < 2 * Pow2(k)
    ensures BitLength(x) == k + 1
  {
    if k > 0 {
      BitsOf(x / 2, k - 1);
    }
  }

  lemma LargePowers()
    ensures Pow2(15) == 32768 && Pow2(16) == 65536 && Pow2(17) == 131072 && Pow2(18) == 262144
    ensures Pow2(19) == 524288 && Pow2(20) == 1048576 && Pow2(21) == SLAB_MAX
  {
    assert Pow2(5) == 32;
    assert Pow2(10) == 1024;
  }

  lemma HighBits(size: nat)
    requires 32768 < size <= SLAB_MAX
    ensures IsFirst(size, BitLength(size - 1) + 12)
  {
    hide Pow2, BitLength, IsFirst;
    LargePowers();
    var k := if size <= 65536 then 15 else if size <= 131072 then 16 else if size <= 262144 then 17
             else if size <= 524288 then 18 else if size <= 1048576 then 19 else 20;
    BitsOf(size - 1, k);
    FirstBetween(size, k + 13);
  }

  /** The fast match is the first class that is large enough, for every size, and none exactly above 2 MiB. */
  lemma MatchIsFirst(size: nat)
    ensures MatchSizeClass(size).None? <==> size > SLAB_MAX
    ensures MatchSizeClass(size).Some? ==> IsFirst(size, MatchSizeClass(size).value)
  {
    if 0 < size <= 4096 {
      ScanFinds(((size - 1) / 16 + 1) * 16, 0);
      FirstOf16(size, Scan(((size - 1) / 16 + 1) * 16, 0));
    } else if 32768 < size <= SLAB_MAX {
      HighBits(size);
    } else if 4096 < size <= 32768 {
      FirstBetween(size, LARGE_SIZE_LUT[(size - 1) / 4096]);
    }
  }
}
