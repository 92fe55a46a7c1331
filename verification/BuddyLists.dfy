/** The free lists of a buddy region: doubly linked records at the start of free blocks, a bit per block, and a mask bit
    per order. */
module BuddyLists {
  import opened BuddyTiles
  import opened DoublyLinked

  const NOT_ALLOCATED: nat := 0
  const ALLOCATED: nat := 1
  const TRIMMED: nat := 2

  datatype Mark = Mark(lifeTime: nat, trimState: nat)

  /** The record at the start of a free block. */
  type FreeBlock = Cell<Mark>

  /** `records` is the memory at the start of each smallest block. */
  datatype Lists = Lists(records: map<nat, FreeBlock>, heads: seq<int>, bits: seq<seq<bool>>, mask: seq<bool>)

  /** The bitmap position of a block. */
  function BitOf(a: nat, k: nat): nat { a / Size(k) }

  /** All arrays have the size the region needs. */
  ghost predicate Shaped(r: Lists, n: nat) {
    && |r.heads| == TOP + 1 && |r.bits| == TOP + 1 && |r.mask| == TOP + 1
    && (forall k :: 0 <= k <= TOP ==> |r.bits[k]| == n / Size(k))
    && (forall a :: 0 <= a < n ==> a in r.records)
  }

  ghost predicate BlockIn(a: int, k: nat, n: nat) { k <= TOP && 0 <= a && a % Size(k) == 0 && a + Size(k) <= n }

  // ----- one order -----

  /** Lists, bits and mask of one order agree that its free blocks are `xs`. */
  ghost predicate OrderOk(r: Lists, k: nat, xs: seq<nat>, n: nat) {
    && k < |r.heads| && k < |r.bits| && k < |r.mask|
    && Links(r.records, NIL, xs, NIL) && r.heads[k] == FirstOf(xs, NIL) && NoRepeats(xs)
    && (forall a :: a in xs ==> BlockIn(a, k, n))
    && (forall i :: 0 <= i < |r.bits[k]| ==> (r.bits[k][i] <==> Size(k) * i in xs))
    && (r.mask[k] <==> xs != [])
  }

  /** push_free_block. */
  ghost function PushFree(r: Lists, k: nat, a: nat): Lists
    requires k < |r.heads| && k < |r.bits| && k < |r.mask| && a in r.records && BitOf(a, k) < |r.bits[k]|
  {
    var head := r.heads[k];
    var m := SetPrev(r.records[a := r.records[a].(prev := NIL, next := head)], head, a);
    Lists(m, r.heads[k := a], r.bits[k := r.bits[k][BitOf(a, k) := true]], r.mask[k := true])
  }

  /** remove_free_block. */
  ghost function RemoveFree(r: Lists, k: nat, a: nat): Lists
    requires k < |r.heads| && k < |r.bits| && k < |r.mask| && a in r.records && BitOf(a, k) < |r.bits[k]|
  {
    var next, prev := r.records[a].next, r.records[a].prev;
    var head := if prev == NIL then next else r.heads[k];
    var m := SetPrev(if prev == NIL then r.records else SetNext(r.records, prev, next), next, prev);
    Lists(m, r.heads[k := head], r.bits[k := r.bits[k][BitOf(a, k) := false]], r.mask[k := r.mask[k] && head != NIL])
  }

  lemma BitInjective(a: nat, b: nat, k: nat)
    requires a % Size(k) == 0
    ensures b == BitOf(a, k) <==> Size(k) * b == a
  {
    Index(a, k);
    IndexBack(b, k);
  }

  lemma PushOk(r: Lists, k: nat, xs: seq<nat>, a: nat, n: nat)
    requires OrderOk(r, k, xs, n) && BlockIn(a, k, n) && a !in xs && a in r.records && BitOf(a, k) < |r.bits[k]|
    ensures OrderOk(PushFree(r, k, a), k, [a] + xs, n)
  {
    hide Links;
    PushLinks(r.records, xs, a);
    var r' := PushFree(r, k, a);
    forall i | 0 <= i < |r'.bits[k]|
      ensures r'.bits[k][i] <==> Size(k) * i in [a] + xs
    {
      BitInjective(a, i, k);
    }
  }

  lemma RemoveOk(r: Lists, k: nat, xs: seq<nat>, a: nat, n: nat)
    requires OrderOk(r, k, xs, n) && a in xs && BitOf(a, k) < |r.bits[k]|
    ensures a in r.records && OrderOk(RemoveFree(r, k, a), k, Without(xs, a), n)
  {
    hide Links, Size, Without;
    Unlinked(r.records, xs, a);
    RemovedBits(r, k, xs, a, n);
  }

  /** The bit of the block is off, the others are as before. */
  lemma RemovedBits(r: Lists, k: nat, xs: seq<nat>, a: nat, n: nat)
    requires OrderOk(r, k, xs, n) && a in xs && BitOf(a, k) < |r.bits[k]| && a in r.records
    ensures
      var r' := RemoveFree(r, k, a);
      forall i :: 0 <= i < |r'.bits[k]| ==> (r'.bits[k][i] <==> Size(k) * i in Without(xs, a))
  {
    hide Links;
    var ys, zs := Around(xs, a);
    var r' := RemoveFree(r, k, a);
    forall i | 0 <= i < |r'.bits[k]|
      ensures r'.bits[k][i] <==> Size(k) * i in Without(xs, a)
    {
      BitInjective(a, i, k);
    }
  }

  /** Blocks of other orders do not notice. */
  lemma OrderFrame(r: Lists, r': Lists, k: nat, xs: seq<nat>, n: nat)
    requires OrderOk(r, k, xs, n)
    requires |r'.heads| == |r.heads| && |r'.bits| == |r.bits| && |r'.mask| == |r.mask|
    requires r'.heads[k] == r.heads[k] && r'.bits[k] == r.bits[k] && r'.mask[k] == r.mask[k]
    requires forall a :: a in xs && a in r.records ==>
      a in r'.records && r'.records[a].next == r.records[a].next && r'.records[a].prev == r.records[a].prev
    ensures OrderOk(r', k, xs, n)
  {
    LinksIn(r.records, NIL, xs, NIL);
    LinksFrame(r.records, r'.records, NIL, xs, NIL);
  }
}
