/** One buddy region used by one thread at a time. */
module BuddyBackend {
  import opened Options
  import opened BuddyTiles
  import opened BuddyLists
  import opened DoublyLinked
  import opened BuddyRegion
  import opened BuddySpace
  import opened BuddyMarks

  /** A granted block: where it starts and the trim state of the free block it was cut from. */
  datatype Grant = Grant(addr: nat, trimState: nat)

  /** The hands of the running operation. */
  const HAND: Holder := Hand(0)

  class FreeSpace {
    var records: map<nat, FreeBlock>
    var heads: seq<int>
    var bits: seq<seq<bool>>
    var mask: seq<bool>
    ghost var free: seq<seq<nat>>
    ghost var own: seq<Piece>
    /** The offsets ever inside a block handed out. */
    ghost var touched: set<nat>

    ghost function Rep(): Lists
      reads this
    {
      Lists(records, heads, bits, mask)
    }

    ghost function View(): Region
      reads this
    {
      Region(Rep(), free, own)
    }

    /** Between operations: everything agrees, no block is in transit, no two buddies are free, and a block tagged never
        allocated was never part of one that was handed out. */
    ghost predicate Valid()
      reads this
    {
      RegionOk(View()) && Canonical(own) && Settled(own) && TagsTrue(records, own, touched)
    }

    /** add_region: blocks of the largest order, pushed one after the other. */
    constructor (blocks: nat, life: nat)
      ensures Valid() && own == Fresh(blocks * 16) && touched == {} && MarkedIn(records, own, 0, |own|, Mark(life, NOT_ALLOCATED))
    {
      var n := blocks * 16;
      records, heads, bits, mask := Blank(n), seq(TOP + 1, _ => NIL), NoBits(n), seq(TOP + 1, _ => false);
      free, own, touched := seq(TOP + 1, _ => []), Born(n, 0, HAND), {};
      new;
      BornLists(View(), n, HAND);
      PushAll(blocks, life);
      BornDone(n, blocks, HAND);
      FreshTiles(n);
      FreshTags(records, n);
    }

    method PushAll(blocks: nat, life: nat)
      requires RegionOk(View()) && own == Born(blocks * 16, 0, HAND)
      modifies this`records, this`heads, this`bits, this`mask, this`free, this`own
      ensures RegionOk(View()) && own == Born(blocks * 16, blocks, HAND) && MarkedIn(records, own, 0, |own|, Mark(life, NOT_ALLOCATED))
    {
      hide RegionOk, Born;
      var done := 0;
      BornMarks(records, records, blocks * 16, 0, HAND, Mark(life, NOT_ALLOCATED));
      while done < blocks
        invariant done <= blocks && RegionOk(View()) && own == Born(blocks * 16, done, HAND)
        invariant MarkedIn(records, own, 0, |own|, Mark(life, NOT_ALLOCATED))
      {
        BornNext(blocks * 16, done, HAND);
        ghost var m := records;
        FreeBlockNew(TOP, done * 16, HAND, life, NOT_ALLOCATED);
        done := done + 1;
        BornMarks(m, records, blocks * 16, done, HAND, Mark(life, NOT_ALLOCATED));
      }
    }

    /** The extent of the region. */
    function Bytes(): (n: nat)
      reads this
      ensures Valid() ==> n == 0x40_0000 * |own|
    {
      if |bits| > 0 then 0x40_0000 * |bits[0]| else 0
    }

    // ----- list surgery -----

    method PushFreeBlock(k: nat, a: nat)
      requires k < |heads| && k < |bits| && k < |mask| && a in records && BitOf(a, k) < |bits[k]|
      requires heads[k] == NIL || heads[k] in records
      modifies this`records, this`heads, this`bits, this`mask
      ensures Rep() == PushFree(old(Rep()), k, a)
    {
      var head := heads[k];
      records := records[a := records[a].(prev := NIL)];
      records := records[a := records[a].(next := head)];
      if head != NIL {
        records := records[head := records[head].(prev := a)];
      }
      heads := heads[k := a];
      bits := bits[k := bits[k][BitOf(a, k) := true]];
      mask := mask[k := true];
    }

    method RemoveFreeBlock(k: nat, a: nat)
      requires k < |heads| && k < |bits| && k < |mask| && a in records && BitOf(a, k) < |bits[k]|
      requires (records[a].next == NIL || records[a].next in records) && (records[a].prev == NIL || records[a].prev in records)
      modifies this`records, this`heads, this`bits, this`mask
      ensures Rep() == RemoveFree(old(Rep()), k, a)
    {
      var next, prev := records[a].next, records[a].prev;
      if prev == NIL {
        heads := heads[k := next];
      } else {
        records := records[prev := records[prev].(next := next)];
      }
      if next != NIL {
        records := records[next := records[next].(prev := prev)];
      }
      bits := bits[k := bits[k][BitOf(a, k) := false]];
      MarkOrderEmptyIfNeeded(k);
    }

    method MarkOrderEmptyIfNeeded(k: nat)
      requires k < |heads| && k < |mask|
      modifies this`mask
      ensures mask == old(mask)[k := old(mask)[k] && heads[k] != NIL]
    {
      if heads[k] == NIL {
        mask := mask[k := false];
      }
    }

    /** A free block leaves its list. */
    method Detach(k: nat, a: nat)
      requires RegionOk(View()) && Has(own, a, k, Free)
      modifies this`records, this`heads, this`bits, this`mask, this`free, this`own
      ensures RegionOk(View()) && own == Rehold(old(own), a, k, HAND) && MarksKept(old(records), records, 0, 0)
    {
      ghost var g := View();
      BlockFacts(g, a, k, Free);
      TakenOk(g, a, k, HAND);
      RemoveMarks(g.lists, k, a);
      NeighboursIn(g, a, k);
      RemoveFreeBlock(k, a);
      free := free[k := Without(free[k], a)];
      own := Rehold(own, a, k, HAND);
      assert View() == Taken(g, a, k, HAND);
    }

    /** A record is written at the start of a block, and the block joins its list. */
    method FreeBlockNew(k: nat, a: nat, ghost h: Holder, life: nat, tag: nat)
      requires RegionOk(View()) && Has(own, a, k, h) && h != Free
      modifies this`records, this`heads, this`bits, this`mask, this`free, this`own
      ensures RegionOk(View()) && own == Rehold(old(own), a, k, Free)
      ensures MarksKept(old(records), records, a, a + 1) && a in records && records[a].data == Mark(life, tag)
    {
      ghost var g := View();
      BlockFacts(g, a, k, h);
      GivenOk(g, a, k, h, life, tag);
      GivenMarks(g, a, k, life, tag);
      HeadIn(g, k);
      records := records[a := Cell(NIL, NIL, Mark(life, tag))];
      PushFreeBlock(k, a);
      free := free[k := [a] + free[k]];
      own := Rehold(own, a, k, Free);
      assert View() == Given(g, a, k, life, tag);
    }

    // ----- alloc_from_region -----

    /** None exactly when no free block of the requested order or a larger one exists; otherwise a block cut from the
        smallest free block that is large enough, with its trim state.  Nothing else changes hands.  A block granted as
        never allocated has no offset that was ever handed out. */
    method AllocFromRegion(k: nat) returns (r: Option<Grant>)
      requires Valid()
      modifies this
      ensures Valid()
      ensures r.None? <==> forall a, j :: k <= j <= TOP ==> !Has(old(own), a, j, Free)
      ensures r.None? ==> unchanged(this)
      ensures r.Some? ==> Granted(old(own), own, r.value.addr, k, Live) && touched == old(touched) + Units(r.value.addr, k)
      ensures r.Some? ==> r.value.addr in old(records) && r.value.trimState == old(records)[r.value.addr].data.trimState
      ensures r.Some? ==> WasCut(old(View()), View(), r.value.addr, k)
      ensures r.Some? && r.value.trimState == NOT_ALLOCATED ==> Untouched(r.value.addr, k, old(touched))
    {
      if k > TOP {
        return None;
      }
      var j := FindOrder(k);
      if j > TOP {
        return None;
      }
      hide RegionOk, Canonical, Granted, Settled, TagsTrue, Tiled, SmallestFit;
      var a := heads[j];
      ghost var g := View();
      var tag := Take(k, j, a);
      GrantSettled(g.own, own, a, k);
      RegionFacts(g);
      RegionFacts(View());
      FitFacts(g.own, a, k, j);
      GrantTags(g.lists.records, g.own, records, own, touched, a, k, j);
      touched := touched + Units(a, k);
      r := Some(Grant(a, tag));
    }

    /** The first order from `k` on with a free block, beyond the largest if there is none. */
    method FindOrder(k: nat) returns (j: nat)
      requires Valid() && k <= TOP
      ensures k <= j <= TOP + 1
      ensures j > TOP <==> forall a, i :: k <= i <= TOP ==> !Has(own, a, i, Free)
      ensures j <= TOP ==> j < |heads| && heads[j] >= 0 && heads[j] in records && SmallestFit(own, heads[j], k, j)
    {
      ShapedSizes(Rep(), |own|);
      var seen := mask;
      j := k;
      while j <= TOP && (!seen[j] || heads[j] == NIL)
        invariant k <= j <= TOP + 1
        invariant forall i: nat :: k <= i < j ==> free[i] == []
      {
        EmptyOrder(View(), j);
        j := j + 1;
      }
      if j > TOP {
        NothingFree(View(), k);
        return;
      }
      FirstFree(View(), j);
      NothingSmaller(View(), heads[j], k, j);
    }

    /** The block leaves its list and is split down to the requested order. */
    method Take(k: nat, j: nat, a: nat) returns (tag: nat)
      requires RegionOk(View()) && Canonical(own) && SmallestFit(own, a, k, j) && j < |heads| && heads[j] == a && a in records
      modifies this`records, this`heads, this`bits, this`mask, this`free, this`own
      ensures RegionOk(View()) && Canonical(own) && Granted(old(own), own, a, k, Live) && CutFrom(old(View()), View(), a, k, j)
      ensures tag == old(records)[a].data.trimState
      ensures forall x: nat :: a + Size(k) <= x < a + Size(j) && x < |own| ==> own[x].holder == Free
    {
      hide RegionOk, Canonical, Granted, Tiled, MarksKept, CutKept, MarkedIn, Halve, Rehold;
      var life;
      life, tag := records[a].data.lifeTime, records[a].data.trimState;
      ghost var g := View();
      RegionFacts(g);
      FitFacts(g.own, a, k, j);
      GrantStart(own, a, j, HAND);
      TakenCanonical(own, a, j, Free, HAND);
      TakenWhole(own, a, j, HAND);
      Detach(j, a);
      ghost var mid := View();
      Carve(k, j, a, life, tag, g.own);
      ghost var last := View();
      RegionFacts(last);
      GrantFacts(g.own, last.own, a, k, HAND);
      GrantOver(g.own, own, a, k, HAND, Live);
      TakenCanonical(own, a, k, HAND, Live);
      ReholdOk(View(), a, k, HAND, Live);
      HandedOver(own, records, a, k, j, Mark(life, tag), HAND);
      own := Rehold(own, a, k, Live);
      CutFurther(g.own, mid.own, last.own, a, a + Size(j), a, a + Size(j));
      CutFurther(g.own, last.own, own, a, a + Size(j), a, a + Size(j));
      KeptFurther(g.lists.records, mid.lists.records, records, a, a + Size(j), a, a + Size(j));
    }

    /** Splitting down to the requested order, each time putting the upper half back with the data of the whole. */
    method Carve(k: nat, top: nat, a: nat, life: nat, tag: nat, ghost was: seq<Piece>)
      requires RegionOk(View()) && Canonical(own) && k <= top <= TOP && Granted(was, own, a, top, HAND)
      modifies this`records, this`heads, this`bits, this`mask, this`free, this`own
      ensures RegionOk(View()) && Canonical(own) && Granted(was, own, a, k, HAND)
      ensures CutKept(old(own), own, a, a + Size(top)) && MarksKept(old(records), records, a, a + Size(top))
      ensures MarkedIn(records, own, a, a + Size(top), Mark(life, tag))
      ensures forall x: nat :: a + Size(k) <= x < a + Size(top) && x < |own| ==> own[x].holder == Free
    {
      hide RegionOk, Canonical, Granted, Halve, Rehold, CutKept, MarksKept, MarkedIn;
      var j := top;
      ghost var g := View();
      GrantFacts(was, own, a, top, HAND);
      CarveFrom(g, a, top, Mark(life, tag), HAND);
      while j > k
        invariant k <= j <= top
        invariant RegionOk(View()) && Canonical(own) && Granted(was, own, a, j, HAND)
        invariant Carved(g, View(), a, j, top, Mark(life, tag))
      {
        hide Carved;
        ghost var now := View();
        CarveStep(j, a, life, tag, was);
        CarveMore(g, now, View(), a, j, top, Mark(life, tag), HAND);
        j := j - 1;
      }
    }

    method CarveStep(j: nat, a: nat, life: nat, tag: nat, ghost was: seq<Piece>)
      requires RegionOk(View()) && Canonical(own) && j > 0 && Granted(was, own, a, j, HAND)
      modifies this`records, this`heads, this`bits, this`mask, this`free, this`own
      ensures RegionOk(View()) && Canonical(own) && Granted(was, own, a, j - 1, HAND)
      ensures own == Rehold(Halve(old(own), a, j, HAND), a + Size(j - 1), j - 1, Free) && Tiled(old(own)) && Has(old(own), a, j, HAND)
      ensures MarksKept(old(records), records, a + Size(j - 1), a + Size(j - 1) + 1)
      ensures a + Size(j - 1) in records && records[a + Size(j - 1)].data == Mark(life, tag)
    {
      hide OrdersOk, FreeAgree, Tiled, Shaped, Canonical, Halve, Rehold, MarksKept;
      HalveOk(View(), a, j, HAND);
      HalveTiles(own, a, j, HAND);
      UpperHalf(own, a, j, HAND);
      GrantHalf(was, own, a, j, HAND);
      own := Halve(own, a, j, HAND);
      FreeBlockNew(j - 1, a + Size(j - 1), HAND, life, tag);
    }

    // ----- free -----

    /** The inverse of a grant.  The region stays canonical, so its cut is the only one possible; when nothing is live
        any more it is the fresh one.  The free block that holds the released one is `(cur, j)`; it is tagged allocated,
        and every other free block keeps its data. */
    method Release(a: int, k: nat, stamp: nat) returns (ghost cur: nat, ghost j: nat)
      requires Valid()
      requires k <= TOP && 0 <= a < |own| ==> Has(own, a, k, Live)
      modifies this
      ensures Valid() && touched == old(touched)
      ensures !(k <= TOP && 0 <= a < |old(own)|) ==> unchanged(this)
      ensures k <= TOP && 0 <= a < |old(own)| ==> Granted(own, old(own), a, k, Live) && FreedInto(old(View()), View(), a, k, cur, j, stamp)
      ensures (forall x :: 0 <= x < |own| ==> own[x].holder == Free) ==> own == Fresh(|own|)
    {
      hide OrdersOk, FreeAgree, TiledIn, Canonical, Rehold, Settled, TagsTrue, MarksKept, CutKept;
      cur, j := 0, 0;
      var total := |bits[0]|;
      if k > TOP || a < 0 || a >= total {
        AllFreeFresh(own);
        return;
      }
      ghost var g := View();
      ReholdOk(View(), a, k, Live, HAND);
      TakenCanonical(own, a, k, Live, HAND);
      ReleaseStart(own, a, k, HAND);
      own := Rehold(own, a, k, HAND);
      var start, order := Coalesce(a, k, old(own));
      cur, j := start, order;
      GivenCanonical(own, start, order, HAND);
      ReleaseDone(old(own), own, a, k, start, order, HAND);
      ghost var mid := View();
      FreeBlockNew(order, start, HAND, stamp, ALLOCATED);
      ReleaseSettled(old(own), own, a, k);
      Freed(g, mid, View(), a, k, start, order, HAND, stamp);
      ReleaseTags(g.lists.records, g.own, records, own, touched, start, order);
      AllFreeFresh(own);
    }

    /** Taking in free buddies as long as there are any. */
    method Coalesce(a: nat, k: nat, ghost was: seq<Piece>) returns (cur: nat, j: nat)
      requires RegionOk(View()) && Canonical(own) && Released(was, own, a, k, a, k, HAND)
      modifies this`records, this`heads, this`bits, this`mask, this`free, this`own
      ensures RegionOk(View()) && Canonical(own) && Released(was, own, a, k, cur, j, HAND)
      ensures cur % Size(j) == 0 && (j < TOP ==> !Has(own, Buddy(cur, j), j, Free))
      ensures MarksKept(old(records), records, 0, 0)
    {
      hide RegionOk, Canonical, Buddy, MarksKept;
      cur, j := a, k;
      RegionFacts(View());
      OnePiece(own, a, k, HAND);
      NoneMarked(records);
      while j < TOP
        invariant RegionOk(View()) && Canonical(own) && Released(was, own, a, k, cur, j, HAND)
        invariant j <= TOP && cur % Size(j) == 0 && MarksKept(old(records), records, 0, 0)
      {
        var b := Buddy(cur, j);
        BuddyBit(View(), cur, j, HAND);
        if !bits[j][BitOf(b, j)] {
          return;
        }
        BuddyFacts(cur, j);
        ghost var m := records;
        Absorb(cur, j, a, k, was);
        KeptFurther(old(records), m, records, 0, 0, 0, 0);
        cur, j := Lower(cur, j), j + 1;
      }
    }

    method Absorb(cur: nat, j: nat, ghost a: nat, ghost k: nat, ghost was: seq<Piece>)
      requires RegionOk(View()) && Canonical(own) && j < TOP && cur % Size(j) == 0
      requires Has(own, Buddy(cur, j), j, Free) && Released(was, own, a, k, cur, j, HAND)
      modifies this`records, this`heads, this`bits, this`mask, this`free, this`own
      ensures RegionOk(View()) && Canonical(own) && Released(was, own, a, k, Lower(cur, j), j + 1, HAND)
      ensures MarksKept(old(records), records, 0, 0)
    {
      hide OrdersOk, FreeAgree, Tiled, Shaped, Canonical, Rehold, Merge, Buddy, MarksKept;
      var b := Buddy(cur, j);
      TakenCanonical(own, b, j, Free, HAND);
      ReholdTiles(own, b, j, Free, HAND);
      BuddyStays(own, cur, j, HAND, HAND);
      ReleaseMore(was, own, a, k, cur, j, HAND);
      Detach(j, b);
      MergeOk(View(), cur, j, HAND, HAND, HAND);
      MergeFree(own, cur, j, HAND, HAND, HAND);
      own := Merge(own, cur, j, HAND);
    }

    // ----- try_grow_inplace -----

    /** Succeeds exactly when the buddy lies above and is free; the block then takes it in. */
    method TryGrowInplace(a: int, k: nat) returns (r: Option<(nat, nat)>)
      requires Valid()
      requires k < TOP && 0 <= a < |own| ==> Has(own, a, k, Live)
      modifies this
      ensures Valid()
      ensures r.Some? <==>
        k < TOP && 0 <= a < |old(own)| && a % Size(k) == 0 && a < Buddy(a, k) && Has(old(own), Buddy(a, k), k, Free)
      ensures r.Some? ==> r.value == (a, k + 1) && Has(own, a, k + 1, Live)
      ensures r.Some? ==> |own| == |old(own)| && forall x :: 0 <= x < |own| && !(a <= x < a + Size(k + 1)) ==> own[x] == old(own)[x]
      ensures r.Some? ==> MarksKept(old(records), records, 0, 0) && touched == old(touched) + Units(a, k + 1)
      ensures r.None? ==> unchanged(this)
    {
      hide OrdersOk, FreeAgree, TiledIn, Canonical, Buddy, Settled, TagsTrue, MarksKept;
      var total := |bits[0]|;
      if k >= TOP || a < 0 || a >= total {
        return None;
      }
      OnePiece(own, a, k, Live);
      var b := Buddy(a, k);
      if b < a {
        return None;
      }
      BuddyFacts(a, k);
      BuddyBit(View(), a, k, Live);
      if bits[k][BitOf(b, k)] {
        ghost var g := View();
        TakeIn(a, k);
        GrowthSettled(old(own), own, a, k + 1);
        AllKept(g.lists.records, records, a, a + Size(k + 1));
        GrowTags(g.lists.records, g.own, records, own, touched, a, k + 1);
        touched := touched + Units(a, k + 1);
        return Some((a, k + 1));
      }
      return None;
    }

    method TakeIn(a: nat, k: nat)
      requires RegionOk(View()) && Canonical(own) && k < TOP && a % Size(k) == 0 && a < Buddy(a, k)
      requires Has(own, a, k, Live) && Has(own, Buddy(a, k), k, Free)
      modifies this`records, this`heads, this`bits, this`mask, this`free, this`own
      ensures RegionOk(View()) && Canonical(own) && Has(own, a, k + 1, Live) && |own| == |old(own)|
      ensures forall x :: 0 <= x < |own| && !(a <= x < a + Size(k + 1)) ==> own[x] == old(own)[x]
      ensures MarksKept(old(records), records, 0, 0)
    {
      hide OrdersOk, FreeAgree, Tiled, Shaped, Canonical, Buddy, MarksKept;
      var b := Buddy(a, k);
      BuddyFacts(a, k);
      Halves(a, k + 1);
      TakenCanonical(own, b, k, Free, HAND);
      ReholdTiles(own, b, k, Free, HAND);
      BuddyStays(own, a, k, Live, HAND);
      Detach(k, b);
      MergeOk(View(), a, k, Live, HAND, Live);
      MergeTiles(own, a, k, Live, HAND, Live);
      MergeFree(own, a, k, Live, HAND, Live);
      own := Merge(own, a, k, Live);
    }
  }
}
