/** The regions of the buddy backend: allocation by node, new regions, and the live blocks of all of them. */
module BuddyRegions {
  import opened Options
  import opened Numbers
  import opened BuddyTiles
  import opened BuddyLists
  import opened BuddyRegion
  import opened BuddyMarks
  import opened BuddyBackend
  import Topology

  /** The smallest block. */
  const UNIT: nat := 0x40_0000
  const MIN_ORDER: nat := 22
  const MAX_ORDER: nat := 26

  function BlockSize(order: nat): nat { if order < MIN_ORDER then UNIT else UNIT * Size(order - MIN_ORDER) }

  /** order_for_size: the order of the next power of two. */
  function OrderFor(length: nat): nat {
    if length <= 1 then 0 else 1 + OrderFor((length + 1) / 2)
  }

  lemma {:induction false} OrderCovers(length: nat)
    ensures length <= Pow2(OrderFor(length))
  {
    if length > 1 {
      OrderCovers((length + 1) / 2);
    }
  }

  lemma UnitPower()
    ensures Pow2(MIN_ORDER) == UNIT
  {
    assert Pow2(4) == 16;
    assert Pow2(8) == 256;
    assert Pow2(12) == 4096;
    assert Pow2(16) == 0x1_0000;
    assert Pow2(20) == 0x10_0000;
  }

  /** A block of the order of a size, or of the smallest order, is large enough. */
  lemma OrderFits(length: nat, order: nat)
    requires OrderFor(length) <= order && MIN_ORDER <= order <= MAX_ORDER
    ensures length <= BlockSize(order)
  {
    hide OrderFor, Pow2;
    OrderCovers(length);
    Pow2Grows(OrderFor(length), order);
    PowerBlocks(order);
  }

  lemma PowerBlocks(order: nat)
    requires MIN_ORDER <= order <= MAX_ORDER
    ensures Pow2(order) == BlockSize(order)
  {
    UnitPower();
  }

  lemma {:induction false} OrderOfPower(k: nat)
    ensures OrderFor(Pow2(k)) == k
  {
    if k > 0 {
      OrderOfPower(k - 1);
      Pow2Grows(0, k - 1);
    }
  }

  lemma {:induction false} OrderAtMost(length: nat, k: nat)
    requires length <= Pow2(k)
    ensures OrderFor(length) <= k
  {
    if length > 1 {
      OrderAtMost((length + 1) / 2, k - 1);
    }
  }

  /** The order of a block's size is its order. */
  lemma OrderExact(order: nat)
    requires MIN_ORDER <= order <= MAX_ORDER
    ensures OrderFor(BlockSize(order)) == order
  {
    hide Pow2, OrderFor;
    PowerBlocks(order);
    OrderOfPower(order);
  }

  lemma BlockSizeBound(order: nat)
    ensures UNIT <= BlockSize(order) <= 0x400_0000
  {
  }

  // ----- the space of all regions -----

  datatype Zone = Zone(base: nat, own: seq<Piece>)

  /** A block handed out: the handle of its region and its order. */
  datatype Block = Block(region: nat, order: nat)

  function EndOf(z: Zone): nat { z.base + UNIT * |z.own| }

  ghost function Offset(z: Zone, p: nat): nat { if p >= z.base && (p - z.base) % UNIT == 0 then (p - z.base) / UNIT else |z.own| }

  lemma OffsetOf(z: Zone, a: nat)
    ensures Offset(z, z.base + UNIT * a) == a
  {
  }

  lemma OffsetBack(z: Zone, p: nat)
    requires Offset(z, p) < |z.own|
    ensures p == z.base + UNIT * Offset(z, p) < EndOf(z)
  {
  }

  /** The region has a live block of that order at that address. */
  ghost predicate LiveAt(zones: seq<Zone>, p: nat, b: Block) {
    && 1 <= b.region <= |zones| && b.order >= MIN_ORDER
    && Has(zones[b.region - 1].own, Offset(zones[b.region - 1], p), b.order - MIN_ORDER, Live)
  }

  ghost predicate Apart(z: Zone, y: Zone) { EndOf(z) <= y.base || EndOf(y) <= z.base }

  /** Regions are tiled and do not overlap. */
  ghost predicate ZonesOk(zones: seq<Zone>) {
    && (forall i :: 0 <= i < |zones| ==> Tiled(zones[i].own) && zones[i].base > 0 && zones[i].base % 4096 == 0)
    && (forall i, j :: 0 <= i < j < |zones| ==> Apart(zones[i], zones[j]))
  }

  /** `live` has exactly the live blocks of the regions. */
  ghost predicate LiveOk(zones: seq<Zone>, live: map<nat, Block>) {
    forall p, b :: LiveAt(zones, p, b) <==> p in live && live[p] == b
  }

  /** Regions keep their place and extent. */
  ghost predicate SameExtent(zones: seq<Zone>, zones': seq<Zone>) {
    |zones| == |zones'| && forall i :: 0 <= i < |zones| ==> zones'[i].base == zones[i].base && |zones'[i].own| == |zones[i].own|
  }

  /** A live block lies inside its region. */
  lemma LiveInside(zones: seq<Zone>, p: nat, b: Block)
    requires ZonesOk(zones) && LiveAt(zones, p, b)
    ensures b.order <= MAX_ORDER && p % 4096 == 0 && zones[b.region - 1].base <= p && p + BlockSize(b.order) <= EndOf(zones[b.region - 1])
  {
    var z := zones[b.region - 1];
    hide Tiled, ZonesOk, BlockSize;
    ZoneOk(zones, b.region - 1);
    OnePiece(z.own, Offset(z, p), b.order - MIN_ORDER, Live);
    OffsetBack(z, p);
    Scale(Offset(z, p), Size(b.order - MIN_ORDER), |z.own|);
    BlockUnits(b.order);
  }

  lemma BlockUnits(order: nat)
    requires order >= MIN_ORDER
    ensures BlockSize(order) == UNIT * Size(order - MIN_ORDER)
  {
  }

  lemma Scale(a: nat, n: nat, m: nat)
    requires a + n <= m
    ensures UNIT * a + UNIT * n <= UNIT * m
  {
  }

  lemma ZoneOk(zones: seq<Zone>, i: nat)
    requires ZonesOk(zones) && i < |zones|
    ensures zones[i].base % 4096 == 0 && Tiled(zones[i].own) && forall j :: 0 <= j < |zones| && j != i ==> Apart(zones[i], zones[j])
  {
    forall j | 0 <= j < |zones| && j != i
      ensures Apart(zones[i], zones[j])
    {
      if j < i {
        assert Apart(zones[j], zones[i]);
      }
    }
  }

  /** Live blocks do not overlap, within a region or across regions. */
  lemma LivesApart(zones: seq<Zone>, live: map<nat, Block>, p: nat, q: nat)
    requires ZonesOk(zones) && LiveOk(zones, live) && p in live && q in live && p < q
    ensures p + BlockSize(live[p].order) <= q
  {
    hide Tiled, ZonesOk, BlockSize;
    var b, c := live[p], live[q];
    assert LiveAt(zones, p, b) && LiveAt(zones, q, c);
    LiveInside(zones, p, b);
    LiveInside(zones, q, c);
    BlockSizeBound(c.order);
    ZoneOk(zones, b.region - 1);
    if b.region == c.region {
      var z := zones[b.region - 1];
      var a, d, k := Offset(z, p), Offset(z, q), b.order - MIN_ORDER;
      OffsetBack(z, p);
      OffsetBack(z, q);
      OnePiece(z.own, a, k, Live);
      assert d >= a + Size(k);
      Scale(a, Size(k), d);
      BlockUnits(b.order);
    } else {
      assert Apart(zones[b.region - 1], zones[c.region - 1]);
    }
  }

  // ----- what the operations do to it -----

  /** A grant makes one block live and leaves the others. */
  lemma GrantHas(own: seq<Piece>, own': seq<Piece>, a: nat, k: nat, x: nat, j: nat)
    requires Tiled(own') && Granted(own, own', a, k, Live)
    ensures Has(own', x, j, Live) <==> Has(own, x, j, Live) || (x == a && j == k)
    ensures !Has(own, a, j, Live)
  {
    hide Tiled;
    OnePiece(own', a, k, Live);
    if x < |own| && !(a <= x < a + Size(k)) {
      assert SameOrFree(own, own', x);
    }
  }

  lemma GrowthHas(own: seq<Piece>, own': seq<Piece>, a: nat, k: nat, x: nat, j: nat)
    requires Tiled(own) && Tiled(own') && k < TOP && Has(own, a, k, Live) && Has(own', a, k + 1, Live) && |own| == |own'|
    requires Has(own, a + Size(k), k, Free)
    requires forall y :: 0 <= y < |own| && !(a <= y < a + Size(k + 1)) ==> own'[y] == own[y]
    ensures Has(own', x, j, Live) <==> (x != a && Has(own, x, j, Live)) || (x == a && j == k + 1)
  {
    hide Tiled;
    OnePiece(own, a, k, Live);
    OnePiece(own, a + Size(k), k, Free);
    OnePiece(own', a, k + 1, Live);
    assert Size(k + 1) == Size(k) + Size(k);
  }

  /** One region's cut changes so that one address gets or loses a live block. */
  ghost predicate OneChange(own: seq<Piece>, own': seq<Piece>, a: nat, j: Option<nat>) {
    && |own| == |own'|
    && forall x: nat, i: nat :: Has(own', x, i, Live) <==> if x == a then j == Some(i) else Has(own, x, i, Live)
  }

  lemma Changed(zones: seq<Zone>, live: map<nat, Block>, r: nat, own': seq<Piece>, a: nat, j: Option<nat>)
    requires ZonesOk(zones) && LiveOk(zones, live) && r < |zones| && OneChange(zones[r].own, own', a, j) && Tiled(own') && a < |own'|
    ensures
      var p := zones[r].base + UNIT * a;
      var zones', live' := zones[r := Zone(zones[r].base, own')], if j.Some? then live[p := Block(r + 1, j.value + MIN_ORDER)] else live - {p};
      ZonesOk(zones') && LiveOk(zones', live') && SameExtent(zones, zones')
  {
    hide Tiled;
    var z := zones[r];
    var p := z.base + UNIT * a;
    var zones' := zones[r := Zone(z.base, own')];
    var live' := if j.Some? then live[p := Block(r + 1, j.value + MIN_ORDER)] else live - {p};
    OffsetOf(z, a);
    forall q: nat, b: Block
      ensures LiveAt(zones', q, b) <==> q in live' && live'[q] == b
    {
      assert LiveAt(zones, q, b) <==> q in live && live[q] == b;
      if q == p && b.region != r + 1 {
        NotElsewhere(zones, r, p, a, b);
      }
      if b.region == r + 1 && q != p && Offset(z, q) < |z.own| {
        OffsetBack(z, q);
      }
    }
  }

  lemma NotElsewhere(zones: seq<Zone>, r: nat, p: nat, a: nat, b: Block)
    requires ZonesOk(zones) && r < |zones| && a < |zones[r].own| && p == zones[r].base + UNIT * a && b.region != r + 1
    ensures !LiveAt(zones, p, b)
  {
    hide Tiled;
    if LiveAt(zones, p, b) {
      LiveInside(zones, p, b);
      ZoneOk(zones, r);
      Scale(a, 1, |zones[r].own|);
      BlockSizeBound(b.order);
      assert false;
    }
  }

  lemma LiveHere(zones: seq<Zone>, live: map<nat, Block>, p: nat)
    requires LiveOk(zones, live) && p in live
    ensures LiveAt(zones, p, live[p])
  {
  }

  /** The buddy of the block at that address lies above it and is free. */
  ghost predicate UpperFree(z: Zone, p: nat, order: nat) {
    && order >= MIN_ORDER && Offset(z, p) % Size(order - MIN_ORDER) == 0
    && var b := Buddy(Offset(z, p), order - MIN_ORDER);
       Offset(z, p) < b && Has(z.own, b, order - MIN_ORDER, Free)
  }

  /** One region's block has taken in its upper buddy; nothing else changed. */
  ghost predicate Grew(zones: seq<Zone>, zones': seq<Zone>, region: nat, p: nat, order: nat) {
    && 1 <= region <= |zones| == |zones'| && zones' == zones[region - 1 := zones'[region - 1]] && MIN_ORDER <= order < MAX_ORDER
    && GrewIn(zones[region - 1], zones'[region - 1], p, order)
  }

  ghost predicate GrewIn(z: Zone, z': Zone, p: nat, order: nat) {
    var a, k := Offset(z, p), order - MIN_ORDER;
    && order >= MIN_ORDER && z'.base == z.base && |z'.own| == |z.own|
    && Has(z.own, a, k, Live) && Has(z.own, a + Size(k), k, Free) && Has(z'.own, a, k + 1, Live)
    && forall x :: 0 <= x < |z.own| && !(a <= x < a + Size(k + 1)) ==> z'.own[x] == z.own[x]
  }

  /** Growth takes in smaller blocks only: whether a larger one is free stays as it was. */
  lemma GrewFits(z: Zone, z': Zone, p: nat, order: nat, larger: nat)
    requires Tiled(z.own) && Tiled(z'.own) && GrewIn(z, z', p, order) && order < larger && order < MAX_ORDER
    ensures NoFit(z'.own, larger) <==> NoFit(z.own, larger)
  {
    hide Tiled;
    var a, k := Offset(z, p), order - MIN_ORDER;
    OnePiece(z.own, a, k, Live);
    OnePiece(z.own, a + Size(k), k, Free);
    OnePiece(z'.own, a, k + 1, Live);
    assert Size(k + 1) == Size(k) + Size(k);
    forall x: nat, j: nat | larger - MIN_ORDER <= j
      ensures Has(z'.own, x, j, Free) <==> Has(z.own, x, j, Free)
    {
    }
  }

  /** The buddies on the way up are as they were. */
  lemma GrewUpper(z: Zone, z': Zone, p: nat, order: nat, larger: nat)
    requires Tiled(z'.own) && GrewIn(z, z', p, order) && order < larger <= MAX_ORDER
    ensures UpperFree(z', p, larger) <==> UpperFree(z, p, larger)
  {
    hide Tiled, Buddy;
    var a := Offset(z, p);
    if a % Size(larger - MIN_ORDER) == 0 {
      BuddyIndexed(a, larger - MIN_ORDER, order - MIN_ORDER);
    }
  }

  lemma BuddyIndexed(a: nat, j: nat, k: nat)
    requires k < j <= TOP && a % Size(j) == 0
    ensures a < Buddy(a, j) ==> Buddy(a, j) >= a + Size(k + 1)
  {
  }

  ghost predicate UpperFrom(z: Zone, p: nat, order: nat, target: nat) { forall j: nat :: order <= j < target ==> UpperFree(z, p, j) }

  /** A free buddy above at every order on the way. */
  ghost predicate UpperAll(zones: seq<Zone>, region: nat, p: nat, order: nat, target: nat) {
    1 <= region <= |zones| && UpperFrom(zones[region - 1], p, order, target)
  }

  /** The regions have the same free blocks of an order or larger. */
  ghost predicate SameFits(zones: seq<Zone>, zones': seq<Zone>, order: nat) {
    |zones| == |zones'| && forall i :: 0 <= i < |zones| ==> (NoFit(zones'[i].own, order) <==> NoFit(zones[i].own, order))
  }

  lemma GrewSameFits(zones: seq<Zone>, zones': seq<Zone>, region: nat, p: nat, order: nat, larger: nat)
    requires ZonesOk(zones) && ZonesOk(zones') && Grew(zones, zones', region, p, order) && order < larger
    ensures SameFits(zones, zones', larger)
  {
    hide Tiled, NoFit, GrewIn;
    forall i | 0 <= i < |zones|
      ensures NoFit(zones'[i].own, larger) <==> NoFit(zones[i].own, larger)
    {
      if i == region - 1 {
        GrewFits(zones[i], zones'[i], p, order, larger);
      }
    }
  }

  /** What an allocation of that order finds depends on these alone. */
  lemma SameFull(regions: seq<RegionNode>, zones: seq<Zone>, zones': seq<Zone>, node: nat, order: nat)
    requires SameFits(zones, zones', order)
    ensures NodeFull(regions, zones', node, order) <==> NodeFull(regions, zones, node, order)
  {
    hide NoFit;
  }

  /** A block is large enough exactly from the order of the size on. */
  lemma OrderReaches(length: nat, order: nat)
    requires MIN_ORDER <= order <= MAX_ORDER
    ensures length <= BlockSize(order) <==> OrderFor(length) <= order
  {
    hide OrderFor, Pow2, BlockSize;
    if OrderFor(length) <= order {
      OrderFits(length, order);
    }
    if length <= BlockSize(order) {
      PowerBlocks(order);
      OrderAtMost(length, order);
    }
  }

  ghost predicate FreshZone(zones: seq<Zone>, base: nat, blocks: nat) {
    base > 0 && base % 4096 == 0 && forall i :: 0 <= i < |zones| ==> EndOf(zones[i]) <= base || base + 0x400_0000 * blocks <= zones[i].base
  }

  lemma Added(zones: seq<Zone>, live: map<nat, Block>, base: nat, blocks: nat)
    requires ZonesOk(zones) && LiveOk(zones, live) && FreshZone(zones, base, blocks)
    ensures ZonesOk(zones + [Zone(base, Fresh(16 * blocks))]) && LiveOk(zones + [Zone(base, Fresh(16 * blocks))], live)
  {
    hide Tiled;
    var z := Zone(base, Fresh(16 * blocks));
    var zones' := zones + [z];
    FreshTiles(16 * blocks);
    assert EndOf(z) == base + 0x400_0000 * blocks;
    forall q: nat, b: Block
      ensures LiveAt(zones', q, b) <==> q in live && live[q] == b
    {
      assert LiveAt(zones, q, b) <==> q in live && live[q] == b;
      assert b.region == |zones'| ==> !LiveAt(zones', q, b);
    }
  }

  // ----- the allocator -----

  /** BuddyRegion: where it is, the node it belongs to, and its lists. */
  datatype RegionNode = RegionNode(base: nat, node: nat, space: FreeSpace)

  datatype Allocation = Allocation(addr: nat, order: nat, trimState: nat, region: nat)

  /** No free block of the order or a larger one. */
  ghost predicate NoFit(own: seq<Piece>, order: nat) {
    order >= MIN_ORDER && forall a, j :: order - MIN_ORDER <= j <= TOP ==> !Has(own, a, j, Free)
  }

  /** No region of the node has a block that is large enough. */
  ghost predicate NodeFull(regions: seq<RegionNode>, zones: seq<Zone>, node: nat, order: nat) {
    |zones| == |regions| && forall i :: 0 <= i < |regions| && regions[i].node == node ==> NoFit(zones[i].own, order)
  }

  lemma NodeOf(regions: seq<RegionNode>, zones: seq<Zone>, i: nat, order: nat)
    requires i < |regions| && |zones| == |regions| && !NoFit(zones[i].own, order)
    ensures !NodeFull(regions, zones, regions[i].node, order)
  {
  }

  /** A round asks every node. */
  lemma AllTurns(regions: seq<RegionNode>, zones: seq<Zone>, node: nat, nranges: nat, order: nat)
    requires node < nranges && forall j :: 0 <= j < nranges ==> NodeFull(regions, zones, Topology.Turn(j, node, nranges), order)
    ensures forall n :: 0 <= n < nranges ==> NodeFull(regions, zones, n, order)
  {
    hide NodeFull;
    forall n | 0 <= n < nranges
      ensures NodeFull(regions, zones, n, order)
    {
      assert Topology.Turn(0, node, nranges) == node;
      if n != node {
        Topology.RoundCovers(node, n, nranges);
      }
    }
  }

  /** The newest region of the node with a block that is large enough. */
  ghost predicate Newest(regions: seq<RegionNode>, zones: seq<Zone>, node: nat, order: nat, region: nat) {
    && 1 <= region <= |regions| == |zones| && regions[region - 1].node == node && !NoFit(zones[region - 1].own, order)
    && forall j :: region <= j < |regions| && regions[j].node == node ==> NoFit(zones[j].own, order)
  }

  /** The first node in turn that is not full, and its newest region with a large enough block. */
  ghost predicate FirstTurn(regions: seq<RegionNode>, zones: seq<Zone>, node: nat, nranges: nat, order: nat, region: nat, i: nat) {
    && i < nranges && Newest(regions, zones, Topology.Turn(i, node, nranges), order, region)
    && forall j :: 0 <= j < i ==> NodeFull(regions, zones, Topology.Turn(j, node, nranges), order)
  }

  /** The block was cut from the first of the smallest free blocks of its region that are large enough, whose trim state
      it has; one that was never allocated has no part that was ever handed out. */
  ghost predicate CutOut(base: nat, was: Region, now: Region, touched: set<nat>, g: Allocation) {
    && g.addr >= base && g.order >= MIN_ORDER && g.addr == base + UNIT * ((g.addr - base) / UNIT)
    && var a, k := (g.addr - base) / UNIT, g.order - MIN_ORDER;
       && WasCut(was, now, a, k) && a in was.lists.records && g.trimState == was.lists.records[a].data.trimState
       && (g.trimState == NOT_ALLOCATED ==> Untouched(a, k, touched))
  }

  lemma CutAddress(base: nat, was: Region, now: Region, touched: set<nat>, g: Allocation, a: nat, k: nat)
    requires g.addr == base + UNIT * a && g.order == k + MIN_ORDER && WasCut(was, now, a, k)
    requires a in was.lists.records && g.trimState == was.lists.records[a].data.trimState
    requires g.trimState == NOT_ALLOCATED ==> Untouched(a, k, touched)
    ensures CutOut(base, was, now, touched, g)
  {
    hide WasCut, Untouched;
    assert (g.addr - base) / UNIT == a;
  }

  /** A region nobody has used gives blocks that were never allocated. */
  lemma CutFresh(base: nat, was: Region, now: Region, touched: set<nat>, g: Allocation, life: nat)
    requires CutOut(base, was, now, touched, g) && MarkedIn(was.lists.records, was.own, 0, |was.own|, Mark(life, NOT_ALLOCATED))
    ensures g.trimState == NOT_ALLOCATED
  {
    var a, k := (g.addr - base) / UNIT, g.order - MIN_ORDER;
    var j :| CutFrom(was, now, a, k, j);
    assert Has(was.own, a, j, Free);
  }

  lemma NewestIsNew(regions: seq<RegionNode>, zones: seq<Zone>, regions': seq<RegionNode>, zones': seq<Zone>, node: nat, order: nat)
    requires |regions'| == |zones'| == |regions| + 1 && regions'[|regions|].node == node && !NoFit(zones'[|regions|].own, order)
    ensures forall region :: Newest(regions', zones', node, order, region) ==> region == |regions'|
  {
    hide NoFit;
  }

  lemma FreshFits(blocks: nat, order: nat)
    requires blocks > 0 && MIN_ORDER <= order <= MAX_ORDER
    ensures !NoFit(Fresh(16 * blocks), order)
  {
    var own := Fresh(16 * blocks);
    assert 0 % Size(TOP) == 0 && own[0].start == 0;
    assert Has(own, 0, TOP, Free);
  }

  class BuddyAllocator {
    /** The regions, the newest one last; the handle of a region is its index plus one. */
    var regions: seq<RegionNode>
    /** What the regions consist of, and the live blocks by address. */
    ghost var zones: seq<Zone>
    ghost var live: map<nat, Block>

    constructor ()
      ensures Valid() && regions == [] && zones == [] && live == map[]
    {
      regions, zones, live := [], [], map[];
    }

    ghost function Spaces(): set<FreeSpace>
      reads this
    {
      set i | 0 <= i < |regions| :: regions[i].space
    }

    ghost predicate Holds(i: nat)
      reads this, Spaces()
      requires i < |regions|
    {
      i < |zones| && zones[i] == Zone(regions[i].base, regions[i].space.own) && regions[i].space.Valid()
    }

    ghost predicate Valid()
      reads this, Spaces()
    {
      && |zones| == |regions| && (forall i :: 0 <= i < |regions| ==> Holds(i))
      && (forall i, j :: 0 <= i < j < |regions| ==> regions[i].space != regions[j].space)
      && ZonesOk(zones) && LiveOk(zones, live)
    }

    /** add_region: a new region of free blocks.  `mem` is the system's answer. */
    method AddRegion(blocks: nat, node: nat, life: nat, mem: Option<nat>) returns (ok: bool)
      requires Valid() && (mem.Some? ==> FreshZone(zones, mem.value, blocks))
      modifies this
      ensures Valid() && (ok <==> mem.Some?) && live == old(live)
      ensures !ok ==> unchanged(this)
      ensures ok ==> zones == old(zones) + [Zone(mem.value, Fresh(16 * blocks))]
      ensures ok ==> |regions| == |old(regions)| + 1 && regions[..|old(regions)|] == old(regions) && fresh(regions[|old(regions)|].space)
      ensures ok ==> regions[|old(regions)|].node == node && regions[|old(regions)|].base == mem.value
      ensures ok ==>
        var space := regions[|old(regions)|].space;
        space.touched == {} && MarkedIn(space.records, space.own, 0, |space.own|, Mark(life, NOT_ALLOCATED))
      ensures fresh(Spaces() - old(Spaces()))
    {
      hide FreeSpace.Valid, ZonesOk, LiveOk, Fresh, FreshZone, MarkedIn;
      if mem.None? {
        return false;
      }
      var space := new FreeSpace(blocks, life);
      Added(zones, live, mem.value, blocks);
      regions := regions + [RegionNode(mem.value, node, space)];
      zones := zones + [Zone(mem.value, Fresh(16 * blocks))];
      forall i | 0 <= i < |regions|
        ensures Holds(i)
      {
        assert i < |regions| - 1 ==> old(Holds(i));
      }
      ok := true;
    }

    /** Changes elsewhere do not matter here. */
    twostate lemma Stays()
      requires old(Valid()) && unchanged(this) && forall x :: x in old(Spaces()) ==> unchanged(x)
      ensures Valid()
    {
      assert forall i :: 0 <= i < |regions| ==> regions[i].space in old(Spaces());
      forall i | 0 <= i < |regions|
        ensures Holds(i)
      {
        assert old(Holds(i));
      }
    }

    /** A change in one region leaves the others as they were. */
    twostate lemma StillHold(i: nat)
      requires old(Valid()) && regions == old(regions) && i < |regions| && Holds(i) && |zones| == |regions|
      requires forall j :: 0 <= j < |regions| && j != i ==> zones[j] == old(zones)[j] && unchanged(regions[j].space)
      ensures forall j :: 0 <= j < |regions| ==> Holds(j)
    {
      forall j | 0 <= j < |regions|
        ensures Holds(j)
      {
        assert old(Holds(j));
      }
    }

    /** One region is asked. */
    method AllocIn(i: nat, order: nat) returns (r: Option<Allocation>)
      requires Valid() && i < |regions| && MIN_ORDER <= order <= MAX_ORDER
      modifies this`zones, this`live, regions[i].space
      ensures Valid()
      ensures r.None? ==> zones == old(zones) && live == old(live) && NoFit(zones[i].own, order) && unchanged(regions[i].space)
      ensures r.Some? ==> !NoFit(old(zones[i].own), order) && Grants(old(zones), old(live), r.value, order) && r.value.region == i + 1
      ensures r.Some? ==> CutOut(regions[i].base, old(regions[i].space.View()), regions[i].space.View(), old(regions[i].space.touched), r.value)
    {
      hide FreeSpace.Valid, ZonesOk, LiveOk, Granted, Tiled, WasCut, Untouched, CutOut;
      assert Holds(i);
      var region := regions[i];
      ghost var was, touched := region.space.View(), region.space.touched;
      var g := region.space.AllocFromRegion(order - MIN_ORDER);
      if g.None? {
        StillHold(i);
        return None;
      }
      TiledSpace(region.space);
      Granting(old(zones), old(live), i, region.space.own, g.value.addr, order);
      var addr := region.base + UNIT * g.value.addr;
      zones := zones[i := Zone(region.base, region.space.own)];
      live := live[addr := Block(i + 1, order)];
      StillHold(i);
      r := Some(Allocation(addr, order, g.value.trimState, i + 1));
      CutAddress(region.base, was, region.space.View(), touched, r.value, g.value.addr, order - MIN_ORDER);
    }

    /** The block was cut from a region there was before. */
    twostate predicate CutHere(g: Allocation)
      reads this, Spaces()
    {
      && 1 <= g.region <= |old(regions)| <= |regions| && regions[g.region - 1] == old(regions)[g.region - 1]
      && var node := old(regions)[g.region - 1];
         CutOut(node.base, old(node.space.View()), node.space.View(), old(node.space.touched), g)
    }

    /** One block more is live; regions stay where they are. */
    ghost predicate Grants(zones0: seq<Zone>, live0: map<nat, Block>, g: Allocation, order: nat)
      reads this
    {
      g.order == order && g.addr !in live0 && live == live0[g.addr := Block(g.region, order)] && SameExtent(zones0, zones)
    }

    /** alloc_from_node: the newest region of the node that has a large enough block. */
    method AllocFromNode(order: nat, node: nat) returns (r: Option<Allocation>)
      requires Valid() && MIN_ORDER <= order <= MAX_ORDER
      modifies this`zones, this`live, Spaces()
      ensures Valid()
      ensures r.None? <==> NodeFull(old(regions), old(zones), node, order)
      ensures r.None? ==> zones == old(zones) && live == old(live) && forall x :: x in Spaces() ==> unchanged(x)
      ensures r.Some? ==> Grants(old(zones), old(live), r.value, order) && Newest(old(regions), old(zones), node, order, r.value.region)
      ensures r.Some? ==> CutHere(r.value)
    {
      hide ZonesOk, LiveOk, NoFit, SameExtent, CutOut;
      var i := |regions|;
      while i > 0
        invariant 0 <= i <= |regions| && Valid() && zones == old(zones) && live == old(live)
        invariant forall x :: x in Spaces() ==> unchanged(x)
        invariant forall j :: i <= j < |regions| && regions[j].node == node ==> NoFit(zones[j].own, order)
      {
        i := i - 1;
        if regions[i].node == node {
          assert regions[i].space in Spaces();
          r := AllocIn(i, order);
          if r.Some? {
            return;
          }
        }
      }
      r := None;
    }

    /** Every node in turn. */
    method AllocAnyNode(order: nat, node: nat, nranges: nat) returns (r: Option<Allocation>)
      requires Valid() && MIN_ORDER <= order <= MAX_ORDER && node < nranges
      modifies this`zones, this`live, Spaces()
      ensures Valid()
      ensures r.None? <==> forall n :: 0 <= n < nranges ==> NodeFull(old(regions), old(zones), n, order)
      ensures r.None? ==> zones == old(zones) && live == old(live)
      ensures r.Some? ==> Grants(old(zones), old(live), r.value, order) && CutHere(r.value)
      ensures r.Some? ==> exists i :: FirstTurn(old(regions), old(zones), node, nranges, order, r.value.region, i)
    {
      hide ZonesOk, LiveOk, NoFit, NodeFull, SameExtent, Topology.Turn, CutOut, Newest;
      var i := 0;
      while i < nranges
        invariant 0 <= i <= nranges && Valid() && zones == old(zones) && live == old(live)
        invariant forall x :: x in Spaces() ==> unchanged(x)
        invariant forall j :: 0 <= j < i ==> NodeFull(regions, zones, Topology.Turn(j, node, nranges), order)
      {
        label Before:
        r := AllocFromNode(order, Topology.Turn(i, node, nranges));
        if r.Some? {
          assert CutHere@Before(r.value);
          assert FirstTurn(old(regions), old(zones), node, nranges, order, r.value.region, i);
          return;
        }
        i := i + 1;
      }
      AllTurns(regions, zones, node, nranges, order);
      r := None;
    }

    /** alloc: from the newest region of the node that has a large enough block; if there is none, from a new region; else
        from the first node in turn.  It fails exactly if the size is too large, or nothing fits and the system gives no
        memory. */
    method Alloc(size: nat, node: nat, numa: bool, nranges: nat, life: nat, mem: Option<nat>) returns (r: Option<Allocation>)
      requires Valid() && (mem.Some? ==> FreshZone(zones, mem.value, 1)) && (numa ==> node < nranges)
      modifies this, Spaces()
      ensures Valid() && fresh(Spaces() - old(Spaces()))
      ensures r.None? <==>
        || OrderFor(size) > MAX_ORDER
        || (&& mem.None? && NodeFull(old(regions), old(zones), node, RequestOrder(size))
            && (numa ==> forall n :: 0 <= n < nranges ==> NodeFull(old(regions), old(zones), n, RequestOrder(size))))
      ensures r.None? ==> zones == old(zones) && live == old(live)
      ensures r.Some? ==>
        || Grants(old(zones), old(live), r.value, RequestOrder(size))
        || (mem.Some? && Grants(old(zones) + [Zone(mem.value, Fresh(16))], old(live), r.value, RequestOrder(size)))
      ensures r.Some? && (!NodeFull(old(regions), old(zones), node, RequestOrder(size)) || mem.None?) ==>
        regions == old(regions) && Grants(old(zones), old(live), r.value, RequestOrder(size)) && CutHere(r.value)
      ensures r.Some? && !NodeFull(old(regions), old(zones), node, RequestOrder(size)) ==>
        Newest(old(regions), old(zones), node, RequestOrder(size), r.value.region)
      ensures r.Some? && NodeFull(old(regions), old(zones), node, RequestOrder(size)) && mem.Some? ==>
        && |regions| == |old(regions)| + 1 == r.value.region && regions[..|old(regions)|] == old(regions)
        && regions[|old(regions)|].node == node && r.value.trimState == NOT_ALLOCATED
      ensures r.Some? && NodeFull(old(regions), old(zones), node, RequestOrder(size)) && mem.None? ==>
        numa && exists i :: FirstTurn(old(regions), old(zones), node, nranges, RequestOrder(size), r.value.region, i)
    {
      hide ZonesOk, LiveOk, NoFit, NodeFull, SameExtent, OrderFor, Fresh, CutOut, Newest, FirstTurn, MarkedIn;
      r := None;
      var order := RequestOrder(size);
      if order > MAX_ORDER {
        return None;
      }
      r := AllocFromNode(order, node);
      if r.Some? {
        return;
      }
      var ok := AddRegion(1, node, life, mem);
      if ok {
        FreshFits(1, order);
        NodeOf(regions, zones, |regions| - 1, order);
        ghost var space := regions[|regions| - 1].space;
        ghost var was := space.View();
        NewestIsNew(old(regions), old(zones), regions, zones, node, order);
        r := AllocFromNode(order, node);
        CutFresh(regions[|regions| - 1].base, was, space.View(), {}, r.value, life);
        return;
      }
      if numa {
        r := AllocAnyNode(order, node, nranges);
      }
    }

    /** The order exists and the address lies in the region. */
    predicate InRegion(region: nat, addr: nat, order: nat)
      reads this, Spaces()
    {
      && 1 <= region <= |regions| && MIN_ORDER <= order <= MAX_ORDER
      && regions[region - 1].base <= addr < regions[region - 1].base + regions[region - 1].space.Bytes()
    }

    /** The block is free and tagged allocated, or the call was out of range and changed nothing. */
    twostate predicate FreeEffect(region: nat, addr: nat, order: nat, stamp: nat)
      reads this, Spaces()
    {
      && regions == old(regions)
      && if old(InRegion(region, addr, order))
         then
           var node := old(regions)[region - 1];
           WasFreed(old(node.space.View()), node.space.View(), (addr - node.base) / UNIT, order - MIN_ORDER, stamp)
         else zones == old(zones) && forall x :: x in old(Spaces()) ==> unchanged(x)
    }

    /** free: a block that was handed out goes back to its region.  Anything out of range is ignored. */
    method Free(region: nat, addr: nat, order: nat, stamp: nat)
      requires Valid() && region <= |regions|
      requires InRegion(region, addr, order) ==> addr in live && live[addr] == Block(region, order)
      modifies this`zones, this`live, Spaces()
      ensures Valid() && SameExtent(old(zones), zones)
      ensures live == if old(InRegion(region, addr, order)) then old(live) - {addr} else old(live)
      ensures FreeEffect(region, addr, order, stamp)
    {
      hide FreeSpace.Valid, ZonesOk, LiveOk, Granted, Tiled, FreedInto;
      if region == 0 || order < MIN_ORDER || order > MAX_ORDER {
        return;
      }
      assert Holds(region - 1);
      var node := regions[region - 1];
      if addr < node.base || addr >= node.base + node.space.Bytes() {
        return;
      }
      assert node.space in Spaces();
      LiveHere(zones, live, addr);
      TiledSpace(node.space);
      OffsetBack(zones[region - 1], addr);
      var a := (addr - node.base) / UNIT;
      ghost var cur, j := node.space.Release(a, order - MIN_ORDER, stamp);
      TiledSpace(node.space);
      Releasing(old(zones), old(live), region - 1, node.space.own, a, order);
      zones := zones[region - 1 := Zone(node.base, node.space.own)];
      live := live - {addr};
      StillHold(region - 1);
    }

    /** try_grow_inplace: a live block takes in its upper buddy if that is free; its address stays. */
    method TryGrowInplace(region: nat, addr: nat, order: nat) returns (r: Option<(nat, nat)>)
      requires Valid() && region <= |regions| && order >= MIN_ORDER
      requires order < MAX_ORDER && InRegion(region, addr, order) ==> addr in live && live[addr] == Block(region, order)
      modifies this`zones, this`live, Spaces()
      ensures Valid() && SameExtent(old(zones), zones)
      ensures r.Some? <==> order < MAX_ORDER && old(InRegion(region, addr, order)) && UpperFree(old(zones)[region - 1], addr, order)
      ensures r.None? ==> live == old(live) && zones == old(zones)
      ensures r.Some? ==> Grew(old(zones), zones, region, addr, order)
      ensures r.Some? ==> r.value == (addr, order + 1) && order < MAX_ORDER && addr in old(live)
      ensures r.Some? ==> live == old(live)[addr := Block(region, order + 1)]
    {
      hide FreeSpace.Valid, ZonesOk, LiveOk, Tiled, MarksKept, Units;
      if region == 0 || order >= MAX_ORDER {
        return None;
      }
      assert Holds(region - 1);
      var node := regions[region - 1];
      if addr < node.base || addr >= node.base + node.space.Bytes() {
        return None;
      }
      assert node.space in Spaces();
      LiveHere(zones, live, addr);
      TiledSpace(node.space);
      OffsetBack(zones[region - 1], addr);
      var a := (addr - node.base) / UNIT;
      var g := node.space.TryGrowInplace(a, order - MIN_ORDER);
      TiledSpace(node.space);
      if g.None? {
        StillHold(region - 1);
        return None;
      }
      Growing(old(zones), old(live), region - 1, node.space.own, a, order);
      OffsetOf(Zone(node.base, node.space.own), a);
      zones := zones[region - 1 := Zone(node.base, node.space.own)];
      live := live[addr := Block(region, order + 1)];
      StillHold(region - 1);
      r := Some((addr, order + 1));
    }
  }

  /** The order a request of that size is served with. */
  function RequestOrder(size: nat): nat { if OrderFor(size) < MIN_ORDER then MIN_ORDER else OrderFor(size) }

  lemma BackendFacts(b: BuddyAllocator)
    requires b.Valid()
    ensures ZonesOk(b.zones) && LiveOk(b.zones, b.live)
  {
  }

  lemma TiledSpace(space: FreeSpace)
    requires space.Valid()
    ensures Tiled(space.own)
  {
  }

  lemma Releasing(zones: seq<Zone>, live: map<nat, Block>, r: nat, own': seq<Piece>, a: nat, order: nat)
    requires ZonesOk(zones) && LiveOk(zones, live) && r < |zones| && Tiled(own') && order >= MIN_ORDER
    requires Granted(own', zones[r].own, a, order - MIN_ORDER, Live)
    ensures
      var p := zones[r].base + UNIT * a;
      var zones' := zones[r := Zone(zones[r].base, own')];
      ZonesOk(zones') && LiveOk(zones', live - {p}) && SameExtent(zones, zones')
  {
    hide Tiled, ZonesOk;
    var z := zones[r];
    ZoneOk(zones, r);
    forall x: nat, i: nat
      ensures Has(own', x, i, Live) <==> if x == a then None == Some(i) else Has(z.own, x, i, Live)
    {
      GrantHas(own', z.own, a, order - MIN_ORDER, x, i);
    }
    Changed(zones, live, r, own', a, None);
  }

  lemma Growing(zones: seq<Zone>, live: map<nat, Block>, r: nat, own': seq<Piece>, a: nat, order: nat)
    requires ZonesOk(zones) && LiveOk(zones, live) && r < |zones| && Tiled(own') && MIN_ORDER <= order < MAX_ORDER
    requires Has(zones[r].own, a, order - MIN_ORDER, Live) && Has(zones[r].own, a + Size(order - MIN_ORDER), order - MIN_ORDER, Free)
    requires Has(own', a, order - MIN_ORDER + 1, Live) && |zones[r].own| == |own'|
    requires forall x :: 0 <= x < |own'| && !(a <= x < a + Size(order - MIN_ORDER + 1)) ==> own'[x] == zones[r].own[x]
    ensures
      var p := zones[r].base + UNIT * a;
      var zones', live' := zones[r := Zone(zones[r].base, own')], live[p := Block(r + 1, order + 1)];
      ZonesOk(zones') && LiveOk(zones', live') && SameExtent(zones, zones')
  {
    hide Tiled, ZonesOk;
    var z := zones[r];
    ZoneOk(zones, r);
    forall x: nat, i: nat
      ensures Has(own', x, i, Live) <==> if x == a then Some(order - MIN_ORDER + 1) == Some(i) else Has(z.own, x, i, Live)
    {
      GrowthHas(z.own, own', a, order - MIN_ORDER, x, i);
    }
    Changed(zones, live, r, own', a, Some(order - MIN_ORDER + 1));
  }

  lemma Granting(zones: seq<Zone>, live: map<nat, Block>, r: nat, own': seq<Piece>, a: nat, order: nat)
    requires ZonesOk(zones) && LiveOk(zones, live) && r < |zones| && Tiled(own') && order >= MIN_ORDER
    requires Granted(zones[r].own, own', a, order - MIN_ORDER, Live)
    ensures
      var p := zones[r].base + UNIT * a;
      var zones', live' := zones[r := Zone(zones[r].base, own')], live[p := Block(r + 1, order)];
      p !in live && ZonesOk(zones') && LiveOk(zones', live') && SameExtent(zones, zones')
  {
    hide Tiled, ZonesOk;
    var z := zones[r];
    var p := z.base + UNIT * a;
    ZoneOk(zones, r);
    forall x: nat, i: nat
      ensures Has(own', x, i, Live) <==> if x == a then Some(order - MIN_ORDER) == Some(i) else Has(z.own, x, i, Live)
    {
      GrantHas(z.own, own', a, order - MIN_ORDER, x, i);
    }
    Changed(zones, live, r, own', a, Some(order - MIN_ORDER));
    if p in live {
      assert LiveAt(zones, p, live[p]);
      if live[p].region != r + 1 {
        NotElsewhere(zones, r, p, a, live[p]);
      }
      OffsetOf(z, a);
      GrantHas(z.own, own', a, order - MIN_ORDER, a, live[p].order - MIN_ORDER);
    }
  }
}
