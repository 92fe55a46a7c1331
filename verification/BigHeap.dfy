/** Big allocations: their metadata, the buddy blocks and mappings behind it, and reallocation. */
module BigHeap {
  import opened Options
  import opened Layout
  import opened Numbers
  import opened BigMeta
  import opened BuddyTiles
  import opened BuddyLists
  import opened BuddyRegions

  const TWO_MB: nat := 0x20_0000
  /** The flags of a header: its block was never used, was used, or was used and its pages were released. */
  const ZERO_FLAG: nat := 1
  const ALLOCATED_FLAG: nat := 2
  const TRIMMED_FLAG: nat := 3

  function FlagFor(trimState: nat): nat {
    if trimState == NOT_ALLOCATED then ZERO_FLAG else if trimState == TRIMMED then TRIMMED_FLAG else ALLOCATED_FLAG
  }

  /** Larger requests never ask the buddy backend. */
  const BUDDY_LIMIT: nat := 0x400_0000

  // ----- rounding in 64 bits -----

  /** A 64-bit sum of a size and less than another. */
  function Wrapped(x: nat): nat { if x < WRAP then x else x - WRAP }

  function Down(x: nat, align: nat): (r: nat)
    requires align > 0
    ensures r <= x
  {
    x - x % align
  }

  /** align_to: the addition wraps around. */
  function AlignTo(size: nat, align: nat): nat
    requires align > 0
  {
    Down(Wrapped(size + align - 1), align)
  }

  /** estimate_and_align_2mb. */
  function Estimate(size: nat, thp: bool): nat {
    if NearHuge(size) && thp then AlignTo(size, TWO_MB) else AlignTo(size, PAGE)
  }

  /** Less than 64 KiB are missing to the next 2 MiB boundary. */
  predicate NearHuge(size: nat) { size % TWO_MB > 0 && TWO_MB - size % TWO_MB <= 0x1_0000 }

  /** The largest size that rounding does not wrap. */
  function Top(thp: bool): nat { if thp then WRAP - 0x1_0001 else WRAP - PAGE }

  lemma Remainder(size: nat)
    requires WRAP - TWO_MB < size < WRAP
    ensures size % TWO_MB == size - (WRAP - TWO_MB)
  {
    var q := 0x800_0000_0000 - 1;
    assert size == q * TWO_MB + (size - (WRAP - TWO_MB));
  }

  lemma AlignPage(size: nat)
    requires size < WRAP
    ensures if size <= WRAP - PAGE then size <= AlignTo(size, PAGE) < WRAP else AlignTo(size, PAGE) == 0
  {
  }

  lemma AlignHuge(size: nat)
    requires size < WRAP
    ensures if size <= WRAP - TWO_MB then size <= AlignTo(size, TWO_MB) < WRAP else AlignTo(size, TWO_MB) == 0
  {
  }

  /** Rounding makes a size larger exactly up to `Top`; beyond it the result is zero. */
  lemma EstimateFits(size: nat, thp: bool)
    requires size < WRAP
    ensures if size <= Top(thp) then size <= Estimate(size, thp) < WRAP else Estimate(size, thp) == 0
  {
    hide AlignTo;
    AlignPage(size);
    AlignHuge(size);
    if size > WRAP - TWO_MB {
      Remainder(size);
    }
  }

  /** Rounding is to whole 2 MiB, if less than 64 KiB are missing to that and huge pages are on, else to whole pages, and
      to the next such size. */
  lemma EstimateTight(size: nat, thp: bool)
    requires size <= Top(thp)
    ensures
      var align := if NearHuge(size) && thp then TWO_MB else PAGE;
      Estimate(size, thp) % align == 0 && size <= Estimate(size, thp) < size + align && Estimate(size, thp) <= size + 0x1_0000
  {
    EstimateFits(size, thp);
    if NearHuge(size) && thp {
      NextHuge(size);
    } else {
      NextPage(size);
    }
  }

  lemma NextPage(size: nat)
    requires size <= WRAP - PAGE || AlignTo(size, PAGE) >= size
    ensures AlignTo(size, PAGE) % PAGE == 0 && AlignTo(size, PAGE) < size + PAGE
  {
  }

  lemma NextHuge(size: nat)
    requires size < WRAP && AlignTo(size, TWO_MB) >= size && NearHuge(size)
    ensures AlignTo(size, TWO_MB) % TWO_MB == 0 && AlignTo(size, TWO_MB) < size + TWO_MB && AlignTo(size, TWO_MB) <= size + 0x1_0000
  {
  }

  // ----- records and what they describe -----

  type Metas = map<nat, BigAllocMeta>

  /** The record of the allocation at `p` names the live buddy block in front of it, or there is a mapping. */
  ghost predicate LinkOk(p: nat, m: BigAllocMeta, live: map<nat, Block>, maps: map<nat, nat>) {
    && p >= HEADER
    && if m.buddyRegion != 0 then p - HEADER in live && live[p - HEADER] == Block(m.buddyRegion, m.order)
       else p - HEADER in maps
  }

  ghost predicate OwnerOk(base: nat, metas: Metas, buddy: bool) {
    base + HEADER in metas && (metas[base + HEADER].buddyRegion != 0 <==> buddy)
  }

  /** Every record has its block or mapping, and every live block and mapping has its record. */
  ghost predicate LinksOk(metas: Metas, live: map<nat, Block>, maps: map<nat, nat>) {
    && (forall p :: p in metas ==> LinkOk(p, metas[p], live, maps))
    && (forall b :: b in live ==> OwnerOk(b, metas, true))
    && (forall b :: b in maps ==> OwnerOk(b, metas, false))
  }

  /** The allocation fits in the block its record names, or in the mapping whose length the record yields. */
  ghost predicate SizeOk(p: nat, m: BigAllocMeta, maps: map<nat, nat>, thp: bool) {
    && m.size > SLAB_MAX
    && if m.buddyRegion != 0 then m.size + HEADER <= BlockSize(m.order)
       else
         && p >= HEADER && p - HEADER in maps && maps[p - HEADER] == Estimate(m.size + HEADER, thp)
         && m.size + HEADER <= maps[p - HEADER]
  }

  ghost predicate SizesOk(metas: Metas, maps: map<nat, nat>, thp: bool) {
    forall p :: p in metas ==> SizeOk(p, metas[p], maps, thp)
  }

  /** What a change at one base may do to the rest: everything owned elsewhere stays. */
  ghost predicate SameElsewhere<T>(own: map<nat, T>, own': map<nat, T>, base: nat) {
    forall b :: b != base ==> (b in own <==> b in own') && (b in own ==> own'[b] == own[b])
  }

  /** The records of others survive a change at one base. */
  lemma OthersStay(metas: Metas, metas': Metas, live: map<nat, Block>, maps: map<nat, nat>,
                   live': map<nat, Block>, maps': map<nat, nat>, base: nat)
    requires LinksOk(metas, live, maps) && SameElsewhere(live, live', base) && SameElsewhere(maps, maps', base)
    requires SameElsewhere(metas, metas', base + HEADER)
    requires base + HEADER in metas' ==> LinkOk(base + HEADER, metas'[base + HEADER], live', maps')
    requires base in live' ==> OwnerOk(base, metas', true)
    requires base in maps' ==> OwnerOk(base, metas', false)
    ensures LinksOk(metas', live', maps')
  {
    forall q | q in metas'
      ensures LinkOk(q, metas'[q], live', maps')
    {
      assert q != base + HEADER ==> LinkOk(q, metas[q], live, maps);
    }
    forall b | b in live' && b != base
      ensures OwnerOk(b, metas', true)
    {
      assert OwnerOk(b, metas, true);
    }
    forall b | b in maps' && b != base
      ensures OwnerOk(b, metas', false)
    {
      assert OwnerOk(b, metas, false);
    }
  }

  lemma SizesStay(metas: Metas, metas': Metas, maps: map<nat, nat>, maps': map<nat, nat>, base: nat, thp: bool)
    requires SizesOk(metas, maps, thp) && SameElsewhere(maps, maps', base) && SameElsewhere(metas, metas', base + HEADER)
    ensures SizesOk(metas', maps', thp) <==> (base + HEADER in metas' ==> SizeOk(base + HEADER, metas'[base + HEADER], maps', thp))
  {
    forall q | q in metas' && q != base + HEADER
      ensures SizeOk(q, metas'[q], maps', thp)
    {
      assert SizeOk(q, metas[q], maps, thp);
    }
  }

  /** An allocation owns either a block or a mapping. */
  lemma Owned(metas: Metas, live: map<nat, Block>, maps: map<nat, nat>, p: nat)
    requires LinksOk(metas, live, maps) && p in metas
    ensures LinkOk(p, metas[p], live, maps)
    ensures if metas[p].buddyRegion != 0 then p - HEADER !in maps else p - HEADER !in live
  {
    assert LinkOk(p, metas[p], live, maps);
    assert p - HEADER in live ==> OwnerOk(p - HEADER, metas, true);
    assert p - HEADER in maps ==> OwnerOk(p - HEADER, metas, false);
  }

  // ----- where mappings lie -----

  ghost predicate Disjoint(a: nat, n: nat, b: nat, m: nat) { a + n <= b || b + m <= a }

  /** A range meets no region and no mapping but its own. */
  ghost predicate FreeRange(zones: seq<Zone>, maps: map<nat, nat>, base: nat, length: nat) {
    && base > 0 && base % PAGE == 0 && length >= HEADER
    && (forall i :: 0 <= i < |zones| ==> Disjoint(base, length, zones[i].base, UNIT * |zones[i].own|))
    && (forall b :: b in maps && b != base ==> Disjoint(base, length, b, maps[b]))
  }

  ghost predicate MapsOk(zones: seq<Zone>, maps: map<nat, nat>) {
    forall b :: b in maps ==> FreeRange(zones, maps, b, maps[b])
  }

  /** A mapping is new or has grown. */
  lemma MapsWith(zones: seq<Zone>, maps: map<nat, nat>, base: nat, length: nat)
    requires MapsOk(zones, maps) && FreeRange(zones, maps, base, length)
    ensures MapsOk(zones, maps[base := length])
  {
    var maps' := maps[base := length];
    forall b | b in maps'
      ensures FreeRange(zones, maps', b, maps'[b])
    {
      assert b != base ==> FreeRange(zones, maps, b, maps[b]);
    }
  }

  lemma MapsLess(zones: seq<Zone>, maps: map<nat, nat>, base: nat)
    requires MapsOk(zones, maps)
    ensures MapsOk(zones, maps - {base})
  {
    forall b | b in maps - {base}
      ensures FreeRange(zones, maps - {base}, b, maps[b])
    {
      assert FreeRange(zones, maps, b, maps[b]);
    }
  }

  lemma MapsFrame(zones: seq<Zone>, zones': seq<Zone>, maps: map<nat, nat>)
    requires MapsOk(zones, maps) && SameExtent(zones, zones')
    ensures MapsOk(zones', maps)
  {
    forall b | b in maps
      ensures FreeRange(zones', maps, b, maps[b])
    {
      assert FreeRange(zones, maps, b, maps[b]);
    }
  }

  lemma RangeFrame(zones: seq<Zone>, zones': seq<Zone>, maps: map<nat, nat>, base: nat, length: nat)
    requires FreeRange(zones, maps, base, length) && SameExtent(zones, zones')
    ensures FreeRange(zones', maps, base, length)
  {
  }

  lemma MapsRegion(zones: seq<Zone>, maps: map<nat, nat>, mem: nat, own: seq<Piece>)
    requires MapsOk(zones, maps) && mem !in maps && FreeRange(zones, maps, mem, UNIT * |own|)
    ensures MapsOk(zones + [Zone(mem, own)], maps)
  {
    forall b | b in maps
      ensures FreeRange(zones + [Zone(mem, own)], maps, b, maps[b])
    {
      assert FreeRange(zones, maps, b, maps[b]);
    }
  }

  /** Regions stayed, or one was added where the system said. */
  ghost predicate Extended(zones: seq<Zone>, zones': seq<Zone>, mem: Option<nat>) {
    SameExtent(zones, zones') || (mem.Some? && SameExtent(zones + [Zone(mem.value, Fresh(16))], zones'))
  }

  lemma MapsAfter(zones: seq<Zone>, zones': seq<Zone>, maps: map<nat, nat>, mem: Option<nat>)
    requires MapsOk(zones, maps) && (mem.Some? ==> mem.value !in maps && FreeRange(zones, maps, mem.value, BUDDY_LIMIT))
    requires Extended(zones, zones', mem)
    ensures MapsOk(zones', maps)
  {
    hide MapsOk, FreeRange, SameExtent;
    if SameExtent(zones, zones') {
      MapsFrame(zones, zones', maps);
    } else {
      MapsRegion(zones, maps, mem.value, Fresh(16));
      MapsFrame(zones + [Zone(mem.value, Fresh(16))], zones', maps);
    }
  }

  lemma MapsApart(zones: seq<Zone>, maps: map<nat, nat>, b: nat, c: nat)
    requires MapsOk(zones, maps) && b in maps && b != c
    ensures maps[b] >= HEADER && (c in maps ==> Disjoint(b, maps[b], c, maps[c]))
  {
    assert FreeRange(zones, maps, b, maps[b]);
    assert c in maps ==> FreeRange(zones, maps, c, maps[c]);
  }

  lemma LiveMapApart(zones: seq<Zone>, live: map<nat, Block>, maps: map<nat, nat>, b: nat, c: nat)
    requires ZonesOk(zones) && LiveOk(zones, live) && MapsOk(zones, maps) && b in live && c in maps
    ensures Disjoint(b, BlockSize(live[b].order), c, maps[c])
  {
    hide ZonesOk, BlockSize;
    LiveHere(zones, live, b);
    LiveInside(zones, b, live[b]);
    assert FreeRange(zones, maps, c, maps[c]);
  }

  /** No mapping starts at a live block. */
  lemma LiveNotMapped(zones: seq<Zone>, live: map<nat, Block>, maps: map<nat, nat>, b: nat)
    requires ZonesOk(zones) && LiveOk(zones, live) && MapsOk(zones, maps) && b in live
    ensures b !in maps
  {
    hide ZonesOk;
    LiveHere(zones, live, b);
    LiveInside(zones, b, live[b]);
    BlockSizeBound(live[b].order);
    assert b in maps ==> FreeRange(zones, maps, b, maps[b]);
  }

  /** A new live block gets its record. */
  lemma NewBlock(metas: Metas, live: map<nat, Block>, maps: map<nat, nat>, zones: seq<Zone>, base: nat, m: BigAllocMeta)
    requires LinksOk(metas, live, maps) && MapsOk(zones, maps) && base !in live && m.buddyRegion != 0
    requires ZonesOk(zones) && LiveOk(zones, live[base := Block(m.buddyRegion, m.order)])
    ensures base + HEADER !in metas && base !in maps
    ensures LinksOk(metas[base + HEADER := m], live[base := Block(m.buddyRegion, m.order)], maps)
  {
    hide LinksOk, MapsOk, ZonesOk, LiveOk;
    var live' := live[base := Block(m.buddyRegion, m.order)];
    LiveNotMapped(zones, live', maps, base);
    if base + HEADER in metas {
      Owned(metas, live, maps, base + HEADER);
    }
    OthersStay(metas, metas[base + HEADER := m], live, maps, live', maps, base);
  }

  /** A new mapping gets its record. */
  lemma NewMapping(metas: Metas, live: map<nat, Block>, maps: map<nat, nat>, zones: seq<Zone>, base: nat, length: nat, m: BigAllocMeta)
    requires LinksOk(metas, live, maps) && MapsOk(zones, maps) && base !in maps && FreeRange(zones, maps, base, length)
    requires ZonesOk(zones) && LiveOk(zones, live) && m.buddyRegion == 0
    ensures base + HEADER !in metas && base !in live
    ensures LinksOk(metas[base + HEADER := m], live, maps[base := length]) && MapsOk(zones, maps[base := length])
  {
    hide LinksOk, MapsOk, ZonesOk, LiveOk, FreeRange;
    MapsWith(zones, maps, base, length);
    if base in live {
      LiveNotMapped(zones, live, maps[base := length], base);
    }
    if base + HEADER in metas {
      Owned(metas, live, maps, base + HEADER);
    }
    OthersStay(metas, metas[base + HEADER := m], live, maps, live, maps[base := length], base);
  }

  /** The bytes behind a header: of the block, or of the mapping. */
  ghost function Room(p: nat, live: map<nat, Block>, maps: map<nat, nat>): nat {
    if p < HEADER then 0
    else if p - HEADER in live then BlockSize(live[p - HEADER].order) - HEADER
    else if p - HEADER in maps && maps[p - HEADER] >= HEADER then maps[p - HEADER] - HEADER else 0
  }

  /** Whether the buddy backend is in use, the caller's node, and what the system answers to a request for a region or
      for a mapping. */
  datatype Answers = Answers(buddy: bool, node: nat, numa: bool, nranges: nat, life: nat, region: Option<nat>, mapped: Option<nat>)

  /** What the system may answer to a request of that size: space that meets nothing here. */
  ghost predicate AllowedIn(zones: seq<Zone>, maps: map<nat, nat>, thp: bool, size: nat, env: Answers) {
    && (env.numa ==> env.node < env.nranges)
    && (env.region.Some? ==> env.region.value !in maps && FreeRange(zones, maps, env.region.value, BUDDY_LIMIT))
    && (env.mapped.Some? ==>
          env.mapped.value !in maps && FreeRange(zones, maps, env.mapped.value, Estimate(size + HEADER, thp)))
  }

  /** Growing a block in its region takes nothing from the system. */
  lemma StillAllowed(zones: seq<Zone>, zones': seq<Zone>, maps: map<nat, nat>, thp: bool, size: nat, env: Answers)
    requires AllowedIn(zones, maps, thp, size, env) && SameExtent(zones, zones')
    ensures AllowedIn(zones', maps, thp, size, env)
  {
    hide Estimate, FreeRange, SameExtent;
    if env.region.Some? {
      RangeFrame(zones, zones', maps, env.region.value, BUDDY_LIMIT);
    }
    if env.mapped.Some? {
      RangeFrame(zones, zones', maps, env.mapped.value, Estimate(size + HEADER, thp));
    }
  }

  /** The backend is asked and has, or gets, a large enough block. */
  ghost predicate GivesIn(regions: seq<RegionNode>, zones: seq<Zone>, thp: bool, size: nat, env: Answers) {
    var order := RequestOrder(Estimate(size + HEADER, thp));
    && size <= BUDDY_LIMIT && env.buddy && OrderFor(Estimate(size + HEADER, thp)) <= MAX_ORDER
    && !(&& env.region.None? && NodeFull(regions, zones, env.node, order)
         && (env.numa ==> forall n :: 0 <= n < env.nranges ==> NodeFull(regions, zones, n, order)))
  }

  lemma StillGives(regions: seq<RegionNode>, zones: seq<Zone>, zones': seq<Zone>, thp: bool, size: nat, env: Answers)
    requires SameFits(zones, zones', RequestOrder(Estimate(size + HEADER, thp)))
    ensures GivesIn(regions, zones', thp, size, env) <==> GivesIn(regions, zones, thp, size, env)
  {
    hide NodeFull, Estimate, OrderFor, SameFits;
    var order := RequestOrder(Estimate(size + HEADER, thp));
    forall n: nat
      ensures NodeFull(regions, zones', n, order) <==> NodeFull(regions, zones, n, order)
    {
      SameFull(regions, zones, zones', n, order);
    }
  }

  /** How big_realloc goes on: it answers null, it keeps the pointer, or it allocates anew. */
  datatype Outcome = Failed | Kept | Moves

  class Heap {
    /** BIG_MAP: metadata by payload address. */
    var metas: Metas
    const backend: BuddyAllocator
    /** The mappings of this heap: their lengths by base. */
    ghost var maps: map<nat, nat>
    const thp: bool

    constructor (backend: BuddyAllocator, thp: bool)
      requires backend.Valid() && backend.live == map[]
      ensures Valid() && metas == map[] && maps == map[] && this.backend == backend && this.thp == thp
    {
      metas, maps, this.backend, this.thp := map[], map[], backend, thp;
      new;
      hide BuddyAllocator.Valid;
      backend.Stays();
    }

    /** Records, live blocks and mappings correspond one to one. */
    ghost predicate Sound()
      reads this, backend, backend.Spaces()
    {
      backend.Valid() && LinksOk(metas, backend.live, maps) && MapsOk(backend.zones, maps)
    }

    /** And every allocation fits. */
    ghost predicate Valid()
      reads this, backend, backend.Spaces()
    {
      Sound() && SizesOk(metas, maps, thp)
    }

    lemma Intact()
      requires backend.Valid() && LinksOk(metas, backend.live, maps) && MapsOk(backend.zones, maps) && SizesOk(metas, maps, thp)
      ensures Valid()
    {
    }

    lemma Rightly()
      requires Valid()
      ensures Sound() && SizesOk(metas, maps, thp)
    {
    }

    /** Changes elsewhere do not matter here. */
    twostate lemma Stays()
      requires old(Sound()) && unchanged(this) && unchanged(backend) && forall x :: x in old(backend.Spaces()) ==> unchanged(x)
      ensures Sound() && (old(Valid()) <==> Valid())
    {
      hide BuddyAllocator.Valid, LinksOk, SizesOk, MapsOk;
      backend.Stays();
    }

    ghost predicate Allowed(size: nat, env: Answers)
      reads this, backend
    {
      AllowedIn(backend.zones, maps, thp, size, env)
    }

    ghost predicate BuddyGives(size: nat, env: Answers)
      reads this, backend
    {
      GivesIn(backend.regions, backend.zones, thp, size, env)
    }

    /** The flag tells the past of the block: that of the free block it was cut from, or of a new region.  In both cases a
        block flagged as never used has no part that the backend ever handed out. */
    twostate predicate FlagTrue(p: nat, m: BigAllocMeta, flag: nat)
      reads backend, backend.Spaces()
    {
      p >= HEADER && exists t :: flag == FlagFor(t) && Comes(p - HEADER, m.order, m.buddyRegion, t)
    }

    twostate predicate Comes(base: nat, order: nat, region: nat, t: nat)
      reads backend, backend.Spaces()
    {
      if region <= |old(backend.regions)| then backend.CutHere(Allocation(base, order, t, region)) else t == NOT_ALLOCATED
    }

    /** The request to the backend. */
    method AskBackend(size: nat, env: Answers) returns (g: Option<Allocation>)
      requires backend.Valid() && SLAB_MAX < size <= BUDDY_LIMIT && env.buddy && Allowed(size, env)
      modifies backend, backend.Spaces()
      ensures backend.Valid() && fresh(backend.Spaces() - old(backend.Spaces()))
      ensures (g.Some? <==> old(BuddyGives(size, env))) && Extended(old(backend.zones), backend.zones, env.region)
      ensures g.None? ==> backend.live == old(backend.live) && backend.zones == old(backend.zones)
      ensures g.Some? ==> g.value.addr !in old(backend.live) && g.value.order == RequestOrder(Estimate(size + HEADER, thp)) <= MAX_ORDER
      ensures g.Some? ==> backend.live == old(backend.live)[g.value.addr := Block(g.value.region, g.value.order)]
      ensures g.Some? ==> Comes(g.value.addr, g.value.order, g.value.region, g.value.trimState)
    {
      hide BuddyAllocator.Valid, Estimate, OrderFor, ZonesOk, LiveOk, NodeFull, CutOut, Newest, FirstTurn;
      g := backend.Alloc(Estimate(size + HEADER, thp), env.node, env.numa, env.nranges, env.life, env.region);
      SameExtentSelf(old(backend.zones));
    }

    /** The part of big_malloc that asks the backend. */
    method InBuddy(size: nat, aligned: bool, env: Answers) returns (r: Option<nat>, flag: nat)
      requires Valid() && SLAB_MAX < size <= BUDDY_LIMIT && env.buddy && Allowed(size, env)
      modifies this, backend, backend.Spaces()
      ensures Valid() && fresh(backend.Spaces() - old(backend.Spaces())) && maps == old(maps)
      ensures (r.Some? <==> old(BuddyGives(size, env))) && Extended(old(backend.zones), backend.zones, env.region)
      ensures r.None? ==> metas == old(metas) && backend.live == old(backend.live) && backend.zones == old(backend.zones)
      ensures r.Some? ==> Recorded(old(metas), r.value, size, aligned) && metas[r.value].buddyRegion != 0
      ensures r.Some? ==> backend.live == old(backend.live)[r.value - HEADER := Block(metas[r.value].buddyRegion, metas[r.value].order)]
      ensures r.Some? ==> r.value - HEADER !in old(backend.live) && metas[r.value].order == RequestOrder(Estimate(size + HEADER, thp))
      ensures r.Some? ==> FlagTrue(r.value, metas[r.value], flag)
    {
      hide BuddyAllocator.Valid, Estimate, LinksOk, SizesOk, MapsOk, BlockSize, OrderFor, ZonesOk, LiveOk, NodeFull, Heap.Comes, GivesIn;
      var total := Estimate(size + HEADER, thp);
      EstimateFits(size + HEADER, thp);
      var g := AskBackend(size, env);
      if g.None? {
        return None, 100;
      }
      var base := g.value.addr;
      var m := BigAllocMeta(size, OrderFor(BlockSize(g.value.order)), g.value.region, aligned);
      OrderExact(g.value.order);
      OrderFits(total, g.value.order);
      BackendFacts(backend);
      LiveHere(backend.zones, backend.live, base);
      MapsAfter(old(backend.zones), backend.zones, maps, env.region);
      NewBlock(metas, old(backend.live), maps, backend.zones, base, m);
      SizesStay(metas, metas[base + HEADER := m], maps, maps, base, thp);
      metas := metas[base + HEADER := m];
      r, flag := Some(base + HEADER), FlagFor(g.value.trimState);
    }

    /** The part of big_malloc that asks the system. */
    method InMapping(size: nat, aligned: bool, env: Answers) returns (r: Option<nat>)
      requires Valid() && SLAB_MAX < size && size + HEADER < WRAP && Allowed(size, env)
      modifies this
      ensures Valid() && (r.Some? <==> env.mapped.Some?)
      ensures r.None? ==> metas == old(metas) && maps == old(maps)
      ensures r.Some? ==> Recorded(old(metas), r.value, size, aligned) && metas[r.value].buddyRegion == 0
      ensures r.Some? ==> r.value == env.mapped.value + HEADER && maps == old(maps)[env.mapped.value := Estimate(size + HEADER, thp)]
    {
      hide BuddyAllocator.Valid, Estimate, LinksOk, SizesOk, MapsOk, OrderFor, ZonesOk, LiveOk, FreeRange;
      if env.mapped.None? {
        return None;
      }
      var total := Estimate(size + HEADER, thp);
      var base := env.mapped.value;
      EstimateFits(size + HEADER, thp);
      RangeLength(backend.zones, maps, base, total);
      var m := BigAllocMeta(size, OrderFor(total), 0, aligned);
      BackendFacts(backend);
      NewMapping(metas, backend.live, maps, backend.zones, base, total, m);
      assert SizeOk(base + HEADER, m, maps[base := total], thp);
      SizesStay(metas, metas[base + HEADER := m], maps, maps[base := total], base, thp);
      maps := maps[base := total];
      metas := metas[base + HEADER := m];
      r := Some(base + HEADER);
      backend.Stays();
      Intact();
    }

    /** big_malloc: a block of the backend if it is asked and has one, else a mapping.  It fails exactly if the header
        overflows or neither gives memory.  The flag for the new header is true. */
    method BigMalloc(size: nat, aligned: bool, env: Answers) returns (r: Option<nat>, flag: nat)
      requires Valid() && SLAB_MAX < size < WRAP && Allowed(size, env)
      modifies this, backend, backend.Spaces()
      ensures Valid() && fresh(backend.Spaces() - old(backend.Spaces()))
      ensures Extended(old(backend.zones), backend.zones, env.region)
      ensures r.None? <==> size + HEADER >= WRAP || (!old(BuddyGives(size, env)) && env.mapped.None?)
      ensures r.None? ==> metas == old(metas) && maps == old(maps) && backend.live == old(backend.live) && backend.zones == old(backend.zones)
      ensures r.Some? ==> Recorded(old(metas), r.value, size, aligned)
      ensures r.Some? ==> (metas[r.value].buddyRegion != 0 <==> old(BuddyGives(size, env)))
      ensures r.Some? && old(BuddyGives(size, env)) ==>
        && maps == old(maps) && r.value - HEADER !in old(backend.live) && metas[r.value].order == RequestOrder(Estimate(size + HEADER, thp))
        && backend.live == old(backend.live)[r.value - HEADER := Block(metas[r.value].buddyRegion, metas[r.value].order)]
      ensures r.Some? && !old(BuddyGives(size, env)) ==>
        && backend.live == old(backend.live) && backend.zones == old(backend.zones)
        && r.value == env.mapped.value + HEADER && maps == old(maps)[env.mapped.value := Estimate(size + HEADER, thp)]
      ensures r.Some? ==> if old(BuddyGives(size, env)) then FlagTrue(r.value, metas[r.value], flag) else flag == ZERO_FLAG
    {
      hide BuddyAllocator.Valid, Estimate, LinksOk, SizesOk, MapsOk, OrderFor, ZonesOk, LiveOk, FreeRange, NodeFull, Heap.FlagTrue;
      SameExtentSelf(backend.zones);
      flag := 100;
      if size + HEADER >= WRAP {
        return None, flag;
      }
      if size <= BUDDY_LIMIT && env.buddy {
        r, flag := InBuddy(size, aligned, env);
        if r.Some? {
          return;
        }
      }
      r := InMapping(size, aligned, env);
      flag := ZERO_FLAG;
    }

    /** munmap of a whole mapping. */
    method Unmap(base: nat, length: nat)
      requires base in maps && maps[base] == length
      modifies this`maps
      ensures maps == old(maps) - {base}
    {
      maps := maps - {base};
    }

    /** big_free: exactly the block of the record goes back to the backend, or exactly the mapping is unmapped. */
    method BigFree(p: nat, stamp: nat)
      requires Sound() && p in metas && (metas[p].buddyRegion == 0 ==> SizeOk(p, metas[p], maps, thp))
      modifies this, backend, backend.Spaces()
      ensures Sound() && (old(Valid()) ==> Valid()) && metas == old(metas) - {p} && p >= HEADER
      ensures backend.Spaces() == old(backend.Spaces()) && SameExtent(old(backend.zones), backend.zones)
      ensures backend.live == old(backend.live) - {p - HEADER} && maps == old(maps) - {p - HEADER}
    {
      hide BuddyAllocator.Valid, Estimate, LinksOk, SizesOk, MapsOk, BlockSize, ZonesOk, LiveOk, SameExtent, BuddyAllocator.FreeEffect;
      var m := metas[p];
      Owned(metas, backend.live, maps, p);
      OthersStay(metas, metas - {p}, backend.live, maps, backend.live - {p - HEADER}, maps - {p - HEADER}, p - HEADER);
      if SizesOk(metas, maps, thp) {
        SizesStay(metas, metas - {p}, maps, maps - {p - HEADER}, p - HEADER, thp);
      }
      metas := metas - {p};
      var payload := Estimate(m.size + HEADER, thp);
      if m.buddyRegion != 0 {
        InItsRegion(p - HEADER);
        backend.Free(m.buddyRegion, p - HEADER, m.order, stamp);
        MapsFrame(old(backend.zones), backend.zones, maps);
        assert maps == old(maps) - {p - HEADER};
      } else {
        MapsLess(backend.zones, maps, p - HEADER);
        Unmap(p - HEADER, payload);
        SameExtentSelf(backend.zones);
        assert backend.live == old(backend.live) - {p - HEADER};
      }
    }

    /** A live block passes the range checks of the backend. */
    lemma InItsRegion(base: nat)
      requires backend.Valid() && base in backend.live
      ensures backend.live[base].region <= |backend.regions| == |backend.zones|
      ensures MIN_ORDER <= backend.live[base].order <= MAX_ORDER && backend.InRegion(backend.live[base].region, base, backend.live[base].order)
    {
      hide ZonesOk, LiveOk;
      var b := backend.live[base];
      LiveHere(backend.zones, backend.live, base);
      LiveInside(backend.zones, base, b);
      BlockSizeBound(b.order);
      assert backend.Holds(b.region - 1);
    }

    /** Recorded sizes stay above the slab sizes, so growing a big allocation never needs a slab. */
    lemma SlabBranchDead(p: nat, newSize: nat)
      requires Valid() && p in metas && newSize > metas[p].size
      ensures newSize > SLAB_MAX
    {
      assert SizeOk(p, metas[p], maps, thp);
    }

    /** The call grows an allocation in the buddy backend to a size whose rounding wraps around. */
    ghost predicate Wraps(p: nat, newSize: nat)
      reads this
    {
      p in metas && metas[p].buddyRegion != 0 && metas[p].size < newSize && Top(thp) < newSize + HEADER < WRAP
    }

    /** The record of an allocation is replaced and what it owns stays. */
    method Rerecord(p: nat, m: BigAllocMeta)
      requires Valid() && p in metas && m.buddyRegion == metas[p].buddyRegion && m.order == metas[p].order && m.buddyRegion != 0
      modifies this`metas
      ensures Sound() && metas == old(metas)[p := m] && (Valid() <==> SizeOk(p, m, maps, thp))
    {
      hide BuddyAllocator.Valid, LinksOk, SizesOk, MapsOk, SizeOk;
      Owned(metas, backend.live, maps, p);
      OthersStay(metas, metas[p := m], backend.live, maps, backend.live, maps, p - HEADER);
      SizesStay(metas, metas[p := m], maps, maps, p - HEADER, thp);
      metas := metas[p := m];
      backend.Stays();
    }

    /** mremap without moving: the mapping has the new length. */
    method Remap(p: nat, newSize: nat, needed: nat)
      requires Valid() && p in metas && metas[p].buddyRegion == 0 && newSize > metas[p].size && newSize + HEADER < WRAP
      requires p >= HEADER && needed == Estimate(newSize + HEADER, thp) && FreeRange(backend.zones, maps, p - HEADER, needed)
      modifies this
      ensures Valid() && p in metas && metas == old(metas)[p := metas[p]] && maps == old(maps)[p - HEADER := needed]
      ensures metas[p].size == newSize && metas[p].buddyRegion == 0
    {
      hide BuddyAllocator.Valid, Estimate, LinksOk, SizesOk, MapsOk, OrderFor, FreeRange;
      Owned(metas, backend.live, maps, p);
      SlabBranchDead(p, newSize);
      EstimateFits(newSize + HEADER, thp);
      RangeLength(backend.zones, maps, p - HEADER, needed);
      var m := BigAllocMeta(newSize, OrderFor(needed), 0, false);
      ghost var maps' := maps[p - HEADER := needed];
      OthersStay(metas, metas[p := m], backend.live, maps, backend.live, maps', p - HEADER);
      SizesStay(metas, metas[p := m], maps, maps', p - HEADER, thp);
      MapsWith(backend.zones, maps, p - HEADER, needed);
      maps := maps';
      metas := metas[p := m];
      backend.Stays();
      Intact();
    }

    /** One step of in-place growth: block and recorded order grow together. */
    method GrowOnce(p: nat) returns (ok: bool)
      requires Valid() && p in metas && metas[p].buddyRegion != 0
      modifies this`metas, backend`zones, backend`live, backend.Spaces()
      ensures Valid() && p >= HEADER && SameExtent(old(backend.zones), backend.zones)
      ensures 1 <= old(metas[p]).buddyRegion <= |old(backend.zones)|
      ensures ok <==> old(metas[p]).order < MAX_ORDER && UpperFree(old(backend.zones)[old(metas[p]).buddyRegion - 1], p - HEADER, old(metas[p]).order)
      ensures !ok ==> metas == old(metas) && backend.live == old(backend.live) && backend.zones == old(backend.zones)
      ensures ok ==> Grew(old(backend.zones), backend.zones, old(metas[p]).buddyRegion, p - HEADER, old(metas[p]).order)
      ensures ok ==> metas == old(metas)[p := old(metas)[p].(order := old(metas)[p].order + 1)] && old(metas)[p].order < MAX_ORDER
      ensures ok ==> backend.live == old(backend.live)[p - HEADER := Block(metas[p].buddyRegion, metas[p].order)]
    {
      hide BuddyAllocator.Valid, LinksOk, SizesOk, MapsOk, ZonesOk, LiveOk, SameExtent, UpperFree, BlockSize, Grew;
      var m := metas[p];
      Owned(metas, backend.live, maps, p);
      SizeOf(metas, maps, thp, p);
      InItsRegion(p - HEADER);
      var g := backend.TryGrowInplace(m.buddyRegion, p - HEADER, m.order);
      MapsFrame(old(backend.zones), backend.zones, maps);
      if g.None? {
        return false;
      }
      var m' := m.(order := g.value.1);
      OthersStay(metas, metas[p := m'], old(backend.live), maps, backend.live, maps, p - HEADER);
      SizesStay(metas, metas[p := m'], maps, maps, p - HEADER, thp);
      BlocksGrow(m.order);
      label Grown:
      metas := metas[p := m'];
      backend.Stays@Grown();
      ok := true;
      Intact();
    }

    /** The growth loop: the recorded order follows every step, so a growth that stops half way is recorded too.  It
        reaches its end exactly if at every order on the way the upper buddy is free, and if not it leaves every block
        that is large enough where it was. */
    method GrowInBuddy(p: nat, newSize: nat, needed: nat) returns (done: bool)
      requires Valid() && p in metas && metas[p].buddyRegion != 0
      requires metas[p].size < newSize && newSize + HEADER <= needed && BlockSize(metas[p].order) < needed
      modifies this`metas, backend`zones, backend`live, backend.Spaces()
      ensures Valid() && p in metas && p >= HEADER && SameExtent(old(backend.zones), backend.zones)
      ensures metas[p].buddyRegion == old(metas[p]).buddyRegion
      ensures metas == old(metas)[p := metas[p]] && metas[p].size == if done then newSize else old(metas[p]).size
      ensures backend.live == old(backend.live)[p - HEADER := Block(metas[p].buddyRegion, metas[p].order)]
      ensures metas[p].order >= old(metas[p]).order && (done ==> BlockSize(metas[p].order) >= needed)
      ensures done <==>
        && OrderFor(needed) <= MAX_ORDER
        && UpperAll(old(backend.zones), metas[p].buddyRegion, p - HEADER, old(metas[p]).order, OrderFor(needed))
      ensures !done ==> SameFits(old(backend.zones), backend.zones, OrderFor(needed))
    {
      hide BuddyAllocator.Valid, LinksOk, SizesOk, MapsOk, ZonesOk, LiveOk, OrderFor, BlockSize, Underway, UpperAll, SameFits, UpperFree, Grew;
      Owned(metas, backend.live, maps, p);
      InItsRegion(p - HEADER);
      ghost var region, from, target := metas[p].buddyRegion, metas[p].order, OrderFor(needed);
      OrderReaches(needed, from);
      Setting(backend.zones, region, p - HEADER, from, target);
      while metas[p].order < MAX_ORDER && OrderFor(needed) <= MAX_ORDER
        invariant Valid() && p in metas && p >= HEADER && metas[p].buddyRegion == region && from <= metas[p].order < target
        invariant MIN_ORDER <= metas[p].order <= MAX_ORDER && SameExtent(old(backend.zones), backend.zones)
        invariant metas[p].size == old(metas[p]).size && metas == old(metas)[p := metas[p]]
        invariant backend.live == old(backend.live)[p - HEADER := Block(metas[p].buddyRegion, metas[p].order)]
        invariant Underway(old(backend.zones), backend.zones, region, p - HEADER, from, metas[p].order, target)
        decreases MAX_ORDER - metas[p].order
      {
        ghost var zones, order := backend.zones, metas[p].order;
        BackendFacts(backend);
        var ok := GrowOnce(p);
        BackendFacts(backend);
        if !ok {
          Stuck(old(backend.zones), zones, region, p - HEADER, from, order, target);
          return false;
        }
        OneOrderUp(old(backend.zones), zones, backend.zones, region, p - HEADER, from, order, target);
        OrderReaches(needed, metas[p].order);
        if BlockSize(metas[p].order) >= needed {
          Arrived(old(backend.zones), backend.zones, region, p - HEADER, from, target);
          SlabBranchDead(p, newSize);
          Rerecord(p, metas[p].(size := newSize));
          return true;
        }
      }
      Unfitting(old(backend.zones), backend.zones, region, p - HEADER, from, metas[p].order, target);
      return false;
    }

    /** What the system may answer to growing a mapping where it is: the longer range meets nothing else. */
    ghost predicate Remappable(p: nat, newSize: nat, remapped: bool)
      reads this, backend
    {
      remapped ==> p >= HEADER && FreeRange(backend.zones, maps, p - HEADER, Estimate(newSize + HEADER, thp))
    }

    /** The allocation can stay where it is: its size suffices, its block is large enough or can grow, or its mapping can. */
    ghost predicate CanStay(p: nat, newSize: nat, remapped: bool)
      reads this, backend
    {
      && p in metas && p >= HEADER
      && var m, needed := metas[p], Estimate(newSize + HEADER, thp);
         || newSize <= m.size
         || (&& newSize + HEADER < WRAP
             && if m.buddyRegion != 0 then
                  || needed <= BlockSize(m.order)
                  || (OrderFor(needed) <= MAX_ORDER && UpperAll(backend.zones, m.buddyRegion, p - HEADER, m.order, OrderFor(needed)))
                else remapped)
    }

    /** The branches of big_realloc that keep the allocation where it is: it is large enough, its block is large enough,
        its block grows, or its mapping grows.  `remapped` is the answer of mremap.

        Every record fits its block or mapping afterwards if and only if the size does not wrap in rounding. */
    method Resize(p: nat, newSize: nat, remapped: bool) returns (o: Outcome)
      requires Valid() && newSize < WRAP && Remappable(p, newSize, remapped)
      modifies this, backend`zones, backend`live, backend.Spaces()
      ensures Sound() && (Valid() <==> !old(Wraps(p, newSize))) && SameExtent(old(backend.zones), backend.zones)
      ensures p !in old(metas) ==> o == Failed && metas == old(metas)
      ensures p in old(metas) ==> p in metas && p >= HEADER && metas == old(metas)[p := metas[p]]
      ensures p in old(metas) ==> metas[p].size == if o == Kept && newSize > old(metas[p]).size then newSize else old(metas[p]).size
      ensures p in old(metas) ==> OnlyAt(old(metas), old(backend.live), old(maps), p)
      ensures maps == old(maps) || (remapped && p >= HEADER && maps == old(maps)[p - HEADER := Estimate(newSize + HEADER, thp)])
      ensures o == Kept <==> old(CanStay(p, newSize, remapped))
      ensures o == Failed <==> p !in old(metas) || (newSize > old(metas[p]).size && newSize + HEADER >= WRAP)
      ensures old(Wraps(p, newSize)) ==> o == Kept && metas[p] == old(metas[p]).(size := newSize) && backend.live == old(backend.live)
      ensures o == Moves ==> maps == old(maps) && metas[p].size < newSize && newSize > SLAB_MAX
      ensures o == Moves ==> SameFits(old(backend.zones), backend.zones, RequestOrder(Estimate(newSize + HEADER, thp)))
    {
      hide BuddyAllocator.Valid, Estimate, LinksOk, SizesOk, MapsOk, BlockSize, OrderFor, ZonesOk, LiveOk, FreeRange, SameExtent;
      hide UpperAll, SameFits;
      SameExtentSelf(backend.zones);
      if p !in metas {
        return Failed;
      }
      var m := metas[p];
      Owned(metas, backend.live, maps, p);
      assert m.buddyRegion != 0 ==> backend.live == backend.live[p - HEADER := Block(m.buddyRegion, m.order)];
      assert m.buddyRegion == 0 ==> maps == maps[p - HEADER := maps[p - HEADER]];
      if newSize <= m.size {
        return Kept;
      }
      SlabBranchDead(p, newSize);
      if newSize + HEADER >= WRAP {
        return Failed;
      }
      var needed := Estimate(newSize + HEADER, thp);
      EstimateFits(newSize + HEADER, thp);
      BlockSizeBound(m.order);
      if m.buddyRegion != 0 && BlockSize(m.order) >= needed {
        Rerecord(p, m.(size := newSize));
        return Kept;
      }
      SameFitsSelf(backend.zones, RequestOrder(needed));
      var done := false;
      if m.buddyRegion != 0 {
        InItsRegion(p - HEADER);
        OrderReaches(needed, m.order);
        done := GrowInBuddy(p, newSize, needed);
      } else if remapped {
        Remap(p, newSize, needed);
        done := true;
      }
      o := if done then Kept else Moves;
    }

    /** Only the block or mapping of one allocation changed. */
    ghost predicate OnlyAt(metas0: Metas, live0: map<nat, Block>, maps0: map<nat, nat>, p: nat)
      reads this, backend
    {
      && p >= HEADER && p in metas0 && p in metas && metas[p].buddyRegion == metas0[p].buddyRegion
      && if metas[p].buddyRegion != 0 then
           maps == maps0 && metas[p].order >= metas0[p].order && backend.live == live0[p - HEADER := Block(metas[p].buddyRegion, metas[p].order)]
         else backend.live == live0 && p - HEADER in maps && p - HEADER in maps0 && maps == maps0[p - HEADER := maps[p - HEADER]]
    }

    /** Exactly one record more. */
    ghost predicate Recorded(was: Metas, p: nat, size: nat, aligned: bool)
      reads this
    {
      && p >= HEADER && p !in was && p in metas && metas == was[p := metas[p]]
      && metas[p].size == size && metas[p].aligned == aligned
    }
  }

  /** Records and blocks agree: a record names exactly the live block in front of its allocation, whose order it gives,
      and every live block has such a record. */
  lemma Agreement(heap: Heap, p: nat, region: nat, order: nat)
    requires heap.Sound() && p >= HEADER && region > 0
    ensures
      p in heap.metas && heap.metas[p].buddyRegion == region && heap.metas[p].order == order
      <==>
      && region <= |heap.backend.zones| && order >= MIN_ORDER
      && var z := heap.backend.zones[region - 1]; Has(z.own, Offset(z, p - HEADER), order - MIN_ORDER, Live)
  {
    hide BuddyAllocator.Valid, ZonesOk, MapsOk;
    BackendFacts(heap.backend);
    var live := heap.backend.live;
    assert LiveAt(heap.backend.zones, p - HEADER, Block(region, order)) <==> p - HEADER in live && live[p - HEADER] == Block(region, order);
    if p in heap.metas {
      Owned(heap.metas, live, heap.maps, p);
    }
    if p - HEADER in live {
      assert OwnerOk(p - HEADER, heap.metas, true);
      Owned(heap.metas, live, heap.maps, p);
    }
  }

  /** A range lies in one region. */
  ghost predicate Within(zones: seq<Zone>, a: nat, e: nat) {
    exists i :: 0 <= i < |zones| && zones[i].base <= a && e <= EndOf(zones[i])
  }

  lemma PageIs16(b: nat)
    requires b % PAGE == 0
    ensures (b + HEADER) % 16 == 0
  {
    var q := b / PAGE;
    assert b == PAGE * q;
    assert b + HEADER == 16 * (256 * q + 1);
    Sixteen(256 * q + 1);
  }

  lemma Sixteen(x: nat)
    ensures (16 * x) % 16 == 0
  {
  }

  lemma LiveWithin(zones: seq<Zone>, live: map<nat, Block>, b: nat)
    requires ZonesOk(zones) && LiveOk(zones, live) && b in live
    ensures Within(zones, b, b + BlockSize(live[b].order)) && b % PAGE == 0
  {
    hide ZonesOk, LiveOk, BlockSize;
    LiveHere(zones, live, b);
    LiveInside(zones, b, live[b]);
  }

  /** What a big allocation has lies in a region or in its mapping. */
  lemma RoomInside(heap: Heap, p: nat)
    requires heap.Sound() && p in heap.metas
    ensures p >= HEADER && p % 16 == 0
    ensures
      var room := Room(p, heap.backend.live, heap.maps);
      || (p - HEADER in heap.maps && p + room == p - HEADER + heap.maps[p - HEADER])
      || Within(heap.backend.zones, p - HEADER, p + room)
  {
    hide BuddyAllocator.Valid, ZonesOk, LiveOk, LinksOk, MapsOk, BlockSize, Within;
    BackendFacts(heap.backend);
    var zones, live, maps := heap.backend.zones, heap.backend.live, heap.maps;
    Owned(heap.metas, live, maps, p);
    if p - HEADER in live {
      LiveWithin(zones, live, p - HEADER);
      BlockSizeBound(live[p - HEADER].order);
    } else {
      MapsAligned(zones, maps, p - HEADER);
    }
    PageIs16(p - HEADER);
  }

  lemma MapsAligned(zones: seq<Zone>, maps: map<nat, nat>, b: nat)
    requires MapsOk(zones, maps) && b in maps
    ensures maps[b] >= HEADER && b % PAGE == 0
  {
    assert FreeRange(zones, maps, b, maps[b]);
  }

  /** After a growth that wraps, the record claims more than there is. */
  lemma WrapUnbacked(heap: Heap, p: nat)
    requires heap.Sound() && p in heap.metas && heap.metas[p].buddyRegion != 0
    ensures Room(p, heap.backend.live, heap.maps) < BUDDY_LIMIT
  {
    hide BuddyAllocator.Valid, ZonesOk, LiveOk, LinksOk, MapsOk, BlockSize;
    Owned(heap.metas, heap.backend.live, heap.maps, p);
    BlockSizeBound(heap.backend.live[p - HEADER].order);
  }

  /** What is recorded is there. */
  lemma SizeInRoom(heap: Heap, p: nat)
    requires heap.Valid() && p in heap.metas
    ensures heap.metas[p].size <= Room(p, heap.backend.live, heap.maps)
  {
    hide BuddyAllocator.Valid, ZonesOk, LiveOk, LinksOk, MapsOk, BlockSize, Estimate, SizesOk;
    Owned(heap.metas, heap.backend.live, heap.maps, p);
    SizeOf(heap.metas, heap.maps, heap.thp, p);
  }

  /** What two big allocations have does not overlap. */
  lemma RoomsApart(heap: Heap, p: nat, q: nat)
    requires heap.Sound() && p in heap.metas && q in heap.metas && p < q
    ensures p + Room(p, heap.backend.live, heap.maps) + HEADER <= q
  {
    hide BuddyAllocator.Valid, ZonesOk, LiveOk, LinksOk, MapsOk, BlockSize;
    BackendFacts(heap.backend);
    var zones, live, maps := heap.backend.zones, heap.backend.live, heap.maps;
    Owned(heap.metas, live, maps, p);
    Owned(heap.metas, live, maps, q);
    var b, c := p - HEADER, q - HEADER;
    if b in live {
      BlockSizeBound(live[b].order);
      if c in live {
        LivesApart(zones, live, b, c);
      } else {
        LiveMapApart(zones, live, maps, b, c);
      }
    } else {
      MapsApart(zones, maps, b, c);
      if c in live {
        BlockSizeBound(live[c].order);
        LiveMapApart(zones, live, maps, c, b);
      }
    }
  }

  lemma SmallEstimate(thp: bool)
    ensures Estimate(0x30_0010, thp) == 0x30_1000 && OrderFor(0x30_1000) <= MIN_ORDER
  {
    hide OrderFor, Pow2;
    UnitPower();
    OrderAtMost(0x30_1000, MIN_ORDER);
  }

  // ----- growing on the way to an order -----

  /** From `from` the block has come to `order`; above that nothing has changed. */
  ghost predicate Underway(zones0: seq<Zone>, zones: seq<Zone>, region: nat, base: nat, from: nat, order: nat, target: nat) {
    && 1 <= region <= |zones0| == |zones| && UpperAll(zones0, region, base, from, order) && SameFits(zones0, zones, target)
    && SameAbove(zones0[region - 1], zones[region - 1], base, order)
  }

  ghost predicate SameAbove(z: Zone, z': Zone, base: nat, order: nat) {
    forall j: nat :: order <= j <= MAX_ORDER ==> (UpperFree(z', base, j) <==> UpperFree(z, base, j))
  }

  lemma Setting(zones: seq<Zone>, region: nat, base: nat, from: nat, target: nat)
    requires 1 <= region <= |zones|
    ensures Underway(zones, zones, region, base, from, from, target)
  {
    hide UpperFree, NoFit;
  }

  lemma OneOrderUp(zones0: seq<Zone>, zones: seq<Zone>, zones': seq<Zone>, region: nat, base: nat, from: nat, order: nat, target: nat)
    requires Underway(zones0, zones, region, base, from, order, target) && order < target && ZonesOk(zones) && ZonesOk(zones')
    requires Grew(zones, zones', region, base, order) && UpperFree(zones[region - 1], base, order)
    ensures Underway(zones0, zones', region, base, from, order + 1, target)
  {
    hide UpperFree, NoFit, GrewIn, ZonesOk, Tiled;
    GrewSameFits(zones, zones', region, base, order, target);
    ZoneOk(zones', region - 1);
    var z0, z, z' := zones0[region - 1], zones[region - 1], zones'[region - 1];
    forall j: nat | order + 1 <= j <= MAX_ORDER
      ensures UpperFree(z', base, j) <==> UpperFree(z0, base, j)
    {
      GrewUpper(z, z', base, order, j);
    }
  }

  lemma Arrived(zones0: seq<Zone>, zones: seq<Zone>, region: nat, base: nat, from: nat, target: nat)
    requires Underway(zones0, zones, region, base, from, target, target)
    ensures UpperAll(zones0, region, base, from, target)
  {
  }

  lemma Stuck(zones0: seq<Zone>, zones: seq<Zone>, region: nat, base: nat, from: nat, order: nat, target: nat)
    requires Underway(zones0, zones, region, base, from, order, target) && from <= order < target && order <= MAX_ORDER
    requires !UpperFree(zones[region - 1], base, order)
    ensures !UpperAll(zones0, region, base, from, target) && SameFits(zones0, zones, target)
  {
    hide UpperFree, NoFit;
  }

  lemma Unfitting(zones0: seq<Zone>, zones: seq<Zone>, region: nat, base: nat, from: nat, order: nat, target: nat)
    requires Underway(zones0, zones, region, base, from, order, target)
    ensures SameFits(zones0, zones, target)
  {
  }

  lemma SameFitsSelf(zones: seq<Zone>, order: nat)
    ensures SameFits(zones, zones, order)
  {
  }

  lemma BlocksGrow(order: nat)
    ensures BlockSize(order) <= BlockSize(order + 1)
  {
  }

  lemma SizeOf(metas: Metas, maps: map<nat, nat>, thp: bool, p: nat)
    requires SizesOk(metas, maps, thp) && p in metas
    ensures SizeOk(p, metas[p], maps, thp)
  {
  }

  lemma RangeLength(zones: seq<Zone>, maps: map<nat, nat>, base: nat, length: nat)
    requires FreeRange(zones, maps, base, length)
    ensures length >= HEADER
  {
  }

  lemma SameExtentSelf(zones: seq<Zone>)
    ensures SameExtent(zones, zones)
  {
  }
}
