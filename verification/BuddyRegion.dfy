/** A buddy region: its free lists and what they say about its space. */
module BuddyRegion {
  import opened BuddyTiles
  import opened BuddyLists
  import opened DoublyLinked

  /** `free` lists the free blocks of each order, `own` the block at each offset; both only for the proof. */
  datatype Region = Region(lists: Lists, free: seq<seq<nat>>, own: seq<Piece>)

  ghost predicate FreeAgree(free: seq<seq<nat>>, own: seq<Piece>) {
    |free| == TOP + 1 && forall k: nat, a: nat :: k <= TOP ==> (a in free[k] <==> Has(own, a, k, Free))
  }

  ghost predicate OrdersOk(lists: Lists, free: seq<seq<nat>>, n: nat) {
    |free| == TOP + 1 && forall k: nat :: k <= TOP ==> OrderOk(lists, k, free[k], n)
  }

  /** Blocks tile the region; the list, the bitmap and the mask bit of each order describe its free blocks. */
  ghost predicate RegionOk(g: Region) {
    && Tiled(g.own) && Shaped(g.lists, |g.own|) && OrdersOk(g.lists, g.free, |g.own|) && FreeAgree(g.free, g.own)
  }

  lemma BitInside(a: nat, k: nat, n: nat)
    requires k <= TOP && a % Size(k) == 0 && a + Size(k) <= n
    ensures BitOf(a, k) < n / Size(k)
  {
  }

  ghost predicate InBounds(g: Region, a: nat, k: nat) {
    && k < |g.lists.heads| && k < |g.lists.bits| && k < |g.lists.mask| && k < |g.free|
    && a in g.lists.records && BitOf(a, k) < |g.lists.bits[k]|
  }

  /** What the lists need to know about a block. */
  lemma BlockFacts(g: Region, a: nat, k: nat, h: Holder)
    requires RegionOk(g) && Has(g.own, a, k, h)
    ensures BlockIn(a, k, |g.own|) && InBounds(g, a, k)
  {
    OnePiece(g.own, a, k, h);
    BitInside(a, k, |g.own|);
  }

  /** At one offset there is one block. */
  lemma OneHolder(own: seq<Piece>, a: nat, k: nat, h: Holder, h': Holder, b: nat, j: nat)
    requires Tiled(own) && Has(own, a, k, h)
    ensures Has(Rehold(own, a, k, h'), b, j, Free) <==> if b == a then j == k && h' == Free else Has(own, b, j, Free)
  {
    OnePiece(own, a, k, h);
    assert a < b < a + Size(k) ==> own[b].start == a;
  }

  // ----- taking a block off its list -----

  /** remove_free_block, and the block passes to `h`. */
  ghost function Taken(g: Region, a: nat, k: nat, h: Holder): Region {
    if InBounds(g, a, k) then
      Region(RemoveFree(g.lists, k, a), g.free[k := Without(g.free[k], a)], Rehold(g.own, a, k, h))
    else g
  }

  lemma RemoveShaped(r: Lists, k: nat, a: nat, n: nat)
    requires Shaped(r, n) && k <= TOP && a in r.records && BitOf(a, k) < |r.bits[k]|
    ensures Shaped(RemoveFree(r, k, a), n)
  {
  }

  /** Removal rewrites links only in the list it removes from. */
  lemma RemoveOthers(r: Lists, k: nat, xs: seq<nat>, a: nat, b: nat, n: nat)
    requires OrderOk(r, k, xs, n) && a in xs && BitOf(a, k) < |r.bits[k]| && b !in xs && b in r.records
    ensures a in r.records && RemoveFree(r, k, a).records.Keys == r.records.Keys && RemoveFree(r, k, a).records[b] == r.records[b]
  {
    var ys, zs := Around(xs, a);
    RemoveLinks(r.records, ys, a, zs);
    assert ys != [] ==> ys[|ys| - 1] in xs;
    assert zs != [] ==> zs[0] in xs;
  }

  lemma TakenOrders(g: Region, a: nat, k: nat, h: Holder)
    requires RegionOk(g) && Has(g.own, a, k, Free)
    ensures OrdersOk(Taken(g, a, k, h).lists, Taken(g, a, k, h).free, |g.own|)
  {
    hide Links, Shaped, Tiled, OrderOk, RemoveFree;
    BlockFacts(g, a, k, Free);
    ShapedSizes(g.lists, |g.own|);
    assert OrderOk(g.lists, k, g.free[k], |g.own|);
    assert a in g.free[k];
    RemoveOk(g.lists, k, g.free[k], a, |g.own|);
    var r' := RemoveFree(g.lists, k, a);
    forall j: nat | j <= TOP && j != k
      ensures OrderOk(r', j, g.free[j], |g.own|)
    {
      OtherOrder(g, k, j);
      assert OrderOk(g.lists, j, g.free[j], |g.own|);
      forall b | b in g.free[j] && b in g.lists.records
        ensures b in r'.records && r'.records[b] == g.lists.records[b]
      {
        RemoveOthers(g.lists, k, g.free[k], a, b, |g.own|);
      }
      RemoveElsewhere(g.lists, k, a, j);
      OrderFrame(g.lists, r', j, g.free[j], |g.own|);
    }
  }

  lemma RemoveElsewhere(r: Lists, k: nat, a: nat, j: nat)
    requires k < |r.heads| && k < |r.bits| && k < |r.mask| && a in r.records && BitOf(a, k) < |r.bits[k]|
    requires j < |r.heads| && j < |r.bits| && j < |r.mask| && j != k
    ensures
      var r' := RemoveFree(r, k, a);
      && |r'.heads| == |r.heads| && |r'.bits| == |r.bits| && |r'.mask| == |r.mask|
      && r'.heads[j] == r.heads[j] && r'.bits[j] == r.bits[j] && r'.mask[j] == r.mask[j]
  {
  }

  /** A block is free in one order only. */
  lemma OtherOrder(g: Region, k: nat, j: nat)
    requires FreeAgree(g.free, g.own) && k <= TOP && j <= TOP && k != j
    ensures forall b :: b in g.free[j] ==> b !in g.free[k]
  {
    forall b | b in g.free[j]
      ensures b !in g.free[k]
    {
      assert Has(g.own, b, j, Free);
      assert b in g.free[k] ==> Has(g.own, b, k, Free);
    }
  }

  lemma TakenAgree(g: Region, a: nat, k: nat, h: Holder)
    requires RegionOk(g) && Has(g.own, a, k, Free) && h != Free
    ensures FreeAgree(Taken(g, a, k, h).free, Taken(g, a, k, h).own)
  {
    hide Links, Shaped, Tiled, OrderOk, RemoveFree, Has, Rehold;
    BlockFacts(g, a, k, Free);
    NoRepeatsOf(g, k);
    assert a in g.free[k];
    var ys, zs := Around(g.free[k], a);
    var free', own' := Taken(g, a, k, h).free, Taken(g, a, k, h).own;
    forall j: nat, b: nat | j <= TOP
      ensures b in free'[j] <==> Has(own', b, j, Free)
    {
      assert b in g.free[j] <==> Has(g.own, b, j, Free);
      OneHolder(g.own, a, k, Free, h, b, j);
      SameStart(g.own, a, j, k);
    }
  }

  lemma SameStart(own: seq<Piece>, a: nat, j: nat, k: nat)
    ensures Has(own, a, j, Free) && Has(own, a, k, Free) ==> j == k
  {
  }

  lemma NoRepeatsOf(g: Region, k: nat)
    requires RegionOk(g) && k <= TOP
    ensures NoRepeats(g.free[k])
  {
    hide Links, Shaped, Tiled;
    assert OrderOk(g.lists, k, g.free[k], |g.own|);
  }

  lemma TakenOk(g: Region, a: nat, k: nat, h: Holder)
    requires RegionOk(g) && Has(g.own, a, k, Free) && h != Free
    ensures RegionOk(Taken(g, a, k, h)) && InBounds(g, a, k)
  {
    hide Shaped, Tiled, OrdersOk, FreeAgree, RemoveFree, Has;
    BlockFacts(g, a, k, Free);
    RemoveShaped(g.lists, k, a, |g.own|);
    TakenOrders(g, a, k, h);
    TakenAgree(g, a, k, h);
    ReholdTiles(g.own, a, k, Free, h);
  }

  // ----- putting a block on its list -----

  /** Write a fresh record, then push_free_block. */
  ghost function Given(g: Region, a: nat, k: nat, life: nat, tag: nat): Region {
    if InBounds(g, a, k) then
      var r := g.lists.(records := g.lists.records[a := Cell(NIL, NIL, Mark(life, tag))]);
      Region(PushFree(r, k, a), g.free[k := [a] + g.free[k]], Rehold(g.own, a, k, Free))
    else g
  }

  lemma PushShaped(r: Lists, k: nat, a: nat, n: nat)
    requires Shaped(r, n) && k <= TOP && a in r.records && BitOf(a, k) < |r.bits[k]|
    ensures Shaped(PushFree(r, k, a), n)
  {
  }

  lemma PushElsewhere(r: Lists, k: nat, a: nat, j: nat)
    requires k < |r.heads| && k < |r.bits| && k < |r.mask| && a in r.records && BitOf(a, k) < |r.bits[k]|
    requires j < |r.heads| && j < |r.bits| && j < |r.mask| && j != k
    ensures
      var r' := PushFree(r, k, a);
      && |r'.heads| == |r.heads| && |r'.bits| == |r.bits| && |r'.mask| == |r.mask|
      && r'.heads[j] == r.heads[j] && r'.bits[j] == r.bits[j] && r'.mask[j] == r.mask[j]
  {
  }

  /** A record outside the lists may hold anything. */
  lemma Scribble(g: Region, a: nat, rec: FreeBlock)
    requires RegionOk(g) && a < |g.own| && (forall k :: !Has(g.own, a, k, Free))
    ensures RegionOk(g.(lists := g.lists.(records := g.lists.records[a := rec])))
  {
    hide Links, Tiled;
    var r' := g.lists.(records := g.lists.records[a := rec]);
    forall k: nat | k <= TOP
      ensures OrderOk(r', k, g.free[k], |g.own|)
    {
      assert a !in g.free[k];
      OrderFrame(g.lists, r', k, g.free[k], |g.own|);
    }
  }

  lemma GivenOrders(g: Region, a: nat, k: nat, n: nat)
    requires Shaped(g.lists, n) && OrdersOk(g.lists, g.free, n) && BlockIn(a, k, n) && a in g.lists.records
    requires BitOf(a, k) < |g.lists.bits[k]| && (forall j: nat :: j <= TOP ==> a !in g.free[j])
    requires forall j: nat, b :: j <= TOP && j != k && b in g.free[j] ==> b !in g.free[k]
    ensures OrdersOk(PushFree(g.lists, k, a), g.free[k := [a] + g.free[k]], n)
  {
    hide Links, Shaped, OrderOk, PushFree;
    ShapedSizes(g.lists, n);
    PushOk(g.lists, k, g.free[k], a, n);
    var r' := PushFree(g.lists, k, a);
    forall j: nat | j <= TOP && j != k
      ensures OrderOk(r', j, g.free[j], n)
    {
      HeadListed(g.lists, k, g.free[k], n);
      PushOthers(g.lists, k, a);
      PushElsewhere(g.lists, k, a, j);
      OrderFrame(g.lists, r', j, g.free[j], n);
    }
  }

  lemma ShapedSizes(r: Lists, n: nat)
    requires Shaped(r, n)
    ensures |r.heads| == TOP + 1 && |r.bits| == TOP + 1 && |r.mask| == TOP + 1
  {
  }

  lemma HeadListed(r: Lists, k: nat, xs: seq<nat>, n: nat)
    requires OrderOk(r, k, xs, n)
    ensures k < |r.heads| && (r.heads[k] == NIL || r.heads[k] in xs)
  {
  }

  lemma PushOthers(r: Lists, k: nat, a: nat)
    requires k < |r.heads| && k < |r.bits| && k < |r.mask| && a in r.records && BitOf(a, k) < |r.bits[k]|
    ensures PushFree(r, k, a).records.Keys == r.records.Keys
    ensures forall b :: b in r.records && b != a && b != r.heads[k] ==> PushFree(r, k, a).records[b] == r.records[b]
  {
  }

  lemma GivenOk(g: Region, a: nat, k: nat, h: Holder, life: nat, tag: nat)
    requires RegionOk(g) && Has(g.own, a, k, h) && h != Free
    ensures RegionOk(Given(g, a, k, life, tag)) && InBounds(g, a, k)
  {
    hide Shaped, Tiled, OrdersOk, PushFree, Rehold;
    BlockFacts(g, a, k, h);
    var r := g.lists.(records := g.lists.records[a := Cell(NIL, NIL, Mark(life, tag))]);
    Scribble(g, a, Cell(NIL, NIL, Mark(life, tag)));
    PushShaped(r, k, a, |g.own|);
    GivenOrders(g.(lists := r), a, k, |g.own|);
    ReholdTiles(g.own, a, k, h, Free);
    GivenAgree(g, a, k, h);
  }

  lemma GivenAgree(g: Region, a: nat, k: nat, h: Holder)
    requires Tiled(g.own) && FreeAgree(g.free, g.own) && Has(g.own, a, k, h) && h != Free && k <= TOP
    ensures FreeAgree(g.free[k := [a] + g.free[k]], Rehold(g.own, a, k, Free))
  {
    hide Tiled, Rehold;
    var free', own' := g.free[k := [a] + g.free[k]], Rehold(g.own, a, k, Free);
    forall j: nat, b: nat | j <= TOP
      ensures b in free'[j] <==> Has(own', b, j, Free)
    {
      assert b in g.free[j] <==> Has(g.own, b, j, Free);
      OneHolder(g.own, a, k, h, Free, b, j);
    }
  }

  // ----- recutting what is not free -----

  lemma RecutOk(g: Region, own': seq<Piece>)
    requires RegionOk(g) && Tiled(own') && |own'| == |g.own|
    requires forall a, k :: Has(own', a, k, Free) <==> Has(g.own, a, k, Free)
    ensures RegionOk(g.(own := own'))
  {
    hide Tiled, Shaped, OrdersOk;
    forall k: nat, a: nat | k <= TOP
      ensures a in g.free[k] <==> Has(own', a, k, Free)
    {
      assert a in g.free[k] <==> Has(g.own, a, k, Free);
    }
  }

  lemma HalveOk(g: Region, a: nat, k: nat, h: Holder)
    requires RegionOk(g) && Has(g.own, a, k, h) && h != Free && k > 0
    ensures RegionOk(g.(own := Halve(g.own, a, k, h)))
  {
    hide Shaped, OrdersOk, FreeAgree, Tiled;
    var own' := Halve(g.own, a, k, h);
    HalveTiles(g.own, a, k, h);
    OnePiece(g.own, a, k, h);
    Halves(a, k);
    RecutOk(g, own');
  }

  lemma MergeOk(g: Region, a: nat, k: nat, h: Holder, h': Holder, h'': Holder)
    requires RegionOk(g) && k < TOP && a % Size(k) == 0 && Has(g.own, a, k, h) && Has(g.own, Buddy(a, k), k, h')
    requires h != Free && h' != Free && h'' != Free
    ensures RegionOk(g.(own := Merge(g.own, a, k, h'')))
  {
    hide Shaped, OrdersOk, FreeAgree, Tiled, Buddy;
    var own' := Merge(g.own, a, k, h'');
    MergeTiles(g.own, a, k, h, h', h'');
    OnePiece(g.own, a, k, h);
    OnePiece(g.own, Buddy(a, k), k, h');
    BuddyFacts(a, k);
    Halves(Lower(a, k), k + 1);
    RecutOk(g, own');
  }

  lemma ReholdOk(g: Region, a: nat, k: nat, h: Holder, h': Holder)
    requires RegionOk(g) && Has(g.own, a, k, h) && h != Free && h' != Free
    ensures RegionOk(g.(own := Rehold(g.own, a, k, h')))
  {
    hide Shaped, OrdersOk, FreeAgree, Tiled, Rehold;
    ReholdTiles(g.own, a, k, h, h');
    forall b, j
      ensures Has(Rehold(g.own, a, k, h'), b, j, Free) <==> Has(g.own, b, j, Free)
    {
      OneHolder(g.own, a, k, h, h', b, j);
    }
    RecutOk(g, Rehold(g.own, a, k, h'));
  }

  // ----- canonical regions -----

  lemma TakenCanonical(own: seq<Piece>, a: nat, k: nat, h: Holder, h': Holder)
    requires Tiled(own) && Canonical(own) && Has(own, a, k, h) && h' != Free
    ensures Canonical(Rehold(own, a, k, h'))
  {
    hide Tiled, Rehold, Has, Buddy;
    var own' := Rehold(own, a, k, h');
    forall b: nat, j: nat {:trigger Buddy(b, j)} | j < TOP && b % Size(j) == 0 && Has(own', b, j, Free)
      ensures !Has(own', Buddy(b, j), j, Free)
    {
      OneHolder(own, a, k, h, h', b, j);
      OneHolder(own, a, k, h, h', Buddy(b, j), j);
    }
  }

  lemma GivenCanonical(own: seq<Piece>, a: nat, k: nat, h: Holder)
    requires Tiled(own) && Canonical(own) && Has(own, a, k, h) && a % Size(k) == 0
    requires k < TOP ==> !Has(own, Buddy(a, k), k, Free)
    ensures Canonical(Rehold(own, a, k, Free))
  {
    hide Tiled, Rehold, Has, Buddy;
    var own' := Rehold(own, a, k, Free);
    forall b: nat, j: nat {:trigger Buddy(b, j)} | j < TOP && b % Size(j) == 0 && Has(own', b, j, Free)
      ensures !Has(own', Buddy(b, j), j, Free)
    {
      OneHolder(own, a, k, h, Free, b, j);
      OneHolder(own, a, k, h, Free, Buddy(b, j), j);
      BuddyFacts(b, j);
    }
  }

  /** Recutting what is not free does not concern free buddies. */
  lemma RecutCanonical(own: seq<Piece>, own': seq<Piece>)
    requires Canonical(own) && forall a, k :: Has(own', a, k, Free) <==> Has(own, a, k, Free)
    ensures Canonical(own')
  {
    hide Has, Buddy;
  }

  // ----- what allocation and release do to space -----

  ghost predicate SameOrFree(own: seq<Piece>, own': seq<Piece>, x: nat)
    requires x < |own| == |own'|
  {
    own[x] == own'[x] || (own[x].holder == Free && own'[x].holder == Free)
  }

  /** `own'` is `own` with the free space of one block given to `h`; elsewhere at most free space is cut differently. */
  ghost predicate Granted(own: seq<Piece>, own': seq<Piece>, a: nat, k: nat, h: Holder) {
    && |own| == |own'| && Has(own', a, k, h) && a + Size(k) <= |own|
    && forall x :: 0 <= x < |own| ==> if a <= x < a + Size(k) then own[x].holder == Free else SameOrFree(own, own', x)
  }

  /** Releasing a granted block restores the canonical region, block by block. */
  lemma ReleaseUndoesGrant(own: seq<Piece>, mid: seq<Piece>, own': seq<Piece>, a: nat, k: nat, h: Holder)
    requires Tiled(own) && Tiled(own') && Canonical(own) && Canonical(own')
    requires Granted(own, mid, a, k, h) && Granted(own', mid, a, k, h)
    ensures own == own'
  {
    hide Tiled, Canonical, Has;
    forall x | 0 <= x < |own|
      ensures own[x] == own'[x] || (own[x].holder == Free && own'[x].holder == Free)
    {
      assert a <= x < a + Size(k) || (SameOrFree(own, mid, x) && SameOrFree(own', mid, x));
    }
    CanonicalUnique(own, own');
  }
}
