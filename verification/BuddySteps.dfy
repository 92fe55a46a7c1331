/** Every step of the buddy machine keeps its invariant. */
module BuddySteps {
  import opened BuddyTiles
  import opened BuddyLists
  import opened DoublyLinked
  import opened BuddyRegion
  import opened BuddySpace
  import opened BuddyMachine
  import opened BuddySafety

  /** The offsets in the hands of `u` are those of its block. */
  lemma HandOnly(s: State, u: nat, a: nat, k: nat)
    requires Inv(s) && u < |s.threads| && Holds(s.threads[u], a, k)
    ensures Has(Own(s), a, k, Hand(u)) && k <= TOP && a % Size(k) == 0 && a + Size(k) <= |Own(s)|
    ensures forall x :: 0 <= x < |Own(s)| ==> (Own(s)[x].holder == Hand(u) <==> a <= x < a + Size(k))
    ensures forall x :: a <= x < a + Size(k) ==> Own(s)[x] == Piece(a, k, Hand(u))
  {
    hide Shaped, OrdersOk, FreeAgree, TagsOk, PcOk, TiledIn;
    OnePiece(Own(s), a, k, Hand(u));
    forall x | 0 <= x < |Own(s)| && Own(s)[x].holder == Hand(u)
      ensures a <= x < a + Size(k)
    {
      assert Holds(s.threads[u], Own(s)[x].start, Own(s)[x].order);
      PieceAround(Own(s), x);
    }
  }

  lemma PieceAround(own: seq<Piece>, x: nat)
    requires Tiled(own) && x < |own|
    ensures own[x].start <= x < own[x].start + Size(own[x].order)
  {
    assert TileAt(own, 0, |own|, x);
  }

  lemma HandNone(s: State, u: nat)
    requires Inv(s) && u < |s.threads| && forall a, k :: !Holds(s.threads[u], a, k)
    ensures forall x :: 0 <= x < |Own(s)| ==> Own(s)[x].holder != Hand(u)
  {
    hide RegionOk, TagsOk, PcOk;
    assert forall x :: 0 <= x < |Own(s)| && Own(s)[x].holder == Hand(u) ==> Holds(s.threads[u], Own(s)[x].start, Own(s)[x].order);
  }

  /** Only the thread's place in the program changes. */
  lemma LocalKeeps(s: State, u: nat, pc: Pc)
    requires Inv(s) && u < |s.threads| && PcOk(pc, s.touched, s.stamped)
    requires forall a, k :: Holds(pc, a, k) <==> Holds(s.threads[u], a, k)
    ensures Inv(At(s, u, pc))
  {
    hide RegionOk, Clean, Has, RecordAt, HandsOk, PcOk, TagsOk;
    HandsStill(Own(s), s.threads, u, pc);
    Assemble(s, At(s, u, pc), u);
  }

  // ----- records are written at starts of blocks -----

  ghost predicate Starts(xs: set<nat>, own: seq<Piece>) { forall x :: x in xs ==> x < |own| && own[x].start == x }

  lemma TakeStarts(g: Region, own': seq<Piece>, a: nat, k: nat)
    requires RegionOk(g) && Has(g.own, a, k, Free) && |own'| == |g.own|
    requires forall x: nat :: x != a && Has(g.own, x, k, Free) ==> own'[x] == g.own[x]
    ensures Starts(TakeWrites(g, a), own')
  {
    hide RegionOk;
    NeighboursFree(g, a, k);
  }

  lemma PushStarts(g: Region, own': seq<Piece>, a: nat, k: nat)
    requires RegionOk(g) && k <= TOP && |own'| == |g.own| && a < |own'| && own'[a].start == a
    requires forall x: nat :: Has(g.own, x, k, Free) ==> own'[x] == g.own[x]
    ensures Starts(PushWrites(g, k, a), own')
  {
    hide RegionOk;
    if HeadAt(g, k) >= 0 {
      FirstFree(g, k);
    }
  }

  lemma TrimStarts(g: Region, k: nat, chosen: set<nat>)
    requires RegionOk(g)
    ensures Starts(TrimWrites(g, k, chosen), g.own)
  {
    hide Tiled, OrdersOk, Shaped;
  }

  lemma GrowsBy(own: seq<Piece>, touched: set<nat>, stamped: set<nat>, touched': set<nat>, xs: set<nat>)
    requires Starts(xs, own) && forall x :: x in touched' && x !in touched ==> x < |own| && own[x].holder == Live
    ensures Grows(own, touched, stamped, touched', stamped + xs)
  {
  }

  // ----- alloc_from_region -----

  lemma ScanTakeKeeps(s: State, u: nat, k: nat, j: nat, seen: seq<bool>)
    requires Inv(s) && u < |s.threads| && s.threads[u] == Scan(k, j, seen) && j <= TOP && HeadAt(s.region, j) >= 0
    ensures
      var head := HeadAt(s.region, j);
      var rec := RecordAt(s.region, head);
      Inv(At(s.(region := Taken(s.region, head, j, Hand(u)), stamped := s.stamped + TakeWrites(s.region, head)), u,
             Split(k, j, head, rec.data.lifeTime, rec.data.trimState)))
  {
    hide Shaped, OrdersOk, FreeAgree, Tiled, Clean, Taken, HandsOk, TakeWrites, Grows, Starts;
    var a := HeadAt(s.region, j);
    var rec := RecordAt(s.region, a);
    assert PcOk(s.threads[u], s.touched, s.stamped);
    FirstFree(s.region, j);
    OnePiece(Own(s), a, j, Free);
    TakenOk(s.region, a, j, Hand(u));
    TakenOwn(s.region, a, j, Hand(u));
    HandNone(s, u);
    var pc := Split(k, j, a, rec.data.lifeTime, rec.data.trimState);
    var s' := At(s.(region := Taken(s.region, a, j, Hand(u)), stamped := s.stamped + TakeWrites(s.region, a)), u, pc);
    TakeStarts(s.region, Own(s'), a, j);
    GrowsBy(Own(s'), s.touched, s.stamped, s.touched, TakeWrites(s.region, a));
    if pc.tag == NOT_ALLOCATED {
      CleanGrows(Own(s'), a, j, Hand(u), s.touched, s.stamped, s'.touched, s'.stamped);
    }
    HandsMove(Own(s), Own(s'), s.threads, u, pc, a, a + Size(j));
    forall b, i | Has(Own(s'), b, i, Free) && RecordAt(s'.region, b).data.trimState == NOT_ALLOCATED
      ensures Has(Own(s), b, i, Free) && RecordAt(s.region, b).data.trimState == NOT_ALLOCATED
    {
      TakenTags(s.region, a, j, Hand(u), b);
    }
    Assemble(s, s', u);
  }

  lemma TakenOwn(g: Region, a: nat, k: nat, h: Holder)
    requires InBounds(g, a, k)
    ensures Taken(g, a, k, h).own == Rehold(g.own, a, k, h)
  {
  }

  lemma GivenOwn(g: Region, a: nat, k: nat, life: nat, tag: nat)
    requires InBounds(g, a, k)
    ensures Given(g, a, k, life, tag).own == Rehold(g.own, a, k, Free)
  {
  }

  /** The mask bit of an empty list is clear already. */
  lemma UnmarkedSame(g: Region, j: nat)
    requires RegionOk(g) && j <= TOP && HeadAt(g, j) < 0
    ensures Unmarked(g, j) == g
  {
    hide Links, FreeAgree, Tiled;
    assert OrderOk(g.lists, j, g.free[j], |g.own|);
    assert g.lists.mask[j := false] == g.lists.mask;
  }

  lemma ScanKeeps(s: State, u: nat, k: nat, j: nat, seen: seq<bool>)
    requires Inv(s) && u < |s.threads| && s.threads[u] == Scan(k, j, seen)
    ensures Inv(ScanStep(s, u, k, j, seen))
  {
    hide RegionOk, Clean, HandsOk, TagsOk, Taken, Unmarked;
    assert PcOk(s.threads[u], s.touched, s.stamped);
    if j > TOP {
      LocalKeeps(s, u, Idle);
    } else if !SeenAt(seen, j) {
      LocalKeeps(s, u, Scan(k, j + 1, seen));
    } else if HeadAt(s.region, j) < 0 {
      UnmarkedSame(s.region, j);
      assert s.(region := Unmarked(s.region, j)) == s;
      LocalKeeps(s, u, Scan(k, j + 1, seen));
    } else {
      ScanTakeKeeps(s, u, k, j, seen);
    }
  }

  /** The cut after a split: lower half in the hand, upper half free. */
  lemma SplitOwn(own: seq<Piece>, a: nat, j: nat, h: Holder)
    requires Tiled(own) && Has(own, a, j, h) && j > 0
    ensures a + Size(j) <= |own| && Size(j) == Size(j - 1) + Size(j - 1)
    ensures
      var b := a + Size(j - 1);
      var own' := Rehold(Halve(own, a, j, h), b, j - 1, Free);
      |own'| == |own| && forall x :: 0 <= x < |own| ==>
        own'[x] == if a <= x < b then Piece(a, j - 1, h) else if b <= x < a + Size(j) then Piece(b, j - 1, Free) else own[x]
  {
    hide Tiled;
    OnePiece(own, a, j, h);
    Halves(a, j);
  }

  /** The upper half has the tag of the block it was cut from; other tags are as before. */
  lemma SplitTags(s: State, u: nat, j: nat, a: nat, life: nat, tag: nat, c: nat, i: nat)
    requires Inv(s) && Has(Own(s), a, j, Hand(u)) && j > 0 && (tag == NOT_ALLOCATED ==> Clean(a, j, s.touched, s.stamped))
    requires InBounds(Recut(s.region, Halve(Own(s), a, j, Hand(u))), a + Size(j - 1), j - 1)
    requires var g := Given(Recut(s.region, Halve(Own(s), a, j, Hand(u))), a + Size(j - 1), j - 1, life, tag);
      Has(g.own, c, i, Free) && RecordAt(g, c).data.trimState == NOT_ALLOCATED
    ensures (Has(Own(s), c, i, Free) && RecordAt(s.region, c).data.trimState == NOT_ALLOCATED) || Clean(c, i, s.touched, s.stamped)
  {
    hide Shaped, OrdersOk, FreeAgree, Tiled, Clean, Given, HandsOk, TagsOk, PcOk, Halve, Rehold;
    var g := Recut(s.region, Halve(Own(s), a, j, Hand(u)));
    var b := a + Size(j - 1);
    SplitOwn(Own(s), a, j, Hand(u));
    GivenOwn(g, b, j - 1, life, tag);
    GivenTags(g, b, j - 1, life, tag, c);
    if c == b && tag == NOT_ALLOCATED {
      CleanPart(a, j, b, j - 1, s.touched, s.stamped);
    }
  }

  lemma SplitPushKeeps(s: State, u: nat, k: nat, j: nat, a: nat, life: nat, tag: nat)
    requires Inv(s) && u < |s.threads| && s.threads[u] == Split(k, j, a, life, tag) && j > k
    ensures Inv(SplitStep(s, u, k, j, a, life, tag))
  {
    hide Shaped, OrdersOk, FreeAgree, Tiled, Clean, Given, HandsOk, TagsOk, Halve, Rehold, PushWrites, Grows, Starts;
    assert PcOk(s.threads[u], s.touched, s.stamped);
    assert Holds(s.threads[u], a, j);
    HandOnly(s, u, a, j);
    var h := Hand(u);
    var g := Recut(s.region, Halve(Own(s), a, j, h));
    var b := a + Size(j - 1);
    HalveOk(s.region, a, j, h);
    HalveTiles(Own(s), a, j, h);
    GivenOk(g, b, j - 1, h, life, tag);
    GivenOwn(g, b, j - 1, life, tag);
    SplitOwn(Own(s), a, j, h);
    var pc := Split(k, j - 1, a, life, tag);
    var s' := SplitStep(s, u, k, j, a, life, tag);
    HandsMove(Own(s), Own(s'), s.threads, u, pc, a, a + Size(j));
    PushStarts(s.region, Own(s'), b, j - 1);
    GrowsBy(Own(s'), s.touched, s.stamped, s.touched, PushWrites(s.region, j - 1, b));
    if tag == NOT_ALLOCATED {
      CleanPart(a, j, a, j - 1, s.touched, s.stamped);
      CleanGrows(Own(s'), a, j - 1, h, s.touched, s.stamped, s'.touched, s'.stamped);
    }
    forall c, i | Has(Own(s'), c, i, Free) && RecordAt(s'.region, c).data.trimState == NOT_ALLOCATED
      ensures (Has(Own(s), c, i, Free) && RecordAt(s.region, c).data.trimState == NOT_ALLOCATED) || Clean(c, i, s.touched, s.stamped)
    {
      SplitTags(s, u, j, a, life, tag, c, i);
    }
    Assemble(s, s', u);
  }

  lemma SplitDoneKeeps(s: State, u: nat, k: nat, j: nat, a: nat, life: nat, tag: nat)
    requires Inv(s) && u < |s.threads| && s.threads[u] == Split(k, j, a, life, tag) && j <= k
    ensures Inv(SplitStep(s, u, k, j, a, life, tag))
  {
    hide Shaped, OrdersOk, FreeAgree, Tiled, Clean, HandsOk, TagsOk;
    assert Holds(s.threads[u], a, j);
    HandOnly(s, u, a, j);
    ReholdOk(s.region, a, j, Hand(u), Live);
    var s' := SplitStep(s, u, k, j, a, life, tag);
    HandsMove(Own(s), Own(s'), s.threads, u, Idle, a, a + Size(j));
    Assemble(s, s', u);
  }

  // ----- free -----

  /** The buddy's bit is read under its order's lock, so it tells the truth. */
  lemma BuddyTrue(s: State, u: nat, a: nat, k: nat)
    requires Inv(s) && u < |s.threads| && Holds(s.threads[u], a, k) && k < TOP && a % Size(k) == 0
    ensures BitAt(s.region, Buddy(a, k), k) <==> Has(Own(s), Buddy(a, k), k, Free)
  {
    hide Shaped, OrdersOk, FreeAgree, Tiled, Clean, HandsOk, TagsOk, Buddy;
    HandOnly(s, u, a, k);
    BuddyBit(s.region, a, k, Hand(u));
    if Has(Own(s), Buddy(a, k), k, Free) {
      BlockFacts(s.region, Buddy(a, k), k, Free);
    }
  }

  /** Taking in the free buddy, under any new holder. */
  lemma AbsorbKeeps(s: State, u: nat, a: nat, k: nat, h: Holder, pc: Pc, touched: set<nat>)
    requires Inv(s) && u < |s.threads| && Holds(s.threads[u], a, k) && k < TOP && a % Size(k) == 0
    requires Has(Own(s), Buddy(a, k), k, Free) && (h == Live || h == Hand(u)) && !pc.Scan? && !pc.Split?
    requires forall b, i :: Holds(pc, b, i) <==> h == Hand(u) && b == Lower(a, k) && i == k + 1
    requires touched == if h == Live then s.touched + Units(Lower(a, k), k + 1) else s.touched
    ensures
      var g := Taken(s.region, Buddy(a, k), k, Hand(u));
      Inv(At(s.(region := Recut(g, Merge(g.own, a, k, h)), touched := touched, stamped := s.stamped + TakeWrites(s.region, Buddy(a, k))), u, pc))
  {
    hide Shaped, OrdersOk, FreeAgree, Tiled, Clean, HandsOk, TagsOk, Buddy, Taken, Merge, Rehold, TakeWrites, Grows, Starts;
    var b, m, hand := Buddy(a, k), Lower(a, k), Hand(u);
    HandOnly(s, u, a, k);
    TakenOk(s.region, b, k, hand);
    TakenOwn(s.region, b, k, hand);
    var g := Taken(s.region, b, k, hand);
    ReholdTiles(Own(s), b, k, Free, hand);
    BuddyStays(Own(s), a, k, hand, hand);
    MergeOk(g, a, k, hand, hand, h);
    MergeOwn(Own(s), a, k, hand, h);
    var s' := At(s.(region := Recut(g, Merge(g.own, a, k, h)), touched := touched, stamped := s.stamped + TakeWrites(s.region, b)), u, pc);
    HandsMove(Own(s), Own(s'), s.threads, u, pc, m, m + Size(k + 1));
    AwayFrom(Own(s), Own(s'), a, k, hand);
    TakeStarts(s.region, Own(s'), b, k);
    GrowsBy(Own(s'), s.touched, s.stamped, touched, TakeWrites(s.region, b));
    forall c, i | Has(Own(s'), c, i, Free) && RecordAt(s'.region, c).data.trimState == NOT_ALLOCATED
      ensures Has(Own(s), c, i, Free) && RecordAt(s.region, c).data.trimState == NOT_ALLOCATED
    {
      TakenTags(s.region, b, k, hand, c);
    }
    Assemble(s, s', u);
  }

  /** Other free blocks of the order lie outside the merged block. */
  lemma AwayFrom(own: seq<Piece>, own': seq<Piece>, a: nat, k: nat, hand: Holder)
    requires Tiled(own) && k < TOP && a % Size(k) == 0 && Has(own, a, k, hand) && hand != Free && Has(own, Buddy(a, k), k, Free)
    requires |own'| == |own| && forall x :: 0 <= x < |own| && !(Lower(a, k) <= x < Lower(a, k) + Size(k + 1)) ==> own'[x] == own[x]
    ensures forall x: nat :: x != Buddy(a, k) && Has(own, x, k, Free) ==> own'[x] == own[x]
  {
    hide Tiled, Buddy;
    OnePiece(own, a, k, hand);
    OnePiece(own, Buddy(a, k), k, Free);
    BuddyFacts(a, k);
    Halves(Lower(a, k), k + 1);
  }

  /** The cut after taking in the free buddy. */
  lemma MergeOwn(own: seq<Piece>, a: nat, k: nat, hand: Holder, h: Holder)
    requires Tiled(own) && k < TOP && a % Size(k) == 0 && Has(own, a, k, hand) && Has(own, Buddy(a, k), k, Free)
    ensures
      var m := Lower(a, k);
      var own' := Merge(Rehold(own, Buddy(a, k), k, hand), a, k, h);
      && m + Size(k + 1) <= |own| && |own'| == |own|
      && (forall x :: 0 <= x < |own| ==> own'[x] == if m <= x < m + Size(k + 1) then Piece(m, k + 1, h) else own[x])
      && (forall x :: m <= x < m + Size(k + 1) ==> own[x].holder == hand || own[x].holder == Free)
      && (m <= a && a + Size(k) <= m + Size(k + 1))
  {
    hide Tiled, Buddy;
    OnePiece(own, a, k, hand);
    OnePiece(own, Buddy(a, k), k, Free);
    BuddyFacts(a, k);
    Halves(Lower(a, k), k + 1);
  }

  lemma FreeKeeps(s: State, u: nat, a: nat, k: nat)
    requires Inv(s) && u < |s.threads| && s.threads[u] == Freeing(a, k)
    ensures Inv(FreeStep(s, u, a, k))
  {
    hide RegionOk, Clean, HandsOk, TagsOk, Taken, Buddy, BitAt, Merge, Has;
    assert Holds(s.threads[u], a, k);
    if k < TOP && a % Size(k) == 0 && BitAt(s.region, Buddy(a, k), k) {
      BuddyTrue(s, u, a, k);
      AbsorbKeeps(s, u, a, k, Hand(u), Freeing(Lower(a, k), k + 1), s.touched);
    } else {
      LocalKeeps(s, u, Placing(a, k));
    }
  }

  lemma PlaceKeeps(s: State, u: nat, a: nat, k: nat, stamp: nat)
    requires Inv(s) && u < |s.threads| && s.threads[u] == Placing(a, k)
    ensures Inv(PlaceStep(s, u, a, k, stamp))
  {
    hide Shaped, OrdersOk, FreeAgree, Tiled, Clean, Given, HandsOk, TagsOk, PushWrites, Grows, Starts;
    assert Holds(s.threads[u], a, k);
    HandOnly(s, u, a, k);
    GivenOk(s.region, a, k, Hand(u), stamp, ALLOCATED);
    GivenOwn(s.region, a, k, stamp, ALLOCATED);
    var s' := PlaceStep(s, u, a, k, stamp);
    HandsMove(Own(s), Own(s'), s.threads, u, Idle, a, a + Size(k));
    PushStarts(s.region, Own(s'), a, k);
    GrowsBy(Own(s'), s.touched, s.stamped, s.touched, PushWrites(s.region, k, a));
    forall c, i | Has(Own(s'), c, i, Free) && RecordAt(s'.region, c).data.trimState == NOT_ALLOCATED
      ensures Has(Own(s), c, i, Free) && RecordAt(s.region, c).data.trimState == NOT_ALLOCATED
    {
      GivenTags(s.region, a, k, stamp, ALLOCATED, c);
    }
    Assemble(s, s', u);
  }

  // ----- try_grow_inplace -----

  /** A block changes hands between a thread and a client. */
  lemma ReholdKeeps(s: State, u: nat, a: nat, k: nat, h: Holder, h': Holder, pc: Pc)
    requires Inv(s) && u < |s.threads| && Has(Own(s), a, k, h) && !pc.Split? && !pc.Scan?
    requires (h == Live && h' == Hand(u)) || (h == Hand(u) && h' == Live)
    requires forall b, i :: Holds(pc, b, i) <==> h' == Hand(u) && b == a && i == k
    requires forall b, i :: Holds(s.threads[u], b, i) <==> h == Hand(u) && b == a && i == k
    ensures Inv(At(s.(region := Recut(s.region, Rehold(Own(s), a, k, h'))), u, pc))
  {
    hide Shaped, OrdersOk, FreeAgree, Tiled, Clean, HandsOk, TagsOk;
    OnePiece(Own(s), a, k, h);
    if h == Live {
      HandNone(s, u);
    } else {
      HandOnly(s, u, a, k);
    }
    ReholdOk(s.region, a, k, h, h');
    var s' := At(s.(region := Recut(s.region, Rehold(Own(s), a, k, h'))), u, pc);
    HandsMove(Own(s), Own(s'), s.threads, u, pc, a, a + Size(k));
    Assemble(s, s', u);
  }

  lemma GrowKeeps(s: State, u: nat, a: nat, k: nat)
    requires Inv(s) && u < |s.threads| && s.threads[u] == Growing(a, k)
    ensures Inv(GrowStep(s, u, a, k))
  {
    hide RegionOk, Clean, HandsOk, TagsOk, Taken, Buddy, BitAt, Merge;
    assert Holds(s.threads[u], a, k);
    HandOnly(s, u, a, k);
    if k < TOP && a % Size(k) == 0 && a < Buddy(a, k) && BitAt(s.region, Buddy(a, k), k) {
      BuddyTrue(s, u, a, k);
      AbsorbKeeps(s, u, a, k, Live, Idle, s.touched + Units(a, k + 1));
    } else {
      ReholdKeeps(s, u, a, k, Hand(u), Live, Idle);
    }
  }

  // ----- the rest -----

  lemma WriteKeeps(s: State, u: nat, x: nat, rec: FreeBlock)
    requires Inv(s) && Enabled(s, u, ClientWrite(x, rec))
    ensures Inv(Fire(s, u, ClientWrite(x, rec)))
  {
    hide Shaped, OrdersOk, FreeAgree, Tiled, Clean, HandsOk, TagsOk;
    Scribble(s.region, x, rec);
    var s' := Fire(s, u, ClientWrite(x, rec));
    Assemble(s, s', u);
  }

  lemma TrimmedOk(g: Region, k: nat, chosen: set<nat>, refused: set<nat>, stamp: nat)
    requires RegionOk(g)
    ensures RegionOk(Trimmed(g, k, chosen, refused, stamp))
  {
    hide Links, FreeAgree, Tiled;
    var g' := Trimmed(g, k, chosen, refused, stamp);
    forall j: nat | j <= TOP
      ensures OrderOk(g'.lists, j, g.free[j], |g.own|)
    {
      OrderFrame(g.lists, g'.lists, j, g.free[j], |g.own|);
    }
  }

  lemma TrimKeeps(s: State, u: nat, k: nat, chosen: set<nat>, refused: set<nat>, stamp: nat)
    requires Inv(s) && Enabled(s, u, TrimOrder(k, chosen, refused, stamp))
    ensures Inv(Fire(s, u, TrimOrder(k, chosen, refused, stamp)))
  {
    hide Shaped, OrdersOk, FreeAgree, Tiled, Clean, HandsOk, TagsOk, Grows, Starts;
    TrimmedOk(s.region, k, chosen, refused, stamp);
    TrimStarts(s.region, k, chosen);
    GrowsBy(Own(s), s.touched, s.stamped, s.touched, TrimWrites(s.region, k, chosen));
    Assemble(s, Fire(s, u, TrimOrder(k, chosen, refused, stamp)), u);
  }

  lemma AdvanceKeeps(s: State, u: nat, stamp: nat)
    requires Inv(s) && u < |s.threads|
    ensures Inv(Advance(s, u, stamp))
  {
    hide RegionOk, HandsOk, TagsOk, Clean, ScanStep, SplitStep, FreeStep, PlaceStep, GrowStep;
    match s.threads[u]
    case Idle =>
    case Load(k) => LocalKeeps(s, u, if k > TOP then Idle else Scan(k, k, s.region.lists.mask));
    case Scan(k, j, seen) => ScanKeeps(s, u, k, j, seen);
    case Split(k, j, a, life, tag) =>
      if j > k {
        SplitPushKeeps(s, u, k, j, a, life, tag);
      } else {
        SplitDoneKeeps(s, u, k, j, a, life, tag);
      }
    case Freeing(a, k) => FreeKeeps(s, u, a, k);
    case Placing(a, k) => PlaceKeeps(s, u, a, k, stamp);
    case Growing(a, k) => GrowKeeps(s, u, a, k);
  }

  lemma StepKeeps(s: State, u: nat, act: Action)
    requires Inv(s) && Enabled(s, u, act)
    ensures Inv(Fire(s, u, act))
  {
    hide Inv, Advance, Trimmed, Rehold;
    match act
    case Go(stamp) => AdvanceKeeps(s, u, stamp);
    case StartAlloc(k) => LocalKeeps(s, u, Load(k));
    case StartFree(a, k) => ReholdKeeps(s, u, a, k, Live, Hand(u), Freeing(a, k));
    case StartGrow(a, k) => ReholdKeeps(s, u, a, k, Live, Hand(u), Growing(a, k));
    case ClientWrite(x, rec) => WriteKeeps(s, u, x, rec);
    case TrimOrder(k, chosen, refused, stamp) => TrimKeeps(s, u, k, chosen, refused, stamp);
  }
}
