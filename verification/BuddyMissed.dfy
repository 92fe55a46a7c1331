/** A run in which two threads free buddies and both stay free. */
module BuddyMissed {
  import opened BuddyTiles
  import opened BuddyLists
  import opened DoublyLinked
  import opened BuddyRegion
  import opened BuddySpace
  import opened BuddyMachine
  import opened BuddySafety
  import opened BuddySteps
  import opened BuddyRun

  // ----- extending runs -----

  lemma {:induction false} RunOn(s: State, run: seq<Event>, e: Event)
    requires Possible(s, run) && Enabled(End(s, run), e.thread, e.action)
    ensures Possible(s, run + [e]) && End(s, run + [e]) == Fire(End(s, run), e.thread, e.action)
    decreases |run|
  {
    hide Enabled, Fire;
    if run == [] {
      assert ([] + [e])[1..] == [];
    } else {
      assert (run + [e])[1..] == run[1..] + [e];
      RunOn(Fire(s, run[0].thread, run[0].action), run[1..], e);
    }
  }

  lemma ReachOn(s: State, u: nat, act: Action)
    requires Reachable(s) && Enabled(s, u, act)
    ensures Reachable(Fire(s, u, act))
  {
    hide Enabled, Fire, Initial, Possible, End;
    var start, run :| ReachedBy(s, start, run);
    RunOn(start, run, Event(u, act));
    assert ReachedBy(Fire(s, u, act), start, run + [Event(u, act)]);
  }

  // ----- the scene: sixteen units and two threads -----

  /** The whole region is one block. */
  ghost function One(h: Holder): seq<Piece> { seq(16, _ => Piece(0, 4, h)) }

  /** Two blocks of half the size. */
  ghost function Two(h: Holder, h': Holder): seq<Piece> { seq(16, x => if x < 8 then Piece(0, 3, h) else Piece(8, 3, h')) }

  ghost predicate Scene(s: State, own: seq<Piece>, pc: Pc, pc': Pc) {
    Reachable(s) && Own(s) == own && s.threads == [pc, pc']
  }

  /** The next step of a thread. */
  lemma Next(s: State, u: nat, stamp: nat)
    requires Reachable(s) && u < |s.threads|
    ensures Reachable(Advance(s, u, stamp))
  {
    hide Reachable, Advance;
    ReachOn(s, u, Go(stamp));
  }

  ghost function Empty(): Region {
    Region(Lists(Blank(16), seq(TOP + 1, _ => NIL), NoBits(16), seq(TOP + 1, _ => false)), seq(TOP + 1, _ => []), Born(16, 0, Live))
  }

  lemma EmptyOk()
    ensures RegionOk(Empty()) && Empty().own == Born(16, 0, Live)
  {
    hide RegionOk;
    BornLists(Empty(), 16, Live);
  }

  lemma FreshIsOne()
    ensures Fresh(16) == One(Free)
  {
    forall x | 0 <= x < 16
      ensures Fresh(16)[x] == One(Free)[x]
    {
      Sixteenth(16, 0, x);
      assert Fresh(16)[x] == Piece(x - x % Size(TOP), TOP, Free);
    }
    assert |Fresh(16)| == 16;
  }

  lemma OneStart(s: State)
    requires Own(s) == One(Free) && s.stamped == {0}
    ensures forall x: nat :: x in s.stamped <==> x < |Own(s)| && x % Size(TOP) == 0
  {
    forall x: nat
      ensures x in s.stamped <==> x < |Own(s)| && x % Size(TOP) == 0
    {
      assert Size(TOP) == 16 && |Own(s)| == 16;
      Sixteenths(x);
    }
  }

  lemma Sixteenths(x: nat)
    ensures x < 16 ==> x % 16 == x
  {
  }

  /** A fresh region. */
  lemma Begin() returns (s: State)
    ensures Scene(s, One(Free), Idle, Idle)
  {
    hide RegionOk, Given, Rehold, Born, Fresh, Empty, One, BlockIn, InBounds;
    EmptyOk();
    BornNext(16, 0, Live);
    BlockFacts(Empty(), 0, TOP, Live);
    GivenOk(Empty(), 0, TOP, Live, 0, NOT_ALLOCATED);
    GivenOwn(Empty(), 0, TOP, 0, NOT_ALLOCATED);
    BornDone(16, 1, Live);
    FreshIsOne();
    s := State(Given(Empty(), 0, TOP, 0, NOT_ALLOCATED), [Idle, Idle], {}, {0});
    OneStart(s);
    assert Initial(s);
    assert ReachedBy(s, s, []);
  }

  // ----- an allocation -----

  /** Nothing is free in this order: the search goes on. */
  lemma Skips(s: State, u: nat, k: nat, j: nat, seen: seq<bool>)
    requires Inv(s) && u < |s.threads| && s.threads[u] == Scan(k, j, seen) && j <= TOP
    requires forall a :: !Has(Own(s), a, j, Free)
    ensures forall stamp :: Advance(s, u, stamp) == At(s, u, Scan(k, j + 1, seen))
  {
    hide RegionOk, HandsOk, TagsOk, PcOk, Has, Unmarked;
    HeadIn(s.region, j);
    if HeadAt(s.region, j) != NIL {
      FirstFree(s.region, j);
    } else {
      UnmarkedSame(s.region, j);
    }
  }

  /** The only free block of this order is taken. */
  lemma Takes(s: State, u: nat, k: nat, j: nat, a: nat, seen: seq<bool>) returns (life: nat, tag: nat)
    requires Inv(s) && u < |s.threads| && s.threads[u] == Scan(k, j, seen) && j <= TOP && seen == s.region.lists.mask
    requires Has(Own(s), a, j, Free) && forall b :: Has(Own(s), b, j, Free) ==> b == a
    ensures forall stamp ::
      Own(Advance(s, u, stamp)) == Rehold(Own(s), a, j, Hand(u)) && Advance(s, u, stamp).threads == s.threads[u := Split(k, j, a, life, tag)]
  {
    hide HandsOk, TagsOk, PcOk, Taken, OrdersOk, Shaped, Tiled;
    HeadIn(s.region, j);
    ShapedSizes(s.region.lists, |Own(s)|);
    EmptyOrder(s.region, j);
    FirstFree(s.region, j);
    BlockFacts(s.region, a, j, Free);
    TakenOwn(s.region, a, j, Hand(u));
    var rec := RecordAt(s.region, a);
    life, tag := rec.data.lifeTime, rec.data.trimState;
  }

  /** The upper half goes back. */
  lemma Splits(s: State, u: nat, k: nat, j: nat, a: nat, life: nat, tag: nat)
    requires Inv(s) && u < |s.threads| && s.threads[u] == Split(k, j, a, life, tag) && j > k
    ensures forall stamp ::
      && Own(Advance(s, u, stamp)) == Rehold(Halve(Own(s), a, j, Hand(u)), a + Size(j - 1), j - 1, Free)
      && Advance(s, u, stamp).threads == s.threads[u := Split(k, j - 1, a, life, tag)]
  {
    hide HandsOk, TagsOk, PcOk, RegionOk, Given, Halve, Rehold, Size, BlockIn, InBounds;
    assert Holds(s.threads[u], a, j);
    HandOnly(s, u, a, j);
    HalveOk(s.region, a, j, Hand(u));
    HalveHas(s.region, a, j, Hand(u));
    var g := Recut(s.region, Halve(Own(s), a, j, Hand(u)));
    BlockFacts(g, a + Size(j - 1), j - 1, Hand(u));
    GivenOwn(g, a + Size(j - 1), j - 1, life, tag);
  }

  lemma HalveHas(g: Region, a: nat, j: nat, h: Holder)
    requires RegionOk(g) && Has(g.own, a, j, h) && j > 0
    ensures Has(Halve(g.own, a, j, h), a + Size(j - 1), j - 1, h)
  {
    hide Has, Halve;
    HalveTiles(g.own, a, j, h);
  }

  /** Thread 0 asks for half the region and gets the lower half. */
  lemma FirstAlloc(s: State) returns (t: State)
    requires Scene(s, One(Free), Idle, Idle)
    ensures Scene(t, Two(Live, Free), Idle, Idle)
  {
    hide Reachable, Inv, Advance, Rehold, Halve, One, Two, Has;
    ReachOn(s, 0, StartAlloc(3));
    var t1 := Fire(s, 0, StartAlloc(3));
    Next(t1, 0, 0);
    var t2 := Advance(t1, 0, 0);
    Loads(t1, 0, 3);
    ReachableInv(t2);
    OneFree();
    Skips(t2, 0, 3, 3, s.region.lists.mask);
    Next(t2, 0, 0);
    var t3 := Advance(t2, 0, 0);
    ReachableInv(t3);
    var life, tag := Takes(t3, 0, 3, 4, 0, s.region.lists.mask);
    Next(t3, 0, 0);
    var t4 := Advance(t3, 0, 0);
    ReachableInv(t4);
    Splits(t4, 0, 3, 4, 0, life, tag);
    Next(t4, 0, 0);
    var t5 := Advance(t4, 0, 0);
    HandsOut(t5, 0, 3, 0, life, tag);
    Next(t5, 0, 0);
    t := Advance(t5, 0, 0);
    FirstCut();
  }

  lemma Loads(s: State, u: nat, k: nat)
    requires u < |s.threads| && s.threads[u] == Load(k) && k <= TOP
    ensures forall stamp :: Advance(s, u, stamp) == At(s, u, Scan(k, k, s.region.lists.mask))
  {
  }

  lemma HandsOut(s: State, u: nat, k: nat, a: nat, life: nat, tag: nat)
    requires u < |s.threads| && s.threads[u] == Split(k, k, a, life, tag)
    ensures forall stamp ::
      Own(Advance(s, u, stamp)) == Rehold(Own(s), a, k, Live) && Advance(s, u, stamp).threads == s.threads[u := Idle]
  {
  }

  lemma OneFree()
    ensures Has(One(Free), 0, 4, Free) && (forall b :: Has(One(Free), b, 4, Free) ==> b == 0) && forall b :: !Has(One(Free), b, 3, Free)
  {
  }

  lemma TwoFree()
    ensures Has(Two(Live, Free), 8, 3, Free) && forall b :: Has(Two(Live, Free), b, 3, Free) ==> b == 8
  {
  }

  lemma FirstCut()
    ensures
      var own := Rehold(Halve(Rehold(One(Free), 0, 4, Hand(0)), 0, 4, Hand(0)), 8, 3, Free);
      Rehold(own, 0, 3, Live) == Two(Live, Free)
  {
  }

  lemma SecondCut()
    ensures Rehold(Rehold(Two(Live, Free), 8, 3, Hand(1)), 8, 3, Live) == Two(Live, Live)
    ensures Has(Two(Live, Live), 0, 3, Live) && Rehold(Two(Live, Live), 0, 3, Hand(0)) == Two(Hand(0), Live)
    ensures Has(Two(Hand(0), Live), 8, 3, Live)
  {
  }

  /** Thread 1 gets the upper half. */
  lemma SecondAlloc(s: State) returns (t: State)
    requires Scene(s, Two(Live, Free), Idle, Idle)
    ensures Scene(t, Two(Live, Live), Idle, Idle)
  {
    hide Reachable, Inv, Advance, Rehold, Halve, Two, Has;
    ReachOn(s, 1, StartAlloc(3));
    var t1 := Fire(s, 1, StartAlloc(3));
    Next(t1, 1, 0);
    var t2 := Advance(t1, 1, 0);
    Loads(t1, 1, 3);
    ReachableInv(t2);
    TwoFree();
    var life, tag := Takes(t2, 1, 3, 3, 8, s.region.lists.mask);
    Next(t2, 1, 0);
    var t3 := Advance(t2, 1, 0);
    HandsOut(t3, 1, 3, 8, life, tag);
    Next(t3, 1, 0);
    t := Advance(t3, 1, 0);
    SecondCut();
  }

  /** Both are freed at once. */
  lemma BothFree(s: State) returns (t: State)
    requires Scene(s, Two(Live, Live), Idle, Idle)
    ensures Reachable(t) && t.threads == [Freeing(0, 3), Freeing(8, 3)]
  {
    hide Reachable, Rehold, Two, Has;
    SecondCut();
    ReachOn(s, 0, StartFree(0, 3));
    var t1 := Fire(s, 0, StartFree(0, 3));
    ReachOn(t1, 1, StartFree(8, 3));
    t := Fire(t1, 1, StartFree(8, 3));
  }

  /** From a fresh region, which is canonical, a run leads to a region that is not: with two threads, buddies can both
      stay free. */
  lemma MissedFromFresh() returns (s: State)
    ensures Reachable(s) && !Canonical(Own(s))
  {
    hide Reachable, Inv, Advance, Canonical, Scene;
    var s0 := Begin();
    var s1 := FirstAlloc(s0);
    var s2 := SecondAlloc(s1);
    var t := BothFree(s2);
    ReachableInv(t);
    var t1, t2, t3, t4 := BuddiesMissed(t, 0, 1, 0, 3, 0);
    Next(t, 0, 0);
    Next(t1, 1, 0);
    Next(t2, 0, 0);
    Next(t3, 1, 0);
    s := t4;
  }
}
