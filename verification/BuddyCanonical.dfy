/** When the buddy machine keeps its region canonical. */
module BuddyCanonical {
  import opened BuddyTiles
  import opened BuddyLists
  import opened BuddyRegion
  import opened BuddySpace
  import opened BuddyMachine
  import opened BuddySafety
  import opened BuddySteps
  import opened BuddyRun

  /** The step pushes a block whose buddy is free at that instant. */
  ghost predicate Misses(s: State, u: nat, act: Action)
    requires Enabled(s, u, act)
  {
    && act.Go? && s.threads[u].Placing?
    && var a, k := s.threads[u].a, s.threads[u].k;
       k < TOP && a % Size(k) == 0 && Has(Own(s), Buddy(a, k), k, Free)
  }

  lemma ScanCanonical(s: State, u: nat, k: nat, j: nat, seen: seq<bool>)
    requires Inv(s) && u < |s.threads| && s.threads[u] == Scan(k, j, seen) && Canonical(Own(s))
    ensures Canonical(Own(ScanStep(s, u, k, j, seen)))
  {
    hide Shaped, OrdersOk, FreeAgree, Tiled, HandsOk, TagsOk, PcOk, Taken, Canonical, Rehold;
    if j <= TOP && HeadAt(s.region, j) >= 0 {
      var a := HeadAt(s.region, j);
      FirstFree(s.region, j);
      BlockFacts(s.region, a, j, Free);
      TakenOwn(s.region, a, j, Hand(u));
      TakenCanonical(Own(s), a, j, Free, Hand(u));
    }
  }

  lemma SplitCanonical(s: State, u: nat, k: nat, j: nat, a: nat, life: nat, tag: nat)
    requires Inv(s) && u < |s.threads| && s.threads[u] == Split(k, j, a, life, tag) && Canonical(Own(s))
    ensures Canonical(Own(SplitStep(s, u, k, j, a, life, tag)))
  {
    hide Shaped, OrdersOk, FreeAgree, Tiled, HandsOk, TagsOk, PcOk, Given, Canonical, Rehold, Halve;
    assert Holds(s.threads[u], a, j);
    HandOnly(s, u, a, j);
    if j > k {
      var g := Recut(s.region, Halve(Own(s), a, j, Hand(u)));
      HalveOk(s.region, a, j, Hand(u));
      HalveTiles(Own(s), a, j, Hand(u));
      BlockFacts(g, a + Size(j - 1), j - 1, Hand(u));
      GivenOwn(g, a + Size(j - 1), j - 1, life, tag);
      UpperHalf(Own(s), a, j, Hand(u));
    } else {
      TakenCanonical(Own(s), a, j, Hand(u), Live);
    }
  }

  lemma AbsorbCanonical(s: State, u: nat, a: nat, k: nat, h: Holder)
    requires Inv(s) && u < |s.threads| && Holds(s.threads[u], a, k) && Canonical(Own(s)) && k < TOP && a % Size(k) == 0
    requires Has(Own(s), Buddy(a, k), k, Free) && h != Free
    ensures var g := Taken(s.region, Buddy(a, k), k, Hand(u)); Canonical(Merge(g.own, a, k, h))
  {
    hide Shaped, OrdersOk, FreeAgree, Tiled, HandsOk, TagsOk, PcOk, Taken, Canonical, Rehold, Merge, Buddy;
    HandOnly(s, u, a, k);
    var b := Buddy(a, k);
    BlockFacts(s.region, b, k, Free);
    TakenOwn(s.region, b, k, Hand(u));
    TakenCanonical(Own(s), b, k, Free, Hand(u));
    ReholdTiles(Own(s), b, k, Free, Hand(u));
    BuddyStays(Own(s), a, k, Hand(u), Hand(u));
    MergeFree(Rehold(Own(s), b, k, Hand(u)), a, k, Hand(u), Hand(u), h);
  }

  lemma FreeCanonical(s: State, u: nat, a: nat, k: nat)
    requires Inv(s) && u < |s.threads| && s.threads[u] == Freeing(a, k) && Canonical(Own(s))
    ensures Canonical(Own(FreeStep(s, u, a, k)))
  {
    hide Inv, Canonical, Taken, Merge, Buddy, BitAt;
    assert Holds(s.threads[u], a, k);
    if k < TOP && a % Size(k) == 0 && BitAt(s.region, Buddy(a, k), k) {
      BuddyTrue(s, u, a, k);
      AbsorbCanonical(s, u, a, k, Hand(u));
    }
  }

  lemma GrowCanonical(s: State, u: nat, a: nat, k: nat)
    requires Inv(s) && u < |s.threads| && s.threads[u] == Growing(a, k) && Canonical(Own(s))
    ensures Canonical(Own(GrowStep(s, u, a, k)))
  {
    hide Shaped, OrdersOk, FreeAgree, Tiled, HandsOk, TagsOk, PcOk, Canonical, Taken, Merge, Buddy, BitAt, Rehold;
    assert Holds(s.threads[u], a, k);
    HandOnly(s, u, a, k);
    if k < TOP && a % Size(k) == 0 && a < Buddy(a, k) && BitAt(s.region, Buddy(a, k), k) {
      BuddyTrue(s, u, a, k);
      AbsorbCanonical(s, u, a, k, Live);
    } else {
      TakenCanonical(Own(s), a, k, Hand(u), Live);
    }
  }

  lemma StartCanonical(s: State, u: nat, a: nat, k: nat)
    requires Inv(s) && Has(Own(s), a, k, Live) && Canonical(Own(s))
    ensures Canonical(Rehold(Own(s), a, k, Hand(u)))
  {
    hide Shaped, OrdersOk, FreeAgree, Tiled, HandsOk, TagsOk, PcOk, Canonical, Rehold;
    TakenCanonical(Own(s), a, k, Live, Hand(u));
  }

  lemma PlacingAligned(s: State, u: nat)
    requires Inv(s) && u < |s.threads| && s.threads[u].Placing?
    ensures s.threads[u].a % Size(s.threads[u].k) == 0
  {
    hide Inv;
    assert Holds(s.threads[u], s.threads[u].a, s.threads[u].k);
    HandOnly(s, u, s.threads[u].a, s.threads[u].k);
  }

  /** Every step of the machine keeps a canonical region canonical, if and only if it does not push a block whose buddy
      is free. */
  lemma StepCanonical(s: State, u: nat, act: Action)
    requires Inv(s) && Enabled(s, u, act) && Canonical(Own(s))
    ensures Canonical(Own(Fire(s, u, act))) <==> !Misses(s, u, act)
  {
    hide Inv, Canonical, ScanStep, SplitStep, FreeStep, PlaceStep, GrowStep, Has, Buddy, Rehold;
    match act
    case Go(stamp) =>
      match s.threads[u] {
        case Idle =>
        case Load(k) =>
        case Scan(k, j, seen) => ScanCanonical(s, u, k, j, seen);
        case Split(k, j, a, life, tag) => SplitCanonical(s, u, k, j, a, life, tag);
        case Freeing(a, k) => FreeCanonical(s, u, a, k);
        case Placing(a, k) =>
          PlacingAligned(s, u);
          PlaceCanonical(s, u, a, k, stamp);
        case Growing(a, k) => GrowCanonical(s, u, a, k);
      }
    case StartAlloc(k) =>
    case StartFree(a, k) => StartCanonical(s, u, a, k);
    case StartGrow(a, k) => StartCanonical(s, u, a, k);
    case ClientWrite(x, rec) =>
    case TrimOrder(k, chosen, refused, stamp) =>
  }

  /** Every state of the run is canonical. */
  ghost predicate AlwaysCanonical(s: State, run: seq<Event>)
    requires Possible(s, run)
    decreases |run|
  {
    Canonical(Own(s)) && (run != [] ==> AlwaysCanonical(Fire(s, run[0].thread, run[0].action), run[1..]))
  }

  /** Some step of the run pushes a block whose buddy is free. */
  ghost predicate EverMisses(s: State, run: seq<Event>)
    requires Possible(s, run)
    decreases |run|
  {
    run != [] && (Misses(s, run[0].thread, run[0].action) || EverMisses(Fire(s, run[0].thread, run[0].action), run[1..]))
  }

  /** A run from a canonical state stays canonical throughout, if and only if no free misses its buddy. */
  lemma {:induction false} RunCanonical(s: State, run: seq<Event>)
    requires Inv(s) && Possible(s, run) && Canonical(Own(s))
    ensures AlwaysCanonical(s, run) <==> !EverMisses(s, run)
    decreases |run|
  {
    hide Inv, Fire, Enabled, Canonical, Misses;
    if run != [] {
      var s' := Fire(s, run[0].thread, run[0].action);
      StepCanonical(s, run[0].thread, run[0].action);
      StepKeeps(s, run[0].thread, run[0].action);
      if !Misses(s, run[0].thread, run[0].action) {
        RunCanonical(s', run[1..]);
      } else {
        FirstCanonical(s', run[1..]);
      }
    }
  }

  lemma FirstCanonical(s: State, run: seq<Event>)
    requires Possible(s, run)
    ensures AlwaysCanonical(s, run) ==> Canonical(Own(s))
  {
  }

  /** In particular for every run from a fresh region. */
  lemma FreshRunCanonical(start: State, run: seq<Event>)
    requires Initial(start) && Possible(start, run)
    ensures AlwaysCanonical(start, run) <==> !EverMisses(start, run)
  {
    hide RegionOk, Possible, Canonical, Fresh, AlwaysCanonical, EverMisses;
    InitialInv(start);
    FreshStart(start);
    RunCanonical(start, run);
  }

  lemma FreshStart(start: State)
    requires Initial(start)
    ensures Canonical(Own(start))
  {
    hide Shaped, OrdersOk, FreeAgree, Fresh, TiledIn;
    FreshTiles(|Own(start)|);
  }
}
