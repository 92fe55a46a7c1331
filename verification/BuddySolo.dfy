/** Operations of the buddy machine that nothing else runs into. */
module BuddySolo {
  import opened BuddyTiles
  import opened BuddyLists
  import opened DoublyLinked
  import opened BuddyRegion
  import opened BuddySpace
  import opened BuddyMarks
  import opened BuddyMachine
  import opened BuddySafety
  import opened BuddySteps
  import opened BuddyRun
  import opened BuddyCanonical

  // ----- frees that do not overlap -----

  ghost predicate Frees(pc: Pc) { pc.Freeing? || pc.Placing? }

  /** While a thread frees, all others are idle. */
  ghost predicate FreesAlone(s: State) {
    forall u: nat, t: nat :: u < |s.threads| && t < |s.threads| && u != t && Frees(s.threads[u]) ==> s.threads[t].Idle?
  }

  /** In every state of the run. */
  ghost predicate NeverOverlaps(s: State, run: seq<Event>)
    requires Possible(s, run)
    decreases |run|
  {
    FreesAlone(s) && (run != [] ==> NeverOverlaps(Fire(s, run[0].thread, run[0].action), run[1..]))
  }

  /** A block about to be pushed has no free buddy. */
  ghost predicate PlacesRight(s: State) {
    forall u: nat :: u < |s.threads| && s.threads[u].Placing? ==> NoBuddy(Own(s), s.threads[u].a, s.threads[u].k)
  }

  ghost predicate NoBuddy(own: seq<Piece>, a: nat, k: nat) { k < TOP && a % Size(k) == 0 ==> !Has(own, Buddy(a, k), k, Free) }

  lemma PlacingFrom(s: State, u: nat, act: Action)
    requires Inv(s) && Enabled(s, u, act) && PlacesRight(s)
    ensures var s' := Fire(s, u, act); u < |s'.threads| && (s'.threads[u].Placing? ==> NoBuddy(Own(s'), s'.threads[u].a, s'.threads[u].k))
  {
    hide Inv, ScanStep, SplitStep, PlaceStep, GrowStep, Has, Buddy, Trimmed, BitAt, Taken, Merge, PlacesRight, Rehold;
    Length(s, u, act);
    Placers(s, u, act);
    if act.Go? && s.threads[u].Freeing? {
      var a, k := s.threads[u].a, s.threads[u].k;
      assert Holds(s.threads[u], a, k);
      if k < TOP && a % Size(k) == 0 {
        BuddyTrue(s, u, a, k);
      }
    } else if Fire(s, u, act).threads[u].Placing? {
      AlreadyPlacing(s, u);
    }
  }

  lemma AlreadyPlacing(s: State, u: nat)
    requires PlacesRight(s) && u < |s.threads| && s.threads[u].Placing?
    ensures NoBuddy(Own(s), s.threads[u].a, s.threads[u].k)
  {
  }

  lemma Length(s: State, u: nat, act: Action)
    requires Enabled(s, u, act)
    ensures var s' := Fire(s, u, act); |s'.threads| == |s.threads| && forall t: nat :: t < |s.threads| && t != u ==> s'.threads[t] == s.threads[t]
  {
    hide Has, Buddy, Trimmed, BitAt, Taken, Given, Merge, Rehold, Halve, Unmarked;
  }

  /** Only a step of free leads to a push; anything else that leaves a thread there leaves the cut alone. */
  lemma Placers(s: State, u: nat, act: Action)
    requires Enabled(s, u, act)
    ensures
      var s' := Fire(s, u, act);
      u < |s'.threads| && s'.threads[u].Placing? && !(act.Go? && s.threads[u].Freeing?) ==> s'.threads[u] == s.threads[u] && Own(s') == Own(s)
  {
    hide Has, Buddy, BitAt, Taken, Given, Merge, Rehold, Halve, Unmarked;
  }

  /** A thread that is idle before and after its step has not changed the cut. */
  lemma IdleStep(s: State, u: nat, act: Action)
    requires Enabled(s, u, act) && s.threads[u].Idle?
    ensures var s' := Fire(s, u, act); u < |s'.threads| && (s'.threads[u].Idle? ==> Own(s') == Own(s))
  {
    hide Rehold;
  }

  lemma AloneStep(s: State, u: nat, act: Action)
    requires Inv(s) && Enabled(s, u, act) && PlacesRight(s) && FreesAlone(s) && FreesAlone(Fire(s, u, act))
    ensures PlacesRight(Fire(s, u, act)) && !Misses(s, u, act)
  {
    hide Inv, Fire, NoBuddy, Has, Buddy;
    var s' := Fire(s, u, act);
    Length(s, u, act);
    PlacingFrom(s, u, act);
    forall t: nat | t < |s'.threads| && s'.threads[t].Placing?
      ensures NoBuddy(Own(s'), s'.threads[t].a, s'.threads[t].k)
    {
      if t != u {
        assert Frees(s.threads[t]) && Frees(s'.threads[t]);
        IdleStep(s, u, act);
        AlreadyPlacing(s, t);
      }
    }
    if act.Go? && s.threads[u].Placing? {
      AlreadyPlacing(s, u);
      NotMissed(s, u, act);
    }
  }

  lemma NotMissed(s: State, u: nat, act: Action)
    requires Enabled(s, u, act) && act.Go? && s.threads[u].Placing? && NoBuddy(Own(s), s.threads[u].a, s.threads[u].k)
    ensures !Misses(s, u, act)
  {
  }

  /** If no free overlaps another operation, no free misses its buddy. */
  lemma {:induction false} AloneNeverMisses(s: State, run: seq<Event>)
    requires Inv(s) && Possible(s, run) && PlacesRight(s) && NeverOverlaps(s, run)
    ensures !EverMisses(s, run)
    decreases |run|
  {
    hide Inv, Fire, Enabled, PlacesRight, FreesAlone, Misses;
    if run != [] {
      var u, act := run[0].thread, run[0].action;
      OverlapsNot(Fire(s, u, act), run[1..]);
      AloneStep(s, u, act);
      StepKeeps(s, u, act);
      AloneNeverMisses(Fire(s, u, act), run[1..]);
    }
  }

  lemma OverlapsNot(s: State, run: seq<Event>)
    requires Possible(s, run) && NeverOverlaps(s, run)
    ensures FreesAlone(s)
  {
  }

  /** A run from a fresh region in which no free overlaps another operation is canonical throughout. */
  lemma AloneCanonical(start: State, run: seq<Event>)
    requires Initial(start) && Possible(start, run) && NeverOverlaps(start, run)
    ensures AlwaysCanonical(start, run) && Canonical(Own(End(start, run)))
  {
    hide RegionOk, Possible, Canonical, Fresh, AlwaysCanonical, EverMisses, NeverOverlaps, End;
    InitialInv(start);
    assert PlacesRight(start);
    AloneNeverMisses(start, run);
    FreshRunCanonical(start, run);
    LastCanonical(start, run);
  }

  lemma {:induction false} LastCanonical(s: State, run: seq<Event>)
    requires Possible(s, run) && AlwaysCanonical(s, run)
    ensures Canonical(Own(End(s, run)))
    decreases |run|
  {
    hide Fire, Enabled, Canonical;
    if run != [] {
      LastCanonical(Fire(s, run[0].thread, run[0].action), run[1..]);
    }
  }

  // ----- growth -----

  /** try_grow_inplace that runs alone succeeds exactly if the buddy lies above and is free. */
  lemma SoloGrow(s: State, u: nat, a: nat, k: nat, stamp: nat)
    requires Inv(s) && Enabled(s, u, StartGrow(a, k))
    ensures
      var s1 := Fire(s, u, StartGrow(a, k));
      && Enabled(s1, u, Go(stamp))
      && var s2 := Fire(s1, u, Go(stamp));
         && s2.threads == s.threads && MarksKept(s.region.lists.records, s2.region.lists.records, 0, 0)
         && if k < TOP && a % Size(k) == 0 && a < Buddy(a, k) && Has(Own(s), Buddy(a, k), k, Free)
         then Has(Own(s2), a, k + 1, Live) && CutKept(Own(s), Own(s2), a, a + Size(k + 1))
         else Own(s2) == Own(s)
  {
    hide Inv, Taken, Merge, BitAt, Buddy, Rehold, CutKept, MarksKept;
    NoneMarked(s.region.lists.records);
    var s1 := Fire(s, u, StartGrow(a, k));
    StepKeeps(s, u, StartGrow(a, k));
    assert Holds(s1.threads[u], a, k);
    InvTiled(s);
    Reheld(Own(s), a, k, u);
    if k < TOP && a % Size(k) == 0 {
      BuddyTrue(s1, u, a, k);
      OneHolder(Own(s), a, k, Live, Hand(u), Buddy(a, k), k);
      BuddyFacts(a, k);
      if a < Buddy(a, k) && BitAt(s1.region, Buddy(a, k), k) {
        InvTiled(s1);
        GrownOwn(s1, u, a, k);
        GrownCut(Own(s), a, k, u);
      }
    }
  }

  lemma InvTiled(s: State)
    requires Inv(s)
    ensures Tiled(Own(s)) && RegionOk(s.region)
  {
  }

  lemma Reheld(own: seq<Piece>, a: nat, k: nat, u: nat)
    requires Tiled(own) && Has(own, a, k, Live)
    ensures Rehold(Rehold(own, a, k, Hand(u)), a, k, Live) == own
  {
    hide Tiled;
    OnePiece(own, a, k, Live);
  }

  lemma GrownOwn(s: State, u: nat, a: nat, k: nat)
    requires Inv(s) && u < |s.threads| && k < TOP && a % Size(k) == 0 && Has(Own(s), Buddy(a, k), k, Free)
    ensures
      var g := Taken(s.region, Buddy(a, k), k, Hand(u));
      g.own == Rehold(Own(s), Buddy(a, k), k, Hand(u)) && MarksKept(s.region.lists.records, g.lists.records, 0, 0)
  {
    hide RegionOk, HandsOk, TagsOk, PcOk, Taken, Buddy, Rehold, MarksKept;
    BlockFacts(s.region, Buddy(a, k), k, Free);
    TakenOwn(s.region, Buddy(a, k), k, Hand(u));
    TakenMarks(s.region, Buddy(a, k), k, Hand(u));
  }

  lemma TakenMarks(g: Region, a: nat, k: nat, h: Holder)
    requires InBounds(g, a, k)
    ensures MarksKept(g.lists.records, Taken(g, a, k, h).lists.records, 0, 0)
  {
    RemoveMarks(g.lists, k, a);
  }

  lemma GrownCut(own: seq<Piece>, a: nat, k: nat, u: nat)
    requires Tiled(own) && Has(own, a, k, Live) && k < TOP && a % Size(k) == 0 && a < Buddy(a, k) && Has(own, Buddy(a, k), k, Free)
    ensures
      var own' := Merge(Rehold(Rehold(own, a, k, Hand(u)), Buddy(a, k), k, Hand(u)), a, k, Live);
      Has(own', a, k + 1, Live) && CutKept(own, own', a, a + Size(k + 1))
  {
    hide Tiled;
    OnePiece(own, a, k, Live);
    OnePiece(own, Buddy(a, k), k, Free);
  }

  // ----- one thread alone -----

  /** The thread takes `n` steps and nobody else any. */
  ghost function Goes(s: State, u: nat, n: nat, stamp: nat): State
    decreases n
  {
    if n == 0 || u >= |s.threads| then s else Goes(Advance(s, u, stamp), u, n - 1, stamp)
  }

  lemma GoesOne(s: State, u: nat, stamp: nat)
    requires u < |s.threads|
    ensures Goes(s, u, 1, stamp) == Advance(s, u, stamp)
  {
  }

  lemma GoesFirst(s: State, u: nat, n: nat, stamp: nat)
    requires u < |s.threads|
    ensures Goes(s, u, n + 1, stamp) == Goes(Advance(s, u, stamp), u, n, stamp)
  {
  }

  // ----- free -----

  /** A free that runs alone from a canonical region undoes the grant and tags the block, as the sequential one does. */
  lemma SoloFree(s: State, u: nat, a: nat, k: nat, stamp: nat) returns (n: nat)
    requires Inv(s) && Enabled(s, u, StartFree(a, k)) && Canonical(Own(s))
    ensures
      var s' := Goes(Fire(s, u, StartFree(a, k)), u, n, stamp);
      && u < |s'.threads| && s'.threads[u] == Idle && Inv(s')
      && Canonical(Own(s')) && Granted(Own(s'), Own(s), a, k, Live) && WasFreed(s.region, s'.region, a, k, stamp)
  {
    hide Inv, Canonical, Granted, Rehold, Goes, MarksKept, WasFreed;
    var s1 := Fire(s, u, StartFree(a, k));
    NoneMarked(s.region.lists.records);
    StepKeeps(s, u, StartFree(a, k));
    InvTiled(s);
    ReleaseStart(Own(s), a, k, Hand(u));
    StartCanonical(s, u, a, k);
    n := FreeLoop(s.region, s1, u, a, k, a, k, stamp);
  }

  lemma {:induction false} FreeLoop(was: Region, s: State, u: nat, a: nat, k: nat, cur: nat, j: nat, stamp: nat) returns (n: nat)
    requires Inv(s) && u < |s.threads| && s.threads[u] == Freeing(cur, j) && Canonical(Own(s))
    requires Tiled(was.own) && Released(was.own, Own(s), a, k, cur, j, Hand(u)) && MarksKept(was.lists.records, s.region.lists.records, 0, 0)
    ensures
      var s' := Goes(s, u, n, stamp);
      && u < |s'.threads| && s'.threads[u] == Idle && Inv(s')
      && Canonical(Own(s')) && Granted(Own(s'), was.own, a, k, Live) && WasFreed(was, s'.region, a, k, stamp)
    decreases TOP - j
  {
    hide Inv, Canonical, Granted, Released, Goes, Has, Buddy, Taken, Merge, Rehold, BitAt, Given, MarksKept, WasFreed;
    var s1 := Advance(s, u, stamp);
    assert Holds(s.threads[u], cur, j);
    HandOnly(s, u, cur, j);
    StepKeeps(s, u, Go(stamp));
    FreeCanonical(s, u, cur, j);
    if j < TOP && BitAt(s.region, Buddy(cur, j), j) {
      BuddyTrue(s, u, cur, j);
      InvTiled(s);
      ReleaseMore(was.own, Own(s), a, k, cur, j, Hand(u));
      GrownOwn(s, u, cur, j);
      KeptFurther(was.lists.records, s.region.lists.records, s1.region.lists.records, 0, 0, 0, 0);
      var m := FreeLoop(was, s1, u, a, k, Lower(cur, j), j + 1, stamp);
      GoesFirst(s, u, m, stamp);
      n := m + 1;
    } else {
      n := Placed(was, s, u, a, k, cur, j, stamp);
    }
  }

  lemma Placed(was: Region, s: State, u: nat, a: nat, k: nat, cur: nat, j: nat, stamp: nat) returns (n: nat)
    requires Inv(s) && u < |s.threads| && s.threads[u] == Freeing(cur, j) && Canonical(Own(s)) && cur % Size(j) == 0
    requires Tiled(was.own) && Released(was.own, Own(s), a, k, cur, j, Hand(u)) && !(j < TOP && BitAt(s.region, Buddy(cur, j), j))
    requires MarksKept(was.lists.records, s.region.lists.records, 0, 0)
    ensures
      var s' := Goes(s, u, n, stamp);
      && u < |s'.threads| && s'.threads[u] == Idle && Inv(s')
      && Canonical(Own(s')) && Granted(Own(s'), was.own, a, k, Live) && WasFreed(was, s'.region, a, k, stamp)
  {
    hide Inv, Canonical, Granted, Released, Goes, Has, Buddy, Taken, Merge, Rehold, BitAt, Given, MarksKept, WasFreed;
    var s1 := Advance(s, u, stamp);
    var s2 := Advance(s1, u, stamp);
    assert Holds(s.threads[u], cur, j);
    HandOnly(s, u, cur, j);
    StepKeeps(s, u, Go(stamp));
    StepKeeps(s1, u, Go(stamp));
    InvTiled(s);
    if j < TOP {
      BuddyTrue(s, u, cur, j);
    }
    GivenCanonical(Own(s), cur, j, Hand(u));
    ReleaseDone(was.own, Own(s), a, k, cur, j, Hand(u));
    BlockFacts(s.region, cur, j, Hand(u));
    GivenOwn(s.region, cur, j, stamp, ALLOCATED);
    GivenMarks(s.region, cur, j, stamp, ALLOCATED);
    Freed(was, s.region, s2.region, a, k, cur, j, Hand(u), stamp);
    FreedSomewhere(was, s2.region, a, k, cur, j, stamp);
    GoesOne(s1, u, stamp);
    GoesFirst(s, u, 1, stamp);
    n := 2;
  }

  lemma FreedSomewhere(was: Region, now: Region, a: nat, k: nat, cur: nat, j: nat, stamp: nat)
    requires FreedInto(was, now, a, k, cur, j, stamp)
    ensures WasFreed(was, now, a, k, stamp)
  {
  }

  // ----- alloc -----

  ghost predicate NothingFits(own: seq<Piece>, k: nat) { forall a: nat, j: nat :: k <= j <= TOP ==> !Has(own, a, j, Free) }

  /** What an allocation that runs alone leaves: nothing if nothing fits, else a block cut from the first of the smallest
      free blocks that are large enough, with what is left of it tagged as it was. */
  ghost predicate AllocDone(s: State, s': State, u: nat, k: nat) {
    && u < |s'.threads| && s'.threads[u] == Idle && Inv(s') && Canonical(Own(s'))
    && if NothingFits(Own(s), k) then s'.region == s.region
       else exists a :: WasCut(s.region, s'.region, a, k) && Granted(Own(s), Own(s'), a, k, Live)
  }

  lemma SoloAlloc(s: State, u: nat, k: nat, stamp: nat) returns (n: nat)
    requires Inv(s) && Enabled(s, u, StartAlloc(k)) && Canonical(Own(s))
    ensures AllocDone(s, Goes(Fire(s, u, StartAlloc(k)), u, n, stamp), u, k)
  {
    hide Inv, Canonical, Granted, Goes, Has, AllocDone;
    var s1 := Fire(s, u, StartAlloc(k));
    StepKeeps(s, u, StartAlloc(k));
    var s2 := Advance(s1, u, stamp);
    StepKeeps(s1, u, Go(stamp));
    if k > TOP {
      n := 1;
      GoesOne(s1, u, stamp);
      TooLarge(s, s2, u, k);
    } else {
      var m := ScanLoop(s, s2, u, k, k, stamp);
      GoesFirst(s1, u, m, stamp);
      n := m + 1;
    }
  }

  lemma TooLarge(s: State, s': State, u: nat, k: nat)
    requires k > TOP && u < |s'.threads| && s'.threads[u] == Idle && Inv(s') && Canonical(Own(s')) && s'.region == s.region
    ensures AllocDone(s, s', u, k)
  {
    hide Inv, Canonical;
  }

  lemma {:induction false} ScanLoop(was: State, s: State, u: nat, k: nat, j: nat, stamp: nat) returns (n: nat)
    requires Inv(s) && Canonical(Own(s)) && u < |s.threads| && k <= j <= TOP + 1 && s.region == was.region
    requires s.threads[u] == Scan(k, j, s.region.lists.mask) && forall i: nat :: k <= i < j && i < |s.region.free| ==> s.region.free[i] == []
    ensures AllocDone(was, Goes(s, u, n, stamp), u, k)
    decreases TOP + 1 - j
  {
    hide Inv, Canonical, Granted, Goes, Has, AllocDone, Taken, Carved, CutKept, MarksKept, MarkedIn;
    var s1 := Advance(s, u, stamp);
    StepKeeps(s, u, Go(stamp));
    InvTiled(s);
    ScanCanonical(s, u, k, j, s.region.lists.mask);
    Sizes(s.region);
    if j > TOP {
      n := 1;
      GoesOne(s, u, stamp);
      NothingFree(s.region, k);
      NoneDone(was, s1, u, k);
    } else {
      EmptyOrder(s.region, j);
      if !SeenAt(s.region.lists.mask, j) || HeadAt(s.region, j) < 0 {
        NegativeHead(s.region, j);
        if SeenAt(s.region.lists.mask, j) {
          UnmarkedSame(s.region, j);
        }
        var m := ScanLoop(was, s1, u, k, j + 1, stamp);
        GoesFirst(s, u, m, stamp);
        n := m + 1;
      } else {
        var a := HeadAt(s.region, j);
        FirstFree(s.region, j);
        NothingSmaller(s.region, a, k, j);
        BlockFacts(s.region, a, j, Free);
        TakenOwn(s.region, a, j, Hand(u));
        GrantStart(Own(s), a, j, Hand(u));
        assert Holds(s1.threads[u], a, j);
        HandOnly(s1, u, a, j);
        InvTiled(s1);
        CarveFrom(s1.region, a, j, RecordAt(s.region, a).data, Hand(u));
        var m := SplitLoop(Own(s), s1.region, s1, u, k, j, j, a, stamp);
        GoesFirst(s, u, m, stamp);
        n := m + 1;
        TakenWhole(Own(s), a, j, Hand(u));
        TakenMarks(s.region, a, j, Hand(u));
        Cut(was, s1.region, Goes(s, u, n, stamp), u, k, a, j);
      }
    }
  }

  lemma Sizes(g: Region)
    requires RegionOk(g)
    ensures |g.lists.heads| == TOP + 1 && |g.lists.mask| == TOP + 1 && |g.free| == TOP + 1
  {
  }

  lemma NegativeHead(g: Region, j: nat)
    requires RegionOk(g) && j <= TOP && j < |g.lists.heads|
    ensures g.lists.heads[j] < 0 ==> g.lists.heads[j] == NIL
  {
    hide Tiled, FreeAgree;
    assert OrderOk(g.lists, j, g.free[j], |g.own|);
  }

  lemma NoneDone(s: State, s': State, u: nat, k: nat)
    requires NothingFits(Own(s), k) && u < |s'.threads| && s'.threads[u] == Idle && Inv(s') && Canonical(Own(s')) && s'.region == s.region
    ensures AllocDone(s, s', u, k)
  {
    hide Inv, Canonical;
  }

  lemma Cut(s: State, g: Region, s': State, u: nat, k: nat, a: nat, j: nat)
    requires u < |s'.threads| && s'.threads[u] == Idle && Inv(s') && Canonical(Own(s'))
    requires SmallestFit(Own(s), a, k, j) && j < |s.region.lists.heads| && s.region.lists.heads[j] == a && a in s.region.lists.records
    requires Granted(Own(s), Own(s'), a, k, Live) && CutKept(Own(s), g.own, a, a + Size(j)) && MarksKept(s.region.lists.records, g.lists.records, 0, 0)
    requires CutKept(g.own, Own(s'), a, a + Size(j)) && MarksKept(g.lists.records, s'.region.lists.records, a, a + Size(j))
    requires MarkedIn(s'.region.lists.records, Own(s'), a, a + Size(j), s.region.lists.records[a].data)
    ensures AllocDone(s, s', u, k)
  {
    hide Inv, Canonical, Granted, CutKept, MarksKept, MarkedIn;
    assert Has(Own(s), a, j, Free);
    AllKept(s.region.lists.records, g.lists.records, a, a + Size(j));
    CutFurther(Own(s), g.own, Own(s'), a, a + Size(j), a, a + Size(j));
    KeptFurther(s.region.lists.records, g.lists.records, s'.region.lists.records, a, a + Size(j), a, a + Size(j));
    assert CutFrom(s.region, s'.region, a, k, j);
  }

  lemma {:induction false} SplitLoop(was: seq<Piece>, g: Region, s: State, u: nat, k: nat, j: nat, top: nat, a: nat, stamp: nat) returns (n: nat)
    requires Inv(s) && Canonical(Own(s)) && u < |s.threads| && s.threads[u].Split? && k <= j <= top <= TOP
    requires s.threads[u] == Split(k, j, a, s.threads[u].life, s.threads[u].tag) && Granted(was, Own(s), a, j, Hand(u))
    requires Carved(g, s.region, a, j, top, Mark(s.threads[u].life, s.threads[u].tag))
    ensures
      var s' := Goes(s, u, n, stamp);
      && u < |s'.threads| && s'.threads[u] == Idle && Inv(s') && Canonical(Own(s')) && Granted(was, Own(s'), a, k, Live)
      && CutKept(g.own, Own(s'), a, a + Size(top)) && MarksKept(g.lists.records, s'.region.lists.records, a, a + Size(top))
      && MarkedIn(s'.region.lists.records, Own(s'), a, a + Size(top), Mark(s.threads[u].life, s.threads[u].tag))
    decreases j
  {
    hide Inv, Canonical, Granted, Goes, Has, Given, Halve, Rehold, CutKept, MarksKept, MarkedIn, Carved;
    var life, tag := s.threads[u].life, s.threads[u].tag;
    var s1 := Advance(s, u, stamp);
    StepKeeps(s, u, Go(stamp));
    SplitCanonical(s, u, k, j, a, life, tag);
    assert Holds(s.threads[u], a, j);
    HandOnly(s, u, a, j);
    InvTiled(s);
    if j > k {
      HalfPushed(was, g, s, s1, u, j, top, a, life, tag);
      var m := SplitLoop(was, g, s1, u, k, j - 1, top, a, stamp);
      GoesFirst(s, u, m, stamp);
      n := m + 1;
    } else {
      GrantOver(was, Own(s), a, j, Hand(u), Live);
      LastCut(g, s.region, a, j, top, Mark(life, tag), Hand(u));
      GoesOne(s, u, stamp);
      n := 1;
    }
  }

  lemma HalfPushed(was: seq<Piece>, g: Region, s: State, s1: State, u: nat, j: nat, top: nat, a: nat, life: nat, tag: nat)
    requires RegionOk(s.region) && Tiled(Own(s)) && Has(Own(s), a, j, Hand(u)) && 0 < j <= top <= TOP
    requires Granted(was, Own(s), a, j, Hand(u)) && Carved(g, s.region, a, j, top, Mark(life, tag))
    requires s1.region == Given(Recut(s.region, Halve(Own(s), a, j, Hand(u))), a + Size(j - 1), j - 1, life, tag)
    ensures Granted(was, Own(s1), a, j - 1, Hand(u)) && Carved(g, s1.region, a, j - 1, top, Mark(life, tag))
  {
    hide RegionOk, Granted, Has, Given, Halve, Rehold, MarksKept, Carved, Tiled;
    var h := Recut(s.region, Halve(Own(s), a, j, Hand(u)));
    HalveOk(s.region, a, j, Hand(u));
    HalveTiles(Own(s), a, j, Hand(u));
    BlockFacts(h, a + Size(j - 1), j - 1, Hand(u));
    GivenOwn(h, a + Size(j - 1), j - 1, life, tag);
    GivenMarks(h, a + Size(j - 1), j - 1, life, tag);
    GrantHalf(was, Own(s), a, j, Hand(u));
    CarveMore(g, s.region, s1.region, a, j, top, Mark(life, tag), Hand(u));
  }

  lemma LastCut(g: Region, g': Region, a: nat, k: nat, top: nat, mark: Mark, h: Holder)
    requires Carved(g, g', a, k, top, mark) && Tiled(g'.own) && Has(g'.own, a, k, h) && h != Free && k <= top <= TOP
    ensures
      var own' := Rehold(g'.own, a, k, Live);
      CutKept(g.own, own', a, a + Size(top)) && MarkedIn(g'.lists.records, own', a, a + Size(top), mark)
    ensures MarksKept(g.lists.records, g'.lists.records, a, a + Size(top))
  {
    hide Tiled, Has, Rehold, CutKept, MarksKept, MarkedIn;
    HandedOver(g'.own, g'.lists.records, a, k, top, mark, h);
    CutFurther(g.own, g'.own, Rehold(g'.own, a, k, Live), a, a + Size(top), a, a + Size(top));
  }
}
