/** Whole runs of the buddy machine. */
module BuddyRun {
  import opened BuddyTiles
  import opened BuddyLists
  import opened DoublyLinked
  import opened BuddyRegion
  import opened BuddyMachine
  import opened BuddySafety
  import opened BuddySteps

  datatype Event = Event(thread: nat, action: Action)

  /** A fresh region: free blocks of the largest order, nothing handed out, records only at their starts. */
  ghost predicate Initial(s: State) {
    && RegionOk(s.region) && Own(s) == Fresh(|Own(s)|) && s.touched == {}
    && (forall x: nat :: x in s.stamped <==> x < |Own(s)| && x % Size(TOP) == 0)
    && (forall u :: 0 <= u < |s.threads| ==> s.threads[u] == Idle)
  }

  ghost predicate Possible(s: State, run: seq<Event>)
    decreases |run|
  {
    run != [] ==> Enabled(s, run[0].thread, run[0].action) && Possible(Fire(s, run[0].thread, run[0].action), run[1..])
  }

  ghost function End(s: State, run: seq<Event>): State
    requires Possible(s, run)
    decreases |run|
  {
    if run == [] then s else End(Fire(s, run[0].thread, run[0].action), run[1..])
  }

  ghost predicate ReachedBy(s: State, start: State, run: seq<Event>) {
    Initial(start) && Possible(start, run) && s == End(start, run)
  }

  ghost predicate Reachable(s: State) { exists start, run :: ReachedBy(s, start, run) }

  lemma InitialInv(s: State)
    requires Initial(s)
    ensures Inv(s)
  {
    hide RegionOk;
    forall a: nat, k: nat | Has(Own(s), a, k, Free)
      ensures Clean(a, k, s.touched, s.stamped)
    {
      assert Own(s)[a] == Piece(a - a % Size(TOP), TOP, Free);
    }
  }

  lemma {:induction false} RunKeeps(s: State, run: seq<Event>)
    requires Inv(s) && Possible(s, run)
    ensures Inv(End(s, run))
    decreases |run|
  {
    hide Inv, Fire, Enabled;
    if run != [] {
      StepKeeps(s, run[0].thread, run[0].action);
      RunKeeps(Fire(s, run[0].thread, run[0].action), run[1..]);
    }
  }

  lemma ReachableInv(s: State)
    requires Reachable(s)
    ensures Inv(s)
  {
    hide Inv, Initial;
    var start, run :| ReachedBy(s, start, run);
    InitialInv(start);
    RunKeeps(start, run);
  }

  // ----- free, live and in-transit blocks tile the region -----

  /** Every offset is in exactly one block, which is aligned and inside the region; a block in transit is the one its
      thread stands with, and every thread's block is in transit. */
  lemma BlocksTile(s: State, x: nat)
    requires Reachable(s) && x < |Own(s)|
    ensures
      var p := Own(s)[x];
      && p.order <= TOP && p.start % Size(p.order) == 0 && p.start + Size(p.order) <= |Own(s)| && Inside(p, x)
      && (forall a: nat, k: nat, h :: Has(Own(s), a, k, h) && a <= x < a + Size(k) ==> p == Piece(a, k, h))
      && (p.holder.Hand? ==> p.holder.thread < |s.threads| && Holds(s.threads[p.holder.thread], p.start, p.order))
    ensures forall u: nat, a, k :: u < |s.threads| && Holds(s.threads[u], a, k) ==> Has(Own(s), a, k, Hand(u))
  {
    hide Shaped, OrdersOk, FreeAgree, TagsOk, PcOk;
    ReachableInv(s);
    assert TileAt(Own(s), 0, |Own(s)|, x);
    forall a: nat, k: nat, h | Has(Own(s), a, k, h) && a <= x < a + Size(k)
      ensures Own(s)[x] == Piece(a, k, h)
    {
      OnePiece(Own(s), a, k, h);
    }
  }

  /** Between lock sections, the doubly linked list, the bitmap and the mask bit of an order describe the same set: its
      free blocks. */
  lemma OrdersAgree(s: State, k: nat) returns (xs: seq<nat>)
    requires Reachable(s) && k <= TOP
    ensures OrderOk(s.region.lists, k, xs, |Own(s)|)
    ensures forall a: nat :: a in xs <==> Has(Own(s), a, k, Free)
  {
    hide Shaped, Tiled, TagsOk, PcOk, HandsOk, Links;
    ReachableInv(s);
    xs := s.region.free[k];
    assert OrderOk(s.region.lists, k, xs, |Own(s)|);
    assert forall a: nat :: a in s.region.free[k] <==> Has(Own(s), a, k, Free);
  }

  // ----- never-allocated tags -----

  /** A client has the offset, possibly while a thread tries to grow its block. */
  ghost predicate InUse(s: State, x: nat) {
    && x < |Own(s)|
    && (Own(s)[x].holder == Live
        || (Own(s)[x].holder.Hand? && Own(s)[x].holder.thread < |s.threads| && s.threads[Own(s)[x].holder.thread].Growing?))
  }

  ghost predicate UseOk(s: State, s': State, x: nat) {
    s.touched <= s'.touched && (InUse(s', x) && x !in s'.touched ==> InUse(s, x))
  }

  lemma ScanUse(s: State, u: nat, k: nat, j: nat, seen: seq<bool>, x: nat)
    requires u < |s.threads| && s.threads[u] == Scan(k, j, seen)
    ensures UseOk(s, ScanStep(s, u, k, j, seen), x)
  {
  }

  lemma SplitUse(s: State, u: nat, k: nat, j: nat, a: nat, life: nat, tag: nat, x: nat)
    requires u < |s.threads| && s.threads[u] == Split(k, j, a, life, tag)
    ensures UseOk(s, SplitStep(s, u, k, j, a, life, tag), x)
  {
  }

  lemma FreeUse(s: State, u: nat, a: nat, k: nat, x: nat)
    requires u < |s.threads| && s.threads[u] == Freeing(a, k)
    ensures UseOk(s, FreeStep(s, u, a, k), x)
  {
  }

  lemma PlaceUse(s: State, u: nat, a: nat, k: nat, stamp: nat, x: nat)
    requires u < |s.threads| && s.threads[u] == Placing(a, k)
    ensures UseOk(s, PlaceStep(s, u, a, k, stamp), x)
  {
  }

  lemma GrowUse(s: State, u: nat, a: nat, k: nat, x: nat)
    requires Inv(s) && u < |s.threads| && s.threads[u] == Growing(a, k)
    ensures UseOk(s, GrowStep(s, u, a, k), x)
  {
    hide Shaped, OrdersOk, FreeAgree, Tiled, Clean, HandsOk, TagsOk, PcOk;
    assert Holds(s.threads[u], a, k);
    HandOnly(s, u, a, k);
  }

  lemma StartUse(s: State, a: nat, k: nat)
    requires Inv(s) && Has(Own(s), a, k, Live)
    ensures forall x :: a <= x < a + Size(k) ==> x < |Own(s)| && Own(s)[x].holder == Live
  {
    hide Shaped, OrdersOk, FreeAgree, Tiled, HandsOk, TagsOk, PcOk;
    OnePiece(Own(s), a, k, Live);
  }

  lemma StepUse(s: State, u: nat, act: Action, x: nat)
    requires Inv(s) && Enabled(s, u, act)
    ensures UseOk(s, Fire(s, u, act), x)
  {
    hide Inv, ScanStep, SplitStep, FreeStep, PlaceStep, GrowStep;
    if act.Go? {
      match s.threads[u]
      case Idle =>
      case Load(k) =>
      case Scan(k, j, seen) => ScanUse(s, u, k, j, seen, x);
      case Split(k, j, a, life, tag) => SplitUse(s, u, k, j, a, life, tag, x);
      case Freeing(a, k) => FreeUse(s, u, a, k, x);
      case Placing(a, k) => PlaceUse(s, u, a, k, act.stamp, x);
      case Growing(a, k) => GrowUse(s, u, a, k, x);
    } else if act.StartGrow? {
      StartUse(s, act.a, act.k);
      HandNone(s, u);
    }
  }

  /** An offset that was in use at some point of the run. */
  ghost predicate EverUsed(s: State, run: seq<Event>, x: nat)
    requires Possible(s, run)
    decreases |run|
  {
    InUse(s, x) || (run != [] && EverUsed(Fire(s, run[0].thread, run[0].action), run[1..], x))
  }

  lemma {:induction false} UsedIsTouched(s: State, run: seq<Event>, x: nat)
    requires Inv(s) && Possible(s, run) && (InUse(s, x) ==> x in s.touched)
    ensures s.touched <= End(s, run).touched && (EverUsed(s, run, x) ==> x in End(s, run).touched)
    decreases |run|
  {
    hide Inv, Fire, Enabled, InUse;
    if run != [] {
      var s' := Fire(s, run[0].thread, run[0].action);
      StepUse(s, run[0].thread, run[0].action, x);
      StepKeeps(s, run[0].thread, run[0].action);
      UsedIsTouched(s', run[1..], x);
    }
  }

  // ----- every record write is in the history -----

  /** An allocator step changes what memory holds at the offset; a client's own writes are not meant. */
  ghost predicate Writes(s: State, u: nat, act: Action, x: nat)
    requires Enabled(s, u, act)
  {
    !act.ClientWrite? && RecordAt(Fire(s, u, act).region, x) != RecordAt(s.region, x)
  }

  lemma TakenWrites(g: Region, a: nat, k: nat, h: Holder, x: nat)
    ensures RecordAt(Taken(g, a, k, h), x) != RecordAt(g, x) ==> x in TakeWrites(g, a)
  {
  }

  lemma GivenWrites(g: Region, a: nat, k: nat, life: nat, tag: nat, x: nat)
    ensures RecordAt(Given(g, a, k, life, tag), x) != RecordAt(g, x) ==> x in PushWrites(g, k, a)
  {
  }

  lemma TrimmedWrites(g: Region, k: nat, chosen: set<nat>, refused: set<nat>, stamp: nat, x: nat)
    ensures RecordAt(Trimmed(g, k, chosen, refused, stamp), x) != RecordAt(g, x) ==> x in TrimWrites(g, k, chosen)
  {
  }

  /** Trimming an order re-tags exactly the chosen free blocks of that order that were in use, as trimmed where the system
      took the advice, and stamps them; every other free block keeps its data, and no block moves. */
  lemma TrimEffect(s: State, u: nat, k: nat, chosen: set<nat>, refused: set<nat>, stamp: nat, a: nat, j: nat)
    requires Inv(s) && Enabled(s, u, TrimOrder(k, chosen, refused, stamp)) && Has(Own(s), a, j, Free)
    ensures
      var s' := Fire(s, u, TrimOrder(k, chosen, refused, stamp));
      var was, now := RecordAt(s.region, a).data, RecordAt(s'.region, a).data;
      && Own(s') == Own(s)
      && now == if j == k && a in chosen && was.trimState == ALLOCATED then Mark(stamp, if a in refused then ALLOCATED else TRIMMED) else was
  {
    hide Shaped, OrdersOk, Tiled, HandsOk, TagsOk, PcOk;
    BlockFacts(s.region, a, j, Free);
    assert j <= TOP && a in s.region.free[j];
    if k <= TOP {
      assert a in s.region.free[k] <==> Has(Own(s), a, k, Free);
    }
  }

  ghost predicate StampOk(s: State, s': State, x: nat) {
    s.stamped <= s'.stamped && (RecordAt(s'.region, x) != RecordAt(s.region, x) ==> x in s'.stamped)
  }

  lemma ScanStamp(s: State, u: nat, k: nat, j: nat, seen: seq<bool>, x: nat)
    requires u < |s.threads|
    ensures StampOk(s, ScanStep(s, u, k, j, seen), x)
  {
    hide Taken, TakeWrites;
    if HeadAt(s.region, j) >= 0 {
      TakenWrites(s.region, HeadAt(s.region, j), j, Hand(u), x);
    }
  }

  lemma SplitStamp(s: State, u: nat, k: nat, j: nat, a: nat, life: nat, tag: nat, x: nat)
    requires u < |s.threads|
    ensures StampOk(s, SplitStep(s, u, k, j, a, life, tag), x)
  {
    hide Given;
    if j > k {
      GivenWrites(Recut(s.region, Halve(Own(s), a, j, Hand(u))), a + Size(j - 1), j - 1, life, tag, x);
    }
  }

  lemma AbsorbStamp(s: State, u: nat, a: nat, k: nat, x: nat)
    requires u < |s.threads|
    ensures StampOk(s, FreeStep(s, u, a, k), x) && StampOk(s, GrowStep(s, u, a, k), x)
  {
    hide Taken, TakeWrites, BitAt;
    if a % Size(k) == 0 {
      TakenWrites(s.region, Buddy(a, k), k, Hand(u), x);
    }
  }

  lemma StepStamp(s: State, u: nat, act: Action, x: nat)
    requires Enabled(s, u, act)
    ensures s.stamped <= Fire(s, u, act).stamped && (Writes(s, u, act, x) ==> x in Fire(s, u, act).stamped)
  {
    hide ScanStep, SplitStep, FreeStep, GrowStep, Given, Trimmed, RecordAt, PushWrites, TrimWrites;
    if act.Go? {
      match s.threads[u]
      case Idle =>
      case Load(k) =>
      case Scan(k, j, seen) => ScanStamp(s, u, k, j, seen, x);
      case Split(k, j, a, life, tag) => SplitStamp(s, u, k, j, a, life, tag, x);
      case Freeing(a, k) => AbsorbStamp(s, u, a, k, x);
      case Placing(a, k) => GivenWrites(s.region, a, k, act.stamp, ALLOCATED, x);
      case Growing(a, k) => AbsorbStamp(s, u, a, k, x);
    } else if act.TrimOrder? {
      TrimmedWrites(s.region, act.k, act.chosen, act.refused, act.stamp, x);
    } else {
      SameRecords(s, u, act, x);
    }
  }

  lemma SameRecords(s: State, u: nat, act: Action, x: nat)
    requires Enabled(s, u, act) && (act.StartAlloc? || act.StartFree? || act.StartGrow? || act.ClientWrite?)
    ensures Fire(s, u, act).stamped == s.stamped && !Writes(s, u, act, x)
  {
  }

  /** An offset where a step of the run wrote. */
  ghost predicate EverWritten(s: State, run: seq<Event>, x: nat)
    requires Possible(s, run)
    decreases |run|
  {
    && run != []
    && (Writes(s, run[0].thread, run[0].action, x) || EverWritten(Fire(s, run[0].thread, run[0].action), run[1..], x))
  }

  lemma {:induction false} WrittenIsStamped(s: State, run: seq<Event>, x: nat)
    requires Possible(s, run)
    ensures s.stamped <= End(s, run).stamped && (EverWritten(s, run, x) ==> x in End(s, run).stamped)
    decreases |run|
  {
    hide Fire, Enabled, Writes;
    if run != [] {
      StepStamp(s, run[0].thread, run[0].action, x);
      WrittenIsStamped(Fire(s, run[0].thread, run[0].action), run[1..], x);
    }
  }

  /** The offset was written when the region was made, or by an allocator step of the run. */
  ghost predicate Recorded(start: State, run: seq<Event>, x: nat)
    requires Possible(start, run)
  {
    (x < |Own(start)| && x % Size(TOP) == 0) || EverWritten(start, run, x)
  }

  lemma RecordedIsStamped(start: State, run: seq<Event>, x: nat)
    requires Initial(start) && Possible(start, run) && Recorded(start, run, x)
    ensures x in End(start, run).stamped
  {
    hide RegionOk, Possible, End, EverWritten;
    WrittenIsStamped(start, run, x);
  }

  /** The tag is sound: a free block tagged never allocated has met no block handed out at any time of the run, and
      nothing was written in it by the allocator except at its start. */
  lemma NeverAllocatedSound(start: State, run: seq<Event>, a: nat, k: nat, x: nat)
    requires Initial(start) && Possible(start, run)
    requires Has(Own(End(start, run)), a, k, Free) && RecordAt(End(start, run).region, a).data.trimState == NOT_ALLOCATED
    requires a <= x < a + Size(k)
    ensures !EverUsed(start, run, x) && (Recorded(start, run, x) ==> x == a)
  {
    hide RegionOk, HandsOk, PcOk, EverUsed, Possible, End, Recorded;
    InitialInv(start);
    RunKeeps(start, run);
    UsedIsTouched(start, run, x);
    if Recorded(start, run, x) {
      RecordedIsStamped(start, run, x);
    }
    assert Clean(a, k, End(start, run).touched, End(start, run).stamped);
  }

  /** The same for a block about to be handed out with that tag. */
  lemma GrantedClean(start: State, run: seq<Event>, u: nat, x: nat)
    requires Initial(start) && Possible(start, run) && u < |End(start, run).threads|
    requires
      var pc := End(start, run).threads[u];
      pc.Split? && pc.tag == NOT_ALLOCATED && pc.a <= x < pc.a + Size(pc.j)
    ensures !EverUsed(start, run, x) && (Recorded(start, run, x) ==> x == End(start, run).threads[u].a)
  {
    hide RegionOk, HandsOk, TagsOk, EverUsed, Possible, End, Recorded;
    InitialInv(start);
    RunKeeps(start, run);
    UsedIsTouched(start, run, x);
    if Recorded(start, run, x) {
      RecordedIsStamped(start, run, x);
    }
    assert PcOk(End(start, run).threads[u], End(start, run).touched, End(start, run).stamped);
  }

  // ----- why canonicity is not kept -----

  /** Pushing the block keeps a canonical region canonical exactly when its buddy is not free at that instant. */
  lemma PlaceCanonical(s: State, u: nat, a: nat, k: nat, stamp: nat)
    requires Inv(s) && u < |s.threads| && s.threads[u] == Placing(a, k) && Canonical(Own(s)) && a % Size(k) == 0
    ensures Canonical(Own(PlaceStep(s, u, a, k, stamp))) <==> (k < TOP ==> !Has(Own(s), Buddy(a, k), k, Free))
  {
    hide Shaped, OrdersOk, FreeAgree, Tiled, Clean, HandsOk, TagsOk, PcOk, Given, Rehold, Buddy, Canonical;
    assert Holds(s.threads[u], a, k);
    HandOnly(s, u, a, k);
    BlockFacts(s.region, a, k, Hand(u));
    GivenOwn(s.region, a, k, stamp, ALLOCATED);
    if k < TOP && Has(Own(s), Buddy(a, k), k, Free) {
      var own' := Rehold(Own(s), a, k, Free);
      BuddyFacts(a, k);
      OneHolder(Own(s), a, k, Hand(u), Free, Buddy(a, k), k);
      OneHolder(Own(s), a, k, Hand(u), Free, a, k);
      NotCanonical(own', a, k);
    } else {
      GivenCanonical(Own(s), a, k, Hand(u));
    }
  }

  lemma NotCanonical(own: seq<Piece>, a: nat, k: nat)
    requires k < TOP && a % Size(k) == 0 && Has(own, a, k, Free) && Has(own, Buddy(a, k), k, Free)
    ensures !Canonical(own)
  {
  }

  /** Two threads that free buddies at the same time miss each other: each tests before the other pushes, and both
      buddies end up free. */
  lemma BuddiesMissed(s: State, u: nat, t: nat, a: nat, k: nat, stamp: nat) returns (s1: State, s2: State, s3: State, s4: State)
    requires Inv(s) && u < |s.threads| && t < |s.threads| && u != t && k < TOP && a % Size(k) == 0
    requires s.threads[u] == Freeing(a, k) && s.threads[t] == Freeing(Buddy(a, k), k)
    ensures s1 == Advance(s, u, stamp) && |s1.threads| == |s.threads|
    ensures s2 == Advance(s1, t, stamp) && |s2.threads| == |s.threads|
    ensures s3 == Advance(s2, u, stamp) && |s3.threads| == |s.threads|
    ensures s4 == Advance(s3, t, stamp) && !Canonical(Own(s4))
  {
    hide Inv, Advance, Buddy, Canonical, Has;
    var b := Buddy(a, k);
    BuddyFacts(a, k);
    assert Holds(s.threads[u], a, k) && Holds(s.threads[t], b, k);
    HandOnly(s, u, a, k);
    HandOnly(s, t, b, k);
    TestFails(s, u, a, k, t, stamp);
    s1 := Advance(s, u, stamp);
    AdvanceKeeps(s, u, stamp);
    TestFails(s1, t, b, k, u, stamp);
    s2 := Advance(s1, t, stamp);
    AdvanceKeeps(s1, t, stamp);
    PlaceFrees(s2, u, a, k, t, b);
    s3 := Advance(s2, u, stamp);
    AdvanceKeeps(s2, u, stamp);
    PlaceFreesToo(s3, t, b, k, a, stamp);
    s4 := Advance(s3, t, stamp);
    NotCanonical(Own(s4), a, k);
  }

  lemma TestFails(s: State, u: nat, a: nat, k: nat, t: nat, stamp: nat)
    requires Inv(s) && u < |s.threads| && k < TOP && a % Size(k) == 0 && s.threads[u] == Freeing(a, k)
    requires Has(Own(s), Buddy(a, k), k, Hand(t))
    ensures Advance(s, u, stamp) == At(s, u, Placing(a, k))
  {
    hide Inv, Buddy, BitAt;
    assert Holds(s.threads[u], a, k);
    BuddyTrue(s, u, a, k);
  }

  lemma PlaceFrees(s: State, u: nat, a: nat, k: nat, t: nat, b: nat)
    requires Inv(s) && u < |s.threads| && s.threads[u] == Placing(a, k) && t < |s.threads| && t != u && s.threads[t] == Placing(b, k)
    ensures forall stamp :: Has(Own(Advance(s, u, stamp)), a, k, Free)
    ensures forall stamp :: |Advance(s, u, stamp).threads| == |s.threads| && Advance(s, u, stamp).threads[t] == Placing(b, k)
  {
    hide Shaped, OrdersOk, FreeAgree, Tiled, Clean, HandsOk, TagsOk, PcOk, Given;
    assert Holds(s.threads[u], a, k);
    HandOnly(s, u, a, k);
    BlockFacts(s.region, a, k, Hand(u));
    forall stamp
      ensures Has(Own(Advance(s, u, stamp)), a, k, Free)
    {
      GivenOwn(s.region, a, k, stamp, ALLOCATED);
    }
  }

  lemma PlaceFreesToo(s: State, t: nat, b: nat, k: nat, a: nat, stamp: nat)
    requires Inv(s) && t < |s.threads| && s.threads[t] == Placing(b, k) && Has(Own(s), a, k, Free)
    ensures Has(Own(Advance(s, t, stamp)), b, k, Free) && Has(Own(Advance(s, t, stamp)), a, k, Free)
  {
    hide Shaped, OrdersOk, FreeAgree, Tiled, Clean, HandsOk, TagsOk, PcOk, Given;
    assert Holds(s.threads[t], b, k);
    HandOnly(s, t, b, k);
    BlockFacts(s.region, b, k, Hand(t));
    GivenOwn(s.region, b, k, stamp, ALLOCATED);
  }
}
