/** One buddy region used by many threads.

    Every step is one section under an order lock, or code that touches only blocks in the hands of the thread.  A
    block in transit between two sections is in the hands of its thread. */
module BuddyMachine {
  import opened BuddyTiles
  import opened BuddyLists
  import opened DoublyLinked
  import opened BuddyRegion

  datatype Pc =
    | Idle
    // alloc_from_region: the mask is loaded once, orders are tried upwards, the found block is split downwards
    | Load(k: nat)
    | Scan(k: nat, j: nat, seen: seq<bool>)
    | Split(k: nat, j: nat, a: nat, life: nat, tag: nat)
    // free: test and remove the buddy, or give up merging and push
    | Freeing(a: nat, k: nat)
    | Placing(a: nat, k: nat)
    // try_grow_inplace
    | Growing(a: nat, k: nat)

  /** `touched` and `stamped` are history: the offsets ever inside a block handed out, and the offsets where the
      allocator ever wrote to a record. */
  datatype State = State(region: Region, threads: seq<Pc>, touched: set<nat>, stamped: set<nat>)

  datatype Action =
    | Go(stamp: nat)
    | StartAlloc(k: nat)
    | StartFree(a: nat, k: nat)
    | StartGrow(a: nat, k: nat)
    | ClientWrite(x: nat, rec: FreeBlock)
    | TrimOrder(k: nat, chosen: set<nat>, refused: set<nat>, stamp: nat)

  ghost function At(s: State, u: nat, pc: Pc): State
    requires u < |s.threads|
  {
    s.(threads := s.threads[u := pc])
  }

  ghost function Own(s: State): seq<Piece> { s.region.own }

  ghost predicate SeenAt(seen: seq<bool>, j: nat) { j < |seen| && seen[j] }

  ghost function HeadAt(g: Region, j: nat): int { if j < |g.lists.heads| then g.lists.heads[j] else NIL }

  ghost function RecordAt(g: Region, a: nat): FreeBlock {
    if a in g.lists.records then g.lists.records[a] else Cell(NIL, NIL, Mark(0, ALLOCATED))
  }

  ghost predicate BitAt(g: Region, a: nat, k: nat) { InBounds(g, a, k) && g.lists.bits[k][BitOf(a, k)] }

  ghost function Unmarked(g: Region, j: nat): Region {
    if j < |g.lists.mask| then g.(lists := g.lists.(mask := g.lists.mask[j := false])) else g
  }

  ghost function Recut(g: Region, own: seq<Piece>): Region { g.(own := own) }

  ghost function Spot(a: int): set<nat> { if a >= 0 then {a} else {} }

  /** The records that pushing a block writes: its own and that of the block in front. */
  ghost function PushWrites(g: Region, k: nat, a: nat): set<nat> { {a} + Spot(HeadAt(g, k)) }

  /** The records that taking a block off its list writes: those of its neighbours. */
  ghost function TakeWrites(g: Region, a: nat): set<nat> { Spot(RecordAt(g, a).prev) + Spot(RecordAt(g, a).next) }

  /** One order's lock section of the search. */
  ghost function ScanStep(s: State, u: nat, k: nat, j: nat, seen: seq<bool>): State
    requires u < |s.threads|
  {
    var head := HeadAt(s.region, j);
    if j > TOP then At(s, u, Idle)
    else if !SeenAt(seen, j) then At(s, u, Scan(k, j + 1, seen))
    else if head < 0 then At(s.(region := Unmarked(s.region, j)), u, Scan(k, j + 1, seen))
    else
      var rec := RecordAt(s.region, head);
      At(s.(region := Taken(s.region, head, j, Hand(u)), stamped := s.stamped + TakeWrites(s.region, head)), u,
         Split(k, j, head, rec.data.lifeTime, rec.data.trimState))
  }

  /** Push the upper half, or hand the block out. */
  ghost function SplitStep(s: State, u: nat, k: nat, j: nat, a: nat, life: nat, tag: nat): State
    requires u < |s.threads|
  {
    if j > k then
      var b := a + Size(j - 1);
      var g := Given(Recut(s.region, Halve(Own(s), a, j, Hand(u))), b, j - 1, life, tag);
      At(s.(region := g, stamped := s.stamped + PushWrites(s.region, j - 1, b)), u, Split(k, j - 1, a, life, tag))
    else
      At(s.(region := Recut(s.region, Rehold(Own(s), a, j, Live)), touched := s.touched + Units(a, j)), u, Idle)
  }

  /** One order's lock section of free. */
  ghost function FreeStep(s: State, u: nat, a: nat, k: nat): State
    requires u < |s.threads|
  {
    if k < TOP && a % Size(k) == 0 && BitAt(s.region, Buddy(a, k), k) then
      var g := Taken(s.region, Buddy(a, k), k, Hand(u));
      At(s.(region := Recut(g, Merge(g.own, a, k, Hand(u))), stamped := s.stamped + TakeWrites(s.region, Buddy(a, k))), u,
         Freeing(Lower(a, k), k + 1))
    else At(s, u, Placing(a, k))
  }

  ghost function PlaceStep(s: State, u: nat, a: nat, k: nat, stamp: nat): State
    requires u < |s.threads|
  {
    At(s.(region := Given(s.region, a, k, stamp, ALLOCATED), stamped := s.stamped + PushWrites(s.region, k, a)), u, Idle)
  }

  ghost function GrowStep(s: State, u: nat, a: nat, k: nat): State
    requires u < |s.threads|
  {
    if k < TOP && a % Size(k) == 0 && a < Buddy(a, k) && BitAt(s.region, Buddy(a, k), k) then
      var g := Taken(s.region, Buddy(a, k), k, Hand(u));
      At(s.(region := Recut(g, Merge(g.own, a, k, Live)), touched := s.touched + Units(a, k + 1),
            stamped := s.stamped + TakeWrites(s.region, Buddy(a, k))), u, Idle)
    else At(s.(region := Recut(s.region, Rehold(Own(s), a, k, Live))), u, Idle)
  }

  ghost function Advance(s: State, u: nat, stamp: nat): State
    requires u < |s.threads|
  {
    match s.threads[u]
    case Idle => s
    case Load(k) => At(s, u, if k > TOP then Idle else Scan(k, k, s.region.lists.mask))
    case Scan(k, j, seen) => ScanStep(s, u, k, j, seen)
    case Split(k, j, a, life, tag) => SplitStep(s, u, k, j, a, life, tag)
    case Freeing(a, k) => FreeStep(s, u, a, k)
    case Placing(a, k) => PlaceStep(s, u, a, k, stamp)
    case Growing(a, k) => GrowStep(s, u, a, k)
  }

  /** The records that trimming writes: those of the chosen blocks of one list that were in use. */
  ghost function TrimWrites(g: Region, k: nat, chosen: set<nat>): set<nat> {
    set a | a in chosen && k < |g.free| && a in g.free[k] && RecordAt(g, a).data.trimState == ALLOCATED
  }

  /** Chosen blocks of one list that were in use become trimmed, unless the system refused the page advice. */
  ghost function Trimmed(g: Region, k: nat, chosen: set<nat>, refused: set<nat>, stamp: nat): Region {
    var m := g.lists.records;
    var m' := map a | a in m :: if a in TrimWrites(g, k, chosen)
                                then m[a].(data := Mark(stamp, if a in refused then ALLOCATED else TRIMMED)) else m[a];
    g.(lists := g.lists.(records := m'))
  }

  ghost predicate Enabled(s: State, u: nat, act: Action) {
    u < |s.threads| &&
    match act
    case Go(_) => true
    case StartAlloc(k) => s.threads[u].Idle?
    case StartFree(a, k) => s.threads[u].Idle? && Has(Own(s), a, k, Live)
    case StartGrow(a, k) => s.threads[u].Idle? && Has(Own(s), a, k, Live)
    case ClientWrite(x, rec) => x < |Own(s)| && Own(s)[x].holder == Live
    case TrimOrder(k, chosen, refused, stamp) => s.threads[u].Idle?
  }

  ghost function Fire(s: State, u: nat, act: Action): State
    requires Enabled(s, u, act)
  {
    match act
    case Go(stamp) => Advance(s, u, stamp)
    case StartAlloc(k) => At(s, u, Load(k))
    case StartFree(a, k) => At(s.(region := Recut(s.region, Rehold(Own(s), a, k, Hand(u)))), u, Freeing(a, k))
    case StartGrow(a, k) => At(s.(region := Recut(s.region, Rehold(Own(s), a, k, Hand(u)))), u, Growing(a, k))
    case ClientWrite(x, rec) =>
      s.(region := s.region.(lists := s.region.lists.(records := s.region.lists.records[x := rec])))
    case TrimOrder(k, chosen, refused, stamp) =>
      s.(region := Trimmed(s.region, k, chosen, refused, stamp), stamped := s.stamped + TrimWrites(s.region, k, chosen))
  }
}
