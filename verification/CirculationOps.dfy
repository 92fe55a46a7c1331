/** What the operations on lists do, in terms of the links in memory. */
module CirculationOps {
  import opened Numbers
  import opened Circulation
  import opened CirculationInv
  import opened CirculationKeeps
  import opened CirculationRun

  /** The list in memory after a step that changes it. */
  lemma ListAfter(s: State, u: nat, l: Loc)
    requires Inv(s) && Enabled(s, u, Go) && InTime(s, u, Go)
    ensures var s' := Advance(s, u); Chain(s'.next, WordAt(s', l).ptr, ListAt(s', l))
  {
    hide Advance, ThreadOk, WellFormed;
    StepKeeps(s, u, Go);
    assert ListOk(Advance(s, u), l);
  }

  /** When a pop's compare-and-swap succeeds in time, the nodes it walked are the first min(batch, length) of the
      list at that instant: its head, tail and count are the true ones, the list keeps the rest, and the thread holds
      what it returns. */
  lemma PopLinearizes(s: State, u: nat, p: PopPc, xs: seq<nat>)
    requires Reachable(s) && Enabled(s, u, Go) && InTime(s, u, Go) && s.threads[u] == Pop(p) && p.PopCas?
    requires WordAt(s, p.loc) == p.word && Chain(s.next, WordAt(s, p.loc).ptr, xs)
    ensures
      var s', k := Advance(s, u), Min(p.batch, |xs|);
      && 1 <= k && p.load == Load(xs[0], xs[k - 1], k, xs[..k]) && Chain(s'.next, WordAt(s', p.loc).ptr, xs[k..])
      && HoldsAll(s'.place, u, xs[..k])
  {
    hide ListOk, Segment, Distinct;
    ReachableInv(s);
    MemoryList(s, p.loc, xs);
    ListAfter(s, u, p.loc);
    PopTaken(s, u, p);
    var walk := p.load.chain;
    assert walk == xs[..|walk|];
    assert ListAt(Advance(s, u), p.loc) == xs[|walk|..];
    forall b | b in walk
      ensures b in s.place
    {
      TakenListed(s, u, p, b);
    }
  }

  lemma PopTaken(s: State, u: nat, p: PopPc)
    requires Inv(s) && u < |s.threads| && s.threads[u] == Pop(p) && p.PopCas?
    requires WordAt(s, p.loc) == p.word && InTime(s, u, Go)
    ensures Honest(p.load) && p.load.chain <= ListAt(s, p.loc) && p.load.count == Min(p.batch, |ListAt(s, p.loc)|) && p.loc in s.heads
  {
    hide Segment, Distinct, WellFormed;
    assert ThreadOk(s, u, s.threads[u]);
    TagOf(s, p.loc);
    SameVersion(p.v, VersionAt(s, p.loc));
    NextInList(s, p.loc, p.load.count);
  }

  /** Null follows only the last block. */
  lemma NextInList(s: State, l: Loc, k: nat)
    requires Shared(s) && k <= |ListAt(s, l)|
    ensures First(ListAt(s, l)[k..], 0) == 0 <==> k == |ListAt(s, l)|
  {
    hide SchedulerOk, HasLists, Distinct;
    assert ListOk(s, l);
    SegmentIn(s.next, ListAt(s, l), 0);
  }

  /** Whatever happened to the list meanwhile, and however often its tag wrapped around, a push whose
      compare-and-swap succeeds puts its chain in front of the list of that instant. */
  lemma PushLinearizes(s: State, u: nat, p: PushPc, xs: seq<nat>)
    requires Reachable(s) && Enabled(s, u, Go) && s.threads[u] == Push(p) && p.PushCas?
    requires WordAt(s, p.loc) == p.word && Chain(s.next, WordAt(s, p.loc).ptr, xs)
    ensures
      var s' := Advance(s, u);
      && Honest(p.load) && Chain(s'.next, WordAt(s', p.loc).ptr, p.load.chain + xs)
      && forall b :: b in p.load.chain ==> PlaceAt(s, b) == Held(u) && PlaceAt(s', b) == In(p.loc)
  {
    hide ListOk, Segment, Distinct, WellFormed;
    ReachableInv(s);
    MemoryList(s, p.loc, xs);
    ListAfter(s, u, p.loc);
    assert ThreadOk(s, u, s.threads[u]);
  }

  /** The trimmer's compare-and-swap takes the whole list of that instant, with no bound on tag reuse either: the list
      is empty, and the pointer the trimmer loaded leads through exactly the blocks it now holds. */
  lemma DetachLinearizes(s: State, u: nat, p: DetachPc, xs: seq<nat>)
    requires Reachable(s) && Enabled(s, u, Go) && s.threads[u] == Detach(p) && p.DetachCas?
    requires WordAt(s, Loc(p.cpu, Normal)) == p.word && Chain(s.next, WordAt(s, Loc(p.cpu, Normal)).ptr, xs)
    ensures
      var s', l := Advance(s, u), Loc(p.cpu, Normal);
      && xs != [] && WordAt(s', l).ptr == 0 && Chain(s'.next, p.word.ptr, xs)
      && HoldsAll(s'.place, u, xs) && Distinct(xs)
  {
    hide Segment, WellFormed;
    ReachableInv(s);
    assert ThreadOk(s, u, s.threads[u]);
    MemoryList(s, Loc(p.cpu, Normal), xs);
    assert forall b :: b in xs ==> PlaceAt(s, b) == In(Loc(p.cpu, Normal));
  }

  /** The final store of a restartable pop takes the first block of the CPU's list, whatever was preempted where. */
  lemma TakeLinearizes(s: State, u: nat, p: TakePc, xs: seq<nat>)
    requires Reachable(s) && Enabled(s, u, Go) && s.threads[u] == Take(p) && p.TakeStore?
    requires Chain(s.next, WordAt(s, Loc(p.cpu, Rseq)).ptr, xs)
    ensures
      var s', l := Advance(s, u), Loc(p.cpu, Rseq);
      RunsOn(s, u, p.cpu) && [p.tmp] <= xs && Chain(s'.next, WordAt(s', l).ptr, xs[1..]) && PlaceAt(s', p.tmp) == Held(u)
  {
    hide Segment, Distinct, WellFormed;
    ReachableInv(s);
    assert ThreadOk(s, u, s.threads[u]);
    var l := Loc(p.cpu, Rseq);
    MemoryList(s, l, xs);
    HeadOk(s, l);
    RunsOnCpu(s, u, p.cpu);
    ListAfter(s, u, l);
    assert PlaceAt(s, p.tmp) == In(l);
  }

  /** The final store of a restartable push puts the chain in front of the CPU's list. */
  lemma GiveLinearizes(s: State, u: nat, p: GivePc, xs: seq<nat>)
    requires Reachable(s) && Enabled(s, u, Go) && s.threads[u] == Give(p) && p.GiveStore?
    requires Chain(s.next, WordAt(s, Loc(p.cpu, Rseq)).ptr, xs)
    ensures
      var s', l := Advance(s, u), Loc(p.cpu, Rseq);
      && RunsOn(s, u, p.cpu) && Honest(p.load) && Chain(s'.next, WordAt(s', l).ptr, p.load.chain + xs)
      && forall b :: b in p.load.chain ==> PlaceAt(s, b) == Held(u) && PlaceAt(s', b) == In(l)
  {
    hide ListOk, Segment, Distinct, WellFormed;
    ReachableInv(s);
    assert ThreadOk(s, u, s.threads[u]);
    var l := Loc(p.cpu, Rseq);
    MemoryList(s, l, xs);
    RunsOnCpu(s, u, p.cpu);
    ListAfter(s, u, l);
  }

  /** Every pointer a pop follows is a block, even when the list has changed under it. */
  lemma LoadsAreBlocks(s: State, u: nat)
    requires Reachable(s) && u < |s.threads|
    ensures
      var pc := s.threads[u];
      && (pc.Pop? && !pc.pop.PopLoad? ==> pc.pop.load.tail in s.next)
      && (pc.Take? && (pc.take.TakeNext? || pc.take.TakeStore?) ==> pc.take.tmp in s.next)
  {
    hide WellFormed, Distinct;
    ReachableInv(s);
    var pc := s.threads[u];
    assert ThreadOk(s, u, pc);
    if pc.Take? {
      assert ListOk(s, Loc(pc.take.cpu, Rseq));
      HeadOk(s, Loc(pc.take.cpu, Rseq));
    }
  }
}
