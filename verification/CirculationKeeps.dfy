/** The invariant of the circulation, action by action. */
module CirculationKeeps {
  import opened Layout
  import opened Circulation
  import opened CirculationInv
  import opened CirculationSteps

  lemma HeadOk(s: State, l: Loc)
    requires ListOk(s, l)
    ensures PtrOk(s, WordAt(s, l).ptr) && (WordAt(s, l).ptr != 0 ==> [WordAt(s, l).ptr] <= ListAt(s, l))
    ensures 0 !in s.next ==> (WordAt(s, l).ptr == 0 <==> ListAt(s, l) == [])
  {
  }

  lemma CpuOf(s: State, l: Loc)
    requires WellFormed(s)
    ensures l in s.heads <==> l.cpu in s.usage
    ensures forall b :: b in s.next ==> PtrOk(s, NextOf(s, b))
    ensures 0 !in s.next
  {
  }

  /** The tag counts updates modulo 256. */
  lemma TagOf(s: State, l: Loc)
    requires ListOk(s, l) && !l.kind.Rseq?
    ensures WordAt(s, l).tag == VersionAt(s, l) % TAGS && (WordAt(s, l).tag + 1) % TAGS == (VersionAt(s, l) + 1) % TAGS
  {
  }

  lemma RunsOnCpu(s: State, u: nat, c: nat)
    requires WellFormed(s) && RunsOn(s, u, c)
    ensures c in s.usage && Loc(c, Rseq) in s.heads && 0 !in s.next
  {
  }

  // ----- transfer_push_batch, transfer_push_single_to -----

  lemma LinkedOk(s: State, u: nat, chain: seq<nat>, p: nat)
    requires Loaded(s, u, chain)
    ensures var s' := s.(next := s.next[Last(chain) := p]); Loaded(s', u, chain) && Segment(s'.next, chain, p)
    ensures PlaceAt(s, Last(chain)) == Held(u)
  {
    var front := chain[..|chain| - 1];
    assert Last(chain) in chain;
    LinkTail(s.next, chain, p);
    SegmentConcat(s.next[Last(chain) := p], front, [Last(chain)], p);
    assert chain == front + [Last(chain)];
  }

  lemma PushLinkKeeps(s: State, u: nat, p: PushPc)
    requires Inv(s) && u < |s.threads| && s.threads[u] == Push(p) && p.PushLink?
    ensures Inv(AdvancePush(s, u, p))
  {
    hide Shared, Guarantee, Segment;
    assert ThreadOk(s, u, s.threads[u]);
    LinkedOk(s, u, p.load.chain, p.word.ptr);
    SharedWrite(s, u, p.load.tail, p.word.ptr);
    Finish(s, s.(next := s.next[p.load.tail := p.word.ptr]), u, Push(PushCas(p.loc, p.load, p.word)));
  }

  lemma PushCasKeeps(s: State, u: nat, p: PushPc)
    requires Inv(s) && u < |s.threads| && s.threads[u] == Push(p) && p.PushCas? && WordAt(s, p.loc) == p.word
    ensures Inv(AdvancePush(s, u, p))
  {
    hide ListOk, Guarantee, Segment, WellFormed;
    assert ThreadOk(s, u, s.threads[u]);
    CpuOf(s, p.loc);
    TagOf(s, p.loc);
    var word := Pack(p.load.head, p.word);
    SharedPush(s, u, p.loc, p.load.chain, word);
    Finish(s, Pushed(s, p.loc, p.load.chain, word), u, if p.word.ptr == 0 then Hint(MarkLoad(p.loc.cpu)) else Idle);
  }

  lemma PushKeeps(s: State, u: nat, p: PushPc)
    requires Inv(s) && u < |s.threads| && s.threads[u] == Push(p)
    ensures Inv(AdvancePush(s, u, p))
  {
    hide ListOk, Guarantee, Loaded, WellFormed, Segment;
    assert ThreadOk(s, u, s.threads[u]);
    if p.PushLink? {
      PushLinkKeeps(s, u, p);
    } else if p.PushCas? && WordAt(s, p.loc) == p.word {
      PushCasKeeps(s, u, p);
    } else if p.PushCas? {
      FinishLocal(s, u, Push(PushLoad(p.loc, p.load)));
    } else {
      HeadOk(s, p.loc);
      FinishLocal(s, u, Push(PushLink(p.loc, p.load, WordAt(s, p.loc))));
    }
  }

  // ----- transfer_pop_batch, transfer_pop_single -----

  lemma PopLoadKeeps(s: State, u: nat, p: PopPc)
    requires Inv(s) && u < |s.threads| && s.threads[u] == Pop(p) && p.PopLoad?
    ensures Inv(AdvancePop(s, u, p))
  {
    hide ListOk, WellFormed;
    assert ThreadOk(s, u, s.threads[u]);
    var word := WordAt(s, p.loc);
    HeadOk(s, p.loc);
    CpuOf(s, p.loc);
    if word.ptr != 0 {
      TagOf(s, p.loc);
      FinishLocal(s, u, Pop(PopWalk(p.loc, p.single, p.batch, word, One(word.ptr), VersionAt(s, p.loc))));
    } else if p.loc.kind.Normal? {
      CpuOf(s, Loc(p.loc.cpu, Trimmed));
      FinishLocal(s, u, Pop(PopLoad(Loc(p.loc.cpu, Trimmed), p.single, p.batch)));
    } else {
      FinishLocal(s, u, Hint(ClearLoad(p.loc.cpu)));
    }
  }

  /** The link read after a true prefix of the list leads to the next block of the list. */
  lemma WalkNext(s: State, l: Loc, walk: seq<nat>)
    requires ListOk(s, l) && walk != [] && walk <= ListAt(s, l)
    ensures NextOf(s, Last(walk)) == First(ListAt(s, l)[|walk|..], 0)
    ensures 0 !in s.next && NextOf(s, Last(walk)) != 0 ==> walk + [NextOf(s, Last(walk))] <= ListAt(s, l)
  {
    SegmentAt(s.next, ListAt(s, l), |walk| - 1, 0);
  }

  lemma PopWalkKeeps(s: State, u: nat, p: PopPc)
    requires Inv(s) && u < |s.threads| && s.threads[u] == Pop(p) && p.PopWalk?
    ensures Inv(AdvancePop(s, u, p))
  {
    hide ListOk, WellFormed;
    assert ThreadOk(s, u, s.threads[u]);
    CpuOf(s, p.loc);
    assert p.load.tail in p.load.chain;
    if VersionAt(s, p.loc) == p.v {
      WalkNext(s, p.loc, p.load.chain);
    }
    FinishLocal(s, u, AdvancePop(s, u, p).threads[u]);
  }

  /** Within 256 updates, equal tags mean that nothing changed. */
  lemma SameVersion(v: nat, now: nat)
    requires v <= now < v + TAGS && v % TAGS == now % TAGS
    ensures v == now
  {
    assert (now - v) % TAGS == 0;
  }

  lemma PopCasKeeps(s: State, u: nat, p: PopPc)
    requires Inv(s) && u < |s.threads| && s.threads[u] == Pop(p) && p.PopCas?
    requires WordAt(s, p.loc) == p.word && InTime(s, u, Go)
    ensures Inv(AdvancePop(s, u, p))
  {
    hide ListOk, Guarantee, WellFormed;
    assert ThreadOk(s, u, s.threads[u]);
    CpuOf(s, p.loc);
    TagOf(s, p.loc);
    SameVersion(p.v, VersionAt(s, p.loc));
    assert p.load.chain == ListAt(s, p.loc)[..p.load.count];
    SharedPop(s, u, p.loc, p.load.count, Pack(p.nx, p.word));
    Finish(s, Popped(s, p.loc, u, p.load.chain, Pack(p.nx, p.word)), u,
      if p.nx == 0 && !p.single then Hint(ClearLoad(p.loc.cpu)) else Idle);
  }

  lemma PopKeeps(s: State, u: nat, p: PopPc)
    requires Inv(s) && u < |s.threads| && s.threads[u] == Pop(p) && InTime(s, u, Go)
    ensures Inv(AdvancePop(s, u, p))
  {
    hide Shared;
    assert ThreadOk(s, u, s.threads[u]);
    if p.PopLoad? {
      PopLoadKeeps(s, u, p);
    } else if p.PopWalk? {
      PopWalkKeeps(s, u, p);
    } else if WordAt(s, p.loc) == p.word {
      PopCasKeeps(s, u, p);
    } else {
      FinishLocal(s, u, Pop(PopLoad(p.loc, p.single, p.batch)));
    }
  }

  // ----- hints and counters -----

  lemma SharedQuiet(s: State, s': State, u: nat)
    requires Shared(s) && SameLists(s, s') && s'.on == s.on && s'.threads == s.threads
    requires s'.usage.Keys == s.usage.Keys && s'.hint.Keys == s.hint.Keys
    ensures Shared(s') && Guarantee(s, s', u)
  {
    hide ListOk, Guarantee;
    SharedLocal(s, s');
    QuietGuarantee(s, s', u);
  }

  lemma QuietGuarantee(s: State, s': State, u: nat)
    requires Shared(s) && SameLists(s, s') && s'.on == s.on && s'.threads == s.threads
    requires s'.usage.Keys == s.usage.Keys && s'.hint.Keys == s.hint.Keys
    ensures Guarantee(s, s', u)
  {
    hide ListOk, WellFormed;
  }

  lemma HintKeeps(s: State, u: nat, p: HintPc)
    requires Inv(s) && u < |s.threads| && s.threads[u] == Hint(p)
    ensures Inv(AdvanceHint(s, u, p))
  {
    hide ListOk, Guarantee;
    assert ThreadOk(s, u, s.threads[u]);
    if p.MarkSet? || p.ClearSet? {
      var mid := s.(hint := s.hint[p.cpu := p.MarkSet?]);
      SharedQuiet(s, mid, u);
      Finish(s, mid, u, if p.MarkSet? then Idle else Hint(Recheck(p.cpu)));
    } else {
      FinishLocal(s, u, AdvanceHint(s, u, p).threads[u]);
    }
  }

  lemma CountKeeps(s: State, u: nat, cpu: nat, n: nat)
    requires Inv(s) && u < |s.threads| && cpu in s.usage
    ensures Inv(At(Counted(s, cpu, n), u, Idle))
  {
    hide ListOk, Guarantee, SchedulerOk, HasLists, BlocksOk;
    SharedQuiet(s, Counted(s, cpu, n), u);
    Finish(s, Counted(s, cpu, n), u, Idle);
  }

  // ----- detaching a list -----

  lemma DetachKeeps(s: State, u: nat, p: DetachPc)
    requires Inv(s) && u < |s.threads| && s.threads[u] == Detach(p)
    ensures Inv(AdvanceDetach(s, u, p))
  {
    hide ListOk, Guarantee, WellFormed;
    assert ThreadOk(s, u, s.threads[u]);
    var l := Loc(p.cpu, Normal);
    if p.DetachCas? && WordAt(s, l) == p.word {
      CpuOf(s, l);
      TagOf(s, l);
      var xs := ListAt(s, l);
      assert xs == xs[..|xs|];
      SharedPop(s, u, l, |xs|, Pack(0, p.word));
      Finish(s, Popped(s, l, u, xs, Pack(0, p.word)), u, Idle);
    } else {
      FinishLocal(s, u, AdvanceDetach(s, u, p).threads[u]);
    }
  }

  // ----- restartable sequences -----

  lemma TakeStoreKeeps(s: State, u: nat, p: TakePc)
    requires Inv(s) && u < |s.threads| && s.threads[u] == Take(p) && p.TakeStore?
    ensures Inv(AdvanceTake(s, u, p))
  {
    hide ListOk, Guarantee, WellFormed;
    assert ThreadOk(s, u, s.threads[u]);
    RunsOnCpu(s, u, p.cpu);
    var l := Loc(p.cpu, Rseq);
    HeadOk(s, l);
    WalkNext(s, l, [p.tmp]);
    assert [p.tmp] == ListAt(s, l)[..1];
    SharedPop(s, u, l, 1, Word(p.nx, 0));
    Finish(s, Popped(s, l, u, [p.tmp], Word(p.nx, 0)), u, Take(TakeCount(p.cpu)));
  }

  lemma TakeKeeps(s: State, u: nat, p: TakePc)
    requires Inv(s) && u < |s.threads| && s.threads[u] == Take(p)
    ensures Inv(AdvanceTake(s, u, p))
  {
    hide Shared, Popped;
    assert ThreadOk(s, u, s.threads[u]);
    if p.TakeStore? {
      TakeStoreKeeps(s, u, p);
    } else if p.TakeCount? {
      CountKeeps(s, u, p.cpu, WRAP - 1);
    } else {
      FinishLocal(s, u, AdvanceTake(s, u, p).threads[u]);
    }
  }

  lemma GiveLinkKeeps(s: State, u: nat, p: GivePc)
    requires Inv(s) && u < |s.threads| && s.threads[u] == Give(p) && p.GiveLink?
    ensures Inv(AdvanceGive(s, u, p))
  {
    hide Guarantee, Segment, ListOk, WellFormed;
    assert ThreadOk(s, u, s.threads[u]);
    LinkedOk(s, u, p.load.chain, p.tmp);
    HeadOk(s, Loc(p.cpu, Rseq));
    SharedWrite(s, u, p.load.tail, p.tmp);
    Finish(s, s.(next := s.next[p.load.tail := p.tmp]), u, Give(GiveStore(p.cpu, p.load, p.tmp)));
  }

  lemma GiveStoreKeeps(s: State, u: nat, p: GivePc)
    requires Inv(s) && u < |s.threads| && s.threads[u] == Give(p) && p.GiveStore?
    ensures Inv(AdvanceGive(s, u, p))
  {
    hide ListOk, Guarantee, Segment, WellFormed;
    assert ThreadOk(s, u, s.threads[u]);
    RunsOnCpu(s, u, p.cpu);
    var l := Loc(p.cpu, Rseq);
    SharedPush(s, u, l, p.load.chain, Word(p.load.head, 0));
    Finish(s, Pushed(s, l, p.load.chain, Word(p.load.head, 0)), u, Give(GiveCount(p.cpu, p.load.count)));
  }

  lemma GiveKeeps(s: State, u: nat, p: GivePc)
    requires Inv(s) && u < |s.threads| && s.threads[u] == Give(p)
    ensures Inv(AdvanceGive(s, u, p))
  {
    hide Shared, Loaded, Segment, Pushed;
    assert ThreadOk(s, u, s.threads[u]);
    if p.GiveLink? {
      GiveLinkKeeps(s, u, p);
    } else if p.GiveStore? {
      GiveStoreKeeps(s, u, p);
    } else if p.GiveCount? {
      CountKeeps(s, u, p.cpu, p.count);
    } else {
      FinishLocal(s, u, AdvanceGive(s, u, p).threads[u]);
    }
  }

  // ----- the rest -----

  /** Blocks change hands outside the lists. */
  lemma SharedPlace(s: State, u: nat, place: map<nat, Place>)
    requires Shared(s) && place.Keys == s.place.Keys
    requires forall b :: b in place && place[b] != s.place[b] ==>
      !place[b].In? && !s.place[b].In? && !HeldByOther(s.place[b], u)
    ensures var s' := s.(place := place); Shared(s') && Guarantee(s, s', u)
  {
    hide ListOk;
    var s' := s.(place := place);
    forall l
      ensures ListOk(s', l)
    {
      OtherListOk(s, s', l);
    }
  }

  lemma SharedOn(s: State, u: nat, on: map<nat, nat>)
    requires Shared(s) && SchedulerOk(on, s.usage, |s.threads|)
    requires forall c :: c in s.on && s.on[c] != u ==> c in on && on[c] == s.on[c]
    ensures var s' := s.(on := on); Shared(s') && Guarantee(s, s', u)
  {
    hide ListOk, SchedulerOk;
    SharedLocal(s, s.(on := on));
  }

  /** The thread keeps its place in the program. */
  lemma FinishStill(s: State, mid: State, u: nat)
    requires Inv(s) && u < |s.threads| && Shared(mid) && Guarantee(s, mid, u) && mid.threads == s.threads
    requires ThreadOk(mid, u, s.threads[u])
    ensures Inv(mid)
  {
    hide ListOk, ThreadOk, Guarantee;
    Assemble(s, mid, u);
  }

  /** Only the instructions of a sequence rely on the CPU. */
  lemma MovedThreadOk(s: State, u: nat, pc: Pc, on: map<nat, nat>)
    requires ThreadOk(s, u, pc) && (!InSequence(pc) || forall c :: !RunsOn(s, u, c))
    ensures ThreadOk(s.(on := on), u, pc)
  {
    hide Segment, Distinct, HoldsAll;
  }

  lemma SharedSchedule(s: State)
    requires Shared(s)
    ensures SchedulerOk(s.on, s.usage, |s.threads|)
  {
  }

  lemma PreemptKeeps(s: State, u: nat, cpu: nat)
    requires Inv(s) && Enabled(s, u, Preempt(cpu))
    ensures Inv(Fire(s, u, Preempt(cpu)))
  {
    hide Shared, Guarantee;
    var pc := s.threads[u];
    assert ThreadOk(s, u, pc);
    var mid := s.(on := s.on - {cpu});
    SharedSchedule(s);
    SharedOn(s, u, mid.on);
    var pc' := if InSequence(pc) then Idle else pc;
    MovedThreadOk(s, u, pc', mid.on);
    Finish(s, mid, u, pc');
  }

  lemma ResumeKeeps(s: State, u: nat, cpu: nat)
    requires Inv(s) && Enabled(s, u, Resume(cpu))
    ensures Inv(Fire(s, u, Resume(cpu)))
  {
    hide Shared, Guarantee, ThreadOk;
    var pc := s.threads[u];
    assert ThreadOk(s, u, pc);
    var mid := s.(on := s.on[cpu := u]);
    SharedSchedule(s);
    forall c | c in s.on
      ensures s.on[c] != u
    {
      assert !RunsOn(s, u, c);
    }
    SharedOn(s, u, mid.on);
    MovedThreadOk(s, u, pc, mid.on);
    FinishStill(s, mid, u);
  }

  lemma HandsKeep(s: State, u: nat, act: Action)
    requires Inv(s) && Enabled(s, u, act) && (act.HandOut? || act.GiveBack? || act.Carve? || act.Relink?)
    ensures Inv(Fire(s, u, act))
  {
    hide ListOk, Guarantee;
    var s' := Fire(s, u, act);
    if act.Relink? {
      SharedWrite(s, u, act.block, act.target);
    } else {
      SharedPlace(s, u, s'.place);
    }
    FinishStill(s, s', u);
  }

  lemma StartKeeps(s: State, u: nat, act: Action)
    requires Inv(s) && Enabled(s, u, act)
    requires act.StartPush? || act.StartPop? || act.StartDetach? || act.StartTake? || act.StartGive? || act.Abort?
    ensures Inv(Fire(s, u, act))
  {
    hide ListOk, Guarantee, Loaded;
    FinishLocal(s, u, Fire(s, u, act).threads[u]);
  }

  lemma AdvanceKeeps(s: State, u: nat)
    requires Inv(s) && Enabled(s, u, Go) && InTime(s, u, Go)
    ensures Inv(Advance(s, u))
  {
    hide Inv, AdvancePush, AdvancePop, AdvanceHint, AdvanceDetach, AdvanceTake, AdvanceGive;
    match s.threads[u]
    case Push(p) => PushKeeps(s, u, p);
    case Pop(p) => PopKeeps(s, u, p);
    case Hint(p) => HintKeeps(s, u, p);
    case Detach(p) => DetachKeeps(s, u, p);
    case Take(p) => TakeKeeps(s, u, p);
    case Give(p) => GiveKeeps(s, u, p);
    case Idle =>
  }

  /** Every step keeps the invariant, if pops that succeed are in time. */
  lemma StepKeeps(s: State, u: nat, act: Action)
    requires Inv(s) && Enabled(s, u, act) && InTime(s, u, act)
    ensures Inv(Fire(s, u, act))
  {
    hide Inv, Advance;
    match act
    case Go => AdvanceKeeps(s, u);
    case Preempt(_) => PreemptKeeps(s, u, act.cpu);
    case Resume(_) => ResumeKeeps(s, u, act.cpu);
    case HandOut(_) => HandsKeep(s, u, act);
    case GiveBack(_) => HandsKeep(s, u, act);
    case Carve(_) => HandsKeep(s, u, act);
    case Relink(_, _) => HandsKeep(s, u, act);
    case _ => StartKeeps(s, u, act);
  }
}
