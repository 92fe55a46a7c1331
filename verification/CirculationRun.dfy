/** Whole runs of the circulation: where blocks are, who gets them, and what each operation does to its list. */
module CirculationRun {
  import opened Circulation
  import opened CirculationInv
  import opened CirculationKeeps

  datatype Event = Event(thread: nat, action: Action)

  /** Blocks never carved and zeroed, or with clients of other classes; empty lists, idle threads. */
  ghost predicate Initial(s: State) {
    && WellFormed(s)
    && (forall b :: b in s.next ==> s.place[b] == Live || (s.place[b] == Uncarved && s.next[b] == 0))
    && (forall l :: l in s.heads ==> s.heads[l] == Word(0, 0) && s.lists[l] == [] && s.version[l] == 0)
    && (forall c :: c in s.usage ==> s.usage[c] == 0 && !s.hint[c])
    && (forall u :: 0 <= u < |s.threads| ==> s.threads[u] == Idle)
  }

  /** The events can happen one after the other, and every pop that succeeds is in time. */
  ghost predicate Possible(s: State, run: seq<Event>)
    decreases |run|
  {
    run != [] ==>
      && Enabled(s, run[0].thread, run[0].action) && InTime(s, run[0].thread, run[0].action)
      && Possible(Fire(s, run[0].thread, run[0].action), run[1..])
  }

  ghost function End(s: State, run: seq<Event>): State
    requires Possible(s, run)
    decreases |run|
  {
    if run == [] then s else End(Fire(s, run[0].thread, run[0].action), run[1..])
  }

  ghost predicate ReachedBy(s: State, start: State, run: seq<Event>) {
    Initial(start) && Possible(start, run) && s == End(start, run)
  }

  ghost predicate Reachable(s: State) { exists start, run :: ReachedBy(s, start, run) }

  lemma InitialInv(s: State)
    requires Initial(s)
    ensures Inv(s)
  {
  }

  lemma {:induction false} RunKeeps(s: State, run: seq<Event>)
    requires Inv(s) && Possible(s, run)
    ensures Inv(End(s, run))
    decreases |run|
  {
    hide Inv, Fire, Enabled, InTime;
    if run != [] {
      StepKeeps(s, run[0].thread, run[0].action);
      RunKeeps(Fire(s, run[0].thread, run[0].action), run[1..]);
    }
  }

  /** The invariant holds in every state of every run. */
  lemma ReachableInv(s: State)
    requires Reachable(s)
    ensures Inv(s)
  {
    hide Inv, Initial;
    var start, run :| ReachedBy(s, start, run);
    InitialInv(start);
    RunKeeps(start, run);
  }

  // ----- where blocks are -----

  /** Memory determines what a list holds. */
  lemma {:induction false} ChainUnique(next: map<nat, nat>, p: nat, xs: seq<nat>, ys: seq<nat>)
    requires 0 !in next && Chain(next, p, xs) && Chain(next, p, ys)
    ensures xs == ys
    decreases |xs|
  {
    if xs != [] && ys != [] {
      ChainUnique(next, next[p], xs[1..], ys[1..]);
      assert xs == [p] + xs[1..] && ys == [p] + ys[1..];
    }
  }

  lemma MemoryList(s: State, l: Loc, xs: seq<nat>)
    requires Inv(s) && Chain(s.next, WordAt(s, l).ptr, xs)
    ensures xs == ListAt(s, l) && ListOk(s, l)
  {
    hide ThreadOk, SchedulerOk, HasLists;
    assert ListOk(s, l);
    ChainUnique(s.next, WordAt(s, l).ptr, xs, ListAt(s, l));
  }

  /** In every state of every run, the links from the head of a list end in null without a cycle, and they meet
      exactly the blocks placed there; so no block is on two lists, or on a list while a thread holds it, a client
      has it, or it is not carved yet. */
  lemma OnePlace(s: State, l: Loc) returns (xs: seq<nat>)
    requires Reachable(s)
    ensures Chain(s.next, WordAt(s, l).ptr, xs) && Distinct(xs) && forall b :: b in xs <==> PlaceAt(s, b) == In(l)
  {
    hide ThreadOk, WellFormed;
    ReachableInv(s);
    assert ListOk(s, l);
    xs := ListAt(s, l);
  }

  lemma ListsApart(s: State, l: Loc, k: Loc, xs: seq<nat>, ys: seq<nat>, b: nat)
    requires Reachable(s) && Chain(s.next, WordAt(s, l).ptr, xs) && Chain(s.next, WordAt(s, k).ptr, ys)
    requires b in xs && b in ys
    ensures l == k && PlaceAt(s, b) == In(l)
  {
    hide Inv;
    ReachableInv(s);
    MemoryList(s, l, xs);
    MemoryList(s, k, ys);
  }

  /** The only ways a block changes hands in a step of thread `u`. */
  ghost predicate Transfer(p: Place, p': Place, u: nat, act: Action, b: nat) {
    if act == HandOut(b) then p == Held(u) && p' == Live
    else if act == GiveBack(b) then p == Live && p' == Held(u)
    else (
      || p' == p
      || (p.In? && p' == Held(u))
      || (p == Held(u) && p'.In?)
      || (p == Uncarved && p' == Held(u) && act.Carve? && b in act.blocks))
  }

  /** The list an instruction may change: three compare-and-swaps and two final stores. */
  ghost predicate Commits(pc: Pc, l: Loc) {
    || (pc.Push? && pc.push.PushCas? && pc.push.loc == l)
    || (pc.Pop? && pc.pop.PopCas? && pc.pop.loc == l)
    || (pc.Detach? && pc.detach.DetachCas? && Loc(pc.detach.cpu, Normal) == l)
    || (pc.Take? && pc.take.TakeStore? && Loc(pc.take.cpu, Rseq) == l)
    || (pc.Give? && pc.give.GiveStore? && Loc(pc.give.cpu, Rseq) == l)
  }

  ghost predicate SameAt(s: State, s': State, l: Loc) {
    ListAt(s', l) == ListAt(s, l) && WordAt(s', l) == WordAt(s, l)
  }

  /** What one instruction of `u` does to block `b` and to list `l`. */
  ghost predicate GoEffect(s: State, s': State, u: nat, b: nat, l: Loc) {
    && Transfer(PlaceAt(s, b), PlaceAt(s', b), u, Go, b)
    && (u < |s.threads| && !Commits(s.threads[u], l) ==> SameAt(s, s', l))
  }

  lemma PushedEffect(s: State, u: nat, at: Loc, chain: seq<nat>, word: Word, pc: Pc, b: nat, l: Loc)
    requires HoldsAll(s.place, u, chain) && u < |s.threads|
    ensures
      var s' := At(Pushed(s, at, chain, word), u, pc);
      Transfer(PlaceAt(s, b), PlaceAt(s', b), u, Go, b) && (l != at ==> SameAt(s, s', l))
  {
  }

  lemma PoppedEffect(s: State, u: nat, at: Loc, taken: seq<nat>, word: Word, pc: Pc, b: nat, l: Loc)
    requires (b in taken ==> PlaceAt(s, b).In?) && u < |s.threads|
    ensures
      var s' := At(Popped(s, at, u, taken, word), u, pc);
      Transfer(PlaceAt(s, b), PlaceAt(s', b), u, Go, b) && (l != at ==> SameAt(s, s', l))
  {
  }

  lemma PushEffect(s: State, u: nat, p: PushPc, b: nat, l: Loc)
    requires Inv(s) && u < |s.threads| && s.threads[u] == Push(p)
    ensures GoEffect(s, AdvancePush(s, u, p), u, b, l)
  {
    hide Shared, Segment, Distinct, HoldsAll, Pushed;
    assert ThreadOk(s, u, s.threads[u]);
    if p.PushCas? && WordAt(s, p.loc) == p.word {
      hide PlaceAt, SameAt, Transfer;
      PushedEffect(s, u, p.loc, p.load.chain, Pack(p.load.head, p.word),
        if p.word.ptr == 0 then Hint(MarkLoad(p.loc.cpu)) else Idle, b, l);
    }
  }

  /** A pop in time takes only blocks of the list. */
  lemma TakenListed(s: State, u: nat, p: PopPc, b: nat)
    requires Inv(s) && u < |s.threads| && s.threads[u] == Pop(p) && p.PopCas?
    requires WordAt(s, p.loc) == p.word && InTime(s, u, Go) && b in p.load.chain
    ensures PlaceAt(s, b) == In(p.loc)
  {
    hide WellFormed, Segment, Distinct;
    assert ThreadOk(s, u, s.threads[u]);
    assert ListOk(s, p.loc);
    SameVersion(p.v, VersionAt(s, p.loc));
  }

  lemma PopCommitEffect(s: State, u: nat, p: PopPc, b: nat, l: Loc)
    requires Inv(s) && u < |s.threads| && s.threads[u] == Pop(p) && InTime(s, u, Go)
    requires p.PopCas? && WordAt(s, p.loc) == p.word
    ensures GoEffect(s, AdvancePop(s, u, p), u, b, l)
  {
    hide Inv, Popped, PlaceAt, SameAt, Transfer;
    if b in p.load.chain {
      TakenListed(s, u, p, b);
    }
    PoppedEffect(s, u, p.loc, p.load.chain, Pack(p.nx, p.word),
      if p.nx == 0 && !p.single then Hint(ClearLoad(p.loc.cpu)) else Idle, b, l);
  }

  lemma LocalEffect(s: State, u: nat, pc: Pc, b: nat, l: Loc)
    requires u < |s.threads|
    ensures GoEffect(s, At(s, u, pc), u, b, l)
  {
  }

  lemma PopLoadLocal(s: State, u: nat, p: PopPc) returns (pc: Pc)
    requires u < |s.threads| && p.PopLoad?
    ensures AdvancePop(s, u, p) == At(s, u, pc) && (pc.Pop? || pc.Hint?)
  {
    var word := WordAt(s, p.loc);
    if word.ptr != 0 {
      pc := Pop(PopWalk(p.loc, p.single, p.batch, word, One(word.ptr), VersionAt(s, p.loc)));
    } else if p.loc.kind.Normal? {
      pc := Pop(PopLoad(Loc(p.loc.cpu, Trimmed), p.single, p.batch));
    } else {
      pc := Hint(ClearLoad(p.loc.cpu));
    }
  }

  lemma PopWalkLocal(s: State, u: nat, p: PopPc) returns (pc: Pc)
    requires u < |s.threads| && s.threads[u] == Pop(p) && p.PopWalk?
    ensures AdvancePop(s, u, p) == At(s, u, pc) && (pc.Pop? || pc.Hint?)
  {
    var nx := NextOf(s, p.load.tail);
    pc := if p.load.count < p.batch && nx != 0 then Pop(PopWalk(p.loc, p.single, p.batch, p.word, Longer(p.load, nx), p.v))
          else Pop(PopCas(p.loc, p.single, p.batch, p.word, p.load, nx, p.v));
  }

  /** Loading, walking and failing only change registers. */
  lemma PopLocal(s: State, u: nat, p: PopPc) returns (pc: Pc)
    requires u < |s.threads| && s.threads[u] == Pop(p) && !(p.PopCas? && WordAt(s, p.loc) == p.word)
    ensures AdvancePop(s, u, p) == At(s, u, pc) && (pc.Pop? || pc.Hint?)
  {
    if p.PopLoad? {
      pc := PopLoadLocal(s, u, p);
    } else if p.PopWalk? {
      pc := PopWalkLocal(s, u, p);
    } else {
      pc := Pop(PopLoad(p.loc, p.single, p.batch));
    }
  }

  lemma PopEffect(s: State, u: nat, p: PopPc, b: nat, l: Loc)
    requires Inv(s) && u < |s.threads| && s.threads[u] == Pop(p) && InTime(s, u, Go)
    ensures GoEffect(s, AdvancePop(s, u, p), u, b, l)
  {
    hide Inv, InTime, AdvancePop, GoEffect;
    if p.PopCas? && WordAt(s, p.loc) == p.word {
      PopCommitEffect(s, u, p, b, l);
    } else {
      var pc := PopLocal(s, u, p);
      LocalEffect(s, u, pc, b, l);
    }
  }

  lemma HintEffect(s: State, u: nat, p: HintPc, b: nat, l: Loc)
    requires u < |s.threads|
    ensures GoEffect(s, AdvanceHint(s, u, p), u, b, l)
  {
  }

  lemma TakeEffect(s: State, u: nat, p: TakePc, b: nat, l: Loc)
    requires Inv(s) && u < |s.threads| && s.threads[u] == Take(p)
    ensures GoEffect(s, AdvanceTake(s, u, p), u, b, l)
  {
    hide WellFormed, Segment, Distinct;
    assert ThreadOk(s, u, s.threads[u]);
    assert ListOk(s, Loc(p.cpu, Rseq));
    HeadOk(s, Loc(p.cpu, Rseq));
  }

  lemma DetachEffect(s: State, u: nat, p: DetachPc, b: nat, l: Loc)
    requires Inv(s) && u < |s.threads| && s.threads[u] == Detach(p)
    ensures GoEffect(s, AdvanceDetach(s, u, p), u, b, l)
  {
    hide WellFormed, Segment, Distinct;
    assert ListOk(s, Loc(p.cpu, Normal));
  }

  lemma GiveEffect(s: State, u: nat, p: GivePc, b: nat, l: Loc)
    requires Inv(s) && u < |s.threads| && s.threads[u] == Give(p)
    ensures GoEffect(s, AdvanceGive(s, u, p), u, b, l)
  {
    hide Shared, Segment, Distinct, HoldsAll, Pushed;
    assert ThreadOk(s, u, s.threads[u]);
    if p.GiveStore? {
      hide PlaceAt, SameAt, Transfer;
      PushedEffect(s, u, Loc(p.cpu, Rseq), p.load.chain, Word(p.load.head, 0), Give(GiveCount(p.cpu, p.load.count)), b, l);
    }
  }

  lemma AdvanceEffect(s: State, u: nat, b: nat, l: Loc)
    requires Inv(s) && u < |s.threads| && InTime(s, u, Go)
    ensures GoEffect(s, Advance(s, u), u, b, l)
  {
    hide Inv, AdvancePush, AdvancePop, AdvanceHint, AdvanceDetach, AdvanceTake, AdvanceGive, Commits;
    match s.threads[u]
    case Push(p) => PushEffect(s, u, p, b, l);
    case Pop(p) => PopEffect(s, u, p, b, l);
    case Hint(p) => HintEffect(s, u, p, b, l);
    case Detach(p) => DetachEffect(s, u, p, b, l);
    case Take(p) => TakeEffect(s, u, p, b, l);
    case Give(p) => GiveEffect(s, u, p, b, l);
    case Idle =>
  }

  /** A block leaves a list only into the hands of the thread that takes it, leaves a thread only onto a list or to
      a client, and leaves a client only when it is freed. */
  lemma StepTransfer(s: State, u: nat, act: Action, b: nat)
    requires Inv(s) && Enabled(s, u, act) && InTime(s, u, act)
    ensures Transfer(PlaceAt(s, b), PlaceAt(Fire(s, u, act), b), u, act, b)
  {
    hide Inv, Advance;
    if act.Go? {
      AdvanceEffect(s, u, b, Loc(0, Rseq));
    }
  }

  /** Only the committing instruction of an operation on a list changes that list. */
  lemma StepFrame(s: State, u: nat, act: Action, l: Loc)
    requires Inv(s) && Enabled(s, u, act) && InTime(s, u, act) && !(act.Go? && Commits(s.threads[u], l))
    ensures SameAt(s, Fire(s, u, act), l)
  {
    hide Inv, Advance, Commits;
    if act.Go? {
      AdvanceEffect(s, u, 0, l);
    }
  }

  /** The same, for what memory holds. */
  lemma FrameInMemory(s: State, u: nat, act: Action, l: Loc, xs: seq<nat>)
    requires Reachable(s) && Enabled(s, u, act) && InTime(s, u, act) && !(act.Go? && Commits(s.threads[u], l))
    requires Chain(s.next, WordAt(s, l).ptr, xs)
    ensures var s' := Fire(s, u, act); WordAt(s', l) == WordAt(s, l) && Chain(s'.next, WordAt(s', l).ptr, xs)
  {
    hide Fire, Segment, ThreadOk, WellFormed;
    ReachableInv(s);
    StepKeeps(s, u, act);
    StepFrame(s, u, act, l);
    MemoryList(s, l, xs);
    assert ListOk(Fire(s, u, act), l);
  }

  // ----- longer runs -----

  lemma {:induction false} RunOn(s: State, run: seq<Event>, e: Event)
    requires Possible(s, run) && Enabled(End(s, run), e.thread, e.action) && InTime(End(s, run), e.thread, e.action)
    ensures Possible(s, run + [e]) && End(s, run + [e]) == Fire(End(s, run), e.thread, e.action)
    decreases |run|
  {
    hide Enabled, Fire, InTime;
    if run == [] {
      assert ([] + [e])[1..] == [];
    } else {
      assert (run + [e])[1..] == run[1..] + [e];
      RunOn(Fire(s, run[0].thread, run[0].action), run[1..], e);
    }
  }

  lemma ReachOn(s: State, u: nat, act: Action)
    requires Reachable(s) && Enabled(s, u, act) && InTime(s, u, act)
    ensures Reachable(Fire(s, u, act))
  {
    hide Enabled, Fire, InTime, Initial, Possible, End;
    var start, run :| ReachedBy(s, start, run);
    RunOn(start, run, Event(u, act));
    assert ReachedBy(Fire(s, u, act), start, run + [Event(u, act)]);
  }
}
