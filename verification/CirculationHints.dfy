/** Hints never lose a list. */
module CirculationHints {
  import opened Layout
  import opened Circulation
  import opened CirculationInv
  import opened CirculationKeeps
  import opened CirculationRun

  /** The thread is still between its compare-and-swap or clear, and its mark or recheck. */
  ghost predicate Covers(pc: Pc, c: nat) {
    pc.Hint? && pc.hint.cpu == c && (pc.hint.MarkLoad? || pc.hint.MarkSet? || pc.hint.Recheck?)
  }

  ghost predicate Covered(threads: seq<Pc>, c: nat) { exists t :: 0 <= t < |threads| && Covers(threads[t], c) }

  ghost predicate HintOk(s: State, c: nat) {
    ListAt(s, Loc(c, Normal)) != [] && !Hinted(s, c) ==> Covered(s.threads, c)
  }

  /** Nothing that concerns the hint of `c` gets worse. */
  lemma CoverStays(s: State, s': State, u: nat, c: nat)
    requires HintOk(s, c) && |s'.threads| == |s.threads| && u < |s.threads|
    requires forall t :: 0 <= t < |s.threads| && t != u ==> s'.threads[t] == s.threads[t]
    requires Covers(s.threads[u], c) ==> Covers(s'.threads[u], c)
    requires Hinted(s, c) ==> Hinted(s', c)
    requires ListAt(s', Loc(c, Normal)) != [] ==> ListAt(s, Loc(c, Normal)) != []
    ensures HintOk(s', c)
  {
    if Covered(s.threads, c) {
      var t :| 0 <= t < |s.threads| && Covers(s.threads[t], c);
      assert Covers(s'.threads[t], c);
    }
  }

  lemma CoveredBy(s: State, u: nat, c: nat)
    requires u < |s.threads| && Covers(s.threads[u], c)
    ensures HintOk(s, c)
  {
  }

  /** Only the thread moves. */
  lemma LocalHint(s: State, u: nat, pc: Pc, c: nat)
    requires HintOk(s, c) && u < |s.threads| && (Covers(s.threads[u], c) ==> Covers(pc, c))
    ensures HintOk(At(s, u, pc), c)
  {
    CoverStays(s, At(s, u, pc), u, c);
  }

  lemma PushedHint(s: State, u: nat, l: Loc, chain: seq<nat>, word: Word, pc: Pc, c: nat)
    requires HintOk(s, c) && u < |s.threads| && !s.threads[u].Hint?
    requires l == Loc(c, Normal) && ListAt(s, l) == [] ==> Covers(pc, c)
    ensures HintOk(At(Pushed(s, l, chain, word), u, pc), c)
  {
    var s' := At(Pushed(s, l, chain, word), u, pc);
    if Covers(pc, c) {
      CoveredBy(s', u, c);
    } else {
      CoverStays(s, s', u, c);
    }
  }

  /** A list loses blocks, under a thread that does not cover it. */
  lemma PoppedHint(s: State, u: nat, l: Loc, taken: seq<nat>, word: Word, pc: Pc, c: nat)
    requires HintOk(s, c) && u < |s.threads| && !s.threads[u].Hint?
    ensures HintOk(At(Popped(s, l, u, taken, word), u, pc), c)
  {
    CoverStays(s, At(Popped(s, l, u, taken, word), u, pc), u, c);
  }

  lemma WrittenHint(s: State, u: nat, next: map<nat, nat>, usage: map<nat, nat>, pc: Pc, c: nat)
    requires HintOk(s, c) && u < |s.threads| && !s.threads[u].Hint?
    ensures HintOk(At(s.(next := next, usage := usage), u, pc), c)
  {
    CoverStays(s, At(s.(next := next, usage := usage), u, pc), u, c);
  }

  lemma PushHint(s: State, u: nat, p: PushPc, c: nat)
    requires Inv(s) && HintOk(s, c) && u < |s.threads| && s.threads[u] == Push(p)
    ensures HintOk(AdvancePush(s, u, p), c)
  {
    hide Inv, HintOk, Pushed;
    var s' := AdvancePush(s, u, p);
    match p
    case PushLoad(loc, load) => LocalHint(s, u, s'.threads[u], c);
    case PushLink(loc, load, word) => WrittenHint(s, u, s'.next, s.usage, s'.threads[u], c);
    case PushCas(loc, load, word) =>
      if WordAt(s, loc) == word {
        HeadListed(s, loc);
        PushedHint(s, u, loc, load.chain, Pack(load.head, word), if word.ptr == 0 then Hint(MarkLoad(loc.cpu)) else Idle, c);
      } else {
        LocalHint(s, u, s'.threads[u], c);
      }
  }

  lemma HeadListed(s: State, l: Loc)
    requires Inv(s)
    ensures WordAt(s, l).ptr != 0 <==> ListAt(s, l) != []
  {
    hide ThreadOk, SchedulerOk, HasLists, Distinct;
    assert ListOk(s, l);
    HeadOk(s, l);
  }

  lemma HintHint(s: State, u: nat, p: HintPc, c: nat)
    requires Inv(s) && HintOk(s, c) && u < |s.threads| && s.threads[u] == Hint(p)
    ensures HintOk(AdvanceHint(s, u, p), c)
  {
    hide Inv, Covered;
    var s' := AdvanceHint(s, u, p);
    if p.cpu == c && (p.ClearSet? || (p.Recheck? && WordAt(s, Loc(c, Normal)).ptr != 0)) {
      CoveredBy(s', u, c);
    } else if p.cpu == c && p.Recheck? {
      HeadListed(s, Loc(c, Normal));
    } else if p.cpu == c && (p.MarkSet? || (p.MarkLoad? && Hinted(s, c))) {
      assert Hinted(s', c);
    } else {
      CoverStays(s, s', u, c);
    }
  }

  lemma PopHint(s: State, u: nat, p: PopPc, c: nat)
    requires HintOk(s, c) && u < |s.threads| && s.threads[u] == Pop(p)
    ensures HintOk(AdvancePop(s, u, p), c)
  {
    hide HintOk, Popped;
    if p.PopCas? && WordAt(s, p.loc) == p.word {
      PoppedHint(s, u, p.loc, p.load.chain, Pack(p.nx, p.word), if p.nx == 0 && !p.single then Hint(ClearLoad(p.loc.cpu)) else Idle, c);
    } else {
      hide AdvancePop;
      var pc := PopLocal(s, u, p);
      LocalHint(s, u, pc, c);
    }
  }

  lemma DetachHint(s: State, u: nat, p: DetachPc, c: nat)
    requires HintOk(s, c) && u < |s.threads| && s.threads[u] == Detach(p)
    ensures HintOk(AdvanceDetach(s, u, p), c)
  {
    hide HintOk, Popped;
    var l := Loc(p.cpu, Normal);
    if p.DetachCas? && WordAt(s, l) == p.word {
      PoppedHint(s, u, l, ListAt(s, l), Pack(0, p.word), Idle, c);
    } else {
      LocalHint(s, u, AdvanceDetach(s, u, p).threads[u], c);
    }
  }

  lemma TakeHint(s: State, u: nat, p: TakePc, c: nat)
    requires HintOk(s, c) && u < |s.threads| && s.threads[u] == Take(p)
    ensures HintOk(AdvanceTake(s, u, p), c)
  {
    hide HintOk, Popped;
    if p.TakeStore? {
      PoppedHint(s, u, Loc(p.cpu, Rseq), [p.tmp], Word(p.nx, 0), Take(TakeCount(p.cpu)), c);
    } else if p.TakeCount? {
      WrittenHint(s, u, s.next, Counted(s, p.cpu, WRAP - 1).usage, Idle, c);
    } else {
      LocalHint(s, u, AdvanceTake(s, u, p).threads[u], c);
    }
  }

  lemma GiveHint(s: State, u: nat, p: GivePc, c: nat)
    requires HintOk(s, c) && u < |s.threads| && s.threads[u] == Give(p)
    ensures HintOk(AdvanceGive(s, u, p), c)
  {
    hide HintOk, Pushed;
    match p
    case GiveStore(cpu, load, tmp) =>
      PushedHint(s, u, Loc(cpu, Rseq), load.chain, Word(load.head, 0), Give(GiveCount(cpu, load.count)), c);
    case GiveLink(cpu, load, tmp) => WrittenHint(s, u, s.next[load.tail := tmp], s.usage, Give(GiveStore(cpu, load, tmp)), c);
    case GiveCount(cpu, count) => WrittenHint(s, u, s.next, Counted(s, cpu, count).usage, Idle, c);
    case GiveEnter(cpu, load) => LocalHint(s, u, Give(GiveCheck(cpu, load)), c);
    case GiveCheck(cpu, load) => LocalHint(s, u, if RunsOn(s, u, cpu) then Give(GiveLoad(cpu, load)) else Idle, c);
    case GiveLoad(cpu, load) => LocalHint(s, u, Give(GiveLink(cpu, load, WordAt(s, Loc(cpu, Rseq)).ptr)), c);
  }

  lemma StepHint(s: State, u: nat, act: Action, c: nat)
    requires Inv(s) && HintOk(s, c) && Enabled(s, u, act)
    ensures HintOk(Fire(s, u, act), c)
  {
    hide Inv, HintOk, AdvancePush, AdvancePop, AdvanceHint, AdvanceDetach, AdvanceTake, AdvanceGive;
    if act.Go? {
      match s.threads[u]
      case Push(p) => PushHint(s, u, p, c);
      case Pop(p) => PopHint(s, u, p, c);
      case Hint(p) => HintHint(s, u, p, c);
      case Detach(p) => DetachHint(s, u, p, c);
      case Take(p) => TakeHint(s, u, p, c);
      case Give(p) => GiveHint(s, u, p, c);
      case Idle =>
    } else {
      CoverStays(s, Fire(s, u, act), u, c);
    }
  }

  lemma {:induction false} RunHint(s: State, run: seq<Event>, c: nat)
    requires Inv(s) && HintOk(s, c) && Possible(s, run)
    ensures HintOk(End(s, run), c)
    decreases |run|
  {
    hide Inv, HintOk, Fire, Enabled, InTime;
    if run != [] {
      StepHint(s, run[0].thread, run[0].action, c);
      StepKeeps(s, run[0].thread, run[0].action);
      RunHint(Fire(s, run[0].thread, run[0].action), run[1..], c);
    }
  }

  /** If a normal list is not empty and its hint is clear, some thread is about to mark it or to look again. */
  lemma NeverLost(s: State, c: nat)
    requires Reachable(s) && WordAt(s, Loc(c, Normal)).ptr != 0 && !Hinted(s, c)
    ensures Covered(s.threads, c)
  {
    hide Inv;
    var start, run :| ReachedBy(s, start, run);
    InitialInv(start);
    assert HintOk(start, c);
    RunHint(start, run, c);
    ReachableInv(s);
    HeadListed(s, Loc(c, Normal));
  }

  /** With no operation in flight, a normal list that is not empty is hinted. */
  lemma QuietHinted(s: State, c: nat)
    requires Reachable(s) && WordAt(s, Loc(c, Normal)).ptr != 0
    requires forall t :: 0 <= t < |s.threads| ==> s.threads[t] == Idle
    ensures Hinted(s, c)
  {
    hide Reachable;
    if !Hinted(s, c) {
      NeverLost(s, c);
      assert false;
    }
  }
}
