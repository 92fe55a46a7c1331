/** A step changes the registers of its own thread only. */
module CirculationShape {
  import opened Layout
  import opened Circulation
  import opened CirculationRun

  ghost predicate Shape(s: State, s': State, u: nat) {
    && |s'.threads| == |s.threads| && s'.usage.Keys == s.usage.Keys
    && forall t :: 0 <= t < |s.threads| && t != u ==> s'.threads[t] == s.threads[t]
  }

  lemma StepShape(s: State, u: nat, act: Action)
    requires Enabled(s, u, act)
    ensures Shape(s, Fire(s, u, act), u)
  {
    hide Loaded;
    if act.Go? {
      hide Advance, Shape;
      GoShape(s, u);
    }
  }

  lemma GoShape(s: State, u: nat)
    requires u < |s.threads|
    ensures Shape(s, Advance(s, u), u)
  {
    hide AdvancePush, AdvancePop, AdvanceHint, AdvanceDetach, AdvanceTake, AdvanceGive;
    match s.threads[u]
    case Push(p) => PushShape(s, u, p);
    case Pop(p) => PopShape(s, u, p);
    case Hint(p) => HintShape(s, u, p);
    case Detach(p) => DetachShape(s, u, p);
    case Take(p) => TakeShape(s, u, p);
    case Give(p) => GiveShape(s, u, p);
    case Idle =>
  }

  lemma AtShape(s: State, mid: State, u: nat, pc: Pc)
    requires u < |s.threads| && mid.threads == s.threads && mid.usage.Keys == s.usage.Keys
    ensures Shape(s, At(mid, u, pc), u)
  {
  }

  lemma PushedShape(s: State, l: Loc, chain: seq<nat>, word: Word)
    ensures Pushed(s, l, chain, word).threads == s.threads && Pushed(s, l, chain, word).usage == s.usage
  {
  }

  lemma PoppedShape(s: State, l: Loc, u: nat, taken: seq<nat>, word: Word)
    ensures Popped(s, l, u, taken, word).threads == s.threads && Popped(s, l, u, taken, word).usage == s.usage
  {
  }

  lemma PushShape(s: State, u: nat, p: PushPc)
    requires u < |s.threads|
    ensures Shape(s, AdvancePush(s, u, p), u)
  {
    hide Shape, Pushed;
    match p
    case PushLoad(loc, load) => AtShape(s, s, u, Push(PushLink(loc, load, WordAt(s, loc))));
    case PushLink(loc, load, word) => AtShape(s, s.(next := s.next[load.tail := word.ptr]), u, Push(PushCas(loc, load, word)));
    case PushCas(loc, load, word) =>
      PushedShape(s, loc, load.chain, Pack(load.head, word));
      AtShape(s, Pushed(s, loc, load.chain, Pack(load.head, word)), u, if word.ptr == 0 then Hint(MarkLoad(loc.cpu)) else Idle);
      AtShape(s, s, u, Push(PushLoad(loc, load)));
  }

  lemma PopShape(s: State, u: nat, p: PopPc)
    requires u < |s.threads| && s.threads[u] == Pop(p)
    ensures Shape(s, AdvancePop(s, u, p), u)
  {
    hide Shape, Popped;
    if p.PopCas? && WordAt(s, p.loc) == p.word {
      PoppedShape(s, p.loc, u, p.load.chain, Pack(p.nx, p.word));
      AtShape(s, Popped(s, p.loc, u, p.load.chain, Pack(p.nx, p.word)), u,
        if p.nx == 0 && !p.single then Hint(ClearLoad(p.loc.cpu)) else Idle);
    } else {
      hide AdvancePop;
      var pc := PopLocal(s, u, p);
      AtShape(s, s, u, pc);
    }
  }

  lemma HintShape(s: State, u: nat, p: HintPc)
    requires u < |s.threads|
    ensures Shape(s, AdvanceHint(s, u, p), u)
  {
  }

  lemma DetachShape(s: State, u: nat, p: DetachPc)
    requires u < |s.threads|
    ensures Shape(s, AdvanceDetach(s, u, p), u)
  {
  }

  lemma TakeShape(s: State, u: nat, p: TakePc)
    requires u < |s.threads|
    ensures Shape(s, AdvanceTake(s, u, p), u)
  {
    hide Shape, Popped;
    if p.TakeStore? {
      PoppedShape(s, Loc(p.cpu, Rseq), u, [p.tmp], Word(p.nx, 0));
      AtShape(s, Popped(s, Loc(p.cpu, Rseq), u, [p.tmp], Word(p.nx, 0)), u, Take(TakeCount(p.cpu)));
    } else if p.TakeCount? {
      AtShape(s, Counted(s, p.cpu, WRAP - 1), u, Idle);
    } else {
      AtShape(s, s, u, AdvanceTake(s, u, p).threads[u]);
    }
  }

  lemma GiveShape(s: State, u: nat, p: GivePc)
    requires u < |s.threads|
    ensures Shape(s, AdvanceGive(s, u, p), u)
  {
    hide Shape, Pushed;
    if p.GiveStore? {
      PushedShape(s, Loc(p.cpu, Rseq), p.load.chain, Word(p.load.head, 0));
      AtShape(s, Pushed(s, Loc(p.cpu, Rseq), p.load.chain, Word(p.load.head, 0)), u, Give(GiveCount(p.cpu, p.load.count)));
    } else if p.GiveCount? {
      AtShape(s, Counted(s, p.cpu, p.count), u, Idle);
    } else if p.GiveLink? {
      AtShape(s, s.(next := s.next[p.load.tail := p.tmp]), u, Give(GiveStore(p.cpu, p.load, p.tmp)));
    } else {
      AtShape(s, s, u, AdvanceGive(s, u, p).threads[u]);
    }
  }
}
