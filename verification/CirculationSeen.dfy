/** What an operation has seen when it ends with empty hands. */
module CirculationSeen {
  import opened Circulation
  import opened CirculationRun
  import opened CirculationShape

  /** The state after the first `i` events of a run. */
  ghost function StateAt(s: State, run: seq<Event>, i: nat): State
    requires Possible(s, run) && i <= |run|
    decreases i
  {
    if i == 0 then s else StateAt(Fire(s, run[0].thread, run[0].action), run[1..], i - 1)
  }

  /** The thread stands in a pop in every state of the run. */
  ghost predicate Popping(s: State, run: seq<Event>, u: nat)
    requires Possible(s, run)
    decreases |run|
  {
    u < |s.threads| && s.threads[u].Pop? && (run != [] ==> Popping(Fire(s, run[0].thread, run[0].action), run[1..], u))
  }

  /** After `i` events the list was empty in memory. */
  ghost predicate EmptyAt(s: State, run: seq<Event>, i: int, l: Loc)
    requires Possible(s, run)
  {
    0 <= i <= |run| && WordAt(StateAt(s, run, i), l).ptr == 0
  }

  /** The next instruction of the thread ends its pop and writes no list word. */
  ghost predicate GivesUp(s: State, u: nat) {
    && Enabled(s, u, Go) && s.threads[u].Pop?
    && var s' := Fire(s, u, Go); u < |s'.threads| && !s'.threads[u].Pop? && s'.heads == s.heads
  }

  /** A successful compare-and-swap writes a word with another tag. */
  lemma GivesUpEmpty(s: State, u: nat)
    requires GivesUp(s, u)
    ensures s.threads[u].pop.PopLoad? && !s.threads[u].pop.loc.kind.Normal? && WordAt(s, s.threads[u].pop.loc).ptr == 0
  {
    hide AdvancePush, AdvancePop, AdvanceHint, AdvanceDetach, AdvanceTake, AdvanceGive, Running;
    PopGivesUp(s, u, s.threads[u].pop);
  }

  lemma PopGivesUp(s: State, u: nat, p: PopPc)
    requires u < |s.threads|
    ensures
      var s' := AdvancePop(s, u, p);
      u < |s'.threads| && !s'.threads[u].Pop? && s'.heads == s.heads ==> p.PopLoad? && !p.loc.kind.Normal? && WordAt(s, p.loc).ptr == 0
  {
    hide At;
    if p.PopLoad? {
      var word := WordAt(s, p.loc);
      AtThread(s, u, Pop(PopWalk(p.loc, p.single, p.batch, word, One(word.ptr), VersionAt(s, p.loc))));
      AtThread(s, u, Pop(PopLoad(Loc(p.loc.cpu, Trimmed), p.single, p.batch)));
    } else if p.PopWalk? {
      var nx := NextOf(s, p.load.tail);
      AtThread(s, u, Pop(PopWalk(p.loc, p.single, p.batch, p.word, Longer(p.load, nx), p.v)));
      AtThread(s, u, Pop(PopCas(p.loc, p.single, p.batch, p.word, p.load, nx, p.v)));
    } else if WordAt(s, p.loc) == p.word {
      var mid := Popped(s, p.loc, u, p.load.chain, Pack(p.nx, p.word));
      AtThread(mid, u, if p.nx == 0 && !p.single then Hint(ClearLoad(p.loc.cpu)) else Idle);
      assert mid.heads[p.loc] == Pack(p.nx, p.word);
      assert p.loc in s.heads ==> s.heads[p.loc] != Pack(p.nx, p.word);
    } else {
      AtThread(s, u, Pop(PopLoad(p.loc, p.single, p.batch)));
    }
  }

  /** How a step of the machine moves a pop. */
  lemma PopMoves(s: State, t: nat, act: Action, u: nat)
    requires Enabled(s, t, act) && u < |s.threads| && s.threads[u].Pop?
    ensures
      var s' := Fire(s, t, act);
      u < |s'.threads| && s'.threads[u].Pop? ==>
        var l, l' := s.threads[u].pop.loc, s'.threads[u].pop.loc;
        l' == l || (l.kind.Normal? && l' == Loc(l.cpu, Trimmed) && WordAt(s, l).ptr == 0)
  {
    hide AdvancePush, AdvancePop, AdvanceHint, AdvanceDetach, AdvanceTake, AdvanceGive, Running, RunsOn, WordAt, Loaded, Honest;
    StepShape(s, t, act);
    if act.Go? && t == u {
      PopLeads(s, u, s.threads[u].pop);
    }
  }

  lemma PopLeads(s: State, u: nat, p: PopPc)
    requires u < |s.threads| && s.threads[u] == Pop(p)
    ensures
      var s' := AdvancePop(s, u, p);
      u < |s'.threads| && s'.threads[u].Pop? ==>
        var l, l' := p.loc, s'.threads[u].pop.loc;
        l' == l || (l.kind.Normal? && l' == Loc(l.cpu, Trimmed) && WordAt(s, l).ptr == 0)
  {
    hide WordAt, NextOf, Popped, At;
    if p.PopLoad? {
      var word := WordAt(s, p.loc);
      AtThread(s, u, Pop(PopWalk(p.loc, p.single, p.batch, word, One(word.ptr), VersionAt(s, p.loc))));
      AtThread(s, u, Pop(PopLoad(Loc(p.loc.cpu, Trimmed), p.single, p.batch)));
      AtThread(s, u, Hint(ClearLoad(p.loc.cpu)));
    } else if p.PopWalk? {
      var nx := NextOf(s, p.load.tail);
      AtThread(s, u, Pop(PopWalk(p.loc, p.single, p.batch, p.word, Longer(p.load, nx), p.v)));
      AtThread(s, u, Pop(PopCas(p.loc, p.single, p.batch, p.word, p.load, nx, p.v)));
    } else {
      PoppedShape(s, p.loc, u, p.load.chain, Pack(p.nx, p.word));
      AtThread(Popped(s, p.loc, u, p.load.chain, Pack(p.nx, p.word)), u,
        if p.nx == 0 && !p.single then Hint(ClearLoad(p.loc.cpu)) else Idle);
      AtThread(s, u, Pop(PopLoad(p.loc, p.single, p.batch)));
    }
  }

  lemma AtThread(s: State, u: nat, pc: Pc)
    requires u < |s.threads|
    ensures var s' := At(s, u, pc); |s'.threads| == |s.threads| && s'.threads[u] == pc && s'.heads == s.heads
  {
  }

  lemma LaterEmpty(s: State, run: seq<Event>, i: int, l: Loc)
    requires Possible(s, run) && run != [] && EmptyAt(Fire(s, run[0].thread, run[0].action), run[1..], i, l)
    ensures EmptyAt(s, run, i + 1, l)
  {
  }

  /** A pop on its way from one of a CPU's transfer lists that gives up in the end finds the trimmed one empty. */
  lemma {:induction false} TrimmedEmpty(s: State, run: seq<Event>, u: nat, cpu: nat) returns (j: nat)
    requires Possible(s, run) && Popping(s, run, u) && s.threads[u].pop.loc == Loc(cpu, Trimmed) && GivesUp(End(s, run), u)
    ensures EmptyAt(s, run, j, Loc(cpu, Trimmed))
    decreases |run|
  {
    hide Enabled, Fire, GivesUp, InTime;
    if run == [] {
      GivesUpEmpty(s, u);
      j := 0;
    } else {
      PopMoves(s, run[0].thread, run[0].action, u);
      j := TrimmedEmpty(Fire(s, run[0].thread, run[0].action), run[1..], u, cpu);
      LaterEmpty(s, run, j, Loc(cpu, Trimmed));
      j := j + 1;
    }
  }

  lemma {:induction false} BothEmpty(s: State, run: seq<Event>, u: nat, cpu: nat) returns (i: nat, j: nat)
    requires Possible(s, run) && Popping(s, run, u) && s.threads[u].pop.loc == Loc(cpu, Normal) && GivesUp(End(s, run), u)
    ensures i < j && EmptyAt(s, run, i, Loc(cpu, Normal)) && EmptyAt(s, run, j, Loc(cpu, Trimmed))
    decreases |run|
  {
    hide Enabled, Fire, GivesUp, InTime;
    i, j := 0, 0;
    if run == [] {
      GivesUpEmpty(s, u);
      assert false;
    } else {
      var s' := Fire(s, run[0].thread, run[0].action);
      PopMoves(s, run[0].thread, run[0].action, u);
      if s'.threads[u].pop.loc == Loc(cpu, Normal) {
        i, j := BothEmpty(s', run[1..], u, cpu);
        LaterEmpty(s, run, i, Loc(cpu, Normal));
        LaterEmpty(s, run, j, Loc(cpu, Trimmed));
        i, j := i + 1, j + 1;
      } else {
        j := TrimmedEmpty(s', run[1..], u, cpu);
        LaterEmpty(s, run, j, Loc(cpu, Trimmed));
        i, j := 0, j + 1;
      }
    }
  }

  /** A pop starts, any threads take any steps, and the pop ends without a block: then since it started its CPU's normal
      list was empty at some moment, and at a later one the trimmed list. */
  lemma EmptyHanded(s: State, u: nat, cpu: nat, single: bool, batch: nat, run: seq<Event>) returns (i: nat, j: nat)
    requires Enabled(s, u, StartPop(cpu, single, batch)) && Possible(Fire(s, u, StartPop(cpu, single, batch)), run)
    requires Popping(Fire(s, u, StartPop(cpu, single, batch)), run, u) && GivesUp(End(Fire(s, u, StartPop(cpu, single, batch)), run), u)
    ensures
      var s1 := Fire(s, u, StartPop(cpu, single, batch));
      i < j && EmptyAt(s1, run, i, Loc(cpu, Normal)) && EmptyAt(s1, run, j, Loc(cpu, Trimmed))
  {
    hide GivesUp, Possible, Popping, End, EmptyAt;
    i, j := BothEmpty(Fire(s, u, StartPop(cpu, single, batch)), run, u, cpu);
  }

  /** A detach that ends without a list ends at a moment when the list is empty. */
  lemma DetachEmpty(s: State, u: nat)
    requires Enabled(s, u, Go) && s.threads[u].Detach?
    ensures var s' := Fire(s, u, Go);
      u < |s'.threads| && !s'.threads[u].Detach? && s'.heads == s.heads ==> WordAt(s, Loc(s.threads[u].detach.cpu, Normal)).ptr == 0
  {
    hide AdvancePush, AdvancePop, AdvanceHint, AdvanceDetach, AdvanceTake, AdvanceGive, Running, WordAt;
    DetachEnds(s, u, s.threads[u].detach);
  }

  lemma DetachEnds(s: State, u: nat, p: DetachPc)
    requires u < |s.threads|
    ensures
      var s' := AdvanceDetach(s, u, p);
      u < |s'.threads| && !s'.threads[u].Detach? && s'.heads == s.heads ==> WordAt(s, Loc(p.cpu, Normal)).ptr == 0
  {
    hide At;
    var loc := Loc(p.cpu, Normal);
    var now := WordAt(s, loc);
    if p.DetachCas? && now == p.word {
      var mid := Popped(s, loc, u, ListAt(s, loc), Pack(0, p.word));
      AtThread(mid, u, Idle);
      assert mid.heads[loc] == Pack(0, p.word);
      assert loc in s.heads ==> s.heads[loc] != Pack(0, p.word);
    } else {
      AtThread(s, u, if now.ptr == 0 then Idle else Detach(DetachCas(p.cpu, now)));
    }
  }

  /** A restartable pop that ends without a block ends at a moment when the list is empty, or its thread left the CPU. */
  lemma TakeEmpty(s: State, u: nat)
    requires Enabled(s, u, Go) && s.threads[u].Take? && !s.threads[u].take.TakeCount?
    ensures var s' := Fire(s, u, Go);
      u < |s'.threads| && !s'.threads[u].Take? ==>
        WordAt(s, Loc(s.threads[u].take.cpu, Rseq)).ptr == 0 || !RunsOn(s, u, s.threads[u].take.cpu)
  {
    hide AdvancePush, AdvancePop, AdvanceHint, AdvanceDetach, AdvanceTake, AdvanceGive, Running, RunsOn, WordAt;
    TakeEnds(s, u, s.threads[u].take);
  }

  lemma TakeEnds(s: State, u: nat, p: TakePc)
    requires u < |s.threads| && !p.TakeCount?
    ensures var s' := AdvanceTake(s, u, p);
      u < |s'.threads| && !s'.threads[u].Take? ==> WordAt(s, Loc(p.cpu, Rseq)).ptr == 0 || !RunsOn(s, u, p.cpu)
  {
    hide WordAt, RunsOn, NextOf;
  }
}
