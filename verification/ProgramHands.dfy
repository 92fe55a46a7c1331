/** No block is lost: a block in the hands of a thread is in its registers. */
module ProgramHands {
  import opened Circulation
  import opened CirculationShape
  import opened CirculationInv
  import opened CirculationRun
  import opened Program
  import opened ProgramInv
  import opened ProgramSteps
  import opened ProgramKeeps
  import opened ProgramRun

  /** An operation that will overwrite the job's registers finds none in use. */
  ghost predicate FlightOk(pc: Pc, job: Job) {
    && (pc.Pop? ==> if pc.pop.single then job == Want else job.Seek? && (job.last ==> pc.pop.batch == 1))
    && (pc.Take? && !pc.take.TakeCount? ==> job == Want)
    && (pc.Detach? ==> job == Rest)
  }

  /** Everything thread `u` holds is in its registers. */
  ghost predicate AllMine(s: State, u: nat, pc: Pc, job: Job) {
    FlightOk(pc, job) && forall b :: PlaceAt(s, b) == Held(u) ==> b in Carried(pc) || b in Mine(job)
  }

  ghost predicate NoLeak(p: Prog) {
    && (forall b :: PlaceAt(p.core, b).Held? ==> PlaceAt(p.core, b).thread < |p.jobs|)
    && (forall u :: 0 <= u < |p.jobs| ==> AllMine(p.core, u, PcAt(p.core, u), p.jobs[u]))
  }

  // ----- instructions -----

  /** The hands do not change, and the operation in flight keeps its blocks. */
  lemma SameHandsMine(s: State, s': State, u: nat, pc: Pc, pc': Pc, job: Job)
    requires AllMine(s, u, pc, job) && s'.place == s.place && Carried(pc') == Carried(pc) && FlightOk(pc', job)
    ensures AllMine(s', u, pc', job)
  {
    forall b | PlaceAt(s', b) == Held(u)
      ensures b in Carried(pc') || b in Mine(job)
    {
      assert PlaceAt(s, b) == Held(u);
    }
  }

  lemma PushedMine(s: State, u: nat, pc: Pc, job: Job, l: Loc, chain: seq<nat>, word: Word, pc': Pc)
    requires AllMine(s, u, pc, job) && Carried(pc) == chain && FlightOk(pc', job)
    ensures AllMine(Pushed(s, l, chain, word), u, pc', job)
  {
    var s' := Pushed(s, l, chain, word);
    forall b | PlaceAt(s', b) == Held(u)
      ensures b in Mine(job)
    {
      assert PlaceAt(s, b) == Held(u) && b !in chain;
    }
  }

  lemma PoppedMine(s: State, u: nat, pc: Pc, job: Job, l: Loc, taken: seq<nat>, word: Word, pc': Pc, job': Job)
    requires AllMine(s, u, pc, job) && Carried(pc) == [] && Mine(job) == [] && FlightOk(pc', job')
    requires forall b :: b in taken ==> b in Mine(job')
    ensures AllMine(Popped(s, l, u, taken, word), u, pc', job')
  {
    var s' := Popped(s, l, u, taken, word);
    forall b | PlaceAt(s', b) == Held(u)
      ensures b in Mine(job')
    {
      assert b !in taken ==> PlaceAt(s, b) == Held(u);
    }
  }

  lemma AtMine(s: State, u: nat, pc: Pc, job: Job)
    requires u < |s.threads| && AllMine(s, u, pc, job)
    ensures AllMine(At(s, u, pc), u, PcAt(At(s, u, pc), u), job)
  {
    var s' := At(s, u, pc);
    forall b | PlaceAt(s', b) == Held(u)
      ensures b in Carried(pc) || b in Mine(job)
    {
      assert PlaceAt(s, b) == Held(u);
    }
  }

  lemma PushMine(s: State, u: nat, p: PushPc, job: Job)
    requires u < |s.threads| && s.threads[u] == Push(p) && AllMine(s, u, Push(p), job)
    ensures AllMine(AdvancePush(s, u, p), u, PcAt(AdvancePush(s, u, p), u), job)
  {
    hide AllMine, Pushed, PcAt;
    match p
    case PushLoad(loc, load) =>
      SameHandsMine(s, s, u, Push(p), Push(PushLink(loc, load, WordAt(s, loc))), job);
      AtMine(s, u, Push(PushLink(loc, load, WordAt(s, loc))), job);
    case PushLink(loc, load, word) =>
      var mid := s.(next := s.next[load.tail := word.ptr]);
      SameHandsMine(s, mid, u, Push(p), Push(PushCas(loc, load, word)), job);
      AtMine(mid, u, Push(PushCas(loc, load, word)), job);
    case PushCas(loc, load, word) =>
      if WordAt(s, loc) == word {
        var mid := Pushed(s, loc, load.chain, Pack(load.head, word));
        var pc := if word.ptr == 0 then Hint(MarkLoad(loc.cpu)) else Idle;
        PushedShape(s, loc, load.chain, Pack(load.head, word));
        PushedMine(s, u, Push(p), job, loc, load.chain, Pack(load.head, word), pc);
        AtMine(mid, u, pc, job);
      } else {
        SameHandsMine(s, s, u, Push(p), Push(PushLoad(loc, load)), job);
        AtMine(s, u, Push(PushLoad(loc, load)), job);
      }
  }

  lemma PopMine(s: State, u: nat, p: PopPc, job: Job)
    requires Inv(s) && u < |s.threads| && s.threads[u] == Pop(p) && AllMine(s, u, Pop(p), job)
    ensures AllMine(AdvancePop(s, u, p), u, PcAt(AdvancePop(s, u, p), u), Deliver(s, u, Go, job))
  {
    hide Shared, AllMine, Popped, PcAt;
    assert ThreadOk(s, u, s.threads[u]);
    assert FlightOk(Pop(p), job) by { Flight(s, u, Pop(p), job); }
    if p.PopCas? && WordAt(s, p.loc) == p.word {
      var pc := if p.nx == 0 && !p.single then Hint(ClearLoad(p.loc.cpu)) else Idle;
      var word := Pack(p.nx, p.word);
      PoppedShape(s, p.loc, u, p.load.chain, word);
      PoppedMine(s, u, Pop(p), job, p.loc, p.load.chain, word, pc, Deliver(s, u, Go, job));
      AtMine(Popped(s, p.loc, u, p.load.chain, word), u, pc, Deliver(s, u, Go, job));
    } else {
      PopStays(s, u, p, job);
    }
  }

  lemma Flight(s: State, u: nat, pc: Pc, job: Job)
    requires AllMine(s, u, pc, job)
    ensures FlightOk(pc, job)
  {
  }

  lemma PopStays(s: State, u: nat, p: PopPc, job: Job)
    requires u < |s.threads| && s.threads[u] == Pop(p) && AllMine(s, u, Pop(p), job) && !(p.PopCas? && WordAt(s, p.loc) == p.word)
    ensures AllMine(AdvancePop(s, u, p), u, PcAt(AdvancePop(s, u, p), u), job)
  {
    hide AllMine, PcAt;
    assert FlightOk(Pop(p), job) by { Flight(s, u, Pop(p), job); }
    var pc := PopStaysPc(s, u, p, job);
    SameHandsMine(s, s, u, Pop(p), pc, job);
    AtMine(s, u, pc, job);
  }

  lemma PopStaysPc(s: State, u: nat, p: PopPc, job: Job) returns (pc: Pc)
    requires u < |s.threads| && FlightOk(Pop(p), job) && !(p.PopCas? && WordAt(s, p.loc) == p.word)
    ensures AdvancePop(s, u, p) == At(s, u, pc) && FlightOk(pc, job) && Carried(pc) == []
  {
    var word := WordAt(s, p.loc);
    match p
    case PopLoad(loc, single, batch) =>
      if word.ptr != 0 {
        pc := Pop(PopWalk(loc, single, batch, word, One(word.ptr), VersionAt(s, loc)));
      } else if loc.kind.Normal? {
        pc := Pop(PopLoad(Loc(loc.cpu, Trimmed), single, batch));
      } else {
        pc := Hint(ClearLoad(loc.cpu));
      }
    case PopWalk(loc, single, batch, w, load, v) =>
      var nx := NextOf(s, load.tail);
      pc := if load.count < batch && nx != 0 then Pop(PopWalk(loc, single, batch, w, Longer(load, nx), v))
            else Pop(PopCas(loc, single, batch, w, load, nx, v));
    case PopCas(loc, single, batch, w, load, nx, v) => pc := Pop(PopLoad(loc, single, batch));
  }

  lemma HintMine(s: State, u: nat, p: HintPc, job: Job)
    requires u < |s.threads| && AllMine(s, u, Hint(p), job)
    ensures AllMine(AdvanceHint(s, u, p), u, PcAt(AdvanceHint(s, u, p), u), job)
  {
    var s' := AdvanceHint(s, u, p);
    SameHandsMine(s, s', u, Hint(p), PcAt(s', u), job);
  }

  lemma DetachMine(s: State, u: nat, p: DetachPc, job: Job)
    requires u < |s.threads| && s.threads[u] == Detach(p) && AllMine(s, u, Detach(p), job)
    ensures AllMine(AdvanceDetach(s, u, p), u, PcAt(AdvanceDetach(s, u, p), u), Deliver(s, u, Go, job))
  {
    hide AllMine, Popped;
    assert FlightOk(Detach(p), job) by { Flight(s, u, Detach(p), job); }
    var l := Loc(p.cpu, Normal);
    if p.DetachCas? && WordAt(s, l) == p.word {
      PoppedShape(s, l, u, ListAt(s, l), Pack(0, p.word));
      PoppedMine(s, u, Detach(p), job, l, ListAt(s, l), Pack(0, p.word), Idle, Deliver(s, u, Go, job));
      AtMine(Popped(s, l, u, ListAt(s, l), Pack(0, p.word)), u, Idle, Deliver(s, u, Go, job));
    } else {
      var pc := PcAt(AdvanceDetach(s, u, p), u);
      SameHandsMine(s, s, u, Detach(p), pc, job);
      AtMine(s, u, pc, job);
    }
  }

  lemma TakeMine(s: State, u: nat, p: TakePc, job: Job)
    requires u < |s.threads| && s.threads[u] == Take(p) && AllMine(s, u, Take(p), job)
    ensures AllMine(AdvanceTake(s, u, p), u, PcAt(AdvanceTake(s, u, p), u), Deliver(s, u, Go, job))
  {
    hide AllMine, Popped;
    assert FlightOk(Take(p), job) by { Flight(s, u, Take(p), job); }
    if p.TakeStore? {
      var l, word := Loc(p.cpu, Rseq), Word(p.nx, 0);
      PoppedShape(s, l, u, [p.tmp], word);
      PoppedMine(s, u, Take(p), job, l, [p.tmp], word, Take(TakeCount(p.cpu)), Got(p.tmp));
      AtMine(Popped(s, l, u, [p.tmp], word), u, Take(TakeCount(p.cpu)), Got(p.tmp));
    } else {
      TakeStays(s, u, p, job);
    }
  }

  lemma TakeStays(s: State, u: nat, p: TakePc, job: Job)
    requires u < |s.threads| && s.threads[u] == Take(p) && AllMine(s, u, Take(p), job) && !p.TakeStore?
    ensures AllMine(AdvanceTake(s, u, p), u, PcAt(AdvanceTake(s, u, p), u), Deliver(s, u, Go, job))
  {
    var s' := AdvanceTake(s, u, p);
    assert s'.place == s.place;
    forall b | PlaceAt(s', b) == Held(u)
      ensures b in Mine(Deliver(s, u, Go, job))
    {
      assert PlaceAt(s, b) == Held(u);
    }
  }

  /** A push that the kernel aborts hands its blocks back to the job. */
  lemma AbortMine(s: State, s': State, u: nat, pc: Pc, load: Load, job: Job)
    requires AllMine(s, u, pc, job) && Carried(pc) == load.chain && s'.place == s.place
    ensures AllMine(s', u, Idle, Store(load, job))
  {
    forall b | PlaceAt(s', b) == Held(u)
      ensures b in Mine(Store(load, job))
    {
      assert PlaceAt(s, b) == Held(u);
    }
  }

  lemma GiveMine(s: State, u: nat, p: GivePc, job: Job)
    requires u < |s.threads| && s.threads[u] == Give(p) && AllMine(s, u, Give(p), job)
    ensures AllMine(AdvanceGive(s, u, p), u, PcAt(AdvanceGive(s, u, p), u), Deliver(s, u, Go, job))
  {
    hide AllMine, Pushed;
    var s' := AdvanceGive(s, u, p);
    match p
    case GiveStore(cpu, load, tmp) =>
      var l, word := Loc(cpu, Rseq), Word(load.head, 0);
      PushedShape(s, l, load.chain, word);
      PushedMine(s, u, Give(p), job, l, load.chain, word, Give(GiveCount(cpu, load.count)));
      AtMine(Pushed(s, l, load.chain, word), u, Give(GiveCount(cpu, load.count)), job);
    case GiveCheck(cpu, load) =>
      if RunsOn(s, u, cpu) {
        SameHandsMine(s, s', u, Give(p), PcAt(s', u), job);
      } else {
        AbortMine(s, s', u, Give(p), load, job);
      }
    case _ => SameHandsMine(s, s', u, Give(p), PcAt(s', u), job);
  }

  lemma GoMine(s: State, u: nat, job: Job)
    requires Inv(s) && u < |s.threads| && AllMine(s, u, s.threads[u], job)
    ensures AllMine(Advance(s, u), u, PcAt(Advance(s, u), u), Deliver(s, u, Go, job))
  {
    hide Inv, AllMine, AdvancePush, AdvancePop, AdvanceHint, AdvanceDetach, AdvanceTake, AdvanceGive, PcAt;
    match s.threads[u]
    case Push(p) => PushMine(s, u, p, job);
    case Pop(p) => PopMine(s, u, p, job);
    case Hint(p) => HintMine(s, u, p, job);
    case Detach(p) => DetachMine(s, u, p, job);
    case Take(p) => TakeMine(s, u, p, job);
    case Give(p) => GiveMine(s, u, p, job);
    case Idle => IdleMine(s, u, job);
  }

  lemma IdleMine(s: State, u: nat, job: Job)
    requires u < |s.threads| && s.threads[u].Idle? && AllMine(s, u, Idle, job)
    ensures AllMine(s, u, PcAt(s, u), job)
  {
  }

  lemma SchedulerMine(s: State, u: nat, act: Action, job: Job)
    requires u < |s.threads| && Enabled(s, u, act) && (act.Abort? || act.Preempt? || act.Resume?) && AllMine(s, u, s.threads[u], job)
    ensures AllMine(Fire(s, u, act), u, PcAt(Fire(s, u, act), u), Deliver(s, u, act, job))
  {
    hide AllMine;
    var pc, s' := s.threads[u], Fire(s, u, act);
    assert FlightOk(pc, job) by { Flight(s, u, pc, job); }
    if (act.Abort? || act.Preempt?) && InSequence(pc) && pc.Give? {
      AbortMine(s, s', u, pc, pc.give.load, job);
    } else {
      SameHandsMine(s, s', u, pc, PcAt(s', u), job);
    }
  }

  // ----- jobs -----

  ghost predicate OwnMine(p: Prog, u: nat, step: Step)
    requires Can(p, u, step)
  {
    var p' := Do(p, u, step);
    u < |p'.jobs| && AllMine(p'.core, u, PcAt(p'.core, u), p'.jobs[u])
  }

  /** The hands stay, and what was in the registers of the job still is, or is in flight. */
  lemma KeepMine(s: State, s': State, u: nat, job: Job, pc': Pc, job': Job)
    requires AllMine(s, u, Idle, job) && s'.place == s.place && FlightOk(pc', job')
    requires forall b :: b in Mine(job) ==> b in Carried(pc') || b in Mine(job')
    ensures AllMine(s', u, pc', job')
  {
    forall b | PlaceAt(s', b) == Held(u)
      ensures b in Carried(pc') || b in Mine(job')
    {
      assert PlaceAt(s, b) == Held(u);
    }
  }

  lemma EasyMine(p: Prog, u: nat, step: Step)
    requires Can(p, u, step) && AllMine(p.core, u, Idle, p.jobs[u])
    requires step.Malloc? || step.LastTry? || step.GiveUp? || step.PopHere? || step.PopMail? || step.Steal? || step.Trim?
    ensures OwnMine(p, u, step)
  {
    hide AllMine;
    var p' := Do(p, u, step);
    KeepMine(p.core, p'.core, u, p.jobs[u], PcAt(p'.core, u), p'.jobs[u]);
  }

  lemma PutMine(p: Prog, u: nat, step: Step)
    requires Can(p, u, step) && AllMine(p.core, u, Idle, p.jobs[u]) && (step.PutHere? || step.PutMail? || step.Flush?)
    ensures OwnMine(p, u, step)
  {
    hide AllMine;
    var p' := Do(p, u, step);
    KeepMine(p.core, p'.core, u, p.jobs[u], PcAt(p'.core, u), p'.jobs[u]);
  }

  lemma TakeOneMine(p: Prog, u: nat)
    requires ProgInv(p) && Can(p, u, TakeOne) && AllMine(p.core, u, Idle, p.jobs[u])
    ensures OwnMine(p, u, TakeOne)
  {
    hide AllMine, Inv, OutsideOk, HoldsAll, Distinct, Segment;
    var p', load := Do(p, u, TakeOne), p.jobs[u].load;
    assert JobOk(p.core, u, p.core.threads[u], p.jobs[u]);
    if load.count > 1 {
      BatchTail(p.core, u, load);
      assert load.chain == [load.head] + load.chain[1..];
      assert NextOf(p.core, load.head) != 0 by { NotNull(p, u, load); }
    } else {
      assert load.chain == [load.head];
    }
    KeepMine(p.core, p'.core, u, p.jobs[u], Idle, p'.jobs[u]);
  }

  lemma NotNull(p: Prog, u: nat, load: Load)
    requires Inv(p.core) && JobOk(p.core, u, Idle, Batch(load)) && load.head in p.core.next && p.core.next[load.head] in load.chain
    ensures NextOf(p.core, load.head) != 0
  {
    MineHeld(p.core, u, Idle, Batch(load), p.core.next[load.head]);
    hide ListOk, ThreadOk, JobOk;
  }

  lemma LinkMine(p: Prog, u: nat, step: Step)
    requires ProgInv(p) && Can(p, u, step) && AllMine(p.core, u, Idle, p.jobs[u]) && (step.Reset? || step.Lay? || step.Elsewhere?)
    ensures OwnMine(p, u, step)
  {
    hide AllMine, Inv, OutsideOk, HoldsAll, Distinct, Segment;
    var p' := Do(p, u, step);
    KeepMine(p.core, p'.core, u, p.jobs[u], PcAt(p'.core, u), p'.jobs[u]);
  }

  /** A list in the registers is empty exactly if its head is null. */
  lemma ListHead(p: Prog, u: nat)
    requires ProgInv(p) && u < |p.jobs|
    ensures
      var job := p.jobs[u];
      && (job.Sorting? ==> if job.cur == 0 then job.rs == [] else job.rs != [] && job.rs[0] == job.cur)
      && (job.Sorting? && job.push.count == 0 ==> job.push.chain == [])
      && (job.Trimming? ==> if job.trim == 0 then job.ts == [] else job.ts != [] && job.ts[0] == job.trim)
  {
    hide OutsideOk, HoldsAll, Distinct, ListOk, ThreadOk;
    assert JobOk(p.core, u, p.core.threads[u], p.jobs[u]);
  }

  lemma SiftMine(p: Prog, u: nat, old': bool)
    requires ProgInv(p) && Can(p, u, Sift(old')) && AllMine(p.core, u, Idle, p.jobs[u])
    ensures OwnMine(p, u, Sift(old'))
  {
    hide AllMine, ProgInv, NextOf;
    var p', job := Do(p, u, Sift(old')), p.jobs[u];
    ListHead(p, u);
    assert job.rs == [job.cur] + job.rs[1..];
    KeepMine(p.core, p'.core, u, job, Idle, p'.jobs[u]);
  }

  lemma SortedMine(p: Prog, u: nat, step: Step)
    requires ProgInv(p) && Can(p, u, step) && AllMine(p.core, u, Idle, p.jobs[u]) && (step.Sifted? || step.Done?)
    ensures OwnMine(p, u, step)
  {
    hide AllMine, ProgInv;
    var p', job := Do(p, u, step), p.jobs[u];
    ListHead(p, u);
    KeepMine(p.core, p'.core, u, job, Idle, p'.jobs[u]);
  }

  lemma DisposeMine(p: Prog, u: nat, released: bool)
    requires ProgInv(p) && Can(p, u, Dispose(released)) && AllMine(p.core, u, Idle, p.jobs[u])
    ensures OwnMine(p, u, Dispose(released))
  {
    hide AllMine, ProgInv, NextOf;
    var p', job := Do(p, u, Dispose(released)), p.jobs[u];
    ListHead(p, u);
    assert job.ts == [job.trim] + job.ts[1..];
    KeepMine(p.core, p'.core, u, job, PcAt(p'.core, u), p'.jobs[u]);
  }

  lemma HandMine(p: Prog, u: nat, step: Step)
    requires Can(p, u, step) && AllMine(p.core, u, Idle, p.jobs[u]) && (step.Return? || step.Free? || step.Refill?)
    ensures OwnMine(p, u, step)
  {
    var p', job := Do(p, u, step), p.jobs[u];
    forall b | PlaceAt(p'.core, b) == Held(u)
      ensures b in Mine(p'.jobs[u])
    {
      assert PlaceAt(p.core, b) == Held(u) || b in Mine(p'.jobs[u]);
    }
  }

  lemma JobMine(p: Prog, u: nat, step: Step)
    requires ProgInv(p) && Can(p, u, step) && !step.Core? && AllMine(p.core, u, Idle, p.jobs[u])
    ensures OwnMine(p, u, step)
  {
    hide ProgInv, AllMine, OwnMine, Can;
    match step
    case TakeOne => TakeOneMine(p, u);
    case Reset => LinkMine(p, u, step);
    case Elsewhere(_, _) => LinkMine(p, u, step);
    case Lay => LinkMine(p, u, step);
    case PutHere(_) => PutMine(p, u, step);
    case PutMail(_) => PutMine(p, u, step);
    case Flush => PutMine(p, u, step);
    case Sift(old') => SiftMine(p, u, old');
    case Sifted => SortedMine(p, u, step);
    case Dispose(released) => DisposeMine(p, u, released);
    case Done => SortedMine(p, u, step);
    case Return => HandMine(p, u, step);
    case Free(_) => HandMine(p, u, step);
    case Refill(_) => HandMine(p, u, step);
    case _ => EasyMine(p, u, step);
  }

  lemma CoreMine(p: Prog, u: nat, act: Action)
    requires Inv(p.core) && Can(p, u, Core(act)) && AllMine(p.core, u, p.core.threads[u], p.jobs[u])
    ensures OwnMine(p, u, Core(act))
  {
    hide Inv, AllMine, Fire, Deliver, Enabled, PcAt;
    if act.Go? {
      GoMine(p.core, u, p.jobs[u]);
      GoFires(p.core, u);
    } else {
      SchedulerMine(p.core, u, act, p.jobs[u]);
    }
  }

  /** The hands of the others stay. */
  lemma OthersMine(p: Prog, u: nat, step: Step, t: nat)
    requires ProgInv(p) && Can(p, u, step) && Timely(p, u, step) && Allowed(p, u, step) && t < |p.jobs| && t != u
    requires AllMine(p.core, t, PcAt(p.core, t), p.jobs[t])
    ensures AllMine(Do(p, u, step).core, t, PcAt(Do(p, u, step).core, t), p.jobs[t])
  {
    hide Inv, JobsOk, OutsideOk, Fire, Enabled, InTime, Do, JobStep, CoreAct, Timely;
    match CoreAct(p, u, step)
    case None =>
    case Some(act) => OthersMineCore(p.core, u, act, t, p.jobs[t]);
  }

  lemma OthersMineCore(s: State, u: nat, act: Action, t: nat, job: Job)
    requires Inv(s) && Enabled(s, u, act) && InTime(s, u, act) && t < |s.threads| && t != u && AllMine(s, t, s.threads[t], job)
    ensures AllMine(Fire(s, u, act), t, PcAt(Fire(s, u, act), t), job)
  {
    hide Inv, Fire, Enabled, InTime;
    var s' := Fire(s, u, act);
    StepShape(s, u, act);
    forall b | PlaceAt(s', b) == Held(t)
      ensures b in Carried(s.threads[t]) || b in Mine(job)
    {
      StepTransfer(s, u, act, b);
      assert PlaceAt(s, b) == Held(t);
    }
  }

  lemma HoldersStep(p: Prog, u: nat, step: Step)
    requires Inv(p.core) && Can(p, u, step) && Timely(p, u, step) && Allowed(p, u, step)
    requires forall b :: PlaceAt(p.core, b).Held? ==> PlaceAt(p.core, b).thread < |p.jobs|
    ensures forall b :: PlaceAt(Do(p, u, step).core, b).Held? ==> PlaceAt(Do(p, u, step).core, b).thread < |p.jobs|
  {
    hide Inv, Fire, Enabled, InTime, Do, CoreAct, Timely;
    match CoreAct(p, u, step)
    case None =>
    case Some(act) =>
      forall b
        ensures Transfer(PlaceAt(p.core, b), PlaceAt(Do(p, u, step).core, b), u, act, b)
      {
        StepTransfer(p.core, u, act, b);
      }
  }

  lemma LeakStep(p: Prog, u: nat, step: Step)
    requires ProgInv(p) && NoLeak(p) && Can(p, u, step) && Timely(p, u, step)
    ensures NoLeak(Do(p, u, step))
  {
    hide Inv, JobsOk, OutsideOk, AllMine, Do, Allowed, Timely;
    ProgKeeps(p, u, step);
    DoShape(p, u, step);
    assert AllMine(p.core, u, PcAt(p.core, u), p.jobs[u]);
    if step.Core? {
      CoreMine(p, u, step.act);
    } else {
      JobMine(p, u, step);
    }
    var p' := Do(p, u, step);
    HoldersStep(p, u, step);
    forall t | 0 <= t < |p'.jobs|
      ensures AllMine(p'.core, t, PcAt(p'.core, t), p'.jobs[t])
    {
      if t != u {
        assert AllMine(p.core, t, PcAt(p.core, t), p.jobs[t]);
        OthersMine(p, u, step, t);
      }
    }
  }

  lemma {:induction false} RunsLeak(p: Prog, run: seq<Turn>)
    requires ProgInv(p) && NoLeak(p) && Runs(p, run)
    ensures NoLeak(Final(p, run))
    decreases |run|
  {
    hide ProgInv, NoLeak, Can, Do, Timely, Allowed;
    if run != [] {
      var u, step := run[0].thread, run[0].step;
      ProgKeeps(p, u, step);
      LeakStep(p, u, step);
      RunsLeak(Do(p, u, step), run[1..]);
    }
  }

  lemma FreshNoLeak(p: Prog)
    requires Fresh(p)
    ensures NoLeak(p)
  {
    assert forall b :: PlaceAt(p.core, b) == Uncarved || PlaceAt(p.core, b) == Live by { NoneHeld(p.core); }
  }

  lemma NoneHeld(s: State)
    requires Initial(s)
    ensures forall b :: PlaceAt(s, b) == Uncarved || PlaceAt(s, b) == Live
  {
  }

  ghost predicate InHands(p: Prog, u: nat, b: nat) { u < |p.jobs| && (b in Carried(PcAt(p.core, u)) || b in Mine(p.jobs[u])) }

  ghost predicate Listed(s: State, l: Loc, b: nat) { exists xs :: Chain(s.next, WordAt(s, l).ptr, xs) && b in xs }

  /** In every state of every run each block is in exactly one place: not carved yet, with one client, on one list in
      memory, or in the registers of one thread. */
  lemma Accounted(p: Prog, b: nat) returns (where: Place)
    requires Arises(p) && b in p.core.next
    ensures b in p.raw <==> where == Uncarved
    ensures p.clients[b] == if where == Live then 1 else 0
    ensures forall l :: Listed(p.core, l, b) <==> where == In(l)
    ensures forall u: nat :: InHands(p, u, b) <==> where == Held(u)
  {
    hide Arises, Reachable, Inv, JobsOk, Listed;
    Refines(p);
    assert exists start, run :: ComesFrom(p, start, run) by { Origin(p); }
    var start, run :| ComesFrom(p, start, run);
    FreshInv(start);
    FreshNoLeak(start);
    RunsLeak(start, run);
    where := PlaceAt(p.core, b);
    KeysAgree(p.core);
    forall l
      ensures Listed(p.core, l, b) <==> where == In(l)
    {
      ListedThere(p.core, l, b);
    }
    forall u: nat
      ensures InHands(p, u, b) <==> where == Held(u)
    {
      if InHands(p, u, b) {
        HeldInHand(p, u, b);
      }
      if where == Held(u) {
        HolderExists(p, u, b);
      }
    }
  }

  lemma Origin(p: Prog)
    requires Arises(p)
    ensures exists start, run :: ComesFrom(p, start, run)
  {
  }

  lemma KeysAgree(s: State)
    requires Inv(s)
    ensures s.place.Keys == s.next.Keys
  {
    hide ListOk, ThreadOk;
  }

  lemma ListedThere(s: State, l: Loc, b: nat)
    requires Inv(s)
    ensures Listed(s, l, b) <==> PlaceAt(s, b) == In(l)
  {
    hide ThreadOk, WellFormed, Segment, Distinct, Inv;
    if Listed(s, l, b) {
      var xs :| Chain(s.next, WordAt(s, l).ptr, xs) && b in xs;
      MemoryList(s, l, xs);
    }
    assert ListOk(s, l) by { ListHolds(s, l); }
    assert PlaceAt(s, b) == In(l) ==> b in ListAt(s, l);
  }

  lemma ListHolds(s: State, l: Loc)
    requires Inv(s)
    ensures ListOk(s, l)
  {
  }

  /** Only threads hold blocks. */
  lemma HolderExists(p: Prog, u: nat, b: nat)
    requires ProgInv(p) && NoLeak(p) && PlaceAt(p.core, b) == Held(u)
    ensures InHands(p, u, b)
  {
    hide Inv, OutsideOk;
    assert AllMine(p.core, u, PcAt(p.core, u), p.jobs[u]);
  }
}
