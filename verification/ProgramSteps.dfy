/** Every step of the program is a step of the core that the core allows. */
module ProgramSteps {
  import opened Options
  import opened Circulation
  import opened CirculationInv
  import opened CirculationKeeps
  import opened CirculationRun
  import opened Program
  import opened ProgramInv

  // ----- what an instruction leaves alone -----

  /** The block is held, and not by the operation in flight. */
  ghost predicate Apart(s: State, u: nat, b: nat) {
    PlaceAt(s, b).Held? && (PlaceAt(s, b).thread == u ==> u < |s.threads| && b !in Carried(s.threads[u]))
  }

  ghost predicate Same(s: State, s': State, b: nat) {
    PlaceAt(s', b) == PlaceAt(s, b) && NextOf(s', b) == NextOf(s, b) && (b in s.next ==> b in s'.next)
  }

  /** A link of the chain in flight is written. */
  lemma LinkLeaves(s: State, u: nat, chain: seq<nat>, tail: nat, p: nat, b: nat)
    requires HoldsAll(s.place, u, chain) && tail in chain && PlaceAt(s, b).Held? && (PlaceAt(s, b).thread == u ==> b !in chain)
    ensures Same(s, s.(next := s.next[tail := p]), b)
  {
    assert PlaceAt(s, tail) == Held(u);
  }

  lemma PushedLeaves(s: State, u: nat, l: Loc, chain: seq<nat>, word: Word, b: nat)
    requires HoldsAll(s.place, u, chain) && PlaceAt(s, b).Held? && (PlaceAt(s, b).thread == u ==> b !in chain)
    ensures Same(s, Pushed(s, l, chain, word), b) && Pushed(s, l, chain, word).threads == s.threads
  {
  }

  lemma PoppedLeaves(s: State, u: nat, l: Loc, taken: seq<nat>, word: Word, b: nat)
    requires PlaceAt(s, b).Held? && (b in taken ==> PlaceAt(s, b).In?)
    ensures Same(s, Popped(s, l, u, taken, word), b) && Popped(s, l, u, taken, word).threads == s.threads
  {
  }

  lemma AtLeaves(s: State, s': State, u: nat, pc: Pc, b: nat)
    requires Same(s, s', b) && u < |s'.threads|
    ensures Same(s, At(s', u, pc), b)
  {
  }

  lemma PushLeaves(s: State, u: nat, p: PushPc, b: nat)
    requires Inv(s) && u < |s.threads| && s.threads[u] == Push(p) && Apart(s, u, b)
    ensures Same(s, AdvancePush(s, u, p), b)
  {
    hide Shared, Segment, Distinct, HoldsAll, Pushed, Same, PlaceAt;
    assert ThreadOk(s, u, s.threads[u]);
    if p.PushLink? {
      assert Last(p.load.chain) in p.load.chain;
      LinkLeaves(s, u, p.load.chain, p.load.tail, p.word.ptr, b);
      AtLeaves(s, s.(next := s.next[p.load.tail := p.word.ptr]), u, Push(PushCas(p.loc, p.load, p.word)), b);
    } else if p.PushCas? && WordAt(s, p.loc) == p.word {
      var word := Pack(p.load.head, p.word);
      PushedLeaves(s, u, p.loc, p.load.chain, word, b);
      AtLeaves(s, Pushed(s, p.loc, p.load.chain, word), u, if p.word.ptr == 0 then Hint(MarkLoad(p.loc.cpu)) else Idle, b);
    } else {
      SameAlways(s, b);
      AtLeaves(s, s, u, AdvancePush(s, u, p).threads[u], b);
    }
  }

  lemma SameAlways(s: State, b: nat)
    ensures Same(s, s, b)
  {
  }

  lemma GiveLeaves(s: State, u: nat, p: GivePc, b: nat)
    requires Inv(s) && u < |s.threads| && s.threads[u] == Give(p) && Apart(s, u, b)
    ensures Same(s, AdvanceGive(s, u, p), b)
  {
    hide Shared, Segment, Distinct, HoldsAll, Pushed, Same, PlaceAt;
    assert ThreadOk(s, u, s.threads[u]);
    if p.GiveLink? {
      assert Last(p.load.chain) in p.load.chain;
      LinkLeaves(s, u, p.load.chain, p.load.tail, p.tmp, b);
      AtLeaves(s, s.(next := s.next[p.load.tail := p.tmp]), u, Give(GiveStore(p.cpu, p.load, p.tmp)), b);
    } else if p.GiveStore? {
      PushedLeaves(s, u, Loc(p.cpu, Rseq), p.load.chain, Word(p.load.head, 0), b);
      AtLeaves(s, Pushed(s, Loc(p.cpu, Rseq), p.load.chain, Word(p.load.head, 0)), u, Give(GiveCount(p.cpu, p.load.count)), b);
    } else if p.GiveCount? {
      CountedLeaves(s, p.cpu, p.count, b);
      AtLeaves(s, Counted(s, p.cpu, p.count), u, Idle, b);
    } else {
      SameAlways(s, b);
      AtLeaves(s, s, u, AdvanceGive(s, u, p).threads[u], b);
    }
  }

  lemma CountedLeaves(s: State, cpu: nat, n: nat, b: nat)
    ensures Same(s, Counted(s, cpu, n), b) && Counted(s, cpu, n).threads == s.threads
  {
  }

  lemma PopLeaves(s: State, u: nat, p: PopPc, b: nat)
    requires Inv(s) && u < |s.threads| && s.threads[u] == Pop(p) && InTime(s, u, Go) && PlaceAt(s, b).Held?
    ensures Same(s, AdvancePop(s, u, p), b)
  {
    hide Inv, InTime, Popped, Same, PlaceAt;
    if p.PopCas? && WordAt(s, p.loc) == p.word {
      if b in p.load.chain {
        TakenListed(s, u, p, b);
      }
      PoppedLeaves(s, u, p.loc, p.load.chain, Pack(p.nx, p.word), b);
      AtLeaves(s, Popped(s, p.loc, u, p.load.chain, Pack(p.nx, p.word)), u,
        if p.nx == 0 && !p.single then Hint(ClearLoad(p.loc.cpu)) else Idle, b);
    } else {
      hide AdvancePop;
      var pc := PopLocal(s, u, p);
      SameAlways(s, b);
      AtLeaves(s, s, u, pc, b);
    }
  }

  lemma DetachLeaves(s: State, u: nat, p: DetachPc, b: nat)
    requires Inv(s) && u < |s.threads| && s.threads[u] == Detach(p) && PlaceAt(s, b).Held?
    ensures Same(s, AdvanceDetach(s, u, p), b)
  {
    hide WellFormed, Segment, Distinct;
    assert ListOk(s, Loc(p.cpu, Normal));
  }

  lemma TakeLeaves(s: State, u: nat, p: TakePc, b: nat)
    requires Inv(s) && u < |s.threads| && s.threads[u] == Take(p) && PlaceAt(s, b).Held?
    ensures Same(s, AdvanceTake(s, u, p), b)
  {
    hide WellFormed, Segment, Distinct;
    assert ThreadOk(s, u, s.threads[u]);
    assert ListOk(s, Loc(p.cpu, Rseq));
    HeadOk(s, Loc(p.cpu, Rseq));
  }

  /** An instruction touches only the blocks in flight and blocks on lists. */
  lemma GoLeaves(s: State, u: nat, b: nat)
    requires Inv(s) && u < |s.threads| && InTime(s, u, Go) && Apart(s, u, b)
    ensures Same(s, Advance(s, u), b)
  {
    hide Inv, AdvancePush, AdvancePop, AdvanceDetach, AdvanceTake, AdvanceGive, Same, Carried;
    match s.threads[u]
    case Push(p) => PushLeaves(s, u, p, b);
    case Pop(p) => PopLeaves(s, u, p, b);
    case Hint(p) => HintLeaves(s, u, p, b);
    case Detach(p) => DetachLeaves(s, u, p, b);
    case Take(p) => TakeLeaves(s, u, p, b);
    case Give(p) => GiveLeaves(s, u, p, b);
    case Idle => SameAlways(s, b);
  }

  lemma HintLeaves(s: State, u: nat, p: HintPc, b: nat)
    requires u < |s.threads|
    ensures Same(s, AdvanceHint(s, u, p), b)
  {
  }

  /** No step touches the blocks another thread holds. */
  lemma OthersLeft(s: State, u: nat, act: Action, b: nat, t: nat)
    requires Inv(s) && Enabled(s, u, act) && InTime(s, u, act) && PlaceAt(s, b) == Held(t) && t != u
    ensures Same(s, Fire(s, u, act), b)
  {
    hide Inv, Advance, Segment, Distinct, Loaded;
    if act.Go? {
      GoLeaves(s, u, b);
    }
  }

  // ----- the step of the core -----

  /** What a step of the program does to the core; none if it only changes registers of the job. */
  ghost function CoreAct(p: Prog, u: nat, step: Step): Option<Action>
    requires Can(p, u, step)
  {
    var job := p.jobs[u];
    match step
    case Core(act) => Some(act)
    case PopHere(cpu) => Some(StartTake(cpu))
    case PopMail(cpu) => Some(StartPop(cpu, true, 1))
    case Steal(cpu, batch) => Some(StartPop(cpu, false, batch))
    case Refill(chain) => Some(Carve(set b | b in chain))
    case Lay =>
      if job.left == 0 || job.left > |job.load.chain| then None
      else Some(Relink(job.load.chain[job.left - 1], First(job.load.chain[job.left..], 0)))
    case Reset => Some(Relink(job.block, 0))
    case Elsewhere(b, target) => Some(Relink(b, target))
    case Return => Some(HandOut(job.block))
    case Free(b) => Some(GiveBack(b))
    case PutHere(cpu) => Some(StartGive(cpu, job.load))
    case PutMail(cpu) => Some(StartPush(Loc(cpu, Normal), job.load))
    case Trim(cpu) => Some(StartDetach(cpu))
    case Sift(old') => Some(Relink(job.cur, if old' then job.trim else job.push.head))
    case Flush => Some(StartPush(Loc(job.cpu, Normal), job.push))
    case Dispose(released) => Some(StartPush(Loc(job.cpu, if released then Trimmed else Normal), One(job.trim)))
    case _ => None
  }

  /** The step is one the core allows, with the same effect. */
  ghost predicate Allowed(p: Prog, u: nat, step: Step)
    requires Can(p, u, step)
  {
    match CoreAct(p, u, step)
    case None => Do(p, u, step).core == p.core
    case Some(act) => Enabled(p.core, u, act) && InTime(p.core, u, act) && Do(p, u, step).core == Fire(p.core, u, act)
  }

  /** What the core needs to know to push a chain. */
  lemma StrungLoaded(s: State, u: nat, load: Load)
    requires Strung(s.next, load) && Distinct(load.chain) && HoldsAll(s.place, u, load.chain)
    ensures Honest(load) && Loaded(s, u, load.chain)
  {
  }

  lemma StoreLoaded(s: State, u: nat, load: Load, after: Job)
    requires JobOk(s, u, Idle, Store(load, after))
    ensures Honest(load) && Loaded(s, u, load.chain)
  {
    hide Loaded, Segment, Distinct, Honest;
    assert [] + Mine(Store(load, after)) == load.chain + Mine(after);
    SuffixDistinct(load.chain, Mine(after));
    StrungLoaded(s, u, load);
  }

  lemma GrowingStrung(next: map<nat, nat>, push: Load)
    requires Growing(next, push) && push.count > 0
    ensures Strung(next, push)
  {
    var front := push.chain[..push.count - 1];
    assert push.chain == front + [push.tail];
    SegmentConcat(next, front, [push.tail], 0);
  }

  lemma SortingParts(job: Job)
    requires job.Sorting? && Distinct([] + Mine(job))
    ensures Distinct(job.rs) && Distinct(job.ts) && Distinct(job.push.chain)
    ensures forall b :: b in job.rs ==> b !in job.ts && b !in job.push.chain
    ensures forall b :: b in job.ts ==> b !in job.push.chain
  {
    hide Distinct;
    assert [] + Mine(job) == (job.rs + job.ts) + job.push.chain;
    SuffixDistinct(job.rs + job.ts, job.push.chain);
    SuffixDistinct(job.rs, job.ts);
  }

  lemma FlushLoaded(s: State, u: nat, job: Job)
    requires JobOk(s, u, Idle, job) && job.Sorting? && job.push.count > 0
    ensures Honest(job.push) && Loaded(s, u, job.push.chain)
  {
    hide Loaded, Segment, Distinct, Honest;
    SortingParts(job);
    GrowingStrung(s.next, job.push);
    StrungLoaded(s, u, job.push);
  }

  lemma OneLoaded(s: State, u: nat, b: nat)
    requires PlaceAt(s, b) == Held(u)
    ensures Honest(One(b)) && Loaded(s, u, [b])
  {
    assert [b][..0] == [];
  }

  lemma MineHeld(s: State, u: nat, pc: Pc, job: Job, b: nat)
    requires Inv(s) && JobOk(s, u, pc, job) && b in Mine(job)
    ensures b in s.place && s.place[b] == Held(u) && PlaceAt(s, b) == Held(u) && b in s.next
  {
    hide Linked, Distinct, CpuOk, ListOk, ThreadOk;
  }

  lemma HasMail(s: State, cpu: nat, kind: Kind)
    requires Inv(s) && cpu in s.usage
    ensures Loc(cpu, kind) in s.heads && 0 !in s.next
  {
    hide ListOk, ThreadOk;
  }

  lemma StartsAllowed(p: Prog, u: nat, step: Step)
    requires ProgInv(p) && Can(p, u, step)
    requires step.PopHere? || step.PopMail? || step.Steal? || step.Trim?
    ensures Allowed(p, u, step)
  {
    hide Inv, JobsOk, OutsideOk;
  }

  lemma PutsAllowed(p: Prog, u: nat, step: Step)
    requires ProgInv(p) && Can(p, u, step) && (step.PutHere? || step.PutMail?)
    ensures Allowed(p, u, step)
  {
    hide Inv, OutsideOk, Loaded, Honest, JobOk;
    assert JobOk(p.core, u, p.core.threads[u], p.jobs[u]);
    StoreLoaded(p.core, u, p.jobs[u].load, p.jobs[u].after);
  }

  lemma FlushAllowed(p: Prog, u: nat)
    requires ProgInv(p) && Can(p, u, Flush)
    ensures Allowed(p, u, Flush)
  {
    hide Inv, OutsideOk, Loaded, Honest, Linked, Distinct, HoldsAll;
    assert JobOk(p.core, u, p.core.threads[u], p.jobs[u]);
    FlushLoaded(p.core, u, p.jobs[u]);
    HasMail(p.core, p.jobs[u].cpu, Normal);
  }

  lemma DisposeAllowed(p: Prog, u: nat, released: bool)
    requires ProgInv(p) && Can(p, u, Dispose(released))
    ensures Allowed(p, u, Dispose(released))
  {
    hide Inv, OutsideOk, Loaded, Honest, Segment, Distinct, HoldsAll;
    var job := p.jobs[u];
    assert JobOk(p.core, u, p.core.threads[u], job);
    assert job.ts != [] && job.trim == job.ts[0];
    MineHeld(p.core, u, Idle, job, job.trim);
    OneLoaded(p.core, u, job.trim);
    HasMail(p.core, job.cpu, if released then Trimmed else Normal);
  }

  lemma ReturnAllowed(p: Prog, u: nat, step: Step)
    requires ProgInv(p) && Can(p, u, step) && (step.Reset? || step.Return?)
    ensures Allowed(p, u, step)
  {
    hide Inv, OutsideOk, JobOk;
    assert JobOk(p.core, u, p.core.threads[u], p.jobs[u]);
    MineHeld(p.core, u, Idle, p.jobs[u], p.jobs[u].block);
  }

  lemma ElsewhereAllowed(p: Prog, u: nat, step: Step)
    requires ProgInv(p) && Can(p, u, step) && step.Elsewhere?
    ensures Allowed(p, u, step)
  {
    hide Inv, JobsOk;
    assert p.clients[step.block] > 0;
  }

  lemma FreeAllowed(p: Prog, u: nat, b: nat)
    requires ProgInv(p) && Can(p, u, Free(b))
    ensures Allowed(p, u, Free(b))
  {
    hide Inv, JobsOk;
    assert p.clients[b] > 0;
  }

  lemma RefillAllowed(p: Prog, u: nat, chain: seq<nat>)
    requires ProgInv(p) && Can(p, u, Refill(chain))
    ensures Allowed(p, u, Refill(chain))
  {
    hide Inv, JobsOk;
    var bs := set b | b in chain;
    assert Refilled(p.core, u, chain) == Fire(p.core, u, Carve(bs));
  }

  lemma LayAllowed(p: Prog, u: nat)
    requires ProgInv(p) && Can(p, u, Lay)
    ensures Allowed(p, u, Lay)
  {
    hide Inv, OutsideOk, Segment, Distinct, HoldsAll;
    var job := p.jobs[u];
    assert JobOk(p.core, u, p.core.threads[u], job);
    if 0 < job.left <= |job.load.chain| {
      MineHeld(p.core, u, Idle, job, job.load.chain[job.left - 1]);
      if job.left < |job.load.chain| {
        MineHeld(p.core, u, Idle, job, job.load.chain[job.left]);
      }
    }
  }

  lemma SiftAllowed(p: Prog, u: nat, old': bool)
    requires ProgInv(p) && Can(p, u, Sift(old'))
    ensures Allowed(p, u, Sift(old'))
  {
    hide Inv, OutsideOk, Segment, Distinct, HoldsAll;
    var job := p.jobs[u];
    assert JobOk(p.core, u, p.core.threads[u], job);
    assert job.rs != [] && job.cur == job.rs[0];
    MineHeld(p.core, u, Idle, job, job.cur);
    if job.ts != [] {
      MineHeld(p.core, u, Idle, job, job.trim);
    }
    if job.push.chain != [] {
      MineHeld(p.core, u, Idle, job, job.push.head);
    }
  }

  /** No step moves a block its thread does not hold, although none asks. */
  lemma StepAllowed(p: Prog, u: nat, step: Step)
    requires ProgInv(p) && Can(p, u, step) && Timely(p, u, step)
    ensures Allowed(p, u, step)
  {
    hide ProgInv, Fire, Enabled;
    match step
    case PutHere(_) => PutsAllowed(p, u, step);
    case PutMail(_) => PutsAllowed(p, u, step);
    case Flush => FlushAllowed(p, u);
    case Dispose(released) => DisposeAllowed(p, u, released);
    case Reset => ReturnAllowed(p, u, step);
    case Return => ReturnAllowed(p, u, step);
    case Free(b) => FreeAllowed(p, u, b);
    case Elsewhere(b, _) => ElsewhereAllowed(p, u, step);
    case Refill(chain) => RefillAllowed(p, u, chain);
    case Lay => LayAllowed(p, u);
    case Sift(old') => SiftAllowed(p, u, old');
    case PopHere(_) => StartsAllowed(p, u, step);
    case PopMail(_) => StartsAllowed(p, u, step);
    case Steal(_, _) => StartsAllowed(p, u, step);
    case Trim(_) => StartsAllowed(p, u, step);
    case _ =>
  }
}
