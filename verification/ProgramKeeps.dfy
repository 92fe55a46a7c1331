/** Every step of the program keeps its registers right. */
module ProgramKeeps {
  import opened Options
  import opened Circulation
  import opened CirculationShape
  import opened CirculationInv
  import opened CirculationKeeps
  import opened CirculationRun
  import opened Program
  import opened ProgramInv
  import opened ProgramSteps

  // ----- the end of an operation -----

  lemma AtPc(mid: State, u: nat, pc: Pc)
    requires u < |mid.threads|
    ensures PcAt(At(mid, u, pc), u) == pc
  {
  }

  lemma GoCarried(s: State, u: nat)
    requires u < |s.threads|
    ensures Carried(PcAt(Advance(s, u), u)) == Carried(s.threads[u]) || Carried(PcAt(Advance(s, u), u)) == []
  {
    hide AdvancePush, AdvancePop, AdvanceHint, AdvanceDetach, AdvanceTake, AdvanceGive;
    match s.threads[u]
    case Push(p) => PushCarried(s, u, p);
    case Pop(p) => PopCarried(s, u, p);
    case Give(p) => GiveCarried(s, u, p);
    case Take(p) => TakeCarried(s, u, p);
    case Hint(p) => HintCarried(s, u, p);
    case Detach(p) => DetachCarried(s, u, p);
    case Idle =>
  }

  lemma PushCarried(s: State, u: nat, p: PushPc)
    requires u < |s.threads|
    ensures var pc := PcAt(AdvancePush(s, u, p), u); Carried(pc) == p.load.chain || Carried(pc) == []
  {
    hide Pushed, PcAt;
    match p
    case PushLoad(loc, load) => AtPc(s, u, Push(PushLink(loc, load, WordAt(s, loc))));
    case PushLink(loc, load, word) => AtPc(s.(next := s.next[load.tail := word.ptr]), u, Push(PushCas(loc, load, word)));
    case PushCas(loc, load, word) =>
      PushedShape(s, loc, load.chain, Pack(load.head, word));
      AtPc(Pushed(s, loc, load.chain, Pack(load.head, word)), u, if word.ptr == 0 then Hint(MarkLoad(loc.cpu)) else Idle);
      AtPc(s, u, Push(PushLoad(loc, load)));
  }

  lemma GiveCarried(s: State, u: nat, p: GivePc)
    requires u < |s.threads|
    ensures var pc := PcAt(AdvanceGive(s, u, p), u); Carried(pc) == Carried(Give(p)) || Carried(pc) == []
  {
  }

  lemma PopCarried(s: State, u: nat, p: PopPc)
    requires u < |s.threads| && s.threads[u] == Pop(p)
    ensures Carried(PcAt(AdvancePop(s, u, p), u)) == []
  {
    hide Popped, PcAt;
    if p.PopCas? && WordAt(s, p.loc) == p.word {
      PoppedShape(s, p.loc, u, p.load.chain, Pack(p.nx, p.word));
      AtPc(Popped(s, p.loc, u, p.load.chain, Pack(p.nx, p.word)), u,
        if p.nx == 0 && !p.single then Hint(ClearLoad(p.loc.cpu)) else Idle);
    } else {
      hide AdvancePop;
      var pc := PopLocal(s, u, p);
      AtPc(s, u, pc);
    }
  }

  lemma TakeCarried(s: State, u: nat, p: TakePc)
    requires u < |s.threads|
    ensures Carried(PcAt(AdvanceTake(s, u, p), u)) == []
  {
  }

  lemma HintCarried(s: State, u: nat, p: HintPc)
    requires u < |s.threads|
    ensures Carried(PcAt(AdvanceHint(s, u, p), u)) == []
  {
  }

  lemma DetachCarried(s: State, u: nat, p: DetachPc)
    requires u < |s.threads|
    ensures Carried(PcAt(AdvanceDetach(s, u, p), u)) == []
  {
    hide Popped, PcAt;
    match p
    case DetachLoad(cpu) =>
      var word := WordAt(s, Loc(cpu, Normal));
      AtPc(s, u, if word.ptr == 0 then Idle else Detach(DetachCas(cpu, word)));
    case DetachCas(cpu, word) =>
      var loc := Loc(cpu, Normal);
      var now := WordAt(s, loc);
      PoppedShape(s, loc, u, ListAt(s, loc), Pack(0, word));
      AtPc(Popped(s, loc, u, ListAt(s, loc), Pack(0, word)), u, Idle);
      AtPc(s, u, if now.ptr == 0 then Idle else Detach(DetachCas(cpu, now)));
  }

  lemma MineApart(s: State, u: nat, job: Job)
    requires u < |s.threads| && JobOk(s, u, s.threads[u], job)
    ensures forall b :: b in Mine(job) ==> Apart(s, u, b)
  {
    hide Linked, CpuOk;
    SuffixDistinct(Carried(s.threads[u]), Mine(job));
  }

  /** The job waits while the operation goes on. */
  lemma GoWaits(s: State, u: nat, job: Job)
    requires Inv(s) && u < |s.threads| && InTime(s, u, Go) && JobOk(s, u, s.threads[u], job)
    ensures JobOk(Advance(s, u), u, PcAt(Advance(s, u), u), job)
  {
    hide Inv, Advance, Carried, JobOk, InTime, Apart;
    var s' := Advance(s, u);
    MineApart(s, u, job);
    forall b | b in Mine(job)
      ensures Same(s, s', b)
    {
      GoLeaves(s, u, b);
    }
    GoShape(s, u);
    GoCarried(s, u);
    JobFrame(s, s', u, s.threads[u], PcAt(s', u), job);
  }

  /** A prefix of a list that passes into the hands of a thread is strung and distinct. */
  lemma PrefixStrung(s: State, l: Loc, load: Load)
    requires ListOk(s, l) && Honest(load) && load.chain <= ListAt(s, l)
    ensures Strung(s.next, load) && Distinct(load.chain) && forall b :: b in load.chain ==> PlaceAt(s, b) == In(l)
  {
    var xs, k := ListAt(s, l), load.count;
    var front := load.chain[..k - 1];
    assert load.chain == front + [load.tail];
    assert xs == front + ([load.tail] + xs[k..]);
    SegmentConcat(s.next, front, [load.tail] + xs[k..], 0);
  }

  lemma PoppedHolds(s: State, u: nat, l: Loc, taken: seq<nat>, word: Word)
    requires forall b :: b in taken ==> PlaceAt(s, b) == In(l)
    ensures HoldsAll(Popped(s, l, u, taken, word).place, u, taken) && Popped(s, l, u, taken, word).next == s.next
  {
  }

  lemma PopDelivers(s: State, u: nat, p: PopPc, job: Job)
    requires Inv(s) && u < |s.threads| && s.threads[u] == Pop(p) && p.PopCas? && WordAt(s, p.loc) == p.word && InTime(s, u, Go)
    requires job == Got(p.load.head) || job == Batch(p.load)
    ensures JobOk(Advance(s, u), u, PcAt(Advance(s, u), u), job)
  {
    hide WellFormed, Segment, Popped, Distinct, Chain, PcAt;
    assert ThreadOk(s, u, s.threads[u]);
    assert ListOk(s, p.loc);
    SameVersion(p.v, VersionAt(s, p.loc));
    PrefixStrung(s, p.loc, p.load);
    PoppedHolds(s, u, p.loc, p.load.chain, Pack(p.nx, p.word));
    PopCarried(s, u, p);
    Alone(p.load.head);
    assert [] + p.load.chain == p.load.chain;
    assert [] + [p.load.head] == [p.load.head];
  }

  lemma Alone(b: nat)
    ensures Distinct([b])
  {
  }

  lemma TakeDelivers(s: State, u: nat, p: TakePc)
    requires Inv(s) && u < |s.threads| && s.threads[u] == Take(p) && p.TakeStore?
    ensures JobOk(Advance(s, u), u, PcAt(Advance(s, u), u), Got(p.tmp))
  {
    hide WellFormed, Segment, Popped, Distinct, PcAt;
    assert ThreadOk(s, u, s.threads[u]);
    var l := Loc(p.cpu, Rseq);
    assert ListOk(s, l);
    HeadOk(s, l);
    TakeCarried(s, u, p);
    assert p.tmp in ListAt(s, l);
    PoppedHolds(s, u, l, [p.tmp], Word(p.nx, 0));
    Alone(p.tmp);
    assert [] + [p.tmp] == [p.tmp];
  }

  lemma DetachDelivers(s: State, u: nat, p: DetachPc)
    requires Inv(s) && u < |s.threads| && s.threads[u] == Detach(p) && p.DetachCas? && WordAt(s, Loc(p.cpu, Normal)) == p.word
    ensures JobOk(Advance(s, u), u, PcAt(Advance(s, u), u), Sorting(p.cpu, p.word.ptr, ListAt(s, Loc(p.cpu, Normal)), 0, [], NONE))
  {
    hide WellFormed, Popped, Distinct;
    assert ThreadOk(s, u, s.threads[u]);
    var l := Loc(p.cpu, Normal);
    var xs := ListAt(s, l);
    assert ListOk(s, l);
    PoppedShape(s, l, u, xs, Pack(0, p.word));
    PoppedHolds(s, u, l, xs, Pack(0, p.word));
    assert [] + (xs + [] + []) == xs;
  }

  /** A push that is aborted is still to do. */
  lemma AbortDelivers(s: State, s': State, u: nat, load: Load, job: Job, pc: Pc)
    requires Honest(load) && Loaded(s, u, load.chain) && JobOk(s, u, pc, job) && Carried(pc) == load.chain
    requires s'.next == s.next && s'.place == s.place && s'.usage == s.usage
    ensures JobOk(s', u, Idle, Store(load, job))
  {
    hide Segment;
    assert [] + Mine(Store(load, job)) == load.chain + Mine(job);
  }

  /** An instruction leaves the job right, whether it ends the operation or not. */
  lemma GoOwn(s: State, u: nat, job: Job)
    requires Inv(s) && u < |s.threads| && Enabled(s, u, Go) && InTime(s, u, Go) && JobOk(s, u, s.threads[u], job)
    ensures JobOk(Advance(s, u), u, PcAt(Advance(s, u), u), Deliver(s, u, Go, job))
  {
    hide Inv, Advance, Carried, JobOk, InTime, Enabled;
    var pc := s.threads[u];
    if pc.Pop? && pc.pop.PopCas? && WordAt(s, pc.pop.loc) == pc.pop.word {
      PopDelivers(s, u, pc.pop, Deliver(s, u, Go, job));
    } else if pc.Take? && pc.take.TakeLoad? && WordAt(s, Loc(pc.take.cpu, Rseq)).ptr == 0 {
      EmptyDelivers(s, u, pc.take);
    } else if pc.Take? && pc.take.TakeStore? {
      TakeDelivers(s, u, pc.take);
    } else if pc.Give? && pc.give.GiveCheck? && !RunsOn(s, u, pc.give.cpu) {
      CheckDelivers(s, u, pc.give, job);
    } else if pc.Detach? && pc.detach.DetachCas? && WordAt(s, Loc(pc.detach.cpu, Normal)) == pc.detach.word {
      DetachDelivers(s, u, pc.detach);
    } else {
      GoWaits(s, u, job);
    }
  }

  lemma EmptyDelivers(s: State, u: nat, p: TakePc)
    requires u < |s.threads| && s.threads[u] == Take(p) && p.TakeLoad? && WordAt(s, Loc(p.cpu, Rseq)).ptr == 0
    ensures JobOk(Advance(s, u), u, PcAt(Advance(s, u), u), Seek(false))
  {
  }

  lemma CheckDelivers(s: State, u: nat, p: GivePc, job: Job)
    requires Inv(s) && u < |s.threads| && s.threads[u] == Give(p) && p.GiveCheck? && !RunsOn(s, u, p.cpu)
    requires JobOk(s, u, s.threads[u], job)
    ensures JobOk(Advance(s, u), u, PcAt(Advance(s, u), u), Store(p.load, job))
  {
    hide Shared, JobOk, Loaded, Honest;
    assert ThreadOk(s, u, s.threads[u]);
    AbortDelivers(s, Advance(s, u), u, p.load, job, s.threads[u]);
  }

  lemma SchedulerOwn(s: State, u: nat, act: Action, job: Job)
    requires Inv(s) && u < |s.threads| && Enabled(s, u, act) && (act.Abort? || act.Preempt? || act.Resume?)
    requires JobOk(s, u, s.threads[u], job)
    ensures JobOk(Fire(s, u, act), u, PcAt(Fire(s, u, act), u), Deliver(s, u, act, job))
  {
    hide Shared, JobOk, Loaded, Honest;
    var pc := s.threads[u];
    var s' := Fire(s, u, act);
    assert ThreadOk(s, u, pc);
    if (act.Abort? || act.Preempt?) && InSequence(pc) && pc.Give? {
      AbortDelivers(s, s', u, pc.give.load, job, pc);
    } else {
      JobFrame(s, s', u, pc, PcAt(s', u), job);
    }
  }

  // ----- the steps of jobs -----

  /** The job of thread `u` is right after its step. */
  ghost predicate OwnOk(p: Prog, u: nat, step: Step)
    requires Can(p, u, step)
  {
    var p' := Do(p, u, step);
    u < |p'.jobs| && JobOk(p'.core, u, PcAt(p'.core, u), p'.jobs[u])
  }

  lemma EasyOwn(p: Prog, u: nat, step: Step)
    requires JobsOk(p) && Can(p, u, step)
    requires step.Malloc? || step.LastTry? || step.GiveUp? || step.Done? || step.PopHere? || step.PopMail? || step.Steal? || step.Trim?
          || step.Return? || step.Elsewhere?
    ensures OwnOk(p, u, step)
  {
    hide JobOk, Carried;
    var p' := Do(p, u, step);
    NoneCarried(PcAt(p'.core, u));
    EmptyOk(p'.core, u, PcAt(p'.core, u), p'.jobs[u]);
  }

  lemma NoneCarried(pc: Pc)
    requires pc.Idle? || pc.Take? || pc.Pop? || pc.Detach?
    ensures Carried(pc) == []
  {
  }

  /** A job without blocks, at an operation that carries none. */
  lemma EmptyOk(s: State, u: nat, pc: Pc, job: Job)
    requires Carried(pc) == [] && (job.Rest? || job.Want? || job.Seek?)
    ensures JobOk(s, u, pc, job)
  {
    hide Carried;
    assert [] + Mine(job) == [];
  }

  lemma RefillOwn(p: Prog, u: nat, chain: seq<nat>)
    requires OutsideOk(p) && Can(p, u, Refill(chain))
    ensures OwnOk(p, u, Refill(chain))
  {
    hide JobOk, Distinct;
    RefillHolds(p, u, chain);
    var load := Load(chain[0], Last(chain), |chain|, chain);
    assert chain[|chain|..] == [];
    LayingOk(Refilled(p.core, u, chain), u, load, |chain|);
  }

  lemma RefillHolds(p: Prog, u: nat, chain: seq<nat>)
    requires OutsideOk(p) && forall b :: b in chain ==> b in p.raw
    ensures HoldsAll(Refilled(p.core, u, chain).place, u, chain)
  {
    var s' := Refilled(p.core, u, chain);
    forall b | b in chain
      ensures b in s'.place && s'.place[b] == Held(u)
    {
      assert b in p.raw;
    }
  }

  lemma LayLinks(next: map<nat, nat>, chain: seq<nat>, left: nat)
    requires 0 < left <= |chain| && Distinct(chain) && Segment(next, chain[left..], 0)
    ensures Segment(next[chain[left - 1] := First(chain[left..], 0)], chain[left - 1..], 0)
  {
    var b := chain[left - 1];
    var next' := next[b := First(chain[left..], 0)];
    SegmentIn(next, chain[left..], 0);
    SegmentFrame(next, next', chain[left..], 0);
    assert chain[left - 1..][1..] == chain[left..];
  }

  lemma LaidOk(s: State, u: nat, load: Load)
    requires JobOk(s, u, Idle, Laying(load, 0))
    ensures JobOk(s, u, Idle, Batch(load))
  {
    hide Segment, Distinct, HoldsAll;
    assert load.chain[0..] == load.chain;
    var front := load.chain[..load.count - 1];
    assert load.chain == front + [load.tail];
    SegmentConcat(s.next, front, [load.tail], 0);
  }

  lemma LayOk(s: State, u: nat, load: Load, left: nat, b: nat, next: nat)
    requires JobOk(s, u, Idle, Laying(load, left)) && 0 < left <= |load.chain| && b == load.chain[left - 1] && next == First(load.chain[left..], 0)
    ensures JobOk(s.(next := s.next[b := next]), u, Idle, Laying(load, left - 1))
  {
    hide Segment, Distinct, HoldsAll, JobOk;
    var job, job' := Laying(load, left), Laying(load, left - 1);
    assert Linked(s.next, job) && HoldsAll(s.place, u, load.chain) && Distinct(load.chain) by {
      JobParts(s, u, Idle, job);
      JobDistinct(s, u, job);
    }
    LayLinks(s.next, load.chain, left);
    LayingOk(s.(next := s.next[b := next]), u, load, left - 1);
  }

  lemma JobDistinct(s: State, u: nat, job: Job)
    requires JobOk(s, u, Idle, job)
    ensures Distinct(Mine(job))
  {
    assert [] + Mine(job) == Mine(job);
  }

  lemma LayingOk(s: State, u: nat, load: Load, left: nat)
    requires Linked(s.next, Laying(load, left)) && HoldsAll(s.place, u, load.chain) && Distinct(load.chain)
    ensures JobOk(s, u, Idle, Laying(load, left))
  {
    hide Linked, Distinct;
    assert [] + load.chain == load.chain;
  }

  lemma LayOwn(p: Prog, u: nat)
    requires JobsOk(p) && Can(p, u, Lay)
    ensures OwnOk(p, u, Lay)
  {
    hide JobOk;
    var job := p.jobs[u];
    assert JobOk(p.core, u, p.core.threads[u], job);
    assert job.left <= |job.load.chain| by { JobParts(p.core, u, Idle, job); }
    if job.left > 0 {
      LayOk(p.core, u, job.load, job.left, job.load.chain[job.left - 1], First(job.load.chain[job.left..], 0));
    } else {
      LaidOk(p.core, u, job.load);
    }
  }

  lemma TailStrung(next: map<nat, nat>, load: Load)
    requires Strung(next, load) && load.count > 1
    ensures load.head in next && next[load.head] == load.chain[1]
    ensures Strung(next, Load(next[load.head], load.tail, load.count - 1, load.chain[1..]))
  {
    var front := load.chain[..load.count - 1];
    assert front[1..] == load.chain[1..][..load.count - 2];
    assert front[0] == load.head;
    if load.count > 2 {
      assert front[1] == load.chain[1];
    }
  }

  lemma BatchHead(s: State, u: nat, load: Load)
    requires JobOk(s, u, Idle, Batch(load))
    ensures JobOk(s, u, Idle, Clear(load.head))
  {
    hide Segment, Distinct, HoldsAll;
    HeadFirst(s, u, load.chain);
  }

  lemma BatchTail(s: State, u: nat, load: Load)
    requires JobOk(s, u, Idle, Batch(load)) && load.count > 1
    ensures load.head in s.next && s.next[load.head] in load.chain
    ensures JobOk(s, u, Idle, Store(Load(s.next[load.head], load.tail, load.count - 1, Tail(load.chain)), Clear(load.head)))
  {
    hide Segment, Distinct, HoldsAll;
    assert [] + load.chain == load.chain;
    TailStrung(s.next, load);
    Rotated(s, u, load.chain);
    var rest := Load(s.next[load.head], load.tail, load.count - 1, Tail(load.chain));
    var job := Store(rest, Clear(load.head));
    assert Mine(job) == load.chain[1..] + [load.head];
    assert [] + Mine(job) == Mine(job);
    assert Linked(s.next, job) && CpuOk(s.usage, job);
  }

  lemma TakeOneOwn(p: Prog, u: nat)
    requires Inv(p.core) && JobsOk(p) && Can(p, u, TakeOne)
    ensures OwnOk(p, u, TakeOne)
  {
    hide Inv, JobOk;
    var load := p.jobs[u].load;
    assert JobOk(p.core, u, p.core.threads[u], p.jobs[u]);
    BatchHead(p.core, u, load);
    if load.count > 1 {
      BatchTail(p.core, u, load);
    }
  }

  lemma HeadFirst(s: State, u: nat, chain: seq<nat>)
    requires chain != [] && HoldsAll(s.place, u, chain)
    ensures HoldsAll(s.place, u, [chain[0]]) && Distinct([] + [chain[0]])
  {
  }

  lemma Rotated(s: State, u: nat, chain: seq<nat>)
    requires chain != [] && HoldsAll(s.place, u, chain) && Distinct(chain)
    ensures HoldsAll(s.place, u, chain[1..] + [chain[0]]) && Distinct(chain[1..] + [chain[0]])
  {
    assert forall b :: b in chain[1..] + [chain[0]] ==> b in chain;
  }

  lemma ResetOwn(p: Prog, u: nat)
    requires JobsOk(p) && Can(p, u, Reset)
    ensures OwnOk(p, u, Reset)
  {
    assert JobOk(p.core, u, p.core.threads[u], p.jobs[u]);
  }

  lemma FreeOwn(p: Prog, u: nat, b: nat)
    requires Can(p, u, Free(b))
    ensures OwnOk(p, u, Free(b))
  {
    hide JobOk;
    FreshStore(Do(p, u, Free(b)).core, u, b);
  }

  lemma FreshStore(s: State, u: nat, b: nat)
    requires b in s.place && s.place[b] == Held(u)
    ensures JobOk(s, u, Idle, Store(One(b), Rest))
  {
    assert [b][..0] == [];
    assert Strung(s.next, One(b));
    assert [] + Mine(Store(One(b), Rest)) == [b];
  }

  lemma PutOwn(p: Prog, u: nat, step: Step)
    requires JobsOk(p) && Can(p, u, step) && (step.PutHere? || step.PutMail?)
    ensures OwnOk(p, u, step)
  {
    hide Segment, Distinct;
    var job := p.jobs[u];
    assert JobOk(p.core, u, p.core.threads[u], job);
    assert [] + (job.load.chain + Mine(job.after)) == job.load.chain + Mine(job.after);
  }

  // ----- the trimmer -----

  lemma JoinDistinct(xs: seq<nat>, ys: seq<nat>)
    requires Distinct(xs) && Distinct(ys) && forall b :: b in xs ==> b !in ys
    ensures Distinct(xs + ys)
  {
    forall i, j | 0 <= i < j < |xs + ys|
      ensures (xs + ys)[i] != (xs + ys)[j]
    {
      if i < |xs| <= j {
        assert xs[i] in xs && ys[j - |xs|] in ys;
      }
    }
  }

  lemma JoinParts(xs: seq<nat>, ys: seq<nat>, zs: seq<nat>)
    requires Distinct(xs) && Distinct(ys) && Distinct(zs)
    requires (forall b :: b in xs ==> b !in ys && b !in zs) && (forall b :: b in ys ==> b !in zs)
    ensures Distinct([] + (xs + ys + zs))
  {
    hide Distinct;
    JoinDistinct(xs, ys);
    JoinDistinct(xs + ys, zs);
    assert [] + (xs + ys + zs) == xs + ys + zs;
  }

  lemma TailDistinct(xs: seq<nat>)
    requires xs != [] && Distinct(xs)
    ensures Distinct(xs[1..]) && xs[0] !in xs[1..] && xs == [xs[0]] + xs[1..]
  {
  }

  /** A block that leaves the front of one list for the front of another. */
  lemma MoveLink(next: map<nat, nat>, rs: seq<nat>, p: nat, xs: seq<nat>)
    requires rs != [] && Distinct(rs) && Segment(next, rs, 0) && Chain(next, p, xs) && (forall b :: b in rs ==> b !in xs)
    ensures
      var cur := rs[0];
      var next' := next[cur := p];
      cur in next && Chain(next', next[cur], rs[1..]) && Chain(next', cur, [cur] + xs)
  {
    var cur := rs[0];
    var next' := next[cur := p];
    TailDistinct(rs);
    SegmentIn(next, rs[1..], 0);
    SegmentFrame(next, next', rs[1..], 0);
    SegmentIn(next, xs, 0);
    SegmentFrame(next, next', xs, 0);
    assert ([cur] + xs)[1..] == xs;
  }

  lemma KeepLink(next: map<nat, nat>, cur: nat, p: nat, q: nat, xs: seq<nat>)
    requires Chain(next, q, xs) && cur !in xs
    ensures Chain(next[cur := p], q, xs)
  {
    SegmentIn(next, xs, 0);
    SegmentFrame(next, next[cur := p], xs, 0);
  }

  /** What the sorting loop knows before it handles a block. */
  lemma SortingFacts(s: State, u: nat, job: Job)
    requires 0 !in s.next && JobOk(s, u, Idle, job) && job.Sorting? && job.cur != 0
    ensures job.rs != [] && job.rs[0] == job.cur && job.rs == [job.cur] + job.rs[1..]
    ensures Distinct(job.rs) && Distinct(job.rs[1..]) && Distinct(job.ts) && Distinct(job.push.chain)
    ensures job.cur !in job.rs[1..] && job.cur !in job.ts && job.cur !in job.push.chain
    ensures forall b :: b in job.rs ==> b !in job.ts && b !in job.push.chain
    ensures forall b :: b in job.ts ==> b !in job.push.chain
  {
    hide Segment, Distinct, HoldsAll;
    SortingParts(job);
    TailDistinct(job.rs);
  }

  lemma ConsDistinct(b: nat, xs: seq<nat>)
    requires b !in xs && Distinct(xs)
    ensures Distinct([b] + xs)
  {
  }

  lemma OldOk(s: State, u: nat, job: Job)
    requires 0 !in s.next && JobOk(s, u, Idle, job) && job.Sorting? && job.cur != 0
    ensures job.cur in s.next
    ensures
      var s' := s.(next := s.next[job.cur := job.trim]);
      JobOk(s', u, Idle, Sorting(job.cpu, s.next[job.cur], Tail(job.rs), job.cur, [job.cur] + job.ts, job.push))
  {
    hide Segment, Distinct, HoldsAll, JobOk;
    assert Linked(s.next, job) && HoldsAll(s.place, u, Mine(job)) && job.cpu in s.usage by { JobParts(s, u, Idle, job); }
    SortingFacts(s, u, job);
    MoveLink(s.next, job.rs, job.trim, job.ts);
    KeepLink(s.next, job.cur, job.trim, job.push.head, job.push.chain);
    ConsDistinct(job.cur, job.ts);
    JoinParts(job.rs[1..], [job.cur] + job.ts, job.push.chain);
    var job' := Sorting(job.cpu, s.next[job.cur], Tail(job.rs), job.cur, [job.cur] + job.ts, job.push);
    SameHands(s.place, u, Mine(job), Mine(job'));
    Sorted(s.(next := s.next[job.cur := job.trim]), u, job');
  }

  lemma JobParts(s: State, u: nat, pc: Pc, job: Job)
    requires JobOk(s, u, pc, job)
    ensures Linked(s.next, job) && HoldsAll(s.place, u, Mine(job)) && CpuOk(s.usage, job)
  {
  }

  lemma SameHands(place: map<nat, Place>, u: nat, xs: seq<nat>, ys: seq<nat>)
    requires HoldsAll(place, u, xs) && forall b :: b in ys ==> b in xs
    ensures HoldsAll(place, u, ys)
  {
  }

  lemma Sorted(s: State, u: nat, job: Job)
    requires job.Sorting? && HoldsAll(s.place, u, Mine(job)) && Distinct([] + Mine(job)) && Linked(s.next, job) && job.cpu in s.usage
    ensures JobOk(s, u, Idle, job)
  {
  }

  lemma YoungOk(s: State, u: nat, job: Job)
    requires 0 !in s.next && JobOk(s, u, Idle, job) && job.Sorting? && job.cur != 0 && job.push.count < REPUSH_BATCH
    ensures job.cur in s.next
    ensures
      var s' := s.(next := s.next[job.cur := job.push.head]);
      JobOk(s', u, Idle, Sorting(job.cpu, s.next[job.cur], Tail(job.rs), job.trim, job.ts, Front(job.cur, job.push)))
  {
    hide Segment, Distinct, HoldsAll, JobOk;
    assert Linked(s.next, job) && HoldsAll(s.place, u, Mine(job)) && job.cpu in s.usage by { JobParts(s, u, Idle, job); }
    SortingFacts(s, u, job);
    MoveLink(s.next, job.rs, job.push.head, job.push.chain);
    KeepLink(s.next, job.cur, job.push.head, job.trim, job.ts);
    ConsDistinct(job.cur, job.push.chain);
    var push := Front(job.cur, job.push);
    JoinParts(job.rs[1..], job.ts, push.chain);
    var job' := Sorting(job.cpu, s.next[job.cur], Tail(job.rs), job.trim, job.ts, push);
    SameHands(s.place, u, Mine(job), Mine(job'));
    assert Growing(s.next[job.cur := job.push.head], push);
    Sorted(s.(next := s.next[job.cur := job.push.head]), u, job');
  }

  lemma SiftOwn(p: Prog, u: nat, old': bool)
    requires Inv(p.core) && JobsOk(p) && Can(p, u, Sift(old'))
    ensures OwnOk(p, u, Sift(old'))
  {
    hide JobOk, ListOk, ThreadOk;
    assert JobOk(p.core, u, p.core.threads[u], p.jobs[u]);
    if old' {
      OldOk(p.core, u, p.jobs[u]);
    } else {
      YoungOk(p.core, u, p.jobs[u]);
    }
  }

  lemma FlushOk(s: State, u: nat, job: Job, pc: Pc)
    requires JobOk(s, u, Idle, job) && job.Sorting? && Carried(pc) == job.push.chain
    ensures JobOk(s, u, pc, job.(push := NONE))
  {
    hide Segment, Distinct, HoldsAll;
    var job' := job.(push := NONE);
    SortingParts(job);
    JoinDistinct(job.rs, job.ts);
    JoinDistinct(job.push.chain, job.rs + job.ts);
    assert Mine(job') == job.rs + job.ts;
    SameHands(s.place, u, Mine(job), Mine(job'));
    NothingGrows(s.next);
  }

  lemma NothingGrows(next: map<nat, nat>)
    ensures Growing(next, NONE)
  {
  }

  lemma FlushOwn(p: Prog, u: nat)
    requires JobsOk(p) && Can(p, u, Flush)
    ensures OwnOk(p, u, Flush)
  {
    hide JobOk;
    var job := p.jobs[u];
    var pc := Push(PushLoad(Loc(job.cpu, Normal), job.push));
    assert JobOk(p.core, u, p.core.threads[u], job);
    FlushOk(p.core, u, job, pc);
    AtJobOk(p.core, u, pc, job.(push := NONE));
  }

  /** Where the thread stands is not part of what the job needs from memory. */
  lemma AtJobOk(s: State, u: nat, pc: Pc, job: Job)
    requires u < |s.threads| && JobOk(s, u, pc, job)
    ensures JobOk(At(s, u, pc), u, PcAt(At(s, u, pc), u), job)
  {
    hide Linked, Distinct, CpuOk, HoldsAll;
  }

  lemma SiftedOwn(p: Prog, u: nat)
    requires JobsOk(p) && Can(p, u, Sifted)
    ensures OwnOk(p, u, Sifted)
  {
    hide Segment, Distinct;
    var job := p.jobs[u];
    assert JobOk(p.core, u, p.core.threads[u], job);
    SortingParts(job);
    assert [] + job.ts == job.ts;
  }

  lemma DisposeOk(s: State, u: nat, job: Job, pc: Pc)
    requires 0 !in s.next && JobOk(s, u, Idle, job) && job.Trimming? && job.trim != 0 && Carried(pc) == [job.trim]
    ensures JobOk(s, u, pc, Trimming(job.cpu, NextOf(s, job.trim), Tail(job.ts)))
  {
    hide Distinct, HoldsAll;
    assert [] + job.ts == job.ts;
    TailDistinct(job.ts);
    SameHands(s.place, u, job.ts, job.ts[1..]);
  }

  lemma DisposeOwn(p: Prog, u: nat, released: bool)
    requires Inv(p.core) && JobsOk(p) && Can(p, u, Dispose(released))
    ensures OwnOk(p, u, Dispose(released))
  {
    hide JobOk, ListOk, ThreadOk;
    var job := p.jobs[u];
    var pc := Push(PushLoad(Loc(job.cpu, if released then Trimmed else Normal), One(job.trim)));
    assert JobOk(p.core, u, p.core.threads[u], job);
    DisposeOk(p.core, u, job, pc);
    AtJobOk(p.core, u, pc, Trimming(job.cpu, NextOf(p.core, job.trim), Tail(job.ts)));
  }

  lemma JobOwn(p: Prog, u: nat, step: Step)
    requires ProgInv(p) && Can(p, u, step) && !step.Core?
    ensures OwnOk(p, u, step)
  {
    hide Inv, JobsOk, OutsideOk, OwnOk, Can;
    match step
    case Refill(chain) => RefillOwn(p, u, chain);
    case Lay => LayOwn(p, u);
    case TakeOne => TakeOneOwn(p, u);
    case Reset => ResetOwn(p, u);
    case Free(b) => FreeOwn(p, u, b);
    case PutHere(_) => PutOwn(p, u, step);
    case PutMail(_) => PutOwn(p, u, step);
    case Sift(old') => SiftOwn(p, u, old');
    case Flush => FlushOwn(p, u);
    case Sifted => SiftedOwn(p, u);
    case Dispose(released) => DisposeOwn(p, u, released);
    case _ => EasyOwn(p, u, step);
  }

  lemma CoreOwn(p: Prog, u: nat, act: Action)
    requires ProgInv(p) && Can(p, u, Core(act)) && InTime(p.core, u, act)
    ensures OwnOk(p, u, Core(act))
  {
    hide Inv, OutsideOk, JobOk, Fire, Deliver, Enabled, InTime, PcAt;
    assert JobOk(p.core, u, p.core.threads[u], p.jobs[u]);
    if act.Go? {
      GoOwn(p.core, u, p.jobs[u]);
      GoFires(p.core, u);
    } else {
      SchedulerOwn(p.core, u, act, p.jobs[u]);
    }
  }

  lemma GoFires(s: State, u: nat)
    requires Enabled(s, u, Go)
    ensures Fire(s, u, Go) == Advance(s, u)
  {
  }

  // ----- clients and raw memory -----

  lemma PlaceKeys(s: State, u: nat, act: Action)
    requires Enabled(s, u, act)
    ensures Fire(s, u, act).place.Keys == s.place.Keys
  {
    hide Loaded;
    if act.Go? {
      GoKeys(s, u);
    }
  }

  lemma GoKeys(s: State, u: nat)
    requires u < |s.threads|
    ensures Advance(s, u).place.Keys == s.place.Keys
  {
    hide AdvancePush, AdvancePop, AdvanceHint, AdvanceDetach, AdvanceTake, AdvanceGive;
    match s.threads[u]
    case Push(p) => PushKeys(s, u, p);
    case Pop(p) => PopKeys(s, u, p);
    case Hint(p) => HintKeys(s, u, p);
    case Detach(p) => DetachKeys(s, u, p);
    case Take(p) => TakeKeys(s, u, p);
    case Give(p) => GiveKeys(s, u, p);
    case Idle =>
  }

  lemma PushKeys(s: State, u: nat, p: PushPc)
    requires u < |s.threads|
    ensures AdvancePush(s, u, p).place.Keys == s.place.Keys
  {
    hide At, Pushed;
    match p
    case PushLoad(loc, load) => AtPlaces(s, u, Push(PushLink(loc, load, WordAt(s, loc))));
    case PushLink(loc, load, word) => AtPlaces(s.(next := s.next[load.tail := word.ptr]), u, Push(PushCas(loc, load, word)));
    case PushCas(loc, load, word) =>
      PushedKeys(s, loc, load.chain, Pack(load.head, word));
      PushedShape(s, loc, load.chain, Pack(load.head, word));
      AtPlaces(Pushed(s, loc, load.chain, Pack(load.head, word)), u, if word.ptr == 0 then Hint(MarkLoad(loc.cpu)) else Idle);
      AtPlaces(s, u, Push(PushLoad(loc, load)));
  }

  lemma AtPlaces(mid: State, u: nat, pc: Pc)
    requires u < |mid.threads|
    ensures At(mid, u, pc).place == mid.place
  {
  }

  lemma PushedKeys(s: State, loc: Loc, chain: seq<nat>, word: Word)
    ensures Pushed(s, loc, chain, word).place.Keys == s.place.Keys
  {
  }

  lemma HintKeys(s: State, u: nat, p: HintPc)
    requires u < |s.threads|
    ensures AdvanceHint(s, u, p).place.Keys == s.place.Keys
  {
  }

  lemma DetachKeys(s: State, u: nat, p: DetachPc)
    requires u < |s.threads|
    ensures AdvanceDetach(s, u, p).place.Keys == s.place.Keys
  {
    hide At, Popped;
    match p
    case DetachLoad(cpu) =>
      var word := WordAt(s, Loc(cpu, Normal));
      AtPlaces(s, u, if word.ptr == 0 then Idle else Detach(DetachCas(cpu, word)));
    case DetachCas(cpu, word) =>
      var loc := Loc(cpu, Normal);
      var now := WordAt(s, loc);
      PoppedKeys(s, loc, u, ListAt(s, loc), Pack(0, word));
      PoppedShape(s, loc, u, ListAt(s, loc), Pack(0, word));
      AtPlaces(Popped(s, loc, u, ListAt(s, loc), Pack(0, word)), u, Idle);
      AtPlaces(s, u, if now.ptr == 0 then Idle else Detach(DetachCas(cpu, now)));
  }

  lemma PoppedKeys(s: State, loc: Loc, u: nat, taken: seq<nat>, word: Word)
    ensures Popped(s, loc, u, taken, word).place.Keys == s.place.Keys
  {
  }

  lemma TakeKeys(s: State, u: nat, p: TakePc)
    requires u < |s.threads|
    ensures AdvanceTake(s, u, p).place.Keys == s.place.Keys
  {
  }

  lemma GiveKeys(s: State, u: nat, p: GivePc)
    requires u < |s.threads|
    ensures AdvanceGive(s, u, p).place.Keys == s.place.Keys
  {
  }

  lemma PopKeys(s: State, u: nat, p: PopPc)
    requires u < |s.threads| && s.threads[u] == Pop(p)
    ensures AdvancePop(s, u, p).place.Keys == s.place.Keys
  {
    if !(p.PopCas? && WordAt(s, p.loc) == p.word) {
      hide AdvancePop;
      var pc := PopLocal(s, u, p);
    }
  }

  /** Only three steps concern the clients or raw memory. */
  lemma ClientsKept(p: Prog, u: nat, step: Step)
    requires Can(p, u, step) && !step.Return? && !step.Free? && !step.Refill?
    ensures Do(p, u, step).clients == p.clients && Do(p, u, step).raw == p.raw
  {
    hide Fire, Enabled, JobStep, Deliver, At, NextOf;
  }

  lemma OutsideSame(p: Prog, u: nat, step: Step, act: Action)
    requires OutsideOk(p) && Can(p, u, step) && CoreAct(p, u, step) == Some(act) && !step.Return? && !step.Free? && !step.Refill?
    ensures !act.HandOut? && !act.GiveBack? && !act.Carve?
  {
    hide Fire, Enabled, JobStep, At, NextOf;
  }

  lemma OutsideFrame(p: Prog, p': Prog, u: nat, act: Action)
    requires OutsideOk(p) && p'.clients == p.clients && p'.raw == p.raw && p'.core.place.Keys == p.core.place.Keys
    requires !act.HandOut? && !act.GiveBack? && !act.Carve?
    requires forall b :: Transfer(PlaceAt(p.core, b), PlaceAt(p'.core, b), u, act, b)
    ensures OutsideOk(p')
  {
    forall b
      ensures p'.clients[b] == (if PlaceAt(p'.core, b) == Live then 1 else 0)
      ensures b in p'.raw <==> b in p'.core.place && p'.core.place[b] == Uncarved
    {
      assert Transfer(PlaceAt(p.core, b), PlaceAt(p'.core, b), u, act, b);
    }
  }

  lemma ReturnOutside(p: Prog, u: nat)
    requires ProgInv(p) && Can(p, u, Return)
    ensures OutsideOk(Do(p, u, Return))
  {
    hide Inv, JobOk;
    var job := p.jobs[u];
    assert JobOk(p.core, u, p.core.threads[u], job);
    MineHeld(p.core, u, Idle, job, job.block);
    assert p.clients[job.block] == 0;
  }

  lemma FreeOutside(p: Prog, u: nat, b: nat)
    requires ProgInv(p) && Can(p, u, Free(b))
    ensures OutsideOk(Do(p, u, Free(b)))
  {
    hide Inv, JobsOk;
    assert p.clients[b] == 1;
  }

  lemma RefillOutside(p: Prog, u: nat, chain: seq<nat>)
    requires OutsideOk(p) && Can(p, u, Refill(chain))
    ensures OutsideOk(Do(p, u, Refill(chain)))
  {
    hide JobsOk;
    var p' := Do(p, u, Refill(chain));
    forall b
      ensures p'.clients[b] == (if PlaceAt(p'.core, b) == Live then 1 else 0)
      ensures b in p'.raw <==> b in p'.core.place && p'.core.place[b] == Uncarved
    {
      assert b in chain ==> b in p.raw;
    }
  }

  lemma OutsideKept(p: Prog, u: nat, step: Step)
    requires ProgInv(p) && Can(p, u, step) && Timely(p, u, step) && Allowed(p, u, step)
    ensures OutsideOk(Do(p, u, step))
  {
    hide Inv, JobsOk, OutsideOk, Fire, Enabled, InTime, Do, Can, CoreAct;
    if step.Return? {
      ReturnOutside(p, u);
    } else if step.Free? {
      FreeOutside(p, u, step.block);
    } else if step.Refill? {
      RefillOutside(p, u, step.chain);
    } else {
      ClientsKept(p, u, step);
      OutsideOther(p, u, step);
    }
  }

  lemma OutsideOther(p: Prog, u: nat, step: Step)
    requires ProgInv(p) && Can(p, u, step) && Timely(p, u, step) && Allowed(p, u, step)
    requires !step.Return? && !step.Free? && !step.Refill? && Do(p, u, step).clients == p.clients && Do(p, u, step).raw == p.raw
    ensures OutsideOk(Do(p, u, step))
  {
    hide Inv, JobsOk, Fire, Enabled, InTime, Do, Can, CoreAct, Timely;
    var p' := Do(p, u, step);
    match CoreAct(p, u, step)
    case None => assert p'.core == p.core;
    case Some(act) =>
      PlaceKeys(p.core, u, act);
      OutsideSame(p, u, step, act);
      forall b
        ensures Transfer(PlaceAt(p.core, b), PlaceAt(p'.core, b), u, act, b)
      {
        StepTransfer(p.core, u, act, b);
      }
      OutsideFrame(p, p', u, act);
  }

  // ----- all steps -----

  lemma OthersOk(p: Prog, u: nat, step: Step, t: nat)
    requires ProgInv(p) && Can(p, u, step) && Allowed(p, u, step) && Timely(p, u, step) && t < |p.jobs| && t != u
    ensures JobOk(Do(p, u, step).core, t, PcAt(Do(p, u, step).core, t), p.jobs[t])
  {
    hide Inv, OutsideOk, JobOk, Fire, Enabled, InTime;
    assert JobOk(p.core, t, p.core.threads[t], p.jobs[t]);
    match CoreAct(p, u, step)
    case None =>
    case Some(act) => OthersFrame(p.core, u, act, t, p.jobs[t]);
  }

  lemma OthersFrame(s: State, u: nat, act: Action, t: nat, job: Job)
    requires Inv(s) && Enabled(s, u, act) && InTime(s, u, act) && t < |s.threads| && t != u && JobOk(s, t, s.threads[t], job)
    ensures JobOk(Fire(s, u, act), t, PcAt(Fire(s, u, act), t), job)
  {
    hide Inv, Fire, Enabled, InTime, Carried, Linked, Distinct, CpuOk;
    var s' := Fire(s, u, act);
    forall b | b in Mine(job)
      ensures Same(s, s', b)
    {
      OthersLeft(s, u, act, b, t);
    }
    StepShape(s, u, act);
    JobFrame(s, s', t, s.threads[t], PcAt(s', t), job);
  }

  /** Every step keeps the invariant of the program, and of the core below it. */
  lemma ProgKeeps(p: Prog, u: nat, step: Step)
    requires ProgInv(p) && Can(p, u, step) && Timely(p, u, step)
    ensures ProgInv(Do(p, u, step)) && Allowed(p, u, step)
  {
    hide Inv, OutsideOk, JobOk, Fire, Enabled, InTime, Do, CoreAct, Timely;
    StepAllowed(p, u, step);
    CoreKept(p, u, step);
    OutsideKept(p, u, step);
    OwnKept(p, u, step);
    DoShape(p, u, step);
    var p' := Do(p, u, step);
    forall t | 0 <= t < |p'.jobs|
      ensures JobOk(p'.core, t, p'.core.threads[t], p'.jobs[t])
    {
      if t != u {
        OthersOk(p, u, step, t);
      }
    }
  }

  lemma CoreKept(p: Prog, u: nat, step: Step)
    requires ProgInv(p) && Can(p, u, step) && Allowed(p, u, step)
    ensures Inv(Do(p, u, step).core) && |Do(p, u, step).core.threads| == |p.core.threads|
  {
    hide Inv, JobsOk, OutsideOk, Fire, Enabled, InTime, Do, Can, CoreAct;
    match CoreAct(p, u, step)
    case None =>
    case Some(act) =>
      StepKeeps(p.core, u, act);
      StepShape(p.core, u, act);
  }

  lemma OwnKept(p: Prog, u: nat, step: Step)
    requires ProgInv(p) && Can(p, u, step) && Timely(p, u, step)
    ensures OwnOk(p, u, step)
  {
    hide ProgInv, OwnOk, Can, Do;
    if step.Core? {
      CoreOwn(p, u, step.act);
    } else {
      JobOwn(p, u, step);
    }
  }

  lemma DoShape(p: Prog, u: nat, step: Step)
    requires Can(p, u, step)
    ensures |Do(p, u, step).jobs| == |p.jobs| && forall t :: 0 <= t < |p.jobs| && t != u ==> Do(p, u, step).jobs[t] == p.jobs[t]
  {
    hide Fire, Enabled, JobStep, Deliver, At, NextOf;
  }
}
