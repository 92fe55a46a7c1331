/** What is recorded for the proof decides nothing. */
module ProgramBlind {
  import opened Layout
  import opened Circulation
  import opened Program

  // ----- forgetting what is recorded -----

  ghost function BareLoad(load: Load): Load { load.(chain := []) }

  ghost function BarePush(p: PushPc): PushPc { p.(load := BareLoad(p.load)) }

  ghost function BarePop(p: PopPc): PopPc { if p.PopLoad? then p else p.(load := BareLoad(p.load), v := 0) }

  ghost function BareGive(p: GivePc): GivePc { if p.GiveCount? then p else p.(load := BareLoad(p.load)) }

  ghost function BarePc(pc: Pc): Pc {
    match pc
    case Push(p) => Push(BarePush(p))
    case Pop(p) => Pop(BarePop(p))
    case Give(p) => Give(BareGive(p))
    case _ => pc
  }

  /** The addresses of blocks that are being laid out are computed, not recorded. */
  ghost function BareJob(job: Job): Job {
    match job
    case Batch(load) => Batch(BareLoad(load))
    case Store(load, after) => Store(BareLoad(load), BareJob(after))
    case Sorting(cpu, cur, rs, trim, ts, push) => Sorting(cpu, cur, [], trim, [], BareLoad(push))
    case Trimming(cpu, trim, ts) => Trimming(cpu, trim, [])
    case _ => job
  }

  /** The same memory, scheduler and registers. */
  ghost predicate AlikeCore(s: State, t: State) {
    && s.next == t.next && s.heads == t.heads && s.usage == t.usage && s.hint == t.hint && s.on == t.on
    && |s.threads| == |t.threads| && forall u :: 0 <= u < |s.threads| ==> BarePc(s.threads[u]) == BarePc(t.threads[u])
  }

  ghost predicate Alike(p: Prog, q: Prog) {
    && AlikeCore(p.core, q.core) && p.clients == q.clients && p.raw == q.raw
    && |p.jobs| == |q.jobs| && forall u :: 0 <= u < |p.jobs| ==> BareJob(p.jobs[u]) == BareJob(q.jobs[u])
  }

  // ----- instructions -----

  /** Memory changes alike, and the thread moves alike. */
  lemma AtAlike(s: State, t: State, s': State, t': State, u: nat, pc: Pc, pd: Pc)
    requires AlikeCore(s, t) && u < |s.threads| && s'.threads == s.threads && t'.threads == t.threads && BarePc(pc) == BarePc(pd)
    requires s'.next == t'.next && s'.heads == t'.heads && s'.usage == t'.usage && s'.hint == t'.hint && s'.on == t'.on
    ensures AlikeCore(At(s', u, pc), At(t', u, pd))
  {
  }

  lemma PushedAlike(s: State, t: State, l: Loc, chain: seq<nat>, chain': seq<nat>, word: Word)
    requires AlikeCore(s, t)
    ensures
      var s', t' := Pushed(s, l, chain, word), Pushed(t, l, chain', word);
      && s'.threads == s.threads && t'.threads == t.threads && s'.next == t'.next && s'.heads == t'.heads
      && s'.usage == t'.usage && s'.hint == t'.hint && s'.on == t'.on
  {
  }

  lemma PoppedAlike(s: State, t: State, l: Loc, u: nat, taken: seq<nat>, taken': seq<nat>, word: Word)
    requires AlikeCore(s, t)
    ensures
      var s', t' := Popped(s, l, u, taken, word), Popped(t, l, u, taken', word);
      && s'.threads == s.threads && t'.threads == t.threads && s'.next == t'.next && s'.heads == t'.heads
      && s'.usage == t'.usage && s'.hint == t'.hint && s'.on == t'.on
  {
  }

  lemma PushAlike(s: State, t: State, u: nat, p: PushPc, q: PushPc)
    requires AlikeCore(s, t) && u < |s.threads| && BarePush(p) == BarePush(q)
    ensures AlikeCore(AdvancePush(s, u, p), AdvancePush(t, u, q))
  {
    hide AlikeCore, Pushed;
    assert |s.threads| == |t.threads| && WordAt(s, p.loc) == WordAt(t, q.loc) && s.next == t.next by { SameWords(s, t); }
    match p
    case PushLoad(loc, load) =>
      AtAlikeHere(s, t, u, Push(PushLink(loc, load, WordAt(s, loc))), Push(PushLink(loc, q.load, WordAt(s, loc))));
    case PushLink(loc, load, word) =>
      LinkAlike(s, t, u, load.tail, word.ptr, Push(PushCas(loc, load, word)), Push(PushCas(loc, q.load, word)));
    case PushCas(loc, load, word) =>
      if WordAt(s, loc) == word {
        var w := Pack(load.head, word);
        var pc := if word.ptr == 0 then Hint(MarkLoad(loc.cpu)) else Idle;
        PushedAlike(s, t, loc, load.chain, q.load.chain, w);
        AtAlike(s, t, Pushed(s, loc, load.chain, w), Pushed(t, loc, q.load.chain, w), u, pc, pc);
      } else {
        AtAlikeHere(s, t, u, Push(PushLoad(loc, load)), Push(PushLoad(loc, q.load)));
      }
  }

  lemma SameWords(s: State, t: State)
    requires AlikeCore(s, t)
    ensures |s.threads| == |t.threads| && s.next == t.next && (forall l :: WordAt(s, l) == WordAt(t, l))
    ensures (forall b :: NextOf(s, b) == NextOf(t, b)) && (forall c :: Hinted(s, c) == Hinted(t, c))
    ensures forall u, c :: RunsOn(s, u, c) == RunsOn(t, u, c)
  {
  }

  lemma AtAlikeHere(s: State, t: State, u: nat, pc: Pc, pd: Pc)
    requires AlikeCore(s, t) && u < |s.threads| && BarePc(pc) == BarePc(pd)
    ensures |s.threads| == |t.threads| && AlikeCore(At(s, u, pc), At(t, u, pd))
  {
  }

  lemma LinkAlike(s: State, t: State, u: nat, b: nat, x: nat, pc: Pc, pd: Pc)
    requires AlikeCore(s, t) && u < |s.threads| && BarePc(pc) == BarePc(pd)
    ensures |s.threads| == |t.threads| && AlikeCore(At(s.(next := s.next[b := x]), u, pc), At(t.(next := t.next[b := x]), u, pd))
  {
  }

  lemma PopAlike(s: State, t: State, u: nat, p: PopPc, q: PopPc)
    requires AlikeCore(s, t) && u < |s.threads| && BarePop(p) == BarePop(q)
    ensures AlikeCore(AdvancePop(s, u, p), AdvancePop(t, u, q))
  {
    hide AlikeCore, Popped;
    SameWords(s, t);
    if p.PopCas? && WordAt(s, p.loc) == p.word {
      var w := Pack(p.nx, p.word);
      var pc := if p.nx == 0 && !p.single then Hint(ClearLoad(p.loc.cpu)) else Idle;
      PoppedAlike(s, t, p.loc, u, p.load.chain, q.load.chain, w);
      AtAlike(s, t, Popped(s, p.loc, u, p.load.chain, w), Popped(t, p.loc, u, q.load.chain, w), u, pc, pc);
    } else {
      var pc, pd := PopNext(s, t, u, p, q);
      AtAlikeHere(s, t, u, pc, pd);
    }
  }

  lemma PopNext(s: State, t: State, u: nat, p: PopPc, q: PopPc) returns (pc: Pc, pd: Pc)
    requires AlikeCore(s, t) && u < |s.threads| && BarePop(p) == BarePop(q) && !(p.PopCas? && WordAt(s, p.loc) == p.word)
    ensures |s.threads| == |t.threads| && AdvancePop(s, u, p) == At(s, u, pc) && AdvancePop(t, u, q) == At(t, u, pd)
    ensures BarePc(pc) == BarePc(pd)
  {
    hide AlikeCore;
    SameWords(s, t);
    match p
    case PopLoad(loc, single, batch) =>
      var word := WordAt(s, loc);
      if word.ptr != 0 {
        pc := Pop(PopWalk(loc, single, batch, word, One(word.ptr), VersionAt(s, loc)));
        pd := Pop(PopWalk(loc, single, batch, word, One(word.ptr), VersionAt(t, loc)));
      } else {
        pc := if loc.kind.Normal? then Pop(PopLoad(Loc(loc.cpu, Trimmed), single, batch)) else Hint(ClearLoad(loc.cpu));
        pd := pc;
      }
    case PopWalk(loc, single, batch, word, load, v) =>
      var nx := NextOf(s, load.tail);
      if load.count < batch && nx != 0 {
        pc := Pop(PopWalk(loc, single, batch, word, Longer(load, nx), v));
        pd := Pop(PopWalk(loc, single, batch, word, Longer(q.load, nx), q.v));
      } else {
        pc, pd := Pop(PopCas(loc, single, batch, word, load, nx, v)), Pop(PopCas(loc, single, batch, word, q.load, nx, q.v));
      }
    case PopCas(loc, single, batch, word, load, nx, v) => pc, pd := Pop(PopLoad(loc, single, batch)), Pop(PopLoad(loc, single, batch));
  }

  lemma HintAlike(s: State, t: State, u: nat, p: HintPc)
    requires AlikeCore(s, t) && u < |s.threads|
    ensures AlikeCore(AdvanceHint(s, u, p), AdvanceHint(t, u, p))
  {
    SameWords(s, t);
  }

  lemma DetachAlike(s: State, t: State, u: nat, p: DetachPc)
    requires AlikeCore(s, t) && u < |s.threads|
    ensures AlikeCore(AdvanceDetach(s, u, p), AdvanceDetach(t, u, p))
  {
    hide AlikeCore, Popped;
    SameWords(s, t);
    var l := Loc(p.cpu, Normal);
    if p.DetachCas? && WordAt(s, l) == p.word {
      PoppedAlike(s, t, l, u, ListAt(s, l), ListAt(t, l), Pack(0, p.word));
      AtAlike(s, t, Popped(s, l, u, ListAt(s, l), Pack(0, p.word)), Popped(t, l, u, ListAt(t, l), Pack(0, p.word)), u, Idle, Idle);
    } else {
      var now := WordAt(s, l);
      var pc := if now.ptr == 0 then Idle else Detach(DetachCas(p.cpu, now));
      AtAlikeHere(s, t, u, pc, pc);
    }
  }

  lemma TakeAlike(s: State, t: State, u: nat, p: TakePc)
    requires AlikeCore(s, t) && u < |s.threads|
    ensures AlikeCore(AdvanceTake(s, u, p), AdvanceTake(t, u, p))
  {
    hide AlikeCore, Popped;
    SameWords(s, t);
    match p
    case TakeStore(cpu, tmp, nx) =>
      PoppedAlike(s, t, Loc(cpu, Rseq), u, [tmp], [tmp], Word(nx, 0));
      AtAlike(s, t, Popped(s, Loc(cpu, Rseq), u, [tmp], Word(nx, 0)), Popped(t, Loc(cpu, Rseq), u, [tmp], Word(nx, 0)), u,
        Take(TakeCount(cpu)), Take(TakeCount(cpu)));
    case TakeCount(cpu) => CountAlike(s, t, u, cpu, WRAP - 1);
    case TakeEnter(cpu) => AtAlikeHere(s, t, u, Take(TakeCheck(cpu)), Take(TakeCheck(cpu)));
    case TakeCheck(cpu) =>
      var pc := if RunsOn(s, u, cpu) then Take(TakeLoad(cpu)) else Idle;
      AtAlikeHere(s, t, u, pc, pc);
    case TakeLoad(cpu) =>
      var tmp := WordAt(s, Loc(cpu, Rseq)).ptr;
      var pc := if tmp == 0 then Idle else Take(TakeNext(cpu, tmp));
      AtAlikeHere(s, t, u, pc, pc);
    case TakeNext(cpu, tmp) => AtAlikeHere(s, t, u, Take(TakeStore(cpu, tmp, NextOf(s, tmp))), Take(TakeStore(cpu, tmp, NextOf(s, tmp))));
  }

  lemma CountAlike(s: State, t: State, u: nat, cpu: nat, n: nat)
    requires AlikeCore(s, t) && u < |s.threads|
    ensures |s.threads| == |t.threads| && AlikeCore(At(Counted(s, cpu, n), u, Idle), At(Counted(t, cpu, n), u, Idle))
  {
    AtAlike(s, t, Counted(s, cpu, n), Counted(t, cpu, n), u, Idle, Idle);
  }

  lemma GiveAlike(s: State, t: State, u: nat, p: GivePc, q: GivePc)
    requires AlikeCore(s, t) && u < |s.threads| && BareGive(p) == BareGive(q)
    ensures AlikeCore(AdvanceGive(s, u, p), AdvanceGive(t, u, q))
  {
    hide AlikeCore, Pushed;
    SameWords(s, t);
    match p
    case GiveEnter(cpu, load) => AtAlikeHere(s, t, u, Give(GiveCheck(cpu, load)), Give(GiveCheck(cpu, q.load)));
    case GiveCheck(cpu, load) =>
      if RunsOn(s, u, cpu) {
        AtAlikeHere(s, t, u, Give(GiveLoad(cpu, load)), Give(GiveLoad(cpu, q.load)));
      } else {
        AtAlikeHere(s, t, u, Idle, Idle);
      }
    case GiveLoad(cpu, load) =>
      var tmp := WordAt(s, Loc(cpu, Rseq)).ptr;
      AtAlikeHere(s, t, u, Give(GiveLink(cpu, load, tmp)), Give(GiveLink(cpu, q.load, tmp)));
    case GiveLink(cpu, load, tmp) =>
      LinkAlike(s, t, u, load.tail, tmp, Give(GiveStore(cpu, load, tmp)), Give(GiveStore(cpu, q.load, tmp)));
    case GiveStore(cpu, load, tmp) =>
      var w, pc := Word(load.head, 0), Give(GiveCount(cpu, load.count));
      PushedAlike(s, t, Loc(cpu, Rseq), load.chain, q.load.chain, w);
      AtAlike(s, t, Pushed(s, Loc(cpu, Rseq), load.chain, w), Pushed(t, Loc(cpu, Rseq), q.load.chain, w), u, pc, pc);
    case GiveCount(cpu, count) => CountAlike(s, t, u, cpu, count);
  }

  lemma GoAlike(s: State, t: State, u: nat)
    requires AlikeCore(s, t) && u < |s.threads|
    ensures |s.threads| == |t.threads| && AlikeCore(Advance(s, u), Advance(t, u))
  {
    hide AdvancePush, AdvancePop, AdvanceHint, AdvanceDetach, AdvanceTake, AdvanceGive;
    assert BarePc(s.threads[u]) == BarePc(t.threads[u]);
    match s.threads[u]
    case Push(p) => PushAlike(s, t, u, p, t.threads[u].push);
    case Pop(p) => PopAlike(s, t, u, p, t.threads[u].pop);
    case Hint(p) => HintAlike(s, t, u, p);
    case Detach(p) => DetachAlike(s, t, u, p);
    case Take(p) => TakeAlike(s, t, u, p);
    case Give(p) => GiveAlike(s, t, u, p, t.threads[u].give);
    case Idle =>
  }

  lemma InnerAlike(s: State, t: State, u: nat, act: Action)
    requires AlikeCore(s, t) && Inner(act)
    ensures Enabled(s, u, act) <==> Enabled(t, u, act)
    ensures Enabled(s, u, act) ==> AlikeCore(Fire(s, u, act), Fire(t, u, act))
  {
    hide Advance;
    SameWords(s, t);
    assert u < |s.threads| ==> BarePc(s.threads[u]) == BarePc(t.threads[u]);
    assert Running(s, u) <==> Running(t, u);
    if Enabled(s, u, act) && act.Go? {
      GoAlike(s, t, u);
    }
  }

  lemma StillAlike(s: State, t: State, u: nat)
    requires AlikeCore(s, t) && u < |s.threads|
    ensures |s.threads| == |t.threads| && BarePc(s.threads[u]) == BarePc(t.threads[u])
  {
  }

  lemma PopDelivers(s: State, t: State, u: nat, p: PopPc, q: PopPc, job: Job, job': Job)
    requires u < |s.threads| == |t.threads| && s.threads[u] == Pop(p) && t.threads[u] == Pop(q) && BarePop(p) == BarePop(q)
    requires WordAt(s, p.loc) == WordAt(t, p.loc) && BareJob(job) == BareJob(job')
    ensures BareJob(Deliver(s, u, Go, job)) == BareJob(Deliver(t, u, Go, job'))
  {
    hide WordAt, RunsOn, InSequence;
    assert job == Seek(true) <==> job' == Seek(true);
  }

  lemma TakeDelivers(s: State, t: State, u: nat, p: TakePc, job: Job, job': Job)
    requires u < |s.threads| == |t.threads| && s.threads[u] == Take(p) && t.threads[u] == Take(p)
    requires WordAt(s, Loc(p.cpu, Rseq)) == WordAt(t, Loc(p.cpu, Rseq)) && BareJob(job) == BareJob(job')
    ensures BareJob(Deliver(s, u, Go, job)) == BareJob(Deliver(t, u, Go, job'))
  {
    hide WordAt, RunsOn, InSequence;
  }

  lemma GiveDelivers(s: State, t: State, u: nat, p: GivePc, q: GivePc, job: Job, job': Job)
    requires u < |s.threads| == |t.threads| && s.threads[u] == Give(p) && t.threads[u] == Give(q) && BareGive(p) == BareGive(q)
    requires (RunsOn(s, u, p.cpu) <==> RunsOn(t, u, p.cpu)) && BareJob(job) == BareJob(job')
    ensures BareJob(Deliver(s, u, Go, job)) == BareJob(Deliver(t, u, Go, job'))
  {
    hide WordAt, RunsOn, InSequence;
  }

  lemma DetachDelivers(s: State, t: State, u: nat, p: DetachPc, job: Job, job': Job)
    requires u < |s.threads| == |t.threads| && s.threads[u] == Detach(p) && t.threads[u] == Detach(p)
    requires WordAt(s, Loc(p.cpu, Normal)) == WordAt(t, Loc(p.cpu, Normal)) && BareJob(job) == BareJob(job')
    ensures BareJob(Deliver(s, u, Go, job)) == BareJob(Deliver(t, u, Go, job'))
  {
    hide WordAt, RunsOn, InSequence;
  }

  lemma GoDelivers(s: State, t: State, u: nat, job: Job, job': Job)
    requires AlikeCore(s, t) && u < |s.threads| && BareJob(job) == BareJob(job')
    ensures |s.threads| == |t.threads| && BareJob(Deliver(s, u, Go, job)) == BareJob(Deliver(t, u, Go, job'))
  {
    hide AlikeCore, WordAt, RunsOn, InSequence, BareJob;
    SameWords(s, t);
    StillAlike(s, t, u);
    match s.threads[u]
    case Pop(p) =>
      hide Deliver;
      PopDelivers(s, t, u, p, t.threads[u].pop, job, job');
    case Take(p) =>
      hide Deliver;
      TakeDelivers(s, t, u, p, job, job');
    case Give(p) =>
      hide Deliver;
      GiveDelivers(s, t, u, p, t.threads[u].give, job, job');
    case Detach(p) =>
      hide Deliver;
      DetachDelivers(s, t, u, p, job, job');
    case _ =>
  }

  lemma DeliverAlike(s: State, t: State, u: nat, act: Action, job: Job, job': Job)
    requires AlikeCore(s, t) && u < |s.threads| && BareJob(job) == BareJob(job')
    ensures |s.threads| == |t.threads| && BareJob(Deliver(s, u, act, job)) == BareJob(Deliver(t, u, act, job'))
  {
    hide AlikeCore;
    StillAlike(s, t, u);
    if act.Go? {
      hide Deliver;
      GoDelivers(s, t, u, job, job');
    }
  }

  // ----- jobs -----

  lemma CanAlike(p: Prog, q: Prog, u: nat, step: Step)
    requires Alike(p, q) && Can(p, u, step)
    ensures Can(q, u, step)
  {
    hide Enabled, JobStep;
    SameWords(p.core, q.core);
    assert BareJob(p.jobs[u]) == BareJob(q.jobs[u]) && BarePc(p.core.threads[u]) == BarePc(q.core.threads[u]);
    if step.Core? {
      InnerAlike(p.core, q.core, u, step.act);
    } else {
      hide AlikeCore, BarePc;
      JobStepAlike(p, q, u, p.jobs[u], q.jobs[u], step);
    }
  }

  lemma JobStepAlike(p: Prog, q: Prog, u: nat, job: Job, job': Job, step: Step)
    requires Alike(p, q) && BareJob(job) == BareJob(job') && JobStep(p, u, job, step)
    ensures JobStep(q, u, job', step)
  {
    SameWords(p.core, q.core);
    assert p.core.heads == q.core.heads;
    hide AlikeCore, BarePc, RunsOn;
  }

  lemma PutAlike(p: Prog, q: Prog, u: nat, s: State, t: State, job: Job, job': Job)
    requires Alike(p, q) && u < |p.jobs| && AlikeCore(s, t) && BareJob(job) == BareJob(job')
    ensures Alike(Put(p, u, s, job), Put(q, u, t, job'))
  {
    hide AlikeCore;
  }

  lemma CoreAlike(p: Prog, q: Prog, u: nat, act: Action)
    requires Alike(p, q) && Can(p, u, Core(act)) && Can(q, u, Core(act))
    ensures Alike(Do(p, u, Core(act)), Do(q, u, Core(act)))
  {
    hide AlikeCore, Fire, Enabled, Deliver;
    InnerAlike(p.core, q.core, u, act);
    DeliverAlike(p.core, q.core, u, act, p.jobs[u], q.jobs[u]);
    PutAlike(p, q, u, Fire(p.core, u, act), Fire(q.core, u, act), Deliver(p.core, u, act, p.jobs[u]), Deliver(q.core, u, act, q.jobs[u]));
  }

  lemma BeginAlike(p: Prog, q: Prog, u: nat, pc: Pc, pd: Pc, job: Job, job': Job)
    requires Alike(p, q) && u < |p.core.threads| == |p.jobs| && BarePc(pc) == BarePc(pd) && BareJob(job) == BareJob(job')
    ensures |q.core.threads| == |q.jobs| == |p.jobs| && Alike(Begin(p, u, pc, job), Begin(q, u, pd, job'))
  {
    AtAlikeHere(p.core, q.core, u, pc, pd);
    hide AlikeCore;
    PutAlike(p, q, u, At(p.core, u, pc), At(q.core, u, pd), job, job');
  }

  lemma LinksAlike(p: Prog, q: Prog, u: nat, b: nat, x: nat, job: Job, job': Job)
    requires Alike(p, q) && u < |p.jobs| && BareJob(job) == BareJob(job')
    ensures |q.jobs| == |p.jobs| && Alike(Link(p, u, b, x, job), Link(q, u, b, x, job'))
  {
    PutAlike(p, q, u, p.core.(next := p.core.next[b := x]), q.core.(next := q.core.next[b := x]), job, job');
  }

  lemma ElsewhereAlike(p: Prog, q: Prog, u: nat, b: nat, target: nat)
    requires Alike(p, q) && Can(p, u, Elsewhere(b, target)) && Can(q, u, Elsewhere(b, target))
    ensures Alike(Do(p, u, Elsewhere(b, target)), Do(q, u, Elsewhere(b, target)))
  {
    hide Alike;
    LinksAlike(p, q, u, b, target, Rest, Rest);
  }

  lemma StartAlike(p: Prog, q: Prog, u: nat, step: Step)
    requires Alike(p, q) && Can(p, u, step) && Can(q, u, step) && (step.PopHere? || step.PopMail? || step.Steal? || step.Trim?)
    ensures Alike(Do(p, u, step), Do(q, u, step))
  {
    hide AlikeCore;
    var job, job' := p.jobs[u], q.jobs[u];
    assert BareJob(job) == BareJob(job');
    var l := Loc(step.cpu, Normal);
    var pc :=
      if step.PopHere? then Take(TakeEnter(step.cpu))
      else if step.PopMail? then Pop(PopLoad(l, true, 1))
      else if step.Steal? then Pop(PopLoad(l, false, step.batch))
      else Detach(DetachLoad(step.cpu));
    BeginAlike(p, q, u, pc, pc, job, job');
  }

  lemma StoreAlike(p: Prog, q: Prog, u: nat, step: Step)
    requires Alike(p, q) && Can(p, u, step) && Can(q, u, step) && (step.PutHere? || step.PutMail?)
    ensures Alike(Do(p, u, step), Do(q, u, step))
  {
    hide AlikeCore;
    var job, job' := p.jobs[u], q.jobs[u];
    assert BareJob(job) == BareJob(job');
    if step.PutHere? {
      BeginAlike(p, q, u, Give(GiveEnter(step.cpu, job.load)), Give(GiveEnter(step.cpu, job'.load)), job.after, job'.after);
    } else {
      var l := Loc(step.cpu, Normal);
      BeginAlike(p, q, u, Push(PushLoad(l, job.load)), Push(PushLoad(l, job'.load)), job.after, job'.after);
    }
  }

  lemma FlushAlike(p: Prog, q: Prog, u: nat)
    requires Alike(p, q) && Can(p, u, Flush) && Can(q, u, Flush)
    ensures Alike(Do(p, u, Flush), Do(q, u, Flush))
  {
    hide AlikeCore;
    var job, job' := p.jobs[u], q.jobs[u];
    assert BareJob(job) == BareJob(job');
    var l := Loc(job.cpu, Normal);
    BeginAlike(p, q, u, Push(PushLoad(l, job.push)), Push(PushLoad(l, job'.push)), job.(push := NONE), job'.(push := NONE));
  }

  lemma MoveAlike(p: Prog, q: Prog, u: nat, step: Step)
    requires Alike(p, q) && Can(p, u, step) && Can(q, u, step)
    requires step.Malloc? || step.LastTry? || step.GiveUp? || step.Sifted? || step.Done?
    ensures Alike(Do(p, u, step), Do(q, u, step))
  {
    hide AlikeCore;
    var job, job' := p.jobs[u], q.jobs[u];
    assert BareJob(job) == BareJob(job');
    var j, j' := Do(p, u, step).jobs[u], Do(q, u, step).jobs[u];
    PutAlike(p, q, u, p.core, q.core, j, j');
  }

  lemma TakeOneAlike(p: Prog, q: Prog, u: nat)
    requires Alike(p, q) && Can(p, u, TakeOne) && Can(q, u, TakeOne)
    ensures Alike(Do(p, u, TakeOne), Do(q, u, TakeOne))
  {
    hide AlikeCore, NextOf;
    SameWords(p.core, q.core);
    var load, load' := p.jobs[u].load, q.jobs[u].load;
    assert BareJob(p.jobs[u]) == BareJob(q.jobs[u]);
    var rest := NextOf(p.core, load.head);
    if load.count > 1 {
      PutAlike(p, q, u, p.core, q.core, Store(Load(rest, load.tail, load.count - 1, Tail(load.chain)), Clear(load.head)),
        Store(Load(rest, load.tail, load.count - 1, Tail(load'.chain)), Clear(load.head)));
    }
    PutAlike(p, q, u, p.core, q.core, Clear(load.head), Clear(load.head));
  }

  lemma LayAlike(p: Prog, q: Prog, u: nat, step: Step)
    requires Alike(p, q) && Can(p, u, step) && Can(q, u, step) && (step.Lay? || step.Reset?)
    ensures Alike(Do(p, u, step), Do(q, u, step))
  {
    hide AlikeCore;
    var job := p.jobs[u];
    assert BareJob(job) == BareJob(q.jobs[u]);
    if step.Reset? {
      LinksAlike(p, q, u, job.block, 0, Got(job.block), Got(job.block));
    } else if job.left == 0 || job.left > |job.load.chain| {
      PutAlike(p, q, u, p.core, q.core, Batch(job.load), Batch(job.load));
    } else {
      var b, x := job.load.chain[job.left - 1], First(job.load.chain[job.left..], 0);
      LinksAlike(p, q, u, b, x, Laying(job.load, job.left - 1), Laying(job.load, job.left - 1));
    }
  }

  lemma SiftAlike(p: Prog, q: Prog, u: nat, old': bool)
    requires Alike(p, q) && Can(p, u, Sift(old')) && Can(q, u, Sift(old'))
    ensures Alike(Do(p, u, Sift(old')), Do(q, u, Sift(old')))
  {
    hide AlikeCore, NextOf;
    SameWords(p.core, q.core);
    var job, job' := p.jobs[u], q.jobs[u];
    assert BareJob(job) == BareJob(job');
    var next := NextOf(p.core, job.cur);
    if old' {
      LinksAlike(p, q, u, job.cur, job.trim, Sorting(job.cpu, next, Tail(job.rs), job.cur, [job.cur] + job.ts, job.push),
        Sorting(job.cpu, next, Tail(job'.rs), job.cur, [job.cur] + job'.ts, job'.push));
    } else {
      LinksAlike(p, q, u, job.cur, job.push.head, Sorting(job.cpu, next, Tail(job.rs), job.trim, job.ts, Front(job.cur, job.push)),
        Sorting(job.cpu, next, Tail(job'.rs), job.trim, job'.ts, Front(job.cur, job'.push)));
    }
  }

  lemma DisposeAlike(p: Prog, q: Prog, u: nat, released: bool)
    requires Alike(p, q) && Can(p, u, Dispose(released)) && Can(q, u, Dispose(released))
    ensures Alike(Do(p, u, Dispose(released)), Do(q, u, Dispose(released)))
  {
    hide AlikeCore, NextOf;
    SameWords(p.core, q.core);
    var job, job' := p.jobs[u], q.jobs[u];
    assert BareJob(job) == BareJob(job');
    var next := NextOf(p.core, job.trim);
    var pc := Push(PushLoad(Loc(job.cpu, if released then Trimmed else Normal), One(job.trim)));
    BeginAlike(p, q, u, pc, pc, Trimming(job.cpu, next, Tail(job.ts)), Trimming(job.cpu, next, Tail(job'.ts)));
  }

  lemma HandAlike(p: Prog, q: Prog, u: nat, step: Step)
    requires Alike(p, q) && Can(p, u, step) && Can(q, u, step) && (step.Return? || step.Free? || step.Refill?)
    ensures Alike(Do(p, u, step), Do(q, u, step))
  {
    assert BareJob(p.jobs[u]) == BareJob(q.jobs[u]);
  }

  /** Two states with the same memory and registers allow the same steps, and the steps lead to states with the same
      memory and registers: who is believed to hold a block, and all other history, decides nothing. */
  lemma Blind(p: Prog, q: Prog, u: nat, step: Step)
    requires Alike(p, q) && Can(p, u, step)
    ensures Can(q, u, step) && Alike(Do(p, u, step), Do(q, u, step))
  {
    hide Alike, Can;
    CanAlike(p, q, u, step);
    match step
    case Core(act) => CoreAlike(p, q, u, act);
    case Lay => LayAlike(p, q, u, step);
    case Reset => LayAlike(p, q, u, step);
    case Sift(old') => SiftAlike(p, q, u, old');
    case Dispose(released) => DisposeAlike(p, q, u, released);
    case Flush => FlushAlike(p, q, u);
    case PutHere(_) => StoreAlike(p, q, u, step);
    case PutMail(_) => StoreAlike(p, q, u, step);
    case Return => HandAlike(p, q, u, step);
    case Free(_) => HandAlike(p, q, u, step);
    case Refill(_) => HandAlike(p, q, u, step);
    case Malloc => MoveAlike(p, q, u, step);
    case LastTry => MoveAlike(p, q, u, step);
    case GiveUp => MoveAlike(p, q, u, step);
    case Sifted => MoveAlike(p, q, u, step);
    case Done => MoveAlike(p, q, u, step);
    case TakeOne => TakeOneAlike(p, q, u);
    case Elsewhere(b, target) => ElsewhereAlike(p, q, u, b, target);
    case _ => StartAlike(p, q, u, step);
  }
}
