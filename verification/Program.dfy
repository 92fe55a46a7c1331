/** What the program does with small blocks: allocation, free, refill and trimming around the operations on lists.

    Each thread has a job, which holds the registers between two operations.  No step here asks who holds a block: a
    thread hands out, pushes, links and trims whatever its registers say. */
module Program {
  import opened Circulation

  /** What a thread is about to do.  The sequences `rs` and `ts` say what the registers before them are meant to lead to,
      for the proof only. */
  datatype Job =
    | Rest
    // rs_alloc: pop, then fill and refill
    | Want
    | Seek(last: bool)
    | Laying(load: Load, left: nat)
    | Batch(load: Load)
    | Clear(block: nat)
    | Got(block: nat)
    // push and push_tailed: blocks to put back, and what comes after
    | Store(load: Load, after: Job)
    // trim_small: the list being sorted, the list to trim, the batch to push back
    | Sorting(cpu: nat, cur: nat, rs: seq<nat>, trim: nat, ts: seq<nat>, push: Load)
    | Trimming(cpu: nat, trim: nat, ts: seq<nat>)

  /** `clients` are the blocks handed out and not freed since, `raw` those no refill has carved yet. */
  datatype Prog = Prog(core: State, jobs: seq<Job>, clients: multiset<nat>, raw: set<nat>)

  datatype Step =
    | Core(act: Action)
    | Malloc
    | PopHere(cpu: nat)
    | PopMail(cpu: nat)
    | Steal(cpu: nat, batch: nat)
    | Refill(chain: seq<nat>)
    | Lay
    | LastTry
    | GiveUp
    | TakeOne
    | Reset
    | Return
    | Free(block: nat)
    | PutHere(cpu: nat)
    | PutMail(cpu: nat)
    | Trim(cpu: nat)
    | Sift(old': bool)
    | Flush
    | Sifted
    | Dispose(released: bool)
    | Done
    // a block of a client has changed its class, and an operation of that class writes its link
    | Elsewhere(block: nat, target: nat)

  const NONE: Load := Load(0, 0, 0, [])

  ghost function Tail(xs: seq<nat>): seq<nat> { if xs == [] then [] else xs[1..] }

  ghost function Put(p: Prog, u: nat, core: State, job: Job): Prog
    requires u < |p.jobs|
  {
    p.(core := core, jobs := p.jobs[u := job])
  }

  /** What the registers of an operation mean for the job when an instruction ends it: a block or a batch to use, an empty
      list, a detached list, or a push that the kernel aborted. */
  ghost function Deliver(s: State, u: nat, act: Action, job: Job): Job
    requires u < |s.threads|
  {
    var pc := s.threads[u];
    if act.Go? then
      if pc.Pop? && pc.pop.PopCas? && WordAt(s, pc.pop.loc) == pc.pop.word then
        if pc.pop.single || job == Seek(true) then Got(pc.pop.load.head) else Batch(pc.pop.load)
      else if pc.Take? && pc.take.TakeLoad? && WordAt(s, Loc(pc.take.cpu, Rseq)).ptr == 0 then Seek(false)
      else if pc.Take? && pc.take.TakeStore? then Got(pc.take.tmp)
      else if pc.Give? && pc.give.GiveCheck? && !RunsOn(s, u, pc.give.cpu) then Store(pc.give.load, job)
      else if pc.Detach? && pc.detach.DetachCas? && WordAt(s, Loc(pc.detach.cpu, Normal)) == pc.detach.word then
        Sorting(pc.detach.cpu, pc.detach.word.ptr, ListAt(s, Loc(pc.detach.cpu, Normal)), 0, [], NONE)
      else job
    else if (act.Abort? || act.Preempt?) && InSequence(pc) && pc.Give? then Store(pc.give.load, job)
    else job
  }

  /** The instructions and the scheduler, as in the core. */
  ghost predicate Inner(act: Action) { act.Go? || act.Abort? || act.Preempt? || act.Resume? }

  ghost predicate JobStep(p: Prog, u: nat, job: Job, step: Step) {
    match step
    case Core(act) => false
    case Malloc => job == Rest
    case PopHere(cpu) => job == Want && RunsOn(p.core, u, cpu)
    case PopMail(cpu) => job == Want && Loc(cpu, Normal) in p.core.heads
    case Steal(cpu, batch) => job.Seek? && Loc(cpu, Normal) in p.core.heads && batch >= 1 && (job.last ==> batch == 1)
    case Refill(chain) => job == Seek(false) && chain != [] && Distinct(chain) && forall b :: b in chain ==> b in p.raw
    case Lay => job.Laying?
    case LastTry => job == Seek(false)
    case GiveUp => job == Seek(true)
    case TakeOne => job.Batch?
    case Reset => job.Clear?
    case Return => job.Got?
    case Free(b) => job == Rest && b in p.clients
    case PutHere(cpu) => job.Store? && RunsOn(p.core, u, cpu)
    case PutMail(cpu) => job.Store? && Loc(cpu, Normal) in p.core.heads
    case Trim(cpu) => job == Rest && Loc(cpu, Normal) in p.core.heads
    case Sift(_) => job.Sorting? && job.cur != 0 && job.push.count < REPUSH_BATCH
    case Flush => job.Sorting? && (job.push.count == REPUSH_BATCH || (job.cur == 0 && job.push.count > 0))
    case Sifted => job.Sorting? && job.cur == 0 && job.push.count == 0
    case Dispose(_) => job.Trimming? && job.trim != 0
    case Done => job.Trimming? && job.trim == 0
    case Elsewhere(b, target) => job == Rest && b in p.clients && (target == 0 || target in p.core.next)
  }

  ghost predicate Can(p: Prog, u: nat, step: Step) {
    u < |p.core.threads| == |p.jobs| &&
    if step.Core? then Inner(step.act) && Enabled(p.core, u, step.act)
    else p.core.threads[u].Idle? && JobStep(p, u, p.jobs[u], step)
  }

  /** Only registers of the job and where the thread stands change. */
  ghost function Begin(p: Prog, u: nat, pc: Pc, job: Job): Prog
    requires u < |p.core.threads| == |p.jobs|
  {
    Put(p, u, At(p.core, u, pc), job)
  }

  ghost function Link(p: Prog, u: nat, b: nat, next: nat, job: Job): Prog
    requires u < |p.jobs|
  {
    Put(p, u, p.core.(next := p.core.next[b := next]), job)
  }

  /** The next header of init_blocks, from the last block to the first. */
  ghost function LayStep(p: Prog, u: nat, load: Load, left: nat): Prog
    requires u < |p.jobs|
  {
    if left == 0 || left > |load.chain| then Put(p, u, p.core, Batch(load))
    else Link(p, u, load.chain[left - 1], First(load.chain[left..], 0), Laying(load, left - 1))
  }

  /** take_one_from_batch: the rest of the batch goes back first. */
  ghost function TakeOneStep(p: Prog, u: nat, load: Load): Prog
    requires u < |p.jobs|
  {
    var rest := NextOf(p.core, load.head);
    if load.count > 1 && rest != 0 then
      Put(p, u, p.core, Store(Load(rest, load.tail, load.count - 1, Tail(load.chain)), Clear(load.head)))
    else Put(p, u, p.core, Clear(load.head))
  }

  /** One block of the detached list goes to the list to trim or to the batch. */
  ghost function SiftStep(p: Prog, u: nat, job: Job, old': bool): Prog
    requires u < |p.jobs| && job.Sorting?
  {
    var cur, next := job.cur, NextOf(p.core, job.cur);
    if old' then
      Link(p, u, cur, job.trim, Sorting(job.cpu, next, Tail(job.rs), cur, [cur] + job.ts, job.push))
    else
      Link(p, u, cur, job.push.head, Sorting(job.cpu, next, Tail(job.rs), job.trim, job.ts, Front(cur, job.push)))
  }

  /** A block in front of a batch. */
  ghost function Front(b: nat, push: Load): Load {
    Load(b, if push.count == 0 then b else push.tail, push.count + 1, [b] + push.chain)
  }

  ghost function Refilled(core: State, u: nat, chain: seq<nat>): State {
    core.(place := map b | b in core.place :: if b in chain then Held(u) else core.place[b])
  }

  ghost function Do(p: Prog, u: nat, step: Step): Prog
    requires Can(p, u, step)
  {
    var job := p.jobs[u];
    match step
    case Core(act) => Put(p, u, Fire(p.core, u, act), Deliver(p.core, u, act, job))
    case Malloc => Put(p, u, p.core, Want)
    case PopHere(cpu) => Begin(p, u, Take(TakeEnter(cpu)), job)
    case PopMail(cpu) => Begin(p, u, Pop(PopLoad(Loc(cpu, Normal), true, 1)), job)
    case Steal(cpu, batch) => Begin(p, u, Pop(PopLoad(Loc(cpu, Normal), false, batch)), job)
    case Refill(chain) =>
      Put(p, u, Refilled(p.core, u, chain), Laying(Load(chain[0], Last(chain), |chain|, chain), |chain|))
      .(raw := p.raw - set b | b in chain)
    case Lay => LayStep(p, u, job.load, job.left)
    case LastTry => Put(p, u, p.core, Seek(true))
    case GiveUp => Put(p, u, p.core, Rest)
    case TakeOne => TakeOneStep(p, u, job.load)
    case Reset => Link(p, u, job.block, 0, Got(job.block))
    case Return =>
      Put(p, u, p.core.(place := p.core.place[job.block := Live]), Rest).(clients := p.clients + multiset{job.block})
    case Free(b) =>
      Put(p, u, p.core.(place := p.core.place[b := Held(u)]), Store(One(b), Rest)).(clients := p.clients - multiset{b})
    case PutHere(cpu) => Begin(p, u, Give(GiveEnter(cpu, job.load)), job.after)
    case PutMail(cpu) => Begin(p, u, Push(PushLoad(Loc(cpu, Normal), job.load)), job.after)
    case Trim(cpu) => Begin(p, u, Detach(DetachLoad(cpu)), job)
    case Sift(old') => SiftStep(p, u, job, old')
    case Flush => Begin(p, u, Push(PushLoad(Loc(job.cpu, Normal), job.push)), job.(push := NONE))
    case Sifted => Put(p, u, p.core, Trimming(job.cpu, job.trim, job.ts))
    case Dispose(released) =>
      Begin(p, u, Push(PushLoad(Loc(job.cpu, if released then Trimmed else Normal), One(job.trim))),
            Trimming(job.cpu, NextOf(p.core, job.trim), Tail(job.ts)))
    case Done => Put(p, u, p.core, Rest)
    case Elsewhere(b, target) => Link(p, u, b, target, Rest)
  }

  /** The bound on pops that succeed. */
  ghost predicate Timely(p: Prog, u: nat, step: Step)
    requires u < |p.core.threads|
  {
    step.Core? ==> InTime(p.core, u, step.act)
  }
}
