/** What the registers of every job mean, and that the steps of others do not change it. */
module ProgramInv {
  import opened Circulation
  import opened CirculationInv
  import opened Program

  /** The blocks an operation in flight is moving. */
  ghost function Carried(pc: Pc): seq<nat> {
    if pc.Push? then pc.push.load.chain
    else if pc.Give? && !pc.give.GiveCount? then pc.give.load.chain
    else []
  }

  ghost function PcAt(s: State, u: nat): Pc { if u < |s.threads| then s.threads[u] else Idle }

  /** The blocks the registers of a job are meant to lead to. */
  ghost function Mine(job: Job): seq<nat> {
    match job
    case Laying(load, left) => load.chain
    case Batch(load) => load.chain
    case Clear(b) => [b]
    case Got(b) => [b]
    case Store(load, after) => load.chain + Mine(after)
    case Sorting(cpu, cur, rs, trim, ts, push) => rs + ts + push.chain
    case Trimming(cpu, trim, ts) => ts
    case _ => []
  }

  /** A chain linked up to its last block. */
  ghost predicate Strung(next: map<nat, nat>, load: Load) {
    Honest(load) && Segment(next, load.chain[..load.count - 1], load.tail)
  }

  /** A batch that grows at the front and ends in null. */
  ghost predicate Growing(next: map<nat, nat>, push: Load) {
    && push.count == |push.chain| <= REPUSH_BATCH && Chain(next, push.head, push.chain)
    && (push.chain != [] ==> push.tail == Last(push.chain))
  }

  /** Memory holds what the registers are meant to lead to. */
  ghost predicate Linked(next: map<nat, nat>, job: Job) {
    match job
    case Laying(load, left) => Honest(load) && left <= load.count && Segment(next, load.chain[left..], 0)
    case Batch(load) => Strung(next, load)
    case Store(load, after) => Strung(next, load) && Linked(next, after)
    case Sorting(cpu, cur, rs, trim, ts, push) => Chain(next, cur, rs) && Chain(next, trim, ts) && Growing(next, push)
    case Trimming(cpu, trim, ts) => Chain(next, trim, ts)
    case _ => true
  }

  ghost predicate CpuOk(usage: map<nat, nat>, job: Job) {
    && (job.Sorting? || job.Trimming? ==> job.cpu in usage)
    && (job.Store? ==> CpuOk(usage, job.after))
  }

  /** The thread holds the blocks of its job, and they are not the ones in flight. */
  ghost predicate JobOk(s: State, u: nat, pc: Pc, job: Job) {
    HoldsAll(s.place, u, Mine(job)) && Distinct(Carried(pc) + Mine(job)) && Linked(s.next, job) && CpuOk(s.usage, job)
  }

  /** Clients have exactly the live blocks, each once; the blocks never carved are the raw ones. */
  ghost predicate OutsideOk(p: Prog) {
    && (forall b :: p.clients[b] == if PlaceAt(p.core, b) == Live then 1 else 0)
    && (forall b :: b in p.raw <==> b in p.core.place && p.core.place[b] == Uncarved)
  }

  ghost predicate JobsOk(p: Prog) {
    |p.jobs| == |p.core.threads| && forall u :: 0 <= u < |p.jobs| ==> JobOk(p.core, u, p.core.threads[u], p.jobs[u])
  }

  ghost predicate ProgInv(p: Prog) { Inv(p.core) && JobsOk(p) && OutsideOk(p) }

  // ----- framing -----

  /** Blocks whose place and link stay. */
  ghost predicate Stays(s: State, s': State, xs: seq<nat>) {
    forall b :: b in xs ==> PlaceAt(s', b) == PlaceAt(s, b) && NextOf(s', b) == NextOf(s, b) && (b in s.next ==> b in s'.next)
  }

  lemma HoldsFrame(s: State, s': State, u: nat, xs: seq<nat>)
    requires HoldsAll(s.place, u, xs) && Stays(s, s', xs)
    ensures HoldsAll(s'.place, u, xs)
  {
    forall b | b in xs
      ensures b in s'.place && s'.place[b] == Held(u)
    {
      assert PlaceAt(s', b) == Held(u);
    }
  }

  lemma ChainFrame(s: State, s': State, xs: seq<nat>, end: nat)
    requires Segment(s.next, xs, end) && Stays(s, s', xs)
    ensures Segment(s'.next, xs, end)
  {
    SegmentIn(s.next, xs, end);
    SegmentFrame(s.next, s'.next, xs, end);
  }

  lemma StaysPart(s: State, s': State, xs: seq<nat>, ys: seq<nat>)
    requires Stays(s, s', xs) && forall b :: b in ys ==> b in xs
    ensures Stays(s, s', ys)
  {
  }

  lemma StrungFrame(s: State, s': State, load: Load)
    requires Strung(s.next, load) && Stays(s, s', load.chain)
    ensures Strung(s'.next, load)
  {
    var front := load.chain[..load.count - 1];
    StaysPart(s, s', load.chain, front);
    ChainFrame(s, s', front, load.tail);
  }

  lemma SortingFrame(s: State, s': State, job: Job)
    requires job.Sorting? && Linked(s.next, job) && Stays(s, s', job.rs) && Stays(s, s', job.ts) && Stays(s, s', job.push.chain)
    ensures Linked(s'.next, job)
  {
    hide Stays, Segment;
    ChainFrame(s, s', job.rs, 0);
    ChainFrame(s, s', job.ts, 0);
    ChainFrame(s, s', job.push.chain, 0);
  }

  lemma {:induction false} LinkedFrame(s: State, s': State, job: Job)
    requires Linked(s.next, job) && Stays(s, s', Mine(job))
    ensures Linked(s'.next, job)
    decreases job
  {
    hide Segment;
    match job
    case Laying(load, left) =>
      StaysPart(s, s', load.chain, load.chain[left..]);
      ChainFrame(s, s', load.chain[left..], 0);
    case Batch(load) => StrungFrame(s, s', load);
    case Store(load, after) =>
      StaysPart(s, s', Mine(job), load.chain);
      StaysPart(s, s', Mine(job), Mine(after));
      StrungFrame(s, s', load);
      LinkedFrame(s, s', after);
    case Sorting(cpu, cur, rs, trim, ts, push) =>
      StaysPart(s, s', Mine(job), rs);
      StaysPart(s, s', Mine(job), ts);
      StaysPart(s, s', Mine(job), push.chain);
      SortingFrame(s, s', job);
    case Trimming(cpu, trim, ts) => ChainFrame(s, s', ts, 0);
    case _ =>
  }

  /** A step that leaves the blocks of a job alone leaves the job right. */
  lemma JobFrame(s: State, s': State, u: nat, pc: Pc, pc': Pc, job: Job)
    requires JobOk(s, u, pc, job) && Stays(s, s', Mine(job)) && s'.usage.Keys == s.usage.Keys
    requires Carried(pc') == Carried(pc) || Carried(pc') == []
    ensures JobOk(s', u, pc', job)
  {
    hide Linked, Stays, HoldsAll;
    HoldsFrame(s, s', u, Mine(job));
    LinkedFrame(s, s', job);
    SuffixDistinct(Carried(pc), Mine(job));
    CpuFrame(s.usage, s'.usage, job);
    assert [] + Mine(job) == Mine(job);
  }

  lemma SuffixDistinct(xs: seq<nat>, ys: seq<nat>)
    requires Distinct(xs + ys)
    ensures Distinct(xs) && Distinct(ys) && forall b :: b in xs ==> b !in ys
  {
    var zs := xs + ys;
    forall i, j | 0 <= i < j < |xs|
      ensures xs[i] != xs[j]
    {
      assert zs[i] != zs[j];
    }
    forall i, j | 0 <= i < j < |ys|
      ensures ys[i] != ys[j]
    {
      assert zs[|xs| + i] != zs[|xs| + j];
    }
    forall b | b in xs
      ensures b !in ys
    {
      var i :| 0 <= i < |xs| && xs[i] == b;
      forall j | 0 <= j < |ys|
        ensures ys[j] != b
      {
        assert zs[i] != zs[|xs| + j];
      }
    }
  }

  lemma {:induction false} CpuFrame(usage: map<nat, nat>, usage': map<nat, nat>, job: Job)
    requires CpuOk(usage, job) && usage'.Keys == usage.Keys
    ensures CpuOk(usage', job)
    decreases job
  {
    if job.Store? {
      CpuFrame(usage, usage', job.after);
    }
  }
}
