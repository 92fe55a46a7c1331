/** What every step of the circulation keeps, in rely-guarantee form. */
module CirculationInv {
  import opened Circulation

  ghost predicate PtrOk(s: State, p: nat) { p == 0 || p in s.next }

  /** Links lead from blocks to blocks or to null. */
  ghost predicate BlocksOk(next: map<nat, nat>) {
    0 !in next && forall b :: b in next ==> next[b] == 0 || next[b] in next
  }

  /** A CPU runs at most one thread, and a thread is on at most one CPU. */
  ghost predicate SchedulerOk(on: map<nat, nat>, usage: map<nat, nat>, threads: nat) {
    && (forall c :: c in on ==> c in usage && on[c] < threads)
    && (forall c, d :: c in on && d in on && on[c] == on[d] ==> c == d)
  }

  ghost predicate HasLists(heads: set<Loc>, cpus: set<nat>) { forall l :: l in heads <==> l.cpu in cpus }

  ghost predicate WellFormed(s: State) {
    && s.lists.Keys == s.heads.Keys && s.version.Keys == s.heads.Keys && s.hint.Keys == s.usage.Keys
    && HasLists(s.heads.Keys, s.usage.Keys)
    && s.place.Keys == s.next.Keys && BlocksOk(s.next)
    && SchedulerOk(s.on, s.usage, |s.threads|)
  }

  /** Memory holds the list at `l`, and its blocks are exactly those placed there. */
  ghost predicate ListOk(s: State, l: Loc) {
    && Chain(s.next, WordAt(s, l).ptr, ListAt(s, l)) && Distinct(ListAt(s, l))
    && (forall b :: b in ListAt(s, l) <==> PlaceAt(s, b) == In(l))
    && (!l.kind.Rseq? ==> WordAt(s, l).tag == VersionAt(s, l) % TAGS)
  }

  ghost predicate Shared(s: State) {
    WellFormed(s) && forall l :: ListOk(s, l)
  }

  /** A stalled pop has read the front of the list, unless the list has changed since. */
  ghost predicate WalkOk(s: State, l: Loc, batch: nat, word: Word, load: Load, v: nat) {
    var walk := load.chain;
    && l in s.heads && !l.kind.Rseq? && Honest(load) && |walk| <= batch
    && walk[0] == word.ptr && word.tag == v % TAGS && v <= VersionAt(s, l)
    && (forall b :: b in walk ==> b in s.next)
    && (VersionAt(s, l) == v ==> walk <= ListAt(s, l))
  }

  ghost predicate PushOk(s: State, u: nat, p: PushPc) {
    && p.loc in s.heads && !p.loc.kind.Rseq? && Honest(p.load) && Loaded(s, u, p.load.chain)
    && (p.PushLink? ==> PtrOk(s, p.word.ptr))
    && (p.PushCas? ==> Segment(s.next, p.load.chain, p.word.ptr))
  }

  ghost predicate PopOk(s: State, p: PopPc) {
    match p
    case PopLoad(loc, single, batch) => loc in s.heads && !loc.kind.Rseq? && batch >= 1 && (single ==> batch == 1)
    case PopWalk(loc, single, batch, word, load, v) => WalkOk(s, loc, batch, word, load, v) && (single ==> batch == 1)
    case PopCas(loc, single, batch, word, load, nx, v) =>
      && WalkOk(s, loc, batch, word, load, v) && (single ==> batch == 1)
      && PtrOk(s, nx) && (load.count == batch || nx == 0)
      && (VersionAt(s, loc) == v ==> nx == First(ListAt(s, loc)[load.count..], 0))
  }

  ghost predicate DetachOk(s: State, p: DetachPc) { p.cpu in s.usage && (p.DetachCas? ==> p.word.ptr != 0) }

  ghost predicate TakeOk(s: State, u: nat, p: TakePc) {
    match p
    case TakeEnter(cpu) => cpu in s.usage
    case TakeCheck(cpu) => cpu in s.usage
    case TakeLoad(cpu) => RunsOn(s, u, cpu)
    case TakeNext(cpu, tmp) => RunsOn(s, u, cpu) && tmp != 0 && tmp == WordAt(s, Loc(cpu, Rseq)).ptr
    case TakeStore(cpu, tmp, nx) =>
      RunsOn(s, u, cpu) && tmp != 0 && tmp == WordAt(s, Loc(cpu, Rseq)).ptr && nx == NextOf(s, tmp)
    case TakeCount(cpu) => cpu in s.usage
  }

  ghost predicate GiveOk(s: State, u: nat, p: GivePc) {
    && (!p.GiveCount? ==> Honest(p.load) && Loaded(s, u, p.load.chain))
    && match p
       case GiveLoad(cpu, load) => RunsOn(s, u, cpu)
       case GiveLink(cpu, load, tmp) => RunsOn(s, u, cpu) && tmp == WordAt(s, Loc(cpu, Rseq)).ptr
       case GiveStore(cpu, load, tmp) =>
         RunsOn(s, u, cpu) && tmp == WordAt(s, Loc(cpu, Rseq)).ptr && Segment(s.next, load.chain, tmp)
       case _ => p.cpu in s.usage
  }

  ghost predicate ThreadOk(s: State, u: nat, pc: Pc) {
    match pc
    case Idle => true
    case Push(p) => PushOk(s, u, p)
    case Pop(p) => PopOk(s, p)
    case Hint(p) => p.cpu in s.usage
    case Detach(p) => DetachOk(s, p)
    case Take(p) => TakeOk(s, u, p)
    case Give(p) => GiveOk(s, u, p)
  }

  ghost predicate Inv(s: State) {
    Shared(s) && forall u :: 0 <= u < |s.threads| ==> ThreadOk(s, u, s.threads[u])
  }

  ghost predicate SameShape(s: State, s': State) {
    s'.next.Keys == s.next.Keys && s'.heads.Keys == s.heads.Keys && s'.usage.Keys == s.usage.Keys && |s'.threads| == |s.threads|
  }

  ghost predicate HeldByOther(p: Place, u: nat) { p.Held? && p.thread != u }

  /** Blocks held by others stay, and so do the links of all blocks except those `u` or a client has. */
  ghost predicate KeepsBlocks(s: State, s': State, u: nat) {
    && (forall b :: PlaceAt(s, b) != Held(u) && PlaceAt(s, b) != Live ==> NextOf(s', b) == NextOf(s, b))
    && (forall b :: HeldByOther(PlaceAt(s, b), u) ==> PlaceAt(s', b) == PlaceAt(s, b))
  }

  /** A list that changed has a new version. */
  ghost predicate KeepsLists(s: State, s': State) {
    forall l :: VersionAt(s', l) >= VersionAt(s, l)
             && (VersionAt(s', l) == VersionAt(s, l) ==> ListAt(s', l) == ListAt(s, l) && WordAt(s', l) == WordAt(s, l))
  }

  /** Other threads stay on their CPUs, whose lists stay. */
  ghost predicate KeepsCpus(s: State, s': State, u: nat) {
    forall c :: c in s.on && s.on[c] != u ==>
      RunsOn(s', s.on[c], c) && VersionAt(s', Loc(c, Rseq)) == VersionAt(s, Loc(c, Rseq))
  }

  /** What a step of thread `u` may do to the others. */
  ghost predicate Guarantee(s: State, s': State, u: nat) {
    && SameShape(s, s') && KeepsBlocks(s, s', u) && KeepsLists(s, s') && KeepsCpus(s, s', u)
    && (forall t :: 0 <= t < |s.threads| && t != u ==> s'.threads[t] == s.threads[t])
  }

  // ----- segments -----

  lemma {:induction false} SegmentFrame(next: map<nat, nat>, next': map<nat, nat>, xs: seq<nat>, end: nat)
    requires Segment(next, xs, end)
    requires forall b :: b in xs ==> b in next' && b in next && next'[b] == next[b]
    ensures Segment(next', xs, end)
  {
    if xs != [] {
      SegmentFrame(next, next', xs[1..], end);
    }
  }

  lemma {:induction false} SegmentIn(next: map<nat, nat>, xs: seq<nat>, end: nat)
    requires Segment(next, xs, end)
    ensures forall b :: b in xs ==> b in next
  {
    if xs != [] {
      SegmentIn(next, xs[1..], end);
      assert xs == [xs[0]] + xs[1..];
    }
  }

  lemma {:induction false} SegmentConcat(next: map<nat, nat>, xs: seq<nat>, ys: seq<nat>, end: nat)
    ensures Segment(next, xs + ys, end) <==> Segment(next, xs, First(ys, end)) && Segment(next, ys, end)
  {
    if xs == [] {
      assert xs + ys == ys;
    } else {
      assert (xs + ys)[1..] == xs[1..] + ys;
      SegmentConcat(next, xs[1..], ys, end);
      assert First(xs[1..] + ys, end) == First(xs[1..], First(ys, end));
    }
  }

  /** Linking the last block of a loaded chain completes the segment. */
  lemma LinkTail(next: map<nat, nat>, xs: seq<nat>, end: nat)
    requires xs != [] && Distinct(xs) && Segment(next, xs[..|xs| - 1], Last(xs))
    ensures Segment(next[Last(xs) := end], xs, end)
  {
    var front, last := xs[..|xs| - 1], [Last(xs)];
    var next' := next[Last(xs) := end];
    assert xs == front + last;
    SegmentIn(next, front, Last(xs));
    assert forall b :: b in front ==> b != Last(xs);
    SegmentFrame(next, next', front, Last(xs));
    assert last[1..] == [];
    SegmentConcat(next', front, last, end);
  }

  /** The node after position k of a chain. */
  lemma SegmentAt(next: map<nat, nat>, xs: seq<nat>, k: nat, end: nat)
    requires Segment(next, xs, end) && k < |xs|
    ensures xs[k] in next && next[xs[k]] == First(xs[k + 1..], end)
  {
    assert xs == xs[..k] + xs[k..];
    SegmentConcat(next, xs[..k], xs[k..], end);
    assert xs[k..][1..] == xs[k + 1..];
  }

  // ----- interference -----

  lemma LoadedStable(s: State, s': State, u: nat, t: nat, chain: seq<nat>, end: nat)
    requires SameShape(s, s') && KeepsBlocks(s, s', u) && t != u && Loaded(s, t, chain)
    requires s.place.Keys == s.next.Keys && s'.place.Keys == s'.next.Keys
    ensures Loaded(s', t, chain)
    ensures Segment(s.next, chain, end) ==> Segment(s'.next, chain, end)
  {
    forall b | b in chain
      ensures b in s.next && b in s'.next && s'.next[b] == s.next[b] && s'.place[b] == Held(t)
    {
      assert NextOf(s', b) == NextOf(s, b) && PlaceAt(s', b) == PlaceAt(s, b);
    }
    SegmentFrame(s.next, s'.next, chain[..|chain| - 1], Last(chain));
    if Segment(s.next, chain, end) {
      SegmentFrame(s.next, s'.next, chain, end);
    }
  }

  lemma HeadStable(s: State, s': State, u: nat, t: nat, cpu: nat)
    requires ListOk(s, Loc(cpu, Rseq)) && Guarantee(s, s', u) && t != u && RunsOn(s, t, cpu)
    ensures WordAt(s', Loc(cpu, Rseq)) == WordAt(s, Loc(cpu, Rseq))
    ensures var p := WordAt(s, Loc(cpu, Rseq)).ptr; p != 0 ==> NextOf(s', p) == NextOf(s, p)
  {
    var l := Loc(cpu, Rseq);
    var p := WordAt(s, l).ptr;
    if p != 0 {
      assert p in ListAt(s, l);
      assert PlaceAt(s, p) == In(l);
    }
  }

  lemma WalkStable(s: State, s': State, l: Loc, batch: nat, word: Word, load: Load, v: nat)
    requires SameShape(s, s') && KeepsLists(s, s') && WalkOk(s, l, batch, word, load, v)
    ensures WalkOk(s', l, batch, word, load, v)
    ensures VersionAt(s', l) == v ==> VersionAt(s, l) == v && ListAt(s', l) == ListAt(s, l)
  {
  }

  lemma PushStable(s: State, s': State, u: nat, t: nat, p: PushPc)
    requires s.place.Keys == s.next.Keys && s'.place.Keys == s'.next.Keys && Guarantee(s, s', u)
    requires t != u && PushOk(s, t, p)
    ensures PushOk(s', t, p)
  {
    hide Segment, Loaded, KeepsBlocks, KeepsLists, KeepsCpus;
    LoadedStable(s, s', u, t, p.load.chain, if p.PushCas? then p.word.ptr else 0);
  }

  lemma PopStable(s: State, s': State, u: nat, p: PopPc)
    requires Guarantee(s, s', u) && PopOk(s, p)
    ensures PopOk(s', p)
  {
    hide KeepsBlocks, KeepsCpus;
    if !p.PopLoad? {
      WalkStable(s, s', p.loc, p.batch, p.word, p.load, p.v);
    }
  }

  lemma TakeStable(s: State, s': State, u: nat, t: nat, p: TakePc)
    requires (forall l :: ListOk(s, l)) && Guarantee(s, s', u) && t != u && TakeOk(s, t, p)
    ensures TakeOk(s', t, p)
  {
    hide ListOk, KeepsBlocks, KeepsLists;
    if p.TakeNext? || p.TakeStore? {
      HeadStable(s, s', u, t, p.cpu);
    }
  }

  lemma GiveStable(s: State, s': State, u: nat, t: nat, p: GivePc)
    requires (forall l :: ListOk(s, l)) && s.place.Keys == s.next.Keys && s'.place.Keys == s'.next.Keys
    requires Guarantee(s, s', u) && t != u && GiveOk(s, t, p)
    ensures GiveOk(s', t, p)
  {
    hide ListOk, Segment, Loaded, KeepsBlocks, KeepsLists;
    if !p.GiveCount? {
      LoadedStable(s, s', u, t, p.load.chain, if p.GiveStore? then p.tmp else 0);
    }
    if p.GiveLink? || p.GiveStore? {
      HeadStable(s, s', u, t, p.cpu);
    }
  }

  /** Steps of `u` keep what the invariant says about another thread. */
  lemma Stable(s: State, s': State, u: nat, t: nat, pc: Pc)
    requires Shared(s) && s'.place.Keys == s'.next.Keys && Guarantee(s, s', u) && t != u && ThreadOk(s, t, pc)
    ensures ThreadOk(s', t, pc)
  {
    hide ListOk, PushOk, PopOk, TakeOk, GiveOk, KeepsBlocks, KeepsLists, KeepsCpus;
    match pc
    case Push(p) => PushStable(s, s', u, t, p);
    case Pop(p) => PopStable(s, s', u, p);
    case Take(p) => TakeStable(s, s', u, t, p);
    case Give(p) => GiveStable(s, s', u, t, p);
    case _ =>
  }

  /** A step that keeps the shared invariant, its own thread's, and the guarantee keeps everything. */
  lemma Assemble(s: State, s': State, u: nat)
    requires Inv(s) && u < |s.threads| && Shared(s') && Guarantee(s, s', u) && ThreadOk(s', u, s'.threads[u])
    ensures Inv(s')
  {
    hide ListOk, ThreadOk, KeepsBlocks, KeepsLists, KeepsCpus;
    forall t | 0 <= t < |s'.threads|
      ensures ThreadOk(s', t, s'.threads[t])
    {
      if t != u {
        Stable(s, s', u, t, s.threads[t]);
      }
    }
  }
}
