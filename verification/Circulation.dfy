/** Slab blocks of one size class in circulation between per-CPU lists, transfer lists, threads and clients.

    One step is one atomic action of one thread (a load, a store, a compare-and-swap), or a decision of the
    scheduler.  Steps of different threads interleave in any order; memory is sequentially consistent. */
module Circulation {
  import opened Layout

  /** The three lists of a CPU: the one changed by restartable sequences, and the two transfer lists. */
  datatype Kind = Rseq | Normal | Trimmed

  datatype Loc = Loc(cpu: nat, kind: Kind)

  /** A list word.  The tag has eight bits; the words of restartable sequences do not use it. */
  datatype Word = Word(ptr: nat, tag: nat)

  const TAGS: nat := 256
  /** The largest batch that trimming pushes back. */
  const REPUSH_BATCH: nat := 16

  /** The registers that describe a chain of blocks.  `chain` is what they are meant to describe, for the proof only. */
  datatype Load = Load(head: nat, tail: nat, count: nat, chain: seq<nat>)

  /** transfer_push_batch, transfer_push_single_to. */
  datatype PushPc =
    | PushLoad(loc: Loc, load: Load)
    | PushLink(loc: Loc, load: Load, word: Word)
    | PushCas(loc: Loc, load: Load, word: Word)

  /** transfer_pop_batch, transfer_pop_single.  `load` holds the nodes read so far; `v` records, for the proof only,
      how many updates the list had seen when the pop loaded its word. */
  datatype PopPc =
    | PopLoad(loc: Loc, single: bool, batch: nat)
    | PopWalk(loc: Loc, single: bool, batch: nat, word: Word, load: Load, v: nat)
    | PopCas(loc: Loc, single: bool, batch: nat, word: Word, load: Load, nx: nat, v: nat)

  /** cpu_bit_set; cpu_bit_clear and the recheck that follows it. */
  datatype HintPc =
    | MarkLoad(cpu: nat)
    | MarkSet(cpu: nat)
    | ClearLoad(cpu: nat)
    | ClearSet(cpu: nat)
    | Recheck(cpu: nat)

  /** Detaching a whole list in trim_small. */
  datatype DetachPc =
    | DetachLoad(cpu: nat)
    | DetachCas(cpu: nat, word: Word)

  /** The restartable sequence `pop`. */
  datatype TakePc =
    | TakeEnter(cpu: nat)
    | TakeCheck(cpu: nat)
    | TakeLoad(cpu: nat)
    | TakeNext(cpu: nat, tmp: nat)
    | TakeStore(cpu: nat, tmp: nat, nx: nat)
    | TakeCount(cpu: nat)

  /** The restartable sequences `push` and `push_tailed`. */
  datatype GivePc =
    | GiveEnter(cpu: nat, load: Load)
    | GiveCheck(cpu: nat, load: Load)
    | GiveLoad(cpu: nat, load: Load)
    | GiveLink(cpu: nat, load: Load, tmp: nat)
    | GiveStore(cpu: nat, load: Load, tmp: nat)
    | GiveCount(cpu: nat, count: nat)

  /** Where a thread stands, with its registers. */
  datatype Pc =
    | Idle
    | Push(push: PushPc)
    | Pop(pop: PopPc)
    | Hint(hint: HintPc)
    | Detach(detach: DetachPc)
    | Take(take: TakePc)
    | Give(give: GivePc)

  /** Who answers for a block. */
  datatype Place = Uncarved | In(loc: Loc) | Held(thread: nat) | Live

  /** `next`, `heads`, `usage`, `hint`, `on` and `threads` are what the program has.  `place` records what each
      step believes it moves; `lists` and `version` are history.  The instructions write the last three for the proof,
      and what they write elsewhere does not depend on them.  `Enabled` does read `place`: here a thread moves only
      blocks it holds.  The module Program has no such rule; there it is a theorem that threads never do otherwise. */
  datatype State = State(
    next: map<nat, nat>,
    heads: map<Loc, Word>,
    usage: map<nat, nat>,
    hint: map<nat, bool>,
    on: map<nat, nat>,
    threads: seq<Pc>,
    place: map<nat, Place>,
    lists: map<Loc, seq<nat>>,
    version: map<Loc, nat>)

  datatype Action =
    | Go
    | StartPush(loc: Loc, load: Load)
    | StartPop(cpu: nat, single: bool, batch: nat)
    | StartDetach(cpu: nat)
    | StartTake(cpu: nat)
    | StartGive(cpu: nat, load: Load)
    | HandOut(block: nat)
    | GiveBack(block: nat)
    | Relink(block: nat, target: nat)
    | Carve(blocks: set<nat>)
    | Abort
    | Preempt(cpu: nat)
    | Resume(cpu: nat)

  /** The blocks of `xs` are linked in order and the last one points to `end`. */
  ghost predicate Segment(next: map<nat, nat>, xs: seq<nat>, end: nat) {
    xs != [] ==>
      && xs[0] in next
      && next[xs[0]] == First(xs[1..], end)
      && Segment(next, xs[1..], end)
  }

  ghost function First(xs: seq<nat>, end: nat): nat { if xs == [] then end else xs[0] }

  ghost function Last(xs: seq<nat>): nat
    requires xs != []
  {
    xs[|xs| - 1]
  }

  /** Following `next` from `p` visits exactly `xs` and stops at null. */
  ghost predicate Chain(next: map<nat, nat>, p: nat, xs: seq<nat>) { p == First(xs, 0) && Segment(next, xs, 0) }

  ghost predicate Distinct(xs: seq<nat>) { forall i, j :: 0 <= i < j < |xs| ==> xs[i] != xs[j] }

  ghost predicate HoldsAll(place: map<nat, Place>, u: nat, xs: seq<nat>) {
    forall b :: b in xs ==> b in place && place[b] == Held(u)
  }

  /** A nonempty chain of blocks held by thread `u`, linked up to its last block. */
  ghost predicate Loaded(s: State, u: nat, chain: seq<nat>) {
    && chain != [] && Distinct(chain) && HoldsAll(s.place, u, chain)
    && Segment(s.next, chain[..|chain| - 1], Last(chain))
  }

  /** The registers describe the chain. */
  ghost predicate Honest(load: Load) {
    && load.chain != [] && load.head == load.chain[0] && load.tail == Last(load.chain) && load.count == |load.chain|
  }

  ghost predicate RunsOn(s: State, u: nat, c: nat) { c in s.on && s.on[c] == u }

  ghost predicate Running(s: State, u: nat) { exists c :: RunsOn(s, u, c) }

  /** The instructions between the labels 1 and 2, from which the kernel restarts at the abort handler. */
  ghost predicate InSequence(pc: Pc) {
    || (pc.Take? && !pc.take.TakeEnter? && !pc.take.TakeCount?)
    || (pc.Give? && !pc.give.GiveEnter? && !pc.give.GiveCount?)
  }

  ghost function WordAt(s: State, loc: Loc): Word { if loc in s.heads then s.heads[loc] else Word(0, 0) }

  ghost function NextOf(s: State, b: nat): nat { if b in s.next then s.next[b] else 0 }

  ghost function PlaceAt(s: State, b: nat): Place { if b in s.place then s.place[b] else Uncarved }

  ghost function VersionAt(s: State, loc: Loc): nat { if loc in s.version then s.version[loc] else 0 }

  ghost function ListAt(s: State, loc: Loc): seq<nat> { if loc in s.lists then s.lists[loc] else [] }

  ghost predicate Hinted(s: State, cpu: nat) { cpu in s.hint && s.hint[cpu] }

  /** The usage counter after adding `n`, in 64 bits. */
  ghost function Counted(s: State, cpu: nat, n: nat): State {
    if cpu in s.usage then s.(usage := s.usage[cpu := (s.usage[cpu] + n) % WRAP]) else s
  }

  /** The word written by `pack`: a new pointer, and the tag of the old word plus one. */
  ghost function Pack(ptr: nat, word: Word): Word { Word(ptr, (word.tag + 1) % TAGS) }

  ghost function Moved(place: map<nat, Place>, xs: seq<nat>, to: Place): map<nat, Place> {
    map b | b in place :: if b in xs then to else place[b]
  }

  ghost function At(s: State, u: nat, pc: Pc): State
    requires u < |s.threads|
  {
    s.(threads := s.threads[u := pc])
  }

  /** A successful write of `chain` in front of a list. */
  ghost function Pushed(s: State, loc: Loc, chain: seq<nat>, word: Word): State
  {
    s.(heads := s.heads[loc := word], place := Moved(s.place, chain, In(loc)),
       lists := s.lists[loc := chain + ListAt(s, loc)], version := s.version[loc := VersionAt(s, loc) + 1])
  }

  /** A successful write that drops what thread `u` believes to be the first blocks of a list. */
  ghost function Popped(s: State, loc: Loc, u: nat, taken: seq<nat>, word: Word): State
  {
    var xs := ListAt(s, loc);
    s.(heads := s.heads[loc := word], place := Moved(s.place, taken, Held(u)),
       lists := s.lists[loc := if |taken| <= |xs| then xs[|taken|..] else []],
       version := s.version[loc := VersionAt(s, loc) + 1])
  }

  /** Load the word, link the tail to its pointer, compare-and-swap, and mark a list that was empty. */
  ghost function AdvancePush(s: State, u: nat, p: PushPc): State
    requires u < |s.threads|
  {
    match p
    case PushLoad(loc, load) => At(s, u, Push(PushLink(loc, load, WordAt(s, loc))))
    case PushLink(loc, load, word) => At(s.(next := s.next[load.tail := word.ptr]), u, Push(PushCas(loc, load, word)))
    case PushCas(loc, load, word) =>
      if WordAt(s, loc) == word then
        At(Pushed(s, loc, load.chain, Pack(load.head, word)), u, if word.ptr == 0 then Hint(MarkLoad(loc.cpu)) else Idle)
      else At(s, u, Push(PushLoad(loc, load)))
  }

  ghost function One(b: nat): Load { Load(b, b, 1, [b]) }

  ghost function Longer(load: Load, b: nat): Load { Load(load.head, b, load.count + 1, load.chain + [b]) }

  /** Load the word, walk up to `batch` nodes, compare-and-swap; an empty normal list is followed by the
      trimmed one, and finding both empty, or emptying one, clears the hint. */
  ghost function AdvancePop(s: State, u: nat, p: PopPc): State
    requires u < |s.threads|
  {
    match p
    case PopLoad(loc, single, batch) =>
      var word := WordAt(s, loc);
      if word.ptr != 0 then At(s, u, Pop(PopWalk(loc, single, batch, word, One(word.ptr), VersionAt(s, loc))))
      else if loc.kind.Normal? then At(s, u, Pop(PopLoad(Loc(loc.cpu, Trimmed), single, batch)))
      else At(s, u, Hint(ClearLoad(loc.cpu)))
    case PopWalk(loc, single, batch, word, load, v) =>
      var nx := NextOf(s, load.tail);
      if load.count < batch && nx != 0 then At(s, u, Pop(PopWalk(loc, single, batch, word, Longer(load, nx), v)))
      else At(s, u, Pop(PopCas(loc, single, batch, word, load, nx, v)))
    case PopCas(loc, single, batch, word, load, nx, v) =>
      if WordAt(s, loc) == word then
        At(Popped(s, loc, u, load.chain, Pack(nx, word)), u, if nx == 0 && !single then Hint(ClearLoad(loc.cpu)) else Idle)
      else At(s, u, Pop(PopLoad(loc, single, batch)))
  }

  /** Hint bits: a test, then a read-modify-write only if the test asks for it. */
  ghost function AdvanceHint(s: State, u: nat, p: HintPc): State
    requires u < |s.threads|
  {
    match p
    case MarkLoad(cpu) => At(s, u, if Hinted(s, cpu) then Idle else Hint(MarkSet(cpu)))
    case MarkSet(cpu) => At(s.(hint := s.hint[cpu := true]), u, Idle)
    case ClearLoad(cpu) => At(s, u, Hint(if Hinted(s, cpu) then ClearSet(cpu) else Recheck(cpu)))
    case ClearSet(cpu) => At(s.(hint := s.hint[cpu := false]), u, Hint(Recheck(cpu)))
    case Recheck(cpu) => At(s, u, if WordAt(s, Loc(cpu, Normal)).ptr != 0 then Hint(MarkLoad(cpu)) else Idle)
  }

  /** The trimmer takes a whole list. */
  ghost function AdvanceDetach(s: State, u: nat, p: DetachPc): State
    requires u < |s.threads|
  {
    match p
    case DetachLoad(cpu) =>
      var word := WordAt(s, Loc(cpu, Normal));
      At(s, u, if word.ptr == 0 then Idle else Detach(DetachCas(cpu, word)))
    case DetachCas(cpu, word) =>
      var loc := Loc(cpu, Normal);
      var now := WordAt(s, loc);
      if now == word then At(Popped(s, loc, u, ListAt(s, loc), Pack(0, word)), u, Idle)
      else At(s, u, if now.ptr == 0 then Idle else Detach(DetachCas(cpu, now)))
  }

  /** Restartable pop: only the store at the end changes the list; the counter follows outside. */
  ghost function AdvanceTake(s: State, u: nat, p: TakePc): State
    requires u < |s.threads|
  {
    match p
    case TakeEnter(cpu) => At(s, u, Take(TakeCheck(cpu)))
    case TakeCheck(cpu) => At(s, u, if RunsOn(s, u, cpu) then Take(TakeLoad(cpu)) else Idle)
    case TakeLoad(cpu) =>
      var tmp := WordAt(s, Loc(cpu, Rseq)).ptr;
      At(s, u, if tmp == 0 then Idle else Take(TakeNext(cpu, tmp)))
    case TakeNext(cpu, tmp) => At(s, u, Take(TakeStore(cpu, tmp, NextOf(s, tmp))))
    case TakeStore(cpu, tmp, nx) => At(Popped(s, Loc(cpu, Rseq), u, [tmp], Word(nx, 0)), u, Take(TakeCount(cpu)))
    case TakeCount(cpu) => At(Counted(s, cpu, WRAP - 1), u, Idle)
  }

  /** Restartable push of one block or of a chain. */
  ghost function AdvanceGive(s: State, u: nat, p: GivePc): State
    requires u < |s.threads|
  {
    match p
    case GiveEnter(cpu, load) => At(s, u, Give(GiveCheck(cpu, load)))
    case GiveCheck(cpu, load) => At(s, u, if RunsOn(s, u, cpu) then Give(GiveLoad(cpu, load)) else Idle)
    case GiveLoad(cpu, load) => At(s, u, Give(GiveLink(cpu, load, WordAt(s, Loc(cpu, Rseq)).ptr)))
    case GiveLink(cpu, load, tmp) => At(s.(next := s.next[load.tail := tmp]), u, Give(GiveStore(cpu, load, tmp)))
    case GiveStore(cpu, load, tmp) =>
      At(Pushed(s, Loc(cpu, Rseq), load.chain, Word(load.head, 0)), u, Give(GiveCount(cpu, load.count)))
    case GiveCount(cpu, count) => At(Counted(s, cpu, count), u, Idle)
  }

  /** The next instruction of thread `u`. */
  ghost function Advance(s: State, u: nat): State
    requires u < |s.threads|
  {
    match s.threads[u]
    case Idle => s
    case Push(p) => AdvancePush(s, u, p)
    case Pop(p) => AdvancePop(s, u, p)
    case Hint(p) => AdvanceHint(s, u, p)
    case Detach(p) => AdvanceDetach(s, u, p)
    case Take(p) => AdvanceTake(s, u, p)
    case Give(p) => AdvanceGive(s, u, p)
  }

  /** What may happen next.  A thread starts any operation at any time, on any CPU's transfer lists, as long as
      it holds the blocks it moves. */
  ghost predicate Enabled(s: State, u: nat, act: Action) {
    u < |s.threads| &&
    match act
    case Go => Running(s, u) && !s.threads[u].Idle?
    case StartPush(loc, load) =>
      s.threads[u].Idle? && loc in s.heads && !loc.kind.Rseq? && Honest(load) && Loaded(s, u, load.chain)
    case StartPop(cpu, single, batch) =>
      s.threads[u].Idle? && Loc(cpu, Normal) in s.heads && batch >= 1 && (single ==> batch == 1)
    case StartDetach(cpu) => s.threads[u].Idle? && Loc(cpu, Normal) in s.heads
    case StartTake(cpu) => s.threads[u].Idle? && RunsOn(s, u, cpu)
    case StartGive(cpu, load) => s.threads[u].Idle? && RunsOn(s, u, cpu) && Honest(load) && Loaded(s, u, load.chain)
    case HandOut(b) => s.threads[u].Idle? && b in s.place && s.place[b] == Held(u)
    case GiveBack(b) => s.threads[u].Idle? && b in s.place && s.place[b] == Live
    case Relink(b, target) =>
      && s.threads[u].Idle? && b in s.place && (s.place[b] == Held(u) || s.place[b] == Live)
      && (target == 0 || target in s.next)
    case Carve(bs) => s.threads[u].Idle? && forall b :: b in bs ==> b in s.place && s.place[b] == Uncarved
    case Abort => InSequence(s.threads[u])
    case Preempt(cpu) => RunsOn(s, u, cpu)
    case Resume(cpu) => cpu in s.usage && cpu !in s.on && !Running(s, u)
  }

  ghost function Fire(s: State, u: nat, act: Action): State
    requires Enabled(s, u, act)
  {
    match act
    case Go => Advance(s, u)
    case StartPush(loc, load) => At(s, u, Push(PushLoad(loc, load)))
    case StartPop(cpu, single, batch) => At(s, u, Pop(PopLoad(Loc(cpu, Normal), single, batch)))
    case StartDetach(cpu) => At(s, u, Detach(DetachLoad(cpu)))
    case StartTake(cpu) => At(s, u, Take(TakeEnter(cpu)))
    case StartGive(cpu, load) => At(s, u, Give(GiveEnter(cpu, load)))
    case HandOut(b) => s.(place := s.place[b := Live])
    case GiveBack(b) => s.(place := s.place[b := Held(u)])
    case Relink(b, target) => s.(next := s.next[b := target])
    case Carve(bs) => s.(place := map b | b in s.place :: if b in bs then Held(u) else s.place[b])
    case Abort => At(s, u, Idle)
    case Preempt(cpu) =>
      At(s.(on := s.on - {cpu}), u, if InSequence(s.threads[u]) then Idle else s.threads[u])
    case Resume(cpu) => s.(on := s.on[cpu := u])
  }

  /** A pop that succeeds has seen fewer than 256 updates of the list since it loaded the word. */
  ghost predicate InTime(s: State, u: nat, act: Action)
    requires u < |s.threads|
  {
    var pc := s.threads[u];
    act.Go? && pc.Pop? && pc.pop.PopCas? && WordAt(s, pc.pop.loc) == pc.pop.word ==>
      VersionAt(s, pc.pop.loc) < pc.pop.v + TAGS
  }
}
