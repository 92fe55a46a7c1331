/** Threads that update ranges of the radix tree at the same time, and race to install its nodes.

    A step is one load, one compare-and-swap or one read-modify-write of a word. */
module RadixRace {
  import opened Numbers
  import opened WordBits
  import opened RadixNodes
  import opened RadixTree

  datatype Op = Op(lo: nat, hi: nat, val: bool)

  /** A node mapped for an empty entry is private until the compare-and-swap, and dropped if that fails. */
  datatype Pc =
    | Idle
    | Load(op: Op, chunk: nat, level: nat, node: nat)
    | Install(op: Op, chunk: nat, level: nat, node: nat)
    | Words(op: Op, chunk: nat, leaf: nat, w: nat)

  /** `home` is for the proof: it names the place of every node. */
  datatype State = State(tree: Tree, home: map<nat, Home>, threads: seq<Pc>)

  /** `mapped` is the mapping the system hands out if one is needed. */
  datatype Action = Start(op: Op) | Go(mapped: nat)

  datatype Event = Event(thread: nat, action: Action)

  ghost function At(s: State, u: nat, pc: Pc): State
    requires u < |s.threads|
  {
    s.(threads := s.threads[u := pc])
  }

  ghost function EntryAt(t: Tree, n: nat, i: nat): nat { if n in t.tables && i < |t.tables[n]| then t.tables[n][i] else 0 }

  ghost function Below(op: Op, chunk: nat, level: nat, m: nat): Pc {
    if level < 2 then Load(op, chunk, level + 1, m) else Words(op, chunk, m, chunk % 4096 / 64)
  }

  ghost function InstallStep(s: State, u: nat, op: Op, chunk: nat, level: nat, node: nat, m: nat): State
    requires u < |s.threads|
  {
    var i := Entry(chunk, level);
    var e := EntryAt(s.tree, node, i);
    if e != 0 then At(s, u, Below(op, chunk, level, e))
    else
      At(State(Installed(s.tree, node, i, level, m), s.home[m := Home(level + 1, Prefix(chunk, level) * Fan(level) + i)], s.threads),
         u, Below(op, chunk, level, m))
  }

  ghost function After(op: Op, chunk: nat, leaf: nat, w: nat): Pc
    requires chunk <= op.hi
  {
    if w < LeafEnd(chunk, op.hi) / 64 then Words(op, chunk, leaf, w + 1)
    else
      var n := Min(4096 - chunk % 4096, op.hi - chunk + 1);
      if n == op.hi - chunk + 1 then Idle else Load(op, chunk + n, 0, ROOT)
  }

  ghost function WordStep(s: State, u: nat, op: Op, chunk: nat, leaf: nat, w: nat): State
    requires u < |s.threads|
  {
    if chunk > op.hi then s else
      var mask := WordMask(chunk, op.hi, w);
      At(s.(tree := Written(s.tree, leaf, w, mask, op.val)), u, After(op, chunk, leaf, w))
  }

  ghost predicate Enabled(s: State, u: nat, act: Action) {
    u < |s.threads| &&
    match act
    case Start(op) => s.threads[u].Idle? && op.lo <= op.hi < MAX_CHUNKS
    case Go(m) => m !in s.home && m != 0
  }

  ghost function Fire(s: State, u: nat, act: Action): State
    requires Enabled(s, u, act)
  {
    match act
    case Start(op) => At(s, u, Load(op, op.lo, 0, ROOT))
    case Go(m) =>
      match s.threads[u]
      case Idle => s
      case Load(op, chunk, level, node) =>
        var e := EntryAt(s.tree, node, Entry(chunk, level));
        At(s, u, if e == 0 then Install(op, chunk, level, node) else Below(op, chunk, level, e))
      case Install(op, chunk, level, node) => InstallStep(s, u, op, chunk, level, node, m)
      case Words(op, chunk, leaf, w) => WordStep(s, u, op, chunk, leaf, w)
  }

  // ----- what every step keeps -----

  ghost predicate PcOk(t: Tree, home: map<nat, Home>, pc: Pc) {
    !pc.Idle? ==>
      && pc.op.lo <= pc.chunk <= pc.op.hi < MAX_CHUNKS
      && if pc.Words? then AtLeaf(t, pc.chunk, pc.leaf) && pc.chunk % 4096 / 64 <= pc.w <= LeafEnd(pc.chunk, pc.op.hi) / 64
         else AtTable(t, home, pc.chunk, pc.level, pc.node)
  }

  ghost predicate Inv(s: State) {
    TreeOk(s.tree, s.home) && forall u :: 0 <= u < |s.threads| ==> PcOk(s.tree, s.home, s.threads[u])
  }

  lemma FirstWord(chunk: nat, end: nat)
    requires chunk <= end
    ensures chunk % 4096 / 64 <= LeafEnd(chunk, end) / 64 && LeafEnd(chunk, end) / 64 < 64
  {
  }

  /** A thread's own position survives nodes that others install. */
  lemma InstalledPc(s: State, n: nat, i: nat, m: nat, pc: Pc)
    requires TreeOk(s.tree, s.home) && n in s.tree.tables && i < |s.tree.tables[n]| && s.tree.tables[n][i] == 0
    requires m !in s.home && m != 0 && PcOk(s.tree, s.home, pc)
    ensures
      var h := s.home[n];
      PcOk(Installed(s.tree, n, i, h.level, m), s.home[m := Home(h.level + 1, h.prefix * Fan(h.level) + i)], pc)
  {
    hide Fan, Prefix, LeafEnd, TableOk;
    NullOutside(s.tree, s.home);
    assert m !in s.tree.tables.Keys + s.tree.leaves.Keys;
    if !pc.Idle? {
      InstalledDescend(s.tree, s.home, pc.chunk, ROOT, 0, if pc.Words? then 3 else pc.level, n, i, m);
    }
  }

  lemma WrittenPc(s: State, leaf: nat, w: nat, mask: bv64, val: bool, pc: Pc)
    requires TreeOk(s.tree, s.home) && PcOk(s.tree, s.home, pc)
    ensures PcOk(Written(s.tree, leaf, w, mask, val), s.home, pc)
  {
    hide Fan, Prefix, LeafEnd, TableOk;
    if !pc.Idle? {
      WrittenDescend(s.tree, pc.chunk, ROOT, 0, if pc.Words? then 3 else pc.level, leaf, w, mask, val);
    }
  }

  lemma BelowOk(t: Tree, home: map<nat, Home>, op: Op, chunk: nat, level: nat, n: nat)
    requires TreeOk(t, home) && op.lo <= chunk <= op.hi < MAX_CHUNKS && AtTable(t, home, chunk, level, n)
    requires EntryAt(t, n, Entry(chunk, level)) != 0
    ensures PcOk(t, home, Below(op, chunk, level, EntryAt(t, n, Entry(chunk, level))))
  {
    hide TreeOk, Descend;
    StepDown(t, home, chunk, level, n);
    FirstWord(chunk, op.hi);
  }

  lemma InstallKeeps(s: State, u: nat, pc: Pc, m: nat)
    requires Inv(s) && u < |s.threads| && s.threads[u] == pc && pc.Install? && m !in s.home && m != 0
    ensures Inv(InstallStep(s, u, pc.op, pc.chunk, pc.level, pc.node, m))
  {
    hide TreeOk, Descend, Prefix, Fan;
    var i := Entry(pc.chunk, pc.level);
    assert PcOk(s.tree, s.home, s.threads[u]);
    if EntryAt(s.tree, pc.node, i) != 0 {
      BelowOk(s.tree, s.home, pc.op, pc.chunk, pc.level, pc.node);
    } else {
      var s' := InstallStep(s, u, pc.op, pc.chunk, pc.level, pc.node, m);
      InstallDown(s.tree, s.home, pc.chunk, pc.level, pc.node, m);
      BelowOk(s'.tree, s'.home, pc.op, pc.chunk, pc.level, pc.node);
      forall t | 0 <= t < |s.threads| && t != u
        ensures PcOk(s'.tree, s'.home, s.threads[t])
      {
        InstalledPc(s, pc.node, i, m, s.threads[t]);
      }
    }
  }

  lemma AfterOk(t: Tree, home: map<nat, Home>, pc: Pc)
    requires TreeOk(t, home) && pc.Words? && PcOk(t, home, pc)
    ensures PcOk(t, home, After(pc.op, pc.chunk, pc.leaf, pc.w))
  {
    hide TreeOk, Descend;
    var n := Min(4096 - pc.chunk % 4096, pc.op.hi - pc.chunk + 1);
    if pc.w >= LeafEnd(pc.chunk, pc.op.hi) / 64 && n != pc.op.hi - pc.chunk + 1 {
      AtRoot(t, home, pc.chunk + n);
    }
  }

  lemma WordKeeps(s: State, u: nat, pc: Pc)
    requires Inv(s) && u < |s.threads| && s.threads[u] == pc && pc.Words?
    ensures Inv(WordStep(s, u, pc.op, pc.chunk, pc.leaf, pc.w))
  {
    hide TreeOk, PcOk, After, Written;
    assert PcOk(s.tree, s.home, pc);
    PcRange(s.tree, s.home, pc);
    var mask := WordMask(pc.chunk, pc.op.hi, pc.w);
    var t' := Written(s.tree, pc.leaf, pc.w, mask, pc.op.val);
    WrittenOk(s.tree, s.home, pc.leaf, pc.w, mask, pc.op.val);
    forall t | 0 <= t < |s.threads|
      ensures PcOk(t', s.home, s.threads[t])
    {
      WrittenPc(s, pc.leaf, pc.w, mask, pc.op.val, s.threads[t]);
    }
    AfterOk(t', s.home, pc);
  }

  lemma PcRange(t: Tree, home: map<nat, Home>, pc: Pc)
    requires PcOk(t, home, pc) && !pc.Idle?
    ensures pc.op.lo <= pc.chunk <= pc.op.hi < MAX_CHUNKS
  {
  }

  lemma StepKeeps(s: State, u: nat, act: Action)
    requires Inv(s) && Enabled(s, u, act)
    ensures Inv(Fire(s, u, act))
  {
    hide TreeOk, Descend, InstallStep, WordStep;
    var pc := s.threads[u];
    assert PcOk(s.tree, s.home, pc);
    if act.Start? {
      AtRoot(s.tree, s.home, act.op.lo);
    } else if pc.Install? {
      InstallKeeps(s, u, pc, act.mapped);
    } else if pc.Words? {
      WordKeeps(s, u, pc);
    } else if pc.Load? && EntryAt(s.tree, pc.node, Entry(pc.chunk, pc.level)) != 0 {
      BelowOk(s.tree, s.home, pc.op, pc.chunk, pc.level, pc.node);
    }
  }

  // ----- what every step does to the pages -----

  /** The pages the next word write of a thread covers. */
  ghost predicate Hits(pc: Pc, c: nat) {
    pc.Words? && pc.chunk <= pc.op.hi
    && Reached(pc.chunk, pc.op.hi, pc.w) <= c < Reached(pc.chunk, pc.op.hi, pc.w + 1)
  }

  /** A page changes only when a thread writes the word of that page, and then it takes the thread's value. */
  lemma StepOwned(s: State, u: nat, act: Action, c: nat)
    requires Inv(s) && Enabled(s, u, act)
    ensures Owned(Fire(s, u, act).tree, c) <==>
      if act.Go? && Hits(s.threads[u], c) then s.threads[u].op.val else Owned(s.tree, c)
  {
    hide TreeOk, Descend, Owned, Reached, WordMask, Has, LeafEnd, After, Prefix, Fan;
    var pc := s.threads[u];
    assert PcOk(s.tree, s.home, pc);
    if act.Go? && pc.Install? {
      if EntryAt(s.tree, pc.node, Entry(pc.chunk, pc.level)) == 0 {
        InstalledOwned(s.tree, s.home, pc.node, Entry(pc.chunk, pc.level), act.mapped, c);
      }
    } else if act.Go? && pc.Words? {
      var mask := WordMask(pc.chunk, pc.op.hi, pc.w);
      WordInLeaf(pc.chunk, pc.op.hi, pc.w);
      WrittenOwned(s.tree, s.home, pc.leaf, pc.w, mask, pc.op.val, pc.chunk, c);
      MaskSpan(pc.chunk, pc.op.hi, pc.w, c);
    }
  }

  /** How far a thread's update has come. */
  ghost function Next(pc: Pc): nat
    requires !pc.Idle? && pc.chunk <= pc.op.hi
  {
    if pc.Words? then Reached(pc.chunk, pc.op.hi, pc.w) else pc.chunk
  }

  /** An update starts at its first page, covers page after page without a gap, and is done behind its last page. */
  lemma Advances(s: State, u: nat, m: nat)
    requires Inv(s) && Enabled(s, u, Go(m)) && !s.threads[u].Idle?
    ensures
      var pc, pc' := s.threads[u], Fire(s, u, Go(m)).threads[u];
      var reached := if pc.Words? then Reached(pc.chunk, pc.op.hi, pc.w + 1) else Next(pc);
      if pc'.Idle? then reached == pc.op.hi + 1 else pc'.op == pc.op && pc'.chunk <= pc'.op.hi && Next(pc') == reached
  {
    hide TreeOk, AtTable, AtLeaf, Descend;
    var pc := s.threads[u];
    assert PcOk(s.tree, s.home, pc);
    SpanEnds(pc.chunk, pc.op.hi);
    FirstWord(pc.chunk, pc.op.hi);
    if pc.Words? && pc.w == LeafEnd(pc.chunk, pc.op.hi) / 64 {
      hide Reached, LeafEnd;
    }
  }

  // ----- updates of disjoint ranges all take effect -----

  ghost predicate Possible(s: State, run: seq<Event>)
    decreases |run|
  {
    run != [] ==> Enabled(s, run[0].thread, run[0].action) && Possible(Fire(s, run[0].thread, run[0].action), run[1..])
  }

  ghost function End(s: State, run: seq<Event>): State
    requires Possible(s, run)
    decreases |run|
  {
    if run == [] then s else End(Fire(s, run[0].thread, run[0].action), run[1..])
  }

  /** An empty tree and no update running. */
  ghost predicate Initial(s: State) {
    && s.tree == Tree(map[ROOT := Zeros(256)], map[]) && s.home == map[ROOT := Home(0, 0)]
    && forall u :: 0 <= u < |s.threads| ==> s.threads[u] == Idle
  }

  ghost predicate ReachedBy(s: State, start: State, run: seq<Event>) {
    Initial(start) && Possible(start, run) && s == End(start, run)
  }

  ghost predicate Reachable(s: State) { exists start, run :: ReachedBy(s, start, run) }

  /** At the start nothing is owned, and the invariant holds. */
  lemma InitialInv(s: State)
    requires Initial(s)
    ensures Inv(s) && forall c :: !Owned(s.tree, c)
  {
    assert TableOk(s.tree, s.home, ROOT);
  }

  lemma {:induction false} RunKeeps(s: State, run: seq<Event>)
    requires Inv(s) && Possible(s, run)
    ensures Inv(End(s, run))
    decreases |run|
  {
    hide Inv, Fire, Enabled;
    if run != [] {
      StepKeeps(s, run[0].thread, run[0].action);
      RunKeeps(Fire(s, run[0].thread, run[0].action), run[1..]);
    }
  }

  lemma ReachableInv(s: State)
    requires Reachable(s)
    ensures Inv(s)
  {
    hide Inv, Initial;
    var start, run :| ReachedBy(s, start, run);
    InitialInv(start);
    RunKeeps(start, run);
  }

  ghost predicate Busy(pc: Pc, c: nat) { !pc.Idle? && pc.op.lo <= c <= pc.op.hi }

  /** In this state no thread but `u` is updating page `c`. */
  ghost predicate Alone(s: State, u: nat, c: nat) {
    forall t :: 0 <= t < |s.threads| && t != u ==> !Busy(s.threads[t], c)
  }

  /** During the run no other thread updates page `c`, and `u` starts nothing new. */
  ghost predicate Undisturbed(s: State, run: seq<Event>, u: nat, c: nat)
    requires Possible(s, run)
    decreases |run|
  {
    && Alone(s, u, c)
    && (run != [] ==>
          && !(run[0].thread == u && run[0].action.Start?)
          && Undisturbed(Fire(s, run[0].thread, run[0].action), run[1..], u, c))
  }

  /** The part of the update already behind the thread has its value. */
  ghost predicate Kept(s: State, u: nat, op: Op, c: nat) {
    && u < |s.threads|
    && var pc := s.threads[u];
       if pc.Idle? then Owned(s.tree, c) == op.val
       else pc.op == op && pc.chunk <= op.hi && (c < Next(pc) ==> Owned(s.tree, c) == op.val)
  }

  lemma KeptStep(s: State, t: nat, act: Action, u: nat, op: Op, c: nat)
    requires Inv(s) && Enabled(s, t, act) && Kept(s, u, op, c) && op.lo <= c <= op.hi && Alone(s, u, c)
    requires !(t == u && act.Start?)
    ensures Kept(Fire(s, t, act), u, op, c)
  {
    hide TreeOk, PcOk, Owned, Reached, InstallStep, WordStep, AtTable;
    StepOwned(s, t, act, c);
    ThreadsStay(s, t, act, u);
    if t == u && !s.threads[u].Idle? {
      Advances(s, u, act.mapped);
    } else if t != u && act.Go? && Hits(s.threads[t], c) {
      HitsBusy(s, t, c);
    }
  }

  lemma ThreadsStay(s: State, t: nat, act: Action, u: nat)
    requires Enabled(s, t, act) && u < |s.threads|
    ensures |Fire(s, t, act).threads| == |s.threads| && (t != u ==> Fire(s, t, act).threads[u] == s.threads[u])
  {
  }

  lemma HitsBusy(s: State, t: nat, c: nat)
    requires Inv(s) && t < |s.threads| && Hits(s.threads[t], c)
    ensures Busy(s.threads[t], c)
  {
    hide TreeOk, AtTable, AtLeaf;
    assert PcOk(s.tree, s.home, s.threads[t]);
  }

  lemma {:induction false} KeptRun(s: State, run: seq<Event>, u: nat, op: Op, c: nat)
    requires Inv(s) && Possible(s, run) && Undisturbed(s, run, u, c) && Kept(s, u, op, c) && op.lo <= c <= op.hi
    ensures Kept(End(s, run), u, op, c)
    decreases |run|
  {
    hide Inv, Kept, Fire, Enabled, Alone;
    if run != [] {
      KeptStep(s, run[0].thread, run[0].action, u, op, c);
      StepKeeps(s, run[0].thread, run[0].action);
      KeptRun(Fire(s, run[0].thread, run[0].action), run[1..], u, op, c);
    }
  }

  /** However threads interleave and race to install nodes: when an update returns, each of its pages that nobody else
      was updating meanwhile has the value of the update. */
  lemma TakesEffect(s: State, u: nat, op: Op, run: seq<Event>, c: nat)
    requires Reachable(s) && Enabled(s, u, Start(op)) && op.lo <= c <= op.hi
    requires Possible(Fire(s, u, Start(op)), run) && Undisturbed(Fire(s, u, Start(op)), run, u, c)
    requires var t := End(Fire(s, u, Start(op)), run); u < |t.threads| && t.threads[u].Idle?
    ensures Owned(End(Fire(s, u, Start(op)), run).tree, c) == op.val
  {
    hide Inv, Undisturbed, Possible, End, Owned, Reachable;
    ReachableInv(s);
    StepKeeps(s, u, Start(op));
    KeptRun(Fire(s, u, Start(op)), run, u, op, c);
  }

  /** In no state of the run is a thread updating page `c`. */
  ghost predicate Untouched(s: State, run: seq<Event>, c: nat)
    requires Possible(s, run)
    decreases |run|
  {
    && (forall t :: 0 <= t < |s.threads| ==> !Busy(s.threads[t], c))
    && (run != [] ==> Untouched(Fire(s, run[0].thread, run[0].action), run[1..], c))
  }

  /** A page keeps its value as long as no thread is updating it, whatever threads do to other pages. */
  lemma StaysPut(s: State, run: seq<Event>, c: nat)
    requires Reachable(s) && Possible(s, run) && Untouched(s, run, c)
    ensures Owned(End(s, run).tree, c) == Owned(s.tree, c)
  {
    hide Inv, Owned, Reachable, Possible, End, Untouched;
    ReachableInv(s);
    UntouchedRun(s, run, c);
  }

  lemma {:induction false} UntouchedRun(s: State, run: seq<Event>, c: nat)
    requires Inv(s) && Possible(s, run) && Untouched(s, run, c)
    ensures Owned(End(s, run).tree, c) == Owned(s.tree, c)
    decreases |run|
  {
    hide Inv, Owned, Fire, Enabled, Busy, Hits;
    if run != [] {
      var t, act := run[0].thread, run[0].action;
      InRange(s, t, act);
      StepOwned(s, t, act, c);
      if Hits(s.threads[t], c) {
        HitsBusy(s, t, c);
      }
      StepKeeps(s, t, act);
      UntouchedRun(Fire(s, t, act), run[1..], c);
    }
  }

  lemma InRange(s: State, t: nat, act: Action)
    requires Enabled(s, t, act)
    ensures t < |s.threads|
  {
  }

  // ----- updates of a page that do not overlap in time -----

  ghost predicate Solo(s: State, c: nat) {
    forall t, u :: 0 <= t < |s.threads| && 0 <= u < |s.threads| && Busy(s.threads[t], c) && Busy(s.threads[u], c) ==> t == u
  }

  /** At no time are two threads updating page `c`. */
  ghost predicate OneAtATime(s: State, run: seq<Event>, c: nat)
    requires Possible(s, run)
    decreases |run|
  {
    Solo(s, c) && (run != [] ==> OneAtATime(Fire(s, run[0].thread, run[0].action), run[1..], c))
  }

  /** The value of the update of page `c` that was started last, `v` if there was none. */
  ghost function LastValue(run: seq<Event>, c: nat, v: bool): bool
    decreases |run|
  {
    if run == [] then v else LastValue(run[1..], c, ValueAfter(run[0].action, c, v))
  }

  ghost function ValueAfter(act: Action, c: nat, v: bool): bool {
    if act.Start? && act.op.lo <= c <= act.op.hi then act.op.val else v
  }

  /** A thread that is updating the page brings it to `v`, and has if it is past it. */
  ghost predicate Brings(s: State, u: nat, c: nat, v: bool)
    requires u < |s.threads|
  {
    var pc := s.threads[u];
    Busy(pc, c) ==> pc.op.val == v && pc.chunk <= pc.op.hi && (c < Next(pc) ==> Owned(s.tree, c) == v)
  }

  ghost predicate Quiet(s: State, c: nat) { forall u :: 0 <= u < |s.threads| ==> !Busy(s.threads[u], c) }

  ghost predicate Tracks(s: State, c: nat, v: bool) {
    (forall u :: 0 <= u < |s.threads| ==> Brings(s, u, c, v)) && (Quiet(s, c) ==> Owned(s.tree, c) == v)
  }

  /** A thread on its way to the page either gets there or passes it. */
  lemma BusyStep(s: State, t: nat, m: nat, c: nat, v: bool)
    requires Inv(s) && Enabled(s, t, Go(m)) && Busy(s.threads[t], c) && Brings(s, t, c, v)
    ensures
      var s' := Fire(s, t, Go(m));
      t < |s'.threads| && Brings(s', t, c, v) && (!Busy(s'.threads[t], c) ==> Owned(s'.tree, c) == v)
  {
    hide TreeOk, PcOk, Owned, Reached, InstallStep, WordStep, AtTable;
    StepOwned(s, t, Go(m), c);
    ThreadsStay(s, t, Go(m), t);
    Advances(s, t, m);
  }

  /** Steps of other threads do not concern the page. */
  lemma OtherStep(s: State, t: nat, act: Action, c: nat)
    requires Inv(s) && Enabled(s, t, act) && !Busy(s.threads[t], c) && (act.Start? ==> !(act.op.lo <= c <= act.op.hi))
    ensures var s' := Fire(s, t, act); Owned(s'.tree, c) == Owned(s.tree, c) && t < |s'.threads| && !Busy(s'.threads[t], c)
  {
    hide TreeOk, PcOk, Owned, Reached, InstallStep, WordStep, AtTable;
    StepOwned(s, t, act, c);
    if act.Go? {
      if Hits(s.threads[t], c) {
        HitsBusy(s, t, c);
      }
      SameOp(s, t, act.mapped);
    }
  }

  lemma SameOp(s: State, t: nat, m: nat)
    requires Inv(s) && Enabled(s, t, Go(m))
    ensures
      var s' := Fire(s, t, Go(m));
      t < |s'.threads| && (!s'.threads[t].Idle? ==> !s.threads[t].Idle? && s'.threads[t].op == s.threads[t].op)
  {
    hide TreeOk, PcOk, Owned, Reached, InstallStep, WordStep, AtTable;
    ThreadsStay(s, t, Go(m), t);
    if !s.threads[t].Idle? {
      Advances(s, t, m);
    }
  }

  lemma TracksStep(s: State, t: nat, act: Action, c: nat, v: bool)
    requires Inv(s) && Enabled(s, t, act) && Tracks(s, c, v) && Solo(s, c) && Solo(Fire(s, t, act), c)
    ensures Tracks(Fire(s, t, act), c, ValueAfter(act, c, v))
  {
    hide Inv, Owned, Fire, Enabled, Next, Busy;
    InRange(s, t, act);
    var s' := Fire(s, t, act);
    forall u: nat | u < |s.threads|
      ensures |s'.threads| == |s.threads| && (u != t ==> s'.threads[u] == s.threads[u])
    {
      ThreadsStay(s, t, act, u);
    }
    if act.Start? && act.op.lo <= c <= act.op.hi {
      StartBusy(s, t, act.op, c);
    } else if Busy(s.threads[t], c) {
      OnlyGo(s, t, act, c);
      BusyStep(s, t, act.mapped, c, v);
    } else {
      OtherStep(s, t, act, c);
      forall u | 0 <= u < |s'.threads|
        ensures Brings(s', u, c, v) && Busy(s'.threads[u], c) == Busy(s.threads[u], c)
      {
        assert Brings(s, u, c, v);
      }
    }
  }

  lemma StartBusy(s: State, t: nat, op: Op, c: nat)
    requires Enabled(s, t, Start(op)) && op.lo <= c <= op.hi
    ensures
      var s' := Fire(s, t, Start(op));
      Busy(s'.threads[t], c) && s'.threads[t].op == op && s'.threads[t].chunk <= op.hi && Next(s'.threads[t]) <= c
  {
  }

  lemma OnlyGo(s: State, t: nat, act: Action, c: nat)
    requires Enabled(s, t, act) && Busy(s.threads[t], c)
    ensures act.Go?
  {
  }

  /** Threads update overlapping ranges in any order and race to install nodes.  If no two of them were updating the page
      at the same time, it has the value of the update that was started last, and is not owned if there was none. */
  lemma LastUpdateHolds(start: State, run: seq<Event>, c: nat)
    requires Initial(start) && Possible(start, run) && OneAtATime(start, run, c) && Quiet(End(start, run), c)
    ensures Owned(End(start, run).tree, c) == LastValue(run, c, false)
  {
    hide Inv, Owned, Possible, End, OneAtATime, LastValue;
    InitialInv(start);
    TracksRun(start, run, c, false);
  }

  lemma {:induction false} TracksRun(s: State, run: seq<Event>, c: nat, v: bool)
    requires Inv(s) && Possible(s, run) && OneAtATime(s, run, c) && Tracks(s, c, v)
    ensures Tracks(End(s, run), c, LastValue(run, c, v))
    decreases |run|
  {
    hide Inv, Tracks, Fire, Enabled, Solo, ValueAfter;
    if run != [] {
      var t, act := run[0].thread, run[0].action;
      TracksStep(s, t, act, c, v);
      StepKeeps(s, t, act);
      TracksRun(Fire(s, t, act), run[1..], c, ValueAfter(act, c, v));
    }
  }
}
