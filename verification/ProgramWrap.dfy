/** The bound on late pops is needed: after 256 updates the tag has come around, and a late pop makes a list lead to a
    block that a client has. */
module ProgramWrap {
  import opened Circulation
  import opened CirculationInv
  import opened Program
  import opened ProgramInv
  import opened ProgramRun

  // ----- longer runs -----

  lemma {:induction false} RunFurther(p: Prog, run: seq<Turn>, e: Turn)
    requires Runs(p, run) && Can(Final(p, run), e.thread, e.step) && Timely(Final(p, run), e.thread, e.step)
    ensures Runs(p, run + [e]) && Final(p, run + [e]) == Do(Final(p, run), e.thread, e.step)
    decreases |run|
  {
    hide Can, Do, Timely;
    if run == [] {
      assert ([] + [e])[1..] == [];
    } else {
      assert (run + [e])[1..] == run[1..] + [e];
      RunFurther(Do(p, run[0].thread, run[0].step), run[1..], e);
    }
  }

  lemma ArisesOn(p: Prog, u: nat, step: Step)
    requires Arises(p) && Can(p, u, step) && Timely(p, u, step)
    ensures Arises(Do(p, u, step))
  {
    hide Can, Do, Timely, Fresh, Runs, Final;
    var start, run :| ComesFrom(p, start, run);
    RunFurther(start, run, Turn(u, step));
    assert ComesFrom(Do(p, u, step), start, run + [Turn(u, step)]);
  }

  // ----- two threads on two CPUs, two blocks -----
  //
  // Thread 1 runs on CPU 0 and uses the lists of that CPU.  Thread 0 runs on CPU 1, where the list is empty, and steals
  // from CPU 0.

  const LIST: Loc := Loc(0, Normal)
  const OWN: Loc := Loc(0, Rseq)
  const OTHER: Loc := Loc(1, Rseq)

  /** What the story is about: links, the words of the two lists, the updates of the transfer list, its hint, where both
      threads stand, the clients and raw memory. */
  datatype View = View(next: map<nat, nat>, word: Word, own: Word, version: nat, hint: bool,
                       pc0: Pc, job0: Job, pc: Pc, job: Job, clients: multiset<nat>, raw: set<nat>)

  ghost predicate Frame(p: Prog) {
    && p.core.on == map[0 := 1, 1 := 0] && LIST in p.core.heads && OWN in p.core.heads
    && OTHER in p.core.heads && p.core.heads[OTHER].ptr == 0
    && 0 in p.core.hint && 0 in p.core.usage && 1 in p.core.usage
  }

  ghost predicate Seen(p: Prog, v: View) {
    && Frame(p) && p.core.next == v.next && p.core.heads[LIST] == v.word && p.core.heads[OWN] == v.own
    && VersionAt(p.core, LIST) == v.version && p.core.hint[0] == v.hint
    && p.core.threads == [v.pc0, v.pc] && p.jobs == [v.job0, v.job] && p.clients == v.clients && p.raw == v.raw
  }

  /** The step is possible and leads to the view. */
  ghost predicate Turns(p: Prog, u: nat, step: Step, v: View) {
    Can(p, u, step) && Timely(p, u, step) && Seen(Do(p, u, step), v)
  }

  lemma Take1(p: Prog, u: nat, step: Step, v: View) returns (q: Prog)
    requires Arises(p) && Turns(p, u, step, v)
    ensures Arises(q) && Seen(q, v)
  {
    hide Arises, Can, Do, Seen, Timely;
    ArisesOn(p, u, step);
    q := Do(p, u, step);
  }

  lemma Up(p: Prog, u: nat)
    requires Frame(p) && u < 2
    ensures Running(p.core, u) && RunsOn(p.core, u, 1 - u)
  {
    assert RunsOn(p.core, u, 1 - u);
  }

  const TWO: Load := Load(1, 2, 2, [1, 2])

  // ----- instructions of thread 1 -----

  lemma PushLoads(p: Prog, v: View, load: Load)
    requires Seen(p, v) && v.pc == Push(PushLoad(LIST, load))
    ensures Turns(p, 1, Core(Go), v.(pc := Push(PushLink(LIST, load, v.word))))
  {
    Up(p, 1);
  }

  lemma PushLinks(p: Prog, v: View, load: Load, w: Word)
    requires Seen(p, v) && v.pc == Push(PushLink(LIST, load, w))
    ensures Turns(p, 1, Core(Go), v.(next := v.next[load.tail := w.ptr], pc := Push(PushCas(LIST, load, w))))
  {
    Up(p, 1);
  }

  lemma PushSwaps(p: Prog, v: View, load: Load)
    requires Seen(p, v) && v.pc == Push(PushCas(LIST, load, v.word))
    ensures Turns(p, 1, Core(Go), v.(word := Pack(load.head, v.word), version := v.version + 1,
      pc := if v.word.ptr == 0 then Hint(MarkLoad(0)) else Idle))
  {
    Up(p, 1);
  }

  lemma MarkLoads(p: Prog, v: View)
    requires Seen(p, v) && v.pc == Hint(MarkLoad(0))
    ensures Turns(p, 1, Core(Go), v.(pc := if v.hint then Idle else Hint(MarkSet(0))))
  {
    Up(p, 1);
  }

  lemma MarkSets(p: Prog, v: View)
    requires Seen(p, v) && v.pc == Hint(MarkSet(0))
    ensures Turns(p, 1, Core(Go), v.(hint := true, pc := Idle))
  {
    Up(p, 1);
  }

  lemma ClearLoads(p: Prog, v: View)
    requires Seen(p, v) && v.pc == Hint(ClearLoad(0)) && v.hint
    ensures Turns(p, 1, Core(Go), v.(pc := Hint(ClearSet(0))))
  {
    Up(p, 1);
  }

  lemma ClearSets(p: Prog, v: View)
    requires Seen(p, v) && v.pc == Hint(ClearSet(0))
    ensures Turns(p, 1, Core(Go), v.(hint := false, pc := Hint(Recheck(0))))
  {
    Up(p, 1);
  }

  lemma Rechecks(p: Prog, v: View)
    requires Seen(p, v) && v.pc == Hint(Recheck(0)) && v.word.ptr == 0
    ensures Turns(p, 1, Core(Go), v.(pc := Idle))
  {
    Up(p, 1);
  }

  lemma PopLoads(p: Prog, v: View)
    requires Seen(p, v) && v.pc == Pop(PopLoad(LIST, false, 2)) && v.word.ptr != 0
    ensures Turns(p, 1, Core(Go), v.(pc := Pop(PopWalk(LIST, false, 2, v.word, One(v.word.ptr), v.version))))
  {
    Up(p, 1);
  }

  lemma PopWalks(p: Prog, v: View, p0: PopPc)
    requires Seen(p, v) && v.pc == Pop(p0) && p0.PopWalk? && p0.loc == LIST && p0.load.tail in v.next
    ensures Turns(p, 1, Core(Go), v.(pc :=
      var nx := v.next[p0.load.tail];
      if p0.load.count < p0.batch && nx != 0 then Pop(PopWalk(LIST, p0.single, p0.batch, p0.word, Longer(p0.load, nx), p0.v))
      else Pop(PopCas(LIST, p0.single, p0.batch, p0.word, p0.load, nx, p0.v))))
  {
    Up(p, 1);
  }

  lemma PopSwaps(p: Prog, v: View, p0: PopPc)
    requires Seen(p, v) && v.pc == Pop(p0) && p0.PopCas? && p0.loc == LIST && p0.word == v.word && p0.v == v.version
    requires !p0.single && v.job == Seek(false)
    ensures Turns(p, 1, Core(Go), v.(word := Pack(p0.nx, v.word), version := v.version + 1,
      pc := if p0.nx == 0 then Hint(ClearLoad(0)) else Idle, job := Batch(p0.load)))
  {
    Up(p, 1);
  }

  lemma TakeEnters(p: Prog, v: View)
    requires Seen(p, v) && v.pc == Take(TakeEnter(0))
    ensures Turns(p, 1, Core(Go), v.(pc := Take(TakeCheck(0))))
  {
    Up(p, 1);
  }

  lemma TakeChecks(p: Prog, v: View)
    requires Seen(p, v) && v.pc == Take(TakeCheck(0))
    ensures Turns(p, 1, Core(Go), v.(pc := Take(TakeLoad(0))))
  {
    Up(p, 1);
  }

  lemma TakeLoads(p: Prog, v: View)
    requires Seen(p, v) && v.pc == Take(TakeLoad(0))
    ensures Turns(p, 1, Core(Go), if v.own.ptr == 0 then v.(pc := Idle, job := Seek(false)) else v.(pc := Take(TakeNext(0, v.own.ptr))))
  {
    Up(p, 1);
  }

  lemma TakeNexts(p: Prog, v: View, b: nat)
    requires Seen(p, v) && v.pc == Take(TakeNext(0, b)) && b in v.next
    ensures Turns(p, 1, Core(Go), v.(pc := Take(TakeStore(0, b, v.next[b]))))
  {
    Up(p, 1);
  }

  lemma TakeStores(p: Prog, v: View, b: nat, nx: nat)
    requires Seen(p, v) && v.pc == Take(TakeStore(0, b, nx))
    ensures Turns(p, 1, Core(Go), v.(own := Word(nx, 0), pc := Take(TakeCount(0)), job := Got(b)))
  {
    Up(p, 1);
  }

  lemma TakeCounts(p: Prog, v: View)
    requires Seen(p, v) && v.pc == Take(TakeCount(0))
    ensures Turns(p, 1, Core(Go), v.(pc := Idle))
  {
    Up(p, 1);
  }

  lemma GiveEnters(p: Prog, v: View, load: Load)
    requires Seen(p, v) && v.pc == Give(GiveEnter(0, load))
    ensures Turns(p, 1, Core(Go), v.(pc := Give(GiveCheck(0, load))))
  {
    Up(p, 1);
  }

  lemma GiveChecks(p: Prog, v: View, load: Load)
    requires Seen(p, v) && v.pc == Give(GiveCheck(0, load))
    ensures Turns(p, 1, Core(Go), v.(pc := Give(GiveLoad(0, load))))
  {
    Up(p, 1);
  }

  lemma GiveLoads(p: Prog, v: View, load: Load)
    requires Seen(p, v) && v.pc == Give(GiveLoad(0, load))
    ensures Turns(p, 1, Core(Go), v.(pc := Give(GiveLink(0, load, v.own.ptr))))
  {
    Up(p, 1);
  }

  lemma GiveLinks(p: Prog, v: View, load: Load, tmp: nat)
    requires Seen(p, v) && v.pc == Give(GiveLink(0, load, tmp))
    ensures Turns(p, 1, Core(Go), v.(next := v.next[load.tail := tmp], pc := Give(GiveStore(0, load, tmp))))
  {
    Up(p, 1);
  }

  lemma GiveStores(p: Prog, v: View, load: Load, tmp: nat)
    requires Seen(p, v) && v.pc == Give(GiveStore(0, load, tmp))
    ensures Turns(p, 1, Core(Go), v.(own := Word(load.head, 0), pc := Give(GiveCount(0, load.count))))
  {
    Up(p, 1);
  }

  lemma GiveCounts(p: Prog, v: View, n: nat)
    requires Seen(p, v) && v.pc == Give(GiveCount(0, n))
    ensures Turns(p, 1, Core(Go), v.(pc := Idle))
  {
    Up(p, 1);
  }

  // ----- jobs of thread 1 -----

  lemma Mallocs(p: Prog, v: View)
    requires Seen(p, v) && v.pc == Idle && v.job == Rest
    ensures Turns(p, 1, Malloc, v.(job := Want))
  {
    Up(p, 1);
  }

  lemma PopsHere(p: Prog, v: View)
    requires Seen(p, v) && v.pc == Idle && v.job == Want
    ensures Turns(p, 1, PopHere(0), v.(pc := Take(TakeEnter(0))))
  {
    Up(p, 1);
  }

  lemma Steals(p: Prog, v: View)
    requires Seen(p, v) && v.pc == Idle && v.job == Seek(false)
    ensures Turns(p, 1, Steal(0, 2), v.(pc := Pop(PopLoad(LIST, false, 2))))
  {
    Up(p, 1);
  }

  lemma Refills(p: Prog, v: View)
    requires Seen(p, v) && v.pc == Idle && v.job == Seek(false) && v.raw == {1, 2}
    ensures Turns(p, 1, Refill([1, 2]), v.(job := Laying(TWO, 2), raw := {}))
  {
    Up(p, 1);
    assert {1, 2} - (set b | b in [1, 2]) == {};
  }

  lemma Lays(p: Prog, v: View, n: nat)
    requires Seen(p, v) && v.pc == Idle && v.job == Laying(TWO, n) && n <= 2
    ensures Turns(p, 1, Lay, if n == 0 then v.(job := Batch(TWO))
      else v.(next := v.next[n := if n == 2 then 0 else 2], job := Laying(TWO, n - 1)))
  {
    Up(p, 1);
  }

  lemma TakesOne(p: Prog, v: View)
    requires Seen(p, v) && v.pc == Idle && v.job == Batch(TWO) && 1 in v.next && v.next[1] == 2
    ensures Turns(p, 1, TakeOne, v.(job := Store(One(2), Clear(1))))
  {
    Up(p, 1);
    assert [1, 2][1..] == [2];
  }

  lemma TakesOnly(p: Prog, v: View, b: nat)
    requires Seen(p, v) && v.pc == Idle && v.job == Batch(One(b))
    ensures Turns(p, 1, TakeOne, v.(job := Clear(b)))
  {
    Up(p, 1);
  }

  lemma Resets(p: Prog, v: View, b: nat)
    requires Seen(p, v) && v.pc == Idle && v.job == Clear(b)
    ensures Turns(p, 1, Reset, v.(next := v.next[b := 0], job := Got(b)))
  {
    Up(p, 1);
  }

  lemma Returns(p: Prog, v: View, b: nat)
    requires Seen(p, v) && v.pc == Idle && v.job == Got(b)
    ensures Turns(p, 1, Return, v.(job := Rest, clients := v.clients + multiset{b}))
  {
    Up(p, 1);
  }

  lemma Frees(p: Prog, v: View, b: nat)
    requires Seen(p, v) && v.pc == Idle && v.job == Rest && b in v.clients
    ensures Turns(p, 1, Free(b), v.(job := Store(One(b), Rest), clients := v.clients - multiset{b}))
  {
    Up(p, 1);
  }

  lemma PutsMail(p: Prog, v: View)
    requires Seen(p, v) && v.pc == Idle && v.job.Store?
    ensures Turns(p, 1, PutMail(0), v.(pc := Push(PushLoad(LIST, v.job.load)), job := v.job.after))
  {
    Up(p, 1);
  }

  lemma PutsHere(p: Prog, v: View)
    requires Seen(p, v) && v.pc == Idle && v.job.Store?
    ensures Turns(p, 1, PutHere(0), v.(pc := Give(GiveEnter(0, v.job.load)), job := v.job.after))
  {
    Up(p, 1);
  }

  // ----- whole operations of thread 1 -----

  /** An allocation finds its CPU's list empty. */
  lemma EmptyHere(p: Prog, v: View) returns (q: Prog)
    requires Arises(p) && Seen(p, v) && v.pc == Idle && v.job == Rest && v.own.ptr == 0
    ensures Arises(q) && Seen(q, v.(job := Seek(false)))
  {
    hide Arises, Seen, Turns;
    Mallocs(p, v);
    var v1 := v.(job := Want);
    q := Take1(p, 1, Malloc, v1);
    PopsHere(q, v1);
    q := Take1(q, 1, PopHere(0), v1.(pc := Take(TakeEnter(0))));
    TakeEnters(q, v1.(pc := Take(TakeEnter(0))));
    q := Take1(q, 1, Core(Go), v1.(pc := Take(TakeCheck(0))));
    TakeChecks(q, v1.(pc := Take(TakeCheck(0))));
    q := Take1(q, 1, Core(Go), v1.(pc := Take(TakeLoad(0))));
    TakeLoads(q, v1.(pc := Take(TakeLoad(0))));
    q := Take1(q, 1, Core(Go), v.(job := Seek(false)));
  }

  /** What a push of one block onto the transfer list leaves. */
  ghost function Mailed(v: View, b: nat, after: Job): View {
    v.(next := v.next[b := v.word.ptr], word := Pack(b, v.word), version := v.version + 1, hint := v.hint || v.word.ptr == 0, job := after)
  }

  lemma Mails(p: Prog, v: View, b: nat, after: Job) returns (q: Prog)
    requires Arises(p) && Seen(p, v) && v.pc == Idle && v.job == Store(One(b), after)
    ensures Arises(q) && Seen(q, Mailed(v, b, after))
  {
    hide Arises, Seen, Turns;
    PutsMail(p, v);
    var v1 := v.(pc := Push(PushLoad(LIST, One(b))), job := after);
    q := Take1(p, 1, PutMail(0), v1);
    PushLoads(q, v1, One(b));
    var v2 := v1.(pc := Push(PushLink(LIST, One(b), v.word)));
    q := Take1(q, 1, Core(Go), v2);
    PushLinks(q, v2, One(b), v.word);
    var v3 := v2.(next := v.next[b := v.word.ptr], pc := Push(PushCas(LIST, One(b), v.word)));
    q := Take1(q, 1, Core(Go), v3);
    PushSwaps(q, v3, One(b));
    var v4 := v3.(word := Pack(b, v.word), version := v.version + 1, pc := if v.word.ptr == 0 then Hint(MarkLoad(0)) else Idle);
    q := Take1(q, 1, Core(Go), v4);
    if v.word.ptr == 0 {
      q := Marks(q, v4);
    }
  }

  lemma Marks(p: Prog, v: View) returns (q: Prog)
    requires Arises(p) && Seen(p, v) && v.pc == Hint(MarkLoad(0))
    ensures Arises(q) && Seen(q, v.(hint := true, pc := Idle))
  {
    hide Arises, Seen, Turns;
    MarkLoads(p, v);
    var v1 := v.(pc := if v.hint then Idle else Hint(MarkSet(0)));
    q := Take1(p, 1, Core(Go), v1);
    if !v.hint {
      MarkSets(q, v1);
      q := Take1(q, 1, Core(Go), v1.(hint := true, pc := Idle));
    }
  }

  /** The list is empty, and its hint goes out. */
  lemma Clears(p: Prog, v: View) returns (q: Prog)
    requires Arises(p) && Seen(p, v) && v.pc == Hint(ClearLoad(0)) && v.hint && v.word.ptr == 0
    ensures Arises(q) && Seen(q, v.(hint := false, pc := Idle))
  {
    hide Arises, Seen, Turns;
    ClearLoads(p, v);
    q := Take1(p, 1, Core(Go), v.(pc := Hint(ClearSet(0))));
    ClearSets(q, v.(pc := Hint(ClearSet(0))));
    q := Take1(q, 1, Core(Go), v.(hint := false, pc := Hint(Recheck(0))));
    Rechecks(q, v.(hint := false, pc := Hint(Recheck(0))));
    q := Take1(q, 1, Core(Go), v.(hint := false, pc := Idle));
  }

  /** The rest of a batch is stored; its first block is handed out. */
  lemma HandsFirst(p: Prog, v: View, b: nat) returns (q: Prog)
    requires Arises(p) && Seen(p, v) && v.pc == Idle && v.job == Clear(b)
    ensures Arises(q) && Seen(q, v.(next := v.next[b := 0], job := Rest, clients := v.clients + multiset{b}))
  {
    hide Arises, Seen, Turns;
    Resets(p, v, b);
    var v1 := v.(next := v.next[b := 0], job := Got(b));
    q := Take1(p, 1, Reset, v1);
    Returns(q, v1, b);
    q := Take1(q, 1, Return, v1.(job := Rest, clients := v.clients + multiset{b}));
  }

  lemma FreesTo(p: Prog, v: View, b: nat) returns (q: Prog)
    requires Arises(p) && Seen(p, v) && v.pc == Idle && v.job == Rest && b in v.clients
    ensures Arises(q) && Seen(q, Mailed(v.(clients := v.clients - multiset{b}), b, Rest))
  {
    hide Arises, Seen, Turns;
    Frees(p, v, b);
    var v1 := v.(job := Store(One(b), Rest), clients := v.clients - multiset{b});
    q := Take1(p, 1, Free(b), v1);
    q := Mails(q, v1, b, Rest);
  }

  // ----- the story -----

  ghost function Late(): Pc { Pop(PopCas(LIST, false, 1, Word(1, 2), One(1), 2, 2)) }

  const OPEN: View := View(map[1 := 0, 2 := 0], Word(0, 0), Word(0, 0), 0, false, Idle, Rest, Idle, Rest, multiset{}, {1, 2})

  /** Both blocks are carved and come to the transfer list, block 1 in front. */
  const LISTED: View := View(map[1 := 2, 2 := 0], Word(1, 2), Word(0, 0), 2, true, Idle, Rest, Idle, Rest, multiset{}, {})

  lemma First(p: Prog) returns (q: Prog)
    requires Arises(p) && Seen(p, OPEN)
    ensures Arises(q) && Seen(q, LISTED)
  {
    hide Arises, Seen, Turns;
    q := EmptyHere(p, OPEN);
    var v := OPEN.(job := Seek(false));
    Refills(q, v);
    var v1 := v.(job := Laying(TWO, 2), raw := {});
    q := Take1(q, 1, Refill([1, 2]), v1);
    q := Laid(q, v1);
    var v2 := v1.(next := map[1 := 2, 2 := 0], job := Store(One(2), Clear(1)));
    q := Mails(q, v2, 2, Clear(1));
    var v3 := Mailed(v2, 2, Clear(1));
    assert v3.next == map[1 := 2, 2 := 0];
    q := HandsFirst(q, v3, 1);
    var v4 := v3.(next := v3.next[1 := 0], job := Rest, clients := multiset{1});
    assert v3.clients + multiset{1} == multiset{1};
    q := FreesTo(q, v4, 1);
    assert multiset{1} - multiset{1} == multiset{};
    assert v4.next[1 := 2] == map[1 := 2, 2 := 0];
    assert Mailed(v4.(clients := multiset{}), 1, Rest) == LISTED;
  }

  lemma Laid(p: Prog, v: View) returns (q: Prog)
    requires Arises(p) && Seen(p, v) && v.pc == Idle && v.job == Laying(TWO, 2) && v.next == map[1 := 0, 2 := 0]
    ensures Arises(q) && Seen(q, v.(next := map[1 := 2, 2 := 0], job := Store(One(2), Clear(1))))
  {
    hide Arises, Seen, Turns;
    Lays(p, v, 2);
    var v1 := v.(next := v.next[2 := 0], job := Laying(TWO, 1));
    q := Take1(p, 1, Lay, v1);
    Lays(q, v1, 1);
    var v2 := v1.(next := v1.next[1 := 2], job := Laying(TWO, 0));
    q := Take1(q, 1, Lay, v2);
    assert v2.next == map[1 := 2, 2 := 0];
    Lays(q, v2, 0);
    q := Take1(q, 1, Lay, v2.(job := Batch(TWO)));
    TakesOne(q, v2.(job := Batch(TWO)));
    q := Take1(q, 1, TakeOne, v2.(job := Store(One(2), Clear(1))));
  }

  // ----- thread 0 -----

  lemma Malloc0(p: Prog, v: View)
    requires Seen(p, v) && v.pc0 == Idle && v.job0 == Rest
    ensures Turns(p, 0, Malloc, v.(job0 := Want))
  {
  }

  lemma PopHere0(p: Prog, v: View)
    requires Seen(p, v) && v.pc0 == Idle && v.job0 == Want
    ensures Turns(p, 0, PopHere(1), v.(pc0 := Take(TakeEnter(1))))
  {
    Up(p, 0);
  }

  lemma TakeEnter0(p: Prog, v: View)
    requires Seen(p, v) && v.pc0 == Take(TakeEnter(1))
    ensures Turns(p, 0, Core(Go), v.(pc0 := Take(TakeCheck(1))))
  {
    Up(p, 0);
  }

  lemma TakeCheck0(p: Prog, v: View)
    requires Seen(p, v) && v.pc0 == Take(TakeCheck(1))
    ensures Turns(p, 0, Core(Go), v.(pc0 := Take(TakeLoad(1))))
  {
    Up(p, 0);
  }

  lemma TakeLoad0(p: Prog, v: View)
    requires Seen(p, v) && v.pc0 == Take(TakeLoad(1))
    ensures Turns(p, 0, Core(Go), v.(pc0 := Idle, job0 := Seek(false)))
  {
    Up(p, 0);
  }

  lemma Steal0(p: Prog, v: View)
    requires Seen(p, v) && v.pc0 == Idle && v.job0 == Seek(false)
    ensures Turns(p, 0, Steal(0, 1), v.(pc0 := Pop(PopLoad(LIST, false, 1))))
  {
  }

  lemma PopLoad0(p: Prog, v: View)
    requires Seen(p, v) && v.pc0 == Pop(PopLoad(LIST, false, 1)) && v.word.ptr != 0
    ensures Turns(p, 0, Core(Go), v.(pc0 := Pop(PopWalk(LIST, false, 1, v.word, One(v.word.ptr), v.version))))
  {
    Up(p, 0);
  }

  lemma PopWalk0(p: Prog, v: View, w: Word, n: nat)
    requires Seen(p, v) && v.pc0 == Pop(PopWalk(LIST, false, 1, w, One(1), n)) && 1 in v.next
    ensures Turns(p, 0, Core(Go), v.(pc0 := Pop(PopCas(LIST, false, 1, w, One(1), v.next[1], n))))
  {
    Up(p, 0);
  }

  /** Thread 0 finds the list of its CPU empty. */
  lemma Empty0(p: Prog, v: View) returns (q: Prog)
    requires Arises(p) && Seen(p, v) && v.pc0 == Idle && v.job0 == Rest
    ensures Arises(q) && Seen(q, v.(job0 := Seek(false)))
  {
    hide Arises, Seen, Turns;
    Malloc0(p, v);
    var v1 := v.(job0 := Want);
    q := Take1(p, 0, Malloc, v1);
    PopHere0(q, v1);
    q := Take1(q, 0, PopHere(1), v1.(pc0 := Take(TakeEnter(1))));
    TakeEnter0(q, v1.(pc0 := Take(TakeEnter(1))));
    q := Take1(q, 0, Core(Go), v1.(pc0 := Take(TakeCheck(1))));
    TakeCheck0(q, v1.(pc0 := Take(TakeCheck(1))));
    q := Take1(q, 0, Core(Go), v1.(pc0 := Take(TakeLoad(1))));
    TakeLoad0(q, v1.(pc0 := Take(TakeLoad(1))));
    q := Take1(q, 0, Core(Go), v.(job0 := Seek(false)));
  }

  /** Thread 0 starts to steal a block and stops before the compare-and-swap. */
  lemma Second(p: Prog) returns (q: Prog)
    requires Arises(p) && Seen(p, LISTED)
    ensures Arises(q) && Seen(q, LISTED.(pc0 := Late(), job0 := Seek(false)))
  {
    hide Arises, Seen, Turns;
    q := Empty0(p, LISTED);
    var v := LISTED.(job0 := Seek(false));
    Steal0(q, v);
    q := Take1(q, 0, Steal(0, 1), v.(pc0 := Pop(PopLoad(LIST, false, 1))));
    PopLoad0(q, v.(pc0 := Pop(PopLoad(LIST, false, 1))));
    var pc := Pop(PopWalk(LIST, false, 1, Word(1, 2), One(1), 2));
    q := Take1(q, 0, Core(Go), v.(pc0 := pc));
    PopWalk0(q, v.(pc0 := pc), Word(1, 2), 2);
    q := Take1(q, 0, Core(Go), v.(pc0 := Late()));
  }

  // ----- thread 1 takes both blocks -----

  ghost function Both(): View {
    LISTED.(pc0 := Late(), job0 := Seek(false), word := Word(0, 3), version := 3, hint := false, job := Batch(TWO))
  }

  lemma Third(p: Prog) returns (q: Prog)
    requires Arises(p) && Seen(p, LISTED.(pc0 := Late(), job0 := Seek(false)))
    ensures Arises(q) && Seen(q, Both())
  {
    hide Arises, Seen, Turns;
    var v0 := LISTED.(pc0 := Late(), job0 := Seek(false));
    q := EmptyHere(p, v0);
    var v := v0.(job := Seek(false));
    Steals(q, v);
    var v1 := v.(pc := Pop(PopLoad(LIST, false, 2)));
    q := Take1(q, 1, Steal(0, 2), v1);
    PopLoads(q, v1);
    var w1 := PopWalk(LIST, false, 2, Word(1, 2), One(1), 2);
    q := Take1(q, 1, Core(Go), v.(pc := Pop(w1)));
    PopWalks(q, v.(pc := Pop(w1)), w1);
    assert Longer(One(1), 2) == TWO;
    var w2 := PopWalk(LIST, false, 2, Word(1, 2), TWO, 2);
    q := Take1(q, 1, Core(Go), v.(pc := Pop(w2)));
    PopWalks(q, v.(pc := Pop(w2)), w2);
    var w3 := PopCas(LIST, false, 2, Word(1, 2), TWO, 0, 2);
    q := Take1(q, 1, Core(Go), v.(pc := Pop(w3)));
    PopSwaps(q, v.(pc := Pop(w3)), w3);
    var v4 := v.(word := Word(0, 3), version := 3, pc := Hint(ClearLoad(0)), job := Batch(TWO));
    q := Take1(q, 1, Core(Go), v4);
    q := Clears(q, v4);
  }

  /** Block 2 goes to the list of CPU 0, block 1 to a client. */
  ghost function Parted(): View {
    Both().(own := Word(2, 0), next := map[1 := 0, 2 := 0], job := Rest, clients := multiset{1})
  }

  lemma Fourth(p: Prog) returns (q: Prog)
    requires Arises(p) && Seen(p, Both())
    ensures Arises(q) && Seen(q, Parted())
  {
    hide Arises, Seen, Turns;
    TakesOne(p, Both());
    var v := Both().(job := Store(One(2), Clear(1)));
    q := Take1(p, 1, TakeOne, v);
    PutsHere(q, v);
    var v1 := v.(pc := Give(GiveEnter(0, One(2))), job := Clear(1));
    q := Take1(q, 1, PutHere(0), v1);
    q := GivesHere(q, v1);
    var v2 := v1.(own := Word(2, 0), next := v1.next[2 := 0], pc := Idle);
    assert v2.next == map[1 := 2, 2 := 0];
    q := HandsFirst(q, v2, 1);
    assert v2.next[1 := 0] == map[1 := 0, 2 := 0];
    assert multiset{} + multiset{1} == multiset{1};
  }

  lemma GivesHere(p: Prog, v: View) returns (q: Prog)
    requires Arises(p) && Seen(p, v) && v.pc == Give(GiveEnter(0, One(2))) && v.own.ptr == 0
    ensures Arises(q) && Seen(q, v.(own := Word(2, 0), next := v.next[2 := 0], pc := Idle))
  {
    hide Arises, Seen, Turns;
    GiveEnters(p, v, One(2));
    q := Take1(p, 1, Core(Go), v.(pc := Give(GiveCheck(0, One(2)))));
    GiveChecks(q, v.(pc := Give(GiveCheck(0, One(2)))), One(2));
    q := Take1(q, 1, Core(Go), v.(pc := Give(GiveLoad(0, One(2)))));
    GiveLoads(q, v.(pc := Give(GiveLoad(0, One(2)))), One(2));
    q := Take1(q, 1, Core(Go), v.(pc := Give(GiveLink(0, One(2), 0))));
    GiveLinks(q, v.(pc := Give(GiveLink(0, One(2), 0))), One(2), 0);
    var v1 := v.(next := v.next[2 := 0], pc := Give(GiveStore(0, One(2), 0)));
    q := Take1(q, 1, Core(Go), v1);
    GiveStores(q, v1, One(2), 0);
    q := Take1(q, 1, Core(Go), v1.(own := Word(2, 0), pc := Give(GiveCount(0, 1))));
    GiveCounts(q, v1.(own := Word(2, 0), pc := Give(GiveCount(0, 1))), 1);
    q := Take1(q, 1, Core(Go), v1.(own := Word(2, 0), pc := Idle));
  }

  /** Block 1 is alone on the transfer list after `n` updates, block 2 is with a client. */
  ghost function Cycle(n: nat): View {
    View(map[1 := 0, 2 := 0], Word(1, n % TAGS), Word(0, 0), n, true, Late(), Seek(false), Idle, Rest, multiset{2}, {})
  }

  lemma Fifth(p: Prog) returns (q: Prog)
    requires Arises(p) && Seen(p, Parted())
    ensures Arises(q) && Seen(q, Cycle(4))
  {
    hide Arises, Seen, Turns;
    q := TakesHere(p, Parted());
    var v := Parted().(own := Word(0, 0), clients := Parted().clients + multiset{2});
    q := FreesTo(q, v, 1);
    assert multiset{1} + multiset{2} - multiset{1} == multiset{2};
    assert v.next[1 := 0] == v.next;
    assert Mailed(v.(clients := multiset{2}), 1, Rest) == Cycle(4);
  }

  lemma TakesHere(p: Prog, v: View) returns (q: Prog)
    requires Arises(p) && Seen(p, v) && v.pc == Idle && v.job == Rest && v.own == Word(2, 0) && 2 in v.next && v.next[2] == 0
    ensures Arises(q) && Seen(q, v.(own := Word(0, 0), clients := v.clients + multiset{2}))
  {
    hide Arises, Seen, Turns;
    Mallocs(p, v);
    var v1 := v.(job := Want);
    q := Take1(p, 1, Malloc, v1);
    PopsHere(q, v1);
    q := Take1(q, 1, PopHere(0), v1.(pc := Take(TakeEnter(0))));
    TakeEnters(q, v1.(pc := Take(TakeEnter(0))));
    q := Take1(q, 1, Core(Go), v1.(pc := Take(TakeCheck(0))));
    TakeChecks(q, v1.(pc := Take(TakeCheck(0))));
    q := Take1(q, 1, Core(Go), v1.(pc := Take(TakeLoad(0))));
    TakeLoads(q, v1.(pc := Take(TakeLoad(0))));
    q := Take1(q, 1, Core(Go), v1.(pc := Take(TakeNext(0, 2))));
    TakeNexts(q, v1.(pc := Take(TakeNext(0, 2))), 2);
    q := Take1(q, 1, Core(Go), v1.(pc := Take(TakeStore(0, 2, 0))));
    TakeStores(q, v1.(pc := Take(TakeStore(0, 2, 0))), 2, 0);
    var v2 := v.(own := Word(0, 0), job := Got(2));
    q := Take1(q, 1, Core(Go), v2.(pc := Take(TakeCount(0))));
    TakeCounts(q, v2.(pc := Take(TakeCount(0))));
    q := Take1(q, 1, Core(Go), v2);
    Returns(q, v2, 2);
    q := Take1(q, 1, Return, v.(own := Word(0, 0), clients := v.clients + multiset{2}));
  }

  // ----- again and again -----

  lemma Round(p: Prog, n: nat) returns (q: Prog)
    requires Arises(p) && Seen(p, Cycle(n))
    ensures Arises(q) && Seen(q, Cycle(n + 2))
  {
    hide Arises, Seen, Turns;
    var v := Cycle(n);
    q := PopsOne(p, n);
    var v1 := v.(word := Word(0, (n + 1) % TAGS), version := n + 1, hint := false, clients := multiset{2} + multiset{1});
    q := FreesTo(q, v1, 1);
    assert multiset{2} + multiset{1} - multiset{1} == multiset{2};
    assert v1.next[1 := 0] == v1.next;
    NextTag(n + 1);
    assert Mailed(v1.(clients := multiset{2}), 1, Rest) == Cycle(n + 2);
  }

  lemma NextTag(n: nat)
    ensures (n % TAGS + 1) % TAGS == (n + 1) % TAGS
  {
  }

  /** An allocation finds its CPU's list empty and takes the one block from the transfer list. */
  lemma PopsOne(p: Prog, n: nat) returns (q: Prog)
    requires Arises(p) && Seen(p, Cycle(n))
    ensures Arises(q) && Seen(q, Cycle(n).(word := Word(0, (n + 1) % TAGS), version := n + 1, hint := false,
      clients := multiset{2} + multiset{1}))
  {
    hide Arises, Seen, Turns;
    var v0 := Cycle(n);
    q := EmptyHere(p, v0);
    var v := v0.(job := Seek(false));
    Steals(q, v);
    var v1 := v.(pc := Pop(PopLoad(LIST, false, 2)));
    q := Take1(q, 1, Steal(0, 2), v1);
    PopLoads(q, v1);
    var w1 := PopWalk(LIST, false, 2, v.word, One(1), n);
    q := Take1(q, 1, Core(Go), v.(pc := Pop(w1)));
    PopWalks(q, v.(pc := Pop(w1)), w1);
    var w2 := PopCas(LIST, false, 2, v.word, One(1), 0, n);
    q := Take1(q, 1, Core(Go), v.(pc := Pop(w2)));
    PopSwaps(q, v.(pc := Pop(w2)), w2);
    NextTag(n);
    var v2 := v0.(word := Word(0, (n + 1) % TAGS), version := n + 1, pc := Hint(ClearLoad(0)), job := Batch(One(1)));
    q := Take1(q, 1, Core(Go), v2);
    q := Clears(q, v2);
    var v3 := v2.(hint := false, pc := Idle);
    TakesOnly(q, v3, 1);
    q := Take1(q, 1, TakeOne, v3.(job := Clear(1)));
    q := HandsFirst(q, v3.(job := Clear(1)), 1);
    assert v3.next[1 := 0] == v3.next;
  }

  lemma {:induction false} Around(p: Prog, n: nat, rounds: nat) returns (q: Prog)
    requires Arises(p) && Seen(p, Cycle(n))
    ensures Arises(q) && Seen(q, Cycle(n + 2 * rounds))
    decreases rounds
  {
    hide Arises, Seen, Cycle;
    if rounds == 0 {
      q := p;
    } else {
      var r := Round(p, n);
      q := Around(r, n + 2, rounds - 1);
    }
  }

  // ----- the start and the end -----

  /** The lists of CPUs 0 and 1. */
  ghost function Lists(): (r: set<Loc>)
    ensures forall l :: l in r <==> l.cpu == 0 || l.cpu == 1
  {
    assert forall l: Loc :: l == Loc(l.cpu, l.kind) && (l.kind == Rseq || l.kind == Normal || l.kind == Trimmed);
    {Loc(0, Rseq), Loc(0, Normal), Loc(0, Trimmed), Loc(1, Rseq), Loc(1, Normal), Loc(1, Trimmed)}
  }

  ghost function Everywhere<T>(x: T): map<Loc, T> { map l | l in Lists() :: x }

  ghost function Start(): State {
    State(map[1 := 0, 2 := 0], Everywhere(Word(0, 0)), map[0 := 0, 1 := 0], map[0 := false, 1 := false],
          map[0 := 1, 1 := 0], [Idle, Idle], map[1 := Uncarved, 2 := Uncarved], Everywhere([]), Everywhere(0))
  }

  lemma StartSchedule()
    ensures SchedulerOk(map[0 := 1, 1 := 0], map[0 := 0, 1 := 0], 2) && BlocksOk(map[1 := 0, 2 := 0])
    ensures HasLists(Lists(), map[0 := 0, 1 := 0].Keys)
  {
    hide Lists;
  }

  lemma StartWellFormed()
    ensures WellFormed(Start())
  {
    hide Lists, SchedulerOk, BlocksOk, HasLists;
    StartSchedule();
    var s := Start();
    assert s.heads.Keys == Lists() && s.lists.Keys == Lists() && s.version.Keys == Lists();
    assert s.place.Keys == s.next.Keys && s.hint.Keys == s.usage.Keys;
  }

  ghost function Opened(): Prog { Prog(Start(), [Rest, Rest], multiset{}, {1, 2}) }

  lemma OpenedFresh()
    ensures Fresh(Opened())
  {
    hide Lists, WellFormed, OutsideOk;
    StartWellFormed();
    OpenedOutside();
  }

  lemma OpenedOutside()
    ensures OutsideOk(Opened())
  {
    hide Everywhere;
    assert Opened().core.place.Keys == {1, 2};
  }

  lemma Opens() returns (p: Prog)
    ensures Arises(p) && Seen(p, OPEN)
  {
    hide Lists, Fresh;
    OpenedFresh();
    assert LIST in Lists() && OWN in Lists() && OTHER in Lists();
    p := Opened();
    assert ComesFrom(p, p, []);
  }

  /** From a fresh start, with every other pop in time, a pop that is exactly 256 updates late still succeeds, and the
      list then leads to a block that a client has. */
  lemma BoundIsTight() returns (p: Prog)
    ensures Arises(p) && |p.core.threads| == 2 && p.core.threads[0] == Late() && VersionAt(p.core, LIST) == Late().pop.v + TAGS
    ensures Can(p, 0, Core(Go))
    ensures var q := Do(p, 0, Core(Go)); Chain(q.core.next, WordAt(q.core, LIST).ptr, [2]) && 2 in q.clients
  {
    hide Arises, Seen, Cycle, Parted, Both;
    var p0 := Opens();
    var p1 := First(p0);
    var p2 := Second(p1);
    var p3 := Third(p2);
    var p4 := Fourth(p3);
    var p5 := Fifth(p4);
    p := Around(p5, 4, 127);
    LateTakes(p);
  }

  lemma LateTakes(p: Prog)
    requires Seen(p, Cycle(258))
    ensures |p.core.threads| == 2 && p.core.threads[0] == Late() && VersionAt(p.core, LIST) == 258 && Can(p, 0, Core(Go))
    ensures var q := Do(p, 0, Core(Go)); Chain(q.core.next, WordAt(q.core, LIST).ptr, [2]) && 2 in q.clients
  {
    Up(p, 0);
    assert [2][1..] == [];
  }
}
