/** Operations that run from start to end with no other step in between. */
module CirculationSolo {
  import opened Numbers
  import opened Layout
  import opened Circulation
  import opened CirculationInv
  import opened CirculationKeeps
  import opened CirculationRun

  /** Every event of the run is an instruction of thread `u`. */
  ghost predicate Own(run: seq<Event>, u: nat) { forall i :: 0 <= i < |run| ==> run[i] == Event(u, Go) }

  /** From `s` to `s'` by instructions of `u` alone. */
  ghost predicate Leads(s: State, run: seq<Event>, u: nat, s': State) { Own(run, u) && Possible(s, run) && End(s, run) == s' }

  lemma Stays(s: State, u: nat)
    ensures Leads(s, [], u, s)
  {
  }

  /** One instruction more in front. */
  lemma Before(s: State, u: nat, mid: State, run: seq<Event>, s': State)
    requires Running(s, u) && u < |s.threads| && !s.threads[u].Idle? && InTime(s, u, Go) && Advance(s, u) == mid && Leads(mid, run, u, s')
    ensures Leads(s, [Event(u, Go)] + run, u, s')
  {
    hide Advance, InTime, Running;
    assert ([Event(u, Go)] + run)[1..] == run;
  }

  /** An instruction that writes no list word is in time. */
  lemma NotLate(s: State, u: nat)
    requires u < |s.threads| && !(s.threads[u].Pop? && s.threads[u].pop.PopCas?)
    ensures InTime(s, u, Go)
  {
  }

  lemma AtFacts(s: State, u: nat, pc: Pc)
    requires u < |s.threads|
    ensures
      var s' := At(s, u, pc);
      && |s'.threads| == |s.threads| && s'.threads[u] == pc && s'.on == s.on && s'.heads == s.heads && s'.lists == s.lists && s'.next == s.next
      && s'.place == s.place && s'.usage == s.usage && s'.hint == s.hint && s'.version == s.version
    ensures Running(s, u) ==> Running(At(s, u, pc), u)
  {
    if Running(s, u) {
      var c :| RunsOn(s, u, c);
      assert RunsOn(At(s, u, pc), u, c);
    }
  }

  lemma AtTwice(s: State, u: nat, pc: Pc, pc': Pc)
    requires u < |s.threads|
    ensures At(At(s, u, pc), u, pc') == At(s, u, pc')
  {
  }

  // ----- pop -----

  /** The list a pop of that CPU takes from: the normal one, or the trimmed one if that is empty. */
  ghost function Source(s: State, cpu: nat): Loc {
    if ListAt(s, Loc(cpu, Normal)) != [] then Loc(cpu, Normal) else Loc(cpu, Trimmed)
  }

  /** What a pop leaves: the first `batch` blocks of the list, or all of them, are in the hands of the thread. */
  ghost predicate PopDone(s: State, s': State, u: nat, l: Loc, batch: nat) {
    var xs := ListAt(s, l);
    var k := Min(batch, |xs|);
    && u < |s'.threads| && !s'.threads[u].Pop? && s'.next == s.next
    && (if xs == [] then s'.heads == s.heads && s'.lists == s.lists && s'.place == s.place
        else l in s'.lists && s'.lists == s.lists[l := xs[k..]] && s'.heads == s.heads[l := Pack(First(xs[k..], 0), WordAt(s, l))]
             && s'.place == Moved(s.place, xs[..k], Held(u)))
  }

  /** The registers of a pop that has walked `i` blocks of the list. */
  ghost function Walked(xs: seq<nat>, i: nat): Load
    requires 0 < i <= |xs|
  {
    Load(xs[0], xs[i - 1], i, xs[..i])
  }

  lemma CasTakes(s: State, u: nat, l: Loc, single: bool, batch: nat, i: nat) returns (run: seq<Event>, s': State)
    requires u < |s.threads| && Running(s, u) && 0 < i == Min(batch, |ListAt(s, l)|)
    requires var xs := ListAt(s, l); s.threads[u] == Pop(PopCas(l, single, batch, WordAt(s, l), Walked(xs, i), First(xs[i..], 0), VersionAt(s, l)))
    ensures Leads(s, run, u, s') && PopDone(s, s', u, l, batch)
  {
    var xs := ListAt(s, l);
    var pc := if First(xs[i..], 0) == 0 && !single then Hint(ClearLoad(l.cpu)) else Idle;
    s' := At(Popped(s, l, u, xs[..i], Pack(First(xs[i..], 0), WordAt(s, l))), u, pc);
    hide Running, Walked, Leads;
    Stays(s', u);
    Before(s, u, s', [], s');
    run := [Event(u, Go)] + [];
  }

  lemma {:induction false} Walks(s: State, u: nat, l: Loc, single: bool, batch: nat, i: nat) returns (run: seq<Event>, s': State)
    requires u < |s.threads| && Running(s, u) && 0 < i <= Min(batch, |ListAt(s, l)|) && 0 !in s.next
    requires Chain(s.next, WordAt(s, l).ptr, ListAt(s, l))
    requires s.threads[u] == Pop(PopWalk(l, single, batch, WordAt(s, l), Walked(ListAt(s, l), i), VersionAt(s, l)))
    ensures Leads(s, run, u, s') && PopDone(s, s', u, l, batch)
    decreases |ListAt(s, l)| - i
  {
    hide Running, Leads, PopDone, At, Chain;
    var xs := ListAt(s, l);
    WalkLink(s.next, WordAt(s, l).ptr, xs, i);
    NotLate(s, u);
    if i < batch && i < |xs| {
      var pc := Pop(PopWalk(l, single, batch, WordAt(s, l), Walked(xs, i + 1), VersionAt(s, l)));
      assert Longer(Walked(xs, i), xs[i]) == Walked(xs, i + 1) by { assert xs[..i] + [xs[i]] == xs[..i + 1]; }
      AtFacts(s, u, pc);
      var s1 := At(s, u, pc);
      run, s' := Walks(s1, u, l, single, batch, i + 1);
      SameSource(s, s1, s', u, l, batch);
      Before(s, u, s1, run, s');
      run := [Event(u, Go)] + run;
    } else {
      var pc := Pop(PopCas(l, single, batch, WordAt(s, l), Walked(xs, i), First(xs[i..], 0), VersionAt(s, l)));
      AtFacts(s, u, pc);
      var s1 := At(s, u, pc);
      run, s' := CasTakes(s1, u, l, single, batch, i);
      SameSource(s, s1, s', u, l, batch);
      Before(s, u, s1, run, s');
      run := [Event(u, Go)] + run;
    }
  }

  lemma WalkLink(next: map<nat, nat>, p: nat, xs: seq<nat>, i: nat)
    requires Chain(next, p, xs) && 0 < i <= |xs| && 0 !in next
    ensures xs[i - 1] in next && next[xs[i - 1]] == First(xs[i..], 0) && (i < |xs| ==> xs[i] != 0) && p == xs[0] != 0
  {
    SegmentAt(next, xs, i - 1, 0);
    SegmentIn(next, xs, 0);
  }

  /** Registers do not matter to what a pop leaves. */
  lemma SameSource(s: State, s1: State, s': State, u: nat, l: Loc, batch: nat)
    requires PopDone(s1, s', u, l, batch) && s1.heads == s.heads && s1.lists == s.lists && s1.next == s.next && s1.place == s.place
    ensures PopDone(s, s', u, l, batch)
  {
  }

  /** A pop from its first load on, at a list that is not empty. */
  lemma Loads(s: State, u: nat, l: Loc, single: bool, batch: nat) returns (run: seq<Event>, s': State)
    requires u < |s.threads| && Running(s, u) && 0 !in s.next && batch >= 1 && ListAt(s, l) != []
    requires Chain(s.next, WordAt(s, l).ptr, ListAt(s, l)) && s.threads[u] == Pop(PopLoad(l, single, batch))
    ensures Leads(s, run, u, s') && PopDone(s, s', u, l, batch)
  {
    hide Running, Leads, PopDone, At, Chain;
    var xs := ListAt(s, l);
    WalkLink(s.next, WordAt(s, l).ptr, xs, 1);
    NotLate(s, u);
    assert One(xs[0]) == Walked(xs, 1) by { assert xs[..1] == [xs[0]]; }
    var pc := Pop(PopWalk(l, single, batch, WordAt(s, l), Walked(xs, 1), VersionAt(s, l)));
    AtFacts(s, u, pc);
    var s1 := At(s, u, pc);
    run, s' := Walks(s1, u, l, single, batch, 1);
    SameSource(s, s1, s', u, l, batch);
    Before(s, u, s1, run, s');
    run := [Event(u, Go)] + run;
  }

  /** An empty list leads on to the trimmed one, or to the end. */
  lemma LoadsEmpty(s: State, u: nat, l: Loc, single: bool, batch: nat, pc: Pc)
    requires u < |s.threads| && Running(s, u) && ListAt(s, l) == [] && Chain(s.next, WordAt(s, l).ptr, ListAt(s, l))
    requires s.threads[u] == Pop(PopLoad(l, single, batch))
    requires pc == if l.kind.Normal? then Pop(PopLoad(Loc(l.cpu, Trimmed), single, batch)) else Hint(ClearLoad(l.cpu))
    ensures Advance(s, u) == At(s, u, pc) && InTime(s, u, Go)
  {
  }

  lemma PopsFrom(s: State, u: nat, cpu: nat, single: bool, batch: nat) returns (run: seq<Event>, s': State)
    requires Inv(s) && u < |s.threads| && Running(s, u) && batch >= 1 && s.threads[u] == Pop(PopLoad(Loc(cpu, Normal), single, batch))
    ensures Leads(s, run, u, s') && PopDone(s, s', u, Source(s, cpu), batch)
  {
    hide Inv, Running, Leads, PopDone, At, Chain, Advance, InTime;
    var normal, trimmed := Loc(cpu, Normal), Loc(cpu, Trimmed);
    ListFacts(s, normal);
    ListFacts(s, trimmed);
    if ListAt(s, normal) != [] {
      run, s' := Loads(s, u, normal, single, batch);
    } else {
      var pc := Pop(PopLoad(trimmed, single, batch));
      LoadsEmpty(s, u, normal, single, batch, pc);
      AtFacts(s, u, pc);
      var s1 := At(s, u, pc);
      if ListAt(s, trimmed) != [] {
        run, s' := Loads(s1, u, trimmed, single, batch);
        SameSource(s, s1, s', u, trimmed, batch);
      } else {
        LoadsEmpty(s1, u, trimmed, single, batch, Hint(ClearLoad(cpu)));
        AtFacts(s1, u, Hint(ClearLoad(cpu)));
        s' := At(s1, u, Hint(ClearLoad(cpu)));
        NothingDone(s, s', u, trimmed, batch);
        Stays(s', u);
        Before(s1, u, s', [], s');
        run := [Event(u, Go)] + [];
      }
      Before(s, u, s1, run, s');
      run := [Event(u, Go)] + run;
    }
  }

  lemma NothingDone(s: State, s': State, u: nat, l: Loc, batch: nat)
    requires ListAt(s, l) == [] && u < |s'.threads| && !s'.threads[u].Pop? && s'.next == s.next
    requires s'.heads == s.heads && s'.lists == s.lists && s'.place == s.place
    ensures PopDone(s, s', u, l, batch)
  {
  }

  lemma ListFacts(s: State, l: Loc)
    requires Inv(s)
    ensures Chain(s.next, WordAt(s, l).ptr, ListAt(s, l)) && 0 !in s.next
  {
    assert ListOk(s, l);
  }

  /** A pop that runs alone takes the first `batch` blocks of the CPU's normal list, or of its trimmed list if that is
      empty, or all of them if there are fewer; without a block only if both are empty.  Memory then holds the rest. */
  lemma SoloPop(s: State, u: nat, cpu: nat, single: bool, batch: nat) returns (run: seq<Event>, s': State)
    requires Inv(s) && Running(s, u) && Enabled(s, u, StartPop(cpu, single, batch))
    ensures
      var l := Source(s, cpu);
      var xs := ListAt(s, l);
      && Leads(Fire(s, u, StartPop(cpu, single, batch)), run, u, s') && PopDone(s, s', u, l, batch)
      && Chain(s.next, WordAt(s, l).ptr, xs) && Chain(s'.next, WordAt(s', l).ptr, xs[Min(batch, |xs|)..])
  {
    hide Inv, Running, Leads, PopDone, At, Chain;
    var s1 := Fire(s, u, StartPop(cpu, single, batch));
    StartInTime(s, u, cpu, single, batch);
    StepKeeps(s, u, StartPop(cpu, single, batch));
    AtFacts(s, u, Pop(PopLoad(Loc(cpu, Normal), single, batch)));
    run, s' := PopsFrom(s1, u, cpu, single, batch);
    SameSource(s, s1, s', u, Source(s, cpu), batch);
    LeadsInv(s1, run, u, s');
    ListFacts(s, Source(s, cpu));
    ListFacts(s', Source(s, cpu));
    RestListed(s, s', u, Source(s, cpu), batch);
  }

  lemma StartInTime(s: State, u: nat, cpu: nat, single: bool, batch: nat)
    requires u < |s.threads|
    ensures InTime(s, u, StartPop(cpu, single, batch))
  {
  }

  lemma RestListed(s: State, s': State, u: nat, l: Loc, batch: nat)
    requires PopDone(s, s', u, l, batch)
    ensures ListAt(s', l) == ListAt(s, l)[Min(batch, |ListAt(s, l)|)..]
  {
  }

  lemma LeadsInv(s: State, run: seq<Event>, u: nat, s': State)
    requires Inv(s) && Leads(s, run, u, s')
    ensures Inv(s')
  {
    hide Inv, Possible, End;
    RunKeeps(s, run);
  }

  // ----- push -----

  /** A chain has come in front of a list, and memory holds the whole. */
  ghost predicate PutInFront(s: State, s': State, u: nat, l: Loc, chain: seq<nat>) {
    && u < |s'.threads| && s'.threads[u] == Idle && Inv(s')
    && s'.lists == s.lists[l := chain + ListAt(s, l)] && s'.place == Moved(s.place, chain, In(l))
    && Chain(s'.next, WordAt(s', l).ptr, chain + ListAt(s, l))
  }

  /** The instructions up to the compare-and-swap. */
  lemma PushSwaps(s: State, u: nat, l: Loc, load: Load) returns (run: seq<Event>, s': State)
    requires u < |s.threads| && Running(s, u) && s.threads[u] == Push(PushLoad(l, load))
    ensures Leads(s, run, u, s') && u < |s'.threads| && Running(s', u)
    ensures s'.threads[u] == if WordAt(s, l).ptr == 0 then Hint(MarkLoad(l.cpu)) else Idle
    ensures s'.lists == s.lists[l := load.chain + ListAt(s, l)] && s'.place == Moved(s.place, load.chain, In(l)) && s'.hint == s.hint
  {
    hide Running, Leads, At;
    var word := WordAt(s, l);
    var pc1, pc2 := Push(PushLink(l, load, word)), Push(PushCas(l, load, word));
    var pc3 := if word.ptr == 0 then Hint(MarkLoad(l.cpu)) else Idle;
    var s1 := At(s, u, pc1);
    AtFacts(s, u, pc1);
    var linked := s1.(next := s1.next[load.tail := word.ptr]);
    SameRunning(s1, linked, u);
    var s2 := At(linked, u, pc2);
    AtFacts(linked, u, pc2);
    var pushed := Pushed(s2, l, load.chain, Pack(load.head, word));
    SameRunning(s2, pushed, u);
    s' := At(pushed, u, pc3);
    AtFacts(pushed, u, pc3);
    NotLate(s, u);
    NotLate(s1, u);
    NotLate(s2, u);
    Stays(s', u);
    Before(s2, u, s', [], s');
    Before(s1, u, s2, [Event(u, Go)] + [], s');
    run := [Event(u, Go)] + ([Event(u, Go)] + []);
    Before(s, u, s1, run, s');
    run := [Event(u, Go)] + run;
  }

  lemma SameRunning(s: State, s': State, u: nat)
    requires s'.on == s.on
    ensures Running(s, u) ==> Running(s', u)
  {
    if Running(s, u) {
      var c :| RunsOn(s, u, c);
      assert RunsOn(s', u, c);
    }
  }

  /** cpu_bit_set. */
  lemma Marks(s: State, u: nat, cpu: nat) returns (run: seq<Event>, s': State)
    requires u < |s.threads| && Running(s, u) && s.threads[u] == Hint(MarkLoad(cpu))
    ensures Leads(s, run, u, s') && u < |s'.threads| && s'.threads[u] == Idle && Hinted(s', cpu)
    ensures s'.lists == s.lists && s'.place == s.place && s'.heads == s.heads
  {
    hide Running, Leads, At;
    NotLate(s, u);
    if Hinted(s, cpu) {
      s' := At(s, u, Idle);
      AtFacts(s, u, Idle);
      Stays(s', u);
      Before(s, u, s', [], s');
      run := [Event(u, Go)] + [];
    } else {
      var s1 := At(s, u, Hint(MarkSet(cpu)));
      AtFacts(s, u, Hint(MarkSet(cpu)));
      var marked := s1.(hint := s1.hint[cpu := true]);
      s' := At(marked, u, Idle);
      AtFacts(marked, u, Idle);
      NotLate(s1, u);
      Stays(s', u);
      Before(s1, u, s', [], s');
      Before(s, u, s1, [Event(u, Go)] + [], s');
      run := [Event(u, Go)] + ([Event(u, Go)] + []);
    }
  }

  lemma {:induction false} Joined(s: State, run: seq<Event>, u: nat, mid: State, run': seq<Event>, s': State)
    requires Leads(s, run, u, mid) && Leads(mid, run', u, s')
    ensures Leads(s, run + run', u, s')
    decreases |run|
  {
    hide Enabled, Fire, InTime;
    if run == [] {
      assert run + run' == run';
    } else {
      Joined(Fire(s, u, Go), run[1..], u, mid, run', s');
      assert (run + run')[1..] == run[1..] + run';
    }
  }

  /** A push that runs alone puts its chain in front of the list, and leaves the hint set if the list was empty. */
  lemma SoloPush(s: State, u: nat, l: Loc, load: Load) returns (run: seq<Event>, s': State)
    requires Inv(s) && Running(s, u) && Enabled(s, u, StartPush(l, load))
    ensures Leads(Fire(s, u, StartPush(l, load)), run, u, s') && PutInFront(s, s', u, l, load.chain)
    ensures ListAt(s, l) == [] ==> Hinted(s', l.cpu)
  {
    hide Inv, Running, Leads, At, Chain, Loaded, Honest;
    var s1 := Fire(s, u, StartPush(l, load));
    StepKeeps(s, u, StartPush(l, load));
    AtFacts(s, u, Push(PushLoad(l, load)));
    ListFacts(s, l);
    EmptyWord(s, l);
    run, s' := PushSwaps(s1, u, l, load);
    if WordAt(s, l).ptr == 0 {
      var mid := s';
      var more;
      more, s' := Marks(mid, u, l.cpu);
      Joined(s1, run, u, mid, more, s');
      run := run + more;
    }
    LeadsInv(s1, run, u, s');
    ListFacts(s', l);
  }

  lemma EmptyWord(s: State, l: Loc)
    requires Chain(s.next, WordAt(s, l).ptr, ListAt(s, l)) && 0 !in s.next
    ensures WordAt(s, l).ptr == 0 <==> ListAt(s, l) == []
  {
    SegmentIn(s.next, ListAt(s, l), 0);
  }

  /** cpu_bit_clear and the recheck, alone: the hint then says whether the normal list has blocks. */
  lemma SoloClear(s: State, u: nat, cpu: nat) returns (run: seq<Event>, s': State)
    requires u < |s.threads| && Running(s, u) && s.threads[u] == Hint(ClearLoad(cpu))
    ensures Leads(s, run, u, s') && u < |s'.threads| && s'.threads[u] == Idle && s'.lists == s.lists && s'.heads == s.heads
    ensures Hinted(s', cpu) <==> WordAt(s, Loc(cpu, Normal)).ptr != 0
  {
    hide Running, Leads, At;
    NotLate(s, u);
    if Hinted(s, cpu) {
      var s1 := At(s, u, Hint(ClearSet(cpu)));
      AtFacts(s, u, Hint(ClearSet(cpu)));
      var cleared := s1.(hint := s1.hint[cpu := false]);
      SameRunning(s1, cleared, u);
      var s2 := At(cleared, u, Hint(Recheck(cpu)));
      AtFacts(cleared, u, Hint(Recheck(cpu)));
      NotLate(s1, u);
      run, s' := Rechecks(s2, u, cpu);
      Before(s1, u, s2, run, s');
      run := [Event(u, Go)] + run;
      Before(s, u, s1, run, s');
      run := [Event(u, Go)] + run;
    } else {
      var s1 := At(s, u, Hint(Recheck(cpu)));
      AtFacts(s, u, Hint(Recheck(cpu)));
      run, s' := Rechecks(s1, u, cpu);
      Before(s, u, s1, run, s');
      run := [Event(u, Go)] + run;
    }
  }

  lemma Rechecks(s: State, u: nat, cpu: nat) returns (run: seq<Event>, s': State)
    requires u < |s.threads| && Running(s, u) && s.threads[u] == Hint(Recheck(cpu)) && !Hinted(s, cpu)
    ensures Leads(s, run, u, s') && u < |s'.threads| && s'.threads[u] == Idle && s'.lists == s.lists && s'.heads == s.heads
    ensures Hinted(s', cpu) <==> WordAt(s, Loc(cpu, Normal)).ptr != 0
  {
    hide Running, Leads, At;
    NotLate(s, u);
    if WordAt(s, Loc(cpu, Normal)).ptr != 0 {
      var s1 := At(s, u, Hint(MarkLoad(cpu)));
      AtFacts(s, u, Hint(MarkLoad(cpu)));
      run, s' := Marks(s1, u, cpu);
      Before(s, u, s1, run, s');
      run := [Event(u, Go)] + run;
    } else {
      s' := At(s, u, Idle);
      AtFacts(s, u, Idle);
      Stays(s', u);
      Before(s, u, s', [], s');
      run := [Event(u, Go)] + [];
    }
  }

  // ----- detach -----

  /** A detach that runs alone takes the whole list. */
  lemma SoloDetach(s: State, u: nat, cpu: nat) returns (run: seq<Event>, s': State)
    requires Inv(s) && Running(s, u) && Enabled(s, u, StartDetach(cpu))
    ensures
      var l := Loc(cpu, Normal);
      && Leads(Fire(s, u, StartDetach(cpu)), run, u, s') && u < |s'.threads| && s'.threads[u] == Idle && Inv(s')
      && ListAt(s', l) == [] && WordAt(s', l).ptr == 0 && s'.next == s.next && s'.place == Moved(s.place, ListAt(s, l), Held(u))
  {
    hide Inv, Running, Leads, At, Chain;
    var l := Loc(cpu, Normal);
    var s1 := Fire(s, u, StartDetach(cpu));
    var word, xs := WordAt(s, l), ListAt(s, l);
    StepKeeps(s, u, StartDetach(cpu));
    AtFacts(s, u, Detach(DetachLoad(cpu)));
    ListFacts(s, l);
    EmptyWord(s, l);
    NotLate(s1, u);
    if xs == [] {
      s' := At(s1, u, Idle);
      AtFacts(s1, u, Idle);
      Stays(s', u);
      Before(s1, u, s', [], s');
      run := [Event(u, Go)] + [];
      assert Moved(s.place, [], Held(u)) == s.place;
    } else {
      var s2 := At(s1, u, Detach(DetachCas(cpu, word)));
      AtFacts(s1, u, Detach(DetachCas(cpu, word)));
      var taken := Popped(s2, l, u, xs, Pack(0, word));
      s' := At(taken, u, Idle);
      AtFacts(taken, u, Idle);
      NotLate(s2, u);
      Stays(s', u);
      Before(s2, u, s', [], s');
      Before(s1, u, s2, [Event(u, Go)] + [], s');
      run := [Event(u, Go)] + ([Event(u, Go)] + []);
    }
    LeadsInv(s1, run, u, s');
  }

  // ----- restartable sequences -----

  /** A restartable pop that is not interrupted takes the first block and counts it; an empty list changes nothing. */
  lemma SoloTake(s: State, u: nat, cpu: nat) returns (run: seq<Event>, s': State)
    requires Inv(s) && Enabled(s, u, StartTake(cpu))
    ensures
      var l := Loc(cpu, Rseq);
      var xs := ListAt(s, l);
      && Leads(Fire(s, u, StartTake(cpu)), run, u, s') && u < |s'.threads| && s'.threads[u] == Idle && Inv(s') && s'.next == s.next
      && if xs == [] then s' == s
         else s'.lists == s.lists[l := xs[1..]] && s'.place == Moved(s.place, [xs[0]], Held(u)) && Chain(s'.next, WordAt(s', l).ptr, xs[1..])
              && s'.usage == Counted(s, cpu, WRAP - 1).usage
  {
    hide Inv, Running, Leads, At, Chain;
    var s1 := Fire(s, u, StartTake(cpu));
    StepKeeps(s, u, StartTake(cpu));
    AtFacts(s, u, Take(TakeEnter(cpu)));
    assert Running(s, u) by { OnCpu(s, u, cpu); }
    ListFacts(s, Loc(cpu, Rseq));
    EmptyWord(s, Loc(cpu, Rseq));
    var s2, s3 := At(s, u, Take(TakeCheck(cpu))), At(s, u, Take(TakeLoad(cpu)));
    AtFacts(s, u, Take(TakeCheck(cpu)));
    AtFacts(s, u, Take(TakeLoad(cpu)));
    AtTwice(s, u, Take(TakeEnter(cpu)), Take(TakeCheck(cpu)));
    AtTwice(s, u, Take(TakeCheck(cpu)), Take(TakeLoad(cpu)));
    NotLate(s1, u);
    NotLate(s2, u);
    NotLate(s3, u);
    if ListAt(s, Loc(cpu, Rseq)) == [] {
      s' := s;
      AtTwice(s, u, Take(TakeLoad(cpu)), Idle);
      AtIdle(s, u);
      Stays(s', u);
      Before(s3, u, s', [], s');
      run := [Event(u, Go)] + [];
    } else {
      run, s' := Takes(s, s3, u, cpu);
    }
    Before(s2, u, s3, run, s');
    run := [Event(u, Go)] + run;
    Before(s1, u, s2, run, s');
    run := [Event(u, Go)] + run;
    LeadsInv(s1, run, u, s');
    ListFacts(s', Loc(cpu, Rseq));
  }

  lemma OnCpu(s: State, u: nat, cpu: nat)
    requires RunsOn(s, u, cpu)
    ensures Running(s, u)
  {
  }

  lemma AtIdle(s: State, u: nat)
    requires u < |s.threads| && s.threads[u] == Idle
    ensures At(s, u, Idle) == s
  {
    assert s.threads[u := Idle] == s.threads;
  }

  lemma Takes(s: State, s3: State, u: nat, cpu: nat) returns (run: seq<Event>, s': State)
    requires u < |s.threads| && Running(s, u) && s3 == At(s, u, Take(TakeLoad(cpu))) && 0 !in s.next
    requires var xs := ListAt(s, Loc(cpu, Rseq)); xs != [] && Chain(s.next, WordAt(s, Loc(cpu, Rseq)).ptr, xs)
    ensures
      var l := Loc(cpu, Rseq);
      var xs := ListAt(s, l);
      && Leads(s3, run, u, s') && u < |s'.threads| && s'.threads[u] == Idle && s'.next == s.next && s'.lists == s.lists[l := xs[1..]]
      && s'.place == Moved(s.place, [xs[0]], Held(u)) && s'.usage == Counted(s, cpu, WRAP - 1).usage
  {
    hide Running, Leads, At, Chain;
    var l := Loc(cpu, Rseq);
    var xs := ListAt(s, l);
    WalkLink(s.next, WordAt(s, l).ptr, xs, 1);
    var nx := First(xs[1..], 0);
    var pc4, pc5 := Take(TakeNext(cpu, xs[0])), Take(TakeStore(cpu, xs[0], nx));
    var s4, s5 := At(s, u, pc4), At(s, u, pc5);
    AtFacts(s, u, Take(TakeLoad(cpu)));
    AtFacts(s, u, pc4);
    AtFacts(s, u, pc5);
    AtTwice(s, u, Take(TakeLoad(cpu)), pc4);
    AtTwice(s, u, pc4, pc5);
    NotLate(s3, u);
    NotLate(s4, u);
    run, s' := TakeLast(s5, u, cpu, xs[0], nx);
    Before(s4, u, s5, run, s');
    run := [Event(u, Go)] + run;
    Before(s3, u, s4, run, s');
    run := [Event(u, Go)] + run;
  }

  lemma TakeLast(s: State, u: nat, cpu: nat, tmp: nat, nx: nat) returns (run: seq<Event>, s': State)
    requires u < |s.threads| && Running(s, u) && s.threads[u] == Take(TakeStore(cpu, tmp, nx)) && ListAt(s, Loc(cpu, Rseq)) != []
    ensures
      var l := Loc(cpu, Rseq);
      && Leads(s, run, u, s') && u < |s'.threads| && s'.threads[u] == Idle && s'.next == s.next && s'.lists == s.lists[l := ListAt(s, l)[1..]]
      && s'.place == Moved(s.place, [tmp], Held(u)) && s'.usage == Counted(s, cpu, WRAP - 1).usage
  {
    hide Running, Leads, At, Moved;
    var taken := Popped(s, Loc(cpu, Rseq), u, [tmp], Word(nx, 0));
    SameRunning(s, taken, u);
    var s1 := At(taken, u, Take(TakeCount(cpu)));
    AtFacts(taken, u, Take(TakeCount(cpu)));
    var counted := Counted(s1, cpu, WRAP - 1);
    s' := At(counted, u, Idle);
    AtFacts(counted, u, Idle);
    NotLate(s, u);
    NotLate(s1, u);
    Stays(s', u);
    Before(s1, u, s', [], s');
    run := [Event(u, Go)] + [];
    Before(s, u, s1, run, s');
    run := [Event(u, Go)] + run;
  }

  lemma GiveLast(s: State, u: nat, cpu: nat, load: Load, tmp: nat) returns (run: seq<Event>, s': State)
    requires u < |s.threads| && Running(s, u) && s.threads[u] == Give(GiveStore(cpu, load, tmp))
    ensures
      var l := Loc(cpu, Rseq);
      && Leads(s, run, u, s') && u < |s'.threads| && s'.threads[u] == Idle && s'.lists == s.lists[l := load.chain + ListAt(s, l)]
      && s'.place == Moved(s.place, load.chain, In(l)) && s'.usage == Counted(s, cpu, load.count).usage
  {
    hide Running, Leads, At, Moved;
    var given := Pushed(s, Loc(cpu, Rseq), load.chain, Word(load.head, 0));
    SameRunning(s, given, u);
    var s1 := At(given, u, Give(GiveCount(cpu, load.count)));
    AtFacts(given, u, Give(GiveCount(cpu, load.count)));
    var counted := Counted(s1, cpu, load.count);
    s' := At(counted, u, Idle);
    AtFacts(counted, u, Idle);
    NotLate(s, u);
    NotLate(s1, u);
    Stays(s', u);
    Before(s1, u, s', [], s');
    run := [Event(u, Go)] + [];
    Before(s, u, s1, run, s');
    run := [Event(u, Go)] + run;
  }

  /** A restartable push that is not interrupted puts its chain in front of the CPU's list and counts it. */
  lemma SoloGive(s: State, u: nat, cpu: nat, load: Load) returns (run: seq<Event>, s': State)
    requires Inv(s) && Enabled(s, u, StartGive(cpu, load))
    ensures Leads(Fire(s, u, StartGive(cpu, load)), run, u, s') && PutInFront(s, s', u, Loc(cpu, Rseq), load.chain)
    ensures s'.usage == Counted(s, cpu, load.count).usage
  {
    hide Inv, Running, Leads, At, Chain, Loaded, Honest;
    var s1 := Fire(s, u, StartGive(cpu, load));
    StepKeeps(s, u, StartGive(cpu, load));
    AtFacts(s, u, Give(GiveEnter(cpu, load)));
    assert Running(s, u) by { OnCpu(s, u, cpu); }
    var s2, s3 := At(s, u, Give(GiveCheck(cpu, load))), At(s, u, Give(GiveLoad(cpu, load)));
    AtFacts(s, u, Give(GiveCheck(cpu, load)));
    AtFacts(s, u, Give(GiveLoad(cpu, load)));
    AtTwice(s, u, Give(GiveEnter(cpu, load)), Give(GiveCheck(cpu, load)));
    AtTwice(s, u, Give(GiveCheck(cpu, load)), Give(GiveLoad(cpu, load)));
    NotLate(s1, u);
    NotLate(s2, u);
    run, s' := Gives(s, s3, u, cpu, load);
    Before(s2, u, s3, run, s');
    run := [Event(u, Go)] + run;
    Before(s1, u, s2, run, s');
    run := [Event(u, Go)] + run;
    LeadsInv(s1, run, u, s');
    ListFacts(s', Loc(cpu, Rseq));
  }

  lemma Gives(s: State, s3: State, u: nat, cpu: nat, load: Load) returns (run: seq<Event>, s': State)
    requires u < |s.threads| && Running(s, u) && s3 == At(s, u, Give(GiveLoad(cpu, load)))
    ensures
      var l := Loc(cpu, Rseq);
      && Leads(s3, run, u, s') && u < |s'.threads| && s'.threads[u] == Idle && s'.lists == s.lists[l := load.chain + ListAt(s, l)]
      && s'.place == Moved(s.place, load.chain, In(l)) && s'.usage == Counted(s, cpu, load.count).usage
  {
    hide Running, Leads, At;
    var l := Loc(cpu, Rseq);
    var tmp := WordAt(s, l).ptr;
    var pc4, pc5 := Give(GiveLink(cpu, load, tmp)), Give(GiveStore(cpu, load, tmp));
    var s4 := At(s, u, pc4);
    AtFacts(s, u, Give(GiveLoad(cpu, load)));
    AtFacts(s, u, pc4);
    AtTwice(s, u, Give(GiveLoad(cpu, load)), pc4);
    var linked := s4.(next := s4.next[load.tail := tmp]);
    SameRunning(s4, linked, u);
    var s5 := At(linked, u, pc5);
    AtFacts(linked, u, pc5);
    NotLate(s3, u);
    NotLate(s4, u);
    run, s' := GiveLast(s5, u, cpu, load, tmp);
    Before(s4, u, s5, run, s');
    run := [Event(u, Go)] + run;
    Before(s3, u, s4, run, s');
    run := [Event(u, Go)] + run;
  }
}
