/** Allocation and free of a thread that nobody interrupts. */
module ProgramSolo {
  import opened Layout
  import opened Circulation
  import opened CirculationInv
  import CirculationRun
  import opened CirculationSolo
  import opened Program
  import opened ProgramInv
  import opened ProgramRun

  /** From `p` to `q` by steps of thread `u` alone. */
  ghost predicate Brings(p: Prog, run: seq<Turn>, u: nat, q: Prog) {
    (forall i :: 0 <= i < |run| ==> run[i].thread == u) && Runs(p, run) && Final(p, run) == q
  }

  lemma Here(p: Prog, u: nat)
    ensures Brings(p, [], u, p)
  {
  }

  lemma First(p: Prog, u: nat, step: Step, mid: Prog, run: seq<Turn>, q: Prog)
    requires Can(p, u, step) && Timely(p, u, step) && Do(p, u, step) == mid && Brings(mid, run, u, q)
    ensures Brings(p, [Turn(u, step)] + run, u, q)
  {
    hide Can, Do, Timely;
    assert ([Turn(u, step)] + run)[1..] == run;
  }

  lemma {:induction false} Then(p: Prog, run: seq<Turn>, u: nat, mid: Prog, run': seq<Turn>, q: Prog)
    requires Brings(p, run, u, mid) && Brings(mid, run', u, q)
    ensures Brings(p, run + run', u, q)
    decreases |run|
  {
    hide Can, Do, Timely;
    if run == [] {
      assert run + run' == run';
    } else {
      Then(Do(p, u, run[0].step), run[1..], u, mid, run', q);
      assert (run + run')[1..] == run[1..] + run';
    }
  }

  /** The program with the core and the job of one thread replaced. */
  ghost function With(p: Prog, u: nat, core: State, job: Job): Prog
    requires u < |p.jobs|
  {
    p.(core := core, jobs := p.jobs[u := job])
  }

  /** One instruction of the core. */
  lemma Instruction(p: Prog, u: nat, core: State, job: Job, core': State, job': Job, run: seq<Turn>, q: Prog)
    requires u < |p.jobs| == |core.threads| && Running(core, u) && !core.threads[u].Idle? && !core.threads[u].Pop?
    requires Advance(core, u) == core' && Deliver(core, u, Go, job) == job' && Brings(With(p, u, core', job'), run, u, q)
    ensures Brings(With(p, u, core, job), [Turn(u, Core(Go))] + run, u, q)
  {
    hide Advance, Deliver, Running, Brings;
    var p1 := With(p, u, core, job);
    assert p.jobs[u := job][u := job'] == p.jobs[u := job'];
    First(p1, u, Core(Go), With(p, u, core', job'), run, q);
  }

  lemma NoDelivery(core: State, u: nat, job: Job)
    requires u < |core.threads|
    requires core.threads[u].Take? ==> !core.threads[u].take.TakeStore? && !core.threads[u].take.TakeLoad?
    requires core.threads[u].Take? || (core.threads[u].Give? && !core.threads[u].give.GiveCheck?)
    ensures Deliver(core, u, Go, job) == job
  {
  }

  // ----- malloc -----

  /** The core when the restartable pop is over. */
  ghost function Took(s: State, u: nat, cpu: nat, b: nat, nx: nat): State
    requires u < |s.threads|
  {
    At(Counted(At(Popped(At(s, u, Take(TakeStore(cpu, b, nx))), Loc(cpu, Rseq), u, [b], Word(nx, 0)), u, Take(TakeCount(cpu))), cpu, WRAP - 1),
       u, Idle)
  }

  /** The last two instructions of the restartable pop. */
  lemma TakeLastJob(p: Prog, u: nat, cpu: nat, b: nat, nx: nat, s: State) returns (run: seq<Turn>)
    requires u < |p.jobs| == |s.threads| && Running(s, u)
    ensures Brings(With(p, u, At(s, u, Take(TakeStore(cpu, b, nx))), Want), run, u, With(p, u, Took(s, u, cpu, b, nx), Got(b)))
  {
    hide Running, Brings, At, With;
    var pc5, pc6 := Take(TakeStore(cpu, b, nx)), Take(TakeCount(cpu));
    var s5 := At(s, u, pc5);
    AtFacts(s, u, pc5);
    var taken := Popped(s5, Loc(cpu, Rseq), u, [b], Word(nx, 0));
    SameRunning(s5, taken, u);
    var s6 := At(taken, u, pc6);
    AtFacts(taken, u, pc6);
    var counted := Counted(s6, cpu, WRAP - 1);
    AtFacts(counted, u, Idle);
    var q := With(p, u, Took(s, u, cpu, b, nx), Got(b));
    Here(q, u);
    Instruction(p, u, s6, Got(b), At(counted, u, Idle), Got(b), [], q);
    Instruction(p, u, s5, Want, s6, Got(b), [Turn(u, Core(Go))] + [], q);
    run := [Turn(u, Core(Go))] + ([Turn(u, Core(Go))] + []);
  }

  lemma EnterChecks(s: State, u: nat, cpu: nat)
    requires u < |s.threads| && RunsOn(s, u, cpu)
    ensures Advance(At(s, u, Take(TakeEnter(cpu))), u) == At(s, u, Take(TakeCheck(cpu)))
    ensures Advance(At(s, u, Take(TakeCheck(cpu))), u) == At(s, u, Take(TakeLoad(cpu)))
  {
    hide At;
    AtFacts(s, u, Take(TakeEnter(cpu)));
    AtFacts(s, u, Take(TakeCheck(cpu)));
    AtTwice(s, u, Take(TakeEnter(cpu)), Take(TakeCheck(cpu)));
    AtTwice(s, u, Take(TakeCheck(cpu)), Take(TakeLoad(cpu)));
  }

  lemma LoadNext(s: State, u: nat, cpu: nat, b: nat)
    requires u < |s.threads| && WordAt(s, Loc(cpu, Rseq)).ptr == b != 0
    ensures Advance(At(s, u, Take(TakeLoad(cpu))), u) == At(s, u, Take(TakeNext(cpu, b)))
    ensures Advance(At(s, u, Take(TakeNext(cpu, b))), u) == At(s, u, Take(TakeStore(cpu, b, NextOf(s, b))))
    ensures Deliver(At(s, u, Take(TakeLoad(cpu))), u, Go, Want) == Want
  {
    hide At;
    AtFacts(s, u, Take(TakeLoad(cpu)));
    AtFacts(s, u, Take(TakeNext(cpu, b)));
    AtTwice(s, u, Take(TakeLoad(cpu)), Take(TakeNext(cpu, b)));
    AtTwice(s, u, Take(TakeNext(cpu, b)), Take(TakeStore(cpu, b, NextOf(s, b))));
  }

  lemma TakeJob(p: Prog, u: nat, cpu: nat, b: nat, s: State) returns (run: seq<Turn>)
    requires u < |p.jobs| == |s.threads| && RunsOn(s, u, cpu) && WordAt(s, Loc(cpu, Rseq)).ptr == b != 0
    ensures Brings(With(p, u, At(s, u, Take(TakeEnter(cpu))), Want), run, u, With(p, u, Took(s, u, cpu, b, NextOf(s, b)), Got(b)))
  {
    hide Running, Brings, At, With, Took, Advance, Deliver;
    OnCpu(s, u, cpu);
    var pc1, pc2, pc3, pc4 := Take(TakeEnter(cpu)), Take(TakeCheck(cpu)), Take(TakeLoad(cpu)), Take(TakeNext(cpu, b));
    var q := With(p, u, Took(s, u, cpu, b, NextOf(s, b)), Got(b));
    AtFacts(s, u, pc1);
    AtFacts(s, u, pc2);
    AtFacts(s, u, pc3);
    AtFacts(s, u, pc4);
    EnterChecks(s, u, cpu);
    LoadNext(s, u, cpu, b);
    run := TakeLastJob(p, u, cpu, b, NextOf(s, b), s);
    NoDelivery(At(s, u, pc4), u, Want);
    Instruction(p, u, At(s, u, pc4), Want, At(s, u, Take(TakeStore(cpu, b, NextOf(s, b)))), Want, run, q);
    run := [Turn(u, Core(Go))] + run;
    Instruction(p, u, At(s, u, pc3), Want, At(s, u, pc4), Want, run, q);
    run := [Turn(u, Core(Go))] + run;
    NoDelivery(At(s, u, pc2), u, Want);
    Instruction(p, u, At(s, u, pc2), Want, At(s, u, pc3), Want, run, q);
    run := [Turn(u, Core(Go))] + run;
    NoDelivery(At(s, u, pc1), u, Want);
    Instruction(p, u, At(s, u, pc1), Want, At(s, u, pc2), Want, run, q);
    run := [Turn(u, Core(Go))] + run;
  }

  /** The thread is in client code on that CPU. */
  ghost predicate AtRest(p: Prog, u: nat, cpu: nat) {
    u < |p.jobs| == |p.core.threads| && p.core.threads[u] == Idle && p.jobs[u] == Rest && RunsOn(p.core, u, cpu)
  }

  /** malloc on a CPU whose list has blocks, not interrupted: the client gets the first one, and the list has the rest. */
  lemma SoloMalloc(p: Prog, u: nat, cpu: nat) returns (run: seq<Turn>, q: Prog)
    requires ProgInv(p) && AtRest(p, u, cpu) && ListAt(p.core, Loc(cpu, Rseq)) != []
    ensures
      var l := Loc(cpu, Rseq);
      var xs := ListAt(p.core, l);
      && Brings(p, run, u, q) && AtRest(q, u, cpu) && q.clients == p.clients + multiset{xs[0]} && q.raw == p.raw
      && q.core.lists == p.core.lists[l := xs[1..]] && q.core.usage == Counted(p.core, cpu, WRAP - 1).usage
      && q.core.place == p.core.place[xs[0] := Live]
  {
    hide ProgInv, Brings, At, With, Took, Running;
    var l := Loc(cpu, Rseq);
    var s, xs := p.core, ListAt(p.core, l);
    var b := xs[0];
    FirstListed(p, l);
    var core' := Took(s, u, cpu, b, NextOf(s, b));
    TookFacts(s, u, cpu, b, NextOf(s, b));
    var p1, p2, p3 := With(p, u, s, Want), With(p, u, At(s, u, Take(TakeEnter(cpu))), Want), With(p, u, core', Got(b));
    q := p.(core := core'.(place := core'.place[b := Live]), clients := p.clients + multiset{b});
    WithFacts(p, u, s, Want);
    WithFacts(p, u, core', Got(b));
    AtFacts(s, u, Take(TakeEnter(cpu)));
    assert p.jobs[u := Got(b)][u := Rest] == p.jobs;
    assert p.jobs[u := Want][u := Want] == p.jobs[u := Want];
    Here(q, u);
    First(p3, u, Return, q, [], q);
    var more := TakeJob(p, u, cpu, b, s);
    Then(p2, more, u, p3, [Turn(u, Return)] + [], q);
    run := more + ([Turn(u, Return)] + []);
    BeginTake(p, u, cpu);
    First(p1, u, PopHere(cpu), p2, run, q);
    run := [Turn(u, PopHere(cpu))] + run;
    First(p, u, Malloc, p1, run, q);
    run := [Turn(u, Malloc)] + run;
  }

  lemma WithFacts(p: Prog, u: nat, core: State, job: Job)
    requires u < |p.jobs|
    ensures var q := With(p, u, core, job);
      q.core == core && q.jobs == p.jobs[u := job] && q.clients == p.clients && q.raw == p.raw
    ensures With(p, u, core, job) == Put(p, u, core, job)
  {
  }

  lemma BeginTake(p: Prog, u: nat, cpu: nat)
    requires u < |p.jobs| == |p.core.threads|
    ensures Begin(With(p, u, p.core, Want), u, Take(TakeEnter(cpu)), Want) == With(p, u, At(p.core, u, Take(TakeEnter(cpu))), Want)
  {
    assert p.jobs[u := Want][u := Want] == p.jobs[u := Want];
  }

  lemma FirstListed(p: Prog, l: Loc)
    requires ProgInv(p) && ListAt(p.core, l) != []
    ensures var b := ListAt(p.core, l)[0]; WordAt(p.core, l).ptr == b != 0 && b in p.core.place
  {
    hide JobsOk, OutsideOk;
    ListFacts(p.core, l);
    EmptyWord(p.core, l);
    assert ListOk(p.core, l);
  }

  lemma TookFacts(s: State, u: nat, cpu: nat, b: nat, nx: nat)
    requires u < |s.threads| && s.threads[u] == Idle && RunsOn(s, u, cpu) && ListAt(s, Loc(cpu, Rseq)) != [] && b in s.place
    ensures
      var s' := Took(s, u, cpu, b, nx);
      var l := Loc(cpu, Rseq);
      && s'.threads == s.threads && RunsOn(s', u, cpu) && s'.lists == s.lists[l := ListAt(s, l)[1..]]
      && s'.usage == Counted(s, cpu, WRAP - 1).usage && s'.place[b := Live] == s.place[b := Live]
  {
    assert s.threads[u := Take(TakeStore(cpu, b, nx))][u := Take(TakeCount(cpu))][u := Idle] == s.threads;
  }

  // ----- free -----

  /** The core in front of the final store of a restartable push of one block. */
  ghost function Linked(s: State, u: nat, cpu: nat, b: nat): State
    requires u < |s.threads|
  {
    var tmp := WordAt(s, Loc(cpu, Rseq)).ptr;
    var s4 := At(s, u, Give(GiveLink(cpu, One(b), tmp)));
    At(s4.(next := s4.next[b := tmp]), u, Give(GiveStore(cpu, One(b), tmp)))
  }

  /** The core when it is over. */
  ghost function Gave(s: State, u: nat, cpu: nat, b: nat): State
    requires u < |s.threads|
  {
    At(Counted(At(Pushed(Linked(s, u, cpu, b), Loc(cpu, Rseq), [b], Word(b, 0)), u, Give(GiveCount(cpu, 1))), cpu, 1), u, Idle)
  }

  lemma GiveLastJob(p: Prog, u: nat, cpu: nat, b: nat, s: State) returns (run: seq<Turn>)
    requires u < |p.jobs| == |s.threads| && Running(s, u)
    ensures Brings(With(p, u, Linked(s, u, cpu, b), Rest), run, u, With(p, u, Gave(s, u, cpu, b), Rest))
  {
    hide Running, Brings, At, With, Deliver;
    var s5 := Linked(s, u, cpu, b);
    LinkedFacts(s, u, cpu, b);
    var given := Pushed(s5, Loc(cpu, Rseq), [b], Word(b, 0));
    SameRunning(s5, given, u);
    var s6 := At(given, u, Give(GiveCount(cpu, 1)));
    AtFacts(given, u, Give(GiveCount(cpu, 1)));
    var counted := Counted(s6, cpu, 1);
    AtFacts(counted, u, Idle);
    var q := With(p, u, Gave(s, u, cpu, b), Rest);
    Here(q, u);
    NoDelivery(s6, u, Rest);
    Instruction(p, u, s6, Rest, At(counted, u, Idle), Rest, [], q);
    NoDelivery(s5, u, Rest);
    Instruction(p, u, s5, Rest, s6, Rest, [Turn(u, Core(Go))] + [], q);
    run := [Turn(u, Core(Go))] + ([Turn(u, Core(Go))] + []);
  }

  lemma LinkedFacts(s: State, u: nat, cpu: nat, b: nat)
    requires u < |s.threads|
    ensures
      var s' := Linked(s, u, cpu, b);
      |s'.threads| == |s.threads| && s'.threads[u] == Give(GiveStore(cpu, One(b), WordAt(s, Loc(cpu, Rseq)).ptr)) && s'.on == s.on
    ensures Running(s, u) ==> Running(Linked(s, u, cpu, b), u)
  {
    hide Running;
    SameRunning(s, Linked(s, u, cpu, b), u);
  }

  lemma GiveChecks(s: State, u: nat, cpu: nat, b: nat)
    requires u < |s.threads| && RunsOn(s, u, cpu)
    ensures Advance(At(s, u, Give(GiveEnter(cpu, One(b)))), u) == At(s, u, Give(GiveCheck(cpu, One(b))))
    ensures Advance(At(s, u, Give(GiveCheck(cpu, One(b)))), u) == At(s, u, Give(GiveLoad(cpu, One(b))))
    ensures Deliver(At(s, u, Give(GiveCheck(cpu, One(b)))), u, Go, Rest) == Rest
  {
    hide At;
    AtFacts(s, u, Give(GiveEnter(cpu, One(b))));
    AtFacts(s, u, Give(GiveCheck(cpu, One(b))));
    AtTwice(s, u, Give(GiveEnter(cpu, One(b))), Give(GiveCheck(cpu, One(b))));
    AtTwice(s, u, Give(GiveCheck(cpu, One(b))), Give(GiveLoad(cpu, One(b))));
  }

  lemma GiveLoads(s: State, u: nat, cpu: nat, b: nat)
    requires u < |s.threads|
    ensures
      var tmp := WordAt(s, Loc(cpu, Rseq)).ptr;
      && Advance(At(s, u, Give(GiveLoad(cpu, One(b)))), u) == At(s, u, Give(GiveLink(cpu, One(b), tmp)))
      && Advance(At(s, u, Give(GiveLink(cpu, One(b), tmp))), u) == Linked(s, u, cpu, b)
  {
    hide At;
    var tmp := WordAt(s, Loc(cpu, Rseq)).ptr;
    AtFacts(s, u, Give(GiveLoad(cpu, One(b))));
    AtFacts(s, u, Give(GiveLink(cpu, One(b), tmp)));
    AtTwice(s, u, Give(GiveLoad(cpu, One(b))), Give(GiveLink(cpu, One(b), tmp)));
  }

  lemma GiveJob(p: Prog, u: nat, cpu: nat, b: nat, s: State) returns (run: seq<Turn>)
    requires u < |p.jobs| == |s.threads| && RunsOn(s, u, cpu)
    ensures Brings(With(p, u, At(s, u, Give(GiveEnter(cpu, One(b)))), Rest), run, u, With(p, u, Gave(s, u, cpu, b), Rest))
  {
    hide Running, Brings, At, With, Gave, Linked, Advance, Deliver;
    OnCpu(s, u, cpu);
    var tmp := WordAt(s, Loc(cpu, Rseq)).ptr;
    var pc1, pc2, pc3 := Give(GiveEnter(cpu, One(b))), Give(GiveCheck(cpu, One(b))), Give(GiveLoad(cpu, One(b)));
    var pc4 := Give(GiveLink(cpu, One(b), tmp));
    var q := With(p, u, Gave(s, u, cpu, b), Rest);
    AtFacts(s, u, pc1);
    AtFacts(s, u, pc2);
    AtFacts(s, u, pc3);
    AtFacts(s, u, pc4);
    GiveChecks(s, u, cpu, b);
    GiveLoads(s, u, cpu, b);
    run := GiveLastJob(p, u, cpu, b, s);
    NoDelivery(At(s, u, pc4), u, Rest);
    Instruction(p, u, At(s, u, pc4), Rest, Linked(s, u, cpu, b), Rest, run, q);
    run := [Turn(u, Core(Go))] + run;
    NoDelivery(At(s, u, pc3), u, Rest);
    Instruction(p, u, At(s, u, pc3), Rest, At(s, u, pc4), Rest, run, q);
    run := [Turn(u, Core(Go))] + run;
    Instruction(p, u, At(s, u, pc2), Rest, At(s, u, pc3), Rest, run, q);
    run := [Turn(u, Core(Go))] + run;
    NoDelivery(At(s, u, pc1), u, Rest);
    Instruction(p, u, At(s, u, pc1), Rest, At(s, u, pc2), Rest, run, q);
    run := [Turn(u, Core(Go))] + run;
  }

  lemma GaveFacts(s: State, u: nat, cpu: nat, b: nat)
    requires u < |s.threads| && s.threads[u] == Idle && RunsOn(s, u, cpu) && b in s.place
    ensures
      var s' := Gave(s, u, cpu, b);
      var l := Loc(cpu, Rseq);
      && s'.threads == s.threads && RunsOn(s', u, cpu) && s'.lists == s.lists[l := [b] + ListAt(s, l)]
      && s'.usage == Counted(s, cpu, 1).usage && s'.place == s.place[b := In(l)]
  {
    var tmp := WordAt(s, Loc(cpu, Rseq)).ptr;
    assert s.threads[u := Give(GiveLink(cpu, One(b), tmp))][u := Give(GiveStore(cpu, One(b), tmp))][u := Give(GiveCount(cpu, 1))][u := Idle] == s.threads;
    assert Moved(s.place, [b], In(Loc(cpu, Rseq))) == s.place[b := In(Loc(cpu, Rseq))];
  }

  /** free on a CPU, not interrupted: the block comes in front of the CPU's list. */
  lemma SoloFree(p: Prog, u: nat, cpu: nat, b: nat) returns (run: seq<Turn>, q: Prog)
    requires ProgInv(p) && AtRest(p, u, cpu) && b in p.clients
    ensures
      var l := Loc(cpu, Rseq);
      && Brings(p, run, u, q) && AtRest(q, u, cpu) && q.clients == p.clients - multiset{b} && q.raw == p.raw
      && q.core.lists == p.core.lists[l := [b] + ListAt(p.core, l)] && q.core.usage == Counted(p.core, cpu, 1).usage
      && q.core.place == p.core.place[b := In(l)]
  {
    hide ProgInv, Brings, At, With, Gave, Running;
    ClientPlaced(p, b);
    var s := p.core.(place := p.core.place[b := Held(u)]);
    var p0 := p.(clients := p.clients - multiset{b});
    var p1, p2 := With(p0, u, s, Store(One(b), Rest)), With(p0, u, At(s, u, Give(GiveEnter(cpu, One(b)))), Rest);
    GaveFacts(s, u, cpu, b);
    WithFacts(p0, u, s, Store(One(b), Rest));
    WithFacts(p0, u, Gave(s, u, cpu, b), Rest);
    assert p0.jobs[u := Rest] == p0.jobs;
    q := With(p0, u, Gave(s, u, cpu, b), Rest);
    run := GiveJob(p0, u, cpu, b, s);
    BeginGive(p0, u, cpu, b, s);
    First(p1, u, PutHere(cpu), p2, run, q);
    run := [Turn(u, PutHere(cpu))] + run;
    First(p, u, Free(b), p1, run, q);
    run := [Turn(u, Free(b))] + run;
  }

  lemma BeginGive(p: Prog, u: nat, cpu: nat, b: nat, s: State)
    requires u < |p.jobs| == |s.threads|
    ensures Begin(With(p, u, s, Store(One(b), Rest)), u, Give(GiveEnter(cpu, One(b))), Rest) == With(p, u, At(s, u, Give(GiveEnter(cpu, One(b)))), Rest)
  {
    assert p.jobs[u := Store(One(b), Rest)][u := Rest] == p.jobs[u := Rest];
  }

  lemma ClientPlaced(p: Prog, b: nat)
    requires ProgInv(p) && b in p.clients
    ensures b in p.core.place
  {
    hide JobsOk, Inv;
  }

  /** A free and the next allocation on the same CPU, not interrupted, give the block back to the client, and every list
      is as before. */
  lemma FreeThenMalloc(p: Prog, u: nat, cpu: nat, b: nat) returns (run: seq<Turn>, q: Prog)
    requires Arises(p) && AtRest(p, u, cpu) && b in p.clients
    ensures Brings(p, run, u, q) && AtRest(q, u, cpu) && q.clients == p.clients && q.raw == p.raw
    ensures q.core.place == p.core.place[b := Live] && forall l :: ListAt(q.core, l) == ListAt(p.core, l)
  {
    hide ProgInv, Arises, Brings, AtRest, Counted, CirculationRun.Reachable;
    Refines(p);
    var l := Loc(cpu, Rseq);
    var xs := ListAt(p.core, l);
    var run1, mid := SoloFree(p, u, cpu, b);
    StillInv(p, run1, u, mid);
    assert ListAt(mid.core, l) == [b] + xs && ([b] + xs)[1..] == xs;
    var run2;
    run2, q := SoloMalloc(mid, u, cpu);
    Then(p, run1, u, mid, run2, q);
    run := run1 + run2;
    ListsBack(p.core, q.core, l, b);
    assert p.clients - multiset{b} + multiset{b} == p.clients;
  }

  lemma ListsBack(s: State, s': State, l: Loc, b: nat)
    requires s'.lists == s.lists[l := [b] + ListAt(s, l)][l := ListAt(s, l)]
    ensures forall k :: ListAt(s', k) == ListAt(s, k)
  {
  }

  lemma StillInv(p: Prog, run: seq<Turn>, u: nat, q: Prog)
    requires ProgInv(p) && CirculationRun.Reachable(p.core) && Brings(p, run, u, q)
    ensures ProgInv(q)
  {
    hide ProgInv, CirculationRun.Reachable, Runs, Final;
    RunsKeep(p, run);
  }
}
