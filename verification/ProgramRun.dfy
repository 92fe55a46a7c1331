/** Whole runs of the program. */
module ProgramRun {
  import opened Circulation
  import opened CirculationInv
  import opened CirculationRun
  import opened Program
  import opened ProgramInv
  import opened ProgramSteps
  import opened ProgramKeeps

  datatype Turn = Turn(thread: nat, step: Step)

  /** Nothing carved, and every thread in client code.  Clients may have blocks: those of other classes that may come to
      this one when they grow in place. */
  ghost predicate Fresh(p: Prog) {
    && Initial(p.core) && |p.jobs| == |p.core.threads| && OutsideOk(p)
    && forall u :: 0 <= u < |p.jobs| ==> p.jobs[u] == Rest
  }

  /** The steps can happen one after the other, and every pop that succeeds is in time. */
  ghost predicate Runs(p: Prog, run: seq<Turn>)
    decreases |run|
  {
    run != [] ==>
      && Can(p, run[0].thread, run[0].step) && Timely(p, run[0].thread, run[0].step)
      && Runs(Do(p, run[0].thread, run[0].step), run[1..])
  }

  ghost function Final(p: Prog, run: seq<Turn>): Prog
    requires Runs(p, run)
    decreases |run|
  {
    if run == [] then p else Final(Do(p, run[0].thread, run[0].step), run[1..])
  }

  ghost predicate ComesFrom(p: Prog, start: Prog, run: seq<Turn>) { Fresh(start) && Runs(start, run) && p == Final(start, run) }

  ghost predicate Arises(p: Prog) { exists start, run :: ComesFrom(p, start, run) }

  lemma FreshInv(p: Prog)
    requires Fresh(p)
    ensures ProgInv(p) && Reachable(p.core)
  {
    hide Inv;
    InitialInv(p.core);
    assert ReachedBy(p.core, p.core, []);
  }

  lemma {:induction false} RunsKeep(p: Prog, run: seq<Turn>)
    requires ProgInv(p) && Reachable(p.core) && Runs(p, run)
    ensures ProgInv(Final(p, run)) && Reachable(Final(p, run).core)
    decreases |run|
  {
    hide ProgInv, Reachable, Can, Do, Timely;
    if run != [] {
      var u, step := run[0].thread, run[0].step;
      ProgKeeps(p, u, step);
      CoreFollows(p, u, step);
      RunsKeep(Do(p, u, step), run[1..]);
    }
  }

  lemma CoreFollows(p: Prog, u: nat, step: Step)
    requires Reachable(p.core) && Can(p, u, step) && Allowed(p, u, step)
    ensures Reachable(Do(p, u, step).core)
  {
    hide Reachable, Can, Do, CoreAct, Enabled, Fire, InTime;
    match CoreAct(p, u, step)
    case None =>
    case Some(act) => ReachOn(p.core, u, act);
  }

  /** The program refines the core: although no step of the program asks who holds a block, every state it can get to is
      one of the core, where threads move only blocks they hold.  So what holds in every reachable state of the core
      holds of the program. */
  lemma Refines(p: Prog)
    requires Arises(p)
    ensures Reachable(p.core) && ProgInv(p)
  {
    hide ProgInv, Reachable, Fresh;
    var start, run :| ComesFrom(p, start, run);
    FreshInv(start);
    RunsKeep(start, run);
  }

  // ----- nobody gets a block twice -----

  /** The block is on no list in memory. */
  ghost predicate Unlisted(s: State, b: nat) {
    forall l, xs :: Chain(s.next, WordAt(s, l).ptr, xs) ==> b !in xs
  }

  lemma NotListed(s: State, b: nat)
    requires Reachable(s) && !PlaceAt(s, b).In?
    ensures Unlisted(s, b)
  {
    hide Reachable, Inv, Chain;
    ReachableInv(s);
    forall l, xs | Chain(s.next, WordAt(s, l).ptr, xs)
      ensures b !in xs
    {
      MemoryList(s, l, xs);
    }
  }

  /** No block is ever with clients twice, and a block with a client is on no list. */
  lemma NeverTwice(p: Prog, b: nat)
    requires Arises(p)
    ensures p.clients[b] <= 1
    ensures b in p.clients ==> Unlisted(p.core, b)
  {
    hide Arises, Reachable, Inv, Unlisted;
    Refines(p);
    if b in p.clients {
      assert p.clients[b] > 0;
      NotListed(p.core, b);
    }
  }

  /** A block in the registers of a thread is with no client, on no list, and in the registers of no other thread. */
  lemma Exclusive(p: Prog, u: nat, b: nat)
    requires Arises(p) && u < |p.jobs| && b in Carried(PcAt(p.core, u)) + Mine(p.jobs[u])
    ensures b !in p.clients && b !in p.raw && Unlisted(p.core, b)
    ensures forall t :: 0 <= t < |p.jobs| && t != u ==> b !in Carried(PcAt(p.core, t)) + Mine(p.jobs[t])
  {
    hide Arises, Reachable, Unlisted, Carried, Mine;
    Refines(p);
    HeldInHand(p, u, b);
    NotListed(p.core, b);
    assert p.clients[b] == 0;
    forall t | 0 <= t < |p.jobs| && t != u
      ensures b !in Carried(PcAt(p.core, t)) + Mine(p.jobs[t])
    {
      if b in Carried(PcAt(p.core, t)) + Mine(p.jobs[t]) {
        HeldInHand(p, t, b);
        assert false;
      }
    }
  }

  lemma HeldInHand(p: Prog, u: nat, b: nat)
    requires ProgInv(p) && u < |p.jobs| && b in Carried(PcAt(p.core, u)) + Mine(p.jobs[u])
    ensures PlaceAt(p.core, b) == Held(u)
  {
    hide Shared, Linked, Distinct, Segment;
    assert ThreadOk(p.core, u, p.core.threads[u]);
    assert JobOk(p.core, u, p.core.threads[u], p.jobs[u]);
  }

  /** When a block is about to be handed out, nobody else has it. */
  lemma HandedOutOnce(p: Prog, u: nat)
    requires Arises(p) && Can(p, u, Return)
    ensures var b := p.jobs[u].block; b !in p.clients && Unlisted(p.core, b) && Do(p, u, Return).clients[b] == 1
  {
    hide Arises, Unlisted;
    Exclusive(p, u, p.jobs[u].block);
  }

  /** When the trimmer advises the pages of a block, it still holds the block: nobody else has it. */
  lemma AdvisedIsHeld(p: Prog, u: nat, released: bool)
    requires Arises(p) && Can(p, u, Dispose(released))
    ensures var b := p.jobs[u].trim; b in p.core.next && b !in p.clients && Unlisted(p.core, b)
    ensures forall t :: 0 <= t < |p.jobs| && t != u ==> p.jobs[u].trim !in Carried(PcAt(p.core, t)) + Mine(p.jobs[t])
  {
    hide Arises, Unlisted, Inv;
    Refines(p);
    TrimHeld(p, u);
    Exclusive(p, u, p.jobs[u].trim);
  }

  lemma TrimHeld(p: Prog, u: nat)
    requires ProgInv(p) && u < |p.jobs| && p.jobs[u].Trimming? && p.jobs[u].trim != 0
    ensures p.jobs[u].trim in Mine(p.jobs[u]) && p.jobs[u].trim in p.core.next
  {
    hide Shared, ThreadOk, Distinct;
    assert JobOk(p.core, u, p.core.threads[u], p.jobs[u]);
  }
}
