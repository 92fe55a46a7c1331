/** The usage counters. */
module CirculationUsage {
  import opened Layout
  import opened Circulation
  import opened CirculationInv
  import opened CirculationKeeps
  import opened CirculationRun

  /** What a thread has still to subtract from the counter of `c`. */
  ghost function Owes(pc: Pc, c: nat): int {
    if pc.Take? && pc.take.TakeCount? && pc.take.cpu == c then 1
    else if pc.Give? && pc.give.GiveCount? && pc.give.cpu == c then 0 - pc.give.count
    else 0
  }

  /** Pending decrements minus pending increments. */
  ghost function Pending(threads: seq<Pc>, c: nat): int {
    if threads == [] then 0 else Owes(threads[0], c) + Pending(threads[1..], c)
  }

  lemma {:induction false} PendingUpdate(threads: seq<Pc>, u: nat, pc: Pc, c: nat)
    requires u < |threads|
    ensures Pending(threads[u := pc], c) == Pending(threads, c) - Owes(threads[u], c) + Owes(pc, c)
  {
    hide Owes;
    if u == 0 {
      assert threads[u := pc][1..] == threads[1..];
    } else {
      assert threads[u := pc][1..] == threads[1..][u - 1 := pc];
      PendingUpdate(threads[1..], u - 1, pc, c);
    }
  }

  lemma {:induction false} NonePending(threads: seq<Pc>, c: nat)
    requires forall t :: 0 <= t < |threads| ==> Owes(threads[t], c) == 0
    ensures Pending(threads, c) == 0
  {
    hide Owes;
    if threads != [] {
      NonePending(threads[1..], c);
    }
  }

  ghost function UsageAt(s: State, c: nat): nat { if c in s.usage then s.usage[c] else 0 }

  /** How far the counter is from the length of the list, pending changes included. */
  ghost function Drift(s: State, c: nat): int {
    UsageAt(s, c) - |ListAt(s, Loc(c, Rseq))| - Pending(s.threads, c)
  }

  ghost predicate UsageOk(s: State, c: nat) { Drift(s, c) % WRAP == 0 && UsageAt(s, c) < WRAP }

  /** A step that changes the length and what is pending alike. */
  lemma DriftStays(s: State, mid: State, u: nat, pc: Pc, c: nat)
    requires u < |s.threads| && mid.threads == s.threads && UsageAt(mid, c) == UsageAt(s, c) && UsageOk(s, c)
    requires |ListAt(mid, Loc(c, Rseq))| + Owes(pc, c) == |ListAt(s, Loc(c, Rseq))| + Owes(s.threads[u], c)
    ensures UsageOk(At(mid, u, pc), c)
  {
    hide Owes;
    PendingUpdate(s.threads, u, pc, c);
  }

  lemma WrapSum(x: int, n: nat, m: nat)
    ensures (((n + m) % WRAP) - (n + m) + x) % WRAP == x % WRAP
  {
    var k := (n + m) / WRAP;
    assert (n + m) == k * WRAP + (n + m) % WRAP;
    WrapShift(x, k);
  }

  lemma {:induction false} WrapShift(x: int, k: nat)
    ensures (x - k * WRAP) % WRAP == x % WRAP
  {
    if k > 0 {
      WrapShift(x, k - 1);
      assert x - k * WRAP == (x - (k - 1) * WRAP) - WRAP;
    }
  }

  /** The counter catches up. */
  lemma CountSettles(s: State, u: nat, cpu: nat, n: nat, c: nat)
    requires u < |s.threads| && UsageOk(s, c) && cpu in s.usage
    requires c != cpu ==> Owes(s.threads[u], c) == 0
    requires c == cpu ==> (n + Owes(s.threads[u], c)) % WRAP == 0
    ensures UsageOk(At(Counted(s, cpu, n), u, Idle), c)
  {
    hide Owes, Pending;
    PendingUpdate(s.threads, u, Idle, c);
    IdleOwes(c);
    if c == cpu {
      var owes := Owes(s.threads[u], c);
      AddMultiples(Drift(s, c), n + owes);
      WrapSum(Drift(s, c) + n + owes, UsageAt(s, c), n);
    }
  }

  lemma AddMultiples(x: int, y: int)
    requires x % WRAP == 0 && y % WRAP == 0
    ensures (x + y) % WRAP == 0
  {
  }

  lemma IdleOwes(c: nat)
    ensures Owes(Idle, c) == 0
  {
  }

  ghost predicate Settled(pc: Pc) { !pc.Take? && !pc.Give? }

  /** Work on the transfer lists does not concern the counters. */
  lemma ElsewhereUsage(s: State, mid: State, u: nat, pc: Pc, c: nat)
    requires u < |s.threads| && UsageOk(s, c) && Settled(s.threads[u]) && Settled(pc)
    requires mid.threads == s.threads && mid.usage == s.usage
    requires ListAt(mid, Loc(c, Rseq)) == ListAt(s, Loc(c, Rseq))
    ensures UsageOk(At(mid, u, pc), c)
  {
    DriftStays(s, mid, u, pc, c);
  }

  lemma PushUsage(s: State, u: nat, p: PushPc, c: nat)
    requires Inv(s) && UsageOk(s, c) && u < |s.threads| && s.threads[u] == Push(p)
    ensures UsageOk(AdvancePush(s, u, p), c)
  {
    hide UsageOk, Shared, Segment, Distinct, HoldsAll;
    assert ThreadOk(s, u, s.threads[u]);
    match p
    case PushLoad(loc, load) => ElsewhereUsage(s, s, u, Push(PushLink(loc, load, WordAt(s, loc))), c);
    case PushLink(loc, load, word) =>
      ElsewhereUsage(s, s.(next := s.next[load.tail := word.ptr]), u, Push(PushCas(loc, load, word)), c);
    case PushCas(loc, load, word) =>
      if WordAt(s, loc) == word {
        ElsewhereUsage(s, Pushed(s, loc, load.chain, Pack(load.head, word)), u,
          if word.ptr == 0 then Hint(MarkLoad(loc.cpu)) else Idle, c);
      } else {
        ElsewhereUsage(s, s, u, Push(PushLoad(loc, load)), c);
      }
  }

  lemma PopUsage(s: State, u: nat, p: PopPc, c: nat)
    requires Inv(s) && UsageOk(s, c) && u < |s.threads| && s.threads[u] == Pop(p)
    ensures UsageOk(AdvancePop(s, u, p), c)
  {
    hide UsageOk, Shared;
    if p.PopCas? && WordAt(s, p.loc) == p.word {
      assert ThreadOk(s, u, s.threads[u]);
      ElsewhereUsage(s, Popped(s, p.loc, u, p.load.chain, Pack(p.nx, p.word)), u,
        if p.nx == 0 && !p.single then Hint(ClearLoad(p.loc.cpu)) else Idle, c);
    } else {
      hide AdvancePop;
      var pc := PopLocal(s, u, p);
      ElsewhereUsage(s, s, u, pc, c);
    }
  }

  lemma HintUsage(s: State, u: nat, p: HintPc, c: nat)
    requires UsageOk(s, c) && u < |s.threads| && s.threads[u] == Hint(p)
    ensures UsageOk(AdvanceHint(s, u, p), c)
  {
    hide UsageOk;
    var s' := AdvanceHint(s, u, p);
    DriftStays(s, s'.(threads := s.threads), u, s'.threads[u], c);
  }

  lemma DetachUsage(s: State, u: nat, p: DetachPc, c: nat)
    requires UsageOk(s, c) && u < |s.threads| && s.threads[u] == Detach(p)
    ensures UsageOk(AdvanceDetach(s, u, p), c)
  {
    hide UsageOk;
    var l := Loc(p.cpu, Normal);
    if p.DetachCas? && WordAt(s, l) == p.word {
      ElsewhereUsage(s, Popped(s, l, u, ListAt(s, l), Pack(0, p.word)), u, Idle, c);
    } else {
      ElsewhereUsage(s, s, u, AdvanceDetach(s, u, p).threads[u], c);
    }
  }

  lemma TakeUsage(s: State, u: nat, p: TakePc, c: nat)
    requires Inv(s) && UsageOk(s, c) && u < |s.threads| && s.threads[u] == Take(p)
    ensures UsageOk(AdvanceTake(s, u, p), c)
  {
    hide UsageOk, WellFormed, ListOk, Moved;
    assert ThreadOk(s, u, s.threads[u]);
    var s' := AdvanceTake(s, u, p);
    if p.TakeCount? {
      CountSettles(s, u, p.cpu, WRAP - 1, c);
    } else {
      HeadOk(s, Loc(p.cpu, Rseq));
      DriftStays(s, s'.(threads := s.threads), u, s'.threads[u], c);
    }
  }

  lemma GiveUsage(s: State, u: nat, p: GivePc, c: nat)
    requires Inv(s) && UsageOk(s, c) && u < |s.threads| && s.threads[u] == Give(p)
    ensures UsageOk(AdvanceGive(s, u, p), c)
  {
    hide UsageOk, Shared, Segment, Distinct, HoldsAll, Moved;
    assert ThreadOk(s, u, s.threads[u]);
    var s' := AdvanceGive(s, u, p);
    if p.GiveCount? {
      CountSettles(s, u, p.cpu, p.count, c);
    } else {
      DriftStays(s, s'.(threads := s.threads), u, s'.threads[u], c);
    }
  }

  lemma StepUsage(s: State, u: nat, act: Action, c: nat)
    requires Inv(s) && UsageOk(s, c) && Enabled(s, u, act)
    ensures UsageOk(Fire(s, u, act), c)
  {
    hide Inv, UsageOk, AdvancePush, AdvancePop, AdvanceHint, AdvanceDetach, AdvanceTake, AdvanceGive;
    if act.Go? {
      match s.threads[u]
      case Push(p) => PushUsage(s, u, p, c);
      case Pop(p) => PopUsage(s, u, p, c);
      case Hint(p) => HintUsage(s, u, p, c);
      case Detach(p) => DetachUsage(s, u, p, c);
      case Take(p) => TakeUsage(s, u, p, c);
      case Give(p) => GiveUsage(s, u, p, c);
      case Idle =>
    } else {
      var s' := Fire(s, u, act);
      assert s'.threads == s.threads[u := s'.threads[u]];
      DriftStays(s, s'.(threads := s.threads), u, s'.threads[u], c);
    }
  }

  lemma {:induction false} RunUsage(s: State, run: seq<Event>, c: nat)
    requires Inv(s) && UsageOk(s, c) && Possible(s, run)
    ensures UsageOk(End(s, run), c)
    decreases |run|
  {
    hide Inv, UsageOk, Fire, Enabled, InTime;
    if run != [] {
      StepUsage(s, run[0].thread, run[0].action, c);
      StepKeeps(s, run[0].thread, run[0].action);
      RunUsage(Fire(s, run[0].thread, run[0].action), run[1..], c);
    }
  }

  lemma InitialUsage(s: State, c: nat)
    requires Initial(s)
    ensures UsageOk(s, c)
  {
    NonePending(s.threads, c);
  }

  /** The counter of a CPU is the length of its list plus pending decrements minus pending increments, in 64 bits. */
  lemma UsageIsLength(s: State, c: nat, xs: seq<nat>)
    requires Reachable(s) && c in s.usage && Chain(s.next, WordAt(s, Loc(c, Rseq)).ptr, xs)
    ensures s.usage[c] == (|xs| + Pending(s.threads, c)) % WRAP
  {
    hide Inv, Initial, Chain, Owes;
    var start, run :| ReachedBy(s, start, run);
    InitialInv(start);
    InitialUsage(start, c);
    RunUsage(start, run, c);
    ReachableInv(s);
    MemoryList(s, Loc(c, Rseq), xs);
    Congruent(s.usage[c], |xs| + Pending(s.threads, c));
  }

  lemma Congruent(n: nat, x: int)
    requires (n - x) % WRAP == 0 && n < WRAP
    ensures n == x % WRAP
  {
  }
}
