/** Refills of the program take the batches that carving hands out: the guard of a refill holds for each of them. */
module ProgramCarving {
  import opened Options
  import opened Circulation
  import opened Program
  import opened ProgramRun
  import Carving
  import CarvingRun

  /** What the refills of a run have carved, in order. */
  ghost function CarvedBy(run: seq<Turn>): seq<nat>
    decreases |run|
  {
    if run == [] then [] else (if run[0].step.Refill? then run[0].step.chain else []) + CarvedBy(run[1..])
  }

  lemma StepRaw(p: Prog, u: nat, step: Step)
    requires Can(p, u, step)
    ensures Do(p, u, step).raw == if step.Refill? then p.raw - set b | b in step.chain else p.raw
  {
    hide Fire, Deliver, Enabled, NextOf, Front, First;
  }

  lemma {:induction false} RawAfter(p: Prog, run: seq<Turn>)
    requires Runs(p, run)
    ensures forall b :: b in Final(p, run).raw <==> b in p.raw && b !in CarvedBy(run)
    decreases |run|
  {
    hide Can, Do, Timely;
    if run != [] {
      StepRaw(p, run[0].thread, run[0].step);
      RawAfter(Do(p, run[0].thread, run[0].step), run[1..]);
    }
  }

  /** The batches up to one of them. */
  lemma {:induction false} BlocksPrefix(answers: seq<Option<CarvingRun.Batch>>, k: nat, block: nat)
    requires k <= |answers|
    ensures CarvingRun.Blocks(answers[..k], block) <= CarvingRun.Blocks(answers, block)
    decreases |answers|
  {
    if k == |answers| {
      assert answers[..k] == answers;
    } else {
      var front := answers[..|answers| - 1];
      BlocksPrefix(front, k, block);
      assert front[..k] == answers[..k];
    }
  }

  /** Let the refills of a run have taken the batches of the first `k` operations of carving, in that order.  Then the
      next batch is one a thread that seeks memory can refill with, since none of its blocks has been carved before. */
  lemma BatchFits(start: Prog, run: seq<Turn>, answers: seq<Option<CarvingRun.Batch>>, k: nat, block: nat, u: nat)
    requires block > 0 && CarvingRun.AllClear(CarvingRun.Blocks(answers, block), block)
    requires forall a :: a in CarvingRun.Blocks(answers, block) ==> a in start.raw
    requires k < |answers| && answers[k].Some? && answers[k].value.count > 0
    requires Runs(start, run) && CarvedBy(run) == CarvingRun.Blocks(answers[..k], block)
    requires
      var p := Final(start, run);
      u < |p.core.threads| == |p.jobs| && p.core.threads[u].Idle? && p.jobs[u] == Seek(false)
    ensures Can(Final(start, run), u, Refill(Carving.Run(answers[k].value.head, block, answers[k].value.count)))
  {
    hide Runs, Final, CarvingRun.Blocks, CarvingRun.AllClear;
    var batch := Carving.Run(answers[k].value.head, block, answers[k].value.count);
    var xs := CarvingRun.Blocks(answers[..k], block);
    CarvingRun.OneMore(answers[..k], answers[k], block);
    assert answers[..k] + [answers[k]] == answers[..k + 1];
    BlocksPrefix(answers, k + 1, block);
    Carving.RunIn(answers[k].value.head, block, answers[k].value.count, 0);
    RawAfter(start, run);
    Unlike(xs, batch, CarvingRun.Blocks(answers, block), block);
  }

  /** Blocks that do not overlap are different blocks. */
  lemma Unlike(xs: seq<nat>, ys: seq<nat>, all: seq<nat>, block: nat)
    requires block > 0 && CarvingRun.AllClear(all, block) && xs + ys <= all
    ensures Distinct(ys) && forall b :: b in ys ==> b !in xs && b in all
  {
    var zs := xs + ys;
    forall i, j | 0 <= i < j < |zs|
      ensures zs[i] != zs[j]
    {
      assert all[i] == zs[i] && all[j] == zs[j];
      assert Carving.Clear(all[i], all[j], block);
    }
    forall i, j | 0 <= i < j < |ys|
      ensures ys[i] != ys[j]
    {
      assert zs[|xs| + i] == ys[i] && zs[|xs| + j] == ys[j];
    }
    forall b | b in ys
      ensures b !in xs && b in all
    {
      var j :| 0 <= j < |ys| && ys[j] == b;
      assert zs[|xs| + j] == b && all[|xs| + j] == b;
      forall i | 0 <= i < |xs|
        ensures xs[i] != b
      {
        assert zs[i] == xs[i];
      }
    }
  }
}
