/** Whole runs of refills and thread exits. */
module CarvingRun {
  import opened Options
  import opened Circulation
  import opened Carving

  /** `at` is what the page allocator answers if it is asked; an answer that is not free memory counts as none. */
  datatype Op = Refill(thread: nat, node: nat, max: nat, at: Option<nat>) | Exit(thread: nat)

  datatype Batch = Batch(head: nat, count: nat)

  /** The blocks of all batches, in order. */
  ghost function Blocks(answers: seq<Option<Batch>>, block: nat): seq<nat> {
    if answers == [] then []
    else
      var last := answers[|answers| - 1];
      Blocks(answers[..|answers| - 1], block) + if last.Some? then Carving.Run(last.value.head, block, last.value.count) else []
  }

  ghost predicate AllClear(xs: seq<nat>, block: nat) {
    forall i, j :: 0 <= i < j < |xs| ==> Clear(xs[i], xs[j], block)
  }

  /** Exactly the blocks carved. */
  ghost predicate AllCarved(xs: seq<nat>, done: map<nat, nat>, block: nat) {
    forall a :: a in xs <==> Carved(done, block, a)
  }

  /** The spans at the end of a run, how far each is carved, where they wait, and which were dropped. */
  datatype Rest = Rest(spans: Spans, done: map<nat, nat>, places: Owners, lost: set<nat>)

  /** Every span with a block left waits in one slot or queue, unless it was dropped because its node has no queue. */
  ghost predicate NoneForgotten(r: Rest, blocks: nat, numa: bool, nodes: nat) {
    && OwnersOk(r.places) && |r.places.queues| == nodes && r.done.Keys == r.spans.Keys && AllQueueless(r.lost, r.spans, numa, nodes)
    && forall s :: s in r.spans && r.done[s] < blocks ==> (s in r.places.owner) != (s in r.lost)
  }

  lemma CarvedBy(xs: seq<nat>, before: map<nat, nat>, after: map<nat, nat>, block: nat, s: nat, count: nat, zs: seq<nat>, a: nat)
    requires s in after && after == before[s := after[s]] && CarvedIn(before, s) + count == after[s] && |zs| == count
    requires AllCarved(xs, before, block) && Carved(after, block, a)
    requires forall i: nat :: i < count ==> zs[i] == BlockAt(s, block, after[s] - count + i)
    ensures a in xs || a in zs
  {
    var t, i: nat :| t in after && i < after[t] && a == BlockAt(t, block, i);
    if t == s && i >= after[s] - count {
      assert zs[i - (after[s] - count)] == a;
    } else {
      assert t in before && i < before[t];
      assert Carved(before, block, a);
    }
  }

  lemma CarvedStays(before: map<nat, nat>, after: map<nat, nat>, block: nat, s: nat, a: nat)
    requires s in after && after == before[s := after[s]] && (s in before ==> before[s] <= after[s]) && Carved(before, block, a)
    ensures Carved(after, block, a)
  {
    var t, i: nat :| t in before && i < before[t] && a == BlockAt(t, block, i);
    assert t in after && i < after[t];
  }

  /** A batch is clear of everything carved before, and of itself. */
  lemma BatchClear(xs: seq<nat>, spans: Spans, before: map<nat, nat>, after: map<nat, nat>, block: nat, blocks: nat, s: nat, count: nat)
    requires AllOk(spans, after, block, blocks) && block > 0 && s in after && s in spans && after == before[s := after[s]]
    requires count <= after[s] <= blocks && (if s in before then before[s] else 0) + count == after[s]
    requires AllClear(xs, block) && AllCarved(xs, before, block)
    ensures
      var ys := xs + Carving.Run(BlockAt(s, block, after[s] - count), block, count);
      AllClear(ys, block) && AllCarved(ys, after, block)
  {
    hide AllOk, Carved, BlockAt, Run;
    var base := BlockAt(s, block, after[s] - count);
    var zs := Carving.Run(base, block, count);
    var ys := xs + zs;
    RunIn(base, block, count, 0);
    forall i | 0 <= i < count
      ensures zs[i] == BlockAt(s, block, after[s] - count + i)
    {
      RunAt(base, block, count, i);
      NextBlock(s, block, after[s] - count, i);
    }
    forall a
      ensures a in ys <==> Carved(after, block, a)
    {
      if a in xs {
        CarvedStays(before, after, block, s, a);
      } else if a in zs {
        var i :| 0 <= i < count && zs[i] == a;
        CarvedOnce(spans, before, after, block, blocks, s, count, i);
      } else if Carved(after, block, a) {
        CarvedBy(xs, before, after, block, s, count, zs, a);
      }
    }
    forall i, j | 0 <= i < j < |ys|
      ensures Clear(ys[i], ys[j], block)
    {
      if j >= |xs| {
        if i < |xs| {
          assert ys[i] in xs;
          CarvedOnce(spans, before, after, block, blocks, s, count, j - |xs|);
        } else {
          BlocksClear(s, block, after[s] - count + (j - |xs|), after[s] - count + (i - |xs|));
        }
      }
    }
  }

  /** What an operation is answered with, given the spans there were: a refill gets a batch unless memory ran out. */
  ghost predicate AnswerOk(op: Op, answer: Option<Batch>, spans: Spans, block: nat, blocks: nat, threads: nat) {
    && (op.Exit? || op.thread >= threads ==> answer.None?)
    && (op.Refill? && op.thread < threads && answer.None? ==> op.at.None? || !FreshIn(spans, block, blocks, op.at.value))
    && (op.Refill? && answer.Some? ==> 1 <= answer.value.count <= op.max)
  }

  /** Over every sequence of refills and exits, no two blocks handed out overlap: none is carved twice, whichever thread
      slot or queue its span passed through.  Every refill hands out a batch, unless memory ran out; `spans` are those
      in front of each operation.  At the end exactly the blocks carved have been handed out, and every span with more
      is still at hand. */
  method Replay(block: nat, blocks: nat, threads: nat, nodes: nat, numa: bool, ops: seq<Op>)
    returns (answers: seq<Option<Batch>>, ghost spans: seq<Spans>, ghost rest: Rest)
    requires block > 0 && blocks > 0 && forall i :: 0 <= i < |ops| && ops[i].Refill? ==> ops[i].max > 0
    ensures AllClear(Blocks(answers, block), block)
    ensures |answers| == |ops| == |spans| && forall i :: 0 <= i < |ops| ==> AnswerOk(ops[i], answers[i], spans[i], block, blocks, threads)
    ensures AllCarved(Blocks(answers, block), rest.done, block) && NoneForgotten(rest, blocks, numa, nodes)
  {
    hide AllOk, OwnersOk, AllClear, AllCarved, Blocks, AnswerOk, AtHand, AllQueueless, NoneForgotten;
    var c := new Carver(block, blocks, threads, nodes, numa);
    answers, spans := [], [];
    NoBlocks(c.done, block);
    for k := 0 to |ops|
      invariant fresh(c) && c.Valid() && c.block == block && c.blocks == blocks && |c.slots| == threads
      invariant c.numa == numa && |c.queues| == nodes
      invariant AllClear(Blocks(answers, block), block) && AllCarved(Blocks(answers, block), c.done, block)
      invariant |answers| == k == |spans| && forall i :: 0 <= i < k ==> AnswerOk(ops[i], answers[i], spans[i], block, blocks, threads)
    {
      spans := spans + [c.spans];
      var answer := Perform(c, ops[k], answers);
      answers := answers + [answer];
    }
    rest := Rest(c.spans, c.done, c.Places(), c.lost);
    StillAtHand(c);
  }

  lemma StillAtHand(c: Carver)
    requires c.Valid()
    ensures NoneForgotten(Rest(c.spans, c.done, c.Places(), c.lost), c.blocks, c.numa, |c.queues|)
  {
    hide OwnersOk;
    SameKeys(c.spans, c.done, c.block, c.blocks);
    SameLengths(c.Places());
    NoNull(c.spans, c.done, c.block, c.blocks);
    forall s | s in c.spans && c.done[s] < c.blocks
      ensures (s in c.owner) != (s in c.lost)
    {
      assert Waits(s, c.spans, c.done, c.blocks);
    }
  }

  lemma NoBlocks(done: map<nat, nat>, block: nat)
    requires done == map[]
    ensures AllClear(Blocks([], block), block) && AllCarved(Blocks([], block), done, block)
  {
  }

  method Perform(c: Carver, op: Op, answers: seq<Option<Batch>>) returns (answer: Option<Batch>)
    requires c.Valid() && (op.Refill? ==> op.max > 0)
    requires AllClear(Blocks(answers, c.block), c.block) && AllCarved(Blocks(answers, c.block), c.done, c.block)
    modifies c
    ensures c.Valid() && |c.slots| == |old(c.slots)| && |c.queues| == |old(c.queues)|
    ensures AllClear(Blocks(answers + [answer], c.block), c.block) && AllCarved(Blocks(answers + [answer], c.block), c.done, c.block)
    ensures AnswerOk(op, answer, old(c.spans), c.block, c.blocks, |c.slots|)
  {
    hide AllOk, OwnersOk, AllClear, AllCarved, Run, Carved, Blocks, FreshIn, AtHand, AllQueueless;
    OneMore(answers, None, c.block);
    if op.thread >= |c.slots| {
      return None;
    }
    if op.Exit? {
      var q := c.Drain(op.thread);
      return None;
    }
    var mem := if op.at.Some? && c.FreshSpan(op.at.value) then op.at else None;
    answer := Fill(c, op.thread, op.node, op.max, mem, answers);
  }

  method Fill(c: Carver, t: nat, node: nat, max: nat, mem: Option<nat>, answers: seq<Option<Batch>>) returns (answer: Option<Batch>)
    requires c.Valid() && t < |c.slots| && max > 0 && (mem.Some? ==> c.FreshSpan(mem.value))
    requires AllClear(Blocks(answers, c.block), c.block) && AllCarved(Blocks(answers, c.block), c.done, c.block)
    modifies c
    ensures c.Valid() && |c.slots| == |old(c.slots)| && |c.queues| == |old(c.queues)|
    ensures AllClear(Blocks(answers + [answer], c.block), c.block) && AllCarved(Blocks(answers + [answer], c.block), c.done, c.block)
    ensures (answer.None? ==> mem.None?) && (answer.Some? ==> 1 <= answer.value.count <= max)
  {
    hide AllOk, OwnersOk, AllClear, AllCarved, Run, Carved, Chain, BlockAt, Blocks, FreshIn, AtHand, AllQueueless, Carver.Pending;
    if mem.Some? {
      FreshNotNull(c.spans, c.block, c.blocks, mem.value);
    }
    ghost var before := c.done;
    var r, s := c.BulkFill(t, node, max, mem);
    if r.None? {
      OneMore(answers, None, c.block);
      return None;
    }
    var (head, tail, count) := r.value;
    answer := Some(Batch(head, count));
    HeadOf(c.headers, head, BlockAt(s, c.block, c.done[s] - count), c.block, count);
    OneMore(answers, answer, c.block);
    SameKeys(c.spans, c.done, c.block, c.blocks);
    BatchClear(Blocks(answers, c.block), c.spans, before, c.done, c.block, c.blocks, s, count);
  }

  lemma FreshNotNull(spans: Spans, block: nat, blocks: nat, m: nat)
    requires FreshIn(spans, block, blocks, m)
    ensures m > 0
  {
  }

  lemma OneMore(answers: seq<Option<Batch>>, last: Option<Batch>, block: nat)
    ensures Blocks(answers + [last], block) ==
      Blocks(answers, block) + if last.Some? then Carving.Run(last.value.head, block, last.value.count) else []
    ensures last.None? ==> Blocks(answers + [last], block) == Blocks(answers, block)
  {
    assert (answers + [last])[..|answers|] == answers;
  }

  lemma HeadOf(headers: map<nat, nat>, head: nat, base: nat, block: nat, count: nat)
    requires Chain(headers, head, Carving.Run(base, block, count)) && count > 0
    ensures head == base
  {
  }
}
