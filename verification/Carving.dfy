/** Carving spans into blocks, and handing half-carved spans over when threads exit.  One size class. */
module Carving {
  import opened Options
  import opened Numbers
  import opened Layout
  import opened Circulation
  import opened CirculationInv

  /** `MetaData` without `next_page`, which `Carver.pages` holds. */
  datatype Span = Span(end: nat, next: nat, node: nat)

  type Spans = map<nat, Span>

  /** remaining_blocks. */
  function Remaining(s: Span, block: nat): nat
    requires block > 0
  {
    if s.end >= s.next then (s.end - s.next) / block else 0
  }

  /** The `i`-th block of a span. */
  function BlockAt(start: nat, block: nat, i: nat): nat { start + METADATA + i * block }

  /** The address `n` blocks further. */
  function Past(a: nat, block: nat, n: nat): nat { a + n * block }

  /** The span is carved block by block, and `blocks` of them fit. */
  ghost predicate SpanOk(start: nat, s: Span, block: nat, blocks: nat, done: nat) {
    start > 0 && done <= blocks && s.next == BlockAt(start, block, done) && s.end == BlockAt(start, block, blocks)
  }

  ghost predicate Disjoint(a: nat, s: Span, b: nat, t: Span) { s.end <= b || t.end <= a }

  /** Every span is carved in order, and spans do not overlap. */
  ghost predicate AllOk(spans: Spans, done: map<nat, nat>, block: nat, blocks: nat) {
    && done.Keys == spans.Keys
    && (forall s :: s in spans ==> SpanOk(s, spans[s], block, blocks, done[s]))
    && (forall s, t :: s in spans && t in spans && s != t ==> Disjoint(s, spans[s], t, spans[t]))
  }

  lemma AllOkAt(spans: Spans, done: map<nat, nat>, block: nat, blocks: nat, s: nat)
    requires AllOk(spans, done, block, blocks) && s in spans
    ensures s in done && SpanOk(s, spans[s], block, blocks, done[s])
  {
  }

  /** A span is carved further. */
  lemma Advanced(spans: Spans, done: map<nat, nat>, block: nat, blocks: nat, s: nat, n: nat)
    requires AllOk(spans, done, block, blocks) && s in spans && s in done && done[s] + n <= blocks
    ensures AllOk(spans[s := spans[s].(next := Past(spans[s].next, block, n))], done[s := done[s] + n], block, blocks)
  {
    hide BlockAt;
    NextBlock(s, block, done[s], n);
  }

  lemma RemainingBlocks(start: nat, s: Span, block: nat, blocks: nat, done: nat)
    requires block > 0 && SpanOk(start, s, block, blocks, done)
    ensures Remaining(s, block) == blocks - done
  {
    assert s.end - s.next == (blocks - done) * block;
    Divide(blocks - done, block);
  }

  lemma Divide(n: nat, b: nat)
    requires b > 0
    ensures (n * b) / b == n
  {
    var q, r := (n * b) / b, (n * b) % b;
    assert n * b == q * b + r;
    assert (n - q) * b == r;
    assert n - q >= 1 ==> (n - q) * b >= b;
    assert n - q <= -1 ==> (n - q) * b <= -1 * b;
  }

  // ----- who carves a span -----

  datatype Owner = InSlot(thread: nat) | InQueue(node: nat)

  /** The slots of the threads and the pending queues: `next_page` links, heads, and for the proof the contents. */
  datatype Owners = Owners(pages: map<nat, nat>, heads: seq<nat>, slots: seq<nat>, queues: seq<seq<nat>>, owner: map<nat, Owner>)

  ghost predicate QueueOk(o: Owners, k: nat) {
    k < |o.heads| && k < |o.queues| ==>
      && Chain(o.pages, o.heads[k], o.queues[k]) && Distinct(o.queues[k])
      && forall s :: s in o.queues[k] ==> s in o.owner && o.owner[s] == InQueue(k)
  }

  ghost predicate SlotOk(o: Owners, t: nat) {
    t < |o.slots| && o.slots[t] != 0 ==> o.slots[t] in o.owner && o.owner[o.slots[t]] == InSlot(t)
  }

  /** The slot or queue of an owner has the span. */
  ghost predicate Sits(o: Owners, s: nat) {
    s in o.owner ==>
      match o.owner[s]
      case InSlot(t) => t < |o.slots| && o.slots[t] == s
      case InQueue(k) => k < |o.queues| && s in o.queues[k]
  }

  /** A waiting span is in one slot or at one place of one queue. */
  ghost predicate OwnersOk(o: Owners) {
    |o.queues| == |o.heads| && 0 !in o.owner && (forall k :: QueueOk(o, k)) && (forall t :: SlotOk(o, t)) && (forall s :: Sits(o, s))
  }

  /** get_or_init and clearing the slot. */
  ghost function SlotTaken(o: Owners, t: nat): Owners
    requires t < |o.slots|
  {
    o.(slots := o.slots[t := 0], owner := o.owner - {o.slots[t]})
  }

  lemma SlotTakenOk(o: Owners, t: nat)
    requires OwnersOk(o) && t < |o.slots|
    ensures OwnersOk(SlotTaken(o, t))
  {
    var o' := SlotTaken(o, t);
    assert SlotOk(o, t);
    forall s
      ensures Sits(o', s)
    {
      assert Sits(o, s);
    }
    forall k
      ensures QueueOk(o', k)
    {
      assert QueueOk(o, k);
    }
    forall u
      ensures SlotOk(o', u)
    {
      assert SlotOk(o, u);
    }
  }

  ghost function SlotPut(o: Owners, t: nat, s: nat): Owners
    requires t < |o.slots|
  {
    o.(slots := o.slots[t := s], owner := o.owner[s := InSlot(t)])
  }

  lemma SlotPutOk(o: Owners, t: nat, s: nat)
    requires OwnersOk(o) && t < |o.slots| && o.slots[t] == 0 && s !in o.owner && s != 0
    ensures OwnersOk(SlotPut(o, t, s))
  {
    var o' := SlotPut(o, t, s);
    forall r
      ensures Sits(o', r)
    {
      assert Sits(o, r);
    }
    forall k
      ensures QueueOk(o', k)
    {
      assert QueueOk(o, k);
    }
    forall u
      ensures SlotOk(o', u)
    {
      assert SlotOk(o, u);
    }
  }

  /** ThreadQueue::insert. */
  ghost function Queued(o: Owners, k: nat, s: nat): Owners
    requires k < |o.heads| == |o.queues|
  {
    o.(pages := o.pages[s := o.heads[k]], heads := o.heads[k := s], queues := o.queues[k := [s] + o.queues[k]], owner := o.owner[s := InQueue(k)])
  }

  lemma QueuedOk(o: Owners, k: nat, s: nat)
    requires OwnersOk(o) && k < |o.heads| && s !in o.owner && s != 0
    ensures OwnersOk(Queued(o, k, s))
  {
    var o' := Queued(o, k, s);
    forall r
      ensures Sits(o', r)
    {
      assert Sits(o, r);
    }
    forall j: nat
      ensures QueueOk(o', j)
    {
      assert QueueOk(o, j);
      if j < |o.queues| {
        SegmentIn(o.pages, o.queues[j], 0);
        SegmentFrame(o.pages, o'.pages, o.queues[j], 0);
        assert ([s] + o.queues[j])[1..] == o.queues[j];
      }
    }
    forall u
      ensures SlotOk(o', u)
    {
      assert SlotOk(o, u);
    }
  }

  /** ThreadQueue::pop. */
  ghost function Unqueued(o: Owners, k: nat): Owners
    requires k < |o.heads| == |o.queues| && o.heads[k] in o.pages && o.queues[k] != []
  {
    var s := o.heads[k];
    o.(pages := o.pages[s := 0], heads := o.heads[k := o.pages[s]], queues := o.queues[k := o.queues[k][1..]], owner := o.owner - {s})
  }

  lemma UnqueuedOk(o: Owners, k: nat)
    requires OwnersOk(o) && k < |o.heads| && o.heads[k] != 0
    ensures o.heads[k] in o.pages && o.queues[k] != [] && o.heads[k] == o.queues[k][0] && o.heads[k] in o.owner && OwnersOk(Unqueued(o, k))
  {
    assert QueueOk(o, k);
    var s := o.heads[k];
    assert s == o.queues[k][0] && s in o.queues[k];
    var o' := Unqueued(o, k);
    forall r
      ensures Sits(o', r)
    {
      assert Sits(o, r);
      assert r in o.queues[k] && r != s ==> r in o.queues[k][1..];
    }
    forall j: nat
      ensures QueueOk(o', j)
    {
      assert QueueOk(o, j);
      if j < |o.queues| {
        var xs := if j == k then o.queues[k][1..] else o.queues[j];
        SegmentIn(o.pages, o.queues[j], 0);
        assert forall b :: b in xs ==> b in o.queues[j] && b != s;
        SegmentFrame(o.pages, o'.pages, xs, 0);
      }
    }
    forall u
      ensures SlotOk(o', u)
    {
      assert SlotOk(o, u);
    }
  }

  // ----- blocks -----

  /** The first `n` blocks from `base`, linked in order, the last one to null. */
  ghost function Run(base: nat, block: nat, n: nat): seq<nat>
    decreases n
  {
    if n == 0 then [] else [base] + Run(base + block, block, n - 1)
  }

  lemma {:induction false} RunAt(base: nat, block: nat, n: nat, i: nat)
    requires i < n
    ensures |Run(base, block, n)| == n && Run(base, block, n)[i] == base + i * block
    decreases n
  {
    if n > 1 {
      RunAt(base + block, block, n - 1, if i > 0 then i - 1 else 0);
    }
    if i > 0 {
      assert (i - 1) * block + block == i * block;
    }
  }

  lemma {:induction false} RunIn(base: nat, block: nat, n: nat, a: nat)
    ensures a in Run(base, block, n) <==> exists i: nat :: i < n && a == base + i * block
    ensures |Run(base, block, n)| == n
    decreases n
  {
    if n > 0 {
      RunIn(base + block, block, n - 1, a);
      if a in Run(base + block, block, n - 1) {
        var i: nat :| i < n - 1 && a == base + block + i * block;
        assert a == base + (i + 1) * block;
      }
      if exists i: nat :: i < n && a == base + i * block {
        var i: nat :| i < n && a == base + i * block;
        if i > 0 {
          assert a == base + block + (i - 1) * block;
        } else {
          assert a == base;
        }
      }
    }
  }

  /** Memory for a span that overlaps no span. */
  predicate FreshIn(spans: Spans, block: nat, blocks: nat, m: nat) {
    && m > 0 && m !in spans
    && forall s :: s in spans ==> BlockAt(m, block, blocks) <= s || spans[s].end <= m
  }

  class Carver {
    const block: nat
    const blocks: nat
    const numa: bool

    /** Spans by address, with the number of blocks carved so far (for the proof). */
    var spans: Spans
    ghost var done: map<nat, nat>
    /** `next_page` of the spans; the heads of the pending queues by node; the span each thread carves. */
    var pages: map<nat, nat>
    var heads: seq<nat>
    var slots: seq<nat>
    ghost var queues: seq<seq<nat>>
    ghost var owner: map<nat, Owner>
    /** Spans dropped at thread exit because their node has no queue. */
    ghost var lost: set<nat>
    /** `next` of the headers written. */
    var headers: map<nat, nat>

    ghost function Places(): Owners
      reads this
    {
      Owners(pages, heads, slots, queues, owner)
    }

    ghost predicate SpansOk()
      reads this
    {
      block > 0 && blocks > 0 && AllOk(spans, done, block, blocks)
    }

    /** A span in a slot or queue has a block left, and a span with a block left is there, apart from `hand`, which a
        refill is carving. */
    ghost predicate Holding(hand: nat)
      reads this
    {
      && SpansOk() && OwnersOk(Places()) && (forall s :: s in owner ==> Waits(s, spans, done, blocks))
      && AtHand(spans, done, blocks, owner, lost, hand) && AllQueueless(lost, spans, numa, |heads|)
    }

    /** Between operations: no span with a block left is lost, unless its thread exited and its node has no queue. */
    ghost predicate Valid()
      reads this
    {
      Holding(0)
    }

    constructor (block: nat, blocks: nat, threads: nat, nodes: nat, numa: bool)
      requires block > 0 && blocks > 0
      ensures Valid() && this.block == block && this.blocks == blocks && spans == map[] && done == map[] && headers == map[]
      ensures slots == seq(threads, _ => 0) && queues == seq(nodes, _ => []) && this.numa == numa && lost == {}
    {
      this.block, this.blocks, this.numa := block, blocks, numa;
      spans, done, pages, owner, headers, lost := map[], map[], map[], map[], map[], {};
      slots, heads, queues := seq(threads, _ => 0), seq(nodes, _ => 0), seq(nodes, _ => []);
    }

    /** The loop of init_blocks: headers are written from the last block to the first, each linked to the one behind. */
    method WriteHeaders(base: nat, count: nat) returns (head: nat, tail: nat)
      requires block > 0 && base > 0
      modifies this`headers
      ensures Chain(headers, head, Run(base, block, count))
      ensures count > 0 ==> head == base && tail == base + (count - 1) * block
      ensures forall a :: a in old(headers) && a !in Run(base, block, count) ==> a in headers && headers[a] == old(headers)[a]
    {
      head, tail := 0, 0;
      var i := count;
      while i > 0
        invariant 0 <= i <= count && Chain(headers, head, Run(base + i * block, block, count - i))
        invariant if i == count then head == 0 else head == base + i * block && tail == base + (count - 1) * block
        invariant forall a :: a in old(headers) && a !in Run(base, block, count) ==> a in headers && headers[a] == old(headers)[a]
      {
        i := i - 1;
        var a := base + i * block;
        assert a + block == base + (i + 1) * block;
        LinkFront(headers, head, a, a + block, block, count - i - 1);
        assert a in Run(base, block, count) by { RunAt(base, block, count, i); }
        headers := headers[a := head];
        if head == 0 {
          tail := a;
        }
        head := a;
      }
    }

    /** init_blocks: the next blocks of a span, at most `max`. */
    method InitBlocks(s: nat, max: nat) returns (head: nat, tail: nat, count: nat)
      requires SpansOk() && s in spans && s in done
      modifies this`spans, this`done, this`headers
      ensures SpansOk() && s in spans && spans == old(spans)[s := spans[s]] && done == old(done)[s := old(done[s]) + count]
      ensures count == Min(old(blocks - done[s]), max) && spans[s].node == old(spans[s].node)
      ensures Chain(headers, head, Run(BlockAt(s, block, old(done[s])), block, count))
      ensures count > 0 ==> tail == BlockAt(s, block, done[s] - 1)
    {
      hide AllOk, Chain, Run;
      AllOkAt(spans, done, block, blocks, s);
      RemainingBlocks(s, spans[s], block, blocks, done[s]);
      var remaining := Remaining(spans[s], block);
      if remaining == 0 {
        assert done == done[s := done[s]];
        NoBlocks(headers, BlockAt(s, block, done[s]), block);
        return 0, 0, 0;
      }
      count := if remaining < max then remaining else max;
      var base := spans[s].next;
      head, tail := WriteHeaders(base, count);
      NextBlock(s, block, done[s], count);
      Advanced(spans, done, block, blocks, s, count);
      spans := spans[s := spans[s].(next := Past(base, block, count))];
      done := done[s := done[s] + count];
    }

    /** What a refill hands out: the next blocks of one span, in order, `max` or all that are left, that nobody carved
        before. */
    ghost predicate HandsOut(before: map<nat, nat>, s: nat, max: nat, head: nat, tail: nat, count: nat)
      reads this
    {
      && s in done && count > 0 && CarvedIn(before, s) <= blocks && count == Min(blocks - CarvedIn(before, s), max)
      && CarvedIn(before, s) + count == done[s] <= blocks
      && done == before[s := done[s]]
      && Chain(headers, head, Run(BlockAt(s, block, done[s] - count), block, count))
      && tail == BlockAt(s, block, done[s] - 1)
    }

    /** The queue a node's spans go to. */
    function QueueOf(node: nat): nat { if numa then node else 0 }

    /** The first pending span of the node, null if there is none. */
    ghost function Pending(node: nat): nat
      reads this
    {
      if QueueOf(node) < |queues| && queues[QueueOf(node)] != [] then queues[QueueOf(node)][0] else 0
    }

    ghost function PendingAfter(node: nat): seq<seq<nat>>
      reads this
    {
      if QueueOf(node) < |queues| && queues[QueueOf(node)] != [] then queues[QueueOf(node) := queues[QueueOf(node)][1..]] else queues
    }

    /** alloc_metadata: the first pending span of the node, else a new one.  `mem` is the page allocator's answer. */
    method AllocMetadata(node: nat, mem: Option<nat>) returns (s: nat)
      requires Valid() && (mem.Some? ==> FreshSpan(mem.value))
      modifies this`spans, this`done, this`pages, this`heads, this`queues, this`owner
      ensures Holding(s) && queues == old(PendingAfter(node))
      ensures s == if old(Pending(node)) != 0 then old(Pending(node)) else if mem.Some? then mem.value else 0
      ensures s == 0 ==> unchanged(this)
      ensures s != 0 ==> Waits(s, spans, done, blocks) && s !in owner && s !in lost
      ensures old(Pending(node)) != 0 ==> spans == old(spans) && done == old(done)
      ensures old(Pending(node)) == 0 && mem.Some? ==> spans == old(spans)[s := Span(BlockAt(s, block, blocks), s + METADATA, node)]
      ensures old(Pending(node)) == 0 && mem.Some? ==> done == old(done)[s := 0] && s !in old(done)
    {
      hide AllOk, OwnersOk, AtHand, AllQueueless;
      var k := QueueOf(node);
      SameLengths(Places());
      SameKeys(spans, done, block, blocks);
      NoNull(spans, done, block, blocks);
      HeadOrNone(Places(), k);
      if k < |heads| && heads[k] != 0 {
        s := heads[k];
        UnqueuedOk(Places(), k);
        HandTaken(spans, done, blocks, owner, lost, s);
        heads := heads[k := pages[s]];
        pages := pages[s := 0];
        queues, owner := queues[k := queues[k][1..]], owner - {s};
        NotNull(spans, done, block, blocks, s);
        return s;
      }
      if mem.None? {
        return 0;
      }
      s := mem.value;
      SpanAdded(spans, done, block, blocks, s, node);
      HandNew(spans, done, blocks, owner, lost, numa, |heads|, s, Span(BlockAt(s, block, blocks), s + METADATA, node));
      spans := spans[s := Span(BlockAt(s, block, blocks), s + METADATA, node)];
      done := done[s := 0];
      StillWaiting(old(spans), old(done), blocks, owner, s, spans, done);
    }

    predicate FreshSpan(m: nat)
      reads this
    {
      FreshIn(spans, block, blocks, m)
    }

    /** The span that a refill of thread `t` carves: the one in its slot, else the first pending one of the node, else a
        new one; null if there is none. */
    ghost function Carves(t: nat, node: nat, mem: Option<nat>): nat
      requires t < |slots|
      reads this
    {
      if slots[t] != 0 then slots[t] else if Pending(node) != 0 then Pending(node) else if mem.Some? then mem.value else 0
    }

    /** bulk_fill.  It fails exactly if there is no span at hand, none pending, and no memory; what is left of a span
        stays in the slot of the thread. */
    method BulkFill(t: nat, node: nat, max: nat, mem: Option<nat>) returns (r: Option<(nat, nat, nat)>, ghost s: nat)
      requires Valid() && t < |slots| && max > 0 && (mem.Some? ==> FreshSpan(mem.value))
      modifies this`spans, this`done, this`pages, this`heads, this`queues, this`owner, this`slots, this`headers
      ensures Valid() && s == old(Carves(t, node, mem)) && (r.None? <==> s == 0)
      ensures r.None? ==> unchanged(this)
      ensures r.Some? ==> HandsOut(old(done), s, max, r.value.0, r.value.1, r.value.2)
      ensures r.Some? ==> s in done && slots == old(slots)[t := if done[s] < blocks then s else 0]
      ensures queues == if old(slots[t]) != 0 then old(queues) else old(PendingAfter(node))
      ensures r.Some? ==> s in spans && spans == old(spans)[s := spans[s]]
      ensures r.Some? ==> spans[s].node == if s in old(spans) then old(spans)[s].node else node
    {
      hide AllOk, OwnersOk, Chain, Run, BlockAt, AtHand, AllQueueless;
      SameKeys(spans, done, block, blocks);
      NoNull(spans, done, block, blocks);
      var span := slots[t];
      s := span;
      if span != 0 {
        SlotOwner(Places(), t);
        SlotTakenOk(Places(), t);
        HandTaken(spans, done, blocks, owner, lost, span);
        slots, owner := slots[t := 0], owner - {span};
      } else {
        assert slots == slots[t := 0];
        span := AllocMetadata(node, mem);
        s := span;
        if span == 0 {
          return None, 0;
        }
      }
      ghost var done0 := done;
      var head, tail, count := CarveFrom(span, max);
      KeepRest(t, span);
      return Some((head, tail, count)), span;
    }

    /** The span in hand is carved further. */
    method CarveFrom(s: nat, max: nat) returns (head: nat, tail: nat, count: nat)
      requires Holding(s) && Waits(s, spans, done, blocks) && s !in owner && s !in lost && max > 0
      modifies this`spans, this`done, this`headers
      ensures Holding(s) && s in done && s in spans && spans == old(spans)[s := spans[s]] && spans[s].node == old(spans[s].node)
      ensures done == old(done)[s := old(done[s]) + count] && count == Min(old(blocks - done[s]), max) && count > 0
      ensures Chain(headers, head, Run(BlockAt(s, block, old(done[s])), block, count)) && tail == BlockAt(s, block, done[s] - 1)
    {
      hide AllOk, OwnersOk, Chain, Run, BlockAt, AtHand, AllQueueless;
      ghost var spans0, done0 := spans, done;
      head, tail, count := InitBlocks(s, max);
      StillWaiting(spans0, done0, blocks, owner, s, spans, done);
      HandCarved(spans0, done0, spans, done, blocks, owner, lost, numa, |heads|, s);
    }

    /** What is left of the span in hand goes to the thread's slot. */
    method KeepRest(t: nat, s: nat)
      requires Holding(s) && s != 0 && s in spans && s in done && s !in owner && s !in lost && t < |slots| && slots[t] == 0
      modifies this`slots, this`owner
      ensures Valid() && slots == old(slots)[t := if done[s] < blocks then s else 0]
    {
      hide AllOk, OwnersOk, AtHand, AllQueueless;
      RemainingAt(spans, done, block, blocks, s);
      NoNull(spans, done, block, blocks);
      assert slots == slots[t := 0];
      HandPut(spans, done, blocks, owner, lost, s, InSlot(t));
      if Remaining(spans[s], block) > 0 {
        SlotPutOk(Places(), t, s);
        slots, owner := slots[t := s], owner[s := InSlot(t)];
      }
    }

    /** drain_pending at thread exit: the span goes to the queue of its node, or is dropped if there is none. */
    method Drain(t: nat) returns (q: Option<nat>)
      requires Valid() && t < |slots|
      modifies this`slots, this`pages, this`heads, this`queues, this`owner, this`lost
      ensures Valid() && slots == old(slots)[t := 0]
      ensures q.None? ==> queues == old(queues)
      ensures old(slots[t]) != 0 ==> old(slots[t]) in spans
      ensures q.Some? <==> old(slots[t]) != 0 && QueueOf(spans[old(slots[t])].node) < |old(queues)|
      ensures q.Some? ==> q.value == QueueOf(spans[old(slots[t])].node) && q.value < |old(queues)|
      ensures q.Some? ==> queues == old(queues)[q.value := [old(slots[t])] + old(queues)[q.value]]
      ensures lost == old(lost) + if old(slots[t]) != 0 && q.None? then {old(slots[t])} else {}
    {
      hide AllOk, OwnersOk, AtHand, AllQueueless;
      NoNull(spans, done, block, blocks);
      var s := slots[t];
      if s == 0 {
        assert slots[t := 0] == slots;
        return None;
      }
      SlotOwner(Places(), t);
      SlotTakenOk(Places(), t);
      HandTaken(spans, done, blocks, owner, lost, s);
      slots, owner := slots[t := 0], owner - {s};
      var k := QueueOf(spans[s].node);
      SameLengths(Places());
      if k < |heads| {
        HandPut(spans, done, blocks, owner, lost, s, InQueue(k));
        QueuedOk(Places(), k, s);
        pages := pages[s := heads[k]];
        heads := heads[k := s];
        queues, owner := queues[k := [s] + queues[k]], owner[s := InQueue(k)];
        return Some(k);
      }
      HandDropped(spans, done, blocks, owner, lost, numa, |heads|, s);
      lost := lost + {s};
      return None;
    }
  }

  // ----- spans with blocks left -----

  /** How many blocks of a span are carved. */
  ghost function CarvedIn(done: map<nat, nat>, s: nat): nat { if s in done then done[s] else 0 }

  /** Every span with a block left is in a slot or queue, was lost, or is the one in hand; none is both kept and lost. */
  ghost predicate AtHand(spans: Spans, done: map<nat, nat>, blocks: nat, owner: map<nat, Owner>, lost: set<nat>, hand: nat) {
    && (forall s :: Waits(s, spans, done, blocks) ==> s in owner || s in lost || s == hand)
    && (forall s :: s in lost ==> s !in owner && s != hand && s != 0)
  }

  /** A lost span belongs to a node without a queue. */
  ghost predicate AllQueueless(lost: set<nat>, spans: Spans, numa: bool, queues: nat) {
    forall s :: s in lost ==> s in spans && (if numa then spans[s].node else 0) >= queues
  }

  lemma HandTaken(spans: Spans, done: map<nat, nat>, blocks: nat, owner: map<nat, Owner>, lost: set<nat>, s: nat)
    requires AtHand(spans, done, blocks, owner, lost, 0) && s in owner && (forall o :: o in owner ==> Waits(o, spans, done, blocks)) && 0 !in spans
    ensures AtHand(spans, done, blocks, owner - {s}, lost, s) && s !in lost
  {
  }

  lemma HandNew(spans: Spans, done: map<nat, nat>, blocks: nat, owner: map<nat, Owner>, lost: set<nat>, numa: bool, queues: nat, s: nat, span: Span)
    requires AtHand(spans, done, blocks, owner, lost, 0) && AllQueueless(lost, spans, numa, queues) && s !in spans && 0 !in spans
    ensures AtHand(spans[s := span], done[s := 0], blocks, owner, lost, s) && AllQueueless(lost, spans[s := span], numa, queues) && s !in lost
  {
    forall o | Waits(o, spans[s := span], done[s := 0], blocks)
      ensures o in owner || o in lost || o == s
    {
      assert o != s ==> Waits(o, spans, done, blocks);
    }
  }

  lemma HandCarved(spans: Spans, done: map<nat, nat>, spans': Spans, done': map<nat, nat>, blocks: nat, owner: map<nat, Owner>, lost: set<nat>,
                   numa: bool, queues: nat, s: nat)
    requires AtHand(spans, done, blocks, owner, lost, s) && AllQueueless(lost, spans, numa, queues)
    requires s in spans' && spans' == spans[s := spans'[s]] && s in done' && done' == done[s := done'[s]]
    ensures AtHand(spans', done', blocks, owner, lost, s) && AllQueueless(lost, spans', numa, queues)
  {
    forall o | Waits(o, spans', done', blocks)
      ensures o in owner || o in lost || o == s
    {
      assert o != s ==> Waits(o, spans, done, blocks);
    }
  }

  lemma HandPut(spans: Spans, done: map<nat, nat>, blocks: nat, owner: map<nat, Owner>, lost: set<nat>, s: nat, o: Owner)
    requires AtHand(spans, done, blocks, owner, lost, s) && 0 !in spans
    ensures AtHand(spans, done, blocks, owner[s := o], lost, 0)
    ensures !Waits(s, spans, done, blocks) ==> AtHand(spans, done, blocks, owner, lost, 0)
  {
  }

  lemma HandDropped(spans: Spans, done: map<nat, nat>, blocks: nat, owner: map<nat, Owner>, lost: set<nat>, numa: bool, queues: nat, s: nat)
    requires AtHand(spans, done, blocks, owner, lost, s) && AllQueueless(lost, spans, numa, queues) && 0 !in spans
    requires s in spans && s !in owner && (if numa then spans[s].node else 0) >= queues
    ensures AtHand(spans, done, blocks, owner, lost + {s}, 0) && AllQueueless(lost + {s}, spans, numa, queues)
  {
  }

  lemma HeadOrNone(o: Owners, k: nat)
    requires OwnersOk(o)
    ensures k < |o.heads| ==> (o.heads[k] != 0 <==> o.queues[k] != []) && (o.queues[k] != [] ==> o.heads[k] == o.queues[k][0])
  {
    assert QueueOk(o, k);
  }

  lemma SameLengths(o: Owners)
    requires OwnersOk(o)
    ensures |o.queues| == |o.heads|
  {
  }

  lemma StillWaiting(spans: Spans, done: map<nat, nat>, blocks: nat, owner: map<nat, Owner>, s: nat, spans': Spans, done': map<nat, nat>)
    requires (forall o :: o in owner ==> Waits(o, spans, done, blocks)) && s !in owner
    requires s in done' && done' == done[s := done'[s]] && s in spans' && spans' == spans[s := spans'[s]]
    ensures forall o :: o in owner ==> Waits(o, spans', done', blocks)
  {
    forall o | o in owner
      ensures Waits(o, spans', done', blocks)
    {
      assert Waits(o, spans, done, blocks);
    }
  }

  lemma SameKeys(spans: Spans, done: map<nat, nat>, block: nat, blocks: nat)
    requires AllOk(spans, done, block, blocks)
    ensures done.Keys == spans.Keys
  {
  }

  lemma NoNull(spans: Spans, done: map<nat, nat>, block: nat, blocks: nat)
    requires AllOk(spans, done, block, blocks)
    ensures 0 !in spans
  {
    assert forall s :: s in spans ==> s > 0;
  }

  lemma NotNull(spans: Spans, done: map<nat, nat>, block: nat, blocks: nat, s: nat)
    requires AllOk(spans, done, block, blocks) && s in spans
    ensures s > 0
  {
  }

  lemma RemainingAt(spans: Spans, done: map<nat, nat>, block: nat, blocks: nat, s: nat)
    requires AllOk(spans, done, block, blocks) && s in spans && block > 0
    ensures s in done && Remaining(spans[s], block) == blocks - done[s]
  {
    RemainingBlocks(s, spans[s], block, blocks, done[s]);
  }

  lemma SlotOwner(o: Owners, t: nat)
    requires OwnersOk(o) && t < |o.slots| && o.slots[t] != 0
    ensures o.slots[t] in o.owner
  {
    assert SlotOk(o, t);
  }

  /** A new span in fresh memory. */
  lemma SpanAdded(spans: Spans, done: map<nat, nat>, block: nat, blocks: nat, m: nat, node: nat)
    requires AllOk(spans, done, block, blocks) && m > 0 && m !in spans
    requires forall s :: s in spans ==> BlockAt(m, block, blocks) <= s || spans[s].end <= m
    ensures AllOk(spans[m := Span(BlockAt(m, block, blocks), m + METADATA, node)], done[m := 0], block, blocks)
  {
    hide BlockAt;
    assert m + METADATA == BlockAt(m, block, 0) by { FirstBlock(m, block); }
  }

  lemma FirstBlock(m: nat, block: nat)
    ensures BlockAt(m, block, 0) == m + METADATA
  {
  }

  /** The blocks carved so far. */
  ghost predicate Carved(done: map<nat, nat>, block: nat, a: nat) {
    exists s, i: nat :: s in done && i < done[s] && a == BlockAt(s, block, i)
  }

  lemma BlockInside(s: nat, block: nat, blocks: nat, i: nat)
    requires i < blocks
    ensures s + METADATA <= BlockAt(s, block, i) && BlockAt(s, block, i) + block <= BlockAt(s, block, blocks)
  {
    assert (i + 1) * block == i * block + block;
    assert (i + 1) * block <= blocks * block;
  }

  /** Two blocks do not overlap. */
  predicate Clear(a: nat, b: nat, block: nat) { a + block <= b || b + block <= a }

  lemma BlocksClear(s: nat, block: nat, i: nat, j: nat)
    requires i > j
    ensures BlockAt(s, block, j) + block <= BlockAt(s, block, i)
  {
    var d := i - j;
    Sum(j, d, block);
    AtLeast(d, block);
  }

  lemma Sum(j: nat, d: nat, b: nat)
    ensures (j + d) * b == j * b + d * b
  {
  }

  lemma AtLeast(d: nat, b: nat)
    requires d >= 1
    ensures d * b >= b
  {
  }

  /** Every block of a refill is carved by it, inside the span and behind its metadata, and overlaps no block carved
      before: each block is initialised exactly once. */
  lemma CarvedOnce(spans: Spans, before: map<nat, nat>, after: map<nat, nat>, block: nat, blocks: nat, s: nat, count: nat, i: nat)
    requires AllOk(spans, after, block, blocks) && block > 0 && s in after && s in spans && after == before[s := after[s]]
    requires count <= after[s] <= blocks && i < count && (if s in before then before[s] else 0) + count == after[s]
    ensures
      var a := BlockAt(s, block, after[s] - count + i);
      && a in Run(BlockAt(s, block, after[s] - count), block, count) && Carved(after, block, a)
      && (forall b :: Carved(before, block, b) ==> Clear(a, b, block))
      && s + METADATA <= a && a + block <= spans[s].end
  {
    hide AllOk, BlockAt, Run;
    var d := after[s] - count;
    var a := BlockAt(s, block, d + i);
    NextBlock(s, block, d, i);
    RunAt(BlockAt(s, block, d), block, count, i);
    assert Past(BlockAt(s, block, d), block, i) == a;
    AllOkAt(spans, after, block, blocks, s);
    BlockInside(s, block, blocks, d + i);
    forall b | Carved(before, block, b)
      ensures Clear(a, b, block)
    {
      var t, j: nat :| t in before && j < before[t] && b == BlockAt(t, block, j);
      ClearOfEarlier(spans, after, block, blocks, s, d + i, t, j);
    }
  }

  lemma ClearOfEarlier(spans: Spans, done: map<nat, nat>, block: nat, blocks: nat, s: nat, i: nat, t: nat, j: nat)
    requires AllOk(spans, done, block, blocks) && s in done && t in done && i < done[s] && j < done[t] && (t == s ==> j < i)
    ensures Clear(BlockAt(s, block, i), BlockAt(t, block, j), block)
  {
    hide BlockAt;
    AllOkAt(spans, done, block, blocks, s);
    AllOkAt(spans, done, block, blocks, t);
    BlockInside(s, block, blocks, i);
    BlockInside(t, block, blocks, j);
    if t == s {
      BlocksClear(s, block, i, j);
    } else {
      assert Disjoint(s, spans[s], t, spans[t]);
    }
  }

  ghost predicate Waits(s: nat, spans: Spans, done: map<nat, nat>, blocks: nat) { s in spans && s in done && done[s] < blocks }

  lemma NoBlocks(headers: map<nat, nat>, base: nat, block: nat)
    ensures Chain(headers, 0, Run(base, block, 0))
  {
  }

  lemma NextBlock(start: nat, block: nat, d: nat, n: nat)
    ensures Past(BlockAt(start, block, d), block, n) == BlockAt(start, block, d + n)
    ensures n > 0 ==> BlockAt(start, block, d) + (n - 1) * block == BlockAt(start, block, d + n - 1)
  {
  }

  /** Writing a header in front of a run of later blocks. */
  lemma LinkFront(headers: map<nat, nat>, head: nat, a: nat, base: nat, block: nat, n: nat)
    requires Chain(headers, head, Run(base, block, n)) && a < base && block > 0
    ensures Chain(headers[a := head], a, [a] + Run(base, block, n))
  {
    var xs := Run(base, block, n);
    SegmentIn(headers, xs, 0);
    forall b | b in xs
      ensures b != a
    {
      RunIn(base, block, n, b);
    }
    SegmentFrame(headers, headers[a := head], xs, 0);
    assert ([a] + xs)[1..] == xs;
  }
}
