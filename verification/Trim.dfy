/** Trimming a detached list: each block goes back exactly once, in well-formed chains. */
module Trim {
  import opened Layout
  import opened Circulation
  import opened CirculationInv

  type Links = map<nat, nat>

  /** A call that gives blocks back: transfer_push_batch, or a single push to the normal or the trimmed list. */
  datatype Call = Call(kind: Kind, head: nat, tail: nat)

  /** Page advice for a block: the range of bytes, and how many calls had given blocks back before. */
  datatype Advice = Advice(block: nat, start: nat, end: nat, before: nat)

  ghost function Given(chains: seq<seq<nat>>): multiset<nat> {
    if chains == [] then multiset{} else multiset(chains[0]) + Given(chains[1..])
  }

  lemma GivenNone(chains: seq<seq<nat>>)
    ensures chains == [] ==> Given(chains) == multiset{}
  {
  }

  lemma {:induction false} GivenMore(chains: seq<seq<nat>>, chain: seq<nat>)
    ensures Given(chains + [chain]) == Given(chains) + multiset(chain)
  {
    if chains == [] {
      assert chains + [chain] == [chain];
      assert [chain][1..] == [];
    } else {
      assert (chains + [chain])[1..] == chains[1..] + [chain];
      GivenMore(chains[1..], chain);
    }
  }

  /** At the time of the call, the links lead from its head through `chain` to its tail. */
  ghost predicate CallOk(next: Links, c: Call, chain: seq<nat>) {
    && chain != [] && |chain| <= REPUSH_BATCH && Distinct(chain) && c.head == chain[0] && c.tail == Last(chain)
    && Segment(next, chain[..|chain| - 1], c.tail)
  }

  ghost predicate NoShare(xs: seq<nat>, ys: seq<nat>) { forall b :: b in xs ==> b !in ys }

  /** A list in hand. */
  ghost predicate ListIn(next: Links, p: nat, xs: seq<nat>) { Chain(next, p, xs) && Distinct(xs) && 0 !in xs }

  /** The three lists in the trimmer's hands. */
  ghost predicate Hands(next: Links, trim: nat, ts: seq<nat>, push: nat, ps: seq<nat>, cur: nat, rs: seq<nat>) {
    && ListIn(next, trim, ts) && ListIn(next, push, ps) && ListIn(next, cur, rs)
    && NoShare(ts, ps) && NoShare(ts, rs) && NoShare(ps, rs)
  }

  /** The first block of a list moves in front of another. */
  lemma MoveFirst(next: Links, p: nat, xs: seq<nat>, cur: nat, rs: seq<nat>)
    requires ListIn(next, p, xs) && ListIn(next, cur, rs) && NoShare(xs, rs) && cur != 0
    ensures rs != [] && cur == rs[0] && cur in next
    ensures ListIn(next[cur := p], cur, [cur] + xs) && ListIn(next[cur := p], next[cur], rs[1..]) && NoShare([cur] + xs, rs[1..])
  {
    assert rs == [cur] + rs[1..];
    Fronted(next, p, xs, cur);
    Kept(next, next[cur := p], next[cur], rs[1..]);
  }

  /** A third list does not notice. */
  lemma Bystander(next: Links, q: nat, ys: seq<nat>, cur: nat, rs: seq<nat>, p: nat, xs: seq<nat>)
    requires ListIn(next, q, ys) && rs != [] && cur == rs[0] && NoShare(ys, rs) && NoShare(ys, xs)
    ensures ListIn(next[cur := p], q, ys) && NoShare(ys, rs[1..]) && NoShare(ys, [cur] + xs)
  {
    assert rs == [cur] + rs[1..];
    Kept(next, next[cur := p], q, ys);
  }

  /** A block is put in front of a list. */
  lemma Fronted(next: Links, head: nat, xs: seq<nat>, n: nat)
    requires Chain(next, head, xs) && n !in xs
    ensures Chain(next[n := head], n, [n] + xs)
  {
    SegmentIn(next, xs, 0);
    SegmentFrame(next, next[n := head], xs, 0);
    assert ([n] + xs)[1..] == xs;
  }

  lemma Kept(next: Links, next': Links, p: nat, xs: seq<nat>)
    requires Chain(next, p, xs) && forall b :: b in xs && b in next ==> b in next' && next'[b] == next[b]
    ensures Chain(next', p, xs)
  {
    SegmentIn(next, xs, 0);
    SegmentFrame(next, next', xs, 0);
  }

  /** A list in hand is linked from head to tail. */
  lemma Batch(next: Links, push: nat, ps: seq<nat>)
    requires Chain(next, push, ps) && Distinct(ps) && ps != []
    ensures Segment(next, ps[..|ps| - 1], Last(ps))
  {
    assert ps == ps[..|ps| - 1] + [Last(ps)];
    SegmentConcat(next, ps[..|ps| - 1], [Last(ps)], 0);
  }

  /** Once a chain is given away, others may relink its blocks. */
  ghost predicate OnlyRelinks(next: Links, next': Links, given: seq<nat>) {
    forall b :: b in next && b !in given ==> b in next' && next'[b] == next[b]
  }

  lemma GivenAway(next: Links, next': Links, trim: nat, ts: seq<nat>, push: nat, ps: seq<nat>, cur: nat, rs: seq<nat>)
    requires Hands(next, trim, ts, push, ps, cur, rs) && OnlyRelinks(next, next', ps)
    ensures Hands(next', trim, ts, 0, [], cur, rs)
  {
    Kept(next, next', trim, ts);
    Kept(next, next', cur, rs);
  }

  // ----- which block goes where, and in what order -----

  /** Old blocks are to be trimmed, the others were pushed back. */
  ghost predicate Sorted(calls: seq<Call>, chains: seq<seq<nat>>, old': set<nat>, ts: seq<nat>, ps: seq<nat>) {
    && (forall b :: b in ts ==> b in old') && (forall b :: b in ps ==> b !in old')
    && (forall c :: c in calls ==> c.kind == Normal)
    && forall b :: b in Given(chains) ==> b !in old'
  }

  lemma SortedGiven(calls: seq<Call>, chains: seq<seq<nat>>, old': set<nat>, ts: seq<nat>, ps: seq<nat>, c: Call)
    requires Sorted(calls, chains, old', ts, ps) && c.kind == Normal
    ensures Sorted(calls + [c], chains + [ps], old', ts, [])
  {
    GivenMore(chains, ps);
  }

  ghost function Rev(s: seq<nat>): seq<nat> { if s == [] then [] else Rev(s[1..]) + [s[0]] }

  /** The blocks of a list that are old, or those that are not. */
  ghost function Pick(xs: seq<nat>, old': set<nat>, yes: bool): seq<nat> {
    if xs == [] then [] else (if (xs[0] in old') == yes then [xs[0]] else []) + Pick(xs[1..], old', yes)
  }

  /** The chains read backwards, one after the other. */
  ghost function Unbatched(chains: seq<seq<nat>>): seq<nat> {
    if chains == [] then [] else Unbatched(chains[..|chains| - 1]) + Rev(chains[|chains| - 1])
  }

  lemma UnbatchedMore(chains: seq<seq<nat>>, chain: seq<nat>)
    ensures Unbatched(chains + [chain]) == Unbatched(chains) + Rev(chain)
  {
    assert (chains + [chain])[..|chains|] == chains;
  }

  lemma RevFront(b: nat, s: seq<nat>)
    ensures Rev([b] + s) == Rev(s) + [b]
  {
    assert ([b] + s)[1..] == s;
  }

  lemma {:induction false} PickHas(xs: seq<nat>, old': set<nat>, yes: bool, b: nat)
    ensures b in Pick(xs, old', yes) <==> b in xs && (b in old') == yes
  {
    if xs != [] {
      PickHas(xs[1..], old', yes, b);
    }
  }

  lemma {:induction false} RevHas(s: seq<nat>, b: nat)
    ensures b in Rev(s) <==> b in s
  {
    if s != [] {
      RevHas(s[1..], b);
    }
  }

  /** Old blocks collect in reverse, young ones leave in batches of sixteen, each in reverse. */
  ghost predicate InOrder(chains: seq<seq<nat>>, xs: seq<nat>, old': set<nat>, ts: seq<nat>, ps: seq<nat>, rs: seq<nat>) {
    && Rev(Pick(rs, old', true)) + ts == Rev(Pick(xs, old', true))
    && Unbatched(chains) + Rev(ps) + Pick(rs, old', false) == Pick(xs, old', false)
    && forall i :: 0 <= i < |chains| ==> |chains[i]| == REPUSH_BATCH
  }

  lemma OrderStart(xs: seq<nat>, old': set<nat>)
    ensures InOrder([], xs, old', [], [], xs)
  {
  }

  lemma OrderOld(chains: seq<seq<nat>>, xs: seq<nat>, old': set<nat>, ts: seq<nat>, ps: seq<nat>, rs: seq<nat>)
    requires InOrder(chains, xs, old', ts, ps, rs) && rs != [] && rs[0] in old'
    ensures InOrder(chains, xs, old', [rs[0]] + ts, ps, rs[1..])
  {
    RevFront(rs[0], Pick(rs[1..], old', true));
    assert Rev(Pick(rs[1..], old', true)) + ([rs[0]] + ts) == Rev(Pick(rs[1..], old', true)) + [rs[0]] + ts;
    assert [] + Pick(rs[1..], old', false) == Pick(rs[1..], old', false);
  }

  lemma OrderYoung(chains: seq<seq<nat>>, xs: seq<nat>, old': set<nat>, ts: seq<nat>, ps: seq<nat>, rs: seq<nat>)
    requires InOrder(chains, xs, old', ts, ps, rs) && rs != [] && rs[0] !in old'
    ensures InOrder(chains, xs, old', ts, [rs[0]] + ps, rs[1..])
  {
    RevFront(rs[0], ps);
    var rest := Pick(rs[1..], old', false);
    assert Unbatched(chains) + (Rev(ps) + [rs[0]]) + rest == Unbatched(chains) + Rev(ps) + ([rs[0]] + rest);
    assert [] + Pick(rs[1..], old', true) == Pick(rs[1..], old', true);
  }

  lemma OrderRepush(chains: seq<seq<nat>>, xs: seq<nat>, old': set<nat>, ts: seq<nat>, ps: seq<nat>, rs: seq<nat>)
    requires InOrder(chains, xs, old', ts, ps, rs) && |ps| == REPUSH_BATCH
    ensures InOrder(chains + [ps], xs, old', ts, [], rs)
  {
    UnbatchedMore(chains, ps);
  }

  /** The old blocks in reverse are left to trim; the young ones went back in full batches and a last one. */
  ghost predicate Batched(chains: seq<seq<nat>>, xs: seq<nat>, old': set<nat>) {
    && Unbatched(chains) == Pick(xs, old', false)
    && forall i :: 0 <= i < |chains| - 1 ==> |chains[i]| == REPUSH_BATCH
  }

  lemma OrderDone(chains: seq<seq<nat>>, xs: seq<nat>, old': set<nat>, ts: seq<nat>, ps: seq<nat>)
    requires InOrder(chains, xs, old', ts, ps, [])
    ensures ts == Rev(Pick(xs, old', true)) && Batched(if ps == [] then chains else chains + [ps], xs, old')
  {
    UnbatchedMore(chains, ps);
  }

  class Trimmer {
    /** `Header::next` of all blocks. */
    var next: Links
    /** The calls made; for the proof, the chains given and the memory at each call. */
    var calls: seq<Call>
    ghost var chains: seq<seq<nat>>
    ghost var seen: seq<Links>
    /** The advice given, and the payload size of a block. */
    var advice: seq<Advice>
    const size: nat

    ghost predicate CallsOk()
      reads this`calls, this`chains, this`seen
    {
      |chains| == |calls| && |seen| == |calls| && forall i :: 0 <= i < |calls| ==> CallOk(seen[i], calls[i], chains[i])
    }

    constructor (next: Links, size: nat)
      ensures this.next == next && this.size == size && calls == [] && chains == [] && advice == [] && CallsOk()
    {
      this.next, this.size, calls, chains, seen, advice := next, size, [], [], [], [];
    }

    /** A push; from then on the blocks belong to others, who may relink them at any time. */
    method Give(kind: Kind, head: nat, tail: nat, ghost chain: seq<nat>)
      requires CallsOk() && CallOk(next, Call(kind, head, tail), chain)
      modifies this`next, this`calls, this`chains, this`seen
      ensures CallsOk() && OnlyRelinks(old(next), next, chain)
      ensures calls == old(calls) + [Call(kind, head, tail)] && chains == old(chains) + [chain]
      ensures Given(chains) == old(Given(chains)) + multiset(chain)
    {
      GivenMore(chains, chain);
      seen, chains := seen + [next], chains + [chain];
      calls := calls + [Call(kind, head, tail)];
      Interfere(chain);
    }

    /** What others do to blocks that were given away. */
    method Interfere(ghost chain: seq<nat>)
      modifies this`next
      ensures OnlyRelinks(old(next), next, chain)
    {
    }

    method ToTrim(trim: nat, cur: nat, ghost ts: seq<nat>, ghost push: nat, ghost ps: seq<nat>, ghost rs: seq<nat>) returns (after: nat)
      requires Hands(next, trim, ts, push, ps, cur, rs) && cur != 0
      modifies this`next
      ensures rs != [] && rs == [cur] + rs[1..] && Hands(next, cur, [cur] + ts, push, ps, after, rs[1..])
    {
      MoveFirst(next, trim, ts, cur, rs);
      Bystander(next, push, ps, cur, rs, trim, ts);
      hide ListIn;
      after := next[cur];
      next := next[cur := trim];
    }

    method ToPush(push: nat, cur: nat, ghost trim: nat, ghost ts: seq<nat>, ghost ps: seq<nat>, ghost rs: seq<nat>) returns (after: nat)
      requires Hands(next, trim, ts, push, ps, cur, rs) && cur != 0
      modifies this`next
      ensures rs != [] && rs == [cur] + rs[1..] && Hands(next, trim, ts, cur, [cur] + ps, after, rs[1..])
    {
      MoveFirst(next, push, ps, cur, rs);
      Bystander(next, trim, ts, cur, rs, push, ps);
      hide ListIn;
      after := next[cur];
      next := next[cur := push];
    }

    /** What holds while sorting: every detached block is to be trimmed, to be pushed, still to be sorted, or given. */
    ghost predicate Sorting(xs: seq<nat>, old': set<nat>, trim: nat, ts: seq<nat>, push: nat, start: nat, ps: seq<nat>, cur: nat, rs: seq<nat>)
      reads this
    {
      && CallsOk() && Hands(next, trim, ts, push, ps, cur, rs) && Sorted(calls, chains, old', ts, ps)
      && |ps| < REPUSH_BATCH && (ps != [] ==> start == Last(ps))
      && Given(chains) + multiset(ts) + multiset(ps) + multiset(rs) == multiset(xs)
      && InOrder(chains, xs, old', ts, ps, rs)
    }

    method SortOld(ghost xs: seq<nat>, ghost old': set<nat>, trim: nat, ghost ts: seq<nat>, ghost push: nat, ghost start: nat, ghost ps: seq<nat>,
                   cur: nat, ghost rs: seq<nat>) returns (after: nat)
      requires Sorting(xs, old', trim, ts, push, start, ps, cur, rs) && cur != 0 && cur in old'
      modifies this`next, this`calls, this`chains, this`seen
      ensures rs != [] && Sorting(xs, old', cur, [cur] + ts, push, start, ps, after, rs[1..])
    {
      hide Hands, Given, CallOk, InOrder;
      after := ToTrim(trim, cur, ts, push, ps, rs);
      OrderOld(chains, xs, old', ts, ps, rs);
      assert multiset(rs) == multiset{cur} + multiset(rs[1..]);
    }

    /** A young block joins the batch; a full batch is given back at once. */
    method SortYoung(ghost xs: seq<nat>, ghost old': set<nat>, ghost trim: nat, ghost ts: seq<nat>,
                     push: nat, start: nat, total: nat, ghost ps: seq<nat>,
                     cur: nat, ghost rs: seq<nat>) returns (push': nat, start': nat, total': nat, after: nat, ghost ps': seq<nat>)
      requires Sorting(xs, old', trim, ts, push, start, ps, cur, rs) && cur != 0 && cur !in old' && total == |ps|
      modifies this`next, this`calls, this`chains, this`seen
      ensures rs != [] && Sorting(xs, old', trim, ts, push', start', ps', after, rs[1..]) && total' == |ps'|
    {
      hide Hands, Given, CallOk, InOrder;
      after := ToPush(push, cur, trim, ts, ps, rs);
      OrderYoung(chains, xs, old', ts, ps, rs);
      assert multiset(rs) == multiset{cur} + multiset(rs[1..]);
      push', start', total', ps' := cur, if total == 0 then cur else start, total + 1, [cur] + ps;
      if total' == REPUSH_BATCH {
        OrderRepush(chains, xs, old', ts, ps', rs[1..]);
        SortedGiven(calls, chains, old', ts, ps', Call(Normal, push', start'));
        Repush(push', start', ps', trim, ts, after, rs[1..]);
        push', start', total', ps' := 0, 0, 0, [];
      }
    }

    /** Sorting the detached list into blocks to trim and blocks to push back, these in batches of sixteen. */
    method Sort(output: nat, old': set<nat>, ghost xs: seq<nat>) returns (trim: nat, ghost ts: seq<nat>)
      requires CallsOk() && calls == [] && ListIn(next, output, xs)
      modifies this`next, this`calls, this`chains, this`seen
      ensures CallsOk() && ListIn(next, trim, ts) && Sorted(calls, chains, old', ts, [])
      ensures Given(chains) + multiset(ts) == multiset(xs)
      ensures ts == Rev(Pick(xs, old', true)) && Batched(chains, xs, old')
    {
      hide InOrder, Batched, Rev, Pick, Given;
      GivenNone(chains);
      trim, ts := 0, [];
      var push, start, total := 0, 0, 0;
      ghost var ps: seq<nat>, rs := [], xs;
      OrderStart(xs, old');
      var cur := output;
      while cur != 0
        invariant Sorting(xs, old', trim, ts, push, start, ps, cur, rs) && total == |ps|
        decreases |rs|
      {
        hide Sorting;
        if cur in old' {
          var after := SortOld(xs, old', trim, ts, push, start, ps, cur, rs);
          trim, ts, cur, rs := cur, [cur] + ts, after, rs[1..];
        } else {
          push, start, total, cur, ps := SortYoung(xs, old', trim, ts, push, start, total, ps, cur, rs);
          rs := rs[1..];
        }
      }
      Flush(xs, old', trim, ts, push, start, total, ps, rs);
    }

    /** The last, partial batch. */
    method Flush(ghost xs: seq<nat>, ghost old': set<nat>, ghost trim: nat, ghost ts: seq<nat>,
                 push: nat, start: nat, total: nat, ghost ps: seq<nat>, ghost rs: seq<nat>)
      requires Sorting(xs, old', trim, ts, push, start, ps, 0, rs) && total == |ps|
      modifies this`next, this`calls, this`chains, this`seen
      ensures CallsOk() && ListIn(next, trim, ts) && Sorted(calls, chains, old', ts, [])
      ensures Given(chains) + multiset(ts) == multiset(xs)
      ensures ts == Rev(Pick(xs, old', true)) && Batched(chains, xs, old')
    {
      EmptyRest(next, rs);
      hide Hands, CallOk, Given, InOrder, Batched, Rev, Pick;
      OrderDone(chains, xs, old', ts, ps);
      hide Sorted;
      if total > 0 {
        SortedGiven(calls, chains, old', ts, ps, Call(Normal, push, start));
        Repush(push, start, ps, trim, ts, 0, rs);
        HandsTrim(next, trim, ts, 0, [], 0, rs);
      } else {
        assert ps == [];
        HandsTrim(next, trim, ts, push, ps, 0, rs);
      }
    }

    /** One batch goes back. */
    method Repush(push: nat, start: nat, ghost ps: seq<nat>, ghost trim: nat, ghost ts: seq<nat>, ghost cur: nat, ghost rs: seq<nat>)
      requires CallsOk() && Hands(next, trim, ts, push, ps, cur, rs)
      requires ps != [] && |ps| <= REPUSH_BATCH && start == Last(ps)
      modifies this`next, this`calls, this`chains, this`seen
      ensures CallsOk() && Hands(next, trim, ts, 0, [], cur, rs)
      ensures calls == old(calls) + [Call(Normal, push, start)] && chains == old(chains) + [ps]
      ensures Given(chains) == old(Given(chains)) + multiset(ps)
    {
      Batch(next, push, ps);
      ghost var before := next;
      Give(Normal, push, start, ps);
      GivenAway(before, next, trim, ts, push, ps, cur, rs);
    }

    /** One block goes back by itself; the rest of the list stays in hand. */
    method GiveFirst(cur: nat, kind: Kind, ghost rs: seq<nat>) returns (after: nat)
      requires CallsOk() && ListIn(next, cur, rs) && cur != 0
      modifies this`next, this`calls, this`chains, this`seen
      ensures rs != [] && rs == [cur] + rs[1..] && CallsOk() && ListIn(next, after, rs[1..])
      ensures calls == old(calls) + [Call(kind, cur, cur)] && chains == old(chains) + [[cur]]
      ensures Given(chains) == old(Given(chains)) + multiset{cur}
    {
      after := next[cur];
      assert rs == [cur] + rs[1..];
      ghost var before := next;
      Give(kind, cur, cur, [cur]);
      Kept(before, next, after, rs[1..]);
    }

    /** release_memory: no if no whole page lies inside, else the system's answer; `agree` are the blocks for which it
        agrees to the advice. */
    method ReleaseMemory(b: nat, agree: set<nat>) returns (ok: bool)
      modifies this`advice
      ensures ok <==> HasPage(b, size) && b in agree
      ensures advice == old(advice) + if HasPage(b, size) then [AdviceFor(b, size, |calls|)] else []
    {
      var (start, end) := Advised(b, size);
      if start >= end {
        return false;
      }
      advice := advice + [Advice(b, start, end, |calls|)];
      ok := b in agree;
    }

    /** Pages are released as long as the caller wants more, then the block goes back: to the trimmed list exactly if
        they were released. */
    method TrimOne(cur: nat, total: nat, requested: nat, agree: set<nat>, ghost old': set<nat>, ghost xs: seq<nat>, ghost rs: seq<nat>,
                   ghost released: set<nat>)
      returns (after: nat, total': nat, ghost released': set<nat>)
      requires CallsOk() && ListIn(next, cur, rs) && cur != 0 && (forall b :: b in rs ==> b in old') && Distinct(xs)
      requires Given(chains) + multiset(rs) == multiset(xs) && AllAdviceOk(advice, chains, size, xs, old', released) && cur !in released
      modifies this
      ensures rs != [] && rs == [cur] + rs[1..] && CallsOk() && ListIn(next, after, rs[1..])
      ensures chains == old(chains) + [[cur]] && Given(chains) == old(Given(chains)) + multiset{cur}
      ensures calls == old(calls) + [Call(if cur in released' then Trimmed else Normal, cur, cur)]
      ensures advice == old(advice) + if Wanted(total, requested) && HasPage(cur, size) then [AdviceFor(cur, size, |old(calls)|)] else []
      ensures released' == released + if Wanted(total, requested) && HasPage(cur, size) && cur in agree then {cur} else {}
      ensures AllAdviceOk(advice, chains, size, xs, old', released') && total' == total + if cur in released' then size else 0
    {
      hide CallsOk, Given, AllAdviceOk, Distinct, Advised;
      HeadInHand(next, cur, rs);
      InHand(chains, xs, rs, cur);
      LengthsOf();
      var trimmed := false;
      total', released' := total, released;
      if requested == 0 || total < requested {
        trimmed := ReleaseMemory(cur, agree);
        assert old(advice) + [] == old(advice);
        if HasPage(cur, size) {
          AdviceMore(old(advice), AdviceFor(cur, size, |calls|), chains, size, xs, old', released);
        }
        if trimmed {
          total', released' := total + size, released + {cur};
        }
      }
      assert old(advice) + [] == old(advice);
      AdviceLater(advice, chains, [cur], size, xs, old', released');
      after := GiveFirst(cur, if trimmed then Trimmed else Normal, rs);
    }

    /** The blocks to trim go back one by one.  The first `n` of them were asked for, as long as the total was below the
        request. */
    method GiveTrimmed(head: nat, ghost old': set<nat>, agree: set<nat>, total0: nat, requested: nat, ghost xs: seq<nat>, ghost ts: seq<nat>)
      returns (total: nat, ghost released: set<nat>, ghost n: nat)
      requires CallsOk() && ListIn(next, head, ts) && (forall b :: b in ts ==> b in old') && advice == [] && Distinct(xs)
      requires Given(chains) + multiset(ts) == multiset(xs)
      modifies this
      ensures CallsOk() && Given(chains) == multiset(xs)
      ensures old(calls) <= calls && KindsOk(calls, |old(calls)|, old', released) && released <= old'
      ensures OneByOne(old(chains), chains, ts, |ts|) && |chains| == |calls|
      ensures forall i :: |old(calls)| <= i < |calls| ==> i < |chains| && chains[i] == [calls[i].head]
      ensures AllAdviceOk(advice, chains, size, xs, old', released) && total == total0 + |released| * size
      ensures Asked(ts, n, |ts|, total0, requested, size, agree) && BlocksOf(advice) == Paged(ts[..n], size) && released == ReleasedOf(ts, n, size, agree)
    {
      hide CallsOk, ListIn, Given, AllAdviceOk, KindsOk, Distinct, Asked, OneByOne, BlocksOf, Paged, ReleasedOf, HasPage, Underway;
      var cur := head;
      ghost var k := 0;
      total, released, n := total0, {}, 0;
      UnderwayFrom(old', agree, total0, requested, xs, ts, cur);
      while cur != 0
        invariant Underway(old(calls), old(chains), old', agree, total0, requested, xs, ts, cur, k, n, total, released)
        decreases |ts| - k
      {
        var after, total', released', n' := TrimNext(old(calls), old(chains), old', agree, total0, requested, xs, ts, cur, k, n, total, released);
        cur, k, total, released, n := after, k + 1, total', released', n';
      }
      UnderwayDone(old(calls), old(chains), old', agree, total0, requested, xs, ts, k, n, total, released);
    }

    /** The first `k` blocks have gone back. */
    ghost predicate Underway(calls0: seq<Call>, chains0: seq<seq<nat>>, old': set<nat>, agree: set<nat>, total0: nat, requested: nat,
                             xs: seq<nat>, ts: seq<nat>, cur: nat, k: nat, n: nat, total: nat, released: set<nat>)
      reads this
    {
      && k <= |ts| && CallsOk() && ListIn(next, cur, ts[k..]) && released <= old' && AllAdviceOk(advice, chains, size, xs, old', released)
      && Given(chains) + multiset(ts[k..]) == multiset(xs) && total == total0 + |released| * size
      && calls0 <= calls && |chains| == |calls| && OneByOne(chains0, chains, ts, k)
      && Going(calls, chains, |calls0|, old', released, ts[k..])
      && n <= k && Asked(ts, n, k, total0, requested, size, agree)
      && BlocksOf(advice) == Paged(ts[..n], size) && released == ReleasedOf(ts, n, size, agree)
    }

    lemma UnderwayFrom(old': set<nat>, agree: set<nat>, total0: nat, requested: nat, xs: seq<nat>, ts: seq<nat>, head: nat)
      requires CallsOk() && ListIn(next, head, ts) && (forall b :: b in ts ==> b in old') && advice == []
      requires Given(chains) + multiset(ts) == multiset(xs)
      ensures Underway(calls, chains, old', agree, total0, requested, xs, ts, head, 0, 0, total0, {})
    {
      hide CallsOk, ListIn, Given, AllAdviceOk, Going, KindsOk, Asked, OneByOne, BlocksOf, Paged, ReleasedOf;
      LengthsOf();
      GoingFrom(calls, chains, old', next, head, ts);
      NoAdvice(chains, size, xs, old');
      AskedNone(ts, total0, requested, size, agree);
      OneStart(chains, ts);
      assert ts[0..] == ts;
    }

    lemma UnderwayDone(calls0: seq<Call>, chains0: seq<seq<nat>>, old': set<nat>, agree: set<nat>, total0: nat, requested: nat,
                       xs: seq<nat>, ts: seq<nat>, k: nat, n: nat, total: nat, released: set<nat>)
      requires Underway(calls0, chains0, old', agree, total0, requested, xs, ts, 0, k, n, total, released)
      ensures k == |ts| && CallsOk() && Given(chains) == multiset(xs) && |chains| == |calls| && calls0 <= calls
      ensures KindsOk(calls, |calls0|, old', released) && forall i :: |calls0| <= i < |calls| ==> chains[i] == [calls[i].head]
      ensures OneByOne(chains0, chains, ts, k) && AllAdviceOk(advice, chains, size, xs, old', released)
      ensures released <= old' && total == total0 + |released| * size && n <= |ts| && Asked(ts, n, k, total0, requested, size, agree)
      ensures BlocksOf(advice) == Paged(ts[..n], size) && released == ReleasedOf(ts, n, size, agree)
    {
      hide CallsOk, ListIn, Given, AllAdviceOk, Going, KindsOk, Asked, OneByOne, BlocksOf, Paged, ReleasedOf;
      GoingEnds(calls, chains, |calls0|, old', released, next, ts[k..]);
    }

    method TrimNext(ghost calls0: seq<Call>, ghost chains0: seq<seq<nat>>, ghost old': set<nat>, agree: set<nat>, ghost total0: nat,
                    requested: nat, ghost xs: seq<nat>, ghost ts: seq<nat>, cur: nat, ghost k: nat, ghost n: nat, total: nat,
                    ghost released: set<nat>)
      returns (after: nat, total': nat, ghost released': set<nat>, ghost n': nat)
      requires Underway(calls0, chains0, old', agree, total0, requested, xs, ts, cur, k, n, total, released) && cur != 0 && Distinct(xs)
      modifies this
      ensures k < |ts| && Underway(calls0, chains0, old', agree, total0, requested, xs, ts, after, k + 1, n', total', released')
    {
      hide CallsOk, ListIn, Given, AllAdviceOk, Going, KindsOk, Distinct, Asked, OneByOne, BlocksOf, Paged, ReleasedOf, HasPage, Wanted;
      ghost var rs := ts[k..];
      GoingFacts(calls, chains, |calls0|, old', released, next, cur, rs);
      ghost var calls1, chains1, advice1 := calls, chains, advice;
      after, total', released' := TrimOne(cur, total, requested, agree, old', xs, rs, released);
      LengthsOf();
      assert rs[1..] == ts[k + 1..] && ts[k] == cur;
      GoingOn(calls1, chains1, |calls0|, old', released, rs, released');
      AskedMore(ts, n, k, total, total0, requested, size, agree, advice1, |calls1|);
      OneMore(chains0, chains1, ts, k);
      n' := if Wanted(total, requested) then k + 1 else n;
      Counting(total0, released, cur, size);
      assert multiset(rs) == multiset{cur} + multiset(rs[1..]);
    }

    lemma LengthsOf()
      requires CallsOk()
      ensures |chains| == |calls|
    {
    }

    /** trim_small for one list.  Every detached block is given back exactly once, the young ones in batches of sixteen,
        then the old ones one by one; every chain is well formed when it is given.  Advice is asked for, in order, for the
        old blocks that hold a whole page, as long as the total is below the request; a block goes to the trimmed list
        exactly if the system agreed. */
    method TrimList(output: nat, old': set<nat>, agree: set<nat>, total0: nat, requested: nat, ghost xs: seq<nat>)
      returns (total: nat, ghost released: set<nat>, ghost n: nat, ghost m: nat)
      requires CallsOk() && calls == [] && advice == [] && ListIn(next, output, xs)
      modifies this
      ensures CallsOk() && Given(chains) == multiset(xs)
      ensures forall i, b :: 0 <= i < |calls| && b in chains[i] ==> (calls[i].kind == Trimmed <==> b in released)
      ensures released <= old' && AllAdviceOk(advice, chains, size, xs, old', released) && total == total0 + |released| * size
      ensures m <= |chains| && Batched(chains[..m], xs, old') && OneByOne(chains[..m], chains, Rev(Pick(xs, old', true)), |Pick(xs, old', true)|)
      ensures
        var ts := Rev(Pick(xs, old', true));
        && Asked(ts, n, |ts|, total0, requested, size, agree)
        && BlocksOf(advice) == Paged(ts[..n], size) && released == ReleasedOf(ts, n, size, agree)
      ensures requested == 0 ==>
        && (forall b :: Mentions(advice, b) <==> b in xs && b in old' && HasPage(b, size))
        && (forall b :: b in released <==> b in xs && b in old' && HasPage(b, size) && b in agree)
    {
      hide Rev, Pick, Batched, Asked, Paged, BlocksOf, ReleasedOf, HasPage;
      ghost var ts;
      var trim;
      trim, ts := Sort(output, old', xs);
      ghost var chains0 := chains;
      m := |calls|;
      LengthsOf();
      total, released, n := GiveTrimmed(trim, old', agree, total0, requested, xs, ts);
      LengthsOf();
      OneFront(chains0, chains, ts, |ts|);
      RevLength(Pick(xs, old', true));
      WholeList(xs, old', n, total0, requested, size, agree, advice, released);
      forall i, b | 0 <= i < |calls| && b in chains[i]
        ensures calls[i].kind == Trimmed <==> b in released
      {
        if i < m {
          assert chains[i] == chains0[i] && calls[i] in calls[..m];
          GivenHas(chains0, i, b);
        }
      }
    }
  }

  lemma Counting(total0: nat, released: set<nat>, b: nat, size: nat)
    ensures b !in released ==> total0 + |released + {b}| * size == total0 + |released| * size + size
  {
  }

  lemma HeadInHand(next: Links, cur: nat, rs: seq<nat>)
    requires ListIn(next, cur, rs) && cur != 0
    ensures cur in rs && Distinct(rs)
  {
  }

  lemma RestDistinct(rs: seq<nat>)
    requires rs != [] && Distinct(rs)
    ensures rs[0] !in rs[1..]
  {
  }

  lemma {:induction false} OnceOnly(xs: seq<nat>, b: nat)
    requires Distinct(xs)
    ensures multiset(xs)[b] <= 1
    decreases |xs|
  {
    if xs != [] {
      OnceOnly(xs[1..], b);
      RestDistinct(xs);
      assert xs == [xs[0]] + xs[1..];
      if xs[0] == b {
        assert multiset(xs[1..])[b] == 0;
      }
    }
  }

  lemma {:induction false} GivenHas(chains: seq<seq<nat>>, i: nat, b: nat)
    requires i < |chains| && b in chains[i]
    ensures b in Given(chains)
  {
    if i > 0 {
      GivenHas(chains[1..], i - 1, b);
    }
  }

  lemma EmptyRest(next: Links, rs: seq<nat>)
    requires ListIn(next, 0, rs)
    ensures rs == []
  {
  }

  lemma HandsTrim(next: Links, trim: nat, ts: seq<nat>, push: nat, ps: seq<nat>, cur: nat, rs: seq<nat>)
    requires Hands(next, trim, ts, push, ps, cur, rs)
    ensures ListIn(next, trim, ts)
  {
  }

  // ----- giving back one by one -----

  /** A block goes to the trimmed list if its pages were released, else to the normal one. */
  ghost predicate KindsOk(calls: seq<Call>, from: nat, old': set<nat>, released: set<nat>) {
    forall i :: from <= i < |calls| ==>
      calls[i].head == calls[i].tail && calls[i].head in old' && calls[i].kind == if calls[i].head in released then Trimmed else Normal
  }

  /** What is left to trim is old and not released, and what went back went to the list it belongs to. */
  ghost predicate Going(calls: seq<Call>, chains: seq<seq<nat>>, from: nat, old': set<nat>, released: set<nat>, rs: seq<nat>) {
    && (forall b :: b in rs ==> b in old' && b !in released) && |chains| == |calls| && KindsOk(calls, from, old', released)
    && forall i :: from <= i < |calls| ==> chains[i] == [calls[i].head] && calls[i].head !in rs
  }

  lemma GoingFrom(calls: seq<Call>, chains: seq<seq<nat>>, old': set<nat>, next: Links, p: nat, ts: seq<nat>)
    requires |chains| == |calls| && (forall b :: b in ts ==> b in old') && ListIn(next, p, ts)
    ensures Going(calls, chains, |calls|, old', {}, ts)
  {
  }

  lemma GoingFacts(calls: seq<Call>, chains: seq<seq<nat>>, from: nat, old': set<nat>, released: set<nat>, next: Links, cur: nat, rs: seq<nat>)
    requires Going(calls, chains, from, old', released, rs) && ListIn(next, cur, rs) && cur != 0
    ensures cur in old' && cur !in released && Distinct(rs) && (forall b :: b in rs ==> b in old')
    ensures |released + {cur}| == |released| + 1
  {
    HeadInHand(next, cur, rs);
  }

  lemma GoingOn(calls: seq<Call>, chains: seq<seq<nat>>, from: nat, old': set<nat>, released: set<nat>, rs: seq<nat>, released': set<nat>)
    requires Going(calls, chains, from, old', released, rs) && from <= |calls| && rs != [] && Distinct(rs)
    requires released' == released || released' == released + {rs[0]}
    ensures
      var call := Call(if rs[0] in released' then Trimmed else Normal, rs[0], rs[0]);
      Going(calls + [call], chains + [[rs[0]]], from, old', released', rs[1..])
  {
    RestDistinct(rs);
    assert forall b :: b in rs[1..] ==> b in rs;
  }

  lemma GoingEnds(calls: seq<Call>, chains: seq<seq<nat>>, from: nat, old': set<nat>, released: set<nat>, next: Links, rs: seq<nat>)
    requires Going(calls, chains, from, old', released, rs) && ListIn(next, 0, rs)
    ensures rs == [] && |chains| == |calls| && KindsOk(calls, from, old', released)
    ensures forall i :: from <= i < |calls| ==> chains[i] == [calls[i].head]
  {
    EmptyRest(next, rs);
  }

  // ----- release_memory -----

  /** The pages advised, none if `start >= end`. */
  function Advised(header: nat, size: nat): (nat, nat) {
    ((header + HEADER + PAGE - 1) / PAGE * PAGE, (header + HEADER + size) / PAGE * PAGE)
  }

  /** A whole page lies inside the payload. */
  ghost predicate HasPage(b: nat, size: nat) { Advised(b, size).0 < Advised(b, size).1 }

  lemma PageInside(b: nat, size: nat)
    ensures HasPage(b, size) <==> exists page :: page % PAGE == 0 && b + HEADER <= page && page + PAGE <= b + HEADER + size
  {
    var (start, end) := Advised(b, size);
    if start < end {
      AdviceInside(b, size, start);
    }
    if exists page :: page % PAGE == 0 && b + HEADER <= page && page + PAGE <= b + HEADER + size {
      var page: int :| page % PAGE == 0 && b + HEADER <= page && page + PAGE <= b + HEADER + size;
      AdviceInside(b, size, page);
    }
  }

  ghost function AdviceFor(b: nat, size: nat, before: nat): Advice { Advice(b, Advised(b, size).0, Advised(b, size).1, before) }

  // ----- how long advice is asked for -----

  ghost predicate Wanted(total: nat, requested: nat) { requested == 0 || total < requested }

  ghost function BlocksOf(advice: seq<Advice>): seq<nat> { seq(|advice|, i requires 0 <= i < |advice| => advice[i].block) }

  /** The blocks that hold a whole page, in order. */
  ghost function Paged(ts: seq<nat>, size: nat): seq<nat> {
    if ts == [] then []
    else Paged(ts[..|ts| - 1], size) + if HasPage(ts[|ts| - 1], size) then [ts[|ts| - 1]] else []
  }

  /** Those of the first `n` blocks that the system releases when asked. */
  ghost function ReleasedOf(ts: seq<nat>, n: nat, size: nat, agree: set<nat>): set<nat>
    requires n <= |ts|
  {
    set b | b in ts[..n] && HasPage(b, size) && b in agree
  }

  /** Of the first `k` blocks, exactly the first `n` were met while the total was below the request. */
  ghost predicate Asked(ts: seq<nat>, n: nat, k: nat, total0: nat, requested: nat, size: nat, agree: set<nat>) {
    && n <= k <= |ts|
    && (forall i: nat :: i < n ==> Wanted(total0 + |ReleasedOf(ts, i, size, agree)| * size, requested))
    && (n < k ==> !Wanted(total0 + |ReleasedOf(ts, n, size, agree)| * size, requested))
  }

  lemma AskedNone(ts: seq<nat>, total0: nat, requested: nat, size: nat, agree: set<nat>)
    ensures Asked(ts, 0, 0, total0, requested, size, agree) && BlocksOf([]) == Paged(ts[..0], size) && ReleasedOf(ts, 0, size, agree) == {}
  {
  }

  lemma AskedMore(ts: seq<nat>, n: nat, k: nat, total: nat, total0: nat, requested: nat, size: nat, agree: set<nat>,
                  advice: seq<Advice>, before: nat)
    requires Asked(ts, n, k, total0, requested, size, agree) && k < |ts| && total == total0 + |ReleasedOf(ts, n, size, agree)| * size
    requires BlocksOf(advice) == Paged(ts[..n], size)
    ensures
      var go := Wanted(total, requested);
      var n' := if go then k + 1 else n;
      var advice' := advice + if go && HasPage(ts[k], size) then [AdviceFor(ts[k], size, before)] else [];
      && Asked(ts, n', k + 1, total0, requested, size, agree) && BlocksOf(advice') == Paged(ts[..n'], size)
      && ReleasedOf(ts, n', size, agree) == ReleasedOf(ts, n, size, agree) + if go && HasPage(ts[k], size) && ts[k] in agree then {ts[k]} else {}
  {
    hide HasPage, Advised, BlocksOf, Paged;
    assert advice + [] == advice;
    if Wanted(total, requested) {
      hide ReleasedOf;
      assert n == k;
      PagedMore(ts, k, size, advice, before);
      ReleasedMore(ts, k, size, agree);
    }
  }

  lemma PagedMore(ts: seq<nat>, k: nat, size: nat, advice: seq<Advice>, before: nat)
    requires k < |ts| && BlocksOf(advice) == Paged(ts[..k], size)
    ensures
      var advice' := advice + if HasPage(ts[k], size) then [AdviceFor(ts[k], size, before)] else [];
      BlocksOf(advice') == Paged(ts[..k + 1], size)
  {
    hide HasPage, Advised;
    assert ts[..k + 1][..k] == ts[..k];
    var more := if HasPage(ts[k], size) then [AdviceFor(ts[k], size, before)] else [];
    assert BlocksOf(advice + more) == BlocksOf(advice) + BlocksOf(more);
  }

  lemma ReleasedMore(ts: seq<nat>, k: nat, size: nat, agree: set<nat>)
    requires k < |ts|
    ensures ReleasedOf(ts, k + 1, size, agree) ==
      ReleasedOf(ts, k, size, agree) + if HasPage(ts[k], size) && ts[k] in agree then {ts[k]} else {}
  {
    hide HasPage;
    assert ts[..k + 1] == ts[..k] + [ts[k]];
  }

  // ----- one by one -----

  ghost predicate OneByOne(chains: seq<seq<nat>>, chains': seq<seq<nat>>, ts: seq<nat>, k: nat) {
    chains <= chains' && |chains'| == |chains| + k && k <= |ts| && forall i :: 0 <= i < k ==> chains'[|chains| + i] == [ts[i]]
  }

  lemma OneStart(chains: seq<seq<nat>>, ts: seq<nat>)
    ensures OneByOne(chains, chains, ts, 0)
  {
  }

  lemma OneMore(chains: seq<seq<nat>>, chains': seq<seq<nat>>, ts: seq<nat>, k: nat)
    requires OneByOne(chains, chains', ts, k) && k < |ts|
    ensures OneByOne(chains, chains' + [[ts[k]]], ts, k + 1)
  {
  }

  lemma OneFront(chains: seq<seq<nat>>, chains': seq<seq<nat>>, ts: seq<nat>, k: nat)
    requires OneByOne(chains, chains', ts, k)
    ensures |chains| <= |chains'| && chains'[..|chains|] == chains
  {
  }

  lemma {:induction false} RevLength(s: seq<nat>)
    ensures |Rev(s)| == |s|
  {
    if s != [] {
      RevLength(s[1..]);
    }
  }

  lemma {:induction false} PagedHas(ts: seq<nat>, size: nat, b: nat)
    ensures b in Paged(ts, size) <==> b in ts && HasPage(b, size)
  {
    if ts != [] {
      var front, last := ts[..|ts| - 1], ts[|ts| - 1];
      assert ts == front + [last];
      PagedHas(front, size, b);
    }
  }

  /** Without a limit all old blocks are asked for. */
  lemma WholeList(xs: seq<nat>, old': set<nat>, n: nat, total0: nat, requested: nat, size: nat, agree: set<nat>,
                  advice: seq<Advice>, released: set<nat>)
    requires
      var ts := Rev(Pick(xs, old', true));
      && Asked(ts, n, |ts|, total0, requested, size, agree)
      && BlocksOf(advice) == Paged(ts[..n], size) && released == ReleasedOf(ts, n, size, agree)
    ensures requested == 0 ==>
      && (forall b :: Mentions(advice, b) <==> b in xs && b in old' && HasPage(b, size))
      && (forall b :: b in released <==> b in xs && b in old' && HasPage(b, size) && b in agree)
  {
    hide HasPage, Rev, Pick, Paged;
    if requested == 0 {
      var ts := Rev(Pick(xs, old', true));
      assert n == |ts| && ts[..n] == ts;
      forall b
        ensures Mentions(advice, b) <==> b in xs && b in old' && HasPage(b, size)
        ensures b in released <==> b in xs && b in old' && HasPage(b, size) && b in agree
      {
        RevHas(Pick(xs, old', true), b);
        PickHas(xs, old', true, b);
        PagedHas(ts, size, b);
        MentionsBlock(advice, b);
      }
    }
  }

  lemma MentionsBlock(advice: seq<Advice>, b: nat)
    ensures Mentions(advice, b) <==> b in BlocksOf(advice)
  {
    if Mentions(advice, b) {
      var i :| 0 <= i < |advice| && advice[i].block == b;
      assert BlocksOf(advice)[i] == b;
    }
  }

  /** Page advice covers exactly the whole pages inside the payload. */
  lemma AdviceInside(header: nat, size: nat, page: nat)
    requires page % PAGE == 0
    ensures
      var (start, end) := Advised(header, size);
      start <= page < end <==> header + HEADER <= page && page + PAGE <= header + HEADER + size
  {
  }

  /** The advice is for the whole pages inside the payload of a detached, old block that had not been given back. */
  ghost predicate AdviceOk(a: Advice, chains: seq<seq<nat>>, size: nat, xs: seq<nat>, old': set<nat>) {
    && a.block in xs && a.block in old' && a.before <= |chains| && (a.start, a.end) == Advised(a.block, size) && a.start < a.end
    && a.block + HEADER <= a.start && a.end <= a.block + HEADER + size
    && forall j :: 0 <= j < a.before ==> a.block !in chains[j]
  }

  ghost predicate Mentions(advice: seq<Advice>, b: nat) { exists i :: 0 <= i < |advice| && advice[i].block == b }

  ghost predicate AllAdviceOk(advice: seq<Advice>, chains: seq<seq<nat>>, size: nat, xs: seq<nat>, old': set<nat>, released: set<nat>) {
    && (forall i :: 0 <= i < |advice| ==> AdviceOk(advice[i], chains, size, xs, old'))
    && (forall b :: b in released ==> Mentions(advice, b))
  }

  lemma NoAdvice(chains: seq<seq<nat>>, size: nat, xs: seq<nat>, old': set<nat>)
    ensures AllAdviceOk([], chains, size, xs, old', {})
  {
  }

  lemma AdvisedInside(header: nat, size: nat)
    ensures var (start, end) := Advised(header, size); header + HEADER <= start && end <= header + HEADER + size
  {
  }

  lemma AdviceMore(advice: seq<Advice>, a: Advice, chains: seq<seq<nat>>, size: nat, xs: seq<nat>, old': set<nat>, released: set<nat>)
    requires AllAdviceOk(advice, chains, size, xs, old', released) && a.block in xs && a.block in old' && a.before == |chains|
    requires (a.start, a.end) == Advised(a.block, size) && a.start < a.end && forall j :: 0 <= j < |chains| ==> a.block !in chains[j]
    ensures AllAdviceOk(advice + [a], chains, size, xs, old', released) && AllAdviceOk(advice + [a], chains, size, xs, old', released + {a.block})
  {
    AdvisedInside(a.block, size);
    var advice' := advice + [a];
    assert advice'[|advice|].block == a.block;
    forall b | b in released
      ensures Mentions(advice', b)
    {
      var i :| 0 <= i < |advice| && advice[i].block == b;
      assert advice'[i].block == b;
    }
  }

  lemma AdviceLater(advice: seq<Advice>, chains: seq<seq<nat>>, chain: seq<nat>, size: nat, xs: seq<nat>, old': set<nat>, released: set<nat>)
    requires AllAdviceOk(advice, chains, size, xs, old', released)
    ensures AllAdviceOk(advice, chains + [chain], size, xs, old', released)
  {
    forall i | 0 <= i < |advice|
      ensures AdviceOk(advice[i], chains + [chain], size, xs, old')
    {
      assert AdviceOk(advice[i], chains, size, xs, old');
    }
  }

  /** A block in hand was not given back. */
  lemma InHand(chains: seq<seq<nat>>, xs: seq<nat>, rs: seq<nat>, b: nat)
    requires Distinct(xs) && Given(chains) + multiset(rs) == multiset(xs) && b in rs
    ensures b in xs && forall j :: 0 <= j < |chains| ==> b !in chains[j]
  {
    OnceOnly(xs, b);
    assert multiset(rs)[b] >= 1;
    assert multiset(xs)[b] == Given(chains)[b] + multiset(rs)[b];
    forall j | 0 <= j < |chains|
      ensures b !in chains[j]
    {
      NotGiven(chains, j, b);
    }
  }

  lemma NotGiven(chains: seq<seq<nat>>, j: nat, b: nat)
    requires j < |chains| && Given(chains)[b] == 0
    ensures b !in chains[j]
  {
    if b in chains[j] {
      GivenHas(chains, j, b);
      assert false;
    }
  }
}
