/** Every step of the circulation keeps the invariant. */
module CirculationSteps {
  import opened Circulation
  import opened CirculationInv

  // ----- the four ways shared state changes -----

  ghost predicate SameLists(s: State, s': State) {
    s'.next == s.next && s'.heads == s.heads && s'.place == s.place && s'.lists == s.lists && s'.version == s.version
  }

  /** Only registers, counters, hints and the scheduler change. */
  lemma SharedLocal(s: State, s': State)
    requires Shared(s) && WellFormed(s') && SameLists(s, s')
    ensures Shared(s')
  {
    forall l
      ensures ListOk(s', l)
    {
      assert ListOk(s, l);
    }
  }

  /** A link of a block that is held or with a client is written. */
  lemma SharedWrite(s: State, u: nat, b: nat, p: nat)
    requires Shared(s) && (PlaceAt(s, b) == Held(u) || PlaceAt(s, b) == Live) && PtrOk(s, p)
    ensures var s' := s.(next := s.next[b := p]); Shared(s') && Guarantee(s, s', u)
  {
    var s' := s.(next := s.next[b := p]);
    assert b in s.next;
    WrittenWellFormed(s, b, p);
    WrittenGuarantee(s, u, b, p);
    hide WellFormed, Guarantee, Distinct;
    forall l
      ensures ListOk(s', l)
    {
      assert ListOk(s, l);
      SegmentIn(s.next, ListAt(s, l), 0);
      assert b !in ListAt(s, l);
      SegmentFrame(s.next, s'.next, ListAt(s, l), 0);
    }
  }

  lemma WrittenWellFormed(s: State, b: nat, p: nat)
    requires WellFormed(s) && b in s.next && PtrOk(s, p)
    ensures WellFormed(s.(next := s.next[b := p]))
  {
  }

  lemma WrittenGuarantee(s: State, u: nat, b: nat, p: nat)
    requires b in s.next && (PlaceAt(s, b) == Held(u) || PlaceAt(s, b) == Live)
    ensures Guarantee(s, s.(next := s.next[b := p]), u)
  {
  }

  lemma PushedWellFormed(s: State, l: Loc, chain: seq<nat>, word: Word)
    requires WellFormed(s) && l in s.heads
    ensures WellFormed(Pushed(s, l, chain, word))
  {
    hide SchedulerOk, BlocksOk, HasLists;
    var s' := Pushed(s, l, chain, word);
    assert s'.heads.Keys == s.heads.Keys && s'.lists.Keys == s.lists.Keys;
    assert s'.version.Keys == s.version.Keys && s'.place.Keys == s.place.Keys;
  }

  lemma PushedListOk(s: State, u: nat, l: Loc, chain: seq<nat>, word: Word)
    requires ListOk(s, l) && l in s.heads && s.place.Keys == s.next.Keys
    requires Loaded(s, u, chain) && Segment(s.next, chain, WordAt(s, l).ptr)
    requires word.ptr == chain[0] && (!l.kind.Rseq? ==> word.tag == (VersionAt(s, l) + 1) % TAGS)
    ensures ListOk(Pushed(s, l, chain, word), l)
  {
    hide Segment, Distinct, HoldsAll;
    var s' := Pushed(s, l, chain, word);
    var xs := ListAt(s, l);
    SegmentConcat(s.next, chain, xs, 0);
    HeldApart(s, u, l, chain);
    assert ListAt(s', l) == chain + xs;
    forall b
      ensures b in ListAt(s', l) <==> PlaceAt(s', b) == In(l)
    {
      assert b in xs <==> PlaceAt(s, b) == In(l);
    }
  }

  /** Held blocks and listed blocks are different. */
  lemma HeldApart(s: State, u: nat, l: Loc, chain: seq<nat>)
    requires ListOk(s, l) && Distinct(chain) && HoldsAll(s.place, u, chain)
    ensures Distinct(chain + ListAt(s, l)) && forall b :: b in chain ==> b in s.place
  {
    hide Segment;
    var xs := ListAt(s, l);
    forall i, j | 0 <= i < j < |chain + xs|
      ensures (chain + xs)[i] != (chain + xs)[j]
    {
      if i < |chain| <= j {
        assert chain[i] in chain && xs[j - |chain|] in xs;
        assert PlaceAt(s, chain[i]) == Held(u) && PlaceAt(s, xs[j - |chain|]) == In(l);
      }
    }
  }

  /** Moving held or listed blocks does not disturb another list. */
  lemma OtherListOk(s: State, s': State, k: Loc)
    requires ListOk(s, k) && s'.next == s.next
    requires WordAt(s', k) == WordAt(s, k) && ListAt(s', k) == ListAt(s, k) && VersionAt(s', k) == VersionAt(s, k)
    requires forall b :: PlaceAt(s', b) == In(k) <==> PlaceAt(s, b) == In(k)
    ensures ListOk(s', k)
  {
    forall b
      ensures b in ListAt(s', k) <==> PlaceAt(s', b) == In(k)
    {
      assert b in ListAt(s, k) <==> PlaceAt(s, b) == In(k);
    }
  }

  /** Rewriting one list and moving blocks that nobody else holds. */
  lemma MoveGuarantee(s: State, s': State, u: nat, l: Loc, xs: seq<nat>, to: Place)
    requires l in s.heads && s.version.Keys == s.heads.Keys && s.lists.Keys == s.heads.Keys
    requires s'.next == s.next && s'.usage == s.usage && s'.threads == s.threads && s'.on == s.on
    requires s'.heads.Keys == s.heads.Keys && s'.lists.Keys == s.lists.Keys && s'.version.Keys == s.version.Keys
    requires forall k :: k in s.heads && k != l ==>
      s'.heads[k] == s.heads[k] && s'.lists[k] == s.lists[k] && s'.version[k] == s.version[k]
    requires s'.version[l] == s.version[l] + 1 && s'.place == Moved(s.place, xs, to)
    requires forall b :: b in xs ==> !HeldByOther(PlaceAt(s, b), u)
    requires l.kind.Rseq? ==> RunsOn(s, u, l.cpu)
    ensures Guarantee(s, s', u)
  {
    assert KeepsLists(s, s');
    assert KeepsCpus(s, s', u);
  }

  /** A linked chain held by `u` becomes the front of a list. */
  lemma SharedPush(s: State, u: nat, l: Loc, chain: seq<nat>, word: Word)
    requires Shared(s) && l in s.heads && Loaded(s, u, chain) && Segment(s.next, chain, WordAt(s, l).ptr)
    requires word.ptr == chain[0] && (!l.kind.Rseq? ==> word.tag == (VersionAt(s, l) + 1) % TAGS)
    requires l.kind.Rseq? ==> RunsOn(s, u, l.cpu)
    ensures Shared(Pushed(s, l, chain, word)) && Guarantee(s, Pushed(s, l, chain, word), u)
  {
    hide ListOk, Segment, Distinct, WellFormed, Guarantee;
    var s' := Pushed(s, l, chain, word);
    KeysOf(s);
    PushedWellFormed(s, l, chain, word);
    PushedListOk(s, u, l, chain, word);
    MoveGuarantee(s, s', u, l, chain, In(l));
    forall k | k != l
      ensures ListOk(s', k)
    {
      forall b
        ensures PlaceAt(s', b) == In(k) <==> PlaceAt(s, b) == In(k)
      {
        assert b in chain ==> PlaceAt(s, b) == Held(u);
      }
      OtherListOk(s, s', k);
    }
  }

  lemma PoppedWellFormed(s: State, l: Loc, u: nat, taken: seq<nat>, word: Word)
    requires WellFormed(s) && l in s.heads
    ensures WellFormed(Popped(s, l, u, taken, word))
  {
    hide SchedulerOk, BlocksOk, HasLists;
    var s' := Popped(s, l, u, taken, word);
    assert s'.heads.Keys == s.heads.Keys && s'.lists.Keys == s.lists.Keys;
    assert s'.version.Keys == s.version.Keys && s'.place.Keys == s.place.Keys;
  }

  lemma PoppedListOk(s: State, u: nat, l: Loc, k: nat, word: Word)
    requires ListOk(s, l) && l in s.heads && s.place.Keys == s.next.Keys && k <= |ListAt(s, l)|
    requires word.ptr == First(ListAt(s, l)[k..], 0) && (!l.kind.Rseq? ==> word.tag == (VersionAt(s, l) + 1) % TAGS)
    ensures ListOk(Popped(s, l, u, ListAt(s, l)[..k], word), l)
  {
    var xs := ListAt(s, l);
    var s' := Popped(s, l, u, xs[..k], word);
    assert xs == xs[..k] + xs[k..];
    SegmentConcat(s.next, xs[..k], xs[k..], 0);
    assert ListAt(s', l) == xs[k..];
    forall b
      ensures b in ListAt(s', l) <==> PlaceAt(s', b) == In(l)
    {
      assert b in xs <==> PlaceAt(s, b) == In(l);
      if b in xs[k..] {
        var j :| 0 <= j < |xs| - k && xs[k..][j] == b;
        assert b == xs[k + j];
        assert b !in xs[..k];
      }
    }
  }

  /** The first `k` blocks of a list pass into the hands of `u`. */
  lemma SharedPop(s: State, u: nat, l: Loc, k: nat, word: Word)
    requires Shared(s) && l in s.heads && k <= |ListAt(s, l)|
    requires word.ptr == First(ListAt(s, l)[k..], 0) && (!l.kind.Rseq? ==> word.tag == (VersionAt(s, l) + 1) % TAGS)
    requires l.kind.Rseq? ==> RunsOn(s, u, l.cpu)
    ensures
      var s' := Popped(s, l, u, ListAt(s, l)[..k], word);
      Shared(s') && Guarantee(s, s', u)
  {
    hide Segment, Distinct, Guarantee, WellFormed, Chain;
    var taken := ListAt(s, l)[..k];
    var s' := Popped(s, l, u, taken, word);
    assert ListOk(s, l);
    assert forall b :: b in taken ==> PlaceAt(s, b) == In(l);
    KeysOf(s);
    PoppedWellFormed(s, l, u, taken, word);
    PoppedListOk(s, u, l, k, word);
    MoveGuarantee(s, s', u, l, taken, Held(u));
    OthersPopped(s, s', l, u, taken);
  }

  lemma KeysOf(s: State)
    requires WellFormed(s)
    ensures s.version.Keys == s.heads.Keys && s.lists.Keys == s.heads.Keys && s.place.Keys == s.next.Keys
  {
  }

  lemma OthersPopped(s: State, s': State, l: Loc, u: nat, taken: seq<nat>)
    requires (forall j :: ListOk(s, j)) && l in s.heads && (forall b :: b in taken ==> PlaceAt(s, b) == In(l))
    requires exists word :: s' == Popped(s, l, u, taken, word)
    ensures forall j :: j != l ==> ListOk(s', j)
  {
    hide ListOk;
    forall j | j != l
      ensures ListOk(s', j)
    {
      OtherListOk(s, s', j);
    }
  }

  // ----- registers -----

  lemma AtShared(s: State, u: nat, pc: Pc)
    requires Shared(s) && u < |s.threads|
    ensures Shared(At(s, u, pc))
  {
    hide ListOk;
    SharedLocal(s, At(s, u, pc));
  }

  lemma AtGuarantee(s: State, mid: State, u: nat, pc: Pc)
    requires Guarantee(s, mid, u) && u < |s.threads|
    ensures Guarantee(s, At(mid, u, pc), u)
  {
    var s' := At(mid, u, pc);
    assert forall b :: NextOf(s', b) == NextOf(mid, b) && PlaceAt(s', b) == PlaceAt(mid, b);
    assert forall l :: VersionAt(s', l) == VersionAt(mid, l) && ListAt(s', l) == ListAt(mid, l) && WordAt(s', l) == WordAt(mid, l);
    assert forall t, c :: RunsOn(s', t, c) <==> RunsOn(mid, t, c);
  }

  lemma AtThreadOk(s: State, u: nat, pc: Pc)
    requires u < |s.threads| && ThreadOk(s, u, pc)
    ensures ThreadOk(At(s, u, pc), u, pc)
  {
    hide Segment, Distinct, HoldsAll;
  }

  /** Shared state moves to `mid`, then thread `u` moves to `pc`. */
  lemma Finish(s: State, mid: State, u: nat, pc: Pc)
    requires Inv(s) && u < |s.threads| && Shared(mid) && Guarantee(s, mid, u) && ThreadOk(mid, u, pc)
    ensures Inv(At(mid, u, pc))
  {
    hide ThreadOk, Shared, Guarantee;
    GuaranteeShape(s, mid, u);
    AtShared(mid, u, pc);
    AtGuarantee(s, mid, u, pc);
    AtThreadOk(mid, u, pc);
    Assemble(s, At(mid, u, pc), u);
  }

  lemma GuaranteeShape(s: State, s': State, u: nat)
    requires Guarantee(s, s', u)
    ensures |s'.threads| == |s.threads|
  {
  }

  lemma GuaranteeRefl(s: State, u: nat)
    ensures Guarantee(s, s, u)
  {
  }

  /** A step that only changes registers. */
  lemma FinishLocal(s: State, u: nat, pc: Pc)
    requires Inv(s) && u < |s.threads| && ThreadOk(s, u, pc)
    ensures Inv(At(s, u, pc))
  {
    hide ThreadOk, Shared, Guarantee;
    GuaranteeRefl(s, u);
    Finish(s, s, u, pc);
  }
}
