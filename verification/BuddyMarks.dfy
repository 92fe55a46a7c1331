/** What the records of free blocks say about their past. */
module BuddyMarks {
  import opened BuddyTiles
  import opened BuddyLists
  import opened BuddyRegion
  import opened BuddySpace

  type Records = map<nat, FreeBlock>

  /** Records outside the range have the same data. */
  ghost predicate MarksKept(m: Records, m': Records, lo: nat, hi: nat) {
    m'.Keys == m.Keys && forall b :: b in m && !(lo <= b < hi) ==> m'[b].data == m[b].data
  }

  /** The cut outside the range is the same. */
  ghost predicate CutKept(own: seq<Piece>, own': seq<Piece>, lo: nat, hi: nat) {
    |own'| == |own| && forall x :: 0 <= x < |own| && !(lo <= x < hi) ==> own'[x] == own[x]
  }

  /** All free blocks that start in the range have that data. */
  ghost predicate MarkedIn(m: Records, own: seq<Piece>, lo: nat, hi: nat, mark: Mark) {
    forall b: nat, j: nat :: Has(own, b, j, Free) && lo <= b < hi ==> b in m && m[b].data == mark
  }

  /** No offset of the block was ever handed out. */
  ghost predicate Untouched(a: nat, k: nat, touched: set<nat>) { forall x: nat :: a <= x < a + Size(k) ==> x !in touched }

  /** A free block tagged never allocated has no offset that was ever handed out; every live offset was. */
  ghost predicate TagsTrue(m: Records, own: seq<Piece>, touched: set<nat>) {
    && (forall b: nat, j: nat :: Has(own, b, j, Free) && b in m && m[b].data.trimState == NOT_ALLOCATED ==> Untouched(b, j, touched))
    && (forall x: nat :: x < |own| && own[x].holder == Live ==> x in touched)
  }

  // ----- list surgery -----

  lemma RemoveMarks(r: Lists, k: nat, a: nat)
    requires k < |r.heads| && k < |r.bits| && k < |r.mask| && a in r.records && BitOf(a, k) < |r.bits[k]|
    ensures MarksKept(r.records, RemoveFree(r, k, a).records, 0, 0)
  {
  }

  lemma GivenMarks(g: Region, a: nat, k: nat, life: nat, tag: nat)
    requires InBounds(g, a, k)
    ensures
      var m' := Given(g, a, k, life, tag).lists.records;
      MarksKept(g.lists.records, m', a, a + 1) && a in m' && m'[a].data == Mark(life, tag)
  {
  }

  // ----- cutting -----

  /** The lower half of a block in the hand stays there, the upper half becomes free. */
  lemma HalfFree(own: seq<Piece>, a: nat, k: nat, h: Holder, b: nat, j: nat)
    requires Tiled(own) && Has(own, a, k, h) && h != Free && k > 0
    ensures
      var own' := Rehold(Halve(own, a, k, h), a + Size(k - 1), k - 1, Free);
      && (Has(own', b, j, Free) <==> (b == a + Size(k - 1) && j == k - 1) || Has(own, b, j, Free))
      && CutKept(own, own', a, a + Size(k)) && a + Size(k - 1) < a + Size(k) <= |own|
  {
    hide Tiled;
    OnePiece(own, a, k, h);
    Halves(a, k);
  }

  lemma KeptFurther(m: Records, m': Records, m'': Records, lo: nat, hi: nat, lo': nat, hi': nat)
    requires MarksKept(m, m', lo, hi) && MarksKept(m', m'', lo', hi') && (lo' < hi' ==> lo <= lo' && hi' <= hi)
    ensures MarksKept(m, m'', lo, hi)
  {
  }

  lemma CutFurther(own: seq<Piece>, own': seq<Piece>, own'': seq<Piece>, lo: nat, hi: nat, lo': nat, hi': nat)
    requires CutKept(own, own', lo, hi) && CutKept(own', own'', lo', hi') && (lo' < hi' ==> lo <= lo' && hi' <= hi)
    ensures CutKept(own, own'', lo, hi)
  {
  }

  // ----- what tags say -----

  /** Blocks that start outside a block of either cut do not reach into it. */
  lemma Beside(own: seq<Piece>, a: nat, k: nat, h: Holder, b: nat, j: nat, h': Holder)
    requires Tiled(own) && Has(own, a, k, h) && Has(own, b, j, h') && b != a
    ensures b + Size(j) <= a || a + Size(k) <= b
  {
    OnePiece(own, a, k, h);
    OnePiece(own, b, j, h');
  }

  /** A block of the new cut that starts inside a block of the old one ends inside, if the cut outside is the same. */
  lemma EndsInside(own: seq<Piece>, own': seq<Piece>, a: nat, k: nat, h: Holder, b: nat, j: nat, h': Holder)
    requires Tiled(own) && Tiled(own') && Has(own, a, k, h) && CutKept(own, own', a, a + Size(k)) && Has(own', b, j, h') && a <= b < a + Size(k)
    ensures b + Size(j) <= a + Size(k)
  {
    hide Tiled;
    OnePiece(own, a, k, h);
    OnePiece(own', b, j, h');
    StartsAt(own, a, k, h);
  }

  lemma TileHere(own: seq<Piece>, x: nat)
    requires Tiled(own) && x < |own|
    ensures own[x].start <= x < own[x].start + Size(own[x].order) && Has(own, own[x].start, own[x].order, own[x].holder)
  {
    assert TileAt(own, 0, |own|, x);
  }

  lemma StartsAt(own: seq<Piece>, a: nat, k: nat, h: Holder)
    requires Tiled(own) && Has(own, a, k, h)
    ensures a + Size(k) < |own| ==> own[a + Size(k)].start == a + Size(k)
  {
    OnePiece(own, a, k, h);
    var e := a + Size(k);
    if e < |own| {
      TileHere(own, e);
      var p := own[e];
      hide Tiled;
      OnePiece(own, p.start, p.order, p.holder);
    }
  }

  /** A grant cuts a block out of a free one; what is left keeps its tag, which stays true. */
  lemma GrantTags(m: Records, own: seq<Piece>, m': Records, own': seq<Piece>, touched: set<nat>, a: nat, k: nat, j: nat)
    requires Tiled(own) && Tiled(own') && TagsTrue(m, own, touched) && Has(own, a, j, Free) && a in m && Has(own', a, k, Live) && k <= j <= TOP
    requires CutKept(own, own', a, a + Size(j)) && MarksKept(m, m', a, a + Size(j)) && MarkedIn(m', own', a, a + Size(j), m[a].data)
    requires forall x: nat :: a + Size(k) <= x < a + Size(j) && x < |own'| ==> own'[x].holder == Free
    ensures TagsTrue(m', own', touched + Units(a, k))
    ensures m[a].data.trimState == NOT_ALLOCATED ==> Untouched(a, k, touched)
  {
    hide Tiled;
    OnePiece(own, a, j, Free);
    OnePiece(own', a, k, Live);
    Grows(k, j);
    forall b: nat, i: nat | Has(own', b, i, Free) && b in m' && m'[b].data.trimState == NOT_ALLOCATED
      ensures Untouched(b, i, touched + Units(a, k))
    {
      Beside(own', a, k, Live, b, i, Free);
      if a <= b < a + Size(j) {
        EndsInside(own, own', a, j, Free, b, i, Free);
        assert Untouched(a, j, touched);
      } else {
        assert Has(own, b, i, Free);
        assert Untouched(b, i, touched);
      }
    }
  }

  lemma Grows(k: nat, j: nat)
    requires k <= j <= TOP
    ensures Size(k) <= Size(j)
  {
  }

  /** A freed block is tagged allocated, so nothing is claimed about it. */
  lemma ReleaseTags(m: Records, own: seq<Piece>, m': Records, own': seq<Piece>, touched: set<nat>, cur: nat, j: nat)
    requires Tiled(own') && TagsTrue(m, own, touched) && Has(own', cur, j, Free)
    requires CutKept(own, own', cur, cur + Size(j)) && MarksKept(m, m', cur, cur + Size(j)) && cur in m' && m'[cur].data.trimState == ALLOCATED
    ensures TagsTrue(m', own', touched)
  {
    hide Tiled;
    OnePiece(own', cur, j, Free);
    forall b: nat, i: nat | Has(own', b, i, Free) && b in m' && m'[b].data.trimState == NOT_ALLOCATED
      ensures Untouched(b, i, touched)
    {
      assert !(cur <= b < cur + Size(j));
      assert Has(own, b, i, Free);
    }
  }

  lemma GrowTags(m: Records, own: seq<Piece>, m': Records, own': seq<Piece>, touched: set<nat>, a: nat, k: nat)
    requires Tiled(own') && TagsTrue(m, own, touched) && Has(own', a, k, Live)
    requires CutKept(own, own', a, a + Size(k)) && MarksKept(m, m', a, a + Size(k))
    ensures TagsTrue(m', own', touched + Units(a, k))
  {
    hide Tiled;
    OnePiece(own', a, k, Live);
    forall b: nat, i: nat | Has(own', b, i, Free) && b in m' && m'[b].data.trimState == NOT_ALLOCATED
      ensures Untouched(b, i, touched + Units(a, k))
    {
      Beside(own', a, k, Live, b, i, Free);
      assert Has(own, b, i, Free);
      assert Untouched(b, i, touched);
    }
  }

  lemma FreshTags(m: Records, n: nat)
    ensures TagsTrue(m, Fresh(n), {})
  {
  }

  lemma AllKept(m: Records, m': Records, lo: nat, hi: nat)
    requires MarksKept(m, m', 0, 0)
    ensures MarksKept(m, m', lo, hi)
  {
  }

  // ----- splitting -----

  /** From `g` to `g'`, the block of order `top` at `a` has been split down to order `j`. */
  ghost predicate Carved(g: Region, g': Region, a: nat, j: nat, top: nat, mark: Mark) {
    && CutKept(g.own, g'.own, a, a + Size(top)) && MarksKept(g.lists.records, g'.lists.records, a, a + Size(top))
    && MarkedIn(g'.lists.records, g'.own, a, a + Size(top), mark)
    && forall x: nat :: a + Size(j) <= x < a + Size(top) && x < |g'.own| ==> g'.own[x].holder == Free
  }

  lemma CarveFrom(g: Region, a: nat, k: nat, mark: Mark, h: Holder)
    requires h != Free && RegionOk(g) && Has(g.own, a, k, h)
    ensures Carved(g, g, a, k, k, mark)
  {
    hide OrdersOk, FreeAgree, Shaped, Tiled;
    OnePiece(g.own, a, k, h);
  }

  lemma CarveMore(g: Region, g': Region, g'': Region, a: nat, j: nat, top: nat, mark: Mark, h: Holder)
    requires h != Free && Carved(g, g', a, j, top, mark) && Tiled(g'.own) && Has(g'.own, a, j, h) && 0 < j <= top <= TOP
    requires g''.own == Rehold(Halve(g'.own, a, j, h), a + Size(j - 1), j - 1, Free)
    requires MarksKept(g'.lists.records, g''.lists.records, a + Size(j - 1), a + Size(j - 1) + 1)
    requires a + Size(j - 1) in g''.lists.records && g''.lists.records[a + Size(j - 1)].data == mark
    ensures Carved(g, g'', a, j - 1, top, mark)
  {
    hide Tiled, Halve, Rehold;
    Grows(j, top);
    forall b: nat, i: nat
      ensures Has(g''.own, b, i, Free) <==> (b == a + Size(j - 1) && i == j - 1) || Has(g'.own, b, i, Free)
    {
      HalfFree(g'.own, a, j, h, b, i);
    }
    HalfFree(g'.own, a, j, h, 0, 0);
    HalfHolders(g'.own, a, j, h);
  }

  lemma HalfHolders(own: seq<Piece>, a: nat, k: nat, h: Holder)
    requires h != Free && Tiled(own) && Has(own, a, k, h) && k > 0
    ensures
      var own' := Rehold(Halve(own, a, k, h), a + Size(k - 1), k - 1, Free);
      |own'| == |own| && forall x: nat :: a + Size(k - 1) <= x < a + Size(k) && x < |own'| ==> own'[x].holder == Free
  {
    hide Tiled;
    OnePiece(own, a, k, h);
    Halves(a, k);
  }

  /** Taking the whole block concerns its offsets only. */
  lemma TakenWhole(own: seq<Piece>, a: nat, k: nat, h: Holder)
    requires h != Free && Tiled(own) && Has(own, a, k, Free)
    ensures CutKept(own, Rehold(own, a, k, h), a, a + Size(k))
  {
  }

  /** Handing a block over concerns its offsets only. */
  lemma HandedOver(own: seq<Piece>, m: Records, a: nat, k: nat, j: nat, mark: Mark, h: Holder)
    requires h != Free && Tiled(own) && Has(own, a, k, h) && k <= j <= TOP && MarkedIn(m, own, a, a + Size(j), mark)
    requires forall x: nat :: a + Size(k) <= x < a + Size(j) && x < |own| ==> own[x].holder == Free
    ensures
      var own' := Rehold(own, a, k, Live);
      && CutKept(own, own', a, a + Size(j)) && MarkedIn(m, own', a, a + Size(j), mark)
      && forall x: nat :: a + Size(k) <= x < a + Size(j) && x < |own'| ==> own'[x].holder == Free
  {
    hide Tiled;
    Grows(k, j);
    OnePiece(own, a, k, h);
    forall b: nat, i: nat | Has(Rehold(own, a, k, Live), b, i, Free)
      ensures Has(own, b, i, Free)
    {
      OneHolder(own, a, k, h, Live, b, i);
    }
  }

  // ----- a new region -----

  lemma BornMarks(m: Records, m': Records, n: nat, d: nat, h: Holder, mark: Mark)
    requires n % 16 == 0 && d * 16 <= n && h != Free
    requires d > 0 ==> MarkedIn(m, Born(n, d - 1, h), 0, n, mark) && MarksKept(m, m', (d - 1) * 16, (d - 1) * 16 + 1)
    requires d > 0 ==> (d - 1) * 16 in m' && m'[(d - 1) * 16].data == mark
    ensures MarkedIn(m', Born(n, d, h), 0, n, mark)
  {
    forall b: nat, j: nat | Has(Born(n, d, h), b, j, Free)
      ensures b in m' && m'[b].data == mark
    {
      assert b % 16 == 0 && b < d * 16;
      if b < (d - 1) * 16 {
        assert Has(Born(n, d - 1, h), b, j, Free);
      }
    }
  }

  // ----- releasing -----

  /** The released block is inside a free block with the data of a release; everything else stays as it was. */
  ghost predicate FreedInto(was: Region, now: Region, a: nat, k: nat, cur: nat, j: nat, stamp: nat) {
    var m := now.lists.records;
    && Has(now.own, cur, j, Free) && cur <= a && a + Size(k) <= cur + Size(j) && cur in m && m[cur].data == Mark(stamp, ALLOCATED)
    && CutKept(was.own, now.own, cur, cur + Size(j)) && MarksKept(was.lists.records, m, cur, cur + Size(j))
  }

  lemma Freed(was: Region, mid: Region, now: Region, a: nat, k: nat, cur: nat, j: nat, h: Holder, stamp: nat)
    requires Tiled(mid.own) && Released(was.own, mid.own, a, k, cur, j, h) && now.own == Rehold(mid.own, cur, j, Free)
    requires MarksKept(was.lists.records, mid.lists.records, 0, 0) && MarksKept(mid.lists.records, now.lists.records, cur, cur + 1)
    requires cur in now.lists.records && now.lists.records[cur].data == Mark(stamp, ALLOCATED)
    ensures FreedInto(was, now, a, k, cur, j, stamp)
  {
    hide Tiled;
    OnePiece(mid.own, cur, j, h);
  }

  /** What a grant does: the block is cut from the first of the smallest free blocks that are large enough.  What is left
      of it keeps its data, and everything else stays as it was. */
  ghost predicate CutFrom(was: Region, now: Region, a: nat, k: nat, j: nat) {
    var m := was.lists.records;
    && SmallestFit(was.own, a, k, j) && j < |was.lists.heads| && was.lists.heads[j] == a && a in m
    && CutKept(was.own, now.own, a, a + Size(j)) && MarksKept(m, now.lists.records, a, a + Size(j))
    && MarkedIn(now.lists.records, now.own, a, a + Size(j), m[a].data)
  }

  lemma RegionFacts(g: Region)
    requires RegionOk(g)
    ensures Tiled(g.own)
  {
  }

  lemma FitFacts(own: seq<Piece>, a: nat, k: nat, j: nat)
    requires SmallestFit(own, a, k, j)
    ensures k <= j <= TOP && Has(own, a, j, Free)
  {
  }

  lemma GrantFacts(own: seq<Piece>, own': seq<Piece>, a: nat, k: nat, h: Holder)
    requires Granted(own, own', a, k, h)
    ensures Has(own', a, k, h)
  {
  }

  lemma NoneMarked(m: Records)
    ensures MarksKept(m, m, 0, 0)
  {
  }

  ghost predicate WasCut(was: Region, now: Region, a: nat, k: nat) { exists j :: CutFrom(was, now, a, k, j) }

  ghost predicate WasFreed(was: Region, now: Region, a: nat, k: nat, stamp: nat) {
    exists cur, j :: FreedInto(was, now, a, k, cur, j, stamp)
  }
}
