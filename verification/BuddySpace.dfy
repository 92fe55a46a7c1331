/** Granting and releasing blocks, step by step. */
module BuddySpace {
  import opened BuddyTiles
  import opened BuddyLists
  import opened DoublyLinked
  import opened BuddyRegion

  // ----- what the lists tell -----

  lemma HeadIn(g: Region, k: nat)
    requires RegionOk(g) && k <= TOP
    ensures k < |g.lists.heads| && (g.lists.heads[k] == NIL || g.lists.heads[k] in g.lists.records)
  {
    hide Tiled, FreeAgree;
    assert OrderOk(g.lists, k, g.free[k], |g.own|);
  }

  lemma NeighboursIn(g: Region, a: nat, k: nat)
    requires RegionOk(g) && Has(g.own, a, k, Free)
    ensures k <= TOP && a in g.lists.records
    ensures var r := g.lists.records; (r[a].next == NIL || r[a].next in r) && (r[a].prev == NIL || r[a].prev in r)
  {
    hide Tiled;
    BlockFacts(g, a, k, Free);
    var xs := g.free[k];
    assert OrderOk(g.lists, k, xs, |g.own|) && a in xs;
    var ys, zs := Around(xs, a);
    RemoveLinks(g.lists.records, ys, a, zs);
    LinksIn(g.lists.records, NIL, xs, NIL);
    assert ys != [] ==> ys[|ys| - 1] in xs;
    assert zs != [] ==> zs[0] in xs;
  }

  /** The neighbours of a free block are other free blocks of its order. */
  lemma NeighboursFree(g: Region, a: nat, k: nat)
    requires RegionOk(g) && Has(g.own, a, k, Free)
    ensures k <= TOP && a in g.lists.records
    ensures var next := g.lists.records[a].next; next >= 0 ==> next != a && Has(g.own, next, k, Free)
    ensures var prev := g.lists.records[a].prev; prev >= 0 ==> prev != a && Has(g.own, prev, k, Free)
  {
    hide Tiled;
    BlockFacts(g, a, k, Free);
    var xs := g.free[k];
    assert OrderOk(g.lists, k, xs, |g.own|) && a in xs;
    var ys, zs := Around(xs, a);
    RemoveLinks(g.lists.records, ys, a, zs);
    assert ys != [] ==> ys[|ys| - 1] in ys + zs;
    assert zs != [] ==> zs[0] in ys + zs;
  }

  lemma EmptyOrder(g: Region, k: nat)
    requires RegionOk(g) && k <= TOP && k < |g.lists.mask| && k < |g.lists.heads|
    ensures !g.lists.mask[k] || g.lists.heads[k] == NIL ==> g.free[k] == []
  {
    hide Tiled, FreeAgree, Links;
    assert OrderOk(g.lists, k, g.free[k], |g.own|);
  }

  lemma NothingFree(g: Region, k: nat)
    requires RegionOk(g) && forall i: nat :: k <= i <= TOP ==> g.free[i] == []
    ensures forall a, j :: k <= j <= TOP ==> !Has(g.own, a, j, Free)
  {
    hide Tiled, OrdersOk;
    forall a: nat, j: nat | k <= j <= TOP
      ensures !Has(g.own, a, j, Free)
    {
      assert a !in g.free[j];
    }
  }

  /** The block is free, and no free block large enough for the request is smaller. */
  ghost predicate SmallestFit(own: seq<Piece>, a: nat, k: nat, j: nat) {
    k <= j <= TOP && Has(own, a, j, Free) && forall b: nat, i: nat :: k <= i < j ==> !Has(own, b, i, Free)
  }

  lemma NothingSmaller(g: Region, a: nat, k: nat, j: nat)
    requires RegionOk(g) && k <= j <= TOP && Has(g.own, a, j, Free) && forall i: nat :: k <= i < j ==> g.free[i] == []
    ensures SmallestFit(g.own, a, k, j)
  {
    forall b: nat, i: nat | k <= i < j
      ensures !Has(g.own, b, i, Free)
    {
      assert b !in g.free[i];
    }
  }

  lemma FirstFree(g: Region, k: nat)
    requires RegionOk(g) && k <= TOP && k < |g.lists.heads| && g.lists.heads[k] != NIL
    ensures g.lists.heads[k] >= 0 && Has(g.own, g.lists.heads[k], k, Free) && g.lists.heads[k] in g.lists.records
  {
    hide Tiled;
    assert OrderOk(g.lists, k, g.free[k], |g.own|);
    assert g.lists.heads[k] in g.free[k];
  }

  /** The bit of the buddy tells whether it is free. */
  lemma BuddyBit(g: Region, a: nat, k: nat, h: Holder)
    requires RegionOk(g) && Has(g.own, a, k, h) && k < TOP && a % Size(k) == 0
    ensures var b := Buddy(a, k);
      && k < |g.lists.bits| && BitOf(b, k) < |g.lists.bits[k]|
      && (g.lists.bits[k][BitOf(b, k)] <==> Has(g.own, b, k, Free))
  {
    hide TiledIn, Links, Buddy;
    var b := Buddy(a, k);
    OnePiece(g.own, a, k, h);
    BuddyFacts(a, k);
    BuddyInside(a, k, |g.own|);
    BitInside(b, k, |g.own|);
    BitInjective(b, BitOf(b, k), k);
    assert OrderOk(g.lists, k, g.free[k], |g.own|);
    assert b in g.free[k] <==> Has(g.own, b, k, Free);
  }

  // ----- recutting blocks in the hand -----

  lemma HalveFree(own: seq<Piece>, a: nat, k: nat, h: Holder)
    requires Tiled(own) && Has(own, a, k, h) && h != Free && k > 0 && Canonical(own)
    ensures Canonical(Halve(own, a, k, h)) && !Has(Halve(own, a, k, h), a, k - 1, Free)
  {
    hide Tiled, Canonical;
    OnePiece(own, a, k, h);
    Halves(a, k);
    RecutCanonical(own, Halve(own, a, k, h));
  }

  /** The upper half may be freed: its buddy is the lower half. */
  lemma UpperHalf(own: seq<Piece>, a: nat, k: nat, h: Holder)
    requires Tiled(own) && Canonical(own) && Has(own, a, k, h) && h != Free && k > 0
    ensures
      var own' := Halve(own, a, k, h);
      Tiled(own') && Canonical(own') && Canonical(Rehold(own', a + Size(k - 1), k - 1, Free))
  {
    hide Tiled, Canonical, Halve, Rehold, Buddy;
    OnePiece(own, a, k, h);
    Halves(a, k);
    HalveFree(own, a, k, h);
    HalveTiles(own, a, k, h);
    BuddyFacts(a, k - 1);
    GivenCanonical(Halve(own, a, k, h), a + Size(k - 1), k - 1, h);
  }

  lemma MergeFree(own: seq<Piece>, a: nat, k: nat, h: Holder, h': Holder, h'': Holder)
    requires Tiled(own) && k < TOP && a % Size(k) == 0 && Has(own, a, k, h) && Has(own, Buddy(a, k), k, h')
    requires h != Free && h' != Free && h'' != Free && Canonical(own)
    ensures Canonical(Merge(own, a, k, h''))
  {
    hide Tiled, Canonical, Buddy;
    OnePiece(own, a, k, h);
    OnePiece(own, Buddy(a, k), k, h');
    BuddyFacts(a, k);
    Halves(Lower(a, k), k + 1);
    RecutCanonical(own, Merge(own, a, k, h''));
  }

  lemma BuddyStays(own: seq<Piece>, a: nat, k: nat, h: Holder, h': Holder)
    requires Tiled(own) && k < TOP && a % Size(k) == 0 && Has(own, a, k, h) && Has(own, Buddy(a, k), k, Free)
    ensures Has(Rehold(own, Buddy(a, k), k, h'), a, k, h)
  {
    hide Tiled, Buddy;
    BuddyFacts(a, k);
  }

  // ----- grants -----

  lemma GrantStart(own: seq<Piece>, a: nat, k: nat, h: Holder)
    requires Tiled(own) && Has(own, a, k, Free)
    ensures Granted(own, Rehold(own, a, k, h), a, k, h)
  {
    hide Tiled;
    OnePiece(own, a, k, Free);
  }

  lemma GrantHalf(was: seq<Piece>, own: seq<Piece>, a: nat, k: nat, h: Holder)
    requires Tiled(own) && k > 0 && Granted(was, own, a, k, h)
    ensures Granted(was, Rehold(Halve(own, a, k, h), a + Size(k - 1), k - 1, Free), a, k - 1, h)
  {
    hide Tiled;
    OnePiece(own, a, k, h);
    Halves(a, k);
    var own' := Rehold(Halve(own, a, k, h), a + Size(k - 1), k - 1, Free);
    forall x | 0 <= x < |was|
      ensures if a <= x < a + Size(k - 1) then was[x].holder == Free else SameOrFree(was, own', x)
    {
      assert a <= x < a + Size(k) || SameOrFree(was, own, x);
    }
  }

  lemma GrantOver(was: seq<Piece>, own: seq<Piece>, a: nat, k: nat, h: Holder, h': Holder)
    requires Granted(was, own, a, k, h)
    ensures Granted(was, Rehold(own, a, k, h'), a, k, h')
  {
    forall x | 0 <= x < |was|
      ensures if a <= x < a + Size(k) then was[x].holder == Free else SameOrFree(was, Rehold(own, a, k, h'), x)
    {
      assert a <= x < a + Size(k) || SameOrFree(was, own, x);
    }
  }

  // ----- releases -----

  /** The block `(a, k)` of `was` has grown into `(cur, j)`, held by `h`, by taking in free space. */
  ghost predicate Released(was: seq<Piece>, own: seq<Piece>, a: nat, k: nat, cur: nat, j: nat, h: Holder) {
    && |was| == |own| && Has(was, a, k, Live) && Has(own, cur, j, h)
    && cur <= a && a + Size(k) <= cur + Size(j) <= |own|
    && forall x :: 0 <= x < |own| ==>
         if cur <= x < cur + Size(j) then a <= x < a + Size(k) || was[x].holder == Free else own[x] == was[x]
  }

  lemma ReleaseStart(own: seq<Piece>, a: nat, k: nat, h: Holder)
    requires Tiled(own) && Has(own, a, k, Live)
    ensures Released(own, Rehold(own, a, k, h), a, k, a, k, h)
  {
    hide Tiled;
    OnePiece(own, a, k, Live);
  }

  lemma ReleaseMore(was: seq<Piece>, own: seq<Piece>, a: nat, k: nat, cur: nat, j: nat, h: Holder)
    requires Tiled(own) && j < TOP && cur % Size(j) == 0 && Has(own, Buddy(cur, j), j, Free) && Released(was, own, a, k, cur, j, h)
    ensures Released(was, Merge(Rehold(own, Buddy(cur, j), j, h), cur, j, h), a, k, Lower(cur, j), j + 1, h)
  {
    hide Tiled, Buddy;
    var b, m := Buddy(cur, j), Lower(cur, j);
    OnePiece(own, cur, j, h);
    OnePiece(own, b, j, Free);
    BuddyFacts(cur, j);
    Halves(m, j + 1);
    var own' := Merge(Rehold(own, b, j, h), cur, j, h);
    forall x | 0 <= x < |own'|
      ensures if m <= x < m + Size(j + 1) then a <= x < a + Size(k) || was[x].holder == Free else own'[x] == was[x]
    {
      assert cur <= x < cur + Size(j) || own[x] == was[x];
    }
  }

  lemma ReleaseDone(was: seq<Piece>, own: seq<Piece>, a: nat, k: nat, cur: nat, j: nat, h: Holder)
    requires Tiled(was) && Released(was, own, a, k, cur, j, h)
    ensures Granted(Rehold(own, cur, j, Free), was, a, k, Live)
  {
    hide Tiled;
    OnePiece(was, a, k, Live);
    var own' := Rehold(own, cur, j, Free);
    forall x | 0 <= x < |own'|
      ensures if a <= x < a + Size(k) then own'[x].holder == Free else SameOrFree(own', was, x)
    {
      assert cur <= x < cur + Size(j) || own[x] == was[x];
    }
  }

  // ----- a new region -----

  /** The first `d` maximum-order blocks are free, the rest in the hand. */
  ghost function Born(n: nat, d: nat, h: Holder): (own: seq<Piece>)
    ensures |own| == n
  {
    seq(n, x requires 0 <= x < n => Piece(x - x % 16, TOP, if x < d * 16 then Free else h))
  }

  lemma BornStart(g: Region, n: nat, h: Holder)
    requires n % 16 == 0 && g.own == Born(n, 0, h) && h != Free && Shaped(g.lists, n) && |g.free| == TOP + 1
    requires forall k: nat :: k <= TOP ==> g.free[k] == [] && g.lists.heads[k] == NIL && !g.lists.mask[k]
    requires forall k: nat :: k <= TOP ==> forall i :: 0 <= i < |g.lists.bits[k]| ==> !g.lists.bits[k][i]
    ensures RegionOk(g)
  {
    forall x | 0 <= x < n
      ensures TileAt(g.own, 0, n, x)
    {
    }
  }

  lemma BornNext(n: nat, d: nat, h: Holder)
    requires n % 16 == 0 && d * 16 < n
    ensures Has(Born(n, d, h), d * 16, TOP, h)
    ensures Rehold(Born(n, d, h), d * 16, TOP, Free) == Born(n, d + 1, h)
  {
  }

  lemma BornDone(n: nat, d: nat, h: Holder)
    requires n == d * 16
    ensures Born(n, d, h) == Fresh(n)
  {
    assert |Fresh(n)| == n;
    forall x | 0 <= x < n
      ensures Born(n, d, h)[x] == Fresh(n)[x]
    {
      assert Fresh(n)[x] == Piece(x - x % Size(TOP), TOP, Free);
      assert Born(n, d, h)[x] == Piece(x - x % 16, TOP, Free);
    }
  }

  /** Memory before anything is written. */
  function Blank(n: nat): (m: map<nat, FreeBlock>)
    ensures forall a :: a in m <==> 0 <= a < n
  {
    if n == 0 then map[] else Blank(n - 1)[n - 1 := Cell(0, 0, Mark(0, 0))]
  }

  function NoBits(n: nat): seq<seq<bool>> { seq(TOP + 1, k requires k >= 0 => seq(n / Size(k), _ => false)) }

  lemma BornLists(g: Region, n: nat, h: Holder)
    requires n % 16 == 0 && h != Free
    requires g == Region(Lists(Blank(n), seq(TOP + 1, _ => NIL), NoBits(n), seq(TOP + 1, _ => false)), seq(TOP + 1, _ => []), Born(n, 0, h))
    ensures RegionOk(g)
  {
    assert Shaped(g.lists, n);
    BornStart(g, n, h);
  }

  /** No block is in transit. */
  ghost predicate Settled(own: seq<Piece>) { forall x :: 0 <= x < |own| ==> !own[x].holder.Hand? }

  lemma GrantSettled(own: seq<Piece>, own': seq<Piece>, a: nat, k: nat)
    requires Tiled(own') && Settled(own) && Granted(own, own', a, k, Live)
    ensures Settled(own')
  {
    OnePiece(own', a, k, Live);
    forall x | 0 <= x < |own'|
      ensures !own'[x].holder.Hand?
    {
      assert !own[x].holder.Hand? && (a <= x < a + Size(k) || SameOrFree(own, own', x));
    }
  }

  lemma ReleaseSettled(own: seq<Piece>, own': seq<Piece>, a: nat, k: nat)
    requires Settled(own) && Granted(own', own, a, k, Live)
    ensures Settled(own')
  {
    forall x | 0 <= x < |own'|
      ensures !own'[x].holder.Hand?
    {
      assert !own[x].holder.Hand? && (a <= x < a + Size(k) || SameOrFree(own', own, x));
    }
  }

  lemma GrowthSettled(own: seq<Piece>, own': seq<Piece>, a: nat, k: nat)
    requires Tiled(own') && Settled(own) && Has(own', a, k, Live) && |own| == |own'|
    requires forall x :: 0 <= x < |own| && !(a <= x < a + Size(k)) ==> own'[x] == own[x]
    ensures Settled(own')
  {
    OnePiece(own', a, k, Live);
  }

  lemma AllFreeFresh(own: seq<Piece>)
    requires Tiled(own) && Canonical(own)
    ensures (forall x :: 0 <= x < |own| ==> own[x].holder == Free) ==> own == Fresh(|own|)
  {
    if forall x :: 0 <= x < |own| ==> own[x].holder == Free {
      AllFreeIsFresh(own);
    }
  }
}
