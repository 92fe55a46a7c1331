/** How a buddy region is cut into blocks.

    Offsets count smallest blocks (4 MiB) from the base of the region, and orders count from the smallest one, so
    order 0 is the program's order 22 and order 4 its order 26. */
module BuddyTiles {
  const TOP: nat := 4

  function Size(k: nat): nat { if k == 0 then 1 else if k == 1 then 2 else if k == 2 then 4 else if k == 3 then 8 else 16 }

  /** The block next to which this one was cut. */
  function Buddy(a: nat, k: nat): nat
    requires a % Size(k) == 0
  {
    if (a / Size(k)) % 2 == 0 then a + Size(k) else a - Size(k)
  }

  function Lower(a: nat, k: nat): nat
    requires a % Size(k) == 0
  {
    if a < Buddy(a, k) then a else Buddy(a, k)
  }

  datatype Holder = Free | Live | Hand(thread: nat)

  datatype Piece = Piece(start: nat, order: nat, holder: Holder)

  ghost predicate Inside(p: Piece, x: int) { p.start <= x < p.start + Size(p.order) }

  /** The piece at `x` is aligned, contains `x`, stays between `lo` and `hi`, and is the piece of all its offsets. */
  ghost predicate TileAt(own: seq<Piece>, lo: nat, hi: nat, x: nat)
    requires lo <= x < hi <= |own|
  {
    var p := own[x];
    && p.order <= TOP && p.start % Size(p.order) == 0 && Inside(p, x)
    && lo <= p.start && p.start + Size(p.order) <= hi
    && forall y :: p.start <= y < p.start + Size(p.order) ==> own[y] == p
  }

  /** Whole blocks fill the offsets from `lo` to `hi`. */
  ghost predicate TiledIn(own: seq<Piece>, lo: nat, hi: nat)
    requires lo <= hi <= |own|
  {
    forall x :: lo <= x < hi ==> TileAt(own, lo, hi, x)
  }

  /** Blocks tile the region, which is made of blocks of the largest order. */
  ghost predicate Tiled(own: seq<Piece>) { |own| % Size(TOP) == 0 && TiledIn(own, 0, |own|) }

  ghost predicate Has(own: seq<Piece>, a: nat, k: nat, h: Holder) { a < |own| && own[a] == Piece(a, k, h) }

  /** The offsets of a block. */
  ghost function Units(a: nat, k: nat): set<nat> { Interval(a, Size(k)) }

  ghost function Interval(a: nat, n: nat): (r: set<nat>)
    ensures forall x :: x in r <==> a <= x < a + n
  {
    if n == 0 then {} else Interval(a, n - 1) + {a + n - 1}
  }

  /** No two buddies below the largest order are both free. */
  ghost predicate Canonical(own: seq<Piece>) {
    forall a: nat, k: nat {:trigger Buddy(a, k)} ::
      k < TOP && a % Size(k) == 0 && Has(own, a, k, Free) ==> !Has(own, Buddy(a, k), k, Free)
  }

  ghost function Paint(own: seq<Piece>, a: nat, n: nat, p: Piece): (r: seq<Piece>)
    ensures |r| == |own| && forall x :: 0 <= x < |own| ==> r[x] == if a <= x < a + n then p else own[x]
  {
    seq(|own|, x requires 0 <= x < |own| => if a <= x < a + n then p else own[x])
  }

  // ----- arithmetic of buddies -----

  lemma SizeRatio(j: nat, k: nat)
    requires j <= k <= TOP
    ensures Size(k) == Size(j) * Size(k - j) && Size(j) > 0 && if j < k then Size(k - j) % 2 == 0 else Size(k - j) == 1
  {
  }

  /** A block is its index times its size. */
  lemma Index(a: nat, k: nat)
    requires a % Size(k) == 0
    ensures a == Size(k) * (a / Size(k))
  {
  }

  lemma IndexBack(i: nat, k: nat)
    ensures (Size(k) * i) % Size(k) == 0 && (Size(k) * i) / Size(k) == i
  {
  }

  /** Buddies have neighbouring indices, the lower one even. */
  lemma BuddyIndex(a: nat, k: nat)
    requires a % Size(k) == 0
    ensures var i := a / Size(k); Buddy(a, k) == Size(k) * (if i % 2 == 0 then i + 1 else i - 1)
  {
    var i := a / Size(k);
    Index(a, k);
    assert Size(k) * (i + 1) == Size(k) * i + Size(k);
    assert Size(k) * (i - 1) == Size(k) * i - Size(k);
  }

  lemma BuddyFacts(a: nat, k: nat)
    requires k < TOP && a % Size(k) == 0
    ensures Buddy(a, k) % Size(k) == 0 && Buddy(Buddy(a, k), k) == a
    ensures Lower(a, k) % Size(k + 1) == 0
    ensures Buddy(a, k) == a + Size(k) || a == Buddy(a, k) + Size(k)
  {
    var i := a / Size(k);
    Index(a, k);
    BuddyIndex(a, k);
    var i' := if i % 2 == 0 then i + 1 else i - 1;
    IndexBack(i', k);
    BuddyIndex(Buddy(a, k), k);
    var h := i / 2;
    IndexBack(h, k + 1);
    SizeRatio(k, k + 1);
    assert Size(k + 1) * h == Size(k) * (2 * h);
    LowerIndex(a, k, h);
  }

  lemma LowerIndex(a: nat, k: nat, h: nat)
    requires a % Size(k) == 0 && h == a / Size(k) / 2
    ensures Lower(a, k) == Size(k) * (2 * h)
  {
    Index(a, k);
    BuddyIndex(a, k);
  }

  /** Multiples of a size are at least that far apart. */
  lemma Multiples(a: nat, n: nat, k: nat)
    requires k <= TOP && a % Size(k) == 0 && n % Size(k) == 0 && a < n
    ensures a + Size(k) <= n
  {
    if k == 0 {
    } else if k == 1 {
    } else if k == 2 {
    } else if k == 3 {
    } else {
    }
  }

  lemma Twos(x: nat)
    ensures (2 * x) % 2 == 0
  {
  }

  lemma Fours(x: nat)
    ensures (4 * x) % 4 == 0
  {
  }

  lemma Eights(x: nat)
    ensures (8 * x) % 8 == 0
  {
  }

  lemma SizeDivides(j: nat, n: nat)
    requires j <= TOP && n % Size(TOP) == 0
    ensures n % Size(j) == 0
  {
    var q := n / 16;
    assert n == 16 * q;
    if j == 0 {
      assert Size(j) == 1;
    } else if j == 1 {
      assert Size(j) == 2 && n == 2 * (8 * q);
      Twos(8 * q);
    } else if j == 2 {
      assert Size(j) == 4 && n == 4 * (4 * q);
      Fours(4 * q);
    } else if j == 3 {
      assert Size(j) == 8 && n == 8 * (2 * q);
      Eights(2 * q);
    }
  }

  lemma BuddyInside(a: nat, k: nat, n: nat)
    requires k < TOP && a % Size(k) == 0 && a + Size(k) <= n && n % Size(TOP) == 0
    ensures Buddy(a, k) + Size(k) <= n
  {
    hide Buddy;
    BuddyFacts(a, k);
    SizeDivides(k + 1, n);
    Multiples(Lower(a, k), n, k + 1);
    Halves(Lower(a, k), k + 1);
  }

  /** Aligned blocks that meet are nested. */
  lemma {:induction false} Nested(a: nat, j: nat, b: nat, k: nat, x: nat)
    requires j <= k <= TOP && a % Size(j) == 0 && b % Size(k) == 0
    requires a <= x < a + Size(j) && b <= x < b + Size(k)
    ensures b <= a && a + Size(j) <= b + Size(k)
    ensures j == k ==> a == b
    ensures j < k ==> b <= Buddy(a, j) && Buddy(a, j) + Size(j) <= b + Size(k)
    decreases k - j
  {
    hide Buddy, Size;
    if j < k {
      BuddyFacts(a, j);
      Halves(Lower(a, j), j + 1);
      Nested(Lower(a, j), j + 1, b, k, x);
    } else {
      if a < b {
        Multiples(a, b, k);
      }
      if b < a {
        Multiples(b, a, k);
      }
    }
  }

  // ----- recutting -----

  /** Recutting a range of whole blocks into whole blocks keeps the tiling. */
  lemma Retile(own: seq<Piece>, own': seq<Piece>, lo: nat, hi: nat)
    requires Tiled(own) && |own'| == |own| && lo <= hi <= |own|
    requires TiledIn(own, lo, hi) && TiledIn(own', lo, hi)
    requires forall x :: 0 <= x < |own| && !(lo <= x < hi) ==> own'[x] == own[x]
    ensures Tiled(own')
  {
    forall x | 0 <= x < |own'|
      ensures TileAt(own', 0, |own'|, x)
    {
      if lo <= x < hi {
        assert TileAt(own', lo, hi, x);
      } else {
        assert TileAt(own, 0, |own|, x);
        var p := own[x];
        forall y | p.start <= y < p.start + Size(p.order)
          ensures own'[y] == p
        {
          assert lo <= y < hi ==> TileAt(own, lo, hi, y);
        }
      }
    }
  }

  lemma OnePiece(own: seq<Piece>, a: nat, k: nat, h: Holder)
    requires Tiled(own) && Has(own, a, k, h)
    ensures k <= TOP && a % Size(k) == 0 && a + Size(k) <= |own| && TiledIn(own, a, a + Size(k))
    ensures forall x :: a <= x < a + Size(k) ==> own[x] == Piece(a, k, h)
  {
    assert TileAt(own, 0, |own|, a);
  }

  /** One block covers an aligned range. */
  lemma PaintTiles(own: seq<Piece>, a: nat, k: nat, h: Holder)
    requires k <= TOP && a % Size(k) == 0 && a + Size(k) <= |own|
    ensures TiledIn(Paint(own, a, Size(k), Piece(a, k, h)), a, a + Size(k))
  {
  }

  ghost function Rehold(own: seq<Piece>, a: nat, k: nat, h: Holder): seq<Piece> {
    Paint(own, a, Size(k), Piece(a, k, h))
  }

  /** A block changes hands. */
  lemma ReholdTiles(own: seq<Piece>, a: nat, k: nat, h: Holder, h': Holder)
    requires Tiled(own) && Has(own, a, k, h)
    ensures Tiled(Rehold(own, a, k, h')) && Has(Rehold(own, a, k, h'), a, k, h') && |Rehold(own, a, k, h')| == |own|
  {
    hide TiledIn;
    OnePiece(own, a, k, h);
    PaintTiles(own, a, k, h');
    Retile(own, Rehold(own, a, k, h'), a, a + Size(k));
  }

  /** A block is cut in two. */
  ghost function Halve(own: seq<Piece>, a: nat, k: nat, h: Holder): seq<Piece>
    requires k > 0
  {
    Paint(Paint(own, a, Size(k - 1), Piece(a, k - 1, h)), a + Size(k - 1), Size(k - 1), Piece(a + Size(k - 1), k - 1, h))
  }

  lemma HalveTiles(own: seq<Piece>, a: nat, k: nat, h: Holder)
    requires Tiled(own) && Has(own, a, k, h) && k > 0
    ensures
      var own' := Halve(own, a, k, h);
      Tiled(own') && |own'| == |own| && Has(own', a, k - 1, h) && Has(own', a + Size(k - 1), k - 1, h)
  {
    OnePiece(own, a, k, h);
    var own' := Halve(own, a, k, h);
    Halves(a, k);
    assert TiledIn(own', a, a + Size(k));
    Retile(own, own', a, a + Size(k));
  }

  lemma HalfFour(q: nat)
    ensures (4 * q) % 2 == 0 && (4 * q + 2) % 2 == 0 && (4 * q) / 2 % 2 == 0
  {
    assert (4 * q) / 2 == 2 * q;
  }

  lemma HalfEight(q: nat)
    ensures (8 * q) % 4 == 0 && (8 * q + 4) % 4 == 0 && (8 * q) / 4 % 2 == 0
  {
    assert (8 * q) / 4 == 2 * q;
  }

  lemma HalfSixteen(q: nat)
    ensures (16 * q) % 8 == 0 && (16 * q + 8) % 8 == 0 && (16 * q) / 8 % 2 == 0
  {
    assert (16 * q) / 8 == 2 * q;
  }

  lemma Halves(a: nat, k: nat)
    requires 0 < k <= TOP && a % Size(k) == 0
    ensures Size(k) == Size(k - 1) + Size(k - 1) && a % Size(k - 1) == 0 && (a + Size(k - 1)) % Size(k - 1) == 0
    ensures Buddy(a, k - 1) == a + Size(k - 1)
  {
    if k == 1 {
      assert Size(k) == 2 && Size(k - 1) == 1 && a == 2 * (a / 2);
    } else if k == 2 {
      assert Size(k) == 4 && Size(k - 1) == 2 && a == 4 * (a / 4);
      HalfFour(a / 4);
    } else if k == 3 {
      assert Size(k) == 8 && Size(k - 1) == 4 && a == 8 * (a / 8);
      HalfEight(a / 8);
    } else {
      assert Size(k) == 16 && Size(k - 1) == 8 && a == 16 * (a / 16);
      HalfSixteen(a / 16);
    }
  }

  /** A block takes in its buddy. */
  ghost function Merge(own: seq<Piece>, a: nat, k: nat, h: Holder): seq<Piece>
    requires a % Size(k) == 0
  {
    Paint(own, Lower(a, k), Size(k + 1), Piece(Lower(a, k), k + 1, h))
  }

  lemma MergeTiles(own: seq<Piece>, a: nat, k: nat, h: Holder, h': Holder, h'': Holder)
    requires Tiled(own) && k < TOP && a % Size(k) == 0 && Has(own, a, k, h) && Has(own, Buddy(a, k), k, h')
    ensures Tiled(Merge(own, a, k, h'')) && Has(Merge(own, a, k, h''), Lower(a, k), k + 1, h'') && |Merge(own, a, k, h'')| == |own|
  {
    hide Buddy, TiledIn;
    var b, m := Buddy(a, k), Lower(a, k);
    BuddyFacts(a, k);
    OnePiece(own, a, k, h);
    OnePiece(own, b, k, h');
    Halves(m, k + 1);
    JoinTiles(own, m, m + Size(k), m + Size(k + 1));
    PaintTiles(own, m, k + 1, h'');
    Retile(own, Merge(own, a, k, h''), m, m + Size(k + 1));
  }

  lemma JoinTiles(own: seq<Piece>, lo: nat, mid: nat, hi: nat)
    requires lo <= mid <= hi <= |own| && TiledIn(own, lo, mid) && TiledIn(own, mid, hi)
    ensures TiledIn(own, lo, hi)
  {
    forall x | lo <= x < hi
      ensures TileAt(own, lo, hi, x)
    {
      if x < mid {
        assert TileAt(own, lo, mid, x);
      } else {
        assert TileAt(own, mid, hi, x);
      }
    }
  }

  // ----- the canonical cut is unique -----

  /** The two cuts differ at most in how free space is divided. */
  ghost predicate SameSpace(own: seq<Piece>, own': seq<Piece>) {
    |own| == |own'| && forall x :: 0 <= x < |own| ==> own[x] == own'[x] || (own[x].holder == Free && own'[x].holder == Free)
  }

  /** A free block of a canonical cut cannot lie properly inside a free block of another. */
  lemma {:induction false} NotFiner(own: seq<Piece>, own': seq<Piece>, x: nat)
    requires Tiled(own) && Tiled(own') && Canonical(own) && SameSpace(own, own')
    requires x < |own| && own[x].holder == Free && own'[x].holder == Free
    ensures own[x].order >= own'[x].order
    decreases own[x].order
  {
    assert TileAt(own, 0, |own|, x) && TileAt(own', 0, |own'|, x);
    var p, q := own[x], own'[x];
    if p.order < q.order {
      Nested(p.start, p.order, q.start, q.order, x);
      BuddyFacts(p.start, p.order);
      var b := Buddy(p.start, p.order);
      assert own[p.start] == p && own'[b] == q;
      assert TileAt(own, 0, |own|, b);
      assert own[b].holder == Free;
      BuddySmaller(own, p, b);
      NotFiner(own, own', b);
      assert false;
    }
  }

  /** Next to a free block of a canonical cut, free space is cut finer. */
  lemma BuddySmaller(own: seq<Piece>, p: Piece, b: nat)
    requires Tiled(own) && Canonical(own) && p.order < TOP && p.start % Size(p.order) == 0 && p.holder == Free
    requires b == Buddy(p.start, p.order) && b < |own| && Has(own, p.start, p.order, Free) && own[b].holder == Free
    ensures own[b].order < p.order
  {
    hide Buddy, Canonical;
    assert TileAt(own, 0, |own|, b);
    BuddyFacts(p.start, p.order);
    if own[b].order >= p.order {
      Nested(b, p.order, own[b].start, own[b].order, b);
      CanonicalAt(own, p.start, p.order);
      assert false;
    }
  }

  lemma CanonicalAt(own: seq<Piece>, a: nat, k: nat)
    requires Canonical(own) && k < TOP && a % Size(k) == 0 && Has(own, a, k, Free)
    ensures !Has(own, Buddy(a, k), k, Free)
  {
  }

  /** A canonical cut is determined by what is not free. */
  lemma CanonicalUnique(own: seq<Piece>, own': seq<Piece>)
    requires Tiled(own) && Tiled(own') && Canonical(own) && Canonical(own') && SameSpace(own, own')
    ensures own == own'
  {
    forall x | 0 <= x < |own|
      ensures own[x] == own'[x]
    {
      if own[x] != own'[x] {
        NotFiner(own, own', x);
        NotFiner(own', own, x);
        assert TileAt(own, 0, |own|, x) && TileAt(own', 0, |own'|, x);
        Nested(own[x].start, own[x].order, own'[x].start, own'[x].order, x);
      }
    }
  }

  /** The cut of a fresh region: free blocks of the largest order. */
  ghost function Fresh(n: nat): seq<Piece> { seq(n, x requires 0 <= x < n => Piece(x - x % Size(TOP), TOP, Free)) }

  lemma FreshTiles(n: nat)
    requires n % Size(TOP) == 0
    ensures Tiled(Fresh(n)) && Canonical(Fresh(n))
  {
    forall x | 0 <= x < n
      ensures TileAt(Fresh(n), 0, n, x)
    {
      FreshTile(n, x);
    }
    FreshCanonical(n);
  }

  lemma FreshTile(n: nat, x: nat)
    requires n % 16 == 0 && x < n
    ensures TileAt(Fresh(n), 0, n, x)
  {
    var q := x / 16;
    var own, s := Fresh(n), 16 * q;
    Sixteenth(n, q, x);
    forall y | s <= y < s + 16
      ensures own[y] == Piece(s, TOP, Free)
    {
      Sixteenth(n, q, y);
      assert own[y] == Piece(y - y % Size(TOP), TOP, Free);
    }
  }

  lemma Sixteenth(n: nat, q: nat, y: nat)
    requires n % 16 == 0 && 16 * q <= y < 16 * q + 16
    ensures y % 16 == y - 16 * q && (16 * q < n ==> 16 * q + 16 <= n)
  {
  }

  lemma FreshCanonical(n: nat)
    ensures Canonical(Fresh(n))
  {
    hide Buddy;
    assert forall a: nat, k: nat :: Has(Fresh(n), a, k, Free) ==> k == TOP;
  }

  /** When everything is free, a canonical region is the fresh one again. */
  lemma AllFreeIsFresh(own: seq<Piece>)
    requires Tiled(own) && Canonical(own) && forall x :: 0 <= x < |own| ==> own[x].holder == Free
    ensures own == Fresh(|own|)
  {
    FreshTiles(|own|);
    CanonicalUnique(own, Fresh(|own|));
  }
}
