/** The ownership radix tree: batched range updates against the page-by-page definition. */
module RadixTree {
  import opened Numbers
  import opened Layout
  import opened WordBits
  import opened RadixNodes

  const CHUNK: nat := 4096
  const MAX_ADDR: nat := 0x100_0000_0000_0000

  // ----- the part of a range in one word -----

  /** The last chunk, counted in its leaf, that an update starting at `chunk` reaches before leaving the leaf. */
  function LeafEnd(chunk: nat, end: nat): nat
    requires chunk <= end
  {
    chunk % 4096 + Min(4096 - chunk % 4096, end - chunk + 1) - 1
  }

  function FirstBit(chunk: nat, w: nat): (r: nat)
    ensures r < 64
  {
    if w == chunk % 4096 / 64 then chunk % 64 else 0
  }

  function LastBit(chunk: nat, end: nat, w: nat): (r: nat)
    requires chunk <= end
    ensures r < 64
  {
    if w == LeafEnd(chunk, end) / 64 then LeafEnd(chunk, end) % 64 else 63
  }

  /** How far the range is done when word `w` is next. */
  function Reached(chunk: nat, end: nat, w: nat): nat
    requires chunk <= end
  {
    chunk - chunk % 4096 + Min(Max(64 * w, chunk % 4096), LeafEnd(chunk, end) + 1)
  }

  /** The same in leaf, word and bit numbers. */
  lemma SpanInBits(q: nat, w0: nat, b0: nat, we: nat, be: nat, w: nat, qc: nat, wc: nat, bc: nat)
    requires b0 < 64 && be < 64 && bc < 64 && w0 <= w <= we < 64 && wc < 64 && 64 * w0 + b0 <= 64 * we + be
    ensures
      var lo := Min(Max(64 * w, 64 * w0 + b0), 64 * we + be + 1);
      var hi := Min(Max(64 * w + 64, 64 * w0 + b0), 64 * we + be + 1);
      (qc == q && wc == w && (if w == w0 then b0 else 0) <= bc <= (if w == we then be else 63))
      <==> 4096 * q + lo <= 4096 * qc + 64 * wc + bc < 4096 * q + hi
  {
    if qc < q {
      assert qc + 1 <= q;
    } else if qc == q {
      if wc < w {
        assert wc + 1 <= w;
      } else if wc > w {
        assert wc >= w + 1;
      }
    }
  }

  lemma Digits(c: nat)
    ensures c == 4096 * (c / 4096) + 64 * (c % 4096 / 64) + c % 64 && c % 4096 / 64 < 64
  {
    var r := c % 4096;
    var w, b := r / 64, r % 64;
    assert c == 4096 * (c / 4096) + r && r == 64 * w + b;
    LowBits(64 * (c / 4096) + w, b);
  }

  lemma LowBits(x: nat, b: nat)
    requires b < 64
    ensures (64 * x + b) % 64 == b
  {
  }

  /** The chunks a word write selects are the next ones of the range. */
  lemma WordSpan(chunk: nat, end: nat, w: nat, c: nat)
    requires chunk <= end && chunk % 4096 / 64 <= w <= LeafEnd(chunk, end) / 64
    ensures (c / 4096 == chunk / 4096 && c % 4096 / 64 == w && FirstBit(chunk, w) <= c % 64 <= LastBit(chunk, end, w))
      <==> Reached(chunk, end, w) <= c < Reached(chunk, end, w + 1)
  {
    Digits(c);
    Digits(chunk);
    var e := LeafEnd(chunk, end);
    assert e < 4096 && chunk % 4096 <= e;
    SpanInBits(chunk / 4096, chunk % 4096 / 64, chunk % 64, e / 64, e % 64, w, c / 4096, c % 4096 / 64, c % 64);
  }

  lemma SpanEnds(chunk: nat, end: nat)
    requires chunk <= end
    ensures Reached(chunk, end, chunk % 4096 / 64) == chunk
    ensures Reached(chunk, end, LeafEnd(chunk, end) / 64 + 1) == chunk + Min(4096 - chunk % 4096, end - chunk + 1)
  {
  }

  /** The mask for one word of the range. */
  function WordMask(chunk: nat, end: nat, w: nat): bv64
    requires chunk <= end
  {
    Mask(FirstBit(chunk, w), LastBit(chunk, end, w))
  }

  /** The mask selects the next chunks of the range and no others. */
  lemma MaskSpan(chunk: nat, end: nat, w: nat, c: nat)
    requires chunk <= end && chunk % 4096 / 64 <= w <= LeafEnd(chunk, end) / 64
    ensures (c / 4096 == chunk / 4096 && c % 4096 / 64 == w && Has(WordMask(chunk, end, w), c % 64))
      <==> Reached(chunk, end, w) <= c < Reached(chunk, end, w + 1)
  {
    hide Has, Mask, Reached, LeafEnd;
    MaskHas(FirstBit(chunk, w), LastBit(chunk, end, w), c % 64);
    WordSpan(chunk, end, w, c);
  }

  // ----- paths -----

  lemma {:induction false} DescendLast(t: Tree, c: nat, n: nat, level: nat, steps: nat)
    requires 0 !in t.tables
    ensures
      var k := Descend(t, c, n, level, steps);
      Descend(t, c, n, level, steps + 1) ==
        if k in t.tables && Entry(c, level + steps) < |t.tables[k]| then t.tables[k][Entry(c, level + steps)] else 0
    decreases steps
  {
    if steps > 0 && n in t.tables && Entry(c, level) < |t.tables[n]| {
      DescendLast(t, c, t.tables[n][Entry(c, level)], level + 1, steps - 1);
    } else if steps == 0 && n in t.tables && Entry(c, level) < |t.tables[n]| {
      assert Descend(t, c, t.tables[n][Entry(c, level)], level + 1, 0) == t.tables[n][Entry(c, level)];
    }
  }

  /** Standing at the table of a chunk at some level. */
  ghost predicate AtTable(t: Tree, home: map<nat, Home>, c: nat, level: nat, n: nat) {
    && c < MAX_CHUNKS && level <= 2 && n == Descend(t, c, ROOT, 0, level) && n in t.tables && n in home
    && home[n] == Home(level, Prefix(c, level)) && Entry(c, level) < |t.tables[n]|
  }

  ghost predicate LeadsTo(t: Tree, home: map<nat, Home>, c: nat, level: nat, n: nat, m: nat) {
    TreeOk(t, home) && AtTable(t, home, c, level, n) && t.tables[n][Entry(c, level)] == m
  }

  ghost predicate AtLeaf(t: Tree, c: nat, n: nat) { c < MAX_CHUNKS && n == LeafOf(t, c) && n in t.leaves && n != 0 }

  lemma AtRoot(t: Tree, home: map<nat, Home>, c: nat)
    requires TreeOk(t, home) && c < MAX_CHUNKS
    ensures AtTable(t, home, c, 0, ROOT)
  {
    assert TableOk(t, home, ROOT);
  }

  /** A filled entry leads one level down. */
  lemma StepDown(t: Tree, home: map<nat, Home>, c: nat, level: nat, n: nat)
    requires TreeOk(t, home) && AtTable(t, home, c, level, n) && t.tables[n][Entry(c, level)] != 0
    ensures
      var m := t.tables[n][Entry(c, level)];
      if level < 2 then AtTable(t, home, c, level + 1, m) else AtLeaf(t, c, m)
  {
    NullOutside(t, home);
    DescendLast(t, c, ROOT, 0, level);
    DescendHome(t, home, c, ROOT, 0, level + 1);
    var m := t.tables[n][Entry(c, level)];
    if level < 2 {
      assert TableOk(t, home, m);
    }
  }

  /** Filling an empty entry, then going down. */
  lemma InstallDown(t: Tree, home: map<nat, Home>, c: nat, level: nat, n: nat, m: nat)
    requires TreeOk(t, home) && AtTable(t, home, c, level, n) && t.tables[n][Entry(c, level)] == 0 && m !in home && m != 0
    ensures
      var home' := home[m := Home(level + 1, Prefix(c, level) * Fan(level) + Entry(c, level))];
      LeadsTo(Installed(t, n, Entry(c, level), level, m), home', c, level, n, m)
  {
    hide TableOk, Fan, Prefix;
    InstalledOk(t, home, n, Entry(c, level), m);
    InstalledDescend(t, home, c, ROOT, 0, level, n, Entry(c, level), m);
    NullOutside(t, home);
    assert m !in t.tables.Keys + t.leaves.Keys;
  }

  // ----- the tree used by one thread -----

  class Radix {
    var tables: map<nat, seq<nat>>
    var leaves: map<nat, seq<bv64>>
    /** The next mapping the system hands out. */
    var unused: nat
    ghost var home: map<nat, Home>

    ghost function Nodes(): Tree
      reads this
    {
      Tree(tables, leaves)
    }

    ghost predicate Valid()
      reads this
    {
      TreeOk(Nodes(), home) && unused > 0 && forall n :: n in home ==> n < unused
    }

    constructor ()
      ensures Valid() && forall c :: !Owned(Nodes(), c)
    {
      tables, leaves, unused := map[ROOT := Zeros(256)], map[], 2;
      home := map[ROOT := Home(0, 0)];
      new;
      assert TableOk(Nodes(), home, ROOT);
    }

    /** get_or_alloc and get_or_alloc_l3: the node below, mapped if there was none. */
    method GetOrAlloc(n: nat, c: nat, level: nat) returns (m: nat)
      requires Valid() && AtTable(Nodes(), home, c, level, n)
      modifies this
      ensures Valid() && if level < 2 then AtTable(Nodes(), home, c, level + 1, m) else AtLeaf(Nodes(), c, m)
      ensures forall d: nat :: Owned(Nodes(), d) <==> old(Owned(Nodes(), d))
    {
      hide TreeOk, Owned, Descend;
      var i := Entry(c, level);
      m := tables[n][i];
      if m == 0 {
        m := unused;
        ghost var t := Nodes();
        InstallDown(t, home, c, level, n, m);
        forall d: nat
          ensures Owned(Installed(t, n, i, level, m), d) <==> Owned(t, d)
        {
          InstalledOwned(t, home, n, i, m, d);
        }
        var entries: seq<nat> := tables[n][i := m];
        tables := tables[n := entries];
        if level < 2 {
          tables := tables[m := Zeros(Fan(level + 1))];
        } else {
          leaves := leaves[m := seq(64, _ => 0)];
        }
        home := home[m := Home(level + 1, Prefix(c, level) * Fan(level) + Entry(c, level))];
        unused := unused + 1;
        assert Nodes() == Installed(t, n, i, level, m);
      }
      StepDown(Nodes(), home, c, level, n);
    }

    method LeafFor(c: nat) returns (leaf: nat)
      requires Valid() && c < MAX_CHUNKS
      modifies this
      ensures Valid() && AtLeaf(Nodes(), c, leaf)
      ensures forall d: nat :: Owned(Nodes(), d) <==> old(Owned(Nodes(), d))
    {
      hide Owned, Descend;
      AtRoot(Nodes(), home, c);
      var l1 := GetOrAlloc(ROOT, c, 0);
      var l2 := GetOrAlloc(l1, c, 1);
      leaf := GetOrAlloc(l2, c, 2);
    }

    /** One fetch_or or fetch_and. */
    method Modify(leaf: nat, c: nat, w: nat, mask: bv64, val: bool)
      requires Valid() && AtLeaf(Nodes(), c, leaf) && w < 64
      modifies this`leaves
      ensures Valid() && AtLeaf(Nodes(), c, leaf)
      ensures forall d: nat :: Owned(Nodes(), d) <==>
        if d / 4096 == c / 4096 && d % 4096 / 64 == w && Has(mask, d % 64) then val else old(Owned(Nodes(), d))
    {
      hide TreeOk, Owned, Has, Changed;
      ghost var t := Nodes();
      LeafSize(t, home, leaf);
      WrittenOk(t, home, leaf, w, mask, val);
      WrittenDescend(t, c, ROOT, 0, 3, leaf, w, mask, val);
      forall d: nat
        ensures Owned(Written(t, leaf, w, mask, val), d) <==>
          if d / 4096 == c / 4096 && d % 4096 / 64 == w && Has(mask, d % 64) then val else Owned(t, d)
      {
        WrittenOwned(t, home, leaf, w, mask, val, c, d);
      }
      var word := leaves[leaf][w];
      leaves := leaves[leaf := leaves[leaf][w := Changed(word, mask, val)]];
      assert Nodes() == Written(t, leaf, w, mask, val);
    }

    /** Radix::set_range equals setting every chunk of the range. */
    method SetChunks(start: nat, end: nat, val: bool)
      requires Valid() && start <= end < MAX_CHUNKS
      modifies this
      ensures Valid()
      ensures forall d: nat :: Owned(Nodes(), d) <==> if start <= d <= end then val else old(Owned(Nodes(), d))
    {
      var chunk := start;
      while true
        invariant Valid() && start <= chunk <= end
        invariant forall d: nat :: Owned(Nodes(), d) <==> if start <= d < chunk then val else old(Owned(Nodes(), d))
        decreases end - chunk
      {
        hide Owned, Valid, AtLeaf, Reached;
        var leaf := LeafFor(chunk);
        SetLeaf(leaf, chunk, end, val);
        SpanEnds(chunk, end);
        var inLeaf := Min(4096 - chunk % 4096, end - chunk + 1);
        if inLeaf == end - chunk + 1 {
          break;
        }
        chunk := chunk + inLeaf;
      }
    }

    /** The words of one leaf. */
    method SetLeaf(leaf: nat, chunk: nat, end: nat, val: bool)
      requires Valid() && AtLeaf(Nodes(), chunk, leaf) && chunk <= end < MAX_CHUNKS
      modifies this`leaves
      ensures Valid()
      ensures forall d: nat :: Owned(Nodes(), d) <==>
        if chunk <= d < Reached(chunk, end, LeafEnd(chunk, end) / 64 + 1) then val else old(Owned(Nodes(), d))
    {
      hide Owned, Valid, AtLeaf;
      var w := chunk % 4096 / 64;
      SpanEnds(chunk, end);
      while w <= LeafEnd(chunk, end) / 64
        invariant Valid() && AtLeaf(Nodes(), chunk, leaf) && chunk % 4096 / 64 <= w <= LeafEnd(chunk, end) / 64 + 1
        invariant forall d: nat :: Owned(Nodes(), d) <==> if chunk <= d < Reached(chunk, end, w) then val else old(Owned(Nodes(), d))
      {
        hide WordMask, Has, Reached, LeafEnd;
        WordInLeaf(chunk, end, w);
        Modify(leaf, chunk, w, WordMask(chunk, end, w), val);
        forall d: nat
          ensures Owned(Nodes(), d) <==> if chunk <= d < Reached(chunk, end, w + 1) then val else old(Owned(Nodes(), d))
        {
          MaskSpan(chunk, end, w, d);
          ReachedGrows(chunk, end, w);
        }
        w := w + 1;
      }
    }

    /** RadixTree::set_range: exactly the pages that meet the byte range change, and none if the range is empty or does
        not fit below 2^56. */
    method SetRange(addr: nat, size: nat, val: bool)
      requires Valid() && addr < WRAP && size < WRAP
      modifies this
      ensures Valid()
      ensures forall d: nat :: Owned(Nodes(), d) <==>
        if addr + size <= MAX_ADDR && Meets(d, addr, size) then val else old(Owned(Nodes(), d))
    {
      hide Owned, Valid;
      if size == 0 || addr >= MAX_ADDR {
        return;
      }
      if addr + (size - 1) >= WRAP {
        return;
      }
      var last := addr + size - 1;
      if last >= MAX_ADDR {
        return;
      }
      SetChunks(addr / CHUNK, last / CHUNK, val);
      forall d: nat
        ensures addr / CHUNK <= d <= last / CHUNK <==> Meets(d, addr, size)
      {
        MeetsChunks(d, addr, size);
      }
    }
  }

  /** The page shares a byte with the range. */
  ghost predicate Meets(page: nat, addr: nat, size: nat) {
    exists x: nat :: addr <= x < addr + size && x / CHUNK == page
  }

  lemma MeetsChunks(page: nat, addr: nat, size: nat)
    requires size > 0
    ensures Meets(page, addr, size) <==> addr / CHUNK <= page <= (addr + size - 1) / CHUNK
  {
    if addr / CHUNK <= page <= (addr + size - 1) / CHUNK {
      var x := Max(addr, page * CHUNK);
      assert x / CHUNK == page;
      assert addr <= x < addr + size;
    }
  }

  lemma LeafSize(t: Tree, home: map<nat, Home>, leaf: nat)
    requires TreeOk(t, home) && leaf in t.leaves
    ensures |t.leaves[leaf]| == 64
  {
  }

  lemma WordInLeaf(chunk: nat, end: nat, w: nat)
    requires chunk <= end && chunk % 4096 / 64 <= w <= LeafEnd(chunk, end) / 64
    ensures w < 64
  {
  }

  lemma ReachedGrows(chunk: nat, end: nat, w: nat)
    requires chunk <= end && chunk % 4096 / 64 <= w
    ensures chunk <= Reached(chunk, end, w) <= Reached(chunk, end, w + 1)
  {
  }
}
