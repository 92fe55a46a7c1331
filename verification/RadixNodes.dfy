/** The nodes of the ownership radix tree: three levels of pointer tables and bitmap leaves. */
module RadixNodes {
  import opened WordBits

  const MAX_CHUNKS: nat := 0x1000_0000_0000
  const ROOT: nat := 1

  /** Tables hold node numbers, zero for none.  A leaf has 64 words of 64 bits. */
  datatype Tree = Tree(tables: map<nat, seq<nat>>, leaves: map<nat, seq<bv64>>)

  /** How many entries a table of a level has. */
  function Fan(level: nat): nat { if level == 0 then 256 else 4096 }

  /** Which node of a level a chunk belongs to. */
  function Prefix(c: nat, level: nat): nat {
    if level == 0 then 0 else if level == 1 then c / 0x10_0000_0000 else if level == 2 then c / 0x100_0000 else c / 4096
  }

  /** split: the entry of a chunk in its table of a level. */
  function Entry(c: nat, level: nat): (i: nat)
    ensures level <= 2 ==> i < Fan(level)
  {
    if level == 0 then c / 0x10_0000_0000 % 256 else if level == 1 then c / 0x100_0000 % 4096 else c / 4096 % 4096
  }

  lemma PrefixStep(c: nat, level: nat)
    requires level <= 2 && c < MAX_CHUNKS
    ensures Prefix(c, level + 1) == Prefix(c, level) * Fan(level) + Entry(c, level)
  {
  }

  /** The home of a node: its level and which node of the level it is. */
  datatype Home = Home(level: nat, prefix: nat)

  ghost predicate ChildOk(t: Tree, home: map<nat, Home>, level: nat, prefix: nat, child: nat) {
    child != 0 ==>
      && child in home && home[child] == Home(level + 1, prefix)
      && if level < 2 then child in t.tables else child in t.leaves
  }

  ghost predicate TableOk(t: Tree, home: map<nat, Home>, n: nat)
    requires n in t.tables && n in home
  {
    && home[n].level <= 2 && |t.tables[n]| == Fan(home[n].level)
    && forall i :: 0 <= i < |t.tables[n]| ==>
         ChildOk(t, home, home[n].level, home[n].prefix * Fan(home[n].level) + i, t.tables[n][i])
  }

  /** Every node sits in one place of the tree, and its entries lead to the nodes below that place. */
  ghost predicate TreeOk(t: Tree, home: map<nat, Home>) {
    && ROOT in t.tables && t.tables.Keys + t.leaves.Keys == home.Keys && 0 !in home && home[ROOT] == Home(0, 0)
    && (forall n :: n in t.tables ==> TableOk(t, home, n))
    && (forall n :: n in t.leaves ==> home[n].level == 3 && |t.leaves[n]| == 64)
  }

  /** The node reached for a chunk from node `n` of a level by following `steps` entries, zero if an entry is empty. */
  ghost function Descend(t: Tree, c: nat, n: nat, level: nat, steps: nat): nat
    decreases steps
  {
    if steps == 0 then n
    else if n in t.tables && Entry(c, level) < |t.tables[n]| then Descend(t, c, t.tables[n][Entry(c, level)], level + 1, steps - 1)
    else 0
  }

  ghost function LeafOf(t: Tree, c: nat): nat { Descend(t, c, ROOT, 0, 3) }

  /** Radix::get. */
  ghost predicate Owned(t: Tree, c: nat) {
    c < MAX_CHUNKS &&
    var n := LeafOf(t, c);
    n in t.leaves && c % 4096 / 64 < |t.leaves[n]| && Has(t.leaves[n][c % 4096 / 64], c % 64)
  }

  /** Following a chunk's entries leads to the node of its prefix. */
  lemma {:induction false} DescendHome(t: Tree, home: map<nat, Home>, c: nat, n: nat, level: nat, steps: nat)
    requires TreeOk(t, home) && c < MAX_CHUNKS && level + steps <= 3
    requires n == 0 || (n in home && home[n] == Home(level, Prefix(c, level)) && if level < 3 then n in t.tables else n in t.leaves)
    ensures
      var m := Descend(t, c, n, level, steps);
      var l := level + steps;
      m == 0 || (m in home && home[m] == Home(l, Prefix(c, l)) && if l < 3 then m in t.tables else m in t.leaves)
    decreases steps
  {
    if steps > 0 && n != 0 {
      assert TableOk(t, home, n);
      PrefixStep(c, level);
      var i := Entry(c, level);
      assert ChildOk(t, home, level, Prefix(c, level) * Fan(level) + i, t.tables[n][i]);
      DescendHome(t, home, c, t.tables[n][i], level + 1, steps - 1);
    } else if steps > 0 {
      NullOutside(t, home);
    }
  }

  lemma NullOutside(t: Tree, home: map<nat, Home>)
    requires TreeOk(t, home)
    ensures 0 !in t.tables && 0 !in t.leaves
  {
    assert 0 !in t.tables.Keys + t.leaves.Keys;
  }

  // ----- installing a node -----

  function Zeros(n: nat): (z: seq<nat>)
    ensures |z| == n && forall i :: 0 <= i < n ==> z[i] == 0
  {
    if n == 0 then [] else Zeros(n - 1) + [0]
  }

  /** A compare-and-swap puts a new zeroed node `m` into an empty entry. */
  ghost function Installed(t: Tree, n: nat, i: nat, level: nat, m: nat): Tree {
    if n in t.tables && i < |t.tables[n]| then
      var entries: seq<nat> := t.tables[n][i := m];
      var tables: map<nat, seq<nat>> := t.tables[n := entries];
      if level < 2 then Tree(tables[m := Zeros(Fan(level + 1))], t.leaves)
      else Tree(tables, t.leaves[m := seq(64, _ => 0)])
    else t
  }

  /** Nodes only join the tree, each in its place. */
  ghost predicate Extends(t: Tree, home: map<nat, Home>, t': Tree, home': map<nat, Home>) {
    && t.tables.Keys <= t'.tables.Keys && t.leaves.Keys <= t'.leaves.Keys
    && forall n :: n in home ==> n in home' && home'[n] == home[n]
  }

  lemma SameTableOk(t: Tree, home: map<nat, Home>, t': Tree, home': map<nat, Home>, k: nat)
    requires Extends(t, home, t', home') && k in t.tables && k in home && TableOk(t, home, k) && t'.tables[k] == t.tables[k]
    ensures TableOk(t', home', k)
  {
    hide Fan;
    forall j | 0 <= j < |t'.tables[k]|
      ensures ChildOk(t', home', home'[k].level, home'[k].prefix * Fan(home'[k].level) + j, t'.tables[k][j])
    {
      assert ChildOk(t, home, home[k].level, home[k].prefix * Fan(home[k].level) + j, t.tables[k][j]);
    }
  }

  lemma EntryTableOk(t: Tree, home: map<nat, Home>, t': Tree, home': map<nat, Home>, n: nat, i: nat, m: nat)
    requires Extends(t, home, t', home') && n in t.tables && n in home && TableOk(t, home, n)
    requires i < |t.tables[n]| && t'.tables[n] == t.tables[n][i := m]
    requires ChildOk(t', home', home[n].level, home[n].prefix * Fan(home[n].level) + i, m)
    ensures TableOk(t', home', n)
  {
    hide Fan;
    forall j | 0 <= j < |t'.tables[n]|
      ensures ChildOk(t', home', home'[n].level, home'[n].prefix * Fan(home'[n].level) + j, t'.tables[n][j])
    {
      assert ChildOk(t, home, home[n].level, home[n].prefix * Fan(home[n].level) + j, t.tables[n][j]);
    }
  }

  lemma InstalledOk(t: Tree, home: map<nat, Home>, n: nat, i: nat, m: nat)
    requires TreeOk(t, home) && n in t.tables && i < |t.tables[n]| && t.tables[n][i] == 0 && m !in home && m != 0
    ensures
      var h := home[n];
      TreeOk(Installed(t, n, i, h.level, m), home[m := Home(h.level + 1, h.prefix * Fan(h.level) + i)])
  {
    hide Fan, TableOk;
    var h := home[n];
    var t' := Installed(t, n, i, h.level, m);
    var home' := home[m := Home(h.level + 1, h.prefix * Fan(h.level) + i)];
    LevelOf(t, home, n);
    assert m !in t.tables.Keys + t.leaves.Keys;
    InstalledKeys(t, n, i, h.level, m);
    forall k | k in t'.tables
      ensures TableOk(t', home', k)
    {
      if k == m {
        NewTableOk(t', home', m);
      } else if k == n {
        EntryTableOk(t, home, t', home', n, i, m);
      } else {
        SameTableOk(t, home, t', home', k);
      }
    }
  }

  lemma LevelOf(t: Tree, home: map<nat, Home>, n: nat)
    requires TreeOk(t, home) && n in t.tables
    ensures n in home && home[n].level <= 2
  {
    assert TableOk(t, home, n);
  }

  lemma InstalledKeys(t: Tree, n: nat, i: nat, level: nat, m: nat)
    requires n in t.tables && i < |t.tables[n]|
    ensures var t' := Installed(t, n, i, level, m); t'.tables.Keys + t'.leaves.Keys == t.tables.Keys + t.leaves.Keys + {m}
  {
  }

  lemma NewTableOk(t: Tree, home: map<nat, Home>, m: nat)
    requires m in t.tables && m in home && home[m].level <= 2 && t.tables[m] == Zeros(Fan(home[m].level))
    ensures TableOk(t, home, m)
  {
  }

  /** A path that does not end in the empty entry is unchanged. */
  lemma {:induction false} InstalledDescend(t: Tree, home: map<nat, Home>, c: nat, k: nat, level: nat, steps: nat, n: nat, i: nat, m: nat)
    requires TreeOk(t, home) && n in t.tables && i < |t.tables[n]| && t.tables[n][i] == 0 && m !in home && m != 0 && k != m
    ensures
      var t' := Installed(t, n, i, home[n].level, m);
      var d, d' := Descend(t, c, k, level, steps), Descend(t', c, k, level, steps);
      d' == d || (d == 0 && d' == m)
    decreases steps
  {
    NullOutside(t, home);
    var t' := Installed(t, n, i, home[n].level, m);
    if steps > 0 && k in t.tables {
      assert TableOk(t, home, k);
      var e := Entry(c, level);
      if k == n && e == i {
        ZeroDescend(t, c, level + 1, steps - 1);
        NewDescend(t, home, c, level + 1, steps - 1, n, i, m);
      } else if e < |t.tables[k]| {
        assert t'.tables[k][e] == t.tables[k][e];
        assert ChildOk(t, home, home[k].level, home[k].prefix * Fan(home[k].level) + e, t.tables[k][e]);
        InstalledDescend(t, home, c, t.tables[k][e], level + 1, steps - 1, n, i, m);
      }
    }
  }

  lemma ZeroDescend(t: Tree, c: nat, level: nat, steps: nat)
    requires 0 !in t.tables
    ensures Descend(t, c, 0, level, steps) == 0
  {
  }

  /** A new node leads nowhere. */
  lemma NewDescend(t: Tree, home: map<nat, Home>, c: nat, level: nat, steps: nat, n: nat, i: nat, m: nat)
    requires TreeOk(t, home) && n in t.tables && i < |t.tables[n]| && m !in home && m != 0
    ensures Descend(Installed(t, n, i, home[n].level, m), c, m, level, steps) == if steps == 0 then m else 0
  {
    NullOutside(t, home);
    var t' := Installed(t, n, i, home[n].level, m);
    assert m !in t.tables.Keys + t.leaves.Keys;
    if steps > 0 {
      ZeroDescend(t', c, level + 1, steps - 1);
    }
  }

  /** Installing a node changes no answer. */
  lemma InstalledOwned(t: Tree, home: map<nat, Home>, n: nat, i: nat, m: nat, c: nat)
    requires TreeOk(t, home) && n in t.tables && i < |t.tables[n]| && t.tables[n][i] == 0 && m !in home && m != 0
    ensures Owned(Installed(t, n, i, home[n].level, m), c) <==> Owned(t, c)
  {
    hide Descend, TableOk, Has;
    NoBits(c % 64);
    InstalledDescend(t, home, c, ROOT, 0, 3, n, i, m);
    NullOutside(t, home);
    assert m !in t.tables.Keys + t.leaves.Keys;
  }

  // ----- read-modify-write of one word -----

  /** fetch_or or fetch_and. */
  function Changed(word: bv64, mask: bv64, val: bool): bv64 { if val then Or(word, mask) else And(word, Not(mask)) }

  lemma ChangedHas(word: bv64, mask: bv64, val: bool, i: nat)
    requires i < 64
    ensures Has(Changed(word, mask, val), i) <==> if Has(mask, i) then val else Has(word, i)
  {
    hide On, Or, And, Not, Index;
    IndexSmall(i);
    MaskedWord(word, mask, Index(i));
  }

  /** A read-modify-write on a word of a leaf. */
  ghost function Written(t: Tree, n: nat, w: nat, mask: bv64, val: bool): Tree {
    if n in t.leaves && w < |t.leaves[n]| then
      var word := t.leaves[n][w];
      t.(leaves := t.leaves[n := t.leaves[n][w := Changed(word, mask, val)]])
    else t
  }

  lemma WrittenOk(t: Tree, home: map<nat, Home>, n: nat, w: nat, mask: bv64, val: bool)
    requires TreeOk(t, home)
    ensures TreeOk(Written(t, n, w, mask, val), home)
  {
    var t' := Written(t, n, w, mask, val);
    assert t'.leaves.Keys == t.leaves.Keys;
    hide TableOk;
    forall k | k in t'.tables
      ensures TableOk(t', home, k)
    {
      SameTableOk(t, home, t', home, k);
    }
  }

  lemma {:induction false} WrittenDescend(t: Tree, c: nat, k: nat, level: nat, steps: nat, n: nat, w: nat, mask: bv64, val: bool)
    ensures Descend(Written(t, n, w, mask, val), c, k, level, steps) == Descend(t, c, k, level, steps)
    decreases steps
  {
    if steps > 0 && k in t.tables && Entry(c, level) < |t.tables[k]| {
      WrittenDescend(t, c, t.tables[k][Entry(c, level)], level + 1, steps - 1, n, w, mask, val);
    }
  }

  /** A word write through the leaf of chunk `at` changes exactly the chunks of that word selected by the mask. */
  lemma WrittenOwned(t: Tree, home: map<nat, Home>, n: nat, w: nat, mask: bv64, val: bool, at: nat, c: nat)
    requires TreeOk(t, home) && at < MAX_CHUNKS && n == LeafOf(t, at) && n != 0 && w < 64
    ensures Owned(Written(t, n, w, mask, val), c) <==>
      if c / 4096 == at / 4096 && c % 4096 / 64 == w && Has(mask, c % 64) then val else Owned(t, c)
  {
    hide TableOk, Has, Changed;
    if c < MAX_CHUNKS {
      WrittenDescend(t, c, ROOT, 0, 3, n, w, mask, val);
      DescendHome(t, home, c, ROOT, 0, 3);
      DescendHome(t, home, at, ROOT, 0, 3);
      if c / 4096 == at / 4096 {
        SamePath(t, c, at);
        LeafFull(t, home, n);
        ChangedHas(t.leaves[n][w], mask, val, c % 64);
      }
    }
  }

  lemma LeafFull(t: Tree, home: map<nat, Home>, n: nat)
    requires TreeOk(t, home) && n in t.leaves
    ensures |t.leaves[n]| == 64
  {
  }

  lemma SamePath(t: Tree, c: nat, d: nat)
    requires c / 4096 == d / 4096
    ensures LeafOf(t, c) == LeafOf(t, d)
  {
    assert Entry(c, 2) == Entry(d, 2);
    assert Entry(c, 1) == Entry(d, 1) by { assert c / 0x100_0000 == c / 4096 / 4096 && d / 0x100_0000 == d / 4096 / 4096; }
    assert Entry(c, 0) == Entry(d, 0) by {
      assert c / 0x10_0000_0000 == c / 4096 / 0x100_0000 && d / 0x10_0000_0000 == d / 4096 / 0x100_0000;
    }
    SameDescend(t, c, d, ROOT, 0, 3);
  }

  lemma {:induction false} SameDescend(t: Tree, c: nat, d: nat, n: nat, level: nat, steps: nat)
    requires level + steps == 3 && Entry(c, 0) == Entry(d, 0) && Entry(c, 1) == Entry(d, 1) && Entry(c, 2) == Entry(d, 2)
    ensures Descend(t, c, n, level, steps) == Descend(t, d, n, level, steps)
    decreases steps
  {
    hide Entry;
    if steps > 0 && n in t.tables {
      assert level == 0 || level == 1 || level == 2;
      if Entry(c, level) < |t.tables[n]| {
        SameDescend(t, c, d, t.tables[n][Entry(c, level)], level + 1, steps - 1);
      }
    }
  }
}
