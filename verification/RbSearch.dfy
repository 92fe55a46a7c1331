/** Search order, and the finite map that an ordered tree stands for. */
module RbSearch {
  import opened BigMeta
  import opened RbShape

  ghost predicate Sorted(s: seq<Item>) {
    forall i, j :: 0 <= i < j < |s| ==> s[i].key < s[j].key
  }

  ghost function MapOf(s: seq<Item>): map<nat, BigAllocMeta> {
    if s == [] then map[] else MapOf(s[..|s| - 1])[s[|s| - 1].key := s[|s| - 1].meta]
  }

  ghost predicate AllBelow(s: seq<Item>, key: nat) { forall i :: 0 <= i < |s| ==> s[i].key < key }

  ghost predicate AllAbove(s: seq<Item>, key: nat) { forall i :: 0 <= i < |s| ==> key < s[i].key }

  /** The search for `key` that stands at the focus has missed nothing. */
  ghost predicate Narrowed(c: Ctx, key: nat) { AllBelow(Before(c), key) && AllAbove(After(c), key) }

  lemma SortedConcat(a: seq<Item>, i: Item, b: seq<Item>)
    ensures Sorted(a + [i] + b) <==> Sorted(a) && Sorted(b) && AllBelow(a, i.key) && AllAbove(b, i.key)
  {
    var s := a + [i] + b;
    assert s[|a|] == i;
    assert forall k :: 0 <= k < |a| ==> s[k] == a[k];
    assert forall k :: 0 <= k < |b| ==> s[|a| + 1 + k] == b[k];
    if Sorted(a) && Sorted(b) && AllBelow(a, i.key) && AllAbove(b, i.key) {
      forall j, k | 0 <= j < k < |s|
        ensures s[j].key < s[k].key
      {
        if j > |a| {
          assert s[j] == b[j - |a| - 1] && s[k] == b[k - |a| - 1];
        }
      }
    }
  }

  lemma Weaken(a: seq<Item>, i: Item, key: nat)
    ensures AllBelow(a, i.key) && i.key < key ==> AllBelow(a + [i], key)
    ensures AllAbove(a, i.key) && key < i.key ==> AllAbove([i] + a, key)
  {
  }

  lemma FlatBranch(t: Tree)
    requires t.Branch?
    ensures Flat(t) == Flat(t.left) + [t.item] + Flat(t.right)
  {
  }

  /** The entries before and after the one at the focus. */
  lemma FocusSorted(c: Ctx, t: Tree)
    requires t.Branch? && Sorted(Flat(Plug(c, t)))
    ensures
      var a, b := Before(c) + Flat(t.left), Flat(t.right) + After(c);
      && Flat(Plug(c, t)) == a + [t.item] + b
      && Sorted(a) && Sorted(b) && AllBelow(a, t.item.key) && AllAbove(b, t.item.key)
  {
    FlatPlug(c, t);
    assert Flat(t) == Flat(t.left) + [t.item] + Flat(t.right);
    hide Plug, Flat, Before, After, Sorted;
    Around(Before(c), Flat(t.left), t.item, Flat(t.right), After(c));
    SortedConcat(Before(c) + Flat(t.left), t.item, Flat(t.right) + After(c));
  }

  /** Going down on side `s` keeps the search exact. */
  lemma Descend(c: Ctx, t: Tree, s: Side, key: nat)
    requires t.Branch? && Sorted(Flat(Plug(c, t))) && Narrowed(c, key)
    requires if s.L? then key < t.item.key else key > t.item.key
    ensures Narrowed(Frame(s, t.color, t.item, Far(t, s), c), key)
  {
    FocusSorted(c, t);
    var f := Frame(s, t.color, t.item, Far(t, s), c);
    assert After(f) == if s.R? then After(c) else [t.item] + Flat(t.right) + After(c);
    assert Before(f) == if s.L? then Before(c) else Before(c) + Flat(t.left) + [t.item];
    hide Plug, Flat, Before, After, Sorted, AllBelow, AllAbove;
    Around(Before(c), Flat(t.left), t.item, Flat(t.right), After(c));
    Weaken(Before(c) + Flat(t.left), t.item, key);
    Weaken(Flat(t.right) + After(c), t.item, key);
  }

  /** The entry at the focus is the one the map has for its key; an empty focus means there is none. */
  lemma FoundOrMissing(c: Ctx, t: Tree, key: nat)
    requires Sorted(Flat(Plug(c, t))) && Narrowed(c, key)
    ensures t.Leaf? ==> key !in MapOf(Flat(Plug(c, t)))
    ensures t.Branch? && t.item.key == key ==> key in MapOf(Flat(Plug(c, t))) && MapOf(Flat(Plug(c, t)))[key] == t.item.meta
  {
    hide Plug, Before, After, Sorted, AllBelow, AllAbove, MapOf;
    if t.Branch? {
      FocusSorted(c, t);
      MapMiddle(Before(c) + Flat(t.left), t.item, Flat(t.right) + After(c));
    } else {
      FlatPlug(c, t);
      assert Flat(Plug(c, t)) == Before(c) + After(c);
      MapSplit(Before(c), After(c));
      MapBounds(Before(c), key);
      MapBounds(After(c), key);
    }
  }

  /** A new entry at an empty focus. */
  lemma InsertMap(c: Ctx, i: Item)
    requires Sorted(Flat(Plug(c, Leaf))) && Narrowed(c, i.key)
    ensures
      var s := Before(c) + [i] + After(c);
      && Sorted(s) && MapOf(s) == MapOf(Flat(Plug(c, Leaf)))[i.key := i.meta]
  {
    FlatPlug(c, Leaf);
    assert Flat(Plug(c, Leaf)) == Before(c) + After(c);
    hide Plug, Flat, Before, After, Sorted, AllBelow, AllAbove, MapOf;
    Split(Before(c), After(c));
    MapSplit(Before(c), After(c));
    MapMiddle(Before(c), i, After(c));
  }

  /** Taking out the entry at the focus. */
  lemma RemoveMap(c: Ctx, t: Tree)
    requires t.Branch? && Sorted(Flat(Plug(c, t)))
    ensures
      var s := Before(c) + (Flat(t.left) + Flat(t.right)) + After(c);
      && Sorted(s) && MapOf(s) == MapOf(Flat(Plug(c, t))) - {t.item.key}
  {
    hide Plug, Flat, Before, After, Sorted, AllBelow, AllAbove, MapOf;
    FocusSorted(c, t);
    var a, b := Before(c) + Flat(t.left), Flat(t.right) + After(c);
    Around(Before(c), Flat(t.left), t.item, Flat(t.right), After(c));
    Joined(a, t.item, b);
    MapSplit(a, b);
    MapMiddle(a, t.item, b);
  }

  /** Changing the value of the entry at the focus. */
  lemma ReplaceMap(c: Ctx, t: Tree, meta: BigAllocMeta)
    requires t.Branch? && Sorted(Flat(Plug(c, t)))
    ensures
      var u := Plug(c, t.(item := t.item.(meta := meta)));
      && Sorted(Flat(u)) && MapOf(Flat(u)) == MapOf(Flat(Plug(c, t)))[t.item.key := meta]
  {
    hide Plug, Flat, Before, After, Sorted, AllBelow, AllAbove, MapOf;
    FocusSorted(c, t);
    var i := t.item.(meta := meta);
    var u := t.(item := i);
    FlatBranch(u);
    FlatPlug(c, u);
    var a, b := Before(c) + Flat(t.left), Flat(t.right) + After(c);
    Around(Before(c), Flat(t.left), i, Flat(t.right), After(c));
    MapMiddle(a, t.item, b);
    MapMiddle(a, i, b);
  }

  lemma {:induction false} MapBounds(s: seq<Item>, key: nat)
    requires AllBelow(s, key) || AllAbove(s, key)
    ensures key !in MapOf(s)
  {
    if s != [] {
      MapBounds(s[..|s| - 1], key);
    }
  }

  lemma Split(a: seq<Item>, b: seq<Item>)
    requires Sorted(a + b)
    ensures Sorted(a) && Sorted(b)
  {
    assert forall k :: 0 <= k < |a| ==> (a + b)[k] == a[k];
    assert forall k :: 0 <= k < |b| ==> (a + b)[|a| + k] == b[k];
  }

  lemma Joined(a: seq<Item>, i: Item, b: seq<Item>)
    requires Sorted(a) && Sorted(b) && AllBelow(a, i.key) && AllAbove(b, i.key)
    ensures Sorted(a + b)
  {
  }

  lemma {:induction false} MapSplit(a: seq<Item>, b: seq<Item>)
    ensures MapOf(a + b) == MapOf(a) + MapOf(b)
  {
    if b == [] {
      assert a + b == a;
    } else {
      var b' := b[..|b| - 1];
      MapSplit(a, b');
      assert (a + b)[..|a + b| - 1] == a + b';
    }
  }

  lemma MapMiddle(a: seq<Item>, i: Item, b: seq<Item>)
    requires Sorted(a) && Sorted(b) && AllBelow(a, i.key) && AllAbove(b, i.key)
    ensures Sorted(a + [i] + b)
    ensures MapOf(a + [i] + b) == (MapOf(a) + MapOf(b))[i.key := i.meta]
    ensures i.key !in MapOf(a) && i.key !in MapOf(b)
  {
    var one := [i];
    assert one[..0] == [];
    assert MapOf(one) == map[i.key := i.meta];
    MapBounds(a, i.key);
    MapBounds(b, i.key);
    SortedConcat(a, i, b);
    hide Sorted, AllBelow, AllAbove, MapOf;
    MapSplit(a + one, b);
    MapSplit(a, one);
  }

  /** The key of the parent tells on which side the empty focus is. */
  lemma ParentKey(m: Mem, root: Node?, c: Ctx, key: nat)
    requires Zip(m, root, c, Leaf) && Narrowed(c, key)
    ensures c.Frame? ==> c.item.node in m && m[c.item.node].key == c.item.key
    ensures c.Frame? ==> (key < c.item.key <==> c.side.L?)
  {
    if c.Frame? {
      if c.side.L? {
        assert After(c)[0] == c.item;
      } else {
        assert Before(c)[|Before(c)| - 1] == c.item;
      }
    }
  }

  lemma {:induction false} MapSize(s: seq<Item>)
    requires Sorted(s)
    ensures |MapOf(s)| == |s|
  {
    if s != [] {
      var rest := s[..|s| - 1];
      MapSize(rest);
      MapBounds(rest, s[|s| - 1].key);
    }
  }
}
