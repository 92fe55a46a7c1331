/** Doubly linked lists of numbered cells. */
module DoublyLinked {
  /** The null pointer. */
  const NIL: int := -1

  datatype Cell<T> = Cell(next: int, prev: int, data: T)

  ghost function FirstOf(xs: seq<nat>, end: int): int { if xs == [] then end else xs[0] }

  ghost function LastOf(xs: seq<nat>, end: int): int { if xs == [] then end else xs[|xs| - 1] }

  /** The records of `xs` are linked both ways, from `prev` to `next`. */
  ghost predicate Links<T>(m: map<nat, Cell<T>>, prev: int, xs: seq<nat>, next: int)
    decreases |xs|
  {
    xs != [] ==>
      && xs[0] in m && m[xs[0]].prev == prev && m[xs[0]].next == FirstOf(xs[1..], next)
      && Links(m, xs[0], xs[1..], next)
  }

  ghost predicate NoRepeats(xs: seq<nat>) { forall i, j :: 0 <= i < j < |xs| ==> xs[i] != xs[j] }

  lemma {:induction false} LinksFrame<T>(m: map<nat, Cell<T>>, m': map<nat, Cell<T>>, prev: int, xs: seq<nat>, next: int)
    requires Links(m, prev, xs, next)
    requires forall a :: a in xs ==> a in m && a in m' && m'[a].next == m[a].next && m'[a].prev == m[a].prev
    ensures Links(m', prev, xs, next)
    decreases |xs|
  {
    if xs != [] {
      LinksFrame(m, m', xs[0], xs[1..], next);
    }
  }

  lemma {:induction false} LinksIn<T>(m: map<nat, Cell<T>>, prev: int, xs: seq<nat>, next: int)
    requires Links(m, prev, xs, next)
    ensures forall a :: a in xs ==> a in m
    decreases |xs|
  {
    if xs != [] {
      LinksIn(m, xs[0], xs[1..], next);
      assert xs == [xs[0]] + xs[1..];
    }
  }

  lemma {:induction false} LinksConcat<T>(m: map<nat, Cell<T>>, prev: int, xs: seq<nat>, ys: seq<nat>, next: int)
    ensures Links(m, prev, xs + ys, next) <==> Links(m, prev, xs, FirstOf(ys, next)) && Links(m, LastOf(xs, prev), ys, next)
    decreases |xs|
  {
    if xs == [] {
      assert xs + ys == ys;
    } else {
      assert (xs + ys)[1..] == xs[1..] + ys;
      LinksConcat(m, xs[0], xs[1..], ys, next);
      assert LastOf(xs, prev) == LastOf(xs[1..], xs[0]);
      assert FirstOf(xs[1..] + ys, next) == FirstOf(xs[1..], FirstOf(ys, next));
    }
  }

  /** The cell at position `i` leads to the next one. */
  lemma LinkAt<T>(m: map<nat, Cell<T>>, prev: int, xs: seq<nat>, next: int, i: nat)
    requires Links(m, prev, xs, next) && i < |xs|
    ensures xs[i] in m && m[xs[i]].next == FirstOf(xs[i + 1..], next)
  {
    assert xs == xs[..i] + xs[i..];
    LinksConcat(m, prev, xs[..i], xs[i..], next);
    assert xs[i..][1..] == xs[i + 1..];
  }

  ghost function SetPrev<T>(m: map<nat, Cell<T>>, a: int, prev: int): map<nat, Cell<T>> {
    if a in m then m[a := m[a].(prev := prev)] else m
  }

  ghost function SetNext<T>(m: map<nat, Cell<T>>, a: int, next: int): map<nat, Cell<T>> {
    if a in m then m[a := m[a].(next := next)] else m
  }

  /** A new predecessor for a list. */
  lemma RelinkFirst<T>(m: map<nat, Cell<T>>, p: int, p': int, xs: seq<nat>, next: int)
    requires Links(m, p, xs, next) && NoRepeats(xs)
    ensures Links(SetPrev(m, FirstOf(xs, NIL), p'), p', xs, next)
  {
    if xs != [] {
      LinksIn(m, p, xs, next);
      var m' := SetPrev(m, xs[0], p');
      assert forall a :: a in xs[1..] ==> a != xs[0];
      assert forall a :: a in xs[1..] ==> a in xs;
      LinksFrame(m, m', xs[0], xs[1..], next);
    }
  }

  /** A new successor for a list. */
  lemma RelinkLast<T>(m: map<nat, Cell<T>>, p: int, xs: seq<nat>, next: int, next': int)
    requires Links(m, p, xs, next) && NoRepeats(xs)
    ensures Links(SetNext(m, LastOf(xs, NIL), next'), p, xs, next')
  {
    if xs != [] {
      var front, last := xs[..|xs| - 1], xs[|xs| - 1];
      assert xs == front + [last];
      LinksIn(m, p, xs, next);
      LinksConcat(m, p, front, [last], next);
      assert Links(m, LastOf(front, p), [last], next);
      var m' := SetNext(m, last, next');
      assert forall a :: a in front ==> a != last && a in xs;
      LinksFrame(m, m', p, front, last);
      assert [last][1..] == [];
      assert Links(m', LastOf(front, p), [last], next');
      LinksConcat(m', p, front, [last], next');
    }
  }

  ghost function IndexOf(xs: seq<nat>, a: nat): (i: nat)
    requires a in xs
    ensures i < |xs| && xs[i] == a
  {
    var i :| 0 <= i < |xs| && xs[i] == a;
    i
  }

  ghost function Without(xs: seq<nat>, a: nat): seq<nat> {
    if a in xs then xs[..IndexOf(xs, a)] + xs[IndexOf(xs, a) + 1..] else xs
  }

  lemma PushLinks<T>(m: map<nat, Cell<T>>, xs: seq<nat>, a: nat)
    requires Links(m, NIL, xs, NIL) && NoRepeats(xs) && a !in xs && a in m
    ensures
      var head := FirstOf(xs, NIL);
      Links(SetPrev(m[a := m[a].(prev := NIL, next := head)], head, a), NIL, [a] + xs, NIL)
  {
    var head := FirstOf(xs, NIL);
    var m' := m[a := m[a].(prev := NIL, next := head)];
    LinksIn(m, NIL, xs, NIL);
    LinksFrame(m, m', NIL, xs, NIL);
    RelinkFirst(m', NIL, a, xs, NIL);
    assert ([a] + xs)[1..] == xs;
  }

  /** A list around one of its blocks. */
  lemma Around(xs: seq<nat>, a: nat) returns (ys: seq<nat>, zs: seq<nat>)
    requires a in xs && NoRepeats(xs)
    ensures xs == ys + [a] + zs && Without(xs, a) == ys + zs
    ensures NoRepeats(ys + zs) && forall b :: b in ys + zs <==> b in xs && b != a
  {
    var i := IndexOf(xs, a);
    ys, zs := xs[..i], xs[i + 1..];
    assert xs == ys + [a] + zs;
    Apart(ys, a, zs);
  }

  lemma RemoveLinks<T>(m: map<nat, Cell<T>>, ys: seq<nat>, a: nat, zs: seq<nat>)
    requires Links(m, NIL, ys + [a] + zs, NIL) && NoRepeats(ys + [a] + zs)
    ensures a in m && m[a].next == FirstOf(zs, NIL) && m[a].prev == LastOf(ys, NIL)
    ensures Links(SetPrev(SetNext(m, LastOf(ys, NIL), FirstOf(zs, NIL)), FirstOf(zs, NIL), LastOf(ys, NIL)), NIL, ys + zs, NIL)
  {
    var next, prev := FirstOf(zs, NIL), LastOf(ys, NIL);
    Apart(ys, a, zs);
    LinksConcat(m, NIL, ys + [a], zs, NIL);
    LinksConcat(m, NIL, ys, [a], next);
    LinksIn(m, NIL, ys, a);
    LinksIn(m, a, zs, NIL);
    RelinkLast(m, NIL, ys, a, next);
    var m1 := SetNext(m, prev, next);
    assert ys != [] ==> ys[|ys| - 1] in ys;
    LinksFrame(m, m1, a, zs, NIL);
    RelinkFirst(m1, a, prev, zs, NIL);
    var m2 := SetPrev(m1, next, prev);
    assert zs != [] ==> zs[0] in zs;
    LinksFrame(m1, m2, NIL, ys, next);
    LinksConcat(m2, NIL, ys, zs, NIL);
  }

  /** Unlinking one cell, as the two removal routines do it. */
  lemma Unlinked<T>(m: map<nat, Cell<T>>, xs: seq<nat>, a: nat)
    requires Links(m, NIL, xs, NIL) && NoRepeats(xs) && a in xs
    ensures a in m
    ensures
      var next, prev, xs' := m[a].next, m[a].prev, Without(xs, a);
      && Links(SetPrev(if prev == NIL then m else SetNext(m, prev, next), next, prev), NIL, xs', NIL) && NoRepeats(xs')
      && FirstOf(xs', NIL) == (if prev == NIL then next else FirstOf(xs, NIL))
    ensures forall b :: b in Without(xs, a) <==> b in xs && b != a
    ensures (m[a].next == NIL || m[a].next in m) && (m[a].prev == NIL || m[a].prev in m)
    ensures m[a].next == NIL || m[a].next in Without(xs, a)
  {
    hide Links;
    var ys, zs := Around(xs, a);
    RemoveLinks(m, ys, a, zs);
    LinksIn(m, NIL, xs, NIL);
    assert ys == [] || LastOf(ys, NIL) in xs;
    assert zs == [] || zs[0] in ys + zs;
    assert ys == [] ==> SetNext(m, NIL, FirstOf(zs, NIL)) == m;
    assert FirstOf(ys + zs, NIL) == if ys == [] then FirstOf(zs, NIL) else ys[0];
  }

  lemma Apart(ys: seq<nat>, a: nat, zs: seq<nat>)
    requires NoRepeats(ys + [a] + zs)
    ensures NoRepeats(ys) && NoRepeats(zs) && (forall b :: b in ys ==> b !in zs && b != a) && a !in zs
  {
    var xs := ys + [a] + zs;
    assert forall i :: 0 <= i < |ys| ==> ys[i] == xs[i];
    assert forall i :: 0 <= i < |zs| ==> zs[i] == xs[|ys| + 1 + i];
    assert xs[|ys|] == a;
  }
}
