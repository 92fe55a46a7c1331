/** The page arenas of one node: a doubly linked list of arenas, each filled from the bottom. */
module PageArenas {
  import opened Options
  import opened Layout
  import opened ArenaSpace
  import opened DoublyLinked

  /** The page in front of an arena that holds its record. */
  const ARENA_METADATA: nat := 4096

  datatype Arena = Arena(base: nat, end: nat, current: nat)

  function RoundUp(size: nat): (r: nat)
    ensures size <= r < size + PAGE && r % PAGE == 0
  {
    (size + PAGE - 1) / PAGE * PAGE
  }

  /** A size in whole pages, at least one. */
  function Pages(bytes: nat): (r: nat)
    ensures r > 0 && r % PAGE == 0
  {
    RoundUp(if bytes > 1 then bytes else 1)
  }

  /** The bytes of a new arena. */
  function ArenaLength(requested: nat, arenaSize: nat): nat { RoundUp(if requested > arenaSize then requested else arenaSize) }

  /** A listed arena is as full as the space says. */
  ghost predicate Tracks(cells: map<nat, Cell<Arena>>, space: Space, n: nat) {
    && n in cells && cells[n].data.base == n + ARENA_METADATA
    && cells[n].data.base in space.ends && cells[n].data.base in space.fills
    && space.ends[cells[n].data.base] == cells[n].data.end && space.fills[cells[n].data.base] == cells[n].data.current
  }

  ghost predicate Listed(cells: map<nat, Cell<Arena>>, first: int, current: int, list: seq<nat>) {
    && Links(cells, NIL, list, NIL) && NoRepeats(list) && first == FirstOf(list, NIL)
    && (current == NIL || current in list)
  }

  /** Cell contents may change without touching the links. */
  lemma ListedFrame(cells: map<nat, Cell<Arena>>, cells': map<nat, Cell<Arena>>, first: int, current: int, list: seq<nat>)
    requires Listed(cells, first, current, list)
    requires forall a :: a in list && a in cells ==> a in cells' && cells'[a].next == cells[a].next && cells'[a].prev == cells[a].prev
    ensures Listed(cells', first, current, list)
  {
    LinksIn(cells, NIL, list, NIL);
    LinksFrame(cells, cells', NIL, list, NIL);
  }

  type Cells = map<nat, Cell<Arena>>

  /** remove_arena on the links. */
  ghost function Removed(cells: Cells, n: nat): Cells
    requires n in cells
  {
    var next, prev := cells[n].next, cells[n].prev;
    SetPrev(if prev != NIL then SetNext(cells, prev, next) else cells, next, prev)
  }

  lemma RemovedOk(cells: Cells, first: int, current: int, list: seq<nat>, n: nat)
    requires Listed(cells, first, current, list) && n in list
    ensures n in cells && (cells[n].prev == NIL || cells[n].prev in cells) && (cells[n].next == NIL || cells[n].next in cells)
    ensures
      var first' := if cells[n].prev == NIL then cells[n].next else first;
      var current' := if current == n then cells[n].next else current;
      Listed(Removed(cells, n), first', current', Without(list, n))
    ensures forall m :: m in Without(list, n) <==> m in list && m != n
  {
    hide Links, Without;
    Unlinked(cells, list, n);
  }

  lemma RemovedData(cells: Cells, n: nat)
    requires n in cells
    ensures Removed(cells, n).Keys == cells.Keys && forall m :: m in cells ==> Removed(cells, n)[m].data == cells[m].data
  {
  }

  /** A new arena in front of the list. */
  ghost function Fronted(cells: Cells, n: nat, first: int, a: Arena): Cells { SetPrev(cells[n := Cell(first, NIL, a)], first, n) }

  lemma FrontedOk(cells: Cells, first: int, current: int, list: seq<nat>, n: nat, a: Arena)
    requires Listed(cells, first, current, list) && n !in cells
    ensures first == NIL || first in cells
    ensures Listed(Fronted(cells, n, first, a), n, n, [n] + list) && n !in list
    ensures Fronted(cells, n, first, a).Keys == cells.Keys + {n} && Fronted(cells, n, first, a)[n].data == a
    ensures forall m :: m in cells ==> m in Fronted(cells, n, first, a) && Fronted(cells, n, first, a)[m].data == cells[m].data
  {
    LinksIn(cells, NIL, list, NIL);
    var cells' := cells[n := Cell(first, NIL, a)];
    LinksFrame(cells, cells', NIL, list, NIL);
    PushLinks(cells', list, n);
    assert cells'[n := cells'[n].(prev := NIL, next := first)] == cells';
  }

  /** Filling one arena and its record together. */
  lemma FilledTracks(cells: map<nat, Cell<Arena>>, space: Space, space': Space, n: nat, current: nat, m: nat)
    requires Tracks(cells, space, m) && Tracks(cells, space, n) && space'.ends == space.ends
    requires space'.fills == space.fills[cells[n].data.base := current]
    ensures Tracks(cells[n := cells[n].(data := cells[n].data.(current := current))], space', m)
  {
  }

  /** The arenas of a node at one moment. */
  datatype Arenas = Arenas(cells: Cells, list: seq<nat>, current: int, space: Space)

  /** The top of arena `n` has moved to `top`; it left the list exactly if less than `least` bytes were left. */
  ghost predicate FilledTo(v: Arenas, v': Arenas, n: nat, top: nat, least: nat, space': Space) {
    && n in v.cells && v'.space == space' && v'.cells.Keys == v.cells.Keys
    && (forall m :: m in v.cells ==> v'.cells[m].data == if m == n then v.cells[n].data.(current := top) else v.cells[m].data)
    && if v.cells[n].data.end - top < least
       then v'.list == Without(v.list, n) && v'.current == if v.current == n then v.cells[n].next else v.current
       else v'.list == v.list && v'.current == v.current
  }

  /** The next `size` bytes of arena `n` are a new span. */
  ghost predicate TakenFrom(v: Arenas, v': Arenas, n: nat, size: nat, least: nat, a: nat) {
    && n in v.cells && a == v.cells[n].data.current && n + ARENA_METADATA in v.space.fills
    && FilledTo(v, v', n, a + size, least, Cut(v.space, n + ARENA_METADATA, size))
  }

  ghost predicate Fits(v: Arenas, n: int, size: nat) { n in v.cells && v.cells[n].data.current + size <= v.cells[n].data.end }

  /** The first listed arena other than the current one that has room. */
  ghost predicate FirstOther(v: Arenas, size: nat, i: nat) {
    && i < |v.list| && v.list[i] != v.current && Fits(v, v.list[i], size)
    && forall j :: 0 <= j < i && v.list[j] != v.current ==> !Fits(v, v.list[j], size)
  }

  ghost predicate FromOther(v: Arenas, v': Arenas, size: nat, least: nat, a: nat) {
    exists i: nat :: FirstOther(v, size, i) && TakenFrom(v, v', v.list[i], size, least, a)
  }

  /** A new arena is in front of the list and the current one. */
  ghost predicate Opened(v: Arenas, v': Arenas, n: nat, length: nat) {
    var base := n + ARENA_METADATA;
    && v'.list == [n] + v.list && v'.current == n && v'.space == Mapped(v.space, base, base + length)
    && v'.cells.Keys == v.cells.Keys + {n} && v'.cells[n].data == Arena(base, base + length, base)
    && forall m :: m in v.cells && m != n ==> v'.cells[m].data == v.cells[m].data
  }

  ghost predicate FromNew(v: Arenas, mid: Arenas, v': Arenas, size: nat, least: nat, arenaSize: nat, mem: nat, a: nat) {
    Opened(v, mid, mem, ArenaLength(size, arenaSize)) && TakenFrom(mid, v', mem, size, least, a) && a == mem + ARENA_METADATA
  }

  /** Where a span comes from. */
  ghost predicate Served(v: Arenas, v': Arenas, size: nat, least: nat, arenaSize: nat, mem: Option<nat>, a: nat) {
    if Fits(v, v.current, size) then v.current >= 0 && TakenFrom(v, v', v.current, size, least, a)
    else || FromOther(v, v', size, least, a)
         || (mem.Some? && (forall n :: n in v.list ==> !Fits(v, n, size)) && exists mid :: FromNew(v, mid, v', size, least, arenaSize, mem.value, a))
  }

  class NodeArenas {
    var cells: map<nat, Cell<Arena>>
    var arenas: int
    var current: int
    /** What is left of an arena below this is not worth keeping. */
    const minRefill: nat
    /** The arenas on the list, and the space of all arenas ever mapped; only for the proof. */
    ghost var list: seq<nat>
    ghost var space: Space

    constructor (minRefill: nat)
      ensures Valid() && space == Space(map[], map[], map[], map[]) && this.minRefill == minRefill
    {
      this.minRefill := minRefill;
      cells, arenas, current, list := map[], NIL, NIL, [];
      space := Space(map[], map[], map[], map[]);
    }

    ghost function View(): Arenas
      reads this
    {
      Arenas(cells, list, current, space)
    }

    ghost predicate Consistent()
      reads this
    {
      Listed(cells, arenas, current, list) && SpaceOk(space) && forall n :: n in list ==> Tracks(cells, space, n)
    }

    ghost predicate Roomy(n: nat)
      reads this
    {
      n in cells && cells[n].data.current + minRefill <= cells[n].data.end
    }

    /** At rest every listed arena has room for the smallest refill. */
    ghost predicate Valid()
      reads this
    {
      Consistent() && forall n :: n in list ==> Roomy(n)
    }

    /** remove_arena. */
    method RemoveArena(n: nat)
      requires Consistent() && n in list
      modifies this`cells, this`arenas, this`current, this`list
      ensures Consistent() && list == Without(old(list), n) && NoRepeats(old(list)) && n in old(cells)
      ensures current == if old(current) == n then old(cells)[n].next else old(current)
      ensures cells.Keys == old(cells).Keys && forall m :: m in cells ==> cells[m].data == old(cells)[m].data
    {
      hide SpaceOk, Listed;
      RemovedOk(cells, arenas, current, list, n);
      RemovedData(cells, n);
      NoRepeatsOf(cells, arenas, current, list);
      ghost var before := cells;
      var next, prev := cells[n].next, cells[n].prev;
      if prev != NIL {
        cells := cells[prev := cells[prev].(next := next)];
      } else {
        arenas := next;
      }
      if next != NIL {
        cells := cells[next := cells[next].(prev := prev)];
      }
      if current == n {
        current := next;
      }
      list := Without(list, n);
      assert cells == Removed(before, n);
      assert forall m :: m in list ==> Tracks(before, space, m);
    }

    /** The top of an arena moves up. */
    method Raise(n: nat, top: nat, ghost space': Space)
      requires Consistent() && n in list && n in cells
      requires SpaceOk(space') && space'.ends == space.ends && space'.fills == space.fills[n + ARENA_METADATA := top]
      modifies this`cells, this`space
      ensures Consistent() && space == space' && cells == old(cells)[n := old(cells)[n].(data := old(cells)[n].data.(current := top))]
    {
      hide SpaceOk, Listed;
      assert Tracks(cells, space, n);
      ListedFrame(cells, cells[n := cells[n].(data := cells[n].data.(current := top))], arenas, current, list);
      forall m | m in list
        ensures Tracks(cells[n := cells[n].(data := cells[n].data.(current := top))], space', m)
      {
        assert Tracks(cells, space, m);
        FilledTracks(cells, space, space', n, top, m);
      }
      hide Tracks;
      cells := cells[n := cells[n].(data := cells[n].data.(current := top))];
      space := space';
    }

    /** The top of an arena moves up; an arena with too little left is dropped. */
    method Fill(n: nat, top: nat, ghost space': Space)
      requires Consistent() && n in list && n in cells && cells[n].data.current <= top <= cells[n].data.end
      requires forall m :: m in list && m != n ==> Roomy(m)
      requires SpaceOk(space') && space'.ends == space.ends && space'.fills == space.fills[n + ARENA_METADATA := top]
      modifies this
      ensures Valid() && FilledTo(old(View()), View(), n, top, minRefill, space')
    {
      hide SpaceOk, Listed, Tracks, Without;
      Raise(n, top, space');
      if cells[n].data.end - cells[n].data.current < minRefill {
        ghost var was := list;
        RemoveArena(n);
        LeftIn(was, n);
      }
    }

    /** Take the next bytes of an arena. */
    method Take(n: nat, size: nat) returns (a: nat)
      requires Consistent() && n in list && n in cells && size > 0 && size % PAGE == 0 && cells[n].data.current + size <= cells[n].data.end
      requires forall m :: m in list && m != n ==> Roomy(m)
      modifies this
      ensures Valid() && NewSpan(old(space), a, size) && space.ends == old(space).ends
      ensures TakenFrom(old(View()), View(), n, size, minRefill, a)
    {
      hide SpaceOk;
      assert Tracks(cells, space, n);
      CutOk(space, n + ARENA_METADATA, size);
      a := cells[n].data.current;
      Fill(n, a + size, Cut(space, n + ARENA_METADATA, size));
    }

    /** A span that was not there before, inside one arena; the others are as before. */
    ghost predicate NewSpan(was: Space, a: nat, size: nat)
      reads this
    {
      a !in was.spans && space.spans == was.spans[a := a + size]
    }

    /** allocate_current. */
    method AllocateCurrent(size: nat) returns (r: Option<nat>)
      requires Consistent() && size > 0 && size % PAGE == 0 && (forall m :: m in list && m != current ==> Roomy(m))
      modifies this
      ensures r.None? ==> unchanged(this)
      ensures r.Some? ==> Valid() && NewSpan(old(space), r.value, size) && space.ends == old(space).ends
      ensures r.Some? <==> old(Fits(View(), current, size))
      ensures r.Some? ==> old(current) >= 0 && TakenFrom(old(View()), View(), old(current), size, minRefill, r.value)
    {
      hide SpaceOk;
      LinksIn(cells, NIL, list, NIL);
      if current == NIL {
        return None;
      }
      if cells[current].data.current + size > cells[current].data.end {
        return None;
      }
      var a := Take(current, size);
      return Some(a);
    }

    /** allocate_search: the first other arena with enough room. */
    method AllocateSearch(size: nat) returns (r: Option<nat>)
      requires Valid() && size > 0 && size % PAGE == 0
      modifies this
      ensures Valid()
      ensures r.None? ==> unchanged(this)
      ensures r.None? ==> forall n :: n in list && n != current ==> n in cells && !Fits(View(), n, size)
      ensures r.Some? ==> NewSpan(old(space), r.value, size) && space.ends == old(space).ends
      ensures r.Some? ==> FromOther(old(View()), View(), size, minRefill, r.value)
    {
      hide SpaceOk, Links;
      LinksIn(cells, NIL, list, NIL);
      var n := arenas;
      ghost var i := 0;
      assert list[0..] == list;
      while n != NIL
        invariant unchanged(this)
        invariant 0 <= i <= |list| && n == FirstOf(list[i..], NIL)
        invariant forall j :: 0 <= j < i && list[j] != current ==> list[j] in cells && !Fits(View(), list[j], size)
        decreases |list| - i
      {
        assert n == list[i] && n in list;
        LinkAt(cells, NIL, list, NIL, i);
        if n != current && cells[n].data.current + size <= cells[n].data.end {
          assert FirstOther(View(), size, i);
          var a := Take(n, size);
          return Some(a);
        }
        n := cells[n].next;
        i := i + 1;
      }
      assert i == |list|;
      forall m | m in list && m != current
        ensures m in cells && !Fits(View(), m, size)
      {
        var j :| 0 <= j < |list| && list[j] == m;
      }
      return None;
    }

    /** A mapping of the system overlaps no arena. */
    ghost predicate FreshAt(mem: nat, requested: nat, arenaSize: nat)
      reads this
    {
      && mem !in cells
      && ArenaSpace.Fresh(space, mem + ARENA_METADATA, mem + ARENA_METADATA + ArenaLength(requested, arenaSize))
    }

    /** new_arena_locked: a new arena in front of the list.  `mem` is the system's answer. */
    method NewArena(requested: nat, arenaSize: nat, mem: Option<nat>) returns (ok: bool)
      requires Valid()
      requires mem.Some? ==> FreshAt(mem.value, requested, arenaSize)
      modifies this
      ensures ok <==> mem.Some?
      ensures !ok ==> unchanged(this)
      ensures ok ==> space.ends == old(space).ends[mem.value + ARENA_METADATA := mem.value + ARENA_METADATA + ArenaLength(requested, arenaSize)]
      ensures ok ==> Consistent() && space.spans == old(space).spans && current >= 0 && current in cells
      ensures ok ==> cells[current].data.current + requested <= cells[current].data.end
      ensures ok ==> forall m :: m in list && m != current ==> Roomy(m)
      ensures ok ==> Opened(old(View()), View(), mem.value, ArenaLength(requested, arenaSize))
    {
      hide SpaceOk, Listed;
      if mem.None? {
        return false;
      }
      var n := mem.value;
      var base := n + ARENA_METADATA;
      var end := base + ArenaLength(requested, arenaSize);
      MappedOk(space, base, end);
      FrontedOk(cells, arenas, current, list, n, Arena(base, end, base));
      ghost var before := cells;
      cells := cells[n := Cell(arenas, NIL, Arena(base, end, base))];
      if arenas != NIL {
        cells := cells[arenas := cells[arenas].(prev := n)];
      }
      assert cells == Fronted(before, n, arenas, Arena(base, end, base));
      hide Fronted;
      arenas := n;
      current := n;
      MappedTracks(before, cells, space, base, end, list);
      space := Mapped(space, base, end);
      list := [n] + list;
      ok := true;
    }

    /** alloc: a span of whole pages from the current arena, else from the first other one with room, else from a new one;
        nothing exactly if no arena has room and the system gives no memory. */
    method Alloc(bytes: nat, arenaSize: nat, mem: Option<nat>) returns (r: Option<nat>)
      requires Valid()
      requires mem.Some? ==> FreshAt(mem.value, Pages(bytes), arenaSize)
      modifies this
      ensures Valid()
      ensures r.None? ==> mem.None? && unchanged(this)
      ensures r.None? ==> forall n :: n in list ==> n in cells && cells[n].data.current + Pages(bytes) > cells[n].data.end
      ensures r.Some? ==> NewSpan(old(space), r.value, Pages(bytes))
      ensures r.Some? ==> Served(old(View()), View(), Pages(bytes), minRefill, arenaSize, mem, r.value)
      ensures || space.ends == old(space).ends
              || (mem.Some? && space.ends == old(space).ends[mem.value + ARENA_METADATA := mem.value + ARENA_METADATA + ArenaLength(Pages(bytes), arenaSize)])
    {
      hide Roomy, FreshAt, SpaceOk, Links, Tracks;
      LinksIn(cells, NIL, list, NIL);
      var size := Pages(bytes);
      r := AllocateCurrent(size);
      if r.Some? {
        return;
      }
      r := AllocateSearch(size);
      if r.Some? {
        return;
      }
      ghost var was := View();
      NoneFits(was, size);
      var ok := NewArena(size, arenaSize, mem);
      if !ok {
        return None;
      }
      ghost var mid := View();
      r := AllocateCurrent(size);
      assert FromNew(was, mid, View(), size, minRefill, arenaSize, mem.value, r.value);
    }

    lemma NoneFits(v: Arenas, size: nat)
      requires v == View() && Consistent() && !Fits(v, current, size) && forall n :: n in list && n != current ==> n in cells && !Fits(v, n, size)
      ensures (forall n :: n in v.list ==> !Fits(v, n, size)) && forall n :: n in list ==> n in cells && cells[n].data.current + size > cells[n].data.end
    {
      hide SpaceOk, Links;
      forall n | n in list
        ensures n in cells && !Fits(v, n, size)
      {
        assert Tracks(cells, space, n);
      }
    }

    /** The last span of a listed arena grows. */
    method GrowHere(n: nat, addr: nat, end: nat)
      requires Valid() && n in list && n in cells && addr in space.spans && cells[n].data.base <= addr < cells[n].data.end
      requires space.spans[addr] == cells[n].data.current <= end <= cells[n].data.end && end % PAGE == 0
      modifies this
      ensures Valid() && space.spans == old(space).spans[addr := end] && space.ends == old(space).ends
      ensures FilledTo(old(View()), View(), n, end, minRefill, Grown(old(space), addr, end))
      ensures forall b :: b in old(space).spans && b != addr ==> Disjoint(b, old(space).spans[b], old(space).spans[addr], end)
    {
      hide SpaceOk, Listed;
      assert Tracks(cells, space, n);
      HomeOf(space, addr, cells[n].data.base);
      GrownOk(space, addr, end);
      forall b | b in space.spans && b != addr
        ensures Disjoint(b, space.spans[b], space.spans[addr], end)
      {
        GrowthIsFree(space, addr, end, b);
      }
      Fill(n, end, Grown(space, addr, end));
    }

    ghost predicate Covers(n: nat, addr: nat)
      reads this
    {
      n in cells && cells[n].data.base <= addr < cells[n].data.end
    }

    /** The span is the last one of a listed arena, which has room for its new size. */
    ghost predicate Extends(n: nat, addr: nat, old': nat, new': nat)
      reads this
    {
      && n in list && Covers(n, addr) && (addr - cells[n].data.base) % PAGE == 0
      && addr + old' == cells[n].data.current && addr + new' <= cells[n].data.end
    }

    /** One arena covers an address. */
    lemma OneCovers(n: nat, m: nat, addr: nat)
      requires Consistent() && n in list && m in list && Covers(n, addr) && Covers(m, addr) && addr in space.spans
      ensures n == m
    {
      hide SpaceOk;
      assert Tracks(cells, space, n) && Tracks(cells, space, m);
      HomeOf(space, addr, cells[n].data.base);
      HomeOf(space, addr, cells[m].data.base);
    }

    /** try_grow_inplace for a span of the given true size: it takes only pages that no span has, and it succeeds exactly
        if the pages it has suffice or the arena has room behind the span. */
    method TryGrowInplace(addr: nat, oldSize: nat, newSize: nat) returns (ok: bool)
      requires Valid() && addr in space.spans && space.spans[addr] == addr + Pages(oldSize)
      modifies this
      ensures Valid()
      ensures space.ends == old(space).ends && (!ok ==> space == old(space))
      ensures ok <==> newSize > oldSize && (Pages(newSize) <= Pages(oldSize) || exists n :: old(Extends(n, addr, Pages(oldSize), Pages(newSize))))
      ensures ok ==> space.spans == old(space).spans[addr := addr + Pages(newSize)]
      ensures ok && Pages(newSize) > Pages(oldSize) ==> exists n ::
        && old(Extends(n, addr, Pages(oldSize), Pages(newSize)))
        && FilledTo(old(View()), View(), n, addr + Pages(newSize), minRefill, Grown(old(space), addr, addr + Pages(newSize)))
      ensures !ok || Pages(newSize) <= Pages(oldSize) ==> unchanged(this)
      ensures ok ==> forall b :: b in old(space).spans && b != addr ==>
        Disjoint(b, old(space).spans[b], old(space).spans[addr], addr + Pages(newSize))
    {
      hide SpaceOk, Tracks, Roomy, Links;
      if newSize <= oldSize {
        return false;
      }
      var old', new' := Pages(oldSize), Pages(newSize);
      if new' <= old' {
        PagesGrow(oldSize, newSize);
        GrowNothing(space, addr, old');
        return true;
      }
      LinksIn(cells, NIL, list, NIL);
      var n := arenas;
      ghost var i := 0;
      assert list[0..] == list;
      while n != NIL
        invariant unchanged(this)
        invariant 0 <= i <= |list| && n == FirstOf(list[i..], NIL)
        invariant forall k :: 0 <= k < i ==> !Covers(list[k], addr)
        decreases |list| - i
      {
        assert n == list[i] && n in list;
        LinkAt(cells, NIL, list, NIL, i);
        var a := cells[n].data;
        if a.base <= addr < a.end {
          if (addr - a.base) % PAGE != 0 || addr + old' != a.current || addr + new' > a.end {
            forall m | m in list && Covers(m, addr)
              ensures m == n
            {
              OneCovers(n, m, addr);
            }
            return false;
          }
          assert Extends(n, addr, old', new');
          PageAligned(space, addr);
          GrowHere(n, addr, addr + new');
          return true;
        }
        n := cells[n].next;
        i := i + 1;
      }
      return false;
    }
  }

  lemma MappedTracks(cells: Cells, cells': Cells, space: Space, base: nat, end: nat, list: seq<nat>)
    requires base !in space.ends && forall m :: m in list ==> Tracks(cells, space, m)
    requires forall m :: m in cells ==> m in cells' && cells'[m].data == cells[m].data
    ensures forall m :: m in list ==> Tracks(cells', Mapped(space, base, end), m)
  {
  }

  lemma LeftIn(list: seq<nat>, n: nat)
    requires n in list && NoRepeats(list)
    ensures forall m :: m in Without(list, n) <==> m in list && m != n
  {
    var ys, zs := Around(list, n);
  }

  lemma PageAligned(s: Space, a: nat)
    requires SpaceOk(s) && a in s.spans
    ensures a % PAGE == 0
  {
    assert SpanOk(s, a);
  }

  lemma NoRepeatsOf(cells: Cells, first: int, current: int, list: seq<nat>)
    requires Listed(cells, first, current, list)
    ensures NoRepeats(list)
  {
  }

  lemma PagesGrow(a: nat, b: nat)
    requires a <= b && Pages(b) <= Pages(a)
    ensures Pages(a) == Pages(b)
  {
  }

  lemma GrowNothing(s: Space, a: nat, size: nat)
    requires SpaceOk(s) && a in s.spans && s.spans[a] == a + size
    ensures s.spans == s.spans[a := a + size]
    ensures forall b :: b in s.spans && b != a ==> Disjoint(b, s.spans[b], s.spans[a], a + size)
  {
    forall b | b in s.spans && b != a
      ensures Disjoint(b, s.spans[b], s.spans[a], a + size)
    {
      SpansDisjoint(s, a, b);
    }
  }

  /** A span lies in the arena that contains its start. */
  lemma HomeOf(s: Space, a: nat, b: nat)
    requires SpaceOk(s) && a in s.spans && b in s.ends && b <= a < s.ends[b]
    ensures a in s.home && s.home[a] == b && b in s.fills
  {
    assert SpanOk(s, a) && ArenaOk(s, b);
    assert ArenaOk(s, s.home[a]) && ArenasApart(s, s.home[a], b);
  }
}
