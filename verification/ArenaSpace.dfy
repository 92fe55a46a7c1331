/** The space of page arenas and the spans cut from it. */
module ArenaSpace {
  import opened Layout

  /** `ends` gives the end of every arena ever mapped, by base; `fills` how far it is filled; `spans` the end of every
      span handed out, by start; `home` the arena of a span. */
  datatype Space = Space(ends: map<nat, nat>, fills: map<nat, nat>, spans: map<nat, nat>, home: map<nat, nat>)

  ghost predicate Disjoint(b: nat, e: nat, c: nat, f: nat) { e <= c || f <= b }

  ghost predicate ArenaOk(s: Space, b: nat) { b in s.ends ==> b in s.fills && b <= s.fills[b] <= s.ends[b] && s.fills[b] % PAGE == 0 }

  ghost predicate ArenasApart(s: Space, b: nat, c: nat) {
    b in s.ends && c in s.ends && b != c ==> Disjoint(b, s.ends[b], c, s.ends[c])
  }

  ghost predicate SpanOk(s: Space, a: nat) {
    a in s.spans ==>
      && a in s.home && s.home[a] in s.ends && s.home[a] in s.fills && s.home[a] <= a < s.spans[a] <= s.fills[s.home[a]]
      && a % PAGE == 0
  }

  ghost predicate SpansApart(s: Space, a: nat, b: nat) {
    a in s.spans && b in s.spans && a != b && a in s.home && b in s.home && s.home[a] == s.home[b] ==>
      Disjoint(a, s.spans[a], b, s.spans[b])
  }

  ghost predicate SpaceOk(s: Space) {
    && s.fills.Keys == s.ends.Keys && s.home.Keys == s.spans.Keys
    && (forall b :: ArenaOk(s, b)) && (forall b, c :: ArenasApart(s, b, c))
    && (forall a :: SpanOk(s, a)) && (forall a, b :: SpansApart(s, a, b))
  }

  /** All spans are pairwise disjoint, each inside one arena. */
  lemma SpansDisjoint(s: Space, a: nat, b: nat)
    requires SpaceOk(s) && a in s.spans && b in s.spans && a != b
    ensures Disjoint(a, s.spans[a], b, s.spans[b])
  {
    assert SpanOk(s, a) && SpanOk(s, b) && SpansApart(s, a, b);
    assert ArenasApart(s, s.home[a], s.home[b]) && ArenaOk(s, s.home[a]) && ArenaOk(s, s.home[b]);
  }

  /** No span starts where an arena is still empty. */
  lemma NoSpanAtFill(s: Space, b: nat)
    requires SpaceOk(s) && b in s.ends && s.fills[b] < s.ends[b]
    ensures s.fills[b] !in s.spans
  {
    var n := s.fills[b];
    assert SpanOk(s, n) && ArenaOk(s, b);
    forall h | h in s.ends && h != b
      ensures ArenaOk(s, h) && ArenasApart(s, h, b)
    {
    }
  }

  /** The next `size` bytes of an arena become a span. */
  ghost function Cut(s: Space, b: nat, size: nat): Space
    requires b in s.fills
  {
    var a := s.fills[b];
    Space(s.ends, s.fills[b := a + size], s.spans[a := a + size], s.home[a := b])
  }

  lemma CutOk(s: Space, b: nat, size: nat)
    requires SpaceOk(s) && b in s.ends && size > 0 && size % PAGE == 0 && s.fills[b] + size <= s.ends[b]
    ensures b in s.fills && SpaceOk(Cut(s, b, size)) && s.fills[b] !in s.spans
  {
    hide ArenaOk, ArenasApart, SpanOk, SpansApart;
    NoSpanAtFill(s, b);
    var s' := Cut(s, b, size);
    forall c
      ensures ArenaOk(s', c)
    {
      CutArena(s, b, size, c);
    }
    forall c, d
      ensures ArenasApart(s', c, d)
    {
      SameEnds(s, s', c, d);
    }
    forall a
      ensures SpanOk(s', a)
    {
      CutSpan(s, b, size, a);
    }
    forall c, d
      ensures SpansApart(s', c, d)
    {
      CutApart(s, b, size, c, d);
    }
  }

  lemma CutArena(s: Space, b: nat, size: nat, c: nat)
    requires ArenaOk(s, c) && b in s.ends && b in s.fills && size % PAGE == 0 && s.fills[b] + size <= s.ends[b]
    ensures ArenaOk(Cut(s, b, size), c)
  {
  }

  lemma SameEnds(s: Space, s': Space, c: nat, d: nat)
    requires ArenasApart(s, c, d) && s'.ends == s.ends
    ensures ArenasApart(s', c, d)
  {
  }

  lemma CutSpan(s: Space, b: nat, size: nat, a: nat)
    requires SpanOk(s, a) && b in s.ends && b in s.fills && size > 0 && ArenaOk(s, b)
    ensures SpanOk(Cut(s, b, size), a)
  {
  }

  lemma CutApart(s: Space, b: nat, size: nat, c: nat, d: nat)
    requires SpansApart(s, c, d) && SpanOk(s, c) && SpanOk(s, d) && b in s.fills && s.fills[b] !in s.spans
    ensures SpansApart(Cut(s, b, size), c, d)
  {
  }

  /** The last span of an arena grows over space that nobody has. */
  ghost function Grown(s: Space, a: nat, end: nat): Space
    requires a in s.home
  {
    s.(fills := s.fills[s.home[a] := end], spans := s.spans[a := end])
  }

  lemma GrownOk(s: Space, a: nat, end: nat)
    requires SpaceOk(s) && a in s.spans && a in s.home && s.home[a] in s.ends && s.home[a] in s.fills
    requires s.spans[a] == s.fills[s.home[a]] <= end <= s.ends[s.home[a]] && end % PAGE == 0
    ensures SpaceOk(Grown(s, a, end))
  {
    assert SpanOk(s, a);
    var h := s.home[a];
    assert ArenaOk(s, h);
    hide ArenaOk, ArenasApart, SpanOk, SpansApart;
    var s' := Grown(s, a, end);
    forall c
      ensures ArenaOk(s', c)
    {
      GrownArena(s, a, end, c);
    }
    forall c, d
      ensures ArenasApart(s', c, d)
    {
      SameEnds(s, s', c, d);
    }
    forall b
      ensures SpanOk(s', b)
    {
      GrownSpan(s, a, end, b);
    }
    forall c, d
      ensures SpansApart(s', c, d)
    {
      GrownApart(s, a, end, c, d);
    }
    assert s'.fills.Keys == s.fills.Keys && s'.spans.Keys == s.spans.Keys;
  }

  lemma GrownArena(s: Space, a: nat, end: nat, c: nat)
    requires ArenaOk(s, c) && a in s.home && s.home[a] in s.ends && s.home[a] <= end <= s.ends[s.home[a]] && end % PAGE == 0
    ensures ArenaOk(Grown(s, a, end), c)
  {
  }

  lemma GrownSpan(s: Space, a: nat, end: nat, b: nat)
    requires SpanOk(s, b) && SpanOk(s, a) && a in s.spans && a in s.home && s.spans[a] <= end
    requires s.home[a] in s.fills && s.fills[s.home[a]] <= end
    ensures SpanOk(Grown(s, a, end), b)
  {
  }

  lemma GrownApart(s: Space, a: nat, end: nat, c: nat, d: nat)
    requires SpansApart(s, c, d) && SpanOk(s, c) && SpanOk(s, d) && SpanOk(s, a) && a in s.spans && a in s.home
    requires s.home[a] in s.fills && s.spans[a] == s.fills[s.home[a]] <= end
    ensures SpansApart(Grown(s, a, end), c, d)
  {
  }

  /** The space a span grows over meets no span. */
  lemma GrowthIsFree(s: Space, a: nat, end: nat, b: nat)
    requires SpaceOk(s) && a in s.spans && a in s.home && s.home[a] in s.ends && s.home[a] in s.fills
    requires s.spans[a] == s.fills[s.home[a]] <= end <= s.ends[s.home[a]]
    requires b in s.spans && b != a
    ensures Disjoint(b, s.spans[b], s.spans[a], end)
  {
    assert SpanOk(s, a) && SpanOk(s, b);
    assert ArenasApart(s, s.home[a], s.home[b]) && ArenaOk(s, s.home[a]) && ArenaOk(s, s.home[b]);
  }

  /** A new mapping overlaps no arena. */
  ghost predicate Fresh(s: Space, b: nat, e: nat) {
    b <= e && b % PAGE == 0 && b !in s.ends && forall c :: c in s.ends ==> Disjoint(b, e, c, s.ends[c])
  }

  ghost function Mapped(s: Space, b: nat, e: nat): Space { s.(ends := s.ends[b := e], fills := s.fills[b := b]) }

  lemma MappedOk(s: Space, b: nat, e: nat)
    requires SpaceOk(s) && Fresh(s, b, e)
    ensures SpaceOk(Mapped(s, b, e))
  {
    var s' := Mapped(s, b, e);
    forall c
      ensures ArenaOk(s', c) && SpanOk(s', c)
    {
      assert ArenaOk(s, c) && SpanOk(s, c);
    }
    forall c, d
      ensures ArenasApart(s', c, d) && SpansApart(s', c, d)
    {
      assert ArenasApart(s, c, d) && SpansApart(s, c, d);
    }
  }
}
