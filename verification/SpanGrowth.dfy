/** Slab spans, and those of one block that grow in place when their block is reallocated to a larger class. */
module SpanGrowth {
  import opened Options
  import opened Layout
  import SizeClasses
  import opened ArenaSpace
  import opened PageArenas

  /** The pages of a one-block span, as small_realloc derives them from the class of the block. */
  function Extent(payload: nat): nat { Pages(METADATA + SizeClasses.BlockSize(payload)) }

  /** The pages of a span, as the refill of its class asked for them. */
  function SpanPages(payload: nat): nat { Pages(SizeClasses.RefillTotal(payload)) }

  lemma ExtentPages(payload: nat)
    ensures Pages(Extent(payload)) == Extent(payload)
  {
  }

  lemma RefillExtent(payload: nat)
    requires SizeClasses.Iterations(payload) == 1
    ensures SpanPages(payload) == Extent(payload)
  {
    SizeClasses.OneBlockSpans(payload);
  }

  class SlabSpans {
    const arenas: NodeArenas
    /** The payload size of the class in the headers of a span's blocks, by the start of the span. */
    var payloads: map<nat, nat>

    constructor (arenas: NodeArenas)
      requires arenas.Valid()
      ensures Valid() && payloads == map[] && this.arenas == arenas
    {
      this.arenas := arenas;
      payloads := map[];
    }

    ghost predicate ExtentOk(m: nat)
      reads this, arenas
    {
      m in payloads && m in arenas.space.spans && arenas.space.spans[m] == m + SpanPages(payloads[m])
    }

    /** What the class says is the true extent of the span. */
    ghost predicate Valid()
      reads this, arenas
    {
      arenas.Valid() && forall m :: m in payloads ==> ExtentOk(m)
    }

    /** alloc_metadata without a pending span. */
    method NewSpan(payload: nat, arenaSize: nat, mem: Option<nat>) returns (r: Option<nat>)
      requires Valid() && (mem.Some? ==> arenas.FreshAt(mem.value, SpanPages(payload), arenaSize))
      modifies this, arenas
      ensures Valid()
      ensures r.None? ==> mem.None? && payloads == old(payloads) && arenas.space == old(arenas.space)
      ensures r.Some? ==> payloads == old(payloads)[r.value := payload] && r.value !in old(arenas.space).spans && r.value !in old(payloads)
      ensures r.Some? ==> arenas.space.spans == old(arenas.space).spans[r.value := r.value + SpanPages(payload)]
      ensures || arenas.space.ends == old(arenas.space).ends
              || (mem.Some? && arenas.space.ends == old(arenas.space).ends[
                    mem.value + ARENA_METADATA := mem.value + ARENA_METADATA + ArenaLength(SpanPages(payload), arenaSize)])
    {
      hide SizeClasses.RefillTotal, Pages, Served;
      r := arenas.Alloc(SizeClasses.RefillTotal(payload), arenaSize, mem);
      if r.Some? {
        payloads := payloads[r.value := payload];
      }
    }

    /** The span is the last of its arena, which has room for the larger class. */
    ghost predicate CanGrow(m: nat, payload: nat)
      reads this, arenas
    {
      && m in payloads && Extent(payload) > Extent(payloads[m])
      && exists n :: arenas.Extends(n, m, Extent(payloads[m]), Extent(payload))
    }

    /** The growth branch of small_realloc: on success the class and the span have grown together, over pages that no
        span had; on failure nothing has changed. */
    method Grow(m: nat, payload: nat) returns (ok: bool)
      requires Valid() && m in payloads && SizeClasses.Iterations(payloads[m]) == 1 && SizeClasses.Iterations(payload) == 1
      modifies this, arenas
      ensures Valid() && arenas.space.ends == old(arenas.space).ends
      ensures ok <==> old(CanGrow(m, payload))
      ensures !ok ==> payloads == old(payloads) && arenas.space == old(arenas.space)
      ensures ok ==> payloads == old(payloads)[m := payload]
      ensures ok ==> forall b :: b in old(arenas.space).spans && b != m ==>
        b in arenas.space.spans && arenas.space.spans[b] == old(arenas.space).spans[b]
        && Disjoint(b, old(arenas.space).spans[b], m, m + Extent(payload))
    {
      hide Extent, SpanPages, FilledTo;
      assert ExtentOk(m);
      RefillExtent(payloads[m]);
      RefillExtent(payload);
      ExtentPages(payloads[m]);
      ExtentPages(payload);
      ok := arenas.TryGrowInplace(m, Extent(payloads[m]), Extent(payload));
      if ok {
        payloads := payloads[m := payload];
        SpaceOf(arenas);
        forall b | b in old(arenas.space).spans && b != m
          ensures Disjoint(b, old(arenas.space).spans[b], m, m + Extent(payload))
        {
          SpansDisjoint(arenas.space, b, m);
        }
      }
    }
  }

  lemma SpaceOf(a: NodeArenas)
    requires a.Valid()
    ensures SpaceOk(a.space)
  {
  }
}
