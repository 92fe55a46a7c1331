/** The heap as users see it: allocation of any size, aligned allocation, free, and reallocation on every branch. */
module UserHeap {
  import opened Options
  import opened Numbers
  import opened Layout
  import opened BigMeta
  import opened BuddyRegions
  import opened UserBlocks
  import opened SlabSlots
  import SizeClasses
  import ArenaSpace
  import PageArenas
  import opened SpanGrowth
  import BigHeap

  /** The recorded size of a raw block: from the class in its header, or from the record of a big allocation. */
  function SizeAt(classes: map<nat, nat>, metas: BigHeap.Metas, p: nat): nat {
    if p in classes then PayloadOf(classes[p]) else if p in metas then metas[p].size else 0
  }

  ghost function Sizes(classes: map<nat, nat>, metas: BigHeap.Metas): map<nat, nat> {
    map p | p in classes.Keys + metas.Keys :: SizeAt(classes, metas, p)
  }

  lemma SizesKeys(classes: map<nat, nat>, metas: BigHeap.Metas)
    ensures Sizes(classes, metas).Keys == classes.Keys + metas.Keys
  {
  }

  lemma SizesOne(classes: map<nat, nat>, metas: BigHeap.Metas, p: nat)
    requires p in classes
    ensures p in Sizes(classes, metas) && Sizes(classes, metas)[p] == PayloadOf(classes[p])
  {
  }

  lemma SizesWithSmall(classes: map<nat, nat>, metas: BigHeap.Metas, p: nat, c: nat)
    ensures Sizes(classes[p := c], metas) == Sizes(classes, metas)[p := PayloadOf(c)]
  {
  }

  lemma SizesWithBig(classes: map<nat, nat>, metas: BigHeap.Metas, p: nat, m: BigAllocMeta)
    requires p !in classes
    ensures Sizes(classes, metas[p := m]) == Sizes(classes, metas)[p := m.size]
  {
  }

  lemma SizesWithout(classes: map<nat, nat>, metas: BigHeap.Metas, p: nat)
    ensures Sizes(classes - {p}, metas - {p}) == Sizes(classes, metas) - {p}
  {
  }

  lemma OneUserOk(b: Blocks, tag: nat, p: nat)
    requires UsersOk(b, tag)
    ensures UserOk(b, tag, p)
  {
  }

  lemma NullNotUser(b: Blocks, tag: nat)
    requires UsersOk(b, tag)
    ensures 0 !in b.users
  {
    assert UserOk(b, tag, 0);
  }

  lemma NotNull(b: Blocks, tag: nat, p: nat)
    requires UserOk(b, tag, p) && p in b.users
    ensures p >= HEADER
  {
  }

  /** The span of a block that is the first in it. */
  function SpanOf(p: nat): nat { if p >= HEADER + METADATA then p - HEADER - METADATA else 0 }

  /** The size a request gets. */
  function AllocSize(size: nat): nat {
    match SizeClasses.MatchSizeClass(size)
    case Some(c) => PayloadOf(c)
    case None => size
  }

  /** The word in the header of a new block: what the caches left there, or zero. */
  function AllocWord(size: nat, env: Env): nat { if SizeClasses.MatchSizeClass(size).Some? then env.word else 0 }

  lemma FirstIsEnough(size: nat, c: nat)
    requires SizeClasses.IsFirst(size, c)
    ensures c < SizeClasses.CLASSES && PayloadOf(c) >= size
  {
  }

  // ----- arenas and big memory -----

  /** A range meets no arena. */
  ghost predicate Clear(ends: map<nat, nat>, base: nat, length: nat) {
    forall b :: b in ends ==> ends[b] <= base || base + length <= b
  }

  /** No arena meets a buddy region or a mapping. */
  ghost predicate AreasApart(ends: map<nat, nat>, zones: seq<Zone>, maps: map<nat, nat>) {
    && (forall i :: 0 <= i < |zones| ==> Clear(ends, zones[i].base, UNIT * |zones[i].own|))
    && (forall b :: b in maps ==> Clear(ends, b, maps[b]))
  }

  lemma AreasAfter(ends: map<nat, nat>, zones: seq<Zone>, zones': seq<Zone>, maps: map<nat, nat>, mem: Option<nat>)
    requires AreasApart(ends, zones, maps) && BigHeap.Extended(zones, zones', mem)
    requires mem.Some? ==> Clear(ends, mem.value, BigHeap.BUDDY_LIMIT)
    ensures AreasApart(ends, zones', maps)
  {
    hide Clear;
  }

  lemma AreasMapped(ends: map<nat, nat>, zones: seq<Zone>, maps: map<nat, nat>, base: nat, length: nat)
    requires AreasApart(ends, zones, maps) && Clear(ends, base, length)
    ensures AreasApart(ends, zones, maps[base := length])
  {
    hide Clear;
  }

  lemma AreasLess(ends: map<nat, nat>, zones: seq<Zone>, zones': seq<Zone>, maps: map<nat, nat>, base: nat)
    requires AreasApart(ends, zones, maps) && SameExtent(zones, zones')
    ensures AreasApart(ends, zones', maps - {base})
  {
    hide Clear;
  }

  lemma AreasResized(ends: map<nat, nat>, zones: seq<Zone>, zones': seq<Zone>, maps: map<nat, nat>, maps': map<nat, nat>,
                     base: nat, length: nat)
    requires AreasApart(ends, zones, maps) && SameExtent(zones, zones')
    requires maps' == maps || (maps' == maps[base := length] && Clear(ends, base, length))
    ensures AreasApart(ends, zones', maps')
  {
    hide Clear;
  }

  /** A new arena meets no region and no mapping. */
  ghost predicate ArenaClear(zones: seq<Zone>, maps: map<nat, nat>, b: nat, e: nat) {
    && (forall i :: 0 <= i < |zones| ==> e <= zones[i].base || EndOf(zones[i]) <= b)
    && (forall c :: c in maps ==> e <= c || c + maps[c] <= b)
  }

  lemma AreasArena(ends: map<nat, nat>, zones: seq<Zone>, maps: map<nat, nat>, b: nat, e: nat)
    requires AreasApart(ends, zones, maps) && ArenaClear(zones, maps, b, e)
    ensures AreasApart(ends[b := e], zones, maps)
  {
  }

  /** What a span has lies in an arena. */
  lemma SpanClear(space: ArenaSpace.Space, m: nat, base: nat, length: nat)
    requires ArenaSpace.SpaceOk(space) && m in space.spans && Clear(space.ends, base, length)
    ensures space.spans[m] <= base || base + length <= m
  {
    assert ArenaSpace.SpanOk(space, m);
    assert ArenaSpace.ArenaOk(space, space.home[m]);
  }

  /** What the caches, the backend and the system answer: a cached block, the word in its header, the answers to a big
      request, and whether a mapping could grow where it is. */
  datatype Env = Env(block: Option<Slot>, word: nat, big: BigHeap.Answers, remapped: bool, stamp: nat)

  class Heap {
    const big: BigHeap.Heap
    const spans: SlabSpans
    /** The class in the header of small blocks in use. */
    var classes: map<nat, nat>
    var words: map<nat, nat>
    var bytes: map<nat, nat>
    ghost var slots: map<nat, Slot>
    ghost var users: map<nat, nat>
    const tag: nat

    constructor (big: BigHeap.Heap, spans: SlabSpans, tag: nat)
      requires tag != 0 && big.Valid() && big.metas == map[] && spans.Valid()
      requires AreasApart(spans.arenas.space.ends, big.backend.zones, big.maps)
      ensures Valid() && users == map[] && classes == map[] && words == map[] && this.tag == tag && this.big == big && this.spans == spans
    {
      this.big, this.spans, this.tag := big, spans, tag;
      classes, words, bytes, slots, users := map[], map[], map[], map[], map[];
      new;
      hide BigHeap.Heap.Sound, BigHeap.Heap.Valid, SlabSpans.Valid, AreasApart;
      big.Stays();
      big.Rightly();
    }

    ghost function View(): Blocks
      reads this, big
    {
      Blocks(Sizes(classes, big.metas), users, words)
    }

    /** Every block in use is a slot of a span, or a big allocation with its record; arenas and big memory are apart. */
    ghost predicate Grounded()
      reads this, big, big.backend, big.backend.Spaces(), spans, spans.arenas
    {
      && big.Sound() && spans.Valid() && SmallsOk(classes, slots, spans.payloads)
      && AreasApart(spans.arenas.space.ends, big.backend.zones, big.maps)
    }

    /** And every pointer leads back to its block. */
    ghost predicate Sound()
      reads this, big, big.backend, big.backend.Spaces(), spans, spans.arenas
    {
      Grounded() && UsersOk(View(), tag) && tag != 0
    }

    /** And every recorded size is backed by memory. */
    ghost predicate Valid()
      reads this, big, big.backend, big.backend.Spaces(), spans, spans.arenas
    {
      Sound() && big.Valid()
    }

    lemma TheUsers()
      requires Sound()
      ensures UsersOk(View(), tag)
    {
    }

    /** A new raw block, its own user, where no block was. */
    ghost predicate NewRaw(was: Blocks, p: nat, size: nat, word: nat)
      reads this, big
    {
      p >= HEADER && p % 16 == 0 && p !in was.sizes && p !in was.users && View() == Allocated(was, p, size, word)
    }

    /** The caches answer with a block of the class that no user has. */
    ghost predicate SlotOk(c: nat, env: Env)
      reads this, spans
    {
      && env.word != tag
      && (env.block.Some? ==> FreeSlot(c, env.block.value))
    }

    /** The word in the header of a new block is written, and the block is its own user. */
    method Adopt(p: nat, ghost size: nat, word: nat, ghost was: Blocks)
      requires Grounded() && big.Valid() && UsersOk(was, tag) && tag != 0 && word != tag && p >= HEADER && p % 16 == 0
      requires p !in was.sizes && View() == was.(sizes := was.sizes[p := size])
      modifies this`words, this`users
      ensures Valid() && NewRaw(was, p, size, word)
    {
      hide BigHeap.Heap.Sound, BigHeap.Heap.Valid, SlabSpans.Valid, SmallsOk, AreasApart, UsersOk, PairsOk, Sizes;
      AllApart(this);
      SamePairs(View(), Allocated(was, p, size, word));
      AllocatedOk(was, tag, p, size, word);
      words := words[p - HEADER := word];
      users := users[p := p];
      big.Stays();
    }

    /** A block of a class, out of the caches. */
    method AllocSmall(c: nat, env: Env) returns (r: Option<nat>)
      requires Valid() && c < SizeClasses.CLASSES && SlotOk(c, env)
      modifies this`classes, this`words, this`slots, this`users
      ensures Valid() && (r.Some? <==> env.block.Some?)
      ensures r.None? ==> unchanged(this)
      ensures r.Some? ==> NewRaw(old(View()), r.value, PayloadOf(c), env.word)
    {
      hide BigHeap.Heap.Sound, BigHeap.Heap.Valid, SlabSpans.Valid, SmallsOk, AreasApart, UsersOk, PairsOk, PayloadOf, Sizes;
      if env.block.None? {
        return None;
      }
      var p := SlotAddr(env.block.value, PayloadOf(c));
      SpansAre(spans);
      NewSmall(classes, slots, spans.payloads, spans.arenas.space, p, c, env.block.value);
      SizesWithSmall(classes, big.metas, p, c);
      SizesKeys(classes, big.metas);
      slots := slots[p := env.block.value];
      classes := classes[p := c];
      big.Stays();
      OneKind(this, p);
      Adopt(p, PayloadOf(c), env.word, old(View()));
      r := Some(p);
    }

    /** The system answers with memory that meets no arena. */
    ghost predicate BigOk(size: nat, env: Env)
      reads this, big, big.backend, spans, spans.arenas
    {
      && big.Allowed(size, env.big)
      && (env.big.region.Some? ==> Clear(spans.arenas.space.ends, env.big.region.value, BigHeap.BUDDY_LIMIT))
      && (env.big.mapped.Some? ==>
            Clear(spans.arenas.space.ends, env.big.mapped.value, BigHeap.Estimate(size + HEADER, big.thp)))
    }

    /** A big allocation. */
    method AllocBig(size: nat, aligned: bool, env: Env) returns (r: Option<nat>)
      requires Valid() && SLAB_MAX < size < WRAP && BigOk(size, env)
      modifies this`words, this`users, big, big.backend, big.backend.Spaces()
      ensures Valid() && fresh(big.backend.Spaces() - old(big.backend.Spaces()))
      ensures r.None? <==> size + HEADER >= WRAP || (!old(big.BuddyGives(size, env.big)) && env.big.mapped.None?)
      ensures r.None? ==> View() == old(View())
      ensures r.Some? ==> NewRaw(old(View()), r.value, size, 0) && InBig(r.value, size, old(big.BuddyGives(size, env.big)))
    {
      hide BigHeap.Heap.Sound, BigHeap.Heap.Valid, SlabSpans.Valid, SmallsOk, AreasApart, UsersOk, PairsOk, Sizes;
      hide Clear, BigHeap.Estimate, BigHeap.Heap.Allowed, BigHeap.Heap.BuddyGives;
      var flag;
      r, flag := big.BigMalloc(size, aligned, env.big);
      big.Rightly();
      AreasAfter(spans.arenas.space.ends, old(big.backend.zones), big.backend.zones, old(big.maps), env.big.region);
      if r.None? {
        return;
      }
      var p := r.value;
      if big.maps != old(big.maps) {
        AreasMapped(spans.arenas.space.ends, big.backend.zones, old(big.maps), env.big.mapped.value,
                    BigHeap.Estimate(size + HEADER, big.thp));
      }
      BigHeap.RoomInside(big, p);
      OneKind(this, p);
      SizesWithBig(classes, old(big.metas), p, big.metas[p]);
      SizesKeys(classes, old(big.metas));
      Adopt(p, size, 0, old(View()));
    }

    /** A big allocation, in the backend or in a mapping. */
    ghost predicate InBig(p: nat, size: nat, buddy: bool)
      reads this, big
    {
      p in big.metas && big.metas[p].size == size && (big.metas[p].buddyRegion != 0 <==> buddy)
    }

    /** What a request of that size may be answered with. */
    ghost predicate MayAnswer(size: nat, env: Env)
      reads this, big, big.backend, spans, spans.arenas
    {
      match SizeClasses.MatchSizeClass(size)
      case Some(c) => SlotOk(c, env)
      case None => BigOk(size, env)
    }

    /** No memory for a request of that size. */
    ghost predicate NoMemory(size: nat, env: Env)
      reads this, big, big.backend
    {
      if SizeClasses.MatchSizeClass(size).Some? then env.block.None?
      else size + HEADER >= WRAP || (!big.BuddyGives(size, env.big) && env.big.mapped.None?)
    }

    /** rs_alloc. */
    method Alloc(size: nat, aligned: bool, env: Env) returns (r: Option<nat>)
      requires Valid() && size < WRAP && MayAnswer(size, env)
      modifies this`classes, this`words, this`slots, this`users, big, big.backend, big.backend.Spaces()
      ensures Valid() && fresh(big.backend.Spaces() - old(big.backend.Spaces()))
      ensures r.None? <==> old(NoMemory(size, env))
      ensures r.None? ==> View() == old(View())
      ensures r.Some? ==> NewRaw(old(View()), r.value, AllocSize(size), AllocWord(size, env)) && AllocSize(size) >= size
      ensures r.Some? && size > SLAB_MAX ==> InBig(r.value, size, old(big.BuddyGives(size, env.big)))
    {
      hide Heap.Sound, BigHeap.Heap.Valid, SizeClasses.MatchSizeClass, BigOk, BigHeap.Heap.BuddyGives, PayloadOf;
      SizeClasses.MatchIsFirst(size);
      match SizeClasses.MatchSizeClass(size)
      case Some(c) =>
        FirstIsEnough(size, c);
        r := AllocSmall(c, env);
      case None =>
        r := AllocBig(size, aligned, env);
    }

    /** A raw block goes to the caches, the backend or the system. */
    method Release(raw: nat, stamp: nat)
      requires Grounded() && big.Valid() && raw in View().sizes
      modifies this`classes, big, big.backend, big.backend.Spaces()
      ensures Grounded() && big.Valid() && big.backend.Spaces() == old(big.backend.Spaces())
      ensures View().sizes == old(View()).sizes - {raw}
    {
      hide BigHeap.Heap.Sound, BigHeap.Heap.Valid, SlabSpans.Valid, SmallsOk, AreasApart, Sizes, SameExtent;
      big.Rightly();
      OneKind(this, raw);
      SizesKeys(classes, big.metas);
      SizesWithout(classes, big.metas, raw);
      if raw in big.metas {
        BigHeap.SizeOf(big.metas, big.maps, big.thp, raw);
        big.BigFree(raw, stamp);
        AreasLess(spans.arenas.space.ends, old(big.backend.zones), big.backend.zones, old(big.maps), raw - HEADER);
        assert classes == classes - {raw};
      } else {
        LessSmalls(classes, slots, spans.payloads, raw);
        assert big.metas == big.metas - {raw};
        classes := classes - {raw};
        big.Stays();
      }
    }

    /** rs_free: the pointer leads back to its block, and exactly that block goes. */
    method Free(p: nat, stamp: nat)
      requires Valid() && (p == 0 || p in users)
      modifies this`classes, this`users, big, big.backend, big.backend.Spaces()
      ensures Valid() && big.backend.Spaces() == old(big.backend.Spaces())
      ensures View() == if p == 0 then old(View()) else old(Freed(View(), p))
    {
      hide Heap.Grounded, BigHeap.Heap.Sound, BigHeap.Heap.Valid, UsersOk, Sizes;
      if p == 0 {
        return;
      }
      OneUserOk(View(), tag, p);
      FreedOk(View(), tag, p);
      var raw := Original(words, tag, p);
      Release(raw, stamp);
      label Gone:
      users := users - {p};
      StaysGrounded@Gone();
    }

    /** Who uses a block, and the words and bytes in it, do not matter to where it is. */
    twostate lemma StaysGrounded()
      requires old(Grounded()) && classes == old(classes) && slots == old(slots) && unchanged(big) && unchanged(big.backend)
      requires forall x :: x in old(big.backend.Spaces()) ==> unchanged(x)
      requires unchanged(spans) && unchanged(spans.arenas)
      ensures Grounded() && (old(big.Valid()) <==> big.Valid())
    {
      hide BigHeap.Heap.Sound, BigHeap.Heap.Valid, SlabSpans.Valid, SmallsOk, AreasApart;
      big.Stays();
    }

    /** An aligned pointer into a new raw block, with tag and offset in front of it. */
    ghost predicate NewAligned(was: Blocks, p: nat, size: nat, word: nat)
      reads this, big
    {
      && p in users && users[p] >= HEADER && users[p] !in was.sizes && users[p] !in was.users && p !in was.users
      && users[p] + TAG_SIZE <= p <= users[p] + size
      && View() == Realigned(Allocated(was, users[p], size, word), tag, users[p], p)
    }

    /** posix_align_inner and memalign_inner: the pointer is aligned, leads back to its raw block, and what is usable
        behind it covers the request. */
    method AllocAligned(alignment: nat, size: nat, env: Env) returns (r: Option<nat>)
      requires Valid() && (size + alignment + TAG_SIZE < WRAP ==> MayAnswer(size + alignment + TAG_SIZE, env))
      modifies this`classes, this`words, this`slots, this`users, big, big.backend, big.backend.Spaces()
      ensures Valid() && fresh(big.backend.Spaces() - old(big.backend.Spaces()))
      ensures r.None? <==>
        || alignment < 8 || !PowerOfTwo(alignment) || size + alignment + TAG_SIZE >= WRAP
        || old(NoMemory(size + alignment + TAG_SIZE, env))
      ensures r.None? ==> View() == old(View())
      ensures r.Some? ==>
        && r.value % alignment == 0
        && NewAligned(old(View()), r.value, AllocSize(size + alignment + TAG_SIZE), AllocWord(size + alignment + TAG_SIZE, env))
        && Original(words, tag, r.value) == users[r.value] && users[r.value] in View().sizes && Usable(View(), r.value) >= size
    {
      hide Heap.Grounded, BigHeap.Heap.Sound, BigHeap.Heap.Valid, UsersOk, PairsOk, Sizes, Heap.MayAnswer;
      hide Heap.NoMemory, AllocSize, AllocWord;
      if alignment < 8 || !PowerOfTwo(alignment) {
        return None;
      }
      var total := size + alignment + TAG_SIZE;
      if total >= WRAP {
        return None;
      }
      ghost var was := View();
      var raw := Alloc(total, true, env);
      if raw.None? {
        return None;
      }
      var p := RoundUp(raw.value + TAG_SIZE, alignment);
      RoundUpFacts(raw.value + TAG_SIZE, alignment);
      AllApart(this);
      Unused(was, tag, raw.value, AllocSize(total), AllocWord(total, env), p);
      RealignedOk(View(), tag, raw.value, p);
      label Raw:
      words := words[p - TAG_SIZE := tag];
      words := words[p - OFFSET_SIZE := raw.value];
      users := (users - {raw.value})[p := raw.value];
      StaysGrounded@Raw();
      r := Some(p);
    }

    /** copy_nonoverlapping. */
    method Copy(from: nat, to: nat, n: nat)
      requires from + n <= to || to + n <= from
      modifies this`bytes
      ensures SameBytes(bytes, to, old(bytes), from, n) && OnlyAt(bytes, old(bytes), to, n)
    {
      hide SameBytes, OnlyAt;
      var k := 0;
      assert SameBytes(bytes, to, bytes, from, 0) && OnlyAt(bytes, bytes, to, 0) by { NothingYet(bytes, from, to); }
      while k < n
        invariant 0 <= k <= n
        invariant SameBytes(bytes, to, old(bytes), from, k) && OnlyAt(bytes, old(bytes), to, k)
      {
        OneMore(bytes, old(bytes), from, to, k, n);
        bytes := bytes[to + k := ByteAt(bytes, from + k)];
        k := k + 1;
      }
    }

    ghost function UsableAt(p: nat): nat
      reads this, big
    {
      if p in users && users[p] in View().sizes then Usable(View(), p) else 0
    }

    /** The contents go to a new allocation, and the old one is freed. */
    method CopyAndFree(p: nat, q: nat, n: nat, stamp: nat)
      requires Valid() && p in users && q in users && p != q && n <= UsableAt(p) && n <= UsableAt(q)
      modifies this`classes, this`users, this`bytes, big, big.backend, big.backend.Spaces()
      ensures Valid() && View() == old(Freed(View(), p)) && SameBytes(bytes, q, old(bytes), p, n) && OnlyAt(bytes, old(bytes), q, n)
    {
      hide BigHeap.Heap.Sound, BigHeap.Heap.Valid, SlabSpans.Valid, SmallsOk, AreasApart, UsersOk, PairsOk, Sizes;
      hide SameBytes, OnlyAt;
      AllApart(this);
      PayloadsApart(View(), tag, p, q);
      OneUserOk(View(), tag, p);
      NotNull(View(), tag, p);
      Copy(p, q, n);
      big.Stays();
      Free(p, stamp);
    }

    /** The branch of rs_realloc for a pointer into its raw block: a new aligned allocation. */
    method MoveAligned(p: nat, newSize: nat, usable: nat, env: Env) returns (r: Option<nat>)
      requires Valid() && p in users && p > 0 && usable == UsableAt(p) < newSize
      requires newSize + Max(Observed(p), 8) + TAG_SIZE < WRAP ==> MayAnswer(newSize + Max(Observed(p), 8) + TAG_SIZE, env)
      modifies this, big, big.backend, big.backend.Spaces()
      ensures Valid() && r != Some(p)
      ensures r.None? <==>
        newSize + Max(Observed(p), 8) + TAG_SIZE >= WRAP || old(NoMemory(newSize + Max(Observed(p), 8) + TAG_SIZE, env))
      ensures r.None? ==> View() == old(View()) && bytes == old(bytes)
      ensures r.Some? ==> Instead(old(View()), View(), p, r.value) && Usable(View(), r.value) >= newSize && r.value % Observed(p) == 0
      ensures r.Some? ==> SameBytes(bytes, r.value, old(bytes), p, usable)
    {
      hide Heap.Sound, BigHeap.Heap.Valid, UsersOk, PairsOk, Sizes, Heap.MayAnswer, Heap.NoMemory, AllocSize;
      hide AllocWord, SameBytes, OnlyAt;
      ghost var was := View();
      TheUsers();
      PowerOrEight(p);
      r := AllocAligned(Max(Observed(p), 8), newSize, env);
      if r.None? {
        return;
      }
      ObservedOrEight(p, r.value);
      ghost var total := newSize + Max(Observed(p), 8) + TAG_SIZE;
      MovedAligned(was, tag, p, users[r.value], r.value, AllocSize(total), AllocWord(total, env));
      CopyAndFree(p, r.value, usable, env.stamp);
    }

    /** The branches that allocate a larger plain block. */
    method MovePlain(p: nat, newSize: nat, usable: nat, env: Env) returns (r: Option<nat>)
      requires Valid() && p in users && users[p] == p && usable == UsableAt(p) < newSize < WRAP && MayAnswer(newSize, env)
      modifies this, big, big.backend, big.backend.Spaces()
      ensures Valid() && r != Some(p) && (r.None? <==> old(NoMemory(newSize, env)))
      ensures r.None? ==> View() == old(View()) && bytes == old(bytes)
      ensures r.Some? ==> Instead(old(View()), View(), p, r.value) && Usable(View(), r.value) >= newSize && r.value % 16 == 0
      ensures r.Some? ==> SameBytes(bytes, r.value, old(bytes), p, usable)
    {
      hide Heap.Sound, BigHeap.Heap.Valid, UsersOk, PairsOk, Sizes, Heap.MayAnswer, Heap.NoMemory, AllocSize;
      hide AllocWord, SameBytes, OnlyAt;
      ghost var was := View();
      TheUsers();
      r := Alloc(newSize, false, env);
      if r.None? {
        return;
      }
      MovedPlain(was, tag, p, r.value, AllocSize(newSize), AllocWord(newSize, env));
      CopyAndFree(p, r.value, usable, env.stamp);
    }

    /** The growth branch of small_realloc: block, class and span grow together. */
    method GrowSpan(p: nat, c: nat) returns (ok: bool)
      requires Valid() && p in classes && c < SizeClasses.CLASSES && PayloadOf(classes[p]) <= PayloadOf(c)
      requires SizeClasses.Iterations(PayloadOf(classes[p])) == 1 && SizeClasses.Iterations(PayloadOf(c)) == 1
      modifies this`classes, spans, spans.arenas
      ensures Valid() && (ok <==> old(spans.CanGrow(SpanOf(p), PayloadOf(c))))
      ensures !ok ==> unchanged(this) && spans.payloads == old(spans.payloads) && spans.arenas.space == old(spans.arenas.space)
      ensures ok ==> View() == Grown(old(View()), p, PayloadOf(c)) && classes == old(classes)[p := c]
    {
      hide BigHeap.Heap.Sound, BigHeap.Heap.Valid, SlabSpans.Valid, Extent, ArenaSpace.Disjoint, IsSlot, SlotAddr;
      hide SmallsOk, AreasApart, UsersOk, Sizes, PayloadOf, SizeClasses.Iterations;
      GrownSmalls(classes, slots, spans.payloads, p, c);
      SizesKeys(classes, big.metas);
      SizesOne(classes, big.metas, p);
      SizesWithSmall(classes, big.metas, p, c);
      GrownOk(View(), tag, p, PayloadOf(c));
      ok := spans.Grow(SpanOf(p), PayloadOf(c));
      if ok {
        classes := classes[p := c];
      }
      big.Stays();
    }

    /** The block is alone in its span, as one of the class for the new size would be, and the span can grow. */
    ghost predicate SpanGrows(p: nat, newSize: nat)
      reads this, spans, spans.arenas
    {
      && p in classes && SizeClasses.MatchSizeClass(newSize).Some? && SizeClasses.Iterations(PayloadOf(classes[p])) == 1
      && var payload := PayloadOf(SizeClasses.MatchSizeClass(newSize).value);
         SizeClasses.Iterations(payload) == 1 && spans.CanGrow(SpanOf(p), payload)
    }

    /** small_realloc. */
    method SmallRealloc(p: nat, newSize: nat, env: Env) returns (r: Option<nat>)
      requires Valid() && p in users && users[p] == p && p in classes && 0 < newSize < WRAP && MayAnswer(newSize, env)
      modifies this, big, big.backend, big.backend.Spaces(), spans, spans.arenas
      ensures Valid()
      ensures r == Some(p) <==> newSize <= old(UsableAt(p)) || old(SpanGrows(p, newSize))
      ensures r.None? <==> newSize > old(UsableAt(p)) && !old(SpanGrows(p, newSize)) && old(NoMemory(newSize, env))
      ensures r.None? ==> View() == old(View()) && bytes == old(bytes)
      ensures r.Some? ==> Instead(old(View()), View(), p, r.value) && Usable(View(), r.value) >= newSize && r.value % 16 == 0
      ensures r.Some? ==> SameBytes(bytes, r.value, old(bytes), p, Min(newSize, old(UsableAt(p))))
    {
      hide Heap.Sound, BigHeap.Heap.Valid, UsersOk, PairsOk, Sizes, AllocSize, AllocWord, PayloadOf;
      hide SizeClasses.Iterations, SizeClasses.MatchSizeClass;
      var payload := PayloadOf(classes[p]);
      SmallUsable(p);
      if newSize <= payload {
        return Some(p);
      }
      var class' := SizeClasses.MatchSizeClass(newSize);
      SizeClasses.MatchIsFirst(newSize);
      if class'.Some? {
        // The class differs from the old one, whose payload is too small.
        FirstIsEnough(newSize, class'.value);
        if SizeClasses.Iterations(payload) == 1 && SizeClasses.Iterations(PayloadOf(class'.value)) == 1 {
          var ok := GrowSpan(p, class'.value);
          if ok {
            SmallUsable(p);
            return Some(p);
          }
        }
      }
      r := MovePlain(p, newSize, payload, env);
    }

    lemma SmallUsable(p: nat)
      requires Sound() && p in users && users[p] == p && p in classes
      ensures p in View().sizes && UsableAt(p) == PayloadOf(classes[p]) && p % 16 == 0
    {
      hide UsersOk, PayloadOf, BigHeap.Heap.Sound, SlabSpans.Valid, SmallsOk, AreasApart, IsSlot, SlotAddr;
      SpansAre(spans);
      OneSmall(classes, slots, spans.payloads, p);
      SlotAligned(spans.payloads, spans.arenas.space, slots[p], PayloadOf(classes[p]));
    }

    lemma BigUsable(p: nat)
      requires Sound() && p in users && users[p] == p && p in big.metas
      ensures p in View().sizes && UsableAt(p) == big.metas[p].size && p !in classes && p % 16 == 0
    {
      hide UsersOk, PayloadOf, BigHeap.Heap.Sound, SlabSpans.Valid, SmallsOk, AreasApart, BigHeap.Within, BigHeap.Room;
      OneKind(this, p);
      BigHeap.RoomInside(big, p);
    }

    /** The system may grow a mapping where it is, over space that nothing has. */
    ghost predicate RemapOk(p: nat, newSize: nat, env: Env)
      reads this, big, big.backend, spans, spans.arenas
    {
      env.remapped ==>
        && big.Remappable(p, newSize, true) && p >= HEADER
        && Clear(spans.arenas.space.ends, p - HEADER, BigHeap.Estimate(newSize + HEADER, big.thp))
    }

    /** The branches of big_realloc that keep the allocation where it is. */
    method ResizeBig(p: nat, newSize: nat, env: Env) returns (o: BigHeap.Outcome)
      requires Valid() && p in users && users[p] == p && p in big.metas && newSize < WRAP && RemapOk(p, newSize, env)
      modifies big, big.backend`zones, big.backend`live, big.backend.Spaces()
      ensures Sound() && (Valid() <==> !old(big.Wraps(p, newSize))) && p in big.metas
      ensures View() == Grown(old(View()), p, big.metas[p].size) && big.metas[p].size >= old(big.metas[p]).size
      ensures o != BigHeap.Kept ==> View() == old(View())
      ensures o == BigHeap.Kept ==> big.metas[p].size >= newSize
      ensures o == BigHeap.Kept <==> old(big.CanStay(p, newSize, env.remapped))
      ensures o == BigHeap.Failed <==> newSize > old(big.metas[p]).size && newSize + HEADER >= WRAP
      ensures o == BigHeap.Moves ==>
        SameFits(old(big.backend.zones), big.backend.zones, RequestOrder(BigHeap.Estimate(newSize + HEADER, big.thp)))
      ensures o == BigHeap.Moves ==> big.maps == old(big.maps) && newSize > SLAB_MAX && big.metas[p].size < newSize
      ensures SameExtent(old(big.backend.zones), big.backend.zones)
      ensures old(big.Wraps(p, newSize)) ==> o == BigHeap.Kept && big.metas[p].buddyRegion != 0
    {
      hide BigHeap.Heap.Sound, BigHeap.Heap.Valid, SlabSpans.Valid, SmallsOk, AreasApart, UsersOk, Sizes, SameExtent;
      hide Clear, BigHeap.Estimate, BigHeap.Heap.OnlyAt, BigHeap.FreeRange;
      BigUsable(p);
      o := big.Resize(p, newSize, env.remapped);
      AreasResized(spans.arenas.space.ends, old(big.backend.zones), big.backend.zones, old(big.maps), big.maps, p - HEADER,
                   BigHeap.Estimate(newSize + HEADER, big.thp));
      SizesWithBig(classes, old(big.metas), p, big.metas[p]);
      GrownOk(old(View()), tag, p, big.metas[p].size);
    }

    /** That many bytes behind the pointer are memory of its block. */
    ghost predicate Backed(p: nat, n: nat)
      reads this, big, big.backend
    {
      p in users && p + n <= users[p] + RoomAt(this, users[p])
    }

    /** What is usable is there. */
    lemma UsableBacked(p: nat, n: nat)
      requires Valid() && p in users && n <= UsableAt(p)
      ensures n > 0 ==> Backed(p, n)
    {
      hide UsersOk, PayloadOf, BigHeap.Heap.Sound, BigHeap.Heap.Valid, SlabSpans.Valid, SmallsOk, AreasApart, BigHeap.Room;
      OneUserOk(View(), tag, p);
      if users[p] in big.metas {
        BigHeap.SizeInRoom(big, users[p]);
      }
    }

    /** big_realloc. */
    method BigRealloc(p: nat, newSize: nat, env: Env) returns (r: Option<nat>)
      requires Valid() && p in users && users[p] == p && p in big.metas && 0 < newSize < WRAP && MayAnswer(newSize, env)
      requires RemapOk(p, newSize, env)
      modifies this, big, big.backend, big.backend.Spaces()
      ensures Sound() && (Valid() <==> !old(big.Wraps(p, newSize)))
      ensures r == Some(p) <==> old(big.CanStay(p, newSize, env.remapped))
      ensures newSize <= old(UsableAt(p)) ==> r == Some(p)
      ensures r.None? <==> !old(big.CanStay(p, newSize, env.remapped)) && old(NoMemory(newSize, env))
      ensures r.None? ==> View() == old(View()) && bytes == old(bytes)
      ensures r.Some? ==> Instead(old(View()), View(), p, r.value) && Usable(View(), r.value) >= newSize && r.value % 16 == 0
      ensures r.Some? ==> SameBytes(bytes, r.value, old(bytes), p, Min(newSize, old(UsableAt(p))))
      ensures r.Some? ==> (Backed(r.value, newSize) <==> !old(big.Wraps(p, newSize)))
      ensures old(big.Wraps(p, newSize)) ==> r == Some(p)
    {
      hide Heap.Sound, BigHeap.Heap.Sound, BigHeap.Heap.Valid, UsersOk, Sizes, SameExtent, BigHeap.Room;
      hide BigHeap.Estimate, PayloadOf, Clear;
      SizeClasses.MatchIsFirst(newSize);
      BigUsable(p);
      BigIsLarge(p);
      var o := ResizeBig(p, newSize, env);
      BigUsable(p);
      if o == BigHeap.Failed {
        return None;
      }
      if o == BigHeap.Kept {
        KeptBacked(p, newSize, old(big.Wraps(p, newSize)));
        return Some(p);
      }
      BigHeap.StillAllowed(old(big.backend.zones), big.backend.zones, big.maps, big.thp, newSize, env.big);
      BigHeap.StillGives(big.backend.regions, old(big.backend.zones), big.backend.zones, big.thp, newSize, env.big);
      r := MovePlain(p, newSize, big.metas[p].size, env);
      if r.Some? {
        UsableBacked(r.value, newSize);
      }
    }

    lemma BigIsLarge(p: nat)
      requires big.Valid() && p in big.metas
      ensures big.metas[p].size > SLAB_MAX && p >= HEADER
    {
      hide BigHeap.LinksOk, BigHeap.MapsOk;
      BigHeap.SizeOf(big.metas, big.maps, big.thp, p);
      BigHeap.Owned(big.metas, big.backend.live, big.maps, p);
    }

    lemma KeptBacked(p: nat, newSize: nat, wraps: bool)
      requires Sound() && p in users && users[p] == p && p in big.metas && big.metas[p].size >= newSize > 0
      requires if wraps then big.metas[p].buddyRegion != 0 && BigHeap.Top(big.thp) < newSize + HEADER else Valid()
      ensures Backed(p, newSize) <==> !wraps
    {
      hide UsersOk, BigHeap.Heap.Sound, BigHeap.Heap.Valid, SlabSpans.Valid, SmallsOk, AreasApart, BigHeap.Room;
      hide PayloadOf, Sizes;
      BigUsable(p);
      if wraps {
        BigHeap.WrapUnbacked(big, p);
      } else {
        UsableBacked(p, newSize);
      }
    }

    /** The request rs_realloc makes when it cannot keep the block. */
    ghost function Request(p: nat, newSize: nat): nat
      reads this
    {
      if p == 0 then Max(newSize, 1)
      else if p in users && users[p] != p then newSize + Max(Observed(p), 8) + TAG_SIZE
      else newSize
    }

    /** The block can stay where it is. */
    ghost predicate InPlace(p: nat, newSize: nat, env: Env)
      reads this, big, big.backend, spans, spans.arenas
    {
      && p in users
      && if users[p] == p && p in big.metas then big.CanStay(p, newSize, env.remapped)
         else newSize <= UsableAt(p) || (users[p] == p && SpanGrows(p, newSize))
    }

    /** The call grows a raw allocation in the buddy backend to a size whose rounding wraps around. */
    ghost predicate Wraps(p: nat, newSize: nat)
      reads this, big
    {
      p in users && users[p] == p && big.Wraps(p, newSize)
    }

    /** rs_realloc.  On success the new size is recorded as usable, the contents are kept up to the lesser of the old
        usable and the new size, and alignment is kept; on failure nothing changes for users.

        The pointer stays exactly if the block can stay where it is.  Otherwise the call fails exactly if the request for
        a new block overflows or is refused.

        The recorded size is backed by memory, and the whole heap stays right, if and only if the call does not wrap. */
    method Realloc(p: nat, newSize: nat, env: Env) returns (r: Option<nat>)
      requires Valid() && (p == 0 || p in users) && newSize < WRAP && RemapOk(p, newSize, env)
      requires Request(p, newSize) < WRAP ==> MayAnswer(Request(p, newSize), env)
      modifies this, big, big.backend, big.backend.Spaces(), spans, spans.arenas
      ensures Sound() && (Valid() <==> !old(Wraps(p, newSize)))
      ensures p != 0 && newSize == 0 ==> r.None? && View() == old(Freed(View(), p))
      ensures r.None? && (p == 0 || newSize > 0) ==> View() == old(View()) && bytes == old(bytes)
      ensures p == 0 ==> (r.None? <==> old(NoMemory(Max(newSize, 1), env)))
      ensures p != 0 && newSize > 0 ==> (r == Some(p) <==> old(InPlace(p, newSize, env)))
      ensures p != 0 && newSize > 0 ==>
        (r.None? <==> !old(InPlace(p, newSize, env)) && (old(Request(p, newSize)) >= WRAP || old(NoMemory(Request(p, newSize), env))))
      ensures p != 0 && 0 < newSize <= old(UsableAt(p)) ==> r == Some(p)
      ensures r.Some? ==> Instead(old(View()), View(), p, r.value) && Usable(View(), r.value) >= newSize
      ensures r.Some? && newSize > 0 ==> (Backed(r.value, newSize) <==> !old(Wraps(p, newSize)))
      ensures old(Wraps(p, newSize)) ==> r == Some(p)
      ensures r.Some? && p != 0 ==> SameBytes(bytes, r.value, old(bytes), p, Min(newSize, old(UsableAt(p))))
      ensures r.Some? && (p == 0 || old(users[p]) == p) ==> r.value % 16 == 0
      ensures r.Some? && p != 0 && old(users[p]) != p ==> r.value % Observed(p) == 0
    {
      hide Heap.Sound, BigHeap.Heap.Sound, BigHeap.Heap.Valid, UsersOk, Sizes, PayloadOf, AllocSize, AllocWord;
      hide Heap.MayAnswer, Heap.NoMemory, Heap.RemapOk, Heap.Backed;
      TheUsers();
      NullNotUser(View(), tag);
      if p == 0 {
        r := Alloc(Max(newSize, 1), false, env);
        if r.Some? {
          UsableBacked(r.value, newSize);
        }
        return;
      }
      if newSize == 0 {
        Free(p, env.stamp);
        return None;
      }
      OneUserOk(View(), tag, p);
      var raw := Original(words, tag, p);
      if raw != p {
        r := ReallocAligned(p, raw, newSize, env);
      } else if p in big.metas {
        r := BigRealloc(p, newSize, env);
      } else {
        InClasses(p);
        r := SmallRealloc(p, newSize, env);
        if r.Some? {
          UsableBacked(r.value, newSize);
        }
      }
    }

    lemma InClasses(p: nat)
      requires Sound() && p in users && users[p] == p && p !in big.metas
      ensures p in classes
    {
      OneUserOk(View(), tag, p);
    }

    /** The branch of rs_realloc for a pointer into its raw block. */
    method ReallocAligned(p: nat, raw: nat, newSize: nat, env: Env) returns (r: Option<nat>)
      requires Valid() && p in users && p != 0 && raw == users[p] != p && 0 < newSize < WRAP
      requires newSize + Max(Observed(p), 8) + TAG_SIZE < WRAP ==> MayAnswer(newSize + Max(Observed(p), 8) + TAG_SIZE, env)
      modifies this, big, big.backend, big.backend.Spaces()
      ensures Valid() && (r == Some(p) <==> newSize <= old(UsableAt(p)))
      ensures r.None? <==>
        && newSize > old(UsableAt(p))
        && (newSize + Max(Observed(p), 8) + TAG_SIZE >= WRAP || old(NoMemory(newSize + Max(Observed(p), 8) + TAG_SIZE, env)))
      ensures r.None? ==> View() == old(View()) && bytes == old(bytes)
      ensures r.Some? ==> Instead(old(View()), View(), p, r.value) && Usable(View(), r.value) >= newSize && r.value % Observed(p) == 0
      ensures r.Some? ==> SameBytes(bytes, r.value, old(bytes), p, Min(newSize, old(UsableAt(p)))) && Backed(r.value, newSize)
    {
      hide Heap.Sound, BigHeap.Heap.Sound, BigHeap.Heap.Valid, UsersOk, PayloadOf, Heap.MayAnswer, Heap.Backed;
      TheUsers();
      OneUserOk(View(), tag, p);
      var size := SizeAt(classes, big.metas, raw);
      var usable := if p - raw <= size then raw + size - p else 0;
      if newSize <= usable {
        ObservedSelf(p);
        UsableBacked(p, newSize);
        return Some(p);
      }
      r := MoveAligned(p, newSize, usable, env);
      if r.Some? {
        UsableBacked(r.value, newSize);
      }
    }

    /** A refill that allocates a new span: all its blocks are slots that no user has. */
    method Refill(c: nat, arenaSize: nat, mem: Option<nat>) returns (r: Option<nat>)
      requires Valid() && c < SizeClasses.CLASSES
      requires mem.Some? ==> spans.arenas.FreshAt(mem.value, SpanPages(PayloadOf(c)), arenaSize)
      requires
        mem.Some? ==>
          var base := mem.value + PageArenas.ARENA_METADATA;
          ArenaClear(big.backend.zones, big.maps, base, base + PageArenas.ArenaLength(SpanPages(PayloadOf(c)), arenaSize))
      modifies spans, spans.arenas
      ensures Valid() && View() == old(View()) && (r.None? ==> mem.None?)
      ensures r.Some? ==> forall i: nat :: i < SizeClasses.SpanBlocks(PayloadOf(c)) ==> FreeSlot(c, Slot(r.value, i))
    {
      hide BigHeap.Heap.Sound, BigHeap.Heap.Valid, SlabSpans.Valid, SmallsOk, AreasApart, UsersOk, PayloadOf;
      hide SpanPages, ArenaClear, ExtentsOk, Sizes, PageArenas.ArenaLength, SlotAddr;
      hide PageArenas.NodeArenas.FreshAt, SizeClasses.SpanBlocks;
      SpansAre(spans);
      r := spans.NewSpan(PayloadOf(c), arenaSize, mem);
      big.Stays();
      SpansAre(spans);
      if spans.arenas.space.ends != old(spans.arenas.space).ends {
        var base := mem.value + PageArenas.ARENA_METADATA;
        AreasArena(old(spans.arenas.space).ends, big.backend.zones, big.maps, base,
                   base + PageArenas.ArenaLength(SpanPages(PayloadOf(c)), arenaSize));
      }
      if r.Some? {
        NewSpanSmalls(classes, slots, old(spans.payloads), r.value, c, spans.arenas.space);
      }
    }

    /** A slot of the class that no user has. */
    ghost predicate FreeSlot(c: nat, s: Slot)
      reads this, spans
    {
      IsSlot(spans.payloads, s, PayloadOf(c)) && SlotAddr(s, PayloadOf(c)) !in classes
    }
  }

  /** The bytes that a raw block really has. */
  ghost function RoomAt(h: Heap, p: nat): nat
    reads h, h.big, h.big.backend
  {
    if p in h.classes then PayloadOf(h.classes[p]) else BigRoom(h.big, p)
  }

  ghost function BigRoom(big: BigHeap.Heap, p: nat): nat
    reads big, big.backend
  {
    BigHeap.Room(p, big.backend.live, big.maps)
  }

  /** A big allocation lies in a region or a mapping, so it meets no span. */
  lemma BigClear(h: Heap, p: nat, m: nat)
    requires h.Grounded() && p in h.big.metas && m in h.spans.arenas.space.spans
    ensures p >= HEADER && (h.spans.arenas.space.spans[m] <= p - HEADER || p + BigRoom(h.big, p) <= m)
  {
    hide BigHeap.Heap.Sound, SlabSpans.Valid, SmallsOk, BigHeap.Room, Clear, ArenaSpace.SpaceOk;
    var space, zones, maps := h.spans.arenas.space, h.big.backend.zones, h.big.maps;
    SpansAre(h.spans);
    BigHeap.RoomInside(h.big, p);
    var room := BigRoom(h.big, p);
    if p - HEADER in maps && p + room == p - HEADER + maps[p - HEADER] {
      SpanClear(space, m, p - HEADER, maps[p - HEADER]);
    } else {
      var i :| 0 <= i < |zones| && zones[i].base <= p - HEADER && p + room <= EndOf(zones[i]);
      SpanClear(space, m, zones[i].base, UNIT * |zones[i].own|);
    }
  }

  /** Two raw blocks with headers do not meet. */
  lemma RawApart(h: Heap, p: nat, q: nat)
    requires h.Grounded() && h.big.Valid() && p in h.View().sizes && q in h.View().sizes && p < q
    ensures p + h.View().sizes[p] + HEADER <= q
  {
    hide BigHeap.Heap.Sound, BigHeap.Heap.Valid, SlabSpans.Valid, SmallsOk, BigHeap.Room, AreasApart, ExtentsOk, PayloadOf;
    SpansAre(h.spans);
    var space, payloads := h.spans.arenas.space, h.spans.payloads;
    if p in h.classes && q in h.classes {
      SmallsApart(h.classes, h.slots, payloads, space, p, q);
    } else if p in h.classes {
      SmallBig(h, p, q);
    } else if q in h.classes {
      SmallBig(h, q, p);
      BigHeap.SizeInRoom(h.big, p);
    } else {
      BigHeap.RoomsApart(h.big, p, q);
      BigHeap.SizeInRoom(h.big, p);
    }
  }

  lemma SmallBig(h: Heap, r: nat, p: nat)
    requires h.Grounded() && r in h.classes && p in h.big.metas
    ensures r >= HEADER && p >= HEADER && r % 16 == 0
    ensures r + PayloadOf(h.classes[r]) <= p - HEADER || p + BigRoom(h.big, p) <= r - HEADER
  {
    hide BigHeap.Heap.Sound, SlabSpans.Valid, SmallsOk, BigHeap.Room, AreasApart, ExtentsOk, PayloadOf;
    hide SizeClasses.SpanBlocks;
    SpansAre(h.spans);
    OneSmall(h.classes, h.slots, h.spans.payloads, r);
    SlotInside(h.spans.payloads, h.spans.arenas.space, h.slots[r], PayloadOf(h.classes[r]));
    SlotAligned(h.spans.payloads, h.spans.arenas.space, h.slots[r], PayloadOf(h.classes[r]));
    BigClear(h, p, h.slots[r].span);
  }

  /** No block is both small and big. */
  lemma OneKind(h: Heap, p: nat)
    requires h.Grounded()
    ensures !(p in h.classes && p in h.big.metas)
  {
    hide Heap.Grounded, PayloadOf, BigRoom;
    if p in h.classes && p in h.big.metas {
      SmallBig(h, p, p);
    }
  }

  /** Whether blocks meet depends on their sizes alone. */
  lemma SamePairs(b: Blocks, b': Blocks)
    requires PairsOk(b) && b.sizes == b'.sizes
    ensures PairsOk(b')
  {
    forall p, q
      ensures PairOk(b', p, q)
    {
      assert PairOk(b, p, q);
    }
  }

  lemma AllApart(h: Heap)
    requires h.Grounded() && h.big.Valid()
    ensures PairsOk(h.View())
  {
    hide Heap.Grounded, BigHeap.Heap.Valid, Sizes;
    forall p, q
      ensures PairOk(h.View(), p, q)
    {
      if p in h.View().sizes && q in h.View().sizes {
        if p < q {
          RawApart(h, p, q);
        } else if q < p {
          RawApart(h, q, p);
        }
      }
    }
  }

  /** The smallest refill is in pages, as the spans of every class are. */
  lemma SmallestRefill(min: nat)
    requires forall i :: 0 <= i < |SizeClasses.SIZE_CLASSES| ==> SizeClasses.RoundPage(SizeClasses.RefillTotal(SizeClasses.SIZE_CLASSES[i])) >= min
    ensures forall c: nat :: c < SizeClasses.CLASSES ==> SpanPages(PayloadOf(c)) >= min
  {
    hide SizeClasses.RefillTotal;
    forall c: nat | c < SizeClasses.CLASSES
      ensures SpanPages(PayloadOf(c)) >= min
    {
      assert PayloadOf(c) == SizeClasses.SIZE_CLASSES[c];
      SizeClasses.RefillPositive(PayloadOf(c));
    }
  }

  /** A heap without memory: an arena that it would drop has no room for a span of any class. */
  method NewHeap(thp: bool, tag: nat) returns (heap: Heap)
    requires tag != 0
    ensures heap.Valid() && heap.View() == Blocks(map[], map[], map[]) && heap.big.thp == thp && heap.tag == tag
    ensures heap.big.maps == map[] && heap.big.backend.zones == [] && heap.spans.arenas.space.ends == map[] && heap.big.metas == map[]
    ensures fresh(heap) && fresh(heap.big) && fresh(heap.big.backend) && fresh(heap.big.backend.Spaces())
    ensures fresh(heap.spans) && fresh(heap.spans.arenas)
    ensures forall c: nat :: c < SizeClasses.CLASSES ==> SpanPages(PayloadOf(c)) >= heap.spans.arenas.minRefill
  {
    hide BigHeap.Heap.Sound, BigHeap.Heap.Valid, SlabSpans.Valid, BuddyAllocator.Valid, PageArenas.NodeArenas.Valid;
    var min := SizeClasses.MinRefill();
    SmallestRefill(min);
    var arenas := new PageArenas.NodeArenas(min);
    var spans := new SlabSpans(arenas);
    var backend := new BuddyAllocator();
    var big := new BigHeap.Heap(backend, thp);
    heap := new Heap(big, spans, tag);
  }

  /** A witness that the wrapping sizes do harm: one allocation and one reallocation on a new heap, after which the size
      promised to the user is not backed. */
  method WrapExample(thp: bool, tag: nat) returns (heap: Heap, p: nat)
    requires tag != 0
    ensures heap.Sound() && !heap.Valid() && p in heap.users
    ensures heap.UsableAt(p) >= WRAP - HEADER - 1 && !heap.Backed(p, WRAP - HEADER - 1)
  {
    hide Heap.Sound, BigHeap.Heap.Sound, BigHeap.Heap.Valid, Sizes, PayloadOf, BigHeap.Estimate, OrderFor, BlockSize;
    hide SizeClasses.MatchSizeClass, NodeFull;
    hide Heap.Backed, UsersOk, AllocSize, AllocWord, SameBytes;
    heap := NewHeap(thp, tag);
    BigHeap.SmallEstimate(thp);
    SizeClasses.MatchIsFirst(0x30_0000);
    SizeClasses.MatchIsFirst(WRAP - HEADER - 1);
    var r := heap.Alloc(0x30_0000, false, Env(None, tag + 1, BigHeap.Answers(true, 0, false, 0, 0, Some(UNIT), None), false, 0));
    p := r.value;
    r := heap.Realloc(p, WRAP - HEADER - 1, Env(None, tag + 1, BigHeap.Answers(true, 0, false, 0, 0, None, None), false, 0));
  }
}
