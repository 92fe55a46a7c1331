/** Pointers as users see them: the raw block behind a pointer, the words in front of it, alignment and bytes. */
module UserBlocks {
  import opened Layout
  import opened Numbers

  const TAG_SIZE: nat := 16
  const OFFSET_SIZE: nat := 8

  // ----- alignment -----

  function RoundUp(x: nat, a: nat): nat
    requires a > 0
  {
    (x + a - 1) / a * a
  }

  lemma RoundUpFacts(x: nat, a: nat)
    requires a > 0
    ensures x <= RoundUp(x, a) < x + a && RoundUp(x, a) % a == 0
  {
    var y := x + a - 1;
    assert y == a * (y / a) + y % a;
    MultipleOf(y / a, a);
  }

  lemma MultipleOf(q: nat, a: nat)
    requires a > 0
    ensures (q * a) % a == 0
  {
    var r := (q * a) % a;
    var d := q - (q * a) / a;
    assert d * a == r;
    assert d >= 1 ==> d * a >= a;
    assert d <= -1 ==> d * a <= -1 * a;
  }

  /** observed_alignment: the lowest bit that is on. */
  function Observed(addr: nat): (a: nat)
    requires addr > 0
    ensures a > 0
  {
    if addr % 2 == 1 then 1 else 2 * Observed(addr / 2)
  }

  ghost function Level(addr: nat): nat
    requires addr > 0
  {
    if addr % 2 == 1 then 0 else 1 + Level(addr / 2)
  }

  lemma {:induction false} ObservedIsPow2(addr: nat)
    requires addr > 0
    ensures Observed(addr) == Pow2(Level(addr))
  {
    if addr % 2 == 0 {
      ObservedIsPow2(addr / 2);
    }
  }

  /** Every power of two that divides the address is at most the observed alignment. */
  lemma {:induction false} ObservedDivides(addr: nat, k: nat)
    requires addr > 0 && addr % Pow2(k) == 0
    ensures k <= Level(addr)
  {
    if k > 0 {
      var q := addr / Pow2(k);
      assert addr == 2 * (Pow2(k - 1) * q);
      assert addr / 2 == Pow2(k - 1) * q;
      MultipleOf(q, Pow2(k - 1));
      assert q * Pow2(k - 1) == Pow2(k - 1) * q;
      ObservedDivides(addr / 2, k - 1);
    }
  }

  lemma {:induction false} Pow2Divides(j: nat, k: nat, x: nat)
    requires j <= k && x % Pow2(k) == 0
    ensures x % Pow2(j) == 0
    decreases k - j
  {
    if j < k {
      var q := x / Pow2(k);
      assert x == Pow2(k) * q;
      assert x == (2 * q) * Pow2(k - 1);
      MultipleOf(2 * q, Pow2(k - 1));
      Pow2Divides(j, k - 1, x);
    }
  }

  /** A pointer aligned like an old one keeps every alignment the old one had. */
  lemma AlignmentKept(old': nat, new': nat, k: nat)
    requires old' > 0 && new' % Observed(old') == 0 && old' % Pow2(k) == 0
    ensures new' % Pow2(k) == 0
  {
    ObservedIsPow2(old');
    ObservedDivides(old', k);
    Pow2Divides(k, Level(old'), new');
  }

  // ----- live blocks -----

  ghost predicate Apart(a: nat, n: nat, b: nat, m: nat) { a + n + HEADER <= b || b + m + HEADER <= a }

  /** `sizes` gives the usable size of raw blocks, `users` the raw block of every user pointer, `words` the header,
      tag and offset words in memory. */
  datatype Blocks = Blocks(sizes: map<nat, nat>, users: map<nat, nat>, words: map<nat, nat>)

  function WordAt(words: map<nat, nat>, a: int): nat { if a in words then words[a] else 0 }

  /** find_original_ptr. */
  function Original(words: map<nat, nat>, tag: nat, p: nat): nat {
    if WordAt(words, p - TAG_SIZE) == tag then WordAt(words, p - OFFSET_SIZE) else p
  }

  /** A user pointer lies in its raw block and leads back to it; a raw pointer has no tag in front of it. */
  ghost predicate UserOk(b: Blocks, tag: nat, p: nat) {
    p in b.users ==>
      && b.users[p] in b.sizes && b.users[p] >= HEADER && Original(b.words, tag, p) == b.users[p]
      && (p == b.users[p] ==> WordAt(b.words, p - TAG_SIZE) != tag)
      && (p != b.users[p] ==> b.users[p] + TAG_SIZE <= p <= b.users[p] + b.sizes[b.users[p]])
  }

  ghost predicate PairOk(b: Blocks, r: nat, s: nat) {
    r in b.sizes && s in b.sizes && r != s ==> Apart(r, b.sizes[r], s, b.sizes[s])
  }

  ghost predicate OneUser(b: Blocks, p: nat, q: nat) {
    p in b.users && q in b.users && b.users[p] == b.users[q] ==> p == q
  }

  /** Every user pointer leads to its block, and no block has two users. */
  ghost predicate UsersOk(b: Blocks, tag: nat) { (forall p :: UserOk(b, tag, p)) && (forall p, q :: OneUser(b, p, q)) }

  /** No two blocks meet, headers included. */
  ghost predicate PairsOk(b: Blocks) { forall r, s :: PairOk(b, r, s) }

  /** usable_size. */
  ghost function Usable(b: Blocks, p: nat): nat
    requires p in b.users && b.users[p] in b.sizes
  {
    var r := b.users[p];
    if p - r <= b.sizes[r] then r + b.sizes[r] - p else 0
  }

  /** A new raw block is its own user; `word` is what its header holds. */
  ghost function Allocated(b: Blocks, raw: nat, size: nat, word: nat): Blocks {
    if raw >= HEADER then Blocks(b.sizes[raw := size], b.users[raw := raw], b.words[raw - HEADER := word]) else b
  }

  /** Writing words of one block does not concern the users of others. */
  lemma WordsElsewhere(b: Blocks, tag: nat, p: nat, raw: nat, size: nat, words': map<nat, nat>)
    requires p in b.users && UserOk(b, tag, p) && Apart(raw, size, b.users[p], b.sizes[b.users[p]]) && raw >= HEADER
    requires forall w :: !(raw - HEADER <= w < raw + size) ==> WordAt(words', w) == WordAt(b.words, w)
    ensures Original(words', tag, p) == b.users[p] && WordAt(words', p - TAG_SIZE) == WordAt(b.words, p - TAG_SIZE)
  {
  }

  lemma AllocatedOk(b: Blocks, tag: nat, raw: nat, size: nat, word: nat)
    requires UsersOk(b, tag) && raw >= HEADER && raw !in b.sizes && word != tag && PairsOk(Allocated(b, raw, size, word))
    ensures UsersOk(Allocated(b, raw, size, word), tag) && raw !in b.users
  {
    var b' := Allocated(b, raw, size, word);
    Unused(b, tag, raw, size, word, raw);
    forall p
      ensures UserOk(b', tag, p)
    {
      assert UserOk(b, tag, p);
      if p in b.users {
        assert PairOk(b', raw, b.users[p]);
        WordsElsewhere(b, tag, p, raw, size, b'.words);
      }
    }
    forall p, q
      ensures OneUser(b', p, q)
    {
      assert OneUser(b, p, q) && UserOk(b, tag, p) && UserOk(b, tag, q);
    }
  }

  /** The room of a new block has no user. */
  lemma Unused(b: Blocks, tag: nat, raw: nat, size: nat, word: nat, p: nat)
    requires UsersOk(b, tag) && raw >= HEADER && raw !in b.sizes && PairsOk(Allocated(b, raw, size, word)) && raw <= p <= raw + size
    ensures p !in b.users
  {
    var b' := Allocated(b, raw, size, word);
    assert UserOk(b, tag, p);
    assert p in b.users ==> PairOk(b', raw, b.users[p]);
  }

  /** The user of a raw block becomes an aligned pointer into it, with tag and offset in front. */
  ghost function Realigned(b: Blocks, tag: nat, raw: nat, p: nat): Blocks {
    if p >= TAG_SIZE then Blocks(b.sizes, (b.users - {raw})[p := raw], b.words[p - TAG_SIZE := tag][p - OFFSET_SIZE := raw]) else b
  }

  lemma RealignedOk(b: Blocks, tag: nat, raw: nat, p: nat)
    requires UsersOk(b, tag) && PairsOk(b) && raw in b.users && b.users[raw] == raw && raw in b.sizes
    requires raw + TAG_SIZE <= p <= raw + b.sizes[raw]
    ensures UsersOk(Realigned(b, tag, raw, p), tag)
  {
    var b' := Realigned(b, tag, raw, p);
    assert UserOk(b, tag, raw);
    forall q
      ensures UserOk(b', tag, q)
    {
      assert UserOk(b, tag, q) && OneUser(b, q, raw);
      if q in b.users && q != raw {
        assert PairOk(b, raw, b.users[q]);
        WordsElsewhere(b, tag, q, raw, b.sizes[raw], b'.words);
        assert UserOk(b, tag, p);
      }
    }
    forall q, t
      ensures OneUser(b', q, t)
    {
      assert OneUser(b, q, t) && OneUser(b, q, raw) && OneUser(b, t, raw);
    }
  }

  ghost function Freed(b: Blocks, p: nat): Blocks
    requires p in b.users
  {
    Blocks(b.sizes - {b.users[p]}, b.users - {p}, b.words)
  }

  lemma FreedOk(b: Blocks, tag: nat, p: nat)
    requires UsersOk(b, tag) && p in b.users
    ensures UsersOk(Freed(b, p), tag)
  {
    var b' := Freed(b, p);
    forall q
      ensures UserOk(b', tag, q)
    {
      assert UserOk(b, tag, q) && OneUser(b, p, q);
    }
    forall q, t
      ensures OneUser(b', q, t)
    {
      assert OneUser(b, q, t);
    }
  }

  /** The recorded size of a raw block grows. */
  ghost function Grown(b: Blocks, raw: nat, size: nat): Blocks { b.(sizes := b.sizes[raw := size]) }

  lemma GrownOk(b: Blocks, tag: nat, raw: nat, size: nat)
    requires UsersOk(b, tag) && raw in b.sizes && b.sizes[raw] <= size
    ensures UsersOk(Grown(b, raw, size), tag)
  {
    var b' := Grown(b, raw, size);
    forall q
      ensures UserOk(b', tag, q)
    {
      assert UserOk(b, tag, q);
    }
    forall q, t
      ensures OneUser(b', q, t)
    {
      assert OneUser(b, q, t);
    }
  }

  /** The user `p` became the user `q`; every other user has the block it had. */
  ghost predicate Instead(was: Blocks, now: Blocks, p: nat, q: nat) {
    && q in now.users && now.users[q] in now.sizes && (q == p || q !in was.users) && now.users.Keys == was.users.Keys - {p} + {q}
    && forall x :: x in was.users && x != p ==> x in now.users && now.users[x] == was.users[x]
  }

  lemma MovedPlain(b: Blocks, tag: nat, p: nat, q: nat, size: nat, word: nat)
    requires UsersOk(b, tag) && p in b.users && q >= HEADER && q !in b.sizes && q !in b.users
    ensures
      var b1 := Allocated(b, q, size, word);
      && b.users[p] in b.sizes && p != q && p in b1.users && b1.users[p] == b.users[p] && b1.users[p] in b1.sizes && Usable(b1, p) == Usable(b, p)
      && q in b1.users && b1.users[q] == q && q in b1.sizes && Usable(b1, q) == size
      && Instead(b, Freed(b1, p), p, q) && Usable(Freed(b1, p), q) == size
  {
    assert UserOk(b, tag, p);
  }

  lemma MovedAligned(b: Blocks, tag: nat, p: nat, raw: nat, q: nat, size: nat, word: nat)
    requires UsersOk(b, tag) && p in b.users && raw >= HEADER && raw !in b.sizes && raw !in b.users && q !in b.users
    requires raw + TAG_SIZE <= q <= raw + size
    ensures
      var b1 := Realigned(Allocated(b, raw, size, word), tag, raw, q);
      && b.users[p] in b.sizes && p != q && p in b1.users && b1.users[p] == b.users[p] && b1.users[p] in b1.sizes && Usable(b1, p) == Usable(b, p)
      && q in b1.users && b1.users[q] == raw && raw in b1.sizes && Usable(b1, q) == raw + size - q
      && Instead(b, Freed(b1, p), p, q) && Usable(Freed(b1, p), q) == raw + size - q
  {
    assert UserOk(b, tag, p);
  }

  // ----- sizes and bytes -----

  predicate PowerOfTwo(a: nat) { a == 1 || (a > 0 && a % 2 == 0 && PowerOfTwo(a / 2)) }

  lemma {:induction false} Pow2IsPower(k: nat)
    ensures PowerOfTwo(Pow2(k))
  {
    if k > 0 {
      Pow2IsPower(k - 1);
    }
  }

  /** The test is exact: it accepts the powers of two and nothing else. */
  lemma {:induction false} PowersAccepted(a: nat)
    ensures PowerOfTwo(a) <==> exists k: nat :: a == Pow2(k)
  {
    if PowerOfTwo(a) {
      if a == 1 {
        assert a == Pow2(0);
      } else {
        PowersAccepted(a / 2);
        var k: nat :| a / 2 == Pow2(k);
        assert a == Pow2(k + 1);
      }
    } else if exists k: nat :: a == Pow2(k) {
      var k: nat :| a == Pow2(k);
      Pow2IsPower(k);
    }
  }

  type Bytes = map<nat, nat>

  function ByteAt(bytes: Bytes, a: nat): nat { if a in bytes then bytes[a] else 0 }

  ghost function Nth(bytes: Bytes, a: nat, i: nat): nat { ByteAt(bytes, a + i) }

  /** The first `n` bytes at `a` and at `b` are the same. */
  ghost predicate SameBytes(now: Bytes, a: nat, was: Bytes, b: nat, n: nat) {
    forall i: nat :: i < n ==> Nth(now, a, i) == Nth(was, b, i)
  }

  /** Nothing outside the range changed. */
  ghost predicate OnlyAt(now: Bytes, was: Bytes, a: nat, n: nat) {
    forall x: nat :: x < a || x >= a + n ==> ByteAt(now, x) == ByteAt(was, x)
  }

  lemma OneMore(now: Bytes, was: Bytes, from: nat, to: nat, k: nat, n: nat)
    requires k < n && (from + n <= to || to + n <= from) && SameBytes(now, to, was, from, k) && OnlyAt(now, was, to, k)
    ensures
      var now' := now[to + k := ByteAt(now, from + k)];
      SameBytes(now', to, was, from, k + 1) && OnlyAt(now', was, to, k + 1)
  {
    var now' := now[to + k := ByteAt(now, from + k)];
    forall i: nat | i < k + 1
      ensures Nth(now', to, i) == Nth(was, from, i)
    {
      assert i < k ==> Nth(now, to, i) == Nth(was, from, i);
    }
  }

  lemma NothingYet(bytes: Bytes, from: nat, to: nat)
    ensures SameBytes(bytes, to, bytes, from, 0) && OnlyAt(bytes, bytes, to, 0)
  {
  }

  /** What two users can use does not overlap. */
  lemma PayloadsApart(b: Blocks, tag: nat, p: nat, q: nat)
    requires UsersOk(b, tag) && PairsOk(b) && p in b.users && q in b.users && p != q
    ensures b.users[p] in b.sizes && b.users[q] in b.sizes && b.users[p] != b.users[q]
    ensures p + Usable(b, p) <= q || q + Usable(b, q) <= p
  {
    assert UserOk(b, tag, p) && UserOk(b, tag, q) && OneUser(b, p, q);
    assert PairOk(b, b.users[p], b.users[q]);
  }

  lemma ObservedSelf(p: nat)
    requires p > 0
    ensures p % Observed(p) == 0
  {
    ObservedIsPow2(p);
    SelfDivides(p);
  }

  lemma {:induction false} SelfDivides(p: nat)
    requires p > 0
    ensures p % Pow2(Level(p)) == 0
  {
    if p % 2 == 0 {
      SelfDivides(p / 2);
      var q := (p / 2) / Pow2(Level(p / 2));
      assert p / 2 == Pow2(Level(p / 2)) * q;
      assert p == q * Pow2(Level(p));
      MultipleOf(q, Pow2(Level(p)));
    }
  }

  /** The alignment asked for is always accepted. */
  lemma PowerOrEight(p: nat)
    requires p > 0
    ensures PowerOfTwo(Max(Observed(p), 8))
  {
    hide PowerOfTwo;
    ObservedIsPow2(p);
    Pow2IsPower(Level(p));
    Pow2IsPower(3);
    assert Pow2(3) == 8;
  }

  /** At least the observed alignment. */
  lemma ObservedOrEight(p: nat, x: nat)
    requires p > 0 && x % Max(Observed(p), 8) == 0
    ensures x % Observed(p) == 0
  {
    ObservedIsPow2(p);
    if Observed(p) < 8 {
      assert Pow2(3) == 8;
      if Level(p) > 3 {
        Pow2Grows(3, Level(p));
      }
      Pow2Divides(Level(p), 3, x);
    }
  }
}
