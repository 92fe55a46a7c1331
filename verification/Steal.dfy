/** Work stealing from the transfer lists of one size class, with no other operation running. */
module Steal {
  import opened Options
  import opened Numbers
  import opened Topology
  import opened WordBits

  /** `xs` came off the front of list `c`; the other lists are as before. */
  ghost predicate TakenFrom(before: seq<seq<nat>>, after: seq<seq<nat>>, c: nat, xs: seq<nat>) {
    c < |before| == |after| && xs != [] && after == before[c := after[c]] && xs + after[c] == before[c]
  }

  /** The bit is on and its CPU lies between `start` and `end`. */
  ghost predicate Selected(word: bv64, w: nat, start: nat, end: nat, b: nat)
    requires b < 64
  {
    Has(word, b) && (w == start / 64 ==> start % 64 <= b) && (w == end / 64 ==> b <= end % 64)
  }

  /** The word cut to the range, by the masks of the program. */
  function WordMasked(word: bv64, w: nat, start: nat, end: nat): bv64 {
    var bits := if w == start / 64 then And(word, Low(start % 64)) else word;
    if w == end / 64 then And(bits, High(end % 64)) else bits
  }

  /** The masks select exactly the CPUs of the range. */
  lemma MaskedSelects(word: bv64, w: nat, start: nat, end: nat)
    ensures forall b: nat :: b < 64 ==> (Has(WordMasked(word, w, start, end), b) <==> Selected(word, w, start, end, b))
  {
    hide Has, And, Low, High;
    forall b: nat | b < 64
      ensures Has(WordMasked(word, w, start, end), b) <==> Selected(word, w, start, end, b)
    {
      AndHas(word, Low(start % 64), b);
      LowHas(start % 64, b);
      var bits := if w == start / 64 then And(word, Low(start % 64)) else word;
      AndHas(bits, High(end % 64), b);
      HighHas(end % 64, b);
    }
  }

  /** The range from 1 to 0 of a node without CPUs selects nothing. */
  lemma SentinelSelects(word: bv64)
    ensures WordMasked(word, 0, 1, 0) == 0
  {
    hide Has, WordMasked;
    MaskedSelects(word, 0, 1, 0);
    EmptyIsZero(WordMasked(word, 0, 1, 0));
  }

  lemma SameBit(word: bv64, was: bv64, b: nat)
    requires b < 64
    ensures (b in Bits(word) <==> Has(word, b)) && (b in Bits(was) <==> Has(was, b))
  {
  }

  lemma NoneIsEmpty()
    ensures Bits(0) == {}
  {
    forall b: nat | b < 64
      ensures !Has(0, b)
    {
      NoBits(b);
    }
  }

  lemma Smaller(s: set<nat>, b: nat)
    requires b in s
    ensures |s - {b}| < |s|
  {
  }

  /** The lists and the words of all CPUs at one moment. */
  datatype Snap = Snap(normal: seq<seq<nat>>, trimmed: seq<seq<nat>>, hints: seq<bv64>, stolen: seq<bv64>)

  ghost predicate HasBlocks(s: Snap, c: nat) { c < |s.normal| == |s.trimmed| && (s.normal[c] != [] || s.trimmed[c] != []) }

  /** cpu_word_bit: the bit of a CPU. */
  predicate Marked(words: seq<bv64>, c: nat) { c / 64 < |words| && Has(words[c / 64], c % 64) }

  /** The CPU has blocks, and its hint says so. */
  ghost predicate Offers(s: Snap, c: nat) { HasBlocks(s, c) && Marked(s.hints, c) }

  /** A CPU of the range, other than `cpu`, that a thief can take from. */
  ghost predicate Candidate(s: Snap, cpu: nat, start: nat, end: nat, c: nat) { Offers(s, c) && start <= c <= end && c != cpu }

  ghost predicate Barren(s: Snap, cpu: nat, start: nat, end: nat) { forall c: nat :: !Candidate(s, cpu, start, end, c) }

  /** Words of 64 CPUs are searched upwards; in each, CPUs that nobody is stealing from come first. */
  ghost predicate Before(s: Snap, d: nat, c: nat) {
    || d / 64 < c / 64
    || (d / 64 == c / 64 && (if Marked(s.stolen, d) == Marked(s.stolen, c) then d < c else Marked(s.stolen, c)))
  }

  /** The first candidate of the range in that order. */
  ghost predicate Chosen(s: Snap, cpu: nat, start: nat, end: nat, c: nat) {
    Candidate(s, cpu, start, end, c) && forall d: nat :: Candidate(s, cpu, start, end, d) ==> !Before(s, d, c)
  }

  /** A search that found nothing so far: no list has changed, no hint or mark was set, and those of CPUs with blocks
      are as before. */
  ghost predicate Undisturbed(s: Snap, s': Snap) {
    && s'.normal == s.normal && s'.trimmed == s.trimmed && |s'.hints| == |s.hints| && |s'.stolen| == |s.stolen|
    && (forall c: nat :: Marked(s'.hints, c) ==> Marked(s.hints, c))
    && (forall c: nat :: Marked(s'.stolen, c) ==> Marked(s.stolen, c))
    && (forall c: nat :: HasBlocks(s, c) ==> Marked(s'.hints, c) == Marked(s.hints, c) && Marked(s'.stolen, c) == Marked(s.stolen, c))
  }

  lemma UndisturbedAgain(s: Snap, s': Snap, s'': Snap)
    requires Undisturbed(s, s') && Undisturbed(s', s'')
    ensures Undisturbed(s, s'')
  {
    hide Marked;
    forall c: nat | HasBlocks(s, c)
      ensures Marked(s''.hints, c) == Marked(s.hints, c) && Marked(s''.stolen, c) == Marked(s.stolen, c)
    {
      assert HasBlocks(s', c);
    }
  }

  lemma SameCandidates(s: Snap, s': Snap, cpu: nat, start: nat, end: nat)
    requires Undisturbed(s, s')
    ensures forall c: nat :: Candidate(s', cpu, start, end, c) <==> Candidate(s, cpu, start, end, c)
    ensures forall c: nat :: Chosen(s', cpu, start, end, c) <==> Chosen(s, cpu, start, end, c)
  {
    hide Marked;
    forall c: nat
      ensures Candidate(s', cpu, start, end, c) <==> Candidate(s, cpu, start, end, c)
    {
      assert HasBlocks(s', c) <==> HasBlocks(s, c);
    }
    forall c: nat
      ensures Chosen(s', cpu, start, end, c) <==> Chosen(s, cpu, start, end, c)
    {
      forall d: nat | HasBlocks(s, c) && HasBlocks(s, d)
        ensures Before(s', d, c) <==> Before(s, d, c)
      {
      }
    }
  }

  /** What a steal that succeeds leaves: the first `batch` blocks of the normal list of `c`, or of the trimmed one if that
      is empty, are gone, all of them if there were fewer; no mark was set. */
  ghost predicate Stole(s: Snap, s': Snap, c: nat, batch: nat, xs: seq<nat>) {
    && HasBlocks(s, c) && |s'.stolen| == |s.stolen| && (forall d: nat :: Marked(s'.stolen, d) ==> Marked(s.stolen, d))
    && if s.normal[c] != []
       then TakenFrom(s.normal, s'.normal, c, xs) && s'.trimmed == s.trimmed && |xs| == Min(batch, |s.normal[c]|)
       else s'.normal == s.normal && TakenFrom(s.trimmed, s'.trimmed, c, xs) && |xs| == Min(batch, |s.trimmed[c]|)
  }

  lemma StoleLater(s: Snap, s': Snap, s'': Snap, c: nat, batch: nat, xs: seq<nat>)
    requires Undisturbed(s, s') && Stole(s', s'', c, batch, xs)
    ensures Stole(s, s'', c, batch, xs)
  {
    hide Marked;
  }

  class Transfer {
    var normal: seq<seq<nat>>
    var trimmed: seq<seq<nat>>
    /** A bit per CPU, in words of 64. */
    var hints: seq<bv64>
    var stolen: seq<bv64>

    const ncpu: nat

    constructor (ncpu: nat)
      ensures this.ncpu == ncpu && Valid() && forall c :: 0 <= c < ncpu ==> normal[c] == [] && trimmed[c] == []
    {
      this.ncpu := ncpu;
      normal, trimmed := seq(ncpu, _ => []), seq(ncpu, _ => []);
      hints, stolen := seq(ncpu / 64 + 1, _ => 0), seq(ncpu / 64 + 1, _ => 0);
      new;
      forall b: nat | b < 64
        ensures !Has(0, b)
      {
        NoBits(b);
      }
    }

    ghost function Now(): Snap
      reads this
    {
      Snap(normal, trimmed, hints, stolen)
    }

    ghost predicate Shaped()
      reads this
    {
      |normal| == ncpu && |trimmed| == ncpu && |hints| == ncpu / 64 + 1 && |stolen| == ncpu / 64 + 1
      && forall w: nat, b: nat :: w < |hints| && b < 64 && Has(hints[w], b) ==> 64 * w + b < ncpu
    }

    /** A normal list that is not empty is hinted. */
    ghost predicate Valid()
      reads this
    {
      Shaped() && forall c: nat :: c < ncpu && normal[c] != [] ==> Marked(hints, c)
    }

    /** The bits of the other CPUs are as before. */
    ghost predicate OthersKept(words: seq<bv64>, words': seq<bv64>, c: nat) {
      |words'| == |words| == ncpu / 64 + 1 && forall d: nat :: d != c ==> (Marked(words', d) <==> Marked(words, d))
    }

    /** fetch_or or fetch_and with the bit of one CPU. */
    lemma OneBit(words: seq<bv64>, c: nat, val: bool)
      requires |words| == ncpu / 64 + 1 && c < ncpu
      ensures
        var word := words[c / 64];
        var words' := words[c / 64 := if val then Or(word, One(c % 64)) else And(word, Not(One(c % 64)))];
        OthersKept(words, words', c) && (Marked(words', c) <==> val)
      ensures forall b: nat :: b < 64 && Has(And(words[c / 64], Not(One(c % 64))), b) ==> Has(words[c / 64], b)
    {
      hide Has, One, Or, And, Not;
      var word, bit := words[c / 64], One(c % 64);
      OrBits(word, bit);
      AndNotBits(word, bit);
      OneBits(c % 64);
      var words' := words[c / 64 := if val then Or(word, bit) else And(word, Not(bit))];
      forall d: nat
        ensures Marked(words', d) <==> if d == c then val else Marked(words, d)
      {
        assert d / 64 == c / 64 && d != c ==> d % 64 != c % 64;
        if d / 64 < |words| {
          SameBit(words'[d / 64], words[d / 64], d % 64);
        }
      }
      forall b: nat | b < 64 && Has(And(word, Not(bit)), b)
        ensures Has(word, b)
      {
        SameBit(And(word, Not(bit)), word, b);
      }
    }

    /** cpu_bit_clear. */
    method ClearHint(c: nat)
      requires Shaped() && c < ncpu
      modifies this`hints
      ensures Shaped() && !Marked(hints, c) && OthersKept(old(hints), hints, c)
    {
      hide Has, One, And, Not;
      OneBit(hints, c, false);
      if Marked(hints, c) {
        hints := hints[c / 64 := And(hints[c / 64], Not(One(c % 64)))];
      }
    }

    /** transfer_pop_batch without interference: the first blocks of the normal list, else of the trimmed one.  The hint
        goes out when the list that was popped is empty. */
    method PopBatch(c: nat, batch: nat) returns (r: Option<seq<nat>>)
      requires Valid() && c < ncpu && batch > 0
      modifies this`normal, this`trimmed, this`hints
      ensures Valid() && OthersKept(old(hints), hints, c)
      ensures Marked(hints, c) <==> old(Marked(hints, c)) && (if old(normal[c]) != [] then normal[c] != [] else trimmed[c] != [])
      ensures r.Some? <==> old(HasBlocks(Now(), c))
      ensures r.None? ==> normal == old(normal) && trimmed == old(trimmed)
      ensures r.Some? ==> Stole(old(Now()), Now(), c, batch, r.value)
    {
      hide Has;
      if normal[c] != [] {
        var k := Min(batch, |normal[c]|);
        r := Some(normal[c][..k]);
        assert normal[c][..k] + normal[c][k..] == normal[c];
        normal := normal[c := normal[c][k..]];
        if normal[c] == [] {
          ClearHint(c);
        }
      } else if trimmed[c] != [] {
        var k := Min(batch, |trimmed[c]|);
        r := Some(trimmed[c][..k]);
        assert trimmed[c][..k] + trimmed[c][k..] == trimmed[c];
        trimmed := trimmed[c := trimmed[c][k..]];
        if trimmed[c] == [] {
          ClearHint(c);
        }
      } else {
        ClearHint(c);
        r := None;
      }
    }

    /** cpu_try_marking; the answer is whether the mark was clear. */
    method TryMark(c: nat) returns (ok: bool)
      requires Shaped() && c < ncpu
      modifies this`stolen
      ensures Shaped() && Marked(stolen, c) && OthersKept(old(stolen), stolen, c) && (ok <==> !old(Marked(stolen, c)))
    {
      hide Has, One, Or, And, Not;
      OneBit(stolen, c, true);
      if Marked(stolen, c) {
        return false;
      }
      stolen := stolen[c / 64 := Or(stolen[c / 64], One(c % 64))];
      return true;
    }

    method Unmark(c: nat)
      requires Shaped() && c < ncpu
      modifies this`stolen
      ensures Shaped() && !Marked(stolen, c) && OthersKept(old(stolen), stolen, c)
    {
      hide Has, One, And, Not;
      OneBit(stolen, c, false);
      if Marked(stolen, c) {
        stolen := stolen[c / 64 := And(stolen[c / 64], Not(One(c % 64)))];
      }
    }

    /** A victim that another thread is stealing from is left alone unless the pass forces. */
    method TryVictim(victim: nat, batch: nat, force: bool) returns (r: Option<seq<nat>>)
      requires Valid() && victim < ncpu && batch > 0
      modifies this
      ensures Valid()
      ensures r.Some? <==> old(HasBlocks(Now(), victim)) && (force || !old(Marked(stolen, victim)))
      ensures r.None? ==> Undisturbed(old(Now()), Now())
      ensures r.Some? ==> Stole(old(Now()), Now(), victim, batch, r.value)
    {
      hide Has, Marked;
      var marked := TryMark(victim);
      if !marked && !force {
        return None;
      }
      r := PopBatch(victim, batch);
      Unmark(victim);
    }

    /** A selected CPU of a word that this pass tries. */
    ghost predicate Tries(s: Snap, w: nat, cpu: nat, start: nat, end: nat, force: bool, c: nat) {
      c / 64 == w && Candidate(s, cpu, start, end, c) && (force || !Marked(s.stolen, c))
    }

    /** One pass over one word takes from the lowest CPU that it may take from. */
    method ScanWord(w: nat, cpu: nat, batch: nat, start: nat, end: nat, force: bool) returns (r: Option<seq<nat>>, ghost c: nat)
      requires Valid() && start / 64 <= w <= end / 64 < |hints| && batch > 0
      modifies this
      ensures Valid()
      ensures r.None? ==> Undisturbed(old(Now()), Now()) && forall d: nat :: !Tries(old(Now()), w, cpu, start, end, force, d)
      ensures r.Some? ==> Stole(old(Now()), Now(), c, batch, r.value) && Tries(old(Now()), w, cpu, start, end, force, c)
      ensures r.Some? ==> forall d: nat :: Tries(old(Now()), w, cpu, start, end, force, d) ==> c <= d
    {
      hide Has, And, Less, WordMasked, Marked, Undisturbed, Stole;
      var bits := WordMasked(hints[w], w, start, end);
      ghost var all, before := Bits(bits), Now();
      Selection(before, w, cpu, start, end, bits);
      HintsInside();
      NoneIsEmpty();
      SelfUndisturbed(before);
      while bits != 0
        invariant Valid() && Undisturbed(before, Now()) && Bits(bits) <= all && forall b :: b in all ==> 64 * w + b < ncpu
        invariant forall d: nat :: Tries(before, w, cpu, start, end, force, d) ==> d % 64 in Bits(bits)
        decreases |Bits(bits)|
      {
        var bit := TrailingZeros(bits);
        LowestBit(bits);
        Smaller(Bits(bits), bit);
        var victim := 64 * w + bit;
        ghost var now := Now();
        Facts(before, now, victim);
        forall d: nat | Tries(before, w, cpu, start, end, force, d)
          ensures victim <= d
        {
          LowestLeast(bits, d % 64);
        }
        bits := And(bits, Less(bits));
        if victim == cpu {
          continue;
        }
        r := TryVictim(victim, batch, force);
        if r.Some? {
          StoleLater(before, now, Now(), victim, batch, r.value);
          return r, victim;
        }
        UndisturbedAgain(before, now, Now());
      }
      r, c := None, 0;
    }

    /** The masked word has the bits of the hinted CPUs of the range. */
    lemma Selection(s: Snap, w: nat, cpu: nat, start: nat, end: nat, bits: bv64)
      requires start / 64 <= w <= end / 64 < |s.hints| && bits == WordMasked(s.hints[w], w, start, end)
      ensures forall b: nat :: b in Bits(bits) <==> b < 64 && Marked(s.hints, 64 * w + b) && start <= 64 * w + b <= end
    {
      hide Has, WordMasked;
      MaskedSelects(s.hints[w], w, start, end);
      forall b: nat | b < 64
        ensures b in Bits(bits) <==> Marked(s.hints, 64 * w + b) && start <= 64 * w + b <= end
      {
        assert (64 * w + b) / 64 == w && (64 * w + b) % 64 == b;
        assert Has(bits, b) <==> Selected(s.hints[w], w, start, end, b);
      }
    }

    lemma HintsInside()
      requires Shaped()
      ensures forall c: nat :: Marked(hints, c) ==> c < ncpu
    {
      hide Has;
      forall c: nat | Marked(hints, c)
        ensures c < ncpu
      {
        assert c == 64 * (c / 64) + c % 64;
      }
    }

    lemma SelfUndisturbed(s: Snap)
      ensures Undisturbed(s, s)
    {
    }

    lemma Facts(s: Snap, s': Snap, c: nat)
      requires Undisturbed(s, s')
      ensures s'.normal == s.normal && s'.trimmed == s.trimmed && (HasBlocks(s', c) <==> HasBlocks(s, c))
      ensures HasBlocks(s, c) ==> (Marked(s'.stolen, c) <==> Marked(s.stolen, c))
    {
      hide Marked;
    }

    /** first_nonempty_cpu_in_range: the first CPU of the range that can be taken from; nothing exactly if there is none. */
    method FirstInRange(cpu: nat, batch: nat, start: nat, end: nat) returns (r: Option<seq<nat>>, ghost c: nat)
      requires Valid() && batch > 0 && end / 64 < |hints|
      modifies this
      ensures Valid()
      ensures r.None? ==> Undisturbed(old(Now()), Now()) && Barren(old(Now()), cpu, start, end)
      ensures r.Some? ==> Stole(old(Now()), Now(), c, batch, r.value) && Chosen(old(Now()), cpu, start, end, c)
    {
      hide Has, Marked, Undisturbed, Stole, Candidate, Tries;
      ghost var before := Now();
      SelfUndisturbed(before);
      forall d: nat
        ensures Candidate(before, cpu, start, end, d) ==> start / 64 <= d / 64 <= end / 64
      {
        InWords(before, cpu, start, end, d);
      }
      var w := start / 64;
      while w <= end / 64
        invariant Valid() && Undisturbed(before, Now()) && w >= start / 64
        invariant forall d: nat :: Candidate(before, cpu, start, end, d) ==> w <= d / 64
      {
        ghost var now := Now();
        r, c := ScanWord(w, cpu, batch, start, end, false);
        if r.Some? {
          FirstPass(before, now, w, cpu, start, end, c);
          StoleLater(before, now, Now(), c, batch, r.value);
          return;
        }
        UndisturbedAgain(before, now, Now());
        ghost var mid := Now();
        r, c := ScanWord(w, cpu, batch, start, end, true);
        if r.Some? {
          SecondPass(before, now, mid, w, cpu, start, end, c);
          StoleLater(before, mid, Now(), c, batch, r.value);
          return;
        }
        UndisturbedAgain(before, mid, Now());
        NoneInWord(before, mid, w, cpu, start, end);
        w := w + 1;
      }
      r, c := None, 0;
    }

    lemma InWords(s: Snap, cpu: nat, start: nat, end: nat, d: nat)
      ensures Candidate(s, cpu, start, end, d) ==> start / 64 <= d / 64 <= end / 64
    {
    }

    lemma FirstPass(before: Snap, now: Snap, w: nat, cpu: nat, start: nat, end: nat, c: nat)
      requires Undisturbed(before, now) && Tries(now, w, cpu, start, end, false, c)
      requires forall d: nat :: Tries(now, w, cpu, start, end, false, d) ==> c <= d
      requires forall d: nat :: Candidate(before, cpu, start, end, d) ==> w <= d / 64
      ensures Chosen(before, cpu, start, end, c)
    {
      hide Undisturbed, Marked;
      SameCandidates(before, now, cpu, start, end);
      forall d: nat | Candidate(before, cpu, start, end, d)
        ensures !Before(before, d, c)
      {
        Facts(before, now, c);
        Facts(before, now, d);
        assert d / 64 == w && !Marked(now.stolen, d) ==> Tries(now, w, cpu, start, end, false, d);
      }
    }

    lemma SecondPass(before: Snap, now: Snap, mid: Snap, w: nat, cpu: nat, start: nat, end: nat, c: nat)
      requires Undisturbed(before, now) && Undisturbed(before, mid) && Tries(mid, w, cpu, start, end, true, c)
      requires forall d: nat :: Tries(mid, w, cpu, start, end, true, d) ==> c <= d
      requires forall d: nat :: !Tries(now, w, cpu, start, end, false, d)
      requires forall d: nat :: Candidate(before, cpu, start, end, d) ==> w <= d / 64
      ensures Chosen(before, cpu, start, end, c)
    {
      hide Undisturbed, Marked;
      SameCandidates(before, now, cpu, start, end);
      SameCandidates(before, mid, cpu, start, end);
      forall d: nat | Candidate(before, cpu, start, end, d)
        ensures !Before(before, d, c)
      {
        Facts(before, now, c);
        Facts(before, now, d);
        assert d / 64 == w ==> Tries(mid, w, cpu, start, end, true, d);
        assert !Tries(now, w, cpu, start, end, false, d) && !Tries(now, w, cpu, start, end, false, c);
      }
    }

    lemma NoneInWord(before: Snap, mid: Snap, w: nat, cpu: nat, start: nat, end: nat)
      requires Undisturbed(before, mid) && forall d: nat :: !Tries(mid, w, cpu, start, end, true, d)
      requires forall d: nat :: Candidate(before, cpu, start, end, d) ==> w <= d / 64
      ensures forall d: nat :: Candidate(before, cpu, start, end, d) ==> w + 1 <= d / 64
    {
      hide Undisturbed, Marked;
      SameCandidates(before, mid, cpu, start, end);
      forall d: nat | Candidate(before, cpu, start, end, d)
        ensures w + 1 <= d / 64
      {
        assert !Tries(mid, w, cpu, start, end, true, d);
      }
    }

    /** A topology: the node of each CPU, and ranges that span the CPUs of each node. */
    ghost predicate Describes(nodes: seq<nat>, ranges: seq<CpuRange>)
    {
      && |nodes| == ncpu
      && (forall c :: 0 <= c < ncpu ==> nodes[c] < |ranges|)
      && (forall k :: 0 <= k < |ranges| ==> Spans(nodes, ncpu, k, ranges[k], CpuRange(1, 0)))
    }

    lemma RangeBounds(nodes: seq<nat>, ranges: seq<CpuRange>, k: nat)
      requires Describes(nodes, ranges) && k < |ranges| && ncpu > 0
      ensures 0 <= ranges[k].start && 0 <= ranges[k].end < ncpu
    {
      assert Spans(nodes, ncpu, k, ranges[k], CpuRange(1, 0));
    }

    /** The range of the node that is visited in turn `i`. */
    ghost predicate BarrenTurn(s: Snap, cpu: nat, ranges: seq<CpuRange>, node: nat, i: nat) {
      |ranges| > 0 &&
      var range := ranges[Turn(i, node, |ranges|)];
      range.start >= 0 && range.end >= 0 && Barren(s, cpu, range.start, range.end)
    }

    ghost predicate ChosenTurn(s: Snap, cpu: nat, ranges: seq<CpuRange>, node: nat, i: nat, c: nat) {
      |ranges| > 0 &&
      var range := ranges[Turn(i, node, |ranges|)];
      range.start >= 0 && range.end >= 0 && Chosen(s, cpu, range.start, range.end, c)
    }

    /** The first node in turn with a CPU to take from, and the CPU taken from there. */
    ghost predicate ChosenRound(s: Snap, cpu: nat, ranges: seq<CpuRange>, node: nat, i: nat, c: nat) {
      && 1 <= i < |ranges| && ChosenTurn(s, cpu, ranges, node, i, c)
      && forall j: nat :: 1 <= j < i ==> BarrenTurn(s, cpu, ranges, node, j)
    }

    /** slowest_numa_steal_path: the other nodes, round robin, up to the first with a CPU to take from. */
    method OtherNodes(cpu: nat, batch: nat, node: nat, nodes: seq<nat>, ranges: seq<CpuRange>)
      returns (r: Option<seq<nat>>, ghost c: nat, ghost i: nat)
      requires Valid() && batch > 0 && cpu < ncpu && Describes(nodes, ranges) && node < |ranges|
      modifies this
      ensures Valid()
      ensures r.None? ==> Undisturbed(old(Now()), Now()) && forall j: nat :: 1 <= j < |ranges| ==> BarrenTurn(old(Now()), cpu, ranges, node, j)
      ensures r.Some? ==> Stole(old(Now()), Now(), c, batch, r.value) && ChosenRound(old(Now()), cpu, ranges, node, i, c)
    {
      hide Has, Undisturbed, Stole, Chosen, Candidate, Turn;
      ghost var before := Now();
      SelfUndisturbed(before);
      var turn := 1;
      while turn < |ranges|
        invariant Valid() && Undisturbed(before, Now()) && turn >= 1
        invariant forall j: nat :: 1 <= j < turn ==> BarrenTurn(before, cpu, ranges, node, j)
      {
        var k := Turn(turn, node, |ranges|);
        RangeBounds(nodes, ranges, k);
        ghost var now := Now();
        r, c := FirstInRange(cpu, batch, ranges[k].start, ranges[k].end);
        SameCandidates(before, now, cpu, ranges[k].start, ranges[k].end);
        if r.Some? {
          StoleLater(before, now, Now(), c, batch, r.value);
          return r, c, turn;
        }
        UndisturbedAgain(before, now, Now());
        turn := turn + 1;
      }
      r, c, i := None, 0, 0;
    }

    /** The CPU that pop_slow takes from: the first of the own node, else of the first node in turn; without NUMA all CPUs
        are one range. */
    ghost predicate SlowSource(s: Snap, cpu: nat, numa: bool, nodes: seq<nat>, ranges: seq<CpuRange>, c: nat)
      requires cpu < ncpu && (numa ==> Describes(nodes, ranges))
    {
      if !numa then Chosen(s, cpu, 0, ncpu - 1, c)
      else || ChosenTurn(s, cpu, ranges, nodes[cpu], 0, c)
           || (BarrenTurn(s, cpu, ranges, nodes[cpu], 0) && exists i: nat :: ChosenRound(s, cpu, ranges, nodes[cpu], i, c))
    }

    lemma SourceOffers(s: Snap, cpu: nat, numa: bool, nodes: seq<nat>, ranges: seq<CpuRange>, c: nat)
      requires cpu < ncpu && (numa ==> Describes(nodes, ranges)) && SlowSource(s, cpu, numa, nodes, ranges, c)
      ensures Offers(s, c) && c != cpu
    {
      hide Marked, BarrenTurn, Before;
    }

    lemma OwnTurn(nodes: seq<nat>, ranges: seq<CpuRange>, cpu: nat)
      requires cpu < ncpu && Describes(nodes, ranges)
      ensures nodes[cpu] < |ranges| && Turn(0, nodes[cpu], |ranges|) == nodes[cpu]
      ensures 0 <= ranges[nodes[cpu]].start && 0 <= ranges[nodes[cpu]].end < ncpu
    {
      RangeBounds(nodes, ranges, nodes[cpu]);
    }

    /** Nothing to take in any range means that every normal list is empty. */
    lemma AllBarren(s: Snap, cpu: nat, nodes: seq<nat>, ranges: seq<CpuRange>)
      requires cpu < ncpu && Describes(nodes, ranges) && |s.normal| == |s.trimmed| == ncpu && BarrenTurn(s, cpu, ranges, nodes[cpu], 0)
      requires forall j: nat :: 1 <= j < |ranges| ==> BarrenTurn(s, cpu, ranges, nodes[cpu], j)
      ensures forall c: nat :: c != cpu ==> !Offers(s, c)
    {
      hide BarrenTurn, Marked, Describes;
      forall c: nat | c < ncpu && c != cpu
        ensures !Offers(s, c)
      {
        BarrenAt(s, cpu, nodes, ranges, c);
      }
    }

    lemma WholeBarren(s: Snap, cpu: nat)
      requires cpu < ncpu && |s.normal| == |s.trimmed| == ncpu && Barren(s, cpu, 0, ncpu - 1)
      ensures forall c: nat :: c != cpu ==> !Offers(s, c)
    {
      hide Marked;
      forall c: nat | c != cpu
        ensures !Offers(s, c)
      {
        assert !Candidate(s, cpu, 0, ncpu - 1, c);
      }
    }

    lemma BarrenAt(s: Snap, cpu: nat, nodes: seq<nat>, ranges: seq<CpuRange>, c: nat)
      requires cpu < ncpu && Describes(nodes, ranges) && c < ncpu && c != cpu && BarrenTurn(s, cpu, ranges, nodes[cpu], 0)
      requires forall j: nat :: 1 <= j < |ranges| ==> BarrenTurn(s, cpu, ranges, nodes[cpu], j)
      ensures !Offers(s, c)
    {
      hide Marked;
      OwnTurn(nodes, ranges, cpu);
      RangesCover(nodes, ranges, c);
      var i := if nodes[c] == nodes[cpu] then 0 else TurnOf(nodes[cpu], nodes[c], |ranges|);
      assert BarrenTurn(s, cpu, ranges, nodes[cpu], i);
      assert !Candidate(s, cpu, ranges[nodes[c]].start, ranges[nodes[c]].end, c);
    }

    /** The own list was tried and found empty. */
    lemma OwnEmpty(s: Snap, s': Snap, cpu: nat)
      requires s'.normal == s.normal && s'.trimmed == s.trimmed && s'.stolen == s.stolen && OthersKept(s.hints, s'.hints, cpu)
      requires !HasBlocks(s, cpu) && !Marked(s'.hints, cpu)
      ensures Undisturbed(s, s')
    {
      hide Marked;
    }

    lemma Rounds(s: Snap, s': Snap, cpu: nat, ranges: seq<CpuRange>, node: nat)
      requires Undisturbed(s, s')
      ensures forall i: nat :: BarrenTurn(s', cpu, ranges, node, i) <==> BarrenTurn(s, cpu, ranges, node, i)
      ensures forall i: nat, c: nat :: ChosenTurn(s', cpu, ranges, node, i, c) <==> ChosenTurn(s, cpu, ranges, node, i, c)
    {
      hide Undisturbed, Chosen, Candidate;
      if |ranges| > 0 {
        forall i: nat
          ensures BarrenTurn(s', cpu, ranges, node, i) <==> BarrenTurn(s, cpu, ranges, node, i)
        {
          var range := ranges[Turn(i, node, |ranges|)];
          if range.start >= 0 && range.end >= 0 {
            SameCandidates(s, s', cpu, range.start, range.end);
          }
        }
        forall i: nat, c: nat
          ensures ChosenTurn(s', cpu, ranges, node, i, c) <==> ChosenTurn(s, cpu, ranges, node, i, c)
        {
          var range := ranges[Turn(i, node, |ranges|)];
          if range.start >= 0 && range.end >= 0 {
            SameCandidates(s, s', cpu, range.start, range.end);
          }
        }
      }
    }

    method PopSlow(cpu: nat, batch: nat, numa: bool, nodes: seq<nat>, ranges: seq<CpuRange>) returns (r: Option<seq<nat>>, ghost c: nat)
      requires Valid() && batch > 0 && cpu < ncpu && (numa ==> Describes(nodes, ranges))
      modifies this
      ensures Valid()
      ensures r.None? ==> Undisturbed(old(Now()), Now()) && forall d: nat :: d != cpu ==> !Offers(old(Now()), d)
      ensures r.Some? ==> Stole(old(Now()), Now(), c, batch, r.value) && SlowSource(old(Now()), cpu, numa, nodes, ranges, c)
    {
      hide Has, Marked, Undisturbed, Stole, Chosen, Barren, Candidate;
      ghost var before := Now();
      if numa {
        var node := nodes[cpu];
        OwnTurn(nodes, ranges, cpu);
        r, c := FirstInRange(cpu, batch, ranges[node].start, ranges[node].end);
        if r.Some? {
          return;
        }
        ghost var mid := Now();
        ghost var i;
        r, c, i := OtherNodes(cpu, batch, node, nodes, ranges);
        Rounds(before, mid, cpu, ranges, node);
        if r.Some? {
          StoleLater(before, mid, Now(), c, batch, r.value);
          assert BarrenTurn(before, cpu, ranges, node, 0) && ChosenRound(before, cpu, ranges, node, i, c);
          return;
        }
        UndisturbedAgain(before, mid, Now());
        AllBarren(before, cpu, nodes, ranges);
      } else {
        r, c := FirstInRange(cpu, batch, 0, ncpu - 1);
        if r.None? {
          WholeBarren(before, cpu);
        }
      }
    }

    /** try_pop with no concurrent operation: the own CPU first, then the others.  It returns nothing exactly if no CPU
        both has blocks and a hint, hence only if every CPU's normal list is empty, for every map from CPUs to nodes. */
    method TryPop(cpu: nat, batch: nat, numa: bool, nodes: seq<nat>, ranges: seq<CpuRange>) returns (r: Option<seq<nat>>, ghost c: nat)
      requires Valid() && batch > 0 && cpu < ncpu && (numa ==> Describes(nodes, ranges))
      modifies this
      ensures Valid()
      ensures r.None? <==> forall d: nat :: !Offers(old(Now()), d)
      ensures r.None? ==> Undisturbed(old(Now()), Now()) && forall d :: 0 <= d < ncpu ==> normal[d] == []
      ensures r.Some? ==> Stole(old(Now()), Now(), c, batch, r.value)
      ensures r.Some? ==> if old(Offers(Now(), cpu)) then c == cpu else SlowSource(old(Now()), cpu, numa, nodes, ranges, c)
    {
      hide Has, Marked, Undisturbed, Stole, SlowSource;
      ghost var before := Now();
      AllHinted();
      SelfUndisturbed(before);
      if Marked(hints, cpu) {
        r := PopBatch(cpu, batch);
        if r.Some? {
          return r, cpu;
        }
        OwnEmpty(before, Now(), cpu);
      }
      ghost var now := Now();
      r, c := PopSlow(cpu, batch, numa, nodes, ranges);
      SameSources(before, now, cpu, numa, nodes, ranges);
      if r.Some? {
        SourceOffers(before, cpu, numa, nodes, ranges, c);
        StoleLater(before, now, Now(), c, batch, r.value);
        return;
      }
      UndisturbedAgain(before, now, Now());
      Facts(before, Now(), cpu);
    }

    lemma AllHinted()
      requires Valid()
      ensures forall c: nat :: c < ncpu && normal[c] != [] ==> Offers(Now(), c)
    {
    }

    lemma SameSources(s: Snap, s': Snap, cpu: nat, numa: bool, nodes: seq<nat>, ranges: seq<CpuRange>)
      requires Undisturbed(s, s') && cpu < ncpu && (numa ==> Describes(nodes, ranges))
      ensures forall c: nat :: SlowSource(s', cpu, numa, nodes, ranges, c) <==> SlowSource(s, cpu, numa, nodes, ranges, c)
      ensures forall c: nat :: Offers(s', c) <==> Offers(s, c)
    {
      hide Marked, Chosen, ChosenTurn, BarrenTurn;
      SameCandidates(s, s', cpu, 0, ncpu - 1);
      if numa {
        assert nodes[cpu] < |ranges| by { OwnTurn(nodes, ranges, cpu); }
        Rounds(s, s', cpu, ranges, nodes[cpu]);
        forall i: nat, c: nat
          ensures ChosenRound(s', cpu, ranges, nodes[cpu], i, c) <==> ChosenRound(s, cpu, ranges, nodes[cpu], i, c)
        {
        }
      }
      forall c: nat
        ensures Offers(s', c) <==> Offers(s, c)
      {
        assert HasBlocks(s', c) <==> HasBlocks(s, c);
      }
    }
  }
}
