/** Small blocks as slots of slab spans. */
module SlabSlots {
  import opened Layout
  import opened SizeClasses
  import opened ArenaSpace
  import opened SpanGrowth

  /** The block with that index in a span. */
  datatype Slot = Slot(span: nat, index: nat)

  function PayloadOf(c: nat): nat { if c < CLASSES then ClassSize(c) else 0 }

  /** The payload address of a block. */
  function SlotAddr(s: Slot, payload: nat): nat { s.span + METADATA + BlockSize(payload) * s.index + HEADER }

  /** The span belongs to the class and has that many blocks. */
  predicate IsSlot(payloads: map<nat, nat>, s: Slot, payload: nat) {
    s.span in payloads && payloads[s.span] == payload && s.index < SpanBlocks(payload)
  }

  /** A block handed out is a slot of a span of the class in its header. */
  ghost predicate SmallOk(classes: map<nat, nat>, slots: map<nat, Slot>, payloads: map<nat, nat>, raw: nat) {
    raw in classes ==>
      && classes[raw] < CLASSES && raw in slots && IsSlot(payloads, slots[raw], PayloadOf(classes[raw]))
      && raw == SlotAddr(slots[raw], PayloadOf(classes[raw]))
  }

  ghost predicate SmallsOk(classes: map<nat, nat>, slots: map<nat, Slot>, payloads: map<nat, nat>) {
    forall raw :: SmallOk(classes, slots, payloads, raw)
  }

  /** Every span has the extent of its class. */
  ghost predicate ExtentsOk(payloads: map<nat, nat>, space: Space) {
    SpaceOk(space) && forall m :: m in payloads ==> m in space.spans && space.spans[m] == m + SpanPages(payloads[m])
  }

  lemma SpansAre(spans: SlabSpans)
    requires spans.Valid()
    ensures ExtentsOk(spans.payloads, spans.arenas.space)
  {
    SpaceOf(spans.arenas);
    assert forall m :: m in spans.payloads ==> spans.ExtentOk(m);
  }

  lemma Nth(b: nat, i: nat, n: nat)
    requires i < n
    ensures b * i + b <= b * n
  {
    assert b * (i + 1) == b * i + b;
    MulGrows(b, i + 1, n);
  }

  /** A block lies inside its span, behind the metadata. */
  lemma SlotInside(payloads: map<nat, nat>, space: Space, s: Slot, payload: nat)
    requires ExtentsOk(payloads, space) && IsSlot(payloads, s, payload)
    ensures s.span in space.spans && s.span + METADATA + HEADER <= SlotAddr(s, payload)
    ensures SlotAddr(s, payload) + payload <= space.spans[s.span]
  {
    hide SpaceOk, SpanBlocks, BlockSize, SpanPages;
    var b := BlockSize(payload);
    BlockFacts(payload);
    Covers(payload);
    Nth(b, s.index, SpanBlocks(payload));
  }

  lemma SlotAligned(payloads: map<nat, nat>, space: Space, s: Slot, payload: nat)
    requires ExtentsOk(payloads, space) && IsSlot(payloads, s, payload)
    ensures SlotAddr(s, payload) % 16 == 0
  {
    hide SpaceOk, SpanBlocks, BlockSize, SpanPages;
    BlockFacts(payload);
    PageStart(space, s.span);
    Sixteens(s.span / 16, BlockSize(payload) / 16, s.index);
  }

  lemma BlockFacts(payload: nat)
    ensures BlockSize(payload) == 16 * (BlockSize(payload) / 16) && BlockSize(payload) >= payload + HEADER
  {
  }

  /** The pages of a span have room for its blocks. */
  lemma Covers(payload: nat)
    ensures METADATA + BlockSize(payload) * SpanBlocks(payload) <= SpanPages(payload)
  {
    hide SpanBlocks, BlockSize;
  }

  lemma PageStart(space: Space, m: nat)
    requires SpaceOk(space) && m in space.spans
    ensures m % 16 == 0
  {
    assert SpanOk(space, m);
    var q := m / PAGE;
    assert m == PAGE * q;
    assert m == 16 * (256 * q);
    Multiple16(256 * q);
  }

  lemma Sixteens(m: nat, q: nat, i: nat)
    ensures (16 * m + METADATA + (16 * q) * i + HEADER) % 16 == 0
  {
    assert 16 * m + METADATA + (16 * q) * i + HEADER == 16 * (m + q * i + 4);
    Multiple16(m + q * i + 4);
  }

  lemma Multiple16(x: nat)
    ensures (16 * x) % 16 == 0
  {
  }

  /** Two blocks with headers do not meet. */
  lemma SmallsApart(classes: map<nat, nat>, slots: map<nat, Slot>, payloads: map<nat, nat>, space: Space, r: nat, q: nat)
    requires SmallsOk(classes, slots, payloads) && ExtentsOk(payloads, space) && r in classes && q in classes && r < q
    ensures r + PayloadOf(classes[r]) + HEADER <= q
  {
    hide SpaceOk, PayloadOf, SpanBlocks, SmallsOk, ExtentsOk, BlockSize;
    BlockFacts(PayloadOf(classes[r]));
    OneSmall(classes, slots, payloads, r);
    OneSmall(classes, slots, payloads, q);
    var s, t := slots[r], slots[q];
    var n := PayloadOf(classes[r]);
    SlotInside(payloads, space, s, n);
    SlotInside(payloads, space, t, PayloadOf(classes[q]));
    if s.span != t.span {
      SpansOf(payloads, space);
      SpansDisjoint(space, s.span, t.span);
    } else {
      if t.index < s.index {
        Nth(BlockSize(n), t.index, s.index);
      }
      Nth(BlockSize(n), s.index, t.index);
    }
  }

  lemma OneSmall(classes: map<nat, nat>, slots: map<nat, Slot>, payloads: map<nat, nat>, r: nat)
    requires SmallsOk(classes, slots, payloads) && r in classes
    ensures SmallOk(classes, slots, payloads, r)
  {
  }

  lemma SpansOf(payloads: map<nat, nat>, space: Space)
    requires ExtentsOk(payloads, space)
    ensures SpaceOk(space)
  {
  }

  /** A slot that no block in use has. */
  lemma NewSmall(classes: map<nat, nat>, slots: map<nat, Slot>, payloads: map<nat, nat>, space: Space, raw: nat, c: nat, s: Slot)
    requires SmallsOk(classes, slots, payloads) && ExtentsOk(payloads, space) && c < CLASSES && raw !in classes
    requires IsSlot(payloads, s, PayloadOf(c)) && raw == SlotAddr(s, PayloadOf(c))
    ensures SmallsOk(classes[raw := c], slots[raw := s], payloads) && raw >= METADATA + HEADER && raw % 16 == 0
  {
    hide PayloadOf, SpanBlocks, BlockSize;
    SlotInside(payloads, space, s, PayloadOf(c));
    SlotAligned(payloads, space, s, PayloadOf(c));
    var classes', slots' := classes[raw := c], slots[raw := s];
    forall q
      ensures SmallOk(classes', slots', payloads, q)
    {
      assert SmallOk(classes, slots, payloads, q);
    }
  }

  /** The slots of a new span hold no block in use. */
  lemma NewSpanSmalls(classes: map<nat, nat>, slots: map<nat, Slot>, payloads: map<nat, nat>, m: nat, c: nat, space: Space)
    requires SmallsOk(classes, slots, payloads) && m !in payloads && ExtentsOk(payloads[m := PayloadOf(c)], space)
    ensures SmallsOk(classes, slots, payloads[m := PayloadOf(c)])
    ensures forall i: nat :: i < SpanBlocks(PayloadOf(c)) ==> SlotAddr(Slot(m, i), PayloadOf(c)) !in classes
  {
    hide PayloadOf, SpanBlocks, BlockSize, ExtentsOk;
    var payloads' := payloads[m := PayloadOf(c)];
    forall q
      ensures SmallOk(classes, slots, payloads', q)
    {
      assert SmallOk(classes, slots, payloads, q);
    }
    forall i: nat | i < SpanBlocks(PayloadOf(c))
      ensures SlotAddr(Slot(m, i), PayloadOf(c)) !in classes
    {
      var s := Slot(m, i);
      SlotInside(payloads', space, s, PayloadOf(c));
      var raw := SlotAddr(s, PayloadOf(c));
      assert SmallOk(classes, slots, payloads, raw);
      if raw in classes {
        NotThere(classes, slots, payloads', space, raw, s, PayloadOf(c));
      }
    }
  }

  /** A block in use lies in one span only. */
  lemma NotThere(classes: map<nat, nat>, slots: map<nat, Slot>, payloads: map<nat, nat>, space: Space, raw: nat, s: Slot, payload: nat)
    requires SmallsOk(classes, slots, payloads) && ExtentsOk(payloads, space) && IsSlot(payloads, s, payload) && raw == SlotAddr(s, payload)
    requires raw in classes
    ensures raw in slots && slots[raw].span == s.span
  {
    hide PayloadOf, SpanBlocks, BlockSize, ExtentsOk, SmallsOk;
    OneSmall(classes, slots, payloads, raw);
    SlotInside(payloads, space, s, payload);
    SlotInside(payloads, space, slots[raw], PayloadOf(classes[raw]));
    SpansOf(payloads, space);
    if slots[raw].span != s.span {
      SpansDisjoint(space, slots[raw].span, s.span);
    }
  }

  lemma LessSmalls(classes: map<nat, nat>, slots: map<nat, Slot>, payloads: map<nat, nat>, raw: nat)
    requires SmallsOk(classes, slots, payloads)
    ensures SmallsOk(classes - {raw}, slots, payloads)
  {
    var classes' := classes - {raw};
    forall q
      ensures SmallOk(classes', slots, payloads, q)
    {
      assert SmallOk(classes, slots, payloads, q);
    }
  }

  /** A span of one block that grows to a larger class takes its block along and no other. */
  lemma GrownSmalls(classes: map<nat, nat>, slots: map<nat, Slot>, payloads: map<nat, nat>, raw: nat, c: nat)
    requires SmallsOk(classes, slots, payloads) && raw in classes && c < CLASSES
    requires Iterations(PayloadOf(classes[raw])) == 1 && Iterations(PayloadOf(c)) == 1
    ensures raw in slots && slots[raw].span in payloads && payloads[slots[raw].span] == PayloadOf(classes[raw])
    ensures raw == slots[raw].span + METADATA + HEADER
    ensures SmallsOk(classes[raw := c], slots, payloads[slots[raw].span := PayloadOf(c)])
  {
    hide Iterations, PayloadOf, BlockSize;
    OneSmall(classes, slots, payloads, raw);
    SizeClasses.OneBlockSpans(PayloadOf(classes[raw]));
    SizeClasses.OneBlockSpans(PayloadOf(c));
    var m := slots[raw].span;
    var classes', payloads' := classes[raw := c], payloads[m := PayloadOf(c)];
    forall q
      ensures SmallOk(classes', slots, payloads', q)
    {
      assert SmallOk(classes, slots, payloads, q);
    }
  }
}
