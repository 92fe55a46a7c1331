/** What every interleaving of the buddy backend keeps. */
module BuddySafety {
  import opened BuddyTiles
  import opened BuddyLists
  import opened BuddyRegion
  import opened BuddyMachine

  ghost predicate Holds(pc: Pc, a: nat, k: nat) {
    || (pc.Split? && pc.a == a && pc.j == k)
    || ((pc.Freeing? || pc.Placing? || pc.Growing?) && pc.a == a && pc.k == k)
  }

  /** The blocks in transit are exactly those the threads stand with. */
  ghost predicate HandsOk(own: seq<Piece>, threads: seq<Pc>) {
    && (forall x :: 0 <= x < |own| && own[x].holder.Hand? ==>
          own[x].holder.thread < |threads| && Holds(threads[own[x].holder.thread], own[x].start, own[x].order))
    && (forall u: nat, a, k :: u < |threads| && Holds(threads[u], a, k) ==> Has(own, a, k, Hand(u)))
  }

  /** No offset of the block was ever handed out, and no record was ever written inside it, except at its start. */
  ghost predicate Clean(a: nat, k: nat, touched: set<nat>, stamped: set<nat>) {
    forall x :: a <= x < a + Size(k) ==> x !in touched && (x in stamped ==> x == a)
  }

  ghost predicate TagsOk(g: Region, touched: set<nat>, stamped: set<nat>) {
    forall a, k :: Has(g.own, a, k, Free) && RecordAt(g, a).data.trimState == NOT_ALLOCATED ==> Clean(a, k, touched, stamped)
  }

  ghost predicate PcOk(pc: Pc, touched: set<nat>, stamped: set<nat>) {
    && (pc.Scan? || pc.Split? ==> pc.k <= pc.j)
    && (pc.Split? && pc.tag == NOT_ALLOCATED ==> Clean(pc.a, pc.j, touched, stamped))
  }

  ghost predicate Inv(s: State) {
    && RegionOk(s.region) && HandsOk(Own(s), s.threads) && TagsOk(s.region, s.touched, s.stamped)
    && forall u :: 0 <= u < |s.threads| ==> PcOk(s.threads[u], s.touched, s.stamped)
  }

  // ----- hands -----

  ghost predicate Near(h: Holder, u: nat) { h == Free || h == Live || h == Hand(u) }

  /** Thread `u` recuts a range in which no other thread holds anything. */
  lemma HandsMove(own: seq<Piece>, own': seq<Piece>, threads: seq<Pc>, u: nat, pc: Pc, lo: nat, hi: nat)
    requires HandsOk(own, threads) && u < |threads| && |own'| == |own|
    requires forall x :: 0 <= x < |own| && !(lo <= x < hi) ==> own'[x] == own[x]
    requires forall x :: lo <= x < hi && x < |own| ==> Near(own[x].holder, u) && Near(own'[x].holder, u)
    requires forall x :: 0 <= x < |own| && own'[x].holder == Hand(u) ==> Holds(pc, own'[x].start, own'[x].order)
    requires forall a, k :: Holds(pc, a, k) ==> Has(own', a, k, Hand(u))
    ensures HandsOk(own', threads[u := pc])
  {
    var threads' := threads[u := pc];
    forall t: nat, a, k | t < |threads'| && Holds(threads'[t], a, k)
      ensures Has(own', a, k, Hand(t))
    {
      if t != u {
        assert Has(own, a, k, Hand(t));
      }
    }
  }

  /** A thread with empty hands moves. */
  lemma HandsStill(own: seq<Piece>, threads: seq<Pc>, u: nat, pc: Pc)
    requires HandsOk(own, threads) && u < |threads|
    requires forall a, k :: Holds(pc, a, k) <==> Holds(threads[u], a, k)
    ensures HandsOk(own, threads[u := pc])
  {
    var threads' := threads[u := pc];
    forall t: nat, a, k | t < |threads'| && Holds(threads'[t], a, k)
      ensures Has(own, a, k, Hand(t))
    {
      assert Holds(threads[t], a, k);
    }
  }

  // ----- tags -----

  /** History only grows at live offsets and at starts of blocks. */
  ghost predicate Grows(own: seq<Piece>, touched: set<nat>, stamped: set<nat>, touched': set<nat>, stamped': set<nat>) {
    && (forall x :: x in touched' && x !in touched ==> x < |own| && own[x].holder == Live)
    && (forall x :: x in stamped' && x !in stamped ==> x < |own| && own[x].start == x)
  }

  lemma CleanGrows(own: seq<Piece>, a: nat, k: nat, h: Holder, touched: set<nat>, stamped: set<nat>, touched': set<nat>, stamped': set<nat>)
    requires Tiled(own) && Has(own, a, k, h) && h != Live
    requires Clean(a, k, touched, stamped) && Grows(own, touched, stamped, touched', stamped')
    ensures Clean(a, k, touched', stamped')
  {
    OnePiece(own, a, k, h);
  }

  lemma CleanPart(a: nat, k: nat, b: nat, j: nat, touched: set<nat>, stamped: set<nat>)
    requires Clean(a, k, touched, stamped) && a <= b && b + Size(j) <= a + Size(k)
    ensures Clean(b, j, touched, stamped)
  {
    forall x | b <= x < b + Size(j)
      ensures x !in touched && (x in stamped ==> x == b)
    {
    }
  }

  /** Every block tagged never allocated was tagged so before, or is clean for another reason. */
  lemma TagsMove(s: State, g': Region, touched': set<nat>, stamped': set<nat>)
    requires TagsOk(s.region, s.touched, s.stamped) && RegionOk(g') && Grows(g'.own, s.touched, s.stamped, touched', stamped')
    requires forall a, k :: Has(g'.own, a, k, Free) && RecordAt(g', a).data.trimState == NOT_ALLOCATED ==>
      (Has(Own(s), a, k, Free) && RecordAt(s.region, a).data.trimState == NOT_ALLOCATED) || Clean(a, k, s.touched, s.stamped)
    ensures TagsOk(g', touched', stamped')
  {
    hide Tiled, Clean, Shaped, OrdersOk, FreeAgree, Grows, Has;
    forall a, k | Has(g'.own, a, k, Free) && RecordAt(g', a).data.trimState == NOT_ALLOCATED
      ensures Clean(a, k, touched', stamped')
    {
      CleanGrows(g'.own, a, k, Free, s.touched, s.stamped, touched', stamped');
    }
  }

  lemma PcsMove(s: State, s': State, u: nat)
    requires Inv(s) && u < |s.threads| && RegionOk(s'.region) && HandsOk(Own(s'), s'.threads)
    requires |s'.threads| == |s.threads| && (forall t :: 0 <= t < |s.threads| && t != u ==> s'.threads[t] == s.threads[t])
    requires Grows(Own(s'), s.touched, s.stamped, s'.touched, s'.stamped) && PcOk(s'.threads[u], s'.touched, s'.stamped)
    ensures forall t :: 0 <= t < |s'.threads| ==> PcOk(s'.threads[t], s'.touched, s'.stamped)
  {
    hide Clean, Grows, Tiled, Shaped, OrdersOk, FreeAgree, TagsOk, Has;
    forall t | 0 <= t < |s'.threads|
      ensures PcOk(s'.threads[t], s'.touched, s'.stamped)
    {
      if t != u {
        assert PcOk(s.threads[t], s.touched, s.stamped);
        var pc := s.threads[t];
        if pc.Split? && pc.tag == NOT_ALLOCATED {
          assert Holds(s'.threads[t], pc.a, pc.j);
          CleanGrows(Own(s'), pc.a, pc.j, Hand(t), s.touched, s.stamped, s'.touched, s'.stamped);
        }
      }
    }
  }

  /** Everything a step has to show. */
  lemma Assemble(s: State, s': State, u: nat)
    requires Inv(s) && u < |s.threads| && RegionOk(s'.region) && HandsOk(Own(s'), s'.threads)
    requires |s'.threads| == |s.threads| && (forall t :: 0 <= t < |s.threads| && t != u ==> s'.threads[t] == s.threads[t])
    requires Grows(Own(s'), s.touched, s.stamped, s'.touched, s'.stamped) && PcOk(s'.threads[u], s'.touched, s'.stamped)
    requires forall a, k :: Has(Own(s'), a, k, Free) && RecordAt(s'.region, a).data.trimState == NOT_ALLOCATED ==>
      (Has(Own(s), a, k, Free) && RecordAt(s.region, a).data.trimState == NOT_ALLOCATED) || Clean(a, k, s.touched, s.stamped)
    ensures Inv(s')
  {
    hide Clean, Grows, RegionOk, Has, RecordAt, HandsOk, PcOk, TagsOk;
    PcsMove(s, s', u);
    TagsMove(s, s'.region, s'.touched, s'.stamped);
  }

  // ----- what list surgery does to tags -----

  lemma TakenTags(g: Region, a: nat, k: nat, h: Holder, b: nat)
    ensures RecordAt(Taken(g, a, k, h), b).data.trimState == RecordAt(g, b).data.trimState
  {
  }

  lemma GivenTags(g: Region, a: nat, k: nat, life: nat, tag: nat, b: nat)
    requires InBounds(g, a, k)
    ensures RecordAt(Given(g, a, k, life, tag), b).data.trimState == if b == a then tag else RecordAt(g, b).data.trimState
  {
  }
}
