/** The 64-bit list word: a 56-bit pointer and an 8-bit tag.  It behaves as the machine's words of a block and a tag. */
module TaggedWord {
  import opened WordBits
  import Circulation

  const TAG_STEP: bv64 := 0x0100_0000_0000_0000
  const TAG_MASK: bv64 := 0xFF00_0000_0000_0000
  const PTR_MASK: bv64 := 0x00FF_FFFF_FFFF_FFFF

  function Pack(ptr: bv64, word: bv64): bv64 { (ptr & PTR_MASK) | ((word + TAG_STEP) & TAG_MASK) }

  function Ptr(word: bv64): bv64 { word & PTR_MASK }

  function Tag(word: bv64): bv64 { word >> 56 }

  /** A packed word gives back its pointer exactly if that has no bits above the 56th; the tag is the old one plus one,
      modulo 256. */
  lemma PackUnpack(ptr: bv64, word: bv64)
    ensures Ptr(Pack(ptr, word)) == ptr <==> ptr & TAG_MASK == 0
    ensures Tag(Pack(ptr, word)) == (Tag(word) + 1) & 0xFF
  {
  }

  /** Comparing words is comparing pointers and tags. */
  lemma SameWord(v: bv64, w: bv64)
    ensures v == w <==> Ptr(v) == Ptr(w) && Tag(v) == Tag(w)
  {
  }

  // ----- the words of the machine -----

  /** Where blocks lie: below 2^56, no two at one address; block 0 is the null pointer. */
  ghost predicate AddressesOk(addr: map<nat, bv64>) {
    && (forall b :: b in addr ==> addr[b] & TAG_MASK == 0)
    && (forall b, c :: b in addr && c in addr && addr[b] == addr[c] ==> b == c)
  }

  /** The 64 bits that hold a word of the machine. */
  ghost function Encoded(addr: map<nat, bv64>, w: Circulation.Word): bv64
    requires w.ptr in addr
  {
    addr[w.ptr] | (Index(w.tag) << 56)
  }

  lemma JoinParts(p: bv64, t: bv64)
    requires p & TAG_MASK == 0 && t < 256
    ensures Ptr(p | (t << 56)) == p && Tag(p | (t << 56)) == t
  {
  }

  lemma EncodedParts(addr: map<nat, bv64>, w: Circulation.Word)
    requires AddressesOk(addr) && w.ptr in addr && w.tag < Circulation.TAGS
    ensures Ptr(Encoded(addr, w)) == addr[w.ptr] && Tag(Encoded(addr, w)) == Index(w.tag) && Index(w.tag) < 256
  {
    hide Ptr, Tag, Index, Number;
    IndexByte(w.tag);
    JoinParts(addr[w.ptr], Index(w.tag));
  }

  /** A compare-and-swap on the 64 bits succeeds if and only if it does in the machine. */
  lemma EncodedSame(addr: map<nat, bv64>, v: Circulation.Word, w: Circulation.Word)
    requires AddressesOk(addr) && v.ptr in addr && w.ptr in addr && v.tag < Circulation.TAGS && w.tag < Circulation.TAGS
    ensures Encoded(addr, v) == Encoded(addr, w) <==> v == w
  {
    hide Ptr, Tag, Index, Number, Encoded;
    EncodedParts(addr, v);
    EncodedParts(addr, w);
    SameWord(Encoded(addr, v), Encoded(addr, w));
    IndexOrder(v.tag, w.tag);
    IndexOrder(w.tag, v.tag);
  }

  /** Packing on the 64 bits is packing in the machine. */
  lemma EncodedPack(addr: map<nat, bv64>, ptr: nat, w: Circulation.Word)
    requires AddressesOk(addr) && ptr in addr && w.ptr in addr && w.tag < Circulation.TAGS
    ensures Pack(addr[ptr], Encoded(addr, w)) == Encoded(addr, Circulation.Pack(ptr, w))
  {
    hide Ptr, Tag, Index, Number, Encoded, Pack;
    var w' := Circulation.Pack(ptr, w);
    EncodedParts(addr, w);
    EncodedParts(addr, w');
    PackUnpack(addr[ptr], Encoded(addr, w));
    NextTag(w.tag);
    SameWord(Pack(addr[ptr], Encoded(addr, w)), Encoded(addr, w'));
  }

  lemma NextTag(t: nat)
    requires t < 256
    ensures (Index(t) + 1) & 0xFF == Index((t + 1) % 256)
  {
    hide Number, Index;
    if t == 255 {
      LastTag();
    } else {
      IndexByte(t + 1);
      IndexNext(t);
      LowByte(Index(t + 1));
      assert (t + 1) % 256 == t + 1;
    }
  }

  lemma IndexNext(t: nat)
    ensures Index(t + 1) == Index(t) + 1
  {
  }

  lemma LastTag()
    ensures (Index(255) + 1) & 0xFF == 0 && Index(0) == 0
  {
    hide Number;
    NumberTop();
    IndexNumber(255);
  }

  lemma LowByte(x: bv64)
    requires x < 256
    ensures x & 0xFF == x
  {
  }
}
