/**
 The 64-bit tagged words of the lock-free containers: a 47-bit address below a
 17-bit count (`SetCount`, `GetCount` and `ADR_MASK`).

 The machines below carry pointers as `Ptr(addr, tag)` with an unbounded tag and
 compare them only through `Cut`, which keeps exactly what the word keeps.
 */
module TaggedPointer {

  const TAGS: nat := 0x2_0000
  const ADDRESSES: nat := 0x8000_0000_0000

  // ---- The bit operations

  const ADR_MASK: bv64 := 0x0000_7FFF_FFFF_FFFF

  function SetCount(target: bv64, count: bv64): bv64 {
    (target & ADR_MASK) | (count << 47)
  }

  function GetAddress(word: bv64): bv64 {
    word & ADR_MASK
  }

  function GetCount(word: bv64): bv64 {
    word >> 47
  }

  const TAG_MASK: bv64 := 0x0000_0000_0001_FFFF

  /** Unpacking returns the low 47 bits of the address and the low 17 bits of the count. */
  lemma UnpackPack(target: bv64, count: bv64)
    ensures GetAddress(SetCount(target, count)) == target & ADR_MASK
    ensures GetCount(SetCount(target, count)) == count & TAG_MASK
  {
  }

  /** Packing looks at those low bits only. */
  lemma PackTruncates(target: bv64, count: bv64)
    ensures SetCount(target, count) == SetCount(target & ADR_MASK, count & TAG_MASK)
  {
  }

  /** Two packed words are equal exactly when both truncated halves are. */
  lemma PackedWordsEqual(t: bv64, c: bv64, u: bv64, d: bv64)
    ensures SetCount(t, c) == SetCount(u, d) <==>
            t & ADR_MASK == u & ADR_MASK && c & TAG_MASK == d & TAG_MASK
  {
    if t & ADR_MASK == u & ADR_MASK && c & TAG_MASK == d & TAG_MASK {
      PackTruncates(t, c);
      PackTruncates(u, d);
    } else if SetCount(t, c) == SetCount(u, d) {
      UnpackPack(t, c);
      UnpackPack(u, d);
      assert false;
    }
  }

  // ---- Pointers of the machines

  /** An address with a count. A word holds a pointer cut to 17 bits of count. */
  datatype Ptr = Ptr(addr: nat, tag: nat)

  const NULL := Ptr(0, 0)

  /** `SetCount(addr, tag)` as a value: the count loses everything above 17 bits. */
  function Cut(p: Ptr): Ptr {
    Ptr(p.addr, p.tag % TAGS)
  }

  /** The 64-bit word of a pointer, written arithmetically. */
  function Word(p: Ptr): (w: nat)
    requires p.addr < ADDRESSES
    ensures w < 0x1_0000_0000_0000_0000
  {
    p.addr + (p.tag % TAGS) * ADDRESSES
  }

  /** The bit operations compute that arithmetic. */
  lemma PackIsArithmetic(target: bv64, count: bv64)
    ensures SetCount(target, count) == target % 0x8000_0000_0000 + (count % 0x2_0000) * 0x8000_0000_0000
  {
  }

  /** A 64-bit compare tells two pointers apart exactly when their cut forms differ. */
  lemma CutIffEqualWords(p: Ptr, q: Ptr)
    requires p.addr < ADDRESSES && q.addr < ADDRESSES
    ensures Cut(p) == Cut(q) <==> Word(p) == Word(q)
  {
    if Word(p) == Word(q) {
      assert Word(p) % ADDRESSES == p.addr;
      assert Word(q) % ADDRESSES == q.addr;
    }
  }

  // ---- Pointers that a thread has read

  /** A pointer read from a shared word when `at` counts had been given out. */
  datatype Seen = Seen(addr: nat, tag: nat, at: nat) {
    function Pointer(): Ptr { Ptr(addr, tag) }
  }

  /** What a thread really holds: the word, without the moment. */
  function CutSeen(p: Seen): Seen {
    Seen(p.addr, p.tag % TAGS, 0)
  }

  predicate SameTag(c: nat, d: nat) {
    c % TAGS == d % TAGS
  }

  /** How often the tag of `p` has been given out again between its reading and count `cnt`. */
  function Rounds(p: Seen, cnt: nat): int {
    (cnt - p.tag) / TAGS - (p.at - p.tag) / TAGS
  }

  /** A count with the tag of `p` given out since `p` was read is a round. */
  lemma SameTagIsRound(p: Seen, c: nat, cnt: nat)
    requires p.tag <= p.at < c <= cnt && SameTag(c, p.tag)
    ensures Rounds(p, cnt) > 0
  {
    assert c - p.tag == (c / TAGS - p.tag / TAGS) * TAGS;
    assert (c - p.tag) / TAGS == c / TAGS - p.tag / TAGS;
  }

  /** And there is no round exactly when no count with its tag has been given out. */
  lemma NoRoundIff(p: Seen, cnt: nat)
    requires p.tag <= p.at <= cnt
    ensures Rounds(p, cnt) == 0 <==> forall c: nat :: p.at < c <= cnt ==> !SameTag(c, p.tag)
  {
    if Rounds(p, cnt) == 0 {
      forall c: nat | p.at < c <= cnt && SameTag(c, p.tag)
        ensures false
      {
        SameTagIsRound(p, c, cnt);
      }
    } else {
      var c := p.tag + (cnt - p.tag) / TAGS * TAGS;
      assert p.at < c <= cnt;
      SameTagAfterRounds(p.tag, (cnt - p.tag) / TAGS);
    }
  }

  lemma SameTagAfterRounds(tag: nat, rounds: nat)
    ensures SameTag(tag + rounds * TAGS, tag)
  {
    assert (tag + rounds * TAGS) / TAGS == tag / TAGS + rounds;
  }
}
