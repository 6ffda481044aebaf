/** Byte by byte and in integers: what the encoder writes and what the checksum is. */
module EncoderBytes {
  import opened SimpleEncoder
  import opened Framing

  // ---- The checksum

  function Value(b: Byte): nat { b as nat }

  function Plus(a: Byte, b: Byte): Byte { a + b }

  /** The sum of the bytes as numbers. */
  function ByteSum(s: seq<Byte>): nat {
    if s == [] then 0 else ByteSum(s[..|s| - 1]) + Value(s[|s| - 1])
  }

  lemma LastByte(b: Byte)
    requires Value(b) == 255
    ensures Plus(b, 1) == 0
  {
  }

  lemma SameByte(a: Byte, b: Byte)
    requires Value(a) == Value(b)
    ensures a == b
  {
  }

  lemma ValueBound(a: Byte)
    ensures Value(a) < 256
  {
  }

  lemma OneMore(a: Byte)
    ensures Value(Plus(a, 1)) == if Value(a) == 255 then 0 else Value(a) + 1
  {
    if a == 255 {
      LastByte(a);
    } else {
      NextByte(a);
      if Value(a) == 255 { SameByte(a, 255); }
    }
  }

  lemma Regroup(a: Byte, b: Byte)
    ensures Plus(a, Plus(b, 1)) == Plus(Plus(a, b), 1)
  {
  }

  lemma CountedUp(n: nat)
    requires n < 256
    ensures Value(ByteOf(n)) == n
    ensures if n == 0 then ByteOf(n) == 0 else ByteOf(n) == Plus(ByteOf(n - 1), 1)
  {
  }

  lemma PlusNothing(a: Byte)
    ensures Plus(a, 0) == a
  {
  }

  function Wrapped(v: nat): nat { v % 256 }

  lemma WrappedIs(v: nat)
    ensures v < 256 ==> Wrapped(v) == v
    ensures Wrapped(v + 1) == if Wrapped(v) == 255 then 0 else Wrapped(v) + 1
  {
  }

  lemma {:induction false} PlusCounts(a: Byte, n: nat)
    requires n < 256
    ensures Value(Plus(a, ByteOf(n))) == Wrapped(Value(a) + n)
  {
    ValueBound(a);
    WrappedIs(Value(a));
    hide Value, Plus, ByteOf, Wrapped;
    CountedUp(n);
    if n == 0 {
      PlusNothing(a);
    } else {
      PlusCounts(a, n - 1);
      Regroup(a, ByteOf(n - 1));
      OneMore(Plus(a, ByteOf(n - 1)));
      WrappedIs(Value(a) + n - 1);
      assert Value(a) + n - 1 + 1 == Value(a) + n;
    }
  }

  lemma PlusWraps(a: Byte, b: Byte)
    ensures Value(Plus(a, b)) == (Value(a) + Value(b)) % 256
  {
    ValueBound(b);
    hide Value, Plus, ByteOf;
    CountedUp(Value(b));
    SameByte(b, ByteOf(Value(b)));
    PlusCounts(a, Value(b));
  }

  lemma ChecksumSteps(s: seq<Byte>)
    requires s != []
    ensures Checksum(s) == Plus(Checksum(s[..|s| - 1]), s[|s| - 1])
  {
  }

  lemma NoBytes()
    ensures Value(Checksum([])) == 0
  {
  }

  lemma SumMod(a: nat, b: nat)
    ensures (a % 256 + b) % 256 == (a + b) % 256
  {
  }

  /** The checksum is the byte sum modulo 256. */
  lemma {:induction false} ChecksumIsSum(s: seq<Byte>)
    ensures Value(Checksum(s)) == ByteSum(s) % 256
  {
    hide Value, Plus, Checksum;
    if s == [] {
      NoBytes();
    } else {
      ChecksumIsSum(s[..|s| - 1]);
      ChecksumSteps(s);
      PlusWraps(Checksum(s[..|s| - 1]), s[|s| - 1]);
      SumMod(ByteSum(s[..|s| - 1]), Value(s[|s| - 1]));
    }
  }

  // ---- The encoding

  /** Position `k` counts from 1, and wraps. */
  function Counter(k: nat): Byte { ((k + 1) % 256) as Byte }

  lemma CounterCounts(k: nat)
    ensures Value(Counter(k)) == (k + 1) % 256
  {
  }

  function Mixed(x: Byte, before: Byte, key: Byte, k: nat): Byte {
    x ^ (before + key + Counter(k))
  }

  function Before(s: seq<Byte>, k: nat, first: Byte): Byte
    requires k <= |s|
  {
    if k == 0 then first else s[k - 1]
  }

  /**
   Every byte from position `i` on: the intermediate byte is the plain one against its own
   predecessor, the random key and the position; the encoded byte is the intermediate one
   against the encoded predecessor, the fixed key and the position.
   */
  ghost predicate Chained(s: seq<Byte>, p: seq<Byte>, e: seq<Byte>, i: nat, p0: Byte, e0: Byte, key: Byte,
      randomKey: Byte)
  {
    && |p| == |e| == |s|
    && (forall k :: 0 <= k < |s| ==> p[k] == Mixed(s[k], Before(p, k, p0), randomKey, i + k))
    && (forall k :: 0 <= k < |s| ==> e[k] == Mixed(p[k], Before(e, k, e0), key, i + k))
  }

  lemma MixedIsPad(x: Byte, before: Byte, key: Byte, k: nat)
    ensures Mixed(x, before, key, k) == Pad(x, before, key, k)
  {
    CounterIsPosition(k);
    hide Counter, Position;
  }

  lemma CounterIsPosition(k: nat)
    ensures Counter(k) == Position(k)
  {
  }

  lemma {:induction false} EncodedChained(s: seq<Byte>, i: nat, p0: Byte, e0: Byte, key: Byte, randomKey: Byte)
    returns (p: seq<Byte>)
    ensures Chained(s, p, Encoded(s, i, p0, e0, key, randomKey), i, p0, e0, key, randomKey)
  {
    hide Pad, Mixed;
    if s == [] {
      p := [];
    } else {
      MixedIsPad(s[0], p0, randomKey, i);
      var p' := Pad(s[0], p0, randomKey, i);
      MixedIsPad(p', e0, key, i);
      var e' := Pad(p', e0, key, i);
      var rest := EncodedChained(s[1..], i + 1, p', e', key, randomKey);
      p := [p'] + rest;
      ChainGrows(s, p, Encoded(s, i, p0, e0, key, randomKey), i, p0, e0, key, randomKey);
    }
  }

  lemma ChainGrows(s: seq<Byte>, p: seq<Byte>, e: seq<Byte>, i: nat, p0: Byte, e0: Byte, key: Byte, randomKey: Byte)
    requires |s| == |p| == |e| > 0
    requires p[0] == Mixed(s[0], p0, randomKey, i) && e[0] == Mixed(p[0], e0, key, i)
    requires Chained(s[1..], p[1..], e[1..], i + 1, p[0], e[0], key, randomKey)
    ensures Chained(s, p, e, i, p0, e0, key, randomKey)
  {
    hide Mixed;
    forall k | 0 <= k < |s|
      ensures p[k] == Mixed(s[k], Before(p, k, p0), randomKey, i + k)
      ensures e[k] == Mixed(p[k], Before(e, k, e0), key, i + k)
    {
      if k > 0 {
        assert p[1..][k - 1] == Mixed(s[1..][k - 1], Before(p[1..], k - 1, p[0]), randomKey, i + 1 + (k - 1));
        assert e[1..][k - 1] == Mixed(p[1..][k - 1], Before(e[1..], k - 1, e[0]), key, i + 1 + (k - 1));
      }
    }
  }

  /** The encoding of a byte string is chained, from a zero byte before each row and position 1 on. */
  lemma EncodeIsChained(s: seq<Byte>, key: Byte, randomKey: Byte)
    ensures exists p :: Chained(s, p, Encode(s, key, randomKey), 0, 0, 0, key, randomKey)
  {
    var p := EncodedChained(s, 0, 0, 0, key, randomKey);
    hide Encoded;
    assert Chained(s, p, Encode(s, key, randomKey), 0, 0, 0, key, randomKey);
  }
}
