/** The byte scrambler of Utils/SimpleEncoder.h: two chained exclusive-ors, in place. */
module SimpleEncoder {

  type Byte = bv8

  const MAX_PACKET_SIZE: nat := 1400

  /** The position term `(unsigned char)(i + 1)`. */
  function Position(i: nat): Byte {
    ((i + 1) % 256) as bv8
  }

  /** One exclusive-or: the pad is the byte before, the key and the position, modulo 256. */
  function Pad(x: Byte, before: Byte, key: Byte, i: nat): Byte {
    x ^ (before + key + Position(i))
  }

  /** What Encode makes of the bytes from position `i` on, after `p` and `e` came before. */
  function Encoded(s: seq<Byte>, i: nat, p: Byte, e: Byte, key: Byte, randomKey: Byte): (r: seq<Byte>)
    ensures |r| == |s|
  {
    if s == [] then [] else
      var p' := Pad(s[0], p, randomKey, i);
      var e' := Pad(p', e, key, i);
      [e'] + Encoded(s[1..], i + 1, p', e', key, randomKey)
  }

  function Decoded(s: seq<Byte>, i: nat, p: Byte, e: Byte, key: Byte, randomKey: Byte): (r: seq<Byte>)
    ensures |r| == |s|
  {
    if s == [] then [] else
      var p' := Pad(s[0], e, key, i);
      [Pad(p', p, randomKey, i)] + Decoded(s[1..], i + 1, p', s[0], key, randomKey)
  }

  function Encode(s: seq<Byte>, key: Byte, randomKey: Byte): seq<Byte> {
    Encoded(s, 0, 0, 0, key, randomKey)
  }

  function Decode(s: seq<Byte>, key: Byte, randomKey: Byte): seq<Byte> {
    Decoded(s, 0, 0, 0, key, randomKey)
  }

  /** The byte sum modulo 256. */
  function Checksum(s: seq<Byte>): Byte {
    if s == [] then 0 else Checksum(s[..|s| - 1]) + s[|s| - 1]
  }

  lemma XorCancels(a: Byte, b: Byte)
    ensures (a ^ b) ^ b == a
  {
  }

  lemma PadTwice(x: Byte, before: Byte, key: Byte, i: nat)
    ensures Pad(Pad(x, before, key, i), before, key, i) == x
  {
    hide Position;
    XorCancels(x, before + key + Position(i));
  }

  lemma {:induction false} DecodedEncoded(s: seq<Byte>, i: nat, p: Byte, e: Byte, key: Byte, randomKey: Byte)
    ensures Decoded(Encoded(s, i, p, e, key, randomKey), i, p, e, key, randomKey) == s
  {
    hide Pad;
    if s != [] {
      var p' := Pad(s[0], p, randomKey, i);
      var e' := Pad(p', e, key, i);
      PadTwice(p', e, key, i);
      PadTwice(s[0], p, randomKey, i);
      DecodedEncoded(s[1..], i + 1, p', e', key, randomKey);
      assert Encoded(s, i, p, e, key, randomKey)[1..] == Encoded(s[1..], i + 1, p', e', key, randomKey);
    }
  }

  lemma {:induction false} EncodedDecoded(s: seq<Byte>, i: nat, p: Byte, e: Byte, key: Byte, randomKey: Byte)
    ensures Encoded(Decoded(s, i, p, e, key, randomKey), i, p, e, key, randomKey) == s
  {
    hide Pad;
    if s != [] {
      var p' := Pad(s[0], e, key, i);
      PadTwice(p', p, randomKey, i);
      PadTwice(s[0], e, key, i);
      EncodedDecoded(s[1..], i + 1, p', s[0], key, randomKey);
      assert Decoded(s, i, p, e, key, randomKey)[1..] == Decoded(s[1..], i + 1, p', s[0], key, randomKey);
    }
  }

  /** With equal keys, decoding and encoding undo each other on all byte strings. */
  lemma EncodeIsBijection(s: seq<Byte>, key: Byte, randomKey: Byte)
    ensures Decode(Encode(s, key, randomKey), key, randomKey) == s
    ensures Encode(Decode(s, key, randomKey), key, randomKey) == s
  {
    DecodedEncoded(s, 0, 0, 0, key, randomKey);
    EncodedDecoded(s, 0, 0, 0, key, randomKey);
  }

  // ---- The loops

  /** `a` after the `size` bytes from `start` on have been replaced. */
  predicate Replaced(before: seq<Byte>, after: seq<Byte>, start: nat, part: seq<Byte>) {
    && start + |part| <= |before| == |after|
    && after == before[..start] + part + before[start + |part|..]
  }

  method CopyBack(a: array<Byte>, start: nat, temp: array<Byte>, size: nat)
    requires start + size <= a.Length && size <= temp.Length && a != temp
    modifies a
    ensures Replaced(old(a[..]), a[..], start, temp[..size])
  {
    var i := 0;
    while i < size
      invariant 0 <= i <= size
      invariant a[..] == old(a[..start]) + temp[..i] + old(a[start + i..])
    {
      a[start + i] := temp[i];
      i := i + 1;
    }
  }

  lemma NothingAdded(key: Byte)
    ensures 0 + key == key
  {
  }

  lemma FirstPosition()
    ensures Position(0) == 1
  {
  }

  /** The first byte has no predecessor; the source writes its pad without one. */
  lemma FirstPad(x: Byte, key: Byte)
    ensures Pad(x, 0, key, 0) == x ^ (key + 1)
  {
    hide Position;
    NothingAdded(key);
    FirstPosition();
  }

  method PadByte(x: Byte, before: Byte, key: Byte, i: nat) returns (r: Byte)
    requires i == 0 ==> before == 0
    ensures r == Pad(x, before, key, i)
  {
    if i == 0 {
      FirstPad(x, key);
      r := x ^ (key + 1);
    } else {
      r := x ^ (before + key + Position(i));
    }
  }

  lemma EncodedEnd(s: seq<Byte>, i: nat, p: Byte, e: Byte, key: Byte, randomKey: Byte)
    requires s == []
    ensures Encoded(s, i, p, e, key, randomKey) == Decoded(s, i, p, e, key, randomKey) == []
  {
  }

  lemma EncodedStep(done: seq<Byte>, src: seq<Byte>, i: nat, p: Byte, e: Byte, key: Byte, randomKey: Byte)
    requires i < |src|
    ensures var p' := Pad(src[i], p, randomKey, i);
            var e' := Pad(p', e, key, i);
            done + Encoded(src[i..], i, p, e, key, randomKey)
              == (done + [e']) + Encoded(src[i + 1..], i + 1, p', e', key, randomKey)
  {
    hide Pad;
    assert src[i..][0] == src[i] && src[i..][1..] == src[i + 1..];
  }

  lemma DecodedStep(done: seq<Byte>, src: seq<Byte>, i: nat, p: Byte, e: Byte, key: Byte, randomKey: Byte)
    requires i < |src|
    ensures var p' := Pad(src[i], e, key, i);
            done + Decoded(src[i..], i, p, e, key, randomKey)
              == (done + [Pad(p', p, randomKey, i)]) + Decoded(src[i + 1..], i + 1, p', src[i], key, randomKey)
  {
    hide Pad;
    assert src[i..][0] == src[i] && src[i..][1..] == src[i + 1..];
  }

  method EncodeInPlace(a: array<Byte>, start: nat, size: nat, key: Byte, randomKey: Byte)
    requires start + size <= a.Length && size <= MAX_PACKET_SIZE
    modifies a
    ensures Replaced(old(a[..]), a[..], start, Encode(old(a[start..start + size]), key, randomKey))
  {
    hide Pad, Encoded, Decoded;
    var prevP: Byte := 0;
    var prevE: Byte := 0;
    var temp := new Byte[MAX_PACKET_SIZE];
    ghost var src := a[start..start + size];
    assert src[0..] == src;
    var i := 0;
    while i < size
      invariant 0 <= i <= size
      invariant a[..] == old(a[..])
      invariant Encode(src, key, randomKey) == temp[..i] + Encoded(src[i..], i, prevP, prevE, key, randomKey)
      invariant i == 0 ==> prevP == 0 && prevE == 0
    {
      EncodedStep(temp[..i], src, i, prevP, prevE, key, randomKey);
      prevP := PadByte(a[start + i], prevP, randomKey, i);
      prevE := PadByte(prevP, prevE, key, i);
      temp[i] := prevE;
      assert temp[..i + 1] == temp[..i] + [prevE];
      i := i + 1;
    }
    EncodedEnd(src[size..], size, prevP, prevE, key, randomKey);
    assert temp[..size] == Encode(src, key, randomKey);
    CopyBack(a, start, temp, size);
  }

  method DecodeInPlace(a: array<Byte>, start: nat, size: nat, key: Byte, randomKey: Byte)
    requires start + size <= a.Length && size <= MAX_PACKET_SIZE
    modifies a
    ensures Replaced(old(a[..]), a[..], start, Decode(old(a[start..start + size]), key, randomKey))
  {
    hide Pad, Encoded, Decoded;
    var prevP: Byte := 0;
    var prevE: Byte := 0;
    var temp := new Byte[MAX_PACKET_SIZE];
    ghost var src := a[start..start + size];
    assert src[0..] == src;
    var i := 0;
    while i < size
      invariant 0 <= i <= size
      invariant a[..] == old(a[..])
      invariant Decode(src, key, randomKey) == temp[..i] + Decoded(src[i..], i, prevP, prevE, key, randomKey)
      invariant i == 0 ==> prevP == 0 && prevE == 0
    {
      DecodedStep(temp[..i], src, i, prevP, prevE, key, randomKey);
      var p := PadByte(a[start + i], prevE, key, i);
      temp[i] := PadByte(p, prevP, randomKey, i);
      prevP, prevE := p, a[start + i];
      assert temp[..i + 1] == temp[..i] + [temp[i]];
      i := i + 1;
    }
    EncodedEnd(src[size..], size, prevP, prevE, key, randomKey);
    assert temp[..size] == Decode(src, key, randomKey);
    CopyBack(a, start, temp, size);
  }

  method CalculateChecksum(a: array<Byte>, start: nat, len: nat) returns (checksum: Byte)
    requires start + len <= a.Length
    ensures checksum == Checksum(a[start..start + len])
  {
    var sum: bv32 := 0;
    var i := 0;
    while i < len
      invariant 0 <= i <= len
      invariant (sum & 0xFF) as bv8 == Checksum(a[start..start + i])
    {
      assert a[start..start + i + 1] == a[start..start + i] + [a[start + i]];
      sum := sum + a[start + i] as bv32;
      i := i + 1;
    }
    checksum := (sum & 0xFF) as bv8;
  }
}
