/** What the receiver makes of frames that anybody may have built: codes, lengths and checksums. */
module FramingChecks {
  import opened SimpleEncoder
  import opened EncoderBytes
  import opened Framing
  import opened FramingRuns

  /** What the loop decides once the header announces `len` bytes. */
  lemma LengthDecides(cfg: Config, buf: seq<Byte>, len: nat)
    requires |buf| >= 5
    ensures var front := Extract(cfg, buf, len);
            && (front == Broken(WrongLen) <==> len > 1400)
            && (front.NeedMore? <==> |buf| < 5 + len <= 1405)
            && (front.Overrun? <==> 1395 < len <= 1400 && 5 + len <= |buf|)
            && (front.Got? || front.Rejected? <==> len <= 1395 && 5 + len <= |buf|)
            && (front.Got? || front.Rejected? ==> front.size == 5 + len)
  {
    hide Checksum, Decode;
  }

  /** And on the header: the code must be the server's as a number, the length is little-endian. */
  lemma HeaderDecides(cfg: Config, buf: seq<Byte>)
    requires |buf| >= 5
    ensures FrontOf(cfg, buf) ==
            if Value(buf[0]) as int != cfg.headerCode then Broken(WrongCode)
            else Extract(cfg, buf, Value(buf[1]) + 256 * Value(buf[2]))
  {
    LengthIs(buf[1], buf[2]);
    CodeIsValue(cfg, buf[0]);
    hide Extract, LenOf, CodeMatches, Value;
  }

  lemma LengthIs(lo: Byte, hi: Byte)
    ensures LenOf(lo, hi) == Value(lo) + 256 * Value(hi)
  {
  }

  lemma CodeIsValue(cfg: Config, code: Byte)
    ensures CodeMatches(cfg, code) <==> Value(code) as int == cfg.headerCode
  {
  }

  lemma TooShort(cfg: Config, buf: seq<Byte>)
    requires |buf| < 5
    ensures FrontOf(cfg, buf).NeedMore?
  {
  }

  /** A frame around `body` whose checksum byte says `c`. */
  function Packed(cfg: Config, randomKey: Byte, c: Byte, body: seq<Byte>): (frame: seq<Byte>)
    requires cfg.Valid() && |body| <= PAYLOAD_LEN_DEFAULT - HEADER
    ensures |frame| == HEADER + |body|
  {
    [CodeByte(cfg)] + LenBytes(|body|) + [randomKey] +
    if cfg.encryption then Encode([c] + body, cfg.fixedKey, randomKey) else [c] + body
  }

  lemma PackedHeader(cfg: Config, randomKey: Byte, c: Byte, body: seq<Byte>, more: seq<Byte>)
    requires cfg.Valid() && cfg.headerCode >= 0 && |body| <= PAYLOAD_LEN_DEFAULT - HEADER
    ensures var bytes := Packed(cfg, randomKey, c, body) + more;
            FrontOf(cfg, bytes) == Extract(cfg, bytes, |body|)
  {
    hide CodeByte, CodeMatches, Checksum, Encode, Decode, LenOf, LenBytes, Extract;
    var bytes := Packed(cfg, randomKey, c, body) + more;
    CodeMatchesIff(cfg);
    LenRoundTrip(|body|);
    assert bytes[0] == CodeByte(cfg) && bytes[1] == LenBytes(|body|)[0] && bytes[2] == LenBytes(|body|)[1];
  }

  /**
   With encryption a frame is delivered exactly when its checksum byte is the byte sum of its
   body modulo 256, and otherwise it is rejected; without, it is delivered whatever the byte says.
   */
  lemma ChecksumDecides(cfg: Config, randomKey: Byte, c: Byte, body: seq<Byte>, more: seq<Byte>)
    requires cfg.Valid() && cfg.headerCode >= 0 && |body| <= PAYLOAD_LEN_DEFAULT - HEADER
    ensures FrontOf(cfg, Packed(cfg, randomKey, c, body) + more) ==
            if cfg.encryption && Value(c) != ByteSum(body) % 256 then Rejected(HEADER + |body|)
            else Got(body, HEADER + |body|)
  {
    PackedHeader(cfg, randomKey, c, body, more);
    PackedPart(cfg, randomKey, c, body, more);
    SumDecides(c, body);
    hide FrontOf, Extract, Packed, Checksum, Encode, Value, ByteSum;
    ExtractDecides(cfg, Packed(cfg, randomKey, c, body) + more, c, body);
  }

  lemma ExtractDecides(cfg: Config, bytes: seq<Byte>, c: Byte, body: seq<Byte>)
    requires |body| <= PAYLOAD_LEN_DEFAULT - HEADER && HEADER + |body| <= |bytes|
    requires if cfg.encryption then bytes[4..HEADER + |body|] == Encode([c] + body, cfg.fixedKey, bytes[3])
             else bytes[HEADER..HEADER + |body|] == body
    ensures Extract(cfg, bytes, |body|) ==
            if cfg.encryption && c != Checksum(body) then Rejected(HEADER + |body|) else Got(body, HEADER + |body|)
  {
    EncodeIsBijection([c] + body, cfg.fixedKey, bytes[3]);
    assert ([c] + body)[1..] == body;
    hide Checksum, Encode, Decode;
  }

  lemma PackedPart(cfg: Config, randomKey: Byte, c: Byte, body: seq<Byte>, more: seq<Byte>)
    requires cfg.Valid() && |body| <= PAYLOAD_LEN_DEFAULT - HEADER
    ensures var bytes := Packed(cfg, randomKey, c, body) + more;
            && bytes[3] == randomKey
            && bytes[4..HEADER + |body|] ==
               (if cfg.encryption then Encode([c] + body, cfg.fixedKey, randomKey) else [c] + body)
            && (!cfg.encryption ==> bytes[HEADER..HEADER + |body|] == body)
  {
    hide CodeByte, LenBytes, Encode;
  }

  lemma SumDecides(c: Byte, body: seq<Byte>)
    ensures c == Checksum(body) <==> Value(c) == ByteSum(body) % 256
  {
    ChecksumIsSum(body);
    hide Value, Checksum;
    if Value(c) == Value(Checksum(body)) { SameByte(c, Checksum(body)); }
  }

  lemma LenBytesBack(lo: Byte, hi: Byte)
    ensures LenOf(lo, hi) < 0x1_0000 && LenBytes(LenOf(lo, hi)) == [lo, hi]
  {
    var n := LenOf(lo, hi);
    ValueBound(lo);
    ValueBound(hi);
    assert n % 256 == Value(lo) && n / 256 == Value(hi);
    CountedUp(n % 256);
    CountedUp(n / 256);
    SameByte(ByteOf(n % 256), lo);
    SameByte(ByteOf(n / 256), hi);
  }

  /** Every frame that the loop takes out of its buffer is packed around some body with some checksum byte. */
  lemma EveryFrameIsPacked(cfg: Config, buf: seq<Byte>) returns (c: Byte, body: seq<Byte>)
    requires cfg.Valid() && (FrontOf(cfg, buf).Got? || FrontOf(cfg, buf).Rejected?)
    ensures |body| <= PAYLOAD_LEN_DEFAULT - HEADER && FrontOf(cfg, buf).size == HEADER + |body| <= |buf|
    ensures buf[..HEADER + |body|] == Packed(cfg, buf[3], c, body)
  {
    hide FrontOf, Encode, Decode, LenOf, LenBytes, CodeByte, CodeMatches, Packed, Value, ByteOf;
    WholeFrame(cfg, buf);
    c, body := Unpacked(cfg, buf[3], buf[4..HEADER + LenOf(buf[1], buf[2])]);
    CodeIs(cfg, buf[0]);
    LenBytesBack(buf[1], buf[2]);
    Repacked(cfg, buf, c, body);
  }

  lemma Unpacked(cfg: Config, randomKey: Byte, part: seq<Byte>) returns (c: Byte, body: seq<Byte>)
    requires part != []
    ensures |body| == |part| - 1
    ensures part == if cfg.encryption then Encode([c] + body, cfg.fixedKey, randomKey) else [c] + body
  {
    hide Encoded, Decoded;
    var plain := if cfg.encryption then Decode(part, cfg.fixedKey, randomKey) else part;
    EncodeIsBijection(part, cfg.fixedKey, randomKey);
    c, body := plain[0], plain[1..];
    assert [c] + body == plain;
  }

  lemma Repacked(cfg: Config, buf: seq<Byte>, c: Byte, body: seq<Byte>)
    requires cfg.Valid() && |body| <= PAYLOAD_LEN_DEFAULT - HEADER && HEADER + |body| <= |buf|
    requires buf[0] == CodeByte(cfg) && LenBytes(|body|) == [buf[1], buf[2]]
    requires buf[4..HEADER + |body|] == if cfg.encryption then Encode([c] + body, cfg.fixedKey, buf[3]) else [c] + body
    ensures buf[..HEADER + |body|] == Packed(cfg, buf[3], c, body)
  {
    hide Encode, LenBytes, CodeByte;
    assert buf[..HEADER + |body|] == [buf[0]] + [buf[1], buf[2]] + [buf[3]] + buf[4..HEADER + |body|];
  }

  lemma WholeFrame(cfg: Config, buf: seq<Byte>)
    requires FrontOf(cfg, buf).Got? || FrontOf(cfg, buf).Rejected?
    ensures |buf| >= HEADER && CodeMatches(cfg, buf[0])
    ensures var len := LenOf(buf[1], buf[2]);
            FrontOf(cfg, buf).size == HEADER + len <= |buf| && HEADER + len <= PAYLOAD_LEN_DEFAULT
  {
    hide Checksum, Decode, LenOf, CodeMatches;
  }

  lemma CodeIs(cfg: Config, code: Byte)
    requires cfg.Valid() && CodeMatches(cfg, code)
    ensures code == CodeByte(cfg)
  {
    ValueBound(code);
    CountedUp(cfg.headerCode);
    SameByte(code, CodeByte(cfg));
  }

  // ---- A stream with a corrupted frame

  lemma {:induction false} ParseStopsAtCorrupted(cfg: Config, outs: seq<Outgoing>, randomKey: Byte, c: Byte,
      body: seq<Byte>, more: seq<Byte>)
    requires cfg.Valid() && cfg.headerCode >= 0 && cfg.encryption && |body| <= PAYLOAD_LEN_DEFAULT - HEADER
    requires Value(c) != ByteSum(body) % 256
    ensures var p := Parse(cfg, Stream(cfg, outs) + (Packed(cfg, randomKey, c, body) + more));
            p.payloads == Bodies(outs) && p.stop == Rejected(HEADER + |body|)
    decreases |outs|
  {
    hide FrontOf, Frame, Body, Packed;
    var tail := Packed(cfg, randomKey, c, body) + more;
    if outs == [] {
      assert Stream(cfg, outs) + tail == tail;
      ChecksumDecides(cfg, randomKey, c, body, more);
    } else {
      var frame, rest := Frame(cfg, outs[0]), Stream(cfg, outs[1..]) + tail;
      assert Stream(cfg, outs) + tail == frame + rest;
      FrontOfFrame(cfg, outs[0], rest);
      assert (frame + rest)[|frame|..] == rest;
      ParseStopsAtCorrupted(cfg, outs[1..], randomKey, c, body, more);
    }
  }

  /**
   However a stream is cut: the frames before the first one with a wrong checksum are delivered,
   nothing of it or behind it is, and the session is disconnected for it, unless the recv counter came first.
   */
  lemma CorruptedStreamStops(cfg: Config, outs: seq<Outgoing>, randomKey: Byte, c: Byte, body: seq<Byte>,
      more: seq<Byte>, chunks: seq<seq<Byte>>)
    requires cfg.Valid() && cfg.headerCode >= 0 && cfg.encryption && |body| <= PAYLOAD_LEN_DEFAULT - HEADER
    requires Value(c) != ByteSum(body) % 256
    requires Concat(chunks) == Stream(cfg, outs) + (Packed(cfg, randomKey, c, body) + more)
    ensures var f := Feed(cfg, chunks);
            if f.verdict == WrongRecvPostCount then f.delivered <= Bodies(outs)
            else f.verdict == WrongChecksum && f.delivered == Bodies(outs)
  {
    hide Feed, Parse, Concat, Stream, Packed;
    FeedParses(cfg, chunks);
    ParseStopsAtCorrupted(cfg, outs, randomKey, c, body, more);
  }
}
