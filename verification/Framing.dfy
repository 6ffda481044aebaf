/**
 Frames on the wire: the sender of IOCPNetLib/NetLib_Server.cpp:438-463 and the receive loop
 at 65-159. The ring buffer is a byte sequence; a completion appends the bytes received.
 */
module Framing {
  import opened SimpleEncoder

  const HEADER: nat := 5
  const PAYLOAD_LEN_DEFAULT: nat := 1400
  const MAX_RECV_POST_CNT: nat := 10

  /** Server options. `headerCode` is a C++ char: it is signed. */
  datatype Config = Config(headerCode: int, encryption: bool, fixedKey: Byte) {
    predicate Valid() { -128 <= headerCode <= 127 }
  }

  lemma NextByte(b: Byte)
    requires b != 255
    ensures (b + 1) as int == b as int + 1
  {
  }

  /** The byte of value `n`, counted up from 0. */
  function ByteOf(n: nat): (b: Byte)
    requires n < 256
    ensures b as int == n
  {
    if n == 0 then 0 else
      NextByte(ByteOf(n - 1));
      ByteOf(n - 1) + 1
  }

  /** The char written into the unsigned Code field. */
  function CodeByte(cfg: Config): Byte
    requires cfg.Valid()
  {
    ByteOf(if cfg.headerCode < 0 then cfg.headerCode + 256 else cfg.headerCode)
  }

  /** The comparison `header->Code != m_header_code` promotes both sides to int. */
  predicate CodeMatches(cfg: Config, code: Byte) {
    code as int == cfg.headerCode
  }

  /** The two-byte little-endian Len field. */
  function LenOf(lo: Byte, hi: Byte): nat {
    lo as nat + 256 * (hi as nat)
  }

  function LenBytes(n: nat): (r: seq<Byte>)
    requires n < 0x1_0000
    ensures |r| == 2
  {
    [ByteOf(n % 256), ByteOf(n / 256)]
  }

  lemma LenRoundTrip(n: nat)
    requires n < 0x1_0000
    ensures LenOf(LenBytes(n)[0], LenBytes(n)[1]) == n
  {
  }

  /** A sender's code is recognised exactly when it is not negative as a char. */
  lemma CodeMatchesIff(cfg: Config)
    requires cfg.Valid()
    ensures CodeMatches(cfg, CodeByte(cfg)) <==> cfg.headerCode >= 0
  {
  }

  // ---- The sender

  /** A packet to send: the payload, the random key, and the byte left in CheckSum without encryption. */
  datatype Outgoing = Outgoing(payload: seq<Byte>, randomKey: Byte, junk: Byte)

  /** PutData stores the whole payload behind the header, or nothing when it does not fit. */
  function Body(payload: seq<Byte>): (body: seq<Byte>)
    ensures |body| <= PAYLOAD_LEN_DEFAULT - HEADER
    ensures body == payload <==> |payload| <= PAYLOAD_LEN_DEFAULT - HEADER
    ensures |payload| > PAYLOAD_LEN_DEFAULT - HEADER ==> body == []
  {
    if HEADER + |payload| > PAYLOAD_LEN_DEFAULT then [] else payload
  }

  function Frame(cfg: Config, out: Outgoing): (frame: seq<Byte>)
    requires cfg.Valid()
    ensures |frame| == HEADER + |Body(out.payload)|
  {
    var body := Body(out.payload);
    [CodeByte(cfg)] + LenBytes(|body|) + [out.randomKey] +
    if cfg.encryption then Encode([Checksum(body)] + body, cfg.fixedKey, out.randomKey) else [out.junk] + body
  }

  /** A buffer whose fifth byte has been set falls into its plain part and the part to encode. */
  lemma WithChecksum(before: seq<Byte>, after: seq<Byte>, start: seq<Byte>, junk: Byte, checksum: Byte, body: seq<Byte>)
    requires |start| == 4 && before == start + [junk] + body && after == before[4 := checksum]
    ensures after[..4] == start && after[4..HEADER + |body|] == [checksum] + body && after[HEADER + |body|..] == []
  {
  }

  /** The packet buffer as SendPacket fills it. */
  method BuildFrame(cfg: Config, out: Outgoing) returns (frame: array<Byte>)
    requires cfg.Valid()
    ensures fresh(frame) && frame[..] == Frame(cfg, out)
  {
    hide CodeByte, Checksum, Encode, Body, LenBytes;
    var body := Body(out.payload);
    var start := [CodeByte(cfg)] + LenBytes(|body|) + [out.randomKey];
    var bytes := start + [out.junk] + body;
    frame := new Byte[|bytes|](i requires 0 <= i < |bytes| => bytes[i]);
    assert frame[..] == bytes;
    if cfg.encryption {
      var checksum := CalculateChecksum(frame, HEADER, |body|);
      assert frame[HEADER..HEADER + |body|] == body;
      frame[4] := checksum;
      WithChecksum(bytes, frame[..], start, out.junk, checksum, body);
      EncodeInPlace(frame, 4, |body| + 1, cfg.fixedKey, out.randomKey);
    } else {
      assert bytes == start + ([out.junk] + body);
    }
  }

  // ---- The front of the receive buffer

  /** `Overran` is no disconnect request: the source would write behind `iobuf`, and the model follows it no further. */
  datatype Verdict = Continue | WrongRecvPostCount | WrongCode | WrongLen | WrongChecksum | Overran

  datatype Front =
    | NeedMore
    | Broken(why: Verdict)                    // the header is only peeked
    | Overrun                                 // the frame has come but does not fit iobuf behind its header
    | Rejected(size: nat)                     // the frame is consumed
    | Got(payload: seq<Byte>, size: nat)

  function FrontOf(cfg: Config, buf: seq<Byte>): (front: Front)
    ensures front.Got? ==> front.size == HEADER + |front.payload| <= |buf| && front.size <= PAYLOAD_LEN_DEFAULT
    ensures front.Rejected? ==> HEADER <= front.size <= |buf| && front.size <= PAYLOAD_LEN_DEFAULT
    ensures front.Broken? ==> front.why.WrongCode? || front.why.WrongLen?
  {
    if |buf| < HEADER then NeedMore
    else if !CodeMatches(cfg, buf[0]) then Broken(WrongCode)
    else
      Extract(cfg, buf, LenOf(buf[1], buf[2]))
  }

  /** The front when the header announces `len` bytes. */
  function Extract(cfg: Config, buf: seq<Byte>, len: nat): (front: Front)
    requires |buf| >= HEADER
    ensures front.Got? ==> front.size == HEADER + |front.payload| <= |buf| && front.size <= PAYLOAD_LEN_DEFAULT
    ensures front.Rejected? ==> HEADER <= front.size <= |buf| && front.size <= PAYLOAD_LEN_DEFAULT
    ensures front.Broken? ==> front.why.WrongLen?
    ensures front.Overrun? <==> HEADER + len <= |buf| && PAYLOAD_LEN_DEFAULT - HEADER < len <= PAYLOAD_LEN_DEFAULT
  {
    if len > PAYLOAD_LEN_DEFAULT then Broken(WrongLen)
    else if |buf| < HEADER + len then NeedMore
    else if HEADER + len > PAYLOAD_LEN_DEFAULT then Overrun
    else if !cfg.encryption then Got(buf[HEADER..HEADER + len], HEADER + len)
    else
      var plain := Decode(buf[4..HEADER + len], cfg.fixedKey, buf[3]);
      if Checksum(plain[1..]) != plain[0] then Rejected(HEADER + len) else Got(plain[1..], HEADER + len)
  }

  // ---- One receive completion

  /** What a completion delivers, what it leaves, and the disconnect it asks for, if any. */
  datatype Outcome = Outcome(delivered: seq<seq<Byte>>, rejected: nat, buf: seq<Byte>, cnt: nat, verdict: Verdict)

  function Completion(cfg: Config, buf: seq<Byte>, cnt: nat): Outcome
    decreases |buf|
  {
    if cnt + 1 > MAX_RECV_POST_CNT then Outcome([], 0, buf, cnt + 1, WrongRecvPostCount)
    else match FrontOf(cfg, buf)
      case NeedMore => Outcome([], 0, buf, cnt + 1, Continue)
      case Broken(why) => Outcome([], 0, buf, cnt + 1, why)
      case Overrun => Outcome([], 0, buf, cnt + 1, Overran)
      case Rejected(size) => Outcome([], size, buf[size..], cnt + 1, WrongChecksum)
      case Got(payload, size) =>
        var rest := Completion(cfg, buf[size..], 0);
        rest.(delivered := [payload] + rest.delivered)
  }

  lemma CompletionRound(cfg: Config, buf: seq<Byte>, cnt: nat)
    ensures var o, front := Completion(cfg, buf, cnt), FrontOf(cfg, buf);
            if cnt + 1 > MAX_RECV_POST_CNT then o == Outcome([], 0, buf, cnt + 1, WrongRecvPostCount)
            else if front.NeedMore? then o == Outcome([], 0, buf, cnt + 1, Continue)
            else if front.Broken? then o == Outcome([], 0, buf, cnt + 1, front.why)
            else if front.Overrun? then o == Outcome([], 0, buf, cnt + 1, Overran)
            else if front.Rejected? then o == Outcome([], front.size, buf[front.size..], cnt + 1, WrongChecksum)
            else var rest := Completion(cfg, buf[front.size..], 0);
                o == rest.(delivered := [front.payload] + rest.delivered)
  {
    hide FrontOf;
  }

  /** Peek and Dequeue: the bytes go to the beginning of the buffer, which must have room for them. */
  method CopyIn(iobuf: array<Byte>, bytes: seq<Byte>)
    requires |bytes| <= iobuf.Length
    modifies iobuf
    ensures iobuf[..|bytes|] == bytes && iobuf[|bytes|..] == old(iobuf[|bytes|..])
  {
    for i := 0 to |bytes|
      invariant iobuf[..i] == bytes[..i] && iobuf[i..] == old(iobuf[i..])
    {
      iobuf[i] := bytes[i];
    }
  }

  /** The receiving half of a session. */
  class Receiver {
    const cfg: Config
    var buf: seq<Byte>       // m_recvBuffer
    var recvPostCnt: nat

    constructor (cfg: Config)
      ensures this.cfg == cfg && buf == [] && recvPostCnt == 0
    {
      this.cfg := cfg;
      buf, recvPostCnt := [], 0;
    }

    /** Lines 83-134: look at the front of the buffer, and consume a whole frame. */
    method TakeFrame() returns (front: Front)
      modifies this`buf
      ensures front == FrontOf(cfg, old(buf))
      ensures buf == if front.Got? || front.Rejected? then old(buf)[front.size..] else old(buf)
    {
      hide CodeMatches, LenOf, Checksum, Decoded;
      if |buf| < HEADER { return NeedMore; }
      var header := buf[..HEADER];
      if !CodeMatches(cfg, header[0]) { return Broken(WrongCode); }
      var len := LenOf(header[1], header[2]);
      if len > PAYLOAD_LEN_DEFAULT { return Broken(WrongLen); }
      if |buf| < HEADER + len { return NeedMore; }
      if HEADER + len > PAYLOAD_LEN_DEFAULT { return Overrun; }
      var iobuf := new Byte[PAYLOAD_LEN_DEFAULT];
      var frame := buf[..HEADER + len];
      buf := buf[HEADER + len..];
      CopyIn(iobuf, frame);
      ghost var part := frame[4..];
      assert iobuf[4..HEADER + len] == part;
      if cfg.encryption {
        DecodeInPlace(iobuf, 4, len + 1, cfg.fixedKey, header[3]);
        assert iobuf[4..HEADER + len] == Decode(part, cfg.fixedKey, header[3]);
        var checksum := CalculateChecksum(iobuf, HEADER, len);
        assert iobuf[HEADER..HEADER + len] == iobuf[4..HEADER + len][1..] && iobuf[4] == iobuf[4..HEADER + len][0];
        if checksum != iobuf[4] { return Rejected(HEADER + len); }
      }
      front := Got(iobuf[HEADER..HEADER + len], HEADER + len);
      assert iobuf[HEADER..HEADER + len] == iobuf[4..HEADER + len][1..];
      assert part == old(buf)[4..HEADER + len] && part[1..] == old(buf)[HEADER..HEADER + len];
    }

    /** Lines 65-159 for one completion that received `bytes`. */
    method OnCompletion(bytes: seq<Byte>) returns (delivered: seq<seq<Byte>>, ghost rejected: nat, verdict: Verdict)
      modifies this`buf, this`recvPostCnt
      ensures Outcome(delivered, rejected, buf, recvPostCnt, verdict) ==
              Completion(cfg, old(buf) + bytes, old(recvPostCnt))
    {
      hide FrontOf, Completion;
      buf := buf + bytes;
      delivered, rejected, verdict := [], 0, Continue;
      ghost var whole := Completion(cfg, buf, recvPostCnt);
      while true
        invariant verdict == Continue && rejected == 0
        invariant var o := Completion(cfg, buf, recvPostCnt); whole == o.(delivered := delivered + o.delivered)
        decreases |buf|
      {
        CompletionRound(cfg, buf, recvPostCnt);
        recvPostCnt := recvPostCnt + 1;
        if recvPostCnt > MAX_RECV_POST_CNT { verdict := WrongRecvPostCount; break; }
        var front := TakeFrame();
        if front.NeedMore? { break; }
        if front.Broken? { verdict := front.why; break; }
        if front.Overrun? { verdict := Overran; break; }
        if front.Rejected? { rejected, verdict := front.size, WrongChecksum; break; }
        recvPostCnt := 0;
        delivered := delivered + [front.payload];
      }
    }
  }
}
