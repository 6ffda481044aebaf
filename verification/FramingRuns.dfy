/** The receive loop over many completions, the round trip with the sender, and the bounds of the buffers. */
module FramingRuns {
  import opened SimpleEncoder
  import opened Framing

  // ---- The stream as a whole

  /** All frames of a byte stream, the bytes behind them, and why there is no further frame. */
  datatype Parsed = Parsed(payloads: seq<seq<Byte>>, rest: seq<Byte>, stop: Front)

  function Parse(cfg: Config, bytes: seq<Byte>): (p: Parsed)
    ensures !p.stop.Got? && p.stop == FrontOf(cfg, p.rest)
    decreases |bytes|
  {
    var front := FrontOf(cfg, bytes);
    if front.Got? then
      var p := Parse(cfg, bytes[front.size..]);
      p.(payloads := [front.payload] + p.payloads)
    else Parsed([], bytes, front)
  }

  function VerdictOf(stop: Front): Verdict {
    if stop.Rejected? then WrongChecksum
    else if stop.Broken? then stop.why
    else if stop.Overrun? then Overran
    else Continue
  }

  /** More bytes never change a front that was already decided. */
  lemma FrontStays(cfg: Config, a: seq<Byte>, b: seq<Byte>)
    requires !FrontOf(cfg, a).NeedMore?
    ensures FrontOf(cfg, a + b) == FrontOf(cfg, a)
  {
    hide CodeMatches, LenOf, Checksum, Decoded;
    var len := LenOf(a[1], a[2]);
    if CodeMatches(cfg, a[0]) && len <= PAYLOAD_LEN_DEFAULT {
      assert (a + b)[HEADER..HEADER + len] == a[HEADER..HEADER + len];
      assert (a + b)[4..HEADER + len] == a[4..HEADER + len];
    }
  }

  /** Parsing can be interrupted where it asked for more bytes, and resumed with the rest. */
  lemma {:induction false} ParseAppend(cfg: Config, a: seq<Byte>, b: seq<Byte>)
    ensures var p := Parse(cfg, a);
            Parse(cfg, a + b) ==
            if p.stop.NeedMore? then Parse(cfg, p.rest + b).(payloads := p.payloads + Parse(cfg, p.rest + b).payloads)
            else p.(rest := p.rest + b)
    decreases |a|
  {
    hide FrontOf;
    var front := FrontOf(cfg, a);
    if !front.NeedMore? {
      FrontStays(cfg, a, b);
    }
    if front.Got? {
      assert (a + b)[front.size..] == a[front.size..] + b;
      ParseAppend(cfg, a[front.size..], b);
    }
  }

  /** A completion is the parser, as long as the recv counter has not run out. */
  lemma {:induction false} CompletionParses(cfg: Config, buf: seq<Byte>, cnt: nat)
    ensures var o, p := Completion(cfg, buf, cnt), Parse(cfg, buf);
            if cnt >= MAX_RECV_POST_CNT then o == Outcome([], 0, buf, cnt + 1, WrongRecvPostCount)
            else o == Outcome(p.payloads, if p.stop.Rejected? then p.stop.size else 0,
                              if p.stop.Rejected? then p.rest[p.stop.size..] else p.rest,
                              if p.payloads == [] then cnt + 1 else 1, VerdictOf(p.stop))
    decreases |buf|
  {
    hide FrontOf;
    var front := FrontOf(cfg, buf);
    if cnt < MAX_RECV_POST_CNT && front.Got? {
      CompletionParses(cfg, buf[front.size..], 0);
    }
  }

  // ---- Runs of completions

  function Concat(chunks: seq<seq<Byte>>): seq<Byte> {
    if chunks == [] then [] else Concat(chunks[..|chunks| - 1]) + chunks[|chunks| - 1]
  }

  /** Completions on a new session, up to the first disconnect request. */
  function Feed(cfg: Config, chunks: seq<seq<Byte>>): Outcome {
    if chunks == [] then Outcome([], 0, [], 0, Continue) else
      var o := Feed(cfg, chunks[..|chunks| - 1]);
      if o.verdict != Continue then o else After(cfg, o, chunks[|chunks| - 1])
  }

  /** One more completion after `o`. */
  function After(cfg: Config, o: Outcome, chunk: seq<Byte>): Outcome {
    var c := Completion(cfg, o.buf + chunk, o.cnt);
    c.(delivered := o.delivered + c.delivered, rejected := o.rejected + c.rejected)
  }

  lemma {:induction false} FeedStops(cfg: Config, chunks: seq<seq<Byte>>, i: nat)
    requires i <= |chunks| && Feed(cfg, chunks[..i]).verdict != Continue
    ensures Feed(cfg, chunks) == Feed(cfg, chunks[..i])
  {
    hide After;
    if i == |chunks| {
      assert chunks[..i] == chunks;
    } else {
      assert chunks[..|chunks| - 1][..i] == chunks[..i];
      FeedStops(cfg, chunks[..|chunks| - 1], i);
    }
  }

  /** The worker's loop over the completions of one session, up to the first disconnect request. */
  method Listen(cfg: Config, chunks: seq<seq<Byte>>) returns (delivered: seq<seq<Byte>>, verdict: Verdict)
    ensures delivered == Feed(cfg, chunks).delivered && verdict == Feed(cfg, chunks).verdict
  {
    hide Completion;
    var receiver := new Receiver(cfg);
    ghost var rejected := 0;
    delivered, verdict := [], Continue;
    var i := 0;
    while i < |chunks| && verdict == Continue
      invariant 0 <= i <= |chunks| && receiver.cfg == cfg && fresh(receiver)
      invariant Feed(cfg, chunks[..i]) == Outcome(delivered, rejected, receiver.buf, receiver.recvPostCnt, verdict)
    {
      var got, lost, asked := receiver.OnCompletion(chunks[i]);
      assert chunks[..i + 1][..i] == chunks[..i];
      delivered, rejected, verdict := delivered + got, rejected + lost, asked;
      i := i + 1;
    }
    if verdict != Continue { FeedStops(cfg, chunks, i); } else { assert chunks[..i] == chunks; }
  }

  /** What has been parsed once the first `j` completions are in. */
  function ParsedAt(cfg: Config, chunks: seq<seq<Byte>>, j: nat): Parsed
    requires j <= |chunks|
  {
    Parse(cfg, Concat(chunks[..j]))
  }

  lemma ParsedNext(cfg: Config, chunks: seq<seq<Byte>>)
    requires chunks != []
    ensures var p, q := ParsedAt(cfg, chunks, |chunks| - 1), ParsedAt(cfg, chunks, |chunks|);
            if p.stop.NeedMore? then
              var more := Parse(cfg, p.rest + chunks[|chunks| - 1]);
              q == more.(payloads := p.payloads + more.payloads)
            else q == p.(rest := p.rest + chunks[|chunks| - 1])
  {
    hide Parse;
    assert chunks[..|chunks|] == chunks;
    ParseAppend(cfg, Concat(chunks[..|chunks| - 1]), chunks[|chunks| - 1]);
  }

  /**
   For every byte stream and every way of cutting it: what is delivered before the first
   disconnect request, or before the source would leave its buffers, is what the parser finds
   in the whole stream, and so is the reason to stop; if the counter cuts the stream off, a
   prefix of it.
   */
  lemma {:induction false} FeedParses(cfg: Config, chunks: seq<seq<Byte>>)
    ensures var f, p := Feed(cfg, chunks), Parse(cfg, Concat(chunks));
            if f.verdict == WrongRecvPostCount then f.delivered <= p.payloads
            else
              && f.delivered == p.payloads && f.verdict == VerdictOf(p.stop)
              && (f.verdict == Continue ==> f.buf == p.rest)
  {
    hide Parse, Completion, FrontOf;
    if chunks == [] {
      EmptyNeedsMore(cfg);
    } else {
      var front := chunks[..|chunks| - 1];
      FeedParses(cfg, front);
      ParsedNext(cfg, chunks);
      assert chunks[..|chunks|] == chunks;
      var o := Feed(cfg, front);
      if o.verdict == Continue {
        CompletionParses(cfg, o.buf + chunks[|chunks| - 1], o.cnt);
      }
    }
  }

  lemma EmptyNeedsMore(cfg: Config)
    ensures Parse(cfg, []) == Parsed([], [], NeedMore)
  {
  }

  /** Two ways of cutting the same bytes deliver the same and are disconnected for the same reason. */
  lemma ChunkingIrrelevant(cfg: Config, chunks: seq<seq<Byte>>, others: seq<seq<Byte>>)
    requires Concat(chunks) == Concat(others)
    requires Feed(cfg, chunks).verdict != WrongRecvPostCount && Feed(cfg, others).verdict != WrongRecvPostCount
    ensures Feed(cfg, chunks).delivered == Feed(cfg, others).delivered
    ensures Feed(cfg, chunks).verdict == Feed(cfg, others).verdict
  {
    FeedParses(cfg, chunks);
    FeedParses(cfg, others);
  }

  // ---- The recv counter

  function Done(cfg: Config, chunks: seq<seq<Byte>>, j: nat): nat
    requires j <= |chunks|
  {
    |ParsedAt(cfg, chunks, j).payloads|
  }

  lemma {:induction false} DoneGrows(cfg: Config, chunks: seq<seq<Byte>>, i: nat, j: nat)
    requires i <= j <= |chunks|
    ensures Done(cfg, chunks, i) <= Done(cfg, chunks, j)
    decreases j
  {
    hide Parse;
    if i < j {
      DoneGrows(cfg, chunks, i, j - 1);
      assert chunks[..j][..j - 1] == chunks[..j - 1] && chunks[..j][..j] == chunks[..j];
      ParsedNext(cfg, chunks[..j]);
    }
  }

  /** The counter after a clean run is the number of completions since the last one that delivered. */
  ghost predicate CountsSince(cfg: Config, chunks: seq<seq<Byte>>, cnt: nat) {
    && cnt <= |chunks| && (chunks != [] ==> cnt > 0)
    && (cnt > 0 ==> Done(cfg, chunks, |chunks| - cnt + 1) == Done(cfg, chunks, |chunks|))
    && (cnt < |chunks| ==> Done(cfg, chunks, |chunks| - cnt) < Done(cfg, chunks, |chunks|))
  }

  lemma DonePrefix(cfg: Config, chunks: seq<seq<Byte>>, i: nat)
    requires chunks != [] && i < |chunks|
    ensures Done(cfg, chunks[..|chunks| - 1], i) == Done(cfg, chunks, i)
  {
    assert chunks[..|chunks| - 1][..i] == chunks[..i];
  }

  lemma {:induction false} CounterIs(cfg: Config, chunks: seq<seq<Byte>>)
    requires Feed(cfg, chunks).verdict == Continue
    ensures CountsSince(cfg, chunks, Feed(cfg, chunks).cnt)
  {
    hide Parse, Completion, FrontOf, Done;
    if chunks != [] {
      var front := chunks[..|chunks| - 1];
      var o := Feed(cfg, front);
      CounterIs(cfg, front);
      CompletionParses(cfg, o.buf + chunks[|chunks| - 1], o.cnt);
      CountsOneMore(cfg, chunks);
    }
  }

  lemma CountsOneMore(cfg: Config, chunks: seq<seq<Byte>>)
    requires chunks != []
    requires var o := Feed(cfg, chunks[..|chunks| - 1]);
            o.verdict == Continue && CountsSince(cfg, chunks[..|chunks| - 1], o.cnt)
    ensures var o := Feed(cfg, chunks[..|chunks| - 1]);
            CountsSince(cfg, chunks, if Parse(cfg, o.buf + chunks[|chunks| - 1]).payloads == [] then o.cnt + 1 else 1)
  {
    hide Parse, Completion, FrontOf;
    var n := |chunks|;
    var front := chunks[..n - 1];
    var o := Feed(cfg, front);
    FeedParses(cfg, front);
    ParsedNext(cfg, chunks);
    assert chunks[..n - 1] == front;
    DonePrefix(cfg, chunks, n - 1);
    DonePrefix(cfg, chunks, n - 1 - o.cnt);
    if o.cnt > 0 { DonePrefix(cfg, chunks, n - 1 - o.cnt + 1); }
  }

  /** Completion `j` comes when the bytes so far are in order but the nine before it finished no frame. */
  ghost predicate Stalled(cfg: Config, chunks: seq<seq<Byte>>, j: nat) {
    && 10 <= j < |chunks|
    && ParsedAt(cfg, chunks, j).stop.NeedMore?
    && Done(cfg, chunks, j) == Done(cfg, chunks, j - 9)
  }

  /** The counter is exhausted exactly after nine fruitless completions that are not the first ones. */
  lemma RunsOutIff(cfg: Config, chunks: seq<seq<Byte>>, cnt: nat)
    requires CountsSince(cfg, chunks, cnt)
    ensures cnt >= MAX_RECV_POST_CNT <==>
            |chunks| >= 10 && Done(cfg, chunks, |chunks|) == Done(cfg, chunks, |chunks| - 9)
  {
    hide Done;
    var n := |chunks|;
    if cnt >= MAX_RECV_POST_CNT {
      DoneGrows(cfg, chunks, n - cnt + 1, n - 9);
      DoneGrows(cfg, chunks, n - 9, n);
    } else if n >= 10 {
      DoneGrows(cfg, chunks, n - 9, n - cnt);
    }
  }

  /** Exactly which streams the recv counter cuts off, for arbitrary bytes. */
  lemma {:induction false} CutOffIff(cfg: Config, chunks: seq<seq<Byte>>)
    ensures Feed(cfg, chunks).verdict == WrongRecvPostCount <==> exists j: nat :: Stalled(cfg, chunks, j)
  {
    hide Parse, Completion, FrontOf, Done, ParsedAt;
    if chunks != [] {
      var n := |chunks|;
      var front := chunks[..n - 1];
      var o := Feed(cfg, front);
      CutOffIff(cfg, front);
      forall j | 10 <= j < n - 1
        ensures Stalled(cfg, chunks, j) <==> Stalled(cfg, front, j)
      {
        DonePrefix(cfg, chunks, j);
        DonePrefix(cfg, chunks, j - 9);
        ParsedAtPrefix(cfg, chunks, j);
      }
      CutOffAtLast(cfg, chunks);
    }
  }

  lemma ParsedAtPrefix(cfg: Config, chunks: seq<seq<Byte>>, i: nat)
    requires chunks != [] && i < |chunks|
    ensures ParsedAt(cfg, chunks[..|chunks| - 1], i) == ParsedAt(cfg, chunks, i)
  {
    assert chunks[..|chunks| - 1][..i] == chunks[..i];
  }

  lemma CutOffAtLast(cfg: Config, chunks: seq<seq<Byte>>)
    requires chunks != []
    ensures var o, f := Feed(cfg, chunks[..|chunks| - 1]), Feed(cfg, chunks);
            if o.verdict == Continue then f.verdict == WrongRecvPostCount <==> Stalled(cfg, chunks, |chunks| - 1)
            else o.verdict == f.verdict && (o.verdict != WrongRecvPostCount ==> !Stalled(cfg, chunks, |chunks| - 1))
  {
    hide Parse, Completion, FrontOf, Done, Stalled, CountsSince, Concat, ParsedAt;
    var n := |chunks|;
    var front := chunks[..n - 1];
    var o := Feed(cfg, front);
    FeedParses(cfg, front);
    StalledAtLast(cfg, chunks);
    if o.verdict == Continue {
      CompletionParses(cfg, o.buf + chunks[n - 1], o.cnt);
      CounterIs(cfg, front);
      RunsOutIff(cfg, front, o.cnt);
    }
  }

  lemma StalledAtLast(cfg: Config, chunks: seq<seq<Byte>>)
    requires chunks != []
    ensures var front := chunks[..|chunks| - 1];
            Stalled(cfg, chunks, |front|) <==>
            |front| >= 10 && Parse(cfg, Concat(front)).stop.NeedMore? &&
                Done(cfg, front, |front|) == Done(cfg, front, |front| - 9)
  {
    hide Parse, Concat, Done;
    var n := |chunks|;
    if n > 10 {
      assert chunks[..n - 1][..n - 1] == chunks[..n - 1];
      DonePrefix(cfg, chunks, n - 1);
      DonePrefix(cfg, chunks, n - 1 - 9);
    }
  }

  // ---- Round trip with the sender

  function Stream(cfg: Config, outs: seq<Outgoing>): seq<Byte>
    requires cfg.Valid()
  {
    if outs == [] then [] else Frame(cfg, outs[0]) + Stream(cfg, outs[1..])
  }

  function Bodies(outs: seq<Outgoing>): (r: seq<seq<Byte>>)
    ensures |r| == |outs|
  {
    if outs == [] then [] else [Body(outs[0].payload)] + Bodies(outs[1..])
  }

  function Payloads(outs: seq<Outgoing>): (r: seq<seq<Byte>>)
    ensures |r| == |outs|
  {
    if outs == [] then [] else [outs[0].payload] + Payloads(outs[1..])
  }

  /** How many whole frames of `outs` the first `n` bytes of their stream hold. */
  function Whole(outs: seq<Outgoing>, n: nat): nat {
    if outs == [] || n < HEADER + |Body(outs[0].payload)| then 0
    else 1 + Whole(outs[1..], n - HEADER - |Body(outs[0].payload)|)
  }

  /** A frame comes back as its body exactly when the sender's code is recognised. */
  lemma FrontOfFrame(cfg: Config, out: Outgoing, more: seq<Byte>)
    requires cfg.Valid()
    ensures FrontOf(cfg, Frame(cfg, out) + more) ==
            if cfg.headerCode >= 0 then Got(Body(out.payload), HEADER + |Body(out.payload)|) else Broken(WrongCode)
  {
    hide CodeByte, CodeMatches, Checksum, Encoded, Decoded, LenOf, LenBytes, Body;
    var body := Body(out.payload);
    var bytes := Frame(cfg, out) + more;
    CodeMatchesIff(cfg);
    LenRoundTrip(|body|);
    assert bytes[1] == LenBytes(|body|)[0] && bytes[2] == LenBytes(|body|)[1] && bytes[3] == out.randomKey;
    if cfg.encryption {
      EncodeIsBijection([Checksum(body)] + body, cfg.fixedKey, out.randomKey);
      assert bytes[4..HEADER + |body|] == Encode([Checksum(body)] + body, cfg.fixedKey, out.randomKey);
      assert ([Checksum(body)] + body)[1..] == body;
    } else {
      assert bytes[HEADER..HEADER + |body|] == body;
    }
  }

  lemma FrontOfPart(cfg: Config, out: Outgoing, n: nat)
    requires cfg.Valid() && cfg.headerCode >= 0 && n < |Frame(cfg, out)|
    ensures FrontOf(cfg, Frame(cfg, out)[..n]).NeedMore?
  {
    hide CodeByte, CodeMatches, Checksum, Encoded, Decoded, LenOf, LenBytes, Body;
    var part := Frame(cfg, out)[..n];
    CodeMatchesIff(cfg);
    LenRoundTrip(|Body(out.payload)|);
    if n >= HEADER {
      assert part[1] == LenBytes(|Body(out.payload)|)[0] && part[2] == LenBytes(|Body(out.payload)|)[1];
    }
  }

  /** The parser on any prefix of a sender's stream. */
  lemma {:induction false} ParsePrefix(cfg: Config, outs: seq<Outgoing>, n: nat)
    requires cfg.Valid() && cfg.headerCode >= 0 && n <= |Stream(cfg, outs)|
    ensures var p := Parse(cfg, Stream(cfg, outs)[..n]);
            p.stop.NeedMore? && |p.payloads| == Whole(outs, n) && p.payloads <= Bodies(outs)
    ensures n == |Stream(cfg, outs)| ==> Parse(cfg, Stream(cfg, outs)[..n]) == Parsed(Bodies(outs), [], NeedMore)
    decreases |outs|
  {
    hide FrontOf, Frame, Body;
    if outs == [] {
      EmptyNeedsMore(cfg);
    } else {
      var stream, frame := Stream(cfg, outs), Frame(cfg, outs[0]);
      assert stream[|frame|..] == Stream(cfg, outs[1..]);
      if n < |frame| {
        FrontOfPart(cfg, outs[0], n);
        assert stream[..n] == frame[..n];
      } else {
        ParsePrefix(cfg, outs[1..], n - |frame|);
        assert stream[..n] == frame + Stream(cfg, outs[1..])[..n - |frame|];
        FrontOfFrame(cfg, outs[0], Stream(cfg, outs[1..])[..n - |frame|]);
        assert stream[..n][|frame|..] == Stream(cfg, outs[1..])[..n - |frame|];
      }
    }
  }

  lemma {:induction false} ConcatPrefix(chunks: seq<seq<Byte>>, j: nat)
    requires j <= |chunks|
    ensures |Concat(chunks[..j])| <= |Concat(chunks)| && Concat(chunks[..j]) == Concat(chunks)[..|Concat(chunks[..j])|]
  {
    if j == |chunks| {
      assert chunks[..j] == chunks;
    } else {
      ConcatPrefix(chunks[..|chunks| - 1], j);
      assert chunks[..|chunks| - 1][..j] == chunks[..j];
    }
  }

  /** Nine completions in a row always finish a frame, except that the first ten need not. */
  ghost predicate Punctual(outs: seq<Outgoing>, chunks: seq<seq<Byte>>) {
    forall j :: 10 <= j < |chunks| ==> Whole(outs, |Concat(chunks[..j])|) > Whole(outs, |Concat(chunks[..j - 9])|)
  }

  lemma StalledIffLate(cfg: Config, outs: seq<Outgoing>, chunks: seq<seq<Byte>>, j: nat)
    requires cfg.Valid() && cfg.headerCode >= 0 && Concat(chunks) == Stream(cfg, outs) && 10 <= j < |chunks|
    ensures Stalled(cfg, chunks, j) <==> Whole(outs, |Concat(chunks[..j])|) <= Whole(outs, |Concat(chunks[..j - 9])|)
  {
    hide Parse, Concat, Whole, Stream, Bodies;
    ConcatPrefix(chunks, j);
    ConcatPrefix(chunks, j - 9);
    ParsePrefix(cfg, outs, |Concat(chunks[..j])|);
    ParsePrefix(cfg, outs, |Concat(chunks[..j - 9])|);
    DoneGrows(cfg, chunks, j - 9, j);
  }

  lemma CutOffIffLate(cfg: Config, outs: seq<Outgoing>, chunks: seq<seq<Byte>>)
    requires cfg.Valid() && cfg.headerCode >= 0 && Concat(chunks) == Stream(cfg, outs)
    ensures Feed(cfg, chunks).verdict == WrongRecvPostCount <==> !Punctual(outs, chunks)
  {
    hide Feed, Concat, Whole, Stream, ParsedAt, Done;
    CutOffIff(cfg, chunks);
    if Punctual(outs, chunks) {
      forall j: nat | Stalled(cfg, chunks, j)
        ensures false
      {
        StalledIffLate(cfg, outs, chunks, j);
      }
    } else {
      var j :| 10 <= j < |chunks| && Whole(outs, |Concat(chunks[..j])|) <= Whole(outs, |Concat(chunks[..j - 9])|);
      StalledIffLate(cfg, outs, chunks, j);
    }
  }

  lemma {:induction false} BodiesArePayloads(outs: seq<Outgoing>)
    ensures Bodies(outs) == Payloads(outs) <==>
            forall out :: out in outs ==> |out.payload| <= PAYLOAD_LEN_DEFAULT - HEADER
  {
    if outs != [] {
      BodiesArePayloads(outs[1..]);
      assert Bodies(outs)[0] == Body(outs[0].payload) && Bodies(outs)[1..] == Bodies(outs[1..]);
      assert Payloads(outs)[0] == outs[0].payload && Payloads(outs)[1..] == Payloads(outs[1..]);
      assert forall out :: out in outs <==> out == outs[0] || out in outs[1..];
    }
  }

  lemma StreamParsed(cfg: Config, outs: seq<Outgoing>)
    requires cfg.Valid() && outs != []
    ensures Parse(cfg, Stream(cfg, outs)) ==
            if cfg.headerCode >= 0 then Parsed(Bodies(outs), [], NeedMore)
            else Parsed([], Stream(cfg, outs), Broken(WrongCode))
  {
    hide FrontOf, Frame;
    if cfg.headerCode >= 0 {
      ParsePrefix(cfg, outs, |Stream(cfg, outs)|);
      assert Stream(cfg, outs)[..|Stream(cfg, outs)|] == Stream(cfg, outs);
    } else {
      FrontOfFrame(cfg, outs[0], Stream(cfg, outs[1..]));
    }
  }

  /**
   The round trip, for every list of packets and every way their stream is cut: the receiver
   delivers exactly the payloads sent, in order, and asks for no disconnect, if and only if
   the header code is not negative as a char, every payload fits the packet buffer, and
   frames are finished often enough for the recv counter.
   */
  lemma RoundTrip(cfg: Config, outs: seq<Outgoing>, chunks: seq<seq<Byte>>)
    requires cfg.Valid() && outs != [] && Concat(chunks) == Stream(cfg, outs)
    ensures Feed(cfg, chunks).verdict == Continue && Feed(cfg, chunks).delivered == Payloads(outs)
      <==> cfg.headerCode >= 0 && Punctual(outs, chunks) &&
           forall out :: out in outs ==> |out.payload| <= PAYLOAD_LEN_DEFAULT - HEADER
  {
    hide Parse, Feed, Concat, Stream, Bodies, Payloads, Punctual;
    FeedParses(cfg, chunks);
    StreamParsed(cfg, outs);
    BodiesArePayloads(outs);
    if cfg.headerCode >= 0 {
      CutOffIffLate(cfg, outs, chunks);
    }
  }

  // ---- Staying inside the buffers

  /** Where a frame has come whole with a good code and a permitted length, the length that the loop copies. */
  predicate Copies(cfg: Config, buf: seq<Byte>) {
    |buf| >= HEADER && CodeMatches(cfg, buf[0]) && LenOf(buf[1], buf[2]) <= PAYLOAD_LEN_DEFAULT &&
        |buf| >= HEADER + LenOf(buf[1], buf[2])
  }

  /** The announced lengths of the frames that the loop copies out of a byte stream. */
  function Copied(cfg: Config, bytes: seq<Byte>): seq<nat>
    decreases |bytes|
  {
    if !Copies(cfg, bytes) then [] else
      var front := FrontOf(cfg, bytes);
      [LenOf(bytes[1], bytes[2])] + if front.Got? then Copied(cfg, bytes[front.size..]) else []
  }

  lemma CopiedFront(cfg: Config, bytes: seq<Byte>)
    ensures Copies(cfg, bytes) ==> |bytes| >= HEADER
    ensures FrontOf(cfg, bytes).Overrun? <==>
            Copies(cfg, bytes) && LenOf(bytes[1], bytes[2]) > PAYLOAD_LEN_DEFAULT - HEADER
    ensures FrontOf(cfg, bytes).Got? ==> Copies(cfg, bytes)
  {
    hide CodeMatches, LenOf, Decoded, Checksum;
  }

  ghost predicate SomeLong(lens: seq<nat>) {
    exists len :: len in lens && len > PAYLOAD_LEN_DEFAULT - HEADER
  }

  lemma SomeLongFirst(first: nat, rest: seq<nat>)
    ensures SomeLong([first] + rest) <==> first > PAYLOAD_LEN_DEFAULT - HEADER || SomeLong(rest)
  {
    assert first in [first] + rest;
    if SomeLong(rest) {
      var len :| len in rest && len > PAYLOAD_LEN_DEFAULT - HEADER;
      assert len in [first] + rest;
    }
  }

  lemma {:induction false} OverrunIffLong(cfg: Config, bytes: seq<Byte>)
    ensures Parse(cfg, bytes).stop.Overrun? <==> SomeLong(Copied(cfg, bytes))
    decreases |bytes|
  {
    hide FrontOf, Copies, LenOf;
    var front := FrontOf(cfg, bytes);
    CopiedFront(cfg, bytes);
    if Copies(cfg, bytes) {
      var len, rest := LenOf(bytes[1], bytes[2]), if front.Got? then Copied(cfg, bytes[front.size..]) else [];
      assert Copied(cfg, bytes) == [len] + rest;
      SomeLongFirst(len, rest);
      if front.Got? { OverrunIffLong(cfg, bytes[front.size..]); }
    }
  }

  /**
   For all bytes and all ways of cutting them: the loop stays inside `iobuf` and the decoder's
   `temp` if and only if every length it copies is at most 1395, though the check lets 1400 pass.
   A stream that the recv counter cuts off is inside up to there.
   */
  lemma StaysInsideIffShort(cfg: Config, chunks: seq<seq<Byte>>)
    requires Feed(cfg, chunks).verdict != WrongRecvPostCount
    ensures Feed(cfg, chunks).verdict != Overran <==>
            forall len :: len in Copied(cfg, Concat(chunks)) ==> len <= PAYLOAD_LEN_DEFAULT - HEADER
  {
    hide Feed, Parse, Copied, Concat;
    FeedParses(cfg, chunks);
    OverrunIffLong(cfg, Concat(chunks));
  }

  /** Whatever part of a sender's stream has come, in whatever pieces, the receiver stays inside its buffers. */
  lemma SenderStaysInside(cfg: Config, outs: seq<Outgoing>, n: nat, chunks: seq<seq<Byte>>)
    requires cfg.Valid() && n <= |Stream(cfg, outs)| && Concat(chunks) == Stream(cfg, outs)[..n]
    ensures Feed(cfg, chunks).verdict != Overran
  {
    hide Feed, Concat, Stream, Parse;
    FeedParses(cfg, chunks);
    if cfg.headerCode >= 0 {
      ParsePrefix(cfg, outs, n);
    } else {
      PartRefused(cfg, outs, n);
    }
  }

  /** With a code that is not recognised no part of a stream gives the loop anything to copy. */
  lemma PartRefused(cfg: Config, outs: seq<Outgoing>, n: nat)
    requires cfg.Valid() && cfg.headerCode < 0 && n <= |Stream(cfg, outs)|
    ensures !Parse(cfg, Stream(cfg, outs)[..n]).stop.Overrun?
  {
    hide CodeMatches, LenOf, CodeByte, LenBytes, Encoded, Decoded, Checksum, Body;
    var part := Stream(cfg, outs)[..n];
    CodeMatchesIff(cfg);
    if n >= HEADER {
      assert part[0] == Frame(cfg, outs[0])[0] == CodeByte(cfg);
      assert FrontOf(cfg, part) == Broken(WrongCode);
    }
  }

  // ---- Completions after a disconnect request

  /**
   Completions on a new session, the loop going on after disconnect requests; the verdict is
   the last one. With an overrun it ends: what the source does then is not defined.
   */
  function Serve(cfg: Config, chunks: seq<seq<Byte>>): Outcome {
    if chunks == [] then Outcome([], 0, [], 0, Continue) else
      var o := Serve(cfg, chunks[..|chunks| - 1]);
      if o.verdict == Overran then o else After(cfg, o, chunks[|chunks| - 1])
  }

  function FrameBytes(payloads: seq<seq<Byte>>): nat {
    if payloads == [] then 0 else HEADER + |payloads[0]| + FrameBytes(payloads[1..])
  }

  lemma {:induction false} FrameBytesAppend(a: seq<seq<Byte>>, b: seq<seq<Byte>>)
    ensures FrameBytes(a + b) == FrameBytes(a) + FrameBytes(b)
  {
    if a == [] {
      assert a + b == b;
    } else {
      assert (a + b)[1..] == a[1..] + b;
      FrameBytesAppend(a[1..], b);
    }
  }

  lemma {:induction false} CompletionConserves(cfg: Config, buf: seq<Byte>, cnt: nat)
    ensures var o := Completion(cfg, buf, cnt); FrameBytes(o.delivered) + o.rejected + |o.buf| == |buf|
    decreases |buf|
  {
    hide FrontOf;
    var front := FrontOf(cfg, buf);
    if cnt < MAX_RECV_POST_CNT && front.Got? {
      var o := Completion(cfg, buf[front.size..], 0);
      CompletionConserves(cfg, buf[front.size..], 0);
      assert ([front.payload] + o.delivered)[1..] == o.delivered;
    }
  }

  /**
   Short of an overrun no byte is lost or counted twice: received is delivered, rejected or
   still buffered. Up to an overrun it is the same of the bytes that had come by then.
   */
  lemma {:induction false} BytesConserved(cfg: Config, chunks: seq<seq<Byte>>)
    ensures var s := Serve(cfg, chunks); var bytes := FrameBytes(s.delivered) + s.rejected + |s.buf|;
            if s.verdict != Overran then bytes == |Concat(chunks)|
            else exists i :: 0 < i <= |chunks| && bytes == |Concat(chunks[..i])|
  {
    hide Completion;
    if chunks != [] {
      var front := chunks[..|chunks| - 1];
      var o := Serve(cfg, front);
      BytesConserved(cfg, front);
      if o.verdict == Overran {
        var i :| 0 < i <= |front| && FrameBytes(o.delivered) + o.rejected + |o.buf| == |Concat(front[..i])|;
        assert front[..i] == chunks[..i];
        return;
      }
      assert chunks[..|chunks|] == chunks;
      CompletionConserves(cfg, o.buf + chunks[|chunks| - 1], o.cnt);
      FrameBytesAppend(o.delivered, Completion(cfg, o.buf + chunks[|chunks| - 1], o.cnt).delivered);
    }
  }

  /**
   A bad code, a bad length or an exhausted counter is for good: nothing is delivered any more and
   every byte stays.
   */
  lemma {:induction false} NothingAfter(cfg: Config, chunks: seq<seq<Byte>>, more: seq<seq<Byte>>)
    requires Serve(cfg, chunks).verdict in {WrongCode, WrongLen, WrongRecvPostCount}
    ensures var s, t := Serve(cfg, chunks), Serve(cfg, chunks + more);
            t.delivered == s.delivered && t.rejected == s.rejected && t.buf == s.buf + Concat(more) &&
            t.verdict in {WrongCode, WrongLen, WrongRecvPostCount}
    decreases |more|
  {
    hide Completion, FrontOf, Parse;
    if more == [] {
      assert chunks + more == chunks;
    } else {
      var less := more[..|more| - 1];
      NothingAfter(cfg, chunks, less);
      assert (chunks + more)[..|chunks + more| - 1] == chunks + less;
      StuckStep(cfg, chunks + less, more[|more| - 1]);
      assert chunks + more == (chunks + less) + [more[|more| - 1]];
    }
  }

  lemma StuckStep(cfg: Config, chunks: seq<seq<Byte>>, chunk: seq<Byte>)
    requires Serve(cfg, chunks).verdict in {WrongCode, WrongLen, WrongRecvPostCount}
    ensures var s, t := Serve(cfg, chunks), Serve(cfg, chunks + [chunk]);
            t.delivered == s.delivered && t.rejected == s.rejected && t.buf == s.buf + chunk &&
            t.verdict in {WrongCode, WrongLen, WrongRecvPostCount}
  {
    hide Completion, FrontOf;
    var s := Serve(cfg, chunks);
    assert chunks != [];
    assert (chunks + [chunk])[..|chunks|] == chunks;
    CompletionParses(cfg, s.buf + chunk, s.cnt);
    var o := Serve(cfg, chunks[..|chunks| - 1]);
    CompletionParses(cfg, o.buf + chunks[|chunks| - 1], o.cnt);
    if s.verdict != WrongRecvPostCount {
      assert FrontOf(cfg, s.buf).Broken?;
      FrontStays(cfg, s.buf, chunk);
    }
  }

  const RING_CAPACITY: nat := 2047

  /** After a clean completion less than one frame is buffered, so the next receive has room. */
  lemma RoomForNextReceive(cfg: Config, buf: seq<Byte>, cnt: nat)
    requires Completion(cfg, buf, cnt).verdict == Continue
    ensures |Completion(cfg, buf, cnt).buf| < HEADER + PAYLOAD_LEN_DEFAULT < RING_CAPACITY
  {
    hide LenOf, CodeMatches, Decoded, Checksum;
    CompletionParses(cfg, buf, cnt);
  }
}
