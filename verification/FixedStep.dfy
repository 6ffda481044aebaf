/**
 The fixed-step update of a content, IOCPNetLib/NetLib_Server.cpp:222-248: a poll runs as many
 updates as whole frames have passed. Clock readings and m_lastUpdate are 32-bit and wrap.
 */
module FixedStep {

  const WRAP: nat := 0x1_0000_0000

  /** m_lastUpdate, and how many updates there have been. */
  datatype Clock = Clock(last: nat, updates: nat)

  /** One poll: as many updates as whole frames fit into the 32-bit difference. */
  function Polled(frequency: nat, c: Clock, now: nat): Clock
    requires frequency > 0
    requires c.last < WRAP
  {
    var frames := ((now + WRAP - c.last) % WRAP) / frequency;
    Clock((c.last + frames * frequency) % WRAP, c.updates + frames)
  }

  // ---- The code

  class Content {
    const frequency: nat     // (DWORD)m_msFrequency
    var lastUpdate: nat      // m_lastUpdate
    var updates: nat         // calls of Update

    ghost predicate Valid()
      reads this
    {
      0 < frequency < WRAP && lastUpdate < WRAP
    }

    /** REQUEST_CONTENT_BEGIN. */
    constructor (frequency: nat, now: nat)
      requires 0 < frequency < WRAP && now < WRAP
      ensures Valid() && this.frequency == frequency && lastUpdate == now && updates == 0
    {
      this.frequency, lastUpdate, updates := frequency, now, 0;
    }

    /** REQUEST_CONTENT_UPDATE. */
    method Poll(now: nat)
      requires Valid() && now < WRAP
      modifies this`lastUpdate, this`updates
      ensures Valid()
      ensures Clock(lastUpdate, updates) == Polled(frequency, old(Clock(lastUpdate, updates)), now)
    {
      hide Polled;
      ghost var start := Clock(lastUpdate, updates);
      var cd := (now + WRAP - lastUpdate) % WRAP;
      ghost var elapsed := cd;
      ghost var frames := 0;
      while cd >= frequency
        invariant Valid() && 0 <= cd < WRAP
        invariant elapsed == frames * frequency + cd
        invariant updates == start.updates + frames
        invariant lastUpdate == (start.last + frames * frequency) % WRAP
      {
        lastUpdate := (lastUpdate + frequency) % WRAP;
        updates := updates + 1;
        Subtract(cd, frequency);
        cd := (cd + WRAP - frequency) % WRAP;
        OneMore(start.last, frames, frequency);
        Distribute(frames, 1, frequency);
        frames := frames + 1;
      }
      CaughtUp(frequency, start, now, frames, cd);
    }
  }

  // ---- Runs of polls, at times counted without wrapping

  function Last(begin: nat, times: seq<nat>): nat {
    if times == [] then begin else times[|times| - 1]
  }

  ghost predicate Ordered(begin: nat, times: seq<nat>) {
    forall i :: 0 <= i < |times| ==> Last(begin, times[..i]) <= times[i]
  }

  function After(frequency: nat, begin: nat, times: seq<nat>): (c: Clock)
    requires frequency > 0
    ensures c.last < WRAP
  {
    if times == [] then Clock(begin % WRAP, 0)
    else Polled(frequency, After(frequency, begin, times[..|times| - 1]), times[|times| - 1] % WRAP)
  }

  /** What the poll finds to catch up on, the rest of the frame begun before included, is shorter than the wrap. */
  predicate Timely(frequency: nat, begin: nat, prev: nat, now: nat)
    requires frequency > 0 && begin <= prev <= now
  {
    (prev - begin) % frequency + (now - prev) < WRAP
  }

  ghost predicate AllTimely(frequency: nat, begin: nat, times: seq<nat>)
    requires frequency > 0
  {
    forall i :: 0 <= i < |times| ==>
      begin <= Last(begin, times[..i]) <= times[i] && Timely(frequency, begin, Last(begin, times[..i]), times[i])
  }

  /** The moment that the updates so far account for. */
  function Accounted(frequency: nat, begin: nat, times: seq<nat>): nat
    requires frequency > 0
  {
    begin + After(frequency, begin, times).updates * frequency
  }

  lemma OneMore(last: nat, frames: nat, frequency: nat)
    ensures ((last + frames * frequency) % WRAP + frequency) % WRAP == (last + (frames + 1) * frequency) % WRAP
  {
    ModAdd(last + frames * frequency, frequency);
  }

  lemma ModAdd(a: nat, b: nat)
    ensures (a % WRAP + b) % WRAP == (a + b) % WRAP
  {
  }

  /** A wrapped difference of wrapped clocks is the true difference, wrapped. */
  lemma WrappedDifference(now: nat, then_: nat)
    requires then_ <= now
    ensures (now % WRAP + WRAP - then_ % WRAP) % WRAP == (now - then_) % WRAP
  {
  }

  lemma Quotient(a: nat, b: nat, q: nat, r: nat)
    requires b > 0 && a == q * b + r && r < b
    ensures a / b == q && a % b == r
  {
    var k: int := q as int - (a / b) as int;
    assert a == a / b * b + a % b;
    assert k * b == q * b - a / b * b;
    Multiple(k, b);
  }

  lemma Multiple(k: int, b: nat)
    requires -(b as int) < k * (b as int) < b
    ensures k == 0
  {
  }

  lemma Distribute(x: nat, y: nat, f: nat)
    ensures (x + y) * f == x * f + y * f
  {
  }

  /** A whole frame behind is too few. */
  lemma Behind(a: nat, b: nat, q: nat)
    requires b > 0 && q * b + b <= a
    ensures a / b != q
  {
    assert a == a / b * b + a % b;
  }

  lemma Small(d: nat)
    requires d < WRAP
    ensures d % WRAP == d
  {
  }

  lemma Large(d: nat)
    requires d >= WRAP
    ensures d - d % WRAP >= WRAP
  {
  }

  lemma ModSmall(d: nat, part: nat)
    requires part <= d % WRAP
    ensures part <= d && (d - part) % WRAP == d % WRAP - part
  {
  }

  lemma Subtract(cd: nat, frequency: nat)
    requires frequency <= cd < WRAP
    ensures (cd + WRAP - frequency) % WRAP == cd - frequency
  {
  }

  lemma CaughtUp(frequency: nat, c: Clock, now: nat, frames: nat, rest: nat)
    requires c.last < WRAP && now < WRAP && rest < frequency
    requires (now + WRAP - c.last) % WRAP == frames * frequency + rest
    ensures Polled(frequency, c, now) == Clock((c.last + frames * frequency) % WRAP, c.updates + frames)
  {
    Quotient(frames * frequency + rest, frequency, frames, rest);
  }

  /** What one poll does to the true time, from `accounted` on. */
  lemma PollAccounts(frequency: nat, c: Clock, accounted: nat, now: nat) returns (frames: nat)
    requires 0 < frequency && c.last == accounted % WRAP && accounted <= now
    ensures Polled(frequency, c, now % WRAP) == Clock((accounted + frames * frequency) % WRAP, c.updates + frames)
    ensures 0 <= (now - accounted) % WRAP - frames * frequency < frequency
  {
    WrappedDifference(now, accounted);
    var behind := (now - accounted) % WRAP;
    frames := behind / frequency;
    assert behind - frames * frequency == behind % frequency;
    hide WRAP;
    ModAdd(accounted, frames * frequency);
  }

  ghost predicate Accurate(frequency: nat, begin: nat, times: seq<nat>)
    requires frequency > 0
  {
    var now := Last(begin, times);
    && begin <= Accounted(frequency, begin, times) <= now
    && After(frequency, begin, times).last == Accounted(frequency, begin, times) % WRAP
    && (if AllTimely(frequency, begin, times) then now - Accounted(frequency, begin, times) == (now - begin) % frequency
        else now - Accounted(frequency, begin, times) >= WRAP)
  }

  lemma TimelyPrefix(frequency: nat, begin: nat, times: seq<nat>)
    requires 0 < frequency && times != [] && Ordered(begin, times)
    ensures var front := times[..|times| - 1];
            Ordered(begin, front) && Last(begin, front) <= times[|times| - 1] &&
            (begin <= Last(begin, front) ==>
              (AllTimely(frequency, begin, times) <==>
               AllTimely(frequency, begin, front) && Timely(frequency, begin, Last(begin, front), times[|times| - 1])))
  {
    hide Timely;
    var front := times[..|times| - 1];
    assert forall i :: 0 <= i < |front| ==> times[..i] == front[..i];
  }

  lemma {:induction false} RunAccurate(frequency: nat, begin: nat, times: seq<nat>)
    requires 0 < frequency < WRAP && Ordered(begin, times)
    ensures Accurate(frequency, begin, times)
  {
    if times == [] {
      Quotient(0, frequency, 0, 0);
    } else {
      hide AllTimely, Timely, After;
      TimelyPrefix(frequency, begin, times);
      RunAccurate(frequency, begin, times[..|times| - 1]);
      StepAccurate(frequency, begin, times);
    }
  }

  /** The last poll of a run, in true time: `caught` of the difference `d` is caught up with. */
  lemma LastPoll(frequency: nat, begin: nat, times: seq<nat>)
    returns (d: nat, frames: nat)
    requires 0 < frequency < WRAP && times != []
    requires Accurate(frequency, begin, times[..|times| - 1]) && Last(begin, times[..|times| - 1]) <= times[|times| - 1]
    ensures d == times[|times| - 1] - Accounted(frequency, begin, times[..|times| - 1])
    ensures After(frequency, begin, times).updates == After(frequency, begin, times[..|times| - 1]).updates + frames
    ensures Accounted(frequency, begin, times) == Accounted(frequency, begin, times[..|times| - 1]) + frames * frequency
    ensures After(frequency, begin, times).last == Accounted(frequency, begin, times) % WRAP
    ensures 0 <= d % WRAP - frames * frequency < frequency
  {
    hide AllTimely, Polled;
    var front, now := times[..|times| - 1], times[|times| - 1];
    var c, a := After(frequency, begin, front), Accounted(frequency, begin, front);
    d := now - a;
    frames := PollAccounts(frequency, c, a, now);
    Distribute(c.updates, frames, frequency);
  }

  lemma StepAccurate(frequency: nat, begin: nat, times: seq<nat>)
    requires 0 < frequency < WRAP && times != []
    requires var front := times[..|times| - 1];
             Accurate(frequency, begin, front) && Last(begin, front) <= times[|times| - 1] &&
             (AllTimely(frequency, begin, times) <==>
              AllTimely(frequency, begin, front) && Timely(frequency, begin, Last(begin, front), times[|times| - 1]))
    ensures Accurate(frequency, begin, times)
  {
    hide AllTimely, After;
    var d, frames := LastPoll(frequency, begin, times);
    ModSmall(d, frames * frequency);
    if AllTimely(frequency, begin, times) {
      Small(d);
      Quotient(times[|times| - 1] - begin, frequency, After(frequency, begin, times).updates, d - frames * frequency);
    } else {
      Large(d);
    }
  }

  /**
   For every positive frequency and every run of polls: the number of updates is the number of
   whole frames since the beginning if and only if every poll was timely; a poll that comes
   too late loses updates for good. Either way m_lastUpdate, as a wrapped clock, is less than
   one frame behind.
   */
  lemma NoDriftIffTimely(frequency: nat, begin: nat, times: seq<nat>)
    requires 0 < frequency < WRAP && Ordered(begin, times) && times != []
    ensures begin <= Last(begin, times)
    ensures After(frequency, begin, times).updates == (Last(begin, times) - begin) / frequency <==>
            AllTimely(frequency, begin, times)
    ensures (Last(begin, times) % WRAP + WRAP - After(frequency, begin, times).last) % WRAP < frequency
  {
    hide AllTimely, After;
    RunAccurate(frequency, begin, times);
    var now, updates := Last(begin, times), After(frequency, begin, times).updates;
    var a := Accounted(frequency, begin, times);
    if AllTimely(frequency, begin, times) {
      Quotient(now - begin, frequency, updates, now - a);
    } else {
      Behind(now - begin, frequency, updates);
    }
    LagWrapped(frequency, begin, times);
  }

  lemma LagWrapped(frequency: nat, begin: nat, times: seq<nat>)
    requires 0 < frequency < WRAP && Ordered(begin, times) && times != []
    ensures (Last(begin, times) % WRAP + WRAP - After(frequency, begin, times).last) % WRAP < frequency
  {
    hide AllTimely, After;
    var front, now := times[..|times| - 1], times[|times| - 1];
    TimelyPrefix(frequency, begin, times);
    RunAccurate(frequency, begin, front);
    var d, frames := LastPoll(frequency, begin, times);
    ModSmall(d, frames * frequency);
    WrappedDifference(now, Accounted(frequency, begin, times));
  }

  /** Gaps of at most the wrap less one frame are always short enough. */
  lemma ShortGapsAreTimely(frequency: nat, begin: nat, times: seq<nat>)
    requires 0 < frequency < WRAP && Ordered(begin, times)
    requires forall i :: 0 <= i < |times| ==>
            begin <= Last(begin, times[..i]) && times[i] - Last(begin, times[..i]) + frequency <= WRAP
    ensures AllTimely(frequency, begin, times)
  {
    forall i | 0 <= i < |times|
      ensures begin <= Last(begin, times[..i]) <= times[i] &&
              Timely(frequency, begin, Last(begin, times[..i]), times[i])
    {
    }
  }
}
