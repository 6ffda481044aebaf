/**
 Nothing is forgotten: when all is quiet every session that ever joined has been released
 once and left once, and every slot is back in the pool.
 */
module SessionRelease {
  import opened Sums
  import opened SessionSpec
  import opened SessionProof
  import opened SessionRuns

  ghost predicate Releasing(s: State, k: nat) {
    exists i :: 0 <= i < |s.acts| && s.acts[i] == AtRelease(k)
  }

  /** Somebody is between the release CAS of `h` and the worker that takes up its leave. */
  ghost predicate LeaveComing(s: State, h: Handle) {
    exists i :: 0 <= i < |s.acts| && (s.acts[i].Cleaning? || s.acts[i].LeavePosted?) && s.acts[i].k < |s.handle| &&
        s.handle[s.acts[i].k] == h
  }

  ghost predicate Holding(s: State, h: Handle) {
    h.index < |s.live| && h.index < |s.handle| && s.live[h.index] && s.handle[h.index] == h
  }

  ghost predicate ReleaserComing(s: State)
    requires Sized(s)
  {
    forall k :: 0 <= k < Max(s) && s.live[k] && s.io[k] == 0 ==> Releasing(s, k)
  }

  ghost predicate Remembered(s: State) {
    && Sized(s) && ReleaserComing(s)
    && (forall h :: h in s.known ==> h in s.released || Holding(s, h))
    && (forall h :: h in s.released ==> h in s.left || LeaveComing(s, h))
  }

  // ---- Every step

  /** Other activities keep their place. */
  lemma OthersStay(s: State, act: Action, j: nat)
    requires Inv(s) && Enabled(s, act) && j < |s.acts| && (act.Accept? || j != act.i)
    ensures j < |Next(s, act).acts| && Next(s, act).acts[j] == s.acts[j]
  {
    hide Inv;
  }

  /** An activity at the release CAS stays there until it does it; then the word is not 0 or the session not live. */
  lemma ReleasingKept(s: State, act: Action, k: nat)
    requires Inv(s) && Enabled(s, act) && Bounded(s, act) && k < Max(s)
    requires s.live[k] && s.io[k] == 0 && Releasing(s, k)
    ensures k < |Next(s, act).live| && k < |Next(s, act).io|
    ensures Next(s, act).live[k] && Next(s, act).io[k] == 0 ==> Releasing(Next(s, act), k)
  {
    var i :| 0 <= i < |s.acts| && s.acts[i] == AtRelease(k);
    if act.Accept? || i != act.i {
      OthersStay(s, act, i);
    }
  }

  /** A decrement to 0 sends its activity to the release CAS. */
  lemma LowerToZero(s: State, i: nat, k: nat)
    requires Inv(s) && Enabled(s, Lower(i)) && k < Max(s) && !(s.live[k] && s.io[k] == 0)
    ensures LowerStep(s, i).live[k] && LowerStep(s, i).io[k] == 0 ==> Releasing(LowerStep(s, i), k)
  {
    HolderPins(s, i);
    assert k == SlotOf(s.acts[i]) && s.io[k] == 1 ==> LowerStep(s, i).acts[i] == AtRelease(k);
  }

  /** No other step brings the word of a live session to 0. */
  lemma NoOtherZero(s: State, act: Action, k: nat)
    requires Inv(s) && Enabled(s, act) && Bounded(s, act) && !act.Lower? && k < Max(s) && !(s.live[k] && s.io[k] == 0)
    ensures k < |Next(s, act).live| && k < |Next(s, act).io|
    ensures !(Next(s, act).live[k] && Next(s, act).io[k] == 0)
  {
    assert SlotInv(s, k);
    if act.Raise? {
      HolderPins(s, act.i);
    } else if act.Step? {
      assert ActInv(s, s.acts[act.i]);
    }
  }

  lemma StepKeepsReleaser(s: State, act: Action)
    requires Inv(s) && Enabled(s, act) && Bounded(s, act) && ReleaserComing(s) && Sized(Next(s, act)) &&
            Max(Next(s, act)) == Max(s)
    ensures ReleaserComing(Next(s, act))
  {
    hide Inv, Releasing;
    var s' := Next(s, act);
    forall k | 0 <= k < Max(s') && s'.live[k] && s'.io[k] == 0
      ensures Releasing(s', k)
    {
      if s.live[k] && s.io[k] == 0 {
        ReleasingKept(s, act, k);
      } else if act.Lower? {
        LowerToZero(s, act.i, k);
      } else {
        NoOtherZero(s, act, k);
      }
    }
  }

  /** A live session keeps its slot and handle until the release CAS records it. */
  lemma HoldingKept(s: State, act: Action, h: Handle)
    requires Inv(s) && Enabled(s, act) && Holding(s, h)
    ensures Holding(Next(s, act), h) || h in Next(s, act).released
  {
    assert SlotInv(s, h.index);
    if act.Accept? { NumberedNotLive(s, h.index); }
  }

  /** Accept writes only to slots that are not live. */
  lemma NumberedNotLive(s: State, k: nat)
    requires Inv(s) && k < Max(s) && s.live[k]
    ensures !(s.accept.Numbered? && s.accept.k == k) && !(s.accept.Named? && s.accept.k == k)
  {
    assert SlotInv(s, k);
  }

  /** A handle becomes known by the completion of its join, which holds a reference. */
  lemma KnownKept(s: State, act: Action, h: Handle)
    requires Inv(s) && Remembered(s) && Enabled(s, act) && h in Next(s, act).known
    ensures h in Next(s, act).released || Holding(Next(s, act), h)
  {
    if h in s.known {
      if Holding(s, h) { HoldingKept(s, act, h); } else { ReleasedGrows(s, act); }
    } else {
      var i := act.i;
      HolderPins(s, i);
      assert SlotInv(s, SlotOf(s.acts[i]));
    }
  }

  lemma LeaveKeptComing(s: State, act: Action, h: Handle)
    requires Inv(s) && Enabled(s, act) && LeaveComing(s, h)
    ensures h in Next(s, act).left || LeaveComing(Next(s, act), h)
  {
    var i :| 0 <= i < |s.acts| && (s.acts[i].Cleaning? || s.acts[i].LeavePosted?) && s.acts[i].k < |s.handle| &&
        s.handle[s.acts[i].k] == h;
    var s' := Next(s, act);
    assert ActInv(s, s.acts[i]);
    if act.Accept? || i != act.i {
      OthersStay(s, act, i);
      if act.Accept? && s.accept.Numbered? { CustodyOne(s, i, s.accept.k); }
      assert s'.acts[i] == s.acts[i] && s'.handle[s.acts[i].k] == h;
    } else {
      assert s'.acts[i].LeavePosted? || h in s'.left;
    }
  }

  /** The slot accept is preparing is not the one that is being left. */
  lemma CustodyOne(s: State, i: nat, k: nat)
    requires Inv(s) && i < |s.acts| && (s.acts[i].Cleaning? || s.acts[i].LeavePosted?) && s.accept.Numbered? &&
            s.accept.k == k
    ensures s.acts[i].k != k
  {
    if s.acts[i].k == k {
      assert SlotInv(s, k);
      SumAtLeast(s.acts, i, CustodyWeight(k));
    }
  }

  lemma ReleasedKept(s: State, act: Action, h: Handle)
    requires Inv(s) && Remembered(s) && Enabled(s, act) && h in Next(s, act).released
    ensures h in Next(s, act).left || LeaveComing(Next(s, act), h)
  {
    if h in s.released {
      if LeaveComing(s, h) { LeaveKeptComing(s, act, h); }
    } else {
      assert Next(s, act).acts[act.i].Cleaning?;
    }
  }

  lemma SizesKept(s: State, act: Action)
    requires Inv(s) && Enabled(s, act)
    ensures Sized(Next(s, act)) && Max(Next(s, act)) == Max(s)
  {
  }

  lemma StepRemembers(s: State, act: Action)
    requires Inv(s) && Remembered(s) && Enabled(s, act) && Bounded(s, act)
    ensures Remembered(Next(s, act))
  {
    hide Inv, Next, Enabled, Bounded, LeaveComing, Holding, ReleaserComing;
    var s' := Next(s, act);
    SizesKept(s, act);
    StepKeepsReleaser(s, act);
    forall h | h in s'.known
      ensures h in s'.released || Holding(s', h)
    {
      KnownKept(s, act, h);
    }
    forall h | h in s'.released
      ensures h in s'.left || LeaveComing(s', h)
    {
      ReleasedKept(s, act, h);
    }
  }

  // ---- Every run

  lemma {:induction false} RunRemembers(s: State, acts: seq<Action>, s': State)
    requires Inv(s) && Remembered(s) && Run(s, acts, true, s')
    ensures Inv(s') && Remembered(s')
    decreases |acts|
  {
    hide Inv, Next, Remembered, Bounded;
    if acts != [] {
      StepKeepsInv(s, acts[0]);
      StepRemembers(s, acts[0]);
      RunRemembers(Next(s, acts[0]), acts[1..], s');
    }
  }

  lemma ReachableRemembers(s: State)
    requires Reachable(true, s)
    ensures Inv(s) && Remembered(s)
  {
    var io, activities, acts :| Run(Init(io, activities), acts, true, s);
    InitInv(io, activities);
    RunRemembers(Init(io, activities), acts, s);
  }

  /** A session without references has its releaser on the way; a released one has left or its leave is on the way. */
  lemma ReleaseOnItsWay(s: State, k: nat, h: Handle)
    requires Reachable(true, s) && k < Max(s)
    ensures k < |s.live| && (s.live[k] && s.io[k] == 0 ==> Releasing(s, k))
    ensures h in s.known ==> h in s.released || Holding(s, h)
    ensures h in s.released ==> h in s.left || LeaveComing(s, h)
  {
    ReachableRemembers(s);
  }

  /**
   What FindSession answers: a handle that was published and not released goes on to the
   comparison, and the comparison returns the session exactly as long as the handle is not released.
   */
  lemma FindAnswers(s: State, i: nat, h: Handle)
    requires Reachable(true, s) && Enabled(s, Step(i)) && Bounded(s, Step(i)) && h in s.known
    ensures s.acts[i] == Find(h) && h !in s.released ==> Next(s, Step(i)).acts[i] == Check(h)
    ensures s.acts[i] == Check(h) ==>
              Next(s, Step(i)).acts[i] == if h !in s.released then Pinned(h, 1) else Drop(h.index)
  {
    ReachableRemembers(s);
    assert h in s.released || Holding(s, h);
    if s.acts[i] == Find(h) {
      FindOk(s, i);
    } else if s.acts[i] == Check(h) {
      HolderPins(s, i);
      assert SlotInv(s, h.index);
    }
  }

  // ---- When all is quiet

  ghost predicate Quiet(s: State) {
    s.accept.Waiting? && forall i :: 0 <= i < |s.acts| ==> s.acts[i].Idle?
  }

  lemma QuietNotLive(s: State, k: nat)
    requires Inv(s) && Remembered(s) && Quiet(s) && k < Max(s)
    ensures !s.live[k] && multiset(s.free)[k] == 1
  {
    assert SlotInv(s, k);
    SumZero(s.acts, RefWeight(k));
    SumZero(s.acts, CustodyWeight(k));
  }

  /** A sequence that holds each number below `n` once and nothing else has length `n`. */
  lemma OnceEach(xs: seq<nat>, n: nat)
    requires forall k :: 0 <= k < n ==> multiset(xs)[k] == 1
    requires forall j :: 0 <= j < |xs| ==> xs[j] < n
    ensures |xs| == n
  {
    var all := seq(n, i => i);
    forall k: nat
      ensures multiset(xs)[k] == multiset(all)[k]
    {
      CountsOnce(n, k);
      if k >= n { assert k !in xs; }
    }
    assert multiset(xs) == multiset(all);
    assert |multiset(xs)| == |xs| && |multiset(all)| == |all|;
  }

  /**
   Exactly once: when no operation is pending and nobody is at work, every session that ever
   joined has been released once and left once, none is live, and every index is back.
   */
  lemma QuietAllReleasedOnce(s: State)
    requires Reachable(true, s) && Quiet(s)
    ensures forall k :: 0 <= k < Max(s) ==> k < |s.live| && !s.live[k] && k in s.free
    ensures forall h :: h in s.known ==> multiset(s.released)[h] == 1 && multiset(s.left)[h] == 1
    ensures |s.released| == |s.left| && |s.free| == Max(s) && s.count == 0
  {
    ReachableRemembers(s);
    forall k | 0 <= k < Max(s)
      ensures k < |s.live| && !s.live[k] && multiset(s.free)[k] == 1 && k in s.free
    {
      QuietNotLive(s, k);
      assert k in multiset(s.free);
    }
    OnceEach(s.free, Max(s));
    SumZero(s.acts, PushedWeight);
    SumZero(s.acts, UnleftWeight);
    forall h | h in s.known
      ensures multiset(s.released)[h] == 1 && multiset(s.left)[h] == 1
    {
      assert !Holding(s, h) && !LeaveComing(s, h);
      DistinctOnce(s.released, h);
      DistinctOnce(s.left, h);
    }
  }

  lemma {:induction false} DistinctOnce(xs: seq<Handle>, h: Handle)
    requires Distinct(xs) && h in xs
    ensures multiset(xs)[h] == 1
  {
    var rest, last := xs[..|xs| - 1], xs[|xs| - 1];
    assert xs == rest + [last];
    if h == last {
      assert h !in rest;
    } else {
      assert h in rest;
      DistinctOnce(rest, h);
    }
  }
}
