/** Whole runs of the session machine. */
module SessionRuns {
  import opened Sums
  import opened SessionSpec
  import opened SessionProof

  lemma InstructionOk(s: State, i: nat)
    requires Inv(s) && Enabled(s, Step(i)) && Bounded(s, Step(i))
    ensures Inv(Instruction(s, i))
  {
    hide Inv, Instruction;
    match s.acts[i]
    case Find(_) => FindOk(s, i);
    case Check(_) => CheckOk(s, i);
    case Pending(_, _) => CompleteOk(s, i);
    case AtRelease(_) => ReleaseOk(s, i);
    case Cleaning(_) => CleaningOk(s, i);
    case LeavePosted(_) => LeavePostedOk(s, i);
    case Leaving(_) => LeavingOk(s, i);
    case LeavePushed => LeavePushedOk(s, i);
    case _ => assert false;
  }

  lemma StepKeepsInv(s: State, act: Action)
    requires Inv(s) && Enabled(s, act) && Bounded(s, act)
    ensures Inv(Next(s, act))
  {
    hide Inv, Instruction, RaiseStep, LowerStep, PostStep, AcceptStep;
    match act
    case Spawn(i, h) => SpawnOk(s, i, h);
    case Accept(admit) => AcceptOk(s, admit);
    case Step(i) => InstructionOk(s, i);
    case Raise(i) => RaiseOk(s, i);
    case Post(i) => PostOk(s, i);
    case Lower(i) => LowerOk(s, i);
  }

  lemma InitInv(io: seq<nat>, activities: nat)
    ensures Inv(Init(io, activities))
  {
    var s := Init(io, activities);
    forall k | 0 <= k < Max(s)
      ensures SlotInv(s, k)
    {
      SumZero(s.acts, RefWeight(k));
      SumZero(s.acts, MainWeight(k));
      SumZero(s.acts, CustodyWeight(k));
      CountsOnce(|io|, k);
    }
    SumZero(s.acts, PushedWeight);
    SumZero(s.acts, UnleftWeight);
  }

  lemma {:induction false} CountsOnce(n: nat, k: nat)
    ensures multiset(seq(n, i => i))[k] == if k < n then 1 else 0
  {
    if n > 0 {
      CountsOnce(n - 1, k);
      assert seq(n, i => i) == seq(n - 1, i => i) + [n - 1];
    }
  }

  /** `acts`, each enabled and, if asked, inside the bounds on the word, lead from `s` to `s'`. */
  ghost predicate Run(s: State, acts: seq<Action>, bounded: bool, s': State)
    decreases |acts|
  {
    if acts == [] then s' == s else
      Enabled(s, acts[0]) && (bounded ==> Bounded(s, acts[0])) && Run(Next(s, acts[0]), acts[1..], bounded, s')
  }

  lemma {:induction false} RunKeepsInv(s: State, acts: seq<Action>, s': State)
    requires Inv(s) && Run(s, acts, true, s')
    ensures Inv(s')
    ensures s.released <= s'.released
    decreases |acts|
  {
    hide Inv, Next;
    if acts != [] {
      StepKeepsInv(s, acts[0]);
      ReleasedGrows(s, acts[0]);
      RunKeepsInv(Next(s, acts[0]), acts[1..], s');
    }
  }

  lemma ReleasedGrows(s: State, act: Action)
    requires Enabled(s, act)
    ensures s.released <= Next(s, act).released
  {
  }

  ghost predicate Reachable(bounded: bool, s: State) {
    exists io, activities, acts :: Run(Init(io, activities), acts, bounded, s)
  }

  lemma {:induction false} RunAppend(s: State, acts: seq<Action>, bounded: bool, m: State, act: Action)
    requires Run(s, acts, bounded, m) && Enabled(m, act) && (bounded ==> Bounded(m, act))
    ensures Run(s, acts + [act], bounded, Next(m, act))
    decreases |acts|
  {
    hide Next, Enabled, Bounded;
    if acts == [] {
      assert (acts + [act])[1..] == [];
    } else {
      RunAppend(Next(s, acts[0]), acts[1..], bounded, m, act);
      assert (acts + [act])[1..] == acts[1..] + [act];
    }
  }

  lemma Reach(bounded: bool, s: State, act: Action)
    requires Reachable(bounded, s) && Enabled(s, act) && (bounded ==> Bounded(s, act))
    ensures Reachable(bounded, Next(s, act))
  {
    hide Next, Enabled, Bounded, Run;
    var io, activities, acts :| Run(Init(io, activities), acts, bounded, s);
    RunAppend(Init(io, activities), acts, bounded, s, act);
  }

  lemma ReachableInv(s: State)
    requires Reachable(true, s)
    ensures Inv(s)
  {
    var io, activities, acts :| Run(Init(io, activities), acts, true, s);
    InitInv(io, activities);
    RunKeepsInv(Init(io, activities), acts, s);
  }

  // ---- What holds in every reachable state

  /**
   Conservation: the word of a live session is exactly the number of posted operations, pins
   and comparisons in progress on it, and a released session has none.
   */
  lemma WordCountsReferences(s: State, k: nat)
    requires Reachable(true, s) && k < Max(s)
    ensures k < |s.live| && (if s.live[k] then s.io[k] == Refs(s, k) <= 0xFF else Refs(s, k) == 0)
  {
    ReachableInv(s);
    assert SlotInv(s, k);
  }

  /** A session that FindSession returned is the one asked for, not released, and cannot be released meanwhile. */
  lemma PinHolds(s: State, i: nat)
    requires Reachable(true, s) && i < |s.acts| && s.acts[i].Pinned?
    ensures var h := s.acts[i].h;
            h.index < Max(s) <= |s.handle| && s.handle[h.index] == h && h !in s.released && s.io[h.index] != 0
  {
    ReachableInv(s);
    HolderPins(s, i);
    assert ActInv(s, s.acts[i]) && SlotInv(s, s.acts[i].h.index);
  }

  /**
   While a session is pinned, so while a packet is being put into its send queue, nobody is
   clearing the queue (757-758), leaving, or preparing the slot for its next session: no packet
   is enqueued on a session after its release cleared the queue.
   */
  lemma NoEnqueueAfterClear(s: State, i: nat, j: nat)
    requires Reachable(true, s) && i < |s.acts| && j < |s.acts| && s.acts[i].Pinned?
    ensures s.acts[j].Cleaning? || s.acts[j].LeavePosted? || s.acts[j].Leaving? ==> s.acts[j].k != s.acts[i].h.index
    ensures s.accept.Popped? || s.accept.Numbered? || s.accept.Named? ==> s.accept.k != s.acts[i].h.index
  {
    ReachableInv(s);
    HolderPins(s, i);
    var k := s.acts[i].h.index;
    assert ActInv(s, s.acts[i]) && SlotInv(s, k);
    SumAtLeast(s.acts, j, CustodyWeight(k));
  }

  /** Once released, a handle is rejected for the rest of the run, however often its slot is reused. */
  lemma StaleHandleRejected(s: State, acts: seq<Action>, s': State, h: Handle, i: nat)
    requires Reachable(true, s) && Run(s, acts, true, s') && h in s.released && i < |s'.acts|
    ensures !(s'.acts[i].Pinned? && s'.acts[i].h == h)
  {
    ReachableInv(s);
    RunKeepsInv(s, acts, s');
    assert h in s'.released;
    if s'.acts[i].Pinned? { PinnedNotReleased(s', i); }
  }

  lemma PinnedNotReleased(s: State, i: nat)
    requires Inv(s) && i < |s.acts| && s.acts[i].Pinned?
    ensures s.acts[i].h !in s.released
  {
    HolderPins(s, i);
    assert ActInv(s, s.acts[i]) && SlotInv(s, s.acts[i].h.index);
  }

  /** Each incarnation is released at most once and left at most once, and no leave is lost. */
  lemma OneReleaseOneLeave(s: State)
    requires Reachable(true, s)
    ensures Distinct(s.released) && Distinct(s.left)
    ensures forall h :: h in s.left ==> h in s.released
    ensures |s.released| == |s.left| + Sum(s.acts, UnleftWeight)
  {
    ReachableInv(s);
  }

  /** OnClientLeave overlaps no other use of its session, and the join and receive chain is one thread of control. */
  lemma LeaveOverlapsNothing(s: State, i: nat, j: nat)
    requires Reachable(true, s) && i < |s.acts| && j < |s.acts| && i != j
    requires s.acts[i].Leaving? || (s.acts[i].Work? && s.acts[i].main)
    requires SlotOf(s.acts[j]) == SlotOf(s.acts[i])
    ensures s.acts[i].Leaving? ==> !HoldsRefs(s.acts[j]) && !s.acts[j].Pending? && !s.acts[j].Leaving?
    ensures s.acts[i].Work? ==> !s.acts[j].Leaving? && !(s.acts[j].Work? && s.acts[j].main)
  {
    ReachableInv(s);
    var k := SlotOf(s.acts[i]);
    assert ActInv(s, s.acts[i]) && ActInv(s, s.acts[j]) && SlotInv(s, k);
    var lo, hi := if i < j then i else j, if i < j then j else i;
    SumAtLeastTwo(s.acts, lo, hi, CustodyWeight(k));
    SumAtLeastTwo(s.acts, lo, hi, MainWeight(k));
    SumAtLeast(s.acts, i, CustodyWeight(k));
    SumAtLeast(s.acts, j, CustodyWeight(k));
    SumAtLeast(s.acts, i, RefWeight(k));
    SumAtLeast(s.acts, j, RefWeight(k));
  }

  /**
   Indices: each one is in the pool, with accept, with a live session or on its way back,
   exactly once; and accept never finds the pool empty.
   */
  lemma IndicesPartition(s: State, k: nat)
    requires Reachable(true, s) && k < Max(s)
    ensures k < |s.live| && Custody(s, k) == 1
    ensures s.live[k] ==> k !in s.free
    ensures s.accept.Counted? ==> s.free != []
  {
    ReachableInv(s);
    assert SlotInv(s, k);
    if s.accept.Counted? { PopFinds(s); }
  }

  /** An instruction leaves the chain where it is: a completion hands it to the worker that takes it up. */
  lemma InstructionKeepsChain(s: State, i: nat, k: nat)
    requires Enabled(s, Step(i))
    ensures var s' := Instruction(s, i);
            |s'.acts| == |s.acts| && s'.acts == s.acts[i := s'.acts[i]] && MainOf(s'.acts[i], k) == MainOf(s.acts[i], k)
    ensures Instruction(s, i).accept == s.accept
  {
  }

  lemma PostPassesOn(s: State, i: nat, k: nat)
    requires i < |s.acts| && (s.acts[i].Pinned? || s.acts[i].Work?) && s.acts[i].refs <= 2
    ensures Sum(PostStep(s, i).acts, MainWeight(k)) == Sum(s.acts, MainWeight(k))
    ensures PostStep(s, i).accept == s.accept
  {
    var pc := s.acts[i];
    var rest := Less(pc);
    var left := if rest.Work? then rest.(main := false) else rest;
    var posted := Pending(SlotOf(pc), if pc.Work? && pc.main then Recv else Send);
    SumUpdate(s.acts, i, left, MainWeight(k));
    SumAppend(s.acts[i := left], posted, MainWeight(k));
  }

  lemma LowerKeepsChain(s: State, i: nat, k: nat)
    requires Inv(s) && Enabled(s, Lower(i))
    ensures Sum(LowerStep(s, i).acts, MainWeight(k)) ==
            Sum(s.acts, MainWeight(k)) - if s.acts[i] == Work(k, 1, true) then 1 else 0
    ensures LowerStep(s, i).accept == s.accept
  {
    assert ActInv(s, s.acts[i]);
    LowerOk(s, i);
    hide Inv;
    SumUpdate(s.acts, i, LowerStep(s, i).acts[i], MainWeight(k));
  }

  lemma RaiseKeepsChain(s: State, i: nat, k: nat)
    requires Inv(s) && Enabled(s, Raise(i)) && Bounded(s, Raise(i))
    ensures Sum(RaiseStep(s, i).acts, MainWeight(k)) == Sum(s.acts, MainWeight(k))
    ensures RaiseStep(s, i).accept == s.accept
  {
    RaiseOk(s, i);
    hide Inv;
    SumUpdate(s.acts, i, s.acts[i].(refs := 2), MainWeight(k));
    assert RaiseStep(s, i).acts == s.acts[i := s.acts[i].(refs := 2)];
  }

  /**
   The join and receive chain of a session is passed on by every post and is never lost: it begins
   with accept, and ends only with the last reference of a worker that holds it.
   */
  lemma ChainIsPassedOn(s: State, act: Action, k: nat)
    requires Inv(s) && Enabled(s, act) && Bounded(s, act) && k < Max(s)
    ensures var begins := act.Accept? && s.accept == Named(k);
            var ends := act.Lower? && s.acts[act.i] == Work(k, 1, true);
            Mains(Next(s, act), k) == Mains(s, k) + (if begins then 1 else 0) - (if ends then 1 else 0)
  {
    match act
    case Accept(_) =>
      if s.accept.Connected? { SumAppend(s.acts, Pending(s.accept.k, Enter), MainWeight(k)); }
    case Post(i) =>
      assert ActInv(s, s.acts[i]);
      hide Inv, PostStep;
      PostPassesOn(s, i, k);
    case Raise(i) => hide Inv, RaiseStep; RaiseKeepsChain(s, i, k);
    case Lower(i) => hide Inv, LowerStep; LowerKeepsChain(s, i, k);
    case Spawn(i, h) => hide Inv; SumUpdate(s.acts, i, Find(h), MainWeight(k));
    case Step(i) =>
      hide Inv, Instruction;
      InstructionKeepsChain(s, i, k);
      SumUpdate(s.acts, i, Instruction(s, i).acts[i], MainWeight(k));
  }

  /** With no leave half done, accept takes a new session exactly as long as a slot is free. */
  lemma AdmitsIffFree(s: State)
    requires Reachable(true, s) && s.accept.Waiting? && Sum(s.acts, PushedWeight) == 0
    ensures Enabled(s, Accept(true))
    ensures Next(s, Accept(true)).accept == if s.free != [] then Admitted else Waiting
  {
    ReachableInv(s);
  }

  /** The index pool is a stack: the index that a leave gives back is the next one that accept takes. */
  lemma LastBackIsFirstOut(s: State, i: nat)
    requires Inv(s) && Enabled(s, Step(i)) && s.acts[i].Leaving? && s.accept.Counted?
    ensures var k, s1 := s.acts[i].k, Next(s, Step(i));
            && Enabled(s1, Accept(true))
            && Next(s1, Accept(true)).accept == Popped(k) && Next(s1, Accept(true)).free == s.free
  {
    assert ActInv(s, s.acts[i]);
  }

  /** Before anybody has left, the sessions get the indices 0, 1, 2 and so on. */
  lemma IndicesInOrder(io: seq<nat>, activities: nat, n: nat)
    requires n < |io|
    ensures Init(io, activities).free[n] == n
  {
  }

  // ---- The word at its bounds

  /** The flag byte of an incremented word, for every word. */
  lemma IncrementFlag(w: nat)
    requires w < 0x1_0000
    ensures FlagOf(Inc16(w)) == 0 <==> w < 0xFF || w == 0xFFFF
  {
  }

  /** FindSession tells live from released exactly while the word has room. */
  lemma FindTellsLiveIffRoom(s: State, i: nat)
    requires Inv(s) && Enabled(s, Step(i)) && s.acts[i].Find?
    ensures (Instruction(s, i).acts[i].Check? <==> s.live[SlotOf(s.acts[i])]) <==> Room(s, SlotOf(s.acts[i]))
  {
    assert ActInv(s, s.acts[i]) && SlotInv(s, SlotOf(s.acts[i]));
    IncrementFlag(s.io[SlotOf(s.acts[i])]);
  }

  // ---- Past the bounds

  lemma Go(bounded: bool, s: State, act: Action, s': State)
    requires Reachable(bounded, s) && Enabled(s, act) && s' == Next(s, act) && (bounded ==> Bounded(s, act))
    ensures Reachable(bounded, s')
  {
    hide Next, Enabled, Reachable, Bounded;
    Reach(bounded, s, act);
  }

  const H: Handle := Handle(0, 1)

  function Idlers(n: nat): (acts: seq<Pc>)
    ensures |acts| == n
  {
    seq(n, _ => Idle)
  }

  /** One slot, and accept about to store IOCount = 1 for its first session `H`. */
  lemma Name(bounded: bool, n: nat) returns (s: State)
    ensures Reachable(bounded, s)
    ensures s == State([RELEASE_IOCOUNT], [H], [false], [], 1, 1, Named(0), Idlers(n), {}, [], [])
  {
    var s0 := Init([RELEASE_IOCOUNT], n);
    assert Run(s0, [], bounded, s0);
    hide Reachable, Run;
    assert s0.free == [0] && s0.handle == [Handle(0, 0)] && s0.live == [false] && s0.acts == Idlers(n);
    var s1 := s0.(accept := Admitted);
    Go(bounded, s0, Accept(true), s1);
    var s2 := s0.(accept := Counted, count := 1);
    Go(bounded, s1, Accept(true), s2);
    var s3 := s2.(accept := Popped(0), free := []);
    Go(bounded, s2, Accept(true), s3);
    var s4 := s3.(accept := Numbered(0, H), idPool := 1);
    Go(bounded, s3, Accept(true), s4);
    s := s4.(accept := Named(0), handle := [H]);
    Go(bounded, s4, Accept(true), s);
  }

  /** Its join has completed. */
  lemma Join(bounded: bool, n: nat) returns (s: State)
    ensures Reachable(bounded, s)
    ensures s.io == [1] && s.handle == [H] && s.live == [true] && s.known == {H}
    ensures s.acts == Idlers(n) + [Work(0, 1, true)] && s.released == []
  {
    hide Reachable;
    var s5 := Name(bounded, n);
    var s6 := s5.(accept := Connected(0), io := [1], live := [true]);
    Go(bounded, s5, Accept(true), s6);
    var s7 := s6.(accept := Waiting, acts := Idlers(n) + [Pending(0, Enter)]);
    Go(bounded, s6, Accept(true), s7);
    s := s7.(acts := Idlers(n) + [Work(0, 1, true)], known := {H});
    Go(bounded, s7, Step(n), s);
  }

  /** `H` is released and `misses` calls of FindSession have failed on its slot since. */
  lemma {:induction false} Missed(misses: nat) returns (s: State)
    requires RELEASE_IOCOUNT + misses <= 0xFFFF
    ensures Reachable(false, s)
    ensures s.io == [RELEASE_IOCOUNT + misses] && s.handle == [H] && s.live == [false] && s.known == {H}
    ensures s.acts == [Idle, Cleaning(0)] && s.released == [H]
  {
    if misses == 0 {
      var s0 := Join(false, 1);
      hide Reachable;
      assert s0.acts == [Idle, Work(0, 1, true)];
      var s1 := s0.(io := [0], acts := [Idle, AtRelease(0)]);
      Go(false, s0, Lower(1), s1);
      s := s0.(io := [RELEASE_IOCOUNT], live := [false], acts := [Idle, Cleaning(0)], released := [H]);
      Go(false, s1, Step(1), s);
    } else {
      var s0 := Missed(misses - 1);
      hide Reachable;
      var s1 := s0.(acts := [Find(H), Cleaning(0)]);
      Go(false, s0, Spawn(0, H), s1);
      s := s0.(io := [RELEASE_IOCOUNT + misses]);
      Go(false, s1, Step(0), s);
    }
  }

  /** After 0x11FF misses the word wraps, and FindSession returns the released session. */
  lemma ReleasedHandleFound() returns (s: State)
    ensures Reachable(false, s) && s.acts == [Pinned(H, 1), Cleaning(0)] && H in s.released
  {
    var s0 := Missed(0x11FF);
    hide Reachable;
    var s1 := s0.(acts := [Find(H), Cleaning(0)]);
    Go(false, s0, Spawn(0, H), s1);
    var s2 := s0.(io := [0], acts := [Check(H), Cleaning(0)]);
    Go(false, s1, Step(0), s2);
    s := s2.(acts := [Pinned(H, 1), Cleaning(0)]);
    Go(false, s2, Step(0), s);
  }

  /** The first `pins` of `n` callers hold a pin, the others are idle. */
  function Pinners(pins: nat, n: nat): (acts: seq<Pc>)
    ensures |acts| == n
  {
    seq(n, i => if i < pins then Pinned(H, 1) else Idle)
  }

  /** `H` lives, its join is at work, and `pins` of `n` callers hold it. */
  lemma {:induction false} Held(pins: nat, n: nat) returns (s: State)
    requires pins <= n && pins < 0xFF
    ensures Reachable(true, s)
    ensures s.io == [1 + pins] && s.handle == [H] && s.live == [true] && s.known == {H} && s.released == []
    ensures s.acts == Pinners(pins, n) + [Work(0, 1, true)]
  {
    if pins == 0 {
      s := Join(true, n);
      assert Pinners(0, n) == Idlers(n);
    } else {
      var s0 := Held(pins - 1, n);
      s := HoldOnce(pins - 1, n, s0);
    }
  }

  lemma HoldOnce(pins: nat, n: nat, s0: State) returns (s: State)
    requires pins < n && pins < 0xFE && Reachable(true, s0)
    requires s0.io == [1 + pins] && s0.handle == [H] && s0.live == [true] && s0.known == {H} && s0.released == []
    requires s0.acts == Pinners(pins, n) + [Work(0, 1, true)]
    ensures Reachable(true, s) && s == s0.(io := [2 + pins], acts := Pinners(pins + 1, n) + [Work(0, 1, true)])
  {
    hide Reachable;
    var s1 := s0.(acts := s0.acts[pins := Find(H)]);
    Go(true, s0, Spawn(pins, H), s1);
    var s2 := s0.(io := [2 + pins], acts := s0.acts[pins := Check(H)]);
    assert s2.acts == s1.acts[pins := Check(H)];
    Go(true, s1, Step(pins), s2);
    s := s0.(io := [2 + pins], acts := s0.acts[pins := Pinned(H, 1)]);
    assert s.acts == s2.acts[pins := Pinned(H, 1)];
    Go(true, s2, Step(pins), s);
    assert s.acts == Pinners(pins + 1, n) + [Work(0, 1, true)];
  }

  /** With 255 references the next FindSession sets the flag byte and is told that a live session is released. */
  lemma LiveHandleRejected() returns (s: State)
    ensures Reachable(true, s) && s.io == [0xFF] && s.live == [true] && s.handle == [H] && s.released == []
    ensures Enabled(s, Step(0xFE)) && s.acts[0xFE] == Find(H)
    ensures Next(s, Step(0xFE)).io == [0x100] && Next(s, Step(0xFE)).acts[0xFE].Idle?
  {
    var s0 := Held(0xFE, 0xFF);
    hide Reachable;
    s := s0.(acts := s0.acts[0xFE := Find(H)]);
    Go(true, s0, Spawn(0xFE, H), s);
  }
}
