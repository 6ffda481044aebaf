/** What callers of the queue are told: every Enqueue and Dequeue that is over, over whole runs. */
module QueueCalls {
  import opened TaggedPointer
  import opened Sums
  import opened QueueSpec
  import opened QueueProof
  import opened QueueRuns
  import opened QueueExact

  function One(b: bool): nat { if b then 1 else 0 }

  /** How often `d` was linked, or dequeued. */
  function Count(items: seq<int>, d: int): nat { multiset(items)[d] }

  predicate Unlinked(pc: Pc) {
    pc.EnqNull? || pc.EnqCount? || pc.EnqMark? || pc.EnqTail? || pc.EnqNext? || pc.EnqHelp? || pc.EnqLink?
  }

  /** Enqueues of `d` that are under way and not linked yet. */
  function UnlinkedOf(d: int): Pc -> nat {
    (pc: Pc) => One(Unlinked(pc) && pc.d == d)
  }

  /** Dequeues that took `d` and have not returned it yet. */
  function UnreturnedOf(d: int): Pc -> nat {
    (pc: Pc) => One(pc.DeqFree? && pc.out == d)
  }

  function Dequeuing(pc: Pc): nat {
    One(!pc.Idle? && !EnqueuePc(pc))
  }

  // ---- What callers see of a step

  predicate Calls(act: Action, d: int) {
    act.CallEnqueue? && act.d == d
  }

  /** The step ends a Dequeue, which hands `out` to its caller. */
  predicate Returns(s: State, act: Action) {
    act.Resume? && act.t < |s.pcs| && s.pcs[act.t].DeqFree?
  }

  predicate ReturnsValue(s: State, act: Action, d: int) {
    Returns(s, act) && s.pcs[act.t].out == d
  }

  /** The step ends a Dequeue with -1. */
  predicate Refuses(s: State, act: Action) {
    act.Resume? && act.t < |s.pcs| && s.pcs[act.t].DeqUndo?
  }

  // ---- What a step does to the books

  /** What a step does to the part of its own thread. */
  ghost predicate OwnAccounts(s: State, act: Action, t: nat, s': State, d: int) {
    && t < |s.pcs| == |s'.pcs| && s'.pcs == s.pcs[t := s'.pcs[t]]
    && Count(s'.enqs, d) + UnlinkedOf(d)(s'.pcs[t]) == Count(s.enqs, d) + UnlinkedOf(d)(s.pcs[t]) + One(Calls(act, d))
    && Count(s'.deqs, d) + UnreturnedOf(d)(s.pcs[t]) ==
       Count(s.deqs, d) + UnreturnedOf(d)(s'.pcs[t]) + One(ReturnsValue(s, act, d))
    && Dequeuing(s'.pcs[t]) == Dequeuing(s.pcs[t]) + One(act.CallDequeue?) - One(Returns(s, act) || Refuses(s, act))
  }

  lemma CallAccounts(s: State, act: Action, d: int)
    requires Enabled(s, act) && (act.CallEnqueue? || act.CallDequeue?)
    ensures OwnAccounts(s, act, act.t, Next(s, act), d)
  {
  }

  lemma EnqueueAccounts(s: State, t: nat, d: int)
    requires t < |s.pcs| && EnqueuePc(s.pcs[t]) && !s.pcs[t].EnqLink?
    ensures OwnAccounts(s, Resume(t), t, Instruction(s, t), d)
  {
    hide Cut, Recognize, Marker, NodeAt, Count;
  }

  lemma LinkAccounts(s: State, t: nat, d: int)
    requires t < |s.pcs| && s.pcs[t].EnqLink?
    ensures OwnAccounts(s, Resume(t), t, Instruction(s, t), d)
  {
    hide Cut, Recognize, Marker, NodeAt;
  }

  lemma TakeAccounts(s: State, t: nat, d: int)
    requires t < |s.pcs| && s.pcs[t].DeqCas?
    ensures OwnAccounts(s, Resume(t), t, Instruction(s, t), d)
  {
    hide Cut, Recognize, Marker, NodeAt;
  }

  lemma DequeueEndAccounts(s: State, t: nat, d: int)
    requires t < |s.pcs| && DequeueEnd(s.pcs[t]) && !s.pcs[t].DeqCas?
    ensures OwnAccounts(s, Resume(t), t, Instruction(s, t), d)
  {
    hide Cut, Recognize, Marker, NodeAt, Count;
  }

  lemma DequeueAccounts(s: State, t: nat, d: int)
    requires t < |s.pcs| && !s.pcs[t].Idle? && !EnqueuePc(s.pcs[t]) && !DequeueEnd(s.pcs[t])
    ensures OwnAccounts(s, Resume(t), t, Instruction(s, t), d)
  {
    hide Cut, Recognize, Marker, NodeAt, Count;
  }

  lemma StepAccounts(s: State, act: Action, d: int)
    requires Enabled(s, act) && !act.Foreign?
    ensures OwnAccounts(s, act, act.t, Next(s, act), d)
  {
    hide OwnAccounts, Instruction;
    if !act.Resume? {
      CallAccounts(s, act, d);
    } else if s.pcs[act.t].EnqLink? {
      LinkAccounts(s, act.t, d);
    } else if EnqueuePc(s.pcs[act.t]) {
      EnqueueAccounts(s, act.t, d);
    } else if s.pcs[act.t].DeqCas? {
      TakeAccounts(s, act.t, d);
    } else if DequeueEnd(s.pcs[act.t]) {
      DequeueEndAccounts(s, act.t, d);
    } else {
      DequeueAccounts(s, act.t, d);
    }
  }

  // ---- Whole runs

  /** The Enqueues of `d` that a run calls. */
  function Called(acts: seq<Action>, d: int): nat {
    if acts == [] then 0 else One(Calls(acts[0], d)) + Called(acts[1..], d)
  }

  /** The Dequeues of a run that return `d`. */
  ghost function Returned(s: State, acts: seq<Action>, d: int): nat
    requires Path(s, acts)
    decreases |acts|
  {
    if acts == [] then 0
    else One(ReturnsValue(s, acts[0], d)) + Returned(Next(s, acts[0]), acts[1..], d)
  }

  /** The Dequeues that a run calls, less those that return a value and those that return -1. */
  ghost function Unanswered(s: State, acts: seq<Action>): int
    requires Path(s, acts)
    decreases |acts|
  {
    if acts == [] then 0 else
      One(acts[0].CallDequeue?) - One(Returns(s, acts[0]) || Refuses(s, acts[0])) +
      Unanswered(Next(s, acts[0]), acts[1..])
  }

  ghost predicate Booked(s: State, acts: seq<Action>, s': State, d: int)
    requires Path(s, acts)
  {
    && Count(s'.enqs, d) + Sum(s'.pcs, UnlinkedOf(d)) == Count(s.enqs, d) + Sum(s.pcs, UnlinkedOf(d)) + Called(acts, d)
    && Count(s'.deqs, d) + Sum(s.pcs, UnreturnedOf(d)) ==
       Count(s.deqs, d) + Sum(s'.pcs, UnreturnedOf(d)) + Returned(s, acts, d)
    && Sum(s'.pcs, Dequeuing) == Sum(s.pcs, Dequeuing) + Unanswered(s, acts)
  }

  lemma StepBooked(s: State, act: Action, d: int)
    requires Enabled(s, act)
    ensures var s' := Next(s, act);
            && Count(s'.enqs, d) + Sum(s'.pcs, UnlinkedOf(d)) ==
               Count(s.enqs, d) + Sum(s.pcs, UnlinkedOf(d)) + One(Calls(act, d))
            && Count(s'.deqs, d) + Sum(s.pcs, UnreturnedOf(d)) ==
               Count(s.deqs, d) + Sum(s'.pcs, UnreturnedOf(d)) + One(ReturnsValue(s, act, d))
            && Sum(s'.pcs, Dequeuing) ==
               Sum(s.pcs, Dequeuing) + One(act.CallDequeue?) - One(Returns(s, act) || Refuses(s, act))
  {
    if !act.Foreign? {
      StepAccounts(s, act, d);
      hide Next;
      var pc := Next(s, act).pcs[act.t];
      SumUpdate(s.pcs, act.t, pc, UnlinkedOf(d));
      SumUpdate(s.pcs, act.t, pc, UnreturnedOf(d));
      SumUpdate(s.pcs, act.t, pc, Dequeuing);
    }
  }

  lemma {:induction false} RunBooked(s: State, acts: seq<Action>, rule: Rule, s': State, d: int)
    requires Path(s, acts) && Run(s, acts, rule, s')
    ensures Booked(s, acts, s', d)
    decreases |acts|
  {
    hide Next, Permitted, Refuses, Returns, ReturnsValue, Calls, Count;
    if acts != [] {
      StepBooked(s, acts[0], d);
      RunBooked(Next(s, acts[0]), acts[1..], rule, s', d);
    }
  }

  lemma RunIsPath(s: State, acts: seq<Action>, rule: Rule, s': State)
    requires Run(s, acts, rule, s')
    ensures Path(s, acts)
    decreases |acts|
  {
  }

  /**
   Over every run and every value: each call of Enqueue has linked its value or is still on the
   way to it; each value dequeued has been returned by one Dequeue or is still on the way; and
   every Dequeue called has returned a value or -1, or is still at work.
   */
  lemma CallsAreAnswered(heap: map<nat, Node>, dummy: nat, identifier: nat, threads: nat, acts: seq<Action>,
      rule: Rule, s: State, d: int)
    requires dummy in heap && Run(Init(heap, dummy, identifier, threads), acts, rule, s)
    ensures Path(Init(heap, dummy, identifier, threads), acts)
    ensures Called(acts, d) == Count(s.enqs, d) + Sum(s.pcs, UnlinkedOf(d))
    ensures Count(s.deqs, d) == Returned(Init(heap, dummy, identifier, threads), acts, d) + Sum(s.pcs, UnreturnedOf(d))
    ensures Unanswered(Init(heap, dummy, identifier, threads), acts) == Sum(s.pcs, Dequeuing)
  {
    var s0 := Init(heap, dummy, identifier, threads);
    RunIsPath(s0, acts, rule, s);
    RunBooked(s0, acts, rule, s, d);
    SumZero(s0.pcs, UnlinkedOf(d));
    SumZero(s0.pcs, UnreturnedOf(d));
    SumZero(s0.pcs, Dequeuing);
  }

  /** With no operation under way everything called is done. */
  lemma AtRestAllAnswered(heap: map<nat, Node>, dummy: nat, identifier: nat, threads: nat, acts: seq<Action>,
      rule: Rule, s: State, d: int)
    requires dummy in heap && Run(Init(heap, dummy, identifier, threads), acts, rule, s)
    requires forall t :: 0 <= t < |s.pcs| ==> s.pcs[t].Idle?
    ensures var s0 := Init(heap, dummy, identifier, threads);
            Path(s0, acts) && Unanswered(s0, acts) == 0 && Returned(s0, acts, d) == Count(s.deqs, d)
    ensures Called(acts, d) == Count(s.enqs, d)
  {
    CallsAreAnswered(heap, dummy, identifier, threads, acts, rule, s, d);
    SumZero(s.pcs, UnlinkedOf(d));
    SumZero(s.pcs, UnreturnedOf(d));
    SumZero(s.pcs, Dequeuing);
  }

  /**
   A Dequeue goes on to return -1 exactly when every linked element is not counted yet, or
   promised to another Dequeue, or hidden by a refusal that is not taken back yet.
   */
  lemma RefusedIffNoneLeft(s: State, t: nat)
    requires Reachable(SoundSteps, s) && t < |s.pcs| && s.pcs[t].DeqDec?
    ensures var pc := Next(s, Resume(t)).pcs[t]; pc.DeqUndo? || pc.DeqHead?
    ensures Next(s, Resume(t)).pcs[t].DeqUndo? <==>
            |s.chain| - 1 <= Sum(s.pcs, Uncounted) + Sum(s.pcs, Reserved) + Sum(s.pcs, Unrestored)
  {
    ReachableInv(s);
  }

  // ---- Nodes

  /** The node that a thread has taken from the pool or off the list. */
  function NodeOf(pc: Pc): nat {
    match pc
    case EnqNull(a, _) => a
    case EnqCount(a, _) => a
    case EnqMark(node, _) => node.addr
    case EnqTail(node, _) => node.addr
    case EnqNext(node, _, _) => node.addr
    case EnqHelp(node, _, _, _) => node.addr
    case EnqLink(node, _, _, _) => node.addr
    case DeqFree(a, _) => a
    case _ => 0
  }

  /** Whoever holds a node outside the list is a thread that is still at work with it. */
  ghost predicate InHands(s: State, a: nat) {
    HolderOf(s, a).Fresh? || HolderOf(s, a).Counted? || HolderOf(s, a).Retired? ==>
      a != 0 && HolderOf(s, a).t < |s.pcs| && NodeOf(s.pcs[HolderOf(s, a).t]) == a
  }

  ghost predicate NoLeak(s: State) {
    forall a: nat :: InHands(s, a)
  }

  lemma CallKeepsNoLeak(s: State, act: Action)
    requires NoLeak(s) && Enabled(s, act) && !act.Resume?
    ensures NoLeak(Next(s, act))
  {
    forall a: nat
      ensures InHands(Next(s, act), a)
    {
      assert InHands(s, a);
    }
  }

  lemma EnqueueKeepsNoLeak(s: State, t: nat)
    requires NoLeak(s) && t < |s.pcs| && EnqueuePc(s.pcs[t]) && ThreadInv(s, t)
    ensures NoLeak(Instruction(s, t))
  {
    hide Recognize, Cut, Marker;
    forall a: nat
      ensures InHands(Instruction(s, t), a)
    {
      assert InHands(s, a);
    }
  }

  lemma DequeueEndKeepsNoLeak(s: State, t: nat)
    requires NoLeak(s) && t < |s.pcs| && DequeueEnd(s.pcs[t])
    requires s.pcs[t].DeqCas? ==> s.pcs[t].hcap.addr != 0
    ensures NoLeak(Instruction(s, t))
  {
    hide Recognize, Cut, Marker, NodeAt;
    forall a: nat
      ensures InHands(Instruction(s, t), a)
    {
      assert InHands(s, a);
    }
  }

  lemma DequeueKeepsNoLeak(s: State, t: nat)
    requires NoLeak(s) && t < |s.pcs| && !EnqueuePc(s.pcs[t]) && !DequeueEnd(s.pcs[t])
    ensures NoLeak(Instruction(s, t))
  {
    hide Recognize, Cut, Marker, NodeAt;
    forall a: nat
      ensures InHands(Instruction(s, t), a)
    {
      assert InHands(s, a);
    }
  }

  lemma StepKeepsNoLeak(s: State, act: Action)
    requires Inv(s) && NoLeak(s) && Enabled(s, act)
    ensures NoLeak(Next(s, act))
  {
    hide NoLeak, Instruction;
    if !act.Resume? {
      CallKeepsNoLeak(s, act);
    } else {
      assert ThreadInv(s, act.t);
      if EnqueuePc(s.pcs[act.t]) {
        EnqueueKeepsNoLeak(s, act.t);
      } else if DequeueEnd(s.pcs[act.t]) {
        DequeueEndKeepsNoLeak(s, act.t);
      } else {
        DequeueKeepsNoLeak(s, act.t);
      }
    }
  }

  lemma {:induction false} RunKeepsNoLeak(s: State, acts: seq<Action>, s': State)
    requires Inv(s) && NoLeak(s) && Run(s, acts, SoundSteps, s')
    ensures NoLeak(s')
    decreases |acts|
  {
    hide Inv, Next, SoundStep, NoLeak;
    if acts != [] {
      StepKeepsNoLeak(s, acts[0]);
      StepKeepsInv(s, acts[0]);
      RunKeepsNoLeak(Next(s, acts[0]), acts[1..], s');
    }
  }

  lemma InitNoLeak(heap: map<nat, Node>, dummy: nat, identifier: nat, threads: nat)
    requires dummy in heap
    ensures NoLeak(Init(heap, dummy, identifier, threads))
  {
  }

  /** No node is lost: with no operation under way every node is in the list or back in the pool. */
  lemma AtRestNoNodeLost(s: State, a: nat)
    requires Reachable(SoundSteps, s) && forall t :: 0 <= t < |s.pcs| ==> s.pcs[t].Idle?
    ensures HolderOf(s, a).Outside? || HolderOf(s, a).Listed?
  {
    hide Inv, Run;
    var heap, dummy, identifier, threads, acts :|
      dummy in heap && dummy != 0 && Run(Init(heap, dummy, identifier, threads), acts, SoundSteps, s);
    InitInv(heap, dummy, identifier, threads);
    InitNoLeak(heap, dummy, identifier, threads);
    RunKeepsNoLeak(Init(heap, dummy, identifier, threads), acts, s);
    assert InHands(s, a);
  }
}
