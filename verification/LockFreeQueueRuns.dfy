/** Whole runs of the queue: order, size, tail, separation of queues, and where the guard is needed. */
module QueueRuns {
  import opened TaggedPointer
  import opened Sums
  import opened QueueSpec
  import opened QueueProof

  // ---- Order

  lemma ValuesKept(s: State, s': State, t: int)
    requires ListInv(s) && Frame(s, s', t)
    ensures Values(s'.heap, s.chain[1..]) == Values(s.heap, s.chain[1..])
  {
    forall i | 1 <= i < |s.chain|
      ensures s.chain[i].addr in s.heap && s.chain[i].addr in s'.heap
      ensures s'.heap[s.chain[i].addr].data == s.heap[s.chain[i].addr].data
    {
      var a := s.chain[i].addr;
      assert LinkOk(s, i) && Live(s, s.chain[i]) && Evolves(s, s', t, a) && s.chain[0].addr != a;
    }
  }

  /** A successful link CAS appends the caller's value to the queue. */
  lemma LinkAppends(s: State, t: nat)
    requires ListInv(s) && Fifo(s) && t < |s.pcs| && ThreadInv(s, t) && Sound(s, t)
    requires s.pcs[t].EnqLink? && NodeAt(s, s.pcs[t].cap.addr).next == s.pcs[t].next
    requires Frame(s, Instruction(s, t), t)
    ensures Fifo(Instruction(s, t))
    ensures Values(Instruction(s, t).heap, Instruction(s, t).chain[1..]) == Values(s.heap, s.chain[1..]) + [s.pcs[t].d]
  {
    var s' := Instruction(s, t);
    ValuesKept(s, s', t);
    LinkCasHitsEnd(s, t);
    assert LinkOk(s, |s.chain| - 1) && Live(s, s.chain[|s.chain| - 1]);
    assert s'.chain[1..] == s.chain[1..] + [s.pcs[t].node];
    assert Values(s'.heap, s'.chain[1..]) == Values(s'.heap, s.chain[1..]) + [s.pcs[t].d];
  }

  /** A successful head CAS takes the first value off, and it is the one the caller gets. */
  lemma HeadCasRemoves(s: State, t: nat)
    requires ListInv(s) && Fifo(s) && t < |s.pcs| && ThreadInv(s, t) && Sound(s, t)
    requires s.pcs[t].DeqCas? && s.head == Cut(s.pcs[t].hcap.Pointer())
    ensures Fifo(Instruction(s, t))
    ensures Values(s.heap, s.chain[1..]) ==
            [s.pcs[t].out] + Values(Instruction(s, t).heap, Instruction(s, t).chain[1..])
  {
    var s' := Instruction(s, t);
    HeadCasTakesFirst(s, t);
    assert s'.chain[1..] == s.chain[1..][1..];
    assert Values(s.heap, s.chain[1..]) == [s.pcs[t].out] + Values(s'.heap, s'.chain[1..]);
  }

  predicate Moves(s: State, act: Action) {
    act.Resume? && act.t < |s.pcs| &&
    match s.pcs[act.t]
    case EnqLink(_, _, cap, next) => NodeAt(s, cap.addr).next == next
    case DeqCas(hcap, _, _) => s.head == Cut(hcap.Pointer())
    case _ => false
  }

  /** Every other step leaves the list and the two histories as they are. */
  lemma OthersLeaveList(s: State, act: Action)
    requires Enabled(s, act) && !Moves(s, act)
    ensures SameHistory(s, Next(s, act))
  {
    if act.Resume? {
      if EnqueuePc(s.pcs[act.t]) { EnqueuesLeaveList(s, act.t); } else { DequeuesLeaveList(s, act.t); }
    }
  }

  predicate SameHistory(s: State, s': State) {
    s'.chain == s.chain && s'.enqs == s.enqs && s'.deqs == s.deqs
  }

  predicate EnqueuePc(pc: Pc) {
    pc.EnqNull? || pc.EnqCount? || pc.EnqMark? || pc.EnqTail? || pc.EnqNext? || pc.EnqHelp? || pc.EnqLink? ||
        pc.EnqSwing? || pc.EnqInc?
  }

  lemma EnqueuesLeaveList(s: State, t: nat)
    requires t < |s.pcs| && EnqueuePc(s.pcs[t]) && !Moves(s, Resume(t))
    ensures SameHistory(s, Instruction(s, t))
  {
    hide Cut, Recognize, Marker;
  }

  lemma DequeuesLeaveList(s: State, t: nat)
    requires t < |s.pcs| && !EnqueuePc(s.pcs[t]) && !Moves(s, Resume(t))
    ensures SameHistory(s, Instruction(s, t))
  {
    hide Cut, Recognize, Marker;
  }

  lemma FifoKept(s: State, act: Action)
    requires ListInv(s) && Fifo(s) && Enabled(s, act) && SoundStep(s, act)
    requires act.Resume? ==> ThreadInv(s, act.t)
    requires Frame(s, Next(s, act), if act.Foreign? then -1 else act.t)
    ensures Fifo(Next(s, act))
  {
    hide ListInv, Frame, ThreadInv, Instruction;
    if !Moves(s, act) {
      OthersLeaveList(s, act);
      ValuesKept(s, Next(s, act), if act.Foreign? then -1 else act.t);
    } else if s.pcs[act.t].EnqLink? {
      LinkAppends(s, act.t);
    } else {
      HeadCasRemoves(s, act.t);
    }
  }

  // ---- Size

  /** The size equation seen from thread `t` alone. */
  function Ledger(s: State, t: nat): int
    requires t < |s.pcs|
  {
    s.size - |s.chain| + Uncounted(s.pcs[t]) + Reserved(s.pcs[t]) + Unrestored(s.pcs[t])
  }

  /** What an instruction does to the two sides of the size equation. */
  ghost predicate LedgerStep(s: State, s': State, t: nat) {
    && t < |s.pcs| == |s'.pcs|
    && s'.pcs == s.pcs[t := s'.pcs[t]]
    && Ledger(s', t) == Ledger(s, t)
    && (|s'.chain| - Reserved(s'.pcs[t]) >= |s.chain| - Reserved(s.pcs[t]) ||
        (s.pcs[t].DeqDec? && s.size > 0 && s'.chain == s.chain))
  }

  lemma EnqueueLedger(s: State, t: nat)
    requires t < |s.pcs| && s.chain != [] && EnqueuePc(s.pcs[t])
    ensures LedgerStep(s, Instruction(s, t), t)
  {
    hide Cut, Recognize, NodeAt, Marker;
  }

  predicate DequeueEnd(pc: Pc) {
    pc.DeqDec? || pc.DeqUndo? || pc.DeqCas? || pc.DeqFree?
  }

  lemma DequeueEndLedger(s: State, t: nat)
    requires t < |s.pcs| && s.chain != [] && DequeueEnd(s.pcs[t])
    ensures LedgerStep(s, Instruction(s, t), t)
  {
    hide Cut, Recognize, NodeAt, Marker;
  }

  lemma DequeueLoopLedger(s: State, t: nat)
    requires t < |s.pcs| && s.chain != [] && !EnqueuePc(s.pcs[t]) && !DequeueEnd(s.pcs[t]) && !s.pcs[t].Idle?
    ensures LedgerStep(s, Instruction(s, t), t)
  {
    hide Cut, Recognize, NodeAt, Marker;
  }

  lemma SizeKept(s: State, s': State, t: nat)
    requires SizeExact(s) && t < |s.pcs| == |s'.pcs|
    requires LedgerStep(s, s', t)
    ensures SizeExact(s')
  {
    SumUpdate(s.pcs, t, s'.pcs[t], Uncounted);
    SumUpdate(s.pcs, t, s'.pcs[t], Reserved);
    SumUpdate(s.pcs, t, s'.pcs[t], Unrestored);
  }

  // ---- Every step, every run

  lemma InstructionOk(s: State, t: nat)
    requires ListInv(s) && t < |s.pcs| && ThreadInv(s, t) && Sound(s, t) && !s.pcs[t].Idle?
    ensures StepOk(s, Instruction(s, t), t)
  {
    hide ListInv, ThreadInv, Sound, StepOk, Instruction;
    match s.pcs[t]
    case EnqNull(_, _) => EnqNullOk(s, t);
    case EnqCount(_, _) => EnqCountOk(s, t);
    case EnqMark(_, _) => EnqMarkOk(s, t);
    case EnqHelp(_, _, _, _) => HelpOk(s, t);
    case EnqLink(_, _, _, _) => EnqLinkOk(s, t);
    case EnqSwing(_, _) => HelpOk(s, t);
    case DeqHelp(_, _) => HelpOk(s, t);
    case DeqData(_, _) => DeqDataOk(s, t);
    case DeqCas(_, _, _) => DeqCasOk(s, t);
    case DeqFree(_, _) => DeqFreeOk(s, t);
    case EnqTail(_, _) => EnqQuietOk(s, t);
    case EnqNext(_, _, _) => EnqQuietOk(s, t);
    case EnqInc => EnqQuietOk(s, t);
    case DeqDec => DeqQuietOk(s, t);
    case DeqUndo => DeqQuietOk(s, t);
    case DeqHead => DeqQuietOk(s, t);
    case DeqTail(_) => DeqQuietOk(s, t);
    case DeqNext(_, _) => DeqQuietOk(s, t);
    case Idle => assert false;
  }

  lemma CallDequeueOk(s: State, act: Action)
    requires ListInv(s) && Enabled(s, act) && act.CallDequeue?
    ensures StepOk(s, Next(s, act), act.t)
  {
    hide ListInv, Frame;
    QuietOk(s, Next(s, act), act.t);
  }

  lemma ForeignOk(s: State, act: Action)
    requires ListInv(s) && Enabled(s, act) && act.Foreign?
    ensures ListInv(Next(s, act)) && Frame(s, Next(s, act), -1)
  {
    assert AddrInv(s, act.a);
    OneAddressOk(s, Next(s, act), -1, act.a);
  }

  lemma StepKeepsThreads(s: State, s': State, t: int)
    requires ListInv(s) && Frame(s, s', t)
    requires forall u :: 0 <= u < |s.pcs| ==> ThreadInv(s, u)
    requires 0 <= t < |s'.pcs| ==> ThreadInv(s', t)
    ensures forall u :: 0 <= u < |s'.pcs| ==> ThreadInv(s', u)
  {
    hide ListInv, ThreadInv;
    forall u | 0 <= u < |s'.pcs|
      ensures ThreadInv(s', u)
    {
      if u != t { OtherKept(s, s', t, u); }
    }
  }

  lemma NonEmpty(s: State)
    requires Fifo(s)
    ensures s.chain != []
  {
  }

  lemma CallsKeepSize(s: State, act: Action)
    requires SizeExact(s) && s.chain != [] && Enabled(s, act) && !act.Resume?
    ensures SizeExact(Next(s, act))
  {
    if !act.Foreign? { SizeKept(s, Next(s, act), act.t); }
  }

  lemma StepKeepsInv(s: State, act: Action)
    requires Inv(s) && Enabled(s, act) && SoundStep(s, act)
    ensures Inv(Next(s, act))
  {
    hide ListInv, ThreadInv, Frame, Fifo, Sound, Instruction, Reserved, Uncounted, Unrestored;
    var s' := Next(s, act);
    NonEmpty(s);
    match act {
      case Foreign(_, _) =>
        ForeignOk(s, act);
        CallsKeepSize(s, act);
        StepKeepsThreads(s, s', -1);
      case CallEnqueue(t, _, _) =>
        CallEnqueueOk(s, act);
        CallsKeepSize(s, act);
        StepKeepsThreads(s, s', t);
      case CallDequeue(t) =>
        CallDequeueOk(s, act);
        CallsKeepSize(s, act);
        StepKeepsThreads(s, s', t);
      case Resume(t) =>
        InstructionOk(s, t);
        StepKeepsThreads(s, s', t);
        if EnqueuePc(s.pcs[t]) {
          EnqueueLedger(s, t);
        } else if DequeueEnd(s.pcs[t]) {
          DequeueEndLedger(s, t);
        } else {
          DequeueLoopLedger(s, t);
        }
        SizeKept(s, s', t);
    }
    FifoKept(s, act);
  }

  lemma GuardedStepSound(s: State, act: Action)
    requires Inv(s) && Enabled(s, act) && Guarded(s, act)
    ensures SoundStep(s, act)
  {
    if act.Resume? {
      assert ThreadInv(s, act.t);
      GuardedSound(s, act.t);
    }
  }

  /** Which steps a run may take: all, those inside the tag window (with the link guard or not), or the sound ones. */
  datatype Rule = AnyStep | Tagged(linkGuard: bool) | SoundSteps

  predicate Permitted(s: State, act: Action, rule: Rule) {
    match rule
    case AnyStep => true
    case Tagged(linkGuard) => act.Resume? ==> InWindow(s, act.t) && (linkGuard ==> LinkGuard(s, act.t))
    case SoundSteps => SoundStep(s, act)
  }

  /** `acts`, each enabled and permitted, lead from `s` to `s'`. */
  ghost predicate Run(s: State, acts: seq<Action>, rule: Rule, s': State)
    decreases |acts|
  {
    if acts == [] then s' == s else
      Enabled(s, acts[0]) && Permitted(s, acts[0], rule) && Run(Next(s, acts[0]), acts[1..], rule, s')
  }

  lemma {:induction false} RunKeepsInv(s: State, acts: seq<Action>, s': State)
    requires Inv(s) && Run(s, acts, SoundSteps, s')
    ensures Inv(s')
    decreases |acts|
  {
    hide Inv, Next;
    if acts != [] {
      StepKeepsInv(s, acts[0]);
      RunKeepsInv(Next(s, acts[0]), acts[1..], s');
    }
  }

  lemma {:induction false} GuardedRunIsSound(s: State, acts: seq<Action>, s': State)
    requires Inv(s) && Run(s, acts, Tagged(true), s')
    ensures Run(s, acts, SoundSteps, s')
    decreases |acts|
  {
    hide Inv, Next, SoundStep;
    if acts != [] {
      GuardedStepSound(s, acts[0]);
      StepKeepsInv(s, acts[0]);
      GuardedRunIsSound(Next(s, acts[0]), acts[1..], s');
    }
  }

  lemma InitInv(heap: map<nat, Node>, dummy: nat, identifier: nat, threads: nat)
    requires dummy in heap && dummy != 0
    ensures Inv(Init(heap, dummy, identifier, threads))
  {
    var s := Init(heap, dummy, identifier, threads);
    SumZero(s.pcs, Uncounted);
    SumZero(s.pcs, Reserved);
    SumZero(s.pcs, Unrestored);
    assert s.chain[0].addr == dummy;
  }

  ghost predicate Reachable(rule: Rule, s: State) {
    exists heap, dummy, identifier, threads, acts ::
      dummy in heap && dummy != 0 && Run(Init(heap, dummy, identifier, threads), acts, rule, s)
  }

  lemma {:induction false} RunAppend(s: State, acts: seq<Action>, rule: Rule, m: State, act: Action)
    requires Run(s, acts, rule, m) && Enabled(m, act) && Permitted(m, act, rule)
    ensures Run(s, acts + [act], rule, Next(m, act))
    decreases |acts|
  {
    hide Next, Enabled, Permitted;
    if acts == [] {
      assert (acts + [act])[1..] == [];
    } else {
      RunAppend(Next(s, acts[0]), acts[1..], rule, m, act);
      assert (acts + [act])[1..] == acts[1..] + [act];
    }
  }

  lemma Reach(rule: Rule, s: State, act: Action)
    requires Reachable(rule, s) && Enabled(s, act) && Permitted(s, act, rule)
    ensures Reachable(rule, Next(s, act))
  {
    hide Next, Enabled, Permitted, Run;
    var heap, dummy, identifier, threads, acts :|
      dummy in heap && dummy != 0 && Run(Init(heap, dummy, identifier, threads), acts, rule, s);
    RunAppend(Init(heap, dummy, identifier, threads), acts, rule, s, act);
  }

  lemma ReachableInv(s: State)
    requires Reachable(SoundSteps, s)
    ensures Inv(s)
  {
    var heap, dummy, identifier, threads, acts :|
      dummy in heap && dummy != 0 && Run(Init(heap, dummy, identifier, threads), acts, SoundSteps, s);
    InitInv(heap, dummy, identifier, threads);
    RunKeepsInv(Init(heap, dummy, identifier, threads), acts, s);
  }

  /** What guarded runs reach, sound runs reach. */
  lemma GuardedReachIsSound(s: State)
    requires Reachable(Tagged(true), s)
    ensures Reachable(SoundSteps, s)
  {
    var heap, dummy, identifier, threads, acts :|
      dummy in heap && dummy != 0 && Run(Init(heap, dummy, identifier, threads), acts, Tagged(true), s);
    InitInv(heap, dummy, identifier, threads);
    GuardedRunIsSound(Init(heap, dummy, identifier, threads), acts, s);
  }

  /**
   The queue over all sound runs, and so over all guarded ones: values leave in the order they
   entered, none lost, none twice, and memory spells exactly the values still inside.
   */
  lemma EveryRunIsFifo(s: State)
    requires Reachable(SoundSteps, s) || Reachable(Tagged(true), s)
    ensures Spelled(s) && s.enqs == s.deqs + Values(s.heap, s.chain[1..])
    ensures s.deqs <= s.enqs
  {
    hide Reachable;
    if Reachable(Tagged(true), s) { GuardedReachIsSound(s); }
    ReachableInv(s);
  }

  /** A Dequeue past its size check always has an element to take; at rest the size is exact. */
  lemma SizeOverRuns(s: State)
    requires Reachable(SoundSteps, s) || Reachable(Tagged(true), s)
    ensures SizeExact(s)
    ensures forall t :: 0 <= t < |s.pcs| && Reserved(s.pcs[t]) == 1 ==> |s.chain| > 1
    ensures (forall t :: 0 <= t < |s.pcs| ==> s.pcs[t] == Idle) ==> s.size == |Values(s.heap, s.chain[1..])|
  {
    hide Reachable;
    if Reachable(Tagged(true), s) { GuardedReachIsSound(s); }
    ReachableInv(s);
    forall t | 0 <= t < |s.pcs| && Reserved(s.pcs[t]) == 1
      ensures |s.chain| > 1
    {
      SumAtLeast(s.pcs, t, Reserved);
    }
    if forall t :: 0 <= t < |s.pcs| ==> s.pcs[t] == Idle {
      SumZero(s.pcs, Uncounted);
      SumZero(s.pcs, Reserved);
      SumZero(s.pcs, Unrestored);
    }
  }

  // ---- The link CAS and recycling

  /**
   A link CAS that succeeds extends the list exactly when the captured node is linked in this
   queue at that moment, in whatever incarnation.
   */
  lemma LinkExtendsIffListed(s: State, t: nat)
    requires Inv(s) && t < |s.pcs| && s.pcs[t].EnqLink?
    requires NodeAt(s, s.pcs[t].cap.addr).next == s.pcs[t].next
    ensures Spelled(Instruction(s, t)) <==> HolderOf(s, s.pcs[t].cap.addr).Listed?
  {
    assert ThreadInv(s, t);
    var s' := Instruction(s, t);
    var last := |s.chain| - 1;
    if HolderOf(s, s.pcs[t].cap.addr).Listed? {
      LinkCasHitsEnd(s, t);
      AppendKeepsAddresses(s, t);
      AppendKeepsList(s, t);
    } else {
      assert LinkOk(s, last) && Live(s, s.chain[last]);
      assert !LinkOk(s', last);
    }
  }

  /**
   Queues that share the pool do not cross-link: a thread that captured this queue's marker
   fails its CAS on a node that is outside this queue.
   */
  lemma NoCrossLink(s: State, t: nat)
    requires Inv(s) && t < |s.pcs| && s.pcs[t].EnqLink? && s.pcs[t].next == Marker(s.identifier)
    requires HolderOf(s, s.pcs[t].cap.addr).Outside?
    ensures NodeAt(s, s.pcs[t].cap.addr).next != s.pcs[t].next
  {
    assert ThreadInv(s, t) && AddrInv(s, s.pcs[t].cap.addr);
  }

  /**
   What `Enabled` asks of the other users of the pool is kept by every queue whose identifier
   differs: none of its steps writes the marker of `other` into any node.
   */
  lemma WritesNoOtherMarker(s: State, act: Action, other: nat, a: nat)
    requires Inv(s) && Enabled(s, act) && !act.Foreign?
    requires other % TAGS != s.identifier % TAGS && other % TAGS != 0
    ensures NodeAt(Next(s, act), a).next != NodeAt(s, a).next ==> NodeAt(Next(s, act), a).next != Marker(other)
  {
    assert act.Resume? ==> ThreadInv(s, act.t);
  }
}
