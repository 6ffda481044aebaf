/**
 m_tail is the last or the next-to-last linked node, throughout a run, exactly when at every
 link CAS that succeeds it still names the captured node.
 */
module QueueTail {
  import opened TaggedPointer
  import opened Sums
  import opened QueueSpec
  import opened QueueProof
  import opened QueueRuns
  import opened QueueExact

  /** The step is a link CAS, and it will succeed. */
  predicate Links(s: State, act: Action) {
    act.Resume? && act.t < |s.pcs| && s.pcs[act.t].EnqLink? &&
    NodeAt(s, s.pcs[act.t].cap.addr).next == s.pcs[act.t].next
  }

  /** A link CAS that succeeds captured the node that m_tail names now. */
  predicate LinksAtTail(s: State, act: Action) {
    Links(s, act) ==> s.tail.addr == s.pcs[act.t].cap.addr
  }

  /** The node captured for a link CAS that succeeds still belongs to the enqueue it was captured from. */
  predicate NotRecycled(s: State, act: Action) {
    Links(s, act) ==>
      var cap := s.pcs[act.t].cap;
      cap.addr in s.born && s.born[cap.addr] == cap.tag
  }

  /** m_tail names the last or the next-to-last linked node. */
  ghost predicate TailNear(s: State) {
    && s.chain != []
    && (s.tail == Cut(s.chain[|s.chain| - 1]) || (|s.chain| > 1 && s.tail == Cut(s.chain[|s.chain| - 2])))
  }

  ghost predicate Near(s: State) {
    |s.chain| <= s.ti + 2
  }

  /** Addresses in the list differ, so the word says where the tail is. */
  lemma NearIff(s: State)
    requires Inv(s)
    ensures TailNear(s) <==> Near(s)
  {
    var last := |s.chain| - 1;
    assert s.tail == Cut(s.chain[s.ti]);
    if s.ti < last { assert s.chain[s.ti].addr != s.chain[last].addr; }
    if s.ti < last - 1 { assert s.chain[s.ti].addr != s.chain[last - 1].addr; }
  }

  /** The tail has reached `p`, if `p` is linked. */
  ghost predicate Reached(s: State, p: Ptr) {
    forall i :: 0 <= i < |s.chain| && s.chain[i] == p ==> i <= s.ti
  }

  ghost predicate CapReached(s: State, pc: Pc) {
    match pc
    case EnqNext(_, _, cap) => Reached(s, cap.Pointer())
    case EnqLink(_, _, cap, _) => Reached(s, cap.Pointer())
    case _ => true
  }

  ghost predicate CapsReached(s: State) {
    forall t :: 0 <= t < |s.pcs| ==> CapReached(s, s.pcs[t])
  }

  /** Head and tail only move forward: the list grows at the end, shrinks at the front, and nothing else. */
  ghost predicate Forward(s: State, s': State) {
    || (s'.chain == s.chain && s.ti <= s'.ti)
    || (|s'.chain| > |s.chain| && s'.chain == s.chain + [s'.chain[|s.chain|]] && s'.ti == s.ti)
    || (|s.chain| > 1 && s'.chain == s.chain[1..] && s.ti > 0 && s'.ti == s.ti - 1)
  }

  lemma StepForward(s: State, act: Action)
    requires Inv(s) && Enabled(s, act) && SoundStep(s, act)
    ensures Forward(s, Next(s, act))
  {
    if Moves(s, act) {
      assert ThreadInv(s, act.t);
      if s.pcs[act.t].DeqCas? { HeadCasTakesFirst(s, act.t); }
    } else {
      OthersLeaveList(s, act);
      StepFrame(s, act);
      hide Inv, Instruction;
    }
  }

  lemma StepFrame(s: State, act: Action)
    requires Inv(s) && Enabled(s, act) && SoundStep(s, act)
    ensures Frame(s, Next(s, act), if act.Foreign? then -1 else act.t)
  {
    hide Instruction, ListInv, Frame;
    match act
    case Foreign(_, _) => ForeignOk(s, act);
    case CallEnqueue(_, _, _) => CallEnqueueOk(s, act);
    case CallDequeue(_) => CallDequeueOk(s, act);
    case Resume(t) => InstructionOk(s, t);
  }

  // ---- Exactly which runs

  lemma StepStaysNearIff(s: State, act: Action)
    requires Inv(s) && Near(s) && Enabled(s, act) && SoundStep(s, act)
    ensures Near(Next(s, act)) <==> LinksAtTail(s, act)
  {
    StepForward(s, act);
    var s' := Next(s, act);
    if Links(s, act) {
      LinkIsNearIff(s, act.t);
    } else if |s'.chain| > |s.chain| {
      assert Moves(s, act) by { if !Moves(s, act) { OthersLeaveList(s, act); } }
    }
  }

  lemma LinkIsNearIff(s: State, t: nat)
    requires Inv(s) && Near(s) && t < |s.pcs| && Links(s, Resume(t)) && Sound(s, t)
    ensures Near(Instruction(s, t)) <==> s.tail.addr == s.pcs[t].cap.addr
  {
    assert ThreadInv(s, t);
    LinkCasHitsEnd(s, t);
    var last := |s.chain| - 1;
    assert s.tail == Cut(s.chain[s.ti]);
    if s.ti < last { assert s.chain[s.ti].addr != s.chain[last].addr; }
  }

  ghost predicate AlwaysNear(s: State, acts: seq<Action>)
    requires Path(s, acts)
    decreases |acts|
  {
    TailNear(s) && (acts != [] ==> AlwaysNear(Next(s, acts[0]), acts[1..]))
  }

  ghost predicate AllLinkAtTail(s: State, acts: seq<Action>)
    requires Path(s, acts)
    decreases |acts|
  {
    acts != [] ==> LinksAtTail(s, acts[0]) && AllLinkAtTail(Next(s, acts[0]), acts[1..])
  }

  lemma {:induction false} NearFrom(s: State, acts: seq<Action>)
    requires Inv(s) && Near(s) && Path(s, acts) && AllSound(s, acts)
    ensures AlwaysNear(s, acts) <==> AllLinkAtTail(s, acts)
    decreases |acts|
  {
    hide Inv, Next, Enabled, SoundStep, LinksAtTail, Near, TailNear;
    NearIff(s);
    if acts != [] {
      var s' := Next(s, acts[0]);
      StepKeepsInv(s, acts[0]);
      StepStaysNearIff(s, acts[0]);
      if LinksAtTail(s, acts[0]) {
        NearFrom(s', acts[1..]);
      } else {
        NearIff(s');
      }
    }
  }

  /** Run by run, over sound runs: m_tail is near the end throughout if and only if every link is at the tail. */
  lemma TailNearIffLinksAtTail(heap: map<nat, Node>, dummy: nat, identifier: nat, threads: nat, acts: seq<Action>)
    requires dummy in heap && dummy != 0
    requires var s := Init(heap, dummy, identifier, threads); Path(s, acts) && AllSound(s, acts)
    ensures var s := Init(heap, dummy, identifier, threads); AlwaysNear(s, acts) <==> AllLinkAtTail(s, acts)
  {
    InitInv(heap, dummy, identifier, threads);
    NearFrom(Init(heap, dummy, identifier, threads), acts);
  }

  // ---- Nodes that are not handed out again

  /** Another thread's captured tail stays reached. */
  lemma ReachedKept(s: State, act: Action, p: Seen)
    requires Inv(s) && Enabled(s, act) && SoundStep(s, act)
    requires Captured(s, p) && Reached(s, p.Pointer())
    ensures Reached(Next(s, act), p.Pointer())
  {
    StepForward(s, act);
    var s' := Next(s, act);
    if s'.chain == s.chain && s.ti <= s'.ti {
    } else if |s'.chain| == |s.chain| + 1 {
      AppendedIsNew(s, act, p);
    } else {
      forall i | 0 <= i < |s'.chain| && s'.chain[i] == p.Pointer()
        ensures i <= s'.ti
      {
        assert s.chain[i + 1] == p.Pointer();
      }
    }
  }

  lemma AppendedIsNew(s: State, act: Action, p: Seen)
    requires Inv(s) && Enabled(s, act) && Captured(s, p)
    requires |Next(s, act).chain| == |s.chain| + 1
    ensures Next(s, act).chain[|s.chain|] != p.Pointer()
  {
    if !Moves(s, act) { OthersLeaveList(s, act); }
    assert ThreadInv(s, act.t);
  }

  /** Only line 35 captures a tail, and what it captures is the tail. */
  lemma TailCaptured(s: State, t: nat)
    requires Inv(s) && t < |s.pcs| && s.pcs[t].EnqTail?
    ensures CapReached(Instruction(s, t), Instruction(s, t).pcs[t])
  {
    assert Reached(s, s.chain[s.ti]);
  }

  lemma CapPassedOn(s: State, t: nat)
    requires t < |s.pcs| && CapReached(s, s.pcs[t]) && s.pcs[t].EnqNext?
    ensures CapReached(Instruction(s, t), Instruction(s, t).pcs[t])
  {
  }

  ghost predicate NoCap(s: State, t: nat) {
    t < |s.pcs| && !s.pcs[t].EnqNext? && !s.pcs[t].EnqLink?
  }

  /** No other instruction goes to a place that holds a captured tail for a link CAS. */
  lemma EnqueueNoCap(s: State, t: nat)
    requires t < |s.pcs| && EnqueuePc(s.pcs[t]) && !s.pcs[t].EnqTail? && !s.pcs[t].EnqNext?
    ensures NoCap(Instruction(s, t), t)
  {
    hide Cut, Marker, NodeAt, Recognize;
  }

  lemma DequeueNoCap(s: State, t: nat)
    requires t < |s.pcs| && !EnqueuePc(s.pcs[t])
    ensures NoCap(Instruction(s, t), t)
  {
    hide Cut, Marker, NodeAt, Recognize;
  }

  lemma ActorReached(s: State, act: Action)
    requires Inv(s) && CapsReached(s) && Enabled(s, act) && !act.Foreign? && |Next(s, act).pcs| == |s.pcs|
    ensures CapReached(Next(s, act), Next(s, act).pcs[act.t])
  {
    hide Inv, Instruction, Reached;
    if act.Resume? {
      assert CapReached(s, s.pcs[act.t]);
      if s.pcs[act.t].EnqTail? {
        TailCaptured(s, act.t);
      } else if s.pcs[act.t].EnqNext? {
        CapPassedOn(s, act.t);
      } else if EnqueuePc(s.pcs[act.t]) {
        EnqueueNoCap(s, act.t);
      } else {
        DequeueNoCap(s, act.t);
      }
    }
  }

  lemma StepKeepsReached(s: State, act: Action)
    requires Inv(s) && CapsReached(s) && Enabled(s, act) && SoundStep(s, act)
    ensures CapsReached(Next(s, act))
  {
    var s' := Next(s, act);
    StepFrame(s, act);
    hide Inv, Next;
    forall u | 0 <= u < |s'.pcs|
      ensures CapReached(s', s'.pcs[u])
    {
      if !act.Foreign? && u == act.t {
        ActorReached(s, act);
      } else {
        OtherPc(s, act, u);
        assert CapReached(s, s.pcs[u]);
        match s.pcs[u]
        case EnqNext(_, _, cap) => ReachedKept(s, act, cap);
        case EnqLink(_, _, cap, _) => ReachedKept(s, act, cap);
        case _ =>
      }
    }
  }

  lemma OtherPc(s: State, act: Action, u: nat)
    requires Inv(s) && Enabled(s, act) && SoundStep(s, act) && u < |Next(s, act).pcs| && (act.Foreign? || u != act.t)
    ensures u < |s.pcs| && Next(s, act).pcs[u] == s.pcs[u]
    ensures s.pcs[u].EnqNext? || s.pcs[u].EnqLink? ==> Captured(s, s.pcs[u].cap)
  {
    hide Instruction, Captured, ListInv;
    StepFrame(s, act);
    assert ThreadInv(s, u);
  }

  /** A captured node that was not handed out again is the last one, and the tail has reached it. */
  lemma NotRecycledLinksAtTail(s: State, act: Action)
    requires Inv(s) && CapsReached(s) && Enabled(s, act) && SoundStep(s, act) && NotRecycled(s, act)
    ensures LinksAtTail(s, act)
  {
    if Links(s, act) {
      var t, last := act.t, |s.chain| - 1;
      assert ThreadInv(s, t) && CapReached(s, s.pcs[t]);
      LinkCasHitsEnd(s, t);
      assert Live(s, s.chain[last]);
      assert s.pcs[t].cap.Pointer() == s.chain[last];
    }
  }

  ghost predicate NoneRecycled(s: State, acts: seq<Action>)
    requires Path(s, acts)
    decreases |acts|
  {
    acts != [] ==> NotRecycled(s, acts[0]) && NoneRecycled(Next(s, acts[0]), acts[1..])
  }

  lemma {:induction false} NoneRecycledFrom(s: State, acts: seq<Action>)
    requires Inv(s) && CapsReached(s) && Path(s, acts) && AllSound(s, acts) && NoneRecycled(s, acts)
    ensures AllLinkAtTail(s, acts)
    decreases |acts|
  {
    hide Inv, CapsReached, Next, Enabled, SoundStep, LinksAtTail, NotRecycled;
    if acts != [] {
      NotRecycledLinksAtTail(s, acts[0]);
      StepKeepsInv(s, acts[0]);
      StepKeepsReached(s, acts[0]);
      NoneRecycledFrom(Next(s, acts[0]), acts[1..]);
    }
  }

  /** So m_tail is near the end whenever no captured node is handed out again before its link CAS succeeds. */
  lemma TailIsLastOrNextToLast(heap: map<nat, Node>, dummy: nat, identifier: nat, threads: nat, acts: seq<Action>)
    requires dummy in heap && dummy != 0
    requires var s := Init(heap, dummy, identifier, threads);
             Path(s, acts) && AllSound(s, acts) && NoneRecycled(s, acts)
    ensures AlwaysNear(Init(heap, dummy, identifier, threads), acts)
  {
    InitInv(heap, dummy, identifier, threads);
    NoneRecycledFrom(Init(heap, dummy, identifier, threads), acts);
    TailNearIffLinksAtTail(heap, dummy, identifier, threads, acts);
  }
}
