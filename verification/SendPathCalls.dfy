/** From the calls of SendPacket to the socket and back: what becomes of every packet, over whole runs. */
module SendCalls {
  import opened Sums
  import opened SendSpec
  import opened SendProof
  import opened SendRuns

  function One(b: bool): nat { if b then 1 else 0 }

  // ---- Calls

  /** Calls that have not linked `packet` yet. */
  function LinkingOf(packet: int): Pc -> nat {
    (pc: Pc) => One(pc == Link(packet))
  }

  /** How often a run calls SendPacket with `packet`. */
  function Called(acts: seq<Action>, packet: int): nat {
    if acts == [] then 0 else One(acts[0].Send? && acts[0].packet == packet) + Called(acts[1..], packet)
  }

  lemma StepCalled(s: State, act: Action, packet: int)
    requires Enabled(s, act)
    ensures var s' := Next(s, act);
            multiset(s'.enqs)[packet] + Sum(s'.pcs, LinkingOf(packet)) ==
            multiset(s.enqs)[packet] + Sum(s.pcs, LinkingOf(packet)) + One(act.Send? && act.packet == packet)
  {
    StepEnqueues(s, act);
    hide Next;
    SumUpdate(s.pcs, act.i, Next(s, act).pcs[act.i], LinkingOf(packet));
  }

  /** Only the link CAS adds to the packets enqueued, and it adds the packet of its call. */
  ghost predicate Enqueues(s: State, act: Action, s': State) {
    && act.i < |s.pcs| && |s'.pcs| == |s.pcs| && s'.pcs == s.pcs[act.i := s'.pcs[act.i]]
    && s'.enqs == s.enqs + (if act.Step? && s.pcs[act.i].Link? then [s.pcs[act.i].packet] else [])
    && (s'.pcs[act.i].Link? <==> act.Send?) && (act.Send? ==> s'.pcs[act.i] == Link(act.packet) && s.pcs[act.i].Idle?)
  }

  lemma SenderEnqueues(s: State, i: nat, ok: bool)
    requires i < |s.pcs| && Enqueuing(s.pcs[i])
    ensures Enqueues(s, Step(i, ok), EnqueueStep(s, i))
  {
  }

  lemma PostEnqueues(s: State, i: nat, ok: bool)
    requires i < |s.pcs| && Posting(s.pcs[i]) && FindsPacket(s, s.pcs[i])
    ensures Enqueues(s, Step(i, ok), SendPostStep(s, i, ok))
  {
  }

  lemma CompletionEnqueues(s: State, i: nat, ok: bool)
    requires i < |s.pcs| && Completing(s.pcs[i])
    ensures Enqueues(s, Step(i, ok), CompletionStep(s, i, ok))
  {
  }

  lemma CloseEnqueues(s: State, i: nat, ok: bool)
    requires i < |s.pcs| && Closing(s.pcs[i]) && FindsPacket(s, s.pcs[i])
    ensures Enqueues(s, Step(i, ok), CloseStep(s, i))
  {
  }

  lemma StepEnqueues(s: State, act: Action)
    requires Enabled(s, act)
    ensures Enqueues(s, act, Next(s, act))
  {
    hide EnqueueStep, SendPostStep, CompletionStep, CloseStep;
    if act.Step? {
      hide Enqueues;
      if Enqueuing(s.pcs[act.i]) {
        SenderEnqueues(s, act.i, act.ok);
      } else if Posting(s.pcs[act.i]) {
        PostEnqueues(s, act.i, act.ok);
      } else if Completing(s.pcs[act.i]) {
        CompletionEnqueues(s, act.i, act.ok);
      } else {
        CloseEnqueues(s, act.i, act.ok);
      }
    }
  }

  lemma {:induction false} RunCalled(s: State, acts: seq<Action>, s': State, packet: int)
    requires Run(s, acts, s')
    ensures multiset(s'.enqs)[packet] + Sum(s'.pcs, LinkingOf(packet)) ==
            multiset(s.enqs)[packet] + Sum(s.pcs, LinkingOf(packet)) + Called(acts, packet)
    decreases |acts|
  {
    hide Next, Enabled;
    if acts != [] {
      StepCalled(s, acts[0], packet);
      RunCalled(Next(s, acts[0]), acts[1..], s', packet);
    }
  }

  /** Every call of SendPacket has enqueued its packet or is still on the way to its link CAS. */
  lemma CallsEnqueue(activities: nat, acts: seq<Action>, s: State, packet: int)
    requires Run(Init(activities), acts, s)
    ensures Called(acts, packet) == multiset(s.enqs)[packet] + Sum(s.pcs, LinkingOf(packet))
  {
    hide Run;
    RunCalled(Init(activities), acts, s, packet);
    SumZero(Init(activities).pcs, LinkingOf(packet));
  }

  // ---- A socket that works

  /** No post was refused and no send completed without bytes. */
  predicate Works(acts: seq<Action>) {
    forall k :: 0 <= k < |acts| ==> acts[k].Step? ==> acts[k].ok
  }

  predicate NoRelease(acts: seq<Action>) {
    forall k :: 0 <= k < |acts| ==> !acts[k].Close?
  }

  /** The flag is left set for good only where the socket has just refused a batch or dropped one. */
  lemma StuckOnlyBySocket(s: State, act: Action)
    requires Enabled(s, act) && !s.stuck && Next(s, act).stuck
    ensures act.Step? && !act.ok && (s.pcs[act.i].Submit? || s.pcs[act.i].InFlight?)
  {
  }

  lemma {:induction false} WorkingNotStuck(s: State, acts: seq<Action>, s': State)
    requires Run(s, acts, s') && Works(acts) && !s.stuck
    ensures !s'.stuck
    decreases |acts|
  {
    hide Next, Enabled;
    if acts != [] {
      if Next(s, acts[0]).stuck { StuckOnlyBySocket(s, acts[0]); }
      WorkingNotStuck(Next(s, acts[0]), acts[1..], s');
    }
  }

  // ---- The socket

  /** What a step hands to WSASend. */
  function SubmittedBy(s: State, act: Action): seq<int> {
    if act.Step? && act.i < |s.pcs| && s.pcs[act.i].Submit? && act.ok then s.hand else []
  }

  /** What the socket reports as sent in a step. */
  function CompletedBy(s: State, act: Action): seq<int> {
    if act.Step? && act.i < |s.pcs| && s.pcs[act.i].InFlight? && act.ok then s.hand else []
  }

  ghost predicate Path(s: State, acts: seq<Action>)
    decreases |acts|
  {
    acts == [] || (Enabled(s, acts[0]) && Path(Next(s, acts[0]), acts[1..]))
  }

  lemma RunIsPath(s: State, acts: seq<Action>, s': State)
    requires Run(s, acts, s')
    ensures Path(s, acts)
    decreases |acts|
  {
  }

  /** All that a run hands to WSASend, in order. */
  ghost function Submitted(s: State, acts: seq<Action>): seq<int>
    requires Path(s, acts)
    decreases |acts|
  {
    if acts == [] then [] else SubmittedBy(s, acts[0]) + Submitted(Next(s, acts[0]), acts[1..])
  }

  ghost function Completed(s: State, acts: seq<Action>): seq<int>
    requires Path(s, acts)
    decreases |acts|
  {
    if acts == [] then [] else CompletedBy(s, acts[0]) + Completed(Next(s, acts[0]), acts[1..])
  }

  predicate Away(pc: Pc) {
    pc.InFlight? || pc.Clear?
  }

  /** `out` has been handed to the socket and `back` reported as sent: the batch in flight lies between them. */
  ghost predicate Tracks(s: State, out: seq<int>, back: seq<int>) {
    && (forall j :: 0 <= j < |s.pcs| && s.pcs[j].InFlight? ==> out == s.sent + s.hand && back == s.sent)
    && (forall j :: 0 <= j < |s.pcs| && s.pcs[j].Clear? ==> out == back == s.sent + s.hand)
    && ((forall j :: 0 <= j < |s.pcs| ==> !Away(s.pcs[j])) ==> out == back == s.sent)
  }

  /** A step of an activity that owns the flag: nobody else has a batch with the socket. */
  lemma OwnerAlone(s: State, i: nat)
    requires Inv(s) && i < |s.pcs| && Owner(s.pcs[i]) == 1
    ensures forall j :: 0 <= j < |s.pcs| && j != i ==> !Away(s.pcs[j])
  {
    forall j | 0 <= j < |s.pcs| && j != i
      ensures !Away(s.pcs[j])
    {
      if Away(s.pcs[j]) { OneOwner(s, i, j); }
    }
  }

  /** What a step that owns the flag, or does not, does to batch and history. */
  ghost predicate Moved(s: State, act: Action, s': State) {
    && act.i < |s.pcs| == |s'.pcs| && s'.pcs == s.pcs[act.i := s'.pcs[act.i]] && s'.closes == s.closes
    && match s.pcs[act.i]
       case Submit =>
         && s'.sent == s.sent && s'.hand == s.hand
         && if s.hand != [] then s'.pcs[act.i].InFlight? else !Away(s'.pcs[act.i])
       case InFlight => s'.sent == s.sent && s'.hand == s.hand && s'.pcs[act.i].Clear?
       case Clear =>
         && s'.sent + s'.hand == s.sent + s.hand
         && (s'.pcs[act.i].Clear? || (!Away(s'.pcs[act.i]) && s'.hand == []))
       case Take => s'.sent == s.sent && !Away(s'.pcs[act.i])
       case _ => s'.sent == s.sent && s'.hand == s.hand && !Away(s'.pcs[act.i])
  }

  lemma StepMoves(s: State, act: Action)
    requires Enabled(s, act) && !act.Close? && (act.Step? ==> act.ok && !Closing(s.pcs[act.i]))
    ensures Moved(s, act, Next(s, act))
  {
    if act.Step? {
      hide EnqueueStep, SendPostStep, CompletionStep, CloseStep, Moved;
      if Enqueuing(s.pcs[act.i]) {
        SenderMoves(s, act.i);
      } else if Posting(s.pcs[act.i]) {
        PostMoves(s, act.i);
      } else {
        CompletionMoves(s, act.i);
      }
    }
  }

  lemma SenderMoves(s: State, i: nat)
    requires i < |s.pcs| && Enqueuing(s.pcs[i])
    ensures Moved(s, Step(i, true), EnqueueStep(s, i))
  {
  }

  lemma PostMoves(s: State, i: nat)
    requires i < |s.pcs| && Posting(s.pcs[i]) && FindsPacket(s, s.pcs[i])
    ensures Moved(s, Step(i, true), SendPostStep(s, i, true))
  {
  }

  lemma CompletionMoves(s: State, i: nat)
    requires i < |s.pcs| && Completing(s.pcs[i])
    ensures Moved(s, Step(i, true), CompletionStep(s, i, true))
  {
  }

  lemma StepTracks(s: State, act: Action, out: seq<int>, back: seq<int>)
    requires Inv(s) && Enabled(s, act) && !act.Close? && (act.Step? ==> act.ok) && s.closes == 0
    requires Tracks(s, out, back)
    ensures Tracks(Next(s, act), out + SubmittedBy(s, act), back + CompletedBy(s, act))
    ensures Next(s, act).closes == 0
  {
    assert act.Step? ==> !Closing(s.pcs[act.i]);
    StepMoves(s, act);
    hide Next, Inv;
    var s' := Next(s, act);
    forall j | 0 <= j < |s.pcs| && j != act.i
      ensures s'.pcs[j] == s.pcs[j]
    {
    }
    if Owner(s.pcs[act.i]) == 1 {
      OwnerAlone(s, act.i);
      OwnerTracks(s, act, s', out, back);
    } else {
      assert Away(s'.pcs[act.i]) == Away(s.pcs[act.i]) == false;
      if forall j :: 0 <= j < |s'.pcs| ==> !Away(s'.pcs[j]) {
        assert forall j :: 0 <= j < |s.pcs| && j != act.i ==> !Away(s'.pcs[j]) && !Away(s.pcs[j]);
      }
    }
  }

  lemma OwnerTracks(s: State, act: Action, s': State, out: seq<int>, back: seq<int>)
    requires Moved(s, act, s') && Tracks(s, out, back) && Owner(s.pcs[act.i]) == 1
    requires act.Step? && act.ok
    requires forall j :: 0 <= j < |s.pcs| && j != act.i ==> s'.pcs[j] == s.pcs[j] && !Away(s.pcs[j])
    ensures Tracks(s', out + SubmittedBy(s, act), back + CompletedBy(s, act))
  {
    var i, sub, com := act.i, SubmittedBy(s, act), CompletedBy(s, act);
    if !Away(s.pcs[i]) { assert out == back == s.sent; }
    if !s.pcs[i].Submit? || s.hand == [] { assert out + sub == out; }
    if !s.pcs[i].InFlight? { assert back + com == back; }
    assert s'.hand == [] ==> s'.sent + s'.hand == s'.sent;
  }

  lemma {:induction false} RunTracks(s: State, acts: seq<Action>, s': State, out: seq<int>, back: seq<int>)
    requires Inv(s) && Run(s, acts, s') && Path(s, acts) && Works(acts) && NoRelease(acts) && s.closes == 0
    requires Tracks(s, out, back)
    ensures Tracks(s', out + Submitted(s, acts), back + Completed(s, acts))
    ensures s'.closes == 0
    decreases |acts|
  {
    hide Inv, Next, Enabled, Tracks, SubmittedBy, CompletedBy;
    if acts == [] {
      assert out + [] == out && back + [] == back;
    } else {
      var m, sub, com := Next(s, acts[0]), SubmittedBy(s, acts[0]), CompletedBy(s, acts[0]);
      StepTracks(s, acts[0], out, back);
      StepKeepsInv(s, acts[0]);
      RunTracks(m, acts[1..], s', out + sub, back + com);
      assert out + (sub + Submitted(m, acts[1..])) == out + sub + Submitted(m, acts[1..]);
      assert back + (com + Completed(m, acts[1..])) == back + com + Completed(m, acts[1..]);
    }
  }

  /**
   While the socket works and the session is not released: what was handed to WSASend is what
   has been given back, and the batch that is in flight or being given back; and a packet is given
   back only after the socket has reported it sent. When all is quiet every packet of every call
   has gone through the socket once, in the order of the link CASes.
   */
  lemma WorkingSocketSendsAll(activities: nat, acts: seq<Action>, s: State)
    requires Run(Init(activities), acts, s) && Works(acts) && NoRelease(acts)
    ensures Path(Init(activities), acts) && !s.stuck && s.sent == s.dropped
    ensures Tracks(s, Submitted(Init(activities), acts), Completed(Init(activities), acts))
    ensures (forall i :: 0 <= i < |s.pcs| ==> s.pcs[i].Idle?) ==>
              Submitted(Init(activities), acts) == Completed(Init(activities), acts) == s.sent == s.enqs && !s.isSending
  {
    var s0 := Init(activities);
    RunIsPath(s0, acts, s);
    WorkingNotStuck(s0, acts, s);
    InitInv(activities);
    RunTracks(s0, acts, s, [], []);
    assert [] + Submitted(s0, acts) == Submitted(s0, acts) && [] + Completed(s0, acts) == Completed(s0, acts);
    assert Reachable(s);
    hide Reachable;
    NoLostWakeup(s);
    GivenBackOnceInOrder(s);
  }

  // ---- Batches

  /** SendPost stops taking packets only with a full batch, or when m_size counts nothing more. */
  lemma BatchIsFullOrQueueEmpty(s: State, i: nat, ok: bool)
    requires Reachable(s) && Enabled(s, Step(i, ok)) && s.pcs[i].Reserve?
    ensures var pc := Next(s, Step(i, ok)).pcs[i]; pc.Take? || pc.Undo? || (pc.Submit? && |s.hand| == SEND_PACKET_COUNT)
    ensures Next(s, Step(i, ok)).pcs[i].Undo? ==> |s.queue| <= Sum(s.pcs, Uncounted)
  {
    ReachableInv(s);
    ReserverReservesNothing(s, i);
  }
}
