/**
 The sending side of one session as a machine of atomic steps: SendPacket puts packets into
 the send queue (NetLib_Server.cpp:462-474), the flag IsSending elects who drains it
 (Session.h:33-65), SendPost takes a batch (71-157), the completion of the batch gives its
 packets back and looks whether more has come (NetLib_Server.cpp:27-56), and the release of the
 session gives back what is left (757-760, Session.h:282-313). The queue is the FIFO queue
 that `QueueRuns` proves it to be, with its counter still separate from its links.
 */
module SendSpec {
  import opened Sums

  const SEND_PACKET_COUNT: nat := 100

  /** Where an activity stands; the comment gives the next step. */
  datatype Pc =
    | Idle
    | Link(packet: int)   // the link CAS of Enqueue
    | Count               // m_size++ of Enqueue
    | TrySend             // CAS on IsSending after Enqueue
    | Reserve             // the next round of SendPost's loop: m_size-- of Dequeue
    | Undo                // m_size++ of a Dequeue that found nothing
    | Take                // the head CAS of Dequeue
    | Submit              // WSASend, or the check completion when nothing was taken
    | InFlight            // the batch is with the socket
    | Clear               // ClearSendPackets: the next packet of the batch
    | Release             // IsSending = 0
    | Check               // look at the size of the queue
    | TryAgain            // CAS on IsSending after the check
    | CloseHand           // ClearSendPackets of the release: the next packet of the batch
    | CloseQueue          // ClearSendBuffer of the release: the next Dequeue
    | CloseFlag           // IsSending = 0 of the release

  /**
   `hand` is what SendPost has taken (`packets`, then m_sendPackets). The rest is history:
   the packets enqueued, given back (their reference dropped), and given back after they were
   sent; whether an activity has left the flag set for good because its socket failed; and how
   often the session has been released.
   */
  datatype State = State(
    queue: seq<int>, size: int, isSending: bool, hand: seq<int>, pcs: seq<Pc>,
    enqs: seq<int>, dropped: seq<int>, sent: seq<int>, stuck: bool, closes: nat)

  datatype Action =
    | Send(i: nat, packet: int)   // somebody calls SendPacket
    | Close(i: nat)               // the elected releaser begins to clear
    | Step(i: nat, ok: bool)      // the next step; `ok` is the answer of the socket where it is asked

  predicate Closing(pc: Pc) {
    pc.CloseHand? || pc.CloseQueue? || pc.CloseFlag?
  }

  /**
   A sender pins the session, and every other activity holds a reference, so the release comes
   when nobody else is at work, and nobody sends until it is done (`SessionRuns.NoEnqueueAfterClear`).
   */
  predicate Enabled(s: State, act: Action) {
    match act
    case Send(i, _) => i < |s.pcs| && s.pcs[i].Idle? && forall j :: 0 <= j < |s.pcs| ==> !Closing(s.pcs[j])
    case Close(i) => i < |s.pcs| && forall j :: 0 <= j < |s.pcs| ==> s.pcs[j].Idle?
    case Step(i, _) => i < |s.pcs| && !s.pcs[i].Idle? && FindsPacket(s, s.pcs[i])
  }

  /** A Dequeue past its size check has a packet to take. */
  predicate FindsPacket(s: State, pc: Pc) {
    pc.Take? || (pc.CloseQueue? && s.size > 0) ==> s.queue != []
  }

  function Goto(s: State, i: nat, pc: Pc): State
    requires i < |s.pcs|
  {
    s.(pcs := s.pcs[i := pc])
  }

  function Next(s: State, act: Action): State
    requires Enabled(s, act)
  {
    match act
    case Send(i, packet) => Goto(s, i, Link(packet))
    case Close(i) => Goto(s, i, CloseHand).(closes := s.closes + 1)
    case Step(i, ok) => Instruction(s, i, ok)
  }

  function Instruction(s: State, i: nat, ok: bool): State
    requires i < |s.pcs| && FindsPacket(s, s.pcs[i])
  {
    match s.pcs[i]
    case Link(_) | Count | TrySend => EnqueueStep(s, i)
    case Reserve | Undo | Take | Submit => SendPostStep(s, i, ok)
    case InFlight | Clear | Release | Check | TryAgain => CompletionStep(s, i, ok)
    case CloseHand | CloseQueue | CloseFlag => CloseStep(s, i)
    case Idle => s
  }

  predicate Enqueuing(pc: Pc) {
    pc.Link? || pc.Count? || pc.TrySend?
  }

  /** Enqueue and TrySendPost. */
  function EnqueueStep(s: State, i: nat): State
    requires i < |s.pcs| && Enqueuing(s.pcs[i])
  {
    match s.pcs[i]
    case Link(packet) => Goto(s, i, Count).(queue := s.queue + [packet], enqs := s.enqs + [packet])
    case Count => Goto(s, i, TrySend).(size := s.size + 1)
    case TrySend => if s.isSending then Goto(s, i, Idle) else Goto(s, i, Reserve).(isSending := true)
  }

  predicate Posting(pc: Pc) {
    pc.Reserve? || pc.Undo? || pc.Take? || pc.Submit?
  }

  function SendPostStep(s: State, i: nat, ok: bool): State
    requires i < |s.pcs| && Posting(s.pcs[i]) && FindsPacket(s, s.pcs[i])
  {
    match s.pcs[i]
    case Reserve =>
      if |s.hand| == SEND_PACKET_COUNT then Goto(s, i, Submit)
      else Goto(s, i, if s.size - 1 < 0 then Undo else Take).(size := s.size - 1)
    case Undo => Goto(s, i, Submit).(size := s.size + 1)
    case Take => Goto(s, i, Reserve).(queue := s.queue[1..], hand := s.hand + [s.queue[0]])
    case Submit =>
      if s.hand == [] then Goto(s, i, Release)
      else if ok then Goto(s, i, InFlight)
      else Goto(s, i, Idle).(stuck := true)
  }

  predicate Completing(pc: Pc) {
    pc.InFlight? || pc.Clear? || pc.Release? || pc.Check? || pc.TryAgain?
  }

  function CompletionStep(s: State, i: nat, ok: bool): State
    requires i < |s.pcs| && Completing(s.pcs[i])
  {
    match s.pcs[i]
    case InFlight => if ok then Goto(s, i, Clear) else Goto(s, i, Idle).(stuck := true)
    case Clear =>
      if s.hand == [] then Goto(s, i, Release)
      else s.(hand := s.hand[1..], dropped := s.dropped + [s.hand[0]], sent := s.sent + [s.hand[0]])
    case Release => Goto(s, i, Check).(isSending := false)
    case Check => Goto(s, i, if s.size > 0 then TryAgain else Idle)
    case TryAgain => if s.isSending then Goto(s, i, Idle) else Goto(s, i, Reserve).(isSending := true)
  }

  /** The release clears the batch, then the queue, then the flag. */
  function CloseStep(s: State, i: nat): State
    requires i < |s.pcs| && Closing(s.pcs[i]) && FindsPacket(s, s.pcs[i])
  {
    match s.pcs[i]
    case CloseHand =>
      if s.hand == [] then Goto(s, i, CloseQueue)
      else s.(hand := s.hand[1..], dropped := s.dropped + [s.hand[0]])
    case CloseQueue =>
      if s.size - 1 < 0 then Goto(s, i, CloseFlag)
      else s.(size := s.size - 1, queue := s.queue[1..], dropped := s.dropped + [s.queue[0]])
    case CloseFlag => Goto(s, i, Idle).(isSending := false, stuck := false)
  }

  function Init(activities: nat): State {
    State([], 0, false, [], seq(activities, _ => Idle), [], [], [], false, 0)
  }

  // ---- Counting

  /** Activities between their CAS on IsSending and its release. */
  function Owner(pc: Pc): nat {
    if pc.Reserve? || pc.Undo? || pc.Take? || pc.Submit? || pc.InFlight? || pc.Clear? || pc.Release? then 1 else 0
  }

  function Uncounted(pc: Pc): nat { if pc.Count? then 1 else 0 }
  function Reserved(pc: Pc): nat { if pc.Take? then 1 else 0 }
  function Unrestored(pc: Pc): nat { if pc.Undo? then 1 else 0 }

  /** Activities that are going to look at IsSending, or to clear the queue. */
  function Awake(pc: Pc): nat {
    if pc.Count? || pc.TrySend? || pc.Check? || pc.TryAgain? || pc.CloseHand? || pc.CloseQueue? then 1 else 0
  }

  // ---- Invariant

  ghost predicate FlagInv(s: State) {
    Sum(s.pcs, Owner) + (if s.stuck then 1 else 0) == if s.isSending then 1 else 0
  }

  ghost predicate SizeInv(s: State) {
    && s.size == |s.queue| - Sum(s.pcs, Uncounted) - Sum(s.pcs, Reserved) - Sum(s.pcs, Unrestored)
    && Sum(s.pcs, Reserved) <= |s.queue|
  }

  ghost predicate OrderInv(s: State) {
    && s.enqs == s.dropped + s.hand + s.queue
    && (s.closes == 0 ==> s.sent == s.dropped)
    && |s.hand| <= SEND_PACKET_COUNT
    && (!s.isSending ==> s.hand == [])
    && (forall i :: 0 <= i < |s.pcs| ==> HandOk(s.pcs[i], s.hand))
  }

  /** What an owner may rely on about the batch. */
  predicate HandOk(pc: Pc, hand: seq<int>) {
    && (pc.Release? || pc.CloseQueue? || pc.CloseFlag? ==> hand == [])
    && (pc.Take? || pc.Undo? ==> |hand| < SEND_PACKET_COUNT)
  }

  /** The releaser works alone. */
  ghost predicate CloseInv(s: State) {
    && (forall i, j :: 0 <= i < |s.pcs| && 0 <= j < |s.pcs| && i != j && Closing(s.pcs[i]) ==> s.pcs[j].Idle?)
    && (forall i :: 0 <= i < |s.pcs| && Closing(s.pcs[i]) ==> s.closes > 0)
    && (forall i :: 0 <= i < |s.pcs| && s.pcs[i].CloseFlag? ==> s.queue == [])
  }

  /** A packet in the queue has somebody to care for it. */
  ghost predicate WakeInv(s: State) {
    s.queue != [] ==> s.isSending || Sum(s.pcs, Awake) > 0
  }

  ghost predicate Inv(s: State) {
    FlagInv(s) && SizeInv(s) && OrderInv(s) && CloseInv(s) && WakeInv(s)
  }
}
