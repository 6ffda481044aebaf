/** The sending side in place: a session's fields, updated one interlocked operation at a time. */
module SendInPlace {
  import opened SendSpec
  import opened SendRuns

  class SendingSession {
    var sendBuffer: seq<int>    // the packets in m_sendBuffer
    var useSize: int            // its m_size
    var isSending: bool         // IsSending
    var sendPackets: seq<int>   // m_sendPackets up to m_sendPacketCount
    var acts: seq<Pc>           // where the activities stand
    ghost var history: State

    ghost predicate Valid()
      reads this
    {
      && Reachable(history)
      && sendBuffer == history.queue && useSize == history.size && isSending == history.isSending
      && sendPackets == history.hand && acts == history.pcs
    }

    constructor (activities: nat)
      ensures Valid() && history == Init(activities)
    {
      sendBuffer, useSize, isSending, sendPackets := [], 0, false, [];
      acts := seq(activities, _ => Idle);
      history := Init(activities);
      assert Run(Init(activities), [], Init(activities));
    }

    /** The machine takes the step that the object has just taken. */
    ghost method Advance(act: Action)
      requires Reachable(history) && Enabled(history, act)
      modifies this`history
      ensures Reachable(history) && history == Next(old(history), act)
    {
      hide Reachable, Next;
      Reach(history, act);
      history := Next(history, act);
    }

    /** CAS on IsSending from 0 to 1. */
    method AcquireSending() returns (won: bool)
      modifies this`isSending
      ensures won == !old(isSending) && isSending
    {
      won := !isSending;
      isSending := true;
    }

    method SendPacket(i: nat, packet: int)
      requires Valid() && Enabled(history, Send(i, packet))
      modifies this
      ensures Valid() && history == Next(old(history), Send(i, packet))
    {
      hide Reachable;
      acts := acts[i := Link(packet)];
      Advance(Send(i, packet));
    }

    /** Lines 463 and 468: Enqueue and TrySendPost. */
    method ResumeSender(i: nat)
      requires Valid() && i < |acts| && (acts[i].Link? || acts[i].Count? || acts[i].TrySend?)
      modifies this
      ensures Valid() && history == Next(old(history), Step(i, true))
    {
      hide Reachable;
      match acts[i] {
        case Link(packet) =>
          sendBuffer := sendBuffer + [packet];
          acts := acts[i := Count];
        case Count =>
          useSize := useSize + 1;
          acts := acts[i := TrySend];
        case TrySend =>
          var won := AcquireSending();
          acts := acts[i := if won then Reserve else Idle];
      }
      Advance(Step(i, true));
    }

    /** SendPost: the Dequeue loop and WSASend; `ok` is whether the socket accepts. */
    method ResumeSendPost(i: nat, ok: bool)
      requires Valid() && i < |acts| && (acts[i].Reserve? || acts[i].Undo? || acts[i].Take? || acts[i].Submit?)
      modifies this
      ensures Valid() && Enabled(old(history), Step(i, ok)) && history == Next(old(history), Step(i, ok))
    {
      if acts[i].Take? { TakeFinds(history, i); }
      hide Reachable;
      match acts[i] {
        case Reserve =>
          if |sendPackets| == SEND_PACKET_COUNT {
            acts := acts[i := Submit];
          } else {
            useSize := useSize - 1;
            acts := acts[i := if useSize < 0 then Undo else Take];
          }
        case Undo =>
          useSize := useSize + 1;
          acts := acts[i := Submit];
        case Take =>
          sendPackets := sendPackets + [sendBuffer[0]];
          sendBuffer := sendBuffer[1..];
          acts := acts[i := Reserve];
        case Submit =>
          acts := acts[i := if sendPackets == [] then Release else if ok then InFlight else Idle];
      }
      Advance(Step(i, ok));
    }

    /** Lines 27-56: the send completion; `ok` is whether bytes were transferred. */
    method ResumeCompletion(i: nat, ok: bool)
      requires Valid() && i < |acts| && (acts[i].InFlight? || acts[i].Clear? || acts[i].Release? ||
              acts[i].Check? || acts[i].TryAgain?)
      modifies this
      ensures Valid() && history == Next(old(history), Step(i, ok))
    {
      hide Reachable;
      match acts[i] {
        case InFlight =>
          acts := acts[i := if ok then Clear else Idle];
        case Clear =>
          if sendPackets == [] {
            acts := acts[i := Release];
          } else {
            sendPackets := sendPackets[1..];
          }
        case Release =>
          isSending := false;
          acts := acts[i := Check];
        case Check =>
          acts := acts[i := if useSize > 0 then TryAgain else Idle];
        case TryAgain =>
          var won := AcquireSending();
          acts := acts[i := if won then Reserve else Idle];
      }
      Advance(Step(i, ok));
    }

    /** ReleaseSession begins to clear. */
    method ReleaseSession(i: nat)
      requires Valid() && Enabled(history, Close(i))
      modifies this
      ensures Valid() && history == Next(old(history), Close(i))
    {
      hide Reachable;
      acts := acts[i := CloseHand];
      Advance(Close(i));
    }

    /** Lines 757-760: ClearSendPackets, ClearSendBuffer, IsSending = 0. */
    method ResumeRelease(i: nat)
      requires Valid() && i < |acts| && Closing(acts[i])
      modifies this
      ensures Valid() && Enabled(old(history), Step(i, true)) && history == Next(old(history), Step(i, true))
    {
      TakeFinds(history, i);
      hide Reachable;
      match acts[i] {
        case CloseHand =>
          if sendPackets == [] {
            acts := acts[i := CloseQueue];
          } else {
            sendPackets := sendPackets[1..];
          }
        case CloseQueue =>
          if useSize - 1 < 0 {
            acts := acts[i := CloseFlag];
          } else {
            useSize := useSize - 1;
            sendBuffer := sendBuffer[1..];
          }
        case CloseFlag =>
          isSending := false;
          acts := acts[i := Idle];
      }
      Advance(Step(i, true));
    }
  }
}
