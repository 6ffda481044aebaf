/** The flag in place: the steps of the workers and of Disconnect, each the machine's. */
module DisconnectInPlace {
  import opened DisconnectSpec
  import opened DisconnectRuns

  class Connection {
    var requestDisconnect: bool
    var recv: Recv              // what the kernel holds
    var acts: seq<Pc>
    ghost var history: State

    ghost predicate Valid()
      reads this
    {
      Reachable(history) && requestDisconnect == history.flag && recv == history.recv && acts == history.pcs
    }

    constructor (activities: nat)
      ensures Valid() && history == Init(activities)
    {
      requestDisconnect, recv, acts := false, Nothing, seq(activities, _ => Idle);
      history := Init(activities);
      assert Run(Init(activities), [], Init(activities));
    }

    ghost method Advance(act: Action)
      requires Reachable(history) && Enabled(history, act)
      modifies this`history
      ensures Reachable(history) && history == Next(old(history), act)
    {
      hide Reachable, Next;
      Reach(history, act);
      history := Next(history, act);
    }

    method CancelIoEx()
      modifies this`recv
      ensures recv == if old(recv).Pending? then Cancelled else old(recv)
    {
      if recv.Pending? { recv := Cancelled; }
    }

    /** Lines 563-564. */
    method ResumeDisconnect(i: nat)
      requires Valid() && i < |acts| && (acts[i].SetFlag? || acts[i].Cancel?)
      modifies this
      ensures Valid() && history == Next(old(history), Step(i, true))
    {
      hide Reachable;
      if acts[i].SetFlag? {
        requestDisconnect := true;
        acts := acts[i := Cancel];
      } else {
        CancelIoEx();
        acts := acts[i := Idle];
      }
      Advance(Step(i, true));
    }

    /** Lines 165-175 and 207; `ok` is whether WSARecv took the receive. */
    method ResumeReceive(i: nat, ok: bool)
      requires Valid() && i < |acts| && (acts[i].First? || acts[i].Handle? || acts[i].Check?)
      modifies this
      ensures Valid() && history == Next(old(history), Step(i, ok))
    {
      hide Reachable;
      match acts[i] {
        case First =>
          if ok { recv := Pending; }
          acts := acts[i := Idle];
        case Handle =>
          if ok { recv := Pending; }
          acts := acts[i := if ok then Check else Idle];
        case Check =>
          acts := acts[i := if requestDisconnect then Cancel else Idle];
      }
      Advance(Step(i, ok));
    }

    /** A worker takes up the completion of the receive; without data the chain of receives ends. */
    method TakeCompletion(i: nat, data: bool)
      requires Valid() && Enabled(history, Take(i, data))
      modifies this
      ensures Valid() && history == Next(old(history), Take(i, data))
    {
      hide Reachable;
      recv := Nothing;
      acts := acts[i := if data then Handle else Idle];
      Advance(Take(i, data));
    }
  }
}
