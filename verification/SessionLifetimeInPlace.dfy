/**
 The session table of NetLib_Server in place: reference words and handles in arrays indexed by
 slot, updated one interlocked operation at a time. What the machine knows beyond the run-time
 words (which sessions live, which were released or left, which handles are published) is
 ghost here. `Valid` says that the machine state is reachable inside the bounds on the words,
 so the theorems about such states are theorems about the object.
 */
module SessionInPlace {
  import opened SessionSpec
  import opened SessionProof
  import opened SessionRuns

  class SessionTable {
    const io: array<nat>         // m_sessions[k].IOCount
    const handle: array<Handle>  // m_sessions[k].SessionHandle
    var free: seq<nat>           // m_sessionIndexPool, top first
    var count: int               // m_sessionCount
    var idPool: nat              // m_idPool
    var accept: AcceptPc         // where the accept thread stands
    var acts: seq<Pc>            // where the activities stand
    ghost var history: State

    ghost predicate Valid()
      reads this, io, handle
    {
      && Reachable(true, history)
      && io[..] == history.io && handle[..] == history.handle && |history.live| == |history.io|
      && free == history.free && count == history.count && idPool == history.idPool
      && accept == history.accept && acts == history.acts
    }

    constructor (words: seq<nat>, activities: nat)
      ensures Valid() && fresh(io) && fresh(handle) && history == Init(words, activities)
    {
      io := new nat[|words|](i requires 0 <= i < |words| => words[i]);
      handle := new Handle[|words|](_ => Handle(0, 0));
      free, count, idPool := seq(|words|, i => i), 0, 0;
      accept, acts := Waiting, seq(activities, _ => Idle);
      history := Init(words, activities);
      assert Run(Init(words, activities), [], true, Init(words, activities));
      new;
      assert io[..] == words && handle[..] == history.handle;
    }

    /** The machine takes the step that the object has just taken. */
    ghost method Advance(act: Action)
      requires Reachable(true, history) && Enabled(history, act) && Bounded(history, act)
      modifies this`history
      ensures Reachable(true, history) && history == Next(old(history), act)
    {
      hide Reachable, Bounded, Next;
      Reach(true, history, act);
      history := Next(history, act);
    }

    method IncrementIOCount(k: nat) returns (flag: bool)
      requires k < io.Length
      modifies io
      ensures io[..] == old(io[..])[k := Inc16(old(io[k]))]
      ensures flag <==> FlagOf(Inc16(old(io[k]))) != 0
    {
      io[k] := Inc16(io[k]);
      flag := FlagOf(io[k]) != 0;
    }

    method DecrementIOCount(k: nat) returns (zero: bool)
      requires k < io.Length
      modifies io
      ensures io[..] == old(io[..])[k := Dec16(old(io[k]))]
      ensures zero <==> Dec16(old(io[k])) == 0
    {
      io[k] := Dec16(io[k]);
      zero := io[k] == 0;
    }

    method CompareExchangeIOCount(k: nat, exchange: nat, comparand: nat) returns (seen: nat)
      requires k < io.Length
      modifies io
      ensures seen == old(io[k]) && io[..] == if seen == comparand then old(io[..])[k := exchange] else old(io[..])
    {
      seen := io[k];
      if seen == comparand { io[k] := exchange; }
    }

    method CallFindSession(i: nat, h: Handle)
      requires Valid() && Enabled(history, Spawn(i, h))
      modifies this
      ensures Valid() && history == Next(old(history), Spawn(i, h))
    {
      hide Reachable;
      acts := acts[i := Find(h)];
      Advance(Spawn(i, h));
    }

    /** Lines 692-705. */
    method FindSession(i: nat)
      requires Valid() && Enabled(history, Step(i)) && Bounded(history, Step(i)) && (acts[i].Find? || acts[i].Check?)
      modifies this, io
      ensures Valid() && history == Next(old(history), Step(i))
    {
      hide Reachable;
      match acts[i] {
        case Find(h) =>
          var flag := IncrementIOCount(h.index);
          acts := acts[i := if flag then Idle else Check(h)];
        case Check(h) =>
          acts := acts[i := if handle[h.index] == h then Pinned(h, 1) else Drop(h.index)];
      }
      Advance(Step(i));
    }

    /** Increment_IOCount by somebody who holds a reference. */
    method Raise(i: nat)
      requires Valid() && Enabled(history, Action.Raise(i)) && Bounded(history, Action.Raise(i))
      modifies this, io
      ensures Valid() && history == Next(old(history), Action.Raise(i))
    {
      hide Reachable;
      var pc := acts[i];
      var flag := IncrementIOCount(SlotOf(pc));
      acts := acts[i := if !flag then pc.(refs := pc.refs + 1) else if pc.Work? && pc.main then Idle else pc];
      Advance(Action.Raise(i));
    }

    /** RecvPost, SendPost or TrySendPost has posted an operation. */
    method Post(i: nat)
      requires Valid() && Enabled(history, Action.Post(i))
      modifies this
      ensures Valid() && history == Next(old(history), Action.Post(i))
    {
      hide Reachable;
      var pc := acts[i];
      var rest := Less(pc);
      var kind := if pc.Work? && pc.main then Recv else Send;
      acts := acts[i := if rest.Work? then rest.(main := false) else rest] + [Pending(SlotOf(pc), kind)];
      Advance(Action.Post(i));
    }

    /** Decrement_IOCount and ReturnSession. */
    method Lower(i: nat)
      requires Valid() && Enabled(history, Action.Lower(i))
      modifies this, io
      ensures Valid() && history == Next(old(history), Action.Lower(i))
    {
      hide Reachable;
      var pc := acts[i];
      var zero := DecrementIOCount(SlotOf(pc));
      acts := acts[i := if zero then AtRelease(SlotOf(pc)) else Less(pc)];
      Advance(Action.Lower(i));
    }

    /** Lines 746-765: the CAS of ReleaseSession and what the winner does. */
    method ReleaseSession(i: nat)
      requires Valid() && Enabled(history, Step(i)) && (acts[i].AtRelease? || acts[i].Cleaning?)
      modifies this, io
      ensures Valid() && history == Next(old(history), Step(i))
    {
      hide Reachable;
      match acts[i] {
        case AtRelease(k) =>
          var seen := CompareExchangeIOCount(k, RELEASE_IOCOUNT, 0);
          acts := acts[i := if seen == 0 then Cleaning(k) else Idle];
        case Cleaning(k) =>
          acts := acts[i := LeavePosted(k)];
      }
      Advance(Step(i));
    }

    /** A worker takes up a completion: a posted operation, or the leave of lines 193-198. */
    method Complete(i: nat)
      requires Valid() && Enabled(history, Step(i))
      requires acts[i].Pending? || acts[i].LeavePosted? || acts[i].Leaving? || acts[i].LeavePushed?
      modifies this
      ensures Valid() && history == Next(old(history), Step(i))
    {
      hide Reachable;
      match acts[i] {
        case Pending(k, kind) => acts := acts[i := Work(k, 1, kind != Send)];
        case LeavePosted(k) => acts := acts[i := Leaving(k)];
        case Leaving(k) =>
          free := [handle[k].index] + free;
          acts := acts[i := LeavePushed];
        case LeavePushed =>
          count := count - 1;
          acts := acts[i := Idle];
      }
      Advance(Step(i));
    }

    /** Lines 317-347 of the accept thread: admission, the counter, the index. */
    method Admit(admit: bool)
      requires Valid() && Enabled(history, Accept(admit)) && (accept.Waiting? || accept.Admitted? || accept.Counted?)
      modifies this
      ensures Valid() && history == Next(old(history), Accept(admit))
    {
      hide Reachable;
      match accept {
        case Waiting => if count < io.Length && admit { accept := Admitted; }
        case Admitted => accept, count := Counted, count + 1;
        case Counted => accept, free := Popped(free[0]), free[1..];
      }
      Advance(Accept(admit));
    }

    /** Lines 350-355: the identifier, Connect's two stores, and the enter completion. */
    method Connect(admit: bool)
      requires Valid() && Enabled(history, Accept(admit)) && !(accept.Waiting? || accept.Admitted? || accept.Counted?)
      modifies this, io, handle
      ensures Valid() && history == Next(old(history), Accept(admit))
    {
      hide Reachable;
      match accept {
        case Popped(k) => accept, idPool := Numbered(k, Handle(k, idPool + 1)), idPool + 1;
        case Numbered(k, h) =>
          handle[k] := h;
          accept := Named(k);
        case Named(k) =>
          io[k] := 1;
          accept := Connected(k);
        case Connected(k) => accept, acts := Waiting, acts + [Pending(k, Enter)];
      }
      Advance(Accept(admit));
    }
  }
}
