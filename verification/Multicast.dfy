/**
 One packet sent to many sessions, IOCPNetLib/NetLib_Server.cpp:483-555: who brings the
 reference count to 0 frees it.
 */
module Multicast {

  // The sender takes a reference for every destination in advance; a destination that cannot
  // be served gives its reference back, one that is served leaves a copy in a send queue.
  // Copies are dropped by whoever sent or cleared them (Session.h:282-313).

  /** What becomes of a destination: no session (514), send queue full (525), or enqueued (539). */
  datatype Fate = Missing | Full | Queued

  /**
   `left` destinations are not yet processed, `copies` are queued or being sent, `owing` decrements
   saw 0 and have not freed yet.
   */
  datatype State = State(refCount: int, left: nat, copies: nat, owing: nat, frees: nat)

  datatype Action = Process(fate: Fate) | DropCopy | Free

  predicate Enabled(s: State, act: Action) {
    match act
    case Process(_) => s.left > 0
    case DropCopy => s.copies > 0
    case Free => s.owing > 0
  }

  /** InterlockedDecrement and the look at its result. */
  function Decrement(s: State): State {
    s.(refCount := s.refCount - 1, owing := if s.refCount == 1 then s.owing + 1 else s.owing)
  }

  function Next(s: State, act: Action): State
    requires Enabled(s, act)
  {
    match act
    case Process(fate) =>
      var s1 := s.(left := s.left - 1);
      if fate.Queued? then s1.(copies := s.copies + 1) else Decrement(s1)
    case DropCopy => Decrement(s.(copies := s.copies - 1))
    case Free => s.(owing := s.owing - 1, frees := s.frees + 1)
  }

  function Init(sessionCount: nat): State {
    State(sessionCount, sessionCount, 0, 0, 0)
  }

  ghost predicate Run(s: State, acts: seq<Action>, s': State)
    decreases |acts|
  {
    if acts == [] then s' == s else Enabled(s, acts[0]) && Run(Next(s, acts[0]), acts[1..], s')
  }

  /** With no destination the sender returns at once (485), so there is at least one. */
  ghost predicate Reachable(s: State) {
    exists sessionCount: nat, acts :: sessionCount > 0 && Run(Init(sessionCount), acts, s)
  }

  ghost predicate Inv(s: State) {
    s.refCount == s.left + s.copies && s.owing + s.frees == if s.refCount == 0 then 1 else 0
  }

  lemma {:induction false} RunKeepsInv(s: State, acts: seq<Action>, s': State)
    requires Inv(s) && Run(s, acts, s')
    ensures Inv(s')
    decreases |acts|
  {
    if acts != [] {
      RunKeepsInv(Next(s, acts[0]), acts[1..], s');
    }
  }

  lemma {:induction false} RunAppend(s: State, acts: seq<Action>, m: State, act: Action)
    requires Run(s, acts, m) && Enabled(m, act)
    ensures Run(s, acts + [act], Next(m, act))
    decreases |acts|
  {
    if acts == [] {
      assert (acts + [act])[1..] == [];
    } else {
      RunAppend(Next(s, acts[0]), acts[1..], m, act);
      assert (acts + [act])[1..] == acts[1..] + [act];
    }
  }

  lemma Reach(s: State, act: Action)
    requires Reachable(s) && Enabled(s, act)
    ensures Reachable(Next(s, act))
  {
    var sessionCount: nat, acts :| sessionCount > 0 && Run(Init(sessionCount), acts, s);
    RunAppend(Init(sessionCount), acts, s, act);
  }

  lemma ReachableInv(s: State)
    requires Reachable(s)
    ensures Inv(s)
  {
    var sessionCount: nat, acts :| sessionCount > 0 && Run(Init(sessionCount), acts, s);
    RunKeepsInv(Init(sessionCount), acts, s);
  }

  /** In every interleaving the count is the destinations to come plus the copies still held. */
  lemma CountIsConserved(s: State)
    requires Reachable(s)
    ensures s.refCount == s.left + s.copies
  {
    ReachableInv(s);
  }

  /** The packet is freed, or about to be, exactly when no destination and no copy is left, and then once. */
  lemma FreedOnceAtTheEnd(s: State)
    requires Reachable(s)
    ensures s.owing + s.frees == if s.left == 0 && s.copies == 0 then 1 else 0
  {
    ReachableInv(s);
  }

  /** Nobody touches a packet that is free or about to be, and no decrement goes below 0 (520 and 534 do not happen). */
  lemma TouchedOnlyBeforeFree(s: State, act: Action)
    requires Reachable(s) && Enabled(s, act)
    ensures !act.Free? ==> s.frees == 0 && s.owing == 0
    ensures Next(s, act).refCount >= 0
  {
    ReachableInv(s);
  }

  // ---- The code

  class SharedPacket {
    var refCount: int
    ghost var history: State

    ghost predicate Valid()
      reads this
    {
      Reachable(history) && refCount == history.refCount
    }

    /** Lines 489-497. */
    constructor (sessionCount: nat)
      requires sessionCount > 0
      ensures Valid() && history == Init(sessionCount)
    {
      refCount := sessionCount;
      history := Init(sessionCount);
      assert Run(Init(sessionCount), [], Init(sessionCount));
    }

    method Decrement() returns (interRet: int)
      modifies this`refCount
      ensures refCount == interRet == old(refCount) - 1
    {
      refCount := refCount - 1;
      interRet := refCount;
    }

    /** One round of the loop of lines 511-552. */
    method ProcessDestination(fate: Fate) returns (mustFree: bool)
      requires Valid() && history.left > 0
      modifies this
      ensures Valid() && history == Next(old(history), Process(fate))
      ensures mustFree <==> history.left == 0 && history.copies == 0
    {
      hide Reachable;
      CountIsConserved(history);
      mustFree := false;
      if !fate.Queued? {
        var interRet := Decrement();
        mustFree := interRet == 0;
      }
      Reach(history, Process(fate));
      history := Next(history, Process(fate));
    }

    /** Session.h:290 and 306. */
    method Drop() returns (mustFree: bool)
      requires Valid() && history.copies > 0
      modifies this
      ensures Valid() && history == Next(old(history), DropCopy)
      ensures mustFree <==> history.left == 0 && history.copies == 0
    {
      hide Reachable;
      CountIsConserved(history);
      var interRet := Decrement();
      mustFree := interRet == 0;
      Reach(history, DropCopy);
      history := Next(history, DropCopy);
    }
  }
}
