/**
 A multicast over the real senders: its copies are what queues and batches of the sessions
 hold. Every run of this machine is a run of the packet as `Multicast` describes it.
 */
module MulticastSend {
  import opened Sums
  import M = Multicast
  import Q = SendSpec
  import R = SendRuns

  /** The packet that is multicast; every other packet has another number. */
  const PACKET: int := 0

  datatype World = World(sessions: seq<Q.State>, refCount: int, left: nat, owing: nat, frees: nat)

  datatype Step =
    | Refuse(full: bool)           // no session, or its queue is full: the sender gives the reference back
    | Enqueue(j: nat, i: nat)      // 539: the packet is linked into the queue of session j
    | Session(j: nat, act: Q.Action)   // a step of session j, or of whoever sends it something else
    | Free

  predicate Enabled(w: World, step: Step) {
    match step
    case Refuse(_) => w.left > 0
    case Enqueue(j, i) => w.left > 0 && j < |w.sessions| && Q.Enabled(w.sessions[j], Q.Send(i, PACKET))
    case Session(j, act) => j < |w.sessions| && Q.Enabled(w.sessions[j], act) && (act.Send? ==> act.packet != PACKET)
    case Free => w.owing > 0
  }

  function Decrement(w: World): World {
    w.(refCount := w.refCount - 1, owing := if w.refCount == 1 then w.owing + 1 else w.owing)
  }

  /** SendPacket up to its link CAS. */
  function Linked(q: Q.State, i: nat): Q.State
    requires Q.Enabled(q, Q.Send(i, PACKET))
  {
    Q.Next(Q.Next(q, Q.Send(i, PACKET)), Q.Step(i, true))
  }

  predicate GivesBack(q: Q.State, act: Q.Action)
    requires Q.Enabled(q, act)
  {
    Q.Next(q, act).dropped == q.dropped + [PACKET]
  }

  function Next(w: World, step: Step): World
    requires Enabled(w, step)
  {
    match step
    case Refuse(_) => Decrement(w.(left := w.left - 1))
    case Enqueue(j, i) => w.(sessions := w.sessions[j := Linked(w.sessions[j], i)], left := w.left - 1)
    case Session(j, act) =>
      var w' := w.(sessions := w.sessions[j := Q.Next(w.sessions[j], act)]);
      if GivesBack(w.sessions[j], act) then Decrement(w') else w'
    case Free => w.(owing := w.owing - 1, frees := w.frees + 1)
  }

  // ---- The copies

  function Held(q: Q.State): nat {
    multiset(q.hand + q.queue)[PACKET]
  }

  /** The packet as `Multicast` sees it. */
  function View(w: World): M.State {
    M.State(w.refCount, w.left, Sum(w.sessions, Held), w.owing, w.frees)
  }

  ghost predicate SessionOk(q: Q.State) {
    R.Reachable(q) && forall i :: 0 <= i < |q.pcs| ==> q.pcs[i] != Q.Link(PACKET)
  }

  ghost predicate WorldOk(w: World) {
    forall j :: 0 <= j < |w.sessions| ==> SessionOk(w.sessions[j])
  }

  /** A session's history grows by what is linked and by what is given back; no step begins to send. */
  ghost predicate Grows(q: Q.State, q': Q.State, i: nat) {
    && i < |q.pcs| == |q'.pcs| && q'.pcs == q.pcs[i := q'.pcs[i]] && !q'.pcs[i].Link?
    && (q'.enqs == q.enqs || (q.pcs[i].Link? && q'.enqs == q.enqs + [q.pcs[i].packet]))
    && (q'.dropped == q.dropped || (q'.dropped != [] && q'.dropped == q.dropped + [q'.dropped[|q'.dropped| - 1]]))
  }

  lemma EnqueueGrows(q: Q.State, i: nat)
    requires i < |q.pcs| && Q.Enqueuing(q.pcs[i])
    ensures Grows(q, Q.EnqueueStep(q, i), i)
  {
  }

  lemma SendPostGrows(q: Q.State, i: nat, ok: bool)
    requires i < |q.pcs| && Q.Posting(q.pcs[i]) && Q.FindsPacket(q, q.pcs[i])
    ensures Grows(q, Q.SendPostStep(q, i, ok), i)
  {
  }

  lemma CompletionGrows(q: Q.State, i: nat, ok: bool)
    requires i < |q.pcs| && Q.Completing(q.pcs[i])
    ensures Grows(q, Q.CompletionStep(q, i, ok), i)
  {
  }

  lemma CloseGrows(q: Q.State, i: nat)
    requires i < |q.pcs| && Q.Closing(q.pcs[i]) && Q.FindsPacket(q, q.pcs[i])
    ensures Grows(q, Q.CloseStep(q, i), i)
  {
  }

  lemma StepGrows(q: Q.State, act: Q.Action)
    requires Q.Enabled(q, act) && act.Step?
    ensures Grows(q, Q.Next(q, act), act.i)
  {
    hide Grows, Q.EnqueueStep, Q.SendPostStep, Q.CompletionStep, Q.CloseStep;
    if Q.Enqueuing(q.pcs[act.i]) {
      EnqueueGrows(q, act.i);
    } else if Q.Posting(q.pcs[act.i]) {
      SendPostGrows(q, act.i, act.ok);
    } else if Q.Completing(q.pcs[act.i]) {
      CompletionGrows(q, act.i, act.ok);
    } else {
      CloseGrows(q, act.i);
    }
  }

  lemma HistoryStep(q: Q.State, act: Q.Action)
    requires Q.Enabled(q, act)
    ensures var q' := Q.Next(q, act);
            && (q'.enqs == q.enqs || (act.Step? && act.i < |q.pcs| && q.pcs[act.i].Link? &&
               q'.enqs == q.enqs + [q.pcs[act.i].packet]))
            && (q'.dropped == q.dropped || (q'.dropped != [] &&
               q'.dropped == q.dropped + [q'.dropped[|q'.dropped| - 1]]))
  {
    hide Q.Instruction;
    if act.Step? { StepGrows(q, act); }
  }

  /** Every copy of the packet that entered the queue is held or was given back. */
  lemma CopiesBalance(q: Q.State)
    requires R.Reachable(q)
    ensures multiset(q.enqs)[PACKET] == multiset(q.dropped)[PACKET] + Held(q)
  {
    R.GivenBackOnceInOrder(q);
    assert q.enqs == q.dropped + (q.hand + q.queue);
  }

  lemma SessionStepOk(q: Q.State, act: Q.Action)
    requires SessionOk(q) && Q.Enabled(q, act) && (act.Send? ==> act.packet != PACKET)
    ensures SessionOk(Q.Next(q, act))
    ensures Held(Q.Next(q, act)) == Held(q) - if GivesBack(q, act) then 1 else 0
  {
    R.Reach(q, act);
    NoNewLink(q, act);
    HistoryStep(q, act);
    CopiesBalance(q);
    CopiesBalance(Q.Next(q, act));
  }

  lemma NoNewLink(q: Q.State, act: Q.Action)
    requires Q.Enabled(q, act) && (act.Send? ==> act.packet != PACKET)
    requires forall i :: 0 <= i < |q.pcs| ==> q.pcs[i] != Q.Link(PACKET)
    ensures forall i :: 0 <= i < |Q.Next(q, act).pcs| ==> Q.Next(q, act).pcs[i] != Q.Link(PACKET)
  {
    hide Q.Instruction;
    if act.Step? { StepGrows(q, act); }
  }

  lemma LinkedOk(q: Q.State, i: nat)
    requires SessionOk(q) && Q.Enabled(q, Q.Send(i, PACKET))
    ensures SessionOk(Linked(q, i)) && Held(Linked(q, i)) == Held(q) + 1
  {
    var begun := Q.Next(q, Q.Send(i, PACKET));
    R.Reach(q, Q.Send(i, PACKET));
    R.Reach(begun, Q.Step(i, true));
    CopiesBalance(q);
    CopiesBalance(Linked(q, i));
    assert Linked(q, i).enqs == q.enqs + [PACKET] && Linked(q, i).dropped == q.dropped;
  }

  // ---- Every step is a step of the packet, or none

  lemma StepIsPacketStep(w: World, step: Step)
    requires WorldOk(w) && Enabled(w, step) && M.Reachable(View(w))
    ensures WorldOk(Next(w, step)) && M.Reachable(View(Next(w, step)))
  {
    hide M.Reachable, SessionOk, Held;
    match step
    case Refuse(full) => M.Reach(View(w), M.Process(if full then M.Full else M.Missing));
    case Free => M.Reach(View(w), M.Free);
    case Enqueue(j, i) =>
      LinkedOk(w.sessions[j], i);
      SumUpdate(w.sessions, j, Linked(w.sessions[j], i), Held);
      M.Reach(View(w), M.Process(M.Queued));
    case Session(j, act) =>
      var q, q' := w.sessions[j], Q.Next(w.sessions[j], act);
      SessionStepOk(q, act);
      SumUpdate(w.sessions, j, q', Held);
      SumAtLeast(w.sessions, j, Held);
      if GivesBack(q, act) { M.Reach(View(w), M.DropCopy); }
  }

  // ---- Every run

  ghost predicate Run(w: World, steps: seq<Step>, w': World)
    decreases |steps|
  {
    if steps == [] then w' == w else Enabled(w, steps[0]) && Run(Next(w, steps[0]), steps[1..], w')
  }

  /** The multicast begins while the sessions are in any state they can reach; none has seen the packet. */
  ghost predicate Start(w: World, sessionCount: nat) {
    && sessionCount > 0 && WorldOk(w)
    && (forall j :: 0 <= j < |w.sessions| ==> PACKET !in w.sessions[j].enqs)
    && w.refCount == w.left == sessionCount && w.owing == 0 && w.frees == 0
  }

  lemma StartIsInit(w: World, sessionCount: nat)
    requires Start(w, sessionCount)
    ensures M.Reachable(View(w))
  {
    forall j | 0 <= j < |w.sessions|
      ensures Held(w.sessions[j]) == 0
    {
      CopiesBalance(w.sessions[j]);
    }
    SumZero(w.sessions, Held);
    assert M.Run(M.Init(sessionCount), [], View(w));
  }

  lemma {:induction false} RunOk(w: World, steps: seq<Step>, w': World)
    requires WorldOk(w) && M.Reachable(View(w)) && Run(w, steps, w')
    ensures WorldOk(w') && M.Reachable(View(w'))
    decreases |steps|
  {
    hide WorldOk, M.Reachable, Next, Enabled;
    if steps != [] {
      StepIsPacketStep(w, steps[0]);
      RunOk(Next(w, steps[0]), steps[1..], w');
    }
  }

  ghost predicate Reachable(w: World) {
    exists start, sessionCount, steps :: Start(start, sessionCount) && Run(start, steps, w)
  }

  lemma ReachableOk(w: World)
    requires Reachable(w)
    ensures WorldOk(w) && M.Reachable(View(w))
  {
    var start, sessionCount, steps :| Start(start, sessionCount) && Run(start, steps, w);
    StartIsInit(start, sessionCount);
    RunOk(start, steps, w);
  }

  /**
   In every interleaving of the multicast with the senders, completions and releases of all
   sessions: the count is the destinations to come plus what queues and batches hold, each
   session gives back every copy it was given once, and nobody gives back one too many.
   */
  lemma CountIsHeld(w: World)
    requires Reachable(w)
    ensures w.refCount == w.left + Sum(w.sessions, Held)
    ensures forall j :: 0 <= j < |w.sessions| ==>
              multiset(w.sessions[j].enqs)[PACKET] == multiset(w.sessions[j].dropped)[PACKET] + Held(w.sessions[j])
    ensures w.owing + w.frees == if w.left == 0 && Sum(w.sessions, Held) == 0 then 1 else 0
  {
    ReachableOk(w);
    M.CountIsConserved(View(w));
    M.FreedOnceAtTheEnd(View(w));
    forall j | 0 <= j < |w.sessions|
      ensures multiset(w.sessions[j].enqs)[PACKET] == multiset(w.sessions[j].dropped)[PACKET] + Held(w.sessions[j])
    {
      CopiesBalance(w.sessions[j]);
    }
  }

  /** Giving back a copy is always giving back one that is held, and never after the packet is freed. */
  lemma GivesBackHeld(w: World, j: nat, act: Q.Action)
    requires Reachable(w) && Enabled(w, Session(j, act)) && GivesBack(w.sessions[j], act)
    ensures Held(w.sessions[j]) > 0 && w.refCount > 0 && w.owing == 0 && w.frees == 0
  {
    ReachableOk(w);
    SessionStepOk(w.sessions[j], act);
    SumAtLeast(w.sessions, j, Held);
    M.CountIsConserved(View(w));
    M.TouchedOnlyBeforeFree(View(w), M.DropCopy);
  }

  /** When the last destination is processed and every session is quiet or has been released, the packet is freed. */
  lemma QuietFreed(w: World)
    requires Reachable(w) && w.left == 0
    requires forall j :: 0 <= j < |w.sessions| ==>
               (!w.sessions[j].stuck && forall i :: 0 <= i < |w.sessions[j].pcs| ==> w.sessions[j].pcs[i].Idle?)
    ensures w.refCount == 0 && w.owing + w.frees == 1
  {
    ReachableOk(w);
    forall j | 0 <= j < |w.sessions|
      ensures Held(w.sessions[j]) == 0
    {
      R.NoLostWakeup(w.sessions[j]);
      CopiesBalance(w.sessions[j]);
    }
    SumZero(w.sessions, Held);
    CountIsHeld(w);
  }
}
