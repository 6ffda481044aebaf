/**
 What `SendSpec` takes for granted holds: the release begins when nobody is sending, and nobody
 sends while it clears. So every run of slot and sending side together is a run of both.
 */
module SessionSendRuns {
  import opened Sums
  import opened SessionSendSpec
  import S = SessionSpec
  import P = SessionProof
  import R = SessionRuns
  import Q = SendSpec
  import T = SendRuns

  ghost predicate Inv(w: World) {
    R.Reachable(true, w.ss) && T.Reachable(w.q) && Backed(w) && Clears(w)
  }

  // ---- A releaser is alone

  /** A reference on the slot and its clearing exclude each other, and only one activity clears. */
  lemma ClearerAlone(w: World, r: nat, a: nat)
    requires R.Reachable(true, w.ss) && r < |w.ss.acts| && w.ss.acts[r] == S.Cleaning(w.slot)
    requires a < |w.ss.acts| && a != r
    ensures !Holder(w.ss.acts[a], w.slot) && w.ss.acts[a] != S.Cleaning(w.slot)
  {
    R.ReachableInv(w.ss);
    var s, k := w.ss, w.slot;
    assert S.ActInv(s, s.acts[r]) && S.SlotInv(s, k);
    var lo, hi := if a < r then a else r, if a < r then r else a;
    SumAtLeastTwo(s.acts, lo, hi, S.CustodyWeight(k));
    SumAtLeast(s.acts, r, S.CustodyWeight(k));
    if Holder(s.acts[a], k) { P.HolderPins(s, a); }
  }

  lemma HolderKeepsLive(w: World, a: nat)
    requires R.Reachable(true, w.ss) && a < |w.ss.acts| && Holder(w.ss.acts[a], w.slot)
    ensures w.slot < |w.ss.live| && w.slot < |w.ss.io| && w.ss.live[w.slot] && w.ss.io[w.slot] >= 1
  {
    R.ReachableInv(w.ss);
    P.HolderPins(w.ss, a);
  }

  lemma ClearerNotLive(w: World, r: nat)
    requires R.Reachable(true, w.ss) && r < |w.ss.acts| && w.ss.acts[r] == S.Cleaning(w.slot)
    ensures w.slot < |w.ss.live| && !w.ss.live[w.slot]
  {
    R.ReachableInv(w.ss);
    assert S.ActInv(w.ss, w.ss.acts[r]) && S.SlotInv(w.ss, w.slot);
    SumAtLeast(w.ss.acts, r, S.CustodyWeight(w.slot));
  }

  /** When the elected releaser begins to clear, no sending code is at work on the session. */
  lemma ReleaseFindsNobody(w: World, i: nat, r: nat)
    requires Inv(w) && Enabled(w, Close(i, r))
    ensures Q.Enabled(w.q, Q.Close(i))
  {
    hide R.Reachable, T.Reachable;
    forall j | 0 <= j < |w.q.pcs|
      ensures w.q.pcs[j].Idle?
    {
      if Busy(w, j) { ClearerAlone(w, r, w.runner[j]); }
    }
  }

  /** While the queue is being cleared nobody can begin to send. */
  lemma SenderFindsNoReleaser(w: World, i: nat, packet: int, a: nat)
    requires Inv(w) && Enabled(w, Begin(i, packet, a)) && Holder(w.ss.acts[a], w.slot)
    ensures Q.Enabled(w.q, Q.Send(i, packet))
  {
    hide R.Reachable, T.Reachable;
    forall j | 0 <= j < |w.q.pcs|
      ensures !Q.Closing(w.q.pcs[j])
    {
      if Busy(w, j) && Q.Closing(w.q.pcs[j]) { ClearerAlone(w, w.runner[j], a); }
    }
  }

  lemma PinHasReference(w: World, a: nat)
    requires R.Reachable(true, w.ss) && a < |w.ss.acts| && w.ss.acts[a].Pinned? && w.ss.acts[a].h.index == w.slot
    ensures Holder(w.ss.acts[a], w.slot)
  {
    R.ReachableInv(w.ss);
    assert S.ActInv(w.ss, w.ss.acts[a]);
  }

  // ---- Steps of the session machine

  /** A step leaves every activity but its own in place. */
  lemma OthersStay(s: S.State, sa: S.Action, a: nat)
    requires S.Enabled(s, sa) && a < |s.acts| && (sa.Accept? || a != sa.i)
    ensures a < |S.Next(s, sa).acts| && S.Next(s, sa).acts[a] == s.acts[a]
  {
  }

  /** In the order of the code, an activity that sends keeps its reference, and one that clears stays. */
  lemma RunnerStays(w: World, sa: S.Action, i: nat)
    requires R.Reachable(true, w.ss) && Backed(w) && Enabled(w, Session(sa)) && i < |w.runner| && Busy(w, i)
    ensures w.runner[i] < |S.Next(w.ss, sa).acts|
    ensures BackedBy(w, i, S.Next(w.ss, sa).acts[w.runner[i]])
  {
    hide R.Reachable;
    var a := w.runner[i];
    assert BackedBy(w, i, w.ss.acts[a]);
    if sa.Accept? || a != sa.i {
      OthersStay(w.ss, sa, a);
    } else {
      assert Runs(w, a);
      R.ReachableInv(w.ss);
      hide S.Inv;
      match sa
      case Raise(_) => P.RaiseOk(w.ss, a);
      case Lower(_) => P.LowerOk(w.ss, a);
      case _ =>
    }
  }

  lemma LiveStays(s: S.State, sa: S.Action, k: nat)
    requires S.Enabled(s, sa) && k < |s.live| && k < |s.io|
    ensures k < |S.Next(s, sa).live|
    ensures s.live[k] && !S.Next(s, sa).live[k] ==>
              sa.Step? && s.acts[sa.i] == S.AtRelease(k) && s.io[k] == 0 && S.Next(s, sa).acts[sa.i] == S.Cleaning(k)
  {
  }

  lemma SizedSlots(s: S.State)
    requires R.Reachable(true, s)
    ensures |s.live| == |s.io|
  {
    R.ReachableInv(s);
  }

  lemma ReleasesLive(w: World, sa: S.Action)
    requires R.Reachable(true, w.ss) && S.Enabled(w.ss, sa) && Releases(w, sa)
    ensures w.slot < |w.ss.live| && w.ss.live[w.slot]
  {
    R.ReachableInv(w.ss);
    P.ReleaseCas(w.ss, sa.i);
  }

  lemma SessionStepClears(w: World, sa: S.Action)
    requires R.Reachable(true, w.ss) && Clears(w) && Enabled(w, Session(sa))
    ensures Clears(Next(w, Session(sa)))
  {
    hide R.Reachable, Empty;
    var w', k := Next(w, Session(sa)), w.slot;
    SizedSlots(w.ss);
    LiveStays(w.ss, sa, k);
    if w.ss.live[k] {
      if !w'.ss.live[k] { assert w'.ss.acts[sa.i] == S.Cleaning(k); }
    } else {
      if Releases(w, sa) { ReleasesLive(w, sa); }
      if !w.cleared {
        var r :| 0 <= r < |w.ss.acts| && w.ss.acts[r] == S.Cleaning(k);
        ClearerStays(w, sa, r);
      }
    }
  }

  lemma ClearerStays(w: World, sa: S.Action, r: nat)
    requires Enabled(w, Session(sa)) && r < |w.ss.acts| && w.ss.acts[r] == S.Cleaning(w.slot) && !w.cleared
    ensures r < |S.Next(w.ss, sa).acts| && S.Next(w.ss, sa).acts[r] == S.Cleaning(w.slot)
  {
    if sa.Accept? || r != sa.i { OthersStay(w.ss, sa, r); }
  }

  lemma SessionStepBacked(w: World, sa: S.Action)
    requires R.Reachable(true, w.ss) && Backed(w) && Clears(w) && Enabled(w, Session(sa))
    ensures Backed(Next(w, Session(sa)))
  {
    hide R.Reachable, S.Next, Clears, S.Enabled;
    var w' := Next(w, Session(sa));
    forall i | 0 <= i < |w'.runner| && Busy(w', i)
      ensures w'.runner[i] < |w'.ss.acts| && BackedBy(w', i, w'.ss.acts[w'.runner[i]])
    {
      assert Busy(w, i);
      RunnerStays(w, sa, i);
    }
  }

  // ---- Steps of the sending side

  lemma BeginOk(w: World, i: nat, packet: int, a: nat)
    requires Inv(w) && Enabled(w, Begin(i, packet, a))
    ensures Inv(Next(w, Begin(i, packet, a)))
  {
    PinHasReference(w, a);
    SenderFindsNoReleaser(w, i, packet, a);
    HolderKeepsLive(w, a);
    hide R.Reachable, T.Reachable;
    T.Reach(w.q, Q.Send(i, packet));
    RunnerAdded(w, Next(w, Begin(i, packet, a)), i, a);
  }

  lemma CloseOk(w: World, i: nat, r: nat)
    requires Inv(w) && Enabled(w, Close(i, r))
    ensures Inv(Next(w, Close(i, r)))
  {
    ReleaseFindsNobody(w, i, r);
    hide R.Reachable, T.Reachable;
    T.Reach(w.q, Q.Close(i));
    RunnerAdded(w, Next(w, Close(i, r)), i, r);
  }

  /** Activity `i` of the sending side begins inside activity `a`, where nothing else of it runs. */
  lemma RunnerAdded(w: World, w': World, i: nat, a: nat)
    requires Backed(w) && i < |w.q.pcs| && a < |w.ss.acts| && !Runs(w, a)
    requires w'.ss == w.ss && w'.slot == w.slot && w'.cleared == w.cleared && w'.runner == w.runner[i := a]
    requires |w'.q.pcs| == |w.q.pcs| && w'.q.pcs == w.q.pcs[i := w'.q.pcs[i]]
    requires BackedBy(w', i, w.ss.acts[a])
    ensures Backed(w')
  {
    forall j | 0 <= j < |w'.runner| && Busy(w', j)
      ensures w'.runner[j] < |w'.ss.acts| && BackedBy(w', j, w'.ss.acts[w'.runner[j]])
      ensures j != i ==> w'.runner[j] != a
    {
      if j != i { assert Busy(w, j) && BackedBy(w, j, w.ss.acts[w.runner[j]]); }
    }
  }

  /** What a step of the sending side does to its own place: it clears until it is done, or it never does. */
  ghost predicate Placed(q: Q.State, q': Q.State, i: nat) {
    && i < |q.pcs| == |q'.pcs| && q'.pcs == q.pcs[i := q'.pcs[i]]
    && if Q.Closing(q.pcs[i]) then Q.Closing(q'.pcs[i]) || (q.pcs[i].CloseFlag? && q'.pcs[i].Idle?)
       else !Q.Closing(q'.pcs[i])
  }

  lemma EnqueuePlaced(q: Q.State, i: nat)
    requires i < |q.pcs| && Q.Enqueuing(q.pcs[i])
    ensures Placed(q, Q.EnqueueStep(q, i), i)
  {
  }

  lemma SendPostPlaced(q: Q.State, i: nat, ok: bool)
    requires i < |q.pcs| && Q.Posting(q.pcs[i]) && Q.FindsPacket(q, q.pcs[i])
    ensures Placed(q, Q.SendPostStep(q, i, ok), i)
  {
  }

  lemma CompletionPlaced(q: Q.State, i: nat, ok: bool)
    requires i < |q.pcs| && Q.Completing(q.pcs[i])
    ensures Placed(q, Q.CompletionStep(q, i, ok), i)
  {
  }

  lemma ClosePlaced(q: Q.State, i: nat)
    requires i < |q.pcs| && Q.Closing(q.pcs[i]) && Q.FindsPacket(q, q.pcs[i])
    ensures Placed(q, Q.CloseStep(q, i), i)
  {
  }

  lemma PlaceStays(q: Q.State, i: nat, ok: bool)
    requires Q.Enabled(q, Q.Step(i, ok))
    ensures Placed(q, Q.Instruction(q, i, ok), i)
  {
    hide Placed, Q.EnqueueStep, Q.SendPostStep, Q.CompletionStep, Q.CloseStep;
    if Q.Enqueuing(q.pcs[i]) {
      EnqueuePlaced(q, i);
    } else if Q.Posting(q.pcs[i]) {
      SendPostPlaced(q, i, ok);
    } else if Q.Completing(q.pcs[i]) {
      CompletionPlaced(q, i, ok);
    } else {
      ClosePlaced(q, i);
    }
  }

  lemma QuietStepOk(w: World, i: nat, ok: bool)
    requires Inv(w) && Enabled(w, Step(i, ok)) && !Posts(w.q, i, ok)
    ensures Inv(Next(w, Step(i, ok)))
  {
    hide R.Reachable, T.Reachable, Q.Instruction;
    var w' := Next(w, Step(i, ok));
    PlaceStays(w.q, i, ok);
    T.Reach(w.q, Q.Step(i, ok));
    if w.q.pcs[i].CloseFlag? {
      ClosedOk(w, i, ok);
    } else {
      StillBacked(w, w', i);
      StillClears(w, w', i);
    }
  }

  lemma StillBacked(w: World, w': World, i: nat)
    requires Backed(w) && Busy(w, i) && w' == w.(q := w'.q)
    requires |w'.q.pcs| == |w.q.pcs| && w'.q.pcs == w.q.pcs[i := w'.q.pcs[i]]
    requires w'.q.pcs[i].Idle? || (Q.Closing(w'.q.pcs[i]) <==> Q.Closing(w.q.pcs[i]))
    ensures Backed(w')
  {
    forall j | 0 <= j < |w'.runner| && Busy(w', j)
      ensures w'.runner[j] < |w'.ss.acts| && BackedBy(w', j, w'.ss.acts[w'.runner[j]])
    {
      assert Busy(w, j) && BackedBy(w, j, w.ss.acts[w.runner[j]]);
    }
  }

  /** While anybody is busy the slot is live or its clearing is not done. */
  lemma StillClears(w: World, w': World, i: nat)
    requires R.Reachable(true, w.ss) && Backed(w) && Clears(w) && Busy(w, i)
    requires w'.ss == w.ss && w'.slot == w.slot && w'.cleared == w.cleared
    ensures Clears(w')
  {
    hide R.Reachable;
    assert BackedBy(w, i, w.ss.acts[w.runner[i]]);
    if !Q.Closing(w.q.pcs[i]) { HolderKeepsLive(w, w.runner[i]); }
  }

  /** At the end of the clearing nothing is left. */
  lemma ClosedOk(w: World, i: nat, ok: bool)
    requires Inv(w) && Enabled(w, Step(i, ok)) && w.q.pcs[i].CloseFlag?
    ensures Backed(Next(w, Step(i, ok))) && Clears(Next(w, Step(i, ok)))
  {
    hide R.Reachable, T.Reachable, Q.Instruction;
    T.ReleaseClearsAll(w.q, i);
    ClosedIsEmpty(w.q, i, ok);
  }

  lemma ClosedIsEmpty(q: Q.State, i: nat, ok: bool)
    requires Q.Enabled(q, Q.Step(i, ok)) && q.pcs[i].CloseFlag?
    requires q.dropped == q.enqs && q.queue == q.hand == [] && q.size == 0
    requires var q' := Q.Next(q, Q.Step(i, true));
             !q'.isSending && !q'.stuck && forall j :: 0 <= j < |q'.pcs| ==> q'.pcs[j].Idle?
    ensures Empty(Q.Instruction(q, i, ok)) && |Q.Instruction(q, i, ok).pcs| == |q.pcs|
  {
  }

  lemma PostingStepOk(w: World, i: nat, ok: bool)
    requires Inv(w) && Enabled(w, Step(i, ok)) && Posts(w.q, i, ok)
    ensures Inv(Next(w, Step(i, ok)))
  {
    var a, w' := w.runner[i], Next(w, Step(i, ok));
    assert BackedBy(w, i, w.ss.acts[a]);
    CanPost(w, a);
    hide R.Reachable, T.Reachable, Q.Instruction, S.PostStep;
    R.Reach(true, w.ss, S.Post(a));
    T.Reach(w.q, Q.Step(i, ok));
    PlaceStays(w.q, i, ok);
    PostBacks(w, i, ok);
    HolderKeepsLive(w, a);
  }

  lemma CanPost(w: World, a: nat)
    requires R.Reachable(true, w.ss) && a < |w.ss.acts| && Holder(w.ss.acts[a], w.slot)
    requires Two(w, a) || w.ss.acts[a].Work?
    ensures S.Enabled(w.ss, S.Post(a)) && P.Bounded(w.ss, S.Post(a))
  {
    R.ReachableInv(w.ss);
    P.HolderPins(w.ss, a);
  }

  /** The posted operation takes the reference and the sending code over. */
  lemma PostBacks(w: World, i: nat, ok: bool)
    requires Backed(w) && Enabled(w, Step(i, ok)) && Posts(w.q, i, ok)
    requires S.Enabled(w.ss, S.Post(w.runner[i])) && w.slot < |w.ss.live|
    requires var q' := Q.Instruction(w.q, i, ok);
             |q'.pcs| == |w.q.pcs| && q'.pcs == w.q.pcs[i := q'.pcs[i]] && !Q.Closing(q'.pcs[i])
    ensures Backed(Next(w, Step(i, ok)))
    ensures Next(w, Step(i, ok)).ss.live == w.ss.live
  {
    hide Q.Instruction;
    var w', a := Next(w, Step(i, ok)), w.runner[i];
    assert BackedBy(w, i, w.ss.acts[a]);
    forall j | 0 <= j < |w'.runner| && Busy(w', j)
      ensures w'.runner[j] < |w'.ss.acts| && BackedBy(w', j, w'.ss.acts[w'.runner[j]])
      ensures j != i ==> w'.runner[j] < |w.ss.acts|
    {
      if j != i { assert Busy(w, j) && BackedBy(w, j, w.ss.acts[w.runner[j]]) && w.runner[j] != a; }
    }
  }

  // ---- Every step, every run

  lemma StepKeepsInv(w: World, act: Action)
    requires Inv(w) && Enabled(w, act)
    ensures Inv(Next(w, act))
  {
    match act
    case Begin(i, packet, a) => BeginOk(w, i, packet, a);
    case Close(i, r) => CloseOk(w, i, r);
    case Step(i, ok) => if Posts(w.q, i, ok) { PostingStepOk(w, i, ok); } else { QuietStepOk(w, i, ok); }
    case Session(sa) =>
      hide R.Reachable, T.Reachable;
      R.Reach(true, w.ss, sa);
      SessionStepBacked(w, sa);
      SessionStepClears(w, sa);
  }

  lemma InitInv(io: seq<nat>, activities: nat, senders: nat, slot: nat)
    requires slot < |io|
    ensures Inv(Init(io, activities, senders, slot))
  {
    assert R.Run(S.Init(io, activities), [], true, S.Init(io, activities));
    assert T.Run(Q.Init(senders), [], Q.Init(senders));
  }

  lemma {:induction false} RunKeepsInv(w: World, acts: seq<Action>, w': World)
    requires Inv(w) && Run(w, acts, w')
    ensures Inv(w')
    decreases |acts|
  {
    hide Inv, Next, Enabled;
    if acts != [] {
      StepKeepsInv(w, acts[0]);
      RunKeepsInv(Next(w, acts[0]), acts[1..], w');
    }
  }

  lemma ReachableInv(w: World)
    requires Reachable(w)
    ensures Inv(w)
  {
    hide Inv, Run;
    var io, activities, senders, slot: nat, acts :|
      slot < |io| && Run(Init(io, activities, senders, slot), acts, w);
    InitInv(io, activities, senders, slot);
    RunKeepsInv(Init(io, activities, senders, slot), acts, w);
  }

  /** Every run of slot and sending side together is a run of the session machine and one of the sending machine. */
  lemma RunsProject(w: World)
    requires Reachable(w)
    ensures R.Reachable(true, w.ss) && T.Reachable(w.q)
  {
    hide R.Reachable, T.Reachable, Reachable;
    ReachableInv(w);
  }

  /** The conditions that the sending machine puts on its Close and Send are met whenever the code comes there. */
  lemma ConditionsMet(w: World)
    requires Reachable(w)
    ensures forall i, r :: Enabled(w, Close(i, r)) ==> Q.Enabled(w.q, Q.Close(i))
    ensures forall i, packet, a :: Enabled(w, Begin(i, packet, a)) ==> Q.Enabled(w.q, Q.Send(i, packet))
  {
    hide R.Reachable, T.Reachable, Reachable, Enabled, Q.Enabled;
    ReachableInv(w);
    forall i, r | Enabled(w, Close(i, r))
      ensures Q.Enabled(w.q, Q.Close(i))
    {
      ReleaseFindsNobody(w, i, r);
    }
    forall i, packet, a | Enabled(w, Begin(i, packet, a))
      ensures Q.Enabled(w.q, Q.Send(i, packet))
    {
      BeginMeets(w, i, packet, a);
    }
  }

  lemma BeginMeets(w: World, i: nat, packet: int, a: nat)
    requires Inv(w) && Enabled(w, Begin(i, packet, a))
    ensures Q.Enabled(w.q, Q.Send(i, packet))
  {
    PinHasReference(w, a);
    SenderFindsNoReleaser(w, i, packet, a);
  }

  /** A session is not released while any sending code is at work on it. */
  lemma SendingKeepsSession(w: World, i: nat)
    requires Reachable(w) && Busy(w, i) && !Q.Closing(w.q.pcs[i])
    ensures w.slot < |w.ss.live| && w.slot < |w.ss.io| && w.ss.live[w.slot] && w.ss.io[w.slot] >= 1
  {
    hide R.Reachable, T.Reachable, Reachable;
    ReachableInv(w);
    assert BackedBy(w, i, w.ss.acts[w.runner[i]]);
    HolderKeepsLive(w, w.runner[i]);
  }

  /**
   From the leave of a session until accept stores IOCount = 1 for the next one in its slot,
   every packet ever enqueued has been given back and the queue is as a new session needs it.
   */
  lemma SessionStartsEmpty(w: World)
    requires Reachable(w) && w.slot < |w.ss.live| && !w.ss.live[w.slot]
    requires forall r :: 0 <= r < |w.ss.acts| ==> w.ss.acts[r] != S.Cleaning(w.slot)
    ensures Empty(w.q)
  {
    hide R.Reachable, T.Reachable, Reachable;
    ReachableInv(w);
  }
}
