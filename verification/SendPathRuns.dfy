/** Whole runs of the sending side. */
module SendRuns {
  import opened Sums
  import opened SendSpec
  import opened SendProof

  lemma InitInv(activities: nat)
    ensures Inv(Init(activities))
  {
    var pcs := Init(activities).pcs;
    SumZero(pcs, Owner);
    SumZero(pcs, Uncounted);
    SumZero(pcs, Reserved);
    SumZero(pcs, Unrestored);
  }

  /** `acts`, each enabled, lead from `s` to `s'`. */
  ghost predicate Run(s: State, acts: seq<Action>, s': State)
    decreases |acts|
  {
    if acts == [] then s' == s else Enabled(s, acts[0]) && Run(Next(s, acts[0]), acts[1..], s')
  }

  lemma {:induction false} RunKeepsInv(s: State, acts: seq<Action>, s': State)
    requires Inv(s) && Run(s, acts, s')
    ensures Inv(s')
    decreases |acts|
  {
    hide Inv, Next;
    if acts != [] {
      StepKeepsInv(s, acts[0]);
      RunKeepsInv(Next(s, acts[0]), acts[1..], s');
    }
  }

  ghost predicate Reachable(s: State) {
    exists activities, acts :: Run(Init(activities), acts, s)
  }

  lemma {:induction false} RunAppend(s: State, acts: seq<Action>, m: State, act: Action)
    requires Run(s, acts, m) && Enabled(m, act)
    ensures Run(s, acts + [act], Next(m, act))
    decreases |acts|
  {
    hide Next, Enabled;
    if acts == [] {
      assert (acts + [act])[1..] == [];
    } else {
      RunAppend(Next(s, acts[0]), acts[1..], m, act);
      assert (acts + [act])[1..] == acts[1..] + [act];
    }
  }

  lemma Reach(s: State, act: Action)
    requires Reachable(s) && Enabled(s, act)
    ensures Reachable(Next(s, act))
  {
    hide Next, Enabled, Run;
    var activities, acts :| Run(Init(activities), acts, s);
    RunAppend(Init(activities), acts, s, act);
  }

  lemma ReachableInv(s: State)
    requires Reachable(s)
    ensures Inv(s)
  {
    hide Inv;
    var activities, acts :| Run(Init(activities), acts, s);
    InitInv(activities);
    RunKeepsInv(Init(activities), acts, s);
  }

  // ---- What holds in every reachable state

  /** At most one activity is between its CAS on IsSending and the release, so m_sendPackets has one writer. */
  lemma OneSenderAtATime(s: State, i: nat, j: nat)
    requires Reachable(s) && i < j < |s.pcs|
    ensures Owner(s.pcs[i]) + Owner(s.pcs[j]) <= if s.isSending then 1 else 0
  {
    ReachableInv(s);
    SumAtLeastTwo(s.pcs, i, j, Owner);
  }

  /**
   Every packet enqueued is given back once, in the order in which it was enqueued, by the
   completion of its batch or by the release; before the first release all of them were sent.
   A batch fits the array.
   */
  lemma GivenBackOnceInOrder(s: State)
    requires Reachable(s)
    ensures s.enqs == s.dropped + s.hand + s.queue
    ensures s.closes == 0 ==> s.sent == s.dropped
    ensures |s.hand| <= SEND_PACKET_COUNT
  {
    ReachableInv(s);
  }

  /** A Dequeue that got past its size check, in SendPost or in the release, finds a packet. */
  lemma TakeFinds(s: State, i: nat)
    requires Reachable(s) && i < |s.pcs|
    ensures FindsPacket(s, s.pcs[i])
  {
    ReachableInv(s);
    SumAtLeast(s.pcs, i, Reserved);
    if s.pcs[i].CloseQueue? { SumsAlone(s.pcs, i); }
  }

  /**
   No wake-up is lost: while a packet is queued, somebody owns the flag, is about to look at it
   or is clearing the queue, unless the flag was left set by a socket that failed. So when all
   is quiet and no socket has failed, everything enqueued has been given back.
   */
  lemma NoLostWakeup(s: State)
    requires Reachable(s)
    ensures s.queue != [] && !s.stuck ==> exists i :: 0 <= i < |s.pcs| && (Owner(s.pcs[i]) == 1 || Awake(s.pcs[i]) == 1)
    ensures !s.stuck && (forall i :: 0 <= i < |s.pcs| ==> s.pcs[i].Idle?) ==> s.dropped == s.enqs && !s.isSending
  {
    ReachableInv(s);
    if forall i :: 0 <= i < |s.pcs| ==> Owner(s.pcs[i]) == 0 && Awake(s.pcs[i]) == 0 {
      SumZero(s.pcs, Owner);
      SumZero(s.pcs, Awake);
    }
  }

  /** At the end of a release nothing is left, and the flag is free for the next session. */
  lemma ReleaseClearsAll(s: State, i: nat)
    requires Reachable(s) && i < |s.pcs| && s.pcs[i].CloseFlag?
    ensures s.dropped == s.enqs && s.queue == s.hand == [] && s.size == 0
    ensures var s' := Next(s, Step(i, true));
            !s'.isSending && !s'.stuck && forall j :: 0 <= j < |s'.pcs| ==> s'.pcs[j].Idle?
  {
    ReachableInv(s);
    assert HandOk(s.pcs[i], s.hand);
    SumsAlone(s.pcs, i);
  }
}
