/** Does Disconnect reach the receive? Over all runs. */
module DisconnectRuns {
  import opened DisconnectSpec

  lemma PostKeepsInv(s: State, i: nat, ok: bool)
    requires Inv(s) && i < |s.pcs| && Posting(s.pcs[i])
    ensures Inv(Next(s, Step(i, ok)))
  {
    hide Coming;
    var s' := Next(s, Step(i, ok));
    assert forall j :: 0 <= j < |s.pcs| && j != i ==> !Posting(s'.pcs[j]);
    assert forall j :: 0 <= j < |s.pcs| && s.pcs[j].Cancel? ==> s'.pcs[j].Cancel?;
    assert s.pcs[i].Handle? && ok ==> Coming(s') by { ComingAt(s', i); }
  }

  lemma ComingAt(s: State, i: nat)
    ensures i < |s.pcs| && (s.pcs[i].Check? || s.pcs[i].Cancel?) ==> Coming(s)
  {
  }

  lemma CancelKeepsInv(s: State, i: nat, ok: bool)
    requires Inv(s) && i < |s.pcs| && (s.pcs[i].Check? || s.pcs[i].SetFlag? || s.pcs[i].Cancel?)
    ensures Inv(Next(s, Step(i, ok)))
  {
    var s' := Next(s, Step(i, ok));
    assert forall j :: 0 <= j < |s.pcs| && j != i ==> s'.pcs[j] == s.pcs[j];
    assert !Posting(s'.pcs[i]);
    if (s.pcs[i].Check? && s.flag) || s.pcs[i].SetFlag? {
      assert s'.pcs[i].Cancel?;
    }
  }

  lemma OtherKeepsInv(s: State, act: Action)
    requires Inv(s) && Enabled(s, act) && !act.Step?
    ensures Inv(Next(s, act))
  {
    var s' := Next(s, act);
    assert forall j :: 0 <= j < |s.pcs| && !s.pcs[j].Idle? ==> s'.pcs[j] == s.pcs[j];
    assert Coming(s) ==> Coming(s') by {
      if Coming(s) {
        var i :| 0 <= i < |s.pcs| && (s.pcs[i].Check? || s.pcs[i].Cancel?);
        ComingAt(s', i);
      }
    }
  }

  lemma StepKeepsInv(s: State, act: Action)
    requires Inv(s) && Enabled(s, act)
    ensures Inv(Next(s, act))
  {
    hide Inv, Next;
    if !act.Step? {
      OtherKeepsInv(s, act);
    } else if Posting(s.pcs[act.i]) {
      PostKeepsInv(s, act.i, act.ok);
    } else {
      CancelKeepsInv(s, act.i, act.ok);
    }
  }

  lemma {:induction false} RunAppend(s: State, acts: seq<Action>, m: State, act: Action)
    requires Run(s, acts, m) && Enabled(m, act)
    ensures Run(s, acts + [act], Next(m, act))
    decreases |acts|
  {
    hide Next, Enabled;
    if acts == [] {
      assert (acts + [act])[1..] == [];
    } else {
      RunAppend(Next(s, acts[0]), acts[1..], m, act);
      assert (acts + [act])[1..] == acts[1..] + [act];
    }
  }

  lemma Reach(s: State, act: Action)
    requires Reachable(s) && Enabled(s, act)
    ensures Reachable(Next(s, act))
  {
    hide Next, Enabled, Run;
    var n, acts :| Run(Init(n), acts, s);
    RunAppend(Init(n), acts, s, act);
  }

  lemma {:induction false} RunKeepsInv(s: State, acts: seq<Action>, s': State)
    requires Inv(s) && Run(s, acts, s')
    ensures Inv(s')
    decreases |acts|
  {
    hide Inv, Next;
    if acts != [] {
      StepKeepsInv(s, acts[0]);
      RunKeepsInv(Next(s, acts[0]), acts[1..], s');
    }
  }

  lemma ReachableInv(s: State)
    requires Reachable(s)
    ensures Inv(s)
  {
    hide Run;
    var n, acts :| Run(Init(n), acts, s);
    RunKeepsInv(Init(n), acts, s);
  }

  // ---- Receives go on

  /** Somebody is about to post the next receive, or one is there. */
  ghost predicate Receiving(s: State) {
    !s.recv.Nothing? || exists i :: 0 <= i < |s.pcs| && Posting(s.pcs[i])
  }

  /** The two ways in which receiving comes to an end: a post that fails, or a completion without data. */
  predicate Ends(s: State, act: Action) {
    (act.Step? && !act.ok && act.i < |s.pcs| && Posting(s.pcs[act.i])) || (act.Take? && !act.data)
  }

  lemma StepKeepsReceiving(s: State, act: Action)
    requires Inv(s) && Enabled(s, act) && !Ends(s, act) && (s.entered ==> Receiving(s))
    ensures Next(s, act).entered ==> Receiving(Next(s, act))
  {
    var s' := Next(s, act);
    if s.recv.Nothing? && s.entered {
      var i :| 0 <= i < |s.pcs| && Posting(s.pcs[i]);
      assert s'.recv.Nothing? ==> Posting(s'.pcs[i]);
    }
    match act
    case Enter(i) => assert Posting(s'.pcs[i]);
    case Take(i, _) => assert Posting(s'.pcs[i]);
    case _ =>
  }

  ghost predicate NothingEnds(s: State, acts: seq<Action>)
    decreases |acts|
  {
    acts == [] || (Enabled(s, acts[0]) && !Ends(s, acts[0]) && NothingEnds(Next(s, acts[0]), acts[1..]))
  }

  lemma {:induction false} RunKeepsReceiving(s: State, acts: seq<Action>, s': State)
    requires Inv(s) && Run(s, acts, s') && NothingEnds(s, acts) && (s.entered ==> Receiving(s))
    ensures s'.entered ==> Receiving(s')
    decreases |acts|
  {
    hide Inv, Next, Enabled, Receiving, Ends;
    if acts != [] {
      StepKeepsReceiving(s, acts[0]);
      StepKeepsInv(s, acts[0]);
      RunKeepsReceiving(Next(s, acts[0]), acts[1..], s');
    }
  }

  /**
   From its enter completion on a session always has a receive posted, or somebody on the way to
   the next one, until a post fails or a completion comes without data, as a cancelled one does.
   */
  lemma ReceivesGoOn(n: nat, acts: seq<Action>, s: State)
    requires Run(Init(n), acts, s) && NothingEnds(Init(n), acts) && s.entered
    ensures Receiving(s)
  {
    RunKeepsReceiving(Init(n), acts, s);
  }

  // ---- Who is not reached

  /**
   A disconnect is requested, a receive is pending, and nobody is about to cancel or to look:
   then it is the first receive, and every call of CancelIoEx so far came before it was posted.
   */
  lemma OnlyFirstUnheard(s: State)
    requires Reachable(s) && s.flag && s.recv.Pending? && !Coming(s)
    ensures s.posts == 1 && s.cancels > 0 && s.cancels == s.cancelsAtPost
  {
    ReachableInv(s);
  }

  /**
   Once everybody has looked, a requested disconnect leaves a receive pending if and only if
   the first receive has been posted and not completed, and nobody cancelled since.
   */
  lemma UnheardIff(s: State)
    requires Reachable(s) && s.flag && !Coming(s)
    ensures s.recv.Pending? <==> s.posts == 1 && s.completed == 0 && s.cancels == s.cancelsAtPost
  {
    ReachableInv(s);
  }

  /** Line 207 never looks at the flag: the whole call falls between the join and the first receive. */
  lemma JoinIsUnheard()
    ensures exists s :: Reachable(s) && s.flag && s.recv.Pending? && s.pcs == [Idle, Idle]
  {
    var s0 := Init(2);
    assert Run(s0, [], s0);
    Reach(s0, Enter(0));
    var s1 := Next(s0, Enter(0));
    Reach(s1, Disconnect(1));
    var s2 := Next(s1, Disconnect(1));
    Reach(s2, Step(1, true));
    var s3 := Next(s2, Step(1, true));
    Reach(s3, Step(1, true));
    var s4 := Next(s3, Step(1, true));
    Reach(s4, Step(0, true));
    assert Next(s4, Step(0, true)).pcs == [Idle, Idle];
  }

  // ---- What a cancelled receive means

  /** The receive was cancelled, whether or not a worker has taken that up. */
  predicate Over(s: State) {
    s.recv.Cancelled? || s.aborted > 0
  }

  lemma StepStaysOver(s: State, act: Action)
    requires Inv(s) && Over(s) && Enabled(s, act)
    ensures Over(Next(s, act)) && Next(s, act).posts == s.posts && Next(s, act).completed == s.completed
  {
  }

  /** No receive is posted or completes ever again, and nobody is about to post one. */
  lemma {:induction false} CancelledForGood(s: State, acts: seq<Action>, s': State)
    requires Reachable(s) && Over(s) && Run(s, acts, s')
    ensures Over(s') && s'.posts == s.posts && s'.completed == s.completed
    ensures forall i :: 0 <= i < |s'.pcs| ==> !Posting(s'.pcs[i])
    decreases |acts|
  {
    hide Reachable, Next, Enabled;
    ReachableInv(s);
    if acts != [] {
      Reach(s, acts[0]);
      StepStaysOver(s, acts[0]);
      CancelledForGood(Next(s, acts[0]), acts[1..], s');
    }
  }
}
