/** Whole runs of the chat machine: duplicate logins, leaving, and the life of Player objects. */
module ChatRuns {
  import opened ChatSpec
  import opened ChatProof

  /** `acts`, each enabled, lead from `s` to `s'`. */
  ghost predicate Run(s: State, acts: seq<Action>, s': State)
    decreases |acts|
  {
    if acts == [] then s' == s else Enabled(s, acts[0]) && Run(Next(s, acts[0]), acts[1..], s')
  }

  ghost predicate Reachable(s: State) {
    exists sessions, acts :: Run(Init(sessions), acts, s)
  }

  lemma {:induction false} RunAppend(s: State, acts: seq<Action>, m: State, act: Action)
    requires Run(s, acts, m) && Enabled(m, act)
    ensures Run(s, acts + [act], Next(m, act))
    decreases |acts|
  {
    hide Next, Enabled;
    if acts == [] {
      assert (acts + [act])[1..] == [];
    } else {
      RunAppend(Next(s, acts[0]), acts[1..], m, act);
      assert (acts + [act])[1..] == acts[1..] + [act];
    }
  }

  lemma Reach(s: State, act: Action)
    requires Reachable(s) && Enabled(s, act)
    ensures Reachable(Next(s, act))
  {
    hide Next, Enabled, Run;
    var sessions, acts :| Run(Init(sessions), acts, s);
    RunAppend(Init(sessions), acts, s, act);
  }

  lemma InitInv(sessions: nat)
    ensures Inv(Init(sessions)) && Covered(Init(sessions))
  {
  }

  lemma {:induction false} RunKeepsInv(s: State, acts: seq<Action>, s': State)
    requires Inv(s) && Covered(s) && Run(s, acts, s')
    ensures Inv(s') && Covered(s')
    decreases |acts|
  {
    hide Inv, Covered, Next;
    if acts != [] {
      StepKeepsInv(s, acts[0]);
      StepKeepsCovered(s, acts[0]);
      RunKeepsInv(Next(s, acts[0]), acts[1..], s');
    }
  }

  lemma ReachableInv(s: State)
    requires Reachable(s)
    ensures Inv(s) && Covered(s)
  {
    hide Inv, Covered;
    var sessions, acts :| Run(Init(sessions), acts, s);
    InitInv(sessions);
    RunKeepsInv(Init(sessions), acts, s);
  }

  // ---- Every session is in reach of a timeout or asked to go

  ghost predicate Covered(s: State) {
    forall h: nat :: CoveredAt(s, h)
  }

  ghost predicate CoveredAt(s: State, h: nat) {
    h < |s.pcs| && (s.pcs[h].Ready? || s.pcs[h].LoginErase? || s.pcs[h].Find?) ==>
      h in s.waiting || h in s.players || h in s.asked
  }

  lemma OwnCovered(s: State, act: Action)
    requires Inv(s) && CoveredAt(s, act.h) && Enabled(s, act)
    ensures CoveredAt(Next(s, act), act.h)
  {
    hide PlayerInv, AccInv, ListInv;
    assert SessionInv(s, act.h);
  }

  lemma StepKeepsCovered(s: State, act: Action)
    requires Inv(s) && Covered(s) && Enabled(s, act)
    ensures Covered(Next(s, act))
  {
    hide Inv, Next;
    StepIsKept(s, act);
    OwnCovered(s, act);
    var s' := Next(s, act);
    forall g: nat
      ensures CoveredAt(s', g)
    {
      if g < |s'.pcs| && g != act.h { assert s'.pcs[g] == s.pcs[g] && CoveredAt(s, g); }
    }
  }

  /**
   Between two callbacks a session is either waiting for its login, where Login_Timeout finds
   it, or logged in, where Timeout finds it, or Disconnect has been called for it.
   */
  lemma NoSessionForgotten(s: State, h: nat)
    requires Reachable(s) && h < |s.pcs| && s.pcs[h].Ready?
    ensures h in s.waiting || h in s.players || h in s.asked
    ensures !(h in s.waiting && h in s.players)
  {
    ReachableInv(s);
    assert SessionInv(s, h) && CoveredAt(s, h);
  }

  // ---- Duplicate logins

  /**
   From the moment its player exists, published or not, until its leave comes to the account,
   a session is the one bound to its account, or it was told or is being told to go.
   */
  lemma BoundOrAsked(s: State, p: nat)
    requires Reachable(s) && p < |s.pool| && Bound(s, p)
    ensures s.pool[p].owner < |s.pcs|
    ensures var h, acc := s.pool[p].owner, s.pool[p].acc;
            (acc in s.accs && s.accs[acc] == h) || h in s.asked || Displacing(s, h)
  {
    ReachableInv(s);
    assert PlayerInv(s, p);
  }

  /** Of two sessions that have created a player for one account, at least one was told or is being told to go. */
  lemma OneBoundPerAccount(s: State, p: nat, q: nat)
    requires Reachable(s) && p < |s.pool| && q < |s.pool| && p != q
    requires Bound(s, p) && Bound(s, q) && s.pool[p].acc == s.pool[q].acc
    ensures var g, h := s.pool[p].owner, s.pool[q].owner;
            g in s.asked || h in s.asked || Displacing(s, g) || Displacing(s, h)
  {
    ReachableInv(s);
    BoundOrAsked(s, p);
    BoundOrAsked(s, q);
    assert PlayerInv(s, p);
  }

  /** The same of a session in players_sessionHandle. */
  lemma LoggedInBoundOrAsked(s: State, h: nat)
    requires Reachable(s) && h in s.players
    ensures s.players[h] < |s.pool| && s.pool[s.players[h]].owner == h
    ensures var acc := s.pool[s.players[h]].acc;
            (acc in s.accs && s.accs[acc] == h) || h in s.asked || Displacing(s, h)
  {
    ReachableInv(s);
    assert SessionInv(s, h) && PlayerInv(s, s.players[h]);
  }

  /** Of two sessions logged in to one account, at least one was told or is being told to go. */
  lemma DuplicateLoginDisplaced(s: State, g: nat, h: nat)
    requires Reachable(s) && g != h && g in s.players && h in s.players
    requires s.players[g] < |s.pool| && s.players[h] < |s.pool|
    requires s.pool[s.players[g]].acc == s.pool[s.players[h]].acc
    ensures g in s.asked || h in s.asked || Displacing(s, g) || Displacing(s, h)
  {
    LoggedInBoundOrAsked(s, g);
    LoggedInBoundOrAsked(s, h);
  }

  /**
   The binding of an account to `h` ends in two ways only: `h` itself leaves, or a later login
   takes the account over and is about to disconnect `h`. A leave never ends another's binding.
   */
  lemma BindingEnds(s: State, act: Action, acc: int)
    requires Reachable(s) && Enabled(s, act) && acc in s.accs
    requires var s' := Next(s, act); acc !in s'.accs || s'.accs[acc] != s.accs[acc]
    ensures var s', h := Next(s, act), s.accs[acc];
            h < |s.pcs| &&
            if act.h == h then act.Step? && s.pcs[h].LeaveAcc?
            else
              && act.h < |s'.pcs| && acc in s'.accs && s'.accs[acc] == act.h
              && s'.pcs[act.h].LoginDisplace? && s'.pcs[act.h].prior == h
  {
    hide Next, Enabled;
    ReachableInv(s);
    StepIsKept(s, act);
    assert AccInv(s, acc);
    var p :| 0 <= p < |s.pool| && s.pool[p].owner == s.accs[acc] && s.pool[p].acc == acc && Bound(s, p);
    assert PlayerInv(s, p);
    if act.h == s.accs[acc] { OwnBindingEnds(s, act, acc, p); }
  }

  lemma OwnBindingEnds(s: State, act: Action, acc: int, p: nat)
    requires Inv(s) && Enabled(s, act) && acc in s.accs && act.h == s.accs[acc]
    requires p < |s.pool| && s.pool[p].owner == act.h
    requires var s' := Next(s, act); acc !in s'.accs || s'.accs[acc] != s.accs[acc]
    ensures act.h < |s.pcs| && act.Step? && s.pcs[act.h].LeaveAcc?
  {
    assert SessionInv(s, act.h);
  }

  // ---- Leaving

  /** After its leave a session is in none of the maps and lists, and its player is deleted. */
  lemma LeftNothingBehind(s: State, h: nat)
    requires Reachable(s) && h < |s.pcs| && s.pcs[h].Gone?
    ensures h !in s.waiting && h !in s.players
    ensures forall acc :: acc in s.accs ==> s.accs[acc] != h
    ensures forall p :: 0 <= p < |s.pool| && s.pool[p].owner == h ==> s.pool[p].deleted
    ensures forall e :: e in s.lists ==> e.1 < |s.pool| && s.pool[e.1].owner != h
  {
    ReachableInv(s);
    assert SessionInv(s, h);
    forall p | 0 <= p < |s.pool| && s.pool[p].owner == h
      ensures s.pool[p].deleted
    {
      assert PlayerInv(s, p);
    }
    forall acc | acc in s.accs
      ensures s.accs[acc] != h
    {
      assert AccInv(s, acc);
    }
    forall e | e in s.lists
      ensures e.1 < |s.pool| && s.pool[e.1].owner != h
    {
      assert ListInv(s, e.0, e.1);
    }
  }

  // ---- Player objects

  /** No pointer to a deleted player: not in a map, not in a sector list, not in any session's code. */
  lemma PointersAlive(s: State)
    requires Reachable(s)
    ensures forall h :: h in s.players ==> Own(s, h, s.players[h])
    ensures forall e :: e in s.lists ==> e.1 < |s.pool| && !s.pool[e.1].deleted
    ensures forall h :: 0 <= h < |s.pcs| && Held(s.pcs[h]) >= 0 ==> Own(s, h, Held(s.pcs[h]))
  {
    ReachableInv(s);
    forall h | h in s.players
      ensures Own(s, h, s.players[h])
    {
      assert SessionInv(s, h);
    }
    forall h | 0 <= h < |s.pcs| && Held(s.pcs[h]) >= 0
      ensures Own(s, h, Held(s.pcs[h]))
    {
      assert SessionInv(s, h);
    }
    forall e | e in s.lists
      ensures e.1 < |s.pool| && !s.pool[e.1].deleted
    {
      assert ListInv(s, e.0, e.1);
    }
  }

  /** A player on the map is once in the list of its sector; no player is in any other list. */
  lemma ListedOnce(s: State, h: nat, sector: Sector)
    requires Reachable(s) && h in s.players
    ensures s.players[h] < |s.pool|
    ensures s.lists[(sector, s.players[h])] == if s.pool[s.players[h]].sector == sector != Void then 1 else 0
  {
    ReachableInv(s);
    assert SessionInv(s, h) && PlayerInv(s, s.players[h]);
    if (sector, s.players[h]) in s.lists { assert ListInv(s, sector, s.players[h]); }
  }

  /** No step but the last region of its own session's leave deletes a player, and none revives one. */
  lemma StepKeepsPool(s: State, act: Action, p: nat)
    requires Inv(s) && Enabled(s, act) && p < |s.pool|
    ensures p < |Next(s, act).pool| && Next(s, act).pool[p].owner == s.pool[p].owner
    ensures s.pool[p].deleted ==> Next(s, act).pool[p].deleted
    ensures !s.pool[p].deleted && Next(s, act).pool[p].deleted ==>
              act == Step(s.pool[p].owner) && act.h < |s.pcs| && s.pcs[act.h] == LeaveDelete(p)
  {
    if act.Step? { assert SessionInv(s, act.h); }
  }

  /** The step that deletes is its own session's, and finds the player undeleted. */
  lemma DeletedOnce(s: State, act: Action, p: nat)
    requires Reachable(s) && Enabled(s, act) && p < |s.pool|
    requires act.Step? && act.h < |s.pcs| && s.pcs[act.h] == LeaveDelete(p)
    ensures act.h == s.pool[p].owner && !s.pool[p].deleted && Next(s, act).pool[p].deleted
  {
    ReachableInv(s);
    assert SessionInv(s, act.h);
  }

  lemma {:induction false} DeletedForGood(s: State, acts: seq<Action>, s': State, p: nat)
    requires Inv(s) && Run(s, acts, s') && p < |s.pool|
    ensures p < |s'.pool| && s'.pool[p].owner == s.pool[p].owner && (s.pool[p].deleted ==> s'.pool[p].deleted)
    decreases |acts|
  {
    hide Inv, Next;
    if acts != [] {
      StepKeepsPool(s, acts[0], p);
      StepKeepsInv(s, acts[0]);
      DeletedForGood(Next(s, acts[0]), acts[1..], s', p);
    }
  }

  /** When every session has left, everything is given back. */
  lemma AllGoneAllFree(s: State)
    requires Reachable(s) && forall h :: 0 <= h < |s.pcs| ==> s.pcs[h].Gone? || s.pcs[h].Unborn?
    ensures s.waiting == {} && s.players == map[] && s.accs == map[] && s.lists == multiset{}
    ensures forall p :: 0 <= p < |s.pool| ==> s.pool[p].deleted
  {
    ReachableInv(s);
    forall p | 0 <= p < |s.pool|
      ensures s.pool[p].deleted
    {
      assert PlayerInv(s, p) && SessionInv(s, s.pool[p].owner);
    }
    forall h: nat
      ensures h !in s.waiting && h !in s.players
    {
      if h < |s.pcs| { assert SessionInv(s, h); }
    }
    assert forall acc :: acc !in s.accs;
    assert forall e :: e !in s.lists;
  }
}
