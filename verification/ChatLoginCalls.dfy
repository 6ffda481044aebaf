/** What a client's request does: logins, moves and chat messages, and who is asked to go instead. */
module ChatCalls {
  import opened ChatSpec
  import opened ChatProof
  import opened ChatRuns

  // ---- Moves and messages

  /** A move that the server accepts: for the session's own account, and on the map. */
  predicate Welcome(req: Request, acc: int) {
    req.Move? && req.acc == acc && req.x < 50 && req.y < 50
  }

  lemma UseIsOwn(s: State, h: nat)
    requires Reachable(s) && h < |s.pcs| && s.pcs[h].Use?
    ensures var p := s.pcs[h].p; Own(s, h, p) && PlayerInv(s, p) && Listable(s, p)
    ensures forall sector :: sector != s.pool[s.pcs[h].p].sector ==> s.lists[(sector, s.pcs[h].p)] == 0
  {
    ReachableInv(s);
    assert SessionInv(s, h);
    var p := s.pcs[h].p;
    forall sector | sector != s.pool[p].sector
      ensures s.lists[(sector, p)] == 0
    {
      ListedHere(s, p, sector);
    }
  }

  /**
   The player is in sector (x, y), once in its list and in no other, and the session goes on,
   exactly when the move is for its own account and on the map; otherwise the player stays where it was
   and the session is about to be disconnected.
   */
  lemma MoveGoesThere(s: State, h: nat)
    requires Reachable(s) && Enabled(s, Step(h)) && s.pcs[h].Use? && s.pcs[h].req.Move?
    ensures var p, req, s' := s.pcs[h].p, s.pcs[h].req, Next(s, Step(h));
            && p < |s.pool| && |s'.pool| == |s.pool|
            && if Welcome(req, s.pool[p].acc) then
                 && s'.pcs[h].Ready? && s'.pool == s.pool[p := s.pool[p].(sector := At(req.x, req.y))]
                 && s'.lists[(At(req.x, req.y), p)] == 1
                 && forall sector :: sector != At(req.x, req.y) ==> s'.lists[(sector, p)] == 0
               else s'.pcs[h].Kick? && s'.pool == s.pool && s'.lists == s.lists
  {
    UseIsOwn(s, h);
    MoveLists(s, h, s.pcs[h].p, s.pcs[h].req);
  }

  lemma MoveLists(s: State, h: nat, p: nat, req: Request)
    requires h < |s.pcs| && p < |s.pool| && req.Move?
    requires s.lists[(s.pool[p].sector, p)] == if s.pool[p].sector != Void then 1 else 0
    requires forall sector :: sector != s.pool[p].sector ==> s.lists[(sector, p)] == 0
    ensures var s' := UsePlayer(s, h, p, req);
            && |s'.pcs| == |s.pcs| && |s'.pool| == |s.pool|
            && if Welcome(req, s.pool[p].acc) then
                 && s'.pcs[h].Ready? && s'.pool == s.pool[p := s.pool[p].(sector := At(req.x, req.y))]
                 && s'.lists[(At(req.x, req.y), p)] == 1
                 && forall sector :: sector != At(req.x, req.y) ==> s'.lists[(sector, p)] == 0
               else s'.pcs[h].Kick? && s'.pool == s.pool && s'.lists == s.lists
  {
    if Welcome(req, s.pool[p].acc) { assert At(req.x, req.y) != Void; }
  }

  /** Nobody else's player is moved, and no list entry of anybody else changes. */
  lemma MoveLeavesOthers(s: State, h: nat, q: nat, sector: Sector)
    requires Reachable(s) && Enabled(s, Step(h)) && s.pcs[h].Use? && q < |s.pool| && q != s.pcs[h].p
    ensures Next(s, Step(h)).pool[q] == s.pool[q]
    ensures Next(s, Step(h)).lists[(sector, q)] == s.lists[(sector, q)]
  {
    UseIsOwn(s, h);
    hide Reachable;
  }

  /** A chat message for the session's own account lets it go on; one for another account disconnects it. */
  lemma ChatDecides(s: State, h: nat)
    requires Reachable(s) && Enabled(s, Step(h)) && s.pcs[h].Use? && s.pcs[h].req.Chat?
    ensures var p, s' := s.pcs[h].p, Next(s, Step(h));
            p < |s.pool| && s' == Goto(s, h, if s.pcs[h].req.acc == s.pool[p].acc then Ready else Kick)
  {
    UseIsOwn(s, h);
    hide Reachable;
  }

  /** A session that comes to Kick is asked to go. */
  lemma KickAsks(s: State, h: nat)
    requires h < |s.pcs| && s.pcs[h].Kick?
    ensures Enabled(s, Step(h)) && h in Next(s, Step(h)).asked && Next(s, Step(h)).pcs[h].Ready?
  {
  }

  /** A request finds the session's player, and without one comes to Kick. */
  lemma UnknownIsKicked(s: State, h: nat, req: Request)
    requires h < |s.pcs| && s.pcs[h] == Find(req)
    ensures Enabled(s, Step(h))
    ensures Next(s, Step(h)).pcs[h] == if h in s.players then Use(s.players[h], req) else Kick
  {
  }

  /** What a callback of `h` has done when it comes to its end. */
  ghost predicate EndsWell(s: State, h: nat, s': State)
    requires h < |s.pcs|
  {
    var pc := s.pcs[h];
    || (pc.LoginPublish? && h in s'.players && s'.players[h] == pc.p && Own(s', h, pc.p))
    || (pc.Use? && pc.p < |s.pool| && pc.req.acc == s.pool[pc.p].acc && s'.players == s.players)
    || (pc.Kick? && h in s'.asked)
  }

  lemma LoginEnds(s: State, h: nat)
    requires Enabled(s, Step(h)) && LoginPc(s.pcs[h]) && SessionInv(s, h)
    ensures Region(s, h).pcs[h].Ready? ==> EndsWell(s, h, Region(s, h))
  {
  }

  lemma RequestEnds(s: State, h: nat)
    requires Enabled(s, Step(h)) && (s.pcs[h].Find? || s.pcs[h].Use? || s.pcs[h].Kick?)
    ensures Region(s, h).pcs[h].Ready? ==> EndsWell(s, h, Region(s, h))
  {
    hide UsePlayer, Own;
    if s.pcs[h].Use? { UseEnds(s, h, s.pcs[h].p, s.pcs[h].req); }
  }

  lemma UseEnds(s: State, h: nat, p: nat, req: Request)
    requires h < |s.pcs| && p < |s.pool|
    ensures var s' := UsePlayer(s, h, p, req);
            && h < |s'.pcs| && s'.players == s.players
            && (s'.pcs[h].Ready? ==> req.acc == s.pool[p].acc)
  {
    hide Relisted;
  }

  lemma LeaveGoesOn(s: State, h: nat)
    requires Enabled(s, Step(h)) && !LoginPc(s.pcs[h]) && !s.pcs[h].Find? && !s.pcs[h].Use? && !s.pcs[h].Kick?
    ensures !Region(s, h).pcs[h].Ready?
  {
  }

  lemma CallGoesOn(s: State, act: Action)
    requires Enabled(s, act) && !act.Step? && !s.pcs[act.h].Ready? && !s.pcs[act.h].Unborn?
    ensures !Next(s, act).pcs[act.h].Ready?
  {
  }

  /** The step ends a callback of its session. */
  ghost predicate ComesToReady(s: State, act: Action) {
    && Enabled(s, act) && act.h < |s.pcs| && !s.pcs[act.h].Ready? && !s.pcs[act.h].Unborn?
    && act.h < |Next(s, act).pcs| && Next(s, act).pcs[act.h].Ready?
  }

  /**
   How a callback comes to its end, in every interleaving: with the player published, with a
   request carried out for the session's own account, or with the session asked to go.
   */
  lemma CallbackEnds(s: State, act: Action)
    requires Reachable(s) && ComesToReady(s, act)
    ensures EndsWell(s, act.h, Next(s, act))
  {
    HasInv(s, act.h);
    hide Reachable, EndsWell, Region, SessionInv, Enabled;
    if act.Step? { StepEnds(s, act.h); } else { CallGoesOn(s, act); }
  }

  lemma HasInv(s: State, h: nat)
    requires Reachable(s) && h < |s.pcs|
    ensures SessionInv(s, h)
  {
    ReachableInv(s);
  }

  lemma StepEnds(s: State, h: nat)
    requires Enabled(s, Step(h)) && SessionInv(s, h)
    ensures h < |Region(s, h).pcs| && (Region(s, h).pcs[h].Ready? ==> EndsWell(s, h, Region(s, h)))
  {
    StepKeepsPlaces(s, h);
    hide EndsWell, Region, SessionInv;
    if LoginPc(s.pcs[h]) {
      LoginEnds(s, h);
    } else if s.pcs[h].Find? || s.pcs[h].Use? || s.pcs[h].Kick? {
      RequestEnds(s, h);
    } else {
      LeaveGoesOn(s, h);
    }
  }

  lemma StepKeepsPlaces(s: State, h: nat)
    requires Enabled(s, Step(h))
    ensures |Region(s, h).pcs| == |s.pcs|
  {
  }

  /** A request of a session that is logged in reaches its own player unchanged. */
  lemma RequestAlone(s: State, h: nat, req: Request)
    requires h < |s.pcs| && s.pcs[h].Ready? && !req.Login? && h in s.players && s.players[h] < |s.pool|
    ensures Run(s, [Recv(h, req), Step(h)], Goto(s, h, Use(s.players[h], req)))
  {
    var s1 := Goto(s, h, Find(req));
    var s2 := Goto(s, h, Use(s.players[h], req));
    assert s1 == Next(s, Recv(h, req)) && s2 == Next(s1, Step(h));
    assert Run(s2, [], s2);
    Prepend(s1, Step(h), [], s2);
    Prepend(s, Recv(h, req), [Step(h)], s2);
    assert [Step(h)] + [] == [Step(h)] && [Recv(h, req)] + [Step(h)] == [Recv(h, req), Step(h)];
  }

  /** And the request that is carried out is always one that the session has sent. */
  ghost predicate Sent(pc: Pc, h: nat, past: seq<Action>) {
    pc.Find? || pc.Use? ==> Recv(h, pc.req) in past
  }

  lemma StepKeepsSent(s: State, past: seq<Action>, act: Action, h: nat)
    requires Enabled(s, act) && h < |s.pcs| && Sent(s.pcs[h], h, past)
    ensures h < |Next(s, act).pcs| && Sent(Next(s, act).pcs[h], h, past + [act])
  {
    StepGrows(s, act);
    hide Next, Enabled;
  }

  lemma {:induction false} RunKeepsSent(s: State, past: seq<Action>, acts: seq<Action>, s': State, h: nat)
    requires Run(s, acts, s') && h < |s.pcs| && Sent(s.pcs[h], h, past)
    ensures h < |s'.pcs| && Sent(s'.pcs[h], h, past + acts)
    decreases |acts|
  {
    hide Next, Enabled, Sent;
    if acts == [] {
      assert past + [] == past;
    } else {
      StepKeepsSent(s, past, acts[0], h);
      RunKeepsSent(Next(s, acts[0]), past + [acts[0]], acts[1..], s', h);
      assert past + [acts[0]] + acts[1..] == past + acts;
    }
  }

  lemma RequestsAreSent(sessions: nat, acts: seq<Action>, s: State, h: nat)
    requires Run(Init(sessions), acts, s) && h < sessions
    ensures h < |s.pcs| && (s.pcs[h].Find? || s.pcs[h].Use? ==> Recv(h, s.pcs[h].req) in acts)
  {
    RunKeepsSent(Init(sessions), [], acts, s, h);
    assert [] + acts == acts;
  }

  // ---- Logins

  /** The state after an undisturbed login of `h`, which had joined, to `acc`. */
  function LoggedIn(s: State, h: nat, acc: int): State {
    s.(waiting := s.waiting - {h}, pool := s.pool + [Player(h, acc, Void, false)], accs := s.accs[acc := h],
       players := s.players[h := |s.pool|], asked := s.asked + if acc in s.accs then {s.accs[acc]} else {})
  }

  /** With the consent of Redis a login binds the account, displaces whoever had it, and publishes the player. */
  lemma LoginAlone(s: State, h: nat, acc: int) returns (acts: seq<Action>)
    requires h < |s.pcs| && s.pcs[h].Ready? && h in s.waiting
    ensures Run(s, acts, LoggedIn(s, h, acc))
  {
    var s1 := Goto(s, h, LoginErase(acc));
    var s2 := Goto(s, h, LoginCheck(acc)).(waiting := s.waiting - {h});
    var s3 := s2.(pcs := s.pcs[h := LoginBind(acc)]);
    var done := LoggedIn(s, h, acc);
    var p := |s.pool|;
    var s5 := done.(pcs := s.pcs[h := LoginPublish(p)], players := s.players);
    assert s1 == Next(s, Recv(h, Login(acc))) && s2 == Next(s1, Step(h)) && s3 == Next(s2, Redis(h, true));
    assert s.pcs[h := Ready] == s.pcs;
    assert done == Next(s5, Step(h));
    assert Run(done, [], done);
    Prepend(s5, Step(h), [], done);
    if acc in s.accs {
      var s4 := s5.(pcs := s.pcs[h := LoginDisplace(p, s.accs[acc])], asked := s.asked);
      assert s4 == Next(s3, Step(h)) && s5 == Next(s4, Step(h));
      Prepend(s4, Step(h), [Step(h)], done);
      acts := [Step(h), Step(h), Step(h)];
      Prepend(s3, Step(h), [Step(h), Step(h)], done);
    } else {
      assert s.asked + {} == s.asked;
      assert s5 == Next(s3, Step(h));
      acts := [Step(h), Step(h)];
      Prepend(s3, Step(h), [Step(h)], done);
    }
    Prepend(s2, Redis(h, true), acts, done);
    acts := [Redis(h, true)] + acts;
    Prepend(s1, Step(h), acts, done);
    acts := [Step(h)] + acts;
    Prepend(s, Recv(h, Login(acc)), acts, done);
    acts := [Recv(h, Login(acc))] + acts;
  }

  lemma Prepend(s: State, act: Action, acts: seq<Action>, s': State)
    requires Enabled(s, act) && Run(Next(s, act), acts, s')
    ensures Run(s, [act] + acts, s')
  {
    hide Next, Enabled;
    assert ([act] + acts)[1..] == acts;
  }

  // ---- Authentication

  /** What a session's place and its player say of the requests and replies so far. */
  ghost predicate Vouched(s: State, past: seq<Action>) {
    && (forall h :: 0 <= h < |s.pcs| ==> PlaceVouched(s.pcs[h], h, past))
    && (forall p :: 0 <= p < |s.pool| ==>
          Recv(s.pool[p].owner, Login(s.pool[p].acc)) in past && Redis(s.pool[p].owner, true) in past)
    && (forall h :: Redis(h, false) in past ==> Refused(s, h))
  }

  ghost predicate PlaceVouched(pc: Pc, h: nat, past: seq<Action>) {
    && (pc.LoginErase? || pc.LoginCheck? || pc.LoginBind? ==> Recv(h, Login(pc.acc)) in past)
    && (pc.LoginBind? ==> Redis(h, true) in past)
  }

  ghost predicate Refused(s: State, h: nat) {
    && h < |s.pcs| && h !in s.waiting && !Owns(s, h)
    && !s.pcs[h].Unborn? && !s.pcs[h].LoginCheck? && !s.pcs[h].LoginBind?
  }

  /** What a step does to the places, the players and the waiting list. */
  ghost predicate Grows(s: State, act: Action, s': State) {
    && act.h < |s.pcs| == |s'.pcs| && (forall g :: 0 <= g < |s.pcs| && g != act.h ==> s'.pcs[g] == s.pcs[g])
    && (forall g: nat :: g in s'.waiting ==> g in s.waiting || act == Join(g))
    && |s.pool| <= |s'.pool|
    && (forall p :: 0 <= p < |s.pool| ==> s'.pool[p].owner == s.pool[p].owner && s'.pool[p].acc == s.pool[p].acc)
    && (forall p :: |s.pool| <= p < |s'.pool| ==>
          act.Step? && s.pcs[act.h].LoginBind? && s'.pool[p].owner == act.h && s'.pool[p].acc == s.pcs[act.h].acc)
    && (act.Join? ==> s.pcs[act.h].Unborn?)
    && var pc, pc' := s.pcs[act.h], s'.pcs[act.h];
       && (pc'.Unborn? ==> pc.Unborn?)
       && (pc'.LoginErase? ==> act == Recv(act.h, Login(pc'.acc)) || (act.Sweep? && pc' == pc))
       && (pc'.LoginCheck? ==>
             (act.Step? && pc == LoginErase(pc'.acc) && act.h in s.waiting) || (act.Sweep? && pc' == pc))
       && (pc'.LoginBind? ==>
             (act == Redis(act.h, true) && pc == LoginCheck(pc'.acc)) || (act.Sweep? && pc' == pc))
       && (pc'.Find? ==> act == Recv(act.h, pc'.req) || (act.Sweep? && pc' == pc))
       && (pc'.Use? ==> (act.Step? && pc == Find(pc'.req)) || (act.Sweep? && pc' == pc))
       && (act.Redis? ==> pc.LoginCheck? && !pc'.LoginCheck? && (!act.ok ==> pc'.Kick?))
  }

  lemma CallGrows(s: State, act: Action)
    requires Enabled(s, act) && !act.Step?
    ensures Grows(s, act, Next(s, act))
  {
  }

  predicate LoginPc(pc: Pc) {
    pc.LoginErase? || pc.LoginBind? || pc.LoginDisplace? || pc.LoginPublish?
  }

  lemma LoginGrows(s: State, h: nat)
    requires Enabled(s, Step(h)) && LoginPc(s.pcs[h])
    ensures Grows(s, Step(h), Region(s, h))
  {
  }

  lemma RequestGrows(s: State, h: nat)
    requires Enabled(s, Step(h)) && (s.pcs[h].Find? || s.pcs[h].Use? || s.pcs[h].Kick?)
    ensures Grows(s, Step(h), Region(s, h))
  {
    hide Relisted;
  }

  lemma LeaveGrows(s: State, h: nat)
    requires Enabled(s, Step(h)) && !LoginPc(s.pcs[h]) && !s.pcs[h].Find? && !s.pcs[h].Use? && !s.pcs[h].Kick?
    ensures Grows(s, Step(h), Region(s, h))
  {
  }

  lemma StepGrows(s: State, act: Action)
    requires Enabled(s, act)
    ensures Grows(s, act, Next(s, act))
  {
    hide Region, Grows;
    if !act.Step? {
      CallGrows(s, act);
    } else if LoginPc(s.pcs[act.h]) {
      LoginGrows(s, act.h);
    } else if s.pcs[act.h].Find? || s.pcs[act.h].Use? || s.pcs[act.h].Kick? {
      RequestGrows(s, act.h);
    } else {
      LeaveGrows(s, act.h);
    }
  }

  lemma StepVouches(s: State, past: seq<Action>, act: Action)
    requires Inv(s) && Vouched(s, past) && Enabled(s, act)
    ensures Vouched(Next(s, act), past + [act])
  {
    StepGrows(s, act);
    var s', all := Next(s, act), past + [act];
    assert SessionInv(s, act.h);
    hide Inv, Next, Enabled;
    forall g | 0 <= g < |s'.pcs|
      ensures PlaceVouched(s'.pcs[g], g, all)
    {
      assert PlaceVouched(s.pcs[g], g, past);
    }
    forall h | Redis(h, false) in all
      ensures Refused(s', h)
    {
      if Redis(h, false) in past { assert Refused(s, h); }
      RefusedStays(s, act, s', h);
    }
  }

  lemma RefusedStays(s: State, act: Action, s': State, h: nat)
    requires Grows(s, act, s') && SessionInv(s, act.h) && (Refused(s, h) || act == Redis(h, false))
    ensures Refused(s', h)
  {
  }

  lemma {:induction false} RunVouches(s: State, past: seq<Action>, acts: seq<Action>, s': State)
    requires Inv(s) && Vouched(s, past) && Run(s, acts, s')
    ensures Vouched(s', past + acts)
    decreases |acts|
  {
    hide Inv, Next, Enabled, Vouched;
    if acts == [] {
      assert past + [] == past;
    } else {
      StepVouches(s, past, acts[0]);
      StepKeepsInv(s, acts[0]);
      RunVouches(Next(s, acts[0]), past + [acts[0]], acts[1..], s');
      assert past + [acts[0]] + acts[1..] == past + acts;
    }
  }

  /**
   Over every run: a player exists only for a session that asked to log in to that very account
   and that Redis has consented to.
   */
  lemma PlayersAreAuthenticated(sessions: nat, acts: seq<Action>, s: State, p: nat)
    requires Run(Init(sessions), acts, s) && p < |s.pool|
    ensures Recv(s.pool[p].owner, Login(s.pool[p].acc)) in acts && Redis(s.pool[p].owner, true) in acts
  {
    InitInv(sessions);
    RunVouches(Init(sessions), [], acts, s);
    assert [] + acts == acts;
  }

  /** A session that Redis has refused never has a player, an account or a place in players_sessionHandle. */
  lemma RefusedNeverPlays(sessions: nat, acts: seq<Action>, s: State, h: nat)
    requires Run(Init(sessions), acts, s) && Redis(h, false) in acts
    ensures !Owns(s, h) && h !in s.players && h !in s.waiting && forall acc :: acc in s.accs ==> s.accs[acc] != h
  {
    InitInv(sessions);
    RunVouches(Init(sessions), [], acts, s);
    assert [] + acts == acts;
    assert Reachable(s);
    ReachableInv(s);
    assert Refused(s, h) && SessionInv(s, h);
    forall acc | acc in s.accs
      ensures s.accs[acc] != h
    {
      assert AccInv(s, acc);
    }
  }
}
