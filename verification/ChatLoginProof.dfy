/**
 Every step of the chat machine keeps its invariant.

 A step belongs to one session. What it does to the others is the frame `Kept`: their places,
 players, list entries and bindings stay, or a binding goes over to the session that is about
 to disconnect its owner (`StepIsKept`). From the frame alone the invariant of every other
 session, player and account follows (`SessionKept`, `PlayerKept`, `AccKept`). What is left is
 the session's own part, `OwnInv`, proved region by region; regions that touch neither player
 nor list nor binding share `OwnQuiet`. `OwnSuffices` puts the two together.
 */
module ChatProof {
  import opened ChatSpec

  // ---- What a step of session `h` may do to others

  ghost predicate Moves(s: State, s': State, h: nat) {
    && |s'.pcs| == |s.pcs|
    && (forall g :: 0 <= g < |s.pcs| && g != h ==> s'.pcs[g] == s.pcs[g])
    && (h < |s.pcs| && s.pcs[h].LoginDisplace? ==> s'.pcs[h] == s.pcs[h] || s.pcs[h].prior in s'.asked)
  }

  ghost predicate PoolKept(s: State, s': State, h: nat) {
    && |s.pool| <= |s'.pool|
    && (forall p :: 0 <= p < |s.pool| ==> s'.pool[p].owner == s.pool[p].owner && s'.pool[p].acc == s.pool[p].acc)
    && (forall p :: 0 <= p < |s.pool| && s.pool[p].owner != h ==> s'.pool[p] == s.pool[p])
    && (forall p :: |s.pool| <= p < |s'.pool| ==> s'.pool[p].owner == h)
    && (forall e: (Sector, nat) :: e.1 < |s.pool| && s.pool[e.1].owner != h ==> s'.lists[e] == s.lists[e])
    && (forall e :: e in s'.lists ==> e.1 < |s'.pool|)
  }

  /** A binding of another session stays, or `h` is about to disconnect that session. */
  ghost predicate AccsKept(s: State, s': State, h: nat) {
    && (forall acc :: acc in s.accs && s.accs[acc] != h ==>
          (acc in s'.accs && s'.accs[acc] == s.accs[acc])
          || (acc in s'.accs && s'.accs[acc] == h && h < |s'.pcs| && s'.pcs[h].LoginDisplace? &&
             s'.pcs[h].prior == s.accs[acc]))
    && (forall acc :: acc in s'.accs && s'.accs[acc] != h ==> acc in s.accs && s.accs[acc] == s'.accs[acc])
  }

  ghost predicate Kept(s: State, s': State, h: nat) {
    && Moves(s, s', h) && PoolKept(s, s', h) && AccsKept(s, s', h)
    && (forall g: nat :: g != h ==> (g in s'.waiting <==> g in s.waiting))
    && (forall g: nat :: g != h ==> (g in s'.players <==> g in s.players))
    && (forall g: nat :: g != h && g in s.players ==> s'.players[g] == s.players[g])
    && s.asked <= s'.asked
  }

  lemma CallIsKept(s: State, act: Action)
    requires Inv(s) && Enabled(s, act) && !act.Step?
    ensures Kept(s, Next(s, act), act.h)
  {
  }

  lemma LoginIsKept(s: State, h: nat)
    requires Inv(s) && Enabled(s, Step(h))
    requires s.pcs[h].LoginErase? || s.pcs[h].LoginBind? || s.pcs[h].LoginDisplace? || s.pcs[h].LoginPublish?
    ensures Kept(s, Region(s, h), h)
  {
    hide SessionInv, PlayerInv, AccInv;
    if s.pcs[h].LoginBind? {
      BindRegion(s, h);
      BindIsKept(s, h, s.pcs[h].acc);
    } else {
      hide Inv, Kept;
      QuietIsKept(s, h, Region(s, h));
    }
  }

  lemma BindIsKept(s: State, h: nat, acc: int)
    requires Inv(s) && h < |s.pcs| && s.pcs[h].LoginBind?
    ensures Kept(s, Bind(s, h, acc), h)
  {
    hide SessionInv, PlayerInv, AccInv;
  }

  lemma UseIsKept(s: State, h: nat)
    requires Inv(s) && Enabled(s, Step(h)) && (s.pcs[h].Find? || s.pcs[h].Use? || s.pcs[h].Kick?)
    ensures Kept(s, Region(s, h), h)
  {
    assert SessionInv(s, h);
    if s.pcs[h].Use? {
      UsedIsKept(s, h, s.pcs[h].p, s.pcs[h].req);
    } else {
      QuietIsKept(s, h, Region(s, h));
    }
  }

  /** Steps that only change the session's own place and entries, or add to the sessions asked to go. */
  lemma QuietIsKept(s: State, h: nat, s': State)
    requires Inv(s) && h < |s.pcs| && |s'.pcs| == |s.pcs| && s.asked <= s'.asked
    requires s' == s.(pcs := s.pcs[h := s'.pcs[h]], waiting := s'.waiting, players := s'.players, asked := s'.asked)
    requires forall g: nat :: g != h ==> (g in s'.waiting <==> g in s.waiting)
    requires forall g: nat :: g != h ==> (g in s'.players <==> g in s.players)
    requires forall g: nat :: g != h && g in s.players ==> s'.players[g] == s.players[g]
    requires s.pcs[h].LoginDisplace? ==> s.pcs[h].prior in s'.asked
    ensures Kept(s, s', h)
  {
    hide SessionInv, PlayerInv, AccInv;
  }

  lemma UsedIsKept(s: State, h: nat, p: nat, req: Request)
    requires Inv(s) && h < |s.pcs| && s.pcs[h].Use? && Own(s, h, p)
    ensures Kept(s, UsePlayer(s, h, p, req), h)
  {
    hide Inv, Kept;
    var s' := UsePlayer(s, h, p, req);
    if s'.pool == s.pool {
      QuietIsKept(s, h, s');
    } else {
      MovedIsKept(s, h, p, At(req.x, req.y));
    }
  }

  lemma MovedIsKept(s: State, h: nat, p: nat, to: Sector)
    requires Inv(s) && h < |s.pcs| && s.pcs[h].Use? && Own(s, h, p)
    ensures var lists := Relisted(s.lists, s.pool[p].sector, to, p);
            Kept(s, Goto(s, h, Ready).(lists := lists, pool := s.pool[p := s.pool[p].(sector := to)]), h)
  {
    hide SessionInv, PlayerInv, AccInv;
  }

  lemma LeaveIsKept(s: State, h: nat)
    requires Inv(s) && Enabled(s, Step(h))
    requires var pc := s.pcs[h]; pc.LeaveWaiting? || pc.LeaveFind? || pc.LeaveSector? || pc.LeaveAcc? || pc.LeaveDelete?
    ensures Kept(s, Region(s, h), h)
  {
    assert SessionInv(s, h);
    match s.pcs[h]
    case LeaveSector(p) => UnlistedIsKept(s, h, p);
    case LeaveAcc(p) => UnboundIsKept(s, h, p);
    case LeaveDelete(p) => DeletedIsKept(s, h, p);
    case _ => LeaveBeginsKept(s, h);
  }

  lemma LeaveBeginsKept(s: State, h: nat)
    requires Inv(s) && Enabled(s, Step(h)) && (s.pcs[h].LeaveWaiting? || s.pcs[h].LeaveFind?)
    ensures Kept(s, Region(s, h), h)
  {
    hide Inv, Kept;
    QuietIsKept(s, h, Region(s, h));
  }

  lemma UnlistedIsKept(s: State, h: nat, p: nat)
    requires Inv(s) && h < |s.pcs| && s.pcs[h] == LeaveSector(p) && Own(s, h, p)
    ensures Kept(s, Region(s, h), h)
  {
    hide SessionInv, PlayerInv, AccInv;
  }

  lemma UnboundIsKept(s: State, h: nat, p: nat)
    requires Inv(s) && h < |s.pcs| && s.pcs[h] == LeaveAcc(p) && Own(s, h, p)
    ensures Kept(s, Region(s, h), h)
  {
    hide SessionInv, PlayerInv, AccInv;
  }

  lemma DeletedIsKept(s: State, h: nat, p: nat)
    requires Inv(s) && h < |s.pcs| && s.pcs[h] == LeaveDelete(p) && Own(s, h, p)
    ensures Kept(s, Region(s, h), h)
  {
    hide SessionInv, PlayerInv, AccInv;
  }

  lemma StepIsKept(s: State, act: Action)
    requires Inv(s) && Enabled(s, act)
    ensures Kept(s, Next(s, act), act.h)
  {
    hide Inv, Kept, Region;
    if !act.Step? {
      CallIsKept(s, act);
    } else {
      match s.pcs[act.h] {
        case LoginErase(_) => LoginIsKept(s, act.h);
        case LoginBind(_) => LoginIsKept(s, act.h);
        case LoginDisplace(_, _) => LoginIsKept(s, act.h);
        case LoginPublish(_) => LoginIsKept(s, act.h);
        case Find(_) => UseIsKept(s, act.h);
        case Use(_, _) => UseIsKept(s, act.h);
        case Kick => UseIsKept(s, act.h);
        case _ => LeaveIsKept(s, act.h);
      }
    }
  }

  // ---- The other sessions

  lemma OwnsKept(s: State, s': State, h: nat, g: nat)
    requires PoolKept(s, s', h) && g != h
    ensures Owns(s', g) <==> Owns(s, g)
  {
    if Owns(s, g) {
      var p :| 0 <= p < |s.pool| && s.pool[p].owner == g;
      assert s'.pool[p].owner == g;
    }
  }

  lemma SessionKept(s: State, s': State, h: nat, g: nat)
    requires Inv(s) && Kept(s, s', h) && g < |s.pcs| && g != h
    ensures SessionInv(s', g)
  {
    assert SessionInv(s, g);
    OwnsKept(s, s', h, g);
  }

  lemma DisplacingKept(s: State, s': State, h: nat, g: nat)
    requires Moves(s, s', h) && Displacing(s, g)
    ensures Displacing(s', g) || g in s'.asked
  {
    var d :| 0 <= d < |s.pcs| && s.pcs[d].LoginDisplace? && s.pcs[d].prior == g;
    assert d == h || s'.pcs[d] == s.pcs[d];
  }

  lemma DisplacedKept(s: State, s': State, h: nat, p: nat)
    requires Kept(s, s', h) && p < |s.pool| && DisplacedAsked(s, p)
    requires s.pool[p].owner != h
    ensures DisplacedAsked(s', p)
  {
    var g, acc := s.pool[p].owner, s.pool[p].acc;
    if Displacing(s, g) {
      DisplacingKept(s, s', h, g);
    }
  }

  lemma PlayerKept(s: State, s': State, h: nat, p: nat)
    requires Inv(s) && Kept(s, s', h) && p < |s.pool| && s.pool[p].owner != h
    ensures PlayerInv(s', p)
  {
    assert PlayerInv(s, p);
    if Bound(s, p) { DisplacedKept(s, s', h, p); }
  }

  lemma AccKept(s: State, s': State, h: nat, acc: int)
    requires Inv(s) && Kept(s, s', h) && acc in s'.accs && s'.accs[acc] != h
    ensures AccInv(s', acc)
  {
    assert AccInv(s, acc);
    var p :| 0 <= p < |s.pool| && s.pool[p].owner == s.accs[acc] && s.pool[p].acc == acc && Bound(s, p);
    assert Bound(s', p);
  }

  // ---- The session that moves

  ghost predicate OwnInv(s: State, h: nat)
    requires h < |s.pcs|
  {
    && SessionInv(s, h)
    && (forall p :: 0 <= p < |s.pool| && s.pool[p].owner == h ==> PlayerInv(s, p))
    && (forall acc :: acc in s.accs && s.accs[acc] == h ==> AccInv(s, acc))
    && (forall e :: e in s.lists && e.1 < |s.pool| && s.pool[e.1].owner == h ==> ListInv(s, e.0, e.1))
  }

  lemma OwnSuffices(s: State, s': State, h: nat)
    requires Inv(s) && h < |s.pcs| && Kept(s, s', h) && OwnInv(s', h)
    ensures Inv(s')
  {
    forall g | 0 <= g < |s'.pcs|
      ensures SessionInv(s', g)
    {
      if g != h { SessionKept(s, s', h, g); }
    }
    forall p | 0 <= p < |s'.pool|
      ensures PlayerInv(s', p)
    {
      if s'.pool[p].owner != h { PlayerKept(s, s', h, p); }
    }
    forall acc | acc in s'.accs
      ensures AccInv(s', acc)
    {
      if s'.accs[acc] != h { AccKept(s, s', h, acc); }
    }
    forall e | e in s'.lists
      ensures ListInv(s', e.0, e.1)
    {
      if s'.pool[e.1].owner != h { assert ListInv(s, e.0, e.1); }
    }
  }

  /** The account of `p` in the new state, when `h` is still bound to it. */
  lemma StillBound(s: State, s': State, h: nat, acc: int)
    requires Inv(s) && Kept(s, s', h) && acc in s.accs && s.accs[acc] == h
    requires forall p :: 0 <= p < |s.pool| && s.pool[p].owner == h && Bound(s, p) ==> Bound(s', p)
    requires acc in s'.accs && s'.accs[acc] == h
    ensures AccInv(s', acc)
  {
    assert AccInv(s, acc);
    var p :| 0 <= p < |s.pool| && s.pool[p].owner == h && s.pool[p].acc == acc && Bound(s, p);
    assert Bound(s', p);
  }

  /** A session that owns no player has no account. */
  lemma OwnlessUnbound(s: State, h: nat, acc: int)
    requires Inv(s) && acc in s.accs && s.accs[acc] == h
    ensures Owns(s, h)
  {
    assert AccInv(s, acc);
  }

  predicate Parting(pc: Pc) {
    pc.LeaveAcc? || pc.LeaveDelete?
  }

  /** Steps that leave pool, accounts and lists alone, outside the last two regions of a leave. */
  lemma OwnQuiet(s: State, s': State, h: nat)
    requires Inv(s) && h < |s.pcs| && Kept(s, s', h) && SessionInv(s', h)
    requires s'.pool == s.pool && s'.accs == s.accs && s'.lists == s.lists
    requires s'.pcs[h] == s.pcs[h] || !(Parting(s.pcs[h]) || Parting(s'.pcs[h]))
    requires forall p :: 0 <= p < |s.pool| && Own(s, h, p) ==> Accounted(s', h, p)
    ensures OwnInv(s', h)
  {
    forall p | 0 <= p < |s'.pool| && s'.pool[p].owner == h
      ensures PlayerInv(s', p)
    {
      assert PlayerInv(s, p);
      if Displacing(s, h) { DisplacingKept(s, s', h, h); }
    }
    forall acc | acc in s'.accs && s'.accs[acc] == h
      ensures AccInv(s', acc)
    {
      StillBound(s, s', h, acc);
    }
    forall e | e in s'.lists && s'.pool[e.1].owner == h
      ensures ListInv(s', e.0, e.1)
    {
      assert ListInv(s, e.0, e.1);
    }
  }

  lemma OwnAccounted(s: State, h: nat, p: nat)
    requires Inv(s) && Own(s, h, p)
    ensures h < |s.pcs| && Accounted(s, h, p)
    ensures forall q :: 0 <= q < |s.pool| && s.pool[q].owner == h ==> q == p
  {
    assert PlayerInv(s, p);
  }

  lemma CallOk(s: State, act: Action)
    requires Inv(s) && Enabled(s, act) && !act.Step?
    requires Kept(s, Next(s, act), act.h)
    ensures OwnInv(Next(s, act), act.h)
  {
    var s', h := Next(s, act), act.h;
    assert SessionInv(s, h);
    assert SessionInv(s', h);
    forall p | 0 <= p < |s.pool| && Own(s, h, p)
      ensures Accounted(s', h, p)
    {
      OwnAccounted(s, h, p);
    }
    OwnQuiet(s, s', h);
  }

  lemma LoginQuietOk(s: State, h: nat)
    requires Inv(s) && Enabled(s, Step(h)) && Kept(s, Region(s, h), h)
    requires s.pcs[h].LoginErase? || s.pcs[h].LoginDisplace? || s.pcs[h].LoginPublish?
    ensures OwnInv(Region(s, h), h)
  {
    var s' := Region(s, h);
    assert SessionInv(s, h);
    forall p | 0 <= p < |s.pool| && Own(s, h, p)
      ensures Accounted(s', h, p)
    {
      OwnAccounted(s, h, p);
    }
    assert SessionInv(s', h);
    OwnQuiet(s, s', h);
  }

  lemma LookupOk(s: State, h: nat)
    requires Inv(s) && Enabled(s, Step(h)) && Kept(s, Region(s, h), h)
    requires s.pcs[h].Find? || s.pcs[h].Kick?
    ensures OwnInv(Region(s, h), h)
  {
    var s' := Region(s, h);
    assert SessionInv(s, h);
    forall p | 0 <= p < |s.pool| && Own(s, h, p)
      ensures Accounted(s', h, p)
    {
      OwnAccounted(s, h, p);
    }
    assert SessionInv(s', h);
    OwnQuiet(s, s', h);
  }

  lemma LeaveQuietOk(s: State, h: nat)
    requires Inv(s) && Enabled(s, Step(h)) && Kept(s, Region(s, h), h)
    requires s.pcs[h].LeaveWaiting? || s.pcs[h].LeaveFind?
    ensures OwnInv(Region(s, h), h)
  {
    var s' := Region(s, h);
    assert SessionInv(s, h);
    forall p | 0 <= p < |s.pool| && Own(s, h, p)
      ensures Accounted(s', h, p)
    {
      OwnAccounted(s, h, p);
    }
    assert SessionInv(s', h);
    OwnQuiet(s, s', h);
  }

  lemma BindOk(s: State, h: nat)
    requires Inv(s) && h < |s.pcs| && s.pcs[h].LoginBind? && Kept(s, Bind(s, h, s.pcs[h].acc), h)
    ensures OwnInv(Bind(s, h, s.pcs[h].acc), h)
  {
    var s' := Bind(s, h, s.pcs[h].acc);
    assert SessionInv(s, h);
    assert s'.pool[|s.pool|] == Player(h, s.pcs[h].acc, Void, false);
    forall acc | acc in s'.accs && s'.accs[acc] == h
      ensures AccInv(s', acc)
    {
      if acc == s.pcs[h].acc {
        assert Bound(s', |s.pool|);
      } else {
        OwnlessUnbound(s, h, acc);
      }
    }
  }

  lemma UseOk(s: State, h: nat)
    requires Inv(s) && Enabled(s, Step(h)) && s.pcs[h].Use? && Kept(s, Region(s, h), h)
    ensures OwnInv(Region(s, h), h)
  {
    hide Inv, OwnInv, Kept;
    var s', p, req := Region(s, h), s.pcs[h].p, s.pcs[h].req;
    assert SessionInv(s, h) by { HasSessionInv(s, h); }
    assert SessionInv(s', h) by { UsedSession(s, h, p, req); }
    if s'.pool == s.pool {
      forall q | 0 <= q < |s.pool| && Own(s, h, q)
        ensures Accounted(s', h, q)
      {
        OwnAccounted(s, h, q);
      }
      OwnQuiet(s, s', h);
    } else {
      MoveOk(s, s', h, p, s'.pool[p].sector);
    }
  }

  lemma HasSessionInv(s: State, h: nat)
    requires Inv(s) && h < |s.pcs|
    ensures SessionInv(s, h)
  {
  }

  lemma UsedSession(s: State, h: nat, p: nat, req: Request)
    requires h < |s.pcs| && SessionInv(s, h) && s.pcs[h].Use? && s.pcs[h].p == p && Own(s, h, p)
    ensures SessionInv(UsePlayer(s, h, p, req), h)
  {
  }

  /** PlayerSectorUpdate takes the player out of one list and puts it into another. */
  lemma MoveOk(s: State, s': State, h: nat, p: nat, to: Sector)
    requires Inv(s) && h < |s.pcs| && s.pcs[h].Use? && s.pcs[h].p == p < |s.pool|
    requires to != Void && to != s.pool[p].sector
    requires var lists := Relisted(s.lists, s.pool[p].sector, to, p);
             s' == Goto(s, h, Ready).(lists := lists, pool := s.pool[p := s.pool[p].(sector := to)])
    requires Kept(s, s', h) && SessionInv(s', h)
    ensures OwnInv(s', h)
  {
    hide Kept, PlayerInv, AccInv;
    assert SessionInv(s, h);
    MovedPlayer(s, s', h, p, to);
    forall q | 0 <= q < |s'.pool| && s'.pool[q].owner == h
      ensures PlayerInv(s', q)
    {
      OwnAccounted(s, h, p);
    }
    forall acc | acc in s'.accs && s'.accs[acc] == h
      ensures AccInv(s', acc)
    {
      StillBound(s, s', h, acc);
    }
    forall e | e in s'.lists && s'.pool[e.1].owner == h
      ensures ListInv(s', e.0, e.1)
    {
      OwnAccounted(s, h, p);
      assert e.1 == p;
      MovedEntry(s, s', h, p, to, e.0);
    }
  }

  /** A player has no entry in the list of another sector. */
  lemma ListedHere(s: State, p: nat, sector: Sector)
    requires Inv(s) && p < |s.pool|
    ensures sector != s.pool[p].sector ==> s.lists[(sector, p)] == 0
  {
    assert (sector, p) in s.lists ==> ListInv(s, sector, p);
  }

  lemma MovedPlayer(s: State, s': State, h: nat, p: nat, to: Sector)
    requires Inv(s) && h < |s.pcs| && s.pcs[h].Use? && s.pcs[h].p == p && Own(s, h, p) && to != Void
    requires var lists := Relisted(s.lists, s.pool[p].sector, to, p);
             s' == Goto(s, h, Ready).(lists := lists, pool := s.pool[p := s.pool[p].(sector := to)])
    requires Kept(s, s', h) && h in s.players && s.players[h] == p && to != s.pool[p].sector
    ensures PlayerInv(s', p)
  {
    assert PlayerInv(s, p);
    if Displacing(s, h) { DisplacingKept(s, s', h, h); }
    ListedHere(s, p, to);
  }

  lemma MovedEntry(s: State, s': State, h: nat, p: nat, to: Sector, sector: Sector)
    requires Inv(s) && h < |s.pcs| && s.pcs[h].Use? && s.pcs[h].p == p && Own(s, h, p)
    requires var lists := Relisted(s.lists, s.pool[p].sector, to, p);
             s' == Goto(s, h, Ready).(lists := lists, pool := s.pool[p := s.pool[p].(sector := to)])
    requires (sector, p) in s'.lists
    ensures ListInv(s', sector, p)
  {
    assert PlayerInv(s, p);
    ListedHere(s, p, sector);
  }

  lemma LeaveSectorOk(s: State, h: nat)
    requires Inv(s) && Enabled(s, Step(h)) && s.pcs[h].LeaveSector? && Kept(s, Region(s, h), h)
    ensures OwnInv(Region(s, h), h)
  {
    var s', p := Region(s, h), s.pcs[h].p;
    assert SessionInv(s, h) && PlayerInv(s, p);
    if Displacing(s, h) { DisplacingKept(s, s', h, h); }
    forall acc | acc in s'.accs && s'.accs[acc] == h
      ensures AccInv(s', acc)
    {
      StillBound(s, s', h, acc);
    }
  }

  lemma LeaveAccOk(s: State, h: nat)
    requires Inv(s) && Enabled(s, Step(h)) && s.pcs[h].LeaveAcc? && Kept(s, Region(s, h), h)
    ensures OwnInv(Region(s, h), h)
  {
    var s', p := Region(s, h), s.pcs[h].p;
    assert SessionInv(s, h) && PlayerInv(s, p);
  }

  lemma LeaveDeleteOk(s: State, h: nat)
    requires Inv(s) && Enabled(s, Step(h)) && s.pcs[h].LeaveDelete? && Kept(s, Region(s, h), h)
    ensures OwnInv(Region(s, h), h)
  {
    var s', p := Region(s, h), s.pcs[h].p;
    assert SessionInv(s, h) && PlayerInv(s, p);
  }

  lemma StepKeepsInv(s: State, act: Action)
    requires Inv(s) && Enabled(s, act)
    ensures Inv(Next(s, act))
  {
    hide Inv, Kept, OwnInv, Region;
    StepIsKept(s, act);
    var h := act.h;
    if !act.Step? {
      CallOk(s, act);
    } else {
      match s.pcs[h] {
        case LoginBind(_) => BindRegion(s, h); BindOk(s, h);
        case Use(_, _) => UseOk(s, h);
        case LeaveSector(_) => LeaveSectorOk(s, h);
        case LeaveAcc(_) => LeaveAccOk(s, h);
        case LeaveDelete(_) => LeaveDeleteOk(s, h);
        case Find(_) => LookupOk(s, h);
        case Kick => LookupOk(s, h);
        case LeaveWaiting => LeaveQuietOk(s, h);
        case LeaveFind => LeaveQuietOk(s, h);
        case _ => LoginQuietOk(s, h);
      }
    }
    OwnSuffices(s, Next(s, act), h);
  }

  lemma BindRegion(s: State, h: nat)
    requires h < |s.pcs| && s.pcs[h].LoginBind?
    ensures Region(s, h) == Bind(s, h, s.pcs[h].acc)
  {
  }
}
