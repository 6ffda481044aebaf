/**
 The maps of ChatServer in place: an object whose methods are the lock regions of the
 callbacks, each proved to be the step of the machine. `Valid` says that the machine state
 is reachable, so the theorems about reachable states are theorems about the object.
 */
module ChatInPlace {
  import opened ChatSpec
  import opened ChatRuns

  lemma HeldInPool(s: State, h: nat)
    requires Reachable(s) && h < |s.pcs|
    ensures Held(s.pcs[h]) < |s.pool|
  {
    ReachableInv(s);
    assert SessionInv(s, h);
  }

  class ChatServer {
    var waiting: set<nat>
    var players: map<nat, nat>        // players_sessionHandle
    var accs: map<int, nat>           // sessions_accNo
    var pool: seq<Player>
    var lists: multiset<(Sector, nat)>  // the player lists of the sectors
    var asked: set<nat>               // sessions that Disconnect was called for
    var pcs: seq<Pc>

    ghost function View(): State
      reads this
    {
      State(waiting, players, accs, pool, lists, asked, pcs)
    }

    ghost predicate Valid()
      reads this
    {
      Reachable(View())
    }

    constructor (sessions: nat)
      ensures Valid() && View() == Init(sessions)
    {
      waiting, players, accs, pool, lists, asked := {}, map[], map[], [], multiset{}, {};
      pcs := seq(sessions, _ => Unborn);
      assert Run(Init(sessions), [], Init(sessions));
    }

    method Disconnect(h: nat)
      modifies this`asked
      ensures asked == old(asked) + {h}
    {
      asked := asked + {h};
    }

    /** Lines 79-82. */
    method OnClientJoin(h: nat)
      requires Valid() && Enabled(View(), Join(h))
      modifies this
      ensures Valid() && View() == Next(old(View()), Join(h))
    {
      hide Reachable;
      ghost var s := View();
      waiting := waiting + {h};
      pcs := pcs[h := Ready];
      Reach(s, Join(h));
    }

    /** A callback begins. */
    method ContentProc(h: nat, req: Request)
      requires Valid() && Enabled(View(), Recv(h, req))
      modifies this
      ensures Valid() && View() == Next(old(View()), Recv(h, req))
    {
      hide Reachable;
      ghost var s := View();
      pcs := pcs[h := if req.Login? then LoginErase(req.acc) else Find(req)];
      Reach(s, Recv(h, req));
    }

    method OnClientLeave(h: nat)
      requires Valid() && Enabled(View(), Leave(h))
      modifies this
      ensures Valid() && View() == Next(old(View()), Leave(h))
    {
      hide Reachable;
      ghost var s := View();
      pcs := pcs[h := LeaveWaiting];
      Reach(s, Leave(h));
    }

    /** Lines 432-453. */
    method RedisReply(h: nat, ok: bool)
      requires Valid() && Enabled(View(), Redis(h, ok))
      modifies this
      ensures Valid() && View() == Next(old(View()), Redis(h, ok))
    {
      hide Reachable;
      ghost var s := View();
      pcs := pcs[h := if ok then LoginBind(pcs[h].acc) else Kick];
      Reach(s, Redis(h, ok));
    }

    /** Lines 412-429 and 458-513. */
    method LoginRegion(h: nat)
      requires Valid() && h < |pcs| && (pcs[h].LoginErase? || pcs[h].LoginBind? || pcs[h].LoginDisplace? ||
              pcs[h].LoginPublish?)
      modifies this
      ensures Valid() && Enabled(old(View()), Step(h)) && View() == Next(old(View()), Step(h))
    {
      HeldInPool(View(), h);
      hide Reachable;
      ghost var s := View();
      match pcs[h] {
        case LoginErase(acc) =>
          if h in waiting {
            waiting := waiting - {h};
            pcs := pcs[h := LoginCheck(acc)];
          } else {
            pcs := pcs[h := Kick];
          }
        case LoginBind(acc) =>
          var p := |pool|;
          pool := pool + [Player(h, acc, Void, false)];
          if acc in accs {
            pcs := pcs[h := LoginDisplace(p, accs[acc])];
          } else {
            pcs := pcs[h := LoginPublish(p)];
          }
          accs := accs[acc := h];
        case LoginDisplace(p, prior) =>
          Disconnect(prior);
          pcs := pcs[h := LoginPublish(p)];
        case LoginPublish(p) =>
          players := players[h := p];
          pcs := pcs[h := Ready];
      }
      Reach(s, Step(h));
    }

    /** Take the player out of one list and put it into the other. */
    method PlayerSectorUpdate(p: nat, x: nat, y: nat)
      requires p < |pool|
      modifies this`lists, this`pool
      ensures var to, from := At(x, y), old(pool[p].sector);
              if to == from then lists == old(lists) && pool == old(pool)
              else lists == Relisted(old(lists), from, to, p) && pool == old(pool)[p := old(pool[p]).(sector := to)]
    {
      var to := At(x, y);
      if pool[p].sector == to { return; }
      var it := (pool[p].sector, p);
      if it in lists { lists := lists[it := lists[it] - 1]; }
      lists := lists + multiset{(to, p)};
      pool := pool[p := pool[p].(sector := to)];
    }

    /** Lines 527-562 and 573-614. */
    method PlayerRegion(h: nat)
      requires Valid() && h < |pcs| && (pcs[h].Find? || pcs[h].Use? || pcs[h].Kick?)
      modifies this
      ensures Valid() && Enabled(old(View()), Step(h)) && View() == Next(old(View()), Step(h))
    {
      HeldInPool(View(), h);
      hide Reachable;
      ghost var s := View();
      match pcs[h] {
        case Find(req) =>
          pcs := pcs[h := if h in players then Use(players[h], req) else Kick];
        case Use(p, req) =>
          if req.acc != pool[p].acc {
            pcs := pcs[h := Kick];
          } else if req.Move? && (req.x >= SECTOR_MAX || req.y >= SECTOR_MAX) {
            pcs := pcs[h := Kick];
          } else {
            if req.Move? { PlayerSectorUpdate(p, req.x, req.y); }
            pcs := pcs[h := Ready];
          }
        case Kick =>
          Disconnect(h);
          pcs := pcs[h := Ready];
      }
      Reach(s, Step(h));
    }

    /** Lines 94-131. */
    method LeaveRegion(h: nat)
      requires Valid() && h < |pcs|
      requires var pc := pcs[h]; pc.LeaveWaiting? || pc.LeaveFind? || pc.LeaveSector? || pc.LeaveAcc? || pc.LeaveDelete?
      modifies this
      ensures Valid() && Enabled(old(View()), Step(h)) && View() == Next(old(View()), Step(h))
    {
      HeldInPool(View(), h);
      hide Reachable;
      ghost var s := View();
      match pcs[h] {
        case LeaveWaiting =>
          waiting := waiting - {h};
          pcs := pcs[h := LeaveFind];
        case LeaveFind =>
          if h in players {
            pcs := pcs[h := LeaveSector(players[h])];
            players := players - {h};
          } else {
            pcs := pcs[h := Gone];
          }
        case LeaveSector(p) =>
          lists := lists[(pool[p].sector, p) := 0];
          pcs := pcs[h := LeaveAcc(p)];
        case LeaveAcc(p) =>
          var acc := pool[p].acc;
          if acc in accs && accs[acc] == h { accs := accs - {acc}; }
          pcs := pcs[h := LeaveDelete(p)];
        case LeaveDelete(p) =>
          pool := pool[p := pool[p].(deleted := true)];
          pcs := pcs[h := Gone];
      }
      Reach(s, Step(h));
    }
  }
}
