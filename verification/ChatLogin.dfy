/**
 Login, sector move and leave of ChatServer/main.cpp as a machine with one step per lock
 region. Three maps under three locks and one list per sector are shared by all sessions.

 A session is named by a number that stands for its handle. Its callbacks run one after
 another (`SessionRuns.LeaveOverlapsNothing`), so each session has one place in the code.
 */
module ChatSpec {

  const SECTOR_MAX: nat := 50

  /** A sector of the map, or the void sector a new player is put in. */
  datatype Sector = Void | At(x: nat, y: nat)

  /** A Player object. `owner` is m_sessionHandle; the pool may hand the memory out again once deleted. */
  datatype Player = Player(owner: nat, acc: int, sector: Sector, deleted: bool)

  /** The requests that use a player; what is said in a chat message plays no role here. */
  datatype Request = Login(acc: int) | Move(acc: int, x: nat, y: nat) | Chat(acc: int)

  /** Where a session stands; the comment gives the line of the next lock region. */
  datatype Pc =
    | Unborn                            // before OnClientJoin
    | Ready                             // between two callbacks
    | LoginErase(acc: int)              // 412: take the session out of waiting
    | LoginCheck(acc: int)              // 432: ask Redis
    | LoginBind(acc: int)               // 458: create the player, bind the account
    | LoginDisplace(p: nat, prior: nat) // 467: Disconnect(prior)
    | LoginPublish(p: nat)              // 487, 511: players_sessionHandle[h] = player
    | Find(req: Request)                // 527, 573: look the player up
    | Use(p: nat, req: Request)         // 534, 580: after the lock is released
    | Kick                              // Disconnect(own handle)
    | LeaveWaiting                      // 94
    | LeaveFind                         // 103
    | LeaveSector(p: nat)               // 112
    | LeaveAcc(p: nat)                  // 118
    | LeaveDelete(p: nat)               // 131
    | Gone

  /**
   `lists` holds (sector, player) for every entry of a sector's list, as often as it is there;
   `asked` are the sessions Disconnect was called for.
   */
  datatype State = State(
    waiting: set<nat>, players: map<nat, nat>, accs: map<int, nat>, pool: seq<Player>,
    lists: multiset<(Sector, nat)>, asked: set<nat>, pcs: seq<Pc>)

  datatype Action =
    | Join(h: nat)                  // OnClientJoin
    | Recv(h: nat, req: Request)    // Content_Proc
    | Leave(h: nat)                 // OnClientLeave
    | Redis(h: nat, ok: bool)       // the reply
    | Step(h: nat)                  // the next lock region
    | Sweep(h: nat)                 // 286, 324, 341, 351: a timeout thread calls Disconnect

  /** The player that a session's code holds a pointer to, or -1. */
  function Held(pc: Pc): int {
    match pc
    case LoginDisplace(p, _) => p
    case LoginPublish(p) => p
    case Use(p, _) => p
    case LeaveSector(p) => p
    case LeaveAcc(p) => p
    case LeaveDelete(p) => p
    case _ => -1
  }

  predicate Enabled(s: State, act: Action) {
    match act
    case Join(h) => h < |s.pcs| && s.pcs[h].Unborn?
    case Recv(h, _) => h < |s.pcs| && s.pcs[h].Ready?
    case Leave(h) => h < |s.pcs| && s.pcs[h].Ready?
    case Redis(h, _) => h < |s.pcs| && s.pcs[h].LoginCheck?
    case Step(h) => h < |s.pcs| && StepEnabled(s, s.pcs[h])
    case Sweep(h) => h < |s.pcs|
  }

  predicate StepEnabled(s: State, pc: Pc) {
    !pc.Unborn? && !pc.Ready? && !pc.LoginCheck? && !pc.Gone? && Held(pc) < |s.pool|
  }

  function Goto(s: State, h: nat, pc: Pc): State
    requires h < |s.pcs|
  {
    s.(pcs := s.pcs[h := pc])
  }

  function Next(s: State, act: Action): State
    requires Enabled(s, act)
  {
    match act
    case Join(h) => Goto(s, h, Ready).(waiting := s.waiting + {h})
    case Recv(h, req) => Goto(s, h, if req.Login? then LoginErase(req.acc) else Find(req))
    case Leave(h) => Goto(s, h, LeaveWaiting)
    case Redis(h, ok) => Goto(s, h, if ok then LoginBind(s.pcs[h].acc) else Kick)
    case Step(h) => Region(s, h)
    case Sweep(h) => s.(asked := s.asked + {h})
  }

  function Region(s: State, h: nat): State
    requires h < |s.pcs| && StepEnabled(s, s.pcs[h])
  {
    match s.pcs[h]
    case LoginErase(acc) =>
      if h in s.waiting then Goto(s, h, LoginCheck(acc)).(waiting := s.waiting - {h}) else Goto(s, h, Kick)
    case LoginBind(acc) => Bind(s, h, acc)
    case LoginDisplace(p, prior) => Goto(s, h, LoginPublish(p)).(asked := s.asked + {prior})
    case LoginPublish(p) => Goto(s, h, Ready).(players := s.players[h := p])
    case Find(req) => Goto(s, h, if h in s.players then Use(s.players[h], req) else Kick)
    case Use(p, req) => UsePlayer(s, h, p, req)
    case Kick => Goto(s, h, Ready).(asked := s.asked + {h})
    case LeaveWaiting => Goto(s, h, LeaveFind).(waiting := s.waiting - {h})
    case LeaveFind =>
      if h in s.players then Goto(s, h, LeaveSector(s.players[h])).(players := s.players - {h}) else Goto(s, h, Gone)
    case LeaveSector(p) => Goto(s, h, LeaveAcc(p)).(lists := s.lists[(s.pool[p].sector, p) := 0])
    case LeaveAcc(p) =>
      var acc := s.pool[p].acc;
      Goto(s, h, LeaveDelete(p)).(accs := if acc in s.accs && s.accs[acc] == h then s.accs - {acc} else s.accs)
    case LeaveDelete(p) => Goto(s, h, Gone).(pool := s.pool[p := s.pool[p].(deleted := true)])
    case _ => s
  }

  /** Create the player and bind the account; whoever was bound is displaced. */
  function Bind(s: State, h: nat, acc: int): State
    requires h < |s.pcs|
  {
    var p := |s.pool|;
    var s1 := s.(pool := s.pool + [Player(h, acc, Void, false)], accs := s.accs[acc := h]);
    Goto(s1, h, if acc in s.accs then LoginDisplace(p, s.accs[acc]) else LoginPublish(p))
  }

  /** A wrong account or a sector off the map disconnects; a move goes through PlayerSectorUpdate. */
  function UsePlayer(s: State, h: nat, p: nat, req: Request): State
    requires h < |s.pcs| && p < |s.pool|
  {
    if req.acc != s.pool[p].acc then Goto(s, h, Kick)
    else if !req.Move? then Goto(s, h, Ready)
    else if req.x >= SECTOR_MAX || req.y >= SECTOR_MAX then Goto(s, h, Kick)
    else
      var to, from := At(req.x, req.y), s.pool[p].sector;
      if to == from then Goto(s, h, Ready)
      else Goto(s, h, Ready).(lists := Relisted(s.lists, from, to, p), pool := s.pool[p := s.pool[p].(sector := to)])
  }

  /** One entry is erased, if there is any, and one is put at the end of the other list. */
  function Relisted(lists: multiset<(Sector, nat)>, from: Sector, to: Sector, p: nat): multiset<(Sector, nat)> {
    lists - multiset{(from, p)} + multiset{(to, p)}
  }

  function Init(sessions: nat): State {
    State({}, map[], map[], [], multiset{}, {}, seq(sessions, _ => Unborn))
  }

  // ---- Invariant

  /** `p` is the session's own undeleted player. */
  ghost predicate Own(s: State, h: nat, p: nat) {
    p < |s.pool| && s.pool[p].owner == h && !s.pool[p].deleted
  }

  ghost predicate Owns(s: State, h: nat) {
    exists p :: 0 <= p < |s.pool| && s.pool[p].owner == h
  }

  /** Somebody's login is about to disconnect `h`. */
  ghost predicate Displacing(s: State, h: nat) {
    exists d :: 0 <= d < |s.pcs| && s.pcs[d].LoginDisplace? && s.pcs[d].prior == h
  }

  predicate Handling(pc: Pc) {
    pc.Ready? || pc.LoginErase? || pc.Find? || pc.Kick? || pc.LeaveWaiting?
  }

  ghost predicate SessionInv(s: State, h: nat)
    requires h < |s.pcs|
  {
    && (h in s.waiting ==> Handling(s.pcs[h]) && !Owns(s, h))
    && (s.pcs[h].Unborn? || s.pcs[h].LoginCheck? || s.pcs[h].LoginBind? ==> !Owns(s, h))
    && (h in s.players ==> Own(s, h, s.players[h]) && (Handling(s.pcs[h]) || s.pcs[h].Use? || s.pcs[h].LeaveFind?))
    && (Held(s.pcs[h]) >= 0 ==> Own(s, h, Held(s.pcs[h])))
    && (s.pcs[h].Use? ==> h in s.players && s.players[h] == s.pcs[h].p)
  }

  /** An undeleted player is either in players_sessionHandle or in the hands of its own session. */
  ghost predicate PlayerInv(s: State, p: nat)
    requires p < |s.pool|
  {
    var h := s.pool[p].owner;
    && h < |s.pcs|
    && (!s.pool[p].deleted ==> Accounted(s, h, p))
    && (forall q :: 0 <= q < |s.pool| && s.pool[q].owner == h ==> q == p)
    && (Bound(s, p) ==> DisplacedAsked(s, p))
    && (Listable(s, p) ==> s.lists[(s.pool[p].sector, p)] == if s.pool[p].sector != Void then 1 else 0)
  }

  ghost predicate Accounted(s: State, h: nat, p: nat)
    requires h < |s.pcs|
  {
    (h in s.players && s.players[h] == p) || Held(s.pcs[h]) == p
  }

  /** The session of `p` has logged in and its leave has not come to the account yet. */
  ghost predicate Bound(s: State, p: nat)
    requires p < |s.pool|
  {
    !s.pool[p].deleted && (s.pool[p].owner < |s.pcs| ==> !s.pcs[s.pool[p].owner].LeaveDelete?)
  }

  ghost predicate Listable(s: State, p: nat)
    requires p < |s.pool|
  {
    Bound(s, p) && (s.pool[p].owner < |s.pcs| ==> !s.pcs[s.pool[p].owner].LeaveAcc?)
  }

  ghost predicate DisplacedAsked(s: State, p: nat)
    requires p < |s.pool|
  {
    var h, acc := s.pool[p].owner, s.pool[p].acc;
    (acc in s.accs && s.accs[acc] == h) || h in s.asked || Displacing(s, h)
  }

  /** An account is bound to a session that logged in with it and has not left. */
  ghost predicate AccInv(s: State, acc: int)
    requires acc in s.accs
  {
    exists p :: 0 <= p < |s.pool| && s.pool[p].owner == s.accs[acc] && s.pool[p].acc == acc && Bound(s, p)
  }

  ghost predicate ListInv(s: State, sector: Sector, p: nat) {
    p < |s.pool| && s.pool[p].sector == sector && Listable(s, p)
  }

  ghost predicate Inv(s: State) {
    && (forall h :: h in s.waiting || h in s.players ==> h < |s.pcs|)
    && (forall h :: 0 <= h < |s.pcs| ==> SessionInv(s, h))
    && (forall p :: 0 <= p < |s.pool| ==> PlayerInv(s, p))
    && (forall acc :: acc in s.accs ==> AccInv(s, acc))
    && (forall e :: e in s.lists ==> ListInv(s, e.0, e.1))
  }
}
