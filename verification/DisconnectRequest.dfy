/**
 What a call of Disconnect does to the receives of a session: the flag requestDisconnect and
 CancelIoEx against the completions that post the next receive. One session, from its enter
 completion on; any number of activities.
 */
module DisconnectSpec {

  /** Where an activity stands, with the line of its next step. */
  datatype Pc =
    | Idle
    | First      // 207: the enter completion posts the first receive
    | Handle     // 165: a receive completion posts the next one
    | Check      // 171: after that, is a disconnect requested?
    | SetFlag    // 563
    | Cancel     // 173, 564: CancelIoEx

  /** The receive of the session: posted, cancelled, or completed and not taken up yet. */
  datatype Recv = Nothing | Pending | Cancelled | Completed

  /**
   `flag` is requestDisconnect. The rest is history: the receives posted, completed and
   taken up as aborted, the calls of CancelIoEx, and how many there were at the last post.
   */
  datatype State = State(
    flag: bool, recv: Recv, entered: bool, pcs: seq<Pc>,
    posts: nat, completed: nat, aborted: nat, cancels: nat, cancelsAtPost: nat)

  datatype Action =
    | Enter(i: nat)               // 203: the enter completion
    | Disconnect(i: nat)          // 557: somebody calls Disconnect
    | Complete                    // data, or the end of the stream
    | Take(i: nat, data: bool)    // 65: a worker takes the completion up
    | Step(i: nat, ok: bool)      // the next step; `ok` is what RecvPost returns

  predicate Enabled(s: State, act: Action) {
    match act
    case Enter(i) => i < |s.pcs| && s.pcs[i].Idle? && !s.entered
    case Disconnect(i) => i < |s.pcs| && s.pcs[i].Idle?
    case Complete => s.recv.Pending?
    case Take(i, data) => i < |s.pcs| && s.pcs[i].Idle? && (s.recv.Completed? || (s.recv.Cancelled? && !data))
    case Step(i, _) => i < |s.pcs| && !s.pcs[i].Idle?
  }

  function Next(s: State, act: Action): State
    requires Enabled(s, act)
  {
    match act
    case Enter(i) => s.(entered := true, pcs := s.pcs[i := First])
    case Disconnect(i) => s.(pcs := s.pcs[i := SetFlag])
    case Complete => s.(recv := Completed, completed := s.completed + 1)
    case Take(i, data) =>
      s.(recv := Nothing, pcs := s.pcs[i := if data then Handle else Idle],
         aborted := s.aborted + if s.recv.Cancelled? then 1 else 0)
    case Step(i, ok) =>
      match s.pcs[i]
      case First => if ok then Posted(s, i, Idle) else s.(pcs := s.pcs[i := Idle])
      case Handle => if ok then Posted(s, i, Check) else s.(pcs := s.pcs[i := Idle])
      case Check => s.(pcs := s.pcs[i := if s.flag then Cancel else Idle])
      case SetFlag => s.(flag := true, pcs := s.pcs[i := Cancel])
      case Cancel =>
        s.(recv := if s.recv.Pending? then Cancelled else s.recv, cancels := s.cancels + 1, pcs := s.pcs[i := Idle])
  }

  function Posted(s: State, i: nat, pc: Pc): State
    requires i < |s.pcs|
  {
    s.(recv := Pending, pcs := s.pcs[i := pc], posts := s.posts + 1, cancelsAtPost := s.cancels)
  }

  function Init(n: nat): State {
    State(false, Nothing, false, seq(n, _ => Idle), 0, 0, 0, 0, 0)
  }

  ghost predicate Run(s: State, acts: seq<Action>, s': State)
    decreases |acts|
  {
    if acts == [] then s' == s else Enabled(s, acts[0]) && Run(Next(s, acts[0]), acts[1..], s')
  }

  ghost predicate Reachable(s: State) {
    exists n, acts :: Run(Init(n), acts, s)
  }

  /** Somebody is about to cancel, or to look whether it should. */
  ghost predicate Coming(s: State) {
    exists i :: 0 <= i < |s.pcs| && (s.pcs[i].Check? || s.pcs[i].Cancel?)
  }

  predicate Posting(pc: Pc) {
    pc.First? || pc.Handle?
  }

  // ---- Invariant

  /** One receive at a time: nobody is about to post while one is there, and only one posts. */
  ghost predicate OneReceive(s: State) {
    && (forall i :: 0 <= i < |s.pcs| && Posting(s.pcs[i]) ==>
          s.recv.Nothing? && s.aborted == 0 && s.entered && (s.pcs[i].First? <==> s.posts == 0) &&
              s.posts == s.completed)
    && (forall i, j :: 0 <= i < j < |s.pcs| ==> !(Posting(s.pcs[i]) && Posting(s.pcs[j])))
    && (!s.entered ==> s.posts == 0 && s.recv.Nothing?)
    && (s.posts == 0 ==> s.recv.Nothing?)
    && (s.recv.Completed? ==> s.aborted == 0)
  }

  ghost predicate Counted(s: State) {
    && s.posts == s.completed + s.aborted + (if s.recv.Pending? || s.recv.Cancelled? then 1 else 0)
    && s.cancelsAtPost <= s.cancels
    && (s.recv.Pending? ==> s.cancels == s.cancelsAtPost)
    && (s.recv.Cancelled? || s.aborted > 0 ==> s.cancelsAtPost < s.cancels)
  }

  ghost predicate Inv(s: State) {
    && OneReceive(s) && Counted(s)
    && (s.flag ==> s.cancels > 0 || exists i :: 0 <= i < |s.pcs| && s.pcs[i].Cancel?)
    && (s.flag && s.recv.Pending? && s.posts != 1 ==> Coming(s))
  }
}
