/**
 One session slot together with its sending side. Every piece of sending code runs inside an
 activity that holds a reference: the caller that pinned the session, a posted operation, or
 the worker on its completion; the clearing of the queue runs inside the elected releaser.
 */
module SessionSendSpec {
  import S = SessionSpec
  import P = SessionProof
  import Q = SendSpec

  /**
   Slot `slot` of the sessions and its sending side. `runner[i]` is the activity of the session
   machine that executes activity `i` of the sending side. `cleared` says that the last release
   of the slot has cleared the queue; it is history.
   */
  datatype World = World(ss: S.State, q: Q.State, slot: nat, runner: seq<nat>, cleared: bool)

  datatype Action =
    | Session(act: S.Action)
    | Begin(i: nat, packet: int, a: nat)   // 462: a caller that pinned the session enqueues
    | Close(i: nat, r: nat)                // 757: the releaser begins to clear
    | Step(i: nat, ok: bool)               // the next step of activity i

  predicate Busy(w: World, i: nat) {
    i < |w.q.pcs| && i < |w.runner| && !w.q.pcs[i].Idle?
  }

  /** Some sending or clearing code is running inside activity `a`. */
  predicate Runs(w: World, a: nat) {
    exists i :: 0 <= i < |w.runner| && Busy(w, i) && w.runner[i] == a
  }

  /** The order of the code in one activity: references are given up after sending, the leave comes after clearing. */
  predicate InOrder(w: World, act: S.Action) {
    match act
    case Lower(a) => Runs(w, a) ==> Two(w, a)
    case Post(a) => Runs(w, a) ==> Two(w, a)
    case Step(a) => a < |w.ss.acts| && w.ss.acts[a] == S.Cleaning(w.slot) ==> w.cleared && !Runs(w, a)
    case _ => true
  }

  predicate Two(w: World, a: nat) {
    a < |w.ss.acts| && (w.ss.acts[a].Pinned? || w.ss.acts[a].Work?) && w.ss.acts[a].refs == 2
  }

  /**
   What the executing activity has come to: the attempts on IsSending come after a second
   reference was taken (39, 466); SendPost and completions run in a worker.
   */
  predicate Ready(w: World, i: nat)
    requires Busy(w, i)
  {
    var a, pc := w.runner[i], w.q.pcs[i];
    && a < |w.ss.acts|
    && (pc.TrySend? || pc.TryAgain? ==> Two(w, a))
    && (Q.Posting(pc) || Q.Completing(pc) ==> w.ss.acts[a].Work?)
  }

  predicate Enabled(w: World, act: Action) {
    match act
    case Session(sa) => S.Enabled(w.ss, sa) && P.Bounded(w.ss, sa) && InOrder(w, sa)
    case Begin(i, _, a) =>
      && i < |w.q.pcs| == |w.runner| && w.q.pcs[i].Idle? && a < |w.ss.acts|
      && w.ss.acts[a].Pinned? && w.ss.acts[a].h.index == w.slot && !Runs(w, a)
    case Close(i, r) =>
      && i < |w.q.pcs| == |w.runner| && w.q.pcs[i].Idle? && r < |w.ss.acts|
      && w.ss.acts[r] == S.Cleaning(w.slot) && !w.cleared && !Runs(w, r)
    case Step(i, _) => Busy(w, i) && Ready(w, i) && Q.FindsPacket(w.q, w.q.pcs[i])
  }

  /** TrySendPost and SendPost that succeed pass a reference to the operation they post. */
  predicate Posts(q: Q.State, i: nat, ok: bool) {
    i < |q.pcs| && ((q.pcs[i].TrySend? && !q.isSending) || (q.pcs[i].Submit? && (q.hand == [] || ok)))
  }

  /** The release CAS of the slot is about to succeed. */
  predicate Releases(w: World, sa: S.Action) {
    && sa.Step? && sa.i < |w.ss.acts| && w.ss.acts[sa.i] == S.AtRelease(w.slot)
    && w.slot < |w.ss.io| && w.ss.io[w.slot] == 0
  }

  function Next(w: World, act: Action): World
    requires Enabled(w, act)
  {
    match act
    case Session(sa) => w.(ss := S.Next(w.ss, sa), cleared := w.cleared && !Releases(w, sa))
    case Begin(i, packet, a) => w.(q := Q.Goto(w.q, i, Q.Link(packet)), runner := w.runner[i := a])
    case Close(i, r) => w.(q := Q.Goto(w.q, i, Q.CloseHand).(closes := w.q.closes + 1), runner := w.runner[i := r])
    case Step(i, ok) =>
      var w' := w.(q := Q.Instruction(w.q, i, ok), cleared := w.cleared || w.q.pcs[i].CloseFlag?);
      if Posts(w.q, i, ok) then w'.(ss := S.PostStep(w.ss, w.runner[i]), runner := w.runner[i := |w.ss.acts|]) else w'
  }

  function Init(io: seq<nat>, activities: nat, senders: nat, slot: nat): World {
    World(S.Init(io, activities), Q.Init(senders), slot, seq(senders, _ => 0), true)
  }

  ghost predicate Run(w: World, acts: seq<Action>, w': World)
    decreases |acts|
  {
    if acts == [] then w' == w else Enabled(w, acts[0]) && Run(Next(w, acts[0]), acts[1..], w')
  }

  ghost predicate Reachable(w: World) {
    exists io, activities, senders, slot: nat, acts ::
      slot < |io| && Run(Init(io, activities, senders, slot), acts, w)
  }

  // ---- Invariant

  /** An activity that may send: it holds a reference on the slot. */
  predicate Holder(pc: S.Pc, slot: nat) {
    match pc
    case Pinned(h, n) => h.index == slot && n >= 1
    case Pending(k, _) => k == slot
    case Work(k, n, _) => k == slot && n >= 1
    case _ => false
  }

  ghost predicate Backed(w: World) {
    && |w.runner| == |w.q.pcs|
    && (forall i :: 0 <= i < |w.runner| && Busy(w, i) ==>
          w.runner[i] < |w.ss.acts| && BackedBy(w, i, w.ss.acts[w.runner[i]]))
    && (forall i, j :: 0 <= i < j < |w.runner| && Busy(w, i) && Busy(w, j) ==> w.runner[i] != w.runner[j])
  }

  ghost predicate BackedBy(w: World, i: nat, pc: S.Pc)
    requires i < |w.q.pcs|
  {
    if Q.Closing(w.q.pcs[i]) then pc == S.Cleaning(w.slot) && !w.cleared else Holder(pc, w.slot)
  }

  /** As a new session needs the sending side. */
  ghost predicate Empty(q: Q.State) {
    && q.queue == [] && q.hand == [] && q.size == 0 && !q.isSending && !q.stuck && q.dropped == q.enqs
    && forall i :: 0 <= i < |q.pcs| ==> q.pcs[i].Idle?
  }

  ghost predicate Clears(w: World) {
    && w.slot < |w.ss.live|
    && (!w.ss.live[w.slot] && w.cleared ==> Empty(w.q))
    && (!w.ss.live[w.slot] && !w.cleared ==>
          exists r :: 0 <= r < |w.ss.acts| && w.ss.acts[r] == S.Cleaning(w.slot))
  }
}
