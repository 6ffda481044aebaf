/**
 The life of session slots in IOCPNetLib/NetLib_Server.cpp as a machine of atomic steps:
 reference counting, the election of the releaser, the leave completion, and the reuse of
 slot indices by accept. Configuration without contents (`m_content == nullptr`).

 An activity is one piece of code that runs on its own: a posted operation, a worker
 handling its completion, or a region between FindSession and ReturnSession. A worker that
 calls SendPacket inside OnRecv is two activities; scheduling them freely only adds runs.
 */
module SessionSpec {
  import opened Sums

  // ---- The 16-bit IOCount word: flag in the upper byte, count in the lower

  const RELEASE_IOCOUNT: nat := 0xEE00

  function Inc16(w: nat): nat { (w + 1) % 0x1_0000 }
  function Dec16(w: nat): nat { (w + 0xFFFF) % 0x1_0000 }
  function FlagOf(w: nat): nat { w / 0x100 }

  /** A session handle: slot index and session identifier. */
  datatype Handle = Handle(index: nat, id: nat)

  /** What an operation is for: the first completion, the receive chain, or sending. */
  datatype Kind = Enter | Recv | Send

  datatype Pc =
    | Idle
    | Find(h: Handle)                         // 692: Increment_IOCount
    | Check(h: Handle)                        // 697: compare SessionHandle
    | Pinned(h: Handle, refs: nat)            // FindSession returned the session
    | Drop(k: nat)                            // 699: Decrement_IOCount after a mismatch
    | Pending(k: nat, kind: Kind)             // a posted operation
    | Work(k: nat, refs: nat, main: bool)     // a worker on its completion; main: the join and receive chain
    | AtRelease(k: nat)                       // 746: CAS from 0 to the release flag
    | Cleaning(k: nat)                        // 753-765: the elected releaser
    | LeavePosted(k: nat)                     // 765: leave completion posted
    | Leaving(k: nat)                         // 193: OnClientLeave
    | LeavePushed                             // 198: m_sessionCount--

  datatype AcceptPc =
    | Waiting                                 // 309-317
    | Admitted                                // 345: m_sessionCount++
    | Counted                                 // 347: Pop
    | Popped(k: nat)                          // 350: ++m_idPool
    | Numbered(k: nat, h: Handle)             // Connect: SessionHandle = h
    | Named(k: nat)                           // Connect: IOCount = 1
    | Connected(k: nat)                       // 355: post the enter completion

  /**
   One entry per slot in `io`, `handle` and `live`. `live` (between the store of IOCount = 1
   and the release CAS), `known` (handles that OnClientJoin has published), `released` and
   `left` (handles in the order of release CAS and of leave completion) are history.
   */
  datatype State = State(
    io: seq<nat>, handle: seq<Handle>, live: seq<bool>, free: seq<nat>, count: int, idPool: nat,
    accept: AcceptPc, acts: seq<Pc>, known: set<Handle>, released: seq<Handle>, left: seq<Handle>)

  datatype Action =
    | Spawn(i: nat, h: Handle)   // somebody calls FindSession(h)
    | Accept(admit: bool)        // the next step of the accept thread
    | Step(i: nat)               // the only next step of activity i
    | Raise(i: nat)              // Increment_IOCount while holding a reference (39, 160, 466, 540)
    | Post(i: nat)               // an operation is posted and takes over one reference
    | Lower(i: nat)              // Decrement_IOCount (ReturnSession is the same)

  predicate HoldsRefs(pc: Pc) {
    pc.Pinned? || pc.Work? || pc.Drop?
  }

  function SlotOf(pc: Pc): nat {
    match pc
    case Find(h) => h.index
    case Check(h) => h.index
    case Pinned(h, _) => h.index
    case Drop(k) => k
    case Pending(k, _) => k
    case Work(k, _, _) => k
    case AtRelease(k) => k
    case Cleaning(k) => k
    case LeavePosted(k) => k
    case Leaving(k) => k
    case _ => 0
  }

  function Max(s: State): nat { |s.io| }

  /** The three per-slot sequences agree on the number of slots. */
  predicate Sized(s: State) {
    |s.handle| == |s.io| && |s.live| == |s.io|
  }

  predicate Enabled(s: State, act: Action) {
    Sized(s) &&
    match act
    case Spawn(i, h) => i < |s.acts| && s.acts[i].Idle? && h in s.known && h.index < Max(s)
    case Accept(_) => AcceptEnabled(s)
    case Step(i) =>
      i < |s.acts| && SlotOf(s.acts[i]) < Max(s) &&
      !s.acts[i].Idle? && !HoldsRefs(s.acts[i])
    case Raise(i) => i < |s.acts| && SlotOf(s.acts[i]) < Max(s) && (s.acts[i].Pinned? || s.acts[i].Work?) &&
      s.acts[i].refs == 1
    case Post(i) =>
      i < |s.acts| && SlotOf(s.acts[i]) < Max(s) &&
      ((s.acts[i].Pinned? && s.acts[i].refs == 2) || (s.acts[i].Work? && s.acts[i].refs >= 1))
    case Lower(i) => i < |s.acts| && SlotOf(s.acts[i]) < Max(s) && HoldsRefs(s.acts[i])
  }

  /** Pop's result is not looked at (347), so the model has no step for an empty index pool. */
  predicate AcceptEnabled(s: State) {
    match s.accept
    case Counted => s.free != [] && s.free[0] < Max(s)
    case Popped(k) => k < Max(s)
    case Numbered(k, _) => k < Max(s)
    case Named(k) => k < Max(s)
    case Connected(k) => k < Max(s)
    case _ => true
  }

  function Goto(s: State, i: nat, pc: Pc): State
    requires i < |s.acts|
  {
    s.(acts := s.acts[i := pc])
  }

  function Less(pc: Pc): Pc
    requires HoldsRefs(pc)
  {
    match pc
    case Pinned(h, n) => if n <= 1 then Idle else Pinned(h, n - 1)
    case Work(k, n, main) => if n <= 1 then Idle else Work(k, n - 1, main)
    case Drop(_) => Idle
  }

  function Next(s: State, act: Action): State
    requires Enabled(s, act)
  {
    match act
    case Spawn(i, h) => Goto(s, i, Find(h))
    case Accept(admit) => AcceptStep(s, admit)
    case Step(i) => Instruction(s, i)
    case Raise(i) => RaiseStep(s, i)
    case Post(i) => PostStep(s, i)
    case Lower(i) => LowerStep(s, i)
  }

  /** Increment_IOCount by a holder; a set flag would send the receive chain to 162 and others past the send. */
  function RaiseStep(s: State, i: nat): State
    requires i < |s.acts| && SlotOf(s.acts[i]) < |s.io| && (s.acts[i].Pinned? || s.acts[i].Work?)
  {
    var k := SlotOf(s.acts[i]);
    var w := Inc16(s.io[k]);
    var pc := s.acts[i];
    var to := if FlagOf(w) == 0 then pc.(refs := pc.refs + 1) else if pc.Work? && pc.main then Idle else pc;
    Goto(s, i, to).(io := s.io[k := w])
  }

  /** Decrement_IOCount; whoever brings the word to 0 goes on to ReleaseSession. */
  function LowerStep(s: State, i: nat): State
    requires i < |s.acts| && SlotOf(s.acts[i]) < |s.io| && HoldsRefs(s.acts[i])
  {
    var k := SlotOf(s.acts[i]);
    var w := Dec16(s.io[k]);
    Goto(s, i, if w == 0 then AtRelease(k) else Less(s.acts[i])).(io := s.io[k := w])
  }

  /** RecvPost, SendPost or TrySendPost succeeded: the reference passes to the posted operation. */
  function PostStep(s: State, i: nat): State
    requires i < |s.acts| && (s.acts[i].Pinned? || s.acts[i].Work?)
  {
    var pc := s.acts[i];
    var kind := if pc.Work? && pc.main then Recv else Send;
    var rest := Less(pc);
    var s1 := Goto(s, i, if rest.Work? then rest.(main := false) else rest);
    s1.(acts := s1.acts + [Pending(SlotOf(pc), kind)])
  }

  function Instruction(s: State, i: nat): State
    requires Sized(s) && i < |s.acts| && SlotOf(s.acts[i]) < |s.io|
  {
    var k := SlotOf(s.acts[i]);
    match s.acts[i]
    case Find(h) =>
      var w := Inc16(s.io[k]);
      Goto(s, i, if FlagOf(w) != 0 then Idle else Check(h)).(io := s.io[k := w])
    case Check(h) => Goto(s, i, if s.handle[k] == h then Pinned(h, 1) else Drop(k))
    case Pending(_, kind) =>
      Goto(s, i, Work(k, 1, kind != Send)).(known := if kind == Enter then s.known + {s.handle[k]} else s.known)
    case AtRelease(_) =>
      if s.io[k] == 0 then
        Goto(s, i, Cleaning(k)).(io := s.io[k := RELEASE_IOCOUNT], live := s.live[k := false],
            released := s.released + [s.handle[k]])
      else Goto(s, i, Idle)
    case Cleaning(_) => Goto(s, i, LeavePosted(k))
    case LeavePosted(_) => Goto(s, i, Leaving(k)).(left := s.left + [s.handle[k]])
    case Leaving(_) => Goto(s, i, LeavePushed).(free := [s.handle[k].index] + s.free)
    case LeavePushed => Goto(s, i, Idle).(count := s.count - 1)
    case _ => s
  }

  function AcceptStep(s: State, admit: bool): State
    requires Sized(s) && AcceptEnabled(s)
  {
    match s.accept
    case Waiting => if s.count < |s.io| && admit then s.(accept := Admitted) else s
    case Admitted => s.(accept := Counted, count := s.count + 1)
    case Counted => s.(accept := Popped(s.free[0]), free := s.free[1..])
    case Popped(k) => s.(accept := Numbered(k, Handle(k, s.idPool + 1)), idPool := s.idPool + 1)
    case Numbered(k, h) => s.(accept := Named(k), handle := s.handle[k := h])
    case Named(k) => s.(accept := Connected(k), io := s.io[k := 1], live := s.live[k := true])
    case Connected(k) => s.(accept := Waiting, acts := s.acts + [Pending(k, Enter)])
  }

  /** The constructor: all indices free, 0 on top; the words of the slots are arbitrary. */
  function Init(io: seq<nat>, activities: nat): State {
    State(io, seq(|io|, _ => Handle(0, 0)), seq(|io|, _ => false), seq(|io|, i => i), 0, 0,
          Waiting, seq(activities, _ => Idle), {}, [], [])
  }

  // ---- Counting

  /** References that an activity holds on slot `k`. */
  function RefsOf(pc: Pc, k: nat): nat {
    match pc
    case Check(h) => if h.index == k then 1 else 0
    case Pinned(h, n) => if h.index == k then n else 0
    case Drop(j) => if j == k then 1 else 0
    case Pending(j, _) => if j == k then 1 else 0
    case Work(j, n, _) => if j == k then n else 0
    case _ => 0
  }

  function RefWeight(k: nat): Pc -> nat { pc => RefsOf(pc, k) }

  /** The join and receive chain of slot `k`. */
  function MainOf(pc: Pc, k: nat): nat {
    match pc
    case Pending(j, kind) => if j == k && kind != Send then 1 else 0
    case Work(j, _, main) => if j == k && main then 1 else 0
    case _ => 0
  }

  function MainWeight(k: nat): Pc -> nat { pc => MainOf(pc, k) }

  /** The index of slot `k` is on its way from the release to the pool. */
  function CustodyOf(pc: Pc, k: nat): nat {
    if (pc.Cleaning? || pc.LeavePosted? || pc.Leaving?) && pc.k == k then 1 else 0
  }

  function CustodyWeight(k: nat): Pc -> nat { pc => CustodyOf(pc, k) }

  function PushedWeight(pc: Pc): nat { if pc.LeavePushed? then 1 else 0 }
  function UnleftWeight(pc: Pc): nat { if pc.Cleaning? || pc.LeavePosted? then 1 else 0 }

  function AcceptRefs(s: State, k: nat): nat { if s.accept == Connected(k) then 1 else 0 }

  function AcceptCustody(s: State, k: nat): nat {
    match s.accept
    case Popped(j) => if j == k then 1 else 0
    case Numbered(j, _) => if j == k then 1 else 0
    case Named(j) => if j == k then 1 else 0
    case _ => 0
  }

  function Refs(s: State, k: nat): nat { Sum(s.acts, RefWeight(k)) + AcceptRefs(s, k) }
  function Mains(s: State, k: nat): nat { Sum(s.acts, MainWeight(k)) + AcceptRefs(s, k) }

  function Custody(s: State, k: nat): nat
    requires k < |s.live|
  {
    multiset(s.free)[k] + AcceptCustody(s, k) + (if s.live[k] then 1 else 0) + Sum(s.acts, CustodyWeight(k))
  }

  // ---- Invariant

  /** A live slot, or one that was released and never counted up to the wrap of its word. */
  ghost predicate Used(s: State, k: nat) {
    k < |s.io| && k < |s.live| && k < |s.handle| && s.handle[k].index == k &&
    (!s.live[k] ==> RELEASE_IOCOUNT <= s.io[k] < 0x1_0000)
  }

  ghost predicate SlotInv(s: State, k: nat)
    requires Sized(s) && k < Max(s)
  {
    && (s.live[k] ==> s.io[k] == Refs(s, k) <= 0xFF && s.handle[k].index == k)
    && (s.live[k] ==> s.handle[k] !in s.released && s.handle[k].id <= s.idPool)
    && (!s.live[k] ==> Refs(s, k) == 0)
    && Mains(s, k) <= 1
    && Custody(s, k) == 1
  }

  ghost predicate ActInv(s: State, pc: Pc)
    requires Sized(s)
  {
    match pc
    case Find(h) => Used(s, h.index)
    case Check(h) => Used(s, h.index)
    case Pinned(h, n) => Used(s, h.index) && s.handle[h.index] == h && 1 <= n <= 2
    case Drop(k) => Used(s, k)
    case Pending(k, _) => Used(s, k)
    case Work(k, n, _) => Used(s, k) && 1 <= n <= 2
    case AtRelease(k) => Used(s, k)
    case Cleaning(k) => Used(s, k) && s.handle[k] in s.released && s.handle[k] !in s.left
    case LeavePosted(k) => Used(s, k) && s.handle[k] in s.released && s.handle[k] !in s.left
    case Leaving(k) => Used(s, k) && s.handle[k] in s.left
    case _ => true
  }

  ghost predicate AcceptInv(s: State)
    requires Sized(s)
  {
    match s.accept
    case Waiting => true
    case Admitted => s.count < Max(s)
    case Counted => s.count <= Max(s)
    case Popped(k) => k < Max(s)
    case Numbered(k, h) => k < Max(s) && h.index == k && h.id == s.idPool && h !in s.released
    case Named(k) => k < Max(s) && s.handle[k].index == k && s.handle[k].id == s.idPool && s.handle[k] !in s.released
    case Connected(k) => k < Max(s) && Used(s, k)
  }

  predicate Distinct(xs: seq<Handle>) {
    forall i, j :: 0 <= i < j < |xs| ==> xs[i] != xs[j]
  }

  ghost predicate LogInv(s: State) {
    && Distinct(s.released) && Distinct(s.left)
    && (forall h :: h in s.left ==> h in s.released)
    && (forall h :: h in s.released ==> h.id <= s.idPool)
    && |s.released| == |s.left| + Sum(s.acts, UnleftWeight)
  }

  /** Free indices, plus slots counted, is the number of slots up to the steps half done. */
  ghost predicate CountInv(s: State) {
    s.count + |s.free| == Max(s) + (if s.accept.Counted? then 1 else 0) + Sum(s.acts, PushedWeight)
  }

  ghost predicate Inv(s: State) {
    && Sized(s)
    && (forall k :: 0 <= k < Max(s) ==> SlotInv(s, k))
    && (forall i :: 0 <= i < |s.acts| ==> ActInv(s, s.acts[i]))
    && (forall h :: h in s.known ==> Used(s, h.index))
    && (forall j :: 0 <= j < |s.free| ==> s.free[j] < Max(s))
    && AcceptInv(s) && LogInv(s) && CountInv(s)
  }
}
