/**
 Every step of the stack machine that deceives no Pop keeps the invariant.

 A step of one thread is described to the others by `Frame`, address by address (`Evolves`),
 and from the frame alone the invariants of the other threads follow (`OtherKept`). Each
 instruction establishes `StepOk`: its own thread's invariant, the list, the frame, and its
 side of the size equation. Instructions that leave the list alone write to at most one
 address outside it (`OneAddressOk`); the two compare-and-swaps are `PushCasOk` and
 `PopCasOk`. The history grows only at a compare-and-swap that succeeds (`LoggedKept`).
 */
module StackProof {
  import opened TaggedPointer
  import opened Sums
  import opened StackSpec

  /**
   A Pop at its CAS is deceived when m_top is the word it read but the node's successor is no
   longer the one it read.
   */
  predicate Undeceived(s: State, act: Action) {
    act.Resume? && act.t < |s.pcs| && s.pcs[act.t].PopCas? && s.top == Cut(s.pcs[act.t].cap.Pointer()) ==>
      NodeAt(s, s.pcs[act.t].cap.addr).next == s.pcs[act.t].new_
  }

  /** The tag window: at a pop CAS that succeeds, the tag it read has come round at most `n` times since. */
  predicate Windowed(s: State, act: Action, n: nat) {
    act.Resume? && act.t < |s.pcs| && s.pcs[act.t].PopCas? && s.top == Cut(s.pcs[act.t].cap.Pointer()) ==>
      Rounds(s.pcs[act.t].cap, s.allocCnt) <= n
  }

  // ---- What a step of one thread leaves to the others

  /** All that the invariants of the threads other than `t` depend on, address by address. */
  ghost predicate Evolves(s: State, s': State, t: int, a: nat) {
    && (a in s.heap ==> a in s'.heap)
    && (a in s.born ==> a in s'.born && (s'.born[a] == s.born[a] || s'.born[a] > s.allocCnt))
    && (HolderOf(s, a).Held? || HolderOf(s, a).Counted? ==> HolderOf(s, a).t == t || SameAt(s, s', a))
    && (a in s.born && s'.born[a] == s.born[a] ==>
          && (HolderOf(s', a).Counted? ==> HolderOf(s, a).Counted?)
          && (HolderOf(s', a).Listed? ==>
                HolderOf(s, a).Counted? || (HolderOf(s, a).Listed? && NodeAt(s', a) == NodeAt(s, a))))
  }

  ghost predicate SameAt(s: State, s': State, a: nat) {
    && HolderOf(s', a) == HolderOf(s, a)
    && NodeAt(s', a) == NodeAt(s, a)
    && (a in s.born ==> a in s'.born && s'.born[a] == s.born[a])
  }

  ghost predicate Frame(s: State, s': State, t: int) {
    && |s'.pcs| == |s.pcs| && s.allocCnt <= s'.allocCnt
    && (forall u :: 0 <= u < |s.pcs| && u != t ==> s'.pcs[u] == s.pcs[u])
    && (forall a: nat :: Evolves(s, s', t, a))
  }

  lemma OtherKept(s: State, s': State, t: int, u: nat)
    requires Frame(s, s', t)
    requires u < |s.pcs| && u != t && ThreadInv(s, u)
    ensures ThreadInv(s', u)
  {
    assert Evolves(s, s', t, AddressOf(s.pcs[u]));
  }

  function AddressOf(pc: Pc): nat {
    match pc
    case PushCount(a, _) => a
    case PushRead(node, _) => node.addr
    case PushLink(node, _, _) => node.addr
    case PushCas(node, _, _) => node.addr
    case PopNext(cap) => cap.addr
    case PopCas(cap, _) => cap.addr
    case PopDec(cap, _) => cap.addr
    case PopData(cap, _) => cap.addr
    case PopFree(cap, _, _) => cap.addr
    case _ => 0
  }

  /** The size equation seen from thread `t` alone. */
  function Ledger(s: State, t: nat): int
    requires t < |s.pcs|
  {
    s.size - |s.chain| + PushOwing(s.pcs[t]) - PopOwing(s.pcs[t])
  }

  lemma SizeKept(s: State, s': State, t: nat)
    requires SizeExact(s) && t < |s.pcs| == |s'.pcs|
    requires s'.pcs == s.pcs[t := s'.pcs[t]] && Ledger(s', t) == Ledger(s, t)
    ensures SizeExact(s')
  {
    SumUpdate(s.pcs, t, s'.pcs[t], PushOwing);
    SumUpdate(s.pcs, t, s'.pcs[t], PopOwing);
  }

  /** What each instruction of thread `t` has to establish. */
  ghost predicate StepOk(s: State, s': State, t: nat) {
    && t < |s.pcs| == |s'.pcs|
    && s'.pcs == s.pcs[t := s'.pcs[t]]
    && Ledger(s', t) == Ledger(s, t)
    && ListInv(s')
    && ThreadInv(s', t)
    && Frame(s, s', t)
  }

  lemma StepOkKeepsInv(s: State, s': State, t: nat)
    requires Inv(s) && StepOk(s, s', t) && Logged(s')
    ensures Inv(s')
  {
    SizeKept(s, s', t);
    forall u | 0 <= u < |s'.pcs|
      ensures ThreadInv(s', u)
    {
      if u != t { OtherKept(s, s', t, u); }
    }
  }

  // ---- Steps that leave the list alone

  lemma SameList(s: State, s': State)
    requires ListInv(s) && s'.top == s.top && s'.chain == s.chain && s.heap.Keys <= s'.heap.Keys
    requires forall i :: 0 <= i < |s.chain| ==> SameAt(s, s', s.chain[i].addr)
    requires forall a :: a in s'.born ==> s'.born[a] <= s'.allocCnt
    ensures ListInv(s')
  {
    forall i | 0 <= i < |s'.chain|
      ensures LinkOk(s', i) && Live(s', s'.chain[i])
    {
      assert LinkOk(s, i) && Live(s, s.chain[i]) && SameAt(s, s', s.chain[i].addr);
    }
  }

  /** A step that writes to at most one address `a`, which is not in the list. */
  lemma OneAddressOk(s: State, s': State, a: nat)
    requires ListInv(s) && s'.top == s.top && s'.chain == s.chain && s.heap.Keys <= s'.heap.Keys
    requires !HolderOf(s, a).Listed? && forall b :: b != a ==> SameAt(s, s', b)
    requires forall b :: b in s'.born ==> s'.born[b] <= s'.allocCnt
    ensures ListInv(s')
  {
    forall i | 0 <= i < |s.chain|
      ensures SameAt(s, s', s.chain[i].addr)
    {
      assert Live(s, s.chain[i]);
    }
    SameList(s, s');
  }

  lemma CallPushOk(s: State, act: Action)
    requires ListInv(s) && Enabled(s, act) && act.CallPush?
    ensures StepOk(s, Next(s, act), act.t)
  {
    OneAddressOk(s, Next(s, act), act.a);
  }

  lemma PushCountOk(s: State, t: nat)
    requires ListInv(s) && t < |s.pcs| && ThreadInv(s, t) && s.pcs[t].PushCount?
    ensures StepOk(s, Instruction(s, t), t)
  {
    OneAddressOk(s, Instruction(s, t), s.pcs[t].a);
  }

  lemma PushLinkOk(s: State, t: nat)
    requires ListInv(s) && t < |s.pcs| && ThreadInv(s, t) && s.pcs[t].PushLink?
    ensures StepOk(s, Instruction(s, t), t)
  {
    OneAddressOk(s, Instruction(s, t), s.pcs[t].node.addr);
  }

  lemma PopFreeOk(s: State, t: nat)
    requires ListInv(s) && t < |s.pcs| && ThreadInv(s, t) && s.pcs[t].PopFree?
    ensures StepOk(s, Instruction(s, t), t)
  {
    OneAddressOk(s, Instruction(s, t), s.pcs[t].cap.addr);
  }

  lemma QuietOk(s: State, s': State, t: nat)
    requires ListInv(s) && t < |s.pcs| == |s'.pcs|
    requires s' == s.(pcs := s.pcs[t := s'.pcs[t]], size := s'.size)
    ensures ListInv(s') && Frame(s, s', t)
  {
    SameList(s, s');
  }

  predicate LocalPc(pc: Pc) {
    pc.PushRead? || pc.PushInc? || pc.PopRead? || pc.PopNext? || pc.PopDec? || pc.PopData?
  }

  lemma LocalOk(s: State, t: nat)
    requires ListInv(s) && t < |s.pcs| && ThreadInv(s, t) && LocalPc(s.pcs[t])
    ensures StepOk(s, Instruction(s, t), t)
  {
    QuietOk(s, Instruction(s, t), t);
    assert s.chain != [] ==> LinkOk(s, 0) && Live(s, s.chain[0]);
  }

  // ---- The two compare-and-swaps

  lemma PushCasList(s: State, t: nat)
    requires ListInv(s) && t < |s.pcs| && ThreadInv(s, t) && s.pcs[t].PushCas? && s.top == s.pcs[t].seen
    ensures ListInv(Instruction(s, t))
  {
    var s' := Instruction(s, t);
    forall i | 0 <= i < |s'.chain|
      ensures LinkOk(s', i) && Live(s', s'.chain[i])
    {
      if i > 0 { assert LinkOk(s, i - 1) && Live(s, s.chain[i - 1]); }
    }
    forall i, j | 0 <= i < j < |s'.chain|
      ensures s'.chain[i].addr != s'.chain[j].addr
    {
      assert Live(s, s.chain[j - 1]);
    }
  }

  lemma PushCasOk(s: State, t: nat)
    requires ListInv(s) && t < |s.pcs| && ThreadInv(s, t) && s.pcs[t].PushCas?
    ensures StepOk(s, Instruction(s, t), t)
  {
    if s.top == s.pcs[t].seen {
      PushCasList(s, t);
    } else {
      QuietOk(s, Instruction(s, t), t);
    }
  }

  /** A successful pop CAS inside the window captured the very push that is on top. */
  lemma PopCasHitsTop(s: State, t: nat)
    requires ListInv(s) && t < |s.pcs| && s.pcs[t].PopCas? && ThreadInv(s, t) && s.top == Cut(s.pcs[t].cap.Pointer())
    requires Windowed(s, Resume(t), 0)
    ensures s.chain != [] && s.chain[0] == s.pcs[t].cap.Pointer() && s.pcs[t].new_ == Cut(NextOf(s.chain, 0))
  {
    assert s.chain != [] ==> LinkOk(s, 0) && Live(s, s.chain[0]);
    if s.chain[0].tag != s.pcs[t].cap.tag {
      SameTagIsRound(s.pcs[t].cap, s.chain[0].tag, s.allocCnt);
    }
  }

  /** Inside the window nobody is deceived. */
  lemma WindowedUndeceived(s: State, act: Action)
    requires Inv(s) && Enabled(s, act) && Windowed(s, act, 0)
    ensures Undeceived(s, act)
  {
    if act.Resume? && s.pcs[act.t].PopCas? && s.top == Cut(s.pcs[act.t].cap.Pointer()) {
      assert ThreadInv(s, act.t);
      PopCasHitsTop(s, act.t);
      assert LinkOk(s, 0);
    }
  }

  /** A successful pop CAS that is not deceived takes the top off, be it in a later incarnation. */
  lemma PopCasTakesTop(s: State, t: nat)
    requires ListInv(s) && t < |s.pcs| && s.pcs[t].PopCas? && ThreadInv(s, t) && s.top == Cut(s.pcs[t].cap.Pointer())
    requires Undeceived(s, Resume(t))
    ensures s.chain != [] && s.chain[0].addr == s.pcs[t].cap.addr && s.pcs[t].new_ == Cut(NextOf(s.chain, 0))
  {
    assert s.chain != [] ==> LinkOk(s, 0);
  }

  /** A deceived Pop installs a word that is not the successor of the top. */
  lemma DeceivedBreaks(s: State, act: Action)
    requires Inv(s) && Enabled(s, act) && !Undeceived(s, act)
    ensures !Spelled(Next(s, act))
  {
    var t, s' := act.t, Next(s, act);
    assert ThreadInv(s, t);
    assert s.chain != [] ==> LinkOk(s, 0);
    assert s'.top == s.pcs[t].new_ && s'.chain == s.chain[1..];
  }

  lemma PopCasList(s: State, t: nat)
    requires ListInv(s) && t < |s.pcs| && s.pcs[t].PopCas? && s.top == Cut(s.pcs[t].cap.Pointer())
    requires s.chain != [] && s.chain[0].addr == s.pcs[t].cap.addr && s.pcs[t].new_ == Cut(NextOf(s.chain, 0))
    ensures ListInv(Instruction(s, t))
  {
    var s' := Instruction(s, t);
    forall i | 0 <= i < |s'.chain|
      ensures LinkOk(s', i) && Live(s', s'.chain[i])
    {
      assert LinkOk(s, i + 1) && Live(s, s.chain[i + 1]);
    }
    assert LinkOk(s, 0);
  }

  lemma PopCasOk(s: State, t: nat)
    requires ListInv(s) && t < |s.pcs| && ThreadInv(s, t) && s.pcs[t].PopCas?
    requires Undeceived(s, Resume(t))
    ensures StepOk(s, Instruction(s, t), t)
  {
    if s.top == Cut(s.pcs[t].cap.Pointer()) {
      PopCasTakesTop(s, t);
      PopCasList(s, t);
    } else {
      QuietOk(s, Instruction(s, t), t);
    }
  }

  // ---- The abstract stack

  lemma ReplayAppend(log: seq<Op>, op: Op)
    ensures Replay(log + [op]) ==
            match Replay(log)
            case Illegal => Illegal
            case Legal(items) =>
              match op
              case Pushed(d) => Legal([d] + items)
              case Popped(d) => if items != [] && items[0] == d then Legal(items[1..]) else Illegal
  {
    assert (log + [op])[..|log|] == log;
  }

  /** Data of linked nodes is never overwritten. */
  lemma DataKept(s: State, act: Action)
    requires Enabled(s, act) && ListInv(s) && (act.Resume? ==> ThreadInv(s, act.t))
    ensures Contents(Next(s, act).heap, s.chain) == Contents(s.heap, s.chain)
  {
    var s' := Next(s, act);
    forall i | 0 <= i < |s.chain|
      ensures s.chain[i].addr in s'.heap && s'.heap[s.chain[i].addr].data == s.heap[s.chain[i].addr].data
    {
      assert LinkOk(s, i) && Live(s, s.chain[i]);
    }
  }

  /** The history grows only at a successful CAS, by the item that enters or leaves the list. */
  lemma LoggedKept(s: State, act: Action)
    requires Enabled(s, act) && Inv(s) && Undeceived(s, act)
    ensures Logged(Next(s, act))
  {
    assert act.Resume? ==> ThreadInv(s, act.t);
    DataKept(s, act);
    if act.Resume? && s.pcs[act.t].PushCas? {
      PushCasLogged(s, act.t);
    } else if act.Resume? && s.pcs[act.t].PopCas? {
      PopCasLogged(s, act.t);
    }
  }

  lemma PushCasLogged(s: State, t: nat)
    requires ListInv(s) && Logged(s) && t < |s.pcs| && ThreadInv(s, t) && s.pcs[t].PushCas?
    ensures Logged(Instruction(s, t))
  {
    var d := s.pcs[t].d;
    ReplayAppend(s.log, Pushed(d));
    assert Contents(s.heap, [s.pcs[t].node] + s.chain) == [d] + Contents(s.heap, s.chain);
  }

  lemma PopCasLogged(s: State, t: nat)
    requires ListInv(s) && Logged(s) && t < |s.pcs| && ThreadInv(s, t) && s.pcs[t].PopCas?
    requires Undeceived(s, Resume(t))
    ensures Logged(Instruction(s, t))
  {
    if s.top == Cut(s.pcs[t].cap.Pointer()) {
      PopCasTakesTop(s, t);
      ReplayAppend(s.log, Popped(s.heap[s.chain[0].addr].data));
      assert Contents(s.heap, s.chain[1..]) == Contents(s.heap, s.chain)[1..];
    }
  }

  lemma ForeignKeepsInv(s: State, act: Action)
    requires Inv(s) && Enabled(s, act) && act.Foreign?
    ensures Inv(Next(s, act))
  {
    LoggedKept(s, act);
    OneAddressOk(s, Next(s, act), act.a);
    forall u | 0 <= u < |s.pcs|
      ensures ThreadInv(Next(s, act), u)
    {
      assert ThreadInv(s, u);
      OtherKept(s, Next(s, act), -1, u);
    }
  }

  lemma StepKeepsInv(s: State, act: Action)
    requires Inv(s) && Enabled(s, act) && Undeceived(s, act)
    ensures Inv(Next(s, act))
  {
    LoggedKept(s, act);
    match act
    case Foreign(_, _) => ForeignKeepsInv(s, act);
    case CallPush(t, _, _) => CallPushOk(s, act); StepOkKeepsInv(s, Next(s, act), t);
    case CallPop(t) => QuietOk(s, Next(s, act), t); StepOkKeepsInv(s, Next(s, act), t);
    case Resume(t) =>
      assert ThreadInv(s, t);
      match s.pcs[t] {
        case PushCount(_, _) => PushCountOk(s, t);
        case PushLink(_, _, _) => PushLinkOk(s, t);
        case PushCas(_, _, _) => PushCasOk(s, t);
        case PopCas(_, _) => PopCasOk(s, t);
        case PopFree(_, _, _) => PopFreeOk(s, t);
        case _ => LocalOk(s, t);
      }
      StepOkKeepsInv(s, Next(s, act), t);
  }
}
