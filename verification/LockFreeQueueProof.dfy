/**
 Every sound step of the queue machine keeps the invariant, and every guarded step is sound.

 A step of one thread is described to the others by `Frame`: what may happen at each address
 (`Evolves`) and at the two ends of the list (`EndsFrame`). From the frame alone the invariants
 of the other threads follow (`EnqueuerKept`, `DequeuerKept`). An instruction that leaves the
 list alone changes at most one address outside it (`OneAddressOk`). That leaves the three
 compare-and-swaps: on m_tail (`TailCasAdvances`), on `next` of the captured tail
 (`LinkCasHitsEnd`) and on m_head (`HeadCasTakesFirst`), for each of which soundness says that
 it met what its thread had read.
 */
module QueueProof {
  import opened TaggedPointer
  import opened Sums
  import opened QueueSpec

  /** The captured word a head or tail CAS of this thread is about to compare. */
  function Compared(pc: Pc): Seen {
    match pc
    case EnqHelp(_, _, cap, _) => cap
    case EnqSwing(_, cap) => cap
    case DeqHelp(cap, _) => cap
    case DeqCas(hcap, _, _) => hcap
    case _ => Seen(0, 0, 0)
  }

  /** The head or tail CAS this thread is about to do will succeed. */
  predicate Meets(s: State, pc: Pc) {
    Compared(pc).addr != 0 && Cut(Compared(pc).Pointer()) == if pc.DeqCas? then s.head else s.tail
  }

  /** Tag window: at a head or tail CAS that succeeds the captured tag has not come round since it was read. */
  predicate InWindow(s: State, t: nat) {
    t < |s.pcs| && (Meets(s, s.pcs[t]) ==> Rounds(Compared(s.pcs[t]), s.allocCnt) == 0)
  }

  /**
   Recycling: at a link CAS that succeeds the captured node is not, recycled, in the hands of
   another Enqueue that has not linked it; and an untagged null (of the first dummy) is not
   compared with a node that left this queue. The node may have been recycled and linked again.
   */
  predicate LinkGuard(s: State, t: nat) {
    t < |s.pcs| &&
    match s.pcs[t]
    case EnqLink(_, _, cap, next) =>
      NodeAt(s, cap.addr).next == next ==>
        && !HolderOf(s, cap.addr).Fresh? && !HolderOf(s, cap.addr).Counted?
        && (HolderOf(s, cap.addr).Outside? ==> next == Marker(s.identifier))
    case _ => true
  }

  predicate Guarded(s: State, act: Action) {
    act.Resume? ==> InWindow(s, act.t) && LinkGuard(s, act.t)
  }

  /** A compare-and-swap on m_tail that finds the word it captured also finds the successor it read. */
  predicate TailSound(s: State, cap: Seen, next: Ptr) {
    s.tail == Cut(cap.Pointer()) ==> NodeAt(s, cap.addr).next == next
  }

  /**
   The compare-and-swap a thread is about to do, if it succeeds, meets what the thread has read:
   the captured tail is linked; the captured tail or head still has the successor that was
   read, the successor of the head still has the data that was read, and the tail is not at the head.
   */
  predicate Sound(s: State, t: nat) {
    t < |s.pcs| &&
    match s.pcs[t]
    case EnqHelp(_, _, cap, next) => TailSound(s, cap, next)
    case EnqSwing(node, cap) => TailSound(s, cap, Cut(node))
    case DeqHelp(cap, next) => TailSound(s, cap, next)
    case EnqLink(_, _, cap, next) => NodeAt(s, cap.addr).next == next ==> HolderOf(s, cap.addr).Listed?
    case DeqCas(hcap, next, out) =>
      s.head == Cut(hcap.Pointer()) ==>
        NodeAt(s, hcap.addr).next == next && NodeAt(s, next.addr).data == out && s.head != s.tail
    case _ => true
  }

  predicate SoundStep(s: State, act: Action) {
    act.Resume? ==> Sound(s, act.t)
  }

  // ---- What a step of one thread leaves to the others

  ghost predicate SameAt(s: State, s': State, a: nat) {
    && HolderOf(s', a) == HolderOf(s, a)
    && NodeAt(s', a) == NodeAt(s, a)
    && (a in s.heap ==> a in s'.heap)
    && (a in s.born <==> a in s'.born)
    && (a in s.born ==> s'.born[a] == s.born[a])
  }

  predicate Owned(h: Holder) {
    h.Fresh? || h.Counted? || h.Retired?
  }

  /** All that the invariants of the threads other than `t` depend on, address by address. */
  ghost predicate Evolves(s: State, s': State, t: int, a: nat) {
    && (a in s.heap ==> a in s'.heap)
    && (a in s.born ==> a in s'.born && (s'.born[a] == s.born[a] || s'.born[a] > s.allocCnt))
    && (Owned(HolderOf(s, a)) ==> HolderOf(s, a).t == t || SameAt(s, s', a))
    && (a in s.born && s'.born[a] == s.born[a] && HolderOf(s', a).Counted? ==> HolderOf(s, a).Counted?)
    && (HolderOf(s', a).Listed? ==> HolderOf(s, a).Counted? || HolderOf(s, a).Listed?)
    && (HolderOf(s, a).Listed? ==> StaysListed(s, s', a) || LeavesFront(s, s', a))
  }

  ghost predicate StaysListed(s: State, s': State, a: nat) {
    && HolderOf(s', a).Listed?
    && (a in s.born ==> a in s'.born && s'.born[a] == s.born[a])
    && NodeAt(s', a).data == NodeAt(s, a).data
    && (NodeAt(s, a).next.addr != 0 ==> NodeAt(s', a).next == NodeAt(s, a).next)
  }

  ghost predicate LeavesFront(s: State, s': State, a: nat) {
    s.chain != [] && s.chain[0].addr == a && HolderOf(s', a).Retired?
  }

  /** The head stays and the tail does not go back, or the old head leaves the list. */
  ghost predicate EndsFrame(s: State, s': State) {
    && s.chain != [] && s'.chain != []
    && if s'.chain[0] == s.chain[0] then s.ti <= s'.ti else !HolderOf(s', s.chain[0].addr).Listed?
  }

  ghost predicate Frame(s: State, s': State, t: int) {
    && |s'.pcs| == |s.pcs| && s'.identifier == s.identifier && s.allocCnt <= s'.allocCnt
    && (forall u :: 0 <= u < |s.pcs| && u != t ==> s'.pcs[u] == s.pcs[u])
    && (forall a: nat :: Evolves(s, s', t, a))
    && EndsFrame(s, s')
  }

  function NodeOf(pc: Pc): nat {
    match pc
    case EnqNull(a, _) => a
    case EnqCount(a, _) => a
    case EnqMark(node, _) => node.addr
    case EnqTail(node, _) => node.addr
    case EnqNext(node, _, _) => node.addr
    case EnqHelp(node, _, _, _) => node.addr
    case EnqLink(node, _, _, _) => node.addr
    case DeqFree(a, _) => a
    case _ => 0
  }

  lemma CapturedKept(s: State, s': State, t: int, p: Seen)
    requires Evolves(s, s', t, p.addr) && s.allocCnt <= s'.allocCnt && Captured(s, p)
    ensures Captured(s', p) && (Live(s', p.Pointer()) ==> Live(s, p.Pointer()) && StaysListed(s, s', p.addr))
  {
  }

  lemma EnqueuerKept(s: State, s': State, t: int, u: nat)
    requires Frame(s, s', t)
    requires u < |s.pcs| && u != t && ThreadInv(s, u)
    requires NodeOf(s.pcs[u]) != 0 || s.pcs[u].EnqSwing?
    ensures ThreadInv(s', u)
  {
    assert Evolves(s, s', t, NodeOf(s.pcs[u]));
    match s.pcs[u]
    case EnqNext(_, _, cap) => CapturedKept(s, s', t, cap);
    case EnqHelp(_, _, cap, _) => CapturedKept(s, s', t, cap);
    case EnqLink(_, _, cap, _) => CapturedKept(s, s', t, cap);
    case EnqSwing(_, cap) => CapturedKept(s, s', t, cap);
    case _ =>
  }

  lemma HeadCapturedKept(s: State, s': State, t: int, hcap: Seen)
    requires Evolves(s, s', t, hcap.addr) && s.allocCnt <= s'.allocCnt && EndsFrame(s, s') && HeadCaptured(s, hcap)
    ensures HeadCaptured(s', hcap)
    ensures Live(s', hcap.Pointer()) ==>
              Live(s, hcap.Pointer()) && StaysListed(s, s', hcap.addr) && s'.chain[0] == s.chain[0] && s.ti <= s'.ti
  {
    CapturedKept(s, s', t, hcap);
  }

  /** The data read for a head that is still in place is the data of its successor. */
  lemma DeqCasKept(s: State, s': State, t: int, hcap: Seen, next: Ptr, out: int)
    requires ListInv(s) && EndsFrame(s, s') && HeadCaptured(s, hcap) && Follows(s, hcap, next)
    requires Evolves(s, s', t, hcap.addr) && Evolves(s, s', t, next.addr) && s.allocCnt <= s'.allocCnt
    requires Live(s, hcap.Pointer()) ==> s.ti > 0 && next.addr in s.heap && s.heap[next.addr].data == out
    requires Live(s', hcap.Pointer())
    ensures next.addr in s'.heap && s'.heap[next.addr].data == out
  {
    HeadCapturedKept(s, s', t, hcap);
    assert LinkOk(s, 0) && LinkOk(s, 1) && Live(s, s.chain[1]);
  }

  lemma DequeuerKept(s: State, s': State, t: int, u: nat)
    requires ListInv(s) && Frame(s, s', t)
    requires u < |s.pcs| && u != t && ThreadInv(s, u)
    requires s.pcs[u].DeqTail? || s.pcs[u].DeqNext? || s.pcs[u].DeqHelp? || s.pcs[u].DeqData? || s.pcs[u].DeqCas?
    ensures ThreadInv(s', u)
  {
    hide ListInv, LinkOk;
    match s.pcs[u]
    case DeqTail(hcap) => HeadCapturedKept(s, s', t, hcap);
    case DeqNext(hcap, cap) => HeadCapturedKept(s, s', t, hcap); CapturedKept(s, s', t, cap);
    case DeqHelp(cap, _) => CapturedKept(s, s', t, cap);
    case DeqData(hcap, _) => HeadCapturedKept(s, s', t, hcap);
    case DeqCas(hcap, next, out) =>
      HeadCapturedKept(s, s', t, hcap);
      assert Evolves(s, s', t, next.addr);
      if Live(s', hcap.Pointer()) { DeqCasKept(s, s', t, hcap, next, out); }
  }

  lemma OtherKept(s: State, s': State, t: int, u: nat)
    requires ListInv(s) && Frame(s, s', t)
    requires u < |s.pcs| && u != t && ThreadInv(s, u)
    ensures ThreadInv(s', u)
  {
    hide ListInv;
    if s.pcs[u].DeqTail? || s.pcs[u].DeqNext? || s.pcs[u].DeqHelp? || s.pcs[u].DeqData? || s.pcs[u].DeqCas? {
      DequeuerKept(s, s', t, u);
    } else if s.pcs[u].EnqSwing? || NodeOf(s.pcs[u]) != 0 {
      EnqueuerKept(s, s', t, u);
    }
  }

  // ---- What each instruction of thread `t` has to establish

  ghost predicate StepOk(s: State, s': State, t: nat) {
    && t < |s.pcs| == |s'.pcs|
    && ListInv(s')
    && ThreadInv(s', t)
    && Frame(s, s', t)
  }

  // ---- Steps that leave the list alone

  lemma SameList(s: State, s': State)
    requires ListInv(s) && s'.head == s.head && s'.tail == s.tail && s'.chain == s.chain && s'.ti == s.ti
    requires s'.identifier == s.identifier
    requires forall i :: 0 <= i < |s.chain| ==> SameAt(s, s', s.chain[i].addr)
    requires forall a: nat :: AddrInv(s', a)
    ensures ListInv(s')
  {
    forall i | 0 <= i < |s'.chain|
      ensures LinkOk(s', i) && Live(s', s'.chain[i])
    {
      assert LinkOk(s, i) && Live(s, s.chain[i]) && SameAt(s, s', s.chain[i].addr);
    }
  }

  /** A step that changes at most what is at address `a`, which is not in the list. */
  lemma OneAddressOk(s: State, s': State, t: int, a: nat)
    requires ListInv(s) && s'.head == s.head && s'.tail == s.tail && s'.chain == s.chain && s'.ti == s.ti
    requires s'.identifier == s.identifier && s.allocCnt <= s'.allocCnt
    requires |s'.pcs| == |s.pcs| && (forall u :: 0 <= u < |s.pcs| && u != t ==> s'.pcs[u] == s.pcs[u])
    requires !HolderOf(s, a).Listed? && !HolderOf(s', a).Listed?
    requires forall b: nat :: b != a ==> SameAt(s, s', b)
    requires AddrInv(s', a) && Evolves(s, s', t, a)
    ensures ListInv(s') && Frame(s, s', t)
  {
    forall i | 0 <= i < |s.chain|
      ensures SameAt(s, s', s.chain[i].addr)
    {
      assert Live(s, s.chain[i]);
    }
    forall b: nat
      ensures AddrInv(s', b) && Evolves(s, s', t, b)
    {
      if b != a {
        assert AddrInv(s, b) && SameAt(s, s', b);
        assert InChain(s, b) ==> InChain(s', b);
      }
    }
    SameList(s, s');
  }

  lemma CallEnqueueOk(s: State, act: Action)
    requires ListInv(s) && Enabled(s, act) && act.CallEnqueue?
    ensures StepOk(s, Next(s, act), act.t)
  {
    assert AddrInv(s, act.a);
    OneAddressOk(s, Next(s, act), act.t, act.a);
  }

  lemma EnqNullOk(s: State, t: nat)
    requires ListInv(s) && t < |s.pcs| && ThreadInv(s, t) && s.pcs[t].EnqNull?
    ensures StepOk(s, Instruction(s, t), t)
  {
    assert AddrInv(s, s.pcs[t].a);
    OneAddressOk(s, Instruction(s, t), t, s.pcs[t].a);
  }

  lemma EnqCountOk(s: State, t: nat)
    requires ListInv(s) && t < |s.pcs| && ThreadInv(s, t) && s.pcs[t].EnqCount?
    ensures StepOk(s, Instruction(s, t), t)
  {
    assert AddrInv(s, s.pcs[t].a);
    OneAddressOk(s, Instruction(s, t), t, s.pcs[t].a);
  }

  lemma EnqMarkOk(s: State, t: nat)
    requires ListInv(s) && t < |s.pcs| && ThreadInv(s, t) && s.pcs[t].EnqMark?
    ensures StepOk(s, Instruction(s, t), t)
  {
    assert AddrInv(s, s.pcs[t].node.addr);
    OneAddressOk(s, Instruction(s, t), t, s.pcs[t].node.addr);
  }

  lemma DeqFreeOk(s: State, t: nat)
    requires ListInv(s) && t < |s.pcs| && ThreadInv(s, t) && s.pcs[t].DeqFree?
    ensures StepOk(s, Instruction(s, t), t)
  {
    assert AddrInv(s, s.pcs[t].a);
    OneAddressOk(s, Instruction(s, t), t, s.pcs[t].a);
  }

  lemma QuietOk(s: State, s': State, t: nat)
    requires ListInv(s) && t < |s.pcs| == |s'.pcs|
    requires s' == s.(pcs := s.pcs[t := s'.pcs[t]], size := s'.size)
    ensures ListInv(s') && Frame(s, s', t)
  {
    forall b: nat
      ensures AddrInv(s', b)
    {
      assert AddrInv(s, b) && (InChain(s, b) ==> InChain(s', b));
    }
    SameList(s, s');
  }

  /** The word read from m_tail (or m_head) names a linked node. */
  lemma RecognizeCaptures(s: State, i: nat)
    requires ListInv(s) && i < |s.chain|
    ensures var p := Recognize(s, Cut(s.chain[i]), i);
            p.Pointer() == s.chain[i] && Captured(s, p) && Live(s, p.Pointer())
  {
    assert LinkOk(s, i) && Live(s, s.chain[i]) && AddrInv(s, s.chain[i].addr);
  }

  lemma EnqQuietOk(s: State, t: nat)
    requires ListInv(s) && t < |s.pcs| && ThreadInv(s, t)
    requires s.pcs[t].EnqTail? || s.pcs[t].EnqNext? || s.pcs[t].EnqInc?
    ensures StepOk(s, Instruction(s, t), t)
  {
    QuietOk(s, Instruction(s, t), t);
    RecognizeCaptures(s, s.ti);
    hide ListInv, Frame;
  }

  lemma DeqQuietOk(s: State, t: nat)
    requires ListInv(s) && t < |s.pcs| && ThreadInv(s, t)
    requires s.pcs[t].DeqDec? || s.pcs[t].DeqUndo? || s.pcs[t].DeqHead? || s.pcs[t].DeqTail? || s.pcs[t].DeqNext?
    ensures StepOk(s, Instruction(s, t), t)
  {
    QuietOk(s, Instruction(s, t), t);
    RecognizeCaptures(s, 0);
    RecognizeCaptures(s, s.ti);
    hide Frame, InChain, AddrInv;
  }

  lemma DeqDataOk(s: State, t: nat)
    requires ListInv(s) && t < |s.pcs| && ThreadInv(s, t) && s.pcs[t].DeqData?
    ensures StepOk(s, Instruction(s, t), t)
  {
    QuietOk(s, Instruction(s, t), t);
    if Live(s, s.pcs[t].hcap.Pointer()) {
      assert LinkOk(s, 0) && LinkOk(s, 1);
    }
    hide Frame, InChain, AddrInv;
  }

  // ---- The compare-and-swaps on m_tail

  /** Inside the window a captured word that is compared equal with a linked node names that very node. */
  lemma WindowNames(s: State, cap: Seen, i: nat)
    requires ListInv(s) && Captured(s, cap) && i < |s.chain| && Cut(cap.Pointer()) == Cut(s.chain[i])
    requires Rounds(cap, s.allocCnt) == 0
    ensures cap.Pointer() == s.chain[i] && Live(s, cap.Pointer())
  {
    assert LinkOk(s, i) && Live(s, s.chain[i]) && AddrInv(s, cap.addr);
    if s.chain[i].tag != cap.tag {
      SameTagIsRound(cap, s.chain[i].tag, s.allocCnt);
    }
  }

  /** Inside the window a tail CAS that succeeds captured the very tail. */
  lemma TailCasHitsTail(s: State, cap: Seen, next: Ptr)
    requires ListInv(s) && Follows(s, cap, next)
    requires s.tail == Cut(cap.Pointer()) ==> Rounds(cap, s.allocCnt) == 0
    ensures TailSound(s, cap, next)
    ensures s.tail == Cut(cap.Pointer()) ==> cap.Pointer() == s.chain[s.ti]
  {
    if s.tail == Cut(cap.Pointer()) { WindowNames(s, cap, s.ti); }
  }

  /** A sound tail CAS that succeeds moves the tail to its successor. */
  lemma TailCasAdvances(s: State, cap: Seen, next: Ptr)
    requires ListInv(s) && Follows(s, cap, next) && s.tail == Cut(cap.Pointer()) && TailSound(s, cap, next)
    ensures s.ti + 1 < |s.chain| && next == Cut(s.chain[s.ti + 1])
  {
    assert LinkOk(s, s.ti);
  }

  lemma TailMoves(s: State, s': State, t: nat)
    requires ListInv(s) && t < |s.pcs| == |s'.pcs| && s.ti + 1 < |s.chain|
    requires s' == s.(pcs := s.pcs[t := s'.pcs[t]], tail := Cut(s.chain[s.ti + 1]), ti := s.ti + 1)
    ensures ListInv(s') && Frame(s, s', t)
  {
    forall b: nat
      ensures AddrInv(s', b)
    {
      assert AddrInv(s, b) && (InChain(s, b) ==> InChain(s', b));
    }
    assert LinkOk(s, s.ti + 1);
    SameLinks(s, s');
  }

  lemma SameLinks(s: State, s': State)
    requires forall i :: 0 <= i < |s.chain| ==> LinkOk(s, i) && Live(s, s.chain[i])
    requires s'.chain == s.chain && s'.heap == s.heap && s'.identifier == s.identifier && s'.holder == s.holder &&
            s'.born == s.born
    ensures forall i :: 0 <= i < |s'.chain| ==> LinkOk(s', i) && Live(s', s'.chain[i])
  {
    forall i | 0 <= i < |s'.chain|
      ensures LinkOk(s', i) && Live(s', s'.chain[i])
    {
      assert LinkOk(s, i) && Live(s, s.chain[i]);
    }
  }

  lemma TailCasOk(s: State, t: nat, cap: Seen, next: Ptr, pc: Pc)
    requires ListInv(s) && t < |s.pcs| && Follows(s, cap, next) && TailSound(s, cap, next)
    ensures ListInv(TailCas(s, t, cap, next, pc)) && Frame(s, TailCas(s, t, cap, next, pc), t)
  {
    if s.tail == Cut(cap.Pointer()) {
      TailCasAdvances(s, cap, next);
      TailMoves(s, TailCas(s, t, cap, next, pc), t);
    } else {
      QuietOk(s, TailCas(s, t, cap, next, pc), t);
    }
  }

  lemma HelpOk(s: State, t: nat)
    requires ListInv(s) && t < |s.pcs| && ThreadInv(s, t) && Sound(s, t)
    requires s.pcs[t].EnqHelp? || s.pcs[t].EnqSwing? || s.pcs[t].DeqHelp?
    ensures StepOk(s, Instruction(s, t), t)
  {
    hide ListInv, Frame, Live, AddrInv;
    match s.pcs[t]
    case EnqHelp(node, d, cap, next) => TailCasOk(s, t, cap, next, EnqTail(node, d));
    case EnqSwing(node, cap) => TailCasOk(s, t, cap, Cut(node), EnqInc);
    case DeqHelp(cap, next) => TailCasOk(s, t, cap, next, DeqHead);
  }

  // ---- The compare-and-swap on tailCapAdr->next

  /** A guarded link CAS that succeeds captured a linked node. */
  lemma LinkGuardSound(s: State, t: nat)
    requires ListInv(s) && t < |s.pcs| && ThreadInv(s, t) && LinkGuard(s, t) && s.pcs[t].EnqLink?
    ensures Sound(s, t)
  {
    assert AddrInv(s, s.pcs[t].cap.addr);
  }

  /** A sound link CAS that succeeds found the real end of the list, recycled or not. */
  lemma LinkCasHitsEnd(s: State, t: nat)
    requires ListInv(s) && t < |s.pcs| && ThreadInv(s, t) && Sound(s, t)
    requires s.pcs[t].EnqLink? && NodeAt(s, s.pcs[t].cap.addr).next == s.pcs[t].next
    ensures s.pcs[t].cap.addr == s.chain[|s.chain| - 1].addr
  {
    var a := s.pcs[t].cap.addr;
    assert AddrInv(s, a);
    var i :| 0 <= i < |s.chain| && s.chain[i].addr == a;
    assert LinkOk(s, i);
    assert i + 1 < |s.chain| ==> LinkOk(s, i + 1);
  }

  lemma AppendKeepsAddresses(s: State, t: nat)
    requires ListInv(s) && t < |s.pcs| && ThreadInv(s, t)
    requires s.pcs[t].EnqLink? && NodeAt(s, s.pcs[t].cap.addr).next == s.pcs[t].next
    requires s.pcs[t].cap.addr == s.chain[|s.chain| - 1].addr
    ensures forall b: nat :: AddrInv(Instruction(s, t), b)
    ensures Frame(s, Instruction(s, t), t)
  {
    var s' := Instruction(s, t);
    var last := |s.chain| - 1;
    assert LinkOk(s, last) && Live(s, s.chain[last]);
    forall b: nat
      ensures AddrInv(s', b) && Evolves(s, s', t, b)
    {
      assert AddrInv(s, b);
      if InChain(s, b) {
        var i :| 0 <= i < |s.chain| && s.chain[i].addr == b;
        assert s'.chain[i].addr == b;
      }
      assert s'.chain[last + 1].addr == s.pcs[t].node.addr;
    }
  }

  lemma AppendKeepsList(s: State, t: nat)
    requires ListInv(s) && t < |s.pcs| && ThreadInv(s, t)
    requires s.pcs[t].EnqLink? && NodeAt(s, s.pcs[t].cap.addr).next == s.pcs[t].next
    requires s.pcs[t].cap.addr == s.chain[|s.chain| - 1].addr
    requires forall b: nat :: AddrInv(Instruction(s, t), b)
    ensures ListInv(Instruction(s, t))
  {
    hide AddrInv;
    var s' := Instruction(s, t);
    forall i | 0 <= i < |s'.chain|
      ensures LinkOk(s', i) && Live(s', s'.chain[i])
    {
      AppendKeepsLinks(s, t, i);
    }
    forall i, j | 0 <= i < j < |s'.chain|
      ensures s'.chain[i].addr != s'.chain[j].addr
    {
      assert Live(s, s.chain[i]);
    }
    hide LinkOk, Live;
    assert s'.head == s.head && s'.tail == s.tail && s'.chain == s.chain + [s.pcs[t].node];
  }

  lemma AppendKeepsLinks(s: State, t: nat, i: nat)
    requires ListInv(s) && t < |s.pcs| && ThreadInv(s, t)
    requires s.pcs[t].EnqLink? && NodeAt(s, s.pcs[t].cap.addr).next == s.pcs[t].next
    requires s.pcs[t].cap.addr == s.chain[|s.chain| - 1].addr && i <= |s.chain|
    ensures i < |Instruction(s, t).chain|
    ensures LinkOk(Instruction(s, t), i) && Live(Instruction(s, t), Instruction(s, t).chain[i])
  {
    hide AddrInv;
    var last := |s.chain| - 1;
    assert LinkOk(s, last) && Live(s, s.chain[last]);
    if i < last {
      assert LinkOk(s, i) && Live(s, s.chain[i]) && s.chain[i].addr != s.chain[last].addr;
    }
  }

  lemma EnqLinkOk(s: State, t: nat)
    requires ListInv(s) && t < |s.pcs| && ThreadInv(s, t) && Sound(s, t) && s.pcs[t].EnqLink?
    ensures StepOk(s, Instruction(s, t), t)
  {
    hide ListInv, Frame, Live, AddrInv;
    if NodeAt(s, s.pcs[t].cap.addr).next == s.pcs[t].next {
      LinkCasHitsEnd(s, t);
      AppendKeepsAddresses(s, t);
      AppendKeepsList(s, t);
    } else {
      QuietOk(s, Instruction(s, t), t);
    }
  }

  // ---- The compare-and-swap on m_head

  /**
   Inside the window a head CAS that succeeds captured the very head, its successor is the one
   read, and the data read before the CAS is that successor's. The tail is not left behind.
   */
  lemma HeadCasHitsHead(s: State, t: nat)
    requires ListInv(s) && t < |s.pcs| && ThreadInv(s, t) && InWindow(s, t) && s.pcs[t].DeqCas?
    ensures Sound(s, t)
    ensures s.head == Cut(s.pcs[t].hcap.Pointer()) ==> s.pcs[t].hcap.Pointer() == s.chain[0]
  {
    if s.head == Cut(s.pcs[t].hcap.Pointer()) {
      WindowNames(s, s.pcs[t].hcap, 0);
      assert LinkOk(s, 0);
    }
  }

  /** A sound head CAS that succeeds takes the first element: it installs the second node and returns its data. */
  lemma HeadCasTakesFirst(s: State, t: nat)
    requires ListInv(s) && t < |s.pcs| && ThreadInv(s, t) && Sound(s, t)
    requires s.pcs[t].DeqCas? && s.head == Cut(s.pcs[t].hcap.Pointer())
    ensures |s.chain| > 1 && s.ti > 0
    ensures s.pcs[t].hcap.addr == s.chain[0].addr && s.pcs[t].next == Cut(s.chain[1])
    ensures s.chain[1].addr in s.heap && s.pcs[t].out == s.heap[s.chain[1].addr].data
  {
    assert LinkOk(s, 0);
    assert LinkOk(s, 1);
  }

  lemma RemoveKeepsList(s: State, t: nat)
    requires ListInv(s) && t < |s.pcs| && s.pcs[t].DeqCas? && s.head == Cut(s.pcs[t].hcap.Pointer())
    requires |s.chain| > 1 && s.ti > 0 && s.pcs[t].hcap.addr == s.chain[0].addr && s.pcs[t].next == Cut(s.chain[1])
    ensures ListInv(Instruction(s, t)) && Frame(s, Instruction(s, t), t)
  {
    var s' := Instruction(s, t);
    var a := s.chain[0].addr;
    assert LinkOk(s, 0) && LinkOk(s, 1) && Live(s, s.chain[0]);
    forall i | 0 <= i < |s'.chain|
      ensures LinkOk(s', i) && Live(s', s'.chain[i])
    {
      assert LinkOk(s, i + 1) && Live(s, s.chain[i + 1]) && s.chain[i + 1].addr != a;
    }
    forall b: nat
      ensures AddrInv(s', b) && Evolves(s, s', t, b)
    {
      assert AddrInv(s, b);
      if b != a && InChain(s, b) {
        var i :| 0 <= i < |s.chain| && s.chain[i].addr == b;
        assert s'.chain[i - 1].addr == b;
      }
    }
  }

  lemma DeqCasOk(s: State, t: nat)
    requires ListInv(s) && t < |s.pcs| && ThreadInv(s, t) && Sound(s, t) && s.pcs[t].DeqCas?
    ensures StepOk(s, Instruction(s, t), t)
  {
    hide ListInv, Frame, Live, AddrInv;
    if s.head == Cut(s.pcs[t].hcap.Pointer()) {
      HeadCasTakesFirst(s, t);
      RemoveKeepsList(s, t);
    } else {
      QuietOk(s, Instruction(s, t), t);
    }
  }

  /** Guarded steps are sound. */
  lemma GuardedSound(s: State, t: nat)
    requires ListInv(s) && t < |s.pcs| && ThreadInv(s, t) && InWindow(s, t) && LinkGuard(s, t)
    ensures Sound(s, t)
  {
    match s.pcs[t]
    case EnqHelp(_, _, cap, next) => TailCasHitsTail(s, cap, next);
    case EnqSwing(node, cap) => TailCasHitsTail(s, cap, Cut(node));
    case DeqHelp(cap, next) => TailCasHitsTail(s, cap, next);
    case EnqLink(_, _, _, _) => LinkGuardSound(s, t);
    case DeqCas(_, _, _) => HeadCasHitsHead(s, t);
    case _ =>
  }
}
