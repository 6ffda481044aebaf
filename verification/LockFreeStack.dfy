/**
 The tagged Treiber stack of Utils/LockFreeStack.h as a machine of atomic steps.

 Any number of threads, scheduled arbitrarily, run `Push` and `Pop` on one stack. Nodes
 come from a pool that other stacks share: an address that this stack does not hold may be
 overwritten at any moment and may be handed out by the next Alloc.
 */
module StackSpec {
  import opened TaggedPointer
  import opened Sums

  datatype Node = Node(next: Ptr, data: int)

  /** Who holds an address: nobody here, the linked list, or a thread; `Counted` once the thread gave it a count. */
  datatype Holder = Outside | Held(t: nat) | Counted(t: nat) | Listed

  /** Where a thread stands; the comment gives the line of the next instruction. */
  datatype Pc =
    | Idle
    | PushCount(a: nat, d: int)                 // 19: GetCountByStack
    | PushRead(node: Ptr, d: int)               // 24: oldTop = m_top
    | PushLink(node: Ptr, d: int, seen: Ptr)    // 25: Next = oldTop
    | PushCas(node: Ptr, d: int, seen: Ptr)     // 27: CAS on m_top
    | PushInc                                   // 28: m_size++
    | PopRead                                   // 39: oldTop = m_top
    | PopNext(cap: Seen)                        // 47: newTop = Next
    | PopCas(cap: Seen, new_: Ptr)              // 51: CAS on m_top
    | PopDec(cap: Seen, logged: int)            // 52: m_size--
    | PopData(cap: Seen, logged: int)           // 53: *outData = Data
    | PopFree(cap: Seen, logged: int, out: int) // 54: Free

  datatype Op = Pushed(d: int) | Popped(d: int)

  /**
   The shared words, the memory and the threads. `top` and every `next` are words, so their
   counts are cut to 17 bits; a thread's `node` and `cap` carry the full count. `chain`, `holder`, `born` and `log` are
   history: the list as the successful CASes built it, the current holder of every address,
   the last count given to an address, and the operations in CAS order.
   */
  datatype State = State(
    top: Ptr, size: int, allocCnt: nat, heap: map<nat, Node>, pcs: seq<Pc>,
    chain: seq<Ptr>, holder: map<nat, Holder>, born: map<nat, nat>, log: seq<Op>)

  datatype Action =
    | CallPush(t: nat, a: nat, d: int)  // Alloc returned a; Data is written
    | CallPop(t: nat)
    | Resume(t: nat)                    // the next instruction of thread t
    | Foreign(a: nat, node: Node)       // whoever else holds address a writes to it

  predicate Enabled(s: State, act: Action) {
    match act
    case CallPush(t, a, _) => t < |s.pcs| && s.pcs[t].Idle? && a != 0 && a in s.heap && HolderOf(s, a).Outside?
    case CallPop(t) => t < |s.pcs| && s.pcs[t].Idle?
    case Resume(t) => t < |s.pcs| && !s.pcs[t].Idle?
    case Foreign(a, _) => a in s.heap && HolderOf(s, a).Outside?
  }

  function HolderOf(s: State, a: nat): Holder {
    if a in s.holder then s.holder[a] else Outside
  }

  function NodeAt(s: State, a: nat): Node {
    if a in s.heap then s.heap[a] else Node(NULL, 0)
  }

  /** The word in m_top with the full count of the push it belongs to. */
  function Recognize(s: State): Seen {
    var p := if s.chain != [] && Cut(s.chain[0]) == s.top then s.chain[0] else s.top;
    Seen(p.addr, p.tag, s.allocCnt)
  }

  function Goto(s: State, t: nat, pc: Pc): State
    requires t < |s.pcs|
  {
    s.(pcs := s.pcs[t := pc])
  }

  function Next(s: State, act: Action): State
    requires Enabled(s, act)
  {
    match act
    case CallPush(t, a, d) =>
      Goto(s, t, PushCount(a, d)).(heap := s.heap[a := s.heap[a].(data := d)], holder := s.holder[a := Held(t)])
    case CallPop(t) => Goto(s, t, PopRead)
    case Foreign(a, node) => s.(heap := s.heap[a := node])
    case Resume(t) => Instruction(s, t)
  }

  function Instruction(s: State, t: nat): State
    requires t < |s.pcs|
  {
    match s.pcs[t]
    case Idle => s
    case PushCount(a, d) =>
      var n := s.allocCnt + 1;
      Goto(s, t, PushRead(Ptr(a, n), d)).(allocCnt := n, born := s.born[a := n], holder := s.holder[a := Counted(t)])
    case PushRead(node, d) => Goto(s, t, PushLink(node, d, s.top))
    case PushLink(node, d, seen) =>
      Goto(s, t, PushCas(node, d, seen)).(heap := s.heap[node.addr := NodeAt(s, node.addr).(next := seen)])
    case PushCas(node, d, seen) =>
      if s.top == seen then
        Goto(s, t, PushInc).(top := Cut(node), chain := [node] + s.chain, holder := s.holder[node.addr := Listed],
                             log := s.log + [Pushed(d)])
      else Goto(s, t, PushRead(node, d))
    case PushInc => Goto(s, t, Idle).(size := s.size + 1)
    case PopRead =>
      if s.top.addr == 0 then Goto(s, t, Idle) else Goto(s, t, PopNext(Recognize(s)))
    case PopNext(cap) => Goto(s, t, PopCas(cap, NodeAt(s, cap.addr).next))
    case PopCas(cap, new_) =>
      if s.top == Cut(cap.Pointer()) then
        var d := NodeAt(s, cap.addr).data;
        Goto(s, t, PopDec(cap, d)).(top := new_, chain := if s.chain == [] then [] else s.chain[1..],
                                    holder := s.holder[cap.addr := Held(t)], log := s.log + [Popped(d)])
      else Goto(s, t, PopRead)
    case PopDec(cap, d) => Goto(s, t, PopData(cap, d)).(size := s.size - 1)
    case PopData(cap, d) => Goto(s, t, PopFree(cap, d, NodeAt(s, cap.addr).data))
    case PopFree(cap, _, _) => Goto(s, t, Idle).(holder := s.holder[cap.addr := Outside])
  }

  /** An empty stack over an arbitrary memory, `threads` threads all idle. */
  function Init(heap: map<nat, Node>, threads: nat): State {
    State(NULL, 0, 0, heap, seq(threads, _ => Idle), [], map[], map[], [])
  }

  // ---- The abstract stack

  datatype Replayed = Illegal | Legal(items: seq<int>)

  /** The content after a history of pushes and pops, if every pop took the last item pushed. */
  function Replay(log: seq<Op>): Replayed {
    if log == [] then Legal([]) else
      match Replay(log[..|log| - 1])
      case Illegal => Illegal
      case Legal(items) =>
        match log[|log| - 1]
        case Pushed(d) => Legal([d] + items)
        case Popped(d) => if items != [] && items[0] == d then Legal(items[1..]) else Illegal
  }

  function Contents(heap: map<nat, Node>, chain: seq<Ptr>): (items: seq<int>)
    ensures |items| == |chain|
  {
    seq(|chain|, i requires 0 <= i < |chain| => if chain[i].addr in heap then heap[chain[i].addr].data else 0)
  }

  function NextOf(chain: seq<Ptr>, i: nat): Ptr {
    if i + 1 < |chain| then chain[i + 1] else NULL
  }

  /** The words in memory spell `chain`: from `top`, following `next`, down to null. */
  ghost predicate Spelled(s: State) {
    && s.top == Cut(if s.chain == [] then NULL else s.chain[0])
    && (forall i :: 0 <= i < |s.chain| ==> LinkOk(s, i))
  }

  ghost predicate LinkOk(s: State, i: nat)
    requires i < |s.chain|
  {
    var a := s.chain[i].addr;
    a != 0 && a in s.heap && s.heap[a].next == Cut(NextOf(s.chain, i))
  }

  ghost predicate Logged(s: State) {
    Replay(s.log) == Legal(Contents(s.heap, s.chain))
  }

  /** The stack in memory is the abstract stack of the operations so far. */
  ghost predicate Refines(s: State) {
    Spelled(s) && Logged(s)
  }

  // ---- Invariant

  function PushOwing(pc: Pc): nat { if pc.PushInc? then 1 else 0 }
  function PopOwing(pc: Pc): nat { if pc.PopDec? then 1 else 0 }

  /** m_size counts the linked nodes, up to the operations between their CAS and their counting. */
  ghost predicate SizeExact(s: State) {
    s.size == |s.chain| - Sum(s.pcs, PushOwing) + Sum(s.pcs, PopOwing)
  }

  ghost predicate ChainInv(s: State) {
    && (forall i, j :: 0 <= i < j < |s.chain| ==> s.chain[i].addr != s.chain[j].addr)
    && (forall i :: 0 <= i < |s.chain| ==> Live(s, s.chain[i]))
    && (forall a :: a in s.born ==> s.born[a] <= s.allocCnt)
  }

  ghost predicate HoldsFresh(s: State, t: nat, node: Ptr, d: int) {
    && node.addr != 0 && node.addr in s.heap && HolderOf(s, node.addr) == Counted(t)
    && node.addr in s.born && s.born[node.addr] == node.tag
    && s.heap[node.addr].data == d
  }

  /** A captured top: a count given to its address later was given out after the capture. */
  ghost predicate Captured(s: State, cap: Seen) {
    && cap.addr != 0 && cap.addr in s.heap && cap.addr in s.born
    && cap.tag <= cap.at <= s.allocCnt
    && (s.born[cap.addr] == cap.tag || s.born[cap.addr] > cap.at)
    && (HolderOf(s, cap.addr).Counted? ==> s.born[cap.addr] != cap.tag)
  }

  /** The very push that `cap` names is still in the list. */
  ghost predicate Live(s: State, cap: Ptr) {
    HolderOf(s, cap.addr) == Listed && cap.addr in s.born && s.born[cap.addr] == cap.tag
  }

  ghost predicate Removed(s: State, t: nat, cap: Seen, d: int) {
    cap.addr != 0 && cap.addr in s.heap && HolderOf(s, cap.addr) == Held(t) && s.heap[cap.addr].data == d
  }

  ghost predicate ThreadInv(s: State, t: nat)
    requires t < |s.pcs|
  {
    match s.pcs[t]
    case Idle => true
    case PushCount(a, d) => a != 0 && a in s.heap && HolderOf(s, a) == Held(t) && s.heap[a].data == d
    case PushRead(node, d) => HoldsFresh(s, t, node, d)
    case PushLink(node, d, _) => HoldsFresh(s, t, node, d)
    case PushCas(node, d, seen) => HoldsFresh(s, t, node, d) && s.heap[node.addr].next == seen
    case PushInc => true
    case PopRead => true
    case PopNext(cap) => Captured(s, cap)
    case PopCas(cap, new_) =>
      Captured(s, cap) && (Live(s, cap.Pointer()) ==> new_ == s.heap[cap.addr].next)
    case PopDec(cap, d) => Removed(s, t, cap, d)
    case PopData(cap, d) => Removed(s, t, cap, d)
    case PopFree(cap, d, out) => Removed(s, t, cap, d) && out == d
  }

  ghost predicate ListInv(s: State) {
    Spelled(s) && ChainInv(s)
  }

  ghost predicate Inv(s: State) {
    && ListInv(s)
    && Logged(s)
    && SizeExact(s)
    && (forall t :: 0 <= t < |s.pcs| ==> ThreadInv(s, t))
  }
}
