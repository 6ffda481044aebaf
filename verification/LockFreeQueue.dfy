/**
 The tagged Michael-Scott queue of Utils/LockFreeQueue.h as a machine of atomic steps.

 Any number of threads, scheduled arbitrarily, run `Enqueue` and `Dequeue` on one queue.
 Nodes come from a pool shared with other queues: an address this queue does not hold may
 be overwritten at any moment and may be handed out by the next Alloc.
 */
module QueueSpec {
  import opened TaggedPointer
  import opened Sums

  datatype Node = Node(next: Ptr, data: int)

  /** Who holds an address. A node is `Fresh`, then `Counted`, then `Listed`, then `Retired`. */
  datatype Holder = Outside | Fresh(t: nat) | Counted(t: nat) | Listed | Retired(t: nat)

  /** Where a thread stands; the comment gives the line of the next instruction. */
  datatype Pc =
    | Idle
    | EnqNull(a: nat, d: int)                             // 24: next = nullptr
    | EnqCount(a: nat, d: int)                            // 30: GetCountByQueue
    | EnqMark(node: Ptr, d: int)                          // 31: next = SetCount(0, identifier)
    | EnqTail(node: Ptr, d: int)                          // 35: tailCap = m_tail
    | EnqNext(node: Ptr, d: int, cap: Seen)               // 37: nextCap = tailCapAdr->next
    | EnqHelp(node: Ptr, d: int, cap: Seen, next: Ptr)    // 42: CAS on m_tail
    | EnqLink(node: Ptr, d: int, cap: Seen, next: Ptr)    // 46: CAS on tailCapAdr->next
    | EnqSwing(node: Ptr, cap: Seen)                      // 52: CAS on m_tail
    | EnqInc                                              // 53: m_size++
    | DeqDec                                              // 58: m_size--
    | DeqUndo                                             // 61: m_size++, then return -1
    | DeqHead                                             // 72: headCap = m_head
    | DeqTail(hcap: Seen)                                 // 73: tailCap = m_tail
    | DeqNext(hcap: Seen, cap: Seen)                      // 75: nextCap = headCapAdr->next
    | DeqHelp(cap: Seen, next: Ptr)                       // 85: CAS on m_tail
    | DeqData(hcap: Seen, next: Ptr)                      // 89: t = nextCapAdr->data
    | DeqCas(hcap: Seen, next: Ptr, out: int)             // 90: CAS on m_head
    | DeqFree(a: nat, out: int)                           // 92: Free, then return 0 with `out`

  /**
   `head`, `tail` and every `next` are words. `chain` (the dummy first), `ti` (the place of the
   tail in it), `holder`, `born`, `enqs` and `deqs` are history: the list as the successful
   CASes built it, who holds each address, the last count given to it, the values enqueued in
   the order of their link CAS and the values dequeued in the order of their head CAS.
   */
  datatype State = State(
    head: Ptr, tail: Ptr, size: int, allocCnt: nat, identifier: nat, heap: map<nat, Node>, pcs: seq<Pc>,
    chain: seq<Ptr>, ti: nat, holder: map<nat, Holder>, born: map<nat, nat>, enqs: seq<int>, deqs: seq<int>)

  datatype Action =
    | CallEnqueue(t: nat, a: nat, d: int)  // Alloc returned a; data is written
    | CallDequeue(t: nat)
    | Resume(t: nat)                       // the next instruction of thread t
    | Foreign(a: nat, node: Node)          // whoever else holds address a writes to it

  /** The word in the `next` field of a node without successor. */
  function Marker(identifier: nat): Ptr {
    Cut(Ptr(0, identifier))
  }

  function HolderOf(s: State, a: nat): Holder {
    if a in s.holder then s.holder[a] else Outside
  }

  function NodeAt(s: State, a: nat): Node {
    if a in s.heap then s.heap[a] else Node(NULL, 0)
  }

  /** Other users of the pool never write this queue's empty marker (see `WritesNoOtherMarker`). */
  predicate Enabled(s: State, act: Action) {
    match act
    case CallEnqueue(t, a, _) => t < |s.pcs| && s.pcs[t].Idle? && a != 0 && a in s.heap && HolderOf(s, a).Outside?
    case CallDequeue(t) => t < |s.pcs| && s.pcs[t].Idle?
    case Resume(t) => t < |s.pcs| && !s.pcs[t].Idle?
    case Foreign(a, node) => a in s.heap && HolderOf(s, a).Outside? && node.next != Marker(s.identifier)
  }

  /** A word read from m_head or m_tail, with the full count of the enqueue it belongs to. */
  function Recognize(s: State, word: Ptr, i: nat): Seen {
    var p := if i < |s.chain| && Cut(s.chain[i]) == word then s.chain[i] else word;
    Seen(p.addr, p.tag, s.allocCnt)
  }

  function Goto(s: State, t: nat, pc: Pc): State
    requires t < |s.pcs|
  {
    s.(pcs := s.pcs[t := pc])
  }

  function SetNext(s: State, a: nat, next: Ptr): State {
    s.(heap := s.heap[a := NodeAt(s, a).(next := next)])
  }

  /** The three helping CASes on m_tail; the thread goes on at `pc` either way. */
  function TailCas(s: State, t: nat, cap: Seen, next: Ptr, pc: Pc): State
    requires t < |s.pcs|
  {
    if s.tail == Cut(cap.Pointer()) then Goto(s, t, pc).(tail := next, ti := s.ti + 1) else Goto(s, t, pc)
  }

  function Next(s: State, act: Action): State
    requires Enabled(s, act)
  {
    match act
    case CallEnqueue(t, a, d) =>
      Goto(s, t, EnqNull(a, d)).(heap := s.heap[a := s.heap[a].(data := d)], holder := s.holder[a := Fresh(t)])
    case CallDequeue(t) => Goto(s, t, DeqDec)
    case Foreign(a, node) => s.(heap := s.heap[a := node])
    case Resume(t) => Instruction(s, t)
  }

  function Instruction(s: State, t: nat): State
    requires t < |s.pcs|
  {
    match s.pcs[t]
    case Idle => s
    case EnqNull(a, d) => SetNext(Goto(s, t, EnqCount(a, d)), a, NULL)
    case EnqCount(a, d) =>
      var n := s.allocCnt + 1;
      Goto(s, t, EnqMark(Ptr(a, n), d)).(allocCnt := n, born := s.born[a := n], holder := s.holder[a := Counted(t)])
    case EnqMark(node, d) => SetNext(Goto(s, t, EnqTail(node, d)), node.addr, Marker(s.identifier))
    case EnqTail(node, d) => Goto(s, t, EnqNext(node, d, Recognize(s, s.tail, s.ti)))
    case EnqNext(node, d, cap) =>
      var next := NodeAt(s, cap.addr).next;
      Goto(s, t, if next.addr != 0 then EnqHelp(node, d, cap, next) else EnqLink(node, d, cap, next))
    case EnqHelp(node, d, cap, next) => TailCas(s, t, cap, next, EnqTail(node, d))
    case EnqLink(node, d, cap, next) =>
      if NodeAt(s, cap.addr).next == next then
        SetNext(Goto(s, t, EnqSwing(node, cap)), cap.addr, Cut(node)).(
          chain := s.chain + [node], holder := s.holder[node.addr := Listed], enqs := s.enqs + [d])
      else Goto(s, t, EnqTail(node, d))
    case EnqSwing(node, cap) => TailCas(s, t, cap, Cut(node), EnqInc)
    case EnqInc => Goto(s, t, Idle).(size := s.size + 1)
    case DeqDec => Goto(s, t, if s.size - 1 < 0 then DeqUndo else DeqHead).(size := s.size - 1)
    case DeqUndo => Goto(s, t, Idle).(size := s.size + 1)
    case DeqHead => Goto(s, t, DeqTail(Recognize(s, s.head, 0)))
    case DeqTail(hcap) => Goto(s, t, DeqNext(hcap, Recognize(s, s.tail, s.ti)))
    case DeqNext(hcap, cap) =>
      var next := NodeAt(s, hcap.addr).next;
      Goto(s, t,
        if next.addr == 0 then DeqHead
        else if Cut(hcap.Pointer()) == Cut(cap.Pointer()) then DeqHelp(cap, next)
        else DeqData(hcap, next))
    case DeqHelp(cap, next) => TailCas(s, t, cap, next, DeqHead)
    case DeqData(hcap, next) => Goto(s, t, DeqCas(hcap, next, NodeAt(s, next.addr).data))
    case DeqCas(hcap, next, out) =>
      if s.head == Cut(hcap.Pointer()) then
        Goto(s, t, DeqFree(hcap.addr, out)).(
          head := next, chain := if s.chain == [] then [] else s.chain[1..], ti := if s.ti == 0 then 0 else s.ti - 1,
          holder := s.holder[hcap.addr := Retired(t)], deqs := s.deqs + [out])
      else Goto(s, t, DeqHead)
    case DeqFree(a, _) => Goto(s, t, Idle).(holder := s.holder[a := Outside])
  }

  /** The constructor: one dummy node at `dummy`, untagged, with an untagged null behind it. */
  function Init(heap: map<nat, Node>, dummy: nat, identifier: nat, threads: nat): State
    requires dummy in heap
  {
    State(Ptr(dummy, 0), Ptr(dummy, 0), 0, 0, identifier, heap[dummy := heap[dummy].(next := NULL)],
          seq(threads, _ => Idle), [Ptr(dummy, 0)], 0, map[dummy := Listed], map[dummy := 0], [], [])
  }

  // ---- The abstract queue

  function Values(heap: map<nat, Node>, chain: seq<Ptr>): (items: seq<int>)
    ensures |items| == |chain|
  {
    seq(|chain|, i requires 0 <= i < |chain| => if chain[i].addr in heap then heap[chain[i].addr].data else 0)
  }

  /** The words in memory spell `chain` from m_head to an empty marker, with m_tail inside. */
  ghost predicate Spelled(s: State) {
    && s.chain != [] && s.ti < |s.chain|
    && s.head == Cut(s.chain[0]) && s.tail == Cut(s.chain[s.ti])
    && (forall i :: 0 <= i < |s.chain| ==> LinkOk(s, i))
  }

  ghost predicate LinkOk(s: State, i: nat)
    requires i < |s.chain|
  {
    var a := s.chain[i].addr;
    && a != 0 && a in s.heap
    && (i + 1 < |s.chain| ==> s.heap[a].next == Cut(s.chain[i + 1]))
    && (i + 1 == |s.chain| ==> s.heap[a].next == NULL || s.heap[a].next == Marker(s.identifier))
  }

  /** First in, first out: what was dequeued, then what is still linked, is what was enqueued. */
  ghost predicate Fifo(s: State) {
    s.chain != [] && s.enqs == s.deqs + Values(s.heap, s.chain[1..])
  }

  // ---- Counting

  function Uncounted(pc: Pc): nat { if pc.EnqSwing? || pc.EnqInc? then 1 else 0 }
  function Unrestored(pc: Pc): nat { if pc.DeqUndo? then 1 else 0 }
  function Reserved(pc: Pc): nat {
    if pc.DeqHead? || pc.DeqTail? || pc.DeqNext? || pc.DeqHelp? || pc.DeqData? || pc.DeqCas? then 1 else 0
  }

  /**
   m_size is the number of linked elements, less the enqueues linked but not counted, the
   reservations not yet served and the refused reservations not yet taken back; and there is
   a linked element for every reservation.
   */
  ghost predicate SizeExact(s: State) {
    && s.size == |s.chain| - 1 - Sum(s.pcs, Uncounted) - Sum(s.pcs, Reserved) - Sum(s.pcs, Unrestored)
    && Sum(s.pcs, Reserved) <= |s.chain| - 1
  }

  // ---- Invariant

  ghost predicate InChain(s: State, a: nat) {
    exists i :: 0 <= i < |s.chain| && s.chain[i].addr == a
  }

  ghost predicate AddrInv(s: State, a: nat) {
    && (a in s.born ==> s.born[a] <= s.allocCnt)
    && (HolderOf(s, a).Retired? ==> NodeAt(s, a).next.addr != 0)
    && (HolderOf(s, a).Outside? && a in s.born ==> NodeAt(s, a).next != Marker(s.identifier))
    && (HolderOf(s, a).Listed? ==> InChain(s, a))
  }

  /** The very enqueue that `p` names is still in the list. */
  ghost predicate Live(s: State, p: Ptr) {
    HolderOf(s, p.addr) == Listed && p.addr in s.born && s.born[p.addr] == p.tag
  }

  ghost predicate ListInv(s: State) {
    && Spelled(s)
    && (forall i :: 0 <= i < |s.chain| ==> Live(s, s.chain[i]))
    && (forall i, j :: 0 <= i < j < |s.chain| ==> s.chain[i].addr != s.chain[j].addr)
    && (forall a: nat :: AddrInv(s, a))
  }

  /** A captured head or tail: a count given to its address later was given out after the capture. */
  ghost predicate Captured(s: State, p: Seen) {
    && p.addr != 0 && p.addr in s.heap && p.addr in s.born
    && p.tag <= p.at <= s.allocCnt
    && (s.born[p.addr] == p.tag || s.born[p.addr] > p.at)
    && (HolderOf(s, p.addr).Counted? ==> s.born[p.addr] != p.tag)
  }

  /** If the captured node is still linked, `next` is its successor. */
  ghost predicate Follows(s: State, p: Seen, next: Ptr) {
    Captured(s, p) && next.addr != 0 && (Live(s, p.Pointer()) ==> s.heap[p.addr].next == next)
  }

  /** If the captured head is still linked, it is still the head. */
  ghost predicate HeadCaptured(s: State, p: Seen) {
    Captured(s, p) && (Live(s, p.Pointer()) ==> s.chain != [] && s.chain[0] == p.Pointer())
  }

  ghost predicate Blank(s: State, t: nat, a: nat, d: int) {
    a != 0 && a in s.heap && HolderOf(s, a) == Fresh(t) && s.heap[a].data == d
  }

  ghost predicate Holds(s: State, t: nat, node: Ptr, d: int) {
    && node.addr != 0 && node.addr in s.heap && HolderOf(s, node.addr) == Counted(t)
    && node.addr in s.born && s.born[node.addr] == node.tag && s.heap[node.addr].data == d
  }

  ghost predicate Ready(s: State, t: nat, node: Ptr, d: int) {
    Holds(s, t, node, d) && s.heap[node.addr].next == Marker(s.identifier)
  }

  ghost predicate ThreadInv(s: State, t: nat)
    requires t < |s.pcs|
  {
    match s.pcs[t]
    case EnqNull(a, d) => Blank(s, t, a, d)
    case EnqCount(a, d) => Blank(s, t, a, d)
    case EnqMark(node, d) => Holds(s, t, node, d)
    case EnqTail(node, d) => Ready(s, t, node, d)
    case EnqNext(node, d, cap) => Ready(s, t, node, d) && Captured(s, cap)
    case EnqHelp(node, d, cap, next) => Ready(s, t, node, d) && Follows(s, cap, next)
    case EnqLink(node, d, cap, next) => Ready(s, t, node, d) && Captured(s, cap) && next.addr == 0
    case EnqSwing(node, cap) => Follows(s, cap, Cut(node))
    case DeqTail(hcap) => HeadCaptured(s, hcap)
    case DeqNext(hcap, cap) =>
      HeadCaptured(s, hcap) && Captured(s, cap) &&
          (Live(s, hcap.Pointer()) && s.ti == 0 ==> cap.Pointer() == hcap.Pointer())
    case DeqHelp(cap, next) => Follows(s, cap, next)
    case DeqData(hcap, next) => HeadCaptured(s, hcap) && Follows(s, hcap, next) &&
      (Live(s, hcap.Pointer()) ==> s.ti > 0)
    case DeqCas(hcap, next, out) =>
      && HeadCaptured(s, hcap) && Follows(s, hcap, next) && (Live(s, hcap.Pointer()) ==> s.ti > 0)
      && (Live(s, hcap.Pointer()) ==> next.addr in s.heap && s.heap[next.addr].data == out)
    case DeqFree(a, _) => a != 0 && a in s.heap && HolderOf(s, a) == Retired(t)
    case _ => true
  }

  ghost predicate Inv(s: State) {
    && ListInv(s)
    && Fifo(s)
    && SizeExact(s)
    && (forall t :: 0 <= t < |s.pcs| ==> ThreadInv(s, t))
  }
}
