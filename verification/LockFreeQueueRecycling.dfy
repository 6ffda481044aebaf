/**
 Why the link CAS needs its guard: the empty marker carries no count, so a stale link CAS does
 not see that its node was dequeued, freed and allocated again.
 */
module QueueRecycling {
  import opened TaggedPointer
  import opened QueueSpec
  import opened QueueProof
  import opened QueueRuns

  /** A run from `start` without foreign writes, whose Alloc calls return only `nodes`. */
  datatype Walk = Walk(start: State, linkGuard: bool, nodes: set<nat>)

  predicate Own(act: Action, nodes: set<nat>) {
    !act.Foreign? && (act.CallEnqueue? ==> act.a in nodes)
  }

  ghost predicate WalkTo(w: Walk, acts: seq<Action>, s: State) {
    Run(w.start, acts, Tagged(w.linkGuard), s) && forall i :: 0 <= i < |acts| ==> Own(acts[i], w.nodes)
  }

  ghost predicate Gets(w: Walk, s: State) {
    exists acts :: WalkTo(w, acts, s)
  }

  lemma Begins(w: Walk)
    ensures Gets(w, w.start)
  {
    assert WalkTo(w, [], w.start);
  }

  lemma Take(w: Walk, s: State, act: Action)
    requires Gets(w, s) && Enabled(s, act) && Permitted(s, act, Tagged(w.linkGuard)) && Own(act, w.nodes)
    ensures Gets(w, Next(s, act))
  {
    hide Next, Enabled, Permitted, Run, Own;
    var acts :| WalkTo(w, acts, s);
    RunAppend(w.start, acts, Tagged(w.linkGuard), s, act);
    assert WalkTo(w, acts + [act], Next(s, act));
  }

  /** One instruction inside the tag window. */
  lemma Go(w: Walk, s: State, t: nat, s': State)
    requires Gets(w, s) && t < |s.pcs| && !s.pcs[t].Idle? && Permitted(s, Resume(t), Tagged(w.linkGuard))
    requires s' == Instruction(s, t)
    ensures Gets(w, s')
  {
    hide Gets, Instruction;
    Take(w, s, Resume(t));
  }

  // ---- Calls that nobody disturbs

  /** Thread t holds a counted, marked node at `a` and is about to look for the tail. */
  function Prepared(s: State, t: nat, a: nat, d: int): State
    requires t < |s.pcs|
  {
    var n := s.allocCnt + 1;
    s.(pcs := s.pcs[t := EnqTail(Ptr(a, n), d)], heap := s.heap[a := Node(Marker(s.identifier), d)],
       holder := s.holder[a := Counted(t)], born := s.born[a := n], allocCnt := n)
  }

  lemma Prepare(w: Walk, s: State, t: nat, a: nat, d: int)
    requires Gets(w, s) && Enabled(s, CallEnqueue(t, a, d)) && a in w.nodes
    ensures Gets(w, Prepared(s, t, a, d))
  {
    hide Gets;
    Take(w, s, CallEnqueue(t, a, d));
    var s1 := Next(s, CallEnqueue(t, a, d));
    var s2 := Goto(s, t, EnqCount(a, d)).(heap := s.heap[a := Node(NULL, d)], holder := s.holder[a := Fresh(t)]);
    assert s1.pcs[t] == EnqNull(a, d);
    Go(w, s1, t, s2);
    PrepareCounted(w, s, s2, t, a, d);
  }

  lemma PrepareCounted(w: Walk, s: State, s2: State, t: nat, a: nat, d: int)
    requires t < |s.pcs| && Gets(w, s2)
    requires s2 == Goto(s, t, EnqCount(a, d)).(heap := s.heap[a := Node(NULL, d)], holder := s.holder[a := Fresh(t)])
    ensures Gets(w, Prepared(s, t, a, d))
  {
    hide Gets;
    var n := s.allocCnt + 1;
    var s3 := Goto(s, t, EnqMark(Ptr(a, n), d)).(
      heap := s2.heap, holder := s.holder[a := Counted(t)], born := s.born[a := n], allocCnt := n);
    Go(w, s2, t, s3);
    PrepareMarked(w, s, s3, t, a, d);
  }

  lemma PrepareMarked(w: Walk, s: State, s3: State, t: nat, a: nat, d: int)
    requires t < |s.pcs| && Gets(w, s3)
    requires var n := s.allocCnt + 1;
             s3 == Goto(s, t, EnqMark(Ptr(a, n), d)).(
               heap := s.heap[a := Node(NULL, d)], holder := s.holder[a := Counted(t)],
               born := s.born[a := n], allocCnt := n)
    ensures Gets(w, Prepared(s, t, a, d))
  {
    hide Gets;
    assert s3.pcs[t] == EnqMark(Ptr(a, s.allocCnt + 1), d);
    Go(w, s3, t, Prepared(s, t, a, d));
  }

  /** A linked node as a thread reads it now. */
  function SeenAt(s: State, i: nat): Seen
    requires i < |s.chain|
  {
    Seen(s.chain[i].addr, s.chain[i].tag, s.allocCnt)
  }

  /** The tail is the last node and thread t is about to look for it. */
  ghost predicate AtTail(s: State, t: nat) {
    && t < |s.pcs| && s.pcs[t].EnqTail?
    && s.chain != [] && s.ti == |s.chain| - 1 && s.tail == Cut(s.chain[s.ti])
    && s.chain[s.ti].tag <= s.allocCnt
    && NodeAt(s, s.chain[s.ti].addr).next.addr == 0 && HolderOf(s, s.chain[s.ti].addr).Listed?
  }

  function Linking(s: State, t: nat): State
    requires AtTail(s, t)
  {
    var cap := SeenAt(s, s.ti);
    Goto(s, t, EnqLink(s.pcs[t].node, s.pcs[t].d, cap, NodeAt(s, cap.addr).next))
  }

  lemma FindTail(w: Walk, s: State, t: nat)
    requires Gets(w, s) && AtTail(s, t)
    ensures Gets(w, Linking(s, t))
  {
    hide Gets;
    var s1 := Goto(s, t, EnqNext(s.pcs[t].node, s.pcs[t].d, SeenAt(s, s.ti)));
    Go(w, s, t, s1);
    Go(w, s1, t, Linking(s, t));
  }

  function Appended(s: State, t: nat): State
    requires AtTail(s, t)
  {
    var node, a := s.pcs[t].node, s.chain[s.ti].addr;
    s.(pcs := s.pcs[t := Idle], tail := Cut(node), ti := s.ti + 1, chain := s.chain + [node], size := s.size + 1,
       heap := s.heap[a := Node(Cut(node), NodeAt(s, a).data)], holder := s.holder[node.addr := Listed],
       enqs := s.enqs + [s.pcs[t].d])
  }

  lemma Append(w: Walk, s: State, t: nat)
    requires Gets(w, s) && AtTail(s, t)
    ensures Gets(w, Appended(s, t))
  {
    hide Gets;
    FindTail(w, s, t);
    var s2 := Linking(s, t);
    var done := Appended(s, t);
    var s3 := done.(pcs := s.pcs[t := EnqSwing(s.pcs[t].node, SeenAt(s, s.ti))], tail := s.tail, ti := s.ti,
        size := s.size);
    Go(w, s2, t, s3);
    var s4 := done.(pcs := s.pcs[t := EnqInc], size := s.size);
    Go(w, s3, t, s4);
    Go(w, s4, t, done);
  }

  function Dequeued(s: State, t: nat): State
    requires |s.chain| > 1 && s.ti > 0
  {
    var h := s.chain[0];
    s.(head := Cut(s.chain[1]), chain := s.chain[1..], ti := s.ti - 1, size := s.size - 1,
       holder := s.holder[h.addr := Outside], deqs := s.deqs + [NodeAt(s, s.chain[1].addr).data])
  }

  ghost predicate CanDequeue(s: State, t: nat) {
    && t < |s.pcs| && s.pcs[t] == Idle && s.size > 0 && |s.chain| > 1 && 0 < s.ti < |s.chain|
    && s.head == Cut(s.chain[0]) && s.tail == Cut(s.chain[s.ti]) && s.head != s.tail
    && s.chain[1].addr != 0 && NodeAt(s, s.chain[0].addr).next == Cut(s.chain[1])
    && s.chain[0].tag <= s.allocCnt
  }

  function HeadRead(s: State, t: nat): State
    requires CanDequeue(s, t)
  {
    Goto(s, t, DeqData(SeenAt(s, 0), Cut(s.chain[1]))).(size := s.size - 1)
  }

  lemma ReadHead(w: Walk, s: State, t: nat)
    requires Gets(w, s) && CanDequeue(s, t)
    ensures Gets(w, HeadRead(s, t))
  {
    hide Gets;
    Take(w, s, CallDequeue(t));
    var s1 := Goto(s, t, DeqDec);
    var s2 := Goto(s, t, DeqHead).(size := s.size - 1);
    Go(w, s1, t, s2);
    var s3 := Goto(s, t, DeqTail(SeenAt(s, 0))).(size := s.size - 1);
    Go(w, s2, t, s3);
    ReadTail(w, s, t, s3);
  }

  lemma ReadTail(w: Walk, s: State, t: nat, s3: State)
    requires CanDequeue(s, t) && Gets(w, s3)
    requires s3 == Goto(s, t, DeqTail(SeenAt(s, 0))).(size := s.size - 1)
    ensures Gets(w, HeadRead(s, t))
  {
    hide Gets;
    var s4 := Goto(s, t, DeqNext(SeenAt(s, 0), SeenAt(s, s.ti))).(size := s.size - 1);
    Go(w, s3, t, s4);
    Go(w, s4, t, HeadRead(s, t));
  }

  /** The state just after the head CAS. */
  function HeadMoved(s: State, t: nat): State
    requires CanDequeue(s, t)
  {
    var h := s.chain[0];
    Dequeued(s, t).(pcs := s.pcs[t := DeqFree(h.addr, NodeAt(s, s.chain[1].addr).data)],
        holder := s.holder[h.addr := Retired(t)])
  }

  lemma MoveHead(w: Walk, s: State, t: nat)
    requires Gets(w, s) && CanDequeue(s, t)
    ensures Gets(w, HeadMoved(s, t))
  {
    hide Gets;
    ReadHead(w, s, t);
    var s6 := Goto(s, t, DeqCas(SeenAt(s, 0), Cut(s.chain[1]), NodeAt(s, s.chain[1].addr).data)).(size := s.size - 1);
    Go(w, HeadRead(s, t), t, s6);
    Go(w, s6, t, HeadMoved(s, t));
  }

  lemma Dequeue(w: Walk, s: State, t: nat)
    requires Gets(w, s) && CanDequeue(s, t)
    ensures Gets(w, Dequeued(s, t))
  {
    hide Gets;
    MoveHead(w, s, t);
    assert s.pcs[t := Idle] == s.pcs;
    Go(w, HeadMoved(s, t), t, Dequeued(s, t));
  }

  // ---- The run

  const MARK: Ptr := Marker(1)

  /** Node 2 as thread 0 reads it. */
  const OLD: Seen := Seen(2, 1, 2)

  /** Thread 0 has captured node 2 as the tail, and then read its empty marker. */
  const READING: Pc := EnqNext(Ptr(4, 2), 40, OLD)
  const LINKING: Pc := EnqLink(Ptr(4, 2), 40, OLD, MARK)

  /** Thread 0 stands at `pc`, the queue holds one element in node 2, and node 3 is free. */
  ghost predicate Stalled(s: State, pc: Pc) {
    && s.pcs == [pc, Idle]
    && s.identifier == 1 && s.allocCnt == 2 && s.size == 1
    && s.chain == [Ptr(1, 0), Ptr(2, 1)] && s.ti == 1 && s.head == Ptr(1, 0) && s.tail == Ptr(2, 1)
    && s.heap.Keys == {1, 2, 3, 4, 5} && s.heap[1].next == Ptr(2, 1) && s.heap[2].next == MARK
    && HolderOf(s, 2) == Listed && HolderOf(s, 3) == Outside
    && s.heap[5].next == NULL && HolderOf(s, 5) == Outside
  }

  /** A queue with dummy 1, identifier 1 and two threads; nodes 2 to 4 are free for it. */
  function Story(linkGuard: bool): Walk {
    Walk(Init(HEAP, 1, 1, 2), linkGuard, {2, 3, 4})
  }

  const HEAP: map<nat, Node> := map a: nat | 1 <= a <= 5 :: Node(NULL, 0)

  lemma GetsReachable(linkGuard: bool, s: State)
    requires Gets(Story(linkGuard), s)
    ensures Reachable(Tagged(linkGuard), s)
  {
    hide Run;
    var acts :| WalkTo(Story(linkGuard), acts, s);
    assert 1 in HEAP;
  }

  lemma ReachOne(w: Walk) returns (s: State)
    requires w == Story(w.linkGuard)
    ensures Gets(w, s)
    ensures s.pcs == [Idle, Idle] && s.identifier == 1 && s.allocCnt == 1 && s.size == 1
    ensures s.chain == [Ptr(1, 0), Ptr(2, 1)] && s.ti == 1 && s.head == Ptr(1, 0) && s.tail == Ptr(2, 1)
    ensures s.heap.Keys == {1, 2, 3, 4, 5} && s.heap[1].next == Ptr(2, 1) && s.heap[2].next == MARK
    ensures HolderOf(s, 2) == Listed && HolderOf(s, 3) == Outside && HolderOf(s, 4) == Outside
    ensures s.heap[5].next == NULL && HolderOf(s, 5) == Outside
  {
    Begins(w);
    hide Gets;
    var s0 := w.start;
    assert s0.pcs == [Idle, Idle];
    Prepare(w, s0, 1, 2, 20);
    var s1 := Prepared(s0, 1, 2, 20);
    Append(w, s1, 1);
    s := Appended(s1, 1);
  }

  lemma ReachReading(w: Walk) returns (s: State)
    requires w == Story(w.linkGuard)
    ensures Gets(w, s) && Stalled(s, READING)
  {
    hide Gets;
    var s2 := ReachOne(w);
    Prepare(w, s2, 0, 4, 40);
    var s3 := Prepared(s2, 0, 4, 40);
    s := Goto(s3, 0, READING);
    Go(w, s3, 0, s);
  }

  lemma ReachLinking(w: Walk) returns (s: State)
    requires w == Story(w.linkGuard)
    ensures Gets(w, s) && Stalled(s, LINKING)
  {
    hide Gets;
    var s1 := ReachReading(w);
    s := Goto(s1, 0, LINKING);
    Go(w, s1, 0, s);
  }

  /** Meanwhile thread 1 has emptied the queue and taken node 2 for a new Enqueue, not yet linked. */
  ghost predicate Recycled(s: State) {
    && s.pcs == [LINKING, EnqTail(Ptr(2, 4), 50)]
    && s.allocCnt == 4 && s.size == 0
    && s.chain == [Ptr(3, 3)] && s.ti == 0 && s.head == Ptr(3, 3) && s.tail == Ptr(3, 3)
    && HolderOf(s, 3) == Listed && HolderOf(s, 2) == Counted(1) && s.identifier == 1
    && s.heap.Keys == {1, 2, 3, 4, 5} && s.heap[3].next == MARK && s.heap[2].next == MARK
  }

  lemma AppendThird(w: Walk, s: State, pc: Pc) returns (r: State)
    requires Gets(w, s) && w.nodes == {2, 3, 4} && Stalled(s, pc)
    ensures Gets(w, r)
    ensures r.pcs == s.pcs && r.identifier == 1 && r.allocCnt == 3 && r.size == 2
    ensures r.chain == [Ptr(1, 0), Ptr(2, 1), Ptr(3, 3)] && r.ti == 2 && r.head == Ptr(1, 0) && r.tail == Ptr(3, 3)
    ensures r.heap.Keys == {1, 2, 3, 4, 5} && HolderOf(r, 3) == Listed
    ensures r.heap[1].next == Ptr(2, 1) && r.heap[2].next == Ptr(3, 3) && r.heap[3].next == MARK
    ensures r.heap[5].next == NULL && HolderOf(r, 5) == Outside
  {
    hide Gets;
    Prepare(w, s, 1, 3, 30);
    var s1 := Prepared(s, 1, 3, 30);
    Append(w, s1, 1);
    r := Appended(s1, 1);
  }

  /** Thread 1 has linked node 3 and dequeued twice: nodes 1 and 2 are out, node 3 is the dummy. */
  lemma Emptied(w: Walk, s: State, pc: Pc) returns (r: State)
    requires Gets(w, s) && w.nodes == {2, 3, 4} && Stalled(s, pc)
    ensures Gets(w, r) && r.pcs == s.pcs && r.identifier == 1 && r.allocCnt == 3 && r.size == 0
    ensures r.chain == [Ptr(3, 3)] && r.ti == 0 && r.head == Ptr(3, 3) && r.tail == Ptr(3, 3)
    ensures r.heap.Keys == {1, 2, 3, 4, 5} && r.heap[3].next == MARK
    ensures HolderOf(r, 3) == Listed && HolderOf(r, 2) == Outside
    ensures r.heap[5].next == NULL && HolderOf(r, 5) == Outside
  {
    hide Gets;
    var s1 := AppendThird(w, s, pc);
    Dequeue(w, s1, 1);
    var s2 := Dequeued(s1, 1);
    Dequeue(w, s2, 1);
    r := Dequeued(s2, 1);
  }

  lemma ReachRecycled(w: Walk) returns (r: State)
    requires w == Story(w.linkGuard)
    ensures Gets(w, r) && Recycled(r)
  {
    hide Gets;
    var s := ReachLinking(w);
    var s3 := Emptied(w, s, LINKING);
    Prepare(w, s3, 1, 2, 50);
    r := Prepared(s3, 1, 2, 50);
  }

  /**
   Thread 0's Enqueue(40) returns and m_size says one element, but from m_head nothing is
   linked: the next Dequeue passes its size check and finds the list empty.
   */
  lemma UnguardedLinkLosesElement() returns (s: State)
    ensures Reachable(Tagged(false), s) && !Spelled(s)
    ensures s.pcs[..] == [Idle, EnqTail(Ptr(2, 4), 50)]
    ensures s.size == 1 && NodeAt(s, s.head.addr).next.addr == 0
    ensures s.enqs != [] && s.enqs[|s.enqs| - 1] == 40
  {
    hide Gets;
    var w := Story(false);
    var r := ReachRecycled(w);
    var s1 := Instruction(r, 0);
    Go(w, r, 0, s1);
    assert !LinkOk(s1, 0);
    s := FinishLost(s1);
  }

  lemma FinishLost(s1: State) returns (s: State)
    requires Gets(Story(false), s1) && s1.pcs == [EnqSwing(Ptr(4, 2), OLD), EnqTail(Ptr(2, 4), 50)]
    requires s1.chain == [Ptr(3, 3), Ptr(4, 2)] && s1.tail == s1.head == Ptr(3, 3) && s1.size == 0
    requires 3 in s1.heap && s1.heap[3].next == MARK && !LinkOk(s1, 0)
    ensures Reachable(Tagged(false), s) && !Spelled(s)
    ensures s.pcs == [Idle, EnqTail(Ptr(2, 4), 50)] && s.size == 1 && s.enqs == s1.enqs
    ensures NodeAt(s, s.head.addr).next.addr == 0
  {
    hide Gets;
    var w := Story(false);
    var s2 := Goto(s1, 0, EnqInc);
    Go(w, s1, 0, s2);
    s := Goto(s1, 0, Idle).(size := 1);
    Go(w, s2, 0, s);
    GetsReachable(false, s);
    assert !LinkOk(s, 0);
  }

  /** So the guard cannot be dropped: the tag window alone does not keep the queue in order. */
  lemma GuardIsNeeded()
    ensures forall s :: Reachable(Tagged(true), s) ==> Spelled(s) && Fifo(s)
    ensures exists s :: Reachable(Tagged(false), s) && !Spelled(s)
  {
    forall s | Reachable(Tagged(true), s)
      ensures Spelled(s) && Fifo(s)
    {
      EveryRunIsFifo(s);
    }
    var s := UnguardedLinkLosesElement();
  }

  /**
   Even guarded, a link CAS that captured a node in an earlier incarnation can leave m_tail two
   nodes behind: thread 1 links node 2 again, and thread 0's stale CAS links behind it, before
   anyone moves m_tail. The list is in order.
   */
  lemma TailTwoBehind() returns (s: State)
    ensures Reachable(Tagged(true), s) && Spelled(s) && Fifo(s)
    ensures |s.chain| == 3 && s.tail == Cut(s.chain[0])
  {
    var w := Story(true);
    var r := ReachRecycled(w);
    hide Gets;
    FindTail(w, r, 1);
    var s1 := Linking(r, 1);
    assert s1.pcs[1] == EnqLink(Ptr(2, 4), 50, Seen(3, 3, 4), MARK);
    var s2 := Instruction(s1, 1);
    Go(w, s1, 1, s2);
    s := LinkBehind(s2);
  }

  lemma LinkBehind(s2: State) returns (s: State)
    requires Gets(Story(true), s2) && |s2.pcs| == 2 && s2.pcs[0] == LINKING
    requires s2.chain == [Ptr(3, 3), Ptr(2, 4)] && s2.tail == Ptr(3, 3)
    requires NodeAt(s2, 2).next == MARK && HolderOf(s2, 2) == Listed
    ensures Reachable(Tagged(true), s) && Spelled(s) && Fifo(s)
    ensures |s.chain| == 3 && s.tail == Cut(s.chain[0])
  {
    hide Gets;
    s := Instruction(s2, 0);
    Go(Story(true), s2, 0, s);
    GetsReachable(true, s);
    EveryRunIsFifo(s);
  }
}
