/** An Enqueue or Dequeue that runs alone from any state, whatever the others left half done, comes to its end. */
module QueueSolo {
  import opened TaggedPointer
  import Sums
  import opened QueueSpec
  import opened QueueProof
  import opened QueueRuns

  /** `n` sound instructions of thread `t` lead from `s` to `s'`. */
  ghost predicate Alone(s: State, t: nat, n: nat, s': State)
    decreases n
  {
    if n == 0 then s' == s
    else t < |s.pcs| && !s.pcs[t].Idle? && Sound(s, t) && Alone(Instruction(s, t), t, n - 1, s')
  }

  lemma {:induction false} Joined(s: State, t: nat, n: nat, m: State, k: nat, s': State)
    requires Alone(s, t, n, m) && Alone(m, t, k, s')
    ensures Alone(s, t, n + k, s')
    decreases n
  {
    hide Instruction, Sound;
    if n > 0 { Joined(Instruction(s, t), t, n - 1, m, k, s'); }
  }

  /** One more instruction. */
  lemma Further(s: State, t: nat, n: nat, m: State, s': State)
    requires Alone(s, t, n, m) && t < |m.pcs| && !m.pcs[t].Idle? && Sound(m, t) && s' == Instruction(m, t)
    ensures Alone(s, t, n + 1, s')
  {
    hide Instruction, Sound;
    assert Alone(s', t, 0, s');
    assert Alone(m, t, 1, s');
    Joined(s, t, n, m, 1, s');
  }

  lemma StepInv(s: State, t: nat)
    requires Inv(s) && t < |s.pcs| && !s.pcs[t].Idle? && Sound(s, t)
    ensures Inv(Instruction(s, t))
  {
    StepKeepsInv(s, Resume(t));
  }

  // ---- Enqueue

  /** The tail as a thread reads it now. */
  function SeenTail(s: State): Seen
    requires s.ti < |s.chain|
  {
    Seen(s.chain[s.ti].addr, s.chain[s.ti].tag, s.allocCnt)
  }

  /** An Enqueue that finds the tail behind moves it on and comes back to where it was. */
  lemma TailMovedOn(s: State, t: nat) returns (s': State)
    requires Inv(s) && t < |s.pcs| && s.pcs[t].EnqTail? && s.ti + 1 < |s.chain|
    ensures Alone(s, t, 3, s') && Inv(s') && s' == s.(tail := s'.tail, ti := s.ti + 1)
  {
    var node, d, cap := s.pcs[t].node, s.pcs[t].d, SeenTail(s);
    assert LinkOk(s, s.ti) && LinkOk(s, s.ti + 1);
    var next := Cut(s.chain[s.ti + 1]);
    var s1 := Goto(s, t, EnqNext(node, d, cap));
    var s2 := Goto(s, t, EnqHelp(node, d, cap, next));
    s' := s.(tail := next, ti := s.ti + 1);
    HelpSteps(s, t, s1, s2, s', node, d, cap, next);
  }

  lemma HelpSteps(s: State, t: nat, s1: State, s2: State, s': State, node: Ptr, d: int, cap: Seen, next: Ptr)
    requires Inv(s) && t < |s.pcs| && s.pcs[t] == EnqTail(node, d)
    requires s.tail == Cut(cap.Pointer()) && cap == Recognize(s, s.tail, s.ti)
    requires NodeAt(s, cap.addr).next == next && next.addr != 0
    requires s1 == Goto(s, t, EnqNext(node, d, cap)) && s2 == Goto(s, t, EnqHelp(node, d, cap, next))
    requires s' == s.(tail := next, ti := s.ti + 1)
    ensures Alone(s, t, 3, s') && Inv(s')
  {
    assert s1 == Instruction(s, t) && s2 == Instruction(s1, t);
    assert s'.pcs == s2.pcs[t := EnqTail(node, d)];
    assert s' == Instruction(s2, t);
    hide Inv, Instruction;
    assert Alone(s, t, 0, s);
    Further(s, t, 0, s, s1);
    StepInv(s, t);
    Further(s, t, 1, s1, s2);
    StepInv(s1, t);
    Further(s, t, 2, s2, s');
    StepInv(s2, t);
  }

  /** It comes to its link CAS with the true end of the list. */
  lemma {:induction false} EndFound(s: State, t: nat) returns (n: nat, s': State)
    requires Inv(s) && t < |s.pcs| && s.pcs[t].EnqTail?
    ensures Alone(s, t, n, s') && Inv(s') && s' == s.(tail := s'.tail, ti := |s.chain| - 1)
    decreases |s.chain| - s.ti
  {
    assert s.ti < |s.chain|;
    hide Inv, Alone;
    Nothing(s, t);
    if s.ti + 1 < |s.chain| {
      var m := TailMovedOn(s, t);
      n, s' := EndFound(m, t);
      Joined(s, t, 3, m, n, s');
      n := 3 + n;
    } else {
      n, s' := 0, s;
    }
  }

  /** The state after an undisturbed Enqueue that stood before its loop, with the tail at the end of the list. */
  function Enqueued(s: State, t: nat): State
    requires t < |s.pcs| && s.pcs[t].EnqTail? && s.chain != []
  {
    var node, a := s.pcs[t].node, s.chain[|s.chain| - 1].addr;
    s.(pcs := s.pcs[t := Idle], tail := Cut(node), ti := |s.chain|, chain := s.chain + [node], size := s.size + 1,
       heap := s.heap[a := NodeAt(s, a).(next := Cut(node))], holder := s.holder[node.addr := Listed],
       enqs := s.enqs + [s.pcs[t].d])
  }

  ghost predicate AtEnd(s: State) {
    && s.chain != [] && s.ti + 1 == |s.chain| && s.tail == Cut(s.chain[s.ti])
    && NodeAt(s, s.chain[s.ti].addr).next.addr == 0 && HolderOf(s, s.chain[s.ti].addr).Listed?
  }

  lemma EndIs(s: State)
    requires Inv(s) && s.ti + 1 == |s.chain|
    ensures AtEnd(s)
  {
    assert LinkOk(s, s.ti) && Live(s, s.chain[s.ti]);
  }

  lemma LinkFromEnd(s: State, t: nat)
    requires Inv(s) && AtEnd(s) && t < |s.pcs| && s.pcs[t].EnqTail?
    ensures Alone(s, t, 5, Enqueued(s, t)) && Inv(Enqueued(s, t))
  {
    hide Inv;
    var node, d, cap := s.pcs[t].node, s.pcs[t].d, SeenTail(s);
    var next := NodeAt(s, cap.addr).next;
    var s1 := Goto(s, t, EnqNext(node, d, cap));
    var s2 := Goto(s, t, EnqLink(node, d, cap, next));
    assert s1 == Instruction(s, t) && s2 == Instruction(s1, t);
    hide Instruction, Alone;
    Nothing(s, t);
    Further(s, t, 0, s, s1);
    StepInv(s, t);
    Further(s, t, 1, s1, s2);
    StepInv(s1, t);
    LinkFrom(s, s2, t);
    Joined(s, t, 2, s2, 3, Enqueued(s, t));
  }

  lemma LinkFrom(s: State, s2: State, t: nat)
    requires Inv(s2) && AtEnd(s) && t < |s.pcs| && s.pcs[t].EnqTail?
    requires s2 == Goto(s, t, EnqLink(s.pcs[t].node, s.pcs[t].d, SeenTail(s), NodeAt(s, SeenTail(s).addr).next))
    ensures Alone(s2, t, 3, Enqueued(s, t)) && Inv(Enqueued(s, t))
  {
    hide Inv, Alone;
    var done := Enqueued(s, t);
    var swing := EnqSwing(s.pcs[t].node, SeenTail(s));
    var s3 := done.(pcs := s.pcs[t := swing], tail := s.tail, ti := s.ti, size := s.size);
    var s4 := done.(pcs := s.pcs[t := EnqInc], size := s.size);
    LinkSteps(s2, t, s3, s4, done);
    ThreeSteps(s2, t, s3, s4, done);
  }

  lemma ThreeSteps(s: State, t: nat, s1: State, s2: State, s3: State)
    requires Inv(s) && t < |s.pcs| && t < |s1.pcs| && t < |s2.pcs|
    requires !s.pcs[t].Idle? && !s1.pcs[t].Idle? && !s2.pcs[t].Idle?
    requires Sound(s, t) && s1 == Instruction(s, t) && Sound(s1, t) && s2 == Instruction(s1, t)
    requires Sound(s2, t) && s3 == Instruction(s2, t)
    ensures Alone(s, t, 3, s3) && Inv(s3)
  {
    hide Inv, Instruction, Alone, Sound;
    Nothing(s, t);
    Further(s, t, 0, s, s1);
    StepInv(s, t);
    Further(s, t, 1, s1, s2);
    StepInv(s1, t);
    Further(s, t, 2, s2, s3);
    StepInv(s2, t);
  }

  lemma LinkSteps(s2: State, t: nat, s3: State, s4: State, done: State)
    requires t < |s2.pcs| && s2.pcs[t].EnqLink? && s2.chain != [] && s2.ti == |s2.chain| - 1
    requires var cap, node, a := s2.pcs[t].cap, s2.pcs[t].node, s2.pcs[t].cap.addr;
             && s2.tail == Cut(cap.Pointer()) && a == s2.chain[s2.ti].addr && HolderOf(s2, a).Listed?
             && NodeAt(s2, a).next == s2.pcs[t].next
             && done == s2.(pcs := s2.pcs[t := Idle], tail := Cut(node), ti := |s2.chain|, chain := s2.chain + [node],
                  size := s2.size + 1, heap := s2.heap[a := NodeAt(s2, a).(next := Cut(node))],
                  holder := s2.holder[node.addr := Listed], enqs := s2.enqs + [s2.pcs[t].d])
             && s3 == done.(pcs := s2.pcs[t := EnqSwing(node, cap)], tail := s2.tail, ti := s2.ti, size := s2.size)
             && s4 == done.(pcs := s2.pcs[t := EnqInc], size := s2.size)
    ensures Sound(s2, t) && s3 == Instruction(s2, t) && Sound(s3, t) && s4 == Instruction(s3, t)
    ensures Sound(s4, t) && done == Instruction(s4, t)
  {
  }

  /**
   An Enqueue that comes to its loop and runs alone ends, with its value last in the queue and
   m_tail on its node, however far m_tail was behind.
   */
  lemma EnqueueEndsAlone(s: State, t: nat) returns (n: nat, s': State)
    requires Inv(s) && t < |s.pcs| && s.pcs[t].EnqTail?
    ensures Alone(s, t, n, s') && Inv(s') && s'.pcs == s.pcs[t := Idle]
    ensures s'.enqs == s.enqs + [s.pcs[t].d] && s'.deqs == s.deqs && s'.size == s.size + 1
    ensures s'.chain == s.chain + [s.pcs[t].node] && s'.tail == Cut(s.pcs[t].node) && s'.ti == |s'.chain| - 1
  {
    hide Inv, Alone;
    var m;
    n, m := EndFound(s, t);
    NotEmpty(m);
    EndIs(m);
    LinkFromEnd(m, t);
    s' := Enqueued(m, t);
    Joined(s, t, n, m, 5, s');
    n := n + 5;
  }

  lemma NotEmpty(s: State)
    requires Inv(s)
    ensures s.chain != []
  {
  }

  // ---- Dequeue

  /** Where the two ends are. */
  ghost predicate Ends(s: State) {
    && |s.chain| > 1 && s.ti < |s.chain| && s.head == Cut(s.chain[0]) && s.tail == Cut(s.chain[s.ti])
    && NodeAt(s, s.chain[0].addr).next == Cut(s.chain[1]) && s.chain[1].addr != 0
    && (s.ti > 0 ==> s.chain[0].addr != s.chain[s.ti].addr)
  }

  lemma EndsAre(s: State)
    requires Inv(s) && |s.chain| > 1
    ensures Ends(s)
  {
    assert LinkOk(s, 0) && LinkOk(s, 1);
  }

  function SeenHead(s: State): Seen
    requires s.chain != []
  {
    Seen(s.chain[0].addr, s.chain[0].tag, s.allocCnt)
  }

  /** Up to the place where the two ends are compared. */
  lemma EndsRead(s: State, t: nat, s2: State)
    requires Inv(s) && Ends(s) && t < |s.pcs| && s.pcs[t].DeqHead?
    requires s2 == Goto(s, t, DeqNext(SeenHead(s), SeenTail(s)))
    ensures Alone(s, t, 2, s2) && Inv(s2)
  {
    var s1 := Goto(s, t, DeqTail(SeenHead(s)));
    assert s1 == Instruction(s, t) && s2 == Instruction(s1, t);
    hide Inv, Instruction;
    Nothing(s, t);
    Further(s, t, 0, s, s1);
    StepInv(s, t);
    Further(s, t, 1, s1, s2);
    StepInv(s1, t);
  }

  /** A Dequeue that finds head and tail on the dummy moves the tail on and comes back to where it was. */
  lemma HeadUncovered(s: State, t: nat) returns (s': State)
    requires Inv(s) && Ends(s) && t < |s.pcs| && s.pcs[t].DeqHead? && s.ti == 0
    ensures Alone(s, t, 4, s') && Inv(s') && s' == s.(tail := s'.tail, ti := 1)
  {
    hide Inv;
    var next := Cut(s.chain[1]);
    var s2 := Goto(s, t, DeqNext(SeenHead(s), SeenTail(s)));
    EndsRead(s, t, s2);
    var s3 := Goto(s, t, DeqHelp(SeenTail(s), next));
    s' := s.(tail := next, ti := 1);
    assert s3 == Instruction(s2, t);
    assert s'.pcs == s3.pcs[t := DeqHead];
    assert Sound(s3, t) && s' == Instruction(s3, t);
    hide Instruction, Alone;
    Further(s, t, 2, s2, s3);
    StepInv(s2, t);
    Further(s, t, 3, s3, s');
    StepInv(s3, t);
  }

  function Dequeued(s: State, t: nat): State
    requires t < |s.pcs| && |s.chain| > 1 && s.ti > 0
  {
    s.(pcs := s.pcs[t := Idle], head := Cut(s.chain[1]), chain := s.chain[1..], ti := s.ti - 1,
       holder := s.holder[s.chain[0].addr := Outside], deqs := s.deqs + [NodeAt(s, s.chain[1].addr).data])
  }

  lemma HeadTaken(s: State, t: nat)
    requires Inv(s) && Ends(s) && t < |s.pcs| && s.pcs[t].DeqHead? && s.ti > 0
    ensures Alone(s, t, 6, Dequeued(s, t)) && Inv(Dequeued(s, t))
  {
    hide Inv;
    var next, out := Cut(s.chain[1]), NodeAt(s, s.chain[1].addr).data;
    var s2 := Goto(s, t, DeqNext(SeenHead(s), SeenTail(s)));
    EndsRead(s, t, s2);
    var s3 := Goto(s, t, DeqData(SeenHead(s), next));
    var s4 := Goto(s, t, DeqCas(SeenHead(s), next, out));
    assert s3 == Instruction(s2, t) && s4 == Instruction(s3, t);
    hide Instruction, Alone;
    Further(s, t, 2, s2, s3);
    StepInv(s2, t);
    Further(s, t, 3, s3, s4);
    StepInv(s3, t);
    TakeSteps(s, s4, t);
    Joined(s, t, 4, s4, 2, Dequeued(s, t));
  }

  lemma TakeSteps(s: State, s4: State, t: nat)
    requires Inv(s4) && Ends(s) && t < |s.pcs| && s.ti > 0
    requires s4 == Goto(s, t, DeqCas(SeenHead(s), Cut(s.chain[1]), NodeAt(s, s.chain[1].addr).data))
    ensures Alone(s4, t, 2, Dequeued(s, t)) && Inv(Dequeued(s, t))
  {
    hide Inv;
    var a, done := s.chain[0].addr, Dequeued(s, t);
    var s5 := done.(pcs := s.pcs[t := DeqFree(a, s4.pcs[t].out)], holder := s.holder[a := Retired(t)]);
    assert Sound(s4, t) && s5 == Instruction(s4, t) && Sound(s5, t);
    assert s.holder[a := Retired(t)][a := Outside] == s.holder[a := Outside];
    assert done == Instruction(s5, t);
    hide Instruction, Alone;
    StepInv(s4, t);
    StepInv(s5, t);
    Nothing(s4, t);
    Further(s4, t, 0, s4, s5);
    Further(s4, t, 1, s5, done);
  }

  /** The first value of the queue. */
  function First(s: State): int
    requires |s.chain| > 1
  {
    Values(s.heap, s.chain[1..])[0]
  }

  lemma FirstIs(s: State)
    requires Inv(s) && |s.chain| > 1
    ensures First(s) == NodeAt(s, s.chain[1].addr).data
  {
    assert LinkOk(s, 1);
  }

  /** What an undisturbed Dequeue has done once it is over. */
  ghost predicate TookFirst(s: State, t: nat, s': State) {
    && t < |s.pcs| && |s.chain| > 1 && s'.pcs == s.pcs[t := Idle] && s'.chain == s.chain[1..]
    && s'.deqs == s.deqs + [First(s)] && s'.enqs == s.enqs && s'.size == s.size
    && HolderOf(s', s.chain[0].addr).Outside?
  }

  lemma DequeuedTookFirst(s: State, m: State, t: nat)
    requires Inv(s) && t < |s.pcs| && |s.chain| > 1 && m == s.(tail := m.tail, ti := m.ti) && m.ti > 0
    ensures TookFirst(s, t, Dequeued(m, t))
  {
    FirstIs(s);
  }

  /**
   A Dequeue that has its reservation and runs alone ends, with the first value, and the old
   dummy back in the pool.
   */
  lemma DequeueEndsAlone(s: State, t: nat) returns (n: nat, s': State)
    requires Inv(s) && t < |s.pcs| && s.pcs[t].DeqHead?
    ensures Alone(s, t, n, s') && Inv(s') && TookFirst(s, t, s')
  {
    SumAtLeastOne(s, t);
    EndsAre(s);
    hide Inv, Alone, TookFirst, Ends;
    if s.ti == 0 {
      var m := HeadUncovered(s, t);
      EndsAre(m);
      s' := TakenFrom(s, m, t);
      n := 10;
      Joined(s, t, 4, m, 6, s');
    } else {
      s' := TakenFrom(s, s, t);
      n := 6;
    }
  }

  lemma TakenFrom(s: State, m: State, t: nat) returns (s': State)
    requires Inv(s) && Inv(m) && Ends(m) && t < |s.pcs| && s.pcs[t].DeqHead?
    requires |s.chain| > 1 && m == s.(tail := m.tail, ti := m.ti) && m.ti > 0
    ensures Alone(m, t, 6, s') && Inv(s') && TookFirst(s, t, s')
  {
    hide Inv, Alone, TookFirst;
    HeadTaken(m, t);
    s' := Dequeued(m, t);
    DequeuedTookFirst(s, m, t);
  }

  lemma Nothing(s: State, t: nat)
    ensures Alone(s, t, 0, s)
  {
  }

  lemma SumAtLeastOne(s: State, t: nat)
    requires Inv(s) && t < |s.pcs| && s.pcs[t].DeqHead?
    ensures |s.chain| > 1
  {
    Sums.SumAtLeast(s.pcs, t, Reserved);
  }

  /** A Dequeue called and left alone gets the first value if m_size is positive, and else leaves all as it was. */
  lemma DequeueAlone(s: State, t: nat) returns (n: nat, s': State)
    requires Inv(s) && Enabled(s, CallDequeue(t))
    ensures Alone(Next(s, CallDequeue(t)), t, n, s') && Inv(s') && s'.pcs == s.pcs
    ensures s.size <= 0 ==> s' == s
    ensures s.size > 0 ==> |s.chain| > 1 && s'.deqs == s.deqs + [First(s)]
    ensures s.size > 0 ==> s'.enqs == s.enqs && s'.chain == s.chain[1..] && s'.size == s.size - 1
  {
    hide Inv;
    var s1 := Goto(s, t, DeqDec);
    StepKeepsInv(s, CallDequeue(t));
    assert s.pcs[t := Idle] == s.pcs;
    Nothing(s1, t);
    if s.size <= 0 {
      RefusedAlone(s, t);
      s', n := s, 2;
    } else {
      var s2 := Goto(s, t, DeqHead).(size := s.size - 1);
      assert s2 == Instruction(s1, t);
      hide Instruction, Alone;
      Further(s1, t, 0, s1, s2);
      StepInv(s1, t);
      n, s' := DequeueEndsAlone(s2, t);
      Joined(s1, t, 1, s2, n, s');
      n := 1 + n;
    }
  }

  lemma RefusedAlone(s: State, t: nat)
    requires t < |s.pcs| && s.pcs[t].Idle? && s.size <= 0
    ensures Alone(Goto(s, t, DeqDec), t, 2, s)
  {
    var s1 := Goto(s, t, DeqDec);
    var s2 := Goto(s, t, DeqUndo).(size := s.size - 1);
    assert s.pcs[t := Idle] == s.pcs;
    assert s2 == Instruction(s1, t) && s == Instruction(s2, t);
    hide Instruction, Alone;
    Nothing(s1, t);
    Further(s1, t, 0, s1, s2);
    Further(s1, t, 1, s2, s);
  }
}
