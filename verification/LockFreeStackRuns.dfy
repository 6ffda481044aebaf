/**
 Whole runs of the stack: in order exactly when no Pop is deceived, which takes a tag that is
 given out again between a Pop's read and its CAS.
 */
module StackRuns {
  import opened TaggedPointer
  import opened Sums
  import opened StackSpec
  import opened StackProof

  /** Which steps a run may take: all, those inside the window `n`, or those that deceive nobody. */
  datatype Rule = AnyStep | Within(n: nat) | Undeceiving

  predicate Permitted(s: State, act: Action, rule: Rule) {
    match rule
    case AnyStep => true
    case Within(n) => Windowed(s, act, n)
    case Undeceiving => Undeceived(s, act)
  }

  /** `acts`, each enabled and permitted, lead from `s` to `s'`. */
  ghost predicate Run(s: State, acts: seq<Action>, rule: Rule, s': State)
    decreases |acts|
  {
    if acts == [] then s' == s else
      Enabled(s, acts[0]) && Permitted(s, acts[0], rule) && Run(Next(s, acts[0]), acts[1..], rule, s')
  }

  lemma {:induction false} RunKeepsInv(s: State, acts: seq<Action>, s': State)
    requires Inv(s) && (Run(s, acts, Undeceiving, s') || Run(s, acts, Within(0), s'))
    ensures Inv(s')
    decreases |acts|
  {
    hide Inv, Next, Windowed, Undeceived;
    if acts != [] {
      if Windowed(s, acts[0], 0) { WindowedUndeceived(s, acts[0]); }
      StepKeepsInv(s, acts[0]);
      RunKeepsInv(Next(s, acts[0]), acts[1..], s');
    }
  }

  lemma InitInv(heap: map<nat, Node>, threads: nat)
    ensures Inv(Init(heap, threads))
  {
    SumZero(Init(heap, threads).pcs, PushOwing);
    SumZero(Init(heap, threads).pcs, PopOwing);
  }

  lemma {:induction false} RunAppend(s: State, acts: seq<Action>, rule: Rule, m: State, act: Action)
    requires Run(s, acts, rule, m) && Enabled(m, act) && Permitted(m, act, rule)
    ensures Run(s, acts + [act], rule, Next(m, act))
    decreases |acts|
  {
    hide Next, Enabled, Permitted;
    if acts == [] {
      assert (acts + [act])[1..] == [];
    } else {
      RunAppend(Next(s, acts[0]), acts[1..], rule, m, act);
      assert (acts + [act])[1..] == acts[1..] + [act];
    }
  }

  ghost predicate Reachable(rule: Rule, s: State) {
    exists heap, threads, acts :: Run(Init(heap, threads), acts, rule, s)
  }

  lemma Reach(rule: Rule, s: State, act: Action)
    requires Reachable(rule, s) && Enabled(s, act) && Permitted(s, act, rule)
    ensures Reachable(rule, Next(s, act))
  {
    hide Next, Enabled, Permitted, Run;
    var heap, threads, acts :| Run(Init(heap, threads), acts, rule, s);
    RunAppend(Init(heap, threads), acts, rule, s, act);
  }

  lemma ReachableInv(s: State)
    requires Reachable(Undeceiving, s) || Reachable(Within(0), s)
    ensures Inv(s)
  {
    hide Run, Inv;
    var rule := if Reachable(Undeceiving, s) then Undeceiving else Within(0);
    var heap, threads, acts :| Run(Init(heap, threads), acts, rule, s);
    InitInv(heap, threads);
    RunKeepsInv(Init(heap, threads), acts, s);
  }

  // ---- A whole Push or Pop without interference

  function AfterPush(s: State, a: nat, d: int): State {
    var node := Ptr(a, s.allocCnt + 1);
    s.(top := Cut(node), size := s.size + 1, allocCnt := s.allocCnt + 1, heap := s.heap[a := Node(s.top, d)],
       chain := [node] + s.chain, holder := s.holder[a := Listed], born := s.born[a := node.tag],
       log := s.log + [Pushed(d)])
  }

  function AfterPop(s: State): State
    requires s.chain != []
  {
    var a := s.chain[0].addr;
    s.(top := NodeAt(s, a).next, size := s.size - 1, chain := s.chain[1..], holder := s.holder[a := Outside],
       log := s.log + [Popped(NodeAt(s, a).data)])
  }

  /** The state just before the CAS of a Push that nobody disturbed. */
  function BeforePushCas(s: State, t: nat, a: nat, d: int): State
    requires t < |s.pcs|
  {
    var node := Ptr(a, s.allocCnt + 1);
    s.(pcs := s.pcs[t := PushCas(node, d, s.top)], heap := s.heap[a := Node(s.top, d)],
       holder := s.holder[a := Counted(t)], allocCnt := node.tag, born := s.born[a := node.tag])
  }

  /** A Push that has taken its node and its count. */
  function AfterCount(s: State, t: nat, a: nat, d: int): State
    requires t < |s.pcs|
  {
    var node := Ptr(a, s.allocCnt + 1);
    s.(pcs := s.pcs[t := PushRead(node, d)], heap := s.heap[a := NodeAt(s, a).(data := d)],
       holder := s.holder[a := Counted(t)], allocCnt := node.tag, born := s.born[a := node.tag])
  }

  lemma SoloPushCount(n: nat, s: State, t: nat, a: nat, d: int)
    requires Reachable(Within(n), s) && Enabled(s, CallPush(t, a, d))
    ensures Reachable(Within(n), AfterCount(s, t, a, d))
  {
    hide Reachable;
    Reach(Within(n), s, CallPush(t, a, d));
    var s1 := Next(s, CallPush(t, a, d));
    assert s1.pcs[t] == PushCount(a, d);
    Reach(Within(n), s1, Resume(t));
    assert AfterCount(s, t, a, d) == Instruction(s1, t);
  }

  lemma SoloPushPrepare(n: nat, s: State, t: nat, a: nat, d: int)
    requires Reachable(Within(n), s) && Enabled(s, CallPush(t, a, d))
    ensures Reachable(Within(n), BeforePushCas(s, t, a, d))
  {
    hide Reachable;
    SoloPushCount(n, s, t, a, d);
    var node := Ptr(a, s.allocCnt + 1);
    var s2 := AfterCount(s, t, a, d);
    Reach(Within(n), s2, Resume(t));
    var s3 := s2.(pcs := s.pcs[t := PushLink(node, d, s.top)]);
    assert s3 == Instruction(s2, t);
    Reach(Within(n), s3, Resume(t));
    assert BeforePushCas(s, t, a, d) == Instruction(s3, t);
  }

  lemma SoloPush(n: nat, s: State, t: nat, a: nat, d: int)
    requires Reachable(Within(n), s) && Enabled(s, CallPush(t, a, d))
    ensures Reachable(Within(n), AfterPush(s, a, d))
  {
    hide Reachable;
    SoloPushPrepare(n, s, t, a, d);
    var s4 := BeforePushCas(s, t, a, d);
    Reach(Within(n), s4, Resume(t));
    var s5 := AfterPush(s, a, d).(pcs := s.pcs[t := PushInc], size := s.size);
    assert s5 == Instruction(s4, t);
    Reach(Within(n), s5, Resume(t));
    assert s.pcs[t := Idle] == s.pcs;
    assert Instruction(s5, t) == AfterPush(s, a, d);
  }

  /** The top of the list as a Pop reads it now. */
  function SeenTop(s: State): Seen
    requires s.chain != []
  {
    Seen(s.chain[0].addr, s.chain[0].tag, s.allocCnt)
  }

  /** The state just after the CAS of a Pop that nobody disturbed. */
  function AfterPopCas(s: State, t: nat): State
    requires s.chain != [] && t < |s.pcs|
  {
    var cap := SeenTop(s);
    AfterPop(s).(pcs := s.pcs[t := PopDec(cap, NodeAt(s, cap.addr).data)], size := s.size,
        holder := s.holder[cap.addr := Held(t)])
  }

  lemma SoloPopRead(n: nat, s: State, t: nat)
    requires Reachable(Within(n), s) && Enabled(s, CallPop(t))
    requires s.chain != [] && s.top == Cut(s.chain[0]) && s.top.addr != 0
    ensures Reachable(Within(n), Goto(s, t, PopNext(SeenTop(s))))
  {
    hide Reachable;
    Reach(Within(n), s, CallPop(t));
    var s1 := Goto(s, t, PopRead);
    Reach(Within(n), s1, Resume(t));
    assert Goto(s, t, PopNext(SeenTop(s))) == Instruction(s1, t);
  }

  lemma SoloPopCas(n: nat, s: State, t: nat)
    requires Reachable(Within(n), s) && Enabled(s, CallPop(t))
    requires s.chain != [] && s.top == Cut(s.chain[0]) && s.top.addr != 0
    ensures Reachable(Within(n), AfterPopCas(s, t))
  {
    hide Reachable;
    SoloPopRead(n, s, t);
    var cap := SeenTop(s);
    var s2 := Goto(s, t, PopNext(cap));
    Reach(Within(n), s2, Resume(t));
    var s3 := Goto(s, t, PopCas(cap, NodeAt(s, cap.addr).next));
    assert s3 == Instruction(s2, t);
    Reach(Within(n), s3, Resume(t));
    assert AfterPopCas(s, t) == Instruction(s3, t);
  }

  lemma SoloPop(n: nat, s: State, t: nat)
    requires Reachable(Within(n), s) && Enabled(s, CallPop(t))
    requires s.chain != [] && s.top == Cut(s.chain[0]) && s.top.addr != 0
    ensures Reachable(Within(n), AfterPop(s))
  {
    hide Reachable;
    SoloPopCas(n, s, t);
    var cap := SeenTop(s);
    var d := NodeAt(s, cap.addr).data;
    var s4 := AfterPopCas(s, t);
    Reach(Within(n), s4, Resume(t));
    var s5 := s4.(pcs := s.pcs[t := PopData(cap, d)], size := s.size - 1);
    assert s5 == Instruction(s4, t);
    Reach(Within(n), s5, Resume(t));
    var s6 := s5.(pcs := s.pcs[t := PopFree(cap, d, d)]);
    assert s6 == Instruction(s5, t);
    Reach(Within(n), s6, Resume(t));
    assert s.pcs[t := Idle] == s.pcs;
    assert Instruction(s6, t) == AfterPop(s);
  }

  // ---- Losing an item outside the window

  /** Node 1, pushed with count 1, is alone in the stack; `c` counts have been given; node 2 is free. */
  ghost predicate Alone(s: State, c: nat) {
    && s.pcs == [Idle, Idle]
    && s.allocCnt == c
    && 1 in s.heap && s.heap[1].next == NULL
    && 2 in s.heap && HolderOf(s, 2) == Outside
    && s.chain == [Ptr(1, 1)] && s.top == Ptr(1, 1)
  }

  lemma {:induction false} Churn(n: nat, c: nat) returns (s: State)
    requires c >= 1
    ensures Reachable(Within(n), s) && Alone(s, c)
  {
    if c == 1 {
      var heap := map[1 := Node(NULL, 0), 2 := Node(NULL, 0)];
      var start := Init(heap, 2);
      assert Run(start, [], Within(n), start);
      assert start.pcs == [Idle, Idle];
      SoloPush(n, start, 1, 1, 10);
      s := AfterPush(start, 1, 10);
    } else {
      var r := Churn(n, c - 1);
      s := ChurnOnce(n, r, c - 1);
    }
  }

  lemma ChurnOnce(n: nat, r: State, c: nat) returns (s: State)
    requires Reachable(Within(n), r) && Alone(r, c)
    ensures Reachable(Within(n), s) && Alone(s, c + 1)
  {
    hide Reachable;
    SoloPush(n, r, 1, 2, 20);
    var p := AfterPush(r, 2, 20);
    SoloPop(n, p, 1);
    s := AfterPop(p);
  }

  /**
   Thread 0 reads the top and its successor; then node 1 is popped, node 2 pushed and node 1
   pushed again with a count that cuts to the same tag. Thread 0's stale CAS succeeds and
   installs null over a stack that still holds node 2.
   */
  lemma ItemLost(n: nat) returns (s: State)
    requires n >= 1
    ensures Reachable(Within(n), s) && !Spelled(s)
    ensures s.top == NULL && s.chain != []
  {
    hide Reachable;
    var r := Churn(n, TAGS - 1);
    var r3 := StalePop(n, r);
    SoloPop(n, r3, 1);
    var r4 := AfterPop(r3);
    SoloPush(n, r4, 1, 2, 20);
    s := LoseItem(n, AfterPush(r4, 2, 20));
    assert Spelled(s) ==> LinkOk(s, 0);
  }

  /** Node 1 as thread 0 reads it, when all tags but one have been given out. */
  const OLD: Seen := Seen(1, 1, TAGS - 1)

  /** Thread 0 reaches its CAS with the top and the successor it has read. */
  lemma StalePop(n: nat, r: State) returns (s: State)
    requires Reachable(Within(n), r) && Alone(r, TAGS - 1)
    ensures Reachable(Within(n), s) && s == Goto(r, 0, PopCas(OLD, NULL))
  {
    hide Reachable;
    Reach(Within(n), r, CallPop(0));
    var r1 := Goto(r, 0, PopRead);
    Reach(Within(n), r1, Resume(0));
    var r2 := Goto(r, 0, PopNext(OLD));
    assert r2 == Instruction(r1, 0);
    Reach(Within(n), r2, Resume(0));
    s := Goto(r, 0, PopCas(OLD, NULL));
    assert s == Instruction(r2, 0);
  }

  lemma LoseItem(n: nat, r: State) returns (s: State)
    requires n >= 1 && Reachable(Within(n), r)
    requires r.pcs == [PopCas(OLD, NULL), Idle]
    requires r.allocCnt == TAGS && 1 in r.heap && HolderOf(r, 1) == Outside && r.chain != []
    ensures Reachable(Within(n), s) && s.top == NULL && s.chain != []
  {
    hide Reachable;
    SoloPush(n, r, 1, 1, 10);
    var r6 := AfterPush(r, 1, 10);
    Reach(Within(n), r6, Resume(0));
    s := Next(r6, Resume(0));
  }

  // ---- The theorem

  /** Every run inside the window `n` is a run of a LIFO stack. */
  ghost predicate LifoWithin(n: nat) {
    forall s :: Reachable(Within(n), s) ==> Refines(s)
  }

  /** The stack is in order as long as no tag comes round, and not if one may come round once. */
  lemma LifoExactlyWithoutRounds(n: nat)
    ensures LifoWithin(n) <==> n == 0
  {
    if n == 0 {
      forall s | Reachable(Within(n), s)
        ensures Refines(s)
      {
        ReachableInv(s);
      }
    } else {
      var s := ItemLost(n);
      assert !Refines(s);
    }
  }

  // ---- Single runs

  /** A run without any window. */
  ghost predicate Path(s: State, acts: seq<Action>)
    decreases |acts|
  {
    acts == [] || (Enabled(s, acts[0]) && Path(Next(s, acts[0]), acts[1..]))
  }

  /** Every state of the run is a LIFO stack with the history so far. */
  ghost predicate InOrder(s: State, acts: seq<Action>)
    requires Path(s, acts)
    decreases |acts|
  {
    Refines(s) && (acts != [] ==> InOrder(Next(s, acts[0]), acts[1..]))
  }

  ghost predicate NobodyDeceived(s: State, acts: seq<Action>)
    requires Path(s, acts)
    decreases |acts|
  {
    acts != [] ==> Undeceived(s, acts[0]) && NobodyDeceived(Next(s, acts[0]), acts[1..])
  }

  lemma {:induction false} InOrderFrom(s: State, acts: seq<Action>)
    requires Inv(s) && Path(s, acts)
    ensures InOrder(s, acts) <==> NobodyDeceived(s, acts)
    decreases |acts|
  {
    hide Next, Undeceived, ListInv, Logged, SizeExact, ThreadInv;
    InvRefines(s);
    if acts != [] {
      var s' := Next(s, acts[0]);
      if Undeceived(s, acts[0]) {
        StepKeepsInv(s, acts[0]);
        InOrderFrom(s', acts[1..]);
      } else {
        DeceivedBreaks(s, acts[0]);
      }
    }
  }

  lemma InvRefines(s: State)
    requires Inv(s)
    ensures Refines(s)
  {
  }

  /** Run by run: the stack is in order throughout if and only if no Pop is deceived. */
  lemma InOrderIffNobodyDeceived(heap: map<nat, Node>, threads: nat, acts: seq<Action>)
    requires Path(Init(heap, threads), acts)
    ensures InOrder(Init(heap, threads), acts) <==> NobodyDeceived(Init(heap, threads), acts)
  {
    InitInv(heap, threads);
    InOrderFrom(Init(heap, threads), acts);
  }

  /** What a Pop hands to its caller is the item its CAS took off, and the counter is exact at rest. */
  lemma PopReturnsItsItem(s: State, t: nat)
    requires (Reachable(Undeceiving, s) || Reachable(Within(0), s)) && t < |s.pcs|
    ensures s.pcs[t].PopFree? ==> s.pcs[t].out == s.pcs[t].logged
    ensures (forall u :: 0 <= u < |s.pcs| ==> s.pcs[u] == Idle) ==> s.size == |s.chain|
  {
    ReachableInv(s);
    assert ThreadInv(s, t);
    if forall u :: 0 <= u < |s.pcs| ==> s.pcs[u] == Idle {
      SumZero(s.pcs, PushOwing);
      SumZero(s.pcs, PopOwing);
    }
  }
}
