/** What callers of the stack are told: every Push and Pop that is over, over whole runs. */
module StackCalls {
  import opened TaggedPointer
  import opened Sums
  import opened StackSpec
  import opened StackProof
  import opened StackRuns

  function One(b: bool): nat { if b then 1 else 0 }

  // ---- How often a value was pushed, popped and handed around

  function PushedOf(log: seq<Op>, d: int): nat {
    if log == [] then 0 else PushedOf(log[..|log| - 1], d) + One(log[|log| - 1] == Pushed(d))
  }

  function PoppedOf(log: seq<Op>, d: int): nat {
    if log == [] then 0 else PoppedOf(log[..|log| - 1], d) + One(log[|log| - 1] == Popped(d))
  }

  lemma LogAppend(log: seq<Op>, op: Op, d: int)
    ensures PushedOf(log + [op], d) == PushedOf(log, d) + One(op == Pushed(d))
    ensures PoppedOf(log + [op], d) == PoppedOf(log, d) + One(op == Popped(d))
  {
    assert (log + [op])[..|log|] == log;
  }

  predicate Unpushed(pc: Pc) {
    pc.PushCount? || pc.PushRead? || pc.PushLink? || pc.PushCas?
  }

  /** Pushes of `d` that are under way and not on the stack yet. */
  function UnpushedOf(d: int): Pc -> nat {
    (pc: Pc) => One(Unpushed(pc) && pc.d == d)
  }

  /** Pops that took `d` and have not returned it yet. */
  function UnreturnedOf(d: int): Pc -> nat {
    (pc: Pc) => One(((pc.PopDec? || pc.PopData?) && pc.logged == d) || (pc.PopFree? && pc.out == d))
  }

  predicate Searching(pc: Pc) {
    pc.PopRead? || pc.PopNext? || pc.PopCas?
  }

  function Popping(pc: Pc): nat {
    One(Searching(pc) || pc.PopDec? || pc.PopData? || pc.PopFree?)
  }

  // ---- What callers see of a step

  predicate Calls(act: Action, d: int) {
    act.CallPush? && act.d == d
  }

  /** The step ends a Pop, which hands `out` to its caller. */
  predicate Returns(s: State, act: Action) {
    act.Resume? && act.t < |s.pcs| && s.pcs[act.t].PopFree?
  }

  /** The step ends a Pop that has taken nothing: it tells its caller that the stack is empty. */
  predicate TellsEmpty(s: State, act: Action)
    requires Enabled(s, act)
  {
    act.Resume? && Searching(s.pcs[act.t]) && Next(s, act).pcs[act.t].Idle?
  }

  // ---- What a step does to the books

  lemma CallAccounts(s: State, act: Action, d: int)
    requires Enabled(s, act) && !act.Resume?
    ensures var s' := Next(s, act);
            && s'.log == s.log
            && Sum(s'.pcs, UnpushedOf(d)) == Sum(s.pcs, UnpushedOf(d)) + One(Calls(act, d))
            && Sum(s'.pcs, UnreturnedOf(d)) == Sum(s.pcs, UnreturnedOf(d))
            && Sum(s'.pcs, Popping) == Sum(s.pcs, Popping) + One(act.CallPop?)
  {
    if !act.Foreign? {
      var pc := Next(s, act).pcs[act.t];
      SumUpdate(s.pcs, act.t, pc, UnpushedOf(d));
      SumUpdate(s.pcs, act.t, pc, UnreturnedOf(d));
      SumUpdate(s.pcs, act.t, pc, Popping);
    }
  }

  /** What an instruction does to its own thread's part. */
  ghost predicate OwnAccounts(s: State, t: nat, s': State, d: int) {
    && t < |s.pcs| == |s'.pcs| && s'.pcs == s.pcs[t := s'.pcs[t]]
    && PushedOf(s'.log, d) + UnpushedOf(d)(s'.pcs[t]) == PushedOf(s.log, d) + UnpushedOf(d)(s.pcs[t])
    && PoppedOf(s'.log, d) + UnreturnedOf(d)(s.pcs[t]) ==
       PoppedOf(s.log, d) + UnreturnedOf(d)(s'.pcs[t]) + One(Returns(s, Resume(t)) && s.pcs[t].out == d)
    && Popping(s'.pcs[t]) == Popping(s.pcs[t]) - One(Returns(s, Resume(t)) || (Searching(s.pcs[t]) && s'.pcs[t].Idle?))
  }

  lemma PushAccounts(s: State, t: nat, d: int)
    requires t < |s.pcs| && (s.pcs[t].PushCount? || s.pcs[t].PushRead? || s.pcs[t].PushLink? || s.pcs[t].PushInc?)
    ensures OwnAccounts(s, t, Instruction(s, t), d)
  {
    hide Recognize, Cut, NodeAt, PushedOf, PoppedOf;
  }

  lemma PushCasAccounts(s: State, t: nat, d: int)
    requires t < |s.pcs| && s.pcs[t].PushCas?
    ensures OwnAccounts(s, t, Instruction(s, t), d)
  {
    hide Recognize, Cut, NodeAt, PushedOf, PoppedOf;
    LogAppend(s.log, Pushed(s.pcs[t].d), d);
    var s' := Instruction(s, t);
    assert s'.pcs == s.pcs[t := s'.pcs[t]];
  }

  lemma SearchAccounts(s: State, t: nat, d: int)
    requires t < |s.pcs| && (s.pcs[t].PopRead? || s.pcs[t].PopNext?)
    ensures OwnAccounts(s, t, Instruction(s, t), d)
  {
    hide Recognize, Cut, NodeAt, PushedOf, PoppedOf;
  }

  lemma PopCasAccounts(s: State, t: nat, d: int)
    requires t < |s.pcs| && s.pcs[t].PopCas?
    ensures OwnAccounts(s, t, Instruction(s, t), d)
  {
    hide Recognize, Cut, NodeAt, PushedOf, PoppedOf;
    LogAppend(s.log, Popped(NodeAt(s, s.pcs[t].cap.addr).data), d);
    var s' := Instruction(s, t);
    assert s'.pcs == s.pcs[t := s'.pcs[t]];
  }

  lemma PopEndAccounts(s: State, t: nat, d: int)
    requires t < |s.pcs| && (s.pcs[t].PopDec? || s.pcs[t].PopData? || s.pcs[t].PopFree?) && ThreadInv(s, t)
    ensures OwnAccounts(s, t, Instruction(s, t), d)
  {
  }

  lemma ResumeAccounts(s: State, t: nat, d: int)
    requires Inv(s) && Enabled(s, Resume(t))
    ensures OwnAccounts(s, t, Instruction(s, t), d)
  {
    hide OwnAccounts, Instruction;
    assert ThreadInv(s, t);
    if s.pcs[t].PushCas? {
      PushCasAccounts(s, t, d);
    } else if s.pcs[t].PopCas? {
      PopCasAccounts(s, t, d);
    } else if Unpushed(s.pcs[t]) || s.pcs[t].PushInc? {
      PushAccounts(s, t, d);
    } else if Searching(s.pcs[t]) {
      SearchAccounts(s, t, d);
    } else {
      PopEndAccounts(s, t, d);
    }
  }

  // ---- Whole runs

  /** The Pushes of `d` that a run calls. */
  function Called(acts: seq<Action>, d: int): nat {
    if acts == [] then 0 else One(Calls(acts[0], d)) + Called(acts[1..], d)
  }

  /** The Pops of a run that return `d`. */
  ghost function Returned(s: State, acts: seq<Action>, d: int): nat
    requires Path(s, acts)
    decreases |acts|
  {
    if acts == [] then 0
    else One(Returns(s, acts[0]) && s.pcs[acts[0].t].out == d) + Returned(Next(s, acts[0]), acts[1..], d)
  }

  /** The Pops that a run calls, less those that return an item and those that tell their caller that it is empty. */
  ghost function Unanswered(s: State, acts: seq<Action>): int
    requires Path(s, acts)
    decreases |acts|
  {
    if acts == [] then 0 else
      One(acts[0].CallPop?) - One(Returns(s, acts[0]) || TellsEmpty(s, acts[0])) +
      Unanswered(Next(s, acts[0]), acts[1..])
  }

  ghost predicate Booked(s: State, acts: seq<Action>, s': State, d: int)
    requires Path(s, acts)
  {
    && PushedOf(s'.log, d) + Sum(s'.pcs, UnpushedOf(d)) ==
       PushedOf(s.log, d) + Sum(s.pcs, UnpushedOf(d)) + Called(acts, d)
    && PoppedOf(s'.log, d) + Sum(s.pcs, UnreturnedOf(d)) ==
       PoppedOf(s.log, d) + Sum(s'.pcs, UnreturnedOf(d)) + Returned(s, acts, d)
    && Sum(s'.pcs, Popping) == Sum(s.pcs, Popping) + Unanswered(s, acts)
  }

  lemma StepBooked(s: State, act: Action, d: int)
    requires Inv(s) && Enabled(s, act)
    ensures var s' := Next(s, act);
            && PushedOf(s'.log, d) + Sum(s'.pcs, UnpushedOf(d)) ==
               PushedOf(s.log, d) + Sum(s.pcs, UnpushedOf(d)) + One(Calls(act, d))
            && PoppedOf(s'.log, d) + Sum(s.pcs, UnreturnedOf(d)) ==
               PoppedOf(s.log, d) + Sum(s'.pcs, UnreturnedOf(d)) + One(Returns(s, act) && s.pcs[act.t].out == d)
            && Sum(s'.pcs, Popping) ==
               Sum(s.pcs, Popping) + One(act.CallPop?) - One(Returns(s, act) || TellsEmpty(s, act))
  {
    if act.Resume? {
      ResumeAccounts(s, act.t, d);
      hide Instruction, Inv;
      var pc := Instruction(s, act.t).pcs[act.t];
      SumUpdate(s.pcs, act.t, pc, UnpushedOf(d));
      SumUpdate(s.pcs, act.t, pc, UnreturnedOf(d));
      SumUpdate(s.pcs, act.t, pc, Popping);
    } else {
      CallAccounts(s, act, d);
    }
  }

  lemma RunIsPath(s: State, acts: seq<Action>, rule: Rule, s': State)
    requires Run(s, acts, rule, s')
    ensures Path(s, acts)
    decreases |acts|
  {
  }

  lemma {:induction false} RunBooked(s: State, acts: seq<Action>, s': State, d: int)
    requires Inv(s) && Path(s, acts) && Run(s, acts, Undeceiving, s')
    ensures Booked(s, acts, s', d)
    decreases |acts|
  {
    hide Inv, Next, Undeceived, TellsEmpty, Returns, Calls;
    if acts != [] {
      var m := Next(s, acts[0]);
      StepBooked(s, acts[0], d);
      StepKeepsInv(s, acts[0]);
      RunBooked(m, acts[1..], s', d);
    }
  }

  /**
   Over every run that deceives no Pop and every value: each call of Push has put its value on
   the stack or is still on the way; each item taken off has been returned by one Pop or is
   still on the way; and every Pop called has returned an item, told its caller that the stack
   is empty, or is still at work.
   */
  lemma CallsAreAnswered(heap: map<nat, Node>, threads: nat, acts: seq<Action>, s: State, d: int)
    requires Run(Init(heap, threads), acts, Undeceiving, s)
    ensures Path(Init(heap, threads), acts)
    ensures Called(acts, d) == PushedOf(s.log, d) + Sum(s.pcs, UnpushedOf(d))
    ensures PoppedOf(s.log, d) == Returned(Init(heap, threads), acts, d) + Sum(s.pcs, UnreturnedOf(d))
    ensures Unanswered(Init(heap, threads), acts) == Sum(s.pcs, Popping)
  {
    var s0 := Init(heap, threads);
    InitInv(heap, threads);
    RunIsPath(s0, acts, Undeceiving, s);
    hide Inv;
    RunBooked(s0, acts, s, d);
    SumZero(s0.pcs, UnpushedOf(d));
    SumZero(s0.pcs, UnreturnedOf(d));
    SumZero(s0.pcs, Popping);
  }

  /** With no operation under way everything called is done. */
  lemma AtRestAllAnswered(heap: map<nat, Node>, threads: nat, acts: seq<Action>, s: State, d: int)
    requires Run(Init(heap, threads), acts, Undeceiving, s) && forall t :: 0 <= t < |s.pcs| ==> s.pcs[t].Idle?
    ensures Path(Init(heap, threads), acts) && Unanswered(Init(heap, threads), acts) == 0
    ensures Called(acts, d) == PushedOf(s.log, d)
    ensures Returned(Init(heap, threads), acts, d) == PoppedOf(s.log, d)
  {
    CallsAreAnswered(heap, threads, acts, s, d);
    SumZero(s.pcs, UnpushedOf(d));
    SumZero(s.pcs, UnreturnedOf(d));
    SumZero(s.pcs, Popping);
  }

  /** A Pop tells its caller that the stack is empty only at a moment when it is. */
  lemma EmptyIsEmpty(s: State, act: Action)
    requires Reachable(Undeceiving, s) && Enabled(s, act) && TellsEmpty(s, act)
    ensures s.chain == [] && Replay(s.log) == Legal([])
  {
    ReachableInv(s);
    assert s.chain != [] ==> LinkOk(s, 0);
  }

  /** And then it does, if nobody disturbs it, and leaves everything as it was. */
  lemma EmptyPopEnds(s: State, t: nat)
    requires Reachable(Undeceiving, s) && Enabled(s, CallPop(t)) && s.chain == []
    ensures var s1 := Next(s, CallPop(t));
            Enabled(s1, Resume(t)) && TellsEmpty(s1, Resume(t)) && Next(s1, Resume(t)) == s
  {
    ReachableInv(s);
    assert s.pcs[t := Idle] == s.pcs;
  }

  // ---- Nodes

  /** The node that a thread has taken from the pool or off the list. */
  function NodeOf(pc: Pc): nat {
    match pc
    case PushCount(a, _) => a
    case PushRead(node, _) => node.addr
    case PushLink(node, _, _) => node.addr
    case PushCas(node, _, _) => node.addr
    case PopDec(cap, _) => cap.addr
    case PopData(cap, _) => cap.addr
    case PopFree(cap, _, _) => cap.addr
    case _ => 0
  }

  /** Whoever holds a node outside the list is a thread that is still at work with it. */
  ghost predicate NoLeak(s: State) {
    forall a: nat :: InHands(s, a)
  }

  ghost predicate InHands(s: State, a: nat) {
    HolderOf(s, a).Held? || HolderOf(s, a).Counted? ==>
      a != 0 && HolderOf(s, a).t < |s.pcs| && NodeOf(s.pcs[HolderOf(s, a).t]) == a
  }

  lemma CallKeepsNoLeak(s: State, act: Action)
    requires NoLeak(s) && Enabled(s, act) && !act.Resume?
    ensures NoLeak(Next(s, act))
  {
    forall a: nat
      ensures InHands(Next(s, act), a)
    {
      assert InHands(s, a);
    }
  }

  lemma PushKeepsNoLeak(s: State, t: nat)
    requires NoLeak(s) && t < |s.pcs| && ThreadInv(s, t) && (Unpushed(s.pcs[t]) || s.pcs[t].PushInc?)
    ensures NoLeak(Instruction(s, t))
  {
    hide Recognize, Cut;
    forall a: nat
      ensures InHands(Instruction(s, t), a)
    {
      assert InHands(s, a);
    }
  }

  lemma PopCasKeepsNoLeak(s: State, t: nat)
    requires NoLeak(s) && t < |s.pcs| && s.pcs[t].PopCas? && s.pcs[t].cap.addr != 0
    requires s.top == Cut(s.pcs[t].cap.Pointer()) ==> HolderOf(s, s.pcs[t].cap.addr).Listed?
    ensures NoLeak(Instruction(s, t))
  {
    hide Recognize, Cut, NodeAt;
    forall a: nat
      ensures InHands(Instruction(s, t), a)
    {
      assert InHands(s, a);
    }
  }

  lemma PopKeepsNoLeak(s: State, t: nat)
    requires NoLeak(s) && t < |s.pcs| && !Unpushed(s.pcs[t]) && !s.pcs[t].PushInc? && !s.pcs[t].PopCas?
    ensures NoLeak(Instruction(s, t))
  {
    hide Recognize, Cut, NodeAt;
    forall a: nat
      ensures InHands(Instruction(s, t), a)
    {
      assert InHands(s, a);
    }
  }

  lemma StepKeepsNoLeak(s: State, act: Action)
    requires Inv(s) && NoLeak(s) && Enabled(s, act) && Undeceived(s, act)
    ensures NoLeak(Next(s, act))
  {
    hide NoLeak, Instruction;
    if !act.Resume? {
      CallKeepsNoLeak(s, act);
    } else {
      var t := act.t;
      assert ThreadInv(s, t);
      if s.pcs[t].PopCas? {
        if s.top == Cut(s.pcs[t].cap.Pointer()) {
          PopCasTakesTop(s, t);
          assert Live(s, s.chain[0]);
        }
        PopCasKeepsNoLeak(s, t);
      } else if Unpushed(s.pcs[t]) || s.pcs[t].PushInc? {
        PushKeepsNoLeak(s, t);
      } else {
        PopKeepsNoLeak(s, t);
      }
    }
  }

  lemma {:induction false} RunKeepsNoLeak(s: State, acts: seq<Action>, s': State)
    requires Inv(s) && NoLeak(s) && Run(s, acts, Undeceiving, s')
    ensures NoLeak(s')
    decreases |acts|
  {
    hide Inv, Next, Undeceived, NoLeak;
    if acts != [] {
      StepKeepsNoLeak(s, acts[0]);
      StepKeepsInv(s, acts[0]);
      RunKeepsNoLeak(Next(s, acts[0]), acts[1..], s');
    }
  }

  /** No node is lost: with no operation under way every node is in the list or back in the pool. */
  lemma AtRestNoNodeLost(s: State, a: nat)
    requires Reachable(Undeceiving, s) && forall t :: 0 <= t < |s.pcs| ==> s.pcs[t].Idle?
    ensures HolderOf(s, a).Outside? || HolderOf(s, a).Listed?
  {
    var heap, threads, acts :| Run(Init(heap, threads), acts, Undeceiving, s);
    InitInv(heap, threads);
    RunKeepsNoLeak(Init(heap, threads), acts, s);
    assert InHands(s, a);
  }
}
