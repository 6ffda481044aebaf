/**
 The stack of Utils/LockFreeStack.h in place: an object whose fields are the words that exist
 at run time, updated one instruction at a time. The unbounded counts and the history of the
 machine are ghost here, so no instruction can depend on them, and every step of the object
 is the step of the machine, in every run. As long as no Pop was deceived (`undeceived`), the
 machine state is reachable by such a run, so the theorems about such states are theorems
 about the object.
 */
module StackInPlace {
  import opened TaggedPointer
  import opened StackSpec
  import opened StackProof
  import opened StackRuns

  /** A thread's local variables as words. */
  function Words(pc: Pc): Pc {
    match pc
    case PushRead(node, d) => PushRead(Cut(node), d)
    case PushLink(node, d, seen) => PushLink(Cut(node), d, seen)
    case PushCas(node, d, seen) => PushCas(Cut(node), d, seen)
    case PopNext(cap) => PopNext(CutSeen(cap))
    case PopCas(cap, new_) => PopCas(CutSeen(cap), new_)
    case PopDec(cap, _) => PopDec(CutSeen(cap), 0)
    case PopData(cap, _) => PopData(CutSeen(cap), 0)
    case PopFree(cap, _, out) => PopFree(CutSeen(cap), 0, out)
    case _ => pc
  }

  predicate Pushing(pc: Pc) {
    pc.PushCount? || pc.PushRead? || pc.PushLink? || pc.PushCas? || pc.PushInc?
  }

  ghost predicate AllWords(locals: seq<Pc>, pcs: seq<Pc>) {
    |locals| == |pcs| && forall t :: 0 <= t < |locals| ==> locals[t] == Words(pcs[t])
  }

  lemma LocalIs(locals: seq<Pc>, pcs: seq<Pc>, t: nat)
    requires AllWords(locals, pcs) && t < |locals|
    ensures t < |pcs| && locals[t] == Words(pcs[t])
  {
  }

  lemma LocalSet(locals: seq<Pc>, pcs: seq<Pc>, t: nat, pc: Pc)
    requires AllWords(locals, pcs) && (t < |locals| || t < |pcs|)
    ensures t < |pcs| && t < |locals| && AllWords(locals[t := Words(pc)], pcs[t := pc])
  {
  }

  /** What fits a 64-bit word: the count has 17 bits. */
  predicate IsWord(p: Ptr) {
    p.tag < TAGS
  }

  /** The word that an instruction has read from m_top or a `Next` field. */
  function Read(pc: Pc): Ptr {
    match pc
    case PushLink(_, _, seen) => seen
    case PushCas(_, _, seen) => seen
    case PopCas(_, new_) => new_
    case _ => NULL
  }

  ghost predicate WordsOnly(s: State) {
    && IsWord(s.top)
    && (forall a :: a in s.heap ==> IsWord(s.heap[a].next))
    && (forall t :: 0 <= t < |s.pcs| ==> IsWord(Read(s.pcs[t])))
  }

  lemma TopIsWord(s: State)
    requires WordsOnly(s)
    ensures Cut(s.top) == s.top
  {
  }

  lemma PushKeepsWords(s: State, t: nat)
    requires WordsOnly(s) && t < |s.pcs| && Pushing(s.pcs[t])
    ensures WordsOnly(Instruction(s, t))
  {
    hide Recognize;
  }

  lemma PopKeepsWords(s: State, t: nat)
    requires WordsOnly(s) && t < |s.pcs| && !Pushing(s.pcs[t])
    ensures WordsOnly(Instruction(s, t))
  {
    hide Recognize, Cut;
  }

  lemma StepKeepsWords(s: State, act: Action)
    requires WordsOnly(s) && Enabled(s, act) && (act.Foreign? ==> IsWord(act.node.next))
    ensures WordsOnly(Next(s, act))
  {
    if act.Resume? {
      hide WordsOnly, Instruction;
      if Pushing(s.pcs[act.t]) { PushKeepsWords(s, act.t); } else { PopKeepsWords(s, act.t); }
    }
  }

  class LockFreeStack {
    var top: Ptr                 // m_top
    var size: int                // m_size
    var allocCnt: nat            // m_allocCnt; only its low 17 bits are ever used
    var memory: map<nat, Node>   // the nodes of the pool
    var locals: seq<Pc>          // one program counter with local variables per thread
    ghost var history: State
    ghost var undeceived: bool   // no Pop was deceived so far

    ghost predicate Valid()
      reads this
    {
      && Reachable(AnyStep, history) && (undeceived ==> Reachable(Undeceiving, history)) && WordsOnly(history)
      && top == history.top && size == history.size && allocCnt == history.allocCnt && memory == history.heap
      && AllWords(locals, history.pcs)
    }

    constructor (memory: map<nat, Node>, threads: nat)
      requires forall a :: a in memory ==> IsWord(memory[a].next)
      ensures Valid() && history == Init(memory, threads) && undeceived
    {
      top, size, allocCnt, this.memory := NULL, 0, 0, memory;
      locals := seq(threads, _ => Idle);
      history := Init(memory, threads);
      undeceived := true;
      assert Run(Init(memory, threads), [], AnyStep, Init(memory, threads));
      assert Run(Init(memory, threads), [], Undeceiving, Init(memory, threads));
    }

    /** The object was at `was` and has taken the machine's step. */
    ghost predicate Took(was: State, wasUndeceived: bool, act: Action)
      reads this
    {
      Enabled(was, act) && history == Next(was, act) && undeceived == (wasUndeceived && Undeceived(was, act))
    }

    /** The machine takes the step that the object has just taken. */
    ghost method Advance(act: Action)
      requires Reachable(AnyStep, history) && (undeceived ==> Reachable(Undeceiving, history)) && WordsOnly(history)
      requires Enabled(history, act) && (act.Foreign? ==> IsWord(act.node.next))
      modifies this`history, this`undeceived
      ensures Reachable(AnyStep, history) && (undeceived ==> Reachable(Undeceiving, history)) && WordsOnly(history)
      ensures Took(old(history), old(undeceived), act)
    {
      hide Reachable, WordsOnly, Undeceived, Next;
      Reach(AnyStep, history, act);
      undeceived := undeceived && Undeceived(history, act);
      if undeceived { Reach(Undeceiving, history, act); }
      StepKeepsWords(history, act);
      history := Next(history, act);
    }

    function Load(a: nat): Node
      reads this
    {
      if a in memory then memory[a] else Node(NULL, 0)
    }

    method CompareExchangeTop(exchange: Ptr, comparand: Ptr) returns (seen: Ptr)
      modifies this`top
      ensures seen == old(top) && top == if seen == comparand then exchange else seen
    {
      seen := top;
      if seen == comparand { top := exchange; }
    }

    method CallPush(t: nat, a: nat, d: int)
      requires Valid() && Enabled(history, StackSpec.CallPush(t, a, d))
      modifies this
      ensures Valid() && Took(old(history), old(undeceived), StackSpec.CallPush(t, a, d))
    {
      hide Reachable, WordsOnly, Undeceived, AllWords;
      LocalSet(locals, history.pcs, t, PushCount(a, d));
      memory := memory[a := memory[a].(data := d)];
      locals := locals[t := PushCount(a, d)];
      Advance(StackSpec.CallPush(t, a, d));
    }

    method CallPop(t: nat)
      requires Valid() && Enabled(history, StackSpec.CallPop(t))
      modifies this
      ensures Valid() && Took(old(history), old(undeceived), StackSpec.CallPop(t))
    {
      hide Reachable, WordsOnly, Undeceived, AllWords;
      LocalSet(locals, history.pcs, t, PopRead);
      locals := locals[t := PopRead];
      Advance(StackSpec.CallPop(t));
    }

    /** Another user of the pool writes to a node that this stack does not hold. */
    method ForeignWrite(a: nat, node: Node)
      requires Valid() && Enabled(history, Foreign(a, node)) && IsWord(node.next)
      modifies this
      ensures Valid() && Took(old(history), old(undeceived), Foreign(a, node))
    {
      hide Reachable, WordsOnly, Undeceived, AllWords;
      memory := memory[a := node];
      Advance(Foreign(a, node));
    }

    /** Lines 19-25 of a Push: its count, the top, and the link to it. */
    method ResumePush(t: nat)
      requires Valid() && t < |locals| && (locals[t].PushCount? || locals[t].PushRead? || locals[t].PushLink?)
      modifies this
      ensures Valid() && Took(old(history), old(undeceived), Resume(t))
    {
      hide Reachable, WordsOnly, Undeceived, AllWords;
      LocalIs(locals, history.pcs, t);
      LocalSet(locals, history.pcs, t, Instruction(history, t).pcs[t]);
      match locals[t] {
        case PushCount(a, d) =>
          allocCnt := allocCnt + 1;
          locals := locals[t := PushRead(Cut(Ptr(a, allocCnt)), d)];
        case PushRead(newTop, d) =>
          locals := locals[t := PushLink(newTop, d, top)];
        case PushLink(newTop, d, oldTop) =>
          memory := memory[newTop.addr := Load(newTop.addr).(next := oldTop)];
          locals := locals[t := PushCas(newTop, d, oldTop)];
      }
      Advance(Resume(t));
    }

    /** Lines 27-28: the CAS of a Push and its counter. */
    method FinishPush(t: nat)
      requires Valid() && t < |locals| && (locals[t].PushCas? || locals[t].PushInc?)
      modifies this
      ensures Valid() && Took(old(history), old(undeceived), Resume(t))
    {
      hide Reachable, WordsOnly, Undeceived, AllWords;
      LocalIs(locals, history.pcs, t);
      LocalSet(locals, history.pcs, t, Instruction(history, t).pcs[t]);
      match locals[t] {
        case PushCas(newTop, d, oldTop) =>
          var seen := CompareExchangeTop(newTop, oldTop);
          locals := locals[t := if seen == oldTop then PushInc else PushRead(newTop, d)];
        case PushInc =>
          size := size + 1;
          locals := locals[t := Idle];
      }
      Advance(Resume(t));
    }

    /** Lines 39-51 of a Pop: the top, its successor, and the CAS. */
    method ResumePop(t: nat)
      requires Valid() && t < |locals| && (locals[t].PopRead? || locals[t].PopNext? || locals[t].PopCas?)
      modifies this
      ensures Valid() && Took(old(history), old(undeceived), Resume(t))
    {
      hide Reachable, WordsOnly, Undeceived, AllWords;
      LocalIs(locals, history.pcs, t);
      LocalSet(locals, history.pcs, t, Instruction(history, t).pcs[t]);
      TopIsWord(history);
      match locals[t] {
        case PopRead =>
          locals := locals[t := if top.addr == 0 then Idle else PopNext(Seen(top.addr, top.tag, 0))];
        case PopNext(oldTop) =>
          locals := locals[t := PopCas(oldTop, Load(oldTop.addr).next)];
        case PopCas(oldTop, newTop) =>
          var seen := CompareExchangeTop(newTop, oldTop.Pointer());
          locals := locals[t := if seen == oldTop.Pointer() then PopDec(oldTop, 0) else PopRead];
      }
      Advance(Resume(t));
    }

    /** Lines 52-54: the counter, the data and the Free of a Pop. */
    method FinishPop(t: nat)
      requires Valid() && t < |locals| && (locals[t].PopDec? || locals[t].PopData? || locals[t].PopFree?)
      modifies this
      ensures Valid() && Took(old(history), old(undeceived), Resume(t))
    {
      hide Reachable, WordsOnly, Undeceived, AllWords;
      LocalIs(locals, history.pcs, t);
      LocalSet(locals, history.pcs, t, Instruction(history, t).pcs[t]);
      match locals[t] {
        case PopDec(oldTop, _) =>
          size := size - 1;
          locals := locals[t := PopData(oldTop, 0)];
        case PopData(oldTop, _) =>
          locals := locals[t := PopFree(oldTop, 0, Load(oldTop.addr).data)];
        case PopFree(_, _, _) =>
          locals := locals[t := Idle];
      }
      Advance(Resume(t));
    }
  }
}
