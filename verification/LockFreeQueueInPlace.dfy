/**
 The queue of Utils/LockFreeQueue.h in place: an object whose fields are the words that exist
 at run time, updated one instruction at a time. The unbounded counts and the history of the
 machine are ghost here, so no instruction can depend on them, and every step of the object
 is the step of the machine, in every run. As long as all its steps were sound (`sound`), the
 machine state is reachable by a sound run, so the theorems about such states are theorems
 about the object.
 */
module QueueInPlace {
  import opened TaggedPointer
  import opened QueueSpec
  import opened QueueProof
  import opened QueueRuns

  /** A thread's local variables as words. */
  function Words(pc: Pc): Pc {
    match pc
    case EnqMark(node, d) => EnqMark(Cut(node), d)
    case EnqTail(node, d) => EnqTail(Cut(node), d)
    case EnqNext(node, d, cap) => EnqNext(Cut(node), d, CutSeen(cap))
    case EnqHelp(node, d, cap, next) => EnqHelp(Cut(node), d, CutSeen(cap), next)
    case EnqLink(node, d, cap, next) => EnqLink(Cut(node), d, CutSeen(cap), next)
    case EnqSwing(node, cap) => EnqSwing(Cut(node), CutSeen(cap))
    case DeqTail(hcap) => DeqTail(CutSeen(hcap))
    case DeqNext(hcap, cap) => DeqNext(CutSeen(hcap), CutSeen(cap))
    case DeqHelp(cap, next) => DeqHelp(CutSeen(cap), next)
    case DeqData(hcap, next) => DeqData(CutSeen(hcap), next)
    case DeqCas(hcap, next, out) => DeqCas(CutSeen(hcap), next, out)
    case _ => pc
  }

  ghost predicate AllWords(locals: seq<Pc>, pcs: seq<Pc>) {
    |locals| == |pcs| && forall t :: 0 <= t < |locals| ==> locals[t] == Words(pcs[t])
  }

  lemma LocalIs(locals: seq<Pc>, pcs: seq<Pc>, t: nat)
    requires AllWords(locals, pcs) && t < |locals|
    ensures t < |pcs| && locals[t] == Words(pcs[t])
  {
  }

  lemma LocalSet(locals: seq<Pc>, pcs: seq<Pc>, t: nat, pc: Pc)
    requires AllWords(locals, pcs) && (t < |locals| || t < |pcs|)
    ensures t < |pcs| && t < |locals| && AllWords(locals[t := Words(pc)], pcs[t := pc])
  {
  }

  /** What fits a 64-bit word: the count has 17 bits. */
  predicate IsWord(p: Ptr) {
    p.tag < TAGS
  }

  /** The word that an instruction has read from a `next` field. */
  function Read(pc: Pc): Ptr {
    match pc
    case EnqHelp(_, _, _, next) => next
    case EnqLink(_, _, _, next) => next
    case DeqHelp(_, next) => next
    case DeqData(_, next) => next
    case DeqCas(_, next, _) => next
    case _ => NULL
  }

  ghost predicate WordsOnly(s: State) {
    && IsWord(s.head) && IsWord(s.tail)
    && (forall a :: a in s.heap ==> IsWord(s.heap[a].next))
    && (forall t :: 0 <= t < |s.pcs| ==> IsWord(Read(s.pcs[t])))
  }

  lemma EndsAreWords(s: State)
    requires WordsOnly(s)
    ensures Cut(s.head) == s.head && Cut(s.tail) == s.tail
  {
  }

  predicate LinkPc(pc: Pc) {
    pc.EnqTail? || pc.EnqNext? || pc.EnqHelp? || pc.EnqLink?
  }

  lemma LinkKeepsWords(s: State, t: nat)
    requires WordsOnly(s) && t < |s.pcs| && LinkPc(s.pcs[t])
    ensures WordsOnly(Instruction(s, t))
  {
    hide Recognize, Marker;
  }

  lemma EnqueueKeepsWords(s: State, t: nat)
    requires WordsOnly(s) && t < |s.pcs| && EnqueuePc(s.pcs[t]) && !LinkPc(s.pcs[t])
    ensures WordsOnly(Instruction(s, t))
  {
    hide Recognize;
  }

  lemma DequeueEndKeepsWords(s: State, t: nat)
    requires WordsOnly(s) && t < |s.pcs| && DequeueEnd(s.pcs[t])
    ensures WordsOnly(Instruction(s, t))
  {
    hide Recognize, Marker, Cut;
  }

  lemma DequeueKeepsWords(s: State, t: nat)
    requires WordsOnly(s) && t < |s.pcs| && !EnqueuePc(s.pcs[t]) && !DequeueEnd(s.pcs[t])
    ensures WordsOnly(Instruction(s, t))
  {
    hide Recognize, Marker;
  }

  lemma StepKeepsWords(s: State, act: Action)
    requires WordsOnly(s) && Enabled(s, act) && (act.Foreign? ==> IsWord(act.node.next))
    ensures WordsOnly(Next(s, act))
  {
    if act.Resume? {
      hide WordsOnly, Instruction;
      if LinkPc(s.pcs[act.t]) { LinkKeepsWords(s, act.t); }
      else if EnqueuePc(s.pcs[act.t]) { EnqueueKeepsWords(s, act.t); }
      else if DequeueEnd(s.pcs[act.t]) { DequeueEndKeepsWords(s, act.t); }
      else { DequeueKeepsWords(s, act.t); }
    }
  }

  class LockFreeQueue {
    var head: Ptr                // m_head
    var tail: Ptr                // m_tail
    var size: int                // m_size
    var allocCnt: nat            // only its low 17 bits are ever used
    const identifier: nat
    var memory: map<nat, Node>   // the nodes of the pool
    var locals: seq<Pc>          // one program counter with local variables per thread
    ghost var history: State
    ghost var sound: bool        // no unsound step so far

    ghost predicate Valid()
      reads this
    {
      && Reachable(AnyStep, history) && (sound ==> Reachable(SoundSteps, history)) && WordsOnly(history)
      && head == history.head && tail == history.tail && size == history.size
      && allocCnt == history.allocCnt && identifier == history.identifier && memory == history.heap
      && AllWords(locals, history.pcs)
    }

    constructor (memory: map<nat, Node>, dummy: nat, identifier: nat, threads: nat)
      requires dummy in memory && dummy != 0 && forall a :: a in memory ==> IsWord(memory[a].next)
      ensures Valid() && history == Init(memory, dummy, identifier, threads) && sound
    {
      size, allocCnt, this.identifier := 0, 0, identifier;
      head, tail := Ptr(dummy, 0), Ptr(dummy, 0);
      this.memory := memory[dummy := memory[dummy].(next := NULL)];
      locals := seq(threads, _ => Idle);
      history := Init(memory, dummy, identifier, threads);
      sound := true;
      assert Run(Init(memory, dummy, identifier, threads), [], AnyStep, Init(memory, dummy, identifier, threads));
      assert Run(Init(memory, dummy, identifier, threads), [], SoundSteps, Init(memory, dummy, identifier, threads));
    }

    /** The object was at `was` and has taken the machine's step. */
    ghost predicate Took(was: State, wasSound: bool, act: Action)
      reads this
    {
      Enabled(was, act) && history == Next(was, act) && sound == (wasSound && SoundStep(was, act))
    }

    /** The machine takes the step that the object has just taken. */
    ghost method Advance(act: Action)
      requires Reachable(AnyStep, history) && (sound ==> Reachable(SoundSteps, history)) && WordsOnly(history)
      requires Enabled(history, act) && (act.Foreign? ==> IsWord(act.node.next))
      modifies this`history, this`sound
      ensures Reachable(AnyStep, history) && (sound ==> Reachable(SoundSteps, history)) && WordsOnly(history)
      ensures Took(old(history), old(sound), act)
    {
      hide Reachable, WordsOnly, SoundStep, Next;
      Reach(AnyStep, history, act);
      sound := sound && SoundStep(history, act);
      if sound { Reach(SoundSteps, history, act); }
      StepKeepsWords(history, act);
      history := Next(history, act);
    }

    function Load(a: nat): Node
      reads this
    {
      if a in memory then memory[a] else Node(NULL, 0)
    }

    method StoreNext(a: nat, next: Ptr)
      modifies this`memory
      ensures memory == old(memory)[a := old(Load(a)).(next := next)]
    {
      memory := memory[a := Load(a).(next := next)];
    }

    method CompareExchangeTail(exchange: Ptr, comparand: Ptr)
      modifies this`tail
      ensures tail == if old(tail) == comparand then exchange else old(tail)
    {
      if tail == comparand { tail := exchange; }
    }

    method CompareExchangeHead(exchange: Ptr, comparand: Ptr) returns (seen: Ptr)
      modifies this`head
      ensures seen == old(head) && head == if seen == comparand then exchange else seen
    {
      seen := head;
      if seen == comparand { head := exchange; }
    }

    method CompareExchangeNext(a: nat, exchange: Ptr, comparand: Ptr) returns (seen: Ptr)
      modifies this`memory
      ensures seen == old(Load(a)).next
      ensures memory == if seen == comparand then old(memory)[a := old(Load(a)).(next := exchange)] else old(memory)
    {
      seen := Load(a).next;
      if seen == comparand { StoreNext(a, exchange); }
    }

    method CallEnqueue(t: nat, a: nat, d: int)
      requires Valid() && Enabled(history, QueueSpec.CallEnqueue(t, a, d))
      modifies this
      ensures Valid() && Took(old(history), old(sound), QueueSpec.CallEnqueue(t, a, d))
    {
      hide Reachable, WordsOnly, SoundStep, AllWords;
      LocalSet(locals, history.pcs, t, EnqNull(a, d));
      memory := memory[a := memory[a].(data := d)];
      locals := locals[t := EnqNull(a, d)];
      Advance(QueueSpec.CallEnqueue(t, a, d));
    }

    method CallDequeue(t: nat)
      requires Valid() && Enabled(history, QueueSpec.CallDequeue(t))
      modifies this
      ensures Valid() && Took(old(history), old(sound), QueueSpec.CallDequeue(t))
    {
      hide Reachable, WordsOnly, SoundStep, AllWords;
      LocalSet(locals, history.pcs, t, DeqDec);
      locals := locals[t := DeqDec];
      Advance(QueueSpec.CallDequeue(t));
    }

    /** Another user of the pool writes to a node that this queue does not hold. */
    method ForeignWrite(a: nat, node: Node)
      requires Valid() && Enabled(history, Foreign(a, node)) && IsWord(node.next)
      modifies this
      ensures Valid() && Took(old(history), old(sound), Foreign(a, node))
    {
      hide Reachable, WordsOnly, SoundStep, AllWords;
      memory := memory[a := node];
      Advance(Foreign(a, node));
    }

    /** Lines 24-31 of an Enqueue: the node gets its count and its marker. */
    method ResumePrepare(t: nat)
      requires Valid() && t < |locals| && (locals[t].EnqNull? || locals[t].EnqCount? || locals[t].EnqMark?)
      modifies this
      ensures Valid() && Took(old(history), old(sound), Resume(t))
    {
      hide Reachable, WordsOnly, SoundStep, AllWords;
      LocalIs(locals, history.pcs, t);
      LocalSet(locals, history.pcs, t, Instruction(history, t).pcs[t]);
      match locals[t] {
        case EnqNull(a, d) =>
          StoreNext(a, NULL);
          locals := locals[t := EnqCount(a, d)];
        case EnqCount(a, d) =>
          allocCnt := allocCnt + 1;
          locals := locals[t := EnqMark(Cut(Ptr(a, allocCnt)), d)];
        case EnqMark(newNode, d) =>
          StoreNext(newNode.addr, Marker(identifier));
          locals := locals[t := EnqTail(newNode, d)];
      }
      Advance(Resume(t));
    }

    /** Lines 35-40 of an Enqueue: it reads the tail and its successor. */
    method ResumeFind(t: nat)
      requires Valid() && t < |locals| && (locals[t].EnqTail? || locals[t].EnqNext?)
      modifies this
      ensures Valid() && Took(old(history), old(sound), Resume(t))
    {
      hide Reachable, WordsOnly, SoundStep, AllWords;
      LocalIs(locals, history.pcs, t);
      LocalSet(locals, history.pcs, t, Instruction(history, t).pcs[t]);
      match locals[t] {
        case EnqTail(newNode, d) =>
          EndsAreWords(history);
          locals := locals[t := EnqNext(newNode, d, Seen(tail.addr, tail.tag, 0))];
        case EnqNext(newNode, d, tailCap) =>
          var nextCap := Load(tailCap.addr).next;
          locals := locals[t := if nextCap.addr != 0 then EnqHelp(newNode, d, tailCap, nextCap)
              else EnqLink(newNode, d, tailCap, nextCap)];
      }
      Advance(Resume(t));
    }

    /** Lines 42 and 52 of an Enqueue: the compare-and-swaps on m_tail. */
    method ResumeHelp(t: nat)
      requires Valid() && t < |locals| && (locals[t].EnqHelp? || locals[t].EnqSwing?)
      modifies this
      ensures Valid() && Took(old(history), old(sound), Resume(t))
    {
      hide Reachable, WordsOnly, SoundStep, AllWords, Recognize, Marker, NodeAt;
      LocalIs(locals, history.pcs, t);
      LocalSet(locals, history.pcs, t, Instruction(history, t).pcs[t]);
      match locals[t] {
        case EnqHelp(newNode, d, tailCap, nextCap) =>
          CompareExchangeTail(nextCap, tailCap.Pointer());
          locals := locals[t := EnqTail(newNode, d)];
        case EnqSwing(newNode, tailCap) =>
          CompareExchangeTail(newNode, tailCap.Pointer());
          locals := locals[t := EnqInc];
      }
      Advance(Resume(t));
    }

    /** Line 85: a Dequeue helps the tail on. */
    method ResumeAssist(t: nat)
      requires Valid() && t < |locals| && locals[t].DeqHelp?
      modifies this
      ensures Valid() && Took(old(history), old(sound), Resume(t))
    {
      hide Reachable, WordsOnly, SoundStep, AllWords, Recognize, Marker, NodeAt;
      LocalIs(locals, history.pcs, t);
      LocalSet(locals, history.pcs, t, Instruction(history, t).pcs[t]);
      match locals[t] {
        case DeqHelp(tailCap, nextCap) =>
          CompareExchangeTail(nextCap, tailCap.Pointer());
          locals := locals[t := DeqHead];
      }
      Advance(Resume(t));
    }

    /** Line 46 of an Enqueue: the link CAS. */
    method ResumeLink(t: nat)
      requires Valid() && t < |locals| && locals[t].EnqLink?
      modifies this
      ensures Valid() && Took(old(history), old(sound), Resume(t))
    {
      hide Reachable, WordsOnly, SoundStep, AllWords, Recognize, Marker;
      LocalIs(locals, history.pcs, t);
      LocalSet(locals, history.pcs, t, Instruction(history, t).pcs[t]);
      match locals[t] {
        case EnqLink(newNode, d, tailCap, nextCap) =>
          var seen := CompareExchangeNext(tailCap.addr, newNode, nextCap);
          locals := locals[t := if seen == nextCap then EnqSwing(newNode, tailCap) else EnqTail(newNode, d)];
      }
      Advance(Resume(t));
    }

    /** Lines 53, 58-61 and 92: the counter, and the Free at the end of a Dequeue. */
    method ResumeCount(t: nat)
      requires Valid() && t < |locals|
      requires locals[t].EnqInc? || locals[t].DeqDec? || locals[t].DeqUndo? || locals[t].DeqFree?
      modifies this
      ensures Valid() && Took(old(history), old(sound), Resume(t))
    {
      hide Reachable, WordsOnly, SoundStep, AllWords, Recognize, Marker, NodeAt;
      LocalIs(locals, history.pcs, t);
      LocalSet(locals, history.pcs, t, Instruction(history, t).pcs[t]);
      match locals[t] {
        case EnqInc =>
          size := size + 1;
          locals := locals[t := Idle];
        case DeqDec =>
          size := size - 1;
          locals := locals[t := if size < 0 then DeqUndo else DeqHead];
        case DeqUndo =>
          size := size + 1;
          locals := locals[t := Idle];
        case DeqFree(_, _) =>
          locals := locals[t := Idle];
      }
      Advance(Resume(t));
    }

    /** Lines 72-73: a Dequeue reads the head and the tail. */
    method ResumeRead(t: nat)
      requires Valid() && t < |locals| && (locals[t].DeqHead? || locals[t].DeqTail?)
      modifies this
      ensures Valid() && Took(old(history), old(sound), Resume(t))
    {
      hide Reachable, WordsOnly, SoundStep, AllWords, Marker;
      LocalIs(locals, history.pcs, t);
      LocalSet(locals, history.pcs, t, Instruction(history, t).pcs[t]);
      EndsAreWords(history);
      match locals[t] {
        case DeqHead =>
          locals := locals[t := DeqTail(Seen(head.addr, head.tag, 0))];
        case DeqTail(headCap) =>
          locals := locals[t := DeqNext(headCap, Seen(tail.addr, tail.tag, 0))];
      }
      Advance(Resume(t));
    }

    /** Lines 75-83: it reads the successor of the head. */
    method ResumePeek(t: nat)
      requires Valid() && t < |locals| && locals[t].DeqNext?
      modifies this
      ensures Valid() && Took(old(history), old(sound), Resume(t))
    {
      hide Reachable, WordsOnly, SoundStep, AllWords, Recognize, Marker;
      LocalIs(locals, history.pcs, t);
      LocalSet(locals, history.pcs, t, Instruction(history, t).pcs[t]);
      match locals[t] {
        case DeqNext(headCap, tailCap) =>
          var nextCap := Load(headCap.addr).next;
          locals := locals[t := if nextCap.addr == 0 then DeqHead
                                else if headCap == tailCap then DeqHelp(tailCap, nextCap)
                                else DeqData(headCap, nextCap)];
      }
      Advance(Resume(t));
    }

    /** Line 89: it reads the data before the CAS on the head. */
    method ResumeData(t: nat)
      requires Valid() && t < |locals| && locals[t].DeqData?
      modifies this
      ensures Valid() && Took(old(history), old(sound), Resume(t))
    {
      hide Reachable, WordsOnly, SoundStep, AllWords, Recognize, Marker;
      LocalIs(locals, history.pcs, t);
      LocalSet(locals, history.pcs, t, Instruction(history, t).pcs[t]);
      match locals[t] {
        case DeqData(headCap, nextCap) =>
          locals := locals[t := DeqCas(headCap, nextCap, Load(nextCap.addr).data)];
      }
      Advance(Resume(t));
    }

    /** Line 90: the CAS on m_head. */
    method ResumeTake(t: nat)
      requires Valid() && t < |locals| && locals[t].DeqCas?
      modifies this
      ensures Valid() && Took(old(history), old(sound), Resume(t))
    {
      hide Reachable, WordsOnly, SoundStep, AllWords, Recognize, Marker, NodeAt;
      LocalIs(locals, history.pcs, t);
      LocalSet(locals, history.pcs, t, Instruction(history, t).pcs[t]);
      match locals[t] {
        case DeqCas(headCap, nextCap, out) =>
          var seen := CompareExchangeHead(nextCap, headCap.Pointer());
          locals := locals[t := if seen == headCap.Pointer() then DeqFree(headCap.addr, out) else DeqHead];
      }
      Advance(Resume(t));
    }
  }
}
