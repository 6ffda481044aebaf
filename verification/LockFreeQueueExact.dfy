/**
 Exactly which runs of the queue are in order: those in which every compare-and-swap that
 succeeds is sound. The guards of `QueueProof` are one way to be sound.
 */
module QueueExact {
  import opened TaggedPointer
  import opened QueueSpec
  import opened QueueProof
  import opened QueueRuns

  /** The words in memory spell the list, and the list holds what first-in, first-out leaves in it. */
  ghost predicate Refines(s: State) {
    Spelled(s) && Fifo(s)
  }

  lemma UnsoundTailBreaks(s: State, t: nat, cap: Seen, next: Ptr, pc: Pc)
    requires Inv(s) && t < |s.pcs| && next.addr != 0 && !TailSound(s, cap, next)
    ensures !Spelled(TailCas(s, t, cap, next, pc))
  {
    var s' := TailCas(s, t, cap, next, pc);
    assert LinkOk(s, s.ti);
    assert s'.tail == next && s'.ti == s.ti + 1 && s'.chain == s.chain;
    assert NodeAt(s, s.chain[s.ti].addr) == NodeAt(s, cap.addr);
  }

  lemma UnsoundLinkBreaks(s: State, t: nat)
    requires Inv(s) && t < |s.pcs| && s.pcs[t].EnqLink? && !Sound(s, t)
    ensures !Spelled(Instruction(s, t))
  {
    LinkExtendsIffListed(s, t);
  }

  lemma UnsoundHeadBreaks(s: State, t: nat)
    requires Inv(s) && t < |s.pcs| && s.pcs[t].DeqCas? && !Sound(s, t)
    ensures !Refines(Instruction(s, t))
  {
    var s' := Instruction(s, t);
    assert ThreadInv(s, t) && LinkOk(s, 0);
    assert s'.chain == s.chain[1..];
    if Refines(s') {
      assert s'.head == Cut(s'.chain[0]) == Cut(s.chain[1]);
      assert LinkOk(s, 1);
      HeadOut(s, s', s.pcs[t].out);
      EndsDiffer(s, s');
    }
  }

  /** If order survives a removal, what was returned was the first value. */
  lemma HeadOut(s: State, s': State, out: int)
    requires Fifo(s) && Fifo(s') && |s.chain| > 1
    requires s'.chain == s.chain[1..] && s'.heap == s.heap && s'.enqs == s.enqs && s'.deqs == s.deqs + [out]
    ensures out == if s.chain[1].addr in s.heap then s.heap[s.chain[1].addr].data else 0
  {
    var all := Values(s.heap, s.chain[1..]);
    assert s'.enqs[|s.deqs|] == out;
    assert s.enqs[|s.deqs|] == all[0];
  }

  /** If the list survives a removal, the tail was not at the head. */
  lemma EndsDiffer(s: State, s': State)
    requires ListInv(s) && Spelled(s') && |s.chain| > 1 && s'.chain == s.chain[1..] && s'.tail == s.tail
    requires s'.ti == if s.ti == 0 then 0 else s.ti - 1
    ensures s.head != s.tail
  {
    assert s.chain[0].addr != s.chain[1].addr;
    if s.ti > 0 { assert s.chain[0].addr != s.chain[s.ti].addr; }
  }

  lemma UnsoundBreaks(s: State, act: Action)
    requires Inv(s) && Enabled(s, act) && !SoundStep(s, act)
    ensures !Refines(Next(s, act))
  {
    var t := act.t;
    assert ThreadInv(s, t);
    match s.pcs[t]
    case EnqHelp(node, d, cap, next) => UnsoundTailBreaks(s, t, cap, next, EnqTail(node, d));
    case EnqSwing(node, cap) => UnsoundTailBreaks(s, t, cap, Cut(node), EnqInc);
    case DeqHelp(cap, next) => UnsoundTailBreaks(s, t, cap, next, DeqHead);
    case EnqLink(_, _, _, _) => UnsoundLinkBreaks(s, t);
    case DeqCas(_, _, _) => UnsoundHeadBreaks(s, t);
  }

  // ---- Single runs

  /** A run without any guard. */
  ghost predicate Path(s: State, acts: seq<Action>)
    decreases |acts|
  {
    acts == [] || (Enabled(s, acts[0]) && Path(Next(s, acts[0]), acts[1..]))
  }

  ghost predicate InOrder(s: State, acts: seq<Action>)
    requires Path(s, acts)
    decreases |acts|
  {
    Refines(s) && (acts != [] ==> InOrder(Next(s, acts[0]), acts[1..]))
  }

  ghost predicate AllSound(s: State, acts: seq<Action>)
    requires Path(s, acts)
    decreases |acts|
  {
    acts != [] ==> SoundStep(s, acts[0]) && AllSound(Next(s, acts[0]), acts[1..])
  }

  lemma InvRefines(s: State)
    requires Inv(s)
    ensures Refines(s)
  {
  }

  lemma {:induction false} InOrderFrom(s: State, acts: seq<Action>)
    requires Inv(s) && Path(s, acts)
    ensures InOrder(s, acts) <==> AllSound(s, acts)
    decreases |acts|
  {
    hide Inv, Next, SoundStep, Refines;
    InvRefines(s);
    if acts != [] {
      if SoundStep(s, acts[0]) {
        StepKeepsInv(s, acts[0]);
        InOrderFrom(Next(s, acts[0]), acts[1..]);
      } else {
        UnsoundBreaks(s, acts[0]);
        NotInOrder(Next(s, acts[0]), acts[1..]);
      }
    }
  }

  lemma NotInOrder(s: State, acts: seq<Action>)
    requires Path(s, acts) && !Refines(s)
    ensures !InOrder(s, acts)
  {
  }

  /** Run by run: the queue is in order throughout if and only if every compare-and-swap is sound. */
  lemma InOrderIffSound(heap: map<nat, Node>, dummy: nat, identifier: nat, threads: nat, acts: seq<Action>)
    requires dummy in heap && dummy != 0 && Path(Init(heap, dummy, identifier, threads), acts)
    ensures InOrder(Init(heap, dummy, identifier, threads), acts) <==>
            AllSound(Init(heap, dummy, identifier, threads), acts)
  {
    InitInv(heap, dummy, identifier, threads);
    InOrderFrom(Init(heap, dummy, identifier, threads), acts);
  }
}
