/**
 Many queues over one node pool. To each of them what the others do is a foreign write, so
 all of them stay in order, and none ever links a node into another.
 */
module QueuePool {
  import opened TaggedPointer
  import opened QueueSpec
  import opened QueueProof
  import opened QueueRuns
  import opened QueueExact

  /**
   The nodes, and the queues with their own view of the same nodes. Identifiers are the order
   of creation; there are fewer than 2^17. Alloc hands out nodes that no queue holds.
   */
  datatype Pool = Pool(heap: map<nat, Node>, queues: seq<State>)

  datatype PoolAction =
    | Create(dummy: nat, threads: nat)   // the constructor; Alloc returned dummy
    | Of(i: nat, act: Action)            // a step of queue i

  predicate Unheld(p: Pool, a: nat) {
    forall j :: 0 <= j < |p.queues| ==> HolderOf(p.queues[j], a).Outside?
  }

  predicate PoolEnabled(p: Pool, pa: PoolAction) {
    match pa
    case Create(dummy, _) => |p.queues| + 1 < TAGS && dummy != 0 && dummy in p.heap && Unheld(p, dummy)
    case Of(i, act) =>
      && i < |p.queues| && !act.Foreign? && Enabled(p.queues[i], act)
      && (act.CallEnqueue? ==> Unheld(p, act.a))
  }

  predicate PoolSound(p: Pool, pa: PoolAction) {
    pa.Of? ==> pa.i < |p.queues| && SoundStep(p.queues[pa.i], pa.act)
  }

  predicate PoolGuarded(p: Pool, pa: PoolAction) {
    pa.Of? ==> pa.i < |p.queues| && Guarded(p.queues[pa.i], pa.act)
  }

  function Shared(queues: seq<State>, heap: map<nat, Node>): (r: seq<State>)
    ensures |r| == |queues|
  {
    seq(|queues|, j requires 0 <= j < |queues| => queues[j].(heap := heap))
  }

  function PoolNext(p: Pool, pa: PoolAction): Pool
    requires PoolEnabled(p, pa)
  {
    match pa
    case Create(dummy, threads) =>
      var q := Init(p.heap, dummy, |p.queues| + 1, threads);
      Pool(q.heap, Shared(p.queues, q.heap) + [q])
    case Of(i, act) =>
      var q := Next(p.queues[i], act);
      Pool(q.heap, Shared(p.queues, q.heap)[i := q])
  }

  // ---- Invariant

  /** No node that the queue does not hold carries its marker, whether it ever held it or not. */
  ghost predicate Clean(s: State) {
    forall a: nat :: HolderOf(s, a).Outside? ==> NodeAt(s, a).next != Marker(s.identifier)
  }

  ghost predicate QueueOk(p: Pool, j: nat)
    requires j < |p.queues|
  {
    var q := p.queues[j];
    q.heap == p.heap && q.identifier == j + 1 && Inv(q) && Clean(q)
  }

  /** An empty `next` is null or the marker of a queue that exists. */
  ghost predicate MarkersKnown(p: Pool) {
    forall a :: a in p.heap && p.heap[a].next.addr == 0 ==> p.heap[a].next.tag <= |p.queues|
  }

  ghost predicate HoldersDisjoint(p: Pool) {
    forall i, j, a: nat :: 0 <= i < j < |p.queues| ==>
        HolderOf(p.queues[i], a).Outside? || HolderOf(p.queues[j], a).Outside?
  }

  ghost predicate PoolInv(p: Pool) {
    && |p.queues| < TAGS
    && (forall j :: 0 <= j < |p.queues| ==> QueueOk(p, j))
    && MarkersKnown(p) && HoldersDisjoint(p)
  }

  // ---- What a step writes

  /** The node that a step writes to, if any: one that its queue holds or has just been given. */
  function Target(s: State, act: Action): nat
    requires act.Resume? ==> act.t < |s.pcs|
  {
    match act
    case CallEnqueue(_, a, _) => a
    case CallDequeue(_) => 0
    case Foreign(a, _) => a
    case Resume(t) =>
      match s.pcs[t]
      case EnqNull(a, _) => a
      case EnqMark(node, _) => node.addr
      case EnqLink(_, _, cap, _) => cap.addr
      case _ => 0
  }

  lemma OnlyThreeWrite(s: State, t: nat)
    requires t < |s.pcs| && Enabled(s, Resume(t)) && Next(s, Resume(t)).heap != s.heap
    ensures var pc := s.pcs[t];
            pc.EnqNull? || pc.EnqMark? || (pc.EnqLink? && NodeAt(s, pc.cap.addr).next == pc.next)
  {
    hide Instruction;
    if EnqueuePc(s.pcs[t]) { EnqueueWrites(s, t); }
    else if DequeueEnd(s.pcs[t]) { DequeueEndWrites(s, t); }
    else { DequeueWrites(s, t); }
  }

  lemma EnqueueWrites(s: State, t: nat)
    requires t < |s.pcs| && EnqueuePc(s.pcs[t]) && Instruction(s, t).heap != s.heap
    ensures var pc := s.pcs[t];
            pc.EnqNull? || pc.EnqMark? || (pc.EnqLink? && NodeAt(s, pc.cap.addr).next == pc.next)
  {
    hide Recognize, Marker, Cut;
  }

  lemma DequeueEndWrites(s: State, t: nat)
    requires t < |s.pcs| && DequeueEnd(s.pcs[t])
    ensures Instruction(s, t).heap == s.heap
  {
    hide Recognize, Marker, Cut, NodeAt;
  }

  lemma DequeueWrites(s: State, t: nat)
    requires t < |s.pcs| && !EnqueuePc(s.pcs[t]) && !DequeueEnd(s.pcs[t])
    ensures Instruction(s, t).heap == s.heap
  {
    hide Recognize, Marker, Cut, NodeAt;
  }

  lemma WriteOk(s: State, t: nat)
    requires Inv(s) && t < |s.pcs| && Sound(s, t) && ThreadInv(s, t)
    requires s.pcs[t].EnqNull? || s.pcs[t].EnqMark? ||
             (s.pcs[t].EnqLink? && NodeAt(s, s.pcs[t].cap.addr).next == s.pcs[t].next)
    ensures Wrote(s, Instruction(s, t), Target(s, Resume(t)))
  {
    hide Recognize;
  }

  /** One node that the queue holds was written; its `next` is what it was, null, the queue's marker or a link. */
  ghost predicate Wrote(s: State, s': State, a: nat) {
    && a in s.heap && a in s'.heap && s'.heap == s.heap[a := s'.heap[a]] && !HolderOf(s, a).Outside?
    && (s'.heap[a].next == s.heap[a].next || s'.heap[a].next == NULL || s'.heap[a].next == Marker(s.identifier)
        || s'.heap[a].next.addr != 0)
  }

  /** A step writes at most one node, which its queue holds or was just given. */
  lemma WritesTarget(s: State, act: Action)
    requires Inv(s) && Enabled(s, act) && SoundStep(s, act) && !act.Foreign?
    ensures var s', a := Next(s, act), Target(s, act);
            s'.heap == s.heap || Wrote(s, s', a) ||
            (act.CallEnqueue? && act.a == a && a in s.heap && a in s'.heap && s'.heap == s.heap[a := s'.heap[a]]
             && s'.heap[a].next == s.heap[a].next)
  {
    if act.Resume? && Next(s, act).heap != s.heap {
      hide Instruction, Wrote, ListInv, ThreadInv, Sound;
      assert ThreadInv(s, act.t);
      OnlyThreeWrite(s, act.t);
      WriteOk(s, act.t);
    }
  }

  /** A step takes hold of no node but the one it was given. */
  lemma HoldsNoMore(s: State, act: Action, a: nat)
    requires Inv(s) && Enabled(s, act) && SoundStep(s, act) && HolderOf(s, a).Outside?
    requires !(act.CallEnqueue? && act.a == a)
    ensures HolderOf(Next(s, act), a).Outside?
  {
    if act.Resume? {
      assert ThreadInv(s, act.t);
      if s.pcs[act.t].DeqCas? && s.head == Cut(s.pcs[act.t].hcap.Pointer()) {
        HeadCasTakesFirst(s, act.t);
        assert Live(s, s.chain[0]);
      }
    }
  }

  // ---- What a step is to the others

  /** To a queue that does not hold the node, a write that does not leave its marker is a foreign step. */
  lemma SeesForeign(q: State, a: nat, node: Node)
    requires Inv(q) && Clean(q) && a in q.heap && HolderOf(q, a).Outside? && node.next != Marker(q.identifier)
    ensures Enabled(q, Foreign(a, node)) && q.(heap := q.heap[a := node]) == Next(q, Foreign(a, node))
    ensures Inv(q.(heap := q.heap[a := node])) && Clean(q.(heap := q.heap[a := node]))
  {
    hide Inv;
    StepKeepsInv(q, Foreign(a, node));
    var q' := q.(heap := q.heap[a := node]);
    forall b: nat | HolderOf(q', b).Outside?
      ensures NodeAt(q', b).next != Marker(q'.identifier)
    {
      assert HolderOf(q, b).Outside? && NodeAt(q', b) == if b == a then node else NodeAt(q, b);
    }
  }

  lemma CleanKept(s: State, act: Action)
    requires Inv(s) && Clean(s) && Enabled(s, act) && SoundStep(s, act) && !act.Foreign?
    ensures Clean(Next(s, act))
  {
    var s' := Next(s, act);
    IdentifierKept(s, act);
    forall a: nat | HolderOf(s', a).Outside?
      ensures NodeAt(s', a).next != Marker(s.identifier)
    {
      CleanAt(s, act, a);
    }
  }

  lemma EnqueueKeepsIdentifier(s: State, t: nat)
    requires t < |s.pcs| && EnqueuePc(s.pcs[t])
    ensures Instruction(s, t).identifier == s.identifier
  {
    hide Cut, Recognize, NodeAt, Marker;
  }

  lemma DequeueKeepsIdentifier(s: State, t: nat)
    requires t < |s.pcs| && !EnqueuePc(s.pcs[t])
    ensures Instruction(s, t).identifier == s.identifier
  {
    hide Cut, Recognize, NodeAt, Marker;
  }

  lemma IdentifierKept(s: State, act: Action)
    requires Enabled(s, act)
    ensures Next(s, act).identifier == s.identifier
  {
    if act.Resume? {
      hide Instruction;
      if EnqueuePc(s.pcs[act.t]) { EnqueueKeepsIdentifier(s, act.t); } else { DequeueKeepsIdentifier(s, act.t); }
    }
  }

  lemma LinkTargetHeld(s: State, t: nat)
    requires Inv(s) && t < |s.pcs| && s.pcs[t].EnqLink? && Sound(s, t) && ThreadInv(s, t)
    requires NodeAt(s, s.pcs[t].cap.addr).next == s.pcs[t].next
    ensures !HolderOf(Next(s, Resume(t)), s.pcs[t].cap.addr).Outside?
  {
    hide Cut, Recognize, Marker, Sound;
    LinkCasHitsEnd(s, t);
    assert AddrInv(s, s.pcs[t].cap.addr);
  }

  lemma OwnTargetHeld(s: State, t: nat)
    requires t < |s.pcs| && (s.pcs[t].EnqNull? || s.pcs[t].EnqMark?) && ThreadInv(s, t)
    ensures !HolderOf(Next(s, Resume(t)), Target(s, Resume(t))).Outside?
  {
    hide Cut, Recognize, Marker;
  }

  /** What is written is held afterwards. */
  lemma TargetHeld(s: State, act: Action)
    requires Inv(s) && Enabled(s, act) && SoundStep(s, act) && !act.Foreign? && Next(s, act).heap != s.heap
    ensures !HolderOf(Next(s, act), Target(s, act)).Outside?
  {
    if act.Resume? {
      hide Next, ListInv, ThreadInv;
      assert ThreadInv(s, act.t);
      OnlyThreeWrite(s, act.t);
      if s.pcs[act.t].EnqLink? {
        LinkTargetHeld(s, act.t);
      } else {
        OwnTargetHeld(s, act.t);
      }
    }
  }

  /** Only a retired node is given back, and it has a successor. */
  lemma GivesBackRetired(s: State, act: Action, a: nat)
    requires Inv(s) && Enabled(s, act) && !act.Foreign?
    requires !HolderOf(s, a).Outside? && HolderOf(Next(s, act), a).Outside?
    ensures NodeAt(s, a).next.addr != 0
  {
    assert AddrInv(s, a);
    if act.Resume? { assert ThreadInv(s, act.t); }
  }

  lemma CleanAt(s: State, act: Action, a: nat)
    requires Inv(s) && Clean(s) && Enabled(s, act) && SoundStep(s, act) && !act.Foreign? &&
            HolderOf(Next(s, act), a).Outside?
    ensures NodeAt(Next(s, act), a).next != Marker(s.identifier)
  {
    hide Inv, Next, SoundStep;
    WritesTarget(s, act);
    if Next(s, act).heap != s.heap { TargetHeld(s, act); }
    if !HolderOf(s, a).Outside? { GivesBackRetired(s, act, a); }
    assert NodeAt(Next(s, act), a) == NodeAt(s, a);
  }

  // ---- Every step of the pool

  lemma OtherOk(p: Pool, i: nat, act: Action, j: nat)
    requires PoolInv(p) && PoolEnabled(p, Of(i, act)) && PoolSound(p, Of(i, act)) && j < |p.queues| && j != i
    ensures QueueOk(PoolNext(p, Of(i, act)), j)
  {
    hide Inv, Clean, Next;
    var s, q := p.queues[i], p.queues[j];
    assert QueueOk(p, i) && QueueOk(p, j);
    WritesTarget(s, act);
    var s', a := Next(s, act), Target(s, act);
    if s'.heap != s.heap {
      assert HolderOf(q, a).Outside?;
      CleanAway(q, a);
      assert s'.heap[a].next != Marker(q.identifier);
      SeesForeign(q, a, s'.heap[a]);
    } else {
      assert q.(heap := s.heap) == q;
    }
  }

  lemma CleanAway(q: State, a: nat)
    requires Clean(q) && HolderOf(q, a).Outside?
    ensures NodeAt(q, a).next != Marker(q.identifier)
  {
  }

  lemma OfOk(p: Pool, i: nat, act: Action)
    requires PoolInv(p) && PoolEnabled(p, Of(i, act)) && PoolSound(p, Of(i, act))
    ensures PoolInv(PoolNext(p, Of(i, act)))
  {
    hide Inv, Clean, Next;
    var s, p' := p.queues[i], PoolNext(p, Of(i, act));
    assert QueueOk(p, i);
    StepKeepsInv(s, act);
    CleanKept(s, act);
    IdentifierKept(s, act);
    forall j | 0 <= j < |p'.queues|
      ensures QueueOk(p', j)
    {
      if j != i { OtherOk(p, i, act, j); }
    }
    WritesTarget(s, act);
    forall j, k, a: nat | 0 <= j < k < |p'.queues|
      ensures HolderOf(p'.queues[j], a).Outside? || HolderOf(p'.queues[k], a).Outside?
    {
      StillDisjoint(p, i, act, j, k, a);
    }
  }

  lemma StillDisjoint(p: Pool, i: nat, act: Action, j: nat, k: nat, a: nat)
    requires PoolInv(p) && PoolEnabled(p, Of(i, act)) && PoolSound(p, Of(i, act)) && j < k < |p.queues|
    ensures var p' := PoolNext(p, Of(i, act)); HolderOf(p'.queues[j], a).Outside? || HolderOf(p'.queues[k], a).Outside?
  {
    hide Inv, Clean, Next;
    var s := p.queues[i];
    assert QueueOk(p, i);
    if HolderOf(s, a).Outside? && !(act.CallEnqueue? && act.a == a) {
      HoldsNoMore(s, act, a);
    }
  }

  lemma CreateOk(p: Pool, dummy: nat, threads: nat)
    requires PoolInv(p) && PoolEnabled(p, Create(dummy, threads))
    ensures PoolInv(PoolNext(p, Create(dummy, threads)))
  {
    hide Inv;
    var n, p' := |p.queues|, PoolNext(p, Create(dummy, threads));
    InitInv(p.heap, dummy, n + 1, threads);
    forall j | 0 <= j < |p'.queues|
      ensures QueueOk(p', j)
    {
      if j < n {
        assert QueueOk(p, j);
        SeesForeign(p.queues[j], dummy, p.heap[dummy].(next := NULL));
      } else {
        assert Clean(p'.queues[n]);
      }
    }
  }

  // ---- Every run

  ghost predicate PoolRun(p: Pool, acts: seq<PoolAction>, p': Pool)
    decreases |acts|
  {
    if acts == [] then p' == p
    else PoolEnabled(p, acts[0]) && PoolSound(p, acts[0]) && PoolRun(PoolNext(p, acts[0]), acts[1..], p')
  }

  /** No queue yet, and no node that looks like the end of one. */
  ghost predicate Unmarked(heap: map<nat, Node>) {
    forall a :: a in heap && heap[a].next.addr == 0 ==> heap[a].next == NULL
  }

  lemma {:induction false} PoolRunKeepsInv(p: Pool, acts: seq<PoolAction>, p': Pool)
    requires PoolInv(p) && PoolRun(p, acts, p')
    ensures PoolInv(p')
    decreases |acts|
  {
    hide PoolInv, PoolNext;
    if acts != [] {
      PoolStepOk(p, acts[0]);
      PoolRunKeepsInv(PoolNext(p, acts[0]), acts[1..], p');
    }
  }

  /**
   Over every sound run of any number of queues on one pool: each queue is in order, no node
   is held by two of them, and a link CAS that succeeds links behind a node of its own queue.
   */
  lemma QueuesStayApart(heap: map<nat, Node>, acts: seq<PoolAction>, p: Pool, j: nat)
    requires Unmarked(heap) && PoolRun(Pool(heap, []), acts, p) && j < |p.queues|
    ensures var q := p.queues[j];
            q.heap == p.heap && Spelled(q) && q.enqs == q.deqs + Values(q.heap, q.chain[1..])
    ensures forall k, a: nat :: 0 <= k < |p.queues| && k != j ==>
              HolderOf(p.queues[j], a).Outside? || HolderOf(p.queues[k], a).Outside?
  {
    PoolRunKeepsInv(Pool(heap, []), acts, p);
    assert QueueOk(p, j);
  }

  /**
   A link CAS that succeeds while it compares its own queue's marker writes to no node of
   another queue, whatever its thread has slept through; nor does a sound one.
   */
  lemma NoCrossLinks(heap: map<nat, Node>, acts: seq<PoolAction>, p: Pool, i: nat, t: nat, k: nat)
    requires Unmarked(heap) && PoolRun(Pool(heap, []), acts, p) && i < |p.queues| && k < |p.queues| && k != i
    requires PoolEnabled(p, Of(i, Resume(t))) && p.queues[i].pcs[t].EnqLink?
    requires var q := p.queues[i];
             && NodeAt(q, q.pcs[t].cap.addr).next == q.pcs[t].next
             && (q.pcs[t].next == Marker(q.identifier) || PoolSound(p, Of(i, Resume(t))))
    ensures !HolderOf(p.queues[i], p.queues[i].pcs[t].cap.addr).Outside?
    ensures HolderOf(p.queues[k], p.queues[i].pcs[t].cap.addr).Outside?
  {
    PoolRunKeepsInv(Pool(heap, []), acts, p);
    hide Inv;
    assert QueueOk(p, i);
  }

  // ---- Guarded runs, and exactly which runs are in order

  lemma GuardedPoolStepSound(p: Pool, pa: PoolAction)
    requires PoolInv(p) && PoolEnabled(p, pa) && PoolGuarded(p, pa)
    ensures PoolSound(p, pa)
  {
    hide Inv;
    if pa.Of? {
      assert QueueOk(p, pa.i);
      GuardedStepSound(p.queues[pa.i], pa.act);
    }
  }

  ghost predicate PoolPath(p: Pool, acts: seq<PoolAction>)
    decreases |acts|
  {
    acts == [] || (PoolEnabled(p, acts[0]) && PoolPath(PoolNext(p, acts[0]), acts[1..]))
  }

  ghost predicate AllInOrder(p: Pool) {
    forall j :: 0 <= j < |p.queues| ==> Refines(p.queues[j])
  }

  ghost predicate PoolInOrder(p: Pool, acts: seq<PoolAction>)
    requires PoolPath(p, acts)
    decreases |acts|
  {
    AllInOrder(p) && (acts != [] ==> PoolInOrder(PoolNext(p, acts[0]), acts[1..]))
  }

  ghost predicate PoolAllSound(p: Pool, acts: seq<PoolAction>)
    requires PoolPath(p, acts)
    decreases |acts|
  {
    acts != [] ==> PoolSound(p, acts[0]) && PoolAllSound(PoolNext(p, acts[0]), acts[1..])
  }

  lemma PoolInvInOrder(p: Pool)
    requires PoolInv(p)
    ensures AllInOrder(p)
  {
    forall j | 0 <= j < |p.queues|
      ensures Refines(p.queues[j])
    {
      assert QueueOk(p, j);
      InvRefines(p.queues[j]);
    }
  }

  lemma UnsoundBreaksPool(p: Pool, pa: PoolAction)
    requires PoolInv(p) && PoolEnabled(p, pa) && !PoolSound(p, pa)
    ensures !AllInOrder(PoolNext(p, pa))
  {
    hide Inv, Refines, Next, SoundStep;
    assert QueueOk(p, pa.i);
    UnsoundBreaks(p.queues[pa.i], pa.act);
    assert PoolNext(p, pa).queues[pa.i] == Next(p.queues[pa.i], pa.act);
  }

  lemma PoolStepOk(p: Pool, pa: PoolAction)
    requires PoolInv(p) && PoolEnabled(p, pa) && PoolSound(p, pa)
    ensures PoolInv(PoolNext(p, pa))
  {
    hide PoolInv, PoolNext;
    match pa
    case Create(dummy, threads) => CreateOk(p, dummy, threads);
    case Of(i, act) => OfOk(p, i, act);
  }

  lemma {:induction false} PoolInOrderFrom(p: Pool, acts: seq<PoolAction>)
    requires PoolInv(p) && PoolPath(p, acts)
    ensures PoolInOrder(p, acts) <==> PoolAllSound(p, acts)
    decreases |acts|
  {
    hide PoolInv, PoolNext, PoolSound, AllInOrder, PoolEnabled;
    PoolInvInOrder(p);
    if acts != [] {
      if PoolSound(p, acts[0]) {
        PoolStepOk(p, acts[0]);
        PoolInOrderFrom(PoolNext(p, acts[0]), acts[1..]);
      } else {
        UnsoundBreaksPool(p, acts[0]);
      }
    }
  }

  /** Run by run: all queues are in order throughout if and only if every compare-and-swap in the pool is sound. */
  lemma PoolInOrderIffSound(heap: map<nat, Node>, acts: seq<PoolAction>)
    requires Unmarked(heap) && PoolPath(Pool(heap, []), acts)
    ensures PoolInOrder(Pool(heap, []), acts) <==> PoolAllSound(Pool(heap, []), acts)
  {
    PoolInOrderFrom(Pool(heap, []), acts);
  }
}
