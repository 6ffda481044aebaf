/**
 The identifier in the empty marker is there to keep queues apart. But a slow Enqueue can read
 another queue's marker, and then links into that queue.
 */
module QueueCrossLink {
  import opened TaggedPointer
  import opened QueueSpec
  import opened QueueProof
  import opened QueueRuns
  import opened QueuePool
  import opened QueueRecycling

  predicate PoolTagged(p: Pool, pa: PoolAction) {
    pa.Of? ==> pa.i < |p.queues| && Permitted(p.queues[pa.i], pa.act, Tagged(false))
  }

  /** A run in which no tag comes round, without the link guard. */
  ghost predicate TaggedRun(p: Pool, acts: seq<PoolAction>, p': Pool)
    decreases |acts|
  {
    if acts == [] then p' == p
    else PoolEnabled(p, acts[0]) && PoolTagged(p, acts[0]) && TaggedRun(PoolNext(p, acts[0]), acts[1..], p')
  }

  ghost predicate PoolReaches(heap: map<nat, Node>, p: Pool) {
    exists acts :: TaggedRun(Pool(heap, []), acts, p)
  }

  lemma {:induction false} TaggedRunAppend(p: Pool, acts: seq<PoolAction>, m: Pool, pa: PoolAction)
    requires TaggedRun(p, acts, m) && PoolEnabled(m, pa) && PoolTagged(m, pa)
    ensures TaggedRun(p, acts + [pa], PoolNext(m, pa))
    decreases |acts|
  {
    hide PoolNext, PoolEnabled, PoolTagged;
    if acts == [] {
      assert (acts + [pa])[1..] == [];
    } else {
      TaggedRunAppend(PoolNext(p, acts[0]), acts[1..], m, pa);
      assert (acts + [pa])[1..] == acts[1..] + [pa];
    }
  }

  lemma PoolTake(heap: map<nat, Node>, p: Pool, pa: PoolAction)
    requires PoolReaches(heap, p) && PoolEnabled(p, pa) && PoolTagged(p, pa)
    ensures PoolReaches(heap, PoolNext(p, pa))
  {
    hide PoolNext, PoolEnabled, PoolTagged, TaggedRun;
    var acts :| TaggedRun(Pool(heap, []), acts, p);
    TaggedRunAppend(Pool(heap, []), acts, p, pa);
  }

  // ---- One queue walks, the others stand still

  /** The pool with queue `i` in state `q`. */
  function With(p: Pool, i: nat, q: State): Pool
    requires i < |p.queues|
  {
    Pool(q.heap, Shared(p.queues, q.heap)[i := q])
  }

  /** Every queue sees the nodes of the pool, and no queue but `i` holds any of `nodes`. */
  ghost predicate Aside(p: Pool, i: nat, nodes: set<nat>) {
    && (forall j :: 0 <= j < |p.queues| ==> p.queues[j].heap == p.heap)
    && (forall j, a :: 0 <= j < |p.queues| && j != i && a in nodes ==> HolderOf(p.queues[j], a).Outside?)
  }

  lemma WalkStep(heap: map<nat, Node>, p: Pool, i: nat, act: Action, nodes: set<nat>)
    requires PoolReaches(heap, p) && i < |p.queues| && Aside(p, i, nodes) && Own(act, nodes)
    requires Enabled(p.queues[i], act) && Permitted(p.queues[i], act, Tagged(false))
    ensures PoolReaches(heap, With(p, i, Next(p.queues[i], act))) && Aside(With(p, i, Next(p.queues[i], act)), i, nodes)
  {
    hide PoolReaches, Permitted, Next;
    PoolTake(heap, p, Of(i, act));
  }

  lemma {:induction false} Walked(heap: map<nat, Node>, p: Pool, i: nat, acts: seq<Action>, s: State, nodes: set<nat>)
    requires PoolReaches(heap, p) && i < |p.queues| && Aside(p, i, nodes)
    requires Run(p.queues[i], acts, Tagged(false), s)
    requires forall k :: 0 <= k < |acts| ==> Own(acts[k], nodes)
    ensures PoolReaches(heap, With(p, i, s))
    decreases |acts|
  {
    hide PoolReaches, Permitted, Next, Enabled, Own;
    if acts == [] {
      assert With(p, i, s) == p;
    } else {
      var q := Next(p.queues[i], acts[0]);
      assert Own(acts[0], nodes);
      WalkStep(heap, p, i, acts[0], nodes);
      Walked(heap, With(p, i, q), i, acts[1..], s, nodes);
      assert With(With(p, i, q), i, s) == With(p, i, s);
    }
  }

  /** Whatever a queue gets to by itself, the pool gets to. */
  lemma PoolGets(heap: map<nat, Node>, p: Pool, i: nat, w: Walk, s: State)
    requires PoolReaches(heap, p) && i < |p.queues| && Aside(p, i, w.nodes)
    requires w.start == p.queues[i] && !w.linkGuard && Gets(w, s)
    ensures PoolReaches(heap, With(p, i, s))
  {
    hide PoolReaches, Run;
    var acts :| WalkTo(w, acts, s);
    Walked(heap, p, i, acts, s, w.nodes);
  }

  // ---- The run

  /** The second queue, created over the same nodes. */
  function Second(heap: map<nat, Node>): State
    requires 5 in heap
  {
    Init(heap, 5, 2, 1)
  }

  lemma TwoQueues()
    ensures PoolReaches(HEAP, Pool(HEAP, [Story(false).start, Second(HEAP)]))
  {
    var p0 := Pool(HEAP, []);
    assert TaggedRun(p0, [], p0);
    hide PoolReaches;
    PoolTake(HEAP, p0, Create(1, 2));
    var p1 := PoolNext(p0, Create(1, 2));
    assert HEAP[1 := HEAP[1].(next := NULL)] == HEAP && HEAP[5 := HEAP[5].(next := NULL)] == HEAP;
    assert p1 == Pool(HEAP, [Story(false).start]);
    PoolTake(HEAP, p1, Create(5, 1));
    assert PoolNext(p1, Create(5, 1)) == Pool(HEAP, [Story(false).start, Second(HEAP)]);
  }

  /** The second queue takes node 2 and links it behind its dummy. */
  lemma SecondTakes(w: Walk) returns (s: State)
    requires w.nodes == {2} && w.start.heap.Keys == {1, 2, 3, 4, 5} && w.start.heap[5].next == NULL
    requires w.start == Second(HEAP).(heap := w.start.heap)
    ensures Gets(w, s) && s.heap == w.start.heap[2 := Node(Marker(2), 60)][5 := Node(Ptr(2, 1), w.start.heap[5].data)]
    ensures s.chain == [Ptr(5, 0), Ptr(2, 1)] && HolderOf(s, 2).Listed? && s.identifier == 2
    ensures HolderOf(s, 4).Outside? && HolderOf(s, 3).Outside?
  {
    Begins(w);
    hide Gets;
    assert w.start.pcs == [Idle];
    Prepare(w, w.start, 0, 2, 60);
    var s1 := Prepared(w.start, 0, 2, 60);
    Append(w, s1, 0);
    s := Appended(s1, 0);
  }

  /** The first queue wakes up, reads the second queue's marker in node 2 and links node 4 behind it. */
  lemma FirstLinks(w: Walk) returns (s: State)
    requires !w.linkGuard && w.start.pcs == [READING, Idle] && w.start.chain == [Ptr(3, 3)] && w.start.identifier == 1
    requires w.start.heap.Keys == {1, 2, 3, 4, 5} && w.start.heap[2].next == Marker(2)
    requires w.start.heap[3].next == MARK
    ensures Gets(w, s) && s.chain == [Ptr(3, 3), Ptr(4, 2)] && HolderOf(s, 4).Listed?
    ensures s.heap == w.start.heap[2 := w.start.heap[2].(next := Ptr(4, 2))] && !Spelled(s)
  {
    Begins(w);
    hide Gets;
    var s1 := Goto(w.start, 0, EnqLink(Ptr(4, 2), 40, OLD, Marker(2)));
    Go(w, w.start, 0, s1);
    s := Instruction(s1, 0);
    Go(w, s1, 0, s);
    assert !LinkOk(s, 0);
  }

  /**
   Two queues over one pool, no tag coming round: a node of the first queue ends up behind the
   last node of the second, and neither list is spelled by memory any more.
   */
  lemma CrossLinked() returns (p: Pool)
    ensures PoolReaches(HEAP, p) && Unmarked(HEAP) && |p.queues| == 2
    ensures !Spelled(p.queues[0]) && !Spelled(p.queues[1])
    ensures HolderOf(p.queues[0], 4).Listed? && HolderOf(p.queues[1], 2).Listed?
    ensures 2 in p.heap && p.heap[2].next == Ptr(4, 2)
  {
    TwoQueues();
    hide PoolReaches, Gets;
    var p0 := Pool(HEAP, [Story(false).start, Second(HEAP)]);
    var r := ReachReading(Story(false));
    var s1 := Emptied(Story(false), r, READING);
    PoolGets(HEAP, p0, 0, Story(false), s1);
    var q1 := Second(HEAP).(heap := s1.heap);
    var p1 := With(p0, 0, s1);
    assert p1.queues == [s1, q1];
    p := CrossLinkedFrom(p1, s1, q1);
  }

  lemma CrossLinkedFrom(p1: Pool, s1: State, q1: State) returns (p: Pool)
    requires PoolReaches(HEAP, p1) && p1 == Pool(s1.heap, [s1, q1]) && q1 == Second(HEAP).(heap := s1.heap)
    requires s1.heap.Keys == {1, 2, 3, 4, 5} && s1.heap[5].next == NULL && s1.heap[3].next == MARK
    requires s1.pcs == [READING, Idle] && s1.chain == [Ptr(3, 3)] && s1.identifier == 1 && HolderOf(s1, 2).Outside?
    ensures PoolReaches(HEAP, p) && |p.queues| == 2 && !Spelled(p.queues[0]) && !Spelled(p.queues[1])
    ensures HolderOf(p.queues[0], 4).Listed? && HolderOf(p.queues[1], 2).Listed?
    ensures 2 in p.heap && p.heap[2].next == Ptr(4, 2)
  {
    hide PoolReaches, Gets;
    var w1 := Walk(q1, false, {2});
    var q2 := SecondTakes(w1);
    PoolGets(HEAP, p1, 1, w1, q2);
    var s2 := s1.(heap := q2.heap);
    var p2 := With(p1, 1, q2);
    assert p2 == Pool(q2.heap, [s2, q2]);
    var w2 := Walk(s2, false, {});
    var s3 := FirstLinks(w2);
    PoolGets(HEAP, p2, 0, w2, s3);
    p := With(p2, 0, s3);
    assert !LinkOk(p.queues[1], 1);
  }
}
