/**
 Every step of the sending side keeps the invariant.

 The invariant counts over all activities: who owns IsSending, who has linked a packet but not
 counted it, who has taken a reservation. A step changes one activity, so it is described by
 what it does to that activity's own entry (`Ledger`), to the batch (`Handled`) and to the
 wake-up of others (`Woken`), one lemma for each kind of code. `StepKeepsFlag`,
 `StepKeepsSize`, `StepOrder` and `StepWakes` then recount with `SumsUpdate`. While the
 releaser is at work nobody else is (`ReleaserAlone`), so the counts are its own.
 */
module SendProof {
  import opened Sums
  import opened SendSpec

  lemma SumsUpdate(pcs: seq<Pc>, i: nat, pc: Pc)
    requires i < |pcs|
    ensures Sum(pcs[i := pc], Owner) + Owner(pcs[i]) == Sum(pcs, Owner) + Owner(pc)
    ensures Sum(pcs[i := pc], Uncounted) + Uncounted(pcs[i]) == Sum(pcs, Uncounted) + Uncounted(pc)
    ensures Sum(pcs[i := pc], Reserved) + Reserved(pcs[i]) == Sum(pcs, Reserved) + Reserved(pc)
    ensures Sum(pcs[i := pc], Unrestored) + Unrestored(pcs[i]) == Sum(pcs, Unrestored) + Unrestored(pc)
    ensures Sum(pcs[i := pc], Awake) + Awake(pcs[i]) == Sum(pcs, Awake) + Awake(pc)
  {
    SumUpdate(pcs, i, pc, Owner);
    SumUpdate(pcs, i, pc, Uncounted);
    SumUpdate(pcs, i, pc, Reserved);
    SumUpdate(pcs, i, pc, Unrestored);
    SumUpdate(pcs, i, pc, Awake);
  }

  /** With one owner at most, a second owner is out of the question. */
  lemma OneOwner(s: State, i: nat, j: nat)
    requires FlagInv(s) && i < |s.pcs| && j < |s.pcs| && Owner(s.pcs[i]) == 1
    ensures s.isSending && !s.stuck && (i != j ==> Owner(s.pcs[j]) == 0)
  {
    SumAtLeast(s.pcs, i, Owner);
    if i != j { SumAtLeastTwo(s.pcs, if i < j then i else j, if i < j then j else i, Owner); }
  }

  /** Reservations and failed reservations are the owner's. */
  lemma {:induction false} OnlyOwnersReserve(pcs: seq<Pc>)
    ensures Sum(pcs, Reserved) + Sum(pcs, Unrestored) <= Sum(pcs, Owner)
  {
    if pcs != [] { OnlyOwnersReserve(pcs[1..]); }
  }

  lemma {:induction false} UncountedAwake(pcs: seq<Pc>)
    ensures Sum(pcs, Uncounted) <= Sum(pcs, Awake)
  {
    if pcs != [] { UncountedAwake(pcs[1..]); }
  }

  /** A step of anybody but the releaser. */
  predicate Ordinary(s: State, act: Action) {
    Enabled(s, act) && !act.Close? && !Closing(s.pcs[act.i])
  }

  /** The flag, as far as an activity owns it. */
  function Flag(s: State): int {
    (if s.isSending then 1 else 0) - if s.stuck then 1 else 0
  }

  /** What a step does to the activity's own entry, the flag, the queue and the counter. */
  ghost predicate Ledger(s: State, s': State, i: nat) {
    && i < |s.pcs| == |s'.pcs| && s'.pcs == s.pcs[i := s'.pcs[i]]
    && s'.size + Uncounted(s'.pcs[i]) + Reserved(s'.pcs[i]) + Unrestored(s'.pcs[i]) - |s'.queue|
       == s.size + Uncounted(s.pcs[i]) + Reserved(s.pcs[i]) + Unrestored(s.pcs[i]) - |s.queue|
    && (if s.pcs[i].Reserve? && s'.pcs[i].Take? then s.size >= 1 && s'.queue == s.queue
        else |s.queue| - Reserved(s.pcs[i]) <= |s'.queue| - Reserved(s'.pcs[i]))
    && Flag(s') - Owner(s'.pcs[i]) == Flag(s) - Owner(s.pcs[i])
  }

  /** What it does to the batch. */
  ghost predicate Handled(s: State, s': State, i: nat) {
    && i < |s.pcs| == |s'.pcs| && s'.pcs == s.pcs[i := s'.pcs[i]]
    && s'.enqs == s'.dropped + s'.hand + s'.queue && |s'.hand| <= SEND_PACKET_COUNT
    && s'.closes == s.closes && (s'.closes == 0 ==> s'.sent == s'.dropped)
    && HandOk(s'.pcs[i], s'.hand) && (!s'.isSending ==> s'.hand == []) && !Closing(s'.pcs[i])
    && (Owner(s.pcs[i]) == 0 ==> s'.hand == s.hand)
  }

  /** An activity that stops looking at the flag has found somebody else to care. */
  ghost predicate Woken(s: State, s': State, i: nat) {
    && i < |s.pcs| == |s'.pcs| && s'.pcs == s.pcs[i := s'.pcs[i]]
    && (Awake(s'.pcs[i]) >= Awake(s.pcs[i]) || s'.isSending || (s.pcs[i].Check? && s.size <= 0))
    && (s.isSending && !s'.isSending ==> Awake(s'.pcs[i]) == 1)
    && (s.queue == [] && s'.queue != [] ==> s'.pcs[i].Count?)
    && (s.pcs[i].Check? ==> s'.queue == s.queue && s'.isSending == s.isSending)
  }

  /** Flag and batch as an activity finds them. */
  ghost predicate Finds(s: State, i: nat) {
    && i < |s.pcs| && HandOk(s.pcs[i], s.hand) && FindsPacket(s, s.pcs[i])
    && s.enqs == s.dropped + s.hand + s.queue && |s.hand| <= SEND_PACKET_COUNT &&
       (s.closes == 0 ==> s.sent == s.dropped)
    && (Owner(s.pcs[i]) == 1 ==> s.isSending && !s.stuck)
    && (!s.isSending ==> s.hand == [])
  }

  lemma EnqueueLocal(s: State, i: nat)
    requires Finds(s, i) && Enqueuing(s.pcs[i])
    ensures Ledger(s, EnqueueStep(s, i), i) && Handled(s, EnqueueStep(s, i), i) && Woken(s, EnqueueStep(s, i), i)
  {
  }

  lemma SendPostLocal(s: State, i: nat, ok: bool)
    requires Finds(s, i) && Posting(s.pcs[i])
    ensures Ledger(s, SendPostStep(s, i, ok), i) && Woken(s, SendPostStep(s, i, ok), i)
  {
  }

  lemma SendPostHandled(s: State, i: nat, ok: bool)
    requires Finds(s, i) && Posting(s.pcs[i])
    ensures Handled(s, SendPostStep(s, i, ok), i)
  {
  }

  lemma CompletionLocal(s: State, i: nat, ok: bool)
    requires Finds(s, i) && Completing(s.pcs[i])
    ensures Ledger(s, CompletionStep(s, i, ok), i) && Woken(s, CompletionStep(s, i, ok), i)
  {
  }

  lemma CompletionHandled(s: State, i: nat, ok: bool)
    requires Finds(s, i) && Completing(s.pcs[i])
    ensures Handled(s, CompletionStep(s, i, ok), i)
  {
  }

  lemma Begins(s: State, i: nat, packet: int)
    requires Finds(s, i) && s.pcs[i].Idle?
    ensures var s' := Goto(s, i, Link(packet)); Ledger(s, s', i) && Handled(s, s', i) && Woken(s, s', i)
  {
  }

  lemma StepLocal(s: State, act: Action)
    requires FlagInv(s) && OrderInv(s) && Ordinary(s, act)
    ensures var s' := Next(s, act); Ledger(s, s', act.i) && Handled(s, s', act.i) && Woken(s, s', act.i)
  {
    var i := act.i;
    if Owner(s.pcs[i]) == 1 { OneOwner(s, i, i); }
    assert Finds(s, i);
    hide Ledger, Handled, Woken, Finds, EnqueueStep, SendPostStep, CompletionStep;
    if act.Send? {
      Begins(s, i, act.packet);
    } else if Enqueuing(s.pcs[i]) {
      EnqueueLocal(s, i);
    } else if Posting(s.pcs[i]) {
      SendPostLocal(s, i, act.ok);
      SendPostHandled(s, i, act.ok);
    } else {
      CompletionLocal(s, i, act.ok);
      CompletionHandled(s, i, act.ok);
    }
  }

  lemma StepKeepsFlag(s: State, act: Action)
    requires FlagInv(s) && Enabled(s, act) && Ledger(s, Next(s, act), act.i)
    ensures FlagInv(Next(s, act))
  {
    hide Next, Owner;
    SumUpdate(s.pcs, act.i, Next(s, act).pcs[act.i], Owner);
  }

  lemma StepKeepsSize(s: State, act: Action)
    requires FlagInv(s) && SizeInv(s) && Enabled(s, act) && Ledger(s, Next(s, act), act.i)
    ensures SizeInv(Next(s, act))
  {
    hide Next, Owner, Uncounted, Unrestored;
    var pc := Next(s, act).pcs[act.i];
    SumUpdate(s.pcs, act.i, pc, Uncounted);
    SumUpdate(s.pcs, act.i, pc, Reserved);
    SumUpdate(s.pcs, act.i, pc, Unrestored);
    if s.pcs[act.i].Reserve? && pc.Take? { ReserverReservesNothing(s, act.i); }
  }

  lemma ReserverReservesNothing(s: State, i: nat)
    requires FlagInv(s) && i < |s.pcs| && s.pcs[i].Reserve?
    ensures Sum(s.pcs, Reserved) == 0 && Sum(s.pcs, Unrestored) == 0
  {
    SumsUpdate(s.pcs, i, Idle);
    OneOwner(s, i, i);
    OnlyOwnersReserve(s.pcs[i := Idle]);
  }

  lemma OthersHandOk(pc: Pc, hand: seq<int>)
    requires Owner(pc) == 0 && !Closing(pc)
    ensures HandOk(pc, hand)
  {
  }

  /** While somebody else is at work, nobody is clearing. */
  lemma NobodyCloses(s: State, act: Action)
    requires CloseInv(s) && Ordinary(s, act)
    ensures forall j :: 0 <= j < |s.pcs| ==> !Closing(s.pcs[j])
  {
  }

  lemma StepOrder(s: State, act: Action)
    requires FlagInv(s) && OrderInv(s) && CloseInv(s) && Ordinary(s, act) && Handled(s, Next(s, act), act.i)
    ensures OrderInv(Next(s, act)) && CloseInv(Next(s, act))
  {
    hide Next, HandOk, Owner, FlagInv, Closing;
    var s', i := Next(s, act), act.i;
    NobodyCloses(s, act);
    if Owner(s.pcs[i]) == 1 { OneOwner(s, i, i); }
    OwnerIsOneOrZero(s.pcs[i]);
    forall j | 0 <= j < |s'.pcs|
      ensures HandOk(s'.pcs[j], s'.hand) && !Closing(s'.pcs[j])
    {
      if j != i && Owner(s.pcs[i]) == 1 {
        OneOwner(s, i, j);
        OthersHandOk(s.pcs[j], s'.hand);
      }
    }
    NoFlagClosing(s');
  }

  lemma NoFlagClosing(s: State)
    requires forall j :: 0 <= j < |s.pcs| ==> !Closing(s.pcs[j])
    ensures CloseInv(s)
  {
  }

  lemma OwnerIsOneOrZero(pc: Pc)
    ensures Owner(pc) <= 1
  {
  }

  lemma StepWakes(s: State, act: Action)
    requires Inv(s) && Enabled(s, act) && Woken(s, Next(s, act), act.i)
    ensures WakeInv(Next(s, act))
  {
    hide Next, OrderInv, CloseInv, Awake, Uncounted;
    var s', i := Next(s, act), act.i;
    SumUpdate(s.pcs, i, s'.pcs[i], Awake);
    SumUpdate(s.pcs, i, s'.pcs[i], Uncounted);
    SumAtLeast(s'.pcs, i, Awake);
    CheckCounts(s.pcs[i], s'.pcs[i]);
    UncountedAwake(s.pcs);
    UncountedAwake(s'.pcs);
    if !s.isSending { NotSendingCounts(s); }
  }

  /** Looking at the size is no part of an Enqueue. */
  lemma CheckCounts(pc: Pc, pc': Pc)
    ensures pc.Check? ==> Uncounted(pc) == 0
    ensures pc'.Count? ==> Awake(pc') == 1 && Uncounted(pc') == 1
  {
  }

  /** While nobody owns the flag, the counter lags only by the packets not yet counted. */
  lemma NotSendingCounts(s: State)
    requires FlagInv(s) && SizeInv(s) && !s.isSending
    ensures s.size == |s.queue| - Sum(s.pcs, Uncounted)
  {
    OnlyOwnersReserve(s.pcs);
  }

  // ---- The releaser

  lemma {:induction false} SumAlone(pcs: seq<Pc>, i: nat, weight: Pc -> nat)
    requires i < |pcs| && weight(Idle) == 0 && forall j :: 0 <= j < |pcs| && j != i ==> pcs[j].Idle?
    ensures Sum(pcs, weight) == weight(pcs[i])
  {
    SumUpdate(pcs, i, Idle, weight);
    SumZero(pcs[i := Idle], weight);
  }

  lemma SumsAlone(pcs: seq<Pc>, i: nat)
    requires i < |pcs| && forall j :: 0 <= j < |pcs| && j != i ==> pcs[j].Idle?
    ensures Sum(pcs, Owner) == Owner(pcs[i]) && Sum(pcs, Uncounted) == Uncounted(pcs[i]) &&
            Sum(pcs, Reserved) == Reserved(pcs[i])
    ensures Sum(pcs, Unrestored) == Unrestored(pcs[i]) && Sum(pcs, Awake) == Awake(pcs[i])
  {
    SumAlone(pcs, i, Owner);
    SumAlone(pcs, i, Uncounted);
    SumAlone(pcs, i, Reserved);
    SumAlone(pcs, i, Unrestored);
    SumAlone(pcs, i, Awake);
  }

  /** While the releaser is at work, nobody else is. */
  lemma ReleaserAlone(s: State, act: Action)
    requires Inv(s) && Enabled(s, act) && !Ordinary(s, act)
    ensures forall j :: 0 <= j < |s.pcs| && j != act.i ==> s.pcs[j].Idle?
    ensures act.i < |s.pcs| && (act.Step? ==> Closing(s.pcs[act.i]) && s.closes > 0)
    ensures s.pcs[act.i].CloseFlag? ==> s.queue == []
    ensures HandOk(s.pcs[act.i], s.hand)
  {
  }

  /** Beginning or going on with the release keeps everything. */
  lemma CloseOk(s: State, act: Action)
    requires Inv(s) && Enabled(s, act) && !Ordinary(s, act)
    ensures Inv(Next(s, act))
  {
    ReleaserAlone(s, act);
    CloseKeepsOrder(s, act);
    AloneCounts(s, act.i);
    AloneCounts(Next(s, act), act.i);
    hide FlagInv, SizeInv, WakeInv, OrderInv, CloseInv, HandOk;
  }

  /** For one activity alone the counts are its own. */
  lemma AloneCounts(s: State, i: nat)
    requires i < |s.pcs| && forall j :: 0 <= j < |s.pcs| && j != i ==> s.pcs[j].Idle?
    ensures FlagInv(s) <==> Owner(s.pcs[i]) == Flag(s)
    ensures SizeInv(s) <==>
            s.size == |s.queue| - Uncounted(s.pcs[i]) - Reserved(s.pcs[i]) - Unrestored(s.pcs[i]) &&
                Reserved(s.pcs[i]) <= |s.queue|
    ensures WakeInv(s) <==> (s.queue != [] ==> s.isSending || Awake(s.pcs[i]) > 0)
  {
    SumsAlone(s.pcs, i);
  }

  lemma CloseKeepsOrder(s: State, act: Action)
    requires Inv(s) && Enabled(s, act) && !Ordinary(s, act)
    ensures OrderInv(Next(s, act)) && CloseInv(Next(s, act))
  {
    ReleaserAlone(s, act);
    SumsAlone(s.pcs, act.i);
    hide CloseInv, WakeInv;
    var s' := Next(s, act);
    forall j | 0 <= j < |s'.pcs|
      ensures HandOk(s'.pcs[j], s'.hand)
    {
    }
    AloneCloses(s', act.i);
  }

  lemma AloneCloses(s: State, i: nat)
    requires i < |s.pcs| && forall j :: 0 <= j < |s.pcs| && j != i ==> s.pcs[j].Idle?
    requires Closing(s.pcs[i]) ==> s.closes > 0
    requires s.pcs[i].CloseFlag? ==> s.queue == []
    ensures CloseInv(s)
  {
  }

  lemma StepKeepsInv(s: State, act: Action)
    requires Inv(s) && Enabled(s, act)
    ensures Inv(Next(s, act))
  {
    hide FlagInv, SizeInv, OrderInv, CloseInv, WakeInv, Ledger, Handled, Woken, Next, Enabled;
    if Ordinary(s, act) {
      StepLocal(s, act);
      StepKeepsFlag(s, act);
      StepKeepsSize(s, act);
      StepOrder(s, act);
      StepWakes(s, act);
    } else {
      CloseOk(s, act);
    }
  }
}
