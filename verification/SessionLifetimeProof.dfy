/**
 Every bounded step of the session machine keeps the invariant.

 The invariant falls into three pieces: `Slots` (counts and custody of every slot), `Acts`
 (what each activity relies on) and `Rest` (logs, counters and the accept thread). A step
 changes one activity and at most one word, one handle or one end of the index pool, so its
 lemma recounts one slot with `SumsUpdate` and leaves the others to a frame lemma:
 `QuietKeepsInv` for steps that change no word and no log, `WordKeepsInv` for those that
 change the word of a live slot, and one lemma for each piece where a slot changes hands
 (release, leave, pop, connect). Two facts carry the proof: whoever holds a reference keeps
 its slot live (`HolderPins`), and the index of a slot is in one place at a time (`Custody`).
 */
module SessionProof {
  import opened Sums
  import opened SessionSpec

  /**
   The bounds on the 16-bit word: fewer than 255 references on a live session before an
   increment, and fewer than 0x1200 failed FindSession calls on a slot since its release.
   */
  predicate Bounded(s: State, act: Action) {
    match act
    case Step(i) => i < |s.acts| && (s.acts[i].Find? ==> Room(s, s.acts[i].h.index))
    case Raise(i) => i < |s.acts| && Room(s, SlotOf(s.acts[i]))
    case _ => true
  }

  predicate Room(s: State, k: nat) {
    k < |s.io| && k < |s.live| && if s.live[k] then s.io[k] < 0xFF else s.io[k] < 0xFFFF
  }

  // ---- Sums over the activities

  lemma SumsUpdate(acts: seq<Pc>, i: nat, pc: Pc, k: nat)
    requires i < |acts|
    ensures Sum(acts[i := pc], RefWeight(k)) + RefsOf(acts[i], k) == Sum(acts, RefWeight(k)) + RefsOf(pc, k)
    ensures Sum(acts[i := pc], MainWeight(k)) + MainOf(acts[i], k) == Sum(acts, MainWeight(k)) + MainOf(pc, k)
    ensures Sum(acts[i := pc], CustodyWeight(k)) + CustodyOf(acts[i], k) ==
            Sum(acts, CustodyWeight(k)) + CustodyOf(pc, k)
  {
    SumUpdate(acts, i, pc, RefWeight(k));
    SumUpdate(acts, i, pc, MainWeight(k));
    SumUpdate(acts, i, pc, CustodyWeight(k));
  }

  lemma SumsAppend(acts: seq<Pc>, pc: Pc, k: nat)
    ensures Sum(acts + [pc], RefWeight(k)) == Sum(acts, RefWeight(k)) + RefsOf(pc, k)
    ensures Sum(acts + [pc], MainWeight(k)) == Sum(acts, MainWeight(k)) + MainOf(pc, k)
    ensures Sum(acts + [pc], CustodyWeight(k)) == Sum(acts, CustodyWeight(k)) + CustodyOf(pc, k)
  {
    SumAppend(acts, pc, RefWeight(k));
    SumAppend(acts, pc, MainWeight(k));
    SumAppend(acts, pc, CustodyWeight(k));
  }

  lemma CountsUpdate(acts: seq<Pc>, i: nat, pc: Pc)
    requires i < |acts|
    ensures Sum(acts[i := pc], PushedWeight) + PushedWeight(acts[i]) == Sum(acts, PushedWeight) + PushedWeight(pc)
    ensures Sum(acts[i := pc], UnleftWeight) + UnleftWeight(acts[i]) == Sum(acts, UnleftWeight) + UnleftWeight(pc)
  {
    SumUpdate(acts, i, pc, PushedWeight);
    SumUpdate(acts, i, pc, UnleftWeight);
  }

  lemma CountsAppend(acts: seq<Pc>, pc: Pc)
    ensures Sum(acts + [pc], PushedWeight) == Sum(acts, PushedWeight) + PushedWeight(pc)
    ensures Sum(acts + [pc], UnleftWeight) == Sum(acts, UnleftWeight) + UnleftWeight(pc)
  {
    SumAppend(acts, pc, PushedWeight);
    SumAppend(acts, pc, UnleftWeight);
  }

  /** The holder of a reference pins its slot: it is live and the word counts the reference. */
  lemma HolderPins(s: State, i: nat)
    requires Inv(s) && i < |s.acts|
    requires HoldsRefs(s.acts[i]) || s.acts[i].Check? || s.acts[i].Pending?
    ensures var k := SlotOf(s.acts[i]); k < Max(s) && s.live[k] && RefsOf(s.acts[i], k) <= s.io[k] == Refs(s, k) <= 0xFF
    ensures RefsOf(s.acts[i], SlotOf(s.acts[i])) >= 1
  {
    var k := SlotOf(s.acts[i]);
    assert ActInv(s, s.acts[i]) && SlotInv(s, k);
    SumAtLeast(s.acts, i, RefWeight(k));
  }

  // ---- Pieces of the invariant

  ghost predicate Slots(s: State) {
    Sized(s) && forall k :: 0 <= k < Max(s) ==> SlotInv(s, k)
  }

  ghost predicate Acts(s: State) {
    Sized(s) && forall i :: 0 <= i < |s.acts| ==> ActInv(s, s.acts[i])
  }

  ghost predicate Rest(s: State) {
    && Sized(s)
    && (forall h :: h in s.known ==> Used(s, h.index))
    && (forall j :: 0 <= j < |s.free| ==> s.free[j] < Max(s))
    && AcceptInv(s) && LogInv(s) && CountInv(s)
  }

  lemma Pieces(s: State)
    ensures Inv(s) <==> Slots(s) && Acts(s) && Rest(s)
  {
  }

  /** What an activity knows about its slot survives any step that keeps this. */
  ghost predicate SlotKept(s: State, s': State, k: nat) {
    Used(s, k) ==>
      && Used(s', k) && s'.handle[k] == s.handle[k]
      && (s.handle[k] in s.released ==> s.handle[k] in s'.released)
      && (s.handle[k] in s.left ==> s.handle[k] in s'.left)
  }

  /** Nobody else's leave is recorded while `pc` is on its way to it. */
  ghost predicate LeaveKept(s: State, s': State, pc: Pc) {
    (pc.Cleaning? || pc.LeavePosted?) && pc.k < |s.handle| && s.handle[pc.k] in s'.left ==> s.handle[pc.k] in s.left
  }

  lemma ActKept(s: State, s': State, pc: Pc)
    requires Sized(s) && Sized(s') && ActInv(s, pc)
    requires SlotKept(s, s', SlotOf(pc)) && LeaveKept(s, s', pc)
    ensures ActInv(s', pc)
  {
  }

  lemma ActsKept(s: State, s': State, i: nat)
    requires Acts(s) && Sized(s') && i < |s.acts| == |s'.acts|
    requires s'.acts == s.acts[i := s'.acts[i]] && ActInv(s', s'.acts[i])
    requires forall j :: 0 <= j < |s.acts| && j != i ==>
            SlotKept(s, s', SlotOf(s.acts[j])) && LeaveKept(s, s', s.acts[j])
    ensures Acts(s')
  {
    hide ActInv, SlotKept, LeaveKept;
    forall j | 0 <= j < |s'.acts|
      ensures ActInv(s', s'.acts[j])
    {
      assert ActInv(s, s.acts[j]);
      if j != i { ActKept(s, s', s.acts[j]); }
    }
  }

  /** Slot `k` sees a step that gives activity `i` the program point `pc`. */
  ghost predicate SameSlot(s: State, s': State, k: nat)
    requires Sized(s) && Sized(s') && k < Max(s) == Max(s')
  {
    && s'.io[k] == s.io[k] && s'.handle[k] == s.handle[k] && s'.live[k] == s.live[k]
    && multiset(s'.free)[k] == multiset(s.free)[k]
    && AcceptRefs(s', k) == AcceptRefs(s, k) && AcceptCustody(s', k) == AcceptCustody(s, k)
    && s.idPool <= s'.idPool
    && (s.live[k] ==> (s.handle[k] in s'.released ==> s.handle[k] in s.released))
  }

  lemma SlotKeptBySums(s: State, s': State, k: nat)
    requires Sized(s) && Sized(s') && k < Max(s) == Max(s') && SlotInv(s, k) && SameSlot(s, s', k)
    requires Sum(s'.acts, RefWeight(k)) == Sum(s.acts, RefWeight(k))
    requires Sum(s'.acts, MainWeight(k)) <= Sum(s.acts, MainWeight(k))
    requires Sum(s'.acts, CustodyWeight(k)) == Sum(s.acts, CustodyWeight(k))
    ensures SlotInv(s', k)
  {
  }

  // ---- Steps that change no word and no log

  /** Replacing one activity by one of the same weights, all else equal. */
  lemma QuietKeepsInv(s: State, i: nat, pc: Pc)
    requires Inv(s) && i < |s.acts| && ActInv(s, pc)
    requires forall k :: RefsOf(pc, k) == RefsOf(s.acts[i], k) && MainOf(pc, k) <= MainOf(s.acts[i], k)
    requires forall k :: CustodyOf(pc, k) == CustodyOf(s.acts[i], k)
    requires PushedWeight(pc) == PushedWeight(s.acts[i]) && UnleftWeight(pc) == UnleftWeight(s.acts[i])
    ensures Inv(Goto(s, i, pc))
  {
    var s' := Goto(s, i, pc);
    Pieces(s);
    Pieces(s');
    hide Inv, ActInv;
    forall k | 0 <= k < Max(s')
      ensures SlotInv(s', k)
    {
      SumsUpdate(s.acts, i, pc, k);
      SlotKeptBySums(s, s', k);
    }
    hide SlotInv;
    CountsUpdate(s.acts, i, pc);
    QuietActs(s, i, pc);
  }

  lemma QuietActs(s: State, i: nat, pc: Pc)
    requires Acts(s) && i < |s.acts| && ActInv(s, pc)
    ensures Acts(Goto(s, i, pc))
  {
    ActKept(s, Goto(s, i, pc), pc);
    hide ActInv;
    ActsKept(s, Goto(s, i, pc), i);
  }

  lemma PublishKeepsInv(s: State, s': State, k: nat)
    requires Inv(s) && Used(s, k) && s' == s.(known := s.known + {s.handle[k]})
    ensures Inv(s')
  {
    Pieces(s);
    Pieces(s');
    hide Inv;
    forall j | 0 <= j < Max(s')
      ensures SlotInv(s', j)
    {
      SlotKeptBySums(s, s', j);
    }
    hide SlotInv;
    forall i | 0 <= i < |s'.acts|
      ensures ActInv(s', s'.acts[i])
    {
      ActKept(s, s', s.acts[i]);
    }
  }

  lemma SpawnOk(s: State, i: nat, h: Handle)
    requires Inv(s) && Enabled(s, Spawn(i, h))
    ensures Inv(Next(s, Spawn(i, h)))
  {
    QuietKeepsInv(s, i, Find(h));
  }

  lemma CheckOk(s: State, i: nat)
    requires Inv(s) && Enabled(s, Step(i)) && s.acts[i].Check?
    ensures Inv(Instruction(s, i))
  {
    assert ActInv(s, s.acts[i]);
    QuietKeepsInv(s, i, Instruction(s, i).acts[i]);
  }

  lemma CleaningOk(s: State, i: nat)
    requires Inv(s) && Enabled(s, Step(i)) && s.acts[i].Cleaning?
    ensures Inv(Instruction(s, i))
  {
    assert ActInv(s, s.acts[i]);
    QuietKeepsInv(s, i, LeavePosted(s.acts[i].k));
  }

  lemma CompleteOk(s: State, i: nat)
    requires Inv(s) && Enabled(s, Step(i)) && s.acts[i].Pending?
    ensures Inv(Instruction(s, i))
  {
    var k, kind := s.acts[i].k, s.acts[i].kind;
    assert ActInv(s, s.acts[i]);
    QuietKeepsInv(s, i, Work(k, 1, kind != Send));
    if kind == Enter {
      hide Inv;
      PublishKeepsInv(Goto(s, i, Work(k, 1, true)), Instruction(s, i), k);
    }
  }

  // ---- Steps on one slot

  /** Activity `i` goes to `pc` and only slot `k` notices. */
  ghost predicate OneSlot(s: State, s': State, i: nat, k: nat)
    requires Sized(s) && Sized(s')
  {
    && i < |s.acts| && Max(s') == Max(s)
    && |s'.acts| == |s.acts| && s'.acts == s.acts[i := s'.acts[i]]
    && Local(s.acts[i], k) && Local(s'.acts[i], k)
    && (forall j: nat :: j < Max(s) && j != k ==> SameSlot(s, s', j))
  }

  /** `pc` weighs nothing on slots other than `k`. */
  predicate Local(pc: Pc, k: nat) {
    SlotOf(pc) == k || pc.Idle? || pc.LeavePushed?
  }

  lemma OneSlotKeepsSlots(s: State, s': State, i: nat, k: nat)
    requires Slots(s) && Sized(s') && OneSlot(s, s', i, k)
    requires k < Max(s') ==> SlotInv(s', k)
    ensures Slots(s')
  {
    hide SlotInv, SameSlot;
    forall j | 0 <= j < Max(s')
      ensures SlotInv(s', j)
    {
      if j != k {
        SumsUpdate(s.acts, i, s'.acts[i], j);
        SlotKeptBySums(s, s', j);
      }
    }
  }

  lemma RestKept(s: State, s': State, i: nat)
    requires Rest(s) && Sized(s') && Max(s') == Max(s)
    requires s'.known == s.known && s'.free == s.free && s'.count == s.count && s'.accept == s.accept &&
            s'.idPool == s.idPool
    requires s'.handle == s.handle && s'.released == s.released && s'.left == s.left
    requires i < |s.acts| == |s'.acts| && s'.acts == s.acts[i := s'.acts[i]]
    requires PushedWeight(s'.acts[i]) == PushedWeight(s.acts[i]) && UnleftWeight(s'.acts[i]) == UnleftWeight(s.acts[i])
    requires forall k: nat :: Used(s, k) ==> Used(s', k)
    ensures Rest(s')
  {
    CountsUpdate(s.acts, i, s'.acts[i]);
  }

  lemma WordSlot(s: State, i: nat, k: nat, pc: Pc, w: nat)
    requires Sized(s) && i < |s.acts| && k < Max(s) && SlotInv(s, k)
    requires s.live[k] ==> w <= 0xFF && w - RefsOf(pc, k) == s.io[k] - RefsOf(s.acts[i], k)
    requires !s.live[k] ==> RefsOf(pc, k) == RefsOf(s.acts[i], k)
    requires MainOf(pc, k) <= MainOf(s.acts[i], k) && CustodyOf(pc, k) == CustodyOf(s.acts[i], k)
    ensures SlotInv(Goto(s, i, pc).(io := s.io[k := w]), k)
  {
    SumsUpdate(s.acts, i, pc, k);
    hide RefsOf, MainOf, CustodyOf;
  }

  /** The word of slot `k` changes together with the references that activity `i` holds on it. */
  lemma WordKeepsInv(s: State, i: nat, k: nat, pc: Pc, w: nat)
    requires Inv(s) && i < |s.acts| && k < Max(s) && Used(s, k)
    requires Local(s.acts[i], k) && Local(pc, k)
    requires s.live[k] ==> w <= 0xFF && w - RefsOf(pc, k) == s.io[k] - RefsOf(s.acts[i], k)
    requires !s.live[k] ==> RELEASE_IOCOUNT <= w < 0x1_0000 && RefsOf(pc, k) == RefsOf(s.acts[i], k)
    requires MainOf(pc, k) <= MainOf(s.acts[i], k) && CustodyOf(pc, k) == CustodyOf(s.acts[i], k)
    requires PushedWeight(pc) == PushedWeight(s.acts[i]) && UnleftWeight(pc) == UnleftWeight(s.acts[i])
    requires ActInv(Goto(s, i, pc).(io := s.io[k := w]), pc)
    ensures Inv(Goto(s, i, pc).(io := s.io[k := w]))
  {
    var s' := Goto(s, i, pc).(io := s.io[k := w]);
    Pieces(s);
    Pieces(s');
    hide Inv, ActInv;
    WordSlot(s, i, k, pc, w);
    hide SlotInv, RefsOf, MainOf, CustodyOf;
    OneSlotKeepsSlots(s, s', i, k);
    ActsKept(s, s', i);
    RestKept(s, s', i);
  }

  lemma FindCounts(s: State, i: nat)
    requires Inv(s) && Enabled(s, Step(i)) && Bounded(s, Step(i)) && s.acts[i].Find?
    ensures var k := s.acts[i].h.index;
            && k < Max(s) && ActInv(s, s.acts[i]) && SlotInv(s, k) && s.io[k] + 1 < 0x1_0000
            && Instruction(s, i) ==
               Goto(s, i, if s.live[k] then Check(s.acts[i].h) else Idle).(io := s.io[k := s.io[k] + 1])
  {
    assert ActInv(s, s.acts[i]) && SlotInv(s, s.acts[i].h.index);
  }

  /** FindSession's increment: a live slot gains a reference, a released one stays flagged. */
  lemma FindOk(s: State, i: nat)
    requires Inv(s) && Enabled(s, Step(i)) && Bounded(s, Step(i)) && s.acts[i].Find?
    ensures Inv(Instruction(s, i))
    ensures var k := SlotOf(s.acts[i]); Instruction(s, i).acts[i].Check? <==> s.live[k]
  {
    FindCounts(s, i);
    hide Instruction, Inv;
    var k := s.acts[i].h.index;
    WordKeepsInv(s, i, k, if s.live[k] then Check(s.acts[i].h) else Idle, s.io[k] + 1);
  }

  lemma RaiseCounts(s: State, i: nat)
    requires i < |s.acts| && (s.acts[i].Pinned? || s.acts[i].Work?) && s.acts[i].refs == 1
    requires SlotOf(s.acts[i]) < |s.io| && s.io[SlotOf(s.acts[i])] < 0xFF
    ensures var k := SlotOf(s.acts[i]);
            && FlagOf(Inc16(s.io[k])) == 0
            && RaiseStep(s, i) == Goto(s, i, s.acts[i].(refs := 2)).(io := s.io[k := s.io[k] + 1])
  {
  }

  /** An increment by a holder never sees the flag: lines 160-163 cannot be taken, 39, 466 and 540 always are. */
  lemma RaiseOk(s: State, i: nat)
    requires Inv(s) && Enabled(s, Raise(i)) && Bounded(s, Raise(i))
    ensures Inv(RaiseStep(s, i))
    ensures FlagOf(Inc16(s.io[SlotOf(s.acts[i])])) == 0
    ensures RaiseStep(s, i).acts[i] == s.acts[i].(refs := 2)
  {
    var k := SlotOf(s.acts[i]);
    HolderPins(s, i);
    assert ActInv(s, s.acts[i]);
    var pc := s.acts[i].(refs := 2);
    assert s.acts[i].refs == 1 && s.io[k] < 0xFF;
    RaiseCounts(s, i);
    hide RaiseStep, Inv, SlotInv, ActInv;
    WordKeepsInv(s, i, k, pc, s.io[k] + 1);
  }

  /** A decrement by a holder of two never reaches zero: lines 471 and 545-547 cannot be taken. */
  lemma LowerOk(s: State, i: nat)
    requires Inv(s) && Enabled(s, Lower(i))
    ensures Inv(LowerStep(s, i))
    ensures var k := SlotOf(s.acts[i]); RefsOf(s.acts[i], k) == 2 ==> !LowerStep(s, i).acts[i].AtRelease?
  {
    var k := SlotOf(s.acts[i]);
    HolderPins(s, i);
    assert ActInv(s, s.acts[i]);
    var w := s.io[k] - 1;
    var pc := if w == 0 then AtRelease(k) else Less(s.acts[i]);
    assert LowerStep(s, i) == Goto(s, i, pc).(io := s.io[k := w]);
    hide LowerStep;
    WordKeepsInv(s, i, k, pc, w);
  }

  // ---- Posting

  /** A new activity appears. */
  lemma AppendKeepsInv(s: State, pc: Pc, s': State)
    requires Slots(s') && Acts(s) && Rest(s) && Sized(s)
    requires s' == s.(acts := s.acts + [pc])
    requires ActInv(s, pc) && PushedWeight(pc) == 0 && UnleftWeight(pc) == 0
    ensures Inv(s')
  {
    Pieces(s');
    hide Inv, SlotInv;
    CountsAppend(s.acts, pc);
    forall i | 0 <= i < |s'.acts|
      ensures ActInv(s', s'.acts[i])
    {
      if i < |s.acts| { ActKept(s, s', s.acts[i]); } else { ActKept(s, s', pc); }
    }
  }

  function Remainder(pc: Pc): Pc
    requires HoldsRefs(pc)
  {
    if Less(pc).Work? then Less(pc).(main := false) else Less(pc)
  }

  function PostedBy(pc: Pc): Pc {
    Pending(SlotOf(pc), if pc.Work? && pc.main then Recv else Send)
  }

  /** The reference, and the receive chain, pass from the activity to the posted operation. */
  lemma PostWeights(pc: Pc, k: nat)
    requires (pc.Pinned? && pc.refs == 2) || (pc.Work? && 1 <= pc.refs <= 2)
    ensures RefsOf(Remainder(pc), k) + RefsOf(PostedBy(pc), k) == RefsOf(pc, k)
    ensures MainOf(Remainder(pc), k) + MainOf(PostedBy(pc), k) == MainOf(pc, k)
    ensures CustodyOf(Remainder(pc), k) + CustodyOf(PostedBy(pc), k) == CustodyOf(pc, k)
  {
  }

  lemma PostSums(acts: seq<Pc>, i: nat, k: nat)
    requires i < |acts|
    requires (acts[i].Pinned? && acts[i].refs == 2) || (acts[i].Work? && 1 <= acts[i].refs <= 2)
    ensures var after := acts[i := Remainder(acts[i])] + [PostedBy(acts[i])];
            && Sum(after, RefWeight(k)) == Sum(acts, RefWeight(k))
            && Sum(after, MainWeight(k)) == Sum(acts, MainWeight(k))
            && Sum(after, CustodyWeight(k)) == Sum(acts, CustodyWeight(k))
  {
    SumsUpdate(acts, i, Remainder(acts[i]), k);
    SumsAppend(acts[i := Remainder(acts[i])], PostedBy(acts[i]), k);
    PostWeights(acts[i], k);
    hide Remainder, PostedBy, RefsOf, MainOf, CustodyOf;
  }

  lemma PostSlots(s: State, i: nat)
    requires Inv(s) && Enabled(s, Post(i))
    ensures Slots(PostStep(s, i))
  {
    var s' := PostStep(s, i);
    assert ActInv(s, s.acts[i]);
    assert s'.acts == s.acts[i := Remainder(s.acts[i])] + [PostedBy(s.acts[i])];
    assert Slots(s);
    hide Inv, ActInv, SlotInv, Remainder, PostedBy;
    forall k | 0 <= k < Max(s')
      ensures SlotInv(s', k)
    {
      PostSums(s.acts, i, k);
      SlotKeptBySums(s, s', k);
    }
  }

  lemma PostOk(s: State, i: nat)
    requires Inv(s) && Enabled(s, Post(i))
    ensures Inv(PostStep(s, i))
  {
    PostSlots(s, i);
    var pc := s.acts[i];
    assert ActInv(s, pc);
    var rest := Remainder(pc);
    var s1 := Goto(s, i, rest);
    Pieces(s);
    QuietActs(s, i, rest);
    CountsUpdate(s.acts, i, rest);
    assert Rest(s1);
    hide Inv, Slots;
    AppendKeepsInv(s1, PostedBy(pc), PostStep(s, i));
  }

  // ---- Release and leave

  lemma LogGrows(xs: seq<Handle>, h: Handle)
    requires Distinct(xs) && h !in xs
    ensures Distinct(xs + [h])
  {
  }

  /** The release CAS succeeds only on a live session that nobody references, once per incarnation. */
  lemma ReleaseCas(s: State, i: nat)
    requires Inv(s) && Enabled(s, Step(i)) && s.acts[i].AtRelease? && s.io[s.acts[i].k] == 0
    ensures var k := s.acts[i].k; s.live[k] && Refs(s, k) == 0 && s.handle[k] !in s.released
  {
    assert ActInv(s, s.acts[i]) && SlotInv(s, s.acts[i].k);
  }

  lemma ReleaseActs(s: State, i: nat)
    requires Inv(s) && Enabled(s, Step(i)) && s.acts[i].AtRelease? && s.io[s.acts[i].k] == 0
    ensures Acts(Instruction(s, i)) && s.handle[s.acts[i].k] !in s.left
  {
    ReleaseCas(s, i);
    assert ActInv(s, s.acts[i]);
    ActsKept(s, Instruction(s, i), i);
  }

  lemma ReleaseRest(s: State, i: nat)
    requires Inv(s) && Enabled(s, Step(i)) && s.acts[i].AtRelease? && s.io[s.acts[i].k] == 0
    ensures Rest(Instruction(s, i))
  {
    var k := s.acts[i].k;
    ReleaseCas(s, i);
    assert SlotInv(s, k);
    LogGrows(s.released, s.handle[k]);
    CountsUpdate(s.acts, i, Cleaning(k));
    if AcceptCustody(s, k) == 1 { assert false; }
  }

  lemma ReleaseOk(s: State, i: nat)
    requires Inv(s) && Enabled(s, Step(i)) && s.acts[i].AtRelease?
    ensures Inv(Instruction(s, i))
  {
    var k := s.acts[i].k;
    assert ActInv(s, s.acts[i]);
    if s.io[k] != 0 {
      QuietKeepsInv(s, i, Idle);
    } else {
      var s' := Instruction(s, i);
      ReleaseActs(s, i);
      ReleaseRest(s, i);
      Pieces(s);
      Pieces(s');
      ReleaseSlots(s, i);
    }
  }

  lemma ReleaseOthers(s: State, i: nat, j: nat)
    requires Inv(s) && Enabled(s, Step(i)) && s.acts[i].AtRelease? && s.io[s.acts[i].k] == 0
    requires j < Max(s) && j != s.acts[i].k
    ensures SameSlot(s, Instruction(s, i), j)
  {
    ReleaseCas(s, i);
    assert SlotInv(s, j) && SlotInv(s, s.acts[i].k);
  }

  lemma ReleaseSlots(s: State, i: nat)
    requires Inv(s) && Enabled(s, Step(i)) && s.acts[i].AtRelease? && s.io[s.acts[i].k] == 0
    ensures Slots(Instruction(s, i))
  {
    var k := s.acts[i].k;
    var s' := Instruction(s, i);
    ReleaseCas(s, i);
    assert SlotInv(s, k);
    SumsUpdate(s.acts, i, Cleaning(k), k);
    assert SlotInv(s', k);
    Pieces(s);
    hide SlotInv, Inv, SameSlot;
    forall j: nat | j < Max(s) && j != k
      ensures SameSlot(s, s', j)
    {
      ReleaseOthers(s, i, j);
    }
    OneSlotKeepsSlots(s, s', i, k);
  }

  /** Only one activity carries the index of a slot back to the pool. */
  lemma OneCarrier(s: State, i: nat, j: nat)
    requires Slots(s) && i < |s.acts| && j < |s.acts| && i != j
    requires (s.acts[i].Cleaning? || s.acts[i].LeavePosted? || s.acts[i].Leaving?) && s.acts[i].k < Max(s)
    ensures CustodyOf(s.acts[j], s.acts[i].k) == 0
  {
    var k := s.acts[i].k;
    assert SlotInv(s, k);
    SumAtLeastTwo(s.acts, if i < j then i else j, if i < j then j else i, CustodyWeight(k));
  }

  lemma LeaveActs(s: State, i: nat)
    requires Inv(s) && Enabled(s, Step(i)) && s.acts[i].LeavePosted?
    ensures Acts(Instruction(s, i))
  {
    var s' := Instruction(s, i);
    var k := s.acts[i].k;
    assert ActInv(s, s.acts[i]);
    forall j | 0 <= j < |s.acts| && j != i
      ensures SlotKept(s, s', SlotOf(s.acts[j])) && LeaveKept(s, s', s.acts[j])
    {
      OneCarrier(s, i, j);
      assert ActInv(s, s.acts[j]);
    }
    ActsKept(s, s', i);
  }

  lemma LeaveRest(s: State, i: nat)
    requires Inv(s) && Enabled(s, Step(i)) && s.acts[i].LeavePosted?
    ensures Rest(Instruction(s, i))
  {
    var k := s.acts[i].k;
    assert ActInv(s, s.acts[i]);
    LogGrows(s.left, s.handle[k]);
    CountsUpdate(s.acts, i, Leaving(k));
  }

  lemma LeaveSlots(s: State, i: nat)
    requires Slots(s) && Enabled(s, Step(i)) && s.acts[i].LeavePosted?
    ensures Slots(Instruction(s, i))
  {
    var k := s.acts[i].k;
    var s' := Instruction(s, i);
    SumsUpdate(s.acts, i, Leaving(k), k);
    assert SlotInv(s, k);
    assert SlotInv(s', k);
    hide SlotInv;
    OneSlotKeepsSlots(s, s', i, k);
  }

  /** Each released incarnation gets one OnClientLeave. */
  lemma LeavePostedOk(s: State, i: nat)
    requires Inv(s) && Enabled(s, Step(i)) && s.acts[i].LeavePosted?
    ensures Inv(Instruction(s, i))
    ensures s.handle[s.acts[i].k] !in s.left
  {
    assert ActInv(s, s.acts[i]);
    Pieces(s);
    Pieces(Instruction(s, i));
    LeaveActs(s, i);
    LeaveRest(s, i);
    LeaveSlots(s, i);
    hide Inv, Acts, Rest, Slots;
  }

  lemma PushActs(s: State, i: nat)
    requires Inv(s) && Enabled(s, Step(i)) && (s.acts[i].Leaving? || s.acts[i].LeavePushed?)
    ensures Acts(Instruction(s, i))
  {
    ActsKept(s, Instruction(s, i), i);
  }

  lemma LeavingSlots(s: State, i: nat)
    requires Slots(s) && Enabled(s, Step(i)) && s.acts[i].Leaving? && s.handle[s.acts[i].k].index == s.acts[i].k
    ensures Slots(Instruction(s, i))
  {
    var k := s.acts[i].k;
    var s' := Instruction(s, i);
    SumsUpdate(s.acts, i, LeavePushed, k);
    assert SlotInv(s, k);
    assert SlotInv(s', k);
    hide SlotInv;
    OneSlotKeepsSlots(s, s', i, k);
  }

  /** The index goes back to the pool once, after OnClientLeave. */
  lemma LeavingOk(s: State, i: nat)
    requires Inv(s) && Enabled(s, Step(i)) && s.acts[i].Leaving?
    ensures Inv(Instruction(s, i))
    ensures Instruction(s, i).free == [s.acts[i].k] + s.free && s.acts[i].k !in s.free
  {
    var k := s.acts[i].k;
    assert ActInv(s, s.acts[i]) && SlotInv(s, k);
    SumAtLeast(s.acts, i, CustodyWeight(k));
    hide SlotInv;
    PushActs(s, i);
    LeavingSlots(s, i);
    CountsUpdate(s.acts, i, LeavePushed);
    assert Rest(Instruction(s, i));
    Pieces(Instruction(s, i));
  }

  lemma LeavePushedOk(s: State, i: nat)
    requires Inv(s) && Enabled(s, Step(i)) && s.acts[i].LeavePushed?
    ensures Inv(Instruction(s, i))
  {
    var s' := Instruction(s, i);
    PushActs(s, i);
    CountsUpdate(s.acts, i, Idle);
    assert Rest(s');
    Pieces(s);
    Pieces(s');
    hide Inv, Acts, Rest;
    forall k | 0 <= k < Max(s')
      ensures SlotInv(s', k)
    {
      SumsUpdate(s.acts, i, Idle, k);
      SlotKeptBySums(s, s', k);
    }
  }

  // ---- The accept thread

  /** Accept steps that leave the activities alone. */
  lemma AcceptActs(s: State, s': State)
    requires Acts(s) && Sized(s') && s'.acts == s.acts && s'.left == s.left
    requires forall k :: SlotKept(s, s', k)
    ensures Acts(s')
  {
    hide ActInv, SlotKept;
    forall i | 0 <= i < |s'.acts|
      ensures ActInv(s', s'.acts[i])
    {
      ActKept(s, s', s.acts[i]);
    }
  }

  lemma AcceptSlots(s: State, s': State, k: nat)
    requires Slots(s) && Sized(s') && s'.acts == s.acts && Max(s') == Max(s)
    requires forall j: nat :: j < Max(s) && j != k ==> SameSlot(s, s', j)
    requires k < Max(s) ==> SlotInv(s', k)
    ensures Slots(s')
  {
    hide SlotInv, SameSlot;
    forall j | 0 <= j < Max(s')
      ensures SlotInv(s', j)
    {
      if j != k { SlotKeptBySums(s, s', j); }
    }
  }

  predicate BeforePop(a: AcceptPc) { a.Waiting? || a.Admitted? }

  lemma AdmitOk(s: State, admit: bool)
    requires Inv(s) && BeforePop(s.accept)
    ensures Inv(AcceptStep(s, admit))
  {
    var s' := AcceptStep(s, admit);
    Pieces(s);
    Pieces(s');
    AcceptSlots(s, s', Max(s));
    hide SlotInv;
    AcceptActs(s, s');
  }

  /** m_sessionCount is raised before Pop and lowered after Push, so the Pop at 347 finds an index. */
  lemma PopFinds(s: State)
    requires Inv(s) && s.accept.Counted?
    ensures s.free != [] && AcceptEnabled(s)
  {
  }

  lemma PopOk(s: State, admit: bool)
    requires Inv(s) && s.accept.Counted? && AcceptEnabled(s)
    ensures Inv(AcceptStep(s, admit))
  {
    var s' := AcceptStep(s, admit);
    var k := s.free[0];
    assert s.free == [k] + s.free[1..];
    Pieces(s);
    Pieces(s');
    assert SlotInv(s, k);
    assert SlotInv(s', k);
    hide SlotInv;
    AcceptSlots(s, s', k);
    AcceptActs(s, s');
  }

  lemma NumberOk(s: State, admit: bool)
    requires Inv(s) && s.accept.Popped?
    ensures Inv(AcceptStep(s, admit))
  {
    var s' := AcceptStep(s, admit);
    Pieces(s);
    Pieces(s');
    AcceptSlots(s, s', Max(s));
    hide SlotInv;
    AcceptActs(s, s');
  }

  /** While accept holds an index, the slot is not live and nobody carries or references it. */
  lemma AcceptOwns(s: State, k: nat, i: nat)
    requires Inv(s) && k < Max(s) && AcceptCustody(s, k) == 1 && i < |s.acts|
    ensures !s.live[k] && CustodyOf(s.acts[i], k) == 0 && RefsOf(s.acts[i], k) == 0
  {
    assert SlotInv(s, k);
    SumAtLeast(s.acts, i, CustodyWeight(k));
    SumAtLeast(s.acts, i, RefWeight(k));
  }

  lemma NameActs(s: State, admit: bool)
    requires Inv(s) && s.accept.Numbered?
    ensures Acts(AcceptStep(s, admit))
  {
    var s' := AcceptStep(s, admit);
    var k := s.accept.k;
    forall i | 0 <= i < |s'.acts|
      ensures ActInv(s', s'.acts[i])
    {
      AcceptOwns(s, k, i);
      assert ActInv(s, s.acts[i]);
    }
  }

  /** The handle is written while the word still carries the release flag. */
  lemma NameOk(s: State, admit: bool)
    requires Inv(s) && s.accept.Numbered?
    ensures Inv(AcceptStep(s, admit))
  {
    var s' := AcceptStep(s, admit);
    var k := s.accept.k;
    NameActs(s, admit);
    Pieces(s);
    Pieces(s');
    assert SlotInv(s, k);
    assert SlotInv(s', k);
    hide SlotInv, Inv, Acts;
    AcceptSlots(s, s', k);
  }

  /** Every receive chain is a reference. */
  lemma {:induction false} MainsAreRefs(acts: seq<Pc>, k: nat)
    requires forall i :: 0 <= i < |acts| ==> MainOf(acts[i], k) <= RefsOf(acts[i], k)
    ensures Sum(acts, MainWeight(k)) <= Sum(acts, RefWeight(k))
  {
    if acts != [] { MainsAreRefs(acts[1..], k); }
  }

  lemma ConnectSlots(s: State, admit: bool)
    requires Inv(s) && s.accept.Named?
    ensures Slots(AcceptStep(s, admit))
  {
    var s' := AcceptStep(s, admit);
    var k := s.accept.k;
    forall i | 0 <= i < |s.acts|
      ensures MainOf(s.acts[i], k) <= RefsOf(s.acts[i], k)
    {
      assert ActInv(s, s.acts[i]);
    }
    MainsAreRefs(s.acts, k);
    assert SlotInv(s, k);
    assert SlotInv(s', k);
    hide SlotInv, Inv;
    Pieces(s);
    AcceptSlots(s, s', k);
  }

  /** The store of IOCount = 1 makes the slot live with one reference, whatever the word was. */
  lemma ConnectOk(s: State, admit: bool)
    requires Inv(s) && s.accept.Named?
    ensures Inv(AcceptStep(s, admit))
  {
    var s' := AcceptStep(s, admit);
    ConnectSlots(s, admit);
    Pieces(s);
    Pieces(s');
    hide SlotInv, Slots;
    AcceptActs(s, s');
  }

  lemma EnterSlot(s: State, admit: bool, j: nat)
    requires Sized(s) && s.accept.Connected? && AcceptEnabled(s) && j < Max(s) && SlotInv(s, j)
    ensures SlotInv(AcceptStep(s, admit), j)
  {
    SumsAppend(s.acts, Pending(s.accept.k, Enter), j);
  }

  lemma EnterSlots(s: State, admit: bool)
    requires Slots(s) && s.accept.Connected? && AcceptEnabled(s)
    ensures Slots(AcceptStep(s, admit))
  {
    hide SlotInv;
    forall j | 0 <= j < Max(s)
      ensures SlotInv(AcceptStep(s, admit), j)
    {
      EnterSlot(s, admit, j);
    }
  }

  lemma EnterOk(s: State, admit: bool)
    requires Inv(s) && s.accept.Connected?
    ensures Inv(AcceptStep(s, admit))
  {
    var s' := AcceptStep(s, admit);
    var s1 := s.(accept := Waiting);
    Pieces(s);
    EnterSlots(s, admit);
    hide SlotInv, Slots;
    assert Rest(s1);
    AcceptActs(s, s1);
    AppendKeepsInv(s1, Pending(s.accept.k, Enter), s');
  }

  lemma AcceptOk(s: State, admit: bool)
    requires Inv(s) && AcceptEnabled(s)
    ensures Inv(AcceptStep(s, admit))
  {
    hide Inv, AcceptStep;
    match s.accept
    case Counted => PopOk(s, admit);
    case Popped(_) => NumberOk(s, admit);
    case Numbered(_, _) => NameOk(s, admit);
    case Named(_) => ConnectOk(s, admit);
    case Connected(_) => EnterOk(s, admit);
    case _ => AdmitOk(s, admit);
  }
}
