/**
 The 64-bit session handle of IOCPNetLib/NetLib_Server.cpp:800-815, and when the words tell
 two handles of the machine apart.
 */
module SessionHandle {
  import opened SessionSpec
  import opened SessionRuns

  const IDS: nat := 0x1_0000_0000_0000
  const INDICES: nat := 0x1_0000

  // ---- The bit operations

  const ID_MASK: bv64 := 0x0000_FFFF_FFFF_FFFF

  function CreateSessionHandle(index: bv16, sessionID: bv64): bv64 {
    ((index as bv64) << 48) | (sessionID & ID_MASK)
  }

  function DecodeIndex(sessionHandle: bv64): bv16 {
    (sessionHandle >> 48) as bv16
  }

  function DecodeID(sessionHandle: bv64): bv64 {
    sessionHandle & ID_MASK
  }

  /** Every index and the low 48 bits of every identifier come back. */
  lemma DecodeCreated(index: bv16, sessionID: bv64)
    ensures DecodeIndex(CreateSessionHandle(index, sessionID)) == index
    ensures DecodeID(CreateSessionHandle(index, sessionID)) == sessionID & ID_MASK
  {
  }

  /** Every word is the handle of exactly one index and 48-bit identifier. */
  lemma CreateDecoded(sessionHandle: bv64)
    ensures CreateSessionHandle(DecodeIndex(sessionHandle), DecodeID(sessionHandle)) == sessionHandle
  {
  }

  lemma HandlesEqualIff(i: bv16, a: bv64, j: bv16, b: bv64)
    ensures CreateSessionHandle(i, a) == CreateSessionHandle(j, b) <==> i == j && a & ID_MASK == b & ID_MASK
  {
    hide DecodeIndex, DecodeID;
    if CreateSessionHandle(i, a) == CreateSessionHandle(j, b) {
      DecodeCreated(i, a);
      DecodeCreated(j, b);
    }
  }

  // ---- Handles of the machine

  function Word(h: Handle): (w: nat)
    requires h.index < INDICES
    ensures w < 0x1_0000_0000_0000_0000
  {
    h.index * IDS + h.id % IDS
  }

  /** Words are equal exactly when the index is and the identifiers agree modulo 2 to the 48. */
  lemma WordsEqualIff(h: Handle, g: Handle)
    requires h.index < INDICES && g.index < INDICES
    ensures Word(h) == Word(g) <==> h.index == g.index && h.id % IDS == g.id % IDS
  {
    assert Word(h) % IDS == h.id % IDS && Word(g) % IDS == g.id % IDS;
  }

  /**
   The comparison at line 697 on words: in a run of fewer than 2 to the 48 accepts no handle
   that was ever released has the word of the session now living in its slot.
   */
  lemma StaleWordDiffers(s: State, h: Handle)
    requires Reachable(true, s) && Max(s) <= INDICES && s.idPool < IDS
    requires h in s.released && h.index < Max(s) <= |s.live| && s.live[h.index]
    ensures h.index < |s.handle| && s.handle[h.index].index < INDICES && Word(h) != Word(s.handle[h.index])
  {
    ReachableInv(s);
    assert SlotInv(s, h.index);
    WordsEqualIff(h, s.handle[h.index]);
  }

  /** Identifiers that are 2 to the 48 apart have the same word in the same slot. */
  lemma WordReturns(index: nat, id: nat)
    requires index < INDICES
    ensures Word(Handle(index, id + IDS)) == Word(Handle(index, id))
  {
  }
}
