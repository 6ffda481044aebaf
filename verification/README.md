# Verified model of the IOCP network library and chat server

This project models the concurrent core of the repository in Dafny and proves what it promises:

* `Utils/LockFreeStack.h` and `Utils/LockFreeQueue.h`: a tagged Treiber stack and a tagged
  Michael-Scott queue whose nodes are recycled through a pool shared by all instances;
* `IOCPNetLib/NetLib_Server.cpp` with `Session.h`: reference counting of sessions, the election of
  the one who releases, the leave completion, reuse of slot indices, the sending side with its
  `IsSending` flag and its clearing at release, multicast reference counts, disconnect requests, the
  frame sender and receiver, session handles, and the fixed-step update of contents;
* `ChatServer/main.cpp`: login with displacement of duplicates, sector moves, leave, the accept-rate
  table and the blacklist.

## How it is built

Each concurrent protocol is a machine: a `State`, an `Action` for every atomic step (one shared read,
write or interlocked operation, or one lock region), `Enabled` and `Next`. Any number of threads or
sessions run, in every interleaving. `Pc` names where an activity stands, with the source line of
its next step beside each constructor. A `...Proof` file shows that every step keeps the
invariant, a `...Runs` file states what holds in every reachable state, a `...Calls` file what the callers are
told: it compares the calls of a run with their answers. An `...InPlace` file holds the
class of the source with the fields that exist at run time, updated in place; its methods
are proved to be the machine's steps. What the machines carry beyond the run-time words (unbounded
counts, holders, logs) is ghost in these classes, so no instruction can depend on it. The methods of stack
and queue are proved for every run, in order or not. Sequential code
(encoder, frame building, receive loop, catch-up loop, collection loop) is methods with loops, proved
against functions about which the properties are stated.

| files | what they hold |
|---|---|
| `TaggedPointer`, `Sums` | the packed 64-bit words; counting over the activities of a machine |
| `LockFreeStack`, `...Proof`, `...Runs`, `...Calls`, `...InPlace` | the stack |
| `LockFreeQueue`, `...Proof`, `...Runs`, `...Exact`, `...Calls`, `...Solo`, `...Tail`, `...Recycling`, `...InPlace` | the queue |
| `LockFreeQueuePool`, `LockFreeQueueCrossLink` | many queues on one pool |
| `SessionLifetime`, `...Proof`, `...Runs`, `...Release`, `...InPlace`, `SessionHandle` | session slots and handles |
| `DisconnectRequest`, `...Runs`, `...InPlace` | the flag of Disconnect against the receives of a session |
| `SendPath`, `...Proof`, `...Runs`, `...Calls`, `...InPlace` | sending |
| `SessionSend`, `...Runs` | a session slot together with its sending side |
| `Multicast`, `MulticastSend` | one packet sent to many |
| `SimpleEncoder`, `...Bytes`, `Framing`, `FramingRuns`, `FramingChecks` | frames |
| `FixedStep` | content updates |
| `ChatLogin`, `...Proof`, `...Runs`, `...Calls`, `...InPlace`, `AcceptRate` | the chat server |

Some code is modelled from headers that the table below does not cite: `SendPost` and the two
`TrySendPost` from `IOCPNetLib/Session.h:33-157`, `RecvPost` from 159-220, `Connect` from 246-281,
`ClearSendBuffer` and `ClearSendPackets` from 282-313, the encoder from `Utils/SimpleEncoder.h:30-74`,
`PutData` from `IOCPNetLib/Packet.h:273-288`, `PlayerSectorUpdate` from `ChatServer/SectorMap.cpp:97-129`.
The rows then cite the lines that call it.

`dafny verify dfyconfig.toml` checks the whole project.

## What the proofs found

* **Stack tags.** A run of the stack is a run of a LIFO stack if and only if no Pop in it is deceived,
  that is, no pop CAS finds the word it read over a top whose successor is another one
  (`InOrderIffNobodyDeceived`). Nobody is deceived as long as the 17-bit tag of the captured node is not given
  out again between the Pop's read and its CAS, however old the node is. Once is enough to
  lose an item: `LifoExactlyWithoutRounds`, with the run `ItemLost`, which has two pushes between read and CAS.
* **Queue recycling.** A run of the queue is in order if and only if every CAS that succeeds is sound
  (`InOrderIffSound`). The tags make those on head and tail sound, in the same sense as for the stack.
  They do not protect the link CAS: the empty `next` marker carries the queue's identifier and no count.
  `UnguardedLinkLosesElement` is a run without any tag coming round that loses an element. A captured node that
  was recycled and linked again into the same queue does no harm to the order (`EveryRunIsFifo` allows it,
  `LinkExtendsIffListed` is exact), but it can leave the tail two nodes behind (`TailTwoBehind`).
  m_tail is the last or next-to-last node throughout an in-order run if and only if at every link CAS that succeeds
  it still names the captured node (`TailNearIffLinksAtTail`).
* **Queues on one pool.** With fewer than 2^17 queues, and if no node that was never handed out carries
  a queue's marker, all queues stay in order if and only if every CAS in the pool is sound (`PoolInOrderIffSound`); then
  each sees the others only as foreign writes (`QueuesStayApart`). The identifier keeps a link CAS that
  compares its own queue's marker away from other queues (`NoCrossLinks`). It does not keep queues apart:
  line 37 reads `next` of a tail captured at line 35 without looking at m_tail again, so an Enqueue that was delayed
  in between can read another queue's marker, and its CAS then links its node into that queue
  (`CrossLinked`, a run of two queues in which no tag comes round).
* **IOCount.** A failed FindSession on a released slot is never taken back. The 4608th failure in a row
  wraps the word and the released session is found (`ReleasedHandleFound`). With 255 references on a live session
  the next FindSession answers that it is released (`LiveHandleRejected`). `FindTellsLiveIffRoom` is the exact
  condition of both.
* **Header code.** `Opt_Encryption.Header_Code` is a signed char compared with an unsigned one: with a
  negative code the receiver rejects every frame of its own sender. `RoundTrip` holds exactly for
  codes from 0, for payloads of at most 1395 bytes (PutData stores nothing of a longer one),
  and for streams that finish a frame often enough for the recv counter.
* **Length check.** The check admits an announced length of 1396 to 1400, for which the header and the payload
  do not fit `iobuf`. The loop stays inside its buffers if and only if every length it copies is at most
  1395 (`StaysInsideIffShort`), and the server's own frames always do (`SenderStaysInside`).
* **Disconnect.** The enter completion posts the first receive without looking at requestDisconnect. Once everybody
  has looked, a requested disconnect leaves a receive pending if and only if it is that first one and
  the whole call came before it (`UnheardIff`, `JoinIsUnheard`). Every later receive is cancelled.
* **Fixed step.** A gap shorter than the 32-bit wrap is not enough: the unfinished frame
  counts too (`NoDriftIffTimely`). Updates lost by a late poll never come back.

## Model

| member | source | states |
|---|---|---|
| TaggedPointer.UnpackPack | Utils/LockFreeStack.h:130-142 | masking and shifting a packed word give back the low 47 address bits and the low 17 count bits |
| TaggedPointer.PackedWordsEqual | Utils/LockFreeStack.h:136-142 | two packed words are equal exactly when both truncated halves are |
| TaggedPointer.PackIsArithmetic | Utils/LockFreeQueue.h:140-146 | packing is address modulo 2^47 plus 2^47 times the count modulo 2^17 |
| TaggedPointer.CutIffEqualWords | Utils/LockFreeStack.h:27-51 | the machines' comparison of pointers with cut counts is the 64-bit comparison of the words |
| TaggedPointer.NoRoundIff | Utils/LockFreeStack.h:124-142 | the tag of a captured node has not come round exactly when no count given out since the read has its low 17 bits |
| StackProof.PushCasOk | Utils/LockFreeStack.h:27 | a push CAS, successful or not, keeps the list spelled by the words in memory |
| StackProof.PopCasHitsTop | Utils/LockFreeStack.h:39-51 | if the tag did not come round between read and CAS, a successful pop CAS has captured the very push on top, whatever its age, and installs its true successor |
| StackProof.WindowedUndeceived | Utils/LockFreeStack.h:39-51 | a pop CAS whose tag did not come round is not deceived |
| StackProof.PopCasTakesTop | Utils/LockFreeStack.h:51 | an undeceived pop CAS that succeeds takes the top off, even when its capture is of an earlier incarnation |
| StackProof.DeceivedBreaks | Utils/LockFreeStack.h:51 | a deceived one leaves a top that does not spell the list |
| StackProof.PopCasOk | Utils/LockFreeStack.h:51 | a pop CAS, successful or not, keeps the invariant unless it is deceived |
| StackProof.PushCasLogged | Utils/LockFreeStack.h:13-30 | a successful push CAS puts the caller's item on the abstract stack |
| StackProof.PopCasLogged | Utils/LockFreeStack.h:32-56 | a successful pop CAS takes the last item off the abstract stack |
| StackProof.StepKeepsInv | Utils/LockFreeStack.h:13-56 | every step of every thread but a deceived pop CAS, and every write of another user of the pool, keeps the invariant |
| StackRuns.SoloPush | Utils/LockFreeStack.h:13-30 | an undisturbed Push run step by step puts one item on top, counts it and gives out one tag |
| StackRuns.SoloPop | Utils/LockFreeStack.h:32-56 | an undisturbed Pop takes the top item off, uncounts it and frees its node, however old it is |
| StackRuns.ItemLost | Utils/LockFreeStack.h:39-51 | where a tag may come round once there is a run that ends with an empty top over a stack that still holds an item |
| StackRuns.LifoExactlyWithoutRounds | Utils/LockFreeStack.h:13-56 | all runs in which the tag at a pop CAS that succeeds has come round at most n times are runs of a LIFO stack if and only if n is 0 |
| StackRuns.InOrderIffNobodyDeceived | Utils/LockFreeStack.h:13-56 | any single run, without any condition, is a run of a LIFO stack throughout if and only if no Pop in it is deceived |
| StackRuns.PopReturnsItsItem | Utils/LockFreeStack.h:52-55 | over all runs that deceive no Pop: the data read after the CAS is the item the CAS took off, and m_size is exact when no operation is under way |
| StackCalls.CallsAreAnswered | Utils/LockFreeStack.h:13-56 | over all runs that deceive no Pop, for every value: the calls of Push are the items pushed and the Pushes on the way; the items popped are those returned and those on the way; and every Pop called has returned an item, told its caller that the stack is empty, or is at work |
| StackCalls.AtRestAllAnswered | Utils/LockFreeStack.h:13-56 | at rest every value handed to Push was pushed, every item popped was returned, and no call is unanswered |
| StackCalls.EmptyIsEmpty | Utils/LockFreeStack.h:37-45 | a Pop answers false only at a moment when the stack is empty; losing a CAS never makes it |
| StackCalls.EmptyPopEnds | Utils/LockFreeStack.h:39-45 | on an empty stack an undisturbed Pop does, and leaves everything as it was |
| StackCalls.AtRestNoNodeLost | Utils/LockFreeStack.h:13-56 | at rest every node is in the list or back in the pool |
| StackInPlace.LockFreeStack.constructor | Utils/LockFreeStack.h:112-117 | an empty stack |
| StackInPlace.LockFreeStack.CallPush | Utils/LockFreeStack.h:15-17 | Alloc and the write of the data are the machine's step |
| StackInPlace.LockFreeStack.ResumePush | Utils/LockFreeStack.h:19-25 | count, read of the top and link, on run-time words alone, are the machine's steps |
| StackInPlace.LockFreeStack.FinishPush | Utils/LockFreeStack.h:27-28 | the CAS of Push and its counter are the machine's steps |
| StackInPlace.LockFreeStack.ResumePop | Utils/LockFreeStack.h:37-51 | the reads and the CAS of Pop, on run-time words alone and in every run, are the machine's steps |
| StackInPlace.LockFreeStack.FinishPop | Utils/LockFreeStack.h:52-55 | the counter, the data and the Free of Pop are the machine's steps |
| QueueProof.LinkCasHitsEnd | Utils/LockFreeQueue.h:35-46 | a link CAS that succeeds on a listed node hits the last one, even when its capture is of an earlier incarnation |
| QueueProof.EnqLinkOk | Utils/LockFreeQueue.h:46-49 | a link CAS, successful or not, keeps list and addresses in order |
| QueueProof.HeadCasHitsHead | Utils/LockFreeQueue.h:72-90 | if the tag did not come round between read and CAS, a successful head CAS captured the very head, whatever its age, and is sound |
| QueueProof.HeadCasTakesFirst | Utils/LockFreeQueue.h:83-90 | a sound head CAS that succeeds installs the second node, and the data read before the CAS is that node's |
| QueueProof.TailCasHitsTail | Utils/LockFreeQueue.h:40-52 | if the tag did not come round, a CAS on m_tail, from any of its three places, is sound |
| QueueProof.TailCasAdvances | Utils/LockFreeQueue.h:40-52 | a sound CAS on m_tail that succeeds moves it to the next linked node |
| QueueProof.GuardedSound | Utils/LockFreeQueue.h:33-90 | at a CAS that succeeds, a tag that did not come round, or a captured node not in another Enqueue's hands, makes it sound |
| QueueExact.UnsoundBreaks | Utils/LockFreeQueue.h:40-90 | an unsound CAS, be it on tail, next or head, breaks the list or the order at once |
| QueueExact.InOrderIffSound | Utils/LockFreeQueue.h:19-98 | any single run, without any guard, is in order throughout if and only if every CAS in it is sound |
| QueueRuns.LinkAppends | Utils/LockFreeQueue.h:33-52 | a successful link CAS appends the caller's value to the abstract queue |
| QueueRuns.HeadCasRemoves | Utils/LockFreeQueue.h:70-96 | a successful head CAS removes the first value and it is the one returned |
| QueueRuns.OthersLeaveList | Utils/LockFreeQueue.h:19-98 | no other step changes the list or what was enqueued and dequeued |
| QueueRuns.SizeKept | Utils/LockFreeQueue.h:46-63 | a step that keeps its own ledger keeps the size identity and an element for every reservation |
| QueueRuns.StepKeepsInv | Utils/LockFreeQueue.h:19-98 | every sound step keeps list, order, size and thread invariants |
| QueueRuns.EveryRunIsFifo | Utils/LockFreeQueue.h:19-98 | in every state that sound steps reach, and so in every state that guarded steps reach, the values enqueued are those dequeued followed by those linked, in order |
| QueueRuns.SizeOverRuns | Utils/LockFreeQueue.h:46-63 | over all sound runs: m_size = linked - linked but uncounted - reserved - refused; a reservation always has an element; exact at rest |
| QueueCalls.CallsAreAnswered | Utils/LockFreeQueue.h:19-98 | over all runs, for every value: the calls of Enqueue are the values linked and the Enqueues on the way to it; the values dequeued are those returned and those on the way; and every Dequeue called has returned a value or -1, or is at work |
| QueueCalls.AtRestAllAnswered | Utils/LockFreeQueue.h:19-98 | at rest every value handed to Enqueue was linked, every value dequeued was returned, and no call is unanswered |
| QueueCalls.RefusedIffNoneLeft | Utils/LockFreeQueue.h:58-63 | a Dequeue goes on to -1 if and only if all linked elements are uncounted, promised to other Dequeues, or hidden by refusals not taken back |
| QueueCalls.AtRestNoNodeLost | Utils/LockFreeQueue.h:24-94 | over all sound runs, at rest every node is in the list or back in the pool |
| QueueSolo.EnqueueEndsAlone | Utils/LockFreeQueue.h:33-53 | from any state of a sound run an Enqueue at its loop that runs alone ends, however far m_tail was behind, with its value last and m_tail on its node |
| QueueSolo.DequeueAlone | Utils/LockFreeQueue.h:58-96 | from any such state a Dequeue called and left alone returns the first value if m_size is positive, and else -1 with everything as it was |
| QueueRuns.LinkExtendsIffListed | Utils/LockFreeQueue.h:46 | a link CAS that succeeds extends the list exactly when the captured node is linked in this queue |
| QueuePool.SeesForeign | Utils/LockFreeQueue.h:16-31 | what one queue writes is to every other queue a foreign write that keeps its invariant |
| QueuePool.OfOk | Utils/LockFreeQueue.h:19-98 | a sound step of one of many queues keeps all of them in order and their nodes apart |
| QueuePool.QueuesStayApart | Utils/LockFreeQueue.h:8-98 | over all sound runs of any number of queues on one pool each is spelled and first-in first-out, and no node is in two of them |
| QueuePool.PoolInOrderIffSound | Utils/LockFreeQueue.h:8-98 | any run of any number of queues is in order throughout, in all of them, if and only if every CAS in it is sound |
| QueuePool.NoCrossLinks | Utils/LockFreeQueue.h:16-46 | after any sound run, a link CAS that succeeds comparing its own queue's marker, sound or not, writes to a node of its own queue, held by no other |
| QueueCrossLink.CrossLinked | Utils/LockFreeQueue.h:35-46 | a run of two queues, no tag coming round, that ends with a node of the first linked behind the last node of the second, both lists broken |
| QueueRuns.NoCrossLink | Utils/LockFreeQueue.h:16-31 | a link CAS that captured this queue's marker fails on a node outside this queue, under any foreign writes but of that marker |
| QueueRuns.WritesNoOtherMarker | Utils/LockFreeQueue.h:24-52 | no step of a queue writes the marker of a queue with another identifier modulo 2^17 into a next field |
| QueueTail.StepForward | Utils/LockFreeQueue.h:40-90 | each step leaves the list, appends one node, or removes the head, and the tail never goes back |
| QueueTail.TailNearIffLinksAtTail | Utils/LockFreeQueue.h:40-52 | over all sound runs: m_tail is the last or next-to-last node throughout if and only if at every link CAS that succeeds it names the captured node |
| QueueTail.TailIsLastOrNextToLast | Utils/LockFreeQueue.h:40-52 | so it is in every sound run where no captured node is handed out again before its link CAS succeeds |
| QueueRecycling.UnguardedLinkLosesElement | Utils/LockFreeQueue.h:31-46 | a run, no tag coming round, in which a stale link CAS hits a recycled, private node and the element is lost |
| QueueRecycling.GuardIsNeeded | Utils/LockFreeQueue.h:46 | with the guard all runs are in order, without it some run is not |
| QueueRecycling.TailTwoBehind | Utils/LockFreeQueue.h:40-52 | a guarded run, in order, whose m_tail is two nodes behind |
| QueueInPlace.LockFreeQueue.constructor | Utils/LockFreeQueue.h:8-17 | one untagged dummy node with an untagged null |
| QueueInPlace.LockFreeQueue.ResumePrepare | Utils/LockFreeQueue.h:24-32 | the node gets null, its count and the marker, as the machine says |
| QueueInPlace.LockFreeQueue.ResumeFind | Utils/LockFreeQueue.h:35-40 | the reads of Enqueue's loop, on run-time words alone, are the machine's steps |
| QueueInPlace.LockFreeQueue.ResumeHelp | Utils/LockFreeQueue.h:40-52 | the two CASes of Enqueue on m_tail, in every run |
| QueueInPlace.LockFreeQueue.ResumeLink | Utils/LockFreeQueue.h:46-49 | the link CAS and its retry, in every run |
| QueueInPlace.LockFreeQueue.ResumeCount | Utils/LockFreeQueue.h:53-63 | the counter of Enqueue, reservation, refusal with -1, and the Free at the end of a Dequeue |
| QueueInPlace.LockFreeQueue.ResumeRead | Utils/LockFreeQueue.h:72-73 | the reads of head and tail |
| QueueInPlace.LockFreeQueue.ResumePeek | Utils/LockFreeQueue.h:75-83 | the read of the successor, and where Dequeue goes from there |
| QueueInPlace.LockFreeQueue.ResumeAssist | Utils/LockFreeQueue.h:83-87 | the CAS of Dequeue on m_tail, in every run |
| QueueInPlace.LockFreeQueue.ResumeTake | Utils/LockFreeQueue.h:89-94 | the head CAS and its retry, in every run |
| SessionHandle.DecodeCreated | IOCPNetLib/NetLib_Server.cpp:800-815 | every 16-bit index and 48-bit identifier come back |
| SessionHandle.CreateDecoded | IOCPNetLib/NetLib_Server.cpp:800-815 | every 64-bit word is the handle of what it decodes to |
| SessionHandle.HandlesEqualIff | IOCPNetLib/NetLib_Server.cpp:800-809 | handles are equal exactly when index and low 48 identifier bits are |
| SessionHandle.WordsEqualIff | IOCPNetLib/NetLib_Server.cpp:697 | the comparison in FindSession, in terms of unbounded identifiers |
| SessionHandle.StaleWordDiffers | IOCPNetLib/NetLib_Server.cpp:350-353 | in fewer than 2^48 accepts no released handle has the word of the session now in its slot |
| SessionHandle.WordReturns | IOCPNetLib/NetLib_Server.cpp:800-809 | identifiers 2^48 apart have the same word in the same slot |
| SessionProof.HolderPins | IOCPNetLib/NetLib_Server.cpp:681-724 | whoever holds a reference, or compares handles, keeps its slot live and its word the exact number of references |
| SessionProof.FindOk | IOCPNetLib/NetLib_Server.cpp:692-695 | the increment of FindSession tells a live slot from a released one |
| SessionProof.RaiseOk | IOCPNetLib/NetLib_Server.cpp:160-163 | an increment by a holder never sees the flag, so lines 160-163 are not taken and 39, 466, 540 always go on |
| SessionProof.LowerOk | IOCPNetLib/NetLib_Server.cpp:466-474 | a decrement that leaves its caller another reference never reaches 0, so 470-471 and 544-547 are not taken |
| SessionProof.ReleaseCas | IOCPNetLib/NetLib_Server.cpp:746-750 | the CAS from 0 succeeds only on a live session without references |
| SessionProof.PopFinds | IOCPNetLib/NetLib_Server.cpp:345-347 | accept, having counted itself in, never finds the index pool empty |
| SessionRuns.StepKeepsInv | IOCPNetLib/NetLib_Server.cpp:681-767 | every step inside the bounds of the words keeps the invariant |
| SessionRuns.WordCountsReferences | IOCPNetLib/NetLib_Server.cpp:715-742 | while a session lives its IOCount is exactly the posted operations, pins and comparisons on it, at most 255 |
| SessionRuns.PinHolds | IOCPNetLib/NetLib_Server.cpp:681-706 | what FindSession returned is the session asked for, unreleased, and cannot be released while pinned |
| SessionRuns.NoEnqueueAfterClear | IOCPNetLib/NetLib_Server.cpp:744-765 | no packet is enqueued on a session whose release has begun to clear its queue |
| SessionRuns.StaleHandleRejected | IOCPNetLib/NetLib_Server.cpp:697-703 | a released handle is never returned by FindSession again, however its slot is reused |
| SessionRuns.OneReleaseOneLeave | IOCPNetLib/NetLib_Server.cpp:744-767 | each incarnation is released at most once, left at most once, every leave is of a released one, and the releases are the leaves plus those on their way |
| SessionRelease.ReleaseOnItsWay | IOCPNetLib/NetLib_Server.cpp:726-767 | a live session whose IOCount is 0 has somebody on the way to its release, and a released one has left or its leave is posted |
| SessionRelease.QuietAllReleasedOnce | IOCPNetLib/NetLib_Server.cpp:726-767 | when nobody is at work and nothing is pending, every session that ever joined was released exactly once and left exactly once, and every index is back |
| SessionRuns.LeaveOverlapsNothing | IOCPNetLib/NetLib_Server.cpp:176-220 | OnClientLeave overlaps no completion, pin or callback of its session, and callbacks of a session run one at a time |
| SessionRuns.ChainIsPassedOn | IOCPNetLib/NetLib_Server.cpp:160-218 | the join and receive chain of a session begins with accept, is passed on by every post, and ends only with the last reference of the worker that holds it |
| SessionRelease.FindAnswers | IOCPNetLib/NetLib_Server.cpp:681-706 | for a published handle FindSession returns the session if and only if it is not released |
| SessionRuns.IndicesPartition | IOCPNetLib/NetLib_Server.cpp:191-198 | each index is in the pool, with accept, with one live session or on its way back, exactly once |
| SessionRuns.LastBackIsFirstOut | IOCPNetLib/NetLib_Server.cpp:191-198 | the index that a leave gives back is the next one that accept takes |
| SessionRuns.AdmitsIffFree | IOCPNetLib/NetLib_Server.cpp:317-345 | with no leave half done, accept admits a session if and only if a slot is free |
| SessionRuns.FindTellsLiveIffRoom | IOCPNetLib/NetLib_Server.cpp:715-724 | FindSession tells live from released exactly while the word is below 255 or 65535 |
| SessionRuns.ReleasedHandleFound | IOCPNetLib/NetLib_Server.cpp:692-695 | a run in which 4608 calls on a released slot end with the released session returned |
| SessionRuns.LiveHandleRejected | IOCPNetLib/NetLib_Server.cpp:692-695 | a run inside the bounds to a live session with 255 references, where the next call takes the word to 256 and answers that it is released |
| SessionInPlace.SessionTable.constructor | IOCPNetLib/NetLib_Server.cpp:621-625 | all indices free, 0 on top |
| SessionInPlace.SessionTable.FindSession | IOCPNetLib/NetLib_Server.cpp:681-706 | increment and comparison are the machine's steps |
| SessionInPlace.SessionTable.Raise | IOCPNetLib/NetLib_Server.cpp:160-163 | an increment by a holder is the machine's step |
| SessionInPlace.SessionTable.Post | IOCPNetLib/NetLib_Server.cpp:165-187 | a posted operation takes over one reference |
| SessionInPlace.SessionTable.Lower | IOCPNetLib/NetLib_Server.cpp:726-742 | a decrement, and ReleaseSession for whoever reaches 0 |
| SessionInPlace.SessionTable.ReleaseSession | IOCPNetLib/NetLib_Server.cpp:744-767 | the CAS and the leave completion are the machine's steps |
| SessionInPlace.SessionTable.Complete | IOCPNetLib/NetLib_Server.cpp:191-220 | taking up a completion, and the push and decrement after a leave |
| SessionInPlace.SessionTable.Admit | IOCPNetLib/NetLib_Server.cpp:317-348 | admission, counter, pop |
| SessionInPlace.SessionTable.Connect | IOCPNetLib/NetLib_Server.cpp:350-355 | identifier, handle, the plain store of IOCount = 1, enter completion |
| SendProof.StepKeepsInv | IOCPNetLib/NetLib_Server.cpp:27-56 | every step of the sending side and of the release keeps flag, size, order and wake-up |
| SendRuns.OneSenderAtATime | IOCPNetLib/NetLib_Server.cpp:34-46 | IsSending admits one activity to m_sendPackets at a time |
| SendRuns.GivenBackOnceInOrder | IOCPNetLib/NetLib_Server.cpp:462-474 | packets enqueued are those given back, those in the batch and those queued, in order, so each is given back once; before any release the ones given back are the ones sent; a batch has at most 100 |
| SendRuns.ReleaseClearsAll | IOCPNetLib/NetLib_Server.cpp:744-765 | a release gives back everything that was ever enqueued and leaves queue, batch, counter and flag as a new session needs them |
| SendRuns.TakeFinds | IOCPNetLib/NetLib_Server.cpp:179-188 | a Dequeue that got its reservation, in SendPost or in the release, finds a packet |
| SendRuns.NoLostWakeup | IOCPNetLib/NetLib_Server.cpp:34-48 | while a packet is queued and the socket has not failed (`StuckOnlyBySocket`), somebody owns IsSending, is about to look at it, or is clearing; when all is quiet everything is given back |
| SendCalls.CallsEnqueue | IOCPNetLib/NetLib_Server.cpp:462-474 | for every packet: the calls of SendPacket are the packets enqueued and the calls on the way to it |
| SendCalls.StuckOnlyBySocket | IOCPNetLib/NetLib_Server.cpp:27-56 | IsSending is left set only by a batch that the socket refused or a send that completed without bytes |
| SendCalls.WorkingSocketSendsAll | IOCPNetLib/NetLib_Server.cpp:27-56 | over all runs with a working socket and no release: a packet is given back only after the socket reported it sent; when all is quiet the packets submitted, completed, given back and enqueued are the same, in the same order, and IsSending is clear |
| SendCalls.BatchIsFullOrQueueEmpty | IOCPNetLib/NetLib_Server.cpp:179-188 | SendPost stops taking packets only with 100, or when no counted packet is left |
| SendInPlace.SendingSession.ResumeSender | IOCPNetLib/NetLib_Server.cpp:463-474 | Enqueue, its counter and TrySendPost are the machine's steps |
| SendInPlace.SendingSession.ResumeSendPost | IOCPNetLib/NetLib_Server.cpp:179-188 | the Dequeue loop and WSASend are the machine's steps |
| SendInPlace.SendingSession.ResumeCompletion | IOCPNetLib/NetLib_Server.cpp:27-56 | clearing, releasing the flag, looking at the size, and trying again |
| SendInPlace.SendingSession.ResumeRelease | IOCPNetLib/NetLib_Server.cpp:755-760 | ClearSendPackets, ClearSendBuffer and the store to IsSending are the machine's steps |
| SessionSendRuns.StepKeepsInv | IOCPNetLib/NetLib_Server.cpp:27-56 | every step of a slot and its sending side keeps a referenced activity under all sending code and the elected releaser under all clearing |
| SessionSendRuns.RunsProject | IOCPNetLib/NetLib_Server.cpp:462-474 | every run of slot and sending side together is a run of each of the two machines |
| SessionSendRuns.ConditionsMet | IOCPNetLib/NetLib_Server.cpp:744-765 | when the elected releaser begins to clear nobody is sending, and whoever pinned the session begins to send while nobody is clearing |
| SessionSendRuns.SendingKeepsSession | IOCPNetLib/NetLib_Server.cpp:34-48 | a session is live and its IOCount at least 1 while any sending code is at work on it |
| SessionSendRuns.SessionStartsEmpty | IOCPNetLib/NetLib_Server.cpp:757-765 | from the leave of a session to the first reference of the next in its slot, every packet has been given back, and queue, batch and flag are clear |
| Multicast.CountIsConserved | IOCPNetLib/NetLib_Server.cpp:483-555 | in every interleaving refCount is the destinations to come plus the copies still held |
| Multicast.FreedOnceAtTheEnd | IOCPNetLib/NetLib_Server.cpp:517-535 | the packet is freed exactly once, when no destination and no copy is left |
| Multicast.TouchedOnlyBeforeFree | IOCPNetLib/NetLib_Server.cpp:517-539 | nobody touches a freed packet and no decrement goes below 0 |
| MulticastSend.StepIsPacketStep | IOCPNetLib/NetLib_Server.cpp:483-555 | every step of the multicast and of the senders, completions and releases of all sessions leads from a state the packet machine can reach to one it can reach |
| MulticastSend.CopiesBalance | IOCPNetLib/NetLib_Server.cpp:538-543 | of the copies a session was given, each is in its queue, in its batch, or was given back once |
| MulticastSend.CountIsHeld | IOCPNetLib/NetLib_Server.cpp:483-555 | refCount is the destinations to come plus what the queues and batches of all sessions hold of the packet, and it is freed at most once |
| MulticastSend.GivesBackHeld | IOCPNetLib/NetLib_Server.cpp:27-32 | a completion or release that gives a copy back holds one, and the packet is not freed yet |
| MulticastSend.QuietFreed | IOCPNetLib/NetLib_Server.cpp:517-535 | when all destinations are processed and all sessions quiet or released, the packet has been freed or its freeing is under way, once |
| DisconnectRuns.StepKeepsInv | IOCPNetLib/NetLib_Server.cpp:160-175 | there is one receive and one activity to post it, and a receive pending under a requested disconnect has somebody to cancel it unless it is the first |
| DisconnectRuns.ReceivesGoOn | IOCPNetLib/NetLib_Server.cpp:65-218 | from the enter completion on a receive is posted or about to be, until a post fails or a completion comes without data |
| DisconnectRuns.OnlyFirstUnheard | IOCPNetLib/NetLib_Server.cpp:160-218 | disconnect requested, a receive pending, nobody before line 171, 173 or 564: then it is the first receive and every CancelIoEx came before it |
| DisconnectRuns.UnheardIff | IOCPNetLib/NetLib_Server.cpp:201-218 | the exact states in which a requested disconnect has no effect yet |
| DisconnectRuns.JoinIsUnheard | IOCPNetLib/NetLib_Server.cpp:203-218 | a run in which a whole call of Disconnect falls between the join and the first receive, which stays pending |
| DisconnectRuns.CancelledForGood | IOCPNetLib/NetLib_Server.cpp:65-175 | after a cancelled receive no receive is posted or completes, over every run |
| DisconnectInPlace.Connection.ResumeDisconnect | IOCPNetLib/NetLib_Server.cpp:563-564 | the store of the flag and CancelIoEx are the machine's steps |
| DisconnectInPlace.Connection.ResumeReceive | IOCPNetLib/NetLib_Server.cpp:165-175 | RecvPost, the look at the flag, and the first RecvPost at line 207, are the machine's steps |
| Multicast.SharedPacket.constructor | IOCPNetLib/NetLib_Server.cpp:489-497 | one reference per destination in advance |
| Multicast.SharedPacket.ProcessDestination | IOCPNetLib/NetLib_Server.cpp:511-552 | one round of the loop is the machine's step, and says whether the sender must free |
| Multicast.SharedPacket.Drop | IOCPNetLib/NetLib_Server.cpp:31-32 | dropping a sent or cleared copy, and whether the dropper must free |
| SimpleEncoder.EncodeIsBijection | IOCPNetLib/NetLib_Server.cpp:451-460 | with equal keys decoding and encoding undo each other on all byte strings |
| SimpleEncoder.EncodeInPlace | IOCPNetLib/NetLib_Server.cpp:455-459 | for at most the 1400 bytes its temporary holds, the loop replaces exactly the given bytes by their encoding |
| SimpleEncoder.DecodeInPlace | IOCPNetLib/NetLib_Server.cpp:118-122 | for at most the 1400 bytes its temporary holds, the loop replaces exactly the given bytes by their decoding |
| SimpleEncoder.CalculateChecksum | IOCPNetLib/NetLib_Server.cpp:123-125 | the loop computes the byte sum modulo 256 |
| EncoderBytes.ChecksumIsSum | IOCPNetLib/NetLib_Server.cpp:123-125 | the checksum is the sum of the bytes as numbers, modulo 256 |
| EncoderBytes.EncodeIsChained | IOCPNetLib/NetLib_Server.cpp:451-460 | every byte of the encoding, position by position: two rows of exclusive-ors, each with the predecessor in its row, its key and the position from 1 |
| Framing.LenRoundTrip | IOCPNetLib/NetLibraryProtocol.h:4-10 | the two-byte Len field comes back |
| Framing.CodeMatchesIff | IOCPNetLib/NetLib_Server.cpp:91 | the receiver recognises the sender's code exactly when it is not negative |
| Framing.Body | IOCPNetLib/NetLib_Server.cpp:446-448 | the payload is stored whole if and only if it fits behind the header; nothing of a longer one is |
| Framing.BuildFrame | IOCPNetLib/NetLib_Server.cpp:438-460 | the buffer SendPacket fills is the frame: code, length, key, and the encoded checksum and payload |
| Framing.FrontOf | IOCPNetLib/NetLib_Server.cpp:83-134 | what is at the front of the buffer: a frame inside the bytes received, a rejected frame, a violation, a frame that overruns iobuf, or too little |
| Framing.Receiver.TakeFrame | IOCPNetLib/NetLib_Server.cpp:83-134 | the code, with its 1400-byte iobuf, finds exactly that, and consumes whole frames and nothing else |
| Framing.Receiver.OnCompletion | IOCPNetLib/NetLib_Server.cpp:65-159 | the receive loop delivers, rejects, keeps and counts exactly as specified |
| FramingRuns.FrontStays | IOCPNetLib/NetLib_Server.cpp:85-111 | more bytes never change a front that was decided |
| FramingRuns.ParseAppend | IOCPNetLib/NetLib_Server.cpp:65-159 | parsing can stop where bytes are missing and resume with the rest, for all byte strings |
| FramingRuns.CompletionParses | IOCPNetLib/NetLib_Server.cpp:70-159 | a completion is the parser unless the recv counter has run out, and leaves the counter at 1 after a delivery |
| FramingRuns.Listen | IOCPNetLib/NetLib_Server.cpp:10-178 | the worker's loop over the completions of a session, up to the first disconnect request |
| FramingRuns.FeedParses | IOCPNetLib/NetLib_Server.cpp:65-159 | for all bytes and all ways of cutting them, delivery and verdict, an overrun included, are those of the whole stream, or a prefix when the counter cuts it off |
| FramingRuns.ChunkingIrrelevant | IOCPNetLib/NetLib_Server.cpp:65-159 | two ways of cutting the same bytes deliver the same and end the same |
| FramingRuns.CutOffIff | IOCPNetLib/NetLib_Server.cpp:73-81 | the counter cuts a stream off exactly when nine completions in a row, not the first ten, finish no frame and another follows |
| FramingRuns.FrontOfFrame | IOCPNetLib/NetLib_Server.cpp:438-460 | a frame comes back as its body, whatever follows, if and only if the code is recognised |
| FramingRuns.RoundTrip | IOCPNetLib/NetLib_Server.cpp:65-159 | for all packets and all ways of cutting their stream: exactly the payloads are delivered in order if and only if code, sizes and counter permit |
| FramingRuns.BytesConserved | IOCPNetLib/NetLib_Server.cpp:68-115 | bytes received are those of delivered frames, rejected frames and the buffer; with an overrun, of the bytes received until then |
| FramingRuns.OverrunIffLong | IOCPNetLib/NetLib_Server.cpp:100-115 | parsing a stream overruns iobuf exactly when a length it copies is above 1395 |
| FramingRuns.StaysInsideIffShort | IOCPNetLib/NetLib_Server.cpp:65-159 | for all bytes and cuttings the loop stays inside its buffers if and only if every length it copies is at most 1395 |
| FramingRuns.SenderStaysInside | IOCPNetLib/NetLib_Server.cpp:438-460 | whatever part of the server's own frames has come, in whatever pieces, the loop stays inside its buffers |
| FramingRuns.NothingAfter | IOCPNetLib/NetLib_Server.cpp:73-108 | after a bad code, bad length or exhausted counter no later completion delivers anything and every byte stays |
| FramingChecks.HeaderDecides | IOCPNetLib/NetLib_Server.cpp:85-108 | what the loop does is decided by the code as a number and the little-endian length |
| FramingChecks.LengthDecides | IOCPNetLib/NetLib_Server.cpp:100-115 | for which lengths it disconnects, waits, overruns, or takes the frame, and how much |
| FramingChecks.ChecksumDecides | IOCPNetLib/NetLib_Server.cpp:118-133 | for every body and every checksum byte: with encryption the frame is delivered if and only if the byte is the byte sum of the body modulo 256, and rejected otherwise |
| FramingChecks.EveryFrameIsPacked | IOCPNetLib/NetLib_Server.cpp:83-134 | every frame that the loop takes is one of those, whoever built it |
| FramingChecks.CorruptedStreamStops | IOCPNetLib/NetLib_Server.cpp:65-159 | however a stream is cut: everything before the first frame with a wrong checksum is delivered, nothing of it or behind it, and the session is disconnected for it, unless the recv counter came first |
| FramingRuns.RoomForNextReceive | IOCPNetLib/NetLib_Server.cpp:164-168 | after a clean completion less than one frame is buffered, so RecvPost has room |
| FixedStep.Content.constructor | IOCPNetLib/NetLib_Server.cpp:240-248 | the start of a content |
| FixedStep.Content.Poll | IOCPNetLib/NetLib_Server.cpp:225-235 | the catch-up loop ends and runs as many updates as whole frames fit the wrapped difference |
| FixedStep.RunAccurate | IOCPNetLib/NetLib_Server.cpp:225-235 | over every run of polls the lag in true time is the unfinished frame, or at least the whole wrap once a poll was late |
| FixedStep.NoDriftIffTimely | IOCPNetLib/NetLib_Server.cpp:225-235 | total updates are the whole frames since the beginning if and only if every poll was timely; the wrapped lag is always below one frame |
| FixedStep.ShortGapsAreTimely | IOCPNetLib/NetLib_Server.cpp:227-229 | gaps up to the wrap less one frame are always timely |
| ChatProof.StepKeepsInv | ChatServer/main.cpp:65-132 | every lock region of every session keeps the invariant over the three maps, the lists and the players |
| ChatProof.StepIsKept | ChatServer/main.cpp:390-618 | what a step of one session may do to the others |
| ChatRuns.BoundOrAsked | ChatServer/main.cpp:458-513 | from the creation of its player until its leave comes to the account, a session is bound to its account, or Disconnect was called for it or is about to be |
| ChatRuns.OneBoundPerAccount | ChatServer/main.cpp:458-470 | of two such sessions on one account, published or not, at least one was told or is being told to go |
| ChatRuns.DuplicateLoginDisplaced | ChatServer/main.cpp:458-513 | of two sessions logged in to one account at least one was told or is being told to go |
| ChatRuns.BindingEnds | ChatServer/main.cpp:118-128 | a binding ends only by its own session's leave or by a later login that is about to disconnect that session |
| ChatRuns.NoSessionForgotten | ChatServer/main.cpp:262-354 | between callbacks a session is waiting, logged in, or was asked to go, so one of the timeouts reaches it |
| ChatCalls.MoveGoesThere | ChatServer/main.cpp:519-562 | a move to (x, y) puts the player into that sector, once in its list and in no other, if and only if it is for the session's own account and on the map; else the player stays and the session is on its way to Disconnect |
| ChatCalls.MoveLeavesOthers | ChatServer/main.cpp:540-548 | it moves nobody else |
| ChatCalls.ChatDecides | ChatServer/main.cpp:565-617 | a chat message for the session's own account changes nothing, one for another account disconnects it |
| ChatCalls.RequestAlone | ChatServer/main.cpp:519-534 | a request of a logged-in session reaches its own player unchanged |
| ChatCalls.RequestsAreSent | ChatServer/main.cpp:519-617 | over every run, a request that is carried out is one that the session has sent |
| ChatCalls.CallbackEnds | ChatServer/main.cpp:390-618 | in every interleaving a callback ends with the player published, a request for the own account carried out, or the session asked to go |
| ChatCalls.LoginAlone | ChatServer/main.cpp:403-513 | an undisturbed login that Redis consents to ends with exactly the account bound, the player published and the previous session asked to go |
| ChatCalls.PlayersAreAuthenticated | ChatServer/main.cpp:432-458 | over every run, a player exists only for a session that asked for that account and that Redis has consented to |
| ChatCalls.RefusedNeverPlays | ChatServer/main.cpp:432-453 | a session that Redis has refused never has a player, an account or a place in players_sessionHandle |
| ChatRuns.LeftNothingBehind | ChatServer/main.cpp:87-132 | after its leave a session is in no map and no sector list, and its player is deleted |
| ChatRuns.PointersAlive | ChatServer/main.cpp:411-420 | no map, no sector list and no session's code holds a pointer to a deleted player |
| ChatRuns.ListedOnce | ChatServer/main.cpp:548 | a player on the map has one entry in the list of its sector and none in any other |
| ChatRuns.StepKeepsPool | ChatServer/main.cpp:131 | no step but the last region of the owner's leave deletes a player, and none revives one |
| ChatRuns.DeletedOnce | ChatServer/main.cpp:131 | the delete finds its own session's player, undeleted |
| ChatRuns.DeletedForGood | ChatServer/main.cpp:131 | over every run a deleted player's record stays deleted and keeps its owner |
| ChatRuns.AllGoneAllFree | ChatServer/main.cpp:87-132 | when every session has left, all maps and lists are empty and every player is deleted |
| ChatInPlace.ChatServer.OnClientJoin | ChatServer/main.cpp:79-82 | the session is put into waiting |
| ChatInPlace.ChatServer.LoginRegion | ChatServer/main.cpp:412-513 | the lock regions of a login are the machine's steps |
| ChatInPlace.ChatServer.PlayerRegion | ChatServer/main.cpp:519-617 | finding and using the player are the machine's steps |
| ChatInPlace.ChatServer.PlayerSectorUpdate | ChatServer/main.cpp:548 | the player moves from one list to the other, or nothing changes when it is there already |
| ChatInPlace.ChatServer.LeaveRegion | ChatServer/main.cpp:94-131 | the lock regions of a leave are the machine's steps |
| AcceptRate.AcceptTable.OnClientJoin | ChatServer/main.cpp:67-77 | one more join of a known address, or a new entry, as the history says |
| AcceptRate.AcceptTable.OnClientLeave | ChatServer/main.cpp:137-150 | a leave after one of the four frame violations blames the address, any other leave does not |
| AcceptRate.AcceptTable.OnConnectionRequest | ChatServer/main.cpp:153-169 | refused exactly when the list is in use and, since it was last cleared and while it was in use, the address flooded or broke a frame |
| AcceptRate.AcceptTable.CollectEntry | ChatServer/main.cpp:213-232 | checking the limit only for a new maximum is the plain check of the count |
| AcceptRate.AcceptTable.CollectEntries | ChatServer/main.cpp:211-236 | whatever the order, every entry is visited once, offenders are erased and blacklisted, survivors start at 0 |
| AcceptRate.AcceptTable.CollectAcceptTPS | ChatServer/main.cpp:206-238 | a collection is one event of the history |
| AcceptRate.CountIsSince | ChatServer/main.cpp:65-77 | an entry's count is the joins since the last collection, its maximum never above the limit |
| AcceptRate.MaxIsHighest | ChatServer/main.cpp:213-222 | an entry's maximum is the highest count that a collection has found in it since it was made, if one has |
| AcceptRate.BlacklistedIffBlamed | ChatServer/main.cpp:137-238 | over all joins, leaves, collections, clearings and switchings: an address is blacklisted if and only if, with the list in use and no clearing since, some interval saw more than 5001 of its joins or one of its sessions left after a broken frame |
| AcceptRate.InUseIffEven | ChatServer/main.cpp:976 | the blacklist is in use exactly when it was switched an even number of times |
| AcceptRate.CollectedAtZero | ChatServer/main.cpp:213-232 | right after a collection every entry is at 0 |

## Left out

- TLSObjectPool and LockFreePool internals: taken by contract. Memory is type-stable, Alloc returns a node that no one here holds, and a node this container does not hold may be overwritten at any moment.
- Node addresses are natural numbers; `CutIffEqualWords` asks that they lie below 2^47, as ADR_MASK presumes.
- Weak memory: each shared access is one atomic step in one global order.
- The overloads that report a race count (Utils/LockFreeStack.h:58-109): the same shared steps with a private counter.
- The 32-bit wrap of m_size and of the allocation counters: the sizes are unbounded, and the counters reach the words only modulo 2^17, which divides 2^32.
- ClearBuffer of the queue: it resets the head without giving nodes back and is not used by the server.
- A Dequeue that returns -1 as a linearizable "empty": a refused reservation in progress can make another Dequeue report empty while an element is linked; the size identity is proved instead.
- QueueTail.TailIsLastOrNextToLast: asks that no captured node is handed out again; `TailNearIffLinksAtTail` is exact.
- Sessions with a content (`m_content != nullptr`), Move_Content and NetLib_Content messages: the machine has the configuration the chat server runs.
- Winsock and IOCP themselves: a completion may arrive at any time after its operation was posted, and whether a post succeeds is a free choice.
- SessionInPlace.SessionTable.constructor: takes any number of slots; the source's loop variable is a signed short, so its loop does not end for a maximum above 32767.
- The chat machine is not coupled with the session machine; that the callbacks of one session come one after another is `LeaveOverlapsNothing`.
- The session machine runs SendPacket inside a callback as an activity of its own; that only adds runs.
- SessionRuns.StepKeepsInv: asks that no word leaves its bounds (255 references on a live slot, 4607 failed finds on a released one); `FindTellsLiveIffRoom` and `ReleasedHandleFound` show what happens past them.
- SendRuns.NoLostWakeup: a socket that fails leaves IsSending set until the release, as in the source.
- Connect clears the send queue once more; after `ReleaseClearsAll` it finds nothing there.
- Which destinations of a multicast have no session or a full queue is a free choice.
- Disconnect requests: only receives are followed. A send posted after the last CancelIoEx ends by itself or with the socket.
- The ring buffer is a byte sequence. What happens after an overrun of `iobuf` (verdict `Overran`) is not modelled: the model stops there.
- The per-packet type words, m_leave_code and the choice of log messages: they do not influence what is delivered.
- FixedStep.Content.Poll: a frequency of 0 makes the source's loop endless and is excluded.
- The CurrTPS counter is unbounded; 2^31 joins between two collections would overflow it.
- Redis: which answer it gives is a free choice. Names, keys, positions, IP and port of a player play no role in the maps.
- The unlocked heartbeat lookup (ChatServer/main.cpp:620-634) reads players_sessionHandle without its lock and has no step in the machine.
- A chat message that is too long and an unknown request type only call Disconnect; a timeout thread's call, which may come for any session at any time, stands for theirs.
- SendAroundSector, sector adjacency and lock order of sectors.
- Which sessions the timeout threads choose: they may call Disconnect for any session at any time.
- ChatRuns.DeletedForGood: the pool that hands out Player objects is not modelled; each creation is a new record, so that deletion can be told from reuse.
- A collection is one step of the accept-rate table; a clearing, a switching or a leave between two of its inserts is not interleaved.
- SessionHandle.WordReturns: arithmetic of the handle; no run of 2^48 accepts is built.
- MonitorThread totals, console, configuration, monitor and login servers, database access.
