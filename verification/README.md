# The shared-memory ring: model and proofs

This project models the IPC queue of `message_transport`: a ring of bytes in a mapped
file that any number of producers claim blocks in and any number of readers follow. One
64-bit word packs the reader count with the absolute write offset; producers move it with
compare-and-swap, spin until their block no longer laps the low watermark, write a header
and a payload, and commit. A block that would leave no room for another header before the
ring end becomes padding and the claim is made again. Each reader keeps its own cursor;
each header counts down the readers that still owe it, and the last one clears the block
and advances the watermark. Readers may join at any time.

The central result is that this machinery is an ordered broadcast log
(`RingBroadcast.OrderedBroadcast`): under the assumptions listed below and for every
interleaving, every reader is shown exactly the messages claimed since it joined, in claim
order, each once, with the bytes and the length its producer committed. The result is
carried down to a machine that has nothing but the bytes of the ring
(`RawRuns.RawOrderedBroadcast`), with the exact condition on those bytes.

## How it is built

- **The step system** (`RingModel`). One `Action` is one atomic access of the code, or a
  run of accesses that no other agent can observe apart, so a sequence of actions is an
  interleaving. A log of all successful compare-and-swaps is kept as history that no
  step reads. Counts wrap at 8 bits, offsets at 56, sizes at 32. Headers are records keyed
  by ring position.
- **The invariant** (`RingInvariant`, kept by every step in `ProducerSteps`, `BlockSteps`
  and `ReaderSteps`), and what it needs of each step (`RingSafety`).
- **What follows in every reachable state** (`RingTheorems`), the refinement of the
  broadcast feed (`Broadcast`, `RingBroadcast`), progress (`RingProgress`) and what may
  happen between the two loads of one poll (`LatePolls`) and to a message that is kept
  unread (`KeptMessages`).
- **Bytes.** `HeaderBytes` is the packed header, `RawRing` what each step stores, field by
  field, `RawMachine` and `RawRuns` the machine that decodes every header it looks at from
  the ring. `SizeGrids` gives message sizes for which the machine is the step system.
- **The packed word** bit by bit (`Bits`, `PackedWord`).
- **The classes**: `SharedMemory.SharedRing` is the mapped file, `IpcQueues.IpcQueue` an
  attached producer or reader, `Archive.ArchivePublication` the batching client and
  `Subscription.ArchiveSubscription` the client with a handler. Their fields are updated in
  place; a ghost copy of the step system's state moves along, and each method is proved to
  be a run of the step system and to end where its contract says.
- **Concrete failures** (`StalePoll`, `StaleFlag`, `StuckBatch`, `Overruns`): states that
  the code can reach and in which it does not keep its promise.

## What is assumed of a run

- Memory is sequentially consistent.
- The headers that agents look at are what the records say. `RawRuns.FreshRunAgreesIff` says
  exactly when: at every step the machine and the step system agree if and only if the
  step is clean, that is, no header is written over a set flag byte and no flag is set
  where a reader polls and no block has its header (`RawMachine.Clean`). The code ensures
  neither. It holds for messages of one size, whatever the agents do
  (`SizeGrids.OneSizeIsClean`), and for careful agents whenever all totals are multiples of
  one length of at least 18 bytes (`SizeGrids.AlignedBroadcast`).
- A join finds fewer than 255 readers counted; a claim finds at least one, and ends below
  offset 2^56. The class comment asks for a reader (ipc_queue.h:36). These clauses are part
  of the invariant, so that it needs them is no news; what happens without them is the
  subject of `Overruns`.
- A poll that acts on a header finds it to be its own block's, with the flag it loaded.
  `poll_buffer` makes only part of this test, and `RingTheorems.DecisionRightIff` shows
  that a poll decides rightly exactly when the whole test holds. It holds by itself
  whenever the flag was loaded with the cursor less than one lap ahead of the watermark
  (`FreshLoadIsEnough`), which a reader can test before it polls, and no weaker test will
  do: after any other load of a set flag the remaining agents can make the decision wrong
  (`LatePolls.FreshLoadIsExact`). Agents that make this test, and those on the packed
  fields, meet every assumption (`CautiousFromStart`). For one reader nothing has to be
  asked of polls (`LoneReaderBroadcast`).
- A reader has at most one outstanding wrapper. Readers join but do not leave; closing is
  proved for a reader at rest.
- The ring holds at least one header (18 bytes).

`RingTheorems.AssumptionsAreExact` shows that the clauses about joins, claims and polls
are the ones that the invariant needs: a step keeps it if and only if it meets its clause.

## What the proofs found

- **A poll can return an uncommitted message** (`StalePoll.PollReturnsUncommitted`). On a
  full ring a reader that is a lap ahead loads the READY flag of the block it has already
  passed; before it loads the offset, that block is retired and its place claimed again.
  The offset then matches and the flag is not looked at again.
- **ABORTED is not checked against the cursor** (`StalePoll.PollRepeatsAborted`). On a full
  ring with two readers, the one that has caught up gives an aborted block back a second
  time, moves its cursor past the write offset, and fails the assertion at line 288
  (`StalePoll.RepeatFailsAssertion`).
- **With mixed message sizes a byte of an old offset is taken for a commit flag**, with one
  producer and one reader, because release leaves the offset of a cleared header behind and
  a claim does not write the flag. A poll returns a message that is not committed
  (`StaleFlag.PollReturnsUnfinished`); an idle poll finds an aborted message where there is
  none and takes cursor and watermark past the write offset, so that the next message is
  lost (`StaleFlag.IdlePollPassesWriter`); the drain of a reader with nothing left goes on
  (`StaleFlag.DrainReleasesNothing`). Rounding every total up to a multiple of one length
  that holds a header prevents all three.
- **Some admitted sizes never succeed** (`RingGeometry.ClaimSucceedsIff`): the guard admits
  sizes up to the ring less one header, but those above the ring less two headers find
  room for nothing but padding at every offset, and the retry never ends.
- **A producer can block itself for good** (`RingProgress.OvercommittedForever`): it waits
  for a block that ends more than a ring's length after the start of a message of its own
  that it has not finished, as a batch of two small messages can
  (`StuckBatch.BatchBlocksItself`). A test on the loaded word before the swap decides it,
  both ways (`SwapOvercommitsIff`), it is the only way to get stuck (`NeverStuck`),
  batches that keep to the bound drain (`EveryRunDrains`), and producers that finish each
  message before the next drain without any test (`FinishersDrain`).
- **A claim before any reader has joined stops the ring** (`Overruns.OrphanStopsRing`), and
  **a 256th reader loses messages for the other 255** (`Overruns.JoinWrapLosesMessage`).
- **The drain stops at an aborted block** (`IpcQueue.DecrementReadersUntil`), so the close
  of the last reader leaves that block and all after it unreleased.
- **A handler's ABORT does not keep its message** (`Subscription.ArchiveSubscription.Poll`).
  The comment at ArchiveSubscription.h:48 promises that it is read again at the next poll;
  the switch has no break, so the message is marked and then released all the same. The
  mark alone would keep it (`KeptMessages.MarkedIsPolledAgain`).
- **Rings of 1 to 16 bytes are accepted** though they cannot hold a header; the size guard
  then wraps around (`PackedWord.TinyRing`).
- The class comment says that messages go "to one consumer"; the code delivers them to
  every reader, and so does the model.

## Model

| member | source | states |
|---|---|---|
| RingBroadcast.OrderedBroadcast | message_transport/ipc_queue.cpp:167-289 | After any run from a fresh file whose steps meet the assumptions, headers being records, the ring is a state of the broadcast feed reached by the corresponding feed steps, and every reader's inbox is exactly the messages claimed from its join up to its point, in claim order, none before that point uncommitted. |
| RingBroadcast.LoneReaderBroadcast | message_transport/ipc_queue.cpp:209-255 | The same for one reader and any producers, aborts included, with nothing assumed of polls. |
| RingBroadcast.RefineStep | message_transport/ipc_queue.cpp:167-301 | Each atomic step is the feed step it stands for: a claim publishes, a commit or abort resolves, a reader consumes as it starts to give a block back, everything else changes nothing. |
| RingBroadcast.ReadersAgree | message_transport/ipc_queue.cpp:47-51 | A late joiner's messages and what an earlier reader got since then are prefixes of one another. |
| Broadcast.FaithfulRun | message_transport/public/messaging/ipc_queue.h:27-37 | In the reference feed, every run leaves each subscriber with exactly the resolved messages since it subscribed and never takes one back. |
| Broadcast.SubscribersAgree | message_transport/public/messaging/ipc_queue.h:27-37 | Any two subscribers of the feed agree from the point where the later one joined. |
| RingSafety.StepInv | message_transport/ipc_queue.cpp:167-301 | Every step of every agent that meets its assumption keeps the whole invariant. |
| RingSafety.StepInvIff | message_transport/ipc_queue.cpp:214-253 | The invariant survives a step exactly when the step meets its assumption. For joins and claims the clause is a conjunct of the invariant; for polls it is a statement about headers and flags. |
| RingTheorems.AssumptionsAreExact | message_transport/ipc_queue.cpp:214-253 | The same from every reachable state. |
| RingSafety.BadDecision | message_transport/ipc_queue.cpp:221-249 | A poll that acts on a header that is not its own block's, or whose flag has changed, destroys the invariant. |
| Overruns.OrphanStopsRing | message_transport/public/messaging/ipc_queue.h:36-37 | A claim won while no reader is counted is counted for nobody, and in every further run, as long as the code's assertion at 288 holds, nothing is retired, the watermark stays at zero, nothing past the first lap is granted, and the first reader at the end of a release fails the assertion. |
| Overruns.JoinWrapLosesMessage | message_transport/ipc_queue.cpp:55-66 | After 256 joins a message is committed that counts no reader: the first reader to give it back clears it, and the other 255, which owe it too, can never poll it. |
| Overruns.OffsetStartsOver | message_transport/public/messaging/ipc_queue.h:65 | A claim that reaches 2^56 leaves a write offset below the ring size. |
| Overruns.StrandedClaimWaits | message_transport/public/messaging/ipc_queue.h:159-174 | A claim that ends below the watermark is never granted, in any run. |
| RingSafety.FreshLoadIsEnough | message_transport/ipc_queue.cpp:214-230 | A decision after a flag load made less than a lap ahead of the watermark is always sound, however late it comes. |
| RingSafety.AloneIsFresh | message_transport/ipc_queue.cpp:214-230 | A lone reader's cursor is the watermark whenever it polls, so all its loads are fresh. |
| RingSafety.CautiousFromStart | message_transport/ipc_queue.cpp:209-255 | Runs from a fresh file in which agents test only the packed fields and the lap distance before they act meet every assumption, on every interleaving. |
| RingSafety.Reachable | message_transport/ipc_queue.cpp:68-301 | Every state reached from a fresh file satisfies the invariant. |
| ReaderSteps.FreshIffOwn | message_transport/ipc_queue.cpp:214-228 | A set flag at the cursor belongs to the block due next exactly when the cursor is less than a lap ahead of the watermark. |
| ReaderSteps.LastIsOldest | message_transport/ipc_queue.cpp:268-274 | The reader that does a block's last fetch_sub does it on the oldest block not retired. |
| RingTheorems.ClaimsTile | message_transport/public/messaging/ipc_queue.h:147-157 | An offset lies below the write offset exactly when it lies in a claimed block, and then in one only, despite failed and retried swaps. |
| RingTheorems.LapGeometry | message_transport/ipc_queue.cpp:189-190 | There is always room for one more header before the ring end; no block crosses the end; a skip ends exactly on a lap boundary. |
| RingTheorems.LengthMatchesDecision | message_transport/ipc_queue.cpp:184-202 | The bytes reserved by the swap are the bytes described by the header written after the wait, for messages and skips; the header starts NOT_READY. |
| RingTheorems.NoLapping | message_transport/public/messaging/ipc_queue.h:159-174 | In every reachable state all blocks past the wait and not retired are pairwise disjoint in the ring. |
| RingTheorems.CounterIsExact | message_transport/ipc_queue.cpp:199-202 | The counter of every written block that is not cleared is the number of readers that joined before its claim and still owe it a fetch_sub. |
| RingTheorems.LastReleaseIsUnique | message_transport/ipc_queue.cpp:265-274 | A fetch_sub never underflows, takes its reader and no other off the list, and reads one exactly when its reader is the only one left. |
| RingTheorems.ClaimIsOwedIff | message_transport/public/messaging/ipc_queue.h:36-37 | A new claim is owed by every reader there is, and by anybody at all exactly when a reader is counted. |
| RingTheorems.WatermarkIsMinimum | message_transport/ipc_queue.cpp:286-288 | The watermark never passes a cursor and, while no release is in progress, is the smallest cursor. |
| RingTheorems.RetireInOrder | message_transport/ipc_queue.cpp:276-288 | Each step leaves the watermark or moves it over exactly the oldest block, which is final and owed by nobody. |
| RingTheorems.ClearedBlock | message_transport/ipc_queue.cpp:276-284 | In every reachable state the last reader's clearing of the oldest block leaves of its header only the old offset, type NORMAL, flag NOT_READY and a count of zero, and of its payload zeros; no other header or byte of the ring changes. |
| RingTheorems.CodeAssertions | message_transport/ipc_queue.cpp:228-289 | In every reachable state the assertions at lines 231, 262, 263, 288 and 318 hold at the next step, whether or not a poll's decision meets its assumption: whatever header it looks at describes bytes that fit the ring. |
| RingTheorems.HeadOfLine | message_transport/ipc_queue.cpp:217-253 | No cursor passes the earliest unfinished claim made after the reader joined, however many later claims are committed. |
| RingTheorems.HeldMessage | message_transport/ipc_queue.cpp:214-243 | A returned wrapper is the block due next: committed, a message, at the cursor's absolute offset, showing the committed bytes and length. |
| RingTheorems.PollSeesOwnIff | message_transport/ipc_queue.cpp:217-228 | In every reachable state, a set flag is the own block's exactly when the cursor is less than a lap ahead of the watermark. |
| RingTheorems.DecisionRightIff | message_transport/ipc_queue.cpp:221-249 | In every reachable state a poll, once it has loaded a set flag, hands out only the committed message due next and gives back only a skip or an aborted block due next, exactly when the header is still its own with the flag that was loaded (or shows a committed skip). |
| RingTheorems.PromptPollIff | message_transport/ipc_queue.cpp:214-249 | In every reachable state, the test before the call: a poll that decides right after it has loaded a set flag is sound exactly when the cursor is less than a lap ahead of the watermark or the flag is READY. |
| LatePolls.FreshLoadIsExact | message_transport/ipc_queue.cpp:217-249 | In every reachable state whose loads in flight are fresh, with offsets left for one claim, the load of a set flag is sound against every run of the other agents before the decision exactly when the cursor is less than a lap ahead of the watermark. Otherwise the others, wrappers being finished by any thread, can retire the lap, claim its place and write an uncommitted header that passes the offset check. |
| RingTheorems.WriteReachesReader | message_transport/public/messaging/ipc_queue_element_wrapper.h:87-92 | The bytes written to a message and committed, whatever all agents do in between short of touching that message, are what any reader's wrapper on it shows after any further run. |
| RingTheorems.SkipsNeverOutnumber | message_transport/ipc_queue.cpp:188-192 | When all claims fit beside two headers, the first block is a message, no two skips are adjacent and skips never outnumber messages, on every interleaving. |
| RingGeometry.ClaimShape | message_transport/public/messaging/ipc_queue.h:154-156 | A claim stays in its lap, keeps room for one more header, and takes exactly the bytes that the later test decides about. |
| RingGeometry.WindowDisjoint | message_transport/public/messaging/ipc_queue.h:161-166 | Blocks within one window of a ring's length do not overlap in the ring. |
| RingGeometry.ClaimSucceedsIff | message_transport/ipc_queue.cpp:171-192 | An uncontested claim becomes a message after at most one skip exactly for sizes up to the ring less two headers; for the larger sizes that the guard admits, every try at every offset is a skip. |
| RingProgress.UsefulStepExists | message_transport/public/messaging/ipc_queue.h:159-174 | While work remains and no producer is overcommitted, a step that advances it is enabled, or a swap or decision is about to leave its assumption. |
| RingProgress.NeverStuck | message_transport/public/messaging/ipc_queue.h:159-174 | The same in every reachable state, with overcommitted producers as the third possibility. Nothing else is assumed. |
| RingProgress.OvercommittedForever | message_transport/public/messaging/ipc_queue.h:159-174 | A producer that waits for a block ending more than a ring after the start of a message of its own is never granted it, in any further run, however far that message is from being the oldest. |
| RingProgress.SwapOvercommitsIff | message_transport/public/messaging/ipc_queue.h:151-157 | A swap overcommits its producer exactly when it ends more than a ring after the start of some message that the producer has not finished. |
| RingProgress.OutOfBoundNeverGranted | message_transport/public/messaging/ipc_queue.h:159-174 | A claim won by such a swap is never granted in any run. |
| RingProgress.OneAtATimeInBound | message_archive/ArchivePublication.cpp:20-37 | Producers that finish each message before the next claim make no such swap. |
| StuckBatch.BatchBlocksItself | message_archive/ArchivePublication.cpp:20-37 | A reachable state in which a producer with one ten-byte message uncommitted has overcommitted itself with the next, though both fit the size limits of its ring of 64 bytes. |
| RingProgress.OneAtATimeStep | message_archive/ArchivePublication.cpp:20-37 | Producers that finish each message before the next claim keep that discipline under every step of every agent. |
| RingProgress.UsefulLowersRank | message_transport/ipc_queue.cpp:167-289 | With claims that fit beside two headers and fresh polls, every useful step lowers a natural-number rank, retried claims included. |
| RingProgress.EveryRunDrains | message_transport/ipc_queue.cpp:167-289 | From every reachable state with a reader counted, claims in hand that fit beside two headers, nobody overcommitted, loads in flight fresh and offsets to spare (`Prepared`): a schedule may mix useful steps whose swaps keep to the bound, batches included, with new messages, payload writes, joins, idle polls, spurious swap failures and `mark_as_read`. Its useful steps are bounded by the rank and a fixed amount for each new message, join, spurious failure and message put back. It can go on until every reader has every message since its join and cursors, watermark and write offset agree, or until only a swap out of bound is left. |
| RingProgress.FirstReaderPrepares | message_transport/ipc_queue.cpp:24-66 | A fresh file is in such a state, for every workload that the offsets have room for, as soon as the first reader has joined. |
| RingProgress.FinishersDrain | message_archive/ArchivePublication.cpp:20-37 | The same for producers that finish each message before they take up the next, with nothing asked of swaps and no such way to end. |
| StalePoll.PollReturnsUncommitted | message_transport/ipc_queue.cpp:217-243 | A reachable state in which a poll returns a wrapper on a message that is not committed. |
| StalePoll.PollRepeatsAborted | message_transport/ipc_queue.cpp:245-249 | A reachable state in which a poll gives an aborted block back twice and passes the write offset. |
| StalePoll.RepeatFailsAssertion | message_transport/ipc_queue.cpp:286-288 | From there the reader comes to the end of the release with the assertion at 288 false. |
| Bits.PowerOfTwoIff | message_transport/public/messaging/ipc_queue.h:68 | The bit test accepts exactly the powers of two. |
| PackedWord.PackRoundTrip | message_transport/public/messaging/ipc_queue.h:56-65 | The count lies in bits 0 to 7 and the offset in bits 8 to 63. Unwrapping inverts packing for all counts below 2^8 and offsets below 2^56, and packing inverts unwrapping for all words. |
| PackedWord.UpdateIsPair | message_transport/public/messaging/ipc_queue.h:63-65 | Each update changes its own field modulo its width and leaves the other alone. |
| PackedWord.WordRefinesPair | message_transport/public/messaging/ipc_queue.h:56-66 | Any sequence of joins, leaves and claims has the same effect on the word as on a pair of counters, wrap-around included. |
| PackedWord.TruncatedOffsetSameSlot | message_transport/ipc_queue.cpp:184-186 | For every power of two up to 2^56 the offset cut to 56 bits gives the ring position of the full offset. |
| PackedWord.GuardMeansFitsIff | message_transport/ipc_queue.cpp:171 | The unsigned size guard means "does not fit" exactly when the ring holds a header. |
| PackedWord.AdmittedDoesNotWrap | message_transport/ipc_queue.cpp:181-189 | In such a ring no sum made of an admitted size wraps around. |
| PackedWord.TinyRing | message_transport/ipc_queue.cpp:171-192 | In a smaller ring no header fits anywhere, the guard refuses only sizes near 2^64, and a claim is no skip exactly for the sizes whose sums wrap around to at most what is left of the lap. |
| PackedWord.UnpackedReadersAndWriterOffset.ReturnAddReader | message_transport/public/messaging/ipc_queue.h:63 | Increments the count field and returns the word of the join. |
| PackedWord.UnpackedReadersAndWriterOffset.ReturnSubReader | message_transport/public/messaging/ipc_queue.h:64 | Decrements the count field modulo 2^64 and returns the word of the leave. |
| PackedWord.UnpackedReadersAndWriterOffset.ReturnAddOffset | message_transport/public/messaging/ipc_queue.h:65 | Moves the offset field, not cut to 56 bits, and returns the word of the claim. |
| HeaderBytes.HeaderRoundTrip | message_transport/public/messaging/ipc_queue_headers.h:55-61 | Decoding the packed 18-byte header inverts encoding for all fields within their widths. |
| HeaderBytes.TypeAndFlagCodes | message_transport/public/messaging/ipc_queue_headers.h:43-61 | In memory a header is padding exactly when its type field reads 1, READY when its flag byte reads 1, ABORTED when it reads 2. |
| RawRing.LiveIff | message_transport/ipc_queue.cpp:195-202 | For messages of any sizes: a step keeps the raw header of every written block equal to its record exactly when it does not write a header over a set flag byte. |
| RawRing.RingStepInv | message_transport/ipc_queue.cpp:167-301 | The whole invariant holds with the bytes of the ring, headers included, for the payload bytes. |
| RawMachine.AgreesIff | message_transport/ipc_queue.cpp:195-255 | A step that decodes its headers from the ring does what the step system does, and leaves records and bytes in agreement, exactly when it is clean: no set byte under a new flag, and at a polled position without a written header no set flag and, for a late decision, not the own offset. |
| RawRuns.FreshRunAgreesIff | message_transport/ipc_queue.cpp:68-301 | Over every run from a fresh file bytes and records agree at every step exactly when every step is clean. |
| RawRuns.AgreeingRunsCoincide | message_transport/ipc_queue.cpp:167-301 | While they agree, the machine that has only bytes takes the same steps to the same state. |
| RawRuns.RawOrderedBroadcast | message_transport/ipc_queue.cpp:167-301 | Every run of that machine from a fresh file in which each step is clean and meets its assumption by what the bytes show leaves an ordered broadcast log, with the bytes that lay in the ring. |
| SizeGrids.BlocksOnGrid | message_transport/public/messaging/ipc_queue.h:151-157 | If all totals are multiples of g, every block of every lap starts at a multiple of g within the lap. |
| SizeGrids.OneSizeIsClean | message_transport/ipc_queue.cpp:195-202 | With one message size every step is clean, at any reader's cursor. |
| SizeGrids.RawBytesRefineRecords | message_transport/ipc_queue.cpp:276-284 | With one message size, after any run of the machine that has only bytes, the raw header at every header position is the record of what was last written there, live or cleared, and readers have been shown the broadcast log. |
| SizeGrids.AlignedIsClean | message_transport/ipc_queue.cpp:195-202 | If all totals are multiples of one length that holds a header, every step of a cautious agent is clean. |
| SizeGrids.AlignedBroadcast | message_transport/ipc_queue.cpp:167-301 | For such totals and careful agents, or a single reader, the machine that has only bytes is an ordered broadcast log; no test involves a header or a flag byte. |
| StaleFlag.PollReturnsUnfinished | message_transport/ipc_queue.cpp:195-243 | A run of that machine with mixed sizes, one producer and one reader, in which a poll returns a wrapper on a message that is not committed. |
| StaleFlag.IdlePollPassesWriter | message_transport/ipc_queue.cpp:245-249 | A run with mixed sizes and no abort in which an idle reader's poll gives back a block that does not exist and takes cursor and watermark past the write offset. |
| StaleFlag.DrainReleasesNothing | message_transport/ipc_queue.cpp:150-160 | A run with mixed sizes after which nothing is left to drain and the drain's loop still finds a READY flag. |
| SharedMemory.CreateRing | message_transport/ipc_queue.cpp:24-44 | Refuses exactly the sizes above 1 GiB and those that are not powers of two; otherwise the new ring has exactly the requested size, with every byte, the packed word and the watermark zero, and is in the initial state if it holds a header. |
| SharedMemory.SharedRing.AddReader | message_transport/ipc_queue.cpp:55-66 | The swap loop of a join, with any number of spurious failures, raises the packed count by one, keeps the offset, is one join step and returns the offset as the new reader's cursor. |
| SharedMemory.SharedRing.RemoveReader | message_transport/ipc_queue.cpp:55-66 | The swap loop of a leave lowers the packed count by one and keeps the offset. |
| QueueFacts.ReleaseEffect | message_transport/ipc_queue.cpp:257-289 | The steps of one release give back one block of that reader and change no other agent or block. |
| IpcQueues.IpcQueue.Reader | message_transport/ipc_queue.cpp:47-51 | A reader attaches by one join and starts at the write offset it saw. |
| IpcQueues.IpcQueue.ReleaseBuffer | message_transport/ipc_queue.cpp:257-289 | Is exactly the steps of one release, clearing and watermark bump only if it was the last. |
| IpcQueues.IpcQueue.Release | message_transport/public/messaging/ipc_queue_element_wrapper.h:67-70 | Gives back the wrapper's block and adds the bytes it showed to what the reader received. |
| IpcQueues.IpcQueue.PollBuffer | message_transport/ipc_queue.cpp:209-255 | Terminates; passes over exactly the skips and aborted blocks before the next message, gives each back once, returns a wrapper on that message if and only if it is committed, and counts nothing as received. |
| IpcQueues.IpcQueue.DecrementReadersUntil | message_transport/ipc_queue.cpp:150-160 | Terminates; the reader gives back, once each, exactly the committed blocks before the first that is not, and if it is the only one the watermark follows its cursor. |
| IpcQueues.IpcQueue.Close | message_transport/ipc_queue.cpp:117-131 | The packed count goes down by one and the reader drains; if it was the only one and every claim was committed, cursor, watermark and write offset agree and no header is left set. |
| IpcQueues.IpcQueue.SwapOffset | message_transport/public/messaging/ipc_queue.h:147-157 | The claim's swap loop returns the old fields and moves the packed offset by the bump, whatever swaps fail. |
| IpcQueues.IpcQueue.AwaitRoom | message_transport/public/messaging/ipc_queue.h:159-174 | The wait ends with permission exactly when the block ends within one ring of the watermark, in unsigned arithmetic. |
| IpcQueues.IpcQueue.InsertSkipMessage | message_transport/ipc_queue.cpp:314-330 | Writes and commits padding up to the ring end; the size does not underflow. |
| IpcQueues.IpcQueue.ClaimBuffer | message_transport/ipc_queue.cpp:167-207 | Refused and rejected exactly as the guards say; otherwise the claim is won, padding before it is committed, and the wrapper is on the new block, or the block waits because the ring is full. At most one skip with room for two headers; never a wrapper without. |
| IpcQueues.IpcQueue.CommitBuffer | message_transport/ipc_queue.cpp:291-293 | Sets the flag of that header to READY and finishes that message; no other header, block, byte or agent changes. |
| IpcQueues.IpcQueue.AbortBuffer | message_transport/ipc_queue.cpp:295-301 | Sets the flag of that header to ABORTED and zeroes exactly the payload of that message; no other header, block, byte or agent changes. |
| IpcQueues.IpcQueue.WriteToBuffer | message_transport/public/messaging/ipc_queue_element_wrapper.h:129-134 | Writes the data to the front of the payload, leaves every other byte of the ring and the rest of the message as it was, and commits that message and no other. |
| IpcQueues.IpcQueue.CopyContentsInto | message_transport/public/messaging/ipc_queue_element_wrapper.h:80-84 | The caller's buffer receives exactly the committed bytes of the message due next and keeps what it held beyond them. |
| IpcQueues.IpcQueue.GetAsView | message_transport/public/messaging/ipc_queue_element_wrapper.h:87-92 | Shows exactly the committed bytes of the message due next. |
| IpcQueues.IpcQueue.MarkAsRead | message_transport/public/messaging/ipc_queue_element_wrapper.h:62-65 | Lets go of the wrapper and of nothing else: the file, the cursor and what was received are unchanged. |
| KeptMessages.MarkAsReadKeeps | message_transport/public/messaging/ipc_queue_element_wrapper.h:62-65 | After `mark_as_read` the reader rests where it was before the poll, can poll and cannot give the message back; nothing else in the state has changed. |
| KeptMessages.MarkedIsPolledAgain | message_transport/public/messaging/ipc_queue_element_wrapper.h:62-65 | In every reachable state the next poll of that reader, whatever the others do before it and between its two loads, is sound and hands out the same wrapper on the same bytes. |
| Subscription.ArchiveSubscription.Poll | message_archive/public/archive/ArchiveSubscription.h:35-57 | Shows the handler the next committed message, if it is the block due after skips and aborted messages, and gives it back as received exactly once, whatever the handler answers, ABORT included. |
| Archive.ArchivePublication.ClaimBuffer | message_archive/ArchivePublication.cpp:33-37 | Claims exactly the requested size: refused if it does not fit beside a header, rejected if zero, otherwise waiting because the ring is full or won with a wrapper of that size and its header. A won claim joins the batch at its end and is the one message added to what this producer has not finished; nothing else is. |
| Archive.ArchivePublication.Commit | message_archive/ArchivePublication.cpp:20-26 | Makes exactly the unfinished messages of this producer READY, one commit step each, in ascending log order, which is the order of the batch; changes nothing else, leaves none unfinished and returns their number. |
| Archive.ArchivePublication.IsReady | message_archive/ArchivePublication.cpp:12-14 | True exactly when a reader is counted. |
| Archive.ArchivePublication.UncommittedMessageCount | message_archive/ArchivePublication.cpp:16-18 | The number of messages of this producer in the log that are claimed and neither committed nor aborted. |

## Left out

- SharedMemory.CreateRing: the ring that it builds from an accepted size of 1 to 16 bytes is stated to be zeroed and no more, because it cannot hold one header; TinyRing says what claims in it do.
- SharedMemory.SharedRing.RemoveReader: the step system's history keeps the departed reader; only the packed word and the offset it returns are stated.
- SharedMemory.SharedRing.AddReader: the step system's history counts readers that have left, so a file takes 255 joins in all, where the code limits only the readers present at one time.
- IpcQueues.IpcQueue.Reader: the same limit of 255 joins in all.
- RingBroadcast.OrderedBroadcast: asks that polls meet their assumption and that headers are what their records say; the code makes neither test, `StalePoll` and `StaleFlag` show what happens without.
- RingBroadcast.LoneReaderBroadcast: asks that headers are what their records say, which mixed sizes break (`StaleFlag`).
- RawRuns.RawOrderedBroadcast: asks that steps are clean and polls meet their assumption, for the same reasons.
- RingSafety.StepInvIff: for joins and claims the converse holds because the invariant contains the clause; `Overruns` says what happens then.
- RingTheorems.AssumptionsAreExact: the same for joins and claims.
- RingProgress.EveryRunDrains: fairness is stated for finite schedules; they contain no poll that loads a set flag a lap ahead, no swap or decision outside its assumption and no message finished while its producer is inside `claim_buffer`.
- SizeGrids.AlignedBroadcast: for totals with a common divisor but of different sizes, agents must be careful, because a reader that joins more than a lap ahead of the watermark polls inside other messages' payloads.
- IpcQueues.IpcQueue.PollBuffer: with several readers it asks that no aborted block is still in the ring or that the poll ends less than a lap ahead of the watermark, because of the missing offset check.
- IpcQueues.IpcQueue.DecrementReadersUntil: with several readers it asks that the drain ends less than a lap ahead of the watermark, because the drain looks at no offset; the history records the drained messages as received, though the code gives them back unseen.
- IpcQueues.IpcQueue.Close: the same condition; claims made after a reader has left are not part of the model.
- IpcQueues.IpcQueue.AwaitRoom: nobody else acts during the wait, so the checks that it allows all read one watermark; waiting while others move is Grant in the step system.
- IpcQueues.IpcQueue.ClaimBuffer: gives up after the checks that it allows, where the code waits on; a claim left waiting is finished only in the step system.
- Archive.ArchivePublication.ClaimBuffer: may end waiting, as the queue's own claim, where the code blocks.
- Subscription.ArchiveSubscription.Poll: asks the same of aborted blocks as `PollBuffer`.
- The methods of the classes are proved without another agent running in between and over header records; interleavings are the subject of the step system and bytes that of the raw machine.
- `shm_open`, `mmap`, `ftruncate`, `shm_unlink`, file lifetime, `num_writers`, the magic number and `validate_settings`: operating system calls; a run starts from the initialised file.
- C++ memory orders weaker than sequential consistency, spin policies and logging; spurious failures and spins are parameters of the methods.
- `message_count`, `read_message_cnt` and `last_cleared_abs_offset`: written and never used.
- IpcQueues.IpcQueue.InsertSkipMessage: the memset of the payload (ipc_queue.cpp:326-327) strides by whole headers and misses the bytes it is meant for, some of them past the ring end; it is not modelled.
- Header fields are written in one step and the fields after the flag are loaded in one step; no other agent may touch them in between except through the steps that are modelled.
- Readers that leave while claims are open: the drain then does not keep the accounting.
- The inbox of the model counts a message when its wrapper is released.
- `read_buffer`: repeated polls. Moves of the wrappers and their destructors.
- `ArchivePublication::close` (a commit, then the close of a producer, which only lowers `num_writers`), `ArchiveSubscription::close` and `is_ready`; the spans and typed views that the other wrapper accessors return.
- `ledger/`, `alpha/`, `polling/`, the media driver and the message schema: thin wrappers, I/O, or unfinished code.
