# tox4j, verified

A Dafny model of the parts of tox4j whose correctness depends on more than one
function: the instance manager with its two levels of locks, the file transfer
protocol over old toxcore, the DHT packets with their node table and key distance,
and the call and event bookkeeping. `dafny verify dfyconfig.toml` checks all of it.
Automatic induction is off in every lemma, so that each proof stands on its own body.

## What is modelled

**Instances and locks** (`ToxInstances.h`, `with_instance.h`, `toxAvNew`).
`InstanceTable` is the table of slots and the LIFO free list as a value;
`InstanceManager` is the same in the form of the source, classes updated in place,
each method proved to do what the table function says. `Handles` follows Java objects
over a manager for whole runs. `Locking` is the protocol: any number of threads, two
managers (core and av), a heap of tox objects, event buffers and mutexes that are created and
freed, one step per lock, unlock, read or destruction. A failed assertion, or a use of
freed or null memory, leads to the state `Aborted`, which `LockingTheorems` proves
unreachable, along with exclusion, absence of leaks and deadlocks, and termination.
`Linearization` shows that each operation takes effect at once; `Objects` has threads
that race for Java objects, each obeying the rules of Java alone; `AvParents` is about
the core instance that an av instance points to.
Pointers are named by the number of the instance they were created for.

**File transfers** (`core_private.h`, `core.cpp`). `Transfers` says what each call and
callback does to the transfer map, `NewTox` is the same as a class. `TransferNet` joins
any number of peers, each with any number of transfers in both directions, by FIFO
lossless channels that stand for old toxcore; a client knows what an event is about from
the numbers in it alone; file numbers are reused as soon as old
toxcore frees them. `TransferLinks` has the invariant of one link (sender, receiver,
number), `TransferInvariant` carries it over every step of the net, and
`TransferTheorems`, `TransferProgress` and `TransferCompletion` draw the conclusions;
`TransferLate` and `TransferOwn` are about RESUMEs that no client should send.

**DHT** (OCaml and Haskell). `Distance` and `KeyDistance` are the two distances, as a
recursion on naturals and as byte loops. `PacketFormat` has the packet layouts and
parsers as values, `PacketCodec` the mutable cursor buffer and the packers and unpackers
over it, `NodeTable` the node table and the client that fills it. Boxed encryption is a
record of four functions with two laws: opening undoes sealing under the same key and
nonce, and the channel key of two key pairs is the same from either side.

**Calls and events** (`av.cpp`, `ToxCore/lifecycle.cpp`, `ToxCoreImpl.java`). `Calls` and the class in
`ToxAv` are the two call maps with the fall-through switch; `CallRuns` is about whole
runs. `Events` has the per-kind event lists, the iteration that hands them over and the
Java dispatch; `EventOrder` says which events are heard and in which order, and
`FileEvents` what that means for files.

## Assumptions about the environment

- Old toxcore's channels are FIFO and lossless, a control sent with `send_receive`
  arrives with `receive_send` of the same value, both FINISHED messages reach the
  callback, `tox_file_data_size` is a positive constant, and the number given out by
  `tox_new_file_sender` is one it has not in use; it is free again when the receiver's
  FINISHED arrives.
- A client answers each chunk request once, with at least one byte and at most as many
  as asked (`src/main/cpp/tox/core.h:1581-1594` asks for the upper bound, the code does
  not check it). A receiver may send RESUME for a file any number of times, since its own
  state stays PAUSED and the code does not refuse it, but not once the file has arrived
  completely; `TransferLate.LateResume` says what happens otherwise. A sender may send
  RESUME for its own file when it has been started, and gets a refusal, or when it is
  empty; `TransferOwn.OwnResume` says what happens otherwise.
- No PAUSE, KILL or RESUME_BROKEN control arrives; the callback asserts on them.
- `cause` in `file_transfer` is never assigned. It is a parameter of `FileControl`, and
  taken to be INITIAL in `TransferNet`.
- Java calls methods only on objects it has built and not yet finalized, and finalizes
  each object once, when no call through it waits and none can start any more. An object
  whose constructor threw is only finalized. Heap objects are made before the manager lock is taken.
- Toxav hands out call indices that are not in use and reports only on calls it has
  announced; a client calls a friend it has no call with, and sends audio only when
  asked. The default call settings are a parameter.
- Secret keys, nonces and buffer capacity are parameters, and so is the choice between
  the two key distances, which the source fixes to the Tox distance.

## Where code and documentation differ

The model follows the code.

- `doc/protocol.md` puts an `enc_type` byte before the ping id of echo packets. The code
  neither writes nor reads it.
- `doc/protocol.md` has 1 to 4 nodes in a response. The decoder takes 0 to 255.
- `core.h` says a zero-length chunk does no harm; the code asserts on it. It also says
  that a chunk longer than requested is refused; the code only refuses chunks longer than a packet.

## Properties that fail, and when they hold

- The two call maps are not inverse to each other in every run: a second invitation from
  a friend keeps the first call. They are inverse if and only if no friend who had a call
  invited again (`CallRuns.MapsInverse`, counterexample `CallRuns.SecondInviteIsLost`).
- An invitation does not say what the caller wants. It reports audio or video if and only
  if the friend was last called, or answered, with such settings
  (`CallRuns.InvitationSays`, `CallRuns.InvitationsReportMedia`), so not even a second
  invitation need report anything (`CallRuns.SecondInviteIsSilent`), while one from a
  friend called with video reports both (`CallRuns.InviteAfterCallReports`).
- Events are not heard in the order they were recorded: within one iteration the kinds
  are dispatched in a fixed order. `EventOrder.OrderOfEvents` says exactly when the order
  is kept. So the notice that a file has ended overtakes its last chunk if both fall into
  the same iteration (`EventOrder.EndOvertakesTheLastChunk`).
- A RESUME for a file that has arrived completely is not refused. Mere deliveries can then
  make the sender's assertion fail if and only if the sender has announced no newer file
  under the number (`TransferLate.LateResume`, run in `TransferLate.LateResumeAborts`).
  If it has, the RESUME is taken for the newer file, which can start although its receiver
  has not accepted it (run in `TransferLate.LateResumeMisleads`); then no assertion fails.
- A RESUME of the sender for its own file is not refused while the file is PAUSED. It
  starts the receiver's entry, and the receiver's client is asked for the file. An
  assertion can fail if and only if the file is not empty (`TransferOwn.OwnResume`, run
  in `TransferOwn.OwnResumeAborts`).
- A core instance can be freed before the av instances made on it, which then point to
  nothing. `AvParents.OrphansAreMade` says exactly when.
- Not every transfer can end: one can be brought to its end if and only if its file is not
  empty. An empty file's entry and number stay taken for ever
  (`TransferCompletion.FinishesUnlessEmpty`, `TransferCompletion.EmptyFileNeverEnds`).

## Model

| member | source | states |
|---|---|---|
| InstanceTable.AddRefines | src/main/cpp/tox4j/ToxInstances.h:256-275 | no assertion of `add` can fail; the number handed out reached nothing before and reaches exactly the new instance after; it is the last one freed, or a new one; all other slots keep their status |
| InstanceTable.KillRefines | src/main/cpp/tox4j/ToxInstances.h:277-305 | `kill` destroys an instance iff its number reached it, removes just that entry of the abstract map, and frees no number; it is silent iff the number is in range and reaches nothing, and each of its two exceptions is for just the numbers that never were one |
| InstanceTable.FinalizeRefines | src/main/cpp/tox4j/ToxInstances.h:307-344 | `finalize` removes just that entry, destroys a leaked instance iff it was live, and collects the number once; others keep their status; it returns silently for a dead instance and for number 0, and raises iff the number is free already or out of range |
| InstanceTable.CallRefines | src/main/cpp/tox4j/with_instance.h:7-23 | the checks of `with_instance` let a call through iff the number reaches a live instance, and to that one; a call fails as incomplete iff its number is 0, as invalid iff it is out of range, as killed iff it reaches nothing |
| InstanceTable.Partition | src/main/cpp/tox4j/ToxInstances.h:224-232 | each slot is exactly one of live, dead and collected; collected is membership in the free list, and what is not live has no pointers |
| InstanceManager.ToxInstance.constructor | src/main/cpp/tox4j/ToxInstances.h:142-153 | a new instance is live and valid |
| InstanceManager.ToxInstance.Move | src/main/cpp/tox4j/ToxInstances.h:156-169 | the new object takes all members over and the old one is DEAD and valid |
| InstanceManager.ToxInstance.Assign | src/main/cpp/tox4j/ToxInstances.h:173-192 | a dead object becomes the live one and the right-hand side DEAD |
| InstanceManager.Manager.Add | src/main/cpp/tox4j/ToxInstances.h:256-275 | the vectors and the argument change as `InstanceTable.Add` says, every assertion holds on the way, and the table stays valid |
| InstanceManager.Manager.Remove | src/main/cpp/tox4j/ToxInstances.h:240-243 | the slot's members move into a new object, the slot is DEAD, nothing else changes |
| InstanceManager.Manager.Kill | src/main/cpp/tox4j/ToxInstances.h:277-305 | outcome and new table are those of `InstanceTable.Kill`, with every assertion on the way |
| InstanceManager.Manager.Finalize | src/main/cpp/tox4j/ToxInstances.h:307-344 | outcome and new table are those of `InstanceTable.Finalize` followed by the destruction of a leaked instance |
| InstanceManager.Manager.Lookup | src/main/cpp/tox4j/with_instance.h:7-23 | finds an instance iff the number is in the abstract map, and then that one |
| Handles.NeverStuck | src/main/cpp/tox4j/ToxInstances.h:256-275 | in every run of Java objects no assertion of `add` stops the next constructor |
| Handles.HandleIsFaithful | src/main/cpp/tox4j/ToxInstances.h:256-344 | in every run no two unfinalized objects share a number; a call through an object reaches its own instance while it is open and fails as killed ever after, whatever happened in between |
| Handles.CloseAndCollect | src/main/cpp/tox4j/ToxInstances.h:277-344 | in every run the first close of an object destroys its own instance and later ones say nothing; collecting it destroys the instance iff nobody closed it; no exception for an object that has a number |
| Handles.NothingLeaks | src/main/java/im/tox/tox4j/ToxCoreImpl.java:86-119 | in every run a number reaches an instance iff it belongs to an open object |
| LockingInvariant.StepKeeps | src/main/cpp/tox4j/ToxInstances.h:118-128 | every step of every thread keeps the invariant: one owner for each heap object, mutexes and program points agree, both tables valid |
| LockingInvariant.Reachable | src/main/cpp/tox4j/with_instance.h:12-28 | so it holds after every interleaving of any number of threads |
| LockingTheorems.NoThreadAborts | src/main/cpp/tox4j/ToxInstances.h:118-140 | in every interleaving no assertion fails and no freed or null pointer is used |
| LockingTheorems.PointersAreLive | src/main/cpp/tox4j/ToxInstances.h:118-128 | in every interleaving each mutex that a thread holds or waits for exists, `with_lock` finds the three objects of one instance, and a dying instance is whole, with its mutex held by its thread and then by nobody |
| LockingTheorems.AssertionsHold | src/main/cpp/tox4j/ToxInstances.h:256-343 | and whenever a thread comes to the assertions of `add`, or to setting a number free, they hold |
| LockingTheorems.RunningIsExclusive | src/main/cpp/tox4j/with_instance.h:25-28 | a running function's tox and events exist as long as it runs, and no other function runs on them |
| LockingTheorems.ReturnedHoldsNothing | src/main/java/im/tox/tox4j/ToxCoreImpl.java:245-260 | a native call that has returned holds no lock, so listeners, called after `toxIteration` has returned, run without one |
| LockingTheorems.DestroysOnlyUnused | src/main/cpp/tox4j/ToxInstances.h:291-304 | an instance mutex is destroyed only while no thread holds it, waits for it or runs on its instance, together with its tox and events |
| LockingTheorems.NothingLeaks | src/main/cpp/tox4j/ToxInstances.h:333-343 | with all threads idle the heap is exactly what the live slots of the two managers own |
| LockingTheorems.NoDeadlock | src/main/cpp/ToxAv/lifecycle.cpp:106-127 | in every interleaving over both managers, `toxAvNew` inside core instances included, some busy thread can step |
| LockingTheorems.PendingWorkIsBounded | src/main/cpp/tox4j/with_instance.h:12-28 | however threads are scheduled, pending calls take boundedly many steps |
| LockingTheorems.EveryCallReturns | src/main/cpp/tox4j/with_instance.h:12-28 | and when no step is left every call has returned |
| Linearization.ManagersAreLinear | src/main/cpp/tox4j/ToxInstances.h:256-344 | in every interleaving a manager's table is, once the operation in progress is done, what the operations make of it one after the other in the order in which they had the manager mutex |
| Linearization.AwaitedIsRun | src/main/cpp/tox4j/with_instance.h:25-28 | a thread that goes on to lock an instance keeps the manager until it runs on that instance |
| Objects.CallsFindTheirObject | src/main/cpp/tox4j/with_instance.h:12-28 | with any number of threads that obey the rules of Java, a thread that calls through an object and has the manager goes on to the instance of that very object while it is open and fails as killed, and not as invalid, once it is closed, whatever other threads build, close and collect at the time |
| Objects.DestroysTheirObject | src/main/cpp/tox4j/ToxInstances.h:277-344 | likewise a thread that closes or collects an object goes on to destroy the instance of that very object unless it is closed, and never raises |
| Objects.NeverStuck | src/main/java/im/tox/tox4j/ToxCoreImpl.java:86-119 | and whatever these rules let a thread do next, it decides on a job it has and the table allows |
| AvParents.OrphansAreMade | src/main/cpp/ToxAv/lifecycle.cpp:103-128 | in a run an av instance ever exists without the core instance it was made on iff a kill or finalize frees that core instance first |
| AvParents.RunningHasItsCore | src/main/cpp/tox/av.cpp:263-269 | else each running function of an av instance has its core instance under it |
| Transfers.FileNumbersMirror | src/main/cpp/tox/core_private.h:105-119 | a control about a file reaches, on the other side, the entry of the same old number in the opposite direction |
| Transfers.FileControl | src/main/cpp/tox/core.cpp:794-871 | each refusal is for just one condition, of several the first in the source; no assertion fails |
| Transfers.ControlReaches | src/main/cpp/tox/core_private.h:265-324 | RESUME sends one control, which on the other side makes just the entry of the same file in the opposite direction RUNNING and reports that file; the control that PAUSE sends fails an assertion there |
| Transfers.SendChunk | src/main/cpp/tox/core.cpp:927-958 | each refusal of a chunk is for just one condition, of several the first in the source |
| NewTox.VisitAll | src/main/cpp/tox/core.cpp:302-323 | visiting keys marks the due transfers among them as asked for and changes no other entry |
| NewTox.VisitAsksOnce | src/main/cpp/tox/core.cpp:302-323 | each due transfer among the visited is asked for exactly once, at its position and for what is left or a full packet, and no other is |
| NewTox.VisitInOrder | src/main/cpp/tox/core.cpp:302-323 | requests go up by friend number first and then by file number |
| NewTox.Tox.Iteration | src/main/cpp/tox/core.cpp:300-324 | requests go out by friend number and then file number, one for each due transfer; afterwards every due entry is pending and all others are as before |
| NewTox.Tox.FileSend | src/main/cpp/tox/core.cpp:914-925 | adds a PAUSED entry at position 0 and announces it, unless there is an old entry, which fails the assertion; touches no other entry |
| NewTox.Tox.FileControl | src/main/cpp/tox/core.cpp:794-871 | RESUME goes out, as ACCEPT, iff the friend is connected and the entry there, PAUSED and not paused by the friend; PAUSE goes out as PAUSE and CANCEL sends nothing; each refusal as in the source; the own entry never changes |
| NewTox.Tox.FileSendChunk | src/main/cpp/tox/core.cpp:927-991 | a chunk is taken iff it has 1 to packet-size bytes, data, a connected friend and an entry; then the position moves by its length, the request is answered, the data goes out, FINISHED follows exactly at the end, and no other entry is touched; each refusal as in the source |
| NewTox.Tox.OnSendRequest | src/main/cpp/tox/core_private.h:248-263 | adds the receiving entry at position 0 and reports the file, iff there was none; touches no other entry |
| NewTox.Tox.OnControl | src/main/cpp/tox/core_private.h:265-324 | ACCEPT sets just the state and reports that very file as resumed; FINISHED raises a request for no bytes at the position and removes just the entry; PAUSE and a missing entry fail an assertion |
| NewTox.Tox.OnData | src/main/cpp/tox/core_private.h:326-346 | reports the chunk at the old position, advances it by the length, and sends FINISHED exactly at the end; touches no other entry |
| TransferLinks.SendKeeps | src/main/cpp/tox/core.cpp:907-925 | a file sent on a free number keeps the link invariant, even with the last FINISHED of the old file still on its way |
| TransferLinks.AnswerKeeps | src/main/cpp/tox/core.cpp:955-991 | an answer within the request keeps the link invariant and never passes the end of the file |
| TransferLinks.TakeKeeps | src/main/cpp/tox/core_private.h:326-346 | a data packet always finds its entry and keeps the link invariant |
| TransferLinks.EndKeeps | src/main/cpp/tox/core_private.h:290-300 | the sender's FINISHED finds the receiver's entry, with the whole file received |
| TransferLinks.CloseKeeps | src/main/cpp/tox/core_private.h:290-300 | the receiver's FINISHED finds the sender's entry, with the whole file delivered |
| TransferInvariant.StepKeeps | src/main/cpp/tox/core_private.h:396-415 | every step of any peer keeps the invariant of all links of the net |
| TransferTheorems.NoAssertionFails | src/main/cpp/tox/core_private.h:396-415 | over runs with any number of peers and of transfers both ways, with numbers reused, `add_transfer` finds no old entry and `file_control` and `file_data` always find theirs; RESUMEs of both sides are part of the runs, but for the late ones and a sender's own ones of which `LateResume` and `OwnResume` say that they can abort |
| TransferTheorems.NothingBeforeResume | src/main/cpp/tox/core_private.h:309-320 | not a byte of a file is asked for or sent before its receiver's client has accepted that very file, and no file is accepted before it is announced |
| TransferTheorems.StartsAreReported | src/main/cpp/tox/core_private.h:309-323 | over every run the sender's client is told that a file is resumed just when its transfer runs, so before it is asked for any of it, and only of files that their receiver's client has accepted |
| TransferLate.LateResume | src/main/cpp/tox/core.cpp:837-862 | after any well-behaved run, a RESUME for a file that has arrived completely makes an assertion fail in some further run of behaving clients iff the sender has announced no newer file under that number, and then mere deliveries do; if it has, deliveries can start the newer file although its receiver has not accepted it |
| TransferLate.LateResumeAborts | src/main/cpp/tox/core_private.h:272-274 | a run of seven steps, a late RESUME and two deliveries that fail the assertion |
| TransferLate.LateResumeMisleads | src/main/cpp/tox/core_private.h:314-316 | a run after which a late RESUME starts the next file unaccepted |
| TransferOwn.OwnResume | src/main/cpp/tox/core.cpp:837-862 | after any well-behaved run, a RESUME of the sender for its own file makes an assertion fail in some further run of behaving clients iff its entry is there, still PAUSED, and the file is not empty |
| TransferOwn.OwnResumeAborts | src/main/cpp/tox/core_private.h:326-334 | a run of such a RESUME, three deliveries, a request to the receiver's client and its answer, which fails the sender's assertion |
| TransferTheorems.DeliveryIsExact | src/main/cpp/tox/core_private.h:326-346 | what the receiver has, followed by the data in flight, is the first `position` bytes of the sender's file |
| TransferTheorems.FinishedMeansDelivered | src/main/cpp/tox/core_private.h:290-300 | when the sender's client gets its zero-length request the receiver's client has the whole file |
| TransferTheorems.ReceiverFinishesWhole | src/main/cpp/tox/core_private.h:290-300 | the receiver's client is told of the end only when it has the whole file, and of the right one |
| TransferTheorems.FilesArriveInOrder | src/main/cpp/tox/core.cpp:914-918 | the files finished under one number are the first ones sent under it, whole and in order, and lag behind by at most two |
| TransferTheorems.RequestsAreContiguous | src/main/cpp/tox/core.cpp:300-323 | requests are contiguous, at most one is open, exactly when `event_pending`, and each asks for 1 to min(packet size, rest) bytes |
| TransferTheorems.ChunkCount | src/main/cpp/tox/core.cpp:955-991 | at most as many chunks as bytes, and exactly the size over the packet size, rounded up, when all requests are answered in full |
| TransferTheorems.TransferNeverStuck | src/main/cpp/tox/core.cpp:290-324 | while a non-empty file is on a link something can still happen to it |
| TransferProgress.RunIsBounded | src/main/cpp/tox/core.cpp:290-324 | the steps on a link are paid for by what its clients started: six for each byte, three more for each file, one for each RESUME |
| TransferProgress.TransfersEnd | src/main/cpp/tox/core_private.h:290-300 | over whole runs the steps on a link are bounded by what its clients started, and when nothing is left to do there every file is finished for both clients, but for a last one that is empty |
| TransferCompletion.EveryFileCanArrive | src/main/cpp/tox/core.cpp:290-324 | from every reachable state a non-empty file on its way can be brought to its end by clients that behave, with its content in the receiver's hands and the sender told |
| TransferCompletion.AnyFileCanBeSent | src/main/cpp/tox/core.cpp:879-925 | any non-empty content can be sent and delivered, whatever the packet size |
| TransferCompletion.FinishesUnlessEmpty | src/main/cpp/tox/core.cpp:306-308 | from a reachable state a transfer can be brought to its end iff its file is not empty; the entry and the number of an empty one stay taken in every continuation and its sender never hears of an end |
| TransferCompletion.EmptyFileNeverEnds | src/main/cpp/tox/core.cpp:977-981 | so it is in every run that begins by sending an empty file |
| Distance.Dist1Folds | src/main/ocaml/publicKey.ml:61-72 | the signed-byte exclusive or with `abs` is the unsigned one folded at 128, so `Char.of_int_exn` does not raise |
| Distance.Dist1Metric | src/main/haskell/distance.hs:22-28 | on bytes it is zero exactly on equal ones, symmetric, and satisfies the triangle inequality |
| Distance.ToxDistStep | src/main/haskell/distance.hs:9-20 | the bitwise or never carries: the result is one digit of at most 128 per byte |
| Distance.ToxDistMetric | src/main/haskell/distance.hs:9-28 | `toxDist` is a metric on all naturals |
| Distance.KadDistMetric | src/main/haskell/distance.hs:5-6 | `kadDist` is a metric on all naturals |
| Distance.ToxDistBelowKadDist | src/main/haskell/distance.hs:5-28 | `toxDist a b <= kadDist a b` |
| KeyDistance.ToxBytesRefine | src/main/ocaml/publicKey.ml:60-72 | read big-endian, the bytes of the loop are the recursion on numbers |
| KeyDistance.ToxDistance | src/main/ocaml/publicKey.ml:60-72 | the in-place loop writes `toxDist` of the two keys, with no byte above 128 |
| KeyDistance.KadDistance | src/main/ocaml/publicKey.ml:52-57 | the in-place loop writes `kadDist` of the two keys |
| KeyDistance.KeyDistance | src/main/ocaml/publicKey.ml:75-87 | `distance` is the chosen distance of the two keys as 32 bytes |
| KeyDistance.BytesLessNumeric | src/main/ocaml/publicKey.ml:8-12 | comparing distances byte by byte is comparing numbers |
| KeyDistance.KeysAtExact | src/main/ocaml/publicKey.ml:60-72 | `KeysAt` is the set of the keys at a given distance |
| KeyDistance.KeysAtCount | src/main/ocaml/publicKey.ml:60-72 | 2^k keys lie at a distance without a byte above 128, where k counts the bytes other than 0 and 128, and none at any other |
| PacketFormat.TakeNodeOfBytes | src/main/ocaml/node.ml:4-36 | a node of the documented layout is read back; it takes 39 bytes with IPv4 and 51 with IPv6 |
| PacketFormat.NodesFormat | src/main/ocaml/packet.ml:90-101 | the list decoder returns a list and a rest iff the bytes are that list in the documented layout and the rest |
| PacketFormat.NodeHeader | src/main/ocaml/node.ml:18-36 | the first byte decides protocol and family; a node is a format error iff it begins with any other byte, and raises iff it is cut short |
| PacketFormat.NodesBytesSize | doc/protocol.md:15-39 | a list takes 39 bytes for each IPv4 and 51 for each IPv6 node |
| PacketFormat.NodesResponseFormat | src/main/ocaml/nodesResponse.ml:16-29 | a response with up to 255 nodes is read back node for node, the cursor at the ping id after the list |
| PacketFormat.PlainRoundTrip | src/main/ocaml/nodesRequest.ml:16-31 | each kind of plain text is read back; all packets but responses with nodes can be written |
| PacketFormat.PlainFormat | src/main/ocaml/nodesResponse.ml:20-28 | an unpacker returns a packet of its kind iff the plain text begins with the layout of that packet |
| PacketFormat.PlainFailure | src/main/ocaml/packet.ml:90-101 | the one error it returns is for a list of nodes that breaks off at a byte no node begins with; else it raises |
| PacketFormat.PacketFits | src/main/ocaml/message.ml:10-19 | which packets fit into a buffer of which capacity |
| PacketFormat.EnvelopeRoundTrip | src/main/ocaml/dhtPacket.ml:5-27 | whoever has the other half of the channel key reads the packet and the sender's entry; whoever does not know the sender gets No_such_key |
| PacketFormat.ReadPacketFormat | src/main/ocaml/dhtPacket.ml:5-14 | of any bytes whatever, `unpack` returns a packet and an entry iff they are the packet's kind, a known key, a nonce and a box that opens under the channel key of that entry to the packet's layout |
| PacketFormat.ReadPacketFailure | src/main/ocaml/crypto.ml:9-26 | each error has just one reason: an unknown kind or broken plain text, an unknown key, a box that does not open, too few bytes |
| Numbers.Int64RoundTrip | src/main/ocaml/message.ml:35-44 | a ping id is written as eight bytes of two's complement, most significant first, and read back |
| PacketCodec.Message.FlipLo | src/main/ocaml/message.ml:19-19 | what was filled becomes what is read |
| PacketCodec.Message.ConsumeString | src/main/ocaml/message.ml:35-44 | takes the next bytes off the window, or raises when there are too few |
| PacketCodec.Message.FillString | src/main/ocaml/message.ml:47-56 | appends to what was filled and leaves it alone, or raises when there is no room |
| PacketCodec.UnpackKind | src/main/ocaml/packet.ml:21-28 | the cursor form reads what the parser does |
| PacketCodec.UnpackAfterProto | src/main/ocaml/node.ml:4-15 | the cursor form reads what the parser does |
| PacketCodec.UnpackNode | src/main/ocaml/node.ml:18-36 | the cursor form reads what the parser does, and stands after the node |
| PacketCodec.CollectTakes | src/main/ocaml/packet.ml:92-98 | the backwards accumulator, reversed, is the list in order |
| PacketCodec.UnpackNodes | src/main/ocaml/packet.ml:90-101 | the count byte and that many nodes, in order, with the cursor after them |
| PacketCodec.UnpackPlain | src/main/ocaml/nodesResponse.ml:20-28 | the four packet modules read what the parser does |
| PacketCodec.Unpack | src/main/ocaml/networkPacket.ml:3-21 | the whole unpacker, with its error cases, over the buffer |
| PacketCodec.PackPlain | src/main/ocaml/nodesRequest.ml:26-31 | the plain buffer holds the packet's plain text; fails iff it cannot be written or does not fit |
| PacketCodec.PackEncrypted | src/main/ocaml/crypto.ml:39-45 | appends the sealed plain text |
| PacketCodec.PackHeader | src/main/ocaml/dhtPacket.ml:22-25 | kind, public key and nonce, in 57 bytes |
| PacketCodec.Pack | src/main/ocaml/networkPacket.ml:24-38 | the buffer returned is ready to be read and holds the packet's bytes |
| NodeTable.AddNodeKeeps | src/main/ocaml/dht.ml:14-48 | files the node under its own key with the channel key of the two parties, the assertion holds, the entry is found right after, all others and the own keys stay |
| NodeTable.LastNodeWins | src/main/ocaml/main.ml:69-114 | after a response the last IPv4 node of the list with a key is its entry; keys not mentioned keep theirs; none is lost |
| NodeTable.OneRequestEach | src/main/ocaml/main.ml:103-113 | one request is queued for each IPv4 node, in the order of the list, under its entry and for the own key |
| NodeTable.Client.Bootstrap | src/main/ocaml/network.ml:82-101 | adds the node and queues one request to its entry; `ok_exn` does not raise |
| NodeTable.Client.HandleNetworkEvent | src/main/ocaml/main.ml:36-115 | an echo request is answered with its ping; a response with the expected ping adds its nodes and asks them; anything else changes nothing; a wrong ping raises |
| NodeTable.Client.AddNodes | src/main/ocaml/main.ml:69-114 | the loop over the nodes is the fold of `add_node`, and `ok_exn` does not raise |
| NodeTable.TableOverRuns | src/main/ocaml/dht.ml:14-38 | in every table of every run each key holds a node with that key and the right channel key, no key is lost, the own pair stays |
| NodeTable.PeersUnderstand | src/main/ocaml/networkPacket.ml:3-38 | what one of two peers packs for the other after any runs, the other reads as the same packet from its own entry of the sender |
| ToxAv.NewToxAv.OnInvite | src/main/cpp/tox/av.cpp:61-96 | both maps and the event are those of `Calls.OnInvite` |
| ToxAv.NewToxAv.OnRinging | src/main/cpp/tox/av.cpp:98-108 | the known call is RINGING and reported so |
| ToxAv.NewToxAv.OnStart | src/main/cpp/tox/av.cpp:110-141 | the known call sends what its settings say and is reported so |
| ToxAv.NewToxAv.MakeSettings | src/main/cpp/tox/av.cpp:324-346 | an audio bit rate makes the call an audio call, a video bit rate, with or without it, a video call; without either the default type stays |
| Calls.MakeSettings | src/main/cpp/tox/av.cpp:324-346 | which settings each bit rate sets, and that all others are the defaults |
| ToxAv.NewToxAv.PlaceCall | src/main/cpp/tox/av.cpp:348-370 | both maps get the new call, with its settings |
| ToxAv.NewToxAv.Answer | src/main/cpp/tox/av.cpp:378-398 | the friend's call takes the settings; without one nothing happens |
| ToxAv.NewToxAv.SendAudioFrame | src/main/cpp/tox/av.cpp:449-473 | a frame of the agreed shape clears the pending flag of that call only |
| ToxAv.NewToxAv.AskFor | src/main/cpp/tox/av.cpp:297-320 | the fall-through switch raises the requests that are due and sets their flags |
| ToxAv.NewToxAv.Iteration | src/main/cpp/tox/av.cpp:285-322 | all calls are visited once; requests go out in the order of friend numbers, video before audio |
| Calls.VisitAsksOnce | src/main/cpp/tox/av.cpp:292-321 | an iteration asks once for each frame that is due and for no other |
| Calls.VisitInOrder | src/main/cpp/tox/av.cpp:292-321 | requests go up by friend number, and for one friend video comes before audio |
| Calls.ThreeRounds | src/main/cpp/tox/av.cpp:297-320 | what the fall-through asks for in the first three rounds of a call, state by state |
| CallRuns.MapsAgree | src/main/cpp/tox/av.cpp:43-73 | in every run each friend's call index maps back to the friend and every mapped friend has a call |
| CallRuns.AssertionsFailOnly | src/main/cpp/tox/av.cpp:98-141 | for a known index `get_friend_number` and `get_call` never assert; an assertion fails iff a call is started again that was last reported in the very state its last settings ask for, or a frame has not their shape |
| CallRuns.SecondStartAborts | src/main/cpp/tox/av.cpp:132-133 | an invited call that is started twice fails the assertion |
| CallRuns.SettingsAreLast | src/main/cpp/tox/av.cpp:348-398 | in every run a call has the settings it was last placed or answered with, zeroes before |
| CallRuns.StartSays | src/main/cpp/tox/av.cpp:110-141 | a start reports SENDING_AV after a call or answer with a video bit rate, SENDING_A with an audio one alone, SENDING_NONE without any call or answer; after it video is due iff there was a video bit rate |
| CallRuns.FramesOfCall | src/main/cpp/tox/av.cpp:449-473 | after a call or answer with an audio bit rate, of any size, a frame is taken iff it has 480 samples on one channel at 8000 Hz |
| CallRuns.StateIsLastReported | src/main/cpp/tox/av.cpp:98-141 | a call's state is the last one its client was told |
| CallRuns.SendingVideoOnlyIsUnreachable | src/main/cpp/tox/av.cpp:110-141 | SENDING_V is unreachable; audio is due iff sending audio and not pending, video iff sending both and not pending |
| CallRuns.RequestsAreConserved | src/main/cpp/tox/av.cpp:285-322 | over every run audio requests minus frames sent is 0 or 1 and equals the pending flag; video is asked for once at most |
| CallRuns.MapsInverse | src/main/cpp/tox/av.cpp:65-72 | each index leads to a call with that index iff no friend with a call invited again |
| CallRuns.SecondInviteIsLost | src/main/cpp/tox/av.cpp:69-72 | two invitations from one friend: the second index leads to the first call |
| CallRuns.InvitationSays | src/main/cpp/tox/av.cpp:61-96 | each invitation of a run reports audio iff the friend was last called or answered with settings for audio or video, and video iff these were for video |
| CallRuns.InvitationsReportMedia | src/main/cpp/tox/av.cpp:74-95 | a run reports audio (video) in some invitation iff one came from a friend last called or answered with such settings |
| CallRuns.SecondInviteIsSilent | src/main/cpp/tox/av.cpp:69-72 | two invitations from one friend report neither |
| CallRuns.InviteAfterCallReports | src/main/cpp/tox/av.cpp:86-89 | an invitation from a friend called with video reports both |
| EventBuffer.ToxCore.Record | src/main/cpp/ToxCore/lifecycle.cpp:27-213 | the event goes to the end of the list of its kind |
| EventBuffer.ToxCore.ToxIteration | src/main/cpp/ToxCore/connection.cpp:122-134 | hands over the lists of everything recorded and leaves them empty |
| EventBuffer.ToxCore.Dispatch | src/main/java/im/tox/tox4j/ToxCoreImpl.java:255-334 | the sixteen loops call the listeners kind by kind in the order of `ORDER` |
| EventBuffer.ToxCore.Iteration | src/main/java/im/tox/tox4j/ToxCoreImpl.java:244-335 | an iteration delivers what was recorded and nothing stays behind |
| EventBuffer.RunIterations | src/main/java/im/tox/tox4j/ToxCoreImpl.java:244-335 | any number of iterations deliver what `Delivered` says |
| EventOrder.EventsAreConserved | src/main/cpp/ToxCore/connection.cpp:125-133 | over every run each kind's delivered sequence is its recorded one, apart from rounds without its listener |
| EventOrder.NothingLostWithListeners | src/main/cpp/ToxCore/connection.cpp:125-133 | with its listener always set, a kind's delivered sequence is its recorded one |
| EventOrder.BatchIsTheStableSort | src/main/java/im/tox/tox4j/ToxCoreImpl.java:255-334 | with all listeners set a batch is heard as the one sequence that goes up in rank and keeps each kind's order |
| EventOrder.HeardAtItsPlace | src/main/java/im/tox/tox4j/ToxCoreImpl.java:244-335 | each recorded event with a listener is heard, at its place |
| EventOrder.OnlyRecordedIsHeard | src/main/java/im/tox/tox4j/ToxCoreImpl.java:244-335 | each event heard is a recorded one, at its place |
| EventOrder.OrderOfEvents | src/main/java/im/tox/tox4j/ToxCoreImpl.java:244-335 | of two events one is heard first iff it is first by round, then rank of its kind, then recording |
| FileEvents.AnnouncementComesFirst | src/main/cpp/tox/core_private.h:248-263 | in every run of callbacks and calls each chunk recorded has an announcement from the same friend under the same number recorded before it, with no end of that file between, and a client that listens to both hears it first |
| FileEvents.AcceptanceComesFirst | src/main/cpp/tox/core.cpp:302-323 | each request for bytes recorded has a report that the friend resumed that file recorded before it, with no end of that file between, and a client that listens to both hears it first |
| EventOrder.EndOvertakesTheLastChunk | src/main/java/im/tox/tox4j/ToxCoreImpl.java:310-324 | the last chunk and the end notice of a received file are heard in their order iff they fell into different rounds |
| EventOrder.NextFileOvertakesTheLastChunk | src/main/java/im/tox/tox4j/ToxCoreImpl.java:315-324 | a chunk recorded before an announcement is heard before it iff they fell into different rounds |

## Left out

- TransferOwn.OwnResume: is about two different peers; old toxcore lets nobody be a friend of itself.
- JNI marshalling, exception classes, protobuf encoding, logging and timing.
- The 32-bit width of instance numbers, file positions and bit rates; all are unbounded here, and so is the product in `send_audio_frame`.
- Error-code translation, getters and setters, and the checks of `new_tox_file_send` on the file name, the friend and the supply of numbers. In `TransferNet` friends exist and are connected.
- KILL and RESUME_BROKEN controls, zero-length chunks, streams of unknown size: the source asserts on them or does not implement them. Clients in `TransferNet` send no PAUSE, on which the other side asserts, and no CANCEL, which does nothing.
- Video frames, received audio, call control and bit-rate setters: they assert or pass data through. Calls never end in the source.
- Packing nodes responses with nodes in them: `Node.pack` raises in the source, and so does the model.
- Sockets, the Async scheduler, the SOCKS server, the Swing client and the IRC bot.
- `close` of a core object also closes its av object; `Handles` and `Objects` follow the objects of one manager at a time.
- The pointer of an av instance to its core instance is no field of the heap in `Locking`; `AvParents` follows it beside the runs. What toxav does with it is not part of this model.
- Listeners that throw, and Java threads that iterate the same object at once. `toxIteration` itself is a function under the instance lock in `Locking`; dispatch happens after it has returned.
- Conversion of status and control enumerations between C++ and Java; file controls in events are only those that transfers raise.
- Locking: a condition of the C++ mutex (a lock is granted to some waiter) is taken as given, and fairness between waiters is not part of the model.
- Distance.ToxDistMetric: is about naturals, because the recursion of the source does not end on negative numbers.
- NodeTable.PeersUnderstand: depends on the two laws of boxes, which sodium is trusted to keep.
- TransferProgress.TransfersEnd: that a scheduler takes the steps that remain possible is not part of it.
