# IpcShmChannel: message pipeline

A Dafny model of the message pipeline of `IpcShmChannel`, a channel between two processes over
shared memory, with proofs about every run of it. One direction of the channel is a sending
process, a one-packet mailbox in shared memory and a receiving process:

- `post` draws a sequence number, cuts a payload into packets of at most 32768 bytes and pushes
  them on a queue. The send loop pops a packet and tries to write it to the mailbox. A packet
  whose send fails goes to the **back** of the queue, so retries reorder packets.
- A packet is a 12-byte big-endian header and a piece of payload. The send loop, the heartbeat,
  the receive thread and `Stop` all write to the same mailbox, guarded by one flag.
- `recv` takes packets from the mailbox and puts them together by sequence number. On the last
  packet of a message it compares a byte **count** only, and then delivers, discards, or
  announces a null payload.
- A counter of unanswered pings cuts the link. A ping heard on one direction is answered with a pong
  on the other, and a hello resets the counter.

## How the model is built

| file | content |
|---|---|
| `Wire.dfy` | the header and its codec; reassembly keys |
| `Chunking.dfy` | messages and the packets they are cut into |
| `Posting.dfy` | the loop of `post`: its 16-bit count and 64-bit index, and when it reads past the data |
| `Mailbox.dfy`, `SharedMemory.dfy` | the mailbox as a value, and as an object written in place |
| `Reassembly.dfy` | one call of `recv` as a function; demultiplexing; ownership of buffers |
| `Orders.dfy` | what becomes of one message when its packets arrive in a given order |
| `Oversize.dfy` | what `recv` makes of a message of 2^24 bytes or more |
| `Protocol.dfy` | the state machine: state, steps, runs |
| `Conservation.dfy`, `Sequencing.dfy`, `Transfer.dfy`, `Delivery.dfy`, `Loss.dfy`, `Shutdown.dfy` | inductive invariants |
| `Reachability.dfy` | all invariants hold in every reachable state |
| `Theorems.dfy`, `Draining.dfy` | the main results about reachable states |
| `Histories.dfy` | the state at any point of a run in terms of the steps taken so far; isolation on runs |
| `Progress.dfy` | what each thread can do and waits for; what is not done any more after a stop |
| `Recovery.dfy` | leaving a dead link, a new connection, and arrival of what is queued or posted |
| `Witnesses.dfy` | runs that show why some results carry a condition |
| `Heartbeat.dfy` | the counter of unanswered pings, for any sequence of events |
| `Duplex.dfy` | both directions as one machine, joined by hellos, pings and pongs; when the counter cuts |
| `StalePongs.dfy` | a joint run in which pongs that arrive after a hello cut a healthy link |
| `Beating.dfy` | the heartbeat of the joint machine, of the event machine and of the object are one |
| `Channel.dfy` | the class `IpcShmChannel`, its fields updated in place, proved against the functions above |
| `Refinement.dfy` | what the two processes see of a protocol state; the runs that match whole calls |
| `Endpoints.dfy` | the two objects of one direction follow every run of the protocol; ownership of buffers |

The state machine takes one step for each section of the program that runs under a mutex and for
each atomic operation, up to the merges listed under Assumptions. `post` pushes packet by packet,
other threads write between any two steps of the send loop, and connections end and start again.
`send_packet` reads the connection flag twice. When a call waits while the flag falls and rises
again, its write goes through although the mailbox is unread; the machine has these writes. The
mailbox holds real bytes, and `recv` works from those bytes alone. Which packet the bytes came from
is kept as history. In this machine the other direction acts only through control packets and
through connection flags, and both may come at any time, so its results hold whatever the peer does.
`Duplex.dfy` then joins two such machines, with the heartbeat and receive threads of both processes,
and each direction of a joint run is a run of the first machine. What the state keeps as history is
not taken on trust: `Histories.dfy` says of each such field, flag and mark which steps of a run it
goes back to. A reachable state is one that some legal run reaches from some starting value of the
sequence number picker.

`Endpoints.dfy` puts one direction on the heap: two `IpcShmChannel` objects, the mailboxes they share
or have replaced, and the local variables of their threads. Its invariant says that these are in a
reachable state of the machine. Every step is carried out by the methods of the class and keeps the
invariant, so whatever is proved of reachable states holds of the objects after any sequence of calls.

Uninitialised memory is modelled as such: a buffer is a sequence of cells, and a fresh buffer has
no bytes in its cells. A delivery that is intact therefore shows that no indeterminate byte
reaches the callback. A copy that would leave its buffer is the outcome `Fault`, after which the
C++ program is undefined. No reachable state has one.

## Assumptions

- The tail of `recv` after the mailbox is unlocked touches only the receive thread's own map, so a
  whole call is one step. What `notify` does to flags, counter and the other direction is a
  step of its own in `Duplex.dfy`.
- `Listen` merges the new mailbox, its mark and the receive flag (src/IpcShmChannel.cpp:469-478). It
  stands for the moment of the mark: before it no sender attaches, and until the flag is set the
  receiver just does not read. A cut whose store falls between mark and flag is overwritten by the
  flag, so it is no `Quit`; `Duplex.dfy` leaves that case out.
- `Begin` merges the mark of the sender and the send flag (src/IpcShmChannel.cpp:559-571). It stands
  for the moment of the mark. Until the flag is really set nobody is made to see it up, and if it
  falls in between, the later store is a `SetConnected(true)`.
- `RecverStop` merges the two stores of `Stop` that concern the receive thread
  (src/IpcShmChannel.cpp:296-305). It stands for the second: after the first the receiver just does
  not read, and ending its loop is a `Quit`.
- The heartbeat's test of both flags is one step. The ping's number, its write, its count and each
  of the two stores of a cut are steps of their own, with any other thread in between.
- Payloads are shorter than 2^24 bytes (the wire keeps 3 bytes of the length;
  `Chunking.LengthSurvivesIff` shows that the bound is exact) and not null unless empty. `Post` of
  the class takes any length up to the largest object, 2^63 - 1 bytes; see below for longer messages.
- Integers are two's complement; `size_t` and `long` have 64 bits. A 32-bit `long` gives the same
  reassembly keys.
- At most 2^32 sequence numbers are drawn (`FewDraws`), where a result depends on it. The picker
  may start at any value, since the source does not initialise it.
- The connection flags start as false. The source leaves them uninitialised.
- The receiver's map starts empty.

## Where comments and code differ

The model follows the code.

- The comment at src/IpcShmChannel.cpp:19 gives a prefix without a sequence number. The code writes
  a 12-byte prefix whose last 4 bytes are the sequence number.
- The comment at src/IpcShmChannel.cpp:338 speaks of a ping every 3 seconds; the interval is 1.
- The comment at src/IpcShmChannel.cpp:366 announces a flush message for a post that fails half-way;
  there is none.
- The repository's README uses SendTextMsg, SendJsonMsg and SendPbMsg. The class has only `PostMsg`.

## Results that are conditions, not promises

- **A retry can spoil a message.** One failed send, with the link up and nothing lost, is enough
  for a posted message to be announced with a null payload and its full length
  (`Witnesses.OneRetryCanSpoilAMessage`). `Theorems.ExactOutcome` says exactly when: a message of
  several packets is delivered intact if and only if chunk 0 is consumed first and the last chunk
  is consumed after all others. `Histories.IsolationOnRuns` says that only what steps do to a message's
  own packets matters.
- **A bye does not always end the receiver's loop.** The send loop maps the mailbox before it marks
  itself as working. A control packet can be written in between, when a hello of the peer has
  already set the connection flag. A bye written then and read after the mark is consumed without
  ending the loop (`Witnesses.EarlyByeIsIgnored`), and any other control packet read before the
  mark does end it. `Theorems.RecvEndsLoopIff` is the exact condition.
- **Stale pongs can cut a healthy link.** The counter is unsigned. Pongs to pings from before a hello
  take it below zero after the hello has reset it, and the next counted ping then cuts the link
  although only that ping is unanswered (`StalePongs.StalePongsCutALink`, a run of both directions).
  `Duplex.CutsIff` is the exact condition in every joint run: the number of unanswered pings exceeds
  the number at the last reset by more than 3, or is below it. If every hello finds no ping unanswered,
  the cut comes exactly above 3 (`Duplex.CutOnlyWhenUnanswered`). `Duplex.CutsOnRuns` says it in
  steps taken since the last reset.
- **A fall of the connection flag can lose a packet.** If a call of `send_packet` is waiting when the
  flag falls and rises again, it overwrites whatever is unread, on one and the same connection
  (`Witnesses.FallingFlagLosesAPost` loses a posted message). `Theorems.LossPerConnection` bounds the
  damage: at most one overwritten packet for each fall, besides two packets for each connection. All
  other results hold with such writes, but for two that say so: `Theorems.RecvEndsLoopIff` and
  `Theorems.NothingAfterBye` need that nothing was overwritten on the connection, since a bye may be
  what was overwritten. `Theorems.LoopEndsIff` is the condition without that. On a channel whose flag
  never falls nothing is ever overwritten (`Theorems.NoFallNoOverwriting`). Which calls can overwrite
  is said exactly: those that had started before a rise of the flag, while nothing was written since
  (`Progress.LoopWritesIff`, `Progress.CallWritesIff`).
- **A fall of the connection flag loses what is in hand.** The send loop leaves the mailbox and drops
  the packet that it holds, with what is unread in the old mailbox. All that is queued survives: it
  can be delivered after the reconnection (`Recovery.QueuedCanArrive`).
- **A very large post reads past its data, or posts nothing.** The number of packets is kept in a
  `short` and compared as a `size_t`. The loop stays inside the data if and only if the number of
  packets modulo 2^16 is below 2^15 (`Posting.StaysInsideIff`); 1 GiB is a length at which it does not
  (`Posting.OneGibibyteReadsOutside`), and 65536 full packets are posted as no packet at all, with
  result true (`Posting.NothingIsPosted`). The packets are the whole message if and only if there are
  at most 32767 (`Posting.PostIsWholeIff`).
- **A message of 2^24 bytes or more overruns the receiver's buffer, or vanishes.** Its packets, in order,
  are copied behind the end of a buffer if and only if its length is no multiple of 2^24
  (`Oversize.LongMessageFaultsIff`); otherwise it is announced as an empty message
  (`Oversize.LongMessageVanishes`).

## Model

| member | source | states |
|---|---|---|
| `Wire.DecodeEncode` | src/IpcShmChannel.cpp:30-67 | encoding then decoding cuts each field to its wire width (type to 1 byte, length to 3, chunk fields to signed 16 bits, sequence number to signed 32) and changes nothing else |
| `Wire.EncodeDecode` | src/IpcShmChannel.cpp:30-67 | decoding any 12 bytes and encoding the result gives the same bytes |
| `Wire.SurvivesIffFits` | src/IpcShmChannel.cpp:23-27 | a header comes back unchanged if and only if every field fits its width |
| `Wire.SetHeader` | src/IpcShmChannel.cpp:30-47 | the in-place writer leaves the encoding in the first 12 bytes and the rest of the buffer as it was |
| `Wire.GetHeader` | src/IpcShmChannel.cpp:50-67 | the reader returns the decoding of the first 12 bytes |
| `Wire.KeysCollideIff` | src/IpcShmChannel.cpp:43-46 | two draws have the same reassembly key if and only if they are a multiple of 2^32 draws apart, whatever the picker's starting value |
| `Chunking.ChunksPartition` | src/IpcShmChannel.cpp:351-375 | the payloads of a message's packets concatenate to the message |
| `Chunking.ChunkShape` | src/IpcShmChannel.cpp:359-363 | every packet but the last is full, the last ends the message, none is empty unless the message is |
| `Chunking.ChunkCountShape` | src/IpcShmChannel.cpp:355-357 | the number of packets is the rounded-up quotient, at most 512, and fits the signed 16-bit field |
| `Chunking.LengthSurvivesIff` | src/IpcShmChannel.cpp:32-35 | a message's packets carry its length if and only if it is shorter than 2^24 bytes |
| `Posting.StaysInsideIff` | src/IpcShmChannel.cpp:354-369 | no round of the loop of `post` reads past the data if and only if the 16-bit count has not become negative, which is when the number of packets modulo 2^16 is below 2^15 |
| `Posting.OneGibibyteReadsOutside` | src/IpcShmChannel.cpp:357-364 | at 1 GiB the count is -32768 and the loop reads past the data; at every length of at most 32767 packets it does not |
| `Posting.PostIsWholeIff` | src/IpcShmChannel.cpp:355-369 | at every length, the packets released are the whole message if and only if it has at most 32767 packets |
| `Posting.PostedFront` | src/IpcShmChannel.cpp:355-369 | at every length, the packets released are the front of the message, piece by piece: as many as the 16-bit count says if it is not negative, else all that can be read |
| `Posting.NothingIsPosted` | src/IpcShmChannel.cpp:357-369 | a message of 65536 full packets is released as no packet at all |
| `Oversize.LongMessageOverruns` | src/IpcShmChannel.cpp:514-529 | a message of 2^24 bytes or more that announces a length above 0 is collected up to the packet with that offset, which is copied behind the end of the buffer |
| `Oversize.LongMessageVanishes` | src/IpcShmChannel.cpp:514-551 | a message whose length is a multiple of 2^24 gets no buffer; its last packet is announced as an empty message |
| `Oversize.LongMessageFaultsIff` | src/IpcShmChannel.cpp:514-529 | received in order, a message of 2^24 bytes or more leaves its buffer if and only if its length is no multiple of 2^24 |
| `Mailbox.ReadAfterWrite` | src/IpcShmChannel.cpp:429-433 | reading a written mailbox gives back type, size, header and payload of that one write, and nothing of what the mailbox held before |
| `Mailbox.OfferIff` | src/IpcShmChannel.cpp:411-427 | a mailbox is written if and only if the packet fits, the flag is up, the channel runs, the receiver's mark is there and nothing is unread |
| `Mailbox.MarksAfterWrite` | src/IpcShmChannel.cpp:434-435 | the sender's mark survives a write if and only if it is neither the client's nor the server's bye; the receiver's mark always does |
| `SharedMemory.ChannelData.Put` | src/IpcShmChannel.cpp:429-435 | the locked section of `send_packet` turns the mailbox object into the written mailbox; the bye of either side, and nothing else, clears the sender's mark |
| `SharedMemory.ChannelData.constructor` | src/IpcShmChannel.cpp:117-122 | a new mailbox is empty, unmarked and zero-filled |
| `Reassembly.Demultiplex` | src/IpcShmChannel.cpp:514-550 | for any interleaved stream, entry and outcomes of a sequence number are those of a single-entry reassembler run on that number's packets |
| `Reassembly.OthersDoNotDisturb` | src/IpcShmChannel.cpp:514-550 | dropping every other packet from a stream changes nothing for a sequence number |
| `Reassembly.Ledger` | src/IpcShmChannel.cpp:514-549 | for any stream, buffers allocated are those freed, those in the map and those whose only pointer a second chunk 0 overwrote |
| `Orders.TrackedExactly` | src/IpcShmChannel.cpp:514-550 | for any order of any distinct packets of a message, the entry holds exactly the bytes and count of the chunks since chunk 0, and every outcome follows from that set of chunks |
| `Orders.CountTellsAll` | src/IpcShmChannel.cpp:537 | the byte count equals the length if and only if every chunk is held |
| `Orders.HeldClosedForm` | src/IpcShmChannel.cpp:514-550 | an entry exists if and only if chunk 0 was consumed and the last chunk was not consumed after it; it holds the chunks consumed from chunk 0 on |
| `Orders.VerdictOfLastChunk` | src/IpcShmChannel.cpp:534-550 | the last chunk delivers if and only if chunk 0 came first and none is missing, announces a null payload if and only if chunk 0 did not come, and discards otherwise |
| `Orders.PermutationDeliversIff` | src/IpcShmChannel.cpp:514-550 | feeding `recv` any permutation of a message's packets delivers it intact if and only if chunk 0 is first and the last chunk is last |
| `Orders.EntryRemainsIff` | src/IpcShmChannel.cpp:514-549 | after any permutation of a message's packets, an entry stays behind if and only if chunk 0 came after the last chunk |
| `Conservation.MoveOf` | src/IpcShmChannel.cpp:377-439 | what each step does to the line of packets: a push appends, a pop, write and receive keep it, a failed send moves its packet to the back, and only overwriting, disconnects and `Stop` remove packets |
| `Conservation.ConservedNext` | src/IpcShmChannel.cpp:377-402 | every step keeps the multiset of released packets equal to the packets in line, lost and cleared |
| `Sequencing.InOrderNext` | src/IpcShmChannel.cpp:574-585 | every step keeps the packets of each undisturbed message complete and in order |
| `Sequencing.FifoNext` | src/IpcShmChannel.cpp:377-402 | every step keeps posted packets in push order as long as nothing has failed |
| `Transfer.MailedNext` | src/IpcShmChannel.cpp:416-437 | every step keeps the packets read a prefix of those written, with the unread one intact in the mailbox |
| `Transfer.ReassembledNext` | src/IpcShmChannel.cpp:492-552 | every step keeps the receiver's map and outcomes those of `recv` run on the consumed packets |
| `Delivery.OutcomeOfPacket` | src/IpcShmChannel.cpp:492-552 | the outcome of every packet consumed is the verdict on the order of its own message's packets up to it |
| `Reachability.InvNext` | src/IpcShmChannel.cpp:351-591 | all invariants are kept by every step |
| `Theorems.Integrity` | src/IpcShmChannel.cpp:492-552 | in every run no copy leaves its buffer, and whatever is announced with a payload is byte for byte what was posted under that number |
| `Theorems.ExactOutcome` | src/IpcShmChannel.cpp:534-550 | in every run, what happens to each packet as an exact function of the order of its own message's packets |
| `Theorems.AtMostOnce` | src/IpcShmChannel.cpp:534-550 | in every run a drawn number causes at most one notification |
| `Theorems.Isolation` | src/IpcShmChannel.cpp:574-585 | a message none of whose packets failed a send or was lost is delivered intact when its last packet is consumed and announced at no other, whatever befell other messages |
| `Theorems.ExactlyOnePlace` | src/IpcShmChannel.cpp:377-402 | every released packet is in exactly one of consumed, mailbox, hand, queue, lost, cleared; a retry never duplicates it |
| `Histories.FailedIff` | src/IpcShmChannel.cpp:577-583 | at every point of every run, a message has failed if and only if a send of one of its own packets has |
| `Histories.LostIff` | src/IpcShmChannel.cpp:416-458 | a packet is lost if and only if the send loop left with it in hand, it was unread when the mailbox was overwritten or replaced, or it was written to a replaced mailbox |
| `Histories.ClearedIff` | src/IpcShmChannel.cpp:377-446 | a packet is cleared if and only if `Stop` found it in the queue or its retry found the channel stopped |
| `Histories.IsolationOnRuns` | src/IpcShmChannel.cpp:574-585 | in every run in which no step fails, loses or clears a packet of a message, it is delivered intact when its last packet is consumed and announced at no other, whatever happens to other messages |
| `Histories.CountsAre` | src/IpcShmChannel.cpp:351-591 | falls of the flag, connections and calls of `recv` are counted one by one in every run |
| `Histories.ConnectedIff` | src/IpcShmChannel.cpp:234-241 | the send flag is up if and only if a hello or the claim raised it and nothing lowered it since |
| `Histories.RunningIff` | src/IpcShmChannel.cpp:291-306 | a process runs until its `Stop`; the mailbox in use bears its receiver's mark from the first one made until then |
| `Histories.ListeningIff` | src/IpcShmChannel.cpp:474-488 | the receiver listens from the making of a mailbox until a cut, a stop, or an announcement from a mailbox that its sender does not work on |
| `Histories.ReadingOf` | src/IpcShmChannel.cpp:506-532 | each reading of the mailbox in use is one call of `recv` on it since it was made: its frame, and whether the sender was working or had not yet claimed it |
| `Histories.CallSlipsIff` | src/IpcShmChannel.cpp:416-420 | a hello, bye, ping or pong may have ended its wait on a fallen flag if and only if the flag rose after its number was drawn and nothing was written since |
| `Histories.LoopSlipsIff` | src/IpcShmChannel.cpp:416-420 | the send loop may have, if and only if the flag rose after its packet was popped and nothing was written since |
| `Progress.SendLoopSteps` | src/IpcShmChannel.cpp:555-591 | in every reachable state the set of steps the send loop can take: it is stuck only where the program waits, for a packet while the link is up and for a mailbox while there is none |
| `Progress.RecvLoopSteps` | src/IpcShmChannel.cpp:464-488 | the receive thread can always go on, unless its process has stopped |
| `Progress.CallerSteps` | src/IpcShmChannel.cpp:327-375 | callers are never held up: any number can be drawn and any post can push until all its packets are out |
| `Progress.LoopWritesIff` | src/IpcShmChannel.cpp:409-439 | when the send loop's packet is written and when its send fails, in terms of flag, stop, marks and the run: an unread packet is in the way unless the flag rose during the wait |
| `Progress.CallWritesIff` | src/IpcShmChannel.cpp:409-439 | the same for a hello, bye, ping or pong |
| `Progress.NothingAfterHalt` | src/IpcShmChannel.cpp:422-427 | after its process has stopped, no thread writes a packet to any mailbox or attaches to one |
| `Progress.StopSteps` | src/IpcShmChannel.cpp:291-295 | `Stop`, a hello and a cut can come at any time; the queue is dropped and a retry refused only after the stop |
| `Progress.NothingAfterRecverStop` | src/IpcShmChannel.cpp:296-306 | after the receiving process has stopped, nothing is read, no mailbox is made, and nothing is written to its mailbox |
| `Progress.NothingWhileDown` | src/IpcShmChannel.cpp:388-427 | from a fall of the send flag to its next rise nothing is popped, written or pushed again |
| `Theorems.LossPerConnection` | src/IpcShmChannel.cpp:416-458 | a connection loses at most two packets, and none while both sides are on it, besides at most one overwritten packet for each fall of the connection flag |
| `Theorems.MailboxIsFifo` | src/IpcShmChannel.cpp:416-437 | with several writers, reads are a prefix of the writes that were not overwritten, at most one behind, each whole and once |
| `Theorems.EntryExplained` | src/IpcShmChannel.cpp:514-529 | every map entry belongs to one message; its buffer agrees with it on the chunks since chunk 0, its count is their bytes, and the count is the length if and only if all have arrived |
| `Theorems.EntryRemains` | src/IpcShmChannel.cpp:537-549 | once all packets of a message are consumed, its entry remains if and only if chunk 0 was consumed after the last chunk |
| `Theorems.CopyInBounds` | src/IpcShmChannel.cpp:526-529 | every copy a reachable state can make ends within the message's length and inside the buffer allocated for it |
| `Theorems.NoBufferLeaks` | src/IpcShmChannel.cpp:514-549 | in every reachable state no entry was ever overwritten, and the number of buffers allocated is the number freed plus the number of entries |
| `Theorems.LoopEndsIff` | src/IpcShmChannel.cpp:506-551 | a call of `recv` ends the loop if and only if it announces something and the sender has not yet marked the mailbox or has written a bye since |
| `Theorems.SmudgedIff` | src/IpcShmChannel.cpp:416-435 | the mailbox in use remembers an overwriting if and only if one is among the losses of its connection; without a fall of the flag it never does |
| `Theorems.RecvEndsLoopIff` | src/IpcShmChannel.cpp:506-551 | while nothing was overwritten on the connection, that is: if and only if it reads a bye written after the sender's mark or a control packet that got in before the mark |
| `Theorems.NothingAfterBye` | src/IpcShmChannel.cpp:479-487 | while nothing was overwritten on the connection, a call that found the sender not working is the last and read a bye, or a control packet before the mark; everything written before was read before, in order, with the sender working |
| `Theorems.NoFallNoOverwriting` | src/IpcShmChannel.cpp:416-435 | on a channel whose send flag has never fallen no packet was ever overwritten |
| `Recovery.ByeEndsLoop` | src/IpcShmChannel.cpp:492-552 | with the link up and the mailbox empty any control event can be sent and is announced; the receiver's loop ends if and only if it is the client's or the server's bye |
| `Draining.WorkIsBounded` | src/IpcShmChannel.cpp:574-585 | in every run the number of pops, writes and reads and the work left is at most the work there was, three steps for each packet pushed, one for each control packet and one for each failed send |
| `Draining.QuietRunsDrain` | src/IpcShmChannel.cpp:574-585 | in a run without new packets and failed sends, pops, writes and reads together use up the work there was |
| `Draining.CanDrain` | src/IpcShmChannel.cpp:388-439 | from every reachable state with the link up, the threads can empty the pipeline with nothing failed or lost on the way |
| `Draining.DrainedMeansDelivered` | src/IpcShmChannel.cpp:492-552 | with an empty pipeline a fully issued message of which no packet was lost was delivered intact if and only if its first packet came first and its last packet last, which is always so for a message of one packet and for one that met no failed send; it was announced at no other packet |
| `Draining.CanDeliver` | src/IpcShmChannel.cpp:388-439 | from every reachable state with the link up, the processes can go on so that every fully issued message is delivered intact, under its own number, of which no packet was lost, unless it has several packets and one failed a send |
| `Draining.DeliveredInPostOrder` | src/IpcShmChannel.cpp:388-402 | if nothing failed, messages were delivered in the order in which their last packets were pushed |
| `Draining.ConsumedInPushOrder` | src/IpcShmChannel.cpp:388-402 | while nothing has failed, any two posted packets are consumed in the order in which they were pushed, whichever posts they come from |
| `Recovery.CanLeave` | src/IpcShmChannel.cpp:388-402 | from every reachable state with the send flag down the send loop can leave its mailbox; only the packet in its hand is lost, and the queue stays |
| `Recovery.CanReconnect` | src/IpcShmChannel.cpp:464-571 | with no link and no listener, the receiver can make a mailbox and the send loop attach to it, with the queue as it was and the link up |
| `Recovery.CanRecover` | src/IpcShmChannel.cpp:388-591 | from every reachable state in which both processes run the link can be brought up again; only what was in hand or unread is lost |
| `Recovery.QueuedCanArrive` | src/IpcShmChannel.cpp:388-591 | every message whose packets are queued, whatever the state of the link, can still be delivered intact under its own number, unless it has several packets and one failed a send |
| `Recovery.PostedCanArrive` | src/IpcShmChannel.cpp:351-591 | from every reachable state in which both processes run, a message posted now can be delivered as it was posted |
| `Heartbeat.CounterIsBalance` | src/IpcShmChannel.cpp:210-223 | for any sequence of events the counter is pings counted minus pongs handled since the last hello, modulo the width of `size_t`, also when flags fall between their test and the ping |
| `Heartbeat.NoticeEffects` | src/IpcShmChannel.cpp:203-226 | what each event of `notify` does to the receive flag, the send flag and the counter |
| `Heartbeat.CutIff` | src/IpcShmChannel.cpp:337-343 | a counted ping drops both flags if and only if more than 3 are unanswered or pongs have outrun pings, and leaves them alone otherwise |
| `Heartbeat.CutWhenUnanswered` | src/IpcShmChannel.cpp:339-343 | if pongs never exceed counted pings, only more than 3 unanswered cut, and both flags drop together |
| `Heartbeat.SilentPeer` | src/IpcShmChannel.cpp:333-349 | a silent peer is cut at the fourth counted ping, not before |
| `Heartbeat.StalePongsCut` | src/IpcShmChannel.cpp:221-223 | two pongs after a hello make the next ping cut, from any state of the counter |
| `Duplex.WorldNext` | src/IpcShmChannel.cpp:203-232 | every step of either process keeps both directions reachable and the invariants of both: pings written are counted once, each pong written answers another ping heard, the counter is the difference since the last reset |
| `Duplex.HeartBeatSteps` | src/IpcShmChannel.cpp:333-349 | in every joint state the set of steps the heartbeat thread can take: it waits only for both flags, and a ping once drawn is written or fails, is counted, and may cut |
| `Duplex.NoticeSteps` | src/IpcShmChannel.cpp:203-226 | in every joint state the set of steps the receive thread can take: it waits only for a packet or a stop, and every event it hears is dealt with as `notify` says |
| `Duplex.OtherSteps` | src/IpcShmChannel.cpp:351-591 | what one direction allows its sending side is possible in every joint state, but for the steps of these two threads |
| `Duplex.PongsAnswerPings` | src/IpcShmChannel.cpp:218-223 | in every joint run a process handles at most as many pongs as its peer wrote, and these are at most as many as it wrote pings |
| `Duplex.CutsIff` | src/IpcShmChannel.cpp:337-343 | in every joint run a counted ping cuts if and only if the unanswered pings exceed those at the last reset by more than 3 or are fewer; the counter is exactly that difference |
| `Duplex.CutsOnRuns` | src/IpcShmChannel.cpp:337-343 | in every joint run the next ping counted cuts if and only if, since the last reset, over 3 more pings were counted than pongs handled, or fewer; both as steps of the run |
| `Duplex.CutOnlyWhenUnanswered` | src/IpcShmChannel.cpp:210-223 | in a joint run in which every reset finds as many pongs handled as pings counted, a counted ping cuts if and only if over the whole run more than 3 pings are unanswered |
| `StalePongs.StalePongsCutALink` | src/IpcShmChannel.cpp:210-223 | a joint run at whose end both directions are up, one ping is unanswered, and counting it cuts the link |
| `Beating.PingRunIsPing` | src/IpcShmChannel.cpp:337-343 | the steps of an undisturbed heartbeat round in the joint machine are the heartbeat's ping event and one `send` |
| `Beating.HeardRunIsNotify` | src/IpcShmChannel.cpp:203-224 | the steps of an undisturbed notice in the joint machine are `notify` in the heartbeat's terms; a ping is answered by one `send` on the other direction |
| `Beating.HeartBeatRound` | src/IpcShmChannel.cpp:333-349 | a call of the object's `HeartBeat` takes it from a state of the joint machine to the state after that round |
| `Beating.HearNotice` | src/IpcShmChannel.cpp:203-226 | a call of the object's `Notify` takes it from a state of the joint machine to the state after that notice |
| `Beating.HeartBeatInWorld` | src/IpcShmChannel.cpp:337-343 | in every joint run, the object's heartbeat whose ping fits drops both flags if and only if the unanswered pings exceed those at the last reset by more than 3 or are fewer, and leaves both alone otherwise |
| `Witnesses.OneRetryCanSpoilAMessage` | src/IpcShmChannel.cpp:580-583 | a reachable state in which one retry, with nothing lost, made `recv` announce a null payload |
| `Witnesses.EarlyByeIsIgnored` | src/IpcShmChannel.cpp:557-571 | a reachable state in which `recv` reads a bye and goes on listening |
| `Witnesses.FallingFlagLosesAPost` | src/IpcShmChannel.cpp:416-437 | a reachable state in which, on the first connection still in use, one fall of the flag has cost a posted packet that was unread in the mailbox |
| `Channel.IpcShmChannel.Post` | src/IpcShmChannel.cpp:351-375 | at every length, the loop pushes exactly the packets its count asks for, or those before its first read past the data, which it reports; a stopped channel pushes nothing; the picker advances |
| `Channel.IpcShmChannel.PushPacket` | src/IpcShmChannel.cpp:377-386 | a running channel appends the packet, a stopped one refuses it |
| `Channel.IpcShmChannel.PopPacket` | src/IpcShmChannel.cpp:388-402 | a connected channel takes the front packet, an unconnected one takes none |
| `Channel.IpcShmChannel.SendPacket` | src/IpcShmChannel.cpp:409-439 | with no change of the flag meanwhile, the packet is written if and only if it fits, the channel is connected and running, the receiver's mark is there and nothing is unread; reading gives it back, a bye takes the sender's mark, and otherwise the mailbox is untouched |
| `Channel.IpcShmChannel.Commit` | src/IpcShmChannel.cpp:419-438 | what follows the wait reads the flag again and writes whether or not the mailbox is unread |
| `Channel.IpcShmChannel.Send` | src/IpcShmChannel.cpp:327-331 | a control event takes a sequence number and is offered to the mailbox past the queue |
| `Channel.IpcShmChannel.SendRound` | src/IpcShmChannel.cpp:574-585 | with no other thread in between, the front packet is written, or goes to the back of the queue, or is refused by a stopped channel; without a connection nothing is popped |
| `Channel.IpcShmChannel.FinishRound` | src/IpcShmChannel.cpp:578-583 | the connection flag is read again after the attempt: if it has fallen, the loop leaves and the packet is not pushed |
| `Channel.IpcShmChannel.Stop` | src/IpcShmChannel.cpp:291-313 | a running channel offers one bye, stops, drops its queue and takes back its mark; a stopped one does nothing |
| `Channel.IpcShmChannel.TakePacket` | src/IpcShmChannel.cpp:506-532 | the locked section of `recv` opens the entry of a first packet, copies the payload in place, and empties the mailbox |
| `Channel.IpcShmChannel.Recv` | src/IpcShmChannel.cpp:492-552 | one call does what the reassembly function says to map and mailbox, tells the callback something if and only if the outcome is a notification, with all the effects of `notify`, frees one live buffer exactly when the outcome says so, keeps mailboxes, live and freed buffers apart, and allocates only new ones; a disconnected or stopped receiver reads nothing |
| `Channel.IpcShmChannel.Forget` | src/IpcShmChannel.cpp:538-549 | frees a live buffer that was never freed and erases its entry, leaving all others |
| `Channel.IpcShmChannel.HeartBeat` | src/IpcShmChannel.cpp:339-343 | after the sleep a ping takes a number and is offered to the mailbox; if it does not fit or is one too many unanswered both flags fall, else they stay; only a ping that fits is counted |
| `Channel.IpcShmChannel.HeartBeatCheck` | src/IpcShmChannel.cpp:337 | the heartbeat goes on to its ping if and only if both flags are up, as in the model's check |
| `Channel.IpcShmChannel.Notify` | src/IpcShmChannel.cpp:203-226 | each event's effect on flags, counter and picker and, for a ping, on the other mailbox: only start_listen raises and only stop_listen lowers the receive flag, only a hello raises the send flag and resets the counter |
| `Channel.HearEffects` | src/IpcShmChannel.cpp:203-226 | only a ping takes a number, and it is answered by one pong if the other mailbox takes it; no other event writes |
| `Channel.IpcShmChannel.Listen` | src/IpcShmChannel.cpp:466-478 | a round of the receive loop begins with a fresh mailbox that bears the receiver's mark and the notice start_listen, which raises the receive flag and nothing else |
| `Refinement.ViewNext` | src/IpcShmChannel.cpp:351-585 | what a protocol step does to the sending process's queue, picker, flags and local variables depends on these alone |
| `Refinement.EndsNext` | src/IpcShmChannel.cpp:409-552 | what a protocol step does to mailboxes and receiver depends on what the two processes see alone |
| `Refinement.EnabledIffSeen` | src/IpcShmChannel.cpp:377-585 | a protocol step is possible if and only if the conditions that the processes test hold, and, for an attachment, the mailbox's name can still be opened |
| `Refinement.PostRefines` | src/IpcShmChannel.cpp:351-375 | a draw and one push per packet is always a legal run, and leaves exactly the message's packets at the back of the queue and nothing else changed |
| `Refinement.SendRefines` | src/IpcShmChannel.cpp:327-331 | a draw, and a write if the mailbox accepts the packet, is a legal run that offers exactly one control packet |
| `Refinement.SendRoundRefines` | src/IpcShmChannel.cpp:574-585 | a pop, the attempt that the mailbox decides, and the retry's push or refusal is a legal run, on the current mailbox or a replaced one |
| `Refinement.RecvRefines` | src/IpcShmChannel.cpp:514-551 | wherever the protocol can receive, the copy stays in its buffer, no entry is overwritten, and what is announced carries a wire event |
| `Endpoints.Direction.Recv` | src/IpcShmChannel.cpp:479-488 | a call of `recv` on the receiver's object, with its notice and the end of the loop, is the protocol's step and keeps the two objects in a reachable state |
| `Endpoints.Direction.EndLoop` | src/IpcShmChannel.cpp:500-505 | a call of `recv` that finds the receiver disconnected or stopped takes no step and ends the loop |
| `Endpoints.Direction.Post` | src/IpcShmChannel.cpp:351-375 | `post` on the sender's object is the run of a draw and its pushes, or of the draw alone when stopped, and keeps the objects in a reachable state |
| `Endpoints.Direction.Send` | src/IpcShmChannel.cpp:327-331 | `send` on the sender's object is the run of a draw and, when it returns true, a write |
| `Endpoints.Direction.SendRound` | src/IpcShmChannel.cpp:574-585 | a round of the send loop on the sender's object is the run of pop, attempt and retry |
| `Endpoints.Direction.Perform` | src/IpcShmChannel.cpp:351-591 | every step of the protocol is carried out by methods of the two objects, which end up in the state after that step |
| `Endpoints.Follow` | src/IpcShmChannel.cpp:351-591 | wherever the objects stand, they can follow every further run of the protocol to its end |
| `Endpoints.Replay` | src/IpcShmChannel.cpp:351-591 | from their construction on, the objects can follow every run of the protocol to its end, with no precondition ever violated |
| `Endpoints.Ownership` | src/IpcShmChannel.cpp:514-549 | in every state the objects can be in, the live buffers are exactly those of the map, one per entry; none of them was freed; as many distinct buffers were freed as `delete[]` was called; and every buffer allocated is live or freed |
| `Endpoints.NoticeIsPosted` | src/IpcShmChannel.cpp:544 | whatever the callback was ever told carries the event and length of the posted message and, if it carries a payload, exactly its bytes |
| `Endpoints.ToldExactly` | src/IpcShmChannel.cpp:534-544 | what each call of `recv` tells the callback, exactly, by the order in which packets of the message were consumed: the posted bytes, a null pointer, or nothing |
| `Endpoints.PostedCanBeTold` | src/IpcShmChannel.cpp:351-591 | wherever a direction stands with both processes running, there is a run beginning with the post after which every pair of objects that followed it has told the callback the posted bytes |

## Left out

- Endpoints.Direction.Post: takes payloads of less than 2^24 bytes, because longer ones are not messages of the state machine; `Channel.IpcShmChannel.Post` takes every length, and `Oversize.dfy` says what the receiver makes of longer ones.
- Creating, opening, mapping and removing shared memory, process ids, platform branches and Boost exceptions (src/IpcShmChannel.cpp:140-201, 448-458): a new connection is a fresh empty mailbox, and a mailbox whose receiver has stopped is not attached to.
- Waiting, timeouts and sleeps as real time: a wait is a guarded step and a timeout an attempt that finds the mailbox closed.
- Termination of `Stop` and of the thread joins, and the unlocked writes of `Stop` (src/IpcShmChannel.cpp:291-319): only its effects on the queue and on the flags are steps.
- The outer loops `send_loop`, `recv_loop` and `heart_beat_loop` as `while` loops: they run for as long as the channel does, so one round of each is a method and the loops are runs of the state machine. Reading and writing `send_channel_` while another thread resets it is not modelled.
- Messages of 2^24 bytes or more as messages of the state machine, null data with nonzero size, and sequence numbers that meet entries of an earlier peer.
- The sender's process id in notices, console output and what the user's callback does.
- The objects of both directions at once: `Endpoints.dfy` follows one direction, next to any separate mailboxes of the other, and `Duplex.dfy` joins the directions as values, with the heartbeat and the notices of one object tied to it in `Beating.dfy`.
- The name under which a mailbox can be opened: a mailbox can be attached to at most once, so that an early removal of a new name by `reset_send_channel` only rules out runs.
