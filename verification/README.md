# Drawterm: protocols, queues and name space

Drawterm is a Plan 9 kernel moved into a user process: 9P clients and servers, mount
tables, byte queues, locks, a reliable link and a TLS record layer. This project models
the parts of it that are protocols or linked structures updated in place, and proves what
they keep: for every input, every interleaving of processes and every run.

- `Aan`, `AanClient`: the reliable link of `aan.c`. Two endpoints and a link that keeps
  order but loses all it carries when it is cut form a machine over frames; the client's
  methods carry out its steps on the linked list of unacknowledged buffers.
- `Mux`, `MuxTheorems`, `MntTags`, `MntQueue`: the multiplexer of `kern/devmnt.c`. Any number
  of processes share a channel, one of them reads for all, interrupted requests grow
  chains of flushes.
- `Blocks`, `QueueSpec`, `Qio`, `MntRead`: blocks, block lists and queues of
  `kern/allocb.c` and `kern/qio.c`, and the cutting of a stream into messages in `mntrpcread`.
- `Wakeup`: sleep and wakeup of `kern/rendez.c` as one reader, one writer and a closer of a queue
  use them, in every interleaving.
- `QlockList`, `RwLock`: the queueing lock of `kern/qlock.c`, and the read-write lock of
  `kern/rwlock.c` built of two of these over the counted sleep of `kern/posix.c`.
- `TlsPad`, `TlsRecord`, `TlsChecks`, `TlsStream`, `TlsAhead`, `TlsIo`, `TlsSession`: the TLS record
  layer of `kern/devtls.c`, with ciphers and MACs given by their laws, down to the blocks the
  transport gives. Its requirements are those of sections 6.1, 6.2.1 and 6.2.3 of RFC 5246.
- `QidTable`, `ExportSpec`, `Export`, `ExportQids`: the table of unique paths and the tree of files
  of `exportfs`.
- `CleanSpec`, `CleanName`, `CleanMeaning`, `PathName`: names, cleaned in place or changed by one
  element, and where they lead.
- `ChanHeap`, `WalkSpec`, `Walk`: `walk` of `kern/chan.c` over counted channels, paths
  and mount heads.
- `MountSpec`, `MountLaws`, `Mounts`, `PgrpCopy`: mount tables with linked mount lists.
- `Wire`, `Fcalls`, `FcallBytes`, `Convmsg`, `Decodemsg`, `Dirent`, `DirentBytes`, `Convdir`: the 9P
  codec (Plan 9 Programmer's Manual, section 5, intro and stat).
- `Lrand`: the random number generator.

## How to read it

Each component has a specification on values, functions that say what a step or a call
does, and methods on objects, arrays and linked lists that are proved to do just that.
The main results are lemmas about the specification. Memory is `seq`-valued fields or
arrays; a linked list is a chain of objects with a ghost sequence of its members. Held
references in `Walk` are passed as a ghost multiset, so that a count is exact at every point:
what holds an object from outside plus the references of other objects.

What a specification function computes is fixed a second time, by laws that speak of its
arguments and results alone: which member of a union answers (`WalkSpec.UnionInOrder`,
`WalkSpec.StepIntoUnion`), where a reply goes (`MuxTheorems.DispatchAnswers`), which records
are let in (`TlsChecks.RecordLetIn`), what an unmount leaves (`MountLaws.UnmountAll`,
`MountLaws.UnmountOne`), which bytes a message has (`FcallBytes.WrittenAsLaidOut`) and where a
name leads (`CleanMeaning.CleanLeadsThere`).

`setjmp`/`longjmp` errors are result values. A section under a lock is one step of the
machines `Aan`, `Mux`, `Wakeup` and `RwLock`; what happens outside locks is cut into steps at each
access to shared state. Allocation does not fail. `ulong` and `long` have 32 bits, as
`include/lib.h` defines them.

Seven places where the code does less than its comments or its users suggest are stated as
exact conditions: an AAN close message numbered 2^32-1 is taken for a keep-alive
(`Aan.QuietMeansDelivered`, `Aan.CloseTakenForSync`); a failed send can leave all
other requesters of a mount channel asleep (`MuxTheorems.SendFailStrands`,
`MuxTheorems.SendFailureCanStrand`); a coalescing `qread` that drops empty blocks can leave
the writer asleep at an empty queue (`Wakeup.WriterNeverLost`,
`Wakeup.DroppedEmptiesLoseWriter`); `qflush` can lose the wakeup of a reader
(`Wakeup.FlushSafeExactly`, `Wakeup.FlushLosesReader`); a TLS record without payload is not
read when the transport cuts behind its header (`TlsSession.Session`,
`TlsSession.CuttingMatters`); a walk raises and leaks two references when it ends at a shared
channel that the device does not clone (`Walk.Namespace.Walk`, `Walk.Namespace.WalkRaises`); and
`convD2M` can write an entry that `statcheck` refuses (`Dirent.StatAccepts`). The comment at
`kern/allocb.c:32` speaks of HDRSPC bytes of room; `Blocks.HeadroomCanBe48` shows that 48 are
what is sure.

## Model

| member | source | states |
|---|---|---|
| Aan.DiffOfWrapped | aan.c:171 | the signed 32-bit difference of two wrapped counters is their true difference while it is below 2^31 |
| Aan.ReleaseUpTo | aan.c:173-179 | an acknowledgement inside the list frees exactly the buffers below it and leaves the rest |
| Aan.StepKeepsInv | aan.c:46-194 | every step of a writer, reader, syncer or redial of either end, and every cut of the link, keeps the numbering of what was sent, is in flight and was received |
| Aan.RunKeepsInv | aan.c:46-194 | the invariant holds after every run from the start |
| Aan.DeliveredIsPrefix | aan.c:67-186 | in every run, with the link cut anywhere and redialled any number of times, what an end writes to its pipe is a prefix of what the other end read from its own: nothing is lost, doubled or out of order, and an end of file comes only after all before it |
| Aan.QuietMeansDelivered | aan.c:46-194 | once a connection is up and nothing is in flight to a reading end, everything accepted has been delivered, if and only if the end is not waiting for a close message with number 2^32-1 |
| Aan.QuietMeansClosed | aan.c:153-186 | the close is not lost either: an end with an open pipe that a quiet connection leads to has passed on what came before the other end's end of file and then the end of file itself, exactly unless it waits for a close message with number 2^32-1 |
| Aan.RunTakes | aan.c:81-121 | in every run each end has accepted just the chunks its writer read from the pipe, in their order, and its pipe is open until the writer ends |
| Aan.AcknowledgeFrees | aan.c:171-181 | what a frame acknowledges is freed up to there, for every number the peer can have come to |
| Aan.FreedOnlyWhenAccepted | aan.c:171-181 | in every run the buffers an end still holds are exactly its messages from the first the peer may lack, and everything freed was accepted by the peer |
| Aan.SyncIgnored | aan.c:123-140 | the syncer puts one frame on a connection that is up, with the current acknowledgement, and a reader that gets it goes on as before |
| Aan.CloseTakenForSync | aan.c:158-161 | an empty frame leaves a reading end as it was exactly when its number is 2^32-1 |
| AanClient.BufList.Append | aan.c:102-106 | a buffer goes behind the linked list through the tail pointer, also when the list has run empty |
| AanClient.BufList.RemoveFirst | aan.c:173-176 | the head is unlinked and the rest of the list is as before |
| AanClient.BufList.Write | aan.c:67-75 | buffers are stamped with the current acknowledgement and written in order, up to the write that fails |
| AanClient.Client.Writer | aan.c:96-114 | one turn numbers a chunk, queues it and writes it: the step of the machine, and the frame on the wire exactly if the connection takes it |
| AanClient.Client.Enqueue | aan.c:97-106 | the chunk is numbered and queued before any write, so a failed write loses nothing |
| AanClient.Client.Reader | aan.c:153-186 | one frame does to the client what the receiving step of the machine does |
| AanClient.Client.Take | aan.c:165-185 | a data frame in turn counts, frees what it acknowledges and is delivered if the pipe is open |
| AanClient.Client.FreeAcked | aan.c:171-181 | the loop frees what Release says, and the assertion on the freed buffer's number holds |
| AanClient.Client.Redial | aan.c:53-76 | after any number of connections that fail in the middle, the last one carries the whole unacknowledged list in order with fresh acknowledgements |
| AanClient.Client.Resend | aan.c:67-75 | a connection that fails has carried a prefix of the list, and nothing of the list is lost |
| Mux.StepKeepsTables | kern/devmnt.c:718-1065 | every step of every process keeps the chain of flushes of each process linked, the queue free of repetitions and equal to the requests sent and not done |
| Mux.StepKeepsControl | kern/devmnt.c:742-926 | every step keeps who may read, who holds the lock, and that a sleeper whose request is done is about to be woken |
| Mux.StepAttends | kern/devmnt.c:742-1113 | every step but a failing send keeps that a given-up reader role finds someone |
| Mux.RoleGivenUp | kern/devmnt.c:742-889 | the reader role is given up only by a reader that goes on to mntgate |
| MuxTheorems.RunKeepsInv | kern/devmnt.c:718-1065 | the invariant holds in every reachable state, for any set of processes |
| MuxTheorems.AtMostOneReader | kern/devmnt.c:752-777 | at most one process reads a mount channel in any reachable state |
| MuxTheorems.CompletedHoldsOwnReply | kern/devmnt.c:891-972 | a request that is done holds the reply with its own tag, with the content in which it was read from the channel, or was given up for flushed, and that by its own process only (MuxTheorems.RunFlushesOwn); and a request is queued exactly between its sending and its end |
| MuxTheorems.DispatchAnswers | kern/devmnt.c:891-926 | a reply that was read goes to the queued request with its tag: it is done with just that reply and off the queue, its process is the reader itself or the one the reader is about to wake, and no other request or process changes; without such a request nothing does |
| MuxTheorems.RunFlushesOwn | kern/devmnt.c:948-972 | in every reachable state a request that holds Rflush though it was not answered so is the original request of its own process, which has cleaned it up after an interruption |
| MuxTheorems.AnswerStays | kern/devmnt.c:948-972 | however its process is interrupted afterwards, a request that has its answer keeps it until it is freed, unless the process found it unanswered before and is just giving it up |
| MuxTheorems.ReturnsWhatWasRead | kern/devmnt.c:718-789 | a process that sends no flush from entering mountio until it returns normally holds the reply with the tag of its request, as it was read from the channel |
| MuxTheorems.FlushChainReleased | kern/devmnt.c:718-1065 | when mountio returns or raises, however often it was interrupted, the process holds only its original request, done with its own reply or Rflush, and nothing of its flush chain is queued; a process that was not interrupted holds the reply (MuxTheorems.ReturnsWhatWasRead) |
| MuxTheorems.FlushNamesOriginal | kern/devmnt.c:932-946 | every flush of a chain, however long, carries the tag of the original request |
| MuxTheorems.NeverStranded | kern/devmnt.c:742-1113 | as long as failing sends leave somebody who can read, an unfinished requester never sleeps with nobody reading unless another one is awake to take over |
| MuxTheorems.SendFailAttends | kern/devmnt.c:746-751 | a failing send keeps the role attended exactly when someone reads, another requester is awake, or only those sleep that mntgate is about to look at |
| MuxTheorems.WithoutFailuresSpared | kern/devmnt.c:718-889 | so does a run in which no send fails |
| MuxTheorems.SendFailStrands | kern/devmnt.c:746-751 | a failing send strands the others exactly when nobody reads or gates, someone unfinished sleeps and the failing process was the only one awake |
| MuxTheorems.SendFailureCanStrand | kern/devmnt.c:718-889 | a concrete run of three processes that ends so |
| MntTags.Mntalloc.Settag | kern/devmnt.c:975-991 | setting a tag's bit changes that bit only |
| MntTags.Mntalloc.Freetag | kern/devmnt.c:993-997 | freeing a tag clears its bit only |
| MntTags.Mntalloc.Findtag | kern/devmnt.c:974-991 | the search finds a free tag, all words before it being full, or there is none |
| MntTags.Mntalloc.Mntralloc | kern/devmnt.c:999-1028 | a request gets a tag that no live or cached request has, never 0 or NOTAG, and fails only when all are in use |
| MntTags.Mntalloc.Mntfree | kern/devmnt.c:1030-1046 | a freed request's tag goes to the cache or back to the bitmap, and all others stay live |
| MntQueue.Mnt.Enqueue | kern/devmnt.c:742-745 | the request goes in front of the linked queue |
| MntQueue.Mnt.Mountmux | kern/devmnt.c:891-926 | the request with the tag of the reply read, if any, leaves the queue done and with that reply; when it is not the reader's own it also takes the receive buffer, and the reader is left without; no other request is touched |
| MntQueue.Mnt.Unlink | kern/devmnt.c:895-1065 | the link that leads to the request is found and the request taken out, the order of the others kept |
| Blocks.AllocbFits | kern/allocb.c:15-47 | alignment leaves at least 48 bytes before the data and the room asked for plus TLRSPC behind it, inside what was allocated, so the panic is not reached |
| Blocks.HeadroomCanBe48 | kern/allocb.c:15-47 | the room in front can be as little as 48 of the 64 bytes |
| Blocks.Pullupblock | kern/qio.c:159-216 | the first n bytes of a list come to lie in one block, the bytes of the list unchanged; null exactly when there are fewer |
| Blocks.Gather | kern/qio.c:179-213 | the loop ends with the block filled or the list used up, never overrunning the block |
| Blocks.Pull | kern/qio.c:180-212 | one round moves bytes from the second block to the first and unlinks it when it is empty, the bytes of the list unchanged |
| Blocks.Shift | kern/qio.c:186-197 | bytes move from the front of a block to the end of the one before it |
| Blocks.Splitblock | kern/qio.c:861-884 | a block is cut n bytes from its end, copying the shorter part, both parts holding their bytes |
| Blocks.Blocklen | kern/qio.c:111-122 | counts the bytes of a linked list |
| Blocks.Readblist | kern/qio.c:816-840 | copies the window of n bytes from an offset out of a list, or what there is of it |
| QueueSpec.TakeReadFlat | kern/qio.c:966-1042 | a stream read takes the first bytes of the queue and leaves exactly the rest |
| QueueSpec.CoalescedReadFills | kern/qio.c:1000-1030 | a coalescing read returns as much as was asked for, or everything |
| QueueSpec.OneBlockARead | kern/qio.c:914-1042 | a read that does not coalesce, and qbread, take one block: as much of it as was asked for, the excess staying in front on a stream and being lost on a message queue |
| QueueSpec.CoalescedMessages | kern/qio.c:995-1042 | a coalescing read of messages joins the first of them, no more than it takes to have n bytes, and loses what is over |
| QueueSpec.SkipsLeading | kern/qio.c:995-1002 | a coalescing read first drops exactly the empty blocks in front |
| QueueSpec.PiecesFlat | kern/qio.c:1146-1183 | a write to a stream is cut into pieces that together are the write, all of MAXATOMIC bytes but the last; of a message the first MAXATOMIC bytes are written |
| QueueSpec.StreamIsFifo | kern/qio.c:766-1183 | over every sequence of reads, writes, put-backs and closing, the bytes read are a prefix of those written, and until a close the rest is queued |
| QueueSpec.OneMessageARead | kern/qio.c:915-1183 | a message queue returns one message a read, in order, each cut to the length asked for |
| QueueSpec.StreamStep | kern/qio.c:915-1183 | one operation on a stream adds to the bytes read and written so that read plus queued is what was written |
| QueueSpec.MessageStep | kern/qio.c:915-1183 | one operation on a message queue takes exactly the first message or adds whole messages behind |
| Qio.Queue.Qaddlist | kern/qio.c:764-791 | a list is linked behind the queue and both counters grow by what it holds |
| Qio.Queue.Qremove | kern/qio.c:795-810 | the first block leaves the queue with its bytes, and the counters with it |
| Qio.Queue.Qputback | kern/qio.c:845-855 | a block goes back in front, and the counters with it |
| Qio.Queue.Qwait | kern/qio.c:738-760 | sleeps exactly on an empty open queue, after asking for a wakeup; a closed one is the end of file three times and then an error |
| Qio.Queue.Qwakeup | kern/qio.c:889-909 | a flow-controlled writer is woken exactly below half the limit, once |
| Qio.Queue.Qbread | kern/qio.c:914-960 | the block returned and the blocks left are those of the specification's step, for streams and messages; the writer is woken exactly when it was flow-controlled and the queue is now below half its limit |
| Qio.Queue.Qread | kern/qio.c:966-1042 | the bytes returned and left are those of the specification's step, across coalescing, splitting and put-back; the writer is woken as by qbread, and not when only empty blocks were dropped |
| Qio.Queue.Qbwrite | kern/qio.c:1080-1141 | a list is refused by a closed queue, dropped by a full one that does not wait, and otherwise queued, with the reader woken if it asked |
| Qio.Queue.Qflow | kern/qio.c:1055-1075 | a writer waits exactly on a full open queue that is not to be non-blocking, and has then asked for a wakeup |
| Qio.Queue.Qwrite | kern/qio.c:1146-1183 | a write appends its pieces in order; it leaves some out only on a non-blocking queue that is now full, and all of them when it is closed; a queue that took something no longer asks for a wakeup |
| Qio.Queue.Qdiscard | kern/qio.c:406-462 | throws away exactly the next n bytes, or all there are |
| Qio.Queue.Pullupqueue | kern/qio.c:221-233 | the queue's first n bytes come to lie in its first block, the bytes unchanged |
| Qio.Queue.Qclose | kern/qio.c:1257-1283 | drops what is held and leaves a closed queue that answers as one |
| MntRead.Reframes | kern/devmnt.c:791-874 | a concatenation of messages, however the transport chops it, is cut where the sender joined it: the k-th reply is the k-th message and what is left is what follows |
| MntRead.Verdicts | kern/devmnt.c:804-874 | a message is given exactly when it is there as a whole, not longer than agreed and parsed; a longer one is refused by its size alone |
| MntRead.Reader.Doread | kern/devmnt.c:791-802 | reads until n bytes are queued, losing none of the stream |
| MntRead.Reader.Frame | kern/devmnt.c:805-831 | finds the size and type of the next message and waits for all of it, or refuses one that is too big |
| MntRead.Reader.Parse | kern/devmnt.c:832-873 | the gathered header is parsed and exactly the message's bytes leave the queue |
| MntRead.Reader.Hang | kern/devmnt.c:843-866 | the rest of the message leaves the queue as a list, and what its last block has over goes back |
| MntRead.Reader.Mntrpcread | kern/devmnt.c:804-874 | one call returns the next message of the stream, header and data, and leaves exactly the bytes after it |
| Wakeup.AllocBetween | kern/allocb.c:15-47 | the allocation counted for a block is bounded by its size from both sides |
| Wakeup.ReaderTraffic | kern/qio.c:738-1042 | a read takes the first blocks but for the part put back, one that waits or ends has dropped empty blocks only, and nothing else the reader does touches the queue |
| Wakeup.WriterTraffic | kern/qio.c:1055-1183 | a write puts all its blocks behind the others exactly if the queue is open and not both full and non-blocking, and nothing else the writer does touches the queue |
| Wakeup.CloserTraffic | kern/qio.c:1257-1399 | a close and a flush drop everything and nothing else does; from a close or hangup on the queue is closed until it is reopened |
| Wakeup.WriterLeaves | kern/qio.c:1055-1075 | a writer that has written comes back only when the queue takes more, does not wait or has closed, and goes to sleep only on an open one |
| Wakeup.ReaderLeaves | kern/qio.c:738-760 | a reader that found nothing comes back only when there is something, the queue has closed or it was woken, and goes to sleep only on an empty queue |
| Wakeup.StepKeepsWriter | kern/qio.c:889-1141 | every step keeps that a sleeping writer is owed a wakeup when it should go on, but for a coalescing read that drops all there is, empty blocks, from a queue of limit 2 or more |
| Wakeup.StepKeepsReader | kern/qio.c:738-1141 | every step, and a flush if it is safe, keeps that a sleeping reader is owed a wakeup when there is something to read |
| Wakeup.WakeupNeverPanics | kern/rendez.c:8-88 | in no interleaving of a reader, a writer and a closer is the panic of wakeup or a double sleep reached |
| Wakeup.WriterNeverLost | kern/qio.c:889-1141 | in no run does the writer sleep on a closed queue or one drained below half its limit without a wakeup under way, exactly for the uses of a queue that do not coalesce, or never write an empty block, or have a limit below 2, or are non-blocking and never reopened |
| Wakeup.DroppedEmptiesLoseWriter | kern/qio.c:995-1002 | for every other use a run that ends with the writer asleep at an empty queue: qread has dropped its empty blocks without looking at the writer |
| Wakeup.StepKeepsUse | kern/qio.c:889-1396 | every step keeps the writer safe in the uses that do not lose it |
| Wakeup.ReaderNeverLost | kern/rendez.c:8-88 | the reader never sleeps on a closed or non-empty queue without a wakeup under way, in every run whose flushes are safe (with kern/qio.c:738-760) |
| Wakeup.FlushSafeExactly | kern/qio.c:1381-1399 | wherever a run with safe flushes has got to, one flush more lets the reader be lost later, with no further flush, exactly when it takes blocks away from an open queue while the reader is on its way to sleep, its request for a wakeup has been taken, no wakeup is coming that finds it registered, and the writer can write again |
| Wakeup.DoomedIsLost | kern/rendez.c:8-88 | from any state after such a flush, whatever the writer and the closers are at, a continuation in which the reader sleeps on while the queue is written |
| Wakeup.WithoutFlushSafe | kern/qio.c:1381-1399 | a run without qflush is such a run |
| Wakeup.FlushLosesReader | kern/qio.c:1381-1399 | a run in which a flush makes the reader sleep on a queue that is written again |
| QlockList.QLock.Queue | kern/qlock.c:6-18 | a process joins the linked queue at its end |
| QlockList.QLock.Dequeue | kern/qlock.c:20-32 | the first process leaves the linked queue |
| QlockList.QLock.Lock | kern/qlock.c:34-53 | a free lock is taken, and otherwise the process waits behind the others |
| QlockList.QLock.CanLock | kern/qlock.c:55-66 | succeeds exactly on a free lock |
| QlockList.QLock.Unlock | kern/qlock.c:68-87 | the lock passes to the first waiter, or becomes free if there is none |
| RwLock.StepKeepsInv | kern/rwlock.c:8-39 | every step of every process keeps the counted sleeps, the holders and the queues consistent (with kern/qlock.c:34-87 and kern/posix.c:143-169) |
| RwLock.RunKeepsInv | kern/rwlock.c:8-39 | so does every run, for any number of processes |
| RwLock.WriterExcludes | kern/rwlock.c:8-39 | in every interleaving a writer excludes all other writers and all readers |
| RwLock.ReadersHoldK | kern/rwlock.c:8-25 | outside the short sections, k is held for the readers exactly when there are any |
| RwLock.ServedInOrder | kern/qlock.c:6-87 | each lock is handed over in the order of queueing |
| RwLock.ReturnsHolding | kern/qlock.c:34-53 | a process that returns from qlock is the holder, though it slept |
| RwLock.QueuedOnce | kern/qlock.c:6-32 | a process is in one queue at most and there once, so its one link field serves all locks |
| RwLock.NoHandoverLost | kern/posix.c:143-169 | a sleeper that has been handed its lock has been woken or is about to be (with kern/qlock.c:68-87) |
| TlsPad.UnpadPadded | kern/devtls.c:2055-2094 | tlsunpad and sslunpad take off exactly the padding of blockpad for every non-empty input, and refuse an empty one; the padded length is a multiple of the block |
| TlsPad.Blockpad | kern/devtls.c:2083-2094 | pads in the buffer and touches nothing behind |
| TlsPad.Tlsunpad | kern/devtls.c:2055-2069 | the loop over the padding computes the length or refuses |
| TlsRecord.OpenSealed | kern/devtls.c:812-2290 | a record opens to its fragment under the same secret and sequence number, leaving both ends in the same state, for stream, block and AEAD ciphers, exactly when the record has a body to unpad |
| TlsRecord.OpenFits | kern/devtls.c:804-846 | what is opened lies inside what was received |
| TlsChecks.OpensAuthentic | kern/devtls.c:800-868 | a body is opened to a fragment exactly if it deciphers to IV, fragment, the MAC of the sequence number, the type, the version (not for SSL 3.0), the length and the fragment, and right padding, or under an AEAD cipher is accepted with these as additional data; every other body is refused |
| TlsChecks.RecordLetIn | kern/devtls.c:725-868 | a record is read exactly if its version and length are allowed, it is authentic under the sequence number it comes at, and its type is known or it is a change of ciphers that says 1 and has a secret to change to |
| TlsChecks.SealedBytes | kern/devtls.c:1236-1351 | a record sent is type, version and length in front of such a body, and the next one has the next sequence number |
| TlsChecks.Numbered | kern/devtls.c:1236-1351 | the i-th record after the first under a secret has the number i more |
| TlsStream.WriteKeepsOk | kern/devtls.c:1236-1351 | writing a record or changing the cipher keeps the state well formed |
| TlsStream.TlsOut.Tlsrecwrite | kern/devtls.c:1236-1351 | a write of any length goes out as records of at most MAXRECLEN bytes, each with the next sequence number |
| TlsStream.TlsOut.Changecipher | kern/devtls.c:1326-1733 | the change is announced under the old secret, and the next record is the first under the new one |
| TlsStream.ReadWritten | kern/devtls.c:725-1351 | the record at the front of a stream is read back with its type and content |
| TlsStream.StreamRoundTrip | kern/devtls.c:725-1351 | for any sequence of writes and cipher changes with matching secrets the reader recovers every fragment in order, and both ends finish alike |
| TlsStream.CutWhole | kern/devtls.c:1283-1299 | the fragments of a write are the write, all of MAXRECLEN bytes but the last and of the type of the write; an empty write is one empty fragment |
| TlsIo.TlsRec.Ensure | kern/devtls.c:595-623 | reads ahead until n bytes are there and no block more, losing none on interruption |
| TlsIo.TlsRec.Consume | kern/devtls.c:630-651 | takes exactly n bytes off the blocks read ahead |
| TlsIo.TlsRec.Regurgitate | kern/devtls.c:656-674 | gives bytes back in front, in the block's headroom or a new block |
| TlsIo.TlsRec.Qgrab | kern/devtls.c:679-702 | a block of exactly the next n bytes, without copying when it can |
| TlsIo.TlsRec.Tlsrecread | kern/devtls.c:725-868 | for any cutting of the transport into blocks one call reads the first record of the stream, with no block more than it needs, and leaves what follows; the record is authentic, its MAC or tag being right for the sequence number; an interrupted call leaves the stream as it was; it breaks exactly on an accepted header of length 0 with which the blocks read ahead end |
| TlsIo.TlsRec.Payload | kern/devtls.c:767-800 | an interruption gives the header back; there is no block to take exactly when the payload is empty and nothing has been read ahead |
| TlsIo.TlsRec.Process | kern/devtls.c:795-868 | decrypts in the block, accepts only what is authentic, and switches the cipher on a change |
| TlsAhead.AheadLean | kern/devtls.c:595-623 | reading ahead loses nothing and takes no block of the transport that is not needed |
| TlsAhead.EndsAtCut | kern/devtls.c:595-651 | what is read ahead for n bytes ends with them exactly if one of the transport's blocks does |
| TlsSession.BareExactly | kern/devtls.c:679-767 | the next record breaks the reader exactly if it is a header alone and a block of the transport ends with it |
| TlsSession.Session | kern/devtls.c:725-868 | for any conversation and any cutting of it into blocks every fragment comes back in order, and the reader ends in the writer's last state, exactly if no block ends just behind a record that is a header alone |
| TlsSession.CuttingMatters | kern/devtls.c:679-702 | a conversation with an empty write, a cutting in which it breaks the reader, and one in which it does not |
| QidTable.Turn | exportfs/exportfs.c:446-484 | n candidates in use need n entries |
| QidTable.FewEntries | exportfs/exportfs.c:446-484 | with fewer than 65535 entries the collision loop of uniqueqid ends |
| QidTable.EndsExactly | exportfs/exportfs.c:457-470 | some round of the loop comes to an unused path exactly if the path itself or one of its 65535 variants is free, wherever newqid stands |
| QidTable.Table.Qidlookup | exportfs/exportfs.c:419-430 | the one entry of a file, found by type, dev and path |
| QidTable.Table.Qidexists | exportfs/exportfs.c:432-443 | whether any entry has the path |
| QidTable.Table.Uniqueqid | exportfs/exportfs.c:445-484 | a file known gets another reference; a new one gets a path that no entry has, its own if that is free |
| QidTable.Table.Newpath | exportfs/exportfs.c:457-470 | the loop ends with an unused path if one of the candidates is free |
| QidTable.Table.Freeqid | exportfs/exportfs.c:397-417 | the entry goes with its last reference and no sooner |
| ExportQids.LookupCounts | exportfs/exportfs.c:445-484 | a lookup does to the counts that the file tree keeps what it does to the table, and paths stay distinct |
| ExportQids.GivingUpCounts | exportfs/exportfs.c:397-417 | so does giving up a reference, and no other path changes |
| ExportQids.PathsTellFiles | exportfs/exportfs.c:445-484 | files that are there have their entries, and two have the same path exactly if they are the same file of the host |
| ExportQids.PathStays | exportfs/exportfs.c:397-417 | removing one file leaves every other file its entry and path |
| ExportSpec.Reachable | exportfs/exportfs.c:244-272 | every file but the root is at or above the file of some fid: nothing leaks and nothing in use is gone (with exportfs/exportsrv.c:84-370) |
| ExportSpec.WalkedDown | exportfs/exportsrv.c:187-205 | names without ".." lead down, one below the other |
| ExportSpec.WalkedBack | exportfs/exportsrv.c:187-205 | a name and ".." behind it lead back, whatever came before |
| ExportSpec.WalkedUp | exportfs/exportsrv.c:187-205 | ".." takes off the last name walked |
| Export.DetachKeepsTree | exportfs/exportfs.c:249-270 | taking a childless file from its parent leaves a tree |
| Export.DetachKeepsBalance | exportfs/exportfs.c:249-270 | a file without fids or children has no children to orphan, and leaves one reference to give up on its parent |
| Export.Tables.Freefile | exportfs/exportfs.c:244-272 | the cascade ends, frees no file that is still referred to and never the root, and always finds the file among its parent's children |
| Export.Tables.GetFile | exportfs/exportfs.c:274-315 | the file of a name, known or new, with one reference more and its parent held by it |
| Export.Tables.Freefid | exportfs/exportfs.c:144-171 | the fid and its reference go, the others stay where they are |
| Export.Tables.Xattach | exportfs/exportsrv.c:84-135 | a new fid on the root, or nothing if the fid is in use |
| Export.Tables.Clonefid | exportfs/exportsrv.c:137-157 | the new fid is where the old one is, what it was on before being given up |
| Export.Tables.Advance | exportfs/exportsrv.c:187-205 | one name moves a fid up or to the file of that name, whose qid is returned, and no other fid; it does not exactly when the name is ".." at the root or the host does not have it |
| Export.Tables.WalkFid | exportfs/exportsrv.c:184-208 | the loop over the names moves the fid to where they lead up to the first that fails, with the qid of each file passed |
| Export.Tables.Xwalk | exportfs/exportsrv.c:159-218 | a walk goes as far as the names lead and returns a qid for each; a new fid exists afterwards exactly if the whole walk succeeded, and without one the fid has moved as far as that; it fails exactly when there is no such fid or there are names and the first leads nowhere |
| Export.Tables.Xclunk | exportfs/exportsrv.c:220-239 | the fid is gone and the others stay |
| Export.Tables.Xcreate | exportfs/exportsrv.c:295-336 | the fid moves to the created file, with the qid the host gives, or nothing changes |
| Export.Tables.Xremove | exportfs/exportsrv.c:338-370 | the fid goes exactly if the file was removed |
| Export.Tables.Xwstat | exportfs/exportsrv.c:372-410 | a rename keeps tree and counts |
| CleanSpec.CleanedElems | libc/cleanname.c:8-63 | a cleaned name has the elements of its stack, and is rooted as before |
| CleanSpec.CleanIdempotent | libc/cleanname.c:8-63 | cleaning twice is cleaning once, also for names that start with "#" |
| CleanMeaning.CleanLeadsThere | libc/cleanname.c:8-63 | a cleaned name leads to the directory that the name led to, from the root or from any other |
| CleanMeaning.CleanedForm | libc/cleanname.c:8-63 | a cleaned name has ".." only in front and not under the root, no "." but the one that is all there is or keeps a "#" from coming first, and no empty element |
| CleanName.Cleanname | libc/cleanname.c:8-63 | the in-place rewriting computes the stack specification, ends with a NUL inside the original length and writes nothing behind |
| CleanName.OneElem | libc/cleanname.c:21-52 | each round keeps the text equal to the stack so far, what is unread untouched |
| CleanName.Up | libc/cleanname.c:33-43 | ".." takes back exactly one element or adds itself where there is none to take |
| CleanName.Terminate | libc/cleanname.c:53-62 | an empty result becomes ".", and the "./" before a "#" always fits |
| PathName.AddProper | kern/chan.c:329-375 | adding an element to the text is adding it to the name |
| PathName.AddDotdot | kern/chan.c:293-375 | cleaning after ".." takes the last element off, keeps roots and device names |
| PathName.ThereAndBack | kern/chan.c:293-375 | an element followed by ".." gives back text, name and mount history |
| PathName.SlotsMatch | kern/chan.c:329-375 | the history has one slot more than the name has elements |
| ChanHeap.Raise | kern/chan.c:846-849 | a reference more keeps all counts exact |
| ChanHeap.Lower | kern/chan.c:414-428 | a reference less keeps all counts exact |
| ChanHeap.Free | kern/chan.c:377-428 | the last reference gone, nothing refers to the object, and what it held is left to be closed |
| ChanHeap.AnchoredRef | kern/chan.c:832-996 | what was there before a walk has a reference for each of its old holders beside the walk's own |
| ChanHeap.Restored | kern/chan.c:832-996 | when a walk holds nothing any more the state is the one before, counts and all |
| WalkSpec.AnswerFirst | kern/chan.c:889-925 | the member of a union that answers a batch of names is the one that answers the first name |
| WalkSpec.SegmentIsSteps | kern/chan.c:936-975 | the names of one message, stopped at the first mount point on the way or not, lead where single steps lead |
| WalkSpec.BatchesAreSteps | kern/chan.c:868-996 | walking up to sixteen names a message, with mount points, unions and "..", leads to the same file with the same history or the same error number as one name at a time |
| WalkSpec.BackAgain | kern/chan.c:760-934 | a step down and ".." lead back to the file and the history, though a mount was crossed and another member of the union answered |
| WalkSpec.StepIntoUnion | kern/chan.c:889-925 | a step from a file mounted upon leads where the first channel mounted there that does not refuse the name leads, and fails exactly if all refuse |
| WalkSpec.UnionInOrder | kern/chan.c:898-912 | from within a mount point the file itself is asked first and after it the rest of the list in order |
| WalkSpec.CrossesFirst | kern/chan.c:888-889 | a step from a file mounted upon is one from the first channel of the first head for it, the history noting the file |
| WalkSpec.AloneAnswers | kern/chan.c:889-925 | outside mount points only the file itself is asked |
| WalkSpec.UpLeads | kern/chan.c:926-934 | ".." takes the last slot off and leads to the file mounted upon that the slot before it names, which is emptied, or where the device says |
| WalkSpec.StepsChain | kern/chan.c:868-996 | a walk goes as far as its steps do, each from where the one before led |
| WalkSpec.SharedAtLast | kern/chan.c:868-980 | a walk ends with a channel that others have exactly if it has no names, or the last one is ".." and a mount was crossed where it leads |
| Walk.Namespace.Close | kern/chan.c:273-520 | giving up a reference, with all the frees it causes, keeps every count exact, frees nothing held elsewhere and changes nothing but counts |
| Walk.Namespace.Uniquepath | kern/chan.c:247-327 | a path that nobody else holds, same name and history, the shared one unchanged |
| Walk.Namespace.Addelem | kern/chan.c:329-375 | the path's name and history get or lose an element together, a copy being made of a shared path |
| Walk.Namespace.Findmount | kern/chan.c:727-758 | the first channel of the first head on the file, whose list is never empty, with its references, or no change |
| Walk.Namespace.Domount | kern/chan.c:760-788 | crossing a mount point leads where the specification says, the history noting the channel mounted upon |
| Walk.Namespace.Undomount | kern/chan.c:790-810 | the channel kept in the last slot replaces the one reached, and the slot is empty |
| Walk.Namespace.Ewalk | kern/chan.c:812-825 | a whole walk gives a new channel, a partial one none |
| Walk.Namespace.Union | kern/chan.c:898-912 | the rest of the union is asked in order, and the first member that does not refuse answers (WalkSpec.UnionInOrder) |
| Walk.Namespace.FirstMount | kern/chan.c:938-948 | the first mount point before the last name is found, with its references |
| Walk.Namespace.AddElems | kern/chan.c:969-975 | the names walked go to name and history, the last slot with the channel mounted upon |
| Walk.Namespace.Stage | kern/chan.c:868-982 | one round is one batch of the specification, or fails holding nothing |
| Walk.Namespace.Cclone | kern/chan.c:709-725 | a new channel for the same file with the same path |
| Walk.Namespace.Cunique | kern/chan.c:433-445 | a channel nobody else holds, for the same file; it fails exactly when the channel is shared and the device does not clone it |
| Walk.Namespace.Walk | kern/chan.c:827-996 | all or nothing: a refused walk leaves every channel, path and mount head as it was, counts included; one that goes through exchanges the caller's channel for one for the specified file, in a union the one the first answering member gives (Walk.Namespace.WayIntoUnion), with the specified history and name, all counts exact; it raises, with two references left over, exactly when it gets there, ends with a channel that others have, and the device does not clone that |
| Walk.Namespace.NewAlone | kern/chan.c:433-445 | a channel held once by a walk is nobody else's exactly if it is a new one |
| Walk.Namespace.WalkRaises | kern/chan.c:979-982 | a name space and a walk that raises |
| Walk.Namespace.WayBySteps | kern/chan.c:827-996 | the file and history a walk reaches, or the number of names it fails at, are those of single steps |
| Walk.Namespace.WayIntoUnion | kern/chan.c:889-925 | a walk of one name from a file mounted upon ends at the file of the first channel mounted there that does not refuse it, or gets nowhere exactly if all refuse |
| MountSpec.MountKeeps | kern/chan.c:522-637 | a mount keeps every head non-empty, files on files and directories on directories, and mount numbers distinct, also when a union's tail is copied |
| MountSpec.UnmountKeeps | kern/chan.c:639-707 | so does an unmount, which takes the head along with its last entry |
| MountSpec.RunKeepsTable | kern/chan.c:522-707 | so does every sequence of them: findmount's unchecked first entry is always there |
| MountSpec.UnmountUndoes | kern/chan.c:522-707 | unmounting what was just mounted in a union gives the old list back exactly when nothing before it in the list is found for it |
| MountSpec.ReplaceUndone | kern/chan.c:522-707 | unmounting what replaced a file leaves no mount point |
| MountSpec.CopyKeeps | kern/pgrp.c:81-125 | a copied table is a well-formed table |
| MountLaws.UnmountAll | kern/chan.c:667-684 | unmounting everything takes the file out of the table and leaves every other file as it was; it fails exactly if nothing was mounted there |
| MountLaws.UnmountOne | kern/chan.c:685-707 | unmounting a channel takes out the first entry that is or speaks through it, and the mount point with the last entry; it fails, changing nothing, exactly if the file is not mounted upon or has no such entry |
| MountLaws.MountPlaces | kern/chan.c:522-637 | a mount replaces the list, goes before it or behind it, with the rest of a union copied in order and numbered, a file not mounted upon being the first of its own union; exactly the mounts named are refused |
| Mounts.Mhead.Copyunion | kern/chan.c:591-604 | the other members of a union are mounted anew in order, with the flag for their place |
| Mounts.Mhead.Bind | kern/chan.c:590-633 | the linked list becomes the old list with the new entries replacing it, before it or behind it |
| Mounts.Mhead.Cut | kern/chan.c:679-683 | an entry is unlinked through the link that leads to it |
| Mounts.Mhead.Unbind | kern/chan.c:678-704 | the first entry for a channel, or for one it speaks through, leaves the list |
| Mounts.Pgrp.Lookup | kern/chan.c:570-666 | the one head of a file, in its hash chain |
| Mounts.Pgrp.Cmount | kern/chan.c:522-637 | the hash table and linked lists carry out MountSpec.Cmount, its errors included: what that leaves is said by MountLaws.MountPlaces |
| Mounts.Pgrp.Cunmount | kern/chan.c:639-707 | the hash table and linked lists carry out MountSpec.Cunmount, its errors included: what that leaves is said by MountLaws.UnmountAll and MountLaws.UnmountOne |
| PgrpCopy.Pgrpinsert | kern/pgrp.c:60-79 | the entry goes to its place by number in the linked order |
| PgrpCopy.Copylist | kern/pgrp.c:101-113 | a list is copied in its order while its entries go into the other order |
| PgrpCopy.Renumber | kern/pgrp.c:117-121 | the entries get consecutive new numbers in the linked order |
| PgrpCopy.RenumberedCopies | kern/pgrp.c:81-125 | numbers taken by rank keep the order of the old ones over the whole table |
| PgrpCopy.Pgrpcpy | kern/pgrp.c:81-125 | the new table has the same heads, lists, flags and channels; of any two mounts the later one is later there too, and all numbers are new |
| Wire.ArgRead | libc/convM2S.c:5-38 | any argument is read back from its bytes, whatever follows (with include/fcall.h:42-57) |
| Wire.ArgWritten | libc/convS2M.c:5-36 | what is read fits its counts and is written back as the same bytes (with include/fcall.h:42-57) |
| Fcalls.RoundTrip | libc/convS2M.c:193-386 | a message comes back from its bytes, whatever follows them, exactly when it has no nil string, no string over 65535 bytes and at most 16 names or qids (with libc/convM2S.c:50-315) |
| Fcalls.Reencoded | libc/convS2M.c:193-386 | an accepted message encodes to the bytes it came from exactly when no string there has a NUL in it (with libc/convM2S.c:50-315) |
| FcallBytes.WrittenAsLaidOut | libc/convS2M.c:193-386 | the bytes written are exactly those with the size at 0, the type at 4, the tag at 5 and then the fields of that type, little-endian, in the order and at the places of intro(5) |
| FcallBytes.ReadAsLaidOut | libc/convM2S.c:40-315 | such bytes, whatever follows them, are read as the message they lay out |
| Convmsg.SizeS2M | libc/convS2M.c:48-191 | the size of the message modulo 2^32, and 0 for what is no message |
| Convmsg.ConvS2M | libc/convS2M.c:193-386 | exactly the message is written, every field at its place (FcallBytes.WrittenAsLaidOut), as long as SizeS2M says, and nothing else; nothing is written if it does not fit |
| Decodemsg.Gstring | libc/convM2S.c:5-23 | a string is moved down over its count with a NUL behind it, inside its own bytes |
| Decodemsg.StringSeen | libc/convM2S.c:17-21 | what the pointer then shows is the string up to a NUL |
| Decodemsg.SeenStays | libc/convM2S.c:5-23 | a field goes on showing the same though later strings are moved |
| Decodemsg.Garg | libc/convM2S.c:64-306 | one argument is read inside its bounds and leaves the rest of the buffer as it was |
| Decodemsg.ConvM2S | libc/convM2S.c:40-315 | the buffer edited in place shows, through the fields filled in, the message that the bytes lay out (FcallBytes.ReadAsLaidOut); 0 exactly for what is no message; bytes behind it are left alone |
| Dirent.DirRoundTrip | libc/convD2M.c:24-95 | an entry is read back exactly when it has no nil string and none over 65535 bytes (with libc/convM2D.c:32-94) |
| DirentBytes.DirWrittenAsLaidOut | libc/convD2M.c:24-95 | an entry is printed as the bytes that have every number and string at the place that stat(5) gives it |
| DirentBytes.DirReadAsLaidOut | libc/convM2D.c:32-94 | such bytes, whatever follows them, are read as the entry they lay out |
| Dirent.StatAccepts | libc/convD2M.c:24-95 | statcheck accepts what the printer writes exactly when its size fits 16 bits (with libc/convM2D.c:5-28) |
| Dirent.StatReads | libc/convM2D.c:5-94 | what statcheck accepts is read to its end, and prints as it was exactly when no string has a NUL |
| Dirent.SizeD2M | libc/convD2M.c:5-22 | the size is the number of bytes of the printed entry |
| Convdir.ConvD2M | libc/convD2M.c:24-95 | the entry, or just its size when there is no room, or nothing when there is none for that |
| Convdir.Statcheck | libc/convM2D.c:5-28 | the walk over the four counts accepts exactly one entry that is as long as it says |
| Convdir.ConvM2D | libc/convM2D.c:32-94 | the numbers of the entry, and copies of its strings ended by NULs, or 0 exactly for what is no entry |
| Lrand.Times | libc/lrand.c:38-44 | the product with 48271 modulo 2^31-1 without leaving 32 bits |
| Lrand.NeverZero | libc/lrand.c:28-47 | no seed leads to 0 in any number of steps |
| Lrand.Oldest | libc/lrand.c:64-78 | the two words added are the numbers of 607 and 273 draws ago |
| Lrand.Rng.Isrand | libc/lrand.c:23-49 | any seed, negative or 0 too, fills the buffer with its sequence from the 21st number on |
| Lrand.Rng.Lrand | libc/lrand.c:59-83 | draws the next number of y(k) = y(k-607) + y(k-273) modulo 2^31, seeding with 1 if nobody did |
| Lrand.Rng.Nrand | libc/nrand.c:6-21 | the first number of the sequence above the slop, modulo n, which always comes, and within a number of draws that is the same for every n and seed; n itself when negative, 0 for 1 |
| Lrand.Doubles | libc/lrand.c:64-78 | as long as only numbers below 2^30 come, each is at least doubled 607*273 draws later |
| Lrand.NotAllLow | libc/lrand.c:64-78 | the numbers of a seeded generator never stay below such a bound: no 607 in a row are 0, and what is not 0 grows |
| Lrand.FirstAccepted | libc/nrand.c:15-20 | from any point of the sequence an acceptable number comes, for every n |
| Lrand.Fair | libc/nrand.c:15-20 | of the numbers accepted as many have one remainder as any other |

## Left out

- Sockets, dialling, host files, graphics, audio and the console are foreign calls; transports are lists of
  arrivals or steps of the environment.
- Cryptography is abstract: a cipher has an inverse, a MAC is a function.
- `kern/exportfs.c`, `kern/devssl.c`, `kern/devdraw.c`, `libc/fltfmt.c` and the print formatter are not part of this model.
- Aan.DeliveredIsPrefix: a connection on which a write failed is dead until it is redialled, and fewer than 2^31 messages are unacknowledged at a time.
- AanClient.Client.Writer: asks for fewer than 2^31 - 1 unacknowledged messages, as the signed comparison at aan.c:171 does.
- AanClient.Client.Redial: the time limit on dialling is not modelled.
- Mux.StepKeepsTables: a process may be noted at any time; the posting of notes itself is a stub in the source.
- Qio.Queue.Pullupqueue: the allocation counter is not promised to match afterwards, because the source does not adjust it.
- Qio.Queue.Qwrite: kick and bypass functions of a queue are not called.
- Blocks.Pullupblock: the memory of a block is a sequence-valued field; two blocks do not share memory in the source either.
- Wakeup.WriterNeverLost: one writer and one reader; with several writers in `qflow` one wakeup clears the flag for all of them. Setting the limit or the non-blocking flag of a queue in use, and notes that interrupt a sleep, are not steps.
- MntRead.Reader.Mntrpcread: messages of 2^31 bytes or more and an Rread too short for its count are an outcome of their own, after which nothing is promised; in the source they reach negative lengths.
- TlsStream.TlsOut.Tlsrecwrite: an empty write under a block cipher without MAC and IV is not described, since its record cannot be opened; TlsRecord.OpenSealed has the exact condition. What a write does in which connection state is not modelled.
- TlsIo.TlsRec.Tlsrecread: the SSL2 form of a ClientHello is an outcome of its own; after a record that breaks the reader nothing is promised, as the source then looks at a block that is not there. What is done with a record's content by type, alerts and connection states are not modelled.
- QidTable.Table.Uniqueqid: asks for a free candidate path, without which the loop of the source does not end (QidTable.EndsExactly).
- QidTable.Table.Freeqid: how many references a File holds on its entry is not modelled; `file` takes one at each lookup.
- Export.Tables.Xwalk: with the new fid equal to the old one a partial walk leaves the fid moved, as in the source.
- Export.Tables.GetFile: the host's answer about a name is a parameter; slaves, the mount points of other file systems and flushes are left out, and so is the overwriting of a File's qid by an opening slave.
- Walk.Namespace.Walk: the device's answer is a function of file and names. The error text is not modelled, the number of names for it is.
- ChanHeap.Free: the references that a channel has through `umc`, `mchan` and `mux` (kern/chan.c:391-402) are not modelled, and so neither are clones of mount-device channels, which have one more reference to the channel of the connection.
- Walk.Namespace.Close: gives up the path and the mount head of a channel, and not its `umc`, `mchan` and `mux`.
- WalkSpec.BatchesAreSteps: holds for names without ".", which name parsing takes out, for devices that answer as walk(5) says, and when devices say directory of a file just if a directory is mounted on it, as MountSpec.RunKeepsTable keeps it.
- Mounts.Pgrp.Cmount: the reference counts of the channels mounted are in `Walk` and not repeated here, and the locks of heads and groups are not modelled: a mount is one step. Setting MCREATE once more on the new entry, which has the flag already, is left out.
- PgrpCopy.Pgrpcpy: mount numbers do not wrap around.
- Fcalls.RoundTrip: the switch over message types is a table of argument kinds for both directions; the lengths of data are those of its count field.
- Convmsg.ConvS2M: for messages of less than 2^32 bytes; beyond that the 32-bit size wraps and the source writes past the bytes it was given. With too many names or qids it has written their count before it gives up.
- Decodemsg.ConvM2S: the fields a refused message has filled in before it was refused are not described.
- Lrand.Rng.Nrand: asks for n other than 0, which the source divides by. `frand`, `lnrand` and `truerand` are left out.
- `qget`, `qconsume`, `qpass`, `qproduce`, `qiwrite` and `qcopy` are variants of the queue operations modelled; `checkb` repeats conditions that every block here has; `checkstate` and the TLS connection states have no property beyond themselves.
- `closepgrp`, `dupfgrp`, `closefgrp` and the open and create modes of `namec` would add only easy members.
