# Verified model of cccp's transfer protocol

cccp sends files as 1024-byte chunks over UDP and builds reliability on top: a read semaphore bounds the
jobs in flight, sender tasks cache what they have sent, the receiving host confirms chunks in batches over a
reliable stream, and a requeue task sends again what is not confirmed in time. Two encrypted TCP streams carry
the control messages. This project models that protocol in Dafny and proves what it is for: every file arrives
byte for byte whatever the network does, permits and confirmations are conserved, the control session starts,
answers and ends every file, and a transfer can always come to its end as long as no writer and no reader fails.
After failures it can exactly when no reader has left the rest of its file to a writer that waits for it, and failed
writers have left the others a read permit and a packet receiver.

## How it is built

Two kinds of model meet in the middle.

- *Loops as they are.* The reader, the writer, the packet receiver, the batching task, the confirmation and
  requeue tasks, the sender task, the control stream and the controller are imperative methods and classes,
  proved against functions on values (`FileReader`, `FileWriter`, `Receiver`, `Confirmations`, `SenderState`,
  `SenderTask`, `ControlStream`, `Scheduler`, `ReceiverControl`, `Crypto.Host`).
- *Steps of the whole system.* `Transport` is a step system over all files, tasks, sockets and the network;
  `Session` is one over the two controllers and every byte on the control stream; `Transfer` puts the two
  together: a Start that is handled starts the writer, a StartIndex that is handled starts the reader, and a
  writer ends only with its file complete. Safety is an invariant of every step (`TransportSafety`,
  `SessionSafety`, `Transfer`), stated over whole runs in `TransportTheorems`, `SessionTheorems` and
  `TransferTheorems`; progress is a terminating strategy from every reachable state (`TransportProgress`,
  `SessionProgress`, `TransferTheorems`).
- `LoopsAreRuns`, `SchedulerRuns` and `ReceiverControl.HandledIsStep` join the two: what a loop computes when it is left alone is what a run of
  the steps computes, so what holds of every run holds of the loops.

| file | content |
|---|---|
| Bytes, StreamCipher, Chunks, Channels | bytes, big-endian integers, the positional keystream, chunk geometry and packets |
| ReaderSpec, FileReader | what a reader queues; the reader loop |
| WriterSpec, FileWriter, Receiver, Resume | what a writer computes; the writer loop; packet parsing and queues; stops and resumes |
| ReceiverControl | the receiving host's sorting of the manifest and its controller |
| Confirmations, SenderState, SenderTask, Ledger | the way of confirmations; the shared state of the sending host; the books |
| Transport, TransportSafety, TransportTheorems, TransportFlow, TransportProgress, LoopsAreRuns | the chunk transport |
| TransportFailures, FatalFailures | what failed writers and readers do to their own and to other files |
| ControlStream, Session, SessionSafety, SessionTheorems, SessionProgress | the control session |
| SessionFiles, SignatureRetry, SessionRetries | partial files, signatures, and the retry after a wrong one |
| Transfer, TransferTheorems, FatalTransfers | session and transport as one system |
| Scheduler, SchedulerRuns | the sender's controller |
| Base64, Crypto | the text form of keys and ivs, and the ciphers derived from it |

## What turned out to have a condition

- *Failing writers.* A writer that fails leaves its queue behind, and nobody stops the reader of its file. Its
  unconfirmed jobs keep their read permits for good, and once its queue is full every packet receiver that
  brings it a packet waits for ever. From any state the other files can finish without another failure exactly
  when their readers have not failed early, and a permit and a receiver are left or all their chunks have arrived
  (`TransportFailures.CanFinishIff`). If more may fail, a reader of a failed writer can give back the permit it
  holds, so that only the permits of jobs are lost for good (`TransportFailures.CanFinishAnyhowIff`). The permits can
  run out exactly when the files of failed writers have at least as many chunks as there are permits
  (`FatalFailures.StarvesIff`); and a failure can be fatal to another file exactly when both have a chunk to send
  (`FatalFailures.FailureFatalIff`). For the whole transfer, session included: it can still end exactly when
  failures have left that much (`TransferTheorems.CanEndIff`); while nothing has failed it always can
  (`TransferTheorems.NoDeadTransfer`); and failing writers can take that from it exactly when there is space and two
  remaining files have a chunk to send (`FatalTransfers.TransferFatalIff`).
- *Failing readers.* A source file that cannot be opened or read ends its reader, and the sending host only logs it.
  The other files keep their permits and receivers, but the file's own writer waits for ever for the chunks that
  were not read (`TransportFailures.CanFinishIff`), and the session with it. So with readers that may fail, a transfer
  can get stuck exactly when there is space and some remaining file has a chunk to send
  (`FatalTransfers.FailureFatalIff`).
- *Resuming.* The partial file is opened for appending, so the seek before writing does not redirect writes.
  A partial file that is a source prefix resumes to the source exactly when its length is a multiple of 1024
  (`Resume.ResumeExactIff`). Stops before the final flush keep it so, unless they come in the middle of a chunk
  that is on its way to the disk (`Resume.StopsAreHarmless`, `Resume.TornIff`); a stop between the final flush
  and the rename need not.
- *Wrong signatures.* The writer of a file with a wrong signature sends Failure 0 and its wrapper then sends
  Failure 2 for the same file. The first report starts the file again and the second ends it while its second
  writer is at work. A Start handled after both reports are out is answered with zero and finds no partial file
  (`SessionRetries.RetryStartsAfresh`); one handled between them opens the very content that had the wrong
  signature (`SessionRetries.RetryTooEarly`). A session can close on a writer at work exactly when there is enough
  space and the partial file of a remaining signed file, with the source from its start index on behind it, has
  another hash than the signature (`SignatureRetry.ClosesEarlyIff`). Such a file is one whose partial file ends
  inside a chunk (`SessionFiles.BadStartIff`), for example a single byte that was written but not renamed
  (`SessionFiles.OneByteTwice`). Without a wrong signature no session does (`SessionTheorems.SessionCompletion`).
- *The read buffer.* Files of every size are cut into full chunks and one last chunk exactly when the capacity
  of the read buffer is a multiple of the chunk size, or below it, so that reads go past the buffer
  (`ReaderSpec.AlignedIffMultiple`).
- *One cipher for two directions.* A frame written at one keystream position and read at another comes back,
  whatever it says, exactly when the keystream repeats itself there (`ControlStream.FrameNeedsStep`). The session
  works because it is strictly half-duplex, which is proved of every run (`SessionTheorems.LockStep`).
- *Text form.* The parser ignores what follows a third colon, so printing gives back the parsed text exactly when
  it had three parts and a capital name (`Crypto.ParseThenPrint`).

## Assumptions

- A file of the transport is sent in one attempt and does not change meanwhile; its start index is not above
  its size, and its size and id fit the header. The job limit, the number of socket pairs and the limit of
  concurrent transfers are at least one.
- Refilling the read buffer takes as many bytes as fit or all that are left.
- Nobody but the writers changes the partial files, and a partial file is looked for and opened in one step.
- Datagrams arrive whole or not at all, and any packet ever sent on a socket may arrive at its peer any number of
  times, at any time, or never. A cached job may expire at any step. A writer may fail at any step, with or
  without the arrival it has just taken out of its queue, and a reader before its first read or at any read.
- In `Transfer`, signatures are those of the sources and partial files are source prefixes in whole chunks, so
  that no signature is wrong.
- The two TCP streams are reliable and ordered, and cut their bytes wherever they like.
- The message encoding reads back the messages this session writes, and they are shorter than 2^32 bytes.
- The upper-case form of a cipher's name is the name, and random bytes come in the number asked for.

## Model

| member | source | states |
|---|---|---|
| Bytes.CryptTwicePositions | src/cipher.rs:15-33 | Encrypting at one position and decrypting at another returns every text of a length if and only if the keystream does not tell the two stretches apart |
| Bytes.TextRevealsKeys | src/cipher.rs:15-33 | A single text that survives encryption at one position and decryption at another already forces equal keystreams there |
| Bytes.XorBit | src/cipher.rs:29-32 | Bit i of a byte combined with a keystream byte differs from bit i of the byte if and only if the keystream byte has a one there |
| Bytes.PlainCrypt | src/cipher.rs:96-103 | A text is left as it is if and only if the keystream is zero along it |
| Bytes.BigEndian | src/cipher.rs:90-93 | Byte i of the encoding of a number is its digit to the base 256, the most significant first |
| Bytes.FromToBE | src/sender/reader.rs:31-39 | A number that fits is recovered from its big-endian bytes |
| Bytes.ToFromBE | src/receiver/mod.rs:257-258 | Big-endian bytes are recovered from the number they denote |
| StreamCipher.StreamCipher.ApplyKeystream | src/cipher.rs:29-32 | In place, the range is combined by exclusive or (`Bytes.XorBit`) with the keystream from the current position on, the rest is untouched, and the position advances by the bytes combined |
| StreamCipher.StreamCipher.Seek | src/cipher.rs:24-27 | The next byte will use the given position |
| Chunks.HeaderRoundTrip | src/receiver/mod.rs:256-259 | A packet parses to an id and index if and only if its first twelve bytes are their header |
| Chunks.HeaderLayout | src/sender/reader.rs:29-39 | The header is twelve bytes: four of id and then eight of index, each with the most significant byte first |
| Chunks.ParsedHeader | src/receiver/mod.rs:256-259 | Every packet parses to an id below 2^32 and an index below 2^64, of which its first twelve bytes are the header |
| Chunks.DecryptPayload | src/receiver/writer.rs:181-187 | The part of a payload inside the file decrypts to the source bytes of its chunk, whatever stale bytes follow |
| Chunks.NextBoundary | src/receiver/writer.rs:182-186 | A chunk ends at the next chunk boundary or the end of the file, with no chunk starting in between |
| ReaderSpec.FillBufferGood | src/sender/reader.rs:38-57 | Whatever the reused buffer held behind its id, the packet made of it is a good packet for its chunk, and what lies behind the chunk is what the buffer held there |
| ReaderSpec.CutJobs | src/sender/reader.rs:35-63 | The j-th job queued is the good packet of the j-th chunk, and there are as many jobs as permits and chunks allow |
| ReaderSpec.CutCovers | src/sender/reader.rs:35-63 | With enough permits the jobs cover every chunk from the start index on exactly once, in order |
| ReaderSpec.FinishCost | src/sender/reader.rs:36-47 | A reader gets to its end if and only if there is one permit more than chunks |
| ReaderSpec.AlignedIffMultiple | src/main.rs:53-55 | All files are cut into full chunks and one last chunk if and only if the read buffer is a multiple of the chunk size or smaller than a chunk |
| FileReader.BufferedSource.Read | src/sender/reader.rs:41-42 | A read through an aligned buffer returns the whole chunk at the offset and keeps the buffer aligned |
| FileReader.NewPacket | src/sender/reader.rs:29-31 | The packet buffer holds the four bytes of the id and zeros |
| FileReader.FillPacket | src/sender/reader.rs:38-49 | Header, read and encryption together turn the buffer into that of the chunk at the index, with cipher and source advanced alike |
| FileReader.Read | src/sender/reader.rs:15-66 | The loop queues exactly the jobs its permits allow, uses up one permit for each, and ends with a permit given back at the end of the file |
| WriterSpec.FeedPosition | src/receiver/writer.rs:106-143 | After any arrivals the position is the first boundary missing from the set received |
| WriterSpec.FrontierMeaning | src/receiver/writer.rs:106-143 | The first missing boundary is the one boundary that was not received while all before it were |
| WriterSpec.FeedTracks | src/receiver/writer.rs:100-143 | For arrivals with any indexes, everything received is behind the position or cached, and the chunk at the position is not cached |
| WriterSpec.ArriveIssues | src/receiver/writer.rs:109-130 | Every arrival not behind the position is confirmed once, a late duplicate never |
| WriterSpec.ArriveKeepsInv | src/receiver/writer.rs:106-143 | A chunk keeps the file a source prefix, the cache beyond the position and the confirmed indexes equal to those written or cached, and accepts exactly that chunk |
| WriterSpec.DrainKeepsInv | src/receiver/writer.rs:132-142 | Draining leaves only chunks beyond the position in the cache, accepts and confirms nothing new, and keeps the file a source prefix |
| WriterSpec.FeedKeepsInv | src/receiver/writer.rs:106-143 | The same after any sequence of chunks |
| WriterSpec.FeedStops | src/receiver/writer.rs:106-107 | What arrives after completion changes nothing |
| WriterSpec.ExitState | src/receiver/writer.rs:143-147 | When the loop exits the cache is empty and the output is the source |
| WriterSpec.FeedGrows | src/receiver/writer.rs:88 | Whatever arrives, the write buffer never overflows and the disk is only appended to |
| WriterSpec.PutMeans | src/receiver/writer.rs:88 | What is put into the buffer comes behind its content, and the disk moves exactly when 102400 bytes would be exceeded, by all that was buffered |
| WriterSpec.SameChunksSameFile | src/receiver/writer.rs:106-143 | Two sequences with the same set of chunks give the same position and the same source prefix, whatever the order and repetition |
| WriterSpec.CompleteIffAllReceived | src/receiver/writer.rs:106-143 | The loop exits if and only if every chunk from the start index on has arrived |
| FileWriter.PartialFile.WriteAll | src/receiver/writer.rs:187 | Data goes behind what is buffered, which is written out first when it would overflow |
| FileWriter.PartialFile.Flush | src/receiver/writer.rs:147 | Everything buffered is on the disk |
| FileWriter.WriteData | src/receiver/writer.rs:174-188 | The part of the chunk inside the file is decrypted at the position and appended, and position and cipher advance alike |
| FileWriter.WriteCached | src/receiver/writer.rs:132-142 | The inner loop is the drain of the specification |
| FileWriter.TakeArrival | src/receiver/writer.rs:107-142 | One arrival has the effect of the specification, with its confirmation on the channel exactly when it is due |
| FileWriter.WriteLoop | src/receiver/writer.rs:86-143 | The loop on any arrivals leaves file, position, cache and confirmations as specified and takes no more arrivals than it needs |
| FileWriter.Write | src/receiver/writer.rs:72-170 | The whole task: a complete file is flushed, and renamed and announced with End if and only if it came without a signature or its hash is the signature, removed and reported with Failure 0 and 2 otherwise; if the signature is the hash of a source from which the hash tells the content apart, it is renamed if and only if its content is that source |
| FileWriter.WriteFile | src/receiver/writer.rs:72-170 | Fed with chunks of a file, it is complete if and only if all arrived and renamed if and only if, besides, there is no signature or it is the hash of the source; it leaves the source on disk if it is renamed, and a source prefix up to the first missing chunk until then |
| Receiver.SplitQueue.PushQueue | src/receiver/writer.rs:25-30 | A file gets an empty queue |
| Receiver.SplitQueue.PopQueue | src/receiver/writer.rs:32-35 | The queue of a file is gone and no other changes |
| Receiver.SplitQueue.Send | src/receiver/writer.rs:42-50 | An arrival is queued last for its file, or refused without a change when there is no queue or it is full |
| Receiver.Receive | src/receiver/mod.rs:242-283 | Every queue grows by exactly the packets of its file in order; the loop gives up at the given number of failures without a packet between them, and takes nothing in after them |
| Receiver.FailuresCounted | src/receiver/mod.rs:251-275 | The failures that count are all errors and timeouts since the last packet, or since the start |
| Receiver.ArrivalsInOrder | src/receiver/mod.rs:251-265 | What arrives for a file in one stretch and then another is what arrives in the first with what arrives in the second behind it |
| Receiver.ArrivalOfOne | src/receiver/mod.rs:256-261 | A packet is one arrival, of the payload behind its twelve bytes, for the file of its header and for no other |
| Receiver.GoodPacketArrives | src/receiver/mod.rs:256-261 | A good packet is handed to its file as the chunk it carries |
| Resume.EventKeepsInv | src/receiver/writer.rs:78-143 | Taking in a chunk, writing one from the cache, and stopping to start again each keep the file a source prefix with whole chunks on disk |
| Resume.EventsAreArrival | src/receiver/writer.rs:107-142 | Taking in a chunk and then emptying the cache is what the writer's loop does with the arrival |
| Resume.EventDrains | src/receiver/writer.rs:132-142 | Writing one chunk from the cache is one round of the writer's inner loop |
| Resume.LastBoundary | src/receiver/mod.rs:478-487 | The start index is a multiple of 1024, not above the length of the partial file, and less than 1024 below it |
| Resume.TornIff | src/receiver/writer.rs:147 | A stop in the middle of emptying the write buffer leaves a file to resume from if and only if whole chunks had reached the disk |
| Resume.StopsAreHarmless | src/receiver/mod.rs:478-487 | Through any number of stops before the final flush, between any two chunks that reach the disk, the disk holds a source prefix whose length is the start index, and a complete file flushes to the source |
| Resume.StopLosesMemory | src/receiver/writer.rs:78-92 | After a stop the next attempt, with its own keystream, begins with an empty cache behind exactly what had reached the disk |
| Resume.DiskGrows | src/receiver/writer.rs:78-84 | Through any number of chunks and stops, what has once reached the disk stays there |
| Resume.CompleteAppends | src/receiver/writer.rs:78-92 | A complete attempt appends the source from the start index on behind whatever the file held |
| Resume.ResumeExactIff | src/receiver/mod.rs:478-487 | A source prefix of any length resumes to the source if and only if its length is a multiple of the chunk size |
| Confirmations.GroupKeepsKeys | src/receiver/mod.rs:377-391 | Grouping by file keeps every (id, index) pair with its multiplicity |
| Confirmations.GroupKeepsOrder | src/receiver/mod.rs:382-388 | A message has an entry for exactly the files confirmed, and in each the indexes of the file in the order of their confirmations |
| Confirmations.ForwardInOrder | src/receiver/mod.rs:395-400 | A confirmation issued goes behind all others, and moving one to the pending vector changes nothing about their order |
| Confirmations.Batcher.Collect | src/receiver/mod.rs:395-400 | Everything on the channel moves behind what is pending, in order |
| Confirmations.Batcher.SendPending | src/receiver/mod.rs:371-393 | A tick sends nothing when nothing is pending, and otherwise exactly what is pending in one message |
| Confirmations.HandleTransit | src/sender/mod.rs:412-422 | Handling one pair takes exactly it out of what is in transit and keeps issued equal to in transit and handled |
| Confirmations.TickTransit | src/receiver/mod.rs:371-393 | Batching changes nothing about what is in transit, and adds one message behind the others, or none when nothing is pending |
| Confirmations.ReceiveTransit | src/sender/mod.rs:408-412 | Messages are taken up in the order they were sent, each with all its pairs, and nothing about what is in transit changes |
| SenderState.ConfirmAllEffect | src/sender/mod.rs:407-425 | The effect of a message depends on its multiset of keys only: cached jobs are done once each with a permit back, all other confirmations are remembered |
| SenderState.RequeueAllEffect | src/sender/mod.rs:375-402 | A requeue pass queues again, in order, exactly the expired jobs still cached and not confirmed meanwhile, and settles the others with a permit each |
| SenderState.Sender.HandleMessage | src/sender/mod.rs:408-424 | Walking through the map of a message in any order has that effect |
| SenderState.Sender.RequeueExpired | src/sender/mod.rs:386-402 | The loop over expired keys has that effect |
| SenderTask.GivesUpIff | src/sender/mod.rs:182-208 | A sender task gives up if and only if the limit of sends has failed in a row, never earlier, and goes on otherwise while there are jobs |
| SenderTask.AttemptsKeepJobs | src/sender/mod.rs:184-202 | Queued and sent jobs together stay the same jobs, sent jobs are cached, and permits, counters and lost confirmations are untouched |
| SenderTask.AttemptsInOrder | src/sender/mod.rs:186-192 | Jobs are tried first come, first served: the queue, followed by the jobs put back, is the jobs tried, followed by what is left; those sent are the tried ones that did not fail, in order |
| SenderTask.SendingTask.Run | src/sender/mod.rs:173-209 | The loop has the effect of its attempts one by one and reports giving up exactly at the limit |
| Ledger.ProduceBalanced | src/sender/reader.rs:51-62 | Queueing a new chunk keeps the books: permits, live jobs and what has arrived |
| Ledger.SettleBalanced | src/sender/mod.rs:419-421 | A confirmation that finds its job keeps the books |
| Ledger.MissBalanced | src/sender/mod.rs:415-418 | A confirmation that misses its job keeps the books |
| Ledger.SettleLateBalanced | src/sender/mod.rs:391-396 | An expired job that was confirmed outside the cache keeps the books |
| TransportSafety.StepInv | src/sender/mod.rs:173-431 | Every step of readers, senders, network, writers and confirmations keeps the global invariant |
| TransportSafety.RunInv | src/sender/mod.rs:173-431 | Every run keeps it |
| TransportTheorems.Exactness | src/receiver/writer.rs:106-143 | In every run, whichever writers fail, every partial file is the source up to the position, and the source once its writer is done |
| TransportTheorems.NoChunkLost | src/sender/mod.rs:184-202 | Every chunk of a started file is not read yet, or live in exactly one place, or accepted by its writer; a job is retired only after its chunk arrived |
| TransportTheorems.NoJobCirculates | src/sender/mod.rs:389-421 | A live job whose chunk arrived has a confirmation in transit or remembered, and nothing is confirmed that has not arrived |
| TransportTheorems.PermitConservation | src/sender/reader.rs:36-62 | Free permits, permits held and live jobs add up to the job limit, and confirmed and live jobs to the jobs produced, with no job live twice |
| TransportTheorems.CacheInsertIsNew | src/sender/mod.rs:193-196 | Caching a job never overwrites an entry |
| TransportTheorems.ConfirmationConservation | src/receiver/mod.rs:368-399 | Every pair the writers issued is, with its multiplicity, in the channel, pending, in a message, being handled, or handled |
| TransportTheorems.RateBound | src/sender/mod.rs:434-448 | In any stretch of a run send attempts are at most its ticks, a thousand, and one per task |
| TransportTheorems.PermitsBuildUp | src/sender/mod.rs:437-448 | While nothing is sent every tick brings one more permit, up to a thousand |
| TransportProgress.NoDeadState | src/sender/mod.rs:173-431 | From every reachable state in which no writer has failed and no reader before the end of its file some continuation completes every started file, with no job left and every permit back |
| TransportProgress.FinishStarted | src/sender/mod.rs:173-431 | While a read permit and a packet receiver are left, the tasks at work finish every started file whose writer has not failed and whose reader has not cut it short, and keep both |
| TransportFailures.CanFinishIff | src/receiver/writer.rs:106-148 | From every reachable state, whatever has failed, given files whose writers have not failed can all be finished without another failure if and only if none of their readers failed before the end, and a permit and a receiver are left or their chunks have arrived |
| TransportFailures.CanFinishAnyhowIff | src/sender/reader.rs:35-62 | With further failures they can be finished if and only if none of their readers failed before the end, and the jobs of failed writers have not taken all permits nor their queues all receivers, or their chunks have arrived |
| TransportFailures.CutNeverDone | src/sender/mod.rs:338-344 | A file whose reader failed before its end is never finished, whatever happens |
| TransportFailures.QueueStays | src/receiver/writer.rs:106-107 | When a writer fails its queue stays behind, less the arrival it may have taken, and in every run from there on nothing is ever taken out of it again |
| TransportFailures.NeverDone | src/receiver/mod.rs:261-264 | Where no permit or no receiver is left, no continuation finishes a file that has not arrived, unless a reader that fails gives a permit back |
| FatalFailures.StarvesIff | src/sender/mod.rs:389-401 | Failures of writers of given files can take every read permit, for good or until a reader fails, if and only if these files have at least as many chunks as there are permits |
| FatalFailures.FailureFatalIff | src/receiver/writer.rs:42-50 | Failures of writers of given files can leave another file beyond every continuation if and only if one of them and another file both have a chunk to send |
| LoopsAreRuns.ReadingIsRun | src/sender/reader.rs:35-63 | The reader loop on its own is a run of the steps |
| LoopsAreRuns.WritingIsRun | src/receiver/writer.rs:106-143 | The writer loop on what is queued for it is a run of the steps |
| LoopsAreRuns.SendingIsRun | src/sender/mod.rs:184-202 | A sender task's attempts are a run of the steps, one send permit each |
| LoopsAreRuns.ReceivingIsRun | src/receiver/mod.rs:242-283 | The packet receiver's loop on packets it finds room for is a run of the steps |
| LoopsAreRuns.HandlingIsRun | src/sender/mod.rs:412-422 | Handling a message pair by pair is a run of the steps |
| LoopsAreRuns.RequeueingIsRun | src/sender/mod.rs:389-402 | A requeue pass is a run of the steps |
| ControlStream.WriteCarries | src/cipher.rs:49-60 | Writing on a quiet stream puts exactly the encrypted frame on its way |
| ControlStream.FrameLayout | src/cipher.rs:90-93 | A frame is four bytes of length, the most significant first, and the message |
| ControlStream.ArriveCarries | src/cipher.rs:73-77 | Wherever the network cuts it, exactly the rest of the message stays on its way |
| ControlStream.LengthCarries | src/cipher.rs:79-83 | The length read is the length written, decrypted where it was encrypted |
| ControlStream.BodyCarries | src/cipher.rs:62-71 | The message read is the message written, and the stream is quiet with both ends at the same position |
| ControlStream.FrameNeedsStep | src/cipher.rs:35-38 | A frame survives a difference between the ends' positions, whatever it says, if and only if the keystream repeats itself there |
| ControlStream.FrameReadBack | src/cipher.rs:62-71 | A message can be read if and only if all of its frame has arrived; it is the one written and what follows it is left alone |
| ControlStream.CipherStream.WriteAll | src/cipher.rs:85-88 | What leaves is the buffer encrypted at the stream's position |
| ControlStream.CipherStream.ReadExact | src/cipher.rs:73-77 | What comes is the next bytes decrypted at the stream's position, and no more are taken |
| ControlStream.CipherStream.WriteMessage | src/cipher.rs:49-60 | Length and message leave as one encrypted frame |
| ControlStream.CipherStream.ReadMessage | src/cipher.rs:62-71 | A message is returned when it has arrived, and otherwise the stream stands where it can go on |
| SessionSafety.StepInv | src/sender/mod.rs:211-308 | Every step of both controllers, the network and the writers keeps the session's invariant |
| SessionSafety.RunInv | src/receiver/mod.rs:285-353 | Every run keeps it |
| SessionTheorems.LockStep | src/cipher.rs:35-94 | In every run the two positions differ by exactly the bytes in flight, and these are in one direction only |
| SessionTheorems.MessagesReadBack | src/cipher.rs:49-71 | In every run a message that can be read is the one on its way, on both ends |
| SessionTheorems.ReadersFollowWriters | src/sender/mod.rs:319-341 | In every run a reader was given the index the last writer of its file was started with, retries included |
| SessionTheorems.HandshakeAgreement | src/receiver/mod.rs:71-89 | Both hosts agree on the remaining files, every Start names one of them, and nobody meets an unexpected message unless space ran out |
| SessionTheorems.FirstMessage | src/receiver/mod.rs:56-67 | The receiving host goes on with a manifest for which there is space, refuses one without, closes on Done 0, and fails on anything else |
| SessionTheorems.FirstAnswer | src/sender/mod.rs:62-85 | The sender strikes the completed files, ends with Done 1 if and only if they are all it has, and fails on any other answer |
| SessionTheorems.StartIsAnswered | src/receiver/mod.rs:297-339 | Handling a Start starts one writer, which opens the partial file or an empty one, and sends one StartIndex: zero if the partial file is missing now or was at an earlier Start, and otherwise the one first found |
| SessionTheorems.SchedulerOrder | src/sender/mod.rs:220-308 | In every run the ids started are the remaining ones no longer waiting, once each and ascending, at most the limit active, none both waiting and active, and a report awaited only with a file active |
| SessionTheorems.StepOwed | src/sender/mod.rs:247-301 | Every step but a wrong signature keeps one writer or one report outstanding for each file in charge, and none for any other |
| SessionTheorems.SessionCompletion | src/receiver/mod.rs:297-349 | Without a wrong signature a file is active exactly while its writer or last report is outstanding, and Done is sent and handled only when every remaining file has ended, with no writer at work and no report left |
| SessionTheorems.DoneZeroIff | src/sender/mod.rs:49-56 | In every run the sender, once past its first message, has finished with Done 0 if and only if the manifest has neither files nor directories, and in no other session is Done 0 on its way or handled |
| ReceiverControl.SortManifest | src/receiver/mod.rs:71-131 | In whatever order the manifest comes, the completed ids are those that exist, once each, and every other file starts at the last multiple of 1024 that its partial file reaches, or at zero without one |
| ReceiverControl.Strike | src/sender/mod.rs:65-72 | The sender is left with its files less the completed ids, details unchanged |
| ReceiverControl.SameFilesLeft | src/receiver/mod.rs:158-160 | What the sender keeps and what the receiving host expects are the same files |
| ReceiverControl.Controller.Handle | src/receiver/mod.rs:297-349 | A known Start is answered with its start index, taken back to zero for good once the partial file is missing; an unknown one is ignored; Done 1 and 2 close; the rest is unexpected |
| ReceiverControl.HandledIsStep | src/receiver/mod.rs:297-349 | The session's step on a message is what the controller does with it |
| ReceiverControl.ControllerInSession | src/receiver/mod.rs:285-353 | In every run the receiving host does what its controller does, started on the sorted manifest and kept up to date by its own handling, and never meets an unknown Start or an unexpected message |
| SessionProgress.NoDeadSession | src/sender/mod.rs:220-308 | As far as messages go: from every reachable state without a wrong signature, with writers that end or fail when it is their turn, both hosts come to the end with every remaining file ended |
| SessionProgress.Finish | src/sender/mod.rs:220-308 | With writers that end or fail when it is their turn, the session comes to rest, by a measure over the handshake, the files left, the counter's gap and what is on its way |
| SessionFiles.RunPristine | src/receiver/writer.rs:78-92 | Without a wrong signature every file is opened once at most, by a writer that finds the index and the content there were in the beginning |
| SessionFiles.BadStartIff | src/receiver/mod.rs:478-487 | A partial file that is a source prefix makes the signature wrong if and only if it ends inside a chunk, under a hash that tells the two contents apart |
| SessionFiles.OneByteTwice | src/receiver/writer.rs:78-84 | A file of one byte that was written but not renamed gets the byte twice, and a wrong signature |
| SessionRetries.RetryStartsAfresh | src/receiver/mod.rs:308-316 | In every run, once a writer has sent its last report and renamed or removed its file, and until the file is opened again, there is no partial file; a Start handled then is answered with zero and its writer begins with an empty file, so that what it completes is the source |
| SessionRetries.RetryTooEarly | src/receiver/writer.rs:154-158 | In every run a Start handled between the two reports of a wrong signature opens the content that had it, at the old start index |
| SessionRetries.WrongIsNotRenamed | src/receiver/writer.rs:151-163 | What the session holds to be a wrong signature is what the writer of the file finds: once it has written everything, the content is the session's, and its hash is not the signature |
| SessionRetries.WriterOutcome | src/receiver/writer.rs:147-169 | A writer that has written everything can end in the session if and only if the hash of what it wrote is the signature, or there is none, and then sends End; otherwise it can only report Failure 0 with the content still there, and then Failure 2 with the file removed |
| SessionRetries.ReportsInOrder | src/receiver/mod.rs:410-419 | In every run the sender handles the reports of all writers in the order they were sent, each once |
| SignatureRetry.ClosesEarlyIff | src/receiver/writer.rs:151-163 | A session can close on a writer at work if and only if there is space and a remaining file's partial content, with the source from its start index on behind it, does not have its signature |
| SignatureRetry.NothingToMismatch | src/receiver/writer.rs:151-163 | Without space or without such a file no run has a wrong signature |
| SignatureRetry.CanCloseEarly | src/receiver/mod.rs:327-334 | For every such file there is a run, from the start of the session, that closes on a writer at work |
| Transfer.StepInv | src/receiver/mod.rs:300-339 | Every step of session and transport together, failing writers and readers included, keeps both invariants, and a writer at work in the one at work in the other |
| TransferTheorems.ClosedDelivers | src/receiver/mod.rs:340-349 | When the receiving host has closed after Done, every remaining file whose writer did not fail equals its source; all do if none failed |
| TransferTheorems.CanEndIff | src/receiver/mod.rs:327-338 | From every reachable state, whatever has failed, the transfer can end on both hosts without another failure if and only if no reader has cut short a file whose writer has not failed, and a permit and a receiver are left or all other remaining files have arrived |
| TransferTheorems.NoDeadTransfer | src/sender/mod.rs:220-308 | While nothing has failed the transfer can end, with every remaining file delivered unless there was no space |
| FatalTransfers.TransferFatalIff | src/receiver/mod.rs:327-338 | Failures of writers can leave a transfer unable to end without another one if and only if there is enough space and two different remaining files have a chunk to send |
| FatalTransfers.FailureFatalIff | src/sender/mod.rs:338-344 | With readers that may fail as well, one remaining file with a chunk to send and enough space are what it takes, and no less |
| Scheduler.RoundCloser | src/sender/mod.rs:224-243 | Every round of the start loop brings the largest waiting key minus the counter down, and the counter passes no waiting file |
| Scheduler.StartsTheLowest | src/sender/mod.rs:224-243 | The start loop starts the lowest waiting ids, once each and ascending whatever the gaps, as many as there is room for |
| Scheduler.ServedOrder | src/sender/mod.rs:220-308 | On any reports the controller waits only with a file active, keeps its limit and order, and is done if and only if nothing waits or is active |
| Scheduler.Controller.StartRound | src/sender/mod.rs:225-242 | One round moves the file at the counter with its details, or passes a gap |
| Scheduler.Controller.StartFiles | src/sender/mod.rs:224-243 | The loop terminates with the books of the specification, every file keeping its details |
| Scheduler.Controller.HandleReport | src/sender/mod.rs:249-297 | End and Failure 2 end a file, Failure 0 restarts it exactly when it is active, anything else changes nothing |
| Scheduler.Controller.Serve | src/sender/mod.rs:211-308 | The main loop on any reports leaves the books, the restarts and the outcome of the specification |
| SchedulerRuns.StartLoopIsRun | src/sender/mod.rs:224-243 | The start loop, each start answered, is a run of the session |
| SchedulerRuns.ReportIsRun | src/sender/mod.rs:247-301 | Handling a report, with the answer to a restart, is a run of the session |
| SchedulerRuns.ServingIsRun | src/sender/mod.rs:211-308 | The main loop on the reports that have come is a run of the session, up to Done or to waiting for the next report |
| Base64.DecodeIff | src/options.rs:293-303 | A text decodes to given bytes if and only if it is their encoding |
| Base64.SymbolTable | src/options.rs:321-322 | The symbols are those of table 1 in section 4 of RFC 4648, in their order |
| Base64.Rfc4648Vectors | src/options.rs:321-322 | The encoding is that of section 4 of RFC 4648, by the vectors of its section 10 |
| Base64.EncodedSize | src/options.rs:321-322 | Four symbols for three bytes, rounded up, and no padding |
| Base64.EncodedHasNoColon | src/options.rs:321-326 | The alphabet does not contain the separator |
| Crypto.ParsesTo | src/options.rs:285-315 | A text is read as a value if and only if its first part is the name in any case and the next two are the encodings of a key and an iv of the right lengths, or are missing and were drawn |
| Crypto.PrintThenParse | src/options.rs:318-332 | Printing and parsing returns a value if and only if its cipher is known and its key and iv have the right lengths |
| Crypto.ParseThenPrint | src/options.rs:285-332 | Parsing and printing returns the text if and only if it had three parts and a capital name |
| Crypto.ErrorsIff | src/options.rs:285-315 | Each error of the parser comes up exactly in its case: an unknown name, else a part that is no encoding, else a key of the wrong length, else an iv of the wrong length |
| Crypto.ParsedLengths | src/items.rs:58-75 | What is parsed has the key and iv lengths of its cipher, whether they were given or drawn |
| Crypto.CipherTable | src/items.rs:58-89 | Each of the six ciphers has its name in text, its number in messages, and its key and iv lengths in bytes |
| Crypto.CipherIs | src/cipher.rs:131-144 | The keystream is the library's for the cipher, the whole key and the whole iv; the plain cipher's is zero |
| Crypto.StreamIs | src/cipher.rs:107-144 | The k-th stream has the library's keystream for the cipher, the whole key and the iv drawn k times, each time seeded with the big-endian value of the first eight bytes of the one before |
| Crypto.SameStreamIff | src/cipher.rs:131-144 | The k-th streams of two hosts have the same keystream if and only if the library has the same one for their ciphers, keys and k-th ivs |
| Crypto.Host.OpenStream | src/main.rs:639-664 | A stream gets the library's keystream for the present cipher, key and iv, or a zero one with the plain cipher; the next iv is what the generator draws when seeded with the first eight bytes of this one, and the port moves on |
| Crypto.Host.OpenStreams | src/main.rs:278-281 | The two streams, opened in order on consecutive ports, get the library's keystreams for the key and the first and the second iv |
| Crypto.StreamsAgree | src/cipher.rs:107-144 | A host that got its parameters as text opens every control stream with the keystream of the host that printed them, which is the library's for the key and the iv of that stream, or zero with the plain cipher |

## Left out

- Connecting: SSH, SFTP, the installer and its downloads, and starting the remote host.
- The command line, IoSpec and rate parsing, progress output and logging.
- Cipher internals (AES in counter mode, section 6.5 of NIST SP 800-38A; ChaCha, section 2.4 of RFC 8439), the
  seeded generator and BLAKE3: a keystream, a generator and a hash are arbitrary functions.
- The protobuf encoding: messages are values with an encoding that reads back.
- Building the manifest, crawling and creating directories, and computing free space, which is one boolean.
- Contents of a second attempt in the transport: `Session` covers the messages, indexes and partial files of a
  retry and `FileWriter.Write` its reports, `Transport` the chunks of the first attempt.
- What a write that fails leaves behind in the middle of a chunk, and a partial file that is removed between the
  check for it and its opening.
- In `Transport` a failed send puts its job back and no task gives up, which `SenderTask` and `Receiver` model task
  by task.
- Short datagrams, which the receiver would parse with what the buffer held before.
- The two maps of the writer queues, which are always changed together: one map here.
- Cancellation by the user, and the sleeping and waking of tasks: a task that waits is a step that is not enabled.
- Statistics other than the confirmed packets, and the routing of incoming messages by their type.
- Overflow of counters: ids, ports and the scheduler's counter are unbounded.
- FileReader.Read: opens and reads its file without an error; a reader that fails is a step of `Transport`.
- Receiver.Receive: ends at the first packet for a full queue; the wait that follows, and its end or not, is a
  step of `Transport`.
- SessionProgress.NoDeadSession: takes for granted that a writer can end or fail when it is its turn; what that
  takes is `TransferTheorems.CanEndIff`.
- SessionProgress.Finish: the same.
