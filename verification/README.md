# Models of the RDK GStreamer elements' algorithms and protocols

A Dafny 4.11 model of the parts of these GStreamer elements that are algorithms or protocols of their own, and proofs
about it. `dafny verify dfyconfig.toml` checks everything.

| files | component |
|---|---|
| `httpsrc_threads`, `_safety`, `_wakeups`, `_eos`, `_theorems`, `_shutdown`, `_unreported`, `_races` | the HTTP source: session, flow-timer, streaming and stopping threads as a state machine, one step for each mutex, test, wait or signal |
| `httpsrc_queue` | the HTTP source's linked block queue and the copying loop that fills it, as a class |
| `crc`, `crc_detects`, `crc_bursts` | the section CRC of MPEG-2: table, byte loop, and what it detects, byte by byte and bit by bit |
| `psi`, `pmt_print`, `pmt_parse`, `pmt_fits`, `psi_tracker`, `psi_theorems`, `psi_entries`, `psi_streams`, `psi_examples`, `dtcpenc` | dtcpencrypt: parser and printer of program map tables, the tracker of program tables, and the element as a class |
| `dtv_pat`, `ring_spec`, `ring_theorems`, `ring_overflow`, `dtvsource` | dtvsource: the table it makes, the ring buffer between its two threads, and the element as a class |
| `scte52_spec`, `scte52_theorems`, `scte52_processor` | the AES decryptor: CBC with its two kinds of termination block, as functions and as classes that work in place |
| `rbi_list`, `rbi_threads` | the ad insertion filter: its flattened list as a class, its threads as a state machine |
| `httpsink_chunks`, `httpsink`, `hex`, `hexkey` | chunk framing with a decoder of section 7.1 of RFC 9112, the sink as a class, and keys read from text |

Where the source changes fields or arrays in place, a class or a method does the same and its contract equates the new
state with a function of the old one; the properties are proved of those functions. Where threads interact, the state
machine's steps are the source's own, and theorems hold after every schedule.

## Where the code falls short of what one would expect

Each entry names the lemma or contract that states it: an exact condition, a concrete run or input, or both.

- HTTP source, losing the end. When the session ends normally and `create` leaves through its empty-queue check, everything
  received is delivered if and only if no producer that had slept on not-full was still short of its stop test when `create`
  raised the flag (`EndOfStreamIsComplete`; a run that loses a byte: `LastBlockCanBeLost`).
- HTTP source, shutting down. `create` raises the flag after it has released the queue mutex
  (src/httpsrc/gsthttpsrc.c:1372-1377). From its signal on it can finish if and only if no producer had found the queue full
  and was about to sleep at that moment (`ShutdownWorksExactly`); then it does finish whatever the threads' turns
  (`ShutdownTerminates`), and if one was, `create` can hang in front of the flow mutex, which is the only place where a
  `create` on its way out ever does (`StuckOnlyIfLate`; a run that ends so: `EndOfStreamCanDeadlock`). The hand-over in
  `gst_http_src_stop` has the other order and misses nobody.
- HTTP source, reporting the end. The session thread sets the paused flag without signalling not-empty and then joins the flow
  timer thread, which runs until a stop (src/httpsrc/gsthttpsrc.c:1685-1725). A `create` that sleeps through this can leave its
  loop, without a stop or a wait that returns unasked, if and only if some received byte is undelivered; otherwise the end is
  never reported (`EndIsReportedExactly`; a run that ends so: `EndCanGoUnreported`).
- HTTP source, flush. A flush leaves the current block in place with offset zero: afterwards no block is empty exactly if
  there was none (`Queue.FlushQueue`; an element that has one: `FlushAfterPartialBlock`).
- dtvsource, overflow. The device stores before the accounting, so of a read into too little space the overflow test sees
  nothing exactly if a grant makes up for the missing space, and the first byte granted is then the wrong one unless the
  device happened to store the same (`OverflowUnnoticed`); a clean run leads there from any start (`OverflowHappens`). A read
  is harmless exactly if it fits the space there is as it happens (`ReadKeepsExactly`). Equal pointers always count as a full
  buffer, so a grant is right only under the condition of `GrantExactly` (a grant of bytes nobody
  wrote: `EmptyGrantTakesBytes`; a clean run to one past the end: `FullGrantCrossesEnd`).
- dtcpencrypt, streams. Of a rewritten table's streams only those of the types its parser has a list for are sent on; MPEG-1,
  MPEG-4 and H.264 video are not among them. All streams survive if and only if none is of another type
  (`PsiEntries.RewritingKeepsMeaning`; a packet whose only stream vanishes: `StreamIsDropped`). The program's descriptors,
  and all of a stream's but the last language of an audio stream, are dropped from every table.
- dtcpencrypt, languages. A language descriptor of 31 bytes without a zero survives parsing but not printing and parsing again
  (`RewritingKeepsListings`, `ReadsBackExactly`; a packet with one: `LongNameIsLost`).
- dtcpencrypt, adaptation fields. The cached table replaces every packet that starts a payload on the table's PID, also one with
  an adaptation field, whose announcement in byte 3 it keeps (src/dtcpencrypt/gstdtcpenc.c:1164-1182): what is sent can be parsed
  if and only if the packet had a payload and no such field (`SentTable`, `BufferChanges`; a legal packet spoilt: `AdaptedTableIsSpoilt`).
- Ad insertion filter. An item added while the element is not playing is pushed at once, past whatever the last playing period
  left in the queue; nothing else changes the order (`OrderKeptExactly`, `OverallOrder`; a run: `OvertakingHappens`).
- HTTP sink. An empty buffer is framed as the last chunk: what was sent comes back if and only if no empty buffer precedes one
  with data (`ChunksComeBack`; two buffers: `EmptyBufferEndsEarly`).
- AES decryptor. The text of a key need not be digits: `AcceptedExactly` says which texts are taken, `ValueExactly` that those
  of digits alone are the ones that mean their value (`MoreThanDigits` has two that are taken and do not).

## Model

| member | source | states |
|---|---|---|
| HttpSrcSafety.NextKeeps | src/httpsrc/gsthttpsrc.c:2105-2344 | every step of every thread keeps: each mutex is held by the thread whose program point says so, blocks have their sizes, no byte is lost or out of order before a stop |
| HttpSrcSafety.CopyKeepsSizes | src/httpsrc/gsthttpsrc.c:2142-2201 | a turn of the copying loop makes progress and leaves a current block only when all data is copied: the assertion in the loop holds |
| HttpSrcTheorems.EveryRun | src/httpsrc/gsthttpsrc.c:1250-1483 | after every schedule of session, timer, streaming and stopping threads all invariants hold |
| HttpSrcTheorems.NothingIsLost | src/httpsrc/gsthttpsrc.c:2142-2256 | after every schedule without a stop: delivered, taken, queued, in-flight, current and uncopied bytes are what curl handed over, in order, once; the read position is the delivered length |
| HttpSrcTheorems.BackPressure | src/httpsrc/gsthttpsrc.c:2297-2331 | the byte count is the sum of the queued blocks and at most five blocks; the current block has room |
| HttpSrcTheorems.NoLostWakeups | src/httpsrc/gsthttpsrc.c:1294-1320 | a thread asleep on a condition has reason to be or its signal is pending; producer and consumer never both sleep for good |
| HttpSrcTheorems.StopNeverMissesAProducer | src/httpsrc/gsthttpsrc.c:1221-1231 | once stop has signalled, no producer sleeps on not-full and none will |
| HttpSrcShutdown.CreateMissesExactlyLateSleepers | src/httpsrc/gsthttpsrc.c:1372-1377 | once create has signalled, a producer sleeps on not-full, or will, if and only if one had passed the stop test and not yet gone to sleep when the flag went up |
| HttpSrcShutdown.StuckOnlyIfLate | src/httpsrc/gsthttpsrc.c:1366-1483 | after every schedule: create on its way out is stuck only in front of the flow mutex, behind a sleeping producer that was late in that sense |
| HttpSrcShutdown.ShutdownWorksExactly | src/httpsrc/gsthttpsrc.c:1372-1388 | after every schedule: when create signals, the late producer is still where it was; and unless stop is called or a wait returns unasked, create can come to its end if and only if there is none |
| HttpSrcShutdown.ShutdownTerminates | src/httpsrc/gsthttpsrc.c:1366-1483 | and if there is none, every sequence of steps that change something is bounded, and ends with create done |
| HttpSrcTheorems.StreamingNeverDeadlocks | src/httpsrc/gsthttpsrc.c:1275-1320 | without a stop all threads are stuck only if downstream does not pull, create has failed, or create sleeps on an empty queue with no producer inside: it waits for data or, once the session is over, for a signal that EndIsReportedExactly says may not come |
| HttpSrcUnreported.EndIsReportedExactly | src/httpsrc/gsthttpsrc.c:1685-1725 | after every schedule, once the session is over and waits for the timer, create sleeps and nobody has asked for a stop: create can leave its loop without a stop or a wait that returns unasked if and only if some received byte is undelivered, and otherwise sleeps through everything else |
| HttpSrcTheorems.EndOfStreamIsComplete | src/httpsrc/gsthttpsrc.c:1309-1483 | after a normal end everything is delivered if and only if no stale waiter existed when the flag went up |
| HttpSrcEndOfStream.NextKeepsEos | src/httpsrc/gsthttpsrc.c:1366-1483 | every step keeps what the end of stream relies on: one final block, in one place |
| HttpSrcWakeups.NextStaysAwake | src/httpsrc/gsthttpsrc.c:2297-2344 | every step keeps the sleeping conditions and both hand-overs |
| HttpSrcRaces.LastBlockCanBeLost | src/httpsrc/gsthttpsrc.c:2315-2319 | a run that ends normally in which the last byte is never delivered |
| HttpSrcRaces.EndOfStreamCanDeadlock | src/httpsrc/gsthttpsrc.c:1372-1377 | a run in which the session ends normally, five blocks are queued and no thread can move |
| HttpSrcRaces.EndCanGoUnreported | src/httpsrc/gsthttpsrc.c:1685-1725 | a run in which the session ends normally, everything is delivered, and create sleeps on with no thread able to move |
| HttpSrcQueue.Queue.constructor | src/httpsrc/gsthttpsrc.c:502-513 | an empty queue without a current block |
| HttpSrcQueue.Queue.UnlinkHead | src/httpsrc/gsthttpsrc.c:1277-1292 | the head leaves the list, the count stays the sum of the rest |
| HttpSrcQueue.Queue.TakeHead | src/httpsrc/gsthttpsrc.c:1277-1356 | the head's bytes move from the queue to what is delivered; everything accepted stays the same sequence |
| HttpSrcQueue.Queue.LinkTail | src/httpsrc/gsthttpsrc.c:2321-2331 | the list grows by one element at the tail and stays well formed and within five blocks |
| HttpSrcQueue.Queue.BufferReady | src/httpsrc/gsthttpsrc.c:2278-2344 | TRUE: the block is behind everything accepted before; FALSE: nothing was queued and a stop is requested |
| HttpSrcQueue.Queue.FillBlock | src/httpsrc/gsthttpsrc.c:2144-2184 | the block holds the current bytes and then the data; room is left only when the data is used up |
| HttpSrcQueue.Queue.CopyTurn | src/httpsrc/gsthttpsrc.c:2142-2201 | one turn accepts the next stretch of data and the assertion holds; on refusal exactly one full block is lost |
| HttpSrcQueue.Queue.DataReceived | src/httpsrc/gsthttpsrc.c:2106-2275 | what is accepted is behind what was there before, all of it unless a stop is requested; the result is the whole size whenever the session has started |
| HttpSrcQueue.Queue.FlowTimerExpired | src/httpsrc/gsthttpsrc.c:2240-2256 | there is no current block any more; its bytes are queued behind the rest, or lost once a stop is requested |
| HttpSrcQueue.Queue.FlushQueue | src/httpsrc/gsthttpsrc.c:2351-2367 | only delivered bytes remain; the current block is without bytes exactly if there is one |
| HttpSrcQueue.FlushAfterPartialBlock | src/httpsrc/gsthttpsrc.c:2351-2367 | data shorter than a block, then a flush: the element is left with an empty current block |
| Crc.InitTable | src/dtcpencrypt/gstdtcpenc.c:70-84 | every entry of the table is the register after eight bits of its index |
| Crc.TableWord | src/dtvsource/gstdtvsource.c:922-937 | the inner loop ends after eight turns with that entry |
| Crc.SentinelStops | src/dtvsource/gstdtvsource.c:930-933 | the loop variable is the stop value exactly after eight turns |
| Crc.Feed | src/dtcpencrypt/gstdtcpenc.c:86-96 | the table loop computes the shift register of Annex A of ISO/IEC 13818-1 |
| Crc.TableStepIsByteStep | src/dtvsource/gstdtvsource.c:939-950 | one table step is eight bit steps, and the index is in the table |
| Crc.RegisterAppend | src/dtcpencrypt/gstdtcpenc.c:817-827 | feeding in pieces is feeding at once |
| Crc.BitStepLinear | src/dtcpencrypt/gstdtcpenc.c:70-84 | a bit step is linear in register and input |
| CrcDetects.RegisterInjective | src/dtcpencrypt/gstdtcpenc.c:86-96 | no message loses a difference of registers |
| CrcDetects.FourBytesInjective | src/dtcpencrypt/gstdtcpenc.c:86-96 | four different bytes leave different registers |
| CrcDetects.BurstIsDetected | src/dtcpencrypt/gstdtcpenc.c:70-96 | messages of one length that differ only within four consecutive bytes have different CRCs |
| CrcBursts.RegisterIsBits | src/dtcpencrypt/gstdtcpenc.c:86-96 | the register of a message is that of its bits, fed one by one |
| CrcBursts.BitBurstIsDetected | src/dtcpencrypt/gstdtcpenc.c:70-96 | messages of one length that differ only within 32 consecutive bits, wherever these start, have different CRCs |
| CrcDetects.RemainderIsZero | src/dtcpencrypt/gstdtcpenc.c:817-832 | a message followed by its CRC leaves zero |
| CrcDetects.OnlyTheCrcFits | src/dtvsource/gstdtvsource.c:907-913 | and no other four bytes do |
| Psi.SectionChecks | src/dtcpencrypt/gstdtcpenc.c:817-832 | every section either generator closes passes Annex A |
| Psi.PutCrc | src/dtvsource/gstdtvsource.c:909-913 | the four CRC bytes, most significant first, and nothing else |
| DtvPat.CreatePat | src/dtvsource/gstdtvsource.c:876-920 | the whole packet: header, section, CRC, stuffing |
| DtvPat.StampContinuity | src/dtvsource/gstdtvsource.c:815-821 | one byte changes; the counter wraps at 256 |
| DtvPat.InjectedCarriesCount | src/dtvsource/gstdtvsource.c:811-828 | the nth injected table carries n modulo 16, also across the wrap, with its section untouched |
| DtvPat.PatChecks | src/dtvsource/gstdtvsource.c:876-920 | every injected table passes Annex A |
| PmtPrint.DescriptorCarries | src/dtcpencrypt/gstdtcpenc.c:747-768 | two control bytes give the same descriptor exactly if they agree on five bits and, for copy-free content, on the sixth |
| PmtPrint.NeverRefused | src/dtcpencrypt/gstdtcpenc.c:683-712 | no listing the parser makes needs the fourth packet that makes the printer refuse |
| PmtPrint.PrintedChecks | src/dtcpencrypt/gstdtcpenc.c:715-832 | the section of every printed table passes Annex A |
| PmtParse.ParsedIsSound | src/dtcpencrypt/gstdtcpenc.c:1003-1112 | at most eight streams a class, each in its class, thirteen-bit PIDs, names of at most 31 bytes without a zero |
| PmtParse.TableReadBack | src/dtcpencrypt/gstdtcpenc.c:997-1112 | every header field and every stream list printed is parsed again, and the parser takes the table exactly if it is small enough |
| PmtParse.ReadsBackExactly | src/dtcpencrypt/gstdtcpenc.c:1046-1075 | of the listings the parser makes, those without a name of 31 bytes come back from printing, and any other leads the parser out of its array |
| PsiTracker.PatKeeps | src/dtcpencrypt/gstdtcpenc.c:899-949 | a program association table keeps the fields consistent |
| PsiTracker.PmtKeeps | src/dtcpencrypt/gstdtcpenc.c:967-1145 | a program map table keeps the fields consistent |
| PsiTracker.ExamineKeeps | src/dtcpencrypt/gstdtcpenc.c:890-1187 | every packet keeps: haveNewPMT implies havePMT implies havePAT, and a new table is the tracked program's |
| PsiTracker.BufferKeeps | src/dtcpencrypt/gstdtcpenc.c:889-1196 | so does every buffer, and its length stays |
| PsiTheorems.EveryRun | src/dtcpencrypt/gstdtcpenc.c:845-1196 | the same after any run of buffers since the element was made |
| PsiTheorems.OnlyTablesChange | src/dtcpencrypt/gstdtcpenc.c:1164-1182 | only starts of tables on the table's PID change, and they keep stamp, PID, start flag and the continuity byte |
| PsiTheorems.SentTable | src/dtcpencrypt/gstdtcpenc.c:1164-1182 | what replaces a table carries the tracked program, version and clock PID and passes Annex A; the parser's guards accept it, and a receiver finds it, if and only if the replaced packet's adaptation control was one |
| PsiTheorems.RewritingKeepsListings | src/dtcpencrypt/gstdtcpenc.c:997-1127 | a first table, or one of another version, is taken at once; the table sent has its version, clock PID and program, and the element's own parser finds its lists in it exactly if no name has 31 bytes |
| PsiEntries.ParsedEntries | src/dtcpencrypt/gstdtcpenc.c:1014-1095 | each list of the parser holds the received streams of its class, in their order |
| PsiEntries.SectionEntries | src/dtcpencrypt/gstdtcpenc.c:771-814 | a receiver of a printed table sees the listed streams, whatever their names |
| PsiEntries.RewritingKeepsMeaning | src/dtcpencrypt/gstdtcpenc.c:997-1127 | the streams of the table sent are the received ones of the supported types, video, audio and data, each in their order: all of them, each once, if and only if no received stream is of another type |
| PmtFits.WellFormedFits | src/dtcpencrypt/gstdtcpenc.c:998-1002 | every table that passes the test for a single packet, and whose stream and descriptor lengths add up, is printed within one packet |
| PmtFits.WellFormedIsNew | src/dtcpencrypt/gstdtcpenc.c:970-1127 | so such a table, once taken and parsed, is rewritten |
| PsiTheorems.RewritingAgain | src/dtcpencrypt/gstdtcpenc.c:967-1182 | rewriting a rewritten packet gives it back byte for byte, whether by an element without the table, by one with another version, or by the same one; exactly a name of 31 bytes, taken again, has no meaning |
| PsiStreams.BufferChanges | src/dtcpencrypt/gstdtcpenc.c:889-1196 | every packet of a buffer leaves as it came, or is a table start on the PID tracked at that point and becomes a table of the tracked program that passes Annex A, with its own stamp, PID, start flag and continuity byte; it can be parsed if and only if the packet's adaptation control was one |
| PsiStreams.RunChanges | src/dtcpencrypt/gstdtcpenc.c:845-1196 | the same for any buffer of any run since the element was made; a buffer that is not aligned is untouched |
| PsiExamples.StreamIsDropped | src/dtcpencrypt/gstdtcpenc.c:1070-1095 | a packet with one stream of type 0x1b is taken, and sent as a table without streams that the parser thinks the same |
| PsiExamples.AdaptedTableIsSpoilt | src/dtcpencrypt/gstdtcpenc.c:1164-1182 | a legal packet with an adaptation field, in which a receiver finds the table, is replaced by one in which it starts to read three bytes later and which the parser refuses |
| PsiExamples.LongNameIsLost | src/dtcpencrypt/gstdtcpenc.c:1046-1075 | a packet with a name of 31 bytes is taken and rewritten, and the parser leaves its array on the result |
| PsiTheorems.PatReadBack | src/dtcpencrypt/gstdtcpenc.c:895-935 | any table dtvsource injects gives dtcpencrypt the service, the PID and the version modulo 32 |
| DtcpEncrypt.DtcpEnc.constructor | src/dtcpencrypt/gstdtcpenc.c:498-520 | nothing seen, no program |
| DtcpEncrypt.DtcpEnc.PutPmtByte | src/dtcpencrypt/gstdtcpenc.c:98-116 | the byte is stored; past the packet's end a second header is stored too and the index jumps |
| DtcpEncrypt.DtcpEnc.PutEntry | src/dtcpencrypt/gstdtcpenc.c:771-814 | type, PID and language descriptor of one stream, and nothing else |
| DtcpEncrypt.DtcpEnc.ComputeSize | src/dtcpencrypt/gstdtcpenc.c:683-706 | the size is that of what is printed |
| DtcpEncrypt.DtcpEnc.SectionCrc | src/dtcpencrypt/gstdtcpenc.c:817-828 | the chunk loop computes the CRC of the whole section |
| DtcpEncrypt.DtcpEnc.GeneratePmt | src/dtcpencrypt/gstdtcpenc.c:657-843 | newPMT is the printed table behind an untouched stamp, up to one that fills its packet to the last byte, with the stuffing and the second header it leaves behind the packet; FALSE exactly for more than three packets |
| DtcpEncrypt.DtcpEnc.ReadName | src/dtcpencrypt/gstdtcpenc.c:1050-1075 | the name in the last language descriptor, or refusal of a longer one |
| DtcpEncrypt.DtcpEnc.ReadStreams | src/dtcpencrypt/gstdtcpenc.c:1013-1112 | the three stream lists of the table |
| DtcpEncrypt.DtcpEnc.ExaminePat | src/dtcpencrypt/gstdtcpenc.c:895-962 | the fields change as the tracker says |
| DtcpEncrypt.DtcpEnc.ExaminePmt | src/dtcpencrypt/gstdtcpenc.c:970-1147 | the fields and newPMT change as the tracker says |
| DtcpEncrypt.DtcpEnc.Rewrite | src/dtcpencrypt/gstdtcpenc.c:1164-1182 | the packet becomes newPMT with its own stamp and continuity byte, the rest of the buffer stays |
| DtcpEncrypt.DtcpEnc.ExamineInPlace | src/dtcpencrypt/gstdtcpenc.c:845-1196 | buffer, fields and result are those of the tracker run over its packets |
| DtvRingTheorems.ReadKeepsExactly | src/dtvsource/gstdtvsource.c:754-763 | a read keeps every unread byte whatever it stores exactly if it fits the free space as it happens |
| DtvRingTheorems.StoreKeeps | src/dtvsource/gstdtvsource.c:770-802 | the accounting after a clean read keeps the invariant, and the overflow branch is not taken |
| DtvRingTheorems.InjectKeeps | src/dtvsource/gstdtvsource.c:809-834 | an injected table keeps the invariant, is numbered, and stands whole behind two packets |
| DtvRingTheorems.CleanGrantInside | src/dtvsource/gstdtvsource.c:441-467 | a clean grant takes some unread bytes and does not cross the end |
| DtvRingTheorems.NextKeeps | src/dtvsource/gstdtvsource.c:739-848 | every clean step of either thread keeps counts, contents and order |
| DtvRingTheorems.EveryCleanRun | src/dtvsource/gstdtvsource.c:739-848 | after every clean run: pointers in range and apart by the counts modulo the size; granted bytes are the device's in order with tables between; the nth table carries n modulo 16, stands whole behind two packets that start with the sync byte, and comes at least 100 ms after the one before |
| DtvRingTheorems.GrantExactly | src/dtvsource/gstdtvsource.c:441-465 | when exactly a grant stays inside the buffer and among the unread bytes |
| DtvRingTheorems.OverflowUnnoticed | src/dtvsource/gstdtvsource.c:763-780 | of a read into too little space and a grant, the overflow test sees nothing exactly if the grant makes up for the missing space; the first byte granted is what the read stored, and wrong exactly if that differs |
| DtvRingOverflow.OverflowHappens | src/dtvsource/gstdtvsource.c:754-802 | from every start a clean run reaches a state in which the code may make such a read and grant, the test sees nothing and the first byte granted is wrong |
| DtvRingOverflow.EmptyGrantTakesBytes | src/dtvsource/gstdtvsource.c:439-465 | at the start a grant, if the wait returns, takes bytes although none is written |
| DtvRingOverflow.FullGrantCrossesEnd | src/dtvsource/gstdtvsource.c:439-465 | from every start a clean run fills the buffer so that the next grant crosses its end |
| DtvSource.Source.Read | src/dtvsource/gstdtvsource.c:763-763 | the device's bytes are in the buffer at the write pointer |
| DtvSource.Source.Commit | src/dtvsource/gstdtvsource.c:770-848 | the locked part of the reading thread is the model's step |
| DtvSource.Source.InjectTable | src/dtvsource/gstdtvsource.c:813-834 | the stamped table is in the buffer, the counts move by one packet |
| DtvSource.Source.Grant | src/dtvsource/gstdtvsource.c:441-475 | the granted bytes are those at the read pointer, as many whole blocks as there are |
| DtvSource.Source.Advance | src/dtvsource/gstdtvsource.c:483-490 | the read pointer moves on and wraps at the end |
| DtvSource.Source.NewTable | src/dtvsource/gstdtvsource.c:742-750 | the table is made anew under the next version |
| Scte52Theorems.CbcRoundTrip | src/aesmptsdec/aes_transform_openssl.cpp:77-111 | CBC decryption undoes CBC encryption over any block permutation |
| Scte52Theorems.PayloadRoundTrip | src/aesmptsdec/scte52_processor.cpp:152-181 | so does decryption with a residue or a solitary block, for every payload length |
| Scte52Theorems.PacketRoundTrip | src/aesmptsdec/scte52_processor.cpp:109-182 | process_packet recovers every clear packet from its encryption, under any key and vector |
| Scte52Theorems.StreamRoundTrip | src/aesmptsdec/scte52_processor.cpp:89-107 | and process_buffer every stream of them |
| Scte52Theorems.SplitAtPackets | src/aesmptsdec/scte52_processor.cpp:89-107 | cutting a stream between packets makes no difference |
| Scte52Theorems.Idempotent | src/aesmptsdec/scte52_processor.cpp:119-150 | a second run changes nothing |
| Scte52Theorems.DamageIsLocal | src/aesmptsdec/scte52_processor.cpp:163-177 | a changed ciphertext block changes no full block but its own and the next |
| Scte52Theorems.DamageInNextBlock | src/aesmptsdec/scte52_processor.cpp:171-177 | the next one changes in exactly the bits that were changed |
| Scte52Theorems.DamageInResidue | src/aesmptsdec/scte52_processor.cpp:195-213 | the residue changes only with the last full block |
| Scte52Processor.AesTransform.ProcessBlock | src/aesmptsdec/aes_transform_openssl.cpp:58-74 | one block of CBC encryption, and the chain moves on |
| Scte52Processor.AesTransform.DecryptInPlace | src/aesmptsdec/aes_transform_openssl.cpp:77-93 | the stretch becomes its CBC decryption although each block overwrites the next one's chain |
| Scte52Processor.Processor.SetParameters | src/aesmptsdec/scte52_processor.cpp:70-87 | the cached mask belongs to the new key and vector |
| Scte52Processor.Processor.MaskInPlace | src/aesmptsdec/scte52_processor.cpp:184-193 | exclusive or with the mask over a stretch, nothing else |
| Scte52Processor.Processor.MaskResidue | src/aesmptsdec/scte52_processor.cpp:195-213 | the residue is masked with its preceding block encrypted once more |
| Scte52Processor.Processor.DecipherPayload | src/aesmptsdec/scte52_processor.cpp:152-181 | the payload becomes its decryption; the residue is done before its preceding block is overwritten |
| Scte52Processor.Processor.ProcessInPlace | src/aesmptsdec/scte52_processor.cpp:109-182 | the packet becomes what the packet function says, with its result code |
| Scte52Processor.Processor.ProcessBuffer | src/aesmptsdec/scte52_processor.cpp:89-107 | the buffer is mapped packet by packet whatever state the cipher context was in; -1 exactly for a fraction of a packet |
| RbiList.AlternatesExactly | src/rbifilter/rbifilter.c:485-486 | lists of alternating tags and payloads are exactly those that hold some items |
| RbiList.FlushSplits | src/rbifilter/rbifilter.c:518-546 | what is released and what stays are together what was queued, each once |
| RbiList.EventsAbove | src/rbifilter/rbifilter.c:518-546 | what stays is in its original order |
| RbiList.PendingList.Append | src/rbifilter/rbifilter.c:485-486 | the item is at the end and the layout is kept |
| RbiList.PendingList.TakeFirst | src/rbifilter/rbifilter.c:663-682 | the first item leaves, tag and payload |
| RbiList.PendingList.Flush | src/rbifilter/rbifilter.c:518-546 | exactly the buffers leave and are released once, in order; the events stay in order |
| RbiThreads.NextAwake | src/rbifilter/rbifilter.c:656-661 | every step keeps: a pad task that waits has nothing to do and its wake-up is still to come |
| RbiThreads.NextKeeps | src/rbifilter/rbifilter.c:478-546 | every step keeps ownership and order |
| RbiThreads.EveryItemOnce | src/rbifilter/rbifilter.c:497-514 | after any run each queued item is in exactly one of: queued, in hand, pushed, released |
| RbiThreads.FirstInFirstOut | src/rbifilter/rbifilter.c:663-682 | after any run queued items were pushed in the order of adding, ahead of everything still queued |
| RbiThreads.OrderKeptExactly | src/rbifilter/rbifilter.c:478-546 | a step keeps the order of everything that has left, is in hand or queued, unless an item is pushed directly past others, which always breaks it |
| RbiThreads.OverallOrder | src/rbifilter/rbifilter.c:497-514 | after any run without such a step everything left in the order of adding, queued or not |
| RbiThreads.OvertakingHappens | src/rbifilter/rbifilter.c:497-514 | a run in which the second item leaves before the first |
| RbiThreads.NeverSleepsThrough | src/rbifilter/rbifilter.c:412-417 | after any run a waiting pad task has nothing to take, and is playing or still to be signalled; after the signal it does not wait |
| HttpSinkChunks.DecodeFramed | src/httpsink/gsthttpsink.c:577-637 | a decoder of section 7.1 of RFC 9112 gets the buffers before the first empty one |
| HttpSinkChunks.ChunksComeBack | src/httpsink/gsthttpsink.c:577-637 | it gets exactly what was sent if and only if no empty buffer precedes one with data |
| HttpSinkChunks.EmptyBufferEndsEarly | src/httpsink/gsthttpsink.c:577-637 | an empty buffer ahead of one with data: the receiver gets nothing and takes the stream for finished |
| HttpSinkChunks.EndedExactly | src/httpsink/gsthttpsink.c:577-637 | it takes the stream for finished exactly if an empty buffer was sent |
| HttpSink.Sink.Reset | src/httpsink/gsthttpsink.c:137-143 | the count starts at zero |
| HttpSink.Sink.Render | src/httpsink/gsthttpsink.c:560-678 | size, bytes and line ends go out up to the first failure, which is remembered; the count is what is on the wire, also after short sends; complete sends of sizes an unsigned int can hold leave a framed stream |
| Hex.PrintedReadOn | src/httpsink/gsthttpsink.c:578-578 | printed hexadecimal numbers are read back |
| HexKey.ConvertTextToByteArray | src/aesmptsdec/gstaesmptsdecrypt.cpp:141-185 | the bytes go behind those there; failure empties the vector, a missing prefix leaves it |
| HexKey.DigitsKeepValue | src/aesmptsdec/gstaesmptsdecrypt.cpp:152-175 | any odd or even number of digits keeps its value, in half as many bytes, rounded up |
| HexKey.PrintedKeyReadBack | src/aesmptsdec/gstaesmptsdecrypt.cpp:141-185 | reading undoes printing for every byte string that is not empty |
| HexKey.StoulPair | src/aesmptsdec/gstaesmptsdecrypt.cpp:164-168 | exactly which two characters the conversion of a pair accepts, and with what value |
| HexKey.AcceptedExactly | src/aesmptsdec/gstaesmptsdecrypt.cpp:141-185 | a prefixed text is accepted if and only if it is not empty, its odd first character is a digit, and each pair is a digit and anything, or a space or sign and a digit; and the bytes are those of the pairs |
| HexKey.ValueExactly | src/aesmptsdec/gstaesmptsdecrypt.cpp:152-175 | digits, and by definition no other text, denote a number in hexadecimal notation, and the bytes stand for it |
| HexKey.MoreThanDigits | src/aesmptsdec/gstaesmptsdecrypt.cpp:164-175 | two texts that are accepted although they hold other characters |

## Left out

- libcurl, sockets, device reads, OpenSSL's ciphers, DTCP sessions and GStreamer's own state and pad handling are actions of
  the environment, parameters, or an abstract block permutation; failed allocations are not modelled.
- HTTP source: trailers, header parsing, the read delay, the first-data wait and the reset of the stop flag in unlock_stop;
  the flow timer may run out at any time instead of by the clock; a flag is read in one step; liveness is only stated as
  the absence of stuck states.
- HttpSrcTheorems.EndOfStreamIsComplete: speaks of create's exit through the empty-queue check (line 1309); after the exit
  behind the wait (line 1322) several blocks can still be queued, and nothing is claimed there.
- HttpSrcQueue.Queue.BufferReady: waiting for room is the streaming thread taking a block at that moment; the interleaving
  itself is in the state machine.
- Crc.Feed: models a register of 32 bits, as dtvsource has it; get_crc32's unsigned long is wider on 64-bit systems.
- DtcpEncrypt.DtcpEnc.PutEntry: the entry ends inside the packet; behind its last byte putPmtByte jumps on every byte and soon
  leaves newPMT.
- DtcpEncrypt.DtcpEnc.GeneratePmt: tables that leave their packet are outside the model, apart from the refusal of more than
  three packets, because what putPmtByte makes of them is not a section.
- DtcpEncrypt.DtcpEnc.ExaminePmt: for the same reason, a table whose reprint leaves its packet is outside the model; by
  WellFormedFits only one whose lengths do not add up can be.
- DtcpEncrypt.DtcpEnc.ExamineInPlace: likewise, a buffer that holds such a table.
- PsiTracker.Examine and its callers: a ninth stream of one class, a language descriptor of exactly 32 bytes and reads past the
  buffer have no defined meaning in C; a buffer with one of them is outside the model. Packet sizes other than 188 and 192
  are not modelled, and copying zero bytes counts as success. The call of examine_buffer is commented out in the chain function.
- DtvRingTheorems.EveryCleanRun: is about runs in which reads fit and grants see some bytes but not a full buffer; outside
  them GrantExactly and ReadKeepsExactly give the exact limits. Granted bytes are looked at when granted, so the lifetime of
  buffers that share the ring's memory, restarts and the creation of empty buffers on a time-out are left out.
- DtvSource.Source.Grant: the granted blocks end inside the buffer; GrantExactly says when, and past the end the code makes a
  buffer of memory it does not own.
- RbiThreads.FirstInFirstOut: is about the queue; OverallOrder includes the items pushed at once while the element is not playing.
- HttpSink.Sink.Render: the size line prints the low 32 bits of the size, as passing it for an unsigned int does in practice; the
  linear mode is left out.
- HttpSinkChunks.Decode: has no chunk extensions, which the sink never sends.
- identify_integer_packet_boundaries (its call is commented out), dtcpdecrypt, the external source and sink, the playersinkbin
  templates, properties, logging and build files would add only simple members.
