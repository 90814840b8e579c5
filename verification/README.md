# smolmux, verified

smolmux is a serial multiplexer: one broker owns a serial port and shares it among
clients. This project models the parts of the broker where state is kept fast and
in place, and proves that each behaves like the simple thing it stands for.

| part | files | stands for |
|---|---|---|
| history ring, cursor paging, multi-turn encoder | `RingBuffer`, `History`, `HistoryService` | an append-only log |
| link and client write queues, line reader | `LinkQueue`, `ClientQueue`, `LineReader`, `Protocol`, `Wire`, `Ring` | FIFO byte streams and message sequences |
| expects, boot stages, autoresponder | `Patterns`, `Expect`, `ExpectEngine`, `Window`, `BootStage`, `Autoresponder`, `AutoresponderRuns` | "does the stream contain this word" |
| port ownership, break machine, autoboot flood, client table, event loop | `Link`, `PortControl`, `BreakMachine`, `Flood`, `Device`, `Clients`, `Broker` | a legal run of states |
| telnet and RFC 2217 link | `Telnet`, `SerialTcp` | a transparent byte pipe |
| regex risk scan | `RegexRisk`, `RegexSyntax`, `RegexTheorem`, `RegexOverrun` | a recursive check of the syntax tree |

Objects that the program updates in place are classes with the program's own
fields; a ghost field holds what the object stands for (the log, the bytes ever
accepted, the completions fired), and `Valid()` ties the two together. Results of
`read`, `write`, link calls, timers and clocks are left open: a contract holds
whatever they answer. What they did answer is on record (`Wire.answers`,
`Device.calls`, `BreakMachine.timers`, `Flood.offered`), so that a contract can say
what the answers lead to: a write fails iff the descriptor refused or the rest did not
fit, a pulse is taken iff neither the line nor the timer failed. The message codec is any pair of functions that is an
inverse (`Protocol.Lawful`; one exists, by `Protocol.LawfulCodecExists`). A compiled
pattern is the set of byte words it matches, searched leftmost. A `string` is a text
byte by byte; names and ids are stored in 63 bytes (`Bytes.Cut`).

Whole-run results come as a method `Run` over an arbitrary script of calls or
events; what it ensures therefore holds in every reachable state.
`Broker.Broker.Run` composes the client table with its pending expects and the
device side: the port, the break machine, the flood and the autoresponder rules. Its
`Valid()` is the conjunction of all their invariants after any sequence of events, and
`Extends` says that nothing accepted, completed, reported or resolved is ever taken off
the record. What each event comes to is `Broker.Broker.Handled`, ensured by every
`Step`: a permitted message has its effect on the device, the port, the rules, the
table or the pending expects, one without permission has none, and so on for the sink,
timers, link events and connections. Each piece is a predicate over the state before
and after (`Device.Did`, `Flood.Machine.Ticked`, `Table.Greeted`, ...) that the method
in charge ensures.

## Findings

- Look-back is 256 bytes, so an expect finds words of up to 257 bytes under every
  chunking and no longer ones (`Expect.LookbackIsTight`, an if-and-only-if).
- The flood's stop pattern is matched against the last 256 bytes only, while a read
  may bring 4096. A prompt of m bytes is certain to be seen in a chunk of n bytes iff
  m + n <= 257 (`Flood.TailIsTight`). Under that bound a flood ends as matched iff the
  device has sent a stop word since its start (`Flood.Justified`, kept for every result
  by `Flood.Machine.Feed`).
- A flood can be under way on a port that is not up. Between its acceptance and its
  result this is seen to happen iff the flood was accepted while a resume was still
  connecting (`exposed <==> early` in `Device.Device.Attended`); such a flood has no
  reset line, and its next timer tick ends it unless the broker counts the port as up
  (`Device.Device.OnFloodTimer`). `Device.FloodOutlivesPort` is a run in which the
  connect is given up under it (src/broker.c:714-719, 2527-2542). Pulses run only on a port that is up: no
  link drives a line while it is connecting (src/links/serial_tcp.c:97-100, 372-376).
- Taking back a failed `send_expect` removes every pending expect stored under that id,
  including other clients' (src/broker.c:948-971, src/expect.c:191-204). Ids are stored
  in 63 bytes and looked up uncut (src/expect.c:51), so an earlier request survives iff
  its stored id differs from the id given, and the sender's own request is taken back
  iff the id has at most 63 bytes (`Broker.Broker.OnSendExpect`). `Broker.SharedId` runs
  it for any id: two clients wait under it, and after the failed send none of the two
  requests is left, or both are.
- Autoresponder names are stored in 63 bytes and looked up uncut as well
  (src/autoresponder.c:66, 83). Adding a rule keeps stored names unique iff the name fits
  or its cut form is not taken (`Autoresponder.Autoresponder.Add`); names are unique
  throughout a run iff that held of every add, as it does when all names fit
  (`AutoresponderRuns.Run`). `AutoresponderRuns.LongNameTwice` adds a once-rule twice under
  any longer name: two rules of one name, two fires for one chunk, and the name removes
  neither. Each added rule by itself keeps to once and to its cooldown in every run.
- A resume that is still connecting when the broker is suspended leaves its answer owed
  (src/broker.c:667-670). An answer is owed iff a resume is connecting or was dropped
  this way (`PortControl.Control.Owes`, in every state). Giving up an automatic reconnect
  suspends the broker iff a resume was dropped (`PortControl.Control.GiveUp`);
  `PortControl.ReconnectSuspends` is such a run, in which nobody has suspended the broker
  since it last resumed.
- An unterminated character class makes the risk scan step over the terminator
  (src/regex_engine.c:148-158, 205-209). For every pattern this happens iff the walk over
  its tokens meets an unclosed class and no step in front of it stops the scan
  (`RegexOverrun.Overruns`). Where what is in front of the class is well-formed, that is
  the recursive check of the parts (`RegexTheorem.UnclosedClassOverruns`;
  `RegexTheorem.OverrunExample` has the patterns `[` and `[a`). Closed classes never cause
  it (`RegexTheorem.ScanIsRecursiveCheck`).
- A stage-0 marker that is split over two reads starts no new boot
  (src/boot_stage.c:120-124). Chunking decides whether a reboot is noticed iff every
  marker in the output is split (`BootStage.ChunkingHidesReboot`;
  `BootStage.SplitMarkerMissed` is an instance).

## Model

| member | source | states |
|---|---|---|
| `RingBuffer.RingBuffer.Append` | src/ring_buffer.c:101-162 | the log grows by exactly the data, every byte under the time it came, and the ring still holds its newest bytes; the reallocating merge is dead code |
| `RingBuffer.RingBuffer.Evict` | src/ring_buffer.c:70-99 | exact byte eviction: afterwards the ring holds min(total, limit) bytes |
| `RingBuffer.RingBuffer.Contents` | src/ring_buffer.c:70-162 | chunks in ring order concatenate to the last min(total, limit) bytes of the log; first = total - held |
| `RingBuffer.FlatIsSlice` | src/ring_buffer.c:101-162 | contiguous chunks concatenate to one slice of the log |
| `RingBuffer.RingBuffer.GetSinceSeq` | src/ring_buffer.c:226-302 | chunks cover exactly the page for the cursor, each under the time its bytes came; dropped, cursor and has_more are the true ones |
| `RingBuffer.RingBuffer.SelectPage` | src/ring_buffer.c:264-300 | the chunk loop stops at the chunk holding the page end |
| `RingBuffer.RingBuffer.GetLastBytes` | src/ring_buffer.c:193-209 | the shortest run of newest chunks with the bytes asked for |
| `HistoryService.NextPiece` | src/broker.c:1402-1431 | the next piece is labelled with its true log position and is nonempty; the `remain == 0` break is unreachable |
| `HistoryService.Position` | src/broker.c:1402-1444 | encoder and ring agree on where the page ends although each computes it |
| `HistoryService.EncodeTurn` | src/broker.c:1391-1447 | every turn encodes at least one chunk, in order, and ends at the cursor; it stops after 4 chunks or 32 KiB and not before |
| `HistoryService.StartJob` | src/broker.c:1499-1559 | an empty page is answered at once with the end of the log, otherwise one job starts for the page the log and the bound define |
| `HistoryService.TurnJob` | src/broker.c:1391-1472 | a finished page is exactly the log from want to cursor, each piece under the time its bytes came, sent iff its client lives |
| `HistoryService.Service.Request` | src/broker.c:1474-1559 | one request at a time; the page starts at the first byte still there and has at most max_bytes and at most 512 KiB, exactly that much if more is to come, else it ends with the log |
| `HistoryService.Service.Record` | src/ring_buffer.c:101-162 | output appended while a page is being encoded does not disturb the page |
| `HistoryService.Service.Turn` | src/broker.c:1391-1472 | progress every turn, at most 4 pieces; replies are faithful to the log, and to its times, although it grew meanwhile |
| `HistoryService.Pager.OnAsk` | src/broker.c:1474-1559 | a client is turned away while a page is under way, and otherwise is answered or has its page cut from its cursor on |
| `HistoryService.Pager.OnTurn` | src/broker.c:1391-1472 | a connected client gets its page in the turn that finishes it, with the promised cursor |
| `History.SpansPayload` | src/broker.c:1399-1446 | labelled pieces spanning a range concatenate to that slice of the log |
| `History.LosslessPaging` | src/broker.c:1484-1559 | replies chained by cursors deliver the log from start to last cursor with precisely the reported ranges cut out |
| `HistoryService.PagingRun` | src/broker.c:1391-1559 | the same for any interleaving of output, own pages, other clients' requests and encode turns, whoever is being served when it starts |
| `LinkQueue.LinkQueue.Enqueue` | src/links/link_wq.c:30-59 | appended whole iff the unsent total stays within 512 KiB, across growth and wrap |
| `LinkQueue.LinkQueue.Write` | src/links/link_wq.c:61-80 | wire and queue gain the data in order; it fails iff the descriptor refuses or what is left does not fit 512 KiB; the descriptor is asked only for an empty queue, and only what it would block on is queued; a failed write leaves the queue alone and leaks at most a prefix |
| `LinkQueue.LinkQueue.Flush` | src/links/link_wq.c:82-105 | moves bytes from queue to wire without changing their sequence; broken iff the descriptor refuses, pending iff it would block, drained iff nothing is left |
| `LinkQueue.Run` | src/links/link_wq.c:30-105 | over any calls wire plus pending equals what the queue answers for, total_bytes is the unsent sum, and every call that fails has its cause among the answers of that call |
| `ClientQueue.Coalesced` | src/client.c:19-91 | merges iff both lines are output and the last one is shared, unwritten and shorter than 16 KiB, into one message with the data of both |
| `ClientQueue.ClientQueue.Send` | src/client.c:184-207 | queued as its own unshared line, or counted as dropped |
| `ClientQueue.ClientQueue.SendShared` | src/client.c:230-254 | merged into the last line iff that may be, else a new shared line iff there is a slot, else counted as dropped; no line already begun changes |
| `ClientQueue.ClientQueue.TryCoalesce` | src/client.c:19-91 | iff the two may merge, the last line carries one more message; all other lines stay |
| `ClientQueue.ClientQueue.Flush` | src/client.c:256-279 | the wire only grows and shows whole lines of the accepted messages; broken iff the socket fails, pending iff it would block |
| `ClientQueue.CoalescingPreservesMeaning` | src/client.c:19-91 | merged messages mean what the accepted ones meant, in the same order |
| `ClientQueue.WholeLines` | src/client.c:184-279 | written plus unsent bytes are whole encoded lines |
| `ClientQueue.Run` | src/client.c:19-279 | both, for any interleaving of sends, broadcasts and partial flushes; rejected messages are counted |
| `LineReader.MessagesAppend` | src/client.c:132-182 | the lines of a stream do not depend on where it is cut after a newline |
| `LineReader.RoundTrip` | src/client.c:132-182 | the messages of a stream are those a sender put on it, in order; empty and undecodable lines between them yield nothing |
| `LineReader.Extract` | src/client.c:159-175 | takes out complete lines only, at most max_out messages, none skipped |
| `LineReader.LineReader.Feed` | src/client.c:132-182 | delivered lines follow the stream; disconnects iff the full buffer has no newline or the stream ended or failed |
| `LineReader.LineReader.Framing` | src/client.c:132-182 | delivered plus buffered messages are those of all bytes received |
| `LineReader.Run` | src/client.c:132-182 | the same for any reads and any max_out of at least 1 |
| `Patterns.Lookback` | src/expect.c:115-126 | rescanning 256 old bytes decides what rescanning everything would |
| `Expect.Slide` | src/expect.c:82-99 | the buffer keeps room for the chunk and the scan position moves along |
| `Expect.Extend` | src/expect.c:111-127 | matched iff the rescanned region holds a word |
| `Expect.FeedTracks` | src/expect.c:76-129 | one chunk keeps matched exact and the buffer the longest allowed suffix |
| `Expect.IncrementalEqualsFull` | src/expect.c:76-129 | for words of 1 to 257 bytes, matched iff the stream since the add contains a word, for any chunking |
| `Expect.LookbackIsTight` | src/expect.c:115-126 | a word is found under every chunking iff it has at most 257 bytes |
| `ExpectEngine.TakeOut` | src/expect.c:131-170 | the swap-remove loop takes only selected requests, misses none unless cut short, and conserves them as multisets |
| `ExpectEngine.Engine.Add` | src/expect.c:25-74 | at most 256 in all and 16 per client; the id is stored cut to 63 bytes; the table's growth never passes its limit |
| `ExpectEngine.Engine.Feed` | src/expect.c:76-129 | every pending request stays exact for the output since it was added |
| `ExpectEngine.Engine.Collect` | src/expect.c:131-170 | returns requests that are matched, aborted or past their deadline only, and leaves none of them unless max_out stops it |
| `ExpectEngine.Engine.CancelId` | src/expect.c:191-204 | a request is left iff its stored id differs, so an id over 63 bytes cancels nothing; no fate once decided changes |
| `ExpectEngine.Engine.CancelClient` | src/expect.c:206-219 | a request is left iff its owner differs, and no fate once decided changes |
| `ExpectEngine.Engine.CancelAll` | src/expect.c:221-228 | every pending ticket becomes a cancelled one |
| `ExpectEngine.Engine.AbortAll` | src/expect.c:172-189 | marks exactly the unmatched requests as aborted |
| `ExpectEngine.FollowingFed` | src/expect.c:76-129 | feeding keeps all pending requests exact, each for its own stream |
| `ExpectEngine.LongIdCancelsNothing` | src/expect.c:191-204 | an id that does not fit its field cancels no request |
| `ExpectEngine.OwnRequestGone` | src/expect.c:51-51 | a request made under an id is gone after cancelling it iff the id was stored whole |
| `Window.Window.Append` | src/boot_stage.c:81-106 | the window is the newest 8191 bytes and the scan position moves along |
| `BootStage.RebootForgets` | src/boot_stage.c:119-137 | after a reboot, only words at or after the new stage-0 marker count |
| `BootStage.RebootNeedsWholeMarker` | src/boot_stage.c:114-137 | past the first stage, a new boot starts iff some chunk has a stage-0 marker to itself |
| `BootStage.ChunkingHidesReboot` | src/boot_stage.c:114-137 | chunking hides a reboot iff all its markers are split between chunks |
| `BootStage.SplitMarkerMissed` | src/boot_stage.c:114-137 | a two-byte marker read byte by byte is missed |
| `BootStage.NewFlags` | src/boot_stage.c:139-158 | scanning the look-back makes the flags exact for the current boot |
| `BootStage.NewTimes` | src/boot_stage.c:139-158 | stages reached by a chunk carry its time, earlier ones keep theirs, and a new boot forgets them |
| `BootStage.Tracker.CheckReboot` | src/boot_stage.c:119-137 | text before a new stage-0 marker is discarded iff the boot had got further |
| `BootStage.Tracker.Feed` | src/boot_stage.c:108-160 | a stage is reached iff one of its words occurs wholly in the current boot, under the time of the chunk that completed it; furthest is the largest reached index or -1 |
| `BootStage.Tracker.Restart` | src/boot_stage.c:58-79 | nothing is reached and the boot starts empty |
| `BootStage.Tracker.Announce` | src/broker.c:2180-2191 | announces reached stages once each, in order |
| `BootStage.Tracker.Process` | src/broker.c:2178-2197 | news are the stages newly reached in this boot |
| `BootStage.Run` | src/boot_stage.c:58-160 | over any output and reconnects, reached iff in the current boot, and announced iff reached |
| `Autoresponder.FireRecorded` | src/autoresponder.c:160-198 | a fire keeps once and cooldown true of the rule's whole record |
| `Autoresponder.ReadyAgain` | src/autoresponder.c:160-198 | a rule is ready iff it has not fired, or fires more than once and its cooldown has passed since |
| `Autoresponder.NewRule` | src/autoresponder.c:83-92 | an added rule carries its words, response and once flag, and its cooldown or one second |
| `Autoresponder.FireRate` | src/autoresponder.c:160-198 | fires i to j are at least (j - i) cooldowns apart |
| `Autoresponder.FiresInSpan` | src/autoresponder.c:160-198 | a span T holds at most T / cooldown + 1 fires of a rule |
| `Autoresponder.FireRules` | src/autoresponder.c:160-198 | the ready rules with a match fire, in order, up to the limit; all others keep their state |
| `Autoresponder.Autoresponder.Add` | src/autoresponder.c:55-93 | replaces the rule stored under that very name or appends one, stored cut; stored names stay unique iff the name fits or its cut form is free |
| `Autoresponder.Autoresponder.Remove` | src/autoresponder.c:109-123 | the first rule stored under the name goes, the others keep their order; none is left iff there was at most one; a name over 63 bytes removes nothing |
| `Autoresponder.Autoresponder.Feed` | src/autoresponder.c:125-200 | matches start after the last newline before the new chunk; every rule's record stays spaced and at most one long for once rules |
| `AutoresponderRuns.FiredListed` | src/autoresponder.c:160-198 | a rule fires iff it is among the fires handed out |
| `AutoresponderRuns.Run` | src/autoresponder.c:55-200 | over any adds, removes and output, every rule ever added keeps to its cooldown and to once; names are unique throughout iff no add met a taken cut name, and then the same holds of the fires under a name |
| `AutoresponderRuns.FedKept` | src/autoresponder.c:160-198 | one chunk keeps every rule ever added within its limits |
| `AutoresponderRuns.NotedNames` | src/autoresponder.c:160-198 | with unique names the fires under a rule's name are its own |
| `AutoresponderRuns.LongNameTwice` | src/autoresponder.c:66-83 | a once-rule added twice under any name over 63 bytes: two rules of one name, both fire, neither can be removed by it |
| `PortControl.Control.Suspend` | src/broker.c:652-677 | the port is closed and an attempt in flight is abandoned; a resume dropped this way stays owed |
| `PortControl.Control.Resume` | src/broker.c:692-737 | the only step that ends suspension, for every answer of the link: up, connecting or still closed; one attempt, none when the seat changed |
| `PortControl.Control.BringUp` | src/broker.c:2453-2510 | the flags say up, and a waiting resume is answered |
| `PortControl.Control.GiveUp` | src/broker.c:2527-2542 | the port is closed and the retry delay doubled up to a minute; it is left suspended iff the connect was a resume's, or a resume was dropped by a suspend before |
| `PortControl.Control.Disconnect` | src/broker.c:2249-2283 | the port is released and the first retry is immediate |
| `PortControl.Control.OnConnecting` | src/broker.c:2545-2554 | a connect in flight is completed, given up or left pending, for every answer of the link; giving up a resume suspends again |
| `PortControl.Control.AttemptReconnect` | src/broker.c:2556-2596 | tries exactly when lost, unsuspended, idle, due and on its seat; each failure waits for the delay and doubles it, from 2 up to 60 seconds |
| `PortControl.ReconnectSuspends` | src/broker.c:2527-2542 | a run in which an automatic reconnect that fails suspends a broker nobody has suspended since its last resume |
| `BreakMachine.ClearHeld` | src/broker.c:340-354 | a clear after the set gives either a finished pulse or a stuck line |
| `BreakMachine.EndFollowup` | src/broker.c:355-376 | success after a follow-up means set, cleared, then written |
| `BreakMachine.Clamp` | src/broker.c:255-259 | times are brought into range, or to their default, and otherwise kept |
| `BreakMachine.BreakPulse` | src/broker.c:255-259 | a BREAK of 250 ms unless asked otherwise, at most 2 s, with its follow-up after at most 500 ms |
| `BreakMachine.Machine.ScheduleBreak` | src/broker.c:247-298 | taken iff the port is up, no pulse is under way, the follow-up fits and the timer does not fail; a line set for a request that is turned down is cleared; where the line cannot be set the BREAK is signalled at once |
| `BreakMachine.Machine.ScheduleReset` | src/broker.c:300-330 | taken iff the port is up, no pulse is under way and neither line nor timer fails; the other line is cleared before this one is held, for the time asked for |
| `BreakMachine.Machine.OnTimer` | src/broker.c:332-379 | clears with one retry, then arms the delay, writes or completes; a stale expiry does nothing |
| `BreakMachine.Machine.Cancel` | src/broker.c:217-224 | exactly one completion if busy, none if idle, and the line is released |
| `BreakMachine.Machine.Complete` | src/broker.c:198-213 | one completion per accepted request, rc 0 iff pulse and follow-up were carried out |
| `BreakMachine.Machine.SignalNow` | src/broker.c:262-271 | the synchronous path completes on the spot |
| `Flood.TailIsTight` | src/broker.c:428-447 | m-byte words in n-byte chunks are always seen iff m + n <= 257 |
| `Flood.TailSeesStop` | src/broker.c:428-447 | under that bound the tail decides what the whole stream would |
| `Flood.ListeningOn` | src/broker.c:428-447 | a chunk without a stop word in the window brought none that chunks of that size let it see |
| `Flood.StopHeard` | src/broker.c:428-447 | a stop word in the window was sent since the start |
| `Flood.Machine.Start` | src/broker.c:476-582 | accepted iff the port is up, no flood runs, the key has 1 to 8 bytes, the stop pattern compiles, the reset is of a modem line and shorter than the flood, the line can be driven, and the timer can be created and armed; once accepted it has offered its key once and holds that line |
| `Flood.Machine.BackOut` | src/broker.c:541-571 | a flood turned down after driving the line lets go of it, and is never reported |
| `Flood.Machine.Feed` | src/broker.c:428-447 | ends as matched iff the stop pattern occurs in the last 256 bytes since the start; otherwise the reset line is as it was |
| `Flood.Machine.OnTimer` | src/broker.c:449-474 | the line is let go when due and not before, then timeout, or the key is offered once more and the flood goes on iff the link takes it |
| `Flood.Machine.Finish` | src/broker.c:393-419 | the result comes after exactly the pulse the request asked for: the line driven as asked, or cleared, and then the opposite way; no line without a reset |
| `Flood.Machine.Cancel` | src/broker.c:421-424 | an active flood gets its result, its line let go first |
| `Flood.Driving` | src/broker.c:541-560 | the second action of a reset pulse is clear after a set and set after anything else |
| `Device.Device.Suspend` | src/broker.c:652-677 | pulses and floods end before the port is closed |
| `Device.Device.LinkDown` | src/broker.c:2249-2283 | the same when the link is lost |
| `Device.Device.StartFlood` | src/broker.c:476-582 | accepted exactly under the flood's own conditions, and early iff the port is still connecting |
| `Device.Device.Pin` | src/broker.c:1244-1320 | the three lines only: BREAK as a pulse, a modem line pulsed or driven once; no other line moves |
| `Device.Device.Reconnect` | src/broker.c:2701-2707 | a lost link is tried again exactly when due, for every answer; a connect past its deadline is given up; a suspended port is left alone |
| `Device.Device.OnFloodTimer` | src/broker.c:449-474 | the tick of the flood machine, for which up means what the broker counts as up |
| `Device.Device.Perform` | src/broker.c:1814-1848 | each request has its effect and no other: data is offered to the link once, pins, baud, resume, floods and rules change exactly as the request and the answers say |
| `Device.Device.Hear` | src/broker.c:2115-2217 | output goes to the flood and the rules, and the responses of the rules that fire are written in order |
| `Device.FloodOutlivesPort` | src/broker.c:714-719 | a run in which a flood accepted while connecting is active on a closed port |
| `Clients.IdInjective` | src/client.c:93-99 | owners can be told apart by their id text |
| `Clients.DisownedOwned` | src/broker.c:92-117 | a client's slot can go once its expects are gone |
| `Clients.KeptLess` | src/broker.c:92-117 | dropping one more client leaves exactly the expects of those still there |
| `Clients.Table.Register` | src/broker.c:1982-2022 | at most 32 clients, new ones with a new number and no rights |
| `Clients.Table.Remove` | src/broker.c:92-117 | its slot, takeover and expects go; every other client and expect stays |
| `Clients.Table.Replace` | src/broker.c:843-854 | the downward swap-remove loop drops all and only the same-named earlier connections, with what is theirs |
| `Clients.Table.Greet` | src/broker.c:798-860 | who is greeted, with which name and role; greeted names stay pairwise distinct; takeover and expects are kept for exactly those who stay |
| `Clients.Table.Takeover` | src/broker.c:1021-1036 | granted iff the client may send |
| `Clients.Table.Release` | src/broker.c:1038-1046 | only the holder can let go |
| `Clients.Table.DropStale` | src/broker.c:2795-2822 | drops all and only the clients that are late or dead, their takeover and their expects |
| `Clients.Table.DropBroken` | src/broker.c:2669-2682 | drops all and only the clients whose flush fails, their takeover and their expects |
| `Broker.Broker.DoSuspend` | src/broker.c:652-677 | pulses, floods and expects have ended and the port is given away |
| `Broker.Broker.LinkDown` | src/broker.c:2249-2283 | pulses and floods have ended, the port is released, and every pending expect has its outcome |
| `Broker.Broker.OnSendExpect` | src/broker.c:904-973 | when an expect is registered; taking it back leaves exactly the requests stored under other ids, its own being gone iff the id fits its field |
| `Broker.SharedId` | src/broker.c:904-973 | for any id two clients share, a failed send leaves none or both of their requests, depending on its length |
| `Broker.Broker.SinkListen` | src/sinks/mcp_tools.c:408-444 | the sink's wait is registered, refused, or taken back for want of room, with exactly the other requests left |
| `Broker.Broker.SinkSend` | src/sinks/mcp_tools.c:85-127 | a command of the sink waits before it is written; taken back, it leaves exactly the requests under other ids, or of other owners |
| `Broker.Broker.SinkPulse` | src/sinks/mcp_tools.c:359-406 | a wait is registered only once the pulse on the line asked for is accepted |
| `Broker.Broker.OnSink` | src/sinks/mcp_tools.c:729-739 | a request of the sink has its effect iff it only listens or nobody holds the takeover, and otherwise none |
| `Broker.Broker.Handle` | src/broker.c:1814-1848 | a message that acts on the device has its effect iff its sender is a greeted controller and nobody else holds the takeover, and otherwise none; so has every message about the connection, takeover or output to wait for |
| `Broker.Broker.OnClient` | src/broker.c:2600-2632 | the same for a connection of the table; only one that does not know the token is dropped |
| `Broker.Broker.OnConnections` | src/broker.c:1982-2022 | who is there after a connection, a hangup, the periodic check or a flush |
| `Broker.Broker.Dispatch` | src/broker.c:2684-2844 | each event reaches its handler and has its effect; a message without permission leaves the device side untouched |
| `Broker.Broker.OnLinkReady` | src/broker.c:2738-2770 | all output read has been seen by expects, flood and rules before a hangup is honoured; a connect in flight completes, fails or goes on; no attempt to open is made |
| `Broker.Broker.OnTurn` | src/broker.c:2701-2707 | finished expects are handed out, a lost link is tried when due, a connect past its deadline is given up |
| `Broker.Broker.Step` | src/broker.c:2684-2844 | every event has its effect, keeps all invariants, only adds to the record, and leaves a suspended port alone |
| `Broker.Broker.Run` | src/broker.c:2684-2844 | the same for every run, event by event: all that was accepted, completed or resolved stays on record, and without a resume a suspended broker never tries to open the port |
| `Broker.Broker.Shutdown` | src/broker.c:2846-2850 | every accepted pulse has completed |
| `Telnet.FilterAppend` | src/links/serial_tcp.c:313-362 | filtering two parts in turn is filtering their concatenation |
| `Telnet.ChunkingIrrelevant` | src/links/serial_tcp.c:313-362 | output, final state and replies never depend on chunking |
| `Telnet.NeverLonger` | src/links/serial_tcp.c:313-362 | output is never longer than input |
| `Telnet.EscapedData` | src/links/serial_tcp.c:233-256 | escaped data comes out as the data |
| `Telnet.FrameInvisible` | src/links/serial_tcp.c:294-311 | a COM-PORT frame yields no data |
| `Telnet.RoundTrip` | src/links/serial_tcp.c:233-362 | any interleaving of writes and frames yields exactly the payloads and ends in the data state |
| `Telnet.EveryStream` | src/links/serial_tcp.c:313-362 | every byte stream is a sequence of telnet tokens and the beginning of one more |
| `Telnet.ServerStream` | src/links/serial_tcp.c:258-362 | whatever tokens a server sends, the data out is theirs, every request gets its answer, and the last DO or DONT decides COM-PORT |
| `Telnet.AnyStream` | src/links/serial_tcp.c:258-362 | so any bytes come out as the data of the tokens they make up |
| `Telnet.FrameMeans` | src/links/serial_tcp.c:294-311 | a frame is one closed COM-PORT subnegotiation that means the command and its value |
| `Telnet.PrefixDelivered` | src/links/serial_tcp.c:313-362 | any part of such a stream, in any chunks, yields a prefix of the payloads |
| `Telnet.NoNegotiationLoop` | src/links/serial_tcp.c:258-292 | one instance's replies provoke no reply from another |
| `SerialTcp.SerialTcp.FilterRx` | src/links/serial_tcp.c:313-362 | the byte loop computes the filter and its replies; from the data state it passes on exactly the data of the tokens received |
| `SerialTcp.SerialTcp.WriteData` | src/links/serial_tcp.c:233-256 | wire and queue gain the escaped data; it fails iff the link is not connected, the descriptor refuses or the rest does not fit |
| `SerialTcp.SerialTcp.ComportSend` | src/links/serial_tcp.c:294-311 | wire and queue gain the frame, once the server agreed; it fails iff it has not, or as a write does |
| `SerialTcp.BuildFrame` | src/links/serial_tcp.c:294-311 | the frame fits its 32-byte buffer |
| `SerialTcp.Run` | src/links/serial_tcp.c:210-311 | wire and queue hold the encoding of exactly the calls made, and of a rejected one at most a first part; a rejected call has its cause |
| `SerialTcp.AccountsPrefix` | src/links/serial_tcp.c:210-311 | what a run with a rejected call has put out is a prefix of what was asked for |
| `SerialTcp.EndToEnd` | src/links/serial_tcp.c:210-362 | the peer's filter passes on a prefix of the payloads, all of them once everything is on the wire |
| `RegexRisk.SkipCharClass` | src/regex_engine.c:148-158 | stops at the bracket that closes the class |
| `RegexRisk.ScanOne` | src/regex_engine.c:197-267 | one iteration on the flag arrays is one step of the scan |
| `RegexRisk.CheckRedosRisk` | src/regex_engine.c:189-281 | the loop on flag arrays computes the scan |
| `RegexTheorem.ClassIsSkipped` | src/regex_engine.c:148-158 | a printed class is skipped to its own end |
| `RegexTheorem.GroupVerdict` | src/regex_engine.c:224-245 | closing a group turns the verdict on its contents into the verdict on it |
| `RegexTheorem.ScanRegex` | src/regex_engine.c:189-281 | scanning a printed tree in any context gives what the recursive check says |
| `RegexTheorem.ScanIsRecursiveCheck` | src/regex_engine.c:189-281 | accepts iff no quantified group holds an alternation or quantifier at any depth and the depth, total and wildcard limits hold |
| `RegexTheorem.UnclosedClassOverruns` | src/regex_engine.c:148-158 | behind well-formed parts and open groups, the scan overruns at an unclosed class iff the recursive check of those parts finds nothing, and never accepts |
| `RegexTheorem.OverrunExample` | src/regex_engine.c:204-209 | the patterns [ and [a overrun |
| `RegexOverrun.Overruns` | src/regex_engine.c:190-281 | for every pattern, the scan overruns iff the token walk meets an unclosed class that no step in front of it keeps the scan from reaching; such a pattern is never accepted |
| `RegexOverrun.StopsWithin` | src/regex_engine.c:190-281 | whether the scan stops in front of an unclosed class does not depend on what follows |
| `RegexTheorem.ParenthesesHideNothing` | src/regex_engine.c:176-188 | any number of redundant parentheses leaves such a group rejected |

## Left out

- JSON, base64, shared-line reference counts, the chunk pool and out-of-memory paths: foreign or plumbing; the codec is an assumed inverse.
- The regex engines: a pattern is a set of words; POSIX stopping at NUL, its 64 KiB clamp and the 50 ms match budget are not modelled.
- History requests by time or by byte count (src/broker.c:1561-1637): a simple tail selection; only the cursor path is modelled.
- Sequence numbers and client numbers are naturals, so the conversion of cursors to doubles and wrap-around are not modelled.
- Expect.IncrementalEqualsFull: words of at most 257 bytes and chunks of at most the buffer less 256 bytes; the loop reads at most 4096 (src/broker.c:28), so it holds of every pending expect in `Broker.Broker.Run`.
- BootStage.Run: chunks leave room for the look-back in the window, which reads of at most 4096 bytes do.
- Autoresponder.Autoresponder.Feed: positive timestamps; the program treats 0 as "never fired".
- LineReader.Run: after end of file, lines still buffered are not delivered, as in the program (src/client.c:150-154).
- Flood.Machine.Start: does not model the key interval, because timers are only expiry events here.
- At shutdown an active flood is dropped without a result (src/broker.c:2859-2861); `Broker.Broker.Shutdown` says nothing of it.
- Broker.Broker.Step: history, boot stages and incident detection are separate models; restarting boot progress and writing history fences at link-up are not composed here.
- Broker.Broker.Run: the order of events within one wake-up is any order, a superset of the program's.
- Handlers cut a literal key or response to its field and put in defaults (src/broker.c:1190-1212, 1736-1753) before making the request modelled here.
- Configuring incident patterns, status and other queries change none of the modelled state.
- The sink's watchdog, report and history tools (src/sinks/mcp_tools.c) change none of it either.
- Telnet refusals are sent past the write queue (src/links/serial_tcp.c:268-271), so they are replies of the filter and not part of the outbound stream.
- Syntax trees print closed classes and balanced groups; unbalanced patterns are left to the regex compiler.
- Incident detection (src/anomaly.c): its scan copies only the first 4096 bytes of a region, so the completeness result does not carry over.
- epoll, sockets, termios, log files, the CLI, monitor, watcher, MCP text handling, gdb tools, profiles and manifests.
