# Verification of the remote UPS server

This project models `fnos-remote-ups`, a program that polls a NUT server over the network and exports what
it learns as a USB HID UPS over USB/IP. It proves properties of three parts of the program:

- the USB/IP connection engine (`src/usbip_server.cpp`);
- the emulated HID device, its reports, descriptors and polling cache (`src/ups_device.cpp`,
  `src/hid_report.cpp`);
- the NUT text client (`src/nut_client.cpp`).

`dafny verify dfyconfig.toml` checks everything.

## How the model is built

**The connection engine.** `Engine` makes every libuv callback one step on the whole state of the server:
its clients, their buffers and timer maps, libuv's timer heap, the closing timer handles, a log of each
connection and a count of every block released. Connections are numbered in the order they arrive, and
timers by libuv's start number. The steps are `Connect`, `Recv`, `Eof`, `CloseCallback`, `Fire`,
`FreeTimer`, `Tick`, `Poll` and `Stop`, and a run is any sequence of them; a step that libuv would not make
(a read after a close was requested, a timer before its time or out of deadline order) changes nothing.
Bytes are cut into frames by `Parser`, and `Reader` is a USB/IP client's side of the same wire, which looks at every
word of a reply's header. `WireRules` and `OutputForm` say the same in bytes alone: what each step writes for the bytes
that came in, and which bytes a connection can carry at all.

Clients may send anything. The USB/IP protocol promises one thing more: no SUBMIT reuses a sequence number
that is still pending. The insert at `src/usbip_server.cpp:513` does not check this; it overwrites the old
entry, and the old timer is no longer in the map. The engine does what the program does, and remembers who
did it in `reusers`. Isolation, the import gate, what bytes come to as commands and the decoding of replies
hold on every run; the statements about timers and queues hold for each connection that kept the promise
itself, whatever the others do. A run in which a timer reaches a released context has the flag `fault` set:
what the program does after that is undefined, and the state after it stands for nothing. `EngineHistory` and
`EngineFaults` follow the reusing connections as well: a connection's log alone tells which of its timers run,
which are in its map, and whether a fault will come of them.

The status is constant while one chunk is received. In the program the poller's thread may commit a status
between two frames of one read callback; `EngineStream.RecvSplit` reduces that to the chunk split in two with a
`Poll` in between.

`Server` then has the objects themselves: a `ClientContext` and a `USBIPServer` whose methods update their
fields in place, each proved to do on the heap exactly what the engine's step does to the state.
`USBIPServer.RunEvents` makes one callback after the other, and `USBIPServer.Operate` carries the theorems
about runs over to the objects and to the bytes they have written. Predicates of the form
`forall x | Seen(x) :: ...` keep a definition out of the solver's sight until it is needed; `Seen` is always
true.

**The device.** `HidItems` parses and prints HID short items, `HidLayout` turns an item list into field
declarations, and `HidDescriptor` holds the descriptor as bytes and as items. `HidMeaning` reads the reports
of `Reports` through that layout. The descriptor is 285 bytes long (`HidDescriptor.DescriptorLength`).
`StatusTokens`, `UpsStatus`, `UpsDevice` and `Snapshot` cover the way a NUT status gets into the cache: the
flag parser, the merge, the polling decisions, and the mutex. `Control` has the descriptors and control
requests, and `Enumeration` what a host gets for each of the eight bytes it can send. `Refresh` has the variables by
name, with their scales and ranges. `Numbers` has the clamps and the thermistor table, over exact reals.

**The NUT client.** `NutClient` receives from a stream under any schedule of `recv` results, with the real
buffer and response limits. `NutBlocks`, `NutLimits`, `NutVars`, `NutRoundTrip` and `NutSession` are about
what BEGIN/END blocks (RFC 9271, section 4.2) come out as, and `NutScan` about which lines are taken for variables.

**All of it.** `HidReadings` says where a host that goes by the usage tables and the descriptor finds each
reading, and `EndToEnd` puts the parts together: from the text a NUT server sends to the values such a host reads
out of the bytes written on its connection.

Where the source changes state step by step the model does too: classes and methods with loops, each with
a contract that ties it to a function of the old state or the input. The lemmas are about those functions.

## What the proofs found

- An empty LIST block is never recognised: the END marker is only found behind a newline
  (`NutBlocks.EmptyBlock`). The model's streams end, so there the exchange fails; with the server still connected
  `recv` blocks, and the client hangs.
- What becomes of a block of any size (`NutLimits.BlockOutcome`): below 65535 bytes it comes out as its lines,
  unless it is empty or a line after the first starts with the END line; a larger one never does, and is too long
  where nothing else stops it; one of exactly 65535 does if and only if, besides, the receive calls stop just
  before its last byte.
- The client stops reading once it has seen the END line, so the newline behind it may stay unread, and
  then the next one-line answer is misread. That happens exactly when the running total of the receive
  calls that read the block is, at some point, one byte short of it (`NutSession.InStepExactlyWhenDrained`;
  `NutSession.NewlineLeftBehind` has such a schedule for every block that fits the buffer).
- A value with a quote or a backslash does not survive the trip through a VAR line, because the client does
  not undo the escapes; `NutRoundTrip.LineReadsBack`, `NutRoundTrip.GetVarRoundTrip` and
  `NutRoundTrip.ListVarRoundTrip` say exactly which values do. An empty value reads the same as an error.
- A one-line answer with anything behind it is read or refused depending on where the receive calls stop
  (`NutLimits.LineOutcome`).
- The units of the report descriptor do not match what is stored. All voltages are stored in hundredths of a volt, but
  the battery's is declared with exponent 4 and the others with 5; all currents are stored in thousandths of an ampere,
  but the input and output ones are declared in hundredths. A host that goes by the descriptor sees the battery voltage
  a tenth of what it is and the input and output currents ten times what they are. The temperature is a thermistor
  count declared in hundredths of a kelvin (`HidReadings.QuantitiesOfReport`).
- The 16-bit readings can leave the logical limits the report descriptor declares
  (`HidMeaning.LimitsKeptExactlyWhen`), for one when a battery is reported at 327.68 volts
  (`HidMeaning.LimitsAreLeft`).
- The cached power flags follow the latest status only if the `ups.status` in the last LIST meant the same
  as the GET just before it (`UpsDevice.CacheAgreesWithQuerying`); a UPS that loses power in between is
  remembered as on line with the flags of one on battery (`UpsDevice.CacheCanDisagree`).
- A string descriptor announces its own length exactly up to 126 characters (`Control.StringRoundTrip`), and
  fits the 4096-byte reply buffer exactly up to 2047 (`Control.InitialDescriptorsFit`, `Control.RepliesFit`).
- Reusing a pending sequence number is the only way to a fault (`EngineOwnership.EveryRunIsOwned`), but by
  itself it is none: a client that stays connected until the timers have fired does no harm. Once the timers of
  the gone clients have fired, a run made a fault if and only if some client's connection went down while
  requests it had made under one number overlapped, by its own log (`EngineFaults.FaultExactlyWhen`).
  `EngineReuse.ReuseEndsInFault` has such a run, from the start of the server.
- The test for a disconnected client at `src/usbip_server.cpp:653` never succeeds for a client that did not
  reuse a number: its context outlives its timers (`EngineOwnership.FiringFindsContext`), and while a context
  lives `handle.data` is set. What stops a NAK on a closing connection is that the write is refused.

## Model

| member | source | states |
|---|---|---|
| Parser.FeedSplit | src/usbip_server.cpp:219-240 | receiving a chunk in two parts leaves the same state, leftover bytes, closed flag and accepted commands as receiving it whole |
| Parser.ChunkingIndependence | src/usbip_server.cpp:219-240 | for any number of chunks only their concatenation matters |
| Parser.CutStable | src/usbip_server.cpp:278-384 | a complete frame stays the same frame when more bytes follow; a frame that hangs up consumes all there is |
| Parser.CutEncoded | src/usbip_server.cpp:278-384 | every command as a client encodes it is cut out of the stream whole, whatever follows |
| Parser.CommandsArriveIntact | src/usbip_server.cpp:194-242 | a client's commands are accepted unchanged and with no byte left, however their bytes are split |
| Parser.PhasesReached | src/usbip_server.cpp:278-384 | from WAITING_COMMAND or IMPORTED only those two states are reached |
| Reader.OutputDecodes | src/usbip_server.cpp:605-633 | a client splits the concatenated replies back into the replies sent, in order, if and only if every reply is one it can delimit |
| Reader.ReadEncodedReply | src/usbip_server.cpp:386-674 | a reply at the head of the output is read back whole when the client can delimit it, and is not otherwise; the reader takes a RET_SUBMIT only with status 0 and all unused words zero |
| WireRules.OperationRule | src/usbip_server.cpp:278-341 | before an import, in bytes: fewer than 8 wait, a wrong version or unknown code closes the connection and writes nothing, a device list request is answered with these bytes, an import request waits for 40 bytes and is granted or refused with these |
| WireRules.RequestRule | src/usbip_server.cpp:343-603 | after an import, in bytes: a request waits for its header and data, then exactly these bytes are written, with the request's own number and start frame and everything else as given, and these timers start or stop |
| WireRules.InterruptRule | src/usbip_server.cpp:504-521 | an interrupt request writes nothing, its timer is not due before 500 ms, and firing writes success for the number it came with |
| WireRules.ConnectRule | src/usbip_server.cpp:136-182 | a new connection waits for a command with an empty buffer, and is closing if it could not be accepted |
| WireRules.EofRule | src/usbip_server.cpp:198-210 | the end of a stream closes the connection and writes nothing |
| WireRules.CloseRule | src/usbip_server.cpp:255-275 | the close callback takes the connection and the timers in its map, and nothing else |
| OutputForm.OutputConforms | src/usbip_server.cpp:386-674 | in every run the bytes written on a connection are device lists and import replies and, after a granted import, USB replies, each in its exact form: a RET_SUBMIT has zeros in words 2 to 5, 8 and 9 |
| EngineMemory.CancelSound | src/usbip_server.cpp:677-697 | cancelling a timer keeps every map entry naming a started timer of its own client and number, and every block accounted for |
| EngineMemory.CloseSound | src/usbip_server.cpp:255-275 | the close callback keeps the same, and is no fault |
| EngineMemory.ExpireSound | src/usbip_server.cpp:636-674 | an expiring timer keeps the same |
| EngineMemory.StepSound | src/usbip_server.cpp:136-716 | every step keeps it, whatever the clients send |
| EngineMemory.RunSound | include/usbip_server.h:25-44 | over every run: map entries name started timers with their own client and key, each block is released once or in use, the listed clients are the open ones |
| EngineOwnership.ParkTidy | src/usbip_server.cpp:504-521 | parking an interrupt request leaves every timer of the connection in its map if and only if the number is not pending; otherwise, and only then, the connection counts as a reuser |
| EngineOwnership.StepFaults | src/usbip_server.cpp:636-656 | the only fault a step can make is a timer that fires when its client's context is gone |
| EngineOwnership.StepOwned | src/usbip_server.cpp:136-716 | every step keeps each non-reusing connection's timers in bijection with its map, and makes no fault while nobody reused a number |
| EngineOwnership.EveryRunIsOwned | include/usbip_server.h:25-44 | the same over every run from the start |
| EngineOwnership.FiringFindsContext | src/usbip_server.cpp:647-656 | a timer that fires finds its client's context alive and its own entry in the map, unless that client reused a pending number |
| EngineOwnership.DrainedRunReleasesEverything | src/usbip_server.cpp:255-275 | once nothing is left open, every context, TimerData and timer handle was released exactly once |
| EngineOwnership.NoClientsNoTimers | src/usbip_server.cpp:700-716 | without reuse no timer is left once the connections are gone |
| EngineOwnership.RunIsReady | src/usbip_server.cpp:136-716 | in a run without a fault every callback finds the context and the timers it is going to touch |
| EngineReuse.ReuseEndsInFault | src/usbip_server.cpp:513 | a run of callbacks from the start, in which one client makes a request twice and leaves, ends with a timer reaching a released context |
| EngineIsolation.StepLeavesOthersAlone | src/usbip_server.cpp:452-603 | a step of one connection, even with equal or reused sequence numbers, leaves another's buffer, state, timers and replies unchanged |
| EngineIsolation.RunLeavesOthersAlone | src/usbip_server.cpp:452-716 | the same over every run that has no event of that connection |
| EngineIsolation.NobodyInterferes | src/usbip_server.cpp:452-716 | the same from any point of any run on |
| RequestLog.ExactlyOnce | src/usbip_server.cpp:504-521 | in a legal log the requests accepted under a number are those answered, those unlinked, those lost with the connection, and the one waiting |
| RequestLog.FirstInFirstOut | src/usbip_server.cpp:636-674 | requests neither unlinked nor dropped are served in arrival order, each at least 500 ms after it arrived; the rest is the queue |
| RequestLog.CancelledNeverAnswered | src/usbip_server.cpp:562-589 | after an UNLINK found a number, no NAK for it comes before another request with that number |
| RequestLog.UnlinkTellsPending | src/usbip_server.cpp:562-589 | RET_UNLINK carries -ECONNRESET exactly when its target is outstanding, and 0 otherwise |
| EngineHistory.EveryRunIsRecorded | src/usbip_server.cpp:452-716 | over every run, also for connections that reuse numbers, the log alone says which of a connection's timers run, which its map names, and that it is quiet once closing |
| EngineHistory.SilentAfterClose | src/usbip_server.cpp:127-133 | on every connection of every run, after a close request nothing is handled or answered, and after the close callback nothing happens |
| EngineFaults.FaultExactlyWhen | src/usbip_server.cpp:636-656 | over every run, a timer has reached a released context or still will, if and only if some connection went down while requests it had made under one number overlapped; with no timer running, the run made a fault if and only if that happened |
| EngineFaults.TidyInEveryRun | src/usbip_server.cpp:504-521 | in every run a connection's running timers are all in its map if and only if, by its log, no number was submitted again before an earlier timer for it fired with one of the two still running |
| EngineStop.StoppedForGood | src/usbip_server.cpp:102-120 | after a stop, whatever happens, no connection is accepted, no request taken and no byte written, and all connections are closing |
| EngineTrace.EveryRunIsTraced | src/usbip_server.cpp:452-716 | in every run the log of every connection that reused no pending number is legal and its queue is the timer map with its running timers |
| EngineTrace.SubmitsAreAccountedFor | src/usbip_server.cpp:504-521 | over every run, for each connection that reused no pending number, submits = NAKs + unlinked + lost + pending, for each sequence number |
| EngineTrace.NaksAreFifo | src/usbip_server.cpp:636-674 | over every run the timers of such a connection fire in the arrival order of its surviving requests, each after its delay |
| EngineTrace.DueIsOldest | src/usbip_server.cpp:519 | for a client that reused no pending number, the timer libuv fires belongs to its oldest request, and its time has come |
| EngineTrace.SomeTimerIsDue | src/usbip_server.cpp:519 | once any timer's time has come there is one that fires |
| EngineStream.RecvSplit | src/usbip_server.cpp:194-242 | receiving a chunk in two parts leaves the whole server, replies and timers included, as receiving it at once |
| EngineStream.AnySplitting | src/usbip_server.cpp:194-242 | the same for any splitting of a byte stream |
| EngineStream.HandleThenConsume | src/usbip_server.cpp:225-240 | a complete frame consumes between one byte and all of the buffer, an incomplete one none, and handling plus erasing is one turn |
| EngineReplies.CommandsComeFromBytes | src/usbip_server.cpp:194-242 | in every run the commands accepted on a connection are what its delivered bytes parse to, whatever happened in between |
| EngineReplies.ImportGate | src/usbip_server.cpp:278-384 | in every run only two states occur, requests are pending only after an import, and no USB reply precedes a successful import reply |
| EngineReplies.WrittenIsOutput | src/usbip_server.cpp:605-633 | the bytes written on a connection are its replies one after the other |
| EngineReplies.OutputIsDecodable | src/usbip_server.cpp:605-633 | in every run a client recovers exactly the replies, in order, with their numbers and signed status, if and only if it sent no unknown USB command and no OUT control request that the device answers with data |
| EngineReplies.StepAgrees | src/usbip_server.cpp:386-603 | every step keeps state and log in agreement, and every reply carries its request's number and the device's own record or control data |
| Exported.AdvertisedBusidIsKnown | src/ups_device.cpp:94-109 | the bus id in the exported record is the one an import accepts |
| Exported.RecordFields | src/ups_device.cpp:94-109 | every field of the exported record, at its offset and in its byte order |
| Exported.UpsIsGood | src/ups_device.cpp:94-116 | the exported record has 312 bytes and announces its one interface, and control replies stay within wLength |
| Exported.OutRequestsDelimit | src/ups_device.cpp:638-707 | the replies to standard and HID OUT requests can be delimited |
| Exported.ServerOutputDecodes | src/usbip_server.cpp:386-633 | for this device, over every run, the output decodes to the replies sent if and only if the commands satisfy a condition a client can check on each before sending it |
| Exported.ShortStringsHaveRoom | src/usbip_server.cpp:468 | configured with strings of at most 2047 characters, no control reply of any run outgrows the buffer it is built in |
| Server.USBIPServer.Create | src/usbip_server.cpp:39-100 | a listening server with the configured device is the initial state of the engine |
| Server.USBIPServer.Operate | src/usbip_server.cpp:39-716 | after any run of callbacks without a fault, in which the control replies asked for fit their buffer, the objects hold what the engine says, and have written on every connection the bytes its log stands for |
| Server.USBIPServer.RunEvents | src/usbip_server.cpp:136-716 | one callback after the other is the engine's run |
| Server.USBIPServer.Gather | src/usbip_server.cpp:605-620 | copies the pieces of a reply into one block, one behind the other |
| Server.USBIPServer.Respond | src/usbip_server.cpp:605-633 | writes a reply's bytes behind what was written before, or nothing on a closing handle |
| Server.USBIPServer.OnConnection | src/usbip_server.cpp:136-182 | accepting lists a new context; failing to accept closes it unlisted |
| Server.USBIPServer.OnClientRead | src/usbip_server.cpp:194-242 | buffers the chunk and leaves the server as the engine's read loop does |
| Server.USBIPServer.ReadLoop | src/usbip_server.cpp:225-240 | the loop over the buffer ends, in the state that the recursive read loop of the engine reaches |
| Server.USBIPServer.HandleClientData | src/usbip_server.cpp:278-384 | returns the size of the frame at the head of the buffer, or 0, and has handled exactly that frame |
| Server.USBIPServer.HandleOperation | src/usbip_server.cpp:280-341 | the WAITING_COMMAND branch, with the version, device list, import and error cases |
| Server.USBIPServer.HandleUsb | src/usbip_server.cpp:343-377 | the IMPORTED branch, with the payload length of OUT submits |
| Server.USBIPServer.HandleDevlistRequest | src/usbip_server.cpp:386-411 | writes the header, the count and the one exported device with its interface |
| Server.USBIPServer.HandleImportRequest | src/usbip_server.cpp:413-450 | grants the known bus id with the device record, and refuses any other with a header and hangs up |
| Server.USBIPServer.HandleUsbCommand | src/usbip_server.cpp:452-603 | parks interrupt submits, writes the replies to the others, and answers anything else with an error |
| Server.USBIPServer.HandleUnlink | src/usbip_server.cpp:562-589 | cancels a pending target and says so in the status |
| Server.USBIPServer.SubmitReply | src/usbip_server.cpp:499-537 | control data comes from the request handler, and the clamp to wLength changes nothing |
| Server.USBIPServer.StartInterruptTimer | src/usbip_server.cpp:508-519 | a new timer, due in 500 ms, under the sequence number, whatever was there |
| Server.USBIPServer.CancelInterruptTimer | src/usbip_server.cpp:677-697 | stops the timer, releases its data, starts closing its handle and forgets it |
| Server.USBIPServer.CancelAllInterruptTimers | src/usbip_server.cpp:700-716 | does the same to every pending timer, each once, in any order |
| Server.USBIPServer.OnInterruptTimer | src/usbip_server.cpp:636-674 | answers with a NAK, or is refused on a closing handle, and forgets the timer |
| Server.USBIPServer.RemoveClient | src/usbip_server.cpp:127-133 | unlists an open client and asks for its close |
| Server.USBIPServer.OnClientEof | src/usbip_server.cpp:198-210 | an error or end of stream removes the client |
| Server.USBIPServer.OnClientClose | src/usbip_server.cpp:255-275 | cancels what is pending and deletes the context, leaving the others alone |
| Server.USBIPServer.OnTimerClosed | src/usbip_server.cpp:35-37 | releases a closed timer handle |
| Server.USBIPServer.Stop | src/usbip_server.cpp:102-120 | removes every listed client, one by one, and nothing when already stopped |
| Server.USBIPServer.Accept | src/usbip_server.cpp:136-182 | the connection callback is the engine's Connect step |
| Server.USBIPServer.Receive | src/usbip_server.cpp:194-242 | the read callback is the engine's Recv step, whatever bytes come, when the control replies they ask for fit the buffer |
| Server.USBIPServer.Disconnect | src/usbip_server.cpp:198-210 | the end of a stream is the engine's Eof step |
| Server.USBIPServer.Finish | src/usbip_server.cpp:255-275 | the close callback is the engine's CloseCallback step |
| Server.USBIPServer.Ring | src/usbip_server.cpp:636-674 | the timer callback is the engine's Fire step, when the client's context is there |
| Server.USBIPServer.StopListening | src/usbip_server.cpp:102-120 | stopping is the engine's Stop step |
| HidItems.ItemsBijective | src/hid_report.cpp:5-42 | item lists and byte strings correspond one to one: a list of short items prints to bytes that parse to it and to nothing else |
| HidItems.ParsePrint | src/hid_report.cpp:5-42 | printing any list of short items and parsing the bytes gives the list back |
| HidItems.PrintParse | src/hid_report.cpp:5-42 | whatever parses prints back to the same bytes |
| HidDescriptor.DescriptorLength | src/hid_report.cpp:5-49 | the descriptor has 285 bytes |
| HidMeaning.ReportsMeanTheStatus | src/ups_device.cpp:733-836 | for every status, each field the descriptor declares reads back what its usage stands for, padding reads zero, and the fields fill reports 1, 2 and 3 exactly |
| HidMeaning.LimitsKeptExactlyWhen | src/hid_report.cpp:5-42 | every field is within its declared limits if and only if no battery reading has its top bit set and no other 16-bit reading is 65535; percentages and flags always are |
| HidMeaning.LimitsAreLeft | src/hid_report.cpp:5-42 | a battery reported at 327.68 volts is outside them |
| HidBits.ByteFirst | src/ups_device.cpp:746-749 | a multi-byte field reads its low byte first |
| StatusReport.StatusBitsFollowTokens | src/ups_device.cpp:776-804 | each PresentStatus bit of report 2 follows from the status tokens and the charge and runtime thresholds |
| Reports.WriteReport | src/ups_device.cpp:733-836 | writes the report, cut to the length asked for, to the front of the buffer and leaves the rest alone |
| Reports.BuildReport | src/ups_device.cpp:759-832 | builds the three reports field by field, and nothing for another ID |
| Reports.BuildStatusBits | src/ups_device.cpp:776-804 | sets the status word one bit at a time |
| StatusTokens.PaddedSearchIsTokenisation | src/ups_device.cpp:490-535 | a flag is found by the padded search if and only if it is one of the space-separated tokens |
| StatusTokens.ParseStatusIsFlagsOf | src/ups_device.cpp:477-535 | the flags are a function of the set of tokens, with discharging = (OB and not OL) or DISCHRG |
| StatusTokens.FlagsFromTokenList | src/ups_device.cpp:477-535 | order and repeats of the announced tokens do not matter |
| UpsDevice.UPSDevice.ParseNutStatus | src/ups_device.cpp:477-535 | replaces the nine flags and nothing else |
| UpsDevice.UPSDevice.GetStatusFromNut | src/ups_device.cpp:421-475 | which variables one poll fetches, and when it remembers a full query |
| UpsDevice.UPSDevice.ApplyVariable | src/ups_device.cpp:344-397 | one variable updates its own field, and none when its value does not parse |
| UpsDevice.UPSDevice.MergeVariables | src/ups_device.cpp:336-398 | the loop, in any order, leaves every field with its own variable's value |
| UpsDevice.UPSDevice.PollOnce | src/ups_device.cpp:326-418 | one turn of the polling loop |
| UpsStatus.MergeOrderIndependent | src/ups_device.cpp:336-398 | any two orders of the same variables give the same status |
| UpsStatus.FaultIsolated | src/ups_device.cpp:395-397 | a value that does not parse is as good as absent |
| UpsStatus.MergeOneMore | src/ups_device.cpp:344-397 | applying one more variable merges it and disturbs no other |
| Refresh.MergeRefreshes | src/ups_device.cpp:336-398 | each of the sixteen fields takes its own variable, by name, rounded in its own scale and kept in range, or keeps its value |
| Refresh.ApplyRefreshes | src/ups_device.cpp:344-397 | so does a single variable |
| UpsDevice.PollRule | src/ups_device.cpp:421-475 | a minute after the last full query, or for another status, a poll stores the listing; otherwise on battery the charge and the runtime; otherwise nothing changes |
| UpsDevice.CacheAgreesWithQuerying | src/ups_device.cpp:421-475 | after every poll since the last full query the flags are those of the latest status, if and only if that query was coherent |
| UpsDevice.CacheCanDisagree | src/ups_device.cpp:421-475 | a UPS that loses power between the two questions of a full query is remembered as on line with the flags of one on battery |
| UpsDevice.FullQueryIsRecent | src/ups_device.cpp:426-447 | after every poll the last full query is less than 60 s old |
| UpsDevice.QuickPollRefreshes | src/ups_device.cpp:463-471 | on battery a skipped query still refreshes charge and runtime and touches nothing else |
| Snapshot.ReportsComeFromCommittedStatuses | src/ups_device.cpp:537-540 | however stores and loads interleave, every report 2 is built from one committed status, reads never go back, and committed statuses are a chain of merges |
| Snapshot.StepKeepsInv | src/ups_device.cpp:333-398 | every load, store, lock and unlock keeps that invariant |
| Snapshot.PollLeadsToMerge | src/ups_device.cpp:336-398 | the stores of a poll, one cell at a time, end in the merged status |
| Snapshot.MixedCopyIsNeither | src/ups_device.cpp:537-540 | what the lock rules out: a copy mixed from two polls is neither status |
| Numbers.RawNearCurve | src/ups_device.cpp:64-91 | within half a count of the piecewise-linear curve |
| Numbers.RawAtNode | src/ups_device.cpp:64-91 | exact at every 5-degree node |
| Numbers.RawAtDegrees | src/ups_device.cpp:64-91 | the 34 counts reported at -40 to 125 degrees |
| Numbers.RawInRange | src/ups_device.cpp:64-91 | between 0x31 and 0x3CC for every int16 input |
| Numbers.RawMonotone | src/ups_device.cpp:64-91 | hotter never reads lower |
| Numbers.ClampSaturates | src/ups_device.cpp:29-50 | the clamps are rounding followed by saturation |
| Control.HandleControlRequest | src/ups_device.cpp:550-715 | writes the reply to the front of the caller's buffer and nothing else, and never past its end |
| Enumeration.ControlAnswers | src/ups_device.cpp:550-715 | for every configuration and status, each setup packet of eight bytes gets exactly these data: each descriptor by its kind and index, the fixed replies, the reports, and nothing else |
| Enumeration.RepliesNameTheirKind | src/ups_device.cpp:561-633 | a descriptor reply names the kind asked for and its own length |
| Control.RepliesAreTruncatedViews | src/ups_device.cpp:550-715 | at most wLength bytes, and the reply for a smaller wLength is a prefix of that for a larger one |
| Control.NoRoomNoData | src/ups_device.cpp:550-715 | no data for wLength 0, whatever codes collide |
| Control.OutRequestsGetNoData | src/ups_device.cpp:638-707 | standard and HID requests whose data goes to the device get none back |
| Control.RepliesExactlyWhen | src/ups_device.cpp:550-715 | which requests are answered with data depends on the request alone, and this is the condition |
| Control.RepliesFit | src/usbip_server.cpp:468 | no reply outgrows the 4096-byte buffer if and only if no descriptor does |
| Control.InitialDescriptorsFit | src/ups_device.cpp:165-308 | that is the case if and only if the configured strings have at most 2047 characters |
| Control.StringRoundTrip | src/ups_device.cpp:291-308 | a host recovers a string by its length byte exactly when it has at most 126 characters |
| Control.StringIndicesResolve | src/ups_device.cpp:165-186 | the string indices in report 1 and the device descriptor lead to the strings they name |
| Control.ConfigurationIsWellFormed | src/ups_device.cpp:250-286 | the configuration is a chain of whole descriptors and announces its own length and the report descriptor's |
| Control.CreateStringDescriptor | src/ups_device.cpp:291-308 | builds the string descriptor byte by byte |
| Control.BuildDescriptors | src/ups_device.cpp:165-288 | fills the descriptor vectors in the source's order |
| NutClient.NUTClient.SendCommand | src/nut_client.cpp:81-175 | the response, what is left of the stream and whether the connection stays open, with every error; a client that was not connected reads from a new stream |
| NutClient.NUTClient.ReceiveLine | src/nut_client.cpp:103-120 | the first newline of the stream, or failure, looking at each byte once |
| NutClient.NUTClient.ReceiveBlock | src/nut_client.cpp:151-172 | receives until the END line, the size limit or a failure |
| NutClient.AnswerIgnoresSplits | src/nut_client.cpp:103-172 | under the size limit every schedule of receive calls gives the same answer |
| NutClient.BlockReads | src/nut_client.cpp:151-172 | a block is read in full however it is split |
| Strings.FindInPrefix | src/nut_client.cpp:154 | the first match in a prefix is the first match in the whole |
| NutLimits.BlockOutcome | src/nut_client.cpp:131-172 | for every size and split, a block comes out as its lines if and only if it has a line, no later line starts with the END line, and it is below the limit or exactly at it with the receive calls stopping one byte short; one that only the limit stops comes out as too long |
| NutLimits.LineOutcome | src/nut_client.cpp:103-145 | a one-line answer with anything behind it is read if and only if the receive calls stop right behind its newline, and is an error otherwise |
| NutLimits.StaysOpen | src/nut_client.cpp:103-172 | under every split the client stays connected if and only if the first line fits the buffer and a block has its END line or is too long |
| NutLimits.HeaderTooLong | src/nut_client.cpp:103-120 | a BEGIN line that does not fit the buffer fails the exchange under every split |
| NutBlocks.EmptyBlock | src/nut_client.cpp:148-172 | the END line of an empty block is never found |
| NutSession.InStepExactlyWhenDrained | src/nut_client.cpp:103-172 | the answer after a block is read right if and only if the running total of the receive calls on the block, under their real limits, is never its length less one |
| NutSession.LeftAfterBlock | src/nut_client.cpp:151-172 | a block leaves its last newline unread under the same condition, and otherwise nothing |
| NutSession.NewlineLeftBehind | src/nut_client.cpp:151-172 | a delivery that leaves that newline unread |
| NutVars.ParseVars | src/nut_client.cpp:177-212 | the scanning loop computes the line-by-line scan; an error response gives an empty map |
| NutVars.GetUpsVars | src/nut_client.cpp:177-212 | the variables of a LIST answer, or none when the exchange fails |
| NutScan.ScansExactly | src/nut_client.cpp:198-207 | a line is taken for a variable if and only if it has these parts, and then for the one they name |
| NutScan.ResponseSays | src/nut_client.cpp:177-212 | a variable has a value if and only if the response is no error and the last line that names it gives that value |
| NutRoundTrip.GetVarRoundTrip | src/nut_client.cpp:215-237 | the answer to GET VAR, received in any pieces, gives back the variable's value if and only if the value survives the text protocol |
| NutRoundTrip.ValueFits | src/nut_client.cpp:227-236 | whatever a server answers, the value taken from it has at most 255 characters and no newline |
| NutRoundTrip.LineReadsBack | src/nut_client.cpp:198-207 | a rendered variable is read back if and only if its value is not empty, fits 255 characters and has no quote, newline, NUL or, short of a full field, backslash |
| NutRoundTrip.ListVarRoundTrip | src/nut_client.cpp:131-212 | a map rendered as a LIST VAR block, in any order and received in any pieces, is read back as the same map if and only if every value is non-empty and survives and the size limit lets the block through |
| HidReadings.ReadingsAreFound | src/ups_device.cpp:759-822 | every reading of a status is declared under its usage, and wherever report 2 declares it a host reads that value |
| HidReadings.QuantitiesOfReport | src/hid_report.cpp:5-42 | the volts, amperes, seconds and kelvins a host computes by the declared units and exponents |
| EndToEnd.ListingIsStored | src/ups_device.cpp:326-418 | after a poll that lists everything each field has its own variable's value in its scale, if that parses, and else the value it had |
| EndToEnd.HostSeesListing | src/ups_device.cpp:326-418 | in every reachable state: a map listed by NUT in any order and any pieces, polled, and then asked for by an importing client with these 48 bytes in any pieces, is answered with one reply in which a host reads every reading and flag of the listing |

## Left out

- libuv, sockets and DNS: only what the callbacks may rely on is kept. A write on an open connection is taken
  to succeed, a write on a closing one to be refused.
- Server.USBIPServer.StopTimer: timers and their TimerData are values in the loop's maps, keyed by libuv's
  start number, rather than heap objects; their release is counted, and only contexts carry a `freed` mark.
- Server.USBIPServer.Receive: says nothing when a control reply it is asked for does not fit the 4096-byte buffer
  it is built in, which takes a configured string of more than 2047 characters (`Control.RepliesFit`,
  `Exported.ShortStringsHaveRoom`).
- Server.USBIPServer.Ring: says nothing once a timer fires whose client's context is gone, which is a fault.
- NutSession.InStepExactlyWhenDrained: is about blocks below the size limit; after one that is too long the
  client goes on reading in the middle of it.
- Numbers.RawNearCurve: exact reals stand in for IEEE doubles, here and in the clamps, so double rounding is
  not modelled.
- `std::stod` is a parameter of the merge; its accepted syntax and locale are not modelled.
- Flags of the status are booleans; the source stores a non-zero constant or zero.
- The program's choice of which connection's callback comes next is arbitrary in a run; nothing is said about
  fairness beyond `EngineTrace.SomeTimerIsDue`.
- The NUT client's connecting and name resolution are whether connecting and sending succeed and what a new
  connection delivers.
- `src/device_monitor.cpp`, `src/main.cpp`, `handle_interrupt_request` and debug printing: they would add
  only easy members.
