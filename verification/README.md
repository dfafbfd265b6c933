# Device protocols and message queue: a verified model

This project models the two stacks at the heart of the application and proves properties of them over
all inputs, all runs and all ways a network can cut a byte stream.

**The device stack.** The C3 access panel protocol: CRC-16/ARC (`Gf2`, `Crc16`), the frame (`C3Frame`), the
schema-driven record parser (`C3Records`), the text payloads (`C3Text`), requests and replies (`C3Messages`),
the driver with its handshake and six request families (`C3Connection`), and what holds of it: accounting over
every run (`C3Accounting`), invisibility of TCP segmentation (`C3Segmentation`), what each caller is told
(`C3Replies`), correctness of a whole table query against a panel (`C3Transfer`), and what "ready" means (`C3Session`). `C3Driver` is the same driver as an
object whose handlers update its fields, each proved to be its specified event. The Modbus TCP codec
(`ModbusCodec`; MBAP as in section 3.1.3 of the MODBUS Messaging on TCP/IP Implementation Guide V1.0b, functions
as in sections 6.1-6.6, 6.11, 6.12 and 7 of the MODBUS Application Protocol Specification V1.1b3) and its driver
(`ModbusConnection`), composed with the connection lifecycle (`ConnectionState`).

**The message-queue stack.** The stream re-chunking loop (`MqBuffer`), the consumer (`MqService`), the consumer
and its broker as a distributed system (`MqConsumer`), deliveries through window, FIFO worker and store
(`MqLedger`, `MqWindow`), what the store holds (`MqStored`), exactly when an acknowledgement overtakes its insert (`MqOvertaking`), and the effect of a
pause (`MqPause`).

Handlers are atomic. The socket, the timers, the broker, the panel and the application's callables are
events or answers carried by events. Bytes are integers from 0 to 255, words from 0 to 65535; wrap-around,
truncating casts and the exclusive or of the CRC register are written out. A log or an outbox is the sequence of
what a component has written and emitted.

Where the code and its comments disagree, the model follows the code: a manual attempt does end a reconnect loop
(`src/core/connection_state.cpp:49`, against `src/core/connection_state.h:59`), and the C3 driver can be ready during
a reconnect's handshake (`src/features/c3protocol/c3_connection.cpp:569-571`, against
`src/features/c3protocol/c3_connection.h:16-18`). Three more promises turn out conditional, and the exact condition
is proved over all inputs or all runs: the parameter text round trip needs values without NUL and content that fits a
frame (`C3Text.ParametersRoundTripIff`); that what is acknowledged is stored needs no step to overtake a queued insert
(`MqOvertaking.PersistedThroughoutIff`); and the reconnect loop needs handlers not to be swapped under a retry and no
auto-connect without a handler while connected (`ConnectionState.StepKeepsHealthyIff`). The exact condition for
readiness is `C3Session.ReadyAfterHandshakeIff`.

To check the whole project: `dafny verify dfyconfig.toml`.

## Model

| member | source | states |
|---|---|---|
| `Crc16.Compute` | src/features/c3protocol/c3_codec.cpp:87-100 | the nested bit loop over the 16-bit register returns the specified checksum of every byte string |
| `Crc16.CrcIsRemainder` | src/features/c3protocol/c3_codec.cpp:87-100 | for every byte string, a polynomial is the remainder of message * x^16 modulo x^16+x^15+x^2+1 over GF(2) if and only if it is the reflected content of the register |
| `Crc16.CrcXor` | src/features/c3protocol/c3_codec.cpp:87-100 | the checksum is xor-linear on messages of equal length |
| `Crc16.CrcResidue` | src/features/c3protocol/c3_codec.cpp:87-100 | a message followed by two bytes has checksum zero if and only if those bytes are its checksum, low byte first |
| `Crc16.BurstChangesCrc` | src/features/c3protocol/c3_codec.cpp:87-100 | any change confined to sixteen consecutive message bits changes the checksum |
| `Gf2.RemainderUnique` | src/features/c3protocol/c3_codec.cpp:87-100 | remainders modulo a polynomial of degree 16 are unique, so the checksum is the only value that fits its definition |
| `C3Frame.BuildFrame` | src/features/c3protocol/c3_codec.cpp:21-41 | the appending encoder builds the specified frame, whose bytes WireLayout fixes one by one |
| `C3Frame.WireLayout` | src/features/c3protocol/c3_codec.cpp:21-41 | every byte of an encoded frame by position and in numbers: 0xAA, 0x01, command, length, in a session its id and then the request number, payload, checksum of everything between, 0x55 |
| `C3Frame.ReadFrame` | src/features/c3protocol/c3_codec.cpp:51-81 | the generic decoder by its own buffer offsets, with the checksum from the loop, is the decoder of the frame specification |
| `C3Frame.ReadConnectReply` | src/features/c3protocol/c3_codec.cpp:107-141 | the first copy, by its own offsets, is the specified connect decoder |
| `C3Frame.ReadGenericReply` | src/features/c3protocol/c3_codec.cpp:155-182 | the second copy, by its own offsets, is the specified reply decoder |
| `C3Frame.DecodersAgree` | src/features/c3protocol/c3_codec.cpp:107-182 | one frame specification for all three: Rejected if and only if the data starts with a printed error reply, Ok of the copies if and only if it starts with a printed ok reply, and the copies differ from the generic decoder exactly on intact frames of other commands |
| `C3Frame.DecodeWrapped` | src/features/c3protocol/c3_codec.cpp:107-141 | what each of the three decoders answers on a printed frame with any version, command and content, whatever follows it |
| `C3Frame.DecodeGenericExact` | src/features/c3protocol/c3_codec.cpp:51-81 | the generic decoder answers Ok with a command and payload if and only if the data starts with a printed non-error frame of that command whose content strips to that payload |
| `C3Frame.RoundTripIff` | src/features/c3protocol/c3_codec.cpp:21-81 | encoding then decoding, with any trailing bytes and in both session modes, is the identity if and only if the 16-bit length field can hold the content |
| `C3Frame.PrefixIncomplete` | src/features/c3protocol/c3_codec.cpp:51-58 | every strict prefix of one frame is Incomplete for all three decoders |
| `C3Frame.BurstCaught` | src/features/c3protocol/c3_codec.cpp:59-69 | any change confined to sixteen consecutive bits of a printed frame outside its length field makes all three decoders answer Malformed, whatever follows |
| `C3Frame.AdjacentBytesCaught` | src/features/c3protocol/c3_codec.cpp:59-69 | changing one byte or two adjacent bytes of a frame outside the length field makes all three decoders answer Malformed |
| `C3Records.ParsePayload` | src/features/c3protocol/c3_codec.cpp:297-380 | the record parser, walking by offsets and building records on the way, equals the parser that reads rows of cells and interprets them afterwards; every read is in range |
| `C3Records.ReadRecord` | src/features/c3protocol/c3_codec.cpp:338-376 | one pass over the columns reads one record or refuses, and stops where the record ends |
| `C3Records.ReadInteger` | src/features/c3protocol/c3_codec.cpp:359-364 | the byte loop of an integer cell computes its little-endian value as a 64-bit signed integer |
| `C3Records.SignedInRange` | src/features/c3protocol/c3_codec.cpp:354-364 | a cell of at most eight bytes always lands in the range of a 64-bit signed integer |
| `C3Records.ParseExact` | src/features/c3protocol/c3_codec.cpp:297-380 | Ok with given records if and only if the payload is a matching header followed by whole rows of known, well-typed columns that interpret to those records; no records on any other status |
| `C3Records.PrintedUnique` | src/features/c3protocol/c3_codec.cpp:297-380 | no payload is the print of two different column lists or tables of cells |
| `C3Records.ValuesRoundTrip` | src/features/c3protocol/c3_codec.cpp:297-380 | whatever cells of any width a panel writes integers below 2^63 and strings with, under distinct column names, the parser returns records that hold exactly those values under exactly those names |
| `C3Text.PairsOfPrint` | src/features/c3protocol/c3_codec.cpp:184-193 | the pairs found in a printed list of named, non-empty, comma- and tab-free values are that list |
| `C3Text.FormatPairs` | src/features/c3protocol/c3_codec.cpp:575-582 | the encoder's loop joins key=value items with commas in iteration order |
| `C3Text.InsertPairs` | src/features/c3protocol/c3_codec.cpp:566-571 | the decoder's loop inserts the found pairs in order, the last value of a repeated key winning |
| `C3Text.FoundFits` | src/features/c3protocol/c3_codec.cpp:184-193 | pairs are found in separate places: printing what was found is never longer than the text |
| `C3Text.ParametersRoundTripIff` | src/features/c3protocol/c3_codec.cpp:559-583 | for every map with keys of name characters and non-empty comma- and tab-free values, in both session modes and whatever follows, decoding the encoded frame returns the map if and only if no value holds a NUL and the length field can hold the content |
| `C3Text.NulCutsValue` | src/features/c3protocol/c3_codec.cpp:184-193 | a value with a NUL is read back only up to it: the input on which the round trip fails |
| `C3Text.Characters` | src/features/c3protocol/c3_codec.cpp:184-193 | names are exactly the ASCII word characters and the tilde, values everything but comma and tab, by their Latin-1 codes |
| `C3Text.SignedIntRead` | src/features/c3protocol/c3_codec.cpp:219-229 | a sign and surrounding blanks are understood in a number, and what a 32-bit integer cannot hold reads as zero |
| `C3Text.ReadTables` | src/features/c3protocol/c3_codec.cpp:200-235 | the schema decoder's loops over lines and pairs build the specified tables |
| `C3Text.TablesRoundTrip` | src/features/c3protocol/c3_codec.cpp:200-235 | every panel schema of named tables and fields, printed one table a line, is decoded to itself |
| `C3Messages.BuildGetData` | src/features/c3protocol/c3_codec.cpp:237-249 | the request for a table carries its index, the number of its columns, their indexes in order and two reserved bytes |
| `C3Messages.AllWaitTogether` | src/features/c3protocol/c3_codec.cpp:251-295 | every reply decoder of the driver waits exactly while the frame is incomplete |
| `C3Accounting.StepKeepsInv` | src/features/c3protocol/c3_connection.cpp:35-567 | every event keeps, for all six families, flag, timer and step in agreement with each other and with the log, and the reconnect loop sound |
| `C3Accounting.RunKeepsInv` | src/features/c3protocol/c3_connection.cpp:35-567 | the same over every run |
| `C3Accounting.RequestsConserved` | src/features/c3protocol/c3_connection.cpp:401-536 | after every run and for every family: accepted requests equal signals plus drops plus the one pending, pending equals timer armed, and equals step set where the family has steps |
| `C3Accounting.SignalSettlesOneRequest` | src/features/c3protocol/c3_connection.cpp:150-536 | at every point of every run a signal settles exactly one request, the last one accepted in its family and not settled since, and names the table that request asked for |
| `C3Accounting.LinkRuns` | src/features/c3protocol/c3_connection.cpp:35-48 | the driver's lifecycle part is a feasible run of the connection lifecycle made of driver events only, so alternation, backoff and quiescence hold of this driver |
| `C3Segmentation.FallThroughIsQuiet` | src/features/c3protocol/c3_connection.cpp:263-398 | once the table query has consumed a reply, the branches its missing return falls into do nothing |
| `C3Segmentation.SplitInvisible` | src/features/c3protocol/c3_connection.cpp:97-399 | from any settled state, splitting at most one frame over any number of reads, empty ones included, ends in the state one read ends in |
| `C3Segmentation.SegmentationInvisible` | src/features/c3protocol/c3_connection.cpp:97-399 | in every reachable state with nothing buffered, every split of one reply frame gives the same state, signals and written frames as one delivery, for the handshake and all six families |
| `C3Replies.AskListens` | src/features/c3protocol/c3_connection.cpp:401-531 | a request on a quiet connection is accepted, written as its command in numbers and its payload under the session of the moment, and its family alone then waits where it should |
| `C3Replies.ControlAnswered` | src/features/c3protocol/c3_connection.cpp:303-316 | however the reply is split, a control command is acknowledged if and only if the panel answers with an ok frame, and fails otherwise; the caller is told once and nothing else changes |
| `C3Replies.ParametersWritten` | src/features/c3protocol/c3_connection.cpp:333-346 | the same for writing parameters |
| `C3Replies.ParametersRead` | src/features/c3protocol/c3_connection.cpp:318-332 | the map of parameters a panel prints is the map the caller receives |
| `C3Replies.ParametersRefused` | src/features/c3protocol/c3_connection.cpp:318-332 | a refused or broken reply is reported as that failure |
| `C3Replies.LogRead` | src/features/c3protocol/c3_connection.cpp:265-285 | a log payload of whole records is received as its sixteen-byte slices in order; any other size is received as empty and switches the mode |
| `C3Replies.LogPairsRead` | src/features/c3protocol/c3_connection.cpp:286-299 | in key-value mode a printed map is received as one record, an empty one as none |
| `C3Replies.LogRefused` | src/features/c3protocol/c3_connection.cpp:265-299 | a refused or broken log reply is reported as that failure in either mode |
| `C3Replies.CountAsksForTable` | src/features/c3protocol/c3_connection.cpp:347-379 | the count goes on with the first table of the name asked for, and the frame written asks for that table's index |
| `C3Replies.CountFindsNoTable` | src/features/c3protocol/c3_connection.cpp:366-373 | a panel without a table of that name ends the count with that failure |
| `C3Replies.CountTold` | src/features/c3protocol/c3_connection.cpp:380-396 | the number a panel prints in four bytes is the number the caller receives, under the name asked for |
| `C3Replies.CountRefused` | src/features/c3protocol/c3_connection.cpp:347-396 | a refused or broken reply ends the count with the failure of its step |
| `C3Replies.TimeoutTells` | src/features/c3protocol/c3_connection.cpp:412-536 | each family that times out tells its own caller, naming the table where there is one |
| `C3Replies.Greets` | src/features/c3protocol/c3_connection.cpp:51-58 | an opened socket is drained and greeted with command 0x76 under session 0xFEFE and request number -258 |
| `C3Replies.SessionAnswered` | src/features/c3protocol/c3_connection.cpp:101-128 | an ok answer establishes the session it names, an error answer falls back to command 0x01 without a session, anything else fails the attempt; the lifecycle hears of it |
| `C3Replies.SessionLessAnswered` | src/features/c3protocol/c3_connection.cpp:129-146 | after the fallback only an ok answer establishes, without a session |
| `C3Replies.AttemptStarts` | src/features/c3protocol/c3_connection.cpp:35-49 | an attempt starts with nothing read and the lifecycle waiting; a retry closes the old socket first |
| `C3Replies.AttemptFails` | src/features/c3protocol/c3_connection.cpp:60-95 | a lost socket or a silent panel ends a running attempt once, and the lifecycle hears of it |
| `C3Replies.LossFreesEveryone` | src/features/c3protocol/c3_connection.cpp:60-77 | losing the socket or disconnecting frees every family |
| `C3Replies.ProbeIff` | src/features/c3protocol/c3_connection.cpp:45-45 | the heartbeat finds the connection alive if and only if the driver is ready and no handshake is running |
| `C3Replies.SaysGoodbye` | src/features/c3protocol/c3_connection.cpp:538-546 | a ready driver that disconnects first writes command 0x02 under its own session |
| `C3Transfer.ConfigStep` | src/features/c3protocol/c3_connection.cpp:152-182 | the query goes on with the first table of the name asked for, and the frame it writes asks the panel for that table's index and columns, in order |
| `C3Transfer.QueryFindsNoTable` | src/features/c3protocol/c3_connection.cpp:168-174 | a panel without a table of that name ends the query with that failure |
| `C3Transfer.QueryRefused` | src/features/c3protocol/c3_connection.cpp:152-230 | a refused or broken reply ends the query with the failure of its step |
| `C3Transfer.CompressedRefused` | src/features/c3protocol/c3_connection.cpp:189-198 | a compressed table is refused by the driver |
| `C3Transfer.WrongOffsetRefused` | src/features/c3protocol/c3_connection.cpp:222-230 | a piece for another offset than the one asked for ends the query |
| `C3Transfer.FetchStep` | src/features/c3protocol/c3_connection.cpp:216-244 | each honest piece, however split, is stored in its place, the next request asks for exactly the assembly's length, and the measure falls |
| `C3Transfer.FreeStep` | src/features/c3protocol/c3_connection.cpp:245-262 | whatever frame acknowledges the release, the assembled buffer is parsed and the query ends with one signal |
| `C3Transfer.TransferCorrect` | src/features/c3protocol/c3_connection.cpp:183-262 | against every panel that serves non-empty pieces of its buffer at the offset it reads in the driver's request, at every point: the assembly is a prefix of the buffer and the outstanding request asks for its length, or all of it has arrived, or exactly one signal has been emitted and it is what the whole buffer parses to |
| `C3Transfer.TransferEnds` | src/features/c3protocol/c3_connection.cpp:216-244 | a transfer takes at most one round a byte plus one, and has delivered by then |
| `C3Transfer.TransferGoesOn` | src/features/c3protocol/c3_connection.cpp:216-262 | until it has delivered, an honest reply exists: the protocol cannot get stuck |
| `C3Transfer.TransferReachable` | src/features/c3protocol/c3_connection.cpp:35-206 | for every buffer a panel may hold, some run of the driver from its initial state reaches the start of its transfer |
| `C3Transfer.PrepareStep` | src/features/c3protocol/c3_connection.cpp:189-206 | an announced uncompressed buffer starts a transfer at offset zero with the announced length |
| `C3Transfer.SingleFrame` | src/features/c3protocol/c3_connection.cpp:208-215 | a table that fits one frame is parsed from that frame and signalled once |
| `C3Transfer.PiecesLikeOneFrame` | src/features/c3protocol/c3_connection.cpp:183-262 | sent in pieces or in one frame, the same buffer gives the caller the same success or failure and the same records |
| `C3Transfer.QueryDeliversTable` | src/features/c3protocol/c3_connection.cpp:150-263 | a panel has tables and rows, a caller asks for a table by name; the panel describes its tables, reads the request it then gets, prints what that request asks for and serves it in pieces, with every reply split arbitrarily: the caller is told once, and told exactly the rows of the first table of that name under its columns |
| `C3Session.ReadyIff` | src/features/c3protocol/c3_connection.cpp:569-571 | in every run, ready means the socket is open and the last session has not been forgotten |
| `C3Session.PromiseKeptIff` | src/features/c3protocol/c3_connection.cpp:35-571 | for every state in which ready implies a handshake completed since the socket opened, and every event: the step keeps that promise if and only if it does not open a socket while a session is remembered |
| `C3Session.ReadyAfterHandshakeIff` | src/features/c3protocol/c3_connection.h:16-18 | over every run the promise holds at every point if and only if no socket opens while a session is remembered; disconnecting first keeps it |
| `C3Session.ReadyBeforeHandshake` | src/features/c3protocol/c3_connection.cpp:45-58 | a run that breaks the promise: after a lost session and a reconnect the driver is ready before the panel has answered |
| `C3Session.ReadyAfterRefusal` | src/features/c3protocol/c3_connection.cpp:122-128 | a run that breaks it with no attempt running: the answer was malformed, and the driver stays ready on the refused connection |
| `C3Driver.Connection.Connect` | src/features/c3protocol/c3_connection.cpp:35-49 | the handler keeps the object valid and is the specified event: buffer cleared, attempt launched, lifecycle started |
| `C3Driver.Connection.SocketOpened` | src/features/c3protocol/c3_connection.cpp:51-58 | the handler keeps the object valid and is the specified event: handshake frame written, request number reset |
| `C3Driver.Connection.SocketFailed` | src/features/c3protocol/c3_connection.cpp:60-84 | the handler keeps the object valid and is the specified event: every pending request dropped, a running attempt failed |
| `C3Driver.Connection.HandshakeTimedOut` | src/features/c3protocol/c3_connection.cpp:86-95 | the handler keeps the object valid and is the specified event: socket aborted, a running attempt failed |
| `C3Driver.Connection.HandshakeBytes` | src/features/c3protocol/c3_connection.cpp:97-148 | the handshake branch is the specified one: session, fallback to session-less, or failure |
| `C3Driver.Connection.DataBytes` | src/features/c3protocol/c3_connection.cpp:150-263 | the table query's branch is the specified one, including whether it returns or falls through |
| `C3Driver.Connection.OtherBytes` | src/features/c3protocol/c3_connection.cpp:265-399 | the remaining branches are the specified ones, first pending family first |
| `C3Driver.Connection.BytesArrived` | src/features/c3protocol/c3_connection.cpp:97-399 | the read handler as a whole keeps the object valid and is the specified event |
| `C3Driver.Connection.Accounts` | src/features/c3protocol/c3_connection.cpp:401-536 | of a valid object, at any moment and for every family: accepted requests equal signals plus drops plus the one pending, and flag, timer and step agree |
| `C3Driver.DeliverPieces` | src/features/c3protocol/c3_connection.cpp:97-399 | feeding a valid object one reply in any pieces leaves it valid and where the whole reply would |
| `C3Driver.AcceptedIsWritten` | src/features/c3protocol/c3_connection.cpp:401-531 | an accepted request appends exactly its acceptance and one frame, which carries the session id and request number of the moment and which a panel reads as its command and payload if and only if its length fits; a refused one appends nothing |
| `C3Driver.Connection.RequestTableData` | src/features/c3protocol/c3_connection.cpp:401-410 | accepted only when ready and not pending; the log then grows by the acceptance and one frame that decodes to the schema request; the object stays valid |
| `C3Driver.Connection.RequestTableRecordCount` | src/features/c3protocol/c3_connection.cpp:418-427 | likewise for the record count |
| `C3Driver.Connection.RequestRealtimeLog` | src/features/c3protocol/c3_connection.cpp:436-449 | likewise for the real-time log, in the mode learned so far |
| `C3Driver.Connection.SendControlRequest` | src/features/c3protocol/c3_connection.cpp:457-466 | likewise for a control command, whose frame decodes to operation, three parameters and a reserved zero |
| `C3Driver.Connection.RequestDeviceParams` | src/features/c3protocol/c3_connection.cpp:508-516 | likewise for reading parameters |
| `C3Driver.Connection.SetDeviceParams` | src/features/c3protocol/c3_connection.cpp:523-531 | likewise for writing parameters |
| `C3Driver.Connection.DataQueryTimedOut` | src/features/c3protocol/c3_connection.cpp:412-416 | a timeout frees the family and emits its failure |
| `C3Driver.Connection.Disconnect` | src/features/c3protocol/c3_connection.cpp:538-567 | goodbye frame when ready, session and every request forgotten, lifecycle disconnected |
| `ConnectionState.Machine.Connect` | src/core/connection_state.cpp:48-67 | the manual attempt moves the machine to the specified state, keeps it valid and answers whether it started |
| `ConnectionState.Machine.AutoConnect` | src/core/connection_state.cpp:69-94 | the startup attempt moves the machine to the specified state and keeps it valid if and only if it is no hazard |
| `ConnectionState.Machine.Disconnect` | src/core/connection_state.cpp:96-105 | the disconnect moves the machine to the specified state and keeps it valid |
| `ConnectionState.Machine.SetHeartbeatInterval` | src/core/connection_state.cpp:115-122 | the new cadence arms or stops the heartbeat as specified and keeps the machine valid |
| `ConnectionState.Machine.HeartbeatFired` | src/core/connection_state.cpp:124-131 | a failed probe drops the connection and starts the loop; the machine stays valid |
| `ConnectionState.Machine.RetryFired` | src/core/connection_state.cpp:133-156 | a retry that is not under way climbs the ladder; the machine stays valid |
| `ConnectionState.Machine.ReportPendingConnectResult` | src/core/connection_state.cpp:158-181 | a late result is heard only while one is awaited; the machine stays valid |
| `ConnectionState.StepKeepsSoundIff` | src/core/connection_state.cpp:48-210 | every event keeps the loop sound (something armed or awaited while reconnecting, counters belong to the loop, never connected and reconnecting, a connection watched) if and only if it is neither of two hazards |
| `ConnectionState.StepKeepsHealthyIff` | src/core/connection_state.cpp:48-210 | every event keeps the loop sound and both signals truthful if and only if it is neither hazard |
| `ConnectionState.DriverNeverStalls` | src/core/connection_state.cpp:48-210 | in every run of a driver that installs handlers only with the attempt that follows, the loop is sound |
| `ConnectionState.RecoversWhenPeerReturns` | src/core/connection_state.cpp:133-181 | from every sound reconnecting state, one tick and one report lead to connected |
| `ConnectionState.AttemptSucceeds` | src/core/connection_state.cpp:48-94 | a manual or startup attempt that succeeds, at once or later, ends connected, watched and without a loop |
| `ConnectionState.OnlyAutoConnectRetries` | src/core/connection_state.cpp:48-181 | a manual attempt that fails, at once or later, is not retried; a startup attempt that fails is, after five seconds |
| `ConnectionState.HeartbeatWatches` | src/core/connection_state.cpp:124-131 | in every sound connected state with a cadence the heartbeat is armed, leaves a live peer alone, and for a dead one starts the loop |
| `ConnectionState.StrandedByHandlerSwap` | src/core/connection_state.cpp:38-46 | the first hazard happens: replacing handlers during a retry in flight leaves a loop that nothing will ever move |
| `ConnectionState.ReconnectingWhileConnected` | src/core/connection_state.cpp:69-74 | the second hazard happens: auto-connecting without a handler leaves the machine connected and reconnecting at once |
| `ConnectionState.ManualAttemptEndsLoop` | src/core/connection_state.cpp:48-49 | a manual attempt ends a reconnect loop, whether or not it starts |
| `ConnectionState.OutageClimbsLadder` | src/core/connection_state.cpp:133-210 | after n consecutive failures, at once or reported later in any mix, rung min(n, 6) is armed and the loop goes on |
| `ConnectionState.LadderNeverDescends` | src/core/connection_state.cpp:14-28 | the delay never falls as failures grow |
| `ConnectionState.TotalWaitClosedForm` | src/core/connection_state.cpp:14-28 | the summed wait before retry n is 135000 + 60000 * (n - 7) ms from the seventh on, and the table's sums before |
| `ConnectionState.QuietAfterDisconnect` | src/core/connection_state.cpp:96-105 | from any state, after a disconnect and over every run without a new attempt, no timer fires, no report is heard and nothing is signalled |
| `ConnectionState.RunIsFaithful` | src/core/connection_state.cpp:183-197 | over every run both signals strictly alternate and their last value is the state |
| `ModbusCodec.Pack` | src/features/modbus/modbus_codec.cpp:33-43 | setting bits in place in a zeroed buffer gives the specified packing of every coil list |
| `ModbusCodec.Unpack` | src/features/modbus/modbus_codec.cpp:21-31 | the nested loop gives the bits of the bytes, least significant first |
| `ModbusCodec.UnpackPacked` | src/features/modbus/modbus_codec.cpp:21-43 | unpacking packed coils gives the coils followed only by false, up to a multiple of eight |
| `ModbusCodec.PackUnpacked` | src/features/modbus/modbus_codec.cpp:21-43 | packing unpacked bytes gives the bytes |
| `ModbusCodec.FixedRequestExact` | src/features/modbus/modbus_codec.cpp:49-77 | each fixed-size request is twelve bytes with every field where a server looks for it and an exact length |
| `ModbusCodec.EncodedHead` | src/features/modbus/modbus_codec.cpp:49-77 | every request starts with its transaction and protocol zero, and carries its unit and function code where the header puts them |
| `ModbusCodec.CodesOnWire` | src/features/modbus/modbus_codec.cpp:53-63 | the eight function codes, in numbers, on the wire |
| `ModbusCodec.EncodeRegisters` | src/features/modbus/modbus_codec.cpp:169-187 | the appending encoder builds the specified frame |
| `ModbusCodec.EncodeCoils` | src/features/modbus/modbus_codec.cpp:449-463 | the appending encoder builds the specified frame |
| `ModbusCodec.MultipleWriteExactIff` | src/features/modbus/modbus_codec.cpp:169-187 | a server that insists on exact size fields reads what was sent if and only if the data is at most 255 bytes |
| `ModbusCodec.RegistersWithinLimits` | src/features/modbus/modbus_codec.cpp:169-187 | for 1 to 123 registers the frame fits 260 bytes, its size fields are exact and the server reads each register |
| `ModbusCodec.CoilsWithinLimits` | src/features/modbus/modbus_codec.cpp:449-463 | for 1 to 1968 coils the frame fits 260 bytes, its size fields are exact and the server unpacks the coils |
| `ModbusCodec.DecodeResponse` | src/features/modbus/modbus_codec.cpp:79-126 | the decoders by buffer positions equal the decoder of header and function-specific bytes, for all eight functions |
| `ModbusCodec.DecodePrinted` | src/features/modbus/modbus_codec.cpp:79-167 | every positive or exception reply a server prints decodes to itself, whatever follows it |
| `ModbusCodec.DecodedIsPrinted` | src/features/modbus/modbus_codec.cpp:79-167 | what decodes to a positive reply starts with exactly that reply as a server prints it |
| `ModbusCodec.ExceptionExact` | src/features/modbus/modbus_codec.cpp:98-107 | a response is an exception with a given code if and only if it is complete, well framed, has the high bit in its function code and that code after it |
| `ModbusCodec.WriteEchoes` | src/features/modbus/modbus_codec.cpp:64-77 | an echoed single write decodes to the address and value that were asked for |
| `ModbusCodec.PrefixIncomplete` | src/features/modbus/modbus_codec.cpp:82-91 | every strict prefix of one response is Incomplete, and the response is not |
| `ModbusConnection.Connection.Connect` | src/features/modbus/modbus_connection.cpp:31-46 | the handler keeps the object valid and is the specified event on driver and lifecycle together |
| `ModbusConnection.Connection.Disconnect` | src/features/modbus/modbus_connection.cpp:48-54 | the handler keeps the object valid and is the specified event |
| `ModbusConnection.Connection.SocketReported` | src/features/modbus/modbus_connection.cpp:16-25 | a socket outcome is reported to the lifecycle; losing the connection forgets the request |
| `ModbusConnection.Connection.Write` | src/features/modbus/modbus_connection.cpp:56-168 | a request is accepted only when connected and idle, and then appends exactly its frame; the object stays valid |
| `ModbusConnection.Connection.BytesArrived` | src/features/modbus/modbus_connection.cpp:170-332 | the read handler keeps the object valid and is the specified event |
| `ModbusConnection.Connection.TimerFired` | src/features/modbus/modbus_connection.cpp:338-356 | a timeout emits the pending kind's own failure, and nothing when nothing is pending; the object stays valid |
| `ModbusConnection.Connection.Accounts` | src/features/modbus/modbus_connection.cpp:56-356 | of a valid object, at any moment: sent requests equal signals plus drops plus the one pending, which implies connected and timer armed |
| `ModbusConnection.DeliverPieces` | src/features/modbus/modbus_connection.cpp:170-332 | feeding a valid object any stream in any pieces leaves it valid and where the whole stream would |
| `ModbusConnection.RunKeepsInv` | src/features/modbus/modbus_connection.cpp:10-356 | in every reachable state of driver and lifecycle: a pending request implies connected and timer armed, buffered bytes belong to a pending request they do not answer yet, the log obeys the protocol monitor, and the reconnect loop is sound |
| `ModbusConnection.EveryRequestConcludes` | src/features/modbus/modbus_connection.cpp:56-356 | in every run each accepted request is concluded next, once, by a signal of its own kind or a drop, or is the one pending |
| `ModbusConnection.NothingUnsolicited` | src/features/modbus/modbus_connection.cpp:170-356 | in every run no signal and no drop occurs without its own request just before it |
| `ModbusConnection.RequestsConserved` | src/features/modbus/modbus_connection.cpp:56-356 | accepted requests equal signals plus drops plus the one pending |
| `ModbusConnection.TransactionsCount` | src/features/modbus/modbus_connection.cpp:60-66 | in every run the n-th request sent carries transaction n, modulo 2^16, and its own function code |
| `ModbusConnection.DropsOnlyOnLoss` | src/features/modbus/modbus_connection.cpp:10-25 | the lifecycle's events touch a request only when the connection is lost, which drops it without a signal |
| `ModbusConnection.OwnerForgets` | src/features/modbus/modbus_connection.cpp:31-54 | reconnecting or disconnecting forgets the request and stops its timer |
| `ModbusConnection.ConnectionOpens` | src/features/modbus/modbus_connection.cpp:16-46 | from every valid state, connecting and a socket that opens, at once or after a failure and a retry, make the driver accept a request |
| `ModbusConnection.DeadPeerDropsRequest` | src/features/modbus/modbus_connection.cpp:36-46 | a dead peer is noticed by the heartbeat, which ends connection and request; a live one changes nothing |
| `ModbusConnection.LinkRuns` | src/features/modbus/modbus_connection.cpp:10-46 | the driver's lifecycle part is a feasible run of the connection lifecycle, so every law of its runs holds here |
| `ModbusConnection.SegmentationInvisible` | src/features/modbus/modbus_connection.cpp:170-332 | from every state that holds no answer yet, any split of any bytes over reads ends in the state one read ends in |
| `ModbusConnection.ReplyDelivered` | src/features/modbus/modbus_connection.cpp:170-332 | a server's reply, however split and whatever transaction it names, tells the caller once, in the signal of the kind that was asked, exactly what the server said; an exception is that kind's failure with the server's code |
| `ModbusConnection.MalformedDelivered` | src/features/modbus/modbus_connection.cpp:170-332 | bytes that decode to nothing a server prints fail the request as malformed, in its own signal |
| `ModbusConnection.TimeoutTells` | src/features/modbus/modbus_connection.cpp:338-356 | a request that times out fails as that, in its own signal |
| `ModbusConnection.SingleWriteConfirmed` | src/features/modbus/modbus_connection.cpp:112-153 | an echoed single write tells the caller the address and value it asked for, and nothing else |
| `MqBuffer.Stream.Feed` | src/features/mq/mq_buffer.cpp:3-16 | for counts a 32-bit integer holds, the loop leaves consumer state, records and remainder of draining the old buffer plus the chunk |
| `MqBuffer.DrainConserves` | src/features/mq/mq_buffer.cpp:3-16 | consumed bytes followed by the remainder are the input, for any consumer whose counts a 32-bit integer holds |
| `MqBuffer.FeedAllIsDrain` | src/features/mq/mq_buffer.cpp:3-16 | for an honest, prefix-stable consumer, feeding any partition equals draining the whole stream |
| `MqBuffer.ChunkingInvisibleIff` | src/features/mq/mq_buffer.cpp:3-16 | for an honest consumer the partition of the stream is invisible if and only if complete records are prefix-stable |
| `MqService.Consumer.Start` | src/features/mq/mq_service.cpp:55-66 | starts a consumer unless paused, consuming, starting or without a channel |
| `MqService.Consumer.PauseConsuming` | src/features/mq/mq_service.cpp:115-129 | pause cancels; resume confirms every committed delivery once, in some order, and starts again if idle |
| `MqService.Consumer.ConfirmInserted` | src/features/mq/mq_service.cpp:131-147 | acknowledges, holds back during a pause, or ignores |
| `MqService.Consumer.CancelCurrent` | src/features/mq/mq_service.cpp:149-155 | asks for at most one cancel |
| `MqService.Consumer.ConsumeSucceeded` | src/features/mq/mq_service.cpp:68-75 | a granted consumer is cancelled at once if paused meanwhile |
| `MqService.Consumer.ConsumerCancelled` | src/features/mq/mq_service.cpp:99-107 | a broker-initiated cancel restarts unless paused |
| `MqService.Consumer.CancelSucceeded` | src/features/mq/mq_service.cpp:156-163 | a confirmed cancel restarts unless paused |
| `MqService.Consumer.Received` | src/features/mq/mq_service.cpp:76-98 | a decodable delivery becomes pending, an undecodable one is rejected and forgotten |
| `MqService.Consumer.ResetConnectionState` | src/features/mq/mq_service.cpp:184-196 | losing the channel forgets consumer and deliveries but not the pause |
| `MqConsumer.StepKeepsInv` | src/features/mq/mq_service.cpp:55-168 | every interleaving of commands, broker steps, replies and broker-initiated cancels keeps the system in one of ten phases that fix what is in flight |
| `MqConsumer.AtMostOneConsumer` | src/features/mq/mq_service.cpp:55-168 | at every point of every run at most one consumer is live at the broker or being started |
| `MqConsumer.LastCommandWins` | src/features/mq/mq_service.cpp:55-168 | whenever nothing is in flight, the service consumes, and the broker has a live consumer, if and only if the last command was not a pause |
| `MqConsumer.LossLeavesOnlyThePause` | src/features/mq/mq_service.cpp:184-196 | losing the channel leaves nothing but the pause |
| `MqConsumer.ClosedSendsNothing` | src/features/mq/mq_service.cpp:131-182 | without a channel nothing is sent |
| `MqLedger.StepBalanced` | src/features/mq/mq_service.cpp:76-147 | every event, across any number of channels, keeps committed within pending, pending unsettled, nothing acknowledged twice or both acknowledged and rejected, and one row per envelope id |
| `MqLedger.RunBalanced` | src/features/mq/mq_service.cpp:131-196 | the same at every point of every run |
| `MqLedger.NoAckWhilePaused` | src/features/mq/mq_service.cpp:131-138 | while paused, no event but the resume acknowledges anything |
| `MqStored.InsertExact` | src/features/mq/mq_store.cpp:64-85 | insert-or-ignore leaves the row there and every other row unchanged |
| `MqStored.MarkExact` | src/features/mq/mq_store.cpp:87-92 | marking changes exactly the rows of that envelope |
| `MqStored.PurgeExact` | src/features/mq/mq_store.cpp:153-160 | a purge deletes exactly the rows it names |
| `MqStored.RowStays` | src/features/mq/mq_tab.cpp:288-294 | over every run, what an insert job wrote is in the store until a purge names it |
| `MqStored.PurgeTakes` | src/features/mq/mq_store.cpp:153-160 | a purged envelope is gone when the purge has run |
| `MqStored.CommandsQueue` | src/features/mq/mq_tab.cpp:266-281 | publishing and purging go through the same queue |
| `MqStored.StoredIff` | src/features/mq/mq_tab.cpp:282-313 | over every run, a delivery counts as inserted if and only if the worker has run its insert and its row is in the store or was purged since |
| `MqStored.PersistBeforeAck` | src/features/mq/mq_tab.cpp:282-313 | at every point of every run that gives a channel up only with no insert in flight: an acknowledged delivery has been inserted, its row is in the store unless purged since, and it is not rejected; the store has one row per envelope id, and a row marked acked has an acknowledged delivery |
| `MqStored.AckedIsMarked` | src/features/mq/mq_tab.cpp:543-555 | in every such run the row of an acknowledged delivery is marked once its mark has run, unless purged since the insert |
| `MqStored.RunMirrored` | src/features/mq/mq_service.cpp:131-182 | at every point of every run the acks and rejects sent on the channel are exactly the acknowledged and rejected deliveries, the acks one by one in order |
| `MqStored.UndecodableRejected` | src/features/mq/mq_service.cpp:75-89 | an undecodable delivery is rejected on the wire, and nothing is queued or remembered of it |
| `MqStored.StepTracked` | src/features/mq/mq_tab.cpp:282-313 | every event, across any number of channels, keeps every delivery handed out either inserted or queued once for insertion |
| `MqOvertaking.OvertakesIff` | src/features/mq/mq_tab.cpp:282-313 | in every such state and for every event: the step acknowledges a delivery that is not stored if and only if it is an insert callback that acknowledges a tag of the current channel whose insert is still queued, or a resume on an open channel whose order holds such a tag with an ack that can be sent |
| `MqOvertaking.PersistedThroughoutIff` | src/features/mq/mq_tab.cpp:282-313 | a run, with any number of channels, keeps the row of every acknowledged delivery in the store, at every one of its points and until a purge names it, if and only if no step of it overtakes |
| `MqOvertaking.AckedBeforePersisted` | src/features/mq/mq_tab.cpp:282-313 | a run with a channel lost while an insert is in flight in which the callback acknowledges a delivery before it is stored |
| `MqOvertaking.ResumedBeforePersisted` | src/features/mq/mq_service.cpp:115-138 | a run in which the callback comes during a pause and the resume acknowledges the delivery before it is stored |
| `MqPause.PauseIsInvisible` | src/features/mq/mq_service.cpp:115-147 | with acks that succeed, after a final resume exactly the deliveries whose insert was confirmed are acknowledged, exactly the undecodable ones rejected, the rest open and nothing held back: what the events alone say, and what the run without any pause does |
| `MqWindow.Window.MessageReceived` | src/features/mq/mq_tab.cpp:282-294 | a received message queues its insert before anything else |
| `MqWindow.Window.InsertReturned` | src/features/mq/mq_tab.cpp:295-301 | the callback notes the envelope id, confirms, and reacts to the acknowledgement, as specified |
| `MqWindow.Window.DeliveryAcked` | src/features/mq/mq_tab.cpp:543-555 | the envelope id is taken once and its row queued to be marked |

## Left out

- Socket, timer, AMQP and SQL libraries, wall-clock time and re-entrant signals: environment events with atomic handlers.
- JSON, UUID and date handling of message envelopes: whether a message decodes is part of the delivery event.
- Broker errors on consume and cancel: the broker model answers both without error and in order.
- Worker threads beyond one FIFO queue of jobs with results delivered in order.
- C3 real-time log record layout, date formatter and control wrappers: straight-line field mapping; a binary log reply is kept as its 16-byte slices.
- C3 replies to a family that has timed out, and interleaved requests of several families over the shared buffer: accounting covers every run, delivery theorems are about one exchange at a time.
- C3 compressed transfers: refused by the driver, modelled as that refusal.
- Request numbers of the C3 driver are unbounded integers, of which frames carry sixteen bits; overflow after 2^31 requests is not modelled.
- Error texts are an enumeration of reasons, and the error string of the drivers is not modelled.
- Passwords in the C3 handshake: the driver always sends the empty one.
- Transaction ids of Modbus responses: the driver does not look at them, so the decoders here do not return them.
- User interface, settings, logging, updates, curl client and platform layer.
- C3Text.Pairs: the regular expression engine is replaced by the leftmost scan the pattern denotes, with ASCII word characters and text cut at the first NUL as the conversion from bytes does.
- C3Text.ToInt: models white space, an optional sign, digits and the 32-bit range; other forms read as zero.
- MqStored.PersistBeforeAck: stated for runs that give a channel up only with no insert in flight, because it is false otherwise (MqOvertaking.AckedBeforePersisted); for all runs MqOvertaking.PersistedThroughoutIff gives the exact condition of its first clause, while its clause about marked rows stays with these runs.
- MqBuffer.Stream.Feed: a count above 2^31 - 1 becomes negative in the source's cast and removes nothing; such counts are not modelled.
- MqBuffer.DrainConserves: the same limit on counts.
- C3Transfer.TransferCorrect: assumes the panel's buffer is shorter than 2^32 bytes, the range of its offsets.
