/**
 What a caller of the C3 driver is told, whatever the panel answers and however its answer is split.

 A reply goes to the first pending family in the driver's order: table query, log, control, reading and
 writing parameters, record count. The table query has its own module; the handshake comes last here.
 */
module C3Replies {
  import opened Bytes
  import opened Sequences
  import opened Wrappers
  import opened C3Frame
  import opened C3Messages
  import opened C3Connection
  import opened C3Accounting
  import opened C3Segmentation
  import Records = C3Records
  import Text = C3Text
  import Link = ConnectionState

  // ---- Routing ----

  /** The family is pending and no family before it in the driver's order is. */
  predicate FirstInLine(slots: Slots, family: Family) {
    && Get(slots, family).pending
    && (family != Data ==> !slots.data.pending)
    && (family != Data && family != RtLog ==> !slots.rtLog.pending)
    && (family == GetParam || family == SetParam || family == Count ==> !slots.control.pending)
    && (family == SetParam || family == Count ==> !slots.getParam.pending)
    && (family == Count ==> !slots.setParam.pending)
  }

  ghost predicate Listening(d: Driver, family: Family) {
    Inv(d) && Drained(d) && !d.handshake.attempt && FirstInLine(d.slots, family)
  }

  /** One reply frame, delivered in pieces. */
  ghost predicate Arrives(reply: seq<byte>, chunks: seq<seq<byte>>) {
    OneFrame(reply) && Concat(chunks) == reply
  }

  lemma ReplyRead(d: Driver, family: Family, reply: seq<byte>, chunks: seq<seq<byte>>)
    requires Listening(d, family) && Arrives(reply, chunks) && family != Data
    ensures Deliver(d, chunks) == OthersRead(Arrive(d, reply)) && ReadAll(Arrive(d, reply)) == d.(buffer := reply)
  {
    hide Inv, OthersRead, DataRead, HandshakeRead;
    DrainedDelivers(d, chunks);
    Nothing(reply);
  }

  /** The family is free again and the caller has been told this, once; nothing else has changed. */
  predicate Told(d: Driver, e: Driver, family: Family, signal: Signal) {
    e == d.(slots := Set(d.slots, family, FREE), log := d.log + [Signalled(signal)])
  }

  /** The reply is no frame a panel would accept a request with. */
  predicate Refuses(reply: seq<byte>, strip: bool) {
    DecodeGeneric(reply, strip).status == Rejected || DecodeGeneric(reply, strip).status == Malformed
  }

  predicate Carries(reply: seq<byte>, strip: bool, payload: seq<byte>) {
    DecodeGeneric(reply, strip).status == Ok && DecodeGeneric(reply, strip).payload == payload
  }

  // ---- Control commands and parameter writes ----

  lemma ReplyStatus(reply: seq<byte>)
    requires OneFrame(reply)
    ensures DecodeReply(reply) != Incomplete && (DecodeReply(reply) == Ok <==> BeginsWith(reply, 0xC8))
  {
    hide BeginsWith;
    DecodersAgree(reply, false);
  }

  /** A command is acknowledged exactly when the panel answers with an ok frame. */
  lemma ControlAnswered(d: Driver, reply: seq<byte>, chunks: seq<seq<byte>>)
    requires Listening(d, Control) && Arrives(reply, chunks)
    ensures Told(d, Deliver(d, chunks), Control,
                 if BeginsWith(reply, 0xC8) then ControlAcknowledged else ControlFailed(BadReply))
  {
    hide Inv, DecodeReply, BeginsWith, Deliver, RtLogRead, GetParamRead, SetParamRead, CountRead, Set;
    ReplyRead(d, Control, reply, chunks);
    ReplyStatus(reply);
  }

  lemma ParametersWritten(d: Driver, reply: seq<byte>, chunks: seq<seq<byte>>)
    requires Listening(d, SetParam) && Arrives(reply, chunks)
    ensures Told(d, Deliver(d, chunks), SetParam,
                 if BeginsWith(reply, 0xC8) then SetParamsAcknowledged else SetParamsFailed(BadReply))
  {
    hide Inv, DecodeReply, BeginsWith, Deliver, RtLogRead, ControlRead, GetParamRead, CountRead, Set;
    ReplyRead(d, SetParam, reply, chunks);
    ReplyStatus(reply);
  }

  // ---- Reading parameters ----

  /** The map a panel printed is the map the caller receives. */
  lemma ParametersRead(d: Driver, reply: seq<byte>, chunks: seq<seq<byte>>, pairs: seq<Text.Pair>,
                       values: Text.Parameters)
    requires Listening(d, GetParam) && Arrives(reply, chunks) &&
             Carries(reply, !d.auth.sessionLess, Text.PrintPairs(pairs))
    requires Text.Entries(pairs) && Text.Iterates(pairs, values) && Text.NulFree(values)
    ensures Told(d, Deliver(d, chunks), GetParam, DeviceParamsReceived(values))
  {
    hide Inv, DecodeGeneric, Deliver, Text.PrintPairs, Text.ParsePairs, Text.MapOf, Text.Iterates, RtLogRead,
      ControlRead, SetParamRead, CountRead, Set;
    ReplyRead(d, GetParam, reply, chunks);
    Text.NulFreeRead(pairs, values);
  }

  lemma ParametersRefused(d: Driver, reply: seq<byte>, chunks: seq<seq<byte>>)
    requires Listening(d, GetParam) && Arrives(reply, chunks) && Refuses(reply, !d.auth.sessionLess)
    ensures Told(d, Deliver(d, chunks), GetParam, DeviceParamsFailed(BadReply))
  {
    hide Inv, DecodeGeneric, Deliver, Text.ParsePairs, Text.MapOf, RtLogRead, ControlRead, SetParamRead, CountRead, Set;
    ReplyRead(d, GetParam, reply, chunks);
  }

  // ---- The real-time log ----

  lemma {:induction false} SliceAt(payload: seq<byte>, j: nat)
    requires 16 * j + 16 <= |payload|
    ensures |Slices(payload)| == |payload| / 16 && Slices(payload)[j] == payload[16 * j..16 * j + 16]
  {
    SlicesCount(payload);
    if j > 0 {
      SliceAt(payload[16..], j - 1);
      assert payload[16..][16 * (j - 1)..16 * j] == payload[16 * j..16 * j + 16];
    }
  }

  lemma {:induction false} SlicesCount(payload: seq<byte>)
    ensures |Slices(payload)| == |payload| / 16
  {
    if |payload| >= 16 {
      SlicesCount(payload[16..]);
    }
  }

  /** The records of a binary log reply: its sixteen-byte slices, in order. */
  predicate SlicedInto(payload: seq<byte>, entries: seq<seq<byte>>) {
    |payload| == 16 * |entries| && forall j | 0 <= j < |entries| :: entries[j] == payload[16 * j..16 * j + 16]
  }

  lemma SlicesExact(payload: seq<byte>)
    requires |payload| % 16 == 0
    ensures SlicedInto(payload, Slices(payload))
  {
    SlicesCount(payload);
    forall j | 0 <= j < |Slices(payload)| ensures Slices(payload)[j] == payload[16 * j..16 * j + 16] {
      SliceAt(payload, j);
    }
  }

  /** A log of whole records is received as they are; any other size means the panel has no binary mode. */
  lemma LogRead(d: Driver, reply: seq<byte>, chunks: seq<seq<byte>>,
                payload: seq<byte>) returns (entries: seq<seq<byte>>)
    requires Listening(d, RtLog) && Arrives(reply, chunks) && Carries(reply, !d.auth.sessionLess, payload)
    requires d.slots.rtLog.step == AwaitingBinaryReply
    ensures if |payload| % 16 == 0
            then SlicedInto(payload, entries) && Told(d, Deliver(d, chunks), RtLog, RealtimeLogReceived(entries))
            else Told(d.(memory := d.memory.(keyValueMode := true)), Deliver(d, chunks), RtLog, RealtimeLogReceived([]))
  {
    hide Inv, DecodeGeneric, Deliver, Slices, ControlRead, GetParamRead, SetParamRead, CountRead, Set;
    ReplyRead(d, RtLog, reply, chunks);
    entries := Slices(payload);
    if |payload| % 16 == 0 {
      SlicesExact(payload);
    }
  }

  /** In key-value mode a printed map is received as one record, an empty payload as none. */
  lemma LogPairsRead(d: Driver, reply: seq<byte>, chunks: seq<seq<byte>>, pairs: seq<Text.Pair>,
                     values: Text.Parameters)
    requires Listening(d, RtLog) && Arrives(reply, chunks) &&
             Carries(reply, !d.auth.sessionLess, Text.PrintPairs(pairs))
    requires d.slots.rtLog.step == AwaitingKeyValueReply
    requires Text.Entries(pairs) && Text.Iterates(pairs, values) && Text.NulFree(values)
    ensures Told(d, Deliver(d, chunks), RtLog, RealtimeLogKeyValueReceived(if pairs == [] then [] else [values]))
  {
    hide Inv, DecodeGeneric, Deliver, Text.PrintPairs, Text.ParsePairs, Text.MapOf, Text.Iterates, ControlRead,
      GetParamRead, SetParamRead, CountRead, Set;
    ReplyRead(d, RtLog, reply, chunks);
    Text.NulFreeRead(pairs, values);
    Text.NulFreePairs(pairs, values);
  }

  lemma LogRefused(d: Driver, reply: seq<byte>, chunks: seq<seq<byte>>)
    requires Listening(d, RtLog) && Arrives(reply, chunks) && Refuses(reply, !d.auth.sessionLess)
    ensures Told(d, Deliver(d, chunks), RtLog, RealtimeLogFailed(BadReply))
  {
    hide DecodeGeneric, Deliver, LinkOk, ControlRead, GetParamRead, SetParamRead, CountRead, Set;
    InvStepsLegal(d);
    assert Legal(RtLog, Get(d.slots, RtLog).step);
    ReplyRead(d, RtLog, reply, chunks);
  }

  // ---- Tables by name ----

  /** Table `i` is the first of that name. */
  predicate FirstNamed(tables: seq<Text.Table>, name: Records.Text, i: nat) {
    i < |tables| && tables[i].name == name && forall j | 0 <= j < i :: tables[j].name != name
  }

  lemma {:induction false} FindsFirst(tables: seq<Text.Table>, name: Records.Text, i: nat)
    requires FirstNamed(tables, name, i)
    ensures FindTable(tables, name) == Some(tables[i])
  {
    if i > 0 {
      assert tables[0].name != name;
      forall j | 0 <= j < i - 1 ensures tables[1..][j].name != name {
        assert tables[j + 1].name != name;
      }
      FindsFirst(tables[1..], name, i - 1);
    }
  }

  lemma {:induction false} FindsNone(tables: seq<Text.Table>, name: Records.Text)
    requires forall j | 0 <= j < |tables| :: tables[j].name != name
    ensures FindTable(tables, name) == None
  {
    if tables != [] {
      assert tables[0].name != name;
      forall j | 0 <= j < |tables[1..]| ensures tables[1..][j].name != name {
        assert tables[j + 1].name != name;
      }
      FindsNone(tables[1..], name);
    }
  }

  /** The configuration reply of a panel with these tables. */
  predicate Describes(reply: seq<byte>, strip: bool, tables: seq<Text.Table>) {
    Text.GoodTables(tables) && Carries(reply, strip, Text.PrintTables(tables))
  }

  lemma ConfigDecoded(reply: seq<byte>, strip: bool, tables: seq<Text.Table>)
    requires Describes(reply, strip, tables)
    ensures DecodeConfig(reply, strip) == ConfigReply(Ok, tables)
  {
    hide DecodeGeneric, Text.DecodeTables, Text.PrintTables;
    Text.TablesRoundTrip(tables);
  }

  // ---- The record count ----

  /** The last entry written is a frame of this session that a panel reads as this command and payload. */
  predicate Requests(log: seq<Entry>, auth: Auth, command: byte, payload: seq<byte>) {
    && |log| > 0 && log[|log| - 1].Wrote? && CarriesSession(log[|log| - 1].frame, SessionOf(auth))
    && DecodeGeneric(log[|log| - 1].frame, !auth.sessionLess) == Decoded(Ok, payload, command)
  }

  lemma SendRequests(d: Driver, command: byte, payload: seq<byte>)
    requires command != REPLY_ERROR && |payload| < 65532
    ensures var e := Send(d, command, payload);
            && Requests(e.log, d.auth, command, payload) && e == d.(auth := e.auth, log := e.log)
            && |e.log| == |d.log| + 1 && e.log[..|d.log|] == d.log
  {
    hide EncodeFrame, DecodeGeneric, CarriesSession;
    var frame := EncodeFrame(command, SessionOf(d.auth), payload);
    Nothing(frame);
    RoundTripIff(command, SessionOf(d.auth), payload, []);
    WireLayout(command, SessionOf(d.auth), payload);
  }

  lemma CountConfigFound(d: Driver, tables: seq<Text.Table>, i: nat)
    requires FirstNamed(tables, d.memory.countName, i)
    requires DecodeConfig(d.buffer, !d.auth.sessionLess) == ConfigReply(Ok, tables)
    ensures CountConfigRead(d) ==
            Send(Advance(d, Count, AwaitingCount).(memory := d.memory.(countIndex := tables[i].index)), GET_DATA_COUNT,
                 [Byte(tables[i].index)])
  {
    hide DecodeConfig, Send, Advance, Finish, FindTable;
    FindsFirst(tables, d.memory.countName, i);
  }

  /** The schema tells the driver which table to count: the first of the name asked for, by its index. */
  lemma CountAsksForTable(d: Driver, reply: seq<byte>, chunks: seq<seq<byte>>, tables: seq<Text.Table>, i: nat)
    requires Listening(d, Count) && Arrives(reply, chunks) && Describes(reply, !d.auth.sessionLess, tables)
    requires d.slots.count.step == AwaitingTableConfig && FirstNamed(tables, d.memory.countName, i)
    ensures var e := Deliver(d, chunks);
            && e.slots == Set(d.slots, Count, Slot(true, true, AwaitingCount)) && e.buffer == []
            && e.memory.countName == d.memory.countName && |e.log| == |d.log| + 1 && e.log[..|d.log|] == d.log
            && Requests(e.log, d.auth, 0x0A, [Byte(tables[i].index)])
  {
    hide Inv, DecodeConfig, Deliver, Requests, Describes, RtLogRead, ControlRead, GetParamRead, SetParamRead,
      CountConfigRead, Send;
    var r, table := d.(buffer := reply), tables[i];
    ReplyRead(d, Count, reply, chunks);
    ConfigDecoded(reply, !d.auth.sessionLess, tables);
    CountConfigFound(r, tables, i);
    SendRequests(Advance(r, Count, AwaitingCount).(memory := d.memory.(countIndex := table.index)), GET_DATA_COUNT,
                 [Byte(table.index)]);
  }

  lemma CountConfigMissing(d: Driver, tables: seq<Text.Table>)
    requires forall j | 0 <= j < |tables| :: tables[j].name != d.memory.countName
    requires DecodeConfig(d.buffer, !d.auth.sessionLess) == ConfigReply(Ok, tables)
    ensures CountConfigRead(d) == Finish(d, Count, TableRecordCountFailed(d.memory.countName, NoSuchTable))
  {
    hide DecodeConfig, Send, Advance, Finish, FindTable;
    FindsNone(tables, d.memory.countName);
  }

  /** A panel without that table, or one that refuses, ends the count with its own failure. */
  lemma CountFindsNoTable(d: Driver, reply: seq<byte>, chunks: seq<seq<byte>>, tables: seq<Text.Table>)
    requires Listening(d, Count) && Arrives(reply, chunks) && Describes(reply, !d.auth.sessionLess, tables)
    requires d.slots.count.step == AwaitingTableConfig
    requires forall j | 0 <= j < |tables| :: tables[j].name != d.memory.countName
    ensures Told(d, Deliver(d, chunks), Count, TableRecordCountFailed(d.memory.countName, NoSuchTable))
  {
    hide Inv, DecodeConfig, Deliver, Describes, RtLogRead, ControlRead, GetParamRead, SetParamRead, CountConfigRead, Set;
    ReplyRead(d, Count, reply, chunks);
    ConfigDecoded(reply, !d.auth.sessionLess, tables);
    CountConfigMissing(d.(buffer := reply), tables);
  }

  /** The number a panel prints in four bytes is the number the caller receives. */
  lemma CountTold(d: Driver, reply: seq<byte>, chunks: seq<seq<byte>>, n: int)
    requires Listening(d, Count) && Arrives(reply, chunks) && Carries(reply, !d.auth.sessionLess, Little32(n))
    requires d.slots.count.step == AwaitingCount && 0 <= n < TWO_32
    ensures Told(d, Deliver(d, chunks), Count, TableRecordCountReceived(d.memory.countName, n))
  {
    hide Inv, DecodeGeneric, Deliver, RtLogRead, ControlRead, GetParamRead, SetParamRead, Set;
    ReplyRead(d, Count, reply, chunks);
    Little32RoundTrip(n);
  }

  lemma CountRefused(d: Driver, reply: seq<byte>, chunks: seq<seq<byte>>)
    requires Listening(d, Count) && Arrives(reply, chunks) && Refuses(reply, !d.auth.sessionLess)
    ensures Told(d, Deliver(d, chunks), Count,
                 TableRecordCountFailed(d.memory.countName,
                                        if d.slots.count.step == AwaitingTableConfig then NoConfig else BadData))
  {
    hide DecodeGeneric, Deliver, LinkOk, RtLogRead, ControlRead, GetParamRead, SetParamRead, Set;
    InvStepsLegal(d);
    assert Legal(Count, Get(d.slots, Count).step);
    ReplyRead(d, Count, reply, chunks);
  }

  // ---- Asking ----

  /** The connection is ready and quiet, and nobody is waiting for anything. */
  ghost predicate Quiet(d: Driver) {
    && Inv(d) && Ready(d) && !d.handshake.attempt && d.socket.unread == []
    && forall f :: !Get(d.slots, f).pending
  }

  /** What goes over the wire for a request: the command in numbers, and its payload. */
  predicate Puts(request: Request, keyValueMode: bool, command: byte, payload: seq<byte>) {
    match request
    case TableData(_) => command == 0x06 && payload == []
    case TableRecordCount(_) => command == 0x06 && payload == []
    case RealtimeLog => command == (if keyValueMode then 0x79 else 0x0B) && payload == []
    case ControlRequest(operation, first, second, third) =>
      command == 0x05 && payload == [operation, first, second, third, 0]
    case DeviceParams(names) => command == 0x04 && payload == Text.Join(names, 0x2C)
    case SetDeviceParams(pairs) => command == 0x04 && payload == Text.PrintPairs(pairs)
  }

  /** Where a family waits first: the queries for the schema, the log for the reply of the mode it asked in. */
  predicate FirstWaits(request: Request, keyValueMode: bool, slot: Slot) {
    && slot.pending && slot.armed
    && match request
       case TableData(_) => slot.step == AwaitingTableConfig
       case TableRecordCount(_) => slot.step == AwaitingTableConfig
       case RealtimeLog => slot.step == (if keyValueMode then AwaitingKeyValueReply else AwaitingBinaryReply)
       case _ => slot.step == NoStep
  }

  /** A request on a quiet connection is accepted and written as it should be, and its family alone then listens. */
  lemma AskListens(d: Driver, request: Request) returns (command: byte, payload: seq<byte>)
    requires Quiet(d)
    ensures Puts(request, d.memory.keyValueMode, command, payload)
    ensures var e, family := OnAsk(d, request), FamilyAsked(request);
            && Listening(e, family) && FirstWaits(request, d.memory.keyValueMode, Get(e.slots, family))
            && (forall f | f != family :: Get(e.slots, f) == Get(d.slots, f))
            && |e.log| == |d.log| + 2 && e.log[..|d.log|] == d.log && e.log[|d.log|] == Accepted(request)
            && (|payload| < 65532 ==> Requests(e.log, d.auth, command, payload))
            && (request.TableData? ==> e.memory == d.memory.(tableName := request.name))
            && (request.TableRecordCount? ==> e.memory == d.memory.(countName := request.name))
            && (!request.TableData? && !request.TableRecordCount? ==> e.memory == d.memory)
  {
    hide Inv, Send, Requests;
    command, payload := Command(request, d.memory.keyValueMode), Payload(request);
    AskKeeps(d, request);
    var family := FamilyAsked(request);
    assert !Get(d.slots, family).pending;
    assert !Get(d.slots, Data).pending && !Get(d.slots, RtLog).pending && !Get(d.slots, Control).pending;
    assert !Get(d.slots, GetParam).pending && !Get(d.slots, SetParam).pending;
    var accepted := Advance(d, family, FirstStep(request, d.memory.keyValueMode))
                    .(memory := Remember(d.memory, request), log := d.log + [Accepted(request)]);
    SendKeepsRest(accepted, command, payload);
    if |payload| < 65532 {
      SendRequests(accepted, command, payload);
    }
  }

  lemma SendKeepsRest(d: Driver, command: byte, payload: seq<byte>)
    ensures var e := Send(d, command, payload);
            e == d.(auth := e.auth, log := e.log) && |e.log| == |d.log| + 1 && e.log[..|d.log|] == d.log
  {
    hide EncodeFrame;
  }

  // ---- Timeouts ----

  /** A family that times out tells its own caller so, naming the table where there is one, and nobody else. */
  lemma TimeoutTells(d: Driver, family: Family)
    ensures Told(d, OnTimeout(d, family), family,
                 match family
                 case Data => TableDataFailed(d.memory.tableName, TimedOut)
                 case Count => TableRecordCountFailed(d.memory.countName, TimedOut)
                 case RtLog => RealtimeLogFailed(TimedOut)
                 case Control => ControlFailed(TimedOut)
                 case GetParam => DeviceParamsFailed(TimedOut)
                 case SetParam => SetParamsFailed(TimedOut))
  {
  }

  // ---- The handshake ----

  ghost predicate Shaking(d: Driver, step: HandshakeStep) {
    Inv(d) && Drained(d) && d.handshake.attempt && d.handshake.step == step
  }

  lemma HandshakeReply(d: Driver, step: HandshakeStep, reply: seq<byte>, chunks: seq<seq<byte>>)
    requires Shaking(d, step) && Arrives(reply, chunks)
    ensures Deliver(d, chunks) == HandshakeRead(d.(buffer := reply))
  {
    hide Inv, OthersRead, DataRead, HandshakeRead;
    DrainedDelivers(d, chunks);
    Nothing(reply);
  }

  /** An opened socket is greeted with the connect command under the reserved session 0xFEFE and request number -258. */
  lemma Greets(d: Driver)
    ensures var e := Step(d, SocketConnected);
            && |e.log| == |d.log| + 2 && e.log[..|d.log|] == d.log && e.log[|d.log|] == SocketOpened
            && Requests(e.log, Auth(0xFEFE, false, -258), 0x76, [])
            && e.handshake == Handshake(d.handshake.attempt, AwaitingSessionReply, true)
            && e.auth == d.auth.(requestNr := -258) && e.socket == Socket(true, []) && e.buffer == []
            && e.slots == d.slots
  {
    hide EncodeFrame, DecodeGeneric, CarriesSession, OnReadyRead, OnDisconnectNow, OnSocketError, OnAsk;
    var session := InSession(0xFEFE, -258);
    var frame := EncodeFrame(0x76, session, []);
    Nothing(frame);
    RoundTripIff(0x76, session, [], []);
    WireLayout(0x76, session, []);
  }

  /** An attempt starts with nothing read, the lifecycle waiting for its report; a retry closes the old socket first. */
  lemma AttemptStarts(d: Driver, retry: bool)
    requires Inv(d) && (retry ==> d.link.retry.Some? && d.link.handlers == Link.Handlers(true, true, true))
    ensures var e := Step(d, if retry then ReconnectTick else ConnectToHost);
            && e.handshake.attempt && e.buffer == [] && e.log == d.log && e.slots == d.slots && e.auth == d.auth
            && e.link.pending == Link.Awaiting(true) && e.link.connected == d.link.connected
            && (if retry then e.socket == Socket(false, []) && !e.handshake.armed else e.socket == d.socket)
  {
    hide OnReadyRead, OnDisconnectNow, OnSocketError, OnAsk, Families;
  }

  /** A lost socket or a silent panel ends a running attempt, once, and the lifecycle hears of it. */
  lemma AttemptFails(d: Driver, lost: bool)
    requires d.handshake.attempt
    ensures var e := Step(d, if lost then SocketError else HandshakeTimeout);
            && e.handshake == Handshake(false, NoHandshake, false) && !e.socket.connected
            && e.link == Link.OnReport(d.link, false) && e.auth == d.auth
            && |e.log| > 0 && e.log[|e.log| - 1] == SessionFailed && (!lost ==> e.log == d.log + [SessionFailed])
  {
    hide OnReadyRead, OnDisconnectNow, OnAsk, Set, Link.OnReport;
  }

  /** Losing the socket frees every family, and tells the log which ones were waiting. */
  lemma LossFreesEveryone(d: Driver, family: Family)
    ensures Get(OnSocketError(d).slots, family) == FREE && Get(OnDisconnectNow(d).slots, family) == FREE
  {
    hide Link.OnReport, Link.OnDisconnectNow, EncodeFrame;
  }

  /**
   The heartbeat finds the connection dead exactly when the driver is not ready or is in the middle of a handshake.
   */
  lemma ProbeIff(d: Driver)
    requires Inv(d) && d.link.connected && d.link.handlers.probe && d.link.heartbeat.intervalMs > 0
    ensures Step(d, HeartbeatTick).link.connected <==> Ready(d) && !d.handshake.attempt
    ensures Step(d, HeartbeatTick) == d.(link := Step(d, HeartbeatTick).link)
  {
    hide OnReadyRead, OnDisconnectNow, OnSocketError, OnAsk, Families, Link.Faithful;
    Link.HeartbeatWatches(d.link);
  }

  /** An ok answer establishes the session it names, an error answer falls back to session-less, anything else fails. */
  lemma SessionAnswered(d: Driver, reply: seq<byte>, chunks: seq<seq<byte>>)
    requires Shaking(d, AwaitingSessionReply) && Arrives(reply, chunks)
    ensures var e := Deliver(d, chunks);
            if BeginsWith(reply, 0xC8) then
              && e.auth == Auth(ReadLittle16(reply, 5), false, -257)
              && e.handshake == Handshake(false, d.handshake.step, false)
              && e.log == d.log + [SessionEstablished(ReadLittle16(reply, 5), false)]
              && e.link == Link.OnReport(d.link, true)
            else if BeginsWith(reply, 0xC9) then
              && e.auth == d.auth && e.handshake == Handshake(true, AwaitingSessionLessReply, true)
              && |e.log| == |d.log| + 1 && e.log[..|d.log|] == d.log && e.link == d.link
              && Requests(e.log, Auth(0, true, 0), 0x01, [])
            else
              && e.auth == d.auth && e.handshake == Handshake(false, d.handshake.step, false)
              && e.log == d.log + [SessionFailed] && e.link == Link.OnReport(d.link, false)
  {
    hide Inv, BeginsWith, Deliver, EncodeFrame, Requests, Link.OnReport, DecodeReply;
    HandshakeReply(d, AwaitingSessionReply, reply, chunks);
    DecodersAgree(reply, false);
    ReplyStatus(reply);
    SessionLessRequests(d.log);
  }

  lemma SessionLessRequests(log: seq<Entry>)
    ensures Requests(log + [Wrote(EncodeFrame(CONNECT_SESSION_LESS, SessionLess, []))], Auth(0, true, 0), 0x01, [])
  {
    hide EncodeFrame, DecodeGeneric;
    var frame := EncodeFrame(CONNECT_SESSION_LESS, SessionLess, []);
    Nothing(frame);
    RoundTripIff(CONNECT_SESSION_LESS, SessionLess, [], []);
  }

  /** After the fallback only an ok answer establishes, without a session. */
  lemma SessionLessAnswered(d: Driver, reply: seq<byte>, chunks: seq<seq<byte>>)
    requires Shaking(d, AwaitingSessionLessReply) && Arrives(reply, chunks)
    ensures var e := Deliver(d, chunks);
            && e.handshake == Handshake(false, d.handshake.step, false)
            && (if BeginsWith(reply, 0xC8) then
                  && e.auth == Auth(0, true, d.auth.requestNr) && e.log == d.log + [SessionEstablished(0, true)]
                  && e.link == Link.OnReport(d.link, true)
                else e.auth == d.auth && e.log == d.log + [SessionFailed] && e.link == Link.OnReport(d.link, false))
  {
    hide Inv, BeginsWith, Deliver, Link.OnReport, DecodeReply;
    HandshakeReply(d, AwaitingSessionLessReply, reply, chunks);
    ReplyStatus(reply);
  }

  lemma DropExtends(d: Driver, family: Family)
    ensures d.log <= DropOne(d, family).log
  {
    hide Set;
  }

  lemma DropAllExtends(d: Driver)
    ensures d.log <= DropAll(d).log
  {
    hide DropOne;
    var d1 := DropOne(d, Data);
    var d2 := DropOne(d1, Count);
    var d3 := DropOne(d2, RtLog);
    var d4 := DropOne(d3, Control);
    var d5 := DropOne(d4, GetParam);
    DropExtends(d, Data);
    DropExtends(d1, Count);
    DropExtends(d2, RtLog);
    DropExtends(d3, Control);
    DropExtends(d4, GetParam);
    DropExtends(d5, SetParam);
  }

  /**
   A driver that is ready takes its leave: the disconnect command of its own session, before anything is forgotten.
   */
  lemma SaysGoodbye(d: Driver)
    requires Ready(d)
    ensures var e := OnDisconnectNow(d);
            |e.log| > |d.log| && e.log[..|d.log|] == d.log && Requests(e.log[..|d.log| + 1], d.auth, 0x02, [])
  {
    hide EncodeFrame, DecodeGeneric, CarriesSession, DropAll;
    var frame := EncodeFrame(DISCONNECT, SessionOf(d.auth), []);
    Nothing(frame);
    RoundTripIff(DISCONNECT, SessionOf(d.auth), [], []);
    WireLayout(DISCONNECT, SessionOf(d.auth), []);
    var told := Write(d, frame);
    var reset := told.(auth := d.auth.(id := 0, sessionLess := false),
                       handshake := d.handshake.(step := NoHandshake, armed := false),
                       log := told.log + [SessionForgotten]);
    DropAllExtends(reset);
    assert OnDisconnectNow(d).log == DropAll(reset).log;
  }
}
