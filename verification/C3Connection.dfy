/**
 The C3 driver: a handshake and six request families over one shared read buffer.

 The socket, the timers and the connection lifecycle's ticks are events. Bytes that arrive while
 nobody reads stay in the socket. The log records what crosses the driver's boundary, and which
 requests were accepted or dropped.
 */
module C3Connection {
  import opened Bytes
  import opened Wrappers
  import opened C3Frame
  import opened C3Messages
  import Records = C3Records
  import Text = C3Text
  import Link = ConnectionState

  datatype Family = Data | Count | RtLog | Control | GetParam | SetParam

  datatype QueryStep =
    | NoStep
    | AwaitingTableConfig | AwaitingTableData | AwaitingBigDataChunk | AwaitingFreeDataAck
    | AwaitingCount
    | AwaitingBinaryReply | AwaitingKeyValueReply

  datatype Reason =
    | NoConfig | NoSuchTable | BadData | Compressed | BadChunk | BadAssembly | BadReply | TimedOut

  datatype Signal =
    | TableDataReceived(name: Records.Text, records: seq<Records.Record>)
    | TableDataFailed(name: Records.Text, reason: Reason)
    | TableRecordCountReceived(name: Records.Text, count: int)
    | TableRecordCountFailed(name: Records.Text, reason: Reason)
    | RealtimeLogReceived(entries: seq<seq<byte>>)
    | RealtimeLogKeyValueReceived(maps: seq<Text.Parameters>)
    | RealtimeLogFailed(reason: Reason)
    | ControlAcknowledged
    | ControlFailed(reason: Reason)
    | DeviceParamsReceived(values: Text.Parameters)
    | DeviceParamsFailed(reason: Reason)
    | SetParamsAcknowledged
    | SetParamsFailed(reason: Reason)

  datatype Entry =
    | Accepted(request: Request)
    | Wrote(frame: seq<byte>)
    | Signalled(signal: Signal)
    | Dropped(family: Family)
    | SessionEstablished(id: int, sessionLess: bool)
    | SessionFailed
    | SessionForgotten
    | SocketOpened

  /** One request family: its flag, its timer and, where it has one, its step. */
  datatype Slot = Slot(pending: bool, armed: bool, step: QueryStep)

  datatype Slots = Slots(data: Slot, count: Slot, rtLog: Slot, control: Slot, getParam: Slot, setParam: Slot)

  datatype Socket = Socket(connected: bool, unread: seq<byte>)

  datatype HandshakeStep = NoHandshake | AwaitingSessionReply | AwaitingSessionLessReply

  datatype Handshake = Handshake(attempt: bool, step: HandshakeStep, armed: bool)

  datatype Auth = Auth(id: int, sessionLess: bool, requestNr: int)

  /** What the queries remember between their steps. */
  datatype Memory = Memory(
    tableName: Records.Text,
    table: Text.Table,
    assembly: seq<byte>,
    expected: int,
    countName: Records.Text,
    countIndex: int,
    keyValueMode: bool)

  datatype Driver = Driver(
    link: Link.State,
    socket: Socket,
    handshake: Handshake,
    auth: Auth,
    buffer: seq<byte>,
    slots: Slots,
    memory: Memory,
    log: seq<Entry>)

  datatype Request =
    | TableData(name: Records.Text)
    | TableRecordCount(name: Records.Text)
    | RealtimeLog
    | ControlRequest(operation: byte, first: byte, second: byte, third: byte)
    | DeviceParams(names: seq<Records.Text>)
    | SetDeviceParams(pairs: seq<Text.Pair>)

  datatype Event =
    | ConnectToHost
    | DisconnectNow
    | ReconnectTick
    | HeartbeatTick
    | SocketConnected
    | SocketError
    | HandshakeTimeout
    | ReadyRead(bytes: seq<byte>)
    | Timeout(family: Family)
    | Ask(request: Request)

  const FREE := Slot(false, false, NoStep)

  const INITIAL := Driver(
                     Link.INITIAL, Socket(false, []), Handshake(false, NoHandshake, false),
                     Auth(0, false, PRE_SESSION_REQUEST_NR), [],
                     Slots(FREE, FREE, FREE, FREE, FREE, FREE),
                     Memory([], Text.Table([], 0, []), [], 0, [], -1, false), [])

  // ---- Slots ----

  function Get(slots: Slots, family: Family): Slot {
    match family
    case Data => slots.data
    case Count => slots.count
    case RtLog => slots.rtLog
    case Control => slots.control
    case GetParam => slots.getParam
    case SetParam => slots.setParam
  }

  function Set(slots: Slots, family: Family, slot: Slot): (updated: Slots)
    ensures forall f :: Get(updated, f) == if f == family then slot else Get(slots, f)
  {
    match family
    case Data => slots.(data := slot)
    case Count => slots.(count := slot)
    case RtLog => slots.(rtLog := slot)
    case Control => slots.(control := slot)
    case GetParam => slots.(getParam := slot)
    case SetParam => slots.(setParam := slot)
  }

  /** Which family a signal ends. */
  function FamilyOf(signal: Signal): Family {
    match signal
    case TableDataReceived(_, _) => Data
    case TableDataFailed(_, _) => Data
    case TableRecordCountReceived(_, _) => Count
    case TableRecordCountFailed(_, _) => Count
    case RealtimeLogReceived(_) => RtLog
    case RealtimeLogKeyValueReceived(_) => RtLog
    case RealtimeLogFailed(_) => RtLog
    case ControlAcknowledged => Control
    case ControlFailed(_) => Control
    case DeviceParamsReceived(_) => GetParam
    case DeviceParamsFailed(_) => GetParam
    case SetParamsAcknowledged => SetParam
    case SetParamsFailed(_) => SetParam
  }

  function Failure(memory: Memory, family: Family, reason: Reason): (signal: Signal)
    ensures FamilyOf(signal) == family
  {
    match family
    case Data => TableDataFailed(memory.tableName, reason)
    case Count => TableRecordCountFailed(memory.countName, reason)
    case RtLog => RealtimeLogFailed(reason)
    case Control => ControlFailed(reason)
    case GetParam => DeviceParamsFailed(reason)
    case SetParam => SetParamsFailed(reason)
  }

  // ---- Building blocks ----

  function SessionOf(auth: Auth): C3Frame.Session {
    if auth.sessionLess then SessionLess else InSession(auth.id, auth.requestNr)
  }

  predicate Ready(d: Driver) {
    (d.auth.id != 0 || d.auth.sessionLess) && d.socket.connected
  }

  function Write(d: Driver, frame: seq<byte>): Driver {
    d.(log := d.log + [Wrote(frame)])
  }

  /** Writes a request; request numbers advance only inside a session. */
  function Send(d: Driver, command: byte, payload: seq<byte>): Driver {
    Write(d, EncodeFrame(command, SessionOf(d.auth), payload))
    .(auth := if d.auth.sessionLess then d.auth else d.auth.(requestNr := d.auth.requestNr + 1))
  }

  /** The reply was consumed and the family goes on to its next step. */
  function Advance(d: Driver, family: Family, step: QueryStep): Driver {
    d.(buffer := [], slots := Set(d.slots, family, Slot(true, true, step)))
  }

  /** The reply was consumed and the family is done. */
  function Finish(d: Driver, family: Family, signal: Signal): Driver {
    d.(buffer := [], slots := Set(d.slots, family, FREE), log := d.log + [Signalled(signal)])
  }

  function DropOne(d: Driver, family: Family): Driver {
    d.(slots := Set(d.slots, family, FREE),
       log := if Get(d.slots, family).pending then d.log + [Dropped(family)] else d.log)
  }

  function DropAll(d: Driver): Driver {
    DropOne(DropOne(DropOne(DropOne(DropOne(DropOne(d, Data), Count), RtLog), Control), GetParam), SetParam)
  }

  // ---- Requests and timeouts ----

  function FamilyAsked(request: Request): Family {
    match request
    case TableData(_) => Data
    case TableRecordCount(_) => Count
    case RealtimeLog => RtLog
    case ControlRequest(_, _, _, _) => Control
    case DeviceParams(_) => GetParam
    case SetDeviceParams(_) => SetParam
  }

  function FirstStep(request: Request, keyValueMode: bool): QueryStep {
    match request
    case TableData(_) => AwaitingTableConfig
    case TableRecordCount(_) => AwaitingTableConfig
    case RealtimeLog => if keyValueMode then AwaitingKeyValueReply else AwaitingBinaryReply
    case _ => NoStep
  }

  function Command(request: Request, keyValueMode: bool): byte {
    match request
    case TableData(_) => Text.DATATABLE_CFG
    case TableRecordCount(_) => Text.DATATABLE_CFG
    case RealtimeLog => if keyValueMode then RTLOG_KEY_VALUE else RTLOG_BINARY
    case ControlRequest(_, _, _, _) => CONTROL
    case DeviceParams(_) => Text.GET_PARAM
    case SetDeviceParams(_) => Text.GET_PARAM
  }

  function Payload(request: Request): seq<byte> {
    match request
    case ControlRequest(operation, first, second, third) => ControlPayload(operation, first, second, third)
    case DeviceParams(names) => Text.Join(names, Text.COMMA)
    case SetDeviceParams(pairs) => Text.PrintPairs(pairs)
    case _ => []
  }

  function Remember(memory: Memory, request: Request): Memory {
    match request
    case TableData(name) => memory.(tableName := name)
    case TableRecordCount(name) => memory.(countName := name)
    case _ => memory
  }

  function OnAsk(d: Driver, request: Request): Driver {
    var family, mode := FamilyAsked(request), d.memory.keyValueMode;
    if !Ready(d) || Get(d.slots, family).pending then d else
    var accepted := Advance(d, family, FirstStep(request, mode))
                    .(memory := Remember(d.memory, request), log := d.log + [Accepted(request)]);
    Send(accepted, Command(request, mode), Payload(request))
  }

  /** A request timer ran out; what was read so far stays in the buffer. */
  function OnTimeout(d: Driver, family: Family): Driver {
    d.(slots := Set(d.slots, family, FREE), log := d.log + [Signalled(Failure(d.memory, family, TimedOut))])
  }

  // ---- Reading ----

  function ReadAll(d: Driver): Driver {
    d.(buffer := d.buffer + d.socket.unread, socket := d.socket.(unread := []))
  }

  function Resolve(d: Driver, succeeded: bool): Driver {
    d.(link := Link.OnReport(d.link, succeeded))
  }

  function Establish(d: Driver, id: int, sessionLess: bool, requestNr: int): Driver {
    Resolve(d.(buffer := [], handshake := d.handshake.(attempt := false, armed := false),
               auth := Auth(id, sessionLess, requestNr), log := d.log + [SessionEstablished(id, sessionLess)]), true)
  }

  function Refuse(d: Driver): Driver {
    Resolve(d.(buffer := [], handshake := d.handshake.(attempt := false, armed := false),
               log := d.log + [SessionFailed]), false)
  }

  function HandshakeRead(d: Driver): Driver {
    match d.handshake.step
    case NoHandshake => d
    case AwaitingSessionReply =>
      var reply := DecodeConnectSession(d.buffer);
      (match reply.status
       case Incomplete => d
       case Ok => Establish(d, reply.sessionId, false, PRE_SESSION_REQUEST_NR + 1)
       case Rejected =>
         Write(d.(buffer := [], handshake := d.handshake.(step := AwaitingSessionLessReply, armed := true)),
               EncodeFrame(CONNECT_SESSION_LESS, SessionLess, []))
       case Malformed => Refuse(d))
    case AwaitingSessionLessReply =>
      (match DecodeReply(d.buffer)
       case Incomplete => d
       case Ok => Establish(d, 0, true, d.auth.requestNr)
       case _ => Refuse(d))
  }

  /** The first table of that name. */
  function FindTable(tables: seq<Text.Table>, name: Records.Text): Option<Text.Table> {
    if tables == [] then None
    else if tables[0].name == name then Some(tables[0])
    else FindTable(tables[1..], name)
  }

  function TableOutcome(name: Records.Text, response: Records.Response, reason: Reason): Signal {
    if response.status == Records.Ok then TableDataReceived(name, response.records) else TableDataFailed(name, reason)
  }

  /** A branch of the reader, and whether it returned or let the branches below it have a look. */
  datatype Branch = Returned(driver: Driver) | FellThrough(driver: Driver)

  function DataConfigRead(d: Driver): Branch {
    var reply := DecodeConfig(d.buffer, !d.auth.sessionLess);
    if reply.status == Incomplete then Returned(d)
    else if reply.status != Ok then Returned(Finish(d, Data, TableDataFailed(d.memory.tableName, NoConfig)))
    else match FindTable(reply.tables, d.memory.tableName)
      case None => Returned(Finish(d, Data, TableDataFailed(d.memory.tableName, NoSuchTable)))
      case Some(table) =>
        FellThrough(Send(Advance(d, Data, AwaitingTableData).(memory := d.memory.(table := table)), GET_DATA,
                         GetDataPayload(table)))
  }

  function DataTableRead(d: Driver): Branch {
    match DecodeGetData(d.buffer, d.memory.table.index, d.memory.table.fields, !d.auth.sessionLess)
    case DataIncomplete => Returned(d)
    case DataPrepared(compressed, length) =>
      if compressed then Returned(Finish(d, Data, TableDataFailed(d.memory.tableName, Compressed)))
      else
        var empty := d.memory.(assembly := [], expected := length);
        Returned(Send(Advance(d, Data, AwaitingBigDataChunk).(memory := empty), TRANSMIT_DATA, Little32(0)))
    case DataParsed(response) => FellThrough(Finish(d, Data, TableOutcome(d.memory.tableName, response, BadData)))
    case _ => FellThrough(Finish(d, Data, TableDataFailed(d.memory.tableName, BadData)))
  }

  const TWO_32 := 0x1_0000_0000

  function DataChunkRead(d: Driver): Branch {
    var reply := DecodeTransmit(d.buffer, !d.auth.sessionLess);
    if reply.status == Incomplete then Returned(d)
    else if reply.status != Ok || reply.offset != |d.memory.assembly| % TWO_32 then
      Returned(Finish(d, Data, TableDataFailed(d.memory.tableName, BadChunk)))
    else
      var assembly := d.memory.assembly + reply.chunk;
      var stored := d.memory.(assembly := assembly);
      if |assembly| % TWO_32 < d.memory.expected then
        Returned(Send(Advance(d, Data, AwaitingBigDataChunk).(memory := stored), TRANSMIT_DATA,
                      Little32(|assembly| % TWO_32)))
      else FellThrough(Send(Advance(d, Data, AwaitingFreeDataAck).(memory := stored), FREE_DATA, []))
  }

  function DataFreeRead(d: Driver): Branch {
    if DecodeReply(d.buffer) == Incomplete then Returned(d) else
    var response := Records.Parse(d.memory.assembly, d.memory.table.index, d.memory.table.fields);
    var done := Finish(d, Data, TableOutcome(d.memory.tableName, response, BadAssembly));
    FellThrough(done.(memory := d.memory.(assembly := [])))
  }

  function DataRead(d: Driver): Branch {
    match d.slots.data.step
    case AwaitingTableConfig => DataConfigRead(d)
    case AwaitingTableData => DataTableRead(d)
    case AwaitingBigDataChunk => DataChunkRead(d)
    case AwaitingFreeDataAck => DataFreeRead(d)
    case _ => FellThrough(d)
  }

  function RtLogRead(d: Driver): Driver {
    match d.slots.rtLog.step
    case AwaitingBinaryReply =>
      (match DecodeRtlogBinary(d.buffer, !d.auth.sessionLess)
       case LogIncomplete => d
       case LogRecords(records) => Finish(d, RtLog, RealtimeLogReceived(records))
       case NotBinaryMode => Finish(d, RtLog, RealtimeLogReceived([])).(memory := d.memory.(keyValueMode := true))
       case LogFailed => Finish(d, RtLog, RealtimeLogFailed(BadReply)))
    case AwaitingKeyValueReply =>
      var reply := DecodeRtlogKeyValue(d.buffer, !d.auth.sessionLess);
      if reply.status == Incomplete then d
      else Finish(d, RtLog, if reply.status == Ok then RealtimeLogKeyValueReceived(reply.records)
                            else RealtimeLogFailed(BadReply))
    case _ => d
  }

  function ControlRead(d: Driver): Driver {
    var status := DecodeReply(d.buffer);
    if status == Incomplete then d
    else Finish(d, Control, if status == Ok then ControlAcknowledged else ControlFailed(BadReply))
  }

  function GetParamRead(d: Driver): Driver {
    var reply := Text.DecodeGetParam(d.buffer, !d.auth.sessionLess);
    if reply.status == Incomplete then d
    else Finish(d, GetParam, if reply.status == Ok then DeviceParamsReceived(reply.values)
                             else DeviceParamsFailed(BadReply))
  }

  function SetParamRead(d: Driver): Driver {
    var status := DecodeReply(d.buffer);
    if status == Incomplete then d
    else Finish(d, SetParam, if status == Ok then SetParamsAcknowledged else SetParamsFailed(BadReply))
  }

  function CountConfigRead(d: Driver): Driver {
    var reply := DecodeConfig(d.buffer, !d.auth.sessionLess);
    if reply.status == Incomplete then d
    else if reply.status != Ok then Finish(d, Count, TableRecordCountFailed(d.memory.countName, NoConfig))
    else match FindTable(reply.tables, d.memory.countName)
      case None => Finish(d, Count, TableRecordCountFailed(d.memory.countName, NoSuchTable))
      case Some(table) =>
        Send(Advance(d, Count, AwaitingCount).(memory := d.memory.(countIndex := table.index)), GET_DATA_COUNT,
             [Byte(table.index)])
  }

  function CountRead(d: Driver): Driver {
    match d.slots.count.step
    case AwaitingTableConfig => CountConfigRead(d)
    case AwaitingCount =>
      var reply := DecodeCount(d.buffer, !d.auth.sessionLess);
      if reply.status == Incomplete then d
      else Finish(d, Count, if reply.status == Ok then TableRecordCountReceived(d.memory.countName, reply.count)
                            else TableRecordCountFailed(d.memory.countName, BadData))
    case _ => d
  }

  /** The branches below the table query, first pending one first; with none, the bytes stay in the socket. */
  function OthersRead(d: Driver): Driver {
    if d.slots.rtLog.pending then RtLogRead(ReadAll(d))
    else if d.slots.control.pending then ControlRead(ReadAll(d))
    else if d.slots.getParam.pending then GetParamRead(ReadAll(d))
    else if d.slots.setParam.pending then SetParamRead(ReadAll(d))
    else if d.slots.count.pending then CountRead(ReadAll(d))
    else d
  }

  function Dispatch(d: Driver): Driver {
    if d.handshake.attempt then HandshakeRead(ReadAll(d))
    else if !d.slots.data.pending then OthersRead(d)
    else match DataRead(ReadAll(d))
      case Returned(after) => after
      case FellThrough(after) => OthersRead(after)
  }

  function Arrive(d: Driver, bytes: seq<byte>): Driver {
    d.(socket := d.socket.(unread := d.socket.unread + bytes))
  }

  function OnReadyRead(d: Driver, bytes: seq<byte>): Driver {
    Dispatch(Arrive(d, bytes))
  }

  // ---- The connection ----

  /** The connect handler. */
  function Launch(d: Driver): Driver {
    d.(buffer := [], handshake := d.handshake.(attempt := true))
  }

  /** The disconnect handler: the socket is aborted. */
  function Abort(d: Driver): Driver {
    d.(socket := Socket(false, []), handshake := d.handshake.(armed := false))
  }

  function OnConnectToHost(d: Driver): Driver {
    Launch(d).(link := Link.Step(d.link, Link.ConnectToHost(true, true, true)))
  }

  function OnReconnectTick(d: Driver): Driver {
    Launch(Abort(d)).(link := Link.Step(d.link, Link.ReconnectTick(true)))
  }

  /** The probe is the driver's own view of its session. */
  predicate Alive(d: Driver) {
    Ready(d) && !d.handshake.attempt
  }

  function OnHeartbeatTick(d: Driver): Driver {
    d.(link := Link.Step(d.link, Link.HeartbeatTick(Alive(d))))
  }

  function OnSocketConnected(d: Driver): Driver {
    Write(d.(socket := Socket(true, []), buffer := [], auth := d.auth.(requestNr := PRE_SESSION_REQUEST_NR),
             handshake := d.handshake.(step := AwaitingSessionReply, armed := true), log := d.log + [SocketOpened]),
          EncodeFrame(CONNECT_SESSION, InSession(PRE_SESSION_ID, PRE_SESSION_REQUEST_NR), []))
  }

  function FailAttempt(d: Driver): Driver {
    if !d.handshake.attempt then d
    else Resolve(d.(handshake := d.handshake.(attempt := false, step := NoHandshake), log := d.log + [SessionFailed]),
                 false)
  }

  function OnSocketError(d: Driver): Driver {
    FailAttempt(DropAll(d.(socket := d.socket.(connected := false), handshake := d.handshake.(armed := false))))
  }

  function OnHandshakeTimeout(d: Driver): Driver {
    FailAttempt(Abort(d))
  }

  /** Says goodbye if it can, forgets the session and every request. */
  function OnDisconnectNow(d: Driver): Driver {
    var told := if Ready(d) then Write(d, EncodeFrame(DISCONNECT, SessionOf(d.auth), [])) else d;
    var reset := told.(auth := d.auth.(id := 0, sessionLess := false),
                       handshake := d.handshake.(step := NoHandshake, armed := false),
                       log := told.log + [SessionForgotten]);
    Abort(DropAll(reset)).(link := Link.Step(d.link, Link.DisconnectNow))
  }

  function Step(d: Driver, e: Event): Driver {
    match e
    case ConnectToHost => OnConnectToHost(d)
    case DisconnectNow => OnDisconnectNow(d)
    case ReconnectTick => OnReconnectTick(d)
    case HeartbeatTick => OnHeartbeatTick(d)
    case SocketConnected => OnSocketConnected(d)
    case SocketError => OnSocketError(d)
    case HandshakeTimeout => OnHandshakeTimeout(d)
    case ReadyRead(bytes) => OnReadyRead(d, bytes)
    case Timeout(family) => OnTimeout(d, family)
    case Ask(request) => OnAsk(d, request)
  }

  predicate Enabled(d: Driver, e: Event) {
    match e
    case ReconnectTick => d.link.retry.Some?
    case HeartbeatTick => d.link.heartbeat.armed
    case HandshakeTimeout => d.handshake.armed
    case Timeout(family) => Get(d.slots, family).armed
    case _ => true
  }

  function Run(d: Driver, events: seq<Event>): Driver
    decreases |events|
  {
    if events == [] then d else Run(Step(d, events[0]), events[1..])
  }

  predicate Feasible(d: Driver, events: seq<Event>)
    decreases |events|
  {
    events == [] || (Enabled(d, events[0]) && Feasible(Step(d, events[0]), events[1..]))
  }
}
