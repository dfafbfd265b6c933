/** The C3 driver as an object whose handlers update its fields; every handler is its specified event. */
module C3Driver {
  import opened Bytes
  import opened Wrappers
  import opened C3Frame
  import opened C3Messages
  import opened C3Connection
  import opened C3Accounting
  import opened C3Segmentation
  import Records = C3Records
  import Text = C3Text
  import Link = ConnectionState

  // ---- Decoders with loops ----

  method ReadConfig(data: seq<byte>, strip: bool) returns (reply: ConfigReply)
    ensures reply == DecodeConfig(data, strip)
  {
    hide DecodeGeneric, Text.DecodeTables;
    var frame := ReadFrame(data, strip);
    if frame.status != Ok { return ConfigReply(frame.status, []); }
    var tables := Text.ReadTables(frame.payload);
    reply := ConfigReply(Ok, tables);
  }

  method ReadGetData(data: seq<byte>, table: int, fields: seq<Records.Field>, strip: bool) returns (reply: DataReply)
    ensures reply == DecodeGetData(data, table, fields, strip)
  {
    hide DecodeGeneric, Records.Parse, ReadLittle32;
    var frame := ReadFrame(data, strip);
    if frame.status == Incomplete { return DataIncomplete; }
    if frame.status == Malformed { return DataMalformed; }
    if frame.status == Rejected { return DataRejected; }
    if frame.command == PREPARE_DATA {
      if |frame.payload| != 17 { return DataMalformed; }
      return DataPrepared(frame.payload[0] != 0, ReadLittle32(frame.payload, 1));
    }
    var response := Records.ParsePayload(frame.payload, table, fields);
    return DataParsed(response);
  }

  method ReadParams(data: seq<byte>, strip: bool) returns (reply: Text.ParamsReply)
    ensures reply == Text.DecodeGetParam(data, strip)
  {
    hide DecodeGeneric, Text.MapOf, Text.ParsePairs;
    var frame := ReadFrame(data, strip);
    if frame.status != Ok { return Text.ParamsReply(frame.status, map[]); }
    var values := Text.InsertPairs(frame.payload);
    reply := Text.ParamsReply(Ok, values);
  }

  method SearchTable(tables: seq<Text.Table>, name: Records.Text) returns (found: Option<Text.Table>)
    ensures found == FindTable(tables, name)
  {
    for i := 0 to |tables|
      invariant FindTable(tables, name) == FindTable(tables[i..], name)
    {
      if tables[i].name == name { return Some(tables[i]); }
      assert tables[i..][1..] == tables[i + 1..];
    }
    return None;
  }

  // ---- What a caller sees of a request ----

  /**
   The log grew by the acceptance of the request and one frame. The frame carries the session and the request
   number of that moment, and a panel reads it as this command and payload if and only if its length fits.
   */
  predicate Written(before: seq<Entry>, after: seq<Entry>, request: Request, command: byte, payload: seq<byte>,
                    auth: Auth) {
    var n := |before|;
    && |after| == n + 2 && after[..n] == before && after[n] == Accepted(request) && after[n + 1].Wrote?
    && CarriesSession(after[n + 1].frame, SessionOf(auth))
    && (DecodeGeneric(after[n + 1].frame, !auth.sessionLess) == Decoded(Ok, payload, command)
        <==> (if auth.sessionLess then 0 else 4) + |payload| < 65536)
  }

  lemma AcceptedIsWritten(d: Driver, request: Request)
    ensures var family, mode := FamilyAsked(request), d.memory.keyValueMode;
            var e := OnAsk(d, request);
            if Ready(d) && !Get(d.slots, family).pending
            then Written(d.log, e.log, request, Command(request, mode), Payload(request), d.auth)
            else e.log == d.log
  {
    hide DecodeGeneric, EncodeFrame, Payload, Set, CarriesSession;
    var command, payload := Command(request, d.memory.keyValueMode), Payload(request);
    var frame := EncodeFrame(command, SessionOf(d.auth), payload);
    RoundTripIff(command, SessionOf(d.auth), payload, []);
    WireLayout(command, SessionOf(d.auth), payload);
    assert frame + [] == frame;
  }

  // ---- The object ----

  class Connection {
    const link: Link.Machine
    var socket: Socket
    var handshake: Handshake
    var auth: Auth
    var buffer: seq<byte>
    var slots: Slots
    var memory: Memory
    var log: seq<Entry>

    ghost function Model(): Driver
      reads this, link
    {
      Driver(link.Model(), socket, handshake, auth, buffer, slots, memory, log)
    }

    /** For every family, flag, timer, step and log agree; the lifecycle cannot stall and tells the truth. */
    ghost predicate Valid()
      reads this, link
    {
      Inv(Model())
    }

    constructor ()
      ensures Model() == INITIAL && Valid() && fresh(link)
    {
      link := new Link.Machine();
      socket := Socket(false, []);
      handshake := Handshake(false, NoHandshake, false);
      auth := Auth(0, false, PRE_SESSION_REQUEST_NR);
      buffer, log := [], [];
      slots := Slots(FREE, FREE, FREE, FREE, FREE, FREE);
      memory := Memory([], Text.Table([], 0, []), [], 0, [], -1, false);
      new;
      InitialInv();
    }

    /** What the owner of the object can count on at any moment, for every family. */
    lemma Accounts(family: Family)
      requires Valid()
      ensures var slot := Get(slots, family);
              && CountAccepted(log, family) == CountSettled(log, family) + (if slot.pending then 1 else 0)
              && slot.pending == slot.armed
              && (family.Data? || family.Count? || family.RtLog? ==> (slot.pending <==> slot.step != NoStep))
    {
      assert FamilyOk(Get(slots, family), log, NamesOf(memory), family);
      MonitorBalances(log, family);
    }

    predicate IsReady()
      reads this
    {
      (auth.id != 0 || auth.sessionLess) && socket.connected
    }

    // ---- Writing ----

    method Transmit(command: byte, payload: seq<byte>)
      modifies `log, `auth
      ensures Model() == Send(old(Model()), command, payload)
    {
      hide EncodeFrame;
      var frame := BuildFrame(command, SessionOf(auth), payload);
      log := log + [Wrote(frame)];
      if !auth.sessionLess { auth := auth.(requestNr := auth.requestNr + 1); }
    }

    method Emit(signal: Signal)
      modifies `log
      ensures Model() == old(Model()).(log := old(log) + [Signalled(signal)])
    {
      log := log + [Signalled(signal)];
    }

    // ---- Requests ----

    method RequestTableData(name: Records.Text)
      requires Valid()
      modifies this
      ensures Model() == OnAsk(old(Model()), TableData(name))
      ensures Valid()
      ensures if old(IsReady() && !slots.data.pending)
              then Written(old(log), log, TableData(name), 0x06, [], old(auth))
              else log == old(log)
    {
      hide Inv, Written;
      AskKeeps(Model(), TableData(name));
      AcceptedIsWritten(Model(), TableData(name));
      hide Send;
      if !IsReady() || slots.data.pending { return; }
      slots := slots.(data := Slot(true, true, AwaitingTableConfig));
      memory := memory.(tableName := name);
      buffer := [];
      log := log + [Accepted(TableData(name))];
      Transmit(Text.DATATABLE_CFG, []);
    }

    method RequestTableRecordCount(name: Records.Text)
      requires Valid()
      modifies this
      ensures Model() == OnAsk(old(Model()), TableRecordCount(name))
      ensures Valid()
      ensures if old(IsReady() && !slots.count.pending)
              then Written(old(log), log, TableRecordCount(name), 0x06, [], old(auth))
              else log == old(log)
    {
      hide Inv, Written;
      AskKeeps(Model(), TableRecordCount(name));
      AcceptedIsWritten(Model(), TableRecordCount(name));
      hide Send;
      if !IsReady() || slots.count.pending { return; }
      slots := slots.(count := Slot(true, true, AwaitingTableConfig));
      memory := memory.(countName := name);
      buffer := [];
      log := log + [Accepted(TableRecordCount(name))];
      Transmit(Text.DATATABLE_CFG, []);
    }

    method RequestRealtimeLog()
      requires Valid()
      modifies this
      ensures Model() == OnAsk(old(Model()), RealtimeLog)
      ensures Valid()
      ensures if old(IsReady() && !slots.rtLog.pending)
              then Written(old(log), log, RealtimeLog, if old(memory.keyValueMode) then 0x79 else 0x0B, [], old(auth))
              else log == old(log)
    {
      hide Inv, Written;
      AskKeeps(Model(), RealtimeLog);
      AcceptedIsWritten(Model(), RealtimeLog);
      hide Send;
      if !IsReady() || slots.rtLog.pending { return; }
      buffer := [];
      log := log + [Accepted(RealtimeLog)];
      if !memory.keyValueMode {
        slots := slots.(rtLog := Slot(true, true, AwaitingBinaryReply));
        Transmit(RTLOG_BINARY, []);
      } else {
        slots := slots.(rtLog := Slot(true, true, AwaitingKeyValueReply));
        Transmit(RTLOG_KEY_VALUE, []);
      }
    }

    method SendControlRequest(operation: byte, first: byte, second: byte, third: byte)
      requires Valid()
      modifies this
      ensures Model() == OnAsk(old(Model()), ControlRequest(operation, first, second, third))
      ensures Valid()
      ensures if old(IsReady() && !slots.control.pending)
              then Written(old(log), log, ControlRequest(operation, first, second, third), 0x05,
                           [operation, first, second, third, 0], old(auth))
              else log == old(log)
    {
      hide Inv, Written;
      AskKeeps(Model(), ControlRequest(operation, first, second, third));
      AcceptedIsWritten(Model(), ControlRequest(operation, first, second, third));
      hide Send;
      if !IsReady() || slots.control.pending { return; }
      slots := slots.(control := Slot(true, true, NoStep));
      buffer := [];
      log := log + [Accepted(ControlRequest(operation, first, second, third))];
      Transmit(CONTROL, ControlPayload(operation, first, second, third));
    }

    method RequestDeviceParams(names: seq<Records.Text>)
      requires Valid()
      modifies this
      ensures Model() == OnAsk(old(Model()), DeviceParams(names))
      ensures Valid()
      ensures if old(IsReady() && !slots.getParam.pending)
              then Written(old(log), log, DeviceParams(names), 0x04, Text.Join(names, 0x2C), old(auth))
              else log == old(log)
    {
      hide Inv, Written;
      AskKeeps(Model(), DeviceParams(names));
      AcceptedIsWritten(Model(), DeviceParams(names));
      hide Send, Text.Join;
      if !IsReady() || slots.getParam.pending { return; }
      slots := slots.(getParam := Slot(true, true, NoStep));
      buffer := [];
      log := log + [Accepted(DeviceParams(names))];
      Transmit(Text.GET_PARAM, Text.Join(names, Text.COMMA));
    }

    method SetDeviceParams(pairs: seq<Text.Pair>)
      requires Valid()
      modifies this
      ensures Model() == OnAsk(old(Model()), C3Connection.SetDeviceParams(pairs))
      ensures Valid()
      ensures if old(IsReady() && !slots.setParam.pending)
              then Written(old(log), log, C3Connection.SetDeviceParams(pairs), 0x04, Text.PrintPairs(pairs), old(auth))
              else log == old(log)
    {
      hide Inv, Written;
      AskKeeps(Model(), C3Connection.SetDeviceParams(pairs));
      AcceptedIsWritten(Model(), C3Connection.SetDeviceParams(pairs));
      hide Send, Text.PrintPairs;
      if !IsReady() || slots.setParam.pending { return; }
      slots := slots.(setParam := Slot(true, true, NoStep));
      buffer := [];
      log := log + [Accepted(C3Connection.SetDeviceParams(pairs))];
      var payload := Text.FormatPairs(pairs);
      Transmit(Text.GET_PARAM, payload);
    }

    // ---- Timeouts ----

    method DataQueryTimedOut()
      requires slots.data.armed
      requires Valid()
      modifies this
      ensures Model() == OnTimeout(old(Model()), Data)
      ensures Valid()
    {
      hide Inv;
      TimeoutKeeps(Model(), Data);
      slots := slots.(data := FREE);
      Emit(TableDataFailed(memory.tableName, TimedOut));
    }

    method CountQueryTimedOut()
      requires slots.count.armed
      requires Valid()
      modifies this
      ensures Model() == OnTimeout(old(Model()), Count)
      ensures Valid()
    {
      hide Inv;
      TimeoutKeeps(Model(), Count);
      slots := slots.(count := FREE);
      Emit(TableRecordCountFailed(memory.countName, TimedOut));
    }

    method RtLogQueryTimedOut()
      requires slots.rtLog.armed
      requires Valid()
      modifies this
      ensures Model() == OnTimeout(old(Model()), RtLog)
      ensures Valid()
    {
      hide Inv;
      TimeoutKeeps(Model(), RtLog);
      slots := slots.(rtLog := FREE);
      Emit(RealtimeLogFailed(TimedOut));
    }

    method ControlTimedOut()
      requires slots.control.armed
      requires Valid()
      modifies this
      ensures Model() == OnTimeout(old(Model()), Control)
      ensures Valid()
    {
      hide Inv;
      TimeoutKeeps(Model(), Control);
      slots := slots.(control := FREE);
      Emit(ControlFailed(TimedOut));
    }

    method GetParamTimedOut()
      requires slots.getParam.armed
      requires Valid()
      modifies this
      ensures Model() == OnTimeout(old(Model()), GetParam)
      ensures Valid()
    {
      hide Inv;
      TimeoutKeeps(Model(), GetParam);
      slots := slots.(getParam := FREE);
      Emit(DeviceParamsFailed(TimedOut));
    }

    method SetParamTimedOut()
      requires slots.setParam.armed
      requires Valid()
      modifies this
      ensures Model() == OnTimeout(old(Model()), SetParam)
      ensures Valid()
    {
      hide Inv;
      TimeoutKeeps(Model(), SetParam);
      slots := slots.(setParam := FREE);
      Emit(SetParamsFailed(TimedOut));
    }

    // ---- The connection ----

    method Connect()
      requires Valid()
      modifies this, link
      ensures Model() == OnConnectToHost(old(Model()))
      ensures Valid()
    {
      hide Inv, Link.Healthy;
      ConnectKeeps(Model());
      link.Handle(Link.Handlers(true, true, true));
      buffer := [];
      handshake := handshake.(attempt := true);
      link.AutoConnect(true);
    }

    method RetryFired()
      requires link.retry.Some?
      requires Valid()
      modifies this, link
      ensures Model() == OnReconnectTick(old(Model()))
      ensures Valid()
    {
      hide Inv, Link.Healthy;
      RetryKeeps(Model());
      socket := Socket(false, []);
      handshake := handshake.(armed := false);
      buffer := [];
      handshake := handshake.(attempt := true);
      link.RetryFired(true);
    }

    method HeartbeatFired()
      requires link.heartbeatArmed
      requires Valid()
      modifies this, link
      ensures Model() == OnHeartbeatTick(old(Model()))
      ensures Valid()
    {
      hide Inv, Link.Healthy;
      HeartbeatKeeps(Model());
      link.HeartbeatFired(IsReady() && !handshake.attempt);
    }

    method SocketOpened()
      requires Valid()
      modifies this
      ensures Model() == OnSocketConnected(old(Model()))
      ensures Valid()
    {
      hide Inv;
      SocketConnectedKeeps(Model());
      hide EncodeFrame;
      socket := Socket(true, []);
      log := log + [C3Connection.SocketOpened];
      auth := auth.(requestNr := PRE_SESSION_REQUEST_NR);
      handshake := handshake.(step := AwaitingSessionReply);
      buffer := [];
      var frame := BuildFrame(CONNECT_SESSION, InSession(PRE_SESSION_ID, PRE_SESSION_REQUEST_NR), []);
      log := log + [Wrote(frame)];
      handshake := handshake.(armed := true);
    }

    /** One family's request is forgotten, without a signal. */
    method Forget(family: Family)
      modifies `slots, `log
      ensures Model() == DropOne(old(Model()), family)
    {
      if Get(slots, family).pending { log := log + [Dropped(family)]; }
      slots := Set(slots, family, FREE);
    }

    method ForgetRequests()
      modifies `slots, `log
      ensures Model() == DropAll(old(Model()))
    {
      hide DropOne;
      Forget(Data);
      Forget(Count);
      Forget(RtLog);
      Forget(Control);
      Forget(GetParam);
      Forget(SetParam);
    }

    method GiveUpAttempt()
      modifies this, link
      ensures Model() == FailAttempt(old(Model()))
    {
      if handshake.attempt {
        handshake := handshake.(attempt := false);
        handshake := handshake.(step := NoHandshake);
        log := log + [SessionFailed];
        link.ReportPendingConnectResult(false);
      }
    }

    method SocketFailed()
      requires Valid()
      modifies this, link
      ensures Model() == OnSocketError(old(Model()))
      ensures Valid()
    {
      hide Inv, Link.Healthy;
      SocketErrorKeeps(Model());
      hide DropAll, FailAttempt;
      socket := socket.(connected := false);
      handshake := handshake.(armed := false);
      ForgetRequests();
      GiveUpAttempt();
    }

    method HandshakeTimedOut()
      requires handshake.armed
      requires Valid()
      modifies this, link
      ensures Model() == OnHandshakeTimeout(old(Model()))
      ensures Valid()
    {
      hide Inv, Link.Healthy;
      HandshakeTimeoutKeeps(Model());
      hide FailAttempt;
      handshake := handshake.(armed := false);
      socket := Socket(false, []);
      GiveUpAttempt();
    }

    method SayGoodbye()
      modifies `log
      ensures var before := old(Model());
              Model() == if Ready(before) then Write(before, EncodeFrame(DISCONNECT, SessionOf(before.auth), []))
                         else before
    {
      hide EncodeFrame;
      if IsReady() {
        var frame := BuildFrame(DISCONNECT, SessionOf(auth), []);
        log := log + [Wrote(frame)];
      }
    }

    method Disconnect()
      requires Valid()
      modifies this, link
      ensures Model() == OnDisconnectNow(old(Model()))
      ensures Valid()
    {
      hide Inv, Link.Healthy, Link.OnDisconnectNow;
      DisconnectKeeps(Model());
      hide EncodeFrame, DropAll;
      SayGoodbye();
      auth := auth.(id := 0, sessionLess := false);
      log := log + [SessionForgotten];
      handshake := handshake.(armed := false);
      handshake := handshake.(step := NoHandshake);
      ForgetRequests();
      socket := Socket(false, []);
      link.Disconnect();
    }

    // ---- Reading ----

    method ReadUnread()
      modifies `buffer, `socket
      ensures Model() == ReadAll(old(Model()))
    {
      buffer := buffer + socket.unread;
      socket := socket.(unread := []);
    }

    method EstablishSession(id: int, less: bool, nr: int)
      modifies this, link
      ensures Model() == Establish(old(Model()), id, less, nr)
    {
      handshake := handshake.(armed := false);
      buffer := [];
      handshake := handshake.(attempt := false);
      auth := Auth(id, less, nr);
      log := log + [SessionEstablished(id, less)];
      link.ReportPendingConnectResult(true);
    }

    method RefuseSession()
      modifies this, link
      ensures Model() == Refuse(old(Model()))
    {
      handshake := handshake.(armed := false);
      buffer := [];
      handshake := handshake.(attempt := false);
      log := log + [SessionFailed];
      link.ReportPendingConnectResult(false);
    }

    method HandshakeBytes()
      modifies this, link
      ensures Model() == HandshakeRead(old(Model()))
    {
      hide DecodeConnectSession, DecodeReply, EncodeFrame, Establish, Refuse;
      if handshake.step == AwaitingSessionReply {
        var reply := ReadConnectReply(buffer);
        if reply.status == Incomplete { return; }
        if reply.status == Ok {
          EstablishSession(reply.sessionId, false, PRE_SESSION_REQUEST_NR + 1);
        } else if reply.status == Rejected {
          buffer := [];
          handshake := handshake.(step := AwaitingSessionLessReply);
          var frame := BuildFrame(CONNECT_SESSION_LESS, SessionLess, []);
          log := log + [Wrote(frame)];
          handshake := handshake.(armed := true);
        } else {
          RefuseSession();
        }
      } else if handshake.step == AwaitingSessionLessReply {
        var status := ReadGenericReply(buffer);
        if status == Incomplete { return; }
        if status == Ok {
          EstablishSession(0, true, auth.requestNr);
        } else {
          RefuseSession();
        }
      }
    }

    method DataConfigBytes() returns (returned: bool)
      requires slots.data.pending
      modifies this
      ensures DataConfigRead(old(Model())) == if returned then Returned(Model()) else FellThrough(Model())
    {
      hide DecodeConfig, FindTable, Send, GetDataPayload;
      var reply := ReadConfig(buffer, !auth.sessionLess);
      if reply.status == Incomplete { return true; }
      buffer := [];
      if reply.status != Ok {
        slots := slots.(data := FREE);
        Emit(TableDataFailed(memory.tableName, NoConfig));
        return true;
      }
      var found := SearchTable(reply.tables, memory.tableName);
      if found.None? {
        slots := slots.(data := FREE);
        Emit(TableDataFailed(memory.tableName, NoSuchTable));
        return true;
      }
      memory := memory.(table := found.value);
      slots := slots.(data := Slot(true, true, AwaitingTableData));
      var payload := BuildGetData(found.value);
      Transmit(GET_DATA, payload);
      return false;
    }

    method DataTableBytes() returns (returned: bool)
      requires slots.data.pending
      modifies this
      ensures DataTableRead(old(Model())) == if returned then Returned(Model()) else FellThrough(Model())
    {
      hide DecodeGetData, Send, Little32;
      var reply := ReadGetData(buffer, memory.table.index, memory.table.fields, !auth.sessionLess);
      if reply.DataIncomplete? { return true; }
      buffer := [];
      if reply.DataPrepared? {
        if reply.compressed {
          slots := slots.(data := FREE);
          Emit(TableDataFailed(memory.tableName, Compressed));
          return true;
        }
        memory := memory.(assembly := [], expected := reply.length);
        slots := slots.(data := Slot(true, true, AwaitingBigDataChunk));
        Transmit(TRANSMIT_DATA, Little32(0));
        return true;
      }
      slots := slots.(data := FREE);
      if reply.DataParsed? && reply.response.status == Records.Ok {
        Emit(TableDataReceived(memory.tableName, reply.response.records));
      } else {
        Emit(TableDataFailed(memory.tableName, BadData));
      }
      return false;
    }

    method DataChunkBytes() returns (returned: bool)
      requires slots.data.pending
      modifies this
      ensures DataChunkRead(old(Model())) == if returned then Returned(Model()) else FellThrough(Model())
    {
      hide DecodeTransmit, Send, Little32;
      var reply := DecodeTransmit(buffer, !auth.sessionLess);
      if reply.status == Incomplete { return true; }
      buffer := [];
      if reply.status != Ok || reply.offset != |memory.assembly| % TWO_32 {
        slots := slots.(data := FREE);
        Emit(TableDataFailed(memory.tableName, BadChunk));
        return true;
      }
      memory := memory.(assembly := memory.assembly + reply.chunk);
      var size := |memory.assembly| % TWO_32;
      if size < memory.expected {
        slots := slots.(data := Slot(true, true, AwaitingBigDataChunk));
        Transmit(TRANSMIT_DATA, Little32(size));
        return true;
      }
      slots := slots.(data := Slot(true, true, AwaitingFreeDataAck));
      Transmit(FREE_DATA, []);
      return false;
    }

    method DataFreeBytes() returns (returned: bool)
      requires slots.data.pending
      modifies this
      ensures DataFreeRead(old(Model())) == if returned then Returned(Model()) else FellThrough(Model())
    {
      hide DecodeReply, Records.Parse;
      var status := ReadGenericReply(buffer);
      if status == Incomplete { return true; }
      buffer := [];
      slots := slots.(data := FREE);
      var parsed := Records.ParsePayload(memory.assembly, memory.table.index, memory.table.fields);
      memory := memory.(assembly := []);
      if parsed.status == Records.Ok {
        Emit(TableDataReceived(memory.tableName, parsed.records));
      } else {
        Emit(TableDataFailed(memory.tableName, BadAssembly));
      }
      return false;
    }

    method DataBytes() returns (returned: bool)
      requires slots.data.pending
      modifies this
      ensures DataRead(old(Model())) == if returned then Returned(Model()) else FellThrough(Model())
    {
      hide DataConfigRead, DataTableRead, DataChunkRead, DataFreeRead;
      match slots.data.step
      case AwaitingTableConfig => returned := DataConfigBytes();
      case AwaitingTableData => returned := DataTableBytes();
      case AwaitingBigDataChunk => returned := DataChunkBytes();
      case AwaitingFreeDataAck => returned := DataFreeBytes();
      case _ => returned := false;
    }

    method RtLogBytes()
      modifies this
      ensures Model() == RtLogRead(old(Model()))
    {
      hide DecodeRtlogBinary, DecodeRtlogKeyValue;
      if slots.rtLog.step == AwaitingBinaryReply {
        var reply := DecodeRtlogBinary(buffer, !auth.sessionLess);
        if reply.LogIncomplete? { return; }
        buffer := [];
        slots := slots.(rtLog := FREE);
        if reply.LogRecords? {
          Emit(RealtimeLogReceived(reply.records));
        } else if reply.NotBinaryMode? {
          memory := memory.(keyValueMode := true);
          Emit(RealtimeLogReceived([]));
        } else {
          Emit(RealtimeLogFailed(BadReply));
        }
      } else if slots.rtLog.step == AwaitingKeyValueReply {
        var reply := DecodeRtlogKeyValue(buffer, !auth.sessionLess);
        if reply.status == Incomplete { return; }
        buffer := [];
        slots := slots.(rtLog := FREE);
        if reply.status == Ok {
          Emit(RealtimeLogKeyValueReceived(reply.records));
        } else {
          Emit(RealtimeLogFailed(BadReply));
        }
      }
    }

    method ControlBytes()
      modifies this
      ensures Model() == ControlRead(old(Model()))
    {
      hide DecodeReply;
      var status := ReadGenericReply(buffer);
      if status == Incomplete { return; }
      buffer := [];
      slots := slots.(control := FREE);
      if status == Ok {
        Emit(ControlAcknowledged);
      } else {
        Emit(ControlFailed(BadReply));
      }
    }

    method GetParamBytes()
      modifies this
      ensures Model() == GetParamRead(old(Model()))
    {
      hide Text.DecodeGetParam;
      var reply := ReadParams(buffer, !auth.sessionLess);
      if reply.status == Incomplete { return; }
      buffer := [];
      slots := slots.(getParam := FREE);
      if reply.status == Ok {
        Emit(DeviceParamsReceived(reply.values));
      } else {
        Emit(DeviceParamsFailed(BadReply));
      }
    }

    method SetParamBytes()
      modifies this
      ensures Model() == SetParamRead(old(Model()))
    {
      hide DecodeReply;
      var status := ReadGenericReply(buffer);
      if status == Incomplete { return; }
      buffer := [];
      slots := slots.(setParam := FREE);
      if status == Ok {
        Emit(SetParamsAcknowledged);
      } else {
        Emit(SetParamsFailed(BadReply));
      }
    }

    method CountBytes()
      requires slots.count.pending
      modifies this
      ensures Model() == CountRead(old(Model()))
    {
      hide DecodeCount, CountConfigRead;
      if slots.count.step == AwaitingTableConfig {
        CountConfigBytes();
      } else if slots.count.step == AwaitingCount {
        var reply := DecodeCount(buffer, !auth.sessionLess);
        if reply.status == Incomplete { return; }
        buffer := [];
        slots := slots.(count := FREE);
        if reply.status == Ok {
          Emit(TableRecordCountReceived(memory.countName, reply.count));
        } else {
          Emit(TableRecordCountFailed(memory.countName, BadData));
        }
      }
    }

    method CountConfigBytes()
      requires slots.count.pending
      modifies this
      ensures Model() == CountConfigRead(old(Model()))
    {
      hide DecodeConfig, FindTable, Send;
      var reply := ReadConfig(buffer, !auth.sessionLess);
      if reply.status == Incomplete { return; }
      buffer := [];
      if reply.status != Ok {
        slots := slots.(count := FREE);
        Emit(TableRecordCountFailed(memory.countName, NoConfig));
        return;
      }
      var found := SearchTable(reply.tables, memory.countName);
      if found.None? {
        slots := slots.(count := FREE);
        Emit(TableRecordCountFailed(memory.countName, NoSuchTable));
        return;
      }
      memory := memory.(countIndex := found.value.index);
      slots := slots.(count := Slot(true, true, AwaitingCount));
      Transmit(GET_DATA_COUNT, [Byte(memory.countIndex)]);
    }

    method OtherBytes()
      modifies this
      ensures Model() == OthersRead(old(Model()))
    {
      hide RtLogRead, ControlRead, GetParamRead, SetParamRead, CountRead;
      if slots.rtLog.pending {
        ReadUnread();
        RtLogBytes();
      } else if slots.control.pending {
        ReadUnread();
        ControlBytes();
      } else if slots.getParam.pending {
        ReadUnread();
        GetParamBytes();
      } else if slots.setParam.pending {
        ReadUnread();
        SetParamBytes();
      } else if slots.count.pending {
        ReadUnread();
        CountBytes();
      }
    }

    method BytesArrived(bytes: seq<byte>)
      requires Valid()
      modifies this, link
      ensures Model() == OnReadyRead(old(Model()), bytes)
      ensures Valid()
    {
      hide Inv, Link.Healthy;
      ReadKeeps(Model(), bytes);
      hide HandshakeRead, DataRead, OthersRead;
      socket := socket.(unread := socket.unread + bytes);
      if handshake.attempt {
        ReadUnread();
        HandshakeBytes();
        return;
      }
      if slots.data.pending {
        ReadUnread();
        var returned := DataBytes();
        if returned { return; }
      }
      OtherBytes();
    }
  }

  /** One reply in pieces leaves the object where the whole reply would: same signals, same frames, same state. */
  method DeliverPieces(c: Connection, chunks: seq<seq<byte>>)
    requires c.Valid() && Drained(c.Model()) && OneFrame(Concat(chunks))
    modifies c, c.link
    ensures c.Valid() && c.Model() == OnReadyRead(old(c.Model()), Concat(chunks))
  {
    ghost var start := c.Model();
    DrainedDelivers(start, chunks);
    hide *;
    assert chunks[0..] == chunks;
    for i := 0 to |chunks|
      invariant c.Valid() && Deliver(c.Model(), chunks[i..]) == Deliver(start, chunks)
    {
      DeliverNext(c.Model(), chunks[i..]);
      assert chunks[i..][1..] == chunks[i + 1..];
      c.BytesArrived(chunks[i]);
    }
    DeliverNext(c.Model(), chunks[|chunks|..]);
  }

  lemma DeliverNext(d: Driver, chunks: seq<seq<byte>>)
    ensures Deliver(d, chunks) == if chunks == [] then d else Deliver(OnReadyRead(d, chunks[0]), chunks[1..])
  {
    hide OnReadyRead;
  }
}
