/** Over every run of the C3 driver: each family's flags agree, and every accepted request is settled once. */
module C3Accounting {
  import opened Bytes
  import opened C3Frame
  import opened C3Messages
  import opened C3Connection
  import Records = C3Records
  import Text = C3Text
  import Link = ConnectionState

  datatype Phase = Idle | Waiting(request: Request) | Broken

  /** The signal ends this request: its own family, and the name of the table that was asked for. */
  predicate Concludes(request: Request, signal: Signal) {
    && FamilyOf(signal) == FamilyAsked(request)
    && (request.TableData? || request.TableRecordCount? ==> signal.name == request.name)
  }

  /**
   A monitor per family: accepted only when idle, settled only while waiting, by a signal that concludes the request.
   */
  function Next(phase: Phase, entry: Entry, family: Family): Phase {
    match entry
    case Accepted(request) =>
      if FamilyAsked(request) != family then phase else if phase.Idle? then Waiting(request) else Broken
    case Signalled(signal) =>
      if FamilyOf(signal) != family then phase
      else if phase.Waiting? && Concludes(phase.request, signal) then Idle
      else Broken
    case Dropped(f) => if f != family then phase else if phase.Waiting? then Idle else Broken
    case _ => phase
  }

  function Observe(log: seq<Entry>, family: Family): Phase {
    if log == [] then Idle else Next(Observe(log[..|log| - 1], family), log[|log| - 1], family)
  }

  lemma ObserveNext(log: seq<Entry>, entry: Entry, family: Family)
    ensures Observe(log + [entry], family) == Next(Observe(log, family), entry, family)
  {
    assert (log + [entry])[..|log|] == log;
  }

  /** The steps a family goes through; three families have none. */
  predicate Legal(family: Family, step: QueryStep) {
    match family
    case Data =>
      step == AwaitingTableConfig || step == AwaitingTableData || step == AwaitingBigDataChunk ||
        step == AwaitingFreeDataAck
    case Count => step == AwaitingTableConfig || step == AwaitingCount
    case RtLog => step == AwaitingBinaryReply || step == AwaitingKeyValueReply
    case _ => step == NoStep
  }

  /** The tables the driver remembers having been asked about. */
  datatype Names = Names(table: Records.Text, count: Records.Text)

  function NamesOf(memory: Memory): Names {
    Names(memory.tableName, memory.countName)
  }

  /** The request is one of this family, and its table is the one remembered. */
  predicate Recalls(names: Names, request: Request, family: Family) {
    && FamilyAsked(request) == family
    && (family.Data? ==> request == TableData(names.table))
    && (family.Count? ==> request == TableRecordCount(names.count))
  }

  /** Flag, timer and step tell the same story, and it is the story of the log. */
  predicate FamilyOk(slot: Slot, log: seq<Entry>, names: Names, family: Family) {
    && slot.pending == slot.armed
    && (if slot.pending then Legal(family, slot.step) else slot.step == NoStep)
    && var phase := Observe(log, family);
       if slot.pending then phase.Waiting? && Recalls(names, phase.request, family) else phase.Idle?
  }

  ghost predicate Families(slots: Slots, log: seq<Entry>, names: Names) {
    forall f :: FamilyOk(Get(slots, f), log, names, f)
  }

  /** The lifecycle is sound and truthful, and it waits for a report only while the driver attempts a handshake. */
  ghost predicate LinkOk(link: Link.State, attempt: bool) {
    Link.Healthy(link) && (link.pending.Awaiting? ==> attempt)
  }

  /** The handshake timer runs only while an answer is expected. */
  predicate TimerOk(handshake: Handshake) {
    handshake.armed ==> handshake.step != NoHandshake
  }

  ghost predicate Inv(d: Driver) {
    && Families(d.slots, d.log, NamesOf(d.memory)) && LinkOk(d.link, d.handshake.attempt)
    && TimerOk(d.handshake)
  }

  // ---- What each building block keeps ----

  predicate Silent(entry: Entry) {
    entry.Wrote? || entry.SessionEstablished? || entry.SessionFailed? || entry.SessionForgotten? || entry.SocketOpened?
  }

  lemma SilentKeeps(slots: Slots, log: seq<Entry>, names: Names, entry: Entry)
    requires Families(slots, log, names) && Silent(entry)
    ensures Families(slots, log + [entry], names)
  {
    forall f ensures FamilyOk(Get(slots, f), log + [entry], names, f) {
      assert FamilyOk(Get(slots, f), log, names, f);
      ObserveNext(log, entry, f);
    }
  }

  lemma AdvanceKeeps(slots: Slots, log: seq<Entry>, names: Names, family: Family, step: QueryStep)
    requires Families(slots, log, names) && Get(slots, family).pending && Legal(family, step)
    ensures Families(Set(slots, family, Slot(true, true, step)), log, names)
  {
    forall f ensures FamilyOk(Get(Set(slots, family, Slot(true, true, step)), f), log, names, f) {
      assert FamilyOk(Get(slots, f), log, names, f);
    }
  }

  predicate Settles(entry: Entry, family: Family) {
    (entry.Signalled? && FamilyOf(entry.signal) == family) || entry == Dropped(family)
  }

  /** A signal of a query names the table remembered. */
  predicate Named(signal: Signal, names: Names) {
    && (FamilyOf(signal) == Data ==> signal.name == names.table)
    && (FamilyOf(signal) == Count ==> signal.name == names.count)
  }

  lemma SettleKeeps(slots: Slots, log: seq<Entry>, names: Names, family: Family, entry: Entry)
    requires Families(slots, log, names) && Get(slots, family).pending && Settles(entry, family)
    requires entry.Signalled? ==> Named(entry.signal, names)
    ensures Families(Set(slots, family, FREE), log + [entry], names)
  {
    forall f ensures FamilyOk(Get(Set(slots, family, FREE), f), log + [entry], names, f) {
      assert FamilyOk(Get(slots, f), log, names, f);
      ObserveNext(log, entry, f);
    }
  }

  lemma AcceptKeeps(slots: Slots, log: seq<Entry>, memory: Memory, request: Request, step: QueryStep)
    requires Families(slots, log, NamesOf(memory)) && Legal(FamilyAsked(request), step)
    requires !Get(slots, FamilyAsked(request)).pending
    ensures Families(Set(slots, FamilyAsked(request), Slot(true, true, step)), log + [Accepted(request)],
                     NamesOf(Remember(memory, request)))
  {
    var slot, names := Slot(true, true, step), NamesOf(Remember(memory, request));
    forall f ensures FamilyOk(Get(Set(slots, FamilyAsked(request), slot), f), log + [Accepted(request)], names, f) {
      assert FamilyOk(Get(slots, f), log, NamesOf(memory), f);
      ObserveNext(log, Accepted(request), f);
    }
  }

  lemma DropKeeps(d: Driver, family: Family)
    requires Families(d.slots, d.log, NamesOf(d.memory))
    ensures Families(DropOne(d, family).slots, DropOne(d, family).log, NamesOf(DropOne(d, family).memory))
  {
    if Get(d.slots, family).pending {
      SettleKeeps(d.slots, d.log, NamesOf(d.memory), family, Dropped(family));
    } else {
      forall f ensures FamilyOk(Get(Set(d.slots, family, FREE), f), d.log, NamesOf(d.memory), f) {
        assert FamilyOk(Get(d.slots, f), d.log, NamesOf(d.memory), f);
      }
    }
  }

  lemma DropAllKeeps(d: Driver)
    requires Families(d.slots, d.log, NamesOf(d.memory))
    ensures Families(DropAll(d).slots, DropAll(d).log, NamesOf(DropAll(d).memory))
    ensures DropAll(d) == d.(slots := DropAll(d).slots, log := DropAll(d).log)
  {
    var d1 := DropOne(d, Data);
    var d2 := DropOne(d1, Count);
    var d3 := DropOne(d2, RtLog);
    var d4 := DropOne(d3, Control);
    var d5 := DropOne(d4, GetParam);
    DropKeeps(d, Data);
    DropKeeps(d1, Count);
    DropKeeps(d2, RtLog);
    DropKeeps(d3, Control);
    DropKeeps(d4, GetParam);
    DropKeeps(d5, SetParam);
  }

  lemma SendKeeps(d: Driver, command: byte, payload: seq<byte>)
    requires Families(d.slots, d.log, NamesOf(d.memory))
    ensures var after := Send(d, command, payload); Families(after.slots, after.log, NamesOf(after.memory))
  {
    SilentKeeps(d.slots, d.log, NamesOf(d.memory), Wrote(EncodeFrame(command, SessionOf(d.auth), payload)));
  }

  lemma ReportKeeps(link: Link.State, attempt: bool, succeeded: bool)
    requires LinkOk(link, attempt)
    ensures LinkOk(Link.OnReport(link, succeeded), false)
  {
    hide Link.Faithful;
    Link.StepKeepsHealthyIff(link, Link.Report(succeeded));
  }

  // ---- What each reader keeps ----

  ghost predicate SameLink(d: Driver, after: Driver) {
    after.link == d.link && after.handshake == d.handshake
  }

  lemma FinishKeeps(d: Driver, family: Family, signal: Signal)
    requires Families(d.slots, d.log, NamesOf(d.memory)) && Get(d.slots, family).pending
    requires FamilyOf(signal) == family && Named(signal, NamesOf(d.memory))
    ensures var after := Finish(d, family, signal); Families(after.slots, after.log, NamesOf(after.memory))
  {
    SettleKeeps(d.slots, d.log, NamesOf(d.memory), family, Signalled(signal));
  }

  lemma OnwardKeeps(d: Driver, family: Family, step: QueryStep, memory: Memory, command: byte, payload: seq<byte>)
    requires Families(d.slots, d.log, NamesOf(d.memory)) && Get(d.slots, family).pending && Legal(family, step)
    requires NamesOf(memory) == NamesOf(d.memory)
    ensures var after := Send(Advance(d, family, step).(memory := memory), command, payload);
            Families(after.slots, after.log, NamesOf(after.memory)) && SameLink(d, after)
  {
    AdvanceKeeps(d.slots, d.log, NamesOf(d.memory), family, step);
    SendKeeps(Advance(d, family, step).(memory := memory), command, payload);
  }

  lemma DataConfigKeeps(d: Driver)
    requires Families(d.slots, d.log, NamesOf(d.memory)) && d.slots.data.pending
    ensures var after := DataConfigRead(d).driver;
            Families(after.slots, after.log, NamesOf(after.memory)) && SameLink(d, after)
  {
    hide DecodeConfig;
    var reply := DecodeConfig(d.buffer, !d.auth.sessionLess);
    FinishKeeps(d, Data, TableDataFailed(d.memory.tableName, NoConfig));
    FinishKeeps(d, Data, TableDataFailed(d.memory.tableName, NoSuchTable));
    var found := FindTable(reply.tables, d.memory.tableName);
    if found.Some? {
      OnwardKeeps(d, Data, AwaitingTableData, d.memory.(table := found.value), GET_DATA, GetDataPayload(found.value));
    }
  }

  lemma DataTableKeeps(d: Driver)
    requires Families(d.slots, d.log, NamesOf(d.memory)) && d.slots.data.pending
    ensures var after := DataTableRead(d).driver;
            Families(after.slots, after.log, NamesOf(after.memory)) && SameLink(d, after)
  {
    hide DecodeGetData;
    var name := d.memory.tableName;
    match DecodeGetData(d.buffer, d.memory.table.index, d.memory.table.fields, !d.auth.sessionLess)
    case DataIncomplete =>
    case DataPrepared(_, length) =>
      FinishKeeps(d, Data, TableDataFailed(name, Compressed));
      OnwardKeeps(d, Data, AwaitingBigDataChunk, d.memory.(assembly := [], expected := length), TRANSMIT_DATA,
                  Little32(0));
    case DataParsed(response) => FinishKeeps(d, Data, TableOutcome(name, response, BadData));
    case _ => FinishKeeps(d, Data, TableDataFailed(name, BadData));
  }

  lemma DataChunkKeeps(d: Driver)
    requires Families(d.slots, d.log, NamesOf(d.memory)) && d.slots.data.pending
    ensures var after := DataChunkRead(d).driver;
            Families(after.slots, after.log, NamesOf(after.memory)) && SameLink(d, after)
  {
    hide DecodeTransmit;
    var stored := d.memory.(assembly := d.memory.assembly + DecodeTransmit(d.buffer, !d.auth.sessionLess).chunk);
    FinishKeeps(d, Data, TableDataFailed(d.memory.tableName, BadChunk));
    OnwardKeeps(d, Data, AwaitingBigDataChunk, stored, TRANSMIT_DATA, Little32(|stored.assembly| % TWO_32));
    OnwardKeeps(d, Data, AwaitingFreeDataAck, stored, FREE_DATA, []);
  }

  lemma DataFreeKeeps(d: Driver)
    requires Families(d.slots, d.log, NamesOf(d.memory)) && d.slots.data.pending
    ensures var after := DataFreeRead(d).driver;
            Families(after.slots, after.log, NamesOf(after.memory)) && SameLink(d, after)
  {
    var response := Records.Parse(d.memory.assembly, d.memory.table.index, d.memory.table.fields);
    FinishKeeps(d, Data, TableOutcome(d.memory.tableName, response, BadAssembly));
  }

  lemma DataKeeps(d: Driver)
    requires Families(d.slots, d.log, NamesOf(d.memory)) && d.slots.data.pending
    ensures var after := DataRead(d).driver;
            Families(after.slots, after.log, NamesOf(after.memory)) && SameLink(d, after)
  {
    hide DataConfigRead, DataTableRead, DataChunkRead, DataFreeRead;
    DataConfigKeeps(d);
    DataTableKeeps(d);
    DataChunkKeeps(d);
    DataFreeKeeps(d);
  }

  lemma RtLogKeeps(d: Driver)
    requires Families(d.slots, d.log, NamesOf(d.memory)) && d.slots.rtLog.pending
    ensures var after := RtLogRead(d);
            Families(after.slots, after.log, NamesOf(after.memory)) && SameLink(d, after)
  {
    hide DecodeRtlogBinary, DecodeRtlogKeyValue;
    FinishKeeps(d, RtLog, RealtimeLogFailed(BadReply));
    match d.slots.rtLog.step
    case AwaitingBinaryReply =>
      FinishKeeps(d, RtLog, RealtimeLogReceived([]));
      var reply := DecodeRtlogBinary(d.buffer, !d.auth.sessionLess);
      if reply.LogRecords? {
        FinishKeeps(d, RtLog, RealtimeLogReceived(reply.records));
      }
    case AwaitingKeyValueReply =>
      FinishKeeps(d, RtLog, RealtimeLogKeyValueReceived(DecodeRtlogKeyValue(d.buffer, !d.auth.sessionLess).records));
    case _ =>
  }

  lemma CountConfigKeeps(d: Driver)
    requires Families(d.slots, d.log, NamesOf(d.memory)) && d.slots.count.pending
    ensures var after := CountConfigRead(d);
            Families(after.slots, after.log, NamesOf(after.memory)) && SameLink(d, after)
  {
    hide DecodeConfig, FindTable;
    var name := d.memory.countName;
    FinishKeeps(d, Count, TableRecordCountFailed(name, NoConfig));
    FinishKeeps(d, Count, TableRecordCountFailed(name, NoSuchTable));
    var found := FindTable(DecodeConfig(d.buffer, !d.auth.sessionLess).tables, name);
    if found.Some? {
      var index := found.value.index;
      OnwardKeeps(d, Count, AwaitingCount, d.memory.(countIndex := index), GET_DATA_COUNT, [Byte(index)]);
    }
  }

  lemma CountKeeps(d: Driver)
    requires Families(d.slots, d.log, NamesOf(d.memory)) && d.slots.count.pending
    ensures var after := CountRead(d); Families(after.slots, after.log, NamesOf(after.memory)) && SameLink(d, after)
  {
    hide DecodeCount, CountConfigRead;
    var name := d.memory.countName;
    match d.slots.count.step
    case AwaitingTableConfig => CountConfigKeeps(d);
    case AwaitingCount =>
      FinishKeeps(d, Count, TableRecordCountFailed(name, BadData));
      FinishKeeps(d, Count, TableRecordCountReceived(name, DecodeCount(d.buffer, !d.auth.sessionLess).count));
    case _ =>
  }

  lemma ControlKeeps(d: Driver)
    requires Families(d.slots, d.log, NamesOf(d.memory)) && d.slots.control.pending
    ensures var after := ControlRead(d);
            Families(after.slots, after.log, NamesOf(after.memory)) && SameLink(d, after)
  {
    FinishKeeps(d, Control, ControlAcknowledged);
    FinishKeeps(d, Control, ControlFailed(BadReply));
  }

  lemma GetParamKeeps(d: Driver)
    requires Families(d.slots, d.log, NamesOf(d.memory)) && d.slots.getParam.pending
    ensures var after := GetParamRead(d);
            Families(after.slots, after.log, NamesOf(after.memory)) && SameLink(d, after)
  {
    FinishKeeps(d, GetParam, DeviceParamsReceived(Text.DecodeGetParam(d.buffer, !d.auth.sessionLess).values));
    FinishKeeps(d, GetParam, DeviceParamsFailed(BadReply));
  }

  lemma SetParamKeeps(d: Driver)
    requires Families(d.slots, d.log, NamesOf(d.memory)) && d.slots.setParam.pending
    ensures var after := SetParamRead(d);
            Families(after.slots, after.log, NamesOf(after.memory)) && SameLink(d, after)
  {
    FinishKeeps(d, SetParam, SetParamsAcknowledged);
    FinishKeeps(d, SetParam, SetParamsFailed(BadReply));
  }

  lemma OthersKeep(d: Driver)
    requires Families(d.slots, d.log, NamesOf(d.memory))
    ensures var after := OthersRead(d);
            Families(after.slots, after.log, NamesOf(after.memory)) && SameLink(d, after)
  {
    hide RtLogRead, ControlRead, GetParamRead, SetParamRead, CountRead;
    var r := ReadAll(d);
    if d.slots.rtLog.pending {
      RtLogKeeps(r);
    } else if d.slots.control.pending {
      ControlKeeps(r);
    } else if d.slots.getParam.pending {
      GetParamKeeps(r);
    } else if d.slots.setParam.pending {
      SetParamKeeps(r);
    } else if d.slots.count.pending {
      CountKeeps(r);
    }
  }

  lemma EstablishKeeps(d: Driver, id: int, sessionLess: bool, requestNr: int)
    requires Inv(d)
    ensures Inv(Establish(d, id, sessionLess, requestNr))
  {
    SilentKeeps(d.slots, d.log, NamesOf(d.memory), SessionEstablished(id, sessionLess));
    ReportKeeps(d.link, d.handshake.attempt, true);
  }

  lemma RefuseKeeps(d: Driver)
    requires Inv(d)
    ensures Inv(Refuse(d))
  {
    SilentKeeps(d.slots, d.log, NamesOf(d.memory), SessionFailed);
    ReportKeeps(d.link, d.handshake.attempt, false);
  }

  lemma HandshakeKeeps(d: Driver)
    requires Inv(d)
    ensures Inv(HandshakeRead(d))
  {
    hide Establish, Refuse;
    SilentKeeps(d.slots, d.log, NamesOf(d.memory), Wrote(EncodeFrame(CONNECT_SESSION_LESS, SessionLess, [])));
    EstablishKeeps(d, DecodeConnectSession(d.buffer).sessionId, false, PRE_SESSION_REQUEST_NR + 1);
    EstablishKeeps(d, 0, true, d.auth.requestNr);
    RefuseKeeps(d);
  }

  lemma ReadKeeps(d: Driver, bytes: seq<byte>)
    requires Inv(d)
    ensures Inv(OnReadyRead(d, bytes))
  {
    hide HandshakeRead, DataRead, OthersRead;
    var arrived := Arrive(d, bytes);
    var r := ReadAll(arrived);
    if d.handshake.attempt {
      HandshakeKeeps(r);
    } else if !d.slots.data.pending {
      OthersKeep(arrived);
    } else {
      DataKeeps(r);
      OthersKeep(DataRead(r).driver);
    }
  }

  // ---- What each event keeps ----

  lemma AskKeeps(d: Driver, request: Request)
    requires Inv(d)
    ensures Inv(OnAsk(d, request))
  {
    hide Payload, Command;
    var family, mode := FamilyAsked(request), d.memory.keyValueMode;
    if Ready(d) && !Get(d.slots, family).pending {
      var step := FirstStep(request, mode);
      AcceptKeeps(d.slots, d.log, d.memory, request, step);
      SendKeeps(Advance(d, family, step).(memory := Remember(d.memory, request), log := d.log + [Accepted(request)]),
                Command(request, mode), Payload(request));
    }
  }

  lemma TimeoutKeeps(d: Driver, family: Family)
    requires Inv(d) && Get(d.slots, family).armed
    ensures Inv(OnTimeout(d, family))
  {
    assert FamilyOk(Get(d.slots, family), d.log, NamesOf(d.memory), family);
    SettleKeeps(d.slots, d.log, NamesOf(d.memory), family, Signalled(Failure(d.memory, family, TimedOut)));
  }

  lemma FailAttemptKeeps(d: Driver)
    requires Inv(d) && !d.handshake.armed
    ensures Inv(FailAttempt(d))
  {
    SilentKeeps(d.slots, d.log, NamesOf(d.memory), SessionFailed);
    ReportKeeps(d.link, d.handshake.attempt, false);
  }

  lemma SocketErrorKeeps(d: Driver)
    requires Inv(d)
    ensures Inv(OnSocketError(d))
  {
    hide DropAll, FailAttempt;
    var closed := d.(socket := d.socket.(connected := false), handshake := d.handshake.(armed := false));
    DropAllKeeps(closed);
    FailAttemptKeeps(DropAll(closed));
  }

  lemma SocketConnectedKeeps(d: Driver)
    requires Inv(d)
    ensures Inv(OnSocketConnected(d))
  {
    SilentKeeps(d.slots, d.log, NamesOf(d.memory), SocketOpened);
    SilentKeeps(d.slots, d.log + [SocketOpened], NamesOf(d.memory),
                Wrote(EncodeFrame(CONNECT_SESSION, InSession(PRE_SESSION_ID, PRE_SESSION_REQUEST_NR), [])));
  }

  lemma DisconnectKeeps(d: Driver)
    requires Inv(d)
    ensures Inv(OnDisconnectNow(d))
  {
    hide DropAll, EncodeFrame;
    SilentKeeps(d.slots, d.log, NamesOf(d.memory), Wrote(EncodeFrame(DISCONNECT, SessionOf(d.auth), [])));
    var told := if Ready(d) then Write(d, EncodeFrame(DISCONNECT, SessionOf(d.auth), [])) else d;
    SilentKeeps(told.slots, told.log, NamesOf(told.memory), SessionForgotten);
    DropAllKeeps(told.(auth := d.auth.(id := 0, sessionLess := false),
                       handshake := d.handshake.(step := NoHandshake, armed := false),
                       log := told.log + [SessionForgotten]));
    Link.StepKeepsHealthyIff(d.link, Link.DisconnectNow);
  }

  lemma ConnectKeeps(d: Driver)
    requires Inv(d)
    ensures Inv(OnConnectToHost(d))
  {
    Link.StepKeepsHealthyIff(d.link, Link.ConnectToHost(true, true, true));
  }

  lemma RetryKeeps(d: Driver)
    requires Inv(d) && d.link.retry.Some?
    ensures Inv(OnReconnectTick(d))
  {
    Link.StepKeepsHealthyIff(d.link, Link.ReconnectTick(true));
  }

  lemma HeartbeatKeeps(d: Driver)
    requires Inv(d) && d.link.heartbeat.armed
    ensures Inv(OnHeartbeatTick(d))
  {
    Link.StepKeepsHealthyIff(d.link, Link.HeartbeatTick(Alive(d)));
  }

  lemma StepKeepsInv(d: Driver, e: Event)
    requires Inv(d) && Enabled(d, e)
    ensures Inv(Step(d, e))
  {
    hide Inv, OnConnectToHost, OnDisconnectNow, OnReconnectTick, OnHeartbeatTick, OnSocketConnected, OnSocketError,
      OnHandshakeTimeout, OnReadyRead, OnTimeout, OnAsk;
    match e
    case ConnectToHost => ConnectKeeps(d);
    case DisconnectNow => DisconnectKeeps(d);
    case ReconnectTick => RetryKeeps(d);
    case HeartbeatTick => HeartbeatKeeps(d);
    case SocketConnected => SocketConnectedKeeps(d);
    case SocketError => SocketErrorKeeps(d);
    case HandshakeTimeout => HandshakeTimeoutKeeps(d);
    case ReadyRead(bytes) => ReadKeeps(d, bytes);
    case Timeout(family) => TimeoutKeeps(d, family);
    case Ask(request) => AskKeeps(d, request);
  }

  lemma HandshakeTimeoutKeeps(d: Driver)
    requires Inv(d)
    ensures Inv(OnHandshakeTimeout(d))
  {
    FailAttemptKeeps(Abort(d));
  }

  /** In every reachable state, for every family: pending is armed is stepping, and the log agrees. */
  lemma {:induction false} RunKeepsInv(d: Driver, events: seq<Event>)
    requires Inv(d) && Feasible(d, events)
    ensures Inv(Run(d, events))
    decreases |events|
  {
    hide Inv, Step, Enabled;
    if events != [] {
      StepKeepsInv(d, events[0]);
      RunKeepsInv(Step(d, events[0]), events[1..]);
    }
  }

  // ---- Conservation ----

  predicate Accepts(entry: Entry, family: Family) {
    entry.Accepted? && FamilyAsked(entry.request) == family
  }

  function CountAccepted(log: seq<Entry>, family: Family): nat {
    if log == [] then 0 else
    CountAccepted(log[..|log| - 1], family) + if Accepts(log[|log| - 1], family) then 1 else 0
  }

  function CountSettled(log: seq<Entry>, family: Family): nat {
    if log == [] then 0 else
    CountSettled(log[..|log| - 1], family) + if Settles(log[|log| - 1], family) then 1 else 0
  }

  lemma {:induction false} MonitorBalances(log: seq<Entry>, family: Family)
    requires !Observe(log, family).Broken?
    ensures CountAccepted(log, family) == CountSettled(log, family) + if Observe(log, family).Waiting? then 1 else 0
  {
    if log != [] {
      MonitorBalances(log[..|log| - 1], family);
    }
  }

  /**
   Accepted requests equal signals plus drops plus the one pending, for every family, after every run and at every point
   of it.
   */
  lemma RequestsConserved(events: seq<Event>, family: Family)
    requires Feasible(INITIAL, events)
    ensures var d := Run(INITIAL, events);
            var slot := Get(d.slots, family);
            && CountAccepted(d.log, family) == CountSettled(d.log, family) + (if slot.pending then 1 else 0)
            && slot.pending == slot.armed
            && (family.Data? || family.Count? || family.RtLog? ==> (slot.pending <==> slot.step != NoStep))
  {
    hide Run, Feasible;
    var d := Run(INITIAL, events);
    InitialInv();
    RunKeepsInv(INITIAL, events);
    assert FamilyOk(Get(d.slots, family), d.log, NamesOf(d.memory), family);
    MonitorBalances(d.log, family);
  }

  lemma InitialInv()
    ensures Inv(INITIAL)
  {
    forall f ensures FamilyOk(Get(INITIAL.slots, f), INITIAL.log, NamesOf(INITIAL.memory), f) {
    }
  }

  lemma {:induction false} ObservePrefix(log: seq<Entry>, n: nat, family: Family)
    requires n <= |log| && !Observe(log, family).Broken?
    ensures !Observe(log[..n], family).Broken?
  {
    if n < |log| {
      ObservePrefix(log[..|log| - 1], n, family);
      assert log[..|log| - 1][..n] == log[..n];
    } else {
      assert log[..n] == log;
    }
  }

  /** Entry `j` accepted the request of this family that is still open before entry `i`. */
  ghost predicate OpenSince(log: seq<Entry>, family: Family, j: nat, i: nat) {
    && j < i <= |log| && Accepts(log[j], family)
    && forall k | j < k < i :: !Settles(log[k], family) && !Accepts(log[k], family)
  }

  lemma {:induction false} WaitingSince(log: seq<Entry>, family: Family) returns (j: nat)
    requires Observe(log, family).Waiting?
    ensures OpenSince(log, family, j, |log|) && log[j] == Accepted(Observe(log, family).request)
  {
    var n := |log| - 1;
    if Accepts(log[n], family) {
      j := n;
    } else {
      j := WaitingSince(log[..n], family);
    }
  }

  /**
   At every point of every run, a signal settles exactly one request, the last one accepted in its family and not
   settled since, and names the table that request asked for.
   */
  lemma SignalSettlesOneRequest(events: seq<Event>, i: nat)
    requires Feasible(INITIAL, events) && i < |Run(INITIAL, events).log| && Run(INITIAL, events).log[i].Signalled?
    ensures var log := Run(INITIAL, events).log;
            var family := FamilyOf(log[i].signal);
            && CountAccepted(log[..i], family) == CountSettled(log[..i], family) + 1
            && exists j: nat :: OpenSince(log, family, j, i) && Concludes(log[j].request, log[i].signal)
  {
    hide Run, Feasible;
    var d := Run(INITIAL, events);
    var family := FamilyOf(d.log[i].signal);
    InitialInv();
    RunKeepsInv(INITIAL, events);
    assert FamilyOk(Get(d.slots, family), d.log, NamesOf(d.memory), family);
    ObservePrefix(d.log, i + 1, family);
    assert d.log[..i + 1][..i] == d.log[..i];
    MonitorBalances(d.log[..i], family);
    var j := WaitingSince(d.log[..i], family);
    OpenInWhole(d.log, family, j, i);
  }

  lemma OpenInWhole(log: seq<Entry>, family: Family, j: nat, i: nat)
    requires i <= |log| && OpenSince(log[..i], family, j, i)
    ensures OpenSince(log, family, j, i) && log[..i][j] == log[j]
  {
    forall k | j < k < i ensures !Settles(log[k], family) && !Accepts(log[k], family) {
      assert log[..i][k] == log[k];
    }
  }

  // ---- The composition with the lifecycle ----

  lemma HandshakeLink(d: Driver)
    ensures var link := HandshakeRead(d).link;
            link == d.link || link == Link.OnReport(d.link, true) || link == Link.OnReport(d.link, false)
  {
    hide DecodeConnectSession, DecodeReply, EncodeFrame, Link.OnReport;
  }

  lemma ReadLink(d: Driver, bytes: seq<byte>)
    requires Inv(d)
    ensures var link := OnReadyRead(d, bytes).link;
            link == d.link || link == Link.OnReport(d.link, true) || link == Link.OnReport(d.link, false)
  {
    hide HandshakeRead, DataRead, OthersRead, Families, LinkOk, Link.OnReport;
    var r := ReadAll(Arrive(d, bytes));
    if d.handshake.attempt {
      HandshakeLink(r);
    } else if !d.slots.data.pending {
      OthersKeep(Arrive(d, bytes));
    } else {
      DataKeeps(r);
      OthersKeep(DataRead(r).driver);
    }
  }

  lemma DropAllLink(d: Driver)
    ensures DropAll(d).link == d.link && DropAll(d).handshake == d.handshake
  {
    hide Set;
  }

  /** What one event of the driver is to its lifecycle: nothing, or one event a driver may cause. */
  lemma LinkStep(d: Driver, e: Event) returns (moves: seq<Link.Event>)
    requires Inv(d) && Enabled(d, e)
    ensures Step(d, e).link == Link.Run(d.link, moves) && Link.Feasible(d.link, moves)
    ensures forall i | 0 <= i < |moves| :: Link.DriverEvent(moves[i])
  {
    hide Inv, OnReadyRead, DropAll, EncodeFrame, Set;
    match e
    case ConnectToHost => moves := [Link.ConnectToHost(true, true, true)];
    case DisconnectNow => moves := [Link.DisconnectNow];
    case ReconnectTick => moves := [Link.ReconnectTick(true)];
    case HeartbeatTick => moves := [Link.HeartbeatTick(Alive(d))];
    case SocketError =>
      DropAllLink(d.(socket := d.socket.(connected := false), handshake := d.handshake.(armed := false)));
      moves := if d.handshake.attempt then [Link.Report(false)] else [];
    case HandshakeTimeout => moves := if d.handshake.attempt then [Link.Report(false)] else [];
    case ReadyRead(bytes) =>
      ReadLink(d, bytes);
      var link := OnReadyRead(d, bytes).link;
      moves := if link == d.link then [] else [Link.Report(link == Link.OnReport(d.link, true))];
    case _ => moves := [];
    OneMove(d.link, moves);
  }

  lemma OneMove(link: Link.State, moves: seq<Link.Event>)
    requires |moves| <= 1
    ensures Link.Run(link, moves) == if moves == [] then link else Link.Step(link, moves[0])
    ensures Link.Feasible(link, moves) <==> moves == [] || Link.Enabled(link, moves[0])
  {
  }

  /** The driver drives a real run of the lifecycle: alternation, backoff and quiescence hold of it too. */
  lemma {:induction false} LinkRuns(d: Driver, events: seq<Event>) returns (moves: seq<Link.Event>)
    requires Inv(d) && Feasible(d, events)
    ensures Run(d, events).link == Link.Run(d.link, moves) && Link.Feasible(d.link, moves)
    ensures forall i | 0 <= i < |moves| :: Link.DriverEvent(moves[i])
    decreases |events|
  {
    hide Inv, Step, Enabled;
    if events == [] {
      moves := [];
    } else {
      var first := LinkStep(d, events[0]);
      StepKeepsInv(d, events[0]);
      var rest := LinkRuns(Step(d, events[0]), events[1..]);
      moves := first + rest;
      Link.RunConcat(d.link, first, rest);
    }
  }
}
