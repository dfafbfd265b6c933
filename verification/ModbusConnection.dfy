/**
 The Modbus driver: one outstanding request over a byte stream, composed with the connection lifecycle.

 The socket and the timers are events. The log records what crosses the driver's boundary: frames
 written, signals emitted, and requests dropped because the connection went away.
 */
module ModbusConnection {
  import opened Bytes
  import opened ModbusCodec
  import opened Wrappers
  import Link = ConnectionState

  datatype Reason = ExceptionCode(code: byte) | MalformedResponse | TimedOut

  datatype Signal =
    | HoldingRegistersRead(registers: seq<word>)
    | InputRegistersRead(registers: seq<word>)
    | CoilsRead(coils: seq<bool>)
    | DiscreteInputsRead(inputs: seq<bool>)
    | ReadFailed(reason: Reason)
    | SingleRegisterWritten(address: word, value: word)
    | WriteFailed(reason: Reason)
    | MultipleRegistersWritten(address: word, quantity: word)
    | MultipleWriteFailed(reason: Reason)
    | SingleCoilWritten(address: word, on: bool)
    | SingleCoilWriteFailed(reason: Reason)
    | MultipleCoilsWritten(address: word, quantity: word)
    | MultipleCoilWriteFailed(reason: Reason)

  datatype Entry =
    | Sent(kind: Kind, frame: seq<byte>)
    | Signalled(signal: Signal)
    | Dropped(kind: Kind)

  datatype Driver = Driver(
    link: Link.State,
    buffer: seq<byte>,
    pending: Option<Kind>,
    timerArmed: bool,
    nextId: word,
    log: seq<Entry>)

  datatype Event =
    | ConnectToHost
    | DisconnectNow
    | SocketConnected
    | SocketError
    | HeartbeatTick(alive: bool)
    | ReconnectTick
    | ReadyRead(bytes: seq<byte>)
    | Timeout
    | Ask(request: Request)

  const INITIAL := Driver(Link.INITIAL, [], None, false, 1, [])

  // ---- Signals ----

  /** The signals that may end a request: its own success or its own failure. */
  predicate Resolves(kind: Kind, signal: Signal) {
    match kind
    case ReadHoldingRegisters => signal.HoldingRegistersRead? || signal.ReadFailed?
    case ReadInputRegisters => signal.InputRegistersRead? || signal.ReadFailed?
    case ReadCoils => signal.CoilsRead? || signal.ReadFailed?
    case ReadDiscreteInputs => signal.DiscreteInputsRead? || signal.ReadFailed?
    case WriteSingleRegister => signal.SingleRegisterWritten? || signal.WriteFailed?
    case WriteMultipleRegisters => signal.MultipleRegistersWritten? || signal.MultipleWriteFailed?
    case WriteSingleCoil => signal.SingleCoilWritten? || signal.SingleCoilWriteFailed?
    case WriteMultipleCoils => signal.MultipleCoilsWritten? || signal.MultipleCoilWriteFailed?
  }

  function Failure(kind: Kind, reason: Reason): (signal: Signal)
    ensures Resolves(kind, signal)
  {
    match kind
    case WriteSingleRegister => WriteFailed(reason)
    case WriteMultipleRegisters => MultipleWriteFailed(reason)
    case WriteSingleCoil => SingleCoilWriteFailed(reason)
    case WriteMultipleCoils => MultipleCoilWriteFailed(reason)
    case _ => ReadFailed(reason)
  }

  function Answer(kind: Kind, reply: Reply): Signal {
    match reply
    case Incomplete => Failure(kind, MalformedResponse)
    case Malformed => Failure(kind, MalformedResponse)
    case Exception(code) => Failure(kind, ExceptionCode(code))
    case RegisterValues(registers) =>
      if kind == ReadHoldingRegisters then HoldingRegistersRead(registers) else InputRegistersRead(registers)
    case BitValues(bits) =>
      if kind == ReadCoils then CoilsRead(bits) else DiscreteInputsRead(bits)
    case Echo(first, second) =>
      if kind == WriteSingleRegister then SingleRegisterWritten(first, second)
      else if kind == WriteMultipleRegisters then MultipleRegistersWritten(first, second)
      else if kind == WriteSingleCoil then SingleCoilWritten(first, second == 0xFF00)
      else MultipleCoilsWritten(first, second)
  }

  lemma AnswerResolves(kind: Kind, data: seq<byte>)
    ensures Resolves(kind, Answer(kind, Decode(kind, data)))
  {
    var reply := Decode(kind, data);
    if reply.RegisterValues? || reply.BitValues? || reply.Echo? {
      DecodedIsPrinted(kind, data);
    }
  }

  // ---- Specification of each event ----

  function Drops(pending: Option<Kind>): seq<Entry> {
    match pending
    case None => []
    case Some(kind) => [Dropped(kind)]
  }

  /** The connection lifecycle moved; losing the connection forgets the request but leaves its timer running. */
  function Follow(d: Driver, link: Link.State): Driver {
    if d.link.connected && !link.connected
    then d.(link := link, buffer := [], pending := None, log := d.log + Drops(d.pending))
    else d.(link := link)
  }

  function Forget(d: Driver): Driver {
    d.(buffer := [], pending := None, timerArmed := false, log := d.log + Drops(d.pending))
  }

  function OnAsk(d: Driver, request: Request): Driver {
    if !d.link.connected || d.pending.Some? then d
    else d.(pending := Some(KindOf(request)), timerArmed := true, nextId := (d.nextId + 1) % 65536,
            log := d.log + [Sent(KindOf(request), Encode(request, d.nextId))])
  }

  function OnReadyRead(d: Driver, bytes: seq<byte>): Driver {
    if d.pending.None? then d.(buffer := []) else
    var kind, data := d.pending.value, d.buffer + bytes;
    if Decode(kind, data).Incomplete? then d.(buffer := data)
    else d.(buffer := [], pending := None, timerArmed := false,
            log := d.log + [Signalled(Answer(kind, Decode(kind, data)))])
  }

  function OnTimeout(d: Driver): Driver {
    var quiet := d.(buffer := [], pending := None, timerArmed := false);
    if d.pending.None? then quiet
    else quiet.(log := d.log + [Signalled(Failure(d.pending.value, TimedOut))])
  }

  /** What the lifecycle sees of an event. */
  function LinkEvent(e: Event): Option<Link.Event> {
    match e
    case ConnectToHost => Some(Link.ConnectToHost(true, true, true))
    case DisconnectNow => Some(Link.DisconnectNow)
    case SocketConnected => Some(Link.Report(true))
    case SocketError => Some(Link.Report(false))
    case HeartbeatTick(alive) => Some(Link.HeartbeatTick(alive))
    case ReconnectTick => Some(Link.ReconnectTick(true))
    case _ => None
  }

  function Step(d: Driver, e: Event): Driver {
    match e
    case ReadyRead(bytes) => OnReadyRead(d, bytes)
    case Timeout => OnTimeout(d)
    case Ask(request) => OnAsk(d, request)
    case ConnectToHost => Follow(Forget(d), Link.Step(d.link, LinkEvent(e).value))
    case DisconnectNow => Forget(Follow(d, Link.Step(d.link, LinkEvent(e).value)))
    case _ => Follow(d, Link.Step(d.link, LinkEvent(e).value))
  }

  predicate Enabled(d: Driver, e: Event) {
    && (e.Timeout? ==> d.timerArmed)
    && (LinkEvent(e).Some? ==> Link.Enabled(d.link, LinkEvent(e).value))
  }

  function Run(d: Driver, events: seq<Event>): Driver
    decreases |events|
  {
    if events == [] then d else Run(Step(d, events[0]), events[1..])
  }

  predicate Feasible(d: Driver, events: seq<Event>)
    decreases |events|
  {
    events == [] || (Enabled(d, events[0]) && Feasible(Step(d, events[0]), events[1..]))
  }

  // ---- The driver itself ----

  class Connection {
    const link: Link.Machine
    var buffer: seq<byte>
    var pending: Option<Kind>
    var timerArmed: bool
    var nextId: word
    var log: seq<Entry>

    ghost function Model(): Driver
      reads this, link
    {
      Driver(link.Model(), buffer, pending, timerArmed, nextId, log)
    }

    /**
     One outstanding request, its timer and connection, a log that obeys the monitor, a lifecycle that cannot stall.
     */
    ghost predicate Valid()
      reads this, link
    {
      Inv(Model())
    }

    constructor ()
      ensures Model() == INITIAL && Valid() && fresh(link)
    {
      link := new Link.Machine();
      buffer, pending, timerArmed, nextId, log := [], None, false, 1, [];
    }

    /** The lifecycle's own signal handler. */
    method OnConnectionLost()
      modifies this
      ensures Model() == old(Model()).(buffer := [], pending := None, log := old(log) + Drops(old(pending)))
    {
      log := log + Drops(pending);
      buffer := [];
      pending := None;
    }

    method ForgetRequest()
      modifies this
      ensures Model() == Forget(old(Model()))
    {
      OnConnectionLost();
      timerArmed := false;
    }

    method Connect()
      requires Valid()
      modifies this, link
      ensures Model() == Step(old(Model()), ConnectToHost)
      ensures Valid()
    {
      hide Inv;
      StepKeepsInv(Model(), ConnectToHost);
      ForgetRequest();
      link.Handle(Link.Handlers(true, true, true));
      link.AutoConnect(true);
    }

    method Disconnect()
      requires Valid()
      modifies this, link
      ensures Model() == Step(old(Model()), DisconnectNow)
      ensures Valid()
    {
      hide Inv;
      StepKeepsInv(Model(), DisconnectNow);
      var was := link.connected;
      link.Disconnect();
      if was && !link.connected { OnConnectionLost(); }
      ForgetRequest();
    }

    method SocketReported(succeeded: bool)
      requires Valid()
      modifies this, link
      ensures Model() == Step(old(Model()), if succeeded then SocketConnected else SocketError)
      ensures Valid()
    {
      hide Inv;
      StepKeepsInv(Model(), if succeeded then SocketConnected else SocketError);
      var was := link.connected;
      link.ReportPendingConnectResult(succeeded);
      if was && !link.connected { OnConnectionLost(); }
    }

    method HeartbeatFired(alive: bool)
      requires link.heartbeatArmed
      requires Valid()
      modifies this, link
      ensures Model() == Step(old(Model()), HeartbeatTick(alive))
      ensures Valid()
    {
      hide Inv;
      StepKeepsInv(Model(), HeartbeatTick(alive));
      var was := link.connected;
      link.HeartbeatFired(alive);
      if was && !link.connected { OnConnectionLost(); }
    }

    method RetryFired()
      requires link.retry.Some?
      requires Valid()
      modifies this, link
      ensures Model() == Step(old(Model()), ReconnectTick)
      ensures Valid()
    {
      hide Inv;
      StepKeepsInv(Model(), ReconnectTick);
      var was := link.connected;
      link.RetryFired(true);
      if was && !link.connected { OnConnectionLost(); }
    }

    method Write(request: Request)
      requires Valid()
      modifies this
      ensures Model() == Step(old(Model()), Ask(request))
      ensures Valid()
      ensures log == old(log) + if old(link.connected && pending.None?)
                                then [Sent(KindOf(request), Encode(request, old(nextId)))] else []
    {
      hide Inv;
      StepKeepsInv(Model(), Ask(request));
      if !link.connected || pending.Some? { return; }
      var frame;
      match request {
        case Fixed(_, _, _, _) => frame := Encode(request, nextId);
        case Registers(unit, address, values) => frame := EncodeRegisters(unit, address, values, nextId);
        case Coils(unit, address, coils) => frame := EncodeCoils(unit, address, coils, nextId);
      }
      nextId := (nextId + 1) % 65536;
      pending := Some(KindOf(request));
      log := log + [Sent(KindOf(request), frame)];
      timerArmed := true;
    }

    method BytesArrived(bytes: seq<byte>)
      requires Valid()
      modifies this
      ensures Model() == Step(old(Model()), ReadyRead(bytes))
      ensures Valid()
    {
      hide Inv;
      StepKeepsInv(Model(), ReadyRead(bytes));
      buffer := buffer + bytes;
      if pending.Some? {
        var kind := pending.value;
        var reply := DecodeResponse(kind, buffer);
        if reply.Incomplete? { return; }
        pending := None;
        timerArmed := false;
        log := log + [Signalled(Answer(kind, reply))];
      }
      buffer := [];
    }

    /** What the owner of the object can count on at any moment. */
    lemma Accounts()
      requires Valid()
      ensures CountSent(log) == CountConcluded(log) + if pending.Some? then 1 else 0
      ensures pending.Some? ==> link.connected && timerArmed
    {
      MonitorBalances(log);
    }

    method TimerFired()
      requires timerArmed
      requires Valid()
      modifies this
      ensures Model() == Step(old(Model()), Timeout)
      ensures Valid()
    {
      hide Inv;
      StepKeepsInv(Model(), Timeout);
      timerArmed := false;
      var timedOut := pending;
      pending := None;
      buffer := [];
      if timedOut.Some? {
        log := log + [Signalled(Failure(timedOut.value, TimedOut))];
      }
    }
  }

  // ---- One outstanding request ----

  datatype Phase = Idle | Waiting(kind: Kind) | Broken

  /** A protocol monitor: a request may be sent only when none is outstanding, and only its own outcome may follow. */
  function Next(phase: Phase, entry: Entry): Phase {
    match entry
    case Sent(kind, _) => if phase.Idle? then Waiting(kind) else Broken
    case Signalled(signal) => if phase.Waiting? && Resolves(phase.kind, signal) then Idle else Broken
    case Dropped(kind) => if phase == Waiting(kind) then Idle else Broken
  }

  function Observe(log: seq<Entry>): Phase {
    if log == [] then Idle else Next(Observe(log[..|log| - 1]), log[|log| - 1])
  }

  function PhaseOf(pending: Option<Kind>): Phase {
    match pending
    case None => Idle
    case Some(kind) => Waiting(kind)
  }

  /** Whatever is buffered belongs to the outstanding request and does not answer it yet. */
  predicate BufferOpen(pending: Option<Kind>, buffer: seq<byte>) {
    match pending
    case None => buffer == []
    case Some(kind) => Decode(kind, buffer).Incomplete?
  }

  /** The n-th request sent carries transaction n, modulo 2^16, and its own function code. */
  ghost predicate Numbered(log: seq<Entry>, nextId: word) {
    && nextId == (CountSent(log) + 1) % 65536
    && forall i | 0 <= i < |log| && log[i].Sent? :: NumberedAt(log, i)
  }

  predicate NumberedAt(log: seq<Entry>, i: nat)
    requires i < |log| && log[i].Sent?
  {
    && |log[i].frame| >= 8 && ReadBig16(log[i].frame, 0) == (CountSent(log[..i]) + 1) % 65536
    && log[i].frame[7] == Code(log[i].kind)
  }

  lemma NumberedNext(log: seq<Entry>, entry: Entry, nextId: word)
    requires Numbered(log, nextId)
    requires entry.Sent? ==>
               |entry.frame| >= 8 && ReadBig16(entry.frame, 0) == nextId && entry.frame[7] == Code(entry.kind)
    ensures Numbered(log + [entry], if entry.Sent? then (nextId + 1) % 65536 else nextId)
  {
    var longer := log + [entry];
    assert longer[..|log|] == log;
    forall i | 0 <= i < |longer| && longer[i].Sent? ensures NumberedAt(longer, i) {
      if i < |log| {
        assert NumberedAt(log, i) && longer[..i] == log[..i];
      }
    }
  }

  ghost predicate Inv(d: Driver) {
    && (d.pending.Some? ==> d.link.connected && d.timerArmed)
    && BufferOpen(d.pending, d.buffer)
    && Observe(d.log) == PhaseOf(d.pending)
    && Link.Healthy(d.link)
    && Numbered(d.log, d.nextId)
  }

  lemma ObserveNext(log: seq<Entry>, entry: Entry)
    ensures Observe(log + [entry]) == Next(Observe(log), entry)
  {
    assert (log + [entry])[..|log|] == log;
  }

  lemma ObserveDrops(log: seq<Entry>, pending: Option<Kind>)
    requires Observe(log) == PhaseOf(pending)
    ensures Observe(log + Drops(pending)) == Idle
  {
    if pending.None? {
      assert log + Drops(pending) == log;
    } else {
      ObserveNext(log, Dropped(pending.value));
    }
  }

  lemma NumberedDrops(log: seq<Entry>, pending: Option<Kind>, nextId: word)
    requires Numbered(log, nextId)
    ensures Numbered(log + Drops(pending), nextId)
  {
    if pending.None? {
      assert log + Drops(pending) == log;
    } else {
      NumberedNext(log, Dropped(pending.value), nextId);
    }
  }

  lemma FollowKeepsInv(d: Driver, link: Link.State)
    requires Inv(d) && Link.Healthy(link)
    ensures Inv(Follow(d, link))
  {
    hide Numbered, Link.Healthy;
    ObserveDrops(d.log, d.pending);
    NumberedDrops(d.log, d.pending, d.nextId);
  }

  lemma ForgetKeepsInv(d: Driver)
    requires Inv(d)
    ensures Inv(Forget(d))
  {
    hide Numbered, Link.Healthy;
    ObserveDrops(d.log, d.pending);
    NumberedDrops(d.log, d.pending, d.nextId);
  }

  lemma AskKeepsInv(d: Driver, request: Request)
    requires Inv(d)
    ensures Inv(OnAsk(d, request))
  {
    hide Numbered, Link.Healthy, Encode;
    ObserveNext(d.log, Sent(KindOf(request), Encode(request, d.nextId)));
    EncodedHead(request, d.nextId);
    NumberedNext(d.log, Sent(KindOf(request), Encode(request, d.nextId)), d.nextId);
  }

  lemma ReadKeepsInv(d: Driver, bytes: seq<byte>)
    requires Inv(d)
    ensures Inv(OnReadyRead(d, bytes))
  {
    hide Numbered, Link.Healthy, Decode, Answer;
    if d.pending.Some? {
      var kind, data := d.pending.value, d.buffer + bytes;
      AnswerResolves(kind, data);
      ObserveNext(d.log, Signalled(Answer(kind, Decode(kind, data))));
      NumberedNext(d.log, Signalled(Answer(kind, Decode(kind, data))), d.nextId);
    }
  }

  lemma TimeoutKeepsInv(d: Driver)
    requires Inv(d)
    ensures Inv(OnTimeout(d))
  {
    hide Numbered, Link.Healthy;
    if d.pending.Some? {
      ObserveNext(d.log, Signalled(Failure(d.pending.value, TimedOut)));
      NumberedNext(d.log, Signalled(Failure(d.pending.value, TimedOut)), d.nextId);
    }
  }

  lemma StepKeepsInv(d: Driver, e: Event)
    requires Inv(d) && Enabled(d, e)
    ensures Inv(Step(d, e))
  {
    if LinkEvent(e).Some? {
      var link := Link.Step(d.link, LinkEvent(e).value);
      Link.StepKeepsHealthyIff(d.link, LinkEvent(e).value);
      ForgetKeepsInv(d);
      FollowKeepsInv(Forget(d), link);
      FollowKeepsInv(d, link);
      ForgetKeepsInv(Follow(d, link));
    } else {
      match e
      case ReadyRead(bytes) => ReadKeepsInv(d, bytes);
      case Timeout => TimeoutKeepsInv(d);
      case Ask(request) => AskKeepsInv(d, request);
    }
  }

  /**
   In every reachable state a pending request implies a connection and an armed timer, and the log obeys the monitor.
   */
  lemma {:induction false} RunKeepsInv(d: Driver, events: seq<Event>)
    requires Inv(d) && Feasible(d, events)
    ensures Inv(Run(d, events))
    decreases |events|
  {
    if events != [] {
      StepKeepsInv(d, events[0]);
      RunKeepsInv(Step(d, events[0]), events[1..]);
    }
  }

  lemma InitialInv()
    ensures Inv(INITIAL)
  {
  }

  lemma {:induction false} ObservePrefix(log: seq<Entry>, n: nat)
    requires n <= |log| && !Observe(log).Broken?
    ensures !Observe(log[..n]).Broken?
  {
    if n < |log| {
      ObservePrefix(log[..|log| - 1], n);
      assert log[..|log| - 1][..n] == log[..n];
    } else {
      assert log[..n] == log;
    }
  }

  /** What may follow a sent request: its own signal, or its drop. */
  predicate Concludes(kind: Kind, entry: Entry) {
    (entry.Signalled? && Resolves(kind, entry.signal)) || entry == Dropped(kind)
  }

  lemma TwoPrefixes(log: seq<Entry>, i: nat)
    requires i + 1 < |log|
    ensures Observe(log[..i + 2]) == Next(Next(Observe(log[..i]), log[i]), log[i + 1])
  {
    assert log[..i + 2][..i + 1] == log[..i + 1];
    assert log[..i + 1][..i] == log[..i];
  }

  /**
   In every run, each accepted request but a still pending last one is concluded next, exactly once, by its own outcome.
   */
  lemma EveryRequestConcludes(events: seq<Event>, i: nat)
    requires Feasible(INITIAL, events) && i < |Run(INITIAL, events).log| && Run(INITIAL, events).log[i].Sent?
    ensures var d := Run(INITIAL, events);
            if i + 1 < |d.log| then Concludes(d.log[i].kind, d.log[i + 1]) else d.pending == Some(d.log[i].kind)
  {
    hide Run, Feasible, Link.Healthy, Numbered;
    var d := Run(INITIAL, events);
    InitialInv();
    RunKeepsInv(INITIAL, events);
    if i + 1 < |d.log| {
      ObservePrefix(d.log, i + 2);
      TwoPrefixes(d.log, i);
    } else {
      assert d.log[..i + 1] == d.log;
    }
  }

  /** In every run, no signal is emitted and nothing is dropped without the request it belongs to just before it. */
  lemma NothingUnsolicited(events: seq<Event>, i: nat)
    requires Feasible(INITIAL, events) && i < |Run(INITIAL, events).log| && !Run(INITIAL, events).log[i].Sent?
    ensures var log := Run(INITIAL, events).log;
            i > 0 && log[i - 1].Sent? && Concludes(log[i - 1].kind, log[i])
  {
    hide Run, Feasible, Link.Healthy, Numbered;
    var d := Run(INITIAL, events);
    InitialInv();
    RunKeepsInv(INITIAL, events);
    ObservePrefix(d.log, i + 1);
    assert d.log[..i + 1][..i] == d.log[..i];
    if i > 0 {
      TwoPrefixes(d.log, i - 1);
    }
  }

  function CountSent(log: seq<Entry>): nat {
    if log == [] then 0 else CountSent(log[..|log| - 1]) + if log[|log| - 1].Sent? then 1 else 0
  }

  function CountConcluded(log: seq<Entry>): nat {
    if log == [] then 0 else CountConcluded(log[..|log| - 1]) + if log[|log| - 1].Sent? then 0 else 1
  }

  lemma {:induction false} MonitorBalances(log: seq<Entry>)
    requires !Observe(log).Broken?
    ensures CountSent(log) == CountConcluded(log) + if Observe(log).Waiting? then 1 else 0
  {
    if log != [] {
      MonitorBalances(log[..|log| - 1]);
    }
  }

  /** Accepted requests are conserved: signals plus drops plus the one pending. */
  lemma RequestsConserved(events: seq<Event>)
    requires Feasible(INITIAL, events)
    ensures var d := Run(INITIAL, events);
            CountSent(d.log) == CountConcluded(d.log) + if d.pending.Some? then 1 else 0
  {
    InitialInv();
    RunKeepsInv(INITIAL, events);
    MonitorBalances(Run(INITIAL, events).log);
  }

  /**
   A request is dropped only when the connection is lost or its owner reconnects or disconnects; nothing else touches
   it.
   */
  lemma DropsOnlyOnLoss(d: Driver, e: Event)
    requires LinkEvent(e).Some? && !e.ConnectToHost? && !e.DisconnectNow?
    ensures var next := Step(d, e);
            if d.link.connected && !next.link.connected
            then next == d.(link := next.link, buffer := [], pending := None,
                            log := d.log + if d.pending.Some? then [Dropped(d.pending.value)] else [])
            else next == d.(link := next.link)
  {
    hide Link.Step;
  }

  /** Reconnecting or disconnecting forgets the request and stops its timer. */
  lemma OwnerForgets(d: Driver, e: Event)
    requires e.ConnectToHost? || e.DisconnectNow?
    ensures var next := Step(d, e);
            && next.pending.None? && next.buffer == [] && !next.timerArmed && next.nextId == d.nextId
            && next.log == d.log + if d.pending.Some? then [Dropped(d.pending.value)] else []
  {
  }

  /** In every run the n-th request sent carries transaction n, modulo 2^16, and its own function code. */
  lemma TransactionsCount(events: seq<Event>, i: nat)
    requires Feasible(INITIAL, events) && i < |Run(INITIAL, events).log| && Run(INITIAL, events).log[i].Sent?
    ensures NumberedAt(Run(INITIAL, events).log, i)
  {
    hide Run, Feasible, Link.Healthy, NumberedAt;
    InitialInv();
    RunKeepsInv(INITIAL, events);
  }

  // ---- The composition with the lifecycle ----

  function LinkEvents(events: seq<Event>): seq<Link.Event>
    decreases |events|
  {
    if events == [] then [] else
    (match LinkEvent(events[0]) case None => [] case Some(e) => [e]) + LinkEvents(events[1..])
  }

  lemma StepLink(d: Driver, e: Event)
    ensures Step(d, e).link == if LinkEvent(e).Some? then Link.Step(d.link, LinkEvent(e).value) else d.link
  {
  }

  /** The driver drives a real run of the lifecycle: every law of the lifecycle's runs holds of its link. */
  lemma {:induction false} LinkRuns(d: Driver, events: seq<Event>)
    requires Feasible(d, events)
    ensures Run(d, events).link == Link.Run(d.link, LinkEvents(events)) && Link.Feasible(d.link, LinkEvents(events))
    decreases |events|
  {
    if events != [] {
      var e, rest := events[0], events[1..];
      LinkRuns(Step(d, e), rest);
      StepLink(d, e);
      var moves := LinkEvents(events);
      if LinkEvent(e).Some? {
        assert moves[0] == LinkEvent(e).value && moves[1..] == LinkEvents(rest);
      } else {
        assert moves == LinkEvents(rest);
      }
    }
  }

  /** Connecting, and a socket that opens, make the driver accept a request; so does a retry after a failure. */
  lemma ConnectionOpens(d: Driver, failsFirst: bool, request: Request)
    requires Inv(d)
    ensures var launched := Step(d, ConnectToHost);
            var failed := Step(launched, SocketError);
            var tried := if failsFirst then Step(failed, ReconnectTick) else launched;
            var e := Step(tried, SocketConnected);
            && !failed.link.connected && failed.link.retry == Some(5000) && Enabled(failed, ReconnectTick)
            && e.link.connected && !e.link.reconnecting && e.pending.None?
            && e.link.handlers == Link.Handlers(true, true, true)
            && OnAsk(e, request).log == e.log + [Sent(KindOf(request), Encode(request, e.nextId))]
  {
    hide Encode, Link.Faithful, Numbered, Observe;
  }

  /** A dead peer is noticed by the heartbeat, which ends the connection and the request. */
  lemma DeadPeerDropsRequest(d: Driver)
    requires Inv(d) && d.link.connected && d.link.handlers.probe && d.link.heartbeat.intervalMs > 0
    ensures var e := Step(d, HeartbeatTick(false));
            && Enabled(d, HeartbeatTick(false)) && !e.link.connected && e.link.reconnecting && e.pending.None?
            && Step(d, HeartbeatTick(true)) == d
  {
    hide Link.Faithful, Numbered, Observe;
    Link.HeartbeatWatches(d.link);
  }

  // ---- Segmentation ----

  function Reads(chunks: seq<seq<byte>>): seq<Event> {
    seq(|chunks|, i requires 0 <= i < |chunks| => ReadyRead(chunks[i]))
  }

  lemma DecodeStable(kind: Kind, data: seq<byte>, more: seq<byte>)
    requires !Decode(kind, data).Incomplete?
    ensures Decode(kind, data + more) == Decode(kind, data)
  {
    var all, length := data + more, ReadBig16(data, 4);
    assert ReadBig16(all, 4) == length && ReadBig16(all, 2) == ReadBig16(data, 2);
    if length >= 2 {
      assert all[7..6 + length] == data[7..6 + length];
    }
  }

  lemma ReadTwice(d: Driver, first: seq<byte>, second: seq<byte>)
    requires BufferOpen(d.pending, d.buffer)
    ensures OnReadyRead(OnReadyRead(d, first), second) == OnReadyRead(d, first + second)
    ensures BufferOpen(OnReadyRead(d, first).pending, OnReadyRead(d, first).buffer)
  {
    if d.pending.Some? {
      var kind, data := d.pending.value, d.buffer + first;
      assert d.buffer + (first + second) == data + second;
      if !Decode(kind, data).Incomplete? {
        DecodeStable(kind, data, second);
      }
    }
  }

  /**
   However the stream is split over reads, empty ones included, the driver ends in the same state as after one read.
   */
  lemma {:induction false} SegmentationInvisible(d: Driver, chunks: seq<seq<byte>>)
    requires BufferOpen(d.pending, d.buffer)
    ensures Run(d, Reads(chunks)) == OnReadyRead(d, Concat(chunks))
    decreases |chunks|
  {
    if chunks == [] {
      assert d.buffer + [] == d.buffer;
    } else {
      ReadTwice(d, chunks[0], Concat(chunks[1..]));
      SegmentationInvisible(OnReadyRead(d, chunks[0]), chunks[1..]);
      assert Reads(chunks)[1..] == Reads(chunks[1..]);
    }
  }

  /** Each kind's own failure. */
  predicate FailsWith(kind: Kind, reason: Reason, told: Signal) {
    match kind
    case ReadHoldingRegisters => told == ReadFailed(reason)
    case ReadInputRegisters => told == ReadFailed(reason)
    case ReadCoils => told == ReadFailed(reason)
    case ReadDiscreteInputs => told == ReadFailed(reason)
    case WriteSingleRegister => told == WriteFailed(reason)
    case WriteMultipleRegisters => told == MultipleWriteFailed(reason)
    case WriteSingleCoil => told == SingleCoilWriteFailed(reason)
    case WriteMultipleCoils => told == MultipleCoilWriteFailed(reason)
  }

  /** Each kind's own success, with everything the server's reply says. */
  predicate Reports(kind: Kind, reply: Reply, told: Signal) {
    match kind
    case ReadHoldingRegisters => reply.RegisterValues? && told == HoldingRegistersRead(reply.registers)
    case ReadInputRegisters => reply.RegisterValues? && told == InputRegistersRead(reply.registers)
    case ReadCoils => reply.BitValues? && told == CoilsRead(reply.bits)
    case ReadDiscreteInputs => reply.BitValues? && told == DiscreteInputsRead(reply.bits)
    case WriteSingleRegister => reply.Echo? && told == SingleRegisterWritten(reply.first, reply.second)
    case WriteMultipleRegisters => reply.Echo? && told == MultipleRegistersWritten(reply.first, reply.second)
    case WriteSingleCoil => reply.Echo? && told == SingleCoilWritten(reply.first, reply.second == 0xFF00)
    case WriteMultipleCoils => reply.Echo? && told == MultipleCoilsWritten(reply.first, reply.second)
  }

  /** The request is over and the caller has been told this, once; nothing else has changed. */
  predicate Concluded(d: Driver, e: Driver, told: Signal) {
    e == d.(pending := None, timerArmed := false, buffer := [], log := d.log + [Signalled(told)])
  }

  lemma AnswerReports(kind: Kind, reply: Reply)
    requires Positive(kind, reply) || reply.Exception?
    ensures if reply.Exception? then FailsWith(kind, ExceptionCode(reply.code), Answer(kind, reply))
            else Reports(kind, reply, Answer(kind, reply))
  {
  }

  /**
   A server's reply, however it is split and whatever transaction it names, tells the caller exactly what the server
   said, in the signal of the kind that was asked; an exception is that kind's failure with the server's code.
   */
  lemma ReplyDelivered(d: Driver, reply: Reply, transaction: word, unit: byte, chunks: seq<seq<byte>>)
    returns (told: Signal)
    requires d.pending.Some? && d.buffer == []
    requires Positive(d.pending.value, reply) || reply.Exception?
    requires Concat(chunks) == Adu(transaction, unit, ReplyPdu(d.pending.value, reply))
    ensures Concluded(d, Run(d, Reads(chunks)), told)
    ensures if reply.Exception? then FailsWith(d.pending.value, ExceptionCode(reply.code), told)
            else Reports(d.pending.value, reply, told)
  {
    var kind, frame := d.pending.value, Concat(chunks);
    DecodeNothing(kind);
    hide Decode, Adu, ReplyPdu, Run, Reads, Answer, FailsWith, Reports;
    SegmentationInvisible(d, chunks);
    DecodePrinted(kind, transaction, unit, reply, []);
    assert frame + [] == frame && d.buffer + frame == frame;
    told := Answer(kind, reply);
    AnswerReports(kind, reply);
  }

  /** Bytes that decode to nothing a server prints fail the request as malformed, however they are split. */
  lemma MalformedDelivered(d: Driver, chunks: seq<seq<byte>>) returns (told: Signal)
    requires d.pending.Some? && d.buffer == [] && Decode(d.pending.value, Concat(chunks)) == Malformed
    ensures Concluded(d, Run(d, Reads(chunks)), told) && FailsWith(d.pending.value, MalformedResponse, told)
  {
    hide Decode;
    DecodeNothing(d.pending.value);
    SegmentationInvisible(d, chunks);
    assert d.buffer + Concat(chunks) == Concat(chunks);
    told := Answer(d.pending.value, Malformed);
  }

  lemma DecodeNothing(kind: Kind)
    ensures Decode(kind, []) == Incomplete
  {
  }

  /** A request that times out fails as that. */
  lemma TimeoutTells(d: Driver) returns (told: Signal)
    requires d.pending.Some?
    ensures Concluded(d, OnTimeout(d), told) && FailsWith(d.pending.value, TimedOut, told)
  {
    told := Failure(d.pending.value, TimedOut);
  }

  /** Whatever server echoes a single write, the caller is told of exactly what it asked to write. */
  lemma SingleWriteConfirmed(d: Driver, kind: Kind, unit: byte, address: word, argument: word, chunks: seq<seq<byte>>)
    requires d.link.connected && d.pending.None? && d.buffer == []
    requires kind == WriteSingleRegister || (kind == WriteSingleCoil && argument in {CoilWord(true), CoilWord(false)})
    requires Concat(chunks) == Encode(Fixed(kind, unit, address, argument), d.nextId)
    ensures var told := if kind == WriteSingleRegister then SingleRegisterWritten(address, argument)
                        else SingleCoilWritten(address, argument == CoilWord(true));
            Run(OnAsk(d, Fixed(kind, unit, address, argument)), Reads(chunks)).log ==
            d.log + [Sent(kind, Concat(chunks))] + [Signalled(told)]
  {
    var asked := OnAsk(d, Fixed(kind, unit, address, argument));
    var _ := ReplyDelivered(asked, Echo(address, argument), d.nextId, unit, chunks);
  }

  /** Feeding the object a stream in pieces leaves it where the whole stream would. */
  method DeliverPieces(c: Connection, chunks: seq<seq<byte>>)
    requires c.Valid()
    modifies c
    ensures c.Valid() && c.Model() == OnReadyRead(old(c.Model()), Concat(chunks))
  {
    ghost var start := c.Model();
    SegmentationInvisible(start, chunks);
    hide Inv, OnReadyRead, Run;
    assert chunks[0..] == chunks;
    for i := 0 to |chunks|
      invariant c.Valid() && Run(c.Model(), Reads(chunks[i..])) == Run(start, Reads(chunks))
    {
      RunReads(c.Model(), chunks[i..]);
      assert chunks[i..][1..] == chunks[i + 1..];
      c.BytesArrived(chunks[i]);
    }
    RunReads(c.Model(), chunks[|chunks|..]);
  }

  lemma RunReads(d: Driver, chunks: seq<seq<byte>>)
    ensures Run(d, Reads(chunks)) == if chunks == [] then d else Run(OnReadyRead(d, chunks[0]), Reads(chunks[1..]))
  {
    if chunks != [] {
      assert Reads(chunks)[1..] == Reads(chunks[1..]);
    }
  }
}
