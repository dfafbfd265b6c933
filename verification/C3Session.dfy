/**
 When the C3 driver calls itself ready.

 The promise is that ready waits for the handshake of the connection that is open. The driver remembers a session
 across a lost connection, so the promise breaks exactly when a socket opens while a session is remembered.
 */
module C3Session {
  import opened Bytes
  import opened Sequences
  import opened C3Frame
  import opened C3Messages
  import opened C3Connection
  import Text = C3Text
  import Link = ConnectionState

  /** What a log says: a session was granted and not forgotten; a handshake has completed since the socket opened. */
  datatype Story = Story(remembered: bool, completed: bool)

  function Retold(story: Story, entry: Entry): Story {
    match entry
    case SessionEstablished(id, sessionLess) => Story(id != 0 || sessionLess, true)
    case SessionForgotten => story.(remembered := false)
    case SocketOpened => story.(completed := false)
    case _ => story
  }

  function Told(log: seq<Entry>): Story {
    if log == [] then Story(false, false) else Retold(Told(log[..|log| - 1]), log[|log| - 1])
  }

  lemma ToldNext(log: seq<Entry>, entry: Entry)
    ensures Told(log + [entry]) == Retold(Told(log), entry)
  {
    assert (log + [entry])[..|log|] == log;
  }

  predicate HasSession(auth: Auth) {
    auth.id != 0 || auth.sessionLess
  }

  predicate Agrees(d: Driver) {
    HasSession(d.auth) == Told(d.log).remembered
  }

  /** Ready only once the handshake of the open connection has completed. */
  predicate Promise(d: Driver) {
    Ready(d) ==> Told(d.log).completed
  }

  /** The step says nothing about sessions, leaves the session alone and opens no socket. */
  predicate Keeps(d: Driver, e: Driver) {
    HasSession(e.auth) == HasSession(d.auth) && Told(e.log) == Told(d.log) &&
      (e.socket.connected ==> d.socket.connected)
  }

  /** The step keeps whatever of the two held. */
  predicate Follows(d: Driver, e: Driver) {
    (Agrees(d) ==> Agrees(e)) && (Promise(d) ==> Promise(e))
  }

  lemma KeepsFollows(d: Driver, e: Driver)
    requires Keeps(d, e)
    ensures Follows(d, e)
  {
    hide Told;
  }

  // ---- Reading ----

  lemma DataConfigKeepsSession(d: Driver)
    ensures Keeps(d, DataConfigRead(d).driver)
  {
    hide DecodeConfig, EncodeFrame, Set, FindTable, GetDataPayload;
  }

  lemma DataTableKeepsSession(d: Driver)
    ensures Keeps(d, DataTableRead(d).driver)
  {
    hide DecodeGetData, EncodeFrame, Set, TableOutcome, Little32;
  }

  lemma DataChunkKeepsSession(d: Driver)
    ensures Keeps(d, DataChunkRead(d).driver)
  {
    hide DecodeTransmit, EncodeFrame, Set, Little32;
  }

  lemma DataKeepsSession(d: Driver)
    ensures Keeps(d, DataRead(d).driver)
  {
    hide DataConfigRead, DataTableRead, DataChunkRead, DecodeReply, Set, TableOutcome;
    DataConfigKeepsSession(d);
    DataTableKeepsSession(d);
    DataChunkKeepsSession(d);
  }

  lemma CountKeepsSession(d: Driver)
    ensures Keeps(d, CountRead(d))
  {
    hide DecodeConfig, DecodeCount, EncodeFrame, Set, FindTable;
  }

  lemma RtLogKeepsSession(d: Driver)
    ensures Keeps(d, RtLogRead(d))
  {
    hide DecodeRtlogBinary, DecodeRtlogKeyValue, Set;
  }

  lemma OthersKeepSession(d: Driver)
    ensures Keeps(d, OthersRead(d))
  {
    hide RtLogRead, CountRead, DecodeReply, Text.DecodeGetParam, Set;
    RtLogKeepsSession(ReadAll(d));
    CountKeepsSession(ReadAll(d));
  }

  lemma EstablishFollows(d: Driver, id: int, sessionLess: bool, requestNr: int)
    ensures Follows(d, Establish(d, id, sessionLess, requestNr))
  {
    hide Told, Link.OnReport;
    ToldNext(d.log, SessionEstablished(id, sessionLess));
  }

  lemma HandshakeFollows(d: Driver)
    ensures Follows(d, HandshakeRead(d))
  {
    hide DecodeConnectSession, DecodeReply, EncodeFrame, Told, Establish, Link.OnReport;
    ToldNext(d.log, SessionFailed);
    ToldNext(d.log, Wrote(EncodeFrame(CONNECT_SESSION_LESS, SessionLess, [])));
    EstablishFollows(d, DecodeConnectSession(d.buffer).sessionId, false, PRE_SESSION_REQUEST_NR + 1);
    EstablishFollows(d, 0, true, d.auth.requestNr);
  }

  lemma ReadFollows(d: Driver, bytes: seq<byte>)
    ensures Follows(d, OnReadyRead(d, bytes))
  {
    hide HandshakeRead, DataRead, OthersRead, Told;
    var arrived := Arrive(d, bytes);
    var r := ReadAll(arrived);
    if d.handshake.attempt {
      HandshakeFollows(r);
    } else {
      OthersKeepSession(arrived);
      DataKeepsSession(r);
      OthersKeepSession(DataRead(r).driver);
    }
  }

  // ---- The other events ----

  lemma DropKeepsSession(d: Driver, family: Family)
    ensures Keeps(d, DropOne(d, family))
  {
    hide Set;
  }

  lemma DropAllKeepsSession(d: Driver)
    ensures Keeps(d, DropAll(d))
  {
    hide Told, DropOne;
    var d1 := DropOne(d, Data);
    var d2 := DropOne(d1, Count);
    var d3 := DropOne(d2, RtLog);
    var d4 := DropOne(d3, Control);
    var d5 := DropOne(d4, GetParam);
    DropKeepsSession(d, Data);
    DropKeepsSession(d1, Count);
    DropKeepsSession(d2, RtLog);
    DropKeepsSession(d3, Control);
    DropKeepsSession(d4, GetParam);
    DropKeepsSession(d5, SetParam);
  }

  lemma DisconnectFollows(d: Driver)
    ensures Follows(d, OnDisconnectNow(d))
  {
    hide Told, DropAll, EncodeFrame;
    var told := if Ready(d) then Write(d, EncodeFrame(DISCONNECT, SessionOf(d.auth), [])) else d;
    ToldNext(told.log, SessionForgotten);
    DropAllKeepsSession(told.(auth := d.auth.(id := 0, sessionLess := false),
                              handshake := d.handshake.(step := NoHandshake, armed := false),
                              log := told.log + [SessionForgotten]));
  }

  lemma SocketErrorKeepsSession(d: Driver)
    ensures Keeps(d, OnSocketError(d))
  {
    hide DropAll, Link.OnReport;
    DropAllKeepsSession(d.(socket := d.socket.(connected := false), handshake := d.handshake.(armed := false)));
  }

  lemma QuietStep(d: Driver, e: Event)
    requires !e.SocketConnected? && !e.ReadyRead? && !e.DisconnectNow?
    ensures Keeps(d, Step(d, e))
  {
    hide OnReadyRead, OnDisconnectNow, OnSocketError, EncodeFrame, Set, Link.Step;
    match e
    case SocketError => SocketErrorKeepsSession(d);
    case Ask(request) => ToldNext(d.log, Accepted(request));
    case _ =>
  }

  lemma StepFollows(d: Driver, e: Event)
    requires !e.SocketConnected?
    ensures Follows(d, Step(d, e))
  {
    hide OnReadyRead, OnDisconnectNow, Told, Keeps, Follows;
    match e
    case ReadyRead(bytes) => ReadFollows(d, bytes);
    case DisconnectNow => DisconnectFollows(d);
    case _ =>
      QuietStep(d, e);
      KeepsFollows(d, Step(d, e));
  }

  lemma Opening(d: Driver)
    ensures var e := Step(d, SocketConnected);
            && e.socket.connected && HasSession(e.auth) == HasSession(d.auth)
            && Told(e.log) == Told(d.log).(completed := false)
  {
    hide EncodeFrame, Told, OnReadyRead, OnDisconnectNow, OnSocketError, OnAsk;
    var frame := EncodeFrame(CONNECT_SESSION, InSession(PRE_SESSION_ID, PRE_SESSION_REQUEST_NR), []);
    ToldNext(d.log, SocketOpened);
    ToldNext(d.log + [SocketOpened], Wrote(frame));
  }

  // ---- Main results ----

  /** A socket opens while a session has been granted and not forgotten. */
  predicate Reopens(d: Driver, e: Event) {
    e.SocketConnected? && Told(d.log).remembered
  }

  lemma StepAgrees(d: Driver, e: Event)
    requires Agrees(d)
    ensures Agrees(Step(d, e))
  {
    hide Told, Step;
    if e.SocketConnected? {
      Opening(d);
    } else {
      StepFollows(d, e);
    }
  }

  /** The promise survives an event if and only if that event does not reopen the socket over a remembered session. */
  lemma PromiseKeptIff(d: Driver, e: Event)
    requires Agrees(d) && Promise(d)
    ensures Promise(Step(d, e)) <==> !Reopens(d, e)
  {
    hide Told, Step;
    if e.SocketConnected? {
      Opening(d);
    } else {
      StepFollows(d, e);
    }
  }

  /** The promise holds now and after every event. */
  predicate PromiseThroughout(d: Driver, events: seq<Event>)
    decreases |events|
  {
    Promise(d) && (events == [] || PromiseThroughout(Step(d, events[0]), events[1..]))
  }

  predicate NeverReopens(d: Driver, events: seq<Event>)
    decreases |events|
  {
    events == [] || (!Reopens(d, events[0]) && NeverReopens(Step(d, events[0]), events[1..]))
  }

  lemma {:induction false} RunKeepsPromiseIff(d: Driver, events: seq<Event>)
    requires Agrees(d) && Promise(d)
    ensures PromiseThroughout(d, events) <==> NeverReopens(d, events)
    decreases |events|
  {
    hide Step, Agrees, Promise, Reopens;
    if events != [] {
      var next := Step(d, events[0]);
      StepAgrees(d, events[0]);
      PromiseKeptIff(d, events[0]);
      if Promise(next) {
        RunKeepsPromiseIff(next, events[1..]);
      }
    }
  }

  lemma InitialAgrees()
    ensures Agrees(INITIAL) && Promise(INITIAL)
  {
  }

  /**
   Over every run of the driver, ready waits for the handshake of the open connection, at every point of the run,
   if and only if no socket opens while a session is remembered: a caller keeps it by disconnecting first.
   */
  lemma ReadyAfterHandshakeIff(events: seq<Event>)
    ensures PromiseThroughout(INITIAL, events) <==> NeverReopens(INITIAL, events)
  {
    InitialAgrees();
    RunKeepsPromiseIff(INITIAL, events);
  }

  lemma {:induction false} RunAgrees(d: Driver, events: seq<Event>)
    requires Agrees(d)
    ensures Agrees(Run(d, events))
    decreases |events|
  {
    hide Step, Agrees;
    if events != [] {
      StepAgrees(d, events[0]);
      RunAgrees(Step(d, events[0]), events[1..]);
    }
  }

  /** In every run, ready means: the socket is open and the last session was not forgotten. */
  lemma ReadyIff(events: seq<Event>)
    ensures var d := Run(INITIAL, events);
            Ready(d) <==> d.socket.connected && Told(d.log).remembered
  {
    hide Run, Told;
    InitialAgrees();
    RunAgrees(INITIAL, events);
  }

  // ---- Both ways to break it ----

  lemma {:induction false} RunMore(d: Driver, events: seq<Event>, e: Event)
    ensures Run(d, events + [e]) == Step(Run(d, events), e)
    ensures Feasible(d, events) && Enabled(Run(d, events), e) ==> Feasible(d, events + [e])
    decreases |events|
  {
    hide Step, Enabled;
    if events == [] {
      assert [e][1..] == [];
    } else {
      assert (events + [e])[1..] == events[1..] + [e];
      RunMore(Step(d, events[0]), events[1..], e);
    }
  }

  lemma SessionReply(id: int)
    requires 0 <= id < 65536
    ensures var reply := EncodeFrame(REPLY_OK, SessionLess, Little16(id));
            DecodeConnectSession(reply) == ConnectReply(Ok, id)
  {
    hide DecodeConnectSession, Wrap;
    var content := SessionBlock(SessionLess) + Little16(id);
    Nothing(Wrap(PROTOCOL_VERSION, REPLY_OK, content));
    DecodeWrapped(PROTOCOL_VERSION, REPLY_OK, content, [], false);
    Little16RoundTrip(id);
  }

  /** A panel that grants session 7. */
  lemma SessionGranted() returns (events: seq<Event>)
    ensures Feasible(INITIAL, events)
    ensures var d := Run(INITIAL, events);
            && d.auth.id == 7 && !d.auth.sessionLess && d.socket == Socket(true, []) && d.slots == INITIAL.slots
            && d.link.heartbeat.armed && d.link.handlers == Link.Handlers(true, true, true) && !d.handshake.attempt
  {
    hide Run, Feasible, EncodeFrame, DecodeConnectSession, OnSocketError, OnDisconnectNow, OnAsk, DataRead, OthersRead;
    var reply := EncodeFrame(REPLY_OK, SessionLess, Little16(7));
    var before: seq<Event> := [];
    RunNothing(INITIAL);
    RunMore(INITIAL, before, ConnectToHost);
    var connecting := before + [ConnectToHost];
    RunMore(INITIAL, connecting, SocketConnected);
    var greeting := connecting + [SocketConnected];
    SessionReply(7);
    Nothing(reply);
    RunMore(INITIAL, greeting, ReadyRead(reply));
    events := greeting + [ReadyRead(reply)];
  }

  /** A lost session and a reconnect. */
  lemma Reopened() returns (events: seq<Event>)
    ensures Feasible(INITIAL, events)
    ensures var d := Run(INITIAL, events);
            && Ready(d) && d.handshake == Handshake(true, AwaitingSessionReply, true) && d.buffer == []
            && d.socket.unread == [] && !Told(d.log).completed
  {
    hide Run, Feasible, EncodeFrame, OnReadyRead, OnDisconnectNow, OnAsk, OnSocketError, Told;
    var established := SessionGranted();
    SocketLost(Run(INITIAL, established));
    RunMore(INITIAL, established, SocketError);
    var lost := established + [SocketError];
    RunMore(INITIAL, lost, HeartbeatTick);
    var noticed := lost + [HeartbeatTick];
    RunMore(INITIAL, noticed, ReconnectTick);
    var retrying := noticed + [ReconnectTick];
    RunMore(INITIAL, retrying, SocketConnected);
    Opening(Run(INITIAL, retrying));
    events := retrying + [SocketConnected];
  }

  /** The driver is ready before the panel has answered the new handshake. */
  lemma ReadyBeforeHandshake() returns (events: seq<Event>)
    ensures Feasible(INITIAL, events) && !Promise(Run(INITIAL, events))
    ensures Run(INITIAL, events).handshake == Handshake(true, AwaitingSessionReply, true)
  {
    hide Run, Feasible, Told;
    events := Reopened();
  }

  /** The panel's answer is malformed, the attempt is over, and the driver stays ready on the refused connection. */
  lemma ReadyAfterRefusal() returns (events: seq<Event>)
    ensures Feasible(INITIAL, events) && !Promise(Run(INITIAL, events))
    ensures var d := Run(INITIAL, events); !d.handshake.attempt && |d.log| > 0 && d.log[|d.log| - 1] == SessionFailed
  {
    hide Run, Feasible, Told;
    var reopened := Reopened();
    var d := Run(INITIAL, reopened);
    var garbage: seq<byte> := [0, 0, 0, 0, 0, 0, 0, 0];
    Refused(d, garbage);
    RunMore(INITIAL, reopened, ReadyRead(garbage));
    events := reopened + [ReadyRead(garbage)];
  }

  lemma Refused(d: Driver, garbage: seq<byte>)
    requires d.handshake == Handshake(true, AwaitingSessionReply, true) && d.buffer == [] && d.socket.unread == []
    requires garbage == [0, 0, 0, 0, 0, 0, 0, 0]
    ensures var e := OnReadyRead(d, garbage);
            && e.log == d.log + [SessionFailed] && !e.handshake.attempt && e.auth == d.auth
            && e.socket == d.socket && Told(e.log) == Told(d.log)
  {
    hide Told, Link.OnReport, DataRead, OthersRead;
    Nothing(garbage);
    assert DecodeConnectSession(garbage).status == Malformed;
    ToldNext(d.log, SessionFailed);
  }

  lemma SocketLost(d: Driver)
    requires !d.handshake.attempt
    ensures OnSocketError(d).link == d.link && OnSocketError(d).auth == d.auth
    ensures !OnSocketError(d).handshake.attempt && !OnSocketError(d).socket.connected
  {
    hide Set;
  }

  lemma RunNothing(d: Driver)
    ensures Run(d, []) == d && Feasible(d, [])
  {
    hide Step, Enabled;
  }
}
