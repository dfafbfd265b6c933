/**
 The connection lifecycle: one attempt at a time, a heartbeat, and a reconnect loop on a backoff ladder.

 The application's callables are answers carried by the events: whether an attempt started, whether
 the peer is alive. Timers fire only while armed.
 */
module ConnectionState {

  import opened Wrappers

  /** The values the two signals have carried so far, oldest first. */
  datatype Signals = Signals(connectionStateChanged: seq<bool>, reconnectingChanged: seq<bool>)

  /** Consecutive failures index the ladder, held at its last rung. */
  const LADDER: seq<int> := [5000, 5000, 5000, 15000, 15000, 30000, 60000]

  function ReconnectDelayMs(failures: int): int {
    if failures < 0 then LADDER[0]
    else if failures >= |LADDER| then LADDER[|LADDER| - 1]
    else LADDER[failures]
  }

  /** Which callables the application supplied, and whether an attempt's outcome is reported later. */
  datatype Handlers = Handlers(connect: bool, probe: bool, async: bool)

  /** An asynchronous attempt in flight, and whether its failure is to be retried. */
  datatype Pending = NoAttempt | Awaiting(autoRetry: bool)

  datatype Heartbeat = Heartbeat(intervalMs: int, armed: bool)

  datatype State = State(
    handlers: Handlers,
    connected: bool,
    reconnecting: bool,
    pending: Pending,
    failures: nat,
    retry: Option<int>,
    heartbeat: Heartbeat,
    signals: Signals)

  datatype Event =
    | SetHandlers(handlers: Handlers)
    | ConnectNow(started: bool)
    | BeginAutoConnect(started: bool)
    | ConnectToHost(probe: bool, async: bool, started: bool)
    | DisconnectNow
    | SetHeartbeat(intervalMs: int)
    | HeartbeatTick(alive: bool)
    | ReconnectTick(started: bool)
    | Report(succeeded: bool)

  const INITIAL :=
    State(Handlers(false, false, false), false, false, NoAttempt, 0, None, Heartbeat(5000, false), Signals([], []))

  // ---- Specification of each operation ----

  function SetConnected(s: State, connected: bool): State {
    if connected == s.connected then s
    else s.(connected := connected,
            signals := s.signals.(connectionStateChanged := s.signals.connectionStateChanged + [connected]))
  }

  function SetReconnecting(s: State, reconnecting: bool): State {
    if reconnecting == s.reconnecting then s
    else s.(reconnecting := reconnecting,
            signals := s.signals.(reconnectingChanged := s.signals.reconnectingChanged + [reconnecting]))
  }

  function StartReconnecting(s: State): State {
    SetReconnecting(s, true).(failures := 0, retry := Some(ReconnectDelayMs(0)))
  }

  function StopReconnecting(s: State): State {
    SetReconnecting(s.(retry := None, failures := 0), false)
  }

  function RetryLater(s: State): State {
    s.(failures := s.failures + 1, retry := Some(ReconnectDelayMs(s.failures + 1)))
  }

  function StartHeartbeat(s: State): State {
    if s.heartbeat.intervalMs > 0 then s.(heartbeat := s.heartbeat.(armed := true)) else s
  }

  function StopHeartbeat(s: State): State {
    s.(heartbeat := s.heartbeat.(armed := false))
  }

  function Established(s: State): State {
    StartHeartbeat(SetConnected(StopReconnecting(s), true))
  }

  function Launched(started: bool, autoRetry: bool): Pending {
    if started then Awaiting(autoRetry) else NoAttempt
  }

  function OnConnectNow(s: State, started: bool): State {
    if !s.handlers.connect then StopReconnecting(s)
    else if !s.handlers.async then
      if started then Established(s) else SetConnected(StopReconnecting(s), false)
    else
      var attempt := StopReconnecting(s).(pending := Launched(started, false));
      if started then attempt else SetConnected(attempt, false)
  }

  function OnBeginAutoConnect(s: State, started: bool): State {
    if !s.handlers.connect then StartReconnecting(StopReconnecting(s))
    else if !s.handlers.async then
      if started then Established(s) else StartReconnecting(SetConnected(StopReconnecting(s), false))
    else
      var attempt := StopReconnecting(s).(pending := Launched(started, true));
      if started then attempt else StartReconnecting(SetConnected(attempt, false))
  }

  function OnSetHandlers(s: State, handlers: Handlers): State {
    s.(handlers := handlers, pending := NoAttempt)
  }

  function OnDisconnectNow(s: State): State {
    SetConnected(StopReconnecting(StopHeartbeat(s)).(pending := NoAttempt), false)
  }

  function OnSetHeartbeat(s: State, intervalMs: int): State {
    s.(heartbeat := Heartbeat(intervalMs, intervalMs > 0 && (s.connected || s.heartbeat.armed)))
  }

  function OnHeartbeatTick(s: State, alive: bool): State {
    if !s.handlers.probe || alive then s
    else StartReconnecting(SetConnected(StopHeartbeat(s), false))
  }

  /** The retry timer is single-shot: it is no longer armed when its handler runs. */
  function OnReconnectTick(s: State, started: bool): State {
    if !s.handlers.connect then RetryLater(s)
    else if !s.handlers.async then
      if started then Established(s) else RetryLater(s)
    else
      var attempt := s.(retry := None, pending := Launched(started, true));
      if started then attempt else RetryLater(attempt)
  }

  function OnReport(s: State, succeeded: bool): State {
    if !s.handlers.async || s.pending.NoAttempt? then s else
    var resolved := s.(pending := NoAttempt);
    if succeeded then Established(resolved)
    else if !s.pending.autoRetry then SetConnected(resolved, false)
    else if s.reconnecting then RetryLater(SetConnected(resolved, false))
    else StartReconnecting(SetConnected(resolved, false))
  }

  function Step(s: State, e: Event): State {
    match e
    case SetHandlers(handlers) => OnSetHandlers(s, handlers)
    case ConnectNow(started) => OnConnectNow(s, started)
    case BeginAutoConnect(started) => OnBeginAutoConnect(s, started)
    case ConnectToHost(probe, async, started) =>
      OnBeginAutoConnect(OnSetHandlers(s, Handlers(true, probe, async)), started)
    case DisconnectNow => OnDisconnectNow(s)
    case SetHeartbeat(intervalMs) => OnSetHeartbeat(s, intervalMs)
    case HeartbeatTick(alive) => OnHeartbeatTick(s, alive)
    case ReconnectTick(started) => OnReconnectTick(s, started)
    case Report(succeeded) => OnReport(s, succeeded)
  }

  predicate Enabled(s: State, e: Event) {
    match e
    case HeartbeatTick(_) => s.heartbeat.armed
    case ReconnectTick(_) => s.retry.Some?
    case _ => true
  }

  function Run(s: State, events: seq<Event>): State
    decreases |events|
  {
    if events == [] then s else Run(Step(s, events[0]), events[1..])
  }

  predicate Feasible(s: State, events: seq<Event>)
    decreases |events|
  {
    events == [] || (Enabled(s, events[0]) && Feasible(Step(s, events[0]), events[1..]))
  }

  lemma {:induction false} RunConcat(s: State, a: seq<Event>, b: seq<Event>)
    ensures Run(s, a + b) == Run(Run(s, a), b)
    ensures Feasible(s, a + b) <==> Feasible(s, a) && Feasible(Run(s, a), b)
    decreases |a|
  {
    hide Step, Enabled;
    if a == [] {
      assert a + b == b;
    } else {
      assert (a + b)[1..] == a[1..] + b;
      RunConcat(Step(s, a[0]), a[1..], b);
    }
  }

  // ---- The machine itself ----

  class Machine {
    var handlers: Handlers
    var connected: bool
    var reconnecting: bool
    var awaitingResult: bool
    var autoRetry: bool
    var failures: nat
    var heartbeatMs: int
    var heartbeatArmed: bool
    var retry: Option<int>
    var signals: Signals

    ghost function Model(): State
      reads this
    {
      State(handlers, connected, reconnecting, if awaitingResult then Awaiting(autoRetry) else NoAttempt,
            failures, retry, Heartbeat(heartbeatMs, heartbeatArmed), signals)
    }

    /** The reconnect loop cannot stall and the signals tell the truth. */
    ghost predicate Valid()
      reads this
    {
      Healthy(Model())
    }

    constructor ()
      ensures Model() == INITIAL && Valid()
    {
      handlers := Handlers(false, false, false);
      connected, reconnecting, awaitingResult, autoRetry := false, false, false, false;
      failures, heartbeatMs, heartbeatArmed, retry, signals := 0, 5000, false, None, Signals([], []);
    }

    method EmitConnected(value: bool)
      modifies `connected, `signals
      ensures Model() == SetConnected(old(Model()), value)
    {
      if value == connected { return; }
      connected := value;
      signals := signals.(connectionStateChanged := signals.connectionStateChanged + [connected]);
    }

    method EmitReconnecting(value: bool)
      modifies `reconnecting, `signals
      ensures Model() == SetReconnecting(old(Model()), value)
    {
      if value == reconnecting { return; }
      reconnecting := value;
      signals := signals.(reconnectingChanged := signals.reconnectingChanged + [reconnecting]);
    }

    method BeginReconnecting()
      modifies `reconnecting, `signals, `failures, `retry
      ensures Model() == StartReconnecting(old(Model()))
    {
      EmitReconnecting(true);
      failures := 0;
      retry := Some(ReconnectDelayMs(failures));
    }

    method EndReconnecting()
      modifies `reconnecting, `signals, `failures, `retry
      ensures Model() == StopReconnecting(old(Model()))
    {
      retry := None;
      failures := 0;
      EmitReconnecting(false);
    }

    method Handle(callables: Handlers)
      modifies this
      ensures Model() == OnSetHandlers(old(Model()), callables)
      ensures old(Valid()) ==> (Valid() <==> !Hazard(old(Model()), SetHandlers(callables)))
    {
      hide Sound, Faithful;
      if Valid() { StepKeepsHealthyIff(Model(), SetHandlers(callables)); }
      handlers := callables;
      awaitingResult := false;
      autoRetry := false;
    }

    method Connect(answer: bool) returns (started: bool)
      modifies this
      ensures Model() == OnConnectNow(old(Model()), answer)
      ensures started == (old(handlers.connect) && answer)
      ensures old(Valid()) ==> Valid()
    {
      hide Sound, Faithful;
      if Valid() { StepKeepsHealthyIff(Model(), ConnectNow(answer)); }
      EndReconnecting();
      if !handlers.connect { return false; }
      started := answer;
      if handlers.async {
        awaitingResult := started;
        autoRetry := false;
        if !started { EmitConnected(false); }
        return;
      }
      EmitConnected(started);
      if started && heartbeatMs > 0 { heartbeatArmed := true; }
    }

    method AutoConnect(answer: bool)
      modifies this
      ensures Model() == OnBeginAutoConnect(old(Model()), answer)
      ensures old(Valid()) ==> (Valid() <==> !Hazard(old(Model()), BeginAutoConnect(answer)))
    {
      hide Sound, Faithful;
      if Valid() { StepKeepsHealthyIff(Model(), BeginAutoConnect(answer)); }
      EndReconnecting();
      if !handlers.connect {
        BeginReconnecting();
        return;
      }
      if handlers.async {
        awaitingResult := answer;
        autoRetry := true;
        if answer { return; }
        EmitConnected(false);
        BeginReconnecting();
        return;
      }
      EmitConnected(answer);
      if answer {
        if heartbeatMs > 0 { heartbeatArmed := true; }
        return;
      }
      BeginReconnecting();
    }

    method Disconnect()
      modifies this
      ensures Model() == OnDisconnectNow(old(Model()))
      ensures old(Valid()) ==> Valid()
    {
      hide Sound, Faithful;
      if Valid() { StepKeepsHealthyIff(Model(), DisconnectNow); }
      heartbeatArmed := false;
      EndReconnecting();
      awaitingResult := false;
      autoRetry := false;
      EmitConnected(false);
    }

    method SetHeartbeatInterval(intervalMs: int)
      modifies this
      ensures Model() == OnSetHeartbeat(old(Model()), intervalMs)
      ensures old(Valid()) ==> Valid()
    {
      hide Sound, Faithful;
      if Valid() { StepKeepsHealthyIff(Model(), SetHeartbeat(intervalMs)); }
      heartbeatMs := intervalMs;
      if intervalMs <= 0 {
        heartbeatArmed := false;
      } else if connected {
        heartbeatArmed := true;
      }
    }

    method HeartbeatFired(alive: bool)
      requires heartbeatArmed
      modifies this
      ensures Model() == OnHeartbeatTick(old(Model()), alive)
      ensures old(Valid()) ==> Valid()
    {
      hide Sound, Faithful;
      if Valid() { StepKeepsHealthyIff(Model(), HeartbeatTick(alive)); }
      if !handlers.probe || alive { return; }
      heartbeatArmed := false;
      EmitConnected(false);
      BeginReconnecting();
    }

    method RetryFired(answer: bool)
      requires retry.Some?
      modifies this
      ensures Model() == OnReconnectTick(old(Model()), answer)
      ensures old(Valid()) ==> Valid()
    {
      hide Sound, Faithful;
      if Valid() { StepKeepsHealthyIff(Model(), ReconnectTick(answer)); }
      retry := None;
      if handlers.connect {
        if handlers.async {
          awaitingResult := answer;
          autoRetry := true;
          if answer { return; }
        } else if answer {
          EndReconnecting();
          EmitConnected(true);
          if heartbeatMs > 0 { heartbeatArmed := true; }
          return;
        }
      }
      failures := failures + 1;
      retry := Some(ReconnectDelayMs(failures));
    }

    method ReportPendingConnectResult(succeeded: bool)
      modifies this
      ensures Model() == OnReport(old(Model()), succeeded)
      ensures old(Valid()) ==> Valid()
    {
      hide Sound, Faithful;
      if Valid() { StepKeepsHealthyIff(Model(), Report(succeeded)); }
      if !handlers.async || !awaitingResult { return; }
      awaitingResult := false;
      if succeeded {
        EndReconnecting();
        EmitConnected(true);
        if heartbeatMs > 0 { heartbeatArmed := true; }
        return;
      }
      EmitConnected(false);
      if !autoRetry { return; }
      if reconnecting {
        failures := failures + 1;
        retry := Some(ReconnectDelayMs(failures));
      } else {
        BeginReconnecting();
      }
    }
  }

  // ---- The reconnect loop never stalls ----

  /**
   A reconnect loop always has something to wait for, its counters belong to it, it excludes being connected, and a
   connection is always watched unless watching is switched off.
   */
  ghost predicate Sound(s: State) {
    && (s.reconnecting ==> s.retry.Some? || s.pending == Awaiting(true))
    && (s.retry.Some? ==> s.reconnecting && s.retry.value == ReconnectDelayMs(s.failures))
    && (s.failures > 0 ==> s.reconnecting)
    && !(s.connected && s.reconnecting)
    && (s.pending.Awaiting? ==> s.handlers.async && s.handlers.connect)
    && (s.heartbeat.armed ==> s.heartbeat.intervalMs > 0)
    && (s.connected && s.heartbeat.intervalMs > 0 ==> s.heartbeat.armed)
  }

  /**
   The two calls that can break the loop: swapping handlers under a retry in flight, and auto-connecting without a
   handler while connected.
   */
  predicate Hazard(s: State, e: Event) {
    || (e.SetHandlers? && s.reconnecting && s.retry.None?)
    || (e.BeginAutoConnect? && !s.handlers.connect && s.connected)
  }

  /** Every event keeps the loop sound, except exactly in the two hazards. */
  lemma StepKeepsSoundIff(s: State, e: Event)
    requires Sound(s) && Enabled(s, e)
    ensures Sound(Step(s, e)) <==> !Hazard(s, e)
  {
    match e
    case SetHandlers(_) =>
    case ConnectNow(_) =>
    case BeginAutoConnect(_) =>
    case ConnectToHost(_, _, _) =>
    case DisconnectNow =>
    case SetHeartbeat(_) =>
    case HeartbeatTick(_) =>
    case ReconnectTick(_) =>
    case Report(_) =>
  }

  predicate HazardFree(s: State, events: seq<Event>)
    decreases |events|
  {
    events == [] || (!Hazard(s, events[0]) && HazardFree(Step(s, events[0]), events[1..]))
  }

  lemma {:induction false} RunKeepsSound(s: State, events: seq<Event>)
    requires Sound(s) && Feasible(s, events) && HazardFree(s, events)
    ensures Sound(Run(s, events))
    decreases |events|
  {
    if events != [] {
      StepKeepsSoundIff(s, events[0]);
      RunKeepsSound(Step(s, events[0]), events[1..]);
    }
  }

  /** The drivers install handlers only together with the attempt that follows. */
  predicate DriverEvent(e: Event) {
    !e.SetHandlers? && !e.BeginAutoConnect?
  }

  lemma {:induction false} DriverRunIsHazardFree(s: State, events: seq<Event>)
    requires forall i | 0 <= i < |events| :: DriverEvent(events[i])
    ensures HazardFree(s, events)
    decreases |events|
  {
    if events != [] {
      assert DriverEvent(events[0]);
      forall i | 0 <= i < |events[1..]| ensures DriverEvent(events[1..][i]) {
        assert DriverEvent(events[i + 1]);
      }
      DriverRunIsHazardFree(Step(s, events[0]), events[1..]);
    }
  }

  /** In every state a driver can reach, the reconnect loop is sound. */
  lemma DriverNeverStalls(events: seq<Event>)
    requires Feasible(INITIAL, events) && forall i | 0 <= i < |events| :: DriverEvent(events[i])
    ensures Sound(Run(INITIAL, events))
  {
    DriverRunIsHazardFree(INITIAL, events);
    RunKeepsSound(INITIAL, events);
  }

  /** From every sound reconnecting state the loop reaches the connected state as soon as an attempt succeeds. */
  lemma RecoversWhenPeerReturns(s: State)
    requires Sound(s) && s.reconnecting && s.handlers.connect
    ensures var events := (if s.retry.Some? then [ReconnectTick(true)] else []) +
                          (if s.handlers.async then [Report(true)] else []);
            Feasible(s, events) && Run(s, events).connected && !Run(s, events).reconnecting
  {
    if s.retry.Some? {
      var t := Step(s, ReconnectTick(true));
      if s.handlers.async {
        TwoSteps(s, ReconnectTick(true), Report(true));
      } else {
        assert Run(s, [ReconnectTick(true)]) == t;
      }
    } else {
      assert Run(s, [Report(true)]) == Step(s, Report(true));
    }
  }

  lemma TwoSteps(s: State, a: Event, b: Event)
    ensures Run(s, [a] + [b]) == Step(Step(s, a), b)
    ensures Feasible(s, [a] + [b]) <==> Enabled(s, a) && Enabled(Step(s, a), b)
  {
    assert ([a] + [b])[1..] == [b];
    assert Run(Step(s, a), [b]) == Step(Step(s, a), b);
    assert Feasible(Step(s, a), [b]) <==> Enabled(Step(s, a), b);
    assert [a] + [b] != [] && ([a] + [b])[0] == a;
  }

  /** Swapping handlers during an asynchronous retry strands the loop: nothing is armed and no report will be heard. */
  lemma StrandedByHandlerSwap()
    ensures var events :=
            [ConnectToHost(true, true, true), Report(false), ReconnectTick(true),
             SetHandlers(Handlers(true, true, true))];
            var s := Run(INITIAL, events);
            && Feasible(INITIAL, events) && s.reconnecting && s.retry.None? && !s.heartbeat.armed
            && forall succeeded :: OnReport(s, succeeded) == s
  {
    var s1 := Step(INITIAL, ConnectToHost(true, true, true));
    var s2 := Step(s1, Report(false));
    var s3 := Step(s2, ReconnectTick(true));
    var s4 := Step(s3, SetHandlers(Handlers(true, true, true)));
    var events :=
      [ConnectToHost(true, true, true), Report(false), ReconnectTick(true), SetHandlers(Handlers(true, true, true))];
    assert events[1..][1..][1..] == [SetHandlers(Handlers(true, true, true))];
    assert Run(INITIAL, events) == Run(s1, events[1..]) == Run(s2, events[1..][1..]) ==
           Run(s3, events[1..][1..][1..]) == s4;
    assert Feasible(s3, events[1..][1..][1..]) && Feasible(s2, events[1..][1..]) && Feasible(s1, events[1..]);
  }

  /** Auto-connecting without a handler while connected: the machine says it is connected and reconnecting at once. */
  lemma ReconnectingWhileConnected()
    ensures var events :=
            [ConnectToHost(true, false, true), SetHandlers(Handlers(false, false, false)), BeginAutoConnect(true)];
            var s := Run(INITIAL, events);
            Feasible(INITIAL, events) && s.connected && s.reconnecting
  {
    var s1 := Step(INITIAL, ConnectToHost(true, false, true));
    var s2 := Step(s1, SetHandlers(Handlers(false, false, false)));
    var s3 := Step(s2, BeginAutoConnect(true));
    var events :=
      [ConnectToHost(true, false, true), SetHandlers(Handlers(false, false, false)), BeginAutoConnect(true)];
    assert events[1..][1..] == [BeginAutoConnect(true)];
    assert Run(INITIAL, events) == Run(s1, events[1..]) == Run(s2, events[1..][1..]) == s3;
    assert Feasible(s2, events[1..][1..]) && Feasible(s1, events[1..]);
  }

  /** A manual attempt ends a reconnect loop even when it fails. */
  lemma ManualAttemptEndsLoop(s: State, started: bool)
    ensures var t := Step(s, ConnectNow(started)); !t.reconnecting && t.retry.None? && t.failures == 0
  {
  }

  /** One attempt that fails: refused at once, or launched and reported as failed later. */
  function FailedAttempt(s: State, manual: bool, late: bool): State {
    var launched := Step(s, if manual then ConnectNow(late) else BeginAutoConnect(late));
    if late then Step(launched, Report(false)) else launched
  }

  /** A manual attempt that fails is not retried; a startup attempt that fails is, after five seconds. */
  lemma OnlyAutoConnectRetries(s: State, manual: bool, late: bool)
    requires Sound(s) && s.handlers.connect && (late ==> s.handlers.async)
    ensures var t := FailedAttempt(s, manual, late);
            && !t.connected && t.pending.NoAttempt? && t.reconnecting == !manual
            && t.retry == (if manual then None else Some(5000)) && t.failures == 0
  {
  }

  /** An attempt that succeeds, at once or later, ends connected, watched and without a loop. */
  lemma AttemptSucceeds(s: State, manual: bool)
    requires Sound(s) && s.handlers.connect
    ensures var launched := Step(s, if manual then ConnectNow(true) else BeginAutoConnect(true));
            var t := if s.handlers.async then Step(launched, Report(true)) else launched;
            && t.connected && !t.reconnecting && t.retry.None? && t.failures == 0 && t.pending.NoAttempt?
            && (t.heartbeat.intervalMs > 0 ==> t.heartbeat.armed)
  {
  }

  /** A connection whose peer dies is noticed at the next heartbeat, which starts the loop; a live one is left alone. */
  lemma HeartbeatWatches(s: State)
    requires Sound(s) && s.connected && s.heartbeat.intervalMs > 0 && s.handlers.probe
    ensures Enabled(s, HeartbeatTick(false)) && Step(s, HeartbeatTick(true)) == s
    ensures var t := Step(s, HeartbeatTick(false));
            !t.connected && t.reconnecting && t.retry == Some(5000) && t.failures == 0 && !t.heartbeat.armed
  {
  }

  // ---- Backoff over a whole outage ----

  /** One failed retry: refused at once, or launched and reported as failed later. */
  function FailedRetry(s: State, late: bool): State {
    if late && s.handlers.async && s.handlers.connect then Step(Step(s, ReconnectTick(true)), Report(false))
    else Step(s, ReconnectTick(false))
  }

  function Outage(s: State, late: seq<bool>): State {
    if late == [] then s else FailedRetry(Outage(s, late[..|late| - 1]), late[|late| - 1])
  }

  /** The summed wait before the retries of an outage. */
  function TotalWait(s: State, late: seq<bool>): int {
    if late == [] then 0 else
    var before := Outage(s, late[..|late| - 1]);
    TotalWait(s, late[..|late| - 1]) + if before.retry.Some? then before.retry.value else 0
  }

  /** After n failures in a row, however reported, rung min(n, 6) is armed and the loop is still retrying. */
  lemma {:induction false} OutageClimbsLadder(s: State, late: seq<bool>)
    requires Sound(s) && s.reconnecting && s.failures == 0 && s.retry.Some?
    ensures var t := Outage(s, late);
            && Sound(t) && t.reconnecting && t.failures == |late| && t.handlers == s.handlers
            && t.retry == Some(LADDER[if |late| < 6 then |late| else 6])
  {
    if late != [] {
      OutageClimbsLadder(s, late[..|late| - 1]);
    }
  }

  lemma LadderNeverDescends(m: int, n: int)
    requires m <= n
    ensures ReconnectDelayMs(m) <= ReconnectDelayMs(n)
  {
    if 0 <= m && n < 7 {
      assert forall i | 0 <= i < 6 :: LADDER[i] <= LADDER[i + 1];
    }
  }

  lemma {:induction false} TotalWaitClosedForm(s: State, late: seq<bool>)
    requires Sound(s) && s.reconnecting && s.failures == 0 && s.retry.Some?
    ensures |late| >= 7 ==> TotalWait(s, late) == 135000 + 60000 * (|late| - 7)
    ensures |late| < 7 ==> TotalWait(s, late) == [0, 5000, 10000, 15000, 30000, 45000, 75000][|late|]
  {
    if late != [] {
      TotalWaitClosedForm(s, late[..|late| - 1]);
      OutageClimbsLadder(s, late[..|late| - 1]);
    }
  }

  // ---- Quiescence and signals ----

  predicate Attempt(e: Event) {
    e.ConnectNow? || e.BeginAutoConnect? || e.ConnectToHost?
  }

  predicate Quiet(s: State) {
    !s.connected && !s.reconnecting && !s.heartbeat.armed && s.retry.None? && s.pending.NoAttempt?
  }

  /** A quiet machine stays quiet until a new attempt: no timer can fire, no report is heard, nothing is signalled. */
  lemma {:induction false} QuietUntilAttempt(s: State, events: seq<Event>)
    requires Quiet(s) && Feasible(s, events) && forall i | 0 <= i < |events| :: !Attempt(events[i])
    ensures Quiet(Run(s, events)) && Run(s, events).signals == s.signals
    ensures forall i | 0 <= i < |events| :: !events[i].HeartbeatTick? && !events[i].ReconnectTick?
    decreases |events|
  {
    if events != [] {
      var t := Step(s, events[0]);
      assert !Attempt(events[0]) && Quiet(t) && t.signals == s.signals;
      forall i | 0 <= i < |events[1..]| ensures !Attempt(events[1..][i]) {
        assert !Attempt(events[i + 1]);
      }
      QuietUntilAttempt(t, events[1..]);
      forall i | 0 <= i < |events| ensures !events[i].HeartbeatTick? && !events[i].ReconnectTick? {
        assert i > 0 ==> events[i] == events[1..][i - 1];
      }
    }
  }

  lemma DisconnectIsQuiet(s: State)
    ensures Quiet(Step(s, DisconnectNow))
  {
  }

  /** From any state at all, after a disconnect nothing happens until a new attempt. */
  lemma QuietAfterDisconnect(s: State, events: seq<Event>)
    requires Feasible(Step(s, DisconnectNow), events) && forall i | 0 <= i < |events| :: !Attempt(events[i])
    ensures var t := Step(s, DisconnectNow);
            && Quiet(Run(t, events)) && Run(t, events).signals == t.signals
            && forall i | 0 <= i < |events| :: !events[i].HeartbeatTick? && !events[i].ReconnectTick?
  {
    DisconnectIsQuiet(s);
    QuietUntilAttempt(Step(s, DisconnectNow), events);
  }

  /** The values strictly alternate, starting from false before the first, and the last one is `current`. */
  predicate Tells(values: seq<bool>, current: bool) {
    if values == [] then !current
    else values[|values| - 1] == current && Tells(values[..|values| - 1], !current)
  }

  predicate Faithful(s: State) {
    Tells(s.signals.connectionStateChanged, s.connected) && Tells(s.signals.reconnectingChanged, s.reconnecting)
  }

  lemma TellsNext(values: seq<bool>, current: bool)
    requires Tells(values, current)
    ensures Tells(values + [!current], !current)
  {
    assert (values + [!current])[..|values|] == values;
  }

  lemma SetConnectedTells(s: State, connected: bool)
    requires Faithful(s)
    ensures Faithful(SetConnected(s, connected))
  {
    TellsNext(s.signals.connectionStateChanged, s.connected);
  }

  lemma SetReconnectingTells(s: State, reconnecting: bool)
    requires Faithful(s)
    ensures Faithful(SetReconnecting(s, reconnecting))
  {
    TellsNext(s.signals.reconnectingChanged, s.reconnecting);
  }

  lemma LoopTells(s: State)
    requires Faithful(s)
    ensures Faithful(StartReconnecting(s)) && Faithful(StopReconnecting(s))
  {
    SetReconnectingTells(s, true);
    SetReconnectingTells(s.(retry := None, failures := 0), false);
  }

  lemma EstablishedTells(s: State)
    requires Faithful(s)
    ensures Faithful(Established(s))
  {
    LoopTells(s);
    SetConnectedTells(StopReconnecting(s), true);
  }

  lemma DropTells(s: State)
    requires Faithful(s)
    ensures Faithful(SetConnected(s, false)) && Faithful(StartReconnecting(SetConnected(s, false)))
  {
    SetConnectedTells(s, false);
    LoopTells(SetConnected(s, false));
  }

  lemma AutoConnectTells(s: State, started: bool)
    requires Faithful(s)
    ensures Faithful(OnBeginAutoConnect(s, started))
  {
    LoopTells(s);
    if !s.handlers.connect {
      LoopTells(StopReconnecting(s));
    } else if s.handlers.async {
      DropTells(StopReconnecting(s).(pending := Launched(started, true)));
    } else if started {
      EstablishedTells(s);
    } else {
      DropTells(StopReconnecting(s));
    }
  }

  lemma ConnectNowTells(s: State, started: bool)
    requires Faithful(s)
    ensures Faithful(OnConnectNow(s, started))
  {
    LoopTells(s);
    if s.handlers.async {
      DropTells(StopReconnecting(s).(pending := Launched(started, false)));
    } else if started {
      EstablishedTells(s);
    } else {
      DropTells(StopReconnecting(s));
    }
  }

  lemma DisconnectTells(s: State)
    requires Faithful(s)
    ensures Faithful(OnDisconnectNow(s))
  {
    LoopTells(StopHeartbeat(s));
    DropTells(StopReconnecting(StopHeartbeat(s)).(pending := NoAttempt));
  }

  lemma ReportTells(s: State, succeeded: bool)
    requires Faithful(s)
    ensures Faithful(OnReport(s, succeeded))
  {
    EstablishedTells(s.(pending := NoAttempt));
    DropTells(s.(pending := NoAttempt));
  }

  /** Events that signal nothing. */
  lemma SilentTells(s: State, e: Event)
    requires Faithful(s) && (e.SetHandlers? || e.SetHeartbeat?)
    ensures Faithful(Step(s, e))
  {
    hide Tells, OnConnectNow, OnBeginAutoConnect, OnReport, OnReconnectTick, OnHeartbeatTick, OnDisconnectNow;
  }

  lemma HeartbeatTells(s: State, alive: bool)
    requires Faithful(s)
    ensures Faithful(OnHeartbeatTick(s, alive))
  {
    hide Tells;
    DropTells(StopHeartbeat(s));
  }

  lemma RetryTells(s: State, started: bool)
    requires Faithful(s)
    ensures Faithful(OnReconnectTick(s, started))
  {
    hide Tells;
    EstablishedTells(s);
  }

  lemma HandlersTell(s: State, handlers: Handlers)
    requires Faithful(s)
    ensures Faithful(OnSetHandlers(s, handlers))
  {
  }

  /** Each signal strictly alternates and its last value is the state, after every event in any state. */
  lemma StepIsFaithful(s: State, e: Event)
    requires Faithful(s)
    ensures Faithful(Step(s, e))
  {
    hide Faithful, OnConnectNow, OnBeginAutoConnect, OnReport, OnReconnectTick, OnHeartbeatTick, OnDisconnectNow,
      OnSetHandlers, OnSetHeartbeat;
    match e
    case ConnectNow(started) => ConnectNowTells(s, started);
    case BeginAutoConnect(started) => AutoConnectTells(s, started);
    case ConnectToHost(probe, async, started) =>
      HandlersTell(s, Handlers(true, probe, async));
      AutoConnectTells(OnSetHandlers(s, Handlers(true, probe, async)), started);
    case DisconnectNow => DisconnectTells(s);
    case HeartbeatTick(alive) => HeartbeatTells(s, alive);
    case ReconnectTick(started) => RetryTells(s, started);
    case Report(succeeded) => ReportTells(s, succeeded);
    case _ => SilentTells(s, e);
  }

  lemma {:induction false} RunIsFaithful(s: State, events: seq<Event>)
    requires Faithful(s)
    ensures Faithful(Run(s, events))
    decreases |events|
  {
    if events != [] {
      StepIsFaithful(s, events[0]);
      RunIsFaithful(Step(s, events[0]), events[1..]);
    }
  }

  // ---- Both together ----

  /** The loop is sound and the signals tell the truth. */
  ghost predicate Healthy(s: State) {
    Sound(s) && Faithful(s)
  }

  lemma StepKeepsHealthyIff(s: State, e: Event)
    requires Healthy(s) && Enabled(s, e)
    ensures Healthy(Step(s, e)) <==> !Hazard(s, e)
  {
    hide Sound, Faithful, Step;
    StepKeepsSoundIff(s, e);
    StepIsFaithful(s, e);
  }
}
