/**
 The consumer and its broker as a small distributed system.

 Requests and replies travel in order. The broker answers consume and cancel without error and may
 cancel a live consumer on its own at any moment; every interleaving is allowed.
 */
module MqConsumer {
  import opened MqService
  import opened Wrappers

  datatype Reply = ConsumeOk(consumer: nat) | CancelOk | Cancelled(consumer: nat)

  /** `requested`: consuming has been asked for, outside a pause, during this channel's life. */
  datatype System = System(service: Service, inbox: seq<Reply>, live: set<nat>, next: nat, requested: bool)

  datatype Event =
    | Start(ready: bool)
    | PauseCommand
    | ResumeCommand(order: seq<nat>, failing: set<nat>, ready: bool)
    | BrokerTakes
    | BrokerDrops(consumer: nat)
    | ServiceTakes
    | Delivered(tag: nat, valid: bool, rejectOk: bool)
    | Inserted(tag: nat, ackOk: bool)
    | ChannelLost

  const INITIAL := System(Service(false, false, IDLE, EMPTY, []), [], {}, 0, false)

  predicate Enabled(s: System, e: Event) {
    match e
    case BrokerTakes => s.service.outbox != []
    case BrokerDrops(consumer) => consumer in s.live
    case ServiceTakes => s.inbox != []
    case _ => true
  }

  function BrokerHandles(s: System, r: Request): System {
    match r
    case Consume => s.(live := s.live + {s.next}, inbox := s.inbox + [ConsumeOk(s.next)], next := s.next + 1)
    case Cancel(consumer) => s.(live := s.live - {consumer}, inbox := s.inbox + [CancelOk])
    case Ack(_) => s
    case Reject(_) => s
  }

  function ServiceHandles(service: Service, r: Reply): Service {
    match r
    case ConsumeOk(consumer) => OnConsumeOk(service, consumer)
    case CancelOk => OnCancelOk(service, true)
    case Cancelled(_) => OnCancelled(service, true)
  }

  function Asked(s: System): System {
    s.(requested := s.requested || (s.service.open && !s.service.paused))
  }

  function Step(s: System, e: Event): System
    requires Enabled(s, e)
  {
    match e
    case Start(ready) => Asked(s.(service := StartConsuming(s.service, ready)))
    case PauseCommand => s.(service := Pause(s.service))
    case ResumeCommand(order, failing, ready) => Asked(s.(service := Resume(s.service, order, failing, ready)))
    case BrokerTakes => BrokerHandles(s.(service := s.service.(outbox := s.service.outbox[1..])), s.service.outbox[0])
    case BrokerDrops(consumer) => s.(live := s.live - {consumer}, inbox := s.inbox + [Cancelled(consumer)])
    case ServiceTakes => s.(service := ServiceHandles(s.service, s.inbox[0]), inbox := s.inbox[1..])
    case Delivered(tag, valid, rejectOk) => s.(service := OnReceived(s.service, tag, valid, rejectOk))
    case Inserted(tag, ackOk) => s.(service := Confirm(s.service, tag, ackOk))
    case ChannelLost => System(OnDisconnected(s.service), [], {}, s.next, false)
  }

  /** The states along one run, each produced by an enabled event. */
  ghost predicate IsRun(states: seq<System>, events: seq<Event>) {
    && |states| == |events| + 1
    && states[0] == INITIAL
    && forall i | 0 <= i < |events| :: Enabled(states[i], events[i]) && states[i + 1] == Step(states[i], events[i])
  }

  // ---- The invariant ----

  function IsControl(r: Request): bool {
    r.Consume? || r.Cancel?
  }

  /** The consume and cancel requests still on their way to the broker. */
  function Controls(q: seq<Request>): seq<Request> {
    if q == [] then [] else Controls(q[..|q| - 1]) + (if IsControl(q[|q| - 1]) then [q[|q| - 1]] else [])
  }

  /** A cancel whose consumer the broker had already dropped, still on its way or already answered. */
  datatype Leftover = Nothing | CancelUnderway(dead: nat) | CancelAnswered

  /** Where the one consumer there can be is in its life, and what is in flight about it. */
  datatype Phase =
    | Idle(leftover: Leftover)
    | Asking(leftover: Leftover)
    | Granted(answered: bool, t: nat)
    | GrantedThenDropped(answered: bool, t: nat)
    | Live(t: nat)
    | Dropped(t: nat)
    | Cancelling(t: nat)
    | CancellingDropped(t: nat)
    | CancelDone(t: nat)
    | DroppedThenCancelDone(t: nat)

  function LeftoverRequests(l: Leftover): seq<Request> {
    if l.CancelUnderway? then [Cancel(l.dead)] else []
  }

  function LeftoverReplies(answered: bool): seq<Reply> {
    if answered then [CancelOk] else []
  }

  function PhaseControl(p: Phase): Control {
    match p
    case Idle(_) => IDLE
    case Asking(_) => Control(true, false, false, None)
    case Granted(_, _) => Control(true, false, false, None)
    case GrantedThenDropped(_, _) => Control(true, false, false, None)
    case Live(t) => Control(false, true, false, Some(t))
    case Dropped(t) => Control(false, true, false, Some(t))
    case Cancelling(t) => Control(false, true, true, Some(t))
    case CancellingDropped(t) => Control(false, true, true, Some(t))
    case CancelDone(t) => Control(false, true, true, Some(t))
    case DroppedThenCancelDone(t) => Control(false, true, true, Some(t))
  }

  function PhaseRequests(p: Phase): seq<Request> {
    match p
    case Idle(l) => LeftoverRequests(l)
    case Asking(l) => LeftoverRequests(l) + [Consume]
    case Cancelling(t) => [Cancel(t)]
    case CancellingDropped(t) => [Cancel(t)]
    case _ => []
  }

  function PhaseInbox(p: Phase): seq<Reply> {
    match p
    case Idle(l) => LeftoverReplies(l.CancelAnswered?)
    case Asking(l) => LeftoverReplies(l.CancelAnswered?)
    case Granted(answered, t) => LeftoverReplies(answered) + [ConsumeOk(t)]
    case GrantedThenDropped(answered, t) => LeftoverReplies(answered) + [ConsumeOk(t), Cancelled(t)]
    case Dropped(t) => [Cancelled(t)]
    case CancellingDropped(t) => [Cancelled(t)]
    case CancelDone(_) => [CancelOk]
    case DroppedThenCancelDone(t) => [Cancelled(t), CancelOk]
    case _ => []
  }

  function PhaseLive(p: Phase): set<nat> {
    if p.Granted? || p.Live? || p.Cancelling? then {p.t} else {}
  }

  ghost predicate InPhase(s: System, p: Phase) {
    && s.service.control == PhaseControl(p)
    && Controls(s.service.outbox) == PhaseRequests(p)
    && s.inbox == PhaseInbox(p)
    && s.live == PhaseLive(p)
  }

  /**
   The service is in some phase, a closed channel is idle, a paused consumer is being cancelled, a wanted one exists.
   */
  ghost predicate Inv(s: System, p: Phase) {
    && InPhase(s, p)
    && (!s.service.open ==> p == Idle(Nothing) && !s.requested)
    && (s.service.paused && s.service.control.consuming ==> s.service.control.cancelPending)
    && (s.requested && !s.service.paused ==> s.service.control.starting || s.service.control.consuming)
  }

  // ---- Each event keeps it ----

  lemma ControlsAppend(q: seq<Request>, r: Request)
    ensures Controls(q + [r]) == Controls(q) + (if IsControl(r) then [r] else [])
  {
    assert (q + [r])[..|q|] == q;
  }

  lemma {:induction false} ControlsHead(q: seq<Request>)
    requires q != []
    ensures Controls(q) == (if IsControl(q[0]) then [q[0]] else []) + Controls(q[1..])
  {
    if |q| > 1 {
      var front := q[..|q| - 1];
      ControlsHead(front);
      assert q[1..][..|q| - 2] == front[1..];
    }
  }

  lemma ConfirmControls(s: Service, tag: nat, ackOk: bool)
    ensures var t := Confirm(s, tag, ackOk);
            t.control == s.control && t.open == s.open && t.paused == s.paused &&
              Controls(t.outbox) == Controls(s.outbox)
  {
    ControlsAppend(s.outbox, Ack(tag));
  }

  lemma {:induction false} ConfirmAllControls(s: Service, order: seq<nat>, failing: set<nat>)
    ensures var t := ConfirmAll(s, order, failing);
            t.control == s.control && t.open == s.open && t.paused == s.paused &&
              Controls(t.outbox) == Controls(s.outbox)
  {
    if order != [] {
      var front, last := order[..|order| - 1], order[|order| - 1];
      ConfirmAllControls(s, front, failing);
      ConfirmControls(ConfirmAll(s, front, failing), last, last !in failing);
    }
  }

  /** Asking for a consumer when the phase allows it. */
  lemma AskKeeps(s: System, p: Phase, ready: bool) returns (q: Phase)
    requires InPhase(s, p) && (!s.service.open ==> p == Idle(Nothing))
    ensures var t := s.(service := StartConsuming(s.service, ready));
            && InPhase(t, q) && t.service.paused == s.service.paused && (!t.service.open ==> q == Idle(Nothing))
            && (t.service.open && !t.service.paused ==> t.service.control.starting || t.service.control.consuming)
            && (s.service.paused ==> t == s && q == p) && (s.service.control.consuming ==> q == p)
  {
    hide Controls;
    ControlsAppend(s.service.outbox, Consume);
    q := if p.Idle? && !s.service.paused && (s.service.open || ready) then Asking(p.leftover) else p;
  }

  lemma CancelKeeps(s: System, p: Phase) returns (q: Phase)
    requires InPhase(s, p) && (!s.service.open ==> p == Idle(Nothing))
    ensures var t := s.(service := CancelConsumer(s.service));
            && InPhase(t, q) && t.service.open == s.service.open && (!t.service.open ==> q == Idle(Nothing))
            && t.service.paused == s.service.paused
            && (t.service.control.consuming ==> t.service.control.cancelPending)
            && t.service.control.starting == s.service.control.starting &&
               t.service.control.consuming == s.service.control.consuming
  {
    hide Controls;
    if p.Live? {
      ControlsAppend(s.service.outbox, Cancel(p.t));
      q := Cancelling(p.t);
    } else if p.Dropped? {
      ControlsAppend(s.service.outbox, Cancel(p.t));
      q := CancellingDropped(p.t);
    } else {
      assert CancelConsumer(s.service) == s.service;
      q := p;
    }
  }

  lemma StartKeeps(s: System, p: Phase, ready: bool) returns (q: Phase)
    requires Inv(s, p)
    ensures Inv(Step(s, Start(ready)), q)
  {
    q := AskKeeps(s, p, ready);
  }

  lemma PauseKeeps(s: System, p: Phase) returns (q: Phase)
    requires Inv(s, p)
    ensures Inv(Step(s, PauseCommand), q)
  {
    q := CancelKeeps(s.(service := s.service.(paused := true)), p);
  }

  lemma ResumeKeeps(s: System, p: Phase, order: seq<nat>, failing: set<nat>, ready: bool) returns (q: Phase)
    requires Inv(s, p)
    ensures Inv(Step(s, ResumeCommand(order, failing, ready)), q)
  {
    var confirmed := ConfirmAll(s.service.(paused := false), order, failing);
    ConfirmAllControls(s.service.(paused := false), order, failing);
    q := AskKeeps(s.(service := confirmed), p, ready);
  }

  /** The phase after the broker has answered the oldest control request. */
  function AfterRequest(p: Phase, next: nat): Phase {
    match p
    case Idle(_) => Idle(CancelAnswered)
    case Asking(l) => if l.CancelUnderway? then Asking(CancelAnswered) else Granted(l.CancelAnswered?, next)
    case Cancelling(t) => CancelDone(t)
    case CancellingDropped(t) => DroppedThenCancelDone(t)
    case _ => p
  }

  lemma RequestShifts(p: Phase, next: nat)
    requires PhaseRequests(p) != []
    ensures var q, head := AfterRequest(p, next), PhaseRequests(p)[0];
            && PhaseRequests(p)[1..] == PhaseRequests(q) && PhaseControl(q) == PhaseControl(p)
            && (head == Consume ==>
                  PhaseInbox(q) == PhaseInbox(p) + [ConsumeOk(next)] && PhaseLive(q) == PhaseLive(p) + {next})
            && (head.Cancel? ==>
                  PhaseInbox(q) == PhaseInbox(p) + [CancelOk] && PhaseLive(q) == PhaseLive(p) - {head.consumer})
  {
    match p
    case Idle(_) =>
    case Asking(_) =>
    case Granted(_, _) =>
    case GrantedThenDropped(_, _) =>
    case Live(_) =>
    case Dropped(_) =>
    case Cancelling(_) =>
    case CancellingDropped(_) =>
    case CancelDone(_) =>
    case DroppedThenCancelDone(_) =>
  }

  lemma BrokerAnswers(s: System, p: Phase) returns (q: Phase)
    requires Inv(s, p) && s.service.outbox != [] && IsControl(s.service.outbox[0])
    ensures Inv(Step(s, BrokerTakes), q)
  {
    var head, rest := s.service.outbox[0], s.service.outbox[1..];
    ControlsHead(s.service.outbox);
    assert PhaseRequests(p) == [head] + Controls(rest);
    RequestShifts(p, s.next);
    q := AfterRequest(p, s.next);
  }

  lemma BrokerKeeps(s: System, p: Phase) returns (q: Phase)
    requires Inv(s, p) && s.service.outbox != []
    ensures Inv(Step(s, BrokerTakes), q)
  {
    if IsControl(s.service.outbox[0]) {
      q := BrokerAnswers(s, p);
    } else {
      ControlsHead(s.service.outbox);
      q := p;
    }
  }

  lemma DropKeeps(s: System, p: Phase, consumer: nat) returns (q: Phase)
    requires Inv(s, p) && consumer in s.live
    ensures Inv(Step(s, BrokerDrops(consumer)), q)
  {
    q := match p
      case Granted(answered, t) => GrantedThenDropped(answered, t)
      case Live(t) => Dropped(t)
      case Cancelling(t) => CancellingDropped(t)
      case _ => p;
  }

  /** The phase after the service has taken the oldest reply, before it reacts. */
  function AfterReply(p: Phase): Phase {
    match p
    case Idle(_) => Idle(Nothing)
    case Asking(_) => Asking(Nothing)
    case Granted(answered, t) => if answered then Granted(false, t) else Live(t)
    case GrantedThenDropped(answered, t) => if answered then GrantedThenDropped(false, t) else Dropped(t)
    case Live(t) => Live(t)
    case Dropped(t) => Idle(Nothing)
    case Cancelling(t) => Cancelling(t)
    case CancellingDropped(t) => Idle(CancelUnderway(t))
    case CancelDone(t) => Idle(Nothing)
    case DroppedThenCancelDone(t) => Idle(CancelAnswered)
  }

  lemma ReplyShifts(s: System, p: Phase)
    requires Inv(s, p) && s.inbox != []
    ensures s.inbox[1..] == PhaseInbox(AfterReply(p)) && PhaseRequests(AfterReply(p)) == PhaseRequests(p)
    ensures PhaseLive(AfterReply(p)) == PhaseLive(p)
    ensures s.service.open
    ensures s.inbox[0].ConsumeOk? ==>
              PhaseControl(AfterReply(p)) == Control(false, true, false, Some(s.inbox[0].consumer))
    ensures s.inbox[0].Cancelled? ==> PhaseControl(AfterReply(p)) == IDLE
    ensures s.inbox[0].CancelOk? ==>
              PhaseControl(AfterReply(p)) == Control(s.service.control.starting, false, false, None)
    ensures s.inbox[0].ConsumeOk? ==> !s.service.control.cancelPending
  {
    match p
    case Idle(_) =>
    case Asking(_) =>
    case Granted(_, _) =>
    case GrantedThenDropped(_, _) =>
    case Live(_) =>
    case Dropped(_) =>
    case Cancelling(_) =>
    case CancellingDropped(_) =>
    case CancelDone(_) =>
    case DroppedThenCancelDone(_) =>
  }

  lemma ServiceKeeps(s: System, p: Phase) returns (q: Phase)
    requires Inv(s, p) && s.inbox != []
    ensures Inv(Step(s, ServiceTakes), q)
  {
    ReplyShifts(s, p);
    q := AfterReply(p);
    var heard := s.(service := s.service.(control := PhaseControl(q)), inbox := s.inbox[1..]);
    assert InPhase(heard, q);
    if s.inbox[0].ConsumeOk? {
      if s.service.paused {
        q := CancelKeeps(heard, q);
      }
    } else if !s.service.paused {
      q := AskKeeps(heard, q, true);
    }
  }

  lemma StepKeepsInv(s: System, p: Phase, e: Event) returns (q: Phase)
    requires Inv(s, p) && Enabled(s, e)
    ensures Inv(Step(s, e), q)
  {
    match e
    case Start(ready) => q := StartKeeps(s, p, ready);
    case PauseCommand => q := PauseKeeps(s, p);
    case ResumeCommand(order, failing, ready) => q := ResumeKeeps(s, p, order, failing, ready);
    case BrokerTakes => q := BrokerKeeps(s, p);
    case BrokerDrops(consumer) => q := DropKeeps(s, p, consumer);
    case ServiceTakes => q := ServiceKeeps(s, p);
    case Delivered(tag, valid, rejectOk) =>
      ControlsAppend(s.service.outbox, Reject(tag));
      q := p;
    case Inserted(tag, ackOk) =>
      ConfirmControls(s.service, tag, ackOk);
      q := p;
    case ChannelLost => q := Idle(Nothing);
  }

  lemma {:induction false} RunKeepsInv(states: seq<System>, events: seq<Event>, i: nat) returns (p: Phase)
    requires IsRun(states, events) && i < |states|
    ensures Inv(states[i], p)
  {
    if i == 0 {
      p := Idle(Nothing);
    } else {
      p := RunKeepsInv(states, events, i - 1);
      p := StepKeepsInv(states[i - 1], p, events[i - 1]);
    }
  }

  // ---- Main results ----

  function Consumes(q: seq<Request>): nat {
    if q == [] then 0 else Consumes(q[..|q| - 1]) + (if q[|q| - 1].Consume? then 1 else 0)
  }

  lemma {:induction false} ConsumesAreControls(q: seq<Request>)
    ensures Consumes(q) == Consumes(Controls(q))
  {
    if q != [] {
      ConsumesAreControls(q[..|q| - 1]);
      if IsControl(q[|q| - 1]) {
        assert Controls(q)[..|Controls(q)| - 1] == Controls(q[..|q| - 1]);
      } else {
        assert Controls(q) == Controls(q[..|q| - 1]);
      }
    }
  }

  /** Nothing to settle remains: no consume or cancel is on its way, and no reply to one. */
  predicate Quiescent(s: System) {
    Controls(s.service.outbox) == [] && s.inbox == []
  }

  /** At every point of every run at most one consumer is live at the broker or being started. */
  lemma AtMostOneConsumer(states: seq<System>, events: seq<Event>, i: nat)
    requires IsRun(states, events) && i < |states|
    ensures |states[i].live| + Consumes(states[i].service.outbox) <= 1
  {
    var p := RunKeepsInv(states, events, i);
    ConsumesAreControls(states[i].service.outbox);
    PhaseHasOne(p);
  }

  lemma PhaseHasOne(p: Phase)
    ensures |PhaseLive(p)| + Consumes(PhaseRequests(p)) <= 1
  {
    var requests := PhaseRequests(p);
    if p.Asking? {
      var l := LeftoverRequests(p.leftover);
      assert (l + [Consume])[..|l|] == l;
      assert Consumes(l) == 0 by {
        assert l != [] ==> l[..|l| - 1] == [];
      }
    } else if requests != [] {
      assert requests[..|requests| - 1] == [];
    }
  }

  /** The last command wins: once everything is settled, the service and the broker consume exactly when not paused. */
  lemma LastCommandWins(states: seq<System>, events: seq<Event>, i: nat)
    requires IsRun(states, events) && i < |states| && Quiescent(states[i])
    requires states[i].requested || states[i].service.paused
    ensures states[i].service.control.consuming <==> !states[i].service.paused
    ensures states[i].live != {} <==> !states[i].service.paused
  {
    var p := RunKeepsInv(states, events, i);
  }

  /** Losing the channel leaves nothing but the pause: a new channel starts from the beginning. */
  lemma LossLeavesOnlyThePause(s: System)
    ensures Step(s, ChannelLost) == INITIAL.(service := INITIAL.service.(paused := s.service.paused), next := s.next)
  {
  }

  /** A delivery that cannot be decoded is rejected and no longer waited for. */
  lemma UndecodableForgotten(s: Service, tag: nat)
    requires s.open
    ensures var t := OnReceived(s, tag, false, true);
            && t.outbox == s.outbox + [Reject(tag)] && tag !in t.book.pending && tag !in t.book.committed
            && t.book.pending == s.book.pending - {tag} && t.control == s.control
  {
  }

  /** Without a channel nothing is sent, unless consuming is started on a ready connection. */
  lemma ClosedSendsNothing(s: Service, tag: nat, ok: bool)
    requires !s.open
    ensures Confirm(s, tag, ok).outbox == CancelConsumer(s).outbox == OnReceived(s, tag, ok, ok).outbox == s.outbox
    ensures StartConsuming(s, false) == s
  {
  }
}
