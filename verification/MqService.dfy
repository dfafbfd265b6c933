/**
 The queue consumer: pause and resume, asynchronous consume and cancel replies, and the deliveries
 that are received, committed to the store and acknowledged.

 The channel's answers (whether an ack or a reject could be sent, whether the connection is ready) are
 parameters. `outbox` is what has been sent to the broker, in order.
 */
module MqService {

  import opened Wrappers

  datatype Request = Consume | Cancel(consumer: nat) | Ack(tag: nat) | Reject(tag: nat)

  /** The consumer as the service sees it. */
  datatype Control = Control(starting: bool, consuming: bool, cancelPending: bool, consumer: Option<nat>)

  /** Deliveries received and not settled, and those among them already inserted but held back by a pause. */
  datatype Book = Book(pending: set<nat>, committed: set<nat>)

  datatype Service = Service(open: bool, paused: bool, control: Control, book: Book, outbox: seq<Request>)

  const IDLE := Control(false, false, false, None)
  const EMPTY := Book({}, {})

  function StartConsuming(s: Service, ready: bool): Service {
    if s.paused || s.control.consuming || s.control.starting || !(s.open || ready) then s
    else s.(open := true, control := s.control.(starting := true), outbox := s.outbox + [Consume])
  }

  function CancelConsumer(s: Service): Service {
    if !s.open || s.control.consumer.None? || s.control.cancelPending then s
    else s.(control := s.control.(cancelPending := true), outbox := s.outbox + [Cancel(s.control.consumer.value)])
  }

  function Confirm(s: Service, tag: nat, ackOk: bool): Service {
    if tag !in s.book.pending then s
    else if s.paused then s.(book := s.book.(committed := s.book.committed + {tag}))
    else if !s.open || !ackOk then s
    else s.(book := Book(s.book.pending - {tag}, s.book.committed - {tag}), outbox := s.outbox + [Ack(tag)])
  }

  /** Confirming a list of deliveries in order; the acks of those in `failing` cannot be sent. */
  function ConfirmAll(s: Service, order: seq<nat>, failing: set<nat>): Service {
    if order == [] then s
    else Confirm(ConfirmAll(s, order[..|order| - 1], failing), order[|order| - 1], order[|order| - 1] !in failing)
  }

  function Pause(s: Service): Service {
    CancelConsumer(s.(paused := true))
  }

  function Resume(s: Service, order: seq<nat>, failing: set<nat>, ready: bool): Service {
    var t := ConfirmAll(s.(paused := false), order, failing);
    if !t.control.consuming && !t.control.cancelPending then StartConsuming(t, ready) else t
  }

  function OnConsumeOk(s: Service, consumer: nat): Service {
    var t := s.(control := Control(false, true, s.control.cancelPending, Some(consumer)));
    if s.paused then CancelConsumer(t) else t
  }

  function OnCancelled(s: Service, ready: bool): Service {
    var t := s.(control := IDLE);
    if s.paused then t else StartConsuming(t, ready)
  }

  function OnCancelOk(s: Service, ready: bool): Service {
    var t := s.(control := Control(s.control.starting, false, false, None));
    if s.paused then t else StartConsuming(t, ready)
  }

  function OnReceived(s: Service, tag: nat, valid: bool, rejectOk: bool): Service {
    if valid then s.(book := s.book.(pending := s.book.pending + {tag}))
    else if !s.open || !rejectOk then s
    else s.(book := Book(s.book.pending - {tag}, s.book.committed - {tag}), outbox := s.outbox + [Reject(tag)])
  }

  function OnDisconnected(s: Service): Service {
    Service(false, s.paused, IDLE, EMPTY, [])
  }

  /** `order` enumerates the committed deliveries, as the iteration over a copy of the set does. */
  ghost predicate Enumerates(order: seq<nat>, tags: set<nat>) {
    && (forall i | 0 <= i < |order| :: order[i] in tags)
    && (forall t | t in tags :: t in order)
    && (forall i, j | 0 <= i < j < |order| :: order[i] != order[j])
  }

  class Consumer {
    var open: bool
    var paused: bool
    var consumerStarting: bool
    var consuming: bool
    var cancelPending: bool
    var consumerTag: Option<nat>
    var pendingDeliveries: set<nat>
    var committedDeliveries: set<nat>
    var outbox: seq<Request>

    ghost function Model(): Service
      reads this
    {
      Service(open, paused, Control(consumerStarting, consuming, cancelPending, consumerTag),
              Book(pendingDeliveries, committedDeliveries), outbox)
    }

    constructor ()
      ensures Model() == Service(false, false, IDLE, EMPTY, [])
    {
      open, paused, consumerStarting, consuming, cancelPending := false, false, false, false, false;
      consumerTag, pendingDeliveries, committedDeliveries, outbox := None, {}, {}, [];
    }

    method Start(ready: bool) returns (ok: bool)
      modifies this
      ensures Model() == StartConsuming(old(Model()), ready)
      ensures ok <==> old(paused || consuming || consumerStarting || open) || ready
    {
      if paused || consuming || consumerStarting { return true; }
      if !open {
        if !ready { return false; }
        open := true;
      }
      consumerStarting := true;
      outbox := outbox + [Consume];
      return true;
    }

    method CancelCurrent()
      modifies this
      ensures Model() == CancelConsumer(old(Model()))
    {
      if !open || consumerTag.None? || cancelPending { return; }
      cancelPending := true;
      outbox := outbox + [Cancel(consumerTag.value)];
    }

    method ConfirmInserted(tag: nat, ackOk: bool)
      modifies this
      ensures Model() == Confirm(old(Model()), tag, ackOk)
    {
      if tag !in pendingDeliveries { return; }
      if paused {
        committedDeliveries := committedDeliveries + {tag};
        return;
      }
      if !open || !ackOk { return; }
      outbox := outbox + [Ack(tag)];
      committedDeliveries := committedDeliveries - {tag};
      pendingDeliveries := pendingDeliveries - {tag};
    }

    method PauseConsuming(pause: bool, failing: set<nat>, ready: bool) returns (ghost order: seq<nat>)
      modifies this
      ensures pause ==> Model() == Pause(old(Model()))
      ensures !pause ==>
                Enumerates(order, old(committedDeliveries)) && Model() == Resume(old(Model()), order, failing, ready)
    {
      order := [];
      paused := pause;
      if paused {
        CancelCurrent();
        return;
      }
      ghost var start := Model();
      var remaining := committedDeliveries;
      ghost var all := remaining;
      while remaining != {}
        invariant forall i | 0 <= i < |order| :: order[i] in all && order[i] !in remaining
        invariant forall t | t in all :: t in order || t in remaining
        invariant forall i, j | 0 <= i < j < |order| :: order[i] != order[j]
        invariant Model() == ConfirmAll(start, order, failing)
        decreases remaining
      {
        var tag :| tag in remaining;
        remaining := remaining - {tag};
        assert (order + [tag])[..|order|] == order;
        ConfirmInserted(tag, tag !in failing);
        order := order + [tag];
      }
      if !consuming && !cancelPending {
        var _ := Start(ready);
      }
    }

    method ConsumeSucceeded(consumer: nat)
      modifies this
      ensures Model() == OnConsumeOk(old(Model()), consumer)
    {
      consumerStarting := false;
      consuming := true;
      consumerTag := Some(consumer);
      if paused { CancelCurrent(); }
    }

    method ConsumerCancelled(ready: bool)
      modifies this
      ensures Model() == OnCancelled(old(Model()), ready)
    {
      consumerStarting, consuming, cancelPending, consumerTag := false, false, false, None;
      if !paused { var _ := Start(ready); }
    }

    method CancelSucceeded(ready: bool)
      modifies this
      ensures Model() == OnCancelOk(old(Model()), ready)
    {
      cancelPending, consuming, consumerTag := false, false, None;
      if !paused { var _ := Start(ready); }
    }

    method Received(tag: nat, valid: bool, rejectOk: bool)
      modifies this
      ensures Model() == OnReceived(old(Model()), tag, valid, rejectOk)
    {
      if !valid {
        if !open || !rejectOk { return; }
        outbox := outbox + [Reject(tag)];
        pendingDeliveries := pendingDeliveries - {tag};
        committedDeliveries := committedDeliveries - {tag};
        return;
      }
      pendingDeliveries := pendingDeliveries + {tag};
    }

    method ResetConnectionState()
      modifies this
      ensures Model() == OnDisconnected(old(Model()))
    {
      open, consumerTag, outbox := false, None, [];
      consuming, consumerStarting, cancelPending := false, false, false;
      pendingDeliveries, committedDeliveries := {}, {};
    }
  }
}
