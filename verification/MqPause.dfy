/**
 A pause is invisible to the acknowledgements: after the resume they are what they would have been without it.

 One channel, whose acks and rejects can be sent. Tags are handed out in order.
 */
module MqPause {
  import opened MqService

  datatype Event = Received(valid: bool) | InsertDone(tag: nat) | Paused | Resumed(order: seq<nat>)

  datatype Desk = Desk(service: Service, next: nat)

  function Opened(): Desk {
    Desk(StartConsuming(Service(false, false, IDLE, EMPTY, []), true), 0)
  }

  ghost predicate Enabled(d: Desk, e: Event) {
    e.Resumed? ==> Enumerates(e.order, d.service.book.committed)
  }

  function Step(d: Desk, e: Event): Desk {
    match e
    case Received(valid) => Desk(OnReceived(d.service, d.next, valid, true), d.next + 1)
    case InsertDone(tag) => d.(service := Confirm(d.service, tag, true))
    case Paused => d.(service := Pause(d.service))
    case Resumed(order) => d.(service := Resume(d.service, order, {}, true))
  }

  function Run(d: Desk, events: seq<Event>): Desk {
    if events == [] then d else Step(Run(d, events[..|events| - 1]), events[|events| - 1])
  }

  ghost predicate Feasible(d: Desk, events: seq<Event>) {
    events == [] ||
    (Feasible(d, events[..|events| - 1]) && Enabled(Run(d, events[..|events| - 1]), events[|events| - 1]))
  }

  /** The same events without the commands. */
  function Unpaused(events: seq<Event>): seq<Event> {
    if events == [] then [] else
    var last := events[|events| - 1];
    Unpaused(events[..|events| - 1]) + (if last.Paused? || last.Resumed? then [] else [last])
  }

  /** The deliveries acknowledged, and those rejected, among the requests sent. */
  ghost function Acked(outbox: seq<Request>): set<nat> {
    set r | r in outbox && r.Ack? :: r.tag
  }

  ghost function Rejected(outbox: seq<Request>): set<nat> {
    set r | r in outbox && r.Reject? :: r.tag
  }

  lemma SentOne(outbox: seq<Request>, r: Request)
    ensures Acked(outbox + [r]) == Acked(outbox) + (if r.Ack? then {r.tag} else {})
    ensures Rejected(outbox + [r]) == Rejected(outbox) + (if r.Reject? then {r.tag} else {})
  {
    assert forall q :: q in outbox + [r] <==> q in outbox || q == r;
    if r.Ack? {
      assert r in outbox + [r];
    }
    if r.Reject? {
      assert r in outbox + [r];
    }
  }

  /** `p` has paused where `n` has not: what `p` holds back, `n` has acknowledged. */
  ghost predicate Mirrors(p: Desk, n: Desk) {
    && p.next == n.next && p.service.open && n.service.open && !n.service.paused
    && p.service.book.committed <= p.service.book.pending
    && n.service.book == Book(p.service.book.pending - p.service.book.committed, {})
    && Acked(n.service.outbox) == Acked(p.service.outbox) + p.service.book.committed
    && Rejected(n.service.outbox) == Rejected(p.service.outbox)
    && (forall t | t in p.service.book.pending :: t < p.next)
    && (!p.service.paused ==> p.service.book.committed == {})
  }

  /** Confirming distinct pending deliveries acknowledges exactly those. */
  lemma {:induction false} ConfirmAllAcks(s: Service, order: seq<nat>)
    requires s.open && !s.paused && forall i | 0 <= i < |order| :: order[i] in s.book.pending
    requires forall i, j | 0 <= i < j < |order| :: order[i] != order[j]
    ensures var t := ConfirmAll(s, order, {});
            var tags := set x | x in order;
            && t.open && !t.paused && t.book == Book(s.book.pending - tags, s.book.committed - tags)
            && Acked(t.outbox) == Acked(s.outbox) + tags && Rejected(t.outbox) == Rejected(s.outbox)
  {
    if order != [] {
      var front, last := order[..|order| - 1], order[|order| - 1];
      ConfirmAllAcks(s, front);
      var m := ConfirmAll(s, front, {});
      assert last !in front;
      assert (set x | x in order) == (set x | x in front) + {last};
      SentOne(m.outbox, Ack(last));
    } else {
      assert (set x | x in order) == {};
    }
  }

  lemma ResumeMirrors(p: Desk, n: Desk, order: seq<nat>)
    requires Mirrors(p, n) && Enumerates(order, p.service.book.committed)
    ensures Mirrors(Step(p, Resumed(order)), n)
    ensures Step(p, Resumed(order)).service.book == n.service.book
  {
    hide Acked, Rejected;
    var s := p.service.(paused := false);
    ConfirmAllAcks(s, order);
    assert (set x | x in order) == p.service.book.committed;
    var t := ConfirmAll(s, order, {});
    SentOne(t.outbox, Consume);
  }

  lemma StepMirrors(p: Desk, n: Desk, e: Event)
    requires Mirrors(p, n) && Enabled(p, e)
    ensures Mirrors(Step(p, e), if e.Paused? || e.Resumed? then n else Step(n, e))
  {
    hide Acked, Rejected;
    match e
    case Received(valid) =>
      SentOne(p.service.outbox, Reject(p.next));
      SentOne(n.service.outbox, Reject(n.next));
    case InsertDone(tag) =>
      SentOne(p.service.outbox, Ack(tag));
      SentOne(n.service.outbox, Ack(tag));
    case Paused =>
      if p.service.control.consumer.Some? {
        SentOne(p.service.outbox, Cancel(p.service.control.consumer.value));
      }
    case Resumed(order) => ResumeMirrors(p, n, order);
  }

  lemma {:induction false} RunMirrors(events: seq<Event>)
    requires Feasible(Opened(), events)
    ensures Mirrors(Run(Opened(), events), Run(Opened(), Unpaused(events)))
  {
    if events != [] {
      var front, last := events[..|events| - 1], events[|events| - 1];
      RunMirrors(front);
      StepMirrors(Run(Opened(), front), Run(Opened(), Unpaused(front)), last);
      if !last.Paused? && !last.Resumed? {
        assert Unpaused(events)[..|Unpaused(events)| - 1] == Unpaused(front);
      } else {
        assert Unpaused(events) == Unpaused(front);
      }
    } else {
      assert Acked([Consume]) == {} && Rejected([Consume]) == {};
    }
  }

  // ---- What the events themselves say ----

  /** How many deliveries there have been: the next tag. */
  function Deliveries(events: seq<Event>): nat {
    if events == [] then 0 else
    Deliveries(events[..|events| - 1]) + if events[|events| - 1].Received? then 1 else 0
  }

  /** The tags of the deliveries that could, or could not, be decoded. */
  function TagsOf(events: seq<Event>, valid: bool): set<nat> {
    if events == [] then {} else
    var front := events[..|events| - 1];
    TagsOf(front, valid) + if events[|events| - 1] == Received(valid) then {Deliveries(front)} else {}
  }

  /** The tags whose insert was confirmed after they were delivered. */
  function DoneTags(events: seq<Event>): set<nat> {
    if events == [] then {} else
    var front, last := events[..|events| - 1], events[|events| - 1];
    DoneTags(front) + if last.InsertDone? && last.tag in TagsOf(front, true) then {last.tag} else {}
  }

  /** Acknowledged: what was confirmed. Rejected: what could not be decoded. Open: the rest of what could. */
  ghost predicate SettledBy(d: Desk, events: seq<Event>) {
    && d.next == Deliveries(events) && d.service.open && !d.service.paused
    && Acked(d.service.outbox) == DoneTags(events) && Rejected(d.service.outbox) == TagsOf(events, false)
    && d.service.book == Book(TagsOf(events, true) - DoneTags(events), {})
    && (forall t | t in TagsOf(events, true) || t in TagsOf(events, false) :: t < d.next)
    && DoneTags(events) <= TagsOf(events, true)
  }

  lemma StepSettles(d: Desk, front: seq<Event>, e: Event)
    requires SettledBy(d, front) && (e.Received? || e.InsertDone?)
    ensures SettledBy(Step(d, e), front + [e])
  {
    hide Acked, Rejected;
    assert (front + [e])[..|front|] == front;
    SentOne(d.service.outbox, Reject(d.next));
    if e.InsertDone? {
      SentOne(d.service.outbox, Ack(e.tag));
    }
  }

  lemma CommandSettles(d: Desk, front: seq<Event>, e: Event)
    requires SettledBy(d, front) && (e.Paused? || e.Resumed?)
    ensures SettledBy(d, front + [e])
  {
    hide Acked, Rejected;
    assert (front + [e])[..|front|] == front;
  }

  lemma OpenedSettles()
    ensures SettledBy(Opened(), [])
  {
    assert Acked([Consume]) == {} && Rejected([Consume]) == {};
  }

  lemma {:induction false} UnpausedSettles(events: seq<Event>)
    ensures SettledBy(Run(Opened(), Unpaused(events)), events)
  {
    hide SettledBy, Step, Opened;
    if events == [] {
      OpenedSettles();
    } else {
      var front, last := events[..|events| - 1], events[|events| - 1];
      UnpausedSettles(front);
      assert events == front + [last];
      if last.Paused? || last.Resumed? {
        assert Unpaused(events) == Unpaused(front);
        CommandSettles(Run(Opened(), Unpaused(front)), front, last);
      } else {
        assert Unpaused(events)[..|Unpaused(events)| - 1] == Unpaused(front);
        StepSettles(Run(Opened(), Unpaused(front)), front, last);
      }
    }
  }

  /**
   However often consuming was paused and resumed, after a final resume exactly the deliveries whose insert was
   confirmed are acknowledged, exactly the undecodable ones are rejected, the rest is open and nothing is held back:
   what the events alone say, and what the run without any pause does.
   */
  lemma PauseIsInvisible(events: seq<Event>, order: seq<nat>)
    requires Feasible(Opened(), events + [Resumed(order)])
    ensures var p := Run(Opened(), events + [Resumed(order)]).service;
            var n := Run(Opened(), Unpaused(events)).service;
            && Acked(p.outbox) == Acked(n.outbox) == DoneTags(events)
            && Rejected(p.outbox) == Rejected(n.outbox) == TagsOf(events, false)
            && p.book == n.book == Book(TagsOf(events, true) - DoneTags(events), {})
  {
    var all := events + [Resumed(order)];
    assert all[..|all| - 1] == events;
    RunMirrors(events);
    ResumeMirrors(Run(Opened(), events), Run(Opened(), Unpaused(events)), order);
    UnpausedSettles(events);
  }
}
