/**
 Exactly when an acknowledgement overtakes the insert it depends on.

 Tags start again on every channel, so a callback that outlives its channel speaks about a delivery of the
 next one. The condition names only what the service and the worker hold before the step.
 */
module MqOvertaking {
  import opened MqService
  import opened MqLedger
  import opened MqStored

  ghost predicate AckedUninserted(h: History) {
    exists d | d in h.acked :: d !in h.inserted
  }

  /** The step sends an ack for a delivery that is not in the store. */
  ghost predicate AcksUninserted(h: History, k: History) {
    exists d | d in k.acked :: d !in h.acked && d !in k.inserted
  }

  /**
   An insert callback, or a resume, that acknowledges a tag of the current channel whose insert is still queued.
   The first happens when the callback belongs to an older channel; the second when such a callback came in a pause.
   */
  predicate Overtakes(l: Ledger, e: Event) {
    match e
    case Callback(ackOk) =>
      l.worker.results != [] &&
      var tag := l.worker.results[0].delivery.tag;
      Acks(l.service, tag, ackOk) && Queued(l.worker.jobs, Delivery(l.channel, tag))
    case ResumeCommand(order, failing, _) =>
      l.service.open &&
      exists i | 0 <= i < |order| :: order[i] !in failing && Queued(l.worker.jobs, Delivery(l.channel, order[i]))
    case _ => false
  }

  /** What is acknowledged on the current channel is queued exactly when it is not inserted. */
  lemma QueuedIffUninserted(l: Ledger, tag: nat)
    requires Tracked(l) && tag in l.service.book.pending
    ensures Queued(l.worker.jobs, Delivery(l.channel, tag)) <==> Delivery(l.channel, tag) !in l.history.inserted
    ensures Delivery(l.channel, tag) !in l.history.acked
  {
    assert !Settled(l.history, Delivery(l.channel, tag));
  }

  lemma CallbackOvertakesIff(l: Ledger, ackOk: bool)
    requires Tracked(l) && l.worker.results != []
    ensures AcksUninserted(l.history, OnCallback(l, ackOk).history) <==> Overtakes(l, Callback(ackOk))
  {
    var tag := l.worker.results[0].delivery.tag;
    var k := OnCallback(l, ackOk).history;
    if Acks(l.service, tag, ackOk) {
      QueuedIffUninserted(l, tag);
      var d := Delivery(l.channel, tag);
      assert k.acked == l.history.acked + [d] && d in k.acked;
    }
  }

  /** The deliveries a resume acknowledges: those listed whose acks can be sent. */
  lemma {:induction false} ResumeAcks(l: Ledger, order: seq<nat>, failing: set<nat>)
    requires l.service.open && !l.service.paused && forall i | 0 <= i < |order| :: order[i] in l.service.book.pending
    ensures var m := ConfirmEach(l, order, failing);
            && m.service.open && !m.service.paused && m.channel == l.channel && m.history.inserted == l.history.inserted
            && (forall d ::
                  d in m.history.acked <==> d in l.history.acked || Acknowledged(l.channel, order, failing, d))
            && (forall t :: t in m.service.book.pending <==>
                            t in l.service.book.pending &&
                              !Acknowledged(l.channel, order, failing, Delivery(l.channel, t)))
  {
    if order != [] {
      var front, last := order[..|order| - 1], order[|order| - 1];
      ResumeAcks(l, front, failing);
      forall d: Delivery { AcknowledgedNext(l.channel, order, failing, d); }
      var m := ConfirmEach(l, front, failing);
      if Acks(m.service, last, last !in failing) {
        assert ConfirmEach(l, order, failing).history.acked == m.history.acked + [Delivery(l.channel, last)];
      }
    }
  }

  predicate Acknowledged(channel: nat, order: seq<nat>, failing: set<nat>, d: Delivery) {
    d.channel == channel && d.tag in order && d.tag !in failing
  }

  lemma AcknowledgedNext(channel: nat, order: seq<nat>, failing: set<nat>, d: Delivery)
    requires order != []
    ensures Acknowledged(channel, order, failing, d) <==>
            Acknowledged(channel, order[..|order| - 1], failing, d) ||
            (d == Delivery(channel, order[|order| - 1]) && d.tag !in failing)
  {
    assert order == order[..|order| - 1] + [order[|order| - 1]];
  }

  lemma {:induction false} ClosedResumeAcks(l: Ledger, order: seq<nat>, failing: set<nat>)
    requires !l.service.open
    ensures ConfirmEach(l, order, failing).history == l.history && !ConfirmEach(l, order, failing).service.open
  {
    if order != [] {
      ClosedResumeAcks(l, order[..|order| - 1], failing);
    }
  }

  lemma ResumeOvertakesIff(l: Ledger, order: seq<nat>, failing: set<nat>, ready: bool)
    requires Tracked(l) && Enabled(l, ResumeCommand(order, failing, ready))
    ensures AcksUninserted(l.history, OnResume(l, order, failing, ready).history) <==>
            Overtakes(l, ResumeCommand(order, failing, ready))
  {
    var resumed := l.(service := l.service.(paused := false));
    var k := ConfirmEach(resumed, order, failing).history;
    if l.service.open {
      ResumeAcks(resumed, order, failing);
      forall i | 0 <= i < |order| ensures Queued(l.worker.jobs, Delivery(l.channel, order[i])) <==>
                                          Delivery(l.channel, order[i]) !in k.inserted
        ensures Delivery(l.channel, order[i]) !in l.history.acked
      {
        QueuedIffUninserted(l, order[i]);
      }
      forall i | 0 <= i < |order| && order[i] !in failing ensures Delivery(l.channel, order[i]) in k.acked {
        assert Acknowledged(l.channel, order, failing, Delivery(l.channel, order[i]));
      }
    } else {
      ClosedResumeAcks(resumed, order, failing);
    }
  }

  /**
   In every state of every run, and for every event: the step acknowledges an unstored delivery if and only if it
   overtakes.
   */
  lemma OvertakesIff(l: Ledger, e: Event)
    requires Tracked(l) && Enabled(l, e)
    ensures AcksUninserted(l.history, Step(l, e).history) <==> Overtakes(l, e)
  {
    match e
    case Callback(ackOk) => CallbackOvertakesIff(l, ackOk);
    case ResumeCommand(order, failing, ready) => ResumeOvertakesIff(l, order, failing, ready);
    case _ => SilentStep(l, e);
  }

  lemma SilentStep(l: Ledger, e: Event)
    requires Enabled(l, e) && !e.Callback? && !e.ResumeCommand?
    ensures Step(l, e).history.acked == l.history.acked
  {
  }

  /**
   A run keeps the envelope of every acknowledged delivery stored, at every one of its points and until a purge names
   it, if and only if no step of it overtakes: a condition on the service and the worker's queue before the step.
   */
  lemma PersistedThroughoutIff(states: seq<Ledger>, events: seq<Event>)
    requires IsRun(states, events)
    ensures (forall i: nat, d | i < |states| && d in states[i].history.acked :: Stored(states, events, i, d)) <==>
            (forall i | 0 <= i < |events| :: !Overtakes(states[i], events[i]))
  {
    if forall i: nat, d | i < |states| && d in states[i].history.acked :: Stored(states, events, i, d) {
      forall i | 0 <= i < |events| ensures !Overtakes(states[i], events[i]) {
        RunTracked(states, events, i);
        OvertakesIff(states[i], events[i]);
        if Overtakes(states[i], events[i]) {
          var d :| d in states[i + 1].history.acked && d !in states[i + 1].history.inserted;
          StoredIff(states, events, i + 1, d);
          assert false;
        }
      }
    }
    if forall i | 0 <= i < |events| :: !Overtakes(states[i], events[i]) {
      forall i: nat, d | i < |states| && d in states[i].history.acked ensures Stored(states, events, i, d) {
        NeverOvertaken(states, events, i);
        StoredIff(states, events, i, d);
      }
    }
  }

  lemma {:induction false} NeverOvertaken(states: seq<Ledger>, events: seq<Event>, i: nat)
    requires IsRun(states, events) && i < |states| && forall k | 0 <= k < |events| :: !Overtakes(states[k], events[k])
    ensures !AckedUninserted(states[i].history)
  {
    if i > 0 {
      NeverOvertaken(states, events, i - 1);
      RunTracked(states, events, i - 1);
      OvertakesIff(states[i - 1], events[i - 1]);
      InsertedStays(states[i - 1], events[i - 1]);
    }
  }

  // ---- Both cases happen ----

  lemma ExtendRun(states: seq<Ledger>, events: seq<Event>, e: Event) returns (longer: seq<Ledger>)
    requires |states| == |events| + 1 && IsRun(states, events) && Enabled(states[|events|], e)
    ensures |longer| == |events| + 2 && IsRun(longer, events + [e])
    ensures longer[|events|] == states[|events|] && longer[|events| + 1] == Step(states[|events|], e)
  {
    longer := states + [Step(states[|events|], e)];
  }

  /** A delivery of the lost channel is still queued for insertion behind the same tag of the new channel. */
  lemma InsertOutlivesChannel() returns (states: seq<Ledger>, events: seq<Event>)
    ensures |states| == |events| + 1 && IsRun(states, events)
    ensures OldInsertFirst(states[|events|])
  {
    states, events := [INITIAL], [];
    assert IsRun(states, events);
    hide IsRun;
    states := ExtendRun(states, events, OpenChannel(true));
    events := events + [OpenChannel(true)];
    states := ExtendRun(states, events, Deliver(1, true, true));
    events := events + [Deliver(1, true, true)];
    states := ExtendRun(states, events, ChannelLost);
    events := events + [ChannelLost];
    states := ExtendRun(states, events, OpenChannel(true));
    events := events + [OpenChannel(true)];
    states := ExtendRun(states, events, Deliver(2, true, true));
    events := events + [Deliver(2, true, true)];
  }

  /**
   A channel lost with an insert in flight: the callback of the old delivery acknowledges the new one, not yet stored.
   */
  lemma AckedBeforePersisted() returns (states: seq<Ledger>, events: seq<Event>)
    ensures |states| == |events| + 1 && IsRun(states, events) && AckedUninserted(states[|events|].history)
  {
    hide IsRun, OldInsertFirst, OnRunJob, OnCallback, AckedUninserted;
    states, events := InsertOutlivesChannel();
    OldCallbackAcksNew(states[|events|]);
    states := ExtendRun(states, events, RunJob);
    events := events + [RunJob];
    states := ExtendRun(states, events, Callback(true));
    events := events + [Callback(true)];
  }

  ghost predicate OldInsertFirst(l: Ledger) {
    && l.worker == Worker([InsertReceived(Delivery(0, 0), 1), InsertReceived(Delivery(1, 0), 2)], [], [])
    && l.channel == 1 && l.service.open && !l.service.paused && l.service.book == Book({0}, {})
    && l.history.inserted == {} && l.history.acked == []
  }

  lemma OldCallbackAcksNew(l: Ledger)
    requires OldInsertFirst(l)
    ensures l.worker.jobs != []
    ensures var m := OnRunJob(l); m.worker.results != [] && AckedUninserted(OnCallback(m, true).history)
  {
    var h := OnCallback(OnRunJob(l), true).history;
    assert h.acked == [Delivery(1, 0)] && h.inserted == {Delivery(0, 0)};
    assert Delivery(1, 0) in h.acked;
  }

  /**
   The same callback during a pause only commits the tag; the resume then acknowledges the delivery, still not stored.
   */
  lemma ResumedBeforePersisted() returns (states: seq<Ledger>, events: seq<Event>)
    ensures |events| > 0 && |states| == |events| + 1 && IsRun(states, events)
    ensures events[|events| - 1].ResumeCommand? && states[|events| - 1].history.acked == []
    ensures AckedUninserted(states[|events|].history)
  {
    hide IsRun, OldInsertFirst, OnRunJob, OnCallback, OnResume, AckedUninserted;
    states, events := InsertOutlivesChannel();
    PausedCallbackCommits(states[|events|]);
    states := ExtendRun(states, events, PauseCommand);
    events := events + [PauseCommand];
    states := ExtendRun(states, events, RunJob);
    events := events + [RunJob];
    states := ExtendRun(states, events, Callback(true));
    events := events + [Callback(true)];
    states := ExtendRun(states, events, ResumeCommand([0], {}, true));
    events := events + [ResumeCommand([0], {}, true)];
  }

  lemma PausedCallbackCommits(l: Ledger)
    requires OldInsertFirst(l)
    ensures var paused := Step(l, PauseCommand);
            && paused.worker.jobs != []
            && var stored := OnRunJob(paused);
               && stored.worker.results != []
               && var committed := OnCallback(stored, true);
                  && committed.history.acked == [] && Enabled(committed, ResumeCommand([0], {}, true))
                  && AckedUninserted(OnResume(committed, [0], {}, true).history)
  {
    var committed := OnCallback(OnRunJob(Step(l, PauseCommand)), true);
    assert committed.history.inserted == {Delivery(0, 0)} && committed.service.book == Book({0}, {0});
    var resumed := committed.(service := committed.service.(paused := false));
    assert [0][..0] == [] && ConfirmEach(resumed, [0], {}) == ConfirmOne(resumed, 0, true);
    assert Delivery(1, 0) in OnResume(committed, [0], {}, true).history.acked;
  }
}
