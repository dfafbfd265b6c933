/**
 From delivery to acknowledgement: the service, the window's callbacks, the FIFO worker and the store.

 A delivery is named by its channel's number and its tag, because tags start again on every channel.
 The store is the list of rows that insert-or-ignore keeps; a row is marked acked by a worker job.
 */
module MqLedger {
  import opened MqService

  type Id = nat

  datatype Delivery = Delivery(channel: nat, tag: nat)

  datatype Row = Row(id: Id, acked: bool)

  datatype Job =
    | InsertReceived(delivery: Delivery, id: Id)
    | InsertSent(id: Id)
    | MarkAcked(id: Id)
    | Purge(ids: set<Id>)

  datatype Result = Inserted(delivery: Delivery, id: Id)

  /** Queued jobs, results on their way back to the window, and the table. */
  datatype Worker = Worker(jobs: seq<Job>, results: seq<Result>, store: seq<Row>)

  /** What has happened: deliveries with their envelope id, inserts that returned, acks in order, rejects. */
  datatype History = History(delivered: map<Delivery, Id>, inserted: set<Delivery>, acked: seq<Delivery>,
                             rejected: set<Delivery>)

  datatype Ledger = Ledger(service: Service, channel: nat, next: nat, ackIds: map<nat, Id>, worker: Worker,
                           history: History)

  datatype Event =
    | OpenChannel(ready: bool)
    | Deliver(id: Id, valid: bool, rejectOk: bool)
    | RunJob
    | Callback(ackOk: bool)
    | PauseCommand
    | ResumeCommand(order: seq<nat>, failing: set<nat>, ready: bool)
    | Publish(id: Id)
    | PurgeCommand(ids: set<Id>)
    | ChannelLost

  const INITIAL :=
    Ledger(Service(false, false, IDLE, EMPTY, []), 0, 0, map[], Worker([], [], []), History(map[], {}, [], {}))

  // ---- Steps ----

  predicate Has(store: seq<Row>, id: Id) {
    exists i | 0 <= i < |store| :: store[i].id == id
  }

  function Insert(store: seq<Row>, id: Id): seq<Row> {
    if Has(store, id) then store else store + [Row(id, false)]
  }

  function Mark(store: seq<Row>, id: Id): seq<Row> {
    seq(|store|, i requires 0 <= i < |store| => if store[i].id == id then store[i].(acked := true) else store[i])
  }

  function Without(store: seq<Row>, ids: set<Id>): seq<Row> {
    if store == [] then [] else
    Without(store[..|store| - 1], ids) + (if store[|store| - 1].id in ids then [] else [store[|store| - 1]])
  }

  predicate Acks(s: Service, tag: nat, ackOk: bool) {
    tag in s.book.pending && !s.paused && s.open && ackOk
  }

  /** The window's reaction to an acknowledged delivery: the row of its envelope is to be marked. */
  function OnDeliveryAcked(l: Ledger, tag: nat): Ledger {
    if tag !in l.ackIds then l
    else l.(ackIds := l.ackIds - {tag}, worker := l.worker.(jobs := l.worker.jobs + [MarkAcked(l.ackIds[tag])]))
  }

  function ConfirmOne(l: Ledger, tag: nat, ackOk: bool): Ledger {
    var m := l.(service := Confirm(l.service, tag, ackOk));
    if !Acks(l.service, tag, ackOk) then m
    else OnDeliveryAcked(m.(history := m.history.(acked := m.history.acked + [Delivery(l.channel, tag)])), tag)
  }

  function ConfirmEach(l: Ledger, order: seq<nat>, failing: set<nat>): Ledger {
    if order == [] then l
    else ConfirmOne(ConfirmEach(l, order[..|order| - 1], failing), order[|order| - 1], order[|order| - 1] !in failing)
  }

  function OnDeliver(l: Ledger, id: Id, valid: bool, rejectOk: bool): Ledger {
    var d := Delivery(l.channel, l.next);
    var m := l.(service := OnReceived(l.service, l.next, valid, rejectOk), next := l.next + 1);
    if valid then
      m.(worker := m.worker.(jobs := m.worker.jobs + [InsertReceived(d, id)]),
         history := m.history.(delivered := m.history.delivered[d := id]))
    else if l.service.open && rejectOk then m.(history := m.history.(rejected := m.history.rejected + {d}))
    else m
  }

  function OnRunJob(l: Ledger): Ledger
    requires l.worker.jobs != []
  {
    var w := l.worker.(jobs := l.worker.jobs[1..]);
    match l.worker.jobs[0]
    case InsertReceived(d, id) =>
      l.(worker := w.(store := Insert(w.store, id), results := w.results + [Inserted(d, id)]),
         history := l.history.(inserted := l.history.inserted + {d}))
    case InsertSent(id) => l.(worker := w.(store := Insert(w.store, id)))
    case MarkAcked(id) => l.(worker := w.(store := Mark(w.store, id)))
    case Purge(ids) => l.(worker := w.(store := Without(w.store, ids)))
  }

  function OnCallback(l: Ledger, ackOk: bool): Ledger
    requires l.worker.results != []
  {
    var r := l.worker.results[0];
    ConfirmOne(l.(worker := l.worker.(results := l.worker.results[1..]), ackIds := l.ackIds[r.delivery.tag := r.id]),
               r.delivery.tag, ackOk)
  }

  function OnResume(l: Ledger, order: seq<nat>, failing: set<nat>, ready: bool): Ledger {
    var m := ConfirmEach(l.(service := l.service.(paused := false)), order, failing);
    if m.service.control.consuming || m.service.control.cancelPending then m
    else m.(service := StartConsuming(m.service, ready))
  }

  function OnChannelLost(l: Ledger): Ledger {
    l.(service := OnDisconnected(l.service), channel := l.channel + 1, next := 0)
  }

  predicate Enabled(l: Ledger, e: Event) {
    match e
    case Deliver(_, _, _) => l.service.open
    case RunJob => l.worker.jobs != []
    case Callback(_) => l.worker.results != []
    case ResumeCommand(order, _, _) => forall i | 0 <= i < |order| :: order[i] in l.service.book.committed
    case _ => true
  }

  function Step(l: Ledger, e: Event): Ledger
    requires Enabled(l, e)
  {
    match e
    case OpenChannel(ready) => l.(service := StartConsuming(l.service, ready))
    case Deliver(id, valid, rejectOk) => OnDeliver(l, id, valid, rejectOk)
    case RunJob => OnRunJob(l)
    case Callback(ackOk) => OnCallback(l, ackOk)
    case PauseCommand => l.(service := Pause(l.service))
    case ResumeCommand(order, failing, ready) => OnResume(l, order, failing, ready)
    case Publish(id) => l.(worker := l.worker.(jobs := l.worker.jobs + [InsertSent(id)]))
    case PurgeCommand(ids) => l.(worker := l.worker.(jobs := l.worker.jobs + [Purge(ids)]))
    case ChannelLost => OnChannelLost(l)
  }

  ghost predicate IsRun(states: seq<Ledger>, events: seq<Event>) {
    && |states| == |events| + 1
    && states[0] == INITIAL
    && forall i | 0 <= i < |events| :: Enabled(states[i], events[i]) && states[i + 1] == Step(states[i], events[i])
  }

  // ---- Accounting: what holds in every run, with any number of channels ----

  /** The delivery has been handed out: its channel is past, or its tag is. */
  predicate Known(channel: nat, next: nat, d: Delivery) {
    d.channel < channel || (d.channel == channel && d.tag < next)
  }

  ghost predicate Settled(h: History, d: Delivery) {
    d in h.acked || d in h.rejected
  }

  ghost predicate NoRepeats(s: seq<Delivery>) {
    forall i, j | 0 <= i < j < |s| :: s[i] != s[j]
  }

  ghost predicate DistinctIds(store: seq<Row>) {
    forall i, j | 0 <= i < j < |store| :: store[i].id != store[j].id
  }

  /** Committed deliveries are pending, pending ones are unsettled, and nothing is settled twice. */
  ghost predicate BooksBalance(book: Book, channel: nat, next: nat, h: History) {
    && book.committed <= book.pending
    && (forall t | t in book.pending ::
          t < next && Delivery(channel, t) in h.delivered && !Settled(h, Delivery(channel, t)))
    && (forall d | Settled(h, d) :: Known(channel, next, d))
    && (forall d | d in h.delivered :: Known(channel, next, d))
    && (forall d | d in h.acked :: d !in h.rejected)
    && NoRepeats(h.acked)
  }

  ghost predicate Balanced(l: Ledger) {
    BooksBalance(l.service.book, l.channel, l.next, l.history) && DistinctIds(l.worker.store)
  }

  lemma ConfirmBalanced(l: Ledger, tag: nat, ackOk: bool)
    requires Balanced(l)
    ensures Balanced(ConfirmOne(l, tag, ackOk))
  {
    var m := ConfirmOne(l, tag, ackOk);
    if Acks(l.service, tag, ackOk) {
      var d := Delivery(l.channel, tag);
      assert !Settled(l.history, d);
      assert m.history.acked == l.history.acked + [d];
      assert forall x :: Settled(m.history, x) <==> Settled(l.history, x) || x == d;
    }
  }

  lemma {:induction false} ConfirmEachBalanced(l: Ledger, order: seq<nat>, failing: set<nat>)
    requires Balanced(l)
    ensures Balanced(ConfirmEach(l, order, failing))
  {
    if order != [] {
      var front, last := order[..|order| - 1], order[|order| - 1];
      ConfirmEachBalanced(l, front, failing);
      ConfirmBalanced(ConfirmEach(l, front, failing), last, last !in failing);
    }
  }

  lemma DeliverBalanced(l: Ledger, id: Id, valid: bool, rejectOk: bool)
    requires Balanced(l)
    ensures Balanced(OnDeliver(l, id, valid, rejectOk))
  {
    var d := Delivery(l.channel, l.next);
    var m := OnDeliver(l, id, valid, rejectOk);
    assert !Known(l.channel, l.next, d) && !Settled(l.history, d);
    assert forall x :: Settled(m.history, x) ==> Settled(l.history, x) || x == d;
    assert forall x :: Known(l.channel, l.next, x) ==> Known(m.channel, m.next, x);
  }

  lemma {:induction false} WithoutDistinct(store: seq<Row>, ids: set<Id>)
    requires DistinctIds(store)
    ensures DistinctIds(Without(store, ids))
    ensures forall i | 0 <= i < |Without(store, ids)| :: Without(store, ids)[i] in store
  {
    if store != [] {
      WithoutDistinct(store[..|store| - 1], ids);
    }
  }

  lemma RunJobBalanced(l: Ledger)
    requires Balanced(l) && l.worker.jobs != []
    ensures Balanced(OnRunJob(l))
  {
    var m := OnRunJob(l);
    assert forall x :: Settled(m.history, x) <==> Settled(l.history, x);
    match l.worker.jobs[0]
    case InsertReceived(_, _) =>
    case InsertSent(_) =>
    case MarkAcked(_) =>
    case Purge(ids) => WithoutDistinct(l.worker.store, ids);
  }

  /** Every event of every run, across channels, keeps the books balanced. */
  lemma StepBalanced(l: Ledger, e: Event)
    requires Balanced(l) && Enabled(l, e)
    ensures Balanced(Step(l, e))
  {
    match e
    case OpenChannel(_) =>
    case Deliver(id, valid, rejectOk) => DeliverBalanced(l, id, valid, rejectOk);
    case RunJob => RunJobBalanced(l);
    case Callback(ackOk) =>
      var r := l.worker.results[0];
      var noted := l.ackIds[r.delivery.tag := r.id];
      var m := l.(worker := l.worker.(results := l.worker.results[1..]), ackIds := noted);
      ConfirmBalanced(m, r.delivery.tag, ackOk);
    case PauseCommand =>
    case ResumeCommand(order, failing, _) =>
      ConfirmEachBalanced(l.(service := l.service.(paused := false)), order, failing);
    case Publish(_) =>
    case PurgeCommand(_) =>
    case ChannelLost =>
      assert forall x :: Known(l.channel, l.next, x) ==> Known(l.channel + 1, 0, x);
  }

  lemma {:induction false} RunBalanced(states: seq<Ledger>, events: seq<Event>, i: nat)
    requires IsRun(states, events) && i < |states|
    ensures Balanced(states[i])
  {
    if i > 0 {
      RunBalanced(states, events, i - 1);
      StepBalanced(states[i - 1], events[i - 1]);
    }
  }

  /** While paused, nothing but the resume command acknowledges. */
  lemma NoAckWhilePaused(l: Ledger, e: Event)
    requires Enabled(l, e) && l.service.paused && !e.ResumeCommand?
    ensures Step(l, e).history.acked == l.history.acked
  {
  }

  // ---- Persist before ack ----

  /** Some delivery of this envelope has been acknowledged. */
  ghost predicate AckedId(h: History, id: Id) {
    exists d | d in h.acked :: d in h.delivered && h.delivered[d] == id
  }

  ghost predicate Of(h: History, d: Delivery, id: Id) {
    d in h.delivered && h.delivered[d] == id
  }

  ghost predicate JobFits(job: Job, channel: nat, h: History) {
    && (job.InsertReceived? ==> job.delivery.channel == channel && Of(h, job.delivery, job.id))
    && (job.MarkAcked? ==> AckedId(h, job.id))
  }

  ghost predicate ResultFits(r: Result, channel: nat, h: History) {
    r.delivery.channel == channel && r.delivery in h.inserted && Of(h, r.delivery, r.id)
  }

  /** A delivery the service may acknowledge: its insert has returned and its envelope id is on record. */
  ghost predicate MayAck(channel: nat, tag: nat, ackIds: map<nat, Id>, h: History) {
    Delivery(channel, tag) in h.inserted && tag in ackIds && Of(h, Delivery(channel, tag), ackIds[tag])
  }

  ghost predicate WorkerFits(w: Worker, channel: nat, h: History) {
    && (forall i | 0 <= i < |w.jobs| :: JobFits(w.jobs[i], channel, h))
    && (forall i | 0 <= i < |w.results| :: ResultFits(w.results[i], channel, h))
    && (forall i | 0 <= i < |w.store| :: w.store[i].acked ==> AckedId(h, w.store[i].id))
  }

  ghost predicate Persisted(l: Ledger) {
    && (forall d | d in l.history.acked :: d in l.history.inserted)
    && WorkerFits(l.worker, l.channel, l.history)
    && (forall t | t in l.service.book.committed :: MayAck(l.channel, t, l.ackIds, l.history))
  }

  /** The channel is given up only when no received message is between its delivery and its insert callback. */
  ghost predicate Orderly(l: Ledger, e: Event) {
    e.ChannelLost? ==>
      l.worker.results == [] && forall i | 0 <= i < |l.worker.jobs| :: !l.worker.jobs[i].InsertReceived?
  }

  /** What was true of the history stays true as it grows. */
  ghost predicate Grows(h: History, k: History) {
    && (forall d | d in h.delivered :: d in k.delivered && k.delivered[d] == h.delivered[d])
    && h.inserted <= k.inserted
    && (forall d | d in h.acked :: d in k.acked)
  }

  lemma WorkerStillFits(w: Worker, channel: nat, h: History, k: History)
    requires WorkerFits(w, channel, h) && Grows(h, k)
    ensures WorkerFits(w, channel, k)
  {
    assert forall id | AckedId(h, id) :: AckedId(k, id);
    forall i | 0 <= i < |w.jobs| ensures JobFits(w.jobs[i], channel, k) {
      assert JobFits(w.jobs[i], channel, h);
    }
    forall i | 0 <= i < |w.results| ensures ResultFits(w.results[i], channel, k) {
      assert ResultFits(w.results[i], channel, h);
    }
  }

  lemma ConfirmPersists(l: Ledger, tag: nat, ackOk: bool)
    requires Persisted(l) && (tag in l.service.book.pending ==> MayAck(l.channel, tag, l.ackIds, l.history))
    ensures Persisted(ConfirmOne(l, tag, ackOk))
  {
    var m := ConfirmOne(l, tag, ackOk);
    if Acks(l.service, tag, ackOk) {
      var d := Delivery(l.channel, tag);
      assert d in m.history.acked && AckedId(m.history, l.ackIds[tag]);
      WorkerStillFits(l.worker, l.channel, l.history, m.history);
      assert m.worker.jobs == l.worker.jobs + [MarkAcked(l.ackIds[tag])];
      forall t | t in m.service.book.committed ensures MayAck(m.channel, t, m.ackIds, m.history) {
        assert MayAck(l.channel, t, l.ackIds, l.history);
      }
    }
  }

  /** Each listed delivery is still committed, or no longer pending. */
  ghost predicate Resumable(book: Book, order: seq<nat>) {
    forall i | 0 <= i < |order| :: order[i] in book.committed || order[i] !in book.pending
  }

  lemma {:induction false} ConfirmEachPersists(l: Ledger, order: seq<nat>, failing: set<nat>, all: seq<nat>)
    requires Persisted(l) && Resumable(l.service.book, all) && forall i | 0 <= i < |order| :: order[i] in all
    requires !l.service.paused
    ensures var m := ConfirmEach(l, order, failing);
            Persisted(m) && Resumable(m.service.book, all) && m.channel == l.channel && !m.service.paused
  {
    if order != [] {
      var front, last := order[..|order| - 1], order[|order| - 1];
      ConfirmEachPersists(l, front, failing, all);
      assert last in all;
      ConfirmPersists(ConfirmEach(l, front, failing), last, last !in failing);
    }
  }

  lemma CallbackPersists(l: Ledger, ackOk: bool)
    requires Persisted(l) && l.worker.results != []
    ensures Persisted(OnCallback(l, ackOk))
  {
    var r := l.worker.results[0];
    assert ResultFits(r, l.channel, l.history);
    var m := l.(worker := l.worker.(results := l.worker.results[1..]), ackIds := l.ackIds[r.delivery.tag := r.id]);
    forall t | t in m.service.book.committed ensures MayAck(m.channel, t, m.ackIds, m.history) {
      assert MayAck(l.channel, t, l.ackIds, l.history);
    }
    assert Delivery(l.channel, r.delivery.tag) == r.delivery;
    ConfirmPersists(m, r.delivery.tag, ackOk);
  }

  lemma DeliverPersists(l: Ledger, id: Id, valid: bool, rejectOk: bool)
    requires Balanced(l) && Persisted(l)
    ensures Persisted(OnDeliver(l, id, valid, rejectOk))
  {
    var m := OnDeliver(l, id, valid, rejectOk);
    var d := Delivery(l.channel, l.next);
    assert !Known(l.channel, l.next, d) && d !in l.history.delivered;
    assert Grows(l.history, m.history);
    WorkerStillFits(l.worker, l.channel, l.history, m.history);
    forall t | t in m.service.book.committed ensures MayAck(m.channel, t, m.ackIds, m.history) {
      assert MayAck(l.channel, t, l.ackIds, l.history);
    }
  }

  lemma {:induction false} WithoutFits(store: seq<Row>, ids: set<Id>, h: History)
    requires forall i | 0 <= i < |store| :: store[i].acked ==> AckedId(h, store[i].id)
    ensures forall i | 0 <= i < |Without(store, ids)| ::
              Without(store, ids)[i].acked ==> AckedId(h, Without(store, ids)[i].id)
  {
    if store != [] {
      WithoutFits(store[..|store| - 1], ids, h);
    }
  }

  lemma RunJobPersists(l: Ledger)
    requires Persisted(l) && l.worker.jobs != []
    ensures Persisted(OnRunJob(l))
  {
    var m := OnRunJob(l);
    assert JobFits(l.worker.jobs[0], l.channel, l.history);
    assert Grows(l.history, m.history);
    WorkerStillFits(l.worker, l.channel, l.history, m.history);
    forall t | t in m.service.book.committed ensures MayAck(m.channel, t, m.ackIds, m.history) {
      assert MayAck(l.channel, t, l.ackIds, l.history);
    }
    match l.worker.jobs[0]
    case InsertReceived(_, _) =>
    case InsertSent(_) =>
    case MarkAcked(_) =>
    case Purge(ids) => WithoutFits(l.worker.store, ids, m.history);
  }

  lemma StepPersists(l: Ledger, e: Event)
    requires Balanced(l) && Persisted(l) && Enabled(l, e) && Orderly(l, e)
    ensures Persisted(Step(l, e))
  {
    match e
    case OpenChannel(_) =>
    case Deliver(id, valid, rejectOk) => DeliverPersists(l, id, valid, rejectOk);
    case RunJob => RunJobPersists(l);
    case Callback(ackOk) => CallbackPersists(l, ackOk);
    case PauseCommand =>
    case ResumeCommand(order, failing, _) =>
      ConfirmEachPersists(l.(service := l.service.(paused := false)), order, failing, order);
    case Publish(_) =>
    case PurgeCommand(_) =>
    case ChannelLost =>
  }

  lemma {:induction false} RunPersists(states: seq<Ledger>, events: seq<Event>, i: nat)
    requires IsRun(states, events) && i < |states| && forall k | 0 <= k < |events| :: Orderly(states[k], events[k])
    ensures Balanced(states[i]) && Persisted(states[i])
  {
    if i > 0 {
      RunPersists(states, events, i - 1);
      StepBalanced(states[i - 1], events[i - 1]);
      StepPersists(states[i - 1], events[i - 1]);
    }
  }
}
