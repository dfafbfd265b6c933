/**
 What the store holds: which jobs have run, what they left behind, and that what was acknowledged is there.

 Statements about a run name the step at which a job ran, so they speak of the store itself.
 */
module MqStored {
  import opened MqService
  import opened MqLedger

  // ---- What each job does to the store ----

  ghost predicate Marked(store: seq<Row>, id: Id) {
    Row(id, true) in store
  }

  /** Insert-or-ignore: the row is there afterwards, and every row that was there still is, unchanged. */
  lemma InsertExact(store: seq<Row>, id: Id)
    ensures store <= Insert(store, id) && Has(Insert(store, id), id)
    ensures Insert(store, id) == if Has(store, id) then store else store + [Row(id, false)]
  {
    if !Has(store, id) {
      assert Insert(store, id)[|store|].id == id;
    }
  }

  lemma MarkExact(store: seq<Row>, id: Id)
    ensures |Mark(store, id)| == |store|
    ensures forall i | 0 <= i < |store| ::
              && Mark(store, id)[i].id == store[i].id
              && (Mark(store, id)[i].acked <==> store[i].acked || store[i].id == id)
  {
  }

  /** A purge deletes exactly the rows it names. */
  lemma {:induction false} PurgeExact(store: seq<Row>, ids: set<Id>, row: Row)
    ensures row in Without(store, ids) <==> row in store && row.id !in ids
  {
    if store != [] {
      var n := |store| - 1;
      PurgeExact(store[..n], ids, row);
      assert store == store[..n] + [store[n]];
    }
  }

  /** Publishing and purging go through the same queue. */
  lemma CommandsQueue(l: Ledger, id: Id, ids: set<Id>)
    ensures Step(l, Publish(id)) == l.(worker := l.worker.(jobs := l.worker.jobs + [InsertSent(id)]))
    ensures Step(l, PurgeCommand(ids)) == l.(worker := l.worker.(jobs := l.worker.jobs + [Purge(ids)]))
  {
  }

  // ---- Jobs in a run ----

  /** Step `k` of the run is the worker running this job. */
  predicate Ran(states: seq<Ledger>, events: seq<Event>, k: nat, job: Job) {
    k < |events| && k < |states| && events[k].RunJob? && states[k].worker.jobs != [] && states[k].worker.jobs[0] == job
  }

  predicate PurgesAt(states: seq<Ledger>, events: seq<Event>, m: nat, id: Id) {
    && m < |events| && m < |states| && events[m].RunJob? && states[m].worker.jobs != []
    && states[m].worker.jobs[0].Purge? && id in states[m].worker.jobs[0].ids
  }

  /** A purge that names the envelope ran after step `k` and before point `i`. */
  ghost predicate PurgedBetween(states: seq<Ledger>, events: seq<Event>, k: nat, i: nat, id: Id) {
    exists m: nat :: k < m < i && PurgesAt(states, events, m, id)
  }

  lemma StoreChanges(l: Ledger, e: Event)
    requires Enabled(l, e)
    ensures !e.RunJob? ==> Step(l, e).worker.store == l.worker.store
  {
    if e.ResumeCommand? {
      ConfirmEachStore(l.(service := l.service.(paused := false)), e.order, e.failing);
    }
  }

  lemma {:induction false} ConfirmEachStore(l: Ledger, order: seq<nat>, failing: set<nat>)
    ensures ConfirmEach(l, order, failing).worker.store == l.worker.store
  {
    if order != [] {
      ConfirmEachStore(l, order[..|order| - 1], failing);
    }
  }

  /** Rows, and marks on them, survive every step that is not a purge of their envelope. */
  lemma StepKeepsRow(l: Ledger, e: Event, id: Id)
    requires Enabled(l, e)
    requires !(e.RunJob? && l.worker.jobs[0].Purge? && id in l.worker.jobs[0].ids)
    ensures Has(l.worker.store, id) ==> Has(Step(l, e).worker.store, id)
    ensures Marked(l.worker.store, id) ==> Marked(Step(l, e).worker.store, id)
  {
    var store := l.worker.store;
    if e.RunJob? {
      match l.worker.jobs[0]
      case InsertReceived(_, other) => RowsAfterInsert(store, other, id);
      case InsertSent(other) => RowsAfterInsert(store, other, id);
      case MarkAcked(other) => RowsAfterMark(store, other, id);
      case Purge(ids) => RowsAfterPurge(store, ids, id);
    } else {
      StoreChanges(l, e);
    }
  }

  lemma RowsAfterInsert(store: seq<Row>, other: Id, id: Id)
    ensures Has(store, id) ==> Has(Insert(store, other), id)
    ensures Marked(store, id) ==> Marked(Insert(store, other), id)
  {
    InsertExact(store, other);
    if Has(store, id) {
      var i :| 0 <= i < |store| && store[i].id == id;
      assert Insert(store, other)[i] == store[i];
    }
  }

  lemma RowsAfterMark(store: seq<Row>, other: Id, id: Id)
    ensures Has(store, id) ==> Has(Mark(store, other), id)
    ensures Marked(store, id) || (Has(store, id) && id == other) ==> Marked(Mark(store, other), id)
  {
    MarkExact(store, other);
    if Has(store, id) {
      var i :| 0 <= i < |store| && store[i].id == id;
      assert Mark(store, other)[i].id == id;
      assert id == other ==> Mark(store, other)[i] == Row(id, true);
    }
    if Marked(store, id) {
      var i :| 0 <= i < |store| && store[i] == Row(id, true);
      assert Mark(store, other)[i] == Row(id, true);
    }
  }

  lemma RowsAfterPurge(store: seq<Row>, ids: set<Id>, id: Id)
    requires id !in ids
    ensures Has(store, id) ==> Has(Without(store, ids), id)
    ensures Marked(store, id) ==> Marked(Without(store, ids), id)
  {
    PurgeExact(store, ids, Row(id, true));
    if Has(store, id) {
      var i :| 0 <= i < |store| && store[i].id == id;
      PurgeExact(store, ids, store[i]);
      var j :| 0 <= j < |Without(store, ids)| && Without(store, ids)[j] == store[i];
    }
  }

  /** A purged envelope is gone when the purge has run. */
  lemma PurgeTakes(states: seq<Ledger>, events: seq<Event>, k: nat, id: Id)
    requires IsRun(states, events) && PurgesAt(states, events, k, id)
    ensures !Has(states[k + 1].worker.store, id)
  {
    var store, ids := states[k].worker.store, states[k].worker.jobs[0].ids;
    if Has(Without(store, ids), id) {
      var i :| 0 <= i < |Without(store, ids)| && Without(store, ids)[i].id == id;
      PurgeExact(store, ids, Without(store, ids)[i]);
    }
  }

  /** What an insert job wrote, of a received or a published message, is there until a purge names it. */
  lemma {:induction false} RowStays(states: seq<Ledger>, events: seq<Event>, k: nat, i: nat, job: Job)
    requires IsRun(states, events) && k < i < |states| && Ran(states, events, k, job)
    requires job.InsertReceived? || job.InsertSent?
    ensures PurgedBetween(states, events, k, i, job.id) || Has(states[i].worker.store, job.id)
  {
    if i == k + 1 {
      InsertExact(states[k].worker.store, job.id);
    } else {
      RowStays(states, events, k, i - 1, job);
      if PurgesAt(states, events, i - 1, job.id) || PurgedBetween(states, events, k, i - 1, job.id) {
        LaterPurge(states, events, k, i, job.id);
      } else {
        StepKeepsRow(states[i - 1], events[i - 1], job.id);
      }
    }
  }

  lemma LaterPurge(states: seq<Ledger>, events: seq<Event>, k: nat, i: nat, id: Id)
    requires k < i - 1 && (PurgesAt(states, events, i - 1, id) || PurgedBetween(states, events, k, i - 1, id))
    ensures PurgedBetween(states, events, k, i, id)
  {
    if !PurgesAt(states, events, i - 1, id) {
      var m: nat :| k < m < i - 1 && PurgesAt(states, events, m, id);
      assert k < m < i && PurgesAt(states, events, m, id);
    }
  }

  /** A row that a mark job found is marked until a purge names it. */
  lemma {:induction false} MarkStays(states: seq<Ledger>, events: seq<Event>, k: nat, i: nat, id: Id)
    requires IsRun(states, events) && k < i < |states|
    requires Ran(states, events, k, MarkAcked(id)) && Has(states[k].worker.store, id)
    ensures PurgedBetween(states, events, k, i, id) || Marked(states[i].worker.store, id)
  {
    if i == k + 1 {
      RowsAfterMark(states[k].worker.store, id, id);
    } else {
      MarkStays(states, events, k, i - 1, id);
      if PurgesAt(states, events, i - 1, id) || PurgedBetween(states, events, k, i - 1, id) {
        LaterPurge(states, events, k, i, id);
      } else {
        StepKeepsRow(states[i - 1], events[i - 1], id);
      }
    }
  }

  // ---- Every delivery is inserted or queued ----

  /** The insert of the delivery is still waiting for the worker. */
  predicate Queued(jobs: seq<Job>, d: Delivery) {
    exists i | 0 <= i < |jobs| :: jobs[i].InsertReceived? && jobs[i].delivery == d
  }

  ghost predicate QueuedOnce(jobs: seq<Job>) {
    forall i, j | 0 <= i < j < |jobs| ::
      jobs[i].InsertReceived? && jobs[j].InsertReceived? ==> jobs[i].delivery != jobs[j].delivery
  }

  /** Every delivery ever handed out is either inserted or queued to be, never both, and queued once. */
  ghost predicate InFlight(jobs: seq<Job>, h: History) {
    && QueuedOnce(jobs)
    && (forall d | d in h.delivered :: d in h.inserted || Queued(jobs, d))
    && (forall i | 0 <= i < |jobs| && jobs[i].InsertReceived? ::
          Of(h, jobs[i].delivery, jobs[i].id) && jobs[i].delivery !in h.inserted)
  }

  lemma QueuedNext(jobs: seq<Job>, job: Job, d: Delivery)
    ensures Queued(jobs + [job], d) <==> Queued(jobs, d) || (job.InsertReceived? && job.delivery == d)
  {
    if Queued(jobs, d) {
      var i :| 0 <= i < |jobs| && jobs[i].InsertReceived? && jobs[i].delivery == d;
      assert (jobs + [job])[i] == jobs[i];
    }
    if job.InsertReceived? && job.delivery == d {
      assert (jobs + [job])[|jobs|] == job;
    }
  }

  /** Jobs that insert nothing leave the queue of inserts as it was. */
  lemma OtherJob(jobs: seq<Job>, job: Job, h: History)
    requires InFlight(jobs, h) && !job.InsertReceived?
    ensures InFlight(jobs + [job], h)
  {
    forall d | d in h.delivered ensures d in h.inserted || Queued(jobs + [job], d) {
      QueuedNext(jobs, job, d);
    }
  }

  lemma ConfirmInFlight(l: Ledger, tag: nat, ackOk: bool)
    requires InFlight(l.worker.jobs, l.history)
    ensures var m := ConfirmOne(l, tag, ackOk);
            && InFlight(m.worker.jobs, m.history)
            && m.history.inserted == l.history.inserted && m.history.delivered == l.history.delivered
  {
    if tag in l.ackIds {
      OtherJob(l.worker.jobs, MarkAcked(l.ackIds[tag]), l.history);
    }
  }

  lemma {:induction false} ConfirmEachInFlight(l: Ledger, order: seq<nat>, failing: set<nat>)
    requires InFlight(l.worker.jobs, l.history)
    ensures var m := ConfirmEach(l, order, failing);
            && InFlight(m.worker.jobs, m.history)
            && m.history.inserted == l.history.inserted && m.history.delivered == l.history.delivered
  {
    if order != [] {
      var front, last := order[..|order| - 1], order[|order| - 1];
      ConfirmEachInFlight(l, front, failing);
      ConfirmInFlight(ConfirmEach(l, front, failing), last, last !in failing);
    }
  }

  lemma DeliverInFlight(l: Ledger, id: Id, valid: bool, rejectOk: bool)
    requires Balanced(l) && InFlight(l.worker.jobs, l.history) && l.history.inserted <= l.history.delivered.Keys
    ensures var m := OnDeliver(l, id, valid, rejectOk); InFlight(m.worker.jobs, m.history)
  {
    var d := Delivery(l.channel, l.next);
    var m := OnDeliver(l, id, valid, rejectOk);
    assert !Known(l.channel, l.next, d) && d !in l.history.delivered;
    if valid {
      var job := InsertReceived(d, id);
      forall x | x in m.history.delivered ensures x in m.history.inserted || Queued(m.worker.jobs, x) {
        QueuedNext(l.worker.jobs, job, x);
      }
    }
  }

  lemma RunJobInFlight(l: Ledger)
    requires InFlight(l.worker.jobs, l.history) && l.worker.jobs != []
    ensures InFlight(OnRunJob(l).worker.jobs, OnRunJob(l).history)
  {
    var jobs, m := l.worker.jobs, OnRunJob(l);
    forall d | d in m.history.delivered ensures d in m.history.inserted || Queued(jobs[1..], d) {
      if d !in l.history.inserted {
        var i :| 0 <= i < |jobs| && jobs[i].InsertReceived? && jobs[i].delivery == d;
        if i > 0 {
          assert jobs[1..][i - 1] == jobs[i];
        }
      }
    }
    forall i | 0 <= i < |jobs[1..]| && jobs[1..][i].InsertReceived?
      ensures Of(m.history, jobs[1..][i].delivery, jobs[1..][i].id) && jobs[1..][i].delivery !in m.history.inserted
    {
      assert jobs[1..][i] == jobs[i + 1];
    }
  }

  ghost predicate Tracked(l: Ledger) {
    Balanced(l) && InFlight(l.worker.jobs, l.history) && l.history.inserted <= l.history.delivered.Keys
  }

  lemma StepTracked(l: Ledger, e: Event)
    requires Tracked(l) && Enabled(l, e)
    ensures Tracked(Step(l, e))
  {
    StepBalanced(l, e);
    hide Balanced, InFlight, ConfirmOne, ConfirmEach;
    match e
    case OpenChannel(_) =>
    case Deliver(id, valid, rejectOk) => DeliverInFlight(l, id, valid, rejectOk);
    case RunJob =>
      RunJobInFlight(l);
      HeadDelivered(l);
    case Callback(ackOk) =>
      var r := l.worker.results[0];
      var m := l.(worker := l.worker.(results := l.worker.results[1..]), ackIds := l.ackIds[r.delivery.tag := r.id]);
      ConfirmInFlight(m, r.delivery.tag, ackOk);
    case PauseCommand =>
    case ResumeCommand(order, failing, _) =>
      ConfirmEachInFlight(l.(service := l.service.(paused := false)), order, failing);
    case Publish(id) => OtherJob(l.worker.jobs, InsertSent(id), l.history);
    case PurgeCommand(ids) => OtherJob(l.worker.jobs, Purge(ids), l.history);
    case ChannelLost =>
  }

  lemma HeadDelivered(l: Ledger)
    requires InFlight(l.worker.jobs, l.history) && l.worker.jobs != []
    ensures l.worker.jobs[0].InsertReceived? ==> l.worker.jobs[0].delivery in l.history.delivered
  {
  }

  lemma {:induction false} RunTracked(states: seq<Ledger>, events: seq<Event>, i: nat)
    requires IsRun(states, events) && i < |states|
    ensures Tracked(states[i])
  {
    if i > 0 {
      RunTracked(states, events, i - 1);
      StepTracked(states[i - 1], events[i - 1]);
    }
  }

  lemma {:induction false} ConfirmEachInserted(l: Ledger, order: seq<nat>, failing: set<nat>)
    ensures ConfirmEach(l, order, failing).history.inserted == l.history.inserted
  {
    if order != [] {
      ConfirmEachInserted(l, order[..|order| - 1], failing);
    }
  }

  lemma InsertedStays(l: Ledger, e: Event)
    requires Enabled(l, e)
    ensures l.history.inserted <= Step(l, e).history.inserted
  {
    if e.ResumeCommand? {
      ConfirmEachInserted(l.(service := l.service.(paused := false)), e.order, e.failing);
    }
  }

  // ---- Inserted means: its job has run ----

  lemma {:induction false} ConfirmEachDelivered(l: Ledger, order: seq<nat>, failing: set<nat>)
    ensures ConfirmEach(l, order, failing).history.delivered == l.history.delivered
  {
    if order != [] {
      ConfirmEachDelivered(l, order[..|order| - 1], failing);
    }
  }

  lemma DeliveredStays(l: Ledger, e: Event, d: Delivery)
    requires Tracked(l) && Enabled(l, e) && d in l.history.delivered
    ensures Of(Step(l, e).history, d, l.history.delivered[d])
  {
    if e.ResumeCommand? {
      ConfirmEachDelivered(l.(service := l.service.(paused := false)), e.order, e.failing);
    } else if e.Deliver? {
      assert !Known(l.channel, l.next, Delivery(l.channel, l.next));
    }
  }

  lemma InsertedNow(l: Ledger, e: Event, d: Delivery)
    requires Tracked(l) && Enabled(l, e) && d in Step(l, e).history.inserted && d !in l.history.inserted
    ensures e.RunJob? && d in l.history.delivered && l.worker.jobs[0] == InsertReceived(d, l.history.delivered[d])
  {
    if e.ResumeCommand? {
      ConfirmEachInserted(l.(service := l.service.(paused := false)), e.order, e.failing);
    }
  }

  /** The step at which the worker inserted this delivery, under its own envelope id. */
  lemma {:induction false} InsertStep(states: seq<Ledger>, events: seq<Event>, i: nat, d: Delivery) returns (k: nat)
    requires IsRun(states, events) && i < |states| && d in states[i].history.inserted
    ensures k < i && d in states[i].history.delivered
    ensures Ran(states, events, k, InsertReceived(d, states[i].history.delivered[d]))
  {
    assert i > 0;
    RunTracked(states, events, i - 1);
    if d in states[i - 1].history.inserted {
      k := InsertStep(states, events, i - 1, d);
    } else {
      InsertedNow(states[i - 1], events[i - 1], d);
      k := i - 1;
    }
    DeliveredStays(states[i - 1], events[i - 1], d);
  }

  /** The worker has inserted the delivery's envelope, and its row is in the store unless a purge named it since. */
  ghost predicate StoredBy(states: seq<Ledger>, events: seq<Event>, i: nat, d: Delivery, k: nat) {
    && i < |states| && k < i && d in states[i].history.delivered
    && var id := states[i].history.delivered[d];
       && Ran(states, events, k, InsertReceived(d, id))
       && (PurgedBetween(states, events, k, i, id) || Has(states[i].worker.store, id))
  }

  ghost predicate Stored(states: seq<Ledger>, events: seq<Event>, i: nat, d: Delivery) {
    exists k: nat :: StoredBy(states, events, i, d, k)
  }

  lemma {:induction false} RanIsInserted(states: seq<Ledger>, events: seq<Event>, k: nat, i: nat, d: Delivery, id: Id)
    requires IsRun(states, events) && k < i < |states| && Ran(states, events, k, InsertReceived(d, id))
    ensures d in states[i].history.inserted
  {
    if i > k + 1 {
      RanIsInserted(states, events, k, i - 1, d, id);
      InsertedStays(states[i - 1], events[i - 1]);
    }
  }

  /** The record of inserts says exactly what the store shows. */
  lemma StoredIff(states: seq<Ledger>, events: seq<Event>, i: nat, d: Delivery)
    requires IsRun(states, events) && i < |states|
    ensures Stored(states, events, i, d) <==> d in states[i].history.inserted
  {
    if d in states[i].history.inserted {
      var k := InsertStep(states, events, i, d);
      RowStays(states, events, k, i, InsertReceived(d, states[i].history.delivered[d]));
      assert StoredBy(states, events, i, d, k);
    }
    if Stored(states, events, i, d) {
      var k: nat :| StoredBy(states, events, i, d, k);
      RanIsInserted(states, events, k, i, d, states[i].history.delivered[d]);
    }
  }

  // ---- Main results ----

  /**
   At every point of every orderly run: an acknowledged delivery has been inserted and its row is in the store unless
   purged since, no delivery is settled twice, the store has one row per envelope id, and a row marked acked has an
   acknowledged delivery.
   */
  lemma PersistBeforeAck(states: seq<Ledger>, events: seq<Event>, i: nat)
    requires IsRun(states, events) && i < |states| && forall k | 0 <= k < |events| :: Orderly(states[k], events[k])
    ensures var l := states[i];
            && (forall d | d in l.history.acked :: Stored(states, events, i, d) && d !in l.history.rejected)
            && NoRepeats(l.history.acked) && DistinctIds(l.worker.store)
            && (forall r | r in l.worker.store && r.acked :: AckedId(l.history, r.id))
            && l.service.book.committed <= l.service.book.pending
  {
    RunPersists(states, events, i);
    forall d | d in states[i].history.acked ensures Stored(states, events, i, d) {
      StoredIff(states, events, i, d);
    }
  }

  // ---- Acknowledged rows get marked ----

  ghost predicate MarkQueued(l: Ledger, d: Delivery) {
    d in l.history.delivered && MarkAcked(l.history.delivered[d]) in l.worker.jobs
  }

  lemma ConfirmQueuesMark(l: Ledger, tag: nat, ackOk: bool)
    requires tag in l.service.book.pending ==> MayAck(l.channel, tag, l.ackIds, l.history)
    ensures var m := ConfirmOne(l, tag, ackOk);
            && (forall d | d in m.history.acked && d !in l.history.acked :: MarkQueued(m, d))
            && (forall job | job in l.worker.jobs :: job in m.worker.jobs) && m.history.delivered == l.history.delivered
            && (Acks(l.service, tag, ackOk) ==> m.ackIds == l.ackIds - {tag})
  {
    if Acks(l.service, tag, ackOk) {
      var m := ConfirmOne(l, tag, ackOk);
      assert m.worker.jobs == l.worker.jobs + [MarkAcked(l.ackIds[tag])];
    }
  }

  lemma {:induction false} ConfirmEachQueuesMarks(l: Ledger, order: seq<nat>, failing: set<nat>, all: seq<nat>)
    requires Persisted(l) && Resumable(l.service.book, all) && forall i | 0 <= i < |order| :: order[i] in all
    requires !l.service.paused
    ensures var m := ConfirmEach(l, order, failing);
            && (forall d | d in m.history.acked && d !in l.history.acked :: MarkQueued(m, d))
            && (forall job | job in l.worker.jobs :: job in m.worker.jobs) && m.history.delivered == l.history.delivered
  {
    if order != [] {
      var front, last := order[..|order| - 1], order[|order| - 1];
      ConfirmEachQueuesMarks(l, front, failing, all);
      ConfirmEachPersists(l, front, failing, all);
      assert last in all;
      var m := ConfirmEach(l, front, failing);
      ConfirmQueuesMark(m, last, last !in failing);
    }
  }

  lemma CallbackQueuesMark(l: Ledger, ackOk: bool)
    requires Persisted(l) && l.worker.results != []
    ensures var m := OnCallback(l, ackOk);
            && (forall d | d in m.history.acked && d !in l.history.acked :: MarkQueued(m, d))
            && (forall job | job in l.worker.jobs :: job in m.worker.jobs) && m.history.delivered == l.history.delivered
  {
    var r := l.worker.results[0];
    assert ResultFits(r, l.channel, l.history);
    assert Delivery(l.channel, r.delivery.tag) == r.delivery;
    var noted := l.ackIds[r.delivery.tag := r.id];
    ConfirmQueuesMark(l.(worker := l.worker.(results := l.worker.results[1..]), ackIds := noted), r.delivery.tag,
                      ackOk);
  }

  /** A step that acknowledges queues the mark; only running it takes it from the queue. */
  lemma StepQueuesMark(l: Ledger, e: Event, d: Delivery)
    requires Persisted(l) && Enabled(l, e) && d in Step(l, e).history.acked && Tracked(l)
    requires d in l.history.acked ==> MarkQueued(l, d)
    ensures MarkQueued(Step(l, e), d) ||
            (d in l.history.acked && e.RunJob? && l.worker.jobs[0] == MarkAcked(l.history.delivered[d]))
  {
    hide ConfirmOne, ConfirmEach;
    match e
    case Callback(ackOk) => CallbackQueuesMark(l, ackOk);
    case ResumeCommand(order, failing, _) =>
      ConfirmEachQueuesMarks(l.(service := l.service.(paused := false)), order, failing, order);
    case RunJob =>
      if l.worker.jobs[0] != MarkAcked(l.history.delivered[d]) {
        var i :| 0 <= i < |l.worker.jobs| && l.worker.jobs[i] == MarkAcked(l.history.delivered[d]);
        assert l.worker.jobs[1..][i - 1] == l.worker.jobs[i];
      }
    case Deliver(_, _, _) => assert !Known(l.channel, l.next, Delivery(l.channel, l.next));
    case _ =>
  }

  /** The mark of an acknowledged delivery is queued, or ran at a step when the delivery was acknowledged already. */
  ghost predicate MarkRan(states: seq<Ledger>, events: seq<Event>, i: nat, d: Delivery, k: nat) {
    && i < |states| && k < i && d in states[i].history.delivered && d in states[k].history.acked
    && Ran(states, events, k, MarkAcked(states[i].history.delivered[d]))
  }

  lemma {:induction false} MarkFollowsAck(states: seq<Ledger>, events: seq<Event>, i: nat, d: Delivery)
    requires IsRun(states, events) && i < |states| && d in states[i].history.acked
    requires forall k | 0 <= k < |events| :: Orderly(states[k], events[k])
    ensures MarkQueued(states[i], d) || exists k: nat :: MarkRan(states, events, i, d, k)
  {
    assert i > 0;
    var l, e := states[i - 1], events[i - 1];
    RunPersists(states, events, i - 1);
    RunTracked(states, events, i - 1);
    if d in l.history.acked && !MarkQueued(l, d) {
      MarkFollowsAck(states, events, i - 1, d);
      var k: nat :| MarkRan(states, events, i - 1, d, k);
      DeliveredStays(l, e, d);
      assert MarkRan(states, events, i, d, k);
    } else {
      StepQueuesMark(l, e, d);
      if !MarkQueued(states[i], d) {
        DeliveredStays(l, e, d);
        assert MarkRan(states, events, i, d, i - 1);
      }
    }
  }

  /**
   In every orderly run an acknowledged delivery's row ends up marked: once its mark has run, unless purged since the
   insert.
   */
  lemma AckedIsMarked(states: seq<Ledger>, events: seq<Event>, i: nat, d: Delivery)
    requires IsRun(states, events) && i < |states| && d in states[i].history.acked
    requires forall k | 0 <= k < |events| :: Orderly(states[k], events[k])
    ensures Stored(states, events, i, d)
    ensures exists a: nat :: StoredBy(states, events, i, d, a) &&
              (MarkQueued(states[i], d) || Marked(states[i].worker.store, states[i].history.delivered[d])
               || PurgedBetween(states, events, a, i, states[i].history.delivered[d]))
  {
    PersistBeforeAck(states, events, i);
    MarkFollowsAck(states, events, i, d);
    var id := states[i].history.delivered[d];
    if MarkQueued(states[i], d) {
      var a: nat :| StoredBy(states, events, i, d, a);
    } else {
      var k: nat :| MarkRan(states, events, i, d, k);
      PersistBeforeAck(states, events, k);
      var a: nat :| StoredBy(states, events, k, d, a);
      SameEnvelope(states, events, k, i, d);
      RowStays(states, events, a, i, InsertReceived(d, id));
      MarkedSince(states, events, a, k, i, id);
      assert StoredBy(states, events, i, d, a);
    }
  }

  lemma {:induction false} SameEnvelope(states: seq<Ledger>, events: seq<Event>, k: nat, i: nat, d: Delivery)
    requires IsRun(states, events) && k <= i < |states| && d in states[k].history.delivered
    ensures Of(states[i].history, d, states[k].history.delivered[d])
  {
    if k < i {
      SameEnvelope(states, events, k, i - 1, d);
      RunTracked(states, events, i - 1);
      DeliveredStays(states[i - 1], events[i - 1], d);
    }
  }

  lemma MarkedSince(states: seq<Ledger>, events: seq<Event>, a: nat, k: nat, i: nat, id: Id)
    requires IsRun(states, events) && a < k < i < |states| && Ran(states, events, k, MarkAcked(id))
    requires PurgedBetween(states, events, a, k, id) || Has(states[k].worker.store, id)
    ensures PurgedBetween(states, events, a, i, id) || Marked(states[i].worker.store, id)
  {
    if PurgedBetween(states, events, a, k, id) {
      var m: nat :| a < m < k && PurgesAt(states, events, m, id);
      assert a < m < i && PurgesAt(states, events, m, id);
    } else {
      MarkStays(states, events, k, i, id);
      if PurgedBetween(states, events, k, i, id) {
        var m: nat :| k < m < i && PurgesAt(states, events, m, id);
        assert a < m < i && PurgesAt(states, events, m, id);
      }
    }
  }

  // ---- The books and the wire ----

  /** The tags acknowledged, and those rejected, among the requests sent on this channel, in order. */
  function AckTags(outbox: seq<Request>): seq<nat> {
    if outbox == [] then [] else
    var n := |outbox| - 1;
    AckTags(outbox[..n]) + if outbox[n].Ack? then [outbox[n].tag] else []
  }

  function RejectTags(outbox: seq<Request>): seq<nat> {
    if outbox == [] then [] else
    var n := |outbox| - 1;
    RejectTags(outbox[..n]) + if outbox[n].Reject? then [outbox[n].tag] else []
  }

  function TagsOn(channel: nat, acked: seq<Delivery>): seq<nat> {
    if acked == [] then [] else
    var n := |acked| - 1;
    TagsOn(channel, acked[..n]) + if acked[n].channel == channel then [acked[n].tag] else []
  }

  lemma SentNext(outbox: seq<Request>, r: Request)
    ensures AckTags(outbox + [r]) == AckTags(outbox) + if r.Ack? then [r.tag] else []
    ensures RejectTags(outbox + [r]) == RejectTags(outbox) + if r.Reject? then [r.tag] else []
  {
    assert (outbox + [r])[..|outbox|] == outbox;
  }

  lemma TagsNext(channel: nat, acked: seq<Delivery>, d: Delivery)
    ensures TagsOn(channel, acked + [d]) == TagsOn(channel, acked) + if d.channel == channel then [d.tag] else []
  {
    assert (acked + [d])[..|acked|] == acked;
  }

  lemma {:induction false} TagsElsewhere(channel: nat, acked: seq<Delivery>)
    requires forall i | 0 <= i < |acked| :: acked[i].channel != channel
    ensures TagsOn(channel, acked) == []
  {
    if acked != [] {
      TagsElsewhere(channel, acked[..|acked| - 1]);
    }
  }

  /**
   The acks sent on the channel are the acknowledged deliveries, one by one; the rejects sent are the rejected ones.
   */
  ghost predicate Mirrored(l: Ledger) {
    && AckTags(l.service.outbox) == TagsOn(l.channel, l.history.acked)
    && forall t: nat :: t in RejectTags(l.service.outbox) <==> Delivery(l.channel, t) in l.history.rejected
  }

  lemma ConfirmMirrored(l: Ledger, tag: nat, ackOk: bool)
    requires Mirrored(l)
    ensures Mirrored(ConfirmOne(l, tag, ackOk))
  {
    SentNext(l.service.outbox, Ack(tag));
    TagsNext(l.channel, l.history.acked, Delivery(l.channel, tag));
  }

  lemma {:induction false} ConfirmEachMirrored(l: Ledger, order: seq<nat>, failing: set<nat>)
    requires Mirrored(l)
    ensures Mirrored(ConfirmEach(l, order, failing))
  {
    if order != [] {
      var front, last := order[..|order| - 1], order[|order| - 1];
      ConfirmEachMirrored(l, front, failing);
      ConfirmMirrored(ConfirmEach(l, front, failing), last, last !in failing);
    }
  }

  /** An undecodable delivery is rejected on the wire, and nothing is queued or remembered of it. */
  lemma UndecodableRejected(l: Ledger, id: Id)
    requires Balanced(l) && l.service.open
    ensures var m := Step(l, Deliver(id, false, true));
            && m.service.outbox == l.service.outbox + [Reject(l.next)]
            && m.history.rejected == l.history.rejected + {Delivery(l.channel, l.next)}
            && m.worker == l.worker && m.service.book == l.service.book && l.next !in m.service.book.pending
  {
    if l.next in l.service.book.pending {
      assert false;
    }
  }

  lemma StepMirrored(l: Ledger, e: Event)
    requires Mirrored(l) && Balanced(l) && Enabled(l, e)
    ensures Mirrored(Step(l, e))
  {
    hide AckTags, RejectTags, TagsOn, ConfirmOne, ConfirmEach, Balanced;
    SentNext(l.service.outbox, Consume);
    match e
    case Deliver(id, valid, rejectOk) => DeliverMirrored(l, id, valid, rejectOk);
    case Callback(ackOk) =>
      var r := l.worker.results[0];
      var noted := l.ackIds[r.delivery.tag := r.id];
      ConfirmMirrored(l.(worker := l.worker.(results := l.worker.results[1..]), ackIds := noted), r.delivery.tag,
                      ackOk);
    case PauseCommand =>
      if l.service.control.consumer.Some? {
        SentNext(l.service.outbox, Cancel(l.service.control.consumer.value));
      }
    case ResumeCommand(order, failing, _) =>
      var resumed := l.(service := l.service.(paused := false));
      ConfirmEachMirrored(resumed, order, failing);
      SentNext(ConfirmEach(resumed, order, failing).service.outbox, Consume);
    case ChannelLost => LostMirrored(l);
    case _ =>
  }

  lemma DeliverMirrored(l: Ledger, id: Id, valid: bool, rejectOk: bool)
    requires Mirrored(l) && Balanced(l)
    ensures Mirrored(OnDeliver(l, id, valid, rejectOk))
  {
    hide AckTags, RejectTags, TagsOn;
    SentNext(l.service.outbox, Reject(l.next));
    assert !Known(l.channel, l.next, Delivery(l.channel, l.next));
  }

  lemma LostMirrored(l: Ledger)
    requires Balanced(l)
    ensures Mirrored(OnChannelLost(l))
  {
    forall i | 0 <= i < |l.history.acked| ensures l.history.acked[i].channel != l.channel + 1 {
      assert l.history.acked[i] in l.history.acked && Settled(l.history, l.history.acked[i]);
    }
    TagsElsewhere(l.channel + 1, l.history.acked);
    forall d | d in l.history.rejected ensures d.channel != l.channel + 1 {
      assert Settled(l.history, d);
    }
  }

  /** At every point of every run the broker has been sent exactly the acks and rejects the books record. */
  lemma {:induction false} RunMirrored(states: seq<Ledger>, events: seq<Event>, i: nat)
    requires IsRun(states, events) && i < |states|
    ensures Mirrored(states[i])
  {
    if i > 0 {
      RunMirrored(states, events, i - 1);
      RunBalanced(states, events, i - 1);
      StepMirrored(states[i - 1], events[i - 1]);
    }
  }
}
