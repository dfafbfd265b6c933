/** The window between the service and the store: its two callbacks, as the object that holds the open envelope ids. */
module MqWindow {
  import opened MqService
  import opened MqLedger

  class Window {
    const service: Consumer
    var ackIds: map<nat, Id>
    var jobs: seq<Job>

    constructor ()
      ensures Shows(MqLedger.INITIAL) && fresh(service)
    {
      service := new Consumer();
      ackIds, jobs := map[], [];
    }

    /** This window is the service, the open ids and the queued jobs of the ledger. */
    ghost predicate Shows(l: Ledger)
      reads this, service
    {
      service.Model() == l.service && ackIds == l.ackIds && jobs == l.worker.jobs
    }

    method MessageReceived(delivery: Delivery, id: Id, ghost l: Ledger)
      requires Shows(l) && delivery == Delivery(l.channel, l.next)
      modifies this, service
      ensures Shows(OnDeliver(l, id, true, true))
    {
      service.Received(delivery.tag, true, true);
      jobs := jobs + [InsertReceived(delivery, id)];
    }

    /** The insert has returned: the id is noted, and the delivery may be acknowledged right away. */
    method InsertReturned(tag: nat, id: Id, ackOk: bool, ghost l: Ledger)
      requires Shows(l) && l.worker.results != [] && l.worker.results[0].delivery.tag == tag &&
               l.worker.results[0].id == id
      modifies this, service
      ensures Shows(OnCallback(l, ackOk))
    {
      ackIds := ackIds[tag := id];
      var before := |service.outbox|;
      service.ConfirmInserted(tag, ackOk);
      if |service.outbox| > before {
        DeliveryAcked(tag);
      }
    }

    method DeliveryAcked(tag: nat)
      modifies this
      ensures if tag in old(ackIds)
              then ackIds == old(ackIds) - {tag} && jobs == old(jobs) + [MarkAcked(old(ackIds)[tag])]
              else ackIds == old(ackIds) && jobs == old(jobs)
    {
      if tag !in ackIds { return; }
      var id := ackIds[tag];
      ackIds := ackIds - {tag};
      jobs := jobs + [MarkAcked(id)];
    }
  }
}
