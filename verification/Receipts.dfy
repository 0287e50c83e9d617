/** Provider receipts (internal/receipt/service.go). */
module Receipts {
  import opened Wrappers
  import opened Domain
  import opened Decimal
  import opened Repository

  datatype Receipt = Receipt(
    provider: string,
    notificationId: string,
    externalId: string,
    sequence: int,
    status: Status,
    occurredAt: int
  )

  datatype IngestError = Incomplete | UnsupportedStatus | UnknownNotification

  datatype Outcome = Rejected(error: IngestError) | Recorded | Duplicate

  predicate Complete(r: Receipt) {
    r.provider != "" && r.notificationId != "" && r.sequence > 0
  }

  predicate Supported(s: Status) {
    s in {Accepted, Sent, Delivered, Bounced, Complained, Failed}
  }

  function Key(r: Receipt): string {
    ReceiptKey(r.provider, r.externalId, r.sequence)
  }

  /** Receipt events carry no metadata, unlike the store's own events. */
  function EventOf(r: Receipt): Event {
    Event(Key(r), r.notificationId, r.status, r.provider, r.sequence, r.occurredAt, map[])
  }

  /** Whether a receipt reaches the store. */
  predicate Admissible(db: Snapshot, r: Receipt) {
    Complete(r) && Supported(r.status) && r.notificationId in db.notifications
  }

  function Ingested(db: Snapshot, r: Receipt, now: int): Snapshot {
    if Admissible(db, r) then Receipted(db, Key(r), EventOf(r), now) else db
  }

  class Service {
    const store: Store

    constructor (store: Store)
      ensures this.store == store
    {
      this.store := store;
    }

    /** The existence test and the recording are two store operations; no operation removes a
        notification, so nothing that falls between them can change the outcome of the first. */
    method Ingest(r: Receipt, now: int) returns (outcome: Outcome)
      modifies store
      ensures store.Data() == Ingested(old(store.Data()), r, now)
      ensures outcome.Recorded? <==> Admissible(old(store.Data()), r) && Key(r) !in old(store.receipts)
      ensures outcome.Duplicate? <==> Admissible(old(store.Data()), r) && Key(r) in old(store.receipts)
      ensures outcome == Rejected(UnknownNotification) <==>
              Complete(r) && Supported(r.status) && r.notificationId !in old(store.notifications)
    {
      if r.provider == "" || r.notificationId == "" || r.sequence <= 0 {
        return Rejected(Incomplete);
      }
      match r.status {
        case Accepted =>
        case Sent =>
        case Delivered =>
        case Bounced =>
        case Complained =>
        case Failed =>
        case _ => return Rejected(UnsupportedStatus);
      }
      var found := store.Get(r.notificationId);
      if found.None? {
        return Rejected(UnknownNotification);
      }
      var number := FormatSeq(r.sequence);
      var key := r.provider + ":" + r.externalId + ":" + number;
      var event := Event(key, r.notificationId, r.status, r.provider, r.sequence, r.occurredAt, map[]);
      var isNew := store.RecordReceipt(key, event, now);
      return if isNew then Recorded else Duplicate;
    }
  }
}
