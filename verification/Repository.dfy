/** The optimistic notification store (internal/repository/store.go).

    `Snapshot` is the stored data as a value; `Created`, `Updated` and `Receipted` say what the
    three writing operations do to it. The class `Store` performs them on its own maps. Every
    store operation holds the mutex, so each is one atomic step. */
module Repository {
  import opened Wrappers
  import opened Domain
  import opened Decimal

  datatype Event = Event(
    id: string,
    notificationId: string,
    status: Status,
    provider: string,
    sequence: int,
    occurredAt: int,
    metadata: map<string, string>
  )

  datatype OutboxEntry = OutboxEntry(id: string, topic: string, aggregateId: string, payload: Note, createdAt: int)

  datatype Snapshot = Snapshot(
    notifications: map<string, Note>,
    idempotency: map<string, string>,
    events: map<string, seq<Event>>,
    receipts: set<string>,
    outbox: seq<OutboxEntry>
  )

  const EMPTY := Snapshot(map[], map[], map[], {}, [])

  function Timeline(db: Snapshot, id: string): seq<Event> {
    if id in db.events then db.events[id] else []
  }

  /** The key under which a submission is idempotent. */
  function KeyOf(n: Note): string {
    Joined(n.tenantId, n.idempotencyKey)
  }

  /** An event of the store's own making; its metadata is never empty. */
  function InternalEvent(id: string, position: nat, status: Status, provider: string, meta: map<string, string>,
                         now: int): Event
  {
    Event(EventId(id, position + 1), id, status, provider, position + 1, now, meta)
  }

  function WithEvent(db: Snapshot, id: string, status: Status, provider: string, meta: map<string, string>,
                     now: int): Snapshot
  {
    var events := Timeline(db, id);
    db.(events := db.events[id := events + [InternalEvent(id, |events|, status, provider, meta, now)]])
  }

  const SUBMIT_META: map<string, string> := map["source" := "submit"]

  function AttemptsMeta(attempts: int): map<string, string> {
    map["attempts" := PrintedNat(attempts)]
  }

  function CreatedEntry(n: Note, now: int): OutboxEntry {
    OutboxEntry(n.id + "-created", "notification.created", n.id, n, now)
  }

  datatype CreateResult = CreateResult(db: Snapshot, saved: Note, created: bool)

  function Created(db: Snapshot, n: Note, now: int): CreateResult {
    var key := KeyOf(n);
    if key in db.idempotency then
      var id := db.idempotency[key];
      CreateResult(db, if id in db.notifications then db.notifications[id] else ZERO_NOTE, false)
    else
      var stored := db.(notifications := db.notifications[n.id := n], idempotency := db.idempotency[key := n.id]);
      var logged := WithEvent(stored, n.id, n.status, "", SUBMIT_META, now);
      CreateResult(logged.(outbox := logged.outbox + [CreatedEntry(n, now)]), n, true)
  }

  /** Whether `Update` accepts: the record exists at the expected version. */
  predicate UpdateOk(db: Snapshot, id: string, expected: int) {
    id in db.notifications && db.notifications[id].version == expected
  }

  function Updated(db: Snapshot, n: Note, expected: int, now: int): Snapshot {
    if UpdateOk(db, n.id, expected) then
      WithEvent(db.(notifications := db.notifications[n.id := n]), n.id, n.status, n.provider,
                AttemptsMeta(n.attempts), now)
    else
      db
  }

  /** A receipt overwrites the status, whatever the transition table says. */
  function Receipted(db: Snapshot, key: string, e: Event, now: int): Snapshot {
    if key in db.receipts then
      db
    else
      var id := e.notificationId;
      var logged := db.(receipts := db.receipts + {key}, events := db.events[id := Timeline(db, id) + [e]]);
      if id in db.notifications then
        var before := db.notifications[id];
        var n := before.(status := e.status, version := before.version + 1, updatedAt := now);
        logged.(notifications := db.notifications[n.id := n])
      else
        logged
  }

  datatype StoreError = NotFound | VersionConflict

  class Store {
    var notifications: map<string, Note>
    var idempotency: map<string, string>
    var events: map<string, seq<Event>>
    var receipts: set<string>
    var outbox: seq<OutboxEntry>

    function Data(): Snapshot
      reads this
    {
      Snapshot(notifications, idempotency, events, receipts, outbox)
    }

    /** Opening a file keeps exactly what was persisted; a missing file is `EMPTY`. */
    constructor Open(persisted: Snapshot)
      ensures Data() == persisted
    {
      notifications, idempotency, events := persisted.notifications, persisted.idempotency, persisted.events;
      receipts, outbox := persisted.receipts, persisted.outbox;
    }

    method AddEvent(id: string, status: Status, provider: string, meta: map<string, string>, now: int)
      modifies this`events
      ensures Data() == WithEvent(old(Data()), id, status, provider, meta, now)
    {
      var timeline := if id in events then events[id] else [];
      var number := Itoa(|timeline| + 1);
      var event := Event(id + "-" + number, id, status, provider, |timeline| + 1, now, meta);
      events := events[id := timeline + [event]];
    }

    method Create(n: Note, now: int) returns (saved: Note, created: bool)
      modifies this
      ensures CreateResult(Data(), saved, created) == Created(old(Data()), n, now)
    {
      var key := n.tenantId + ":" + n.idempotencyKey;
      if key in idempotency {
        var id := idempotency[key];
        return if id in notifications then notifications[id] else ZERO_NOTE, false;
      }
      notifications := notifications[n.id := n];
      idempotency := idempotency[key := n.id];
      AddEvent(n.id, n.status, "", map["source" := "submit"], now);
      outbox := outbox + [OutboxEntry(n.id + "-created", "notification.created", n.id, n, now)];
      return n, true;
    }

    method Get(id: string) returns (n: Option<Note>)
      ensures n == if id in notifications then Some(notifications[id]) else None
    {
      if id in notifications {
        return Some(notifications[id]);
      }
      return None;
    }

    method Update(n: Note, expected: int, now: int) returns (error: Option<StoreError>)
      modifies this
      ensures Data() == Updated(old(Data()), n, expected, now)
      ensures error.None? <==> UpdateOk(old(Data()), n.id, expected)
      ensures error == Some(NotFound) <==> n.id !in old(notifications)
    {
      if n.id !in notifications {
        return Some(NotFound);
      }
      if notifications[n.id].version != expected {
        return Some(VersionConflict);
      }
      notifications := notifications[n.id := n];
      var attempts := Itoa(n.attempts);
      AddEvent(n.id, n.status, n.provider, map["attempts" := attempts], now);
      return None;
    }

    /** The queued records, each once, in no particular order. */
    method Queued() returns (out: seq<Note>)
      requires forall id | id in notifications :: notifications[id].id == id
      ensures forall n :: n in out <==> n.id in notifications && notifications[n.id] == n && n.status == Status.Queued
      ensures forall i, j | 0 <= i < j < |out| :: out[i].id != out[j].id
    {
      out := [];
      var rest := notifications.Keys;
      while rest != {}
        invariant rest <= notifications.Keys
        invariant forall n :: n in out <==>
                              n.id in notifications.Keys - rest && notifications[n.id] == n && n.status == Status.Queued
        invariant forall i, j | 0 <= i < j < |out| :: out[i].id != out[j].id
        decreases |rest|
      {
        var id :| id in rest;
        rest := rest - {id};
        if notifications[id].status == Status.Queued {
          out := out + [notifications[id]];
        }
      }
    }

    method RecordReceipt(key: string, e: Event, now: int) returns (isNew: bool)
      modifies this
      ensures Data() == Receipted(old(Data()), key, e, now)
      ensures isNew == (key !in old(receipts))
    {
      if key in receipts {
        return false;
      }
      receipts := receipts + {key};
      var id := e.notificationId;
      events := events[id := (if id in events then events[id] else []) + [e]];
      if id in notifications {
        var n := notifications[id];
        n := n.(status := e.status, version := n.version + 1, updatedAt := now);
        notifications := notifications[n.id := n];
      }
      return true;
    }
  }
}
