/** Laws of the store over every sequence of its writing operations.

    The first part (timelines, receipts) needs nothing from the callers. The second part
    (idempotency, version counting) needs the discipline that the platform's callers keep, stated
    as `Disciplined`; the protocol modules prove that every step of a run keeps it. */
module StoreLaws {
  import opened Wrappers
  import opened Domain
  import opened Decimal
  import opened Repository
  import opened Receipts

  datatype Op =
    | Skip
    | CreateOp(n: Note, now: int)
    | UpdateOp(n: Note, expected: int, now: int)
    | IngestOp(receipt: Receipt, now: int)

  function Apply(db: Snapshot, op: Op): Snapshot {
    match op
    case Skip => db
    case CreateOp(n, now) => Created(db, n, now).db
    case UpdateOp(n, expected, now) => Updated(db, n, expected, now)
    case IngestOp(r, now) => Ingested(db, r, now)
  }

  function ApplyAll(db: Snapshot, ops: seq<Op>): Snapshot {
    if ops == [] then db else Apply(ApplyAll(db, ops[..|ops| - 1]), ops[|ops| - 1])
  }

  // ---------- The timeline is the event source of the record ----------

  predicate IsReceipt(e: Event) {
    e.metadata == map[]
  }

  predicate RecordMatches(db: Snapshot, id: string) {
    id in db.notifications ==>
      && db.notifications[id].id == id
      && Timeline(db, id) != []
      && Timeline(db, id)[|Timeline(db, id)| - 1].status == db.notifications[id].status
  }

  /** An event of the store's own is numbered by its position, receipts included. */
  predicate Numbered(db: Snapshot, id: string, i: nat)
    requires i < |Timeline(db, id)|
  {
    var e := Timeline(db, id)[i];
    e.notificationId == id && (!IsReceipt(e) ==> e.sequence == i + 1 && e.id == EventId(id, i + 1))
  }

  ghost predicate TimelineInv(db: Snapshot) {
    && (forall id :: RecordMatches(db, id))
    && (forall id, i: nat | i < |Timeline(db, id)| :: Numbered(db, id, i))
  }

  ghost predicate Grows(before: Snapshot, after: Snapshot) {
    forall id :: Timeline(before, id) <= Timeline(after, id)
  }

  /** The event that an operation logs, if it takes effect. */
  function Logged(db: Snapshot, op: Op): Option<Event> {
    match op
    case Skip => None
    case CreateOp(n, now) =>
      if KeyOf(n) in db.idempotency then None
      else Some(InternalEvent(n.id, |Timeline(db, n.id)|, n.status, "", SUBMIT_META, now))
    case UpdateOp(n, expected, now) =>
      if !UpdateOk(db, n.id, expected) then None
      else Some(InternalEvent(n.id, |Timeline(db, n.id)|, n.status, n.provider, AttemptsMeta(n.attempts), now))
    case IngestOp(r, now) =>
      if Admissible(db, r) && Key(r) !in db.receipts then Some(EventOf(r)) else None
  }

  /** What an operation does to one ID: at most one event is appended, and the stored record
      changes only together with an event that carries its new status. */
  lemma ApplyAt(db: Snapshot, op: Op, id: string)
    requires TimelineInv(db)
    ensures var after := Apply(db, op);
      if Logged(db, op).Some? && Logged(db, op).value.notificationId == id then
        && Timeline(after, id) == Timeline(db, id) + [Logged(db, op).value]
        && id in after.notifications
        && after.notifications[id].id == id
        && after.notifications[id].status == Logged(db, op).value.status
      else
        && Timeline(after, id) == Timeline(db, id)
        && (id in after.notifications <==> id in db.notifications)
        && (id in db.notifications ==> after.notifications[id] == db.notifications[id])
  {
    if op.IngestOp? {
      assert RecordMatches(db, op.receipt.notificationId);
    }
  }

  lemma ApplyAppends(db: Snapshot, op: Op)
    ensures Grows(db, Apply(db, op))
  {
  }

  lemma ApplyKeepsTimeline(db: Snapshot, op: Op)
    requires TimelineInv(db)
    ensures TimelineInv(Apply(db, op))
  {
    var after := Apply(db, op);
    forall id
      ensures RecordMatches(after, id)
    {
      assert RecordMatches(db, id);
      ApplyAt(db, op, id);
    }
    forall id, i: nat | i < |Timeline(after, id)|
      ensures Numbered(after, id, i)
    {
      ApplyAt(db, op, id);
      if i < |Timeline(db, id)| {
        assert Numbered(db, id, i);
      }
    }
  }

  /** Over any sequence of operations from the empty store: the last event of a timeline carries
      the stored status, the store's own events are numbered by position even with receipts in
      between, and what was logged by any prefix of the operations is never rewritten. */
  lemma {:induction false} TimelineIsEventSource(ops: seq<Op>, k: nat)
    requires k <= |ops|
    ensures TimelineInv(ApplyAll(EMPTY, ops))
    ensures Grows(ApplyAll(EMPTY, ops[..k]), ApplyAll(EMPTY, ops))
  {
    if ops != [] {
      var front := ops[..|ops| - 1];
      TimelineIsEventSource(front, if k < |ops| then k else 0);
      ApplyKeepsTimeline(ApplyAll(EMPTY, front), ops[|ops| - 1]);
      ApplyAppends(ApplyAll(EMPTY, front), ops[|ops| - 1]);
      if k < |ops| {
        assert front[..k] == ops[..k];
      } else {
        assert ops[..k] == ops;
      }
    }
  }

  /** No two events of the store's own, in any timelines, share an ID. */
  lemma InternalIdsDistinct(ops: seq<Op>, id1: string, i: nat, id2: string, j: nat)
    requires i < |Timeline(ApplyAll(EMPTY, ops), id1)| && j < |Timeline(ApplyAll(EMPTY, ops), id2)|
    requires !IsReceipt(Timeline(ApplyAll(EMPTY, ops), id1)[i])
    requires !IsReceipt(Timeline(ApplyAll(EMPTY, ops), id2)[j])
    requires Timeline(ApplyAll(EMPTY, ops), id1)[i].id == Timeline(ApplyAll(EMPTY, ops), id2)[j].id
    ensures id1 == id2 && i == j
  {
    TimelineIsEventSource(ops, 0);
    SameIdSamePlace(ApplyAll(EMPTY, ops), id1, i, id2, j);
  }

  lemma SameIdSamePlace(db: Snapshot, id1: string, i: nat, id2: string, j: nat)
    requires i < |Timeline(db, id1)| && j < |Timeline(db, id2)|
    requires Numbered(db, id1, i) && Numbered(db, id2, j)
    requires !IsReceipt(Timeline(db, id1)[i]) && !IsReceipt(Timeline(db, id2)[j])
    requires Timeline(db, id1)[i].id == Timeline(db, id2)[j].id
    ensures id1 == id2 && i == j
  {
    EventIdInjective(id1, i + 1, id2, j + 1);
  }

  // ---------- Receipts apply exactly once ----------

  predicate ReceiptAt(db: Snapshot, id: string, i: nat, key: string) {
    && i < |Timeline(db, id)|
    && IsReceipt(Timeline(db, id)[i])
    && Timeline(db, id)[i].id == key
  }

  ghost predicate HasReceipt(db: Snapshot, key: string) {
    exists id, i: nat :: ReceiptAt(db, id, i, key)
  }

  /** Recorded keys and receipt events correspond one to one. */
  ghost predicate ReceiptInv(db: Snapshot) {
    && (forall id, i: nat, key | ReceiptAt(db, id, i, key) :: key in db.receipts)
    && (forall key | key in db.receipts :: HasReceipt(db, key))
    && (forall id1, i: nat, id2, j: nat, key | ReceiptAt(db, id1, i, key) && ReceiptAt(db, id2, j, key) ::
          id1 == id2 && i == j)
  }

  lemma ReceiptsPersist(db: Snapshot, after: Snapshot, key: string)
    requires Grows(db, after) && HasReceipt(db, key)
    ensures HasReceipt(after, key)
  {
    var id, i: nat :| ReceiptAt(db, id, i, key);
    assert ReceiptAt(after, id, i, key);
  }

  lemma NewPositions(db: Snapshot, op: Op, id: string, i: nat, key: string)
    requires ReceiptAt(Apply(db, op), id, i, key)
    ensures i < |Timeline(db, id)| ==> ReceiptAt(db, id, i, key)
    ensures i >= |Timeline(db, id)| ==>
              && op.IngestOp? && Admissible(db, op.receipt)
              && key == Key(op.receipt) && key !in db.receipts
              && id == op.receipt.notificationId && i == |Timeline(db, id)|
  {
    assert "source" in SUBMIT_META;
    if op.UpdateOp? {
      assert "attempts" in AttemptsMeta(op.n.attempts);
    }
  }

  lemma ApplyKeepsReceipts(db: Snapshot, op: Op)
    requires ReceiptInv(db)
    ensures ReceiptInv(Apply(db, op))
    ensures db.receipts <= Apply(db, op).receipts
  {
    var after := Apply(db, op);
    ApplyAppends(db, op);
    forall id, i: nat, key | ReceiptAt(after, id, i, key)
      ensures key in after.receipts
    {
      NewPositions(db, op, id, i, key);
    }
    forall key | key in after.receipts
      ensures HasReceipt(after, key)
    {
      if key in db.receipts {
        ReceiptsPersist(db, after, key);
      } else {
        var id := op.receipt.notificationId;
        assert ReceiptAt(after, id, |Timeline(db, id)|, key);
      }
    }
    forall id1, i: nat, id2, j: nat, key | ReceiptAt(after, id1, i, key) && ReceiptAt(after, id2, j, key)
      ensures id1 == id2 && i == j
    {
      NewPositions(db, op, id1, i, key);
      NewPositions(db, op, id2, j, key);
    }
  }

  lemma {:induction false} ReceiptsOnce(ops: seq<Op>)
    ensures ReceiptInv(ApplyAll(EMPTY, ops))
  {
    if ops != [] {
      ReceiptsOnce(ops[..|ops| - 1]);
      ApplyKeepsReceipts(ApplyAll(EMPTY, ops[..|ops| - 1]), ops[|ops| - 1]);
    }
  }

  lemma {:induction false} ReceiptKeysGrow(db: Snapshot, ops: seq<Op>)
    ensures db.receipts <= ApplyAll(db, ops).receipts
  {
    if ops != [] {
      ReceiptKeysGrow(db, ops[..|ops| - 1]);
    }
  }

  lemma {:induction false} NotificationsStay(db: Snapshot, ops: seq<Op>)
    ensures db.notifications.Keys <= ApplyAll(db, ops).notifications.Keys
  {
    if ops != [] {
      NotificationsStay(db, ops[..|ops| - 1]);
    }
  }

  /** A receipt that was recorded once is a no-op on the whole store for ever after, also when it
      is repeated with another status, text or notification under the same key. */
  lemma ReingestIsNoOp(db: Snapshot, r: Receipt, now: int, ops: seq<Op>, again: Receipt, later: int)
    requires Admissible(db, r) && Key(again) == Key(r)
    ensures var reached := ApplyAll(Ingested(db, r, now), ops); Ingested(reached, again, later) == reached
  {
    ReceiptKeysGrow(Ingested(db, r, now), ops);
  }

  /** A recorded receipt appends one event and bumps one version by one. */
  lemma IngestEffect(db: Snapshot, r: Receipt, now: int)
    requires TimelineInv(db) && Admissible(db, r) && Key(r) !in db.receipts
    ensures var after := Ingested(db, r, now); var id := r.notificationId;
      && Timeline(after, id) == Timeline(db, id) + [EventOf(r)]
      && after.notifications[id].version == db.notifications[id].version + 1
      && after.notifications[id].status == r.status
      && after.receipts == db.receipts + {Key(r)}
      && forall other | other != id ::
           && Timeline(after, other) == Timeline(db, other)
           && (other in after.notifications <==> other in db.notifications)
           && (other in db.notifications ==> after.notifications[other] == db.notifications[other])
  {
    assert RecordMatches(db, r.notificationId);
  }

  // ---------- The number of recorded keys is the number of receipt events ----------

  ghost function Positions(db: Snapshot): set<(string, nat)> {
    set id, i: nat | id in db.events && i < |db.events[id]| && IsReceipt(db.events[id][i]) :: (id, i)
  }

  function KeyAt(db: Snapshot, p: (string, nat)): string {
    if p.1 < |Timeline(db, p.0)| then Timeline(db, p.0)[p.1].id else ""
  }

  lemma {:induction false} SameSize(db: Snapshot, ps: set<(string, nat)>, keys: set<string>)
    requires forall p | p in ps :: KeyAt(db, p) in keys
    requires forall k | k in keys :: exists p :: p in ps && KeyAt(db, p) == k
    requires forall p, q | p in ps && q in ps && KeyAt(db, p) == KeyAt(db, q) :: p == q
    ensures |ps| == |keys|
    decreases |ps|
  {
    if ps == {} {
      assert keys == {};
    } else {
      var p :| p in ps;
      var rest, others := ps - {p}, keys - {KeyAt(db, p)};
      forall k | k in others
        ensures exists q :: q in rest && KeyAt(db, q) == k
      {
        var q :| q in ps && KeyAt(db, q) == k;
        assert q in rest;
      }
      SameSize(db, rest, others);
    }
  }

  lemma ReceiptCount(ops: seq<Op>)
    ensures var db := ApplyAll(EMPTY, ops); |Positions(db)| == |db.receipts|
  {
    var db := ApplyAll(EMPTY, ops);
    ReceiptsOnce(ops);
    var ps := Positions(db);
    forall p | p in ps
      ensures ReceiptAt(db, p.0, p.1, KeyAt(db, p))
    {
    }
    forall k | k in db.receipts
      ensures exists p :: p in ps && KeyAt(db, p) == k
    {
      var id, i: nat :| ReceiptAt(db, id, i, k);
      assert (id, i) in ps && KeyAt(db, (id, i)) == k;
    }
    SameSize(db, ps, db.receipts);
  }

  // ---------- Idempotent submission ----------

  predicate SameOwner(a: Note, b: Note) {
    a.tenantId == b.tenantId && a.idempotencyKey == b.idempotencyKey
  }

  /** What the platform's callers of the store respect: a new record has an unused ID and version
      1; an accepted update keeps the owner and moves the version by 0 (same status) or by 1. */
  predicate Disciplined(db: Snapshot, op: Op) {
    match op
    case CreateOp(n, _) => KeyOf(n) !in db.idempotency ==> n.id !in db.notifications && n.version == 1
    case UpdateOp(n, expected, _) =>
      UpdateOk(db, n.id, expected) ==>
        && SameOwner(n, db.notifications[n.id])
        && (n.version == expected + 1 || (n.version == expected && n.status == db.notifications[n.id].status))
    case _ => true
  }

  predicate KeyedBy(db: Snapshot, id: string)
    requires id in db.notifications
  {
    var n := db.notifications[id];
    n.id == id && KeyOf(n) in db.idempotency && db.idempotency[KeyOf(n)] == id
  }

  predicate KeyUsed(db: Snapshot, key: string)
    requires key in db.idempotency
  {
    var id := db.idempotency[key];
    id in db.notifications && KeyOf(db.notifications[id]) == key
  }

  predicate EntryOk(db: Snapshot, e: OutboxEntry) {
    && e.topic == "notification.created"
    && e.id == e.aggregateId + "-created"
    && e.aggregateId in db.notifications
    && SameOwner(e.payload, db.notifications[e.aggregateId])
  }

  ghost predicate Announced(db: Snapshot, id: string) {
    exists i :: 0 <= i < |db.outbox| && db.outbox[i].aggregateId == id
  }

  ghost predicate KeysMatch(db: Snapshot) {
    && (forall id | id in db.notifications :: KeyedBy(db, id))
    && (forall key | key in db.idempotency :: KeyUsed(db, key))
  }

  ghost predicate OutboxMatches(db: Snapshot) {
    && (forall id | id in db.notifications :: Announced(db, id))
    && (forall i | 0 <= i < |db.outbox| :: EntryOk(db, db.outbox[i]))
    && (forall i, j | 0 <= i < j < |db.outbox| :: db.outbox[i].aggregateId != db.outbox[j].aggregateId)
  }

  /** Idempotency keys, stored notifications and creation announcements correspond one to one. */
  ghost predicate IdempotencyInv(db: Snapshot) {
    KeysMatch(db) && OutboxMatches(db)
  }

  lemma OwnerAt(db: Snapshot, op: Op, id: string)
    requires IdempotencyInv(db) && Disciplined(db, op) && id in db.notifications
    ensures id in Apply(db, op).notifications
    ensures SameOwner(Apply(db, op).notifications[id], db.notifications[id])
    ensures Apply(db, op).notifications[id].id == id
  {
    assert KeyedBy(db, id);
    if op.IngestOp? && Admissible(db, op.receipt) {
      assert KeyedBy(db, op.receipt.notificationId);
    }
  }

  lemma NotificationsKept(db: Snapshot, op: Op)
    requires IdempotencyInv(db) && Disciplined(db, op)
    ensures var after := Apply(db, op);
      && db.notifications.Keys <= after.notifications.Keys
      && (op.CreateOp? || (after.idempotency == db.idempotency && after.outbox == db.outbox
                           && after.notifications.Keys == db.notifications.Keys))
  {
    if op.IngestOp? && Admissible(db, op.receipt) {
      assert KeyedBy(db, op.receipt.notificationId);
    }
  }

  /** What a creation adds, seen from outside. */
  lemma CreationAdds(db: Snapshot, n: Note, now: int)
    requires Disciplined(db, CreateOp(n, now))
    ensures var after := Created(db, n, now).db;
      || after == db
      || (&& n.id !in db.notifications && KeyOf(n) !in db.idempotency
          && after.notifications == db.notifications[n.id := n]
          && after.idempotency == db.idempotency[KeyOf(n) := n.id]
          && after.outbox == db.outbox + [CreatedEntry(n, now)])
  {
  }

  lemma OwnersKept(db: Snapshot, after: Snapshot)
    requires IdempotencyInv(db)
    requires after.idempotency == db.idempotency && after.outbox == db.outbox
    requires after.notifications.Keys == db.notifications.Keys
    requires forall id | id in db.notifications ::
               SameOwner(after.notifications[id], db.notifications[id]) && after.notifications[id].id == id
    ensures IdempotencyInv(after)
  {
    forall id | id in after.notifications
      ensures KeyedBy(after, id) && Announced(after, id)
    {
      assert KeyedBy(db, id) && Announced(db, id);
      var i :| 0 <= i < |db.outbox| && db.outbox[i].aggregateId == id;
      assert after.outbox[i].aggregateId == id;
    }
    forall key | key in after.idempotency
      ensures KeyUsed(after, key)
    {
      assert KeyUsed(db, key);
    }
    forall i | 0 <= i < |after.outbox|
      ensures EntryOk(after, after.outbox[i])
    {
      assert EntryOk(db, db.outbox[i]);
    }
  }

  lemma CreationKeeps(db: Snapshot, after: Snapshot, n: Note, now: int)
    requires IdempotencyInv(db) && n.id !in db.notifications && KeyOf(n) !in db.idempotency
    requires after.notifications == db.notifications[n.id := n]
    requires after.idempotency == db.idempotency[KeyOf(n) := n.id]
    requires after.outbox == db.outbox + [CreatedEntry(n, now)]
    ensures IdempotencyInv(after)
  {
    CreationKeepsKeys(db, after, n);
    CreationKeepsOutbox(db, after, n, now);
  }

  lemma CreationKeepsKeys(db: Snapshot, after: Snapshot, n: Note)
    requires KeysMatch(db) && n.id !in db.notifications && KeyOf(n) !in db.idempotency
    requires after.notifications == db.notifications[n.id := n]
    requires after.idempotency == db.idempotency[KeyOf(n) := n.id]
    ensures KeysMatch(after)
  {
    hide KeyOf;
    forall id | id in after.notifications
      ensures KeyedBy(after, id)
    {
      if id in db.notifications {
        assert KeyedBy(db, id);
      }
    }
    forall key | key in after.idempotency
      ensures KeyUsed(after, key)
    {
      if key in db.idempotency {
        assert KeyUsed(db, key);
      }
    }
  }

  lemma CreationKeepsOutbox(db: Snapshot, after: Snapshot, n: Note, now: int)
    requires OutboxMatches(db) && n.id !in db.notifications
    requires after.notifications == db.notifications[n.id := n]
    requires after.outbox == db.outbox + [CreatedEntry(n, now)]
    ensures OutboxMatches(after)
  {
    forall id | id in after.notifications
      ensures Announced(after, id)
    {
      if id in db.notifications {
        assert Announced(db, id);
        var i :| 0 <= i < |db.outbox| && db.outbox[i].aggregateId == id;
        assert after.outbox[i].aggregateId == id;
      } else {
        assert after.outbox[|db.outbox|].aggregateId == id;
      }
    }
    forall i | 0 <= i < |after.outbox|
      ensures EntryOk(after, after.outbox[i])
    {
      if i < |db.outbox| {
        assert EntryOk(db, db.outbox[i]);
      }
    }
    forall i, j | 0 <= i < j < |after.outbox|
      ensures after.outbox[i].aggregateId != after.outbox[j].aggregateId
    {
      assert EntryOk(db, db.outbox[i]);
    }
  }

  lemma ApplyKeepsIdempotency(db: Snapshot, op: Op)
    requires IdempotencyInv(db) && Disciplined(db, op)
    ensures IdempotencyInv(Apply(db, op))
  {
    var after := Apply(db, op);
    NotificationsKept(db, op);
    if op.CreateOp? {
      CreationAdds(db, op.n, op.now);
      hide Created, Disciplined, IdempotencyInv;
      if after != db {
        CreationKeeps(db, after, op.n, op.now);
      }
    } else {
      forall id | id in db.notifications
        ensures SameOwner(after.notifications[id], db.notifications[id]) && after.notifications[id].id == id
      {
        OwnerAt(db, op, id);
      }
      hide Apply, Disciplined, IdempotencyInv;
      OwnersKept(db, after);
    }
  }

  /** A submission whose tenant and key were used before returns the record created then, and
      changes nothing. For tenants without a colon "used before" means the very same pair. */
  lemma RepeatedSubmission(db: Snapshot, n: Note, now: int)
    requires IdempotencyInv(db)
    requires forall id | id in db.notifications :: ':' !in db.notifications[id].tenantId
    requires ':' !in n.tenantId
    ensures var result := Created(db, n, now);
      && (!result.created <==> exists id :: id in db.notifications && SameOwner(db.notifications[id], n))
      && (!result.created ==> result.db == db && result.saved.id in db.notifications
                              && db.notifications[result.saved.id] == result.saved && SameOwner(result.saved, n))
      && (n.id !in db.notifications ==>
            forall id1, id2 | id1 in result.db.notifications && id2 in result.db.notifications
                              && SameOwner(result.db.notifications[id1], result.db.notifications[id2]) ::
              id1 == id2)
  {
    var key := KeyOf(n);
    if key in db.idempotency {
      assert KeyUsed(db, key);
      var stored := db.notifications[db.idempotency[key]];
      assert KeyedBy(db, db.idempotency[key]);
      JoinedCollision(stored.tenantId, stored.idempotencyKey, n.tenantId, n.idempotencyKey);
      assert SameOwner(stored, n);
    }
    forall id | id in db.notifications && SameOwner(db.notifications[id], n)
      ensures key in db.idempotency
    {
      assert KeyedBy(db, id);
    }
    var after := Created(db, n, now).db;
    if n.id !in db.notifications {
      forall id1, id2 | id1 in after.notifications && id2 in after.notifications
                        && SameOwner(after.notifications[id1], after.notifications[id2])
        ensures id1 == id2
      {
        if id1 in db.notifications {
          assert KeyedBy(db, id1);
        }
        if id2 in db.notifications {
          assert KeyedBy(db, id2);
        }
      }
    }
  }

  /** With a colon in a tenant name two tenants can share one idempotency slot: tenant `a` with
      key `b:k` and tenant `a:b` with key `k`. The second one is handed the first one's record. */
  lemma ColonTenantsCollide(first: Note, second: Note, now: int)
    requires first.tenantId == "a" && first.idempotencyKey == "b:k"
    requires second.tenantId == "a:b" && second.idempotencyKey == "k"
    ensures var db := Created(EMPTY, first, now).db;
      !Created(db, second, now).created && Created(db, second, now).saved == first
  {
    assert Shifted("a", "b:k", "a:b", "k", "b") by {
      assert "a:b" == Joined("a", "b");
      assert "b:k" == Joined("b", "k");
    }
    JoinedCollision("a", "b:k", "a:b", "k");
  }

  // ---------- Version counting ----------

  /** Accepted updates of one record that left its status alone. */
  function Idle(db: Snapshot, op: Op, id: string): nat {
    if op.UpdateOp? && op.n.id == id && UpdateOk(db, id, op.expected) && op.n.version == op.expected then 1 else 0
  }

  function IdleCount(db: Snapshot, ops: seq<Op>, id: string): nat {
    if ops == [] then 0
    else IdleCount(db, ops[..|ops| - 1], id) + Idle(ApplyAll(db, ops[..|ops| - 1]), ops[|ops| - 1], id)
  }

  ghost predicate DisciplinedAll(db: Snapshot, ops: seq<Op>) {
    forall k | 0 <= k < |ops| :: Disciplined(ApplyAll(db, ops[..k]), ops[k])
  }

  /** A disciplined step moves a stored version by 0 or 1. */
  lemma VersionStep(db: Snapshot, op: Op, id: string)
    requires TimelineInv(db) && Disciplined(db, op) && id in db.notifications
    ensures var after := Apply(db, op);
      && id in after.notifications
      && db.notifications[id].version <= after.notifications[id].version <= db.notifications[id].version + 1
      && (after.notifications[id].version == db.notifications[id].version ==>
            after.notifications[id].status == db.notifications[id].status)
      && |Timeline(after, id)| - |Timeline(db, id)| ==
         after.notifications[id].version - db.notifications[id].version + Idle(db, op, id)
  {
    assert RecordMatches(db, id);
    if op.IngestOp? && op.receipt.notificationId in db.notifications {
      assert RecordMatches(db, op.receipt.notificationId);
    }
  }

  ghost predicate NoStrayTimeline(db: Snapshot) {
    forall id | id !in db.notifications :: Timeline(db, id) == []
  }

  /** Over any disciplined sequence of operations, timeline length minus version is the number of
      accepted updates that left the status alone. */
  lemma {:induction false} VersionCounts(ops: seq<Op>, id: string)
    requires DisciplinedAll(EMPTY, ops)
    ensures var db := ApplyAll(EMPTY, ops);
      && NoStrayTimeline(db)
      && (id !in db.notifications ==> IdleCount(EMPTY, ops, id) == 0)
      && (id in db.notifications ==>
            |Timeline(db, id)| == db.notifications[id].version + IdleCount(EMPTY, ops, id))
  {
    if ops != [] {
      var front, op := ops[..|ops| - 1], ops[|ops| - 1];
      var db := ApplyAll(EMPTY, front);
      forall k | 0 <= k < |front|
        ensures Disciplined(ApplyAll(EMPTY, front[..k]), front[k])
      {
        assert front[..k] == ops[..k];
      }
      VersionCounts(front, id);
      TimelineIsEventSource(front, 0);
      assert Disciplined(db, op);
      CountStep(db, op, id);
      StrayStep(db, op);
    }
  }

  lemma CountStep(db: Snapshot, op: Op, id: string)
    requires TimelineInv(db) && NoStrayTimeline(db) && Disciplined(db, op)
    ensures var after := Apply(db, op);
      && (id in after.notifications && id !in db.notifications ==>
            after.notifications[id].version == 1 && |Timeline(after, id)| == 1)
      && (id !in db.notifications ==> Idle(db, op, id) == 0)
      && (id in db.notifications ==>
            && id in after.notifications
            && |Timeline(after, id)| - |Timeline(db, id)| ==
               after.notifications[id].version - db.notifications[id].version + Idle(db, op, id))
  {
    if id in db.notifications {
      VersionStep(db, op, id);
    } else {
      ApplyAt(db, op, id);
    }
  }

  lemma StrayStep(db: Snapshot, op: Op)
    requires NoStrayTimeline(db)
    ensures NoStrayTimeline(Apply(db, op))
  {
  }
}
