/** The delivery engine as a state machine over small interleavable steps.

    A run is any sequence of actions from the empty store; an action that cannot happen in the
    state it meets is skipped, so every sequence is a run and every interleaving is among them.
    Which of the queued copies is dequeued is left open here; the priority queue decides it. */
module Protocol {
  import opened Wrappers
  import opened Domain
  import opened Decimal
  import opened Repository
  import opened Receipts
  import opened Delivery

  /** The identity of a live `*Notification`. */
  type Ptr = nat

  datatype State = State(db: Snapshot, copies: map<Ptr, Copy>, requests: map<nat, Request>, now: int)

  const INITIAL := State(EMPTY, map[], map[], 0)

  datatype Action =
    // Time and the outside world
    | Tick(elapsed: int)
    | Submit(n: Note, ptr: Ptr, full: bool)
    | ApiRead(request: nat, id: string, expected: int, next: Status)
    | ApiWrite(request: nat)
    | Ingest(receipt: Receipt)
    | Restart(boot: map<Ptr, string>)
    // Queue and timers
    | Dequeue(ptr: Ptr)
    | Fire(ptr: Ptr, full: bool)
    // One worker's handling of a dequeued copy
    | Postpone(ptr: Ptr)
    | Expire(ptr: Ptr)
    | Throttle(ptr: Ptr, wait: int)
    | Claim(ptr: Ptr)
    | NoProvider(ptr: Ptr, error: string, platform: Int64)
    | Send(ptr: Ptr, provider: string)
    | SendFailed(ptr: Ptr, error: string, platform: Int64)
    | SendOk(ptr: Ptr, result: Status)

  predicate At(s: State, p: Ptr, place: Place) {
    p in s.copies && s.copies[p].place == place
  }

  predicate Dequeued(s: State, p: Ptr) {
    p in s.copies && s.copies[p].place.InHand?
  }

  /** A dequeued copy whose schedule, if any, has come. */
  predicate Ready(s: State, p: Ptr) {
    Dequeued(s, p) && !Future(s.copies[p].note.scheduleAt, s.now)
  }

  /** The expiry check, which lies between dequeueing and now, let the copy pass. */
  predicate Unexpired(s: State, p: Ptr)
    requires Dequeued(s, p)
  {
    !Past(s.copies[p].note.expiresAt, s.copies[p].place.since)
  }

  /** After a crash, start-up enqueues stored queued records (as many as the queue holds), each in
      a copy of its own, before the workers and the API start. */
  ghost predicate Bootable(db: Snapshot, boot: map<Ptr, string>) {
    && (forall p | p in boot :: boot[p] in db.notifications && db.notifications[boot[p]].status == Queued)
    && (forall p, q | p in boot && q in boot && boot[p] == boot[q] :: p == q)
  }

  ghost predicate Enabled(s: State, a: Action) {
    match a
    case Tick(elapsed) => elapsed >= 0
    case Submit(n, p, _) => p !in s.copies && n.id != ""
    case ApiRead(q, _, _, next) => q !in s.requests && next in {Canceled, Paused}
    case ApiWrite(q) => q in s.requests
    case Ingest(_) => true
    case Restart(boot) => Bootable(s.db, boot)
    case Dequeue(p) => At(s, p, InQueue)
    case Fire(p, _) => p in s.copies && s.copies[p].place.InTimer? && s.now >= s.copies[p].place.due
    case Postpone(p) => Dequeued(s, p) && Future(s.copies[p].note.scheduleAt, s.now)
    case Expire(p) => Ready(s, p) && Past(s.copies[p].note.expiresAt, s.now)
    case Throttle(p, wait) => Ready(s, p) && Unexpired(s, p) && wait >= 0
    case Claim(p) => Ready(s, p) && Unexpired(s, p)
    case NoProvider(p, _, _) => At(s, p, Claimed)
    case Send(p, _) => At(s, p, Claimed)
    case SendFailed(p, _, _) => At(s, p, Sending)
    case SendOk(p, _) => At(s, p, Sending)
  }

  /** A worker's stretch replaces or drops its copy. */
  function Replace(s: State, p: Ptr, h: Handled): State {
    s.(db := h.db, copies := if h.copy.Some? then s.copies[p := h.copy.value] else s.copies - {p})
  }

  function Move(s: State, p: Ptr, place: Place): State
    requires p in s.copies
  {
    s.(copies := s.copies[p := s.copies[p].(place := place)])
  }

  function SubmitEffect(s: State, n: Note, p: Ptr, full: bool): State {
    var r := Created(s.db, Prepared(n, s.now), s.now);
    var enqueued := r.created && !Future(n.scheduleAt, s.now) && !full;
    s.(db := r.db, copies := if enqueued then s.copies[p := Copy(r.saved, InQueue)] else s.copies)
  }

  /** The stretch of `deliver` that a worker action performs on its copy. */
  function WorkerStretch(max: int, s: State, a: Action): Handled
    requires a.Expire? || a.Claim? || a.NoProvider? || a.SendFailed? || a.SendOk?
    requires a.ptr in s.copies
  {
    var n := s.copies[a.ptr].note;
    match a
    case Expire(_) => ExpireStep(s.db, n, s.now)
    case Claim(_) => ClaimStep(s.db, n, s.now)
    case NoProvider(_, error, platform) => RetryStep(max, s.db, n, error, s.now, platform)
    case SendFailed(_, error, platform) => RetryStep(max, s.db, n, error, s.now, platform)
    case SendOk(_, result) => SettleStep(s.db, n, result, s.now)
  }

  ghost function Effect(max: int, s: State, a: Action): State
    requires Enabled(s, a)
  {
    match a
    case Tick(elapsed) => s.(now := s.now + elapsed)
    case Submit(n, p, full) => SubmitEffect(s, n, p, full)
    case ApiRead(q, id, expected, next) =>
      var r := RequestOf(s.db, id, expected, next, s.now);
      if r.Some? then s.(requests := s.requests[q := r.value]) else s
    case ApiWrite(q) =>
      var r := s.requests[q];
      s.(db := Updated(s.db, r.note, r.expected, s.now), requests := s.requests - {q})
    case Ingest(r) => s.(db := Ingested(s.db, r, s.now))
    case Restart(boot) =>
      s.(copies := map p | p in boot :: Copy(s.db.notifications[boot[p]], InQueue), requests := map[])
    case Dequeue(p) => Move(s, p, InHand(s.now))
    case Fire(p, full) => if full then s.(copies := s.copies - {p}) else Move(s, p, InQueue)
    case Postpone(p) => Move(s, p, InTimer(s.copies[p].note.scheduleAt.value))
    case Throttle(p, wait) => Move(s, p, InTimer(s.now + wait))
    case Send(p, provider) =>
      s.(copies := s.copies[p := Copy(SendStep(s.copies[p].note, provider), Sending)])
    case _ => Replace(s, a.ptr, WorkerStretch(max, s, a))
  }

  ghost function Step(max: int, s: State, a: Action): State {
    if Enabled(s, a) then Effect(max, s, a) else s
  }

  ghost function Exec(max: int, run: seq<Action>): State {
    if run == [] then INITIAL else Step(max, Exec(max, run[..|run| - 1]), run[|run| - 1])
  }

  lemma ExecStep(max: int, run: seq<Action>, a: Action)
    ensures Exec(max, run + [a]) == Step(max, Exec(max, run), a)
  {
    assert (run + [a])[..|run|] == run;
  }

  /** A submission that creates a record does so under an ID that no record has. Generated IDs
      carry 96 random bits; the API accepts an ID of the caller without checking it. */
  predicate FreshStep(s: State, a: Action) {
    a.Submit? && a.n.id in s.db.notifications ==> KeyOf(a.n) in s.db.idempotency
  }

  ghost predicate FreshRun(max: int, run: seq<Action>) {
    run != [] ==>
      FreshRun(max, run[..|run| - 1]) && FreshStep(Exec(max, run[..|run| - 1]), run[|run| - 1])
  }

  /** A provider call for `id` begins in this step. */
  ghost predicate Sends(s: State, a: Action, id: string) {
    a.Send? && Enabled(s, a) && s.copies[a.ptr].note.id == id
  }

  ghost function SendCount(max: int, run: seq<Action>, id: string): nat {
    if run == [] then 0
    else SendCount(max, run[..|run| - 1], id)
         + if Sends(Exec(max, run[..|run| - 1]), run[|run| - 1], id) then 1 else 0
  }

  // ---------- The invariant that relates live copies and API calls to the stored records ----------

  predicate Owner(notes: map<string, Note>, n: Note) {
    n.id in notes && n.tenantId == notes[n.id].tenantId && n.idempotencyKey == notes[n.id].idempotencyKey
  }

  /** A copy never runs ahead of its record. A waiting copy believes in `queued`; if the record
      says so too, the versions agree. A busy copy believes in `processing`, and the record agrees
      exactly when the versions do. */
  predicate CopyOk(notes: map<string, Note>, c: Copy) {
    && Owner(notes, c.note)
    && var r := notes[c.note.id];
    && c.note.version <= r.version
    && (Waiting(c.place) ==>
          && c.note.status == Queued
          && r.status != Processing
          && (r.status == Queued ==> c.note.version == r.version))
    && (Busy(c.place) ==>
          && c.note.status == Processing
          && r.status != Queued
          && (r.status == Processing <==> c.note.version == r.version))
  }

  /** An API call in flight holds a legal successor of the record it read, if that is current. */
  predicate RequestOk(notes: map<string, Note>, q: Request) {
    && Owner(notes, q.note)
    && var r := notes[q.note.id];
    && q.expected <= r.version
    && q.note.status in {Canceled, Paused}
    && (q.note.version == q.expected || q.note.version == q.expected + 1)
    && (q.expected == r.version ==>
          if q.note.version == q.expected then q.note.status == r.status else Edge(r.status, q.note.status))
  }

  ghost predicate Keyed(notes: map<string, Note>) {
    forall id | id in notes :: notes[id].id == id
  }

  /** No two live copies are of the same notification. */
  ghost predicate SingleCopies(s: State) {
    forall p, q | p in s.copies && q in s.copies && s.copies[p].note.id == s.copies[q].note.id :: p == q
  }

  ghost predicate Inv(s: State) {
    && Keyed(s.db.notifications)
    && (forall p | p in s.copies :: CopyOk(s.db.notifications, s.copies[p]))
    && SingleCopies(s)
    && (forall q | q in s.requests :: RequestOk(s.db.notifications, s.requests[q]))
  }

  // ---------- How the stored records move ----------

  /** A stored record keeps its owner and its version only grows; an equal version means an equal
      status. */
  predicate MovesAt(before: map<string, Note>, after: map<string, Note>, id: string) {
    id in before ==>
      && id in after
      && after[id].id == before[id].id
      && after[id].tenantId == before[id].tenantId
      && after[id].idempotencyKey == before[id].idempotencyKey
      && before[id].version <= after[id].version <= before[id].version + 1
      && (before[id].version == after[id].version ==> before[id].status == after[id].status)
  }

  /** The same for a write by anyone but the worker that holds the copy: a new version is neither
      queued nor processing. */
  predicate ForeignAt(before: map<string, Note>, after: map<string, Note>, id: string) {
    && MovesAt(before, after, id)
    && (id in before && before[id].version < after[id].version ==> after[id].status !in {Queued, Processing})
  }

  lemma CopyKept(before: map<string, Note>, after: map<string, Note>, c: Copy)
    requires Keyed(before) && CopyOk(before, c) && ForeignAt(before, after, c.note.id)
    ensures CopyOk(after, c)
  {
  }

  lemma RequestKept(before: map<string, Note>, after: map<string, Note>, q: Request)
    requires Keyed(before) && RequestOk(before, q) && MovesAt(before, after, q.note.id)
    ensures RequestOk(after, q)
  {
  }

  ghost predicate AllForeign(before: map<string, Note>, after: map<string, Note>) {
    forall id :: ForeignAt(before, after, id)
  }

  /** The acting pointer of a worker's stretch, which alone may make a record queued or processing. */
  predicate IsWorker(a: Action) {
    a.Expire? || a.Claim? || a.NoProvider? || a.SendFailed? || a.SendOk?
  }

  lemma UpdateWrites(db: Snapshot, n: Note, expected: int, now: int)
    ensures Updated(db, n, expected, now).notifications ==
            if UpdateOk(db, n.id, expected) then db.notifications[n.id := n] else db.notifications
  {
  }

  lemma IngestMoves(db: Snapshot, r: Receipt, now: int)
    requires Keyed(db.notifications)
    ensures Keyed(Ingested(db, r, now).notifications)
    ensures AllForeign(db.notifications, Ingested(db, r, now).notifications)
  {
    assert r.notificationId in db.notifications ==> db.notifications[r.notificationId].id == r.notificationId;
  }

  lemma ApiWriteMoves(s: State, q: nat)
    requires Inv(s) && q in s.requests
    ensures var r := s.requests[q]; var after := Updated(s.db, r.note, r.expected, s.now).notifications;
      Keyed(after) && AllForeign(s.db.notifications, after)
  {
    var r := s.requests[q];
    UpdateWrites(s.db, r.note, r.expected, s.now);
    assert RequestOk(s.db.notifications, r);
  }

  lemma SubmitMoves(s: State, n: Note, p: Ptr, full: bool)
    requires Keyed(s.db.notifications) && FreshStep(s, Submit(n, p, full))
    ensures var after := SubmitEffect(s, n, p, full).db.notifications;
      && Keyed(after) && AllForeign(s.db.notifications, after)
      && (forall id | id in s.db.notifications :: id in after && after[id] == s.db.notifications[id])
      && (forall id | id in after && id !in s.db.notifications ::
            id == n.id && after[id] == Prepared(n, s.now) && KeyOf(n) !in s.db.idempotency)
  {
  }

  predicate Active(status: Status) {
    status == Queued || status == Processing
  }

  /** A copy is dropped only when its record needs no worker any more. */
  predicate DropOk(c: Copy, h: Handled) {
    h.copy.None? ==> c.note.id in h.db.notifications && !Active(h.db.notifications[c.note.id].status)
  }

  /** What every stretch of a worker does: nothing, or one accepted update of the copy's own
      record at the copy's own version; the surviving copy stands in the same relation to it. */
  predicate StretchOk(db: Snapshot, c: Copy, h: Handled) {
    var before, after, id := db.notifications, h.db.notifications, c.note.id;
    && (|| after == before
        || (UpdateOk(db, id, c.note.version) && id in after && after == before[id := after[id]]
            && MovesAt(before, after, id)))
    && (h.copy.Some? ==> h.copy.value.note.id == id && CopyOk(after, h.copy.value))
  }

  lemma ExpireOk(db: Snapshot, c: Copy, now: int)
    requires Keyed(db.notifications) && CopyOk(db.notifications, c) && c.place.InHand?
    ensures StretchOk(db, c, ExpireStep(db, c.note, now))
    ensures DropOk(c, ExpireStep(db, c.note, now))
  {
    UpdateWrites(db, Transitioned(c.note, Expired, now).value, c.note.version, now);
  }

  lemma ClaimOk(db: Snapshot, c: Copy, now: int)
    requires Keyed(db.notifications) && CopyOk(db.notifications, c) && c.place.InHand?
    ensures StretchOk(db, c, ClaimStep(db, c.note, now))
    ensures DropOk(c, ClaimStep(db, c.note, now))
  {
    UpdateWrites(db, Transitioned(c.note, Processing, now).value, c.note.version, now);
  }

  lemma RetryOk(max: int, db: Snapshot, c: Copy, error: string, now: int, platform: Int64)
    requires Keyed(db.notifications) && CopyOk(db.notifications, c) && Busy(c.place)
    ensures StretchOk(db, c, RetryStep(max, db, c.note, error, now, platform))
    ensures DropOk(c, RetryStep(max, db, c.note, error, now, platform))
  {
    var m := c.note.(lastError := error);
    var next := if m.attempts >= max then Failed else Queued;
    UpdateWrites(db, Transitioned(m, next, now).value, c.note.version, now);
  }

  lemma SettleOk(db: Snapshot, c: Copy, result: Status, now: int)
    requires Keyed(db.notifications) && CopyOk(db.notifications, c) && Busy(c.place)
    ensures StretchOk(db, c, SettleStep(db, c.note, result, now))
    ensures Settles(result) ==> DropOk(c, SettleStep(db, c.note, result, now))
  {
    var t := Transitioned(c.note, Reported(result), now);
    if t.Some? {
      UpdateWrites(db, t.value, c.note.version, now);
    }
  }

  lemma StretchIsOk(max: int, s: State, a: Action)
    requires Keyed(s.db.notifications) && IsWorker(a)
    requires a.ptr in s.copies && CopyOk(s.db.notifications, s.copies[a.ptr])
    requires if a.Expire? || a.Claim? then s.copies[a.ptr].place.InHand? else Busy(s.copies[a.ptr].place)
    ensures StretchOk(s.db, s.copies[a.ptr], WorkerStretch(max, s, a))
    ensures (a.SendOk? ==> Settles(a.result)) ==> DropOk(s.copies[a.ptr], WorkerStretch(max, s, a))
  {
    hide ExpireStep, ClaimStep, RetryStep, SettleStep, StretchOk, DropOk, Keyed, CopyOk;
    var c := s.copies[a.ptr];
    match a {
      case Expire(_) => ExpireOk(s.db, c, s.now);
      case Claim(_) => ClaimOk(s.db, c, s.now);
      case NoProvider(_, error, platform) => RetryOk(max, s.db, c, error, s.now, platform);
      case SendFailed(_, error, platform) => RetryOk(max, s.db, c, error, s.now, platform);
      case SendOk(_, result) => SettleOk(s.db, c, result, s.now);
    }
  }

  lemma WorkerOk(max: int, s: State, a: Action)
    requires Inv(s) && IsWorker(a) && Enabled(s, a)
    ensures a.ptr in s.copies
    ensures Effect(max, s, a) == Replace(s, a.ptr, WorkerStretch(max, s, a))
    ensures StretchOk(s.db, s.copies[a.ptr], WorkerStretch(max, s, a))
    ensures (a.SendOk? ==> Settles(a.result)) ==> DropOk(s.copies[a.ptr], WorkerStretch(max, s, a))
  {
    hide Effect, WorkerStretch, StretchOk, DropOk;
    EffectOfStretch(max, s, a);
    StretchIsOk(max, s, a);
  }

  lemma RelocateKeepsInv(s: State, p: Ptr, c: Copy)
    requires Inv(s) && p in s.copies && CopyOk(s.db.notifications, c) && c.note.id == s.copies[p].note.id
    ensures Inv(s.(copies := s.copies[p := c]))
  {
  }

  lemma DropKeepsInv(s: State, p: Ptr)
    requires Inv(s)
    ensures Inv(s.(copies := s.copies - {p}))
  {
  }

  lemma ForeignKeepsInv(s: State, t: State)
    requires Inv(s) && t.copies == s.copies && t.requests.Keys <= s.requests.Keys
    requires forall q | q in t.requests :: t.requests[q] == s.requests[q]
    requires Keyed(t.db.notifications) && AllForeign(s.db.notifications, t.db.notifications)
    ensures Inv(t)
  {
    forall p | p in t.copies
      ensures CopyOk(t.db.notifications, t.copies[p])
    {
      CopyKept(s.db.notifications, t.db.notifications, s.copies[p]);
    }
    forall q | q in t.requests
      ensures RequestOk(t.db.notifications, t.requests[q])
    {
      assert ForeignAt(s.db.notifications, t.db.notifications, s.requests[q].note.id);
      RequestKept(s.db.notifications, t.db.notifications, s.requests[q]);
    }
  }

  /** A stretch is invisible to copies and calls of other notifications, and calls of the same
      one survive it. */
  lemma StretchKeepsInv(s: State, p: Ptr, h: Handled)
    requires Inv(s) && p in s.copies && StretchOk(s.db, s.copies[p], h)
    ensures Inv(Replace(s, p, h))
  {
    var t := Replace(s, p, h);
    var before, after, id := s.db.notifications, h.db.notifications, s.copies[p].note.id;
    assert CopyOk(before, s.copies[p]);
    forall r | r in t.copies
      ensures CopyOk(after, t.copies[r])
    {
      if r != p {
        assert CopyOk(before, s.copies[r]);
        assert s.copies[r].note.id != id;
      }
    }
    forall q | q in t.requests
      ensures RequestOk(after, t.requests[q])
    {
      assert RequestOk(before, s.requests[q]);
      if s.requests[q].note.id == id {
        RequestKept(before, after, s.requests[q]);
      }
    }
  }

  lemma SubmitKeepsInv(s: State, n: Note, p: Ptr, full: bool)
    requires Inv(s) && FreshStep(s, Submit(n, p, full)) && p !in s.copies
    ensures Inv(SubmitEffect(s, n, p, full))
  {
    var t := SubmitEffect(s, n, p, full);
    var stored := s.(db := t.db);
    SubmitMoves(s, n, p, full);
    ForeignKeepsInv(s, stored);
    if t.copies != s.copies {
      forall q | q in s.copies
        ensures s.copies[q].note.id != n.id
      {
        assert CopyOk(s.db.notifications, s.copies[q]);
      }
      AddKeepsInv(stored, p, t.copies[p]);
    }
  }

  lemma AddKeepsInv(s: State, p: Ptr, c: Copy)
    requires Inv(s) && CopyOk(s.db.notifications, c)
    requires forall q | q in s.copies :: s.copies[q].note.id != c.note.id
    ensures Inv(s.(copies := s.copies[p := c]))
  {
  }

  lemma RestartKeepsInv(max: int, s: State, boot: map<Ptr, string>)
    requires Inv(s) && Bootable(s.db, boot)
    ensures Inv(Effect(max, s, Restart(boot)))
  {
  }

  lemma ApiReadKeepsInv(max: int, s: State, a: Action)
    requires Inv(s) && a.ApiRead? && Enabled(s, a)
    ensures Inv(Effect(max, s, a))
  {
    var t := Effect(max, s, a);
    forall q | q in t.requests
      ensures RequestOk(t.db.notifications, t.requests[q])
    {
      if q == a.request && q !in s.requests {
        assert s.db.notifications[a.id].id == a.id;
      }
    }
  }

  predicate IsMove(a: Action) {
    a.Dequeue? || a.Fire? || a.Postpone? || a.Throttle? || a.Send?
  }

  /** A move changes nothing but one copy: its place, and for a send its attempts and provider. */
  function Moved(s: State, a: Action): Copy
    requires IsMove(a) && a.ptr in s.copies
    requires a.Postpone? ==> s.copies[a.ptr].note.scheduleAt.Some?
  {
    var c := s.copies[a.ptr];
    match a
    case Dequeue(_) => c.(place := InHand(s.now))
    case Fire(_, _) => c.(place := InQueue)
    case Postpone(_) => c.(place := InTimer(c.note.scheduleAt.value))
    case Throttle(_, wait) => c.(place := InTimer(s.now + wait))
    case Send(_, provider) => Copy(SendStep(c.note, provider), Sending)
  }

  lemma EffectOfMove(max: int, s: State, a: Action)
    requires IsMove(a) && Enabled(s, a)
    ensures a.ptr in s.copies && (a.Postpone? ==> s.copies[a.ptr].note.scheduleAt.Some?)
    ensures Effect(max, s, a) ==
            if a.Fire? && a.full then s.(copies := s.copies - {a.ptr}) else s.(copies := s.copies[a.ptr := Moved(s, a)])
    ensures Moved(s, a).note.id == s.copies[a.ptr].note.id
    ensures a.Send? ==> s.copies[a.ptr].place == Claimed && Moved(s, a).place == Sending
                        && Moved(s, a).note == SendStep(s.copies[a.ptr].note, a.provider)
    ensures !a.Send? ==> Waiting(s.copies[a.ptr].place) && Waiting(Moved(s, a).place)
                         && Moved(s, a).note == s.copies[a.ptr].note
  {
    hide WorkerStretch, SubmitEffect, RequestOf, Updated, Ingested;
  }

  lemma EffectOfStretch(max: int, s: State, a: Action)
    requires IsWorker(a) && Enabled(s, a)
    ensures a.ptr in s.copies
    ensures Effect(max, s, a) == Replace(s, a.ptr, WorkerStretch(max, s, a))
    ensures if a.Expire? || a.Claim? then s.copies[a.ptr].place.InHand? else Busy(s.copies[a.ptr].place)
  {
    hide WorkerStretch, SubmitEffect, RequestOf, Updated, Ingested, Replace;
  }

  lemma EffectOfSubmit(max: int, s: State, a: Action)
    requires a.Submit? && Enabled(s, a)
    ensures Effect(max, s, a) == SubmitEffect(s, a.n, a.ptr, a.full) && a.ptr !in s.copies
  {
    hide WorkerStretch, SubmitEffect, RequestOf, Updated, Ingested;
  }

  lemma EffectOfRestart(max: int, s: State, boot: map<Ptr, string>)
    requires Bootable(s.db, boot)
    ensures Step(max, s, Restart(boot))
            == s.(copies := map p | p in boot :: Copy(s.db.notifications[boot[p]], InQueue), requests := map[])
  {
    hide WorkerStretch, SubmitEffect, RequestOf, Updated, Ingested;
  }

  lemma EffectOfQuiet(max: int, s: State, a: Action)
    requires (a.Tick? || a.ApiRead?) && Enabled(s, a)
    ensures Effect(max, s, a).db == s.db && Effect(max, s, a).copies == s.copies
    ensures Effect(max, s, a).now >= s.now
  {
    hide WorkerStretch, SubmitEffect, RequestOf, Updated, Ingested;
  }

  lemma MoveKeepsInv(max: int, s: State, a: Action)
    requires Inv(s) && IsMove(a) && Enabled(s, a)
    ensures Inv(Effect(max, s, a))
  {
    hide Effect, Enabled, Moved;
    EffectOfMove(max, s, a);
    assert CopyOk(s.db.notifications, s.copies[a.ptr]);
    DropKeepsInv(s, a.ptr);
    RelocateKeepsInv(s, a.ptr, Moved(s, a));
  }

  lemma OutsideKeepsInv(max: int, s: State, a: Action)
    requires Inv(s) && Enabled(s, a) && (a.Tick? || a.ApiWrite? || a.Ingest?)
    ensures Inv(Effect(max, s, a))
  {
    hide WorkerStretch, SubmitEffect, RequestOf, Updated, Ingested;
    if a.ApiWrite? {
      ApiWriteMoves(s, a.request);
    } else if a.Ingest? {
      IngestMoves(s.db, a.receipt, s.now);
    }
    ForeignKeepsInv(s, Effect(max, s, a));
  }

  lemma StepKeepsInv(max: int, s: State, a: Action)
    requires Inv(s) && FreshStep(s, a)
    ensures Inv(Step(max, s, a))
  {
    hide Effect, WorkerStretch, StretchOk, FreshStep, Inv, Replace, Bootable;
    if Enabled(s, a) {
      if IsWorker(a) {
        EffectOfStretch(max, s, a);
        WorkerOk(max, s, a);
        StretchKeepsInv(s, a.ptr, WorkerStretch(max, s, a));
      } else if IsMove(a) {
        MoveKeepsInv(max, s, a);
      } else {
        match a {
          case Submit(n, p, full) =>
            EffectOfSubmit(max, s, a);
            SubmitKeepsInv(s, n, p, full);
          case ApiRead(_, _, _, _) => ApiReadKeepsInv(max, s, a);
          case Restart(boot) => RestartKeepsInv(max, s, boot);
          case _ => OutsideKeepsInv(max, s, a);
        }
      }
    }
  }

  lemma StepDequeues(max: int, s: State, a: Action, p: Ptr)
    requires Dequeued(Step(max, s, a), p)
    ensures Step(max, s, a).now >= s.now
    ensures var since := Step(max, s, a).copies[p].place.since;
      since == s.now || (Dequeued(s, p) && since == s.copies[p].place.since)
  {
    hide SubmitEffect, RequestOf, Updated, Ingested;
    if Enabled(s, a) && a.Submit? {
      EffectOfSubmit(max, s, a);
      SubmittedCopy(s, a.n, a.ptr, a.full);
    }
  }

  lemma SubmittedCopy(s: State, n: Note, p: Ptr, full: bool)
    ensures var t := SubmitEffect(s, n, p, full);
      && t.now == s.now
      && (t.copies == s.copies
          || (p in t.copies && t.copies[p].place == InQueue && t.copies == s.copies[p := t.copies[p]]))
  {
    hide Created;
  }

  /** A copy in a worker's hand was dequeued in the past. */
  lemma {:induction false} DequeuedInPast(max: int, run: seq<Action>, p: Ptr)
    requires Dequeued(Exec(max, run), p)
    ensures Exec(max, run).copies[p].place.since <= Exec(max, run).now
  {
    hide Step;
    if run != [] {
      var front, a := run[..|run| - 1], run[|run| - 1];
      StepDequeues(max, Exec(max, front), a, p);
      if Dequeued(Exec(max, front), p) {
        DequeuedInPast(max, front, p);
      }
    }
  }

  /** In every state of every run: no copy runs ahead of its record, no notification has two live
      copies, and agreement on the version means agreement as described at `CopyOk`. */
  lemma {:induction false} RunKeepsInv(max: int, run: seq<Action>)
    requires FreshRun(max, run)
    ensures Inv(Exec(max, run))
  {
    if run != [] {
      RunKeepsInv(max, run[..|run| - 1]);
      StepKeepsInv(max, Exec(max, run[..|run| - 1]), run[|run| - 1]);
    }
  }
}
