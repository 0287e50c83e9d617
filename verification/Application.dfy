/** The application service (internal/application/service.go) on objects. */
module Application {
  import opened Wrappers
  import opened Domain
  import opened Repository
  import opened Delivery
  import opened Protocol
  import opened PriorityQueue

  /** A copy of its own for the queue, and what enqueuing it did. */
  ghost predicate PutInto(queue: PriorityQueue.Queue, before: multiset<(Ticket, Notification)>,
                          after: multiset<(Ticket, Notification)>, n: Notification, stamp: int, ok: bool)
  {
    BagStep(queue.max, before, Enqueued((Ticket(n.priority, stamp), n), ok), after)
  }

  /** One entry per copy, in the order of enqueueing. */
  ghost function Tickets(copies: seq<Notification>, clock: nat -> int): (bag: multiset<(Ticket, Notification)>)
    ensures |bag| == |copies|
  {
    if copies == [] then multiset{}
    else
      var k := |copies| - 1;
      Tickets(copies[..k], clock) + multiset{(Ticket(copies[k].priority, clock(k)), copies[k])}
  }

  /** A submission without an ID gets a generated one. */
  function Identified(n: Note, newId: string): Note {
    if n.id == "" then n.(id := newId) else n
  }

  lemma NoTickets(clock: nat -> int)
    ensures Tickets([], clock) == multiset{}
  {
  }

  lemma OneMoreTicket(copies: seq<Notification>, next: Notification, clock: nat -> int)
    ensures Tickets(copies + [next], clock)
            == Tickets(copies, clock) + multiset{(Ticket(next.priority, clock(|copies|)), next)}
  {
    assert (copies + [next])[..|copies|] == copies;
  }

  class Service {
    const store: Store
    const queue: PriorityQueue.Queue

    ghost predicate Valid()
      reads this, queue, queue.heap, queue.heap.Held()
    {
      queue.Valid()
    }

    constructor (store: Store, queue: PriorityQueue.Queue)
      requires queue.Valid()
      ensures this.store == store && this.queue == queue && Valid()
    {
      this.store, this.queue := store, queue;
    }

    /** A new object for a stored record is offered to the queue. */
    method EnqueueCopy(n: Note, stamp: int) returns (pointer: Notification, ok: bool)
      requires Valid()
      modifies queue.heap, queue.heap.Held()
      ensures Valid() && fresh(queue.heap.Held() - old(queue.heap.Held()))
      ensures fresh(pointer) && pointer.Value() == n
      ensures PutInto(queue, old(queue.Contents()), queue.Contents(), pointer, stamp, ok)
      ensures ok == (|old(queue.Contents())| < queue.max)
      ensures queue.Contents()
              == old(queue.Contents()) + if ok then multiset{(Ticket(pointer.priority, stamp), pointer)} else multiset{}
    {
      pointer := new Notification(n);
      ok := queue.Enqueue(pointer, stamp);
    }

    /** `valid` stands for a live context and a valid notification, `suppressed` for a suppressed
        target; a notification that is not admitted is returned without an effect. A repeated
        submission yields the stored record and enqueues nothing; a new one is enqueued, in a copy
        of its own, unless it is for a future time. A full queue is reported, but the record stays. */
    method Submit(n: Note, newId: string, valid: bool, suppressed: bool, now: int, stamp: int)
      returns (saved: Note, created: bool, copy: Option<Notification>, refused: bool)
      requires Valid()
      modifies store, queue.heap, queue.heap.Held()
      ensures Valid()
      ensures !valid ==> saved == n
      ensures valid && suppressed ==> saved == Prepared(Identified(n, newId), now)
      ensures !valid || suppressed ==> !created && store.Data() == old(store.Data())
      ensures valid && !suppressed ==>
                CreateResult(store.Data(), saved, created)
                == Created(old(store.Data()), Prepared(Identified(n, newId), now), now)
      ensures created ==>
                && saved.id == (if n.id == "" then newId else n.id) && saved.status == Status.Queued
                && saved.version == 1 && saved.attempts == n.attempts && saved.createdAt == saved.updatedAt == now
      ensures copy.Some? || refused <==> created && (n.scheduleAt.None? || n.scheduleAt.value <= now)
      ensures copy.Some? ==> fresh(copy.value) && copy.value.Value() == saved
                             && PutInto(queue, old(queue.Contents()), queue.Contents(), copy.value, stamp, true)
      ensures copy.None? ==> queue.Contents() == old(queue.Contents())
      ensures refused ==> copy.None? && |old(queue.Contents())| >= queue.max
    {
      copy, refused := None, false;
      if !valid {
        return n, false, None, false;
      }
      var m := n;
      if m.id == "" {
        m := m.(id := newId);
      }
      m := m.(status := Status.Queued, createdAt := now, updatedAt := now, version := 1);
      if suppressed {
        return m, false, None, false;
      }
      saved, created := store.Create(m, now);
      if !created {
        return;
      }
      if m.scheduleAt.None? || !(m.scheduleAt.value > now) {
        var pointer, ok := EnqueueCopy(saved, stamp);
        if ok {
          copy := Some(pointer);
        } else {
          refused := true;
        }
      }
    }

    /** The first half of Cancel and Pause: read, compare the version, transition a local copy. */
    method BeginTransition(id: string, expected: int, next: Status, now: int) returns (request: Option<Request>)
      ensures request == RequestOf(store.Data(), id, expected, next, now)
    {
      var found := store.Get(id);
      if found.None? {
        return None;
      }
      var n := found.value;
      if expected > 0 && n.version != expected {
        return None;
      }
      var local := new Notification(n);
      var ok := local.Transition(next, now);
      if !ok {
        return None;
      }
      return Some(Request(local.Value(), n.version));
    }

    /** The second half: write it back if the version is still the one that was read. */
    method CommitTransition(request: Request, now: int) returns (ok: bool)
      modifies store
      ensures store.Data() == Updated(old(store.Data()), request.note, request.expected, now)
      ensures ok == UpdateOk(old(store.Data()), request.note.id, request.expected)
    {
      var error := store.Update(request.note, request.expected, now);
      return error.None?;
    }

    /** Cancel and Pause with nothing in between: accepted exactly when the record exists at the
        expected version and the table allows the change. */
    method Transition(id: string, expected: int, next: Status, now: int) returns (ok: bool)
      requires id in store.notifications ==> store.notifications[id].id == id
      modifies store
      ensures ok <==>
              && id in old(store.notifications)
              && (expected > 0 ==> old(store.notifications)[id].version == expected)
              && (old(store.notifications)[id].status == next || Edge(old(store.notifications)[id].status, next))
      ensures !ok ==> store.Data() == old(store.Data())
      ensures ok ==> id in store.notifications && store.notifications[id].status == next
      ensures ok ==> var n := old(store.notifications)[id];
        store.Data() == Updated(old(store.Data()), Transitioned(n, next, now).value, n.version, now)
    {
      var request := BeginTransition(id, expected, next, now);
      if request.None? {
        return false;
      }
      ok := CommitTransition(request.value, now);
    }

    /** A Cancel with nothing in between succeeds exactly for a queued, paused or canceled record. */
    method Cancel(id: string, expected: int, now: int) returns (ok: bool)
      requires id in store.notifications ==> store.notifications[id].id == id
      modifies store
      ensures ok <==>
              && id in old(store.notifications)
              && (expected > 0 ==> old(store.notifications)[id].version == expected)
              && old(store.notifications)[id].status in {Status.Queued, Status.Paused, Status.Canceled}
      ensures !ok ==> store.Data() == old(store.Data())
      ensures ok ==> id in store.notifications && store.notifications[id].status == Status.Canceled
    {
      ok := Transition(id, expected, Status.Canceled, now);
    }

    /** A Pause with nothing in between succeeds exactly for a queued, processing or paused record. */
    method Pause(id: string, expected: int, now: int) returns (ok: bool)
      requires id in store.notifications ==> store.notifications[id].id == id
      modifies store
      ensures ok <==>
              && id in old(store.notifications)
              && (expected > 0 ==> old(store.notifications)[id].version == expected)
              && old(store.notifications)[id].status in {Status.Queued, Status.Processing, Status.Paused}
      ensures !ok ==> store.Data() == old(store.Data())
      ensures ok ==> id in store.notifications && store.notifications[id].status == Status.Paused
    {
      ok := Transition(id, expected, Status.Paused, now);
    }

    /** A replay is a fresh submission of the stored content: new ID, new key, no attempts. */
    method Replay(id: string, newId: string, suffix: string, valid: bool, suppressed: bool, now: int, stamp: int)
      returns (saved: Option<Note>, copy: Option<Notification>, refused: bool)
      requires Valid() && newId != ""
      modifies store, queue.heap, queue.heap.Held()
      ensures Valid()
      ensures saved.None? <==> id !in old(store.notifications)
      ensures saved.None? || !valid || suppressed ==> store.Data() == old(store.Data()) && copy.None? && !refused
      ensures saved.Some? && valid && !suppressed ==>
        var replay := ReplayOf(old(store.notifications)[id], newId, suffix);
        var effect := Created(old(store.Data()), Prepared(replay, now), now);
        && store.Data() == effect.db && saved.value == effect.saved
        && (copy.Some? || refused <==> effect.created && !Future(replay.scheduleAt, now))
      ensures copy.Some? ==> saved.Some? && fresh(copy.value) && copy.value.Value() == saved.value
                             && PutInto(queue, old(queue.Contents()), queue.Contents(), copy.value, stamp, true)
      ensures copy.None? ==> queue.Contents() == old(queue.Contents())
      ensures refused ==> copy.None? && |old(queue.Contents())| >= queue.max
    {
      copy, refused := None, false;
      var found := store.Get(id);
      if found.None? {
        return None, None, false;
      }
      var again := found.value.(id := "", idempotencyKey := found.value.idempotencyKey + ":" + suffix, attempts := 0,
                                lastError := "", provider := "");
      var result, created, pointer, full := Submit(again, newId, valid, suppressed, now, stamp);
      return Some(result), pointer, full;
    }

    /** The loop of `Recover`; a refused copy is dropped, and a full queue stays full. */
    method EnqueueAll(queued: seq<Note>, clock: nat -> int) returns (copies: seq<Notification>)
      requires Valid()
      modifies queue.heap, queue.heap.Held()
      ensures Valid()
      ensures |copies| <= |queued|
      ensures forall i | 0 <= i < |copies| :: fresh(copies[i]) && copies[i].Value() == queued[i]
      ensures queue.Contents() == old(queue.Contents()) + Tickets(copies, clock)
      ensures |copies| < |queued| ==> |queue.Contents()| >= queue.max
    {
      hide PriorityQueue.Queue.Valid, PriorityQueue.Queue.Contents, Tickets, PutInto;
      copies := [];
      NoTickets(clock);
      var room := true;
      for k := 0 to |queued|
        invariant Valid()
        invariant fresh(queue.heap.Held() - old(queue.heap.Held()))
        invariant |copies| <= k && (room <==> |copies| == k)
        invariant forall i | 0 <= i < |copies| :: fresh(copies[i]) && copies[i].Value() == queued[i]
        invariant queue.Contents() == old(queue.Contents()) + Tickets(copies, clock)
        invariant !room ==> |queue.Contents()| >= queue.max
      {
        var pointer, ok := EnqueueCopy(queued[k], clock(k));
        if ok {
          OneMoreTicket(copies, pointer, clock);
          copies := copies + [pointer];
        } else {
          room := false;
        }
      }
    }

    /** Start-up after a crash: every stored queued record is enqueued in a copy of its own, as long
        as the queue has room; all of them if it has room for all. */
    method Recover(clock: nat -> int) returns (copies: seq<Notification>, queued: seq<Note>)
      requires Valid()
      requires forall id | id in store.notifications :: store.notifications[id].id == id
      modifies queue.heap, queue.heap.Held()
      ensures Valid()
      ensures forall n :: n in queued <==>
                          n.id in store.notifications && store.notifications[n.id] == n && n.status == Status.Queued
      ensures |copies| <= |queued|
      ensures forall i | 0 <= i < |copies| :: fresh(copies[i]) && copies[i].Value() == queued[i]
      ensures forall i, j | 0 <= i < j < |queued| :: queued[i].id != queued[j].id
      ensures queue.Contents() == old(queue.Contents()) + Tickets(copies, clock)
      ensures |copies| < |queued| ==> |queue.Contents()| >= queue.max
      ensures |old(queue.Contents())| + |queued| <= queue.max ==> |copies| == |queued|
    {
      queued := store.Queued();
      copies := EnqueueAll(queued, clock);
    }
  }

  // ---------- Start-up is the restart of the protocol ----------

  /** The notifications that `Recover` enqueues as pointers 0, 1, ... */
  function BootOf(queued: seq<Note>, count: nat): map<Ptr, string>
    requires count <= |queued|
  {
    map p: Ptr | p < count :: queued[p].id
  }

  /** What `Recover` does to an empty queue is a restart of the protocol: the record of every copy is
      queued, each has one copy of its own, at its stored value; and if the queue has room, every
      queued record has one. */
  lemma RecoverIsRestart(max: int, s: State, queued: seq<Note>, count: nat)
    requires count <= |queued|
    requires forall n :: n in queued <==>
                         n.id in s.db.notifications && s.db.notifications[n.id] == n && n.status == Status.Queued
    requires forall i, j | 0 <= i < j < |queued| :: queued[i].id != queued[j].id
    requires forall id | id in s.db.notifications :: s.db.notifications[id].id == id
    ensures var boot := BootOf(queued, count); var t := Step(max, s, Restart(boot));
      && Bootable(s.db, boot)
      && t.db == s.db && t.requests == map[] && t.now == s.now
      && t.copies == (map p: Ptr | p < count :: Copy(queued[p], InQueue))
      && (count == |queued| ==>
            forall id | id in s.db.notifications && s.db.notifications[id].status == Status.Queued :: id in boot.Values)
  {
    hide Step;
    var boot := BootOf(queued, count);
    forall p | p in boot
      ensures queued[p] in queued && boot[p] == queued[p].id
    {
    }
    EffectOfRestart(max, s, boot);
    if count == |queued| {
      forall id | id in s.db.notifications && s.db.notifications[id].status == Status.Queued
        ensures id in boot.Values
      {
        var p :| 0 <= p < |queued| && queued[p] == s.db.notifications[id];
        assert boot[p] == id;
      }
    }
  }
}
