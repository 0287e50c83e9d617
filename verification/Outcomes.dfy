/** What the operations on notifications come to, said in statuses, instants and numbers alone. */
module Outcomes {
  import opened Wrappers
  import opened Domain
  import opened Decimal
  import opened Repository
  import opened Receipts
  import opened Delivery
  import opened Protocol
  import opened Stranding
  import opened Conformity
  import opened Budget
  import opened Spacing
  import opened Worker

  // ---------- The table of status changes ----------

  /** From each status exactly these others can be reached, and every change is one version on. */
  lemma TableInWords(n: Note, next: Status, now: int)
    ensures Transitioned(n, next, now).Some? <==>
            || next == n.status
            || (n.status == Queued && (next == Processing || next == Canceled || next == Paused || next == Expired))
            || (n.status == Processing
                && (next == Accepted || next == Sent || next == Failed || next == Queued || next == Paused))
            || (n.status == Accepted && (next == Sent || next == Delivered || next == Bounced || next == Failed))
            || (n.status == Sent && (next == Delivered || next == Bounced || next == Complained || next == Failed))
            || (n.status == Paused && (next == Queued || next == Canceled))
    ensures Transitioned(n, next, now).Some? ==>
              Transitioned(n, next, now).value
              == if next == n.status then n else n.(status := next, version := n.version + 1, updatedAt := now)
  {
  }

  /** A Pause is accepted exactly from queued, processing and paused, a Cancel exactly from queued,
      paused and canceled, each at the expected version if one is given. */
  lemma PauseAndCancelExactly(db: Snapshot, id: string, expected: int, now: int)
    ensures RequestOf(db, id, expected, Paused, now).Some? <==>
            && id in db.notifications && (expected > 0 ==> db.notifications[id].version == expected)
            && db.notifications[id].status in {Queued, Processing, Paused}
    ensures RequestOf(db, id, expected, Canceled, now).Some? <==>
            && id in db.notifications && (expected > 0 ==> db.notifications[id].version == expected)
            && db.notifications[id].status in {Queued, Paused, Canceled}
    ensures forall next | RequestOf(db, id, expected, next, now).Some? ::
              var request, n := RequestOf(db, id, expected, next, now).value, db.notifications[id];
              && request.expected == n.version
              && request.note == if n.status == next then n
                                 else n.(status := next, version := n.version + 1, updatedAt := now)
  {
  }

  // ---------- The end of an attempt ----------

  /** The store after `n` was written with a status, one version on. */
  predicate StoredAs(s: State, t: State, n: Note, status: Status) {
    t.db.notifications == s.db.notifications[n.id := n.(status := status, version := n.version + 1, updatedAt := s.now)]
  }

  predicate IsCurrent(s: State, n: Note) {
    n.id in s.db.notifications && s.db.notifications[n.id].version == n.version
  }

  lemma SettleStores(db: Snapshot, n: Note, result: Status, now: int)
    requires n.status == Processing
    ensures var h := SettleStep(db, n, result, now);
      && h.copy.None?
      && (!UpdateOk(db, n.id, n.version) ==> h.db == db)
      && (UpdateOk(db, n.id, n.version) ==>
            && (result in {Accepted, Sent, Failed, Queued, Paused} ==>
                  h.db.notifications
                  == db.notifications[n.id := n.(status := result, version := n.version + 1, updatedAt := now)])
            && (result == Other("") ==>
                  h.db.notifications
                  == db.notifications[n.id := n.(status := Accepted, version := n.version + 1, updatedAt := now)])
            && (result == Processing ==> h.db.notifications == db.notifications[n.id := n])
            && (result in {Delivered, Bounced, Complained, Expired, Canceled} ==> h.db == db)
            && (result.Other? && result.text != "" ==> h.db == db))
  {
    forall m: Note, expected: int
      ensures Updated(db, m, expected, now).notifications
              == if UpdateOk(db, m.id, expected) then db.notifications[m.id := m] else db.notifications
    {
      UpdateWrites(db, m, expected, now);
    }
  }

  /** The success of a provider ends the copy. With the record at the copy's version it stores exactly
      the answered status if that is accepted, sent, failed, queued or paused, accepted for an empty
      answer, and nothing new for any other answer; else it stores nothing. */
  lemma AnswerStores(max: int, run: seq<Action>, p: Ptr, result: Status)
    requires FreshRun(max, run) && At(Exec(max, run), p, Sending)
    ensures var s, t := Exec(max, run), Step(max, Exec(max, run), SendOk(p, result)); var n := s.copies[p].note;
      && t.copies == s.copies - {p}
      && (!IsCurrent(s, n) ==> t.db == s.db)
      && (IsCurrent(s, n) ==>
            && (result in {Accepted, Sent, Failed, Queued, Paused} ==> StoredAs(s, t, n, result))
            && (result == Other("") ==> StoredAs(s, t, n, Accepted))
            && (result == Processing ==> t.db.notifications == s.db.notifications[n.id := n])
            && (result in {Delivered, Bounced, Complained, Expired, Canceled} ==> t.db == s.db)
            && (result.Other? && result.text != "" ==> t.db == s.db))
  {
    hide Exec, FreshRun, Effect, SettleStep, Inv;
    var s := Exec(max, run);
    RunKeepsInv(max, run);
    InvCopy(s, p);
    EffectOfStretch(max, s, SendOk(p, result));
    SettleStores(s.db, s.copies[p].note, result, s.now);
  }

  lemma InvCopy(s: State, p: Ptr)
    requires Inv(s) && p in s.copies
    ensures CopyOk(s.db.notifications, s.copies[p])
  {
  }

  /** The answers after which a record is neither queued nor processing. */
  lemma SettlesInWords(result: Status)
    ensures Settles(result) <==> result in {Accepted, Sent, Failed, Paused} || result == Other("")
  {
  }

  /** What a failed attempt leaves: with the budget spent a failed record and no copy, else a queued
      record and a copy in a timer. A record that has moved is left alone. */
  lemma RetryStores(max: int, db: Snapshot, n: Note, error: string, now: int, platform: Int64)
    requires n.status == Processing
    ensures var h := RetryStep(max, db, n, error, now, platform);
      var queued := n.(lastError := error, status := Queued, version := n.version + 1, updatedAt := now);
      && (!UpdateOk(db, n.id, n.version) ==> h.db == db)
      && (n.attempts >= max ==>
            && h.copy.None?
            && (UpdateOk(db, n.id, n.version) ==>
                  h.db.notifications == db.notifications[n.id := queued.(status := Failed)]))
      && (n.attempts < max ==>
            && h.copy.Some? && h.copy.value.note == queued && h.copy.value.place.InTimer?
            && (0 <= n.attempts <= 36 ==> h.copy.value.place.due == now + Power2(n.attempts) * 100_000_000)
            && (n.attempts == 1 ==> h.copy.value.place.due == now + 200_000_000)
            && (UpdateOk(db, n.id, n.version) ==> h.db.notifications == db.notifications[n.id := queued]))
  {
    if 0 <= n.attempts {
      BackoffExact(n.attempts, platform);
    }
    assert Power2(1) == 2;
    hide Backoff;
    forall m: Note, expected: int
      ensures Updated(db, m, expected, now).notifications
              == if UpdateOk(db, m.id, expected) then db.notifications[m.id := m] else db.notifications
    {
      UpdateWrites(db, m, expected, now);
    }
  }

  lemma FailureStores(max: int, run: seq<Action>, p: Ptr, error: string, platform: Int64)
    requires FreshRun(max, run) && At(Exec(max, run), p, Sending)
    ensures var s, t := Exec(max, run), Step(max, Exec(max, run), SendFailed(p, error, platform));
      var n := s.copies[p].note;
      && (!IsCurrent(s, n) ==> t.db == s.db)
      && (n.attempts >= max ==>
            t.copies == s.copies - {p} && (IsCurrent(s, n) ==> StoredAs(s, t, n.(lastError := error), Failed)))
      && (n.attempts < max ==>
            && p in t.copies && t.copies[p].place.InTimer?
            && (0 <= n.attempts <= 36 ==> t.copies[p].place.due == s.now + Power2(n.attempts) * 100_000_000)
            && (IsCurrent(s, n) ==> StoredAs(s, t, n.(lastError := error), Queued)))
  {
    hide Exec, FreshRun, Effect, RetryStep, Inv;
    var s := Exec(max, run);
    RunKeepsInv(max, run);
    InvCopy(s, p);
    EffectOfStretch(max, s, SendFailed(p, error, platform));
    RetryStores(max, s.db, s.copies[p].note, error, s.now, platform);
  }

  /** The waiting times before the second, third and fourth send, in nanoseconds. */
  lemma GapsInNumbers()
    ensures Gap(1, 2) == 200_000_000 && Gap(1, 3) == 600_000_000 && Gap(1, 4) == 1_400_000_000
  {
    assert Power2(4) == 16;
  }

  // ---------- The beginning of an attempt ----------

  /** What the handling of a dequeued copy comes to: before its schedule it waits for that instant,
      after its expiry its record becomes expired, without a grant it waits as told, and else its
      record is claimed. A record that has moved is left alone, and the copy is dropped. */
  lemma BeginStores(db: Snapshot, n: Note, now: int, granted: bool, wait: int)
    requires n.status == Queued
    ensures var h, current := BeginStep(db, n, now, granted, wait), UpdateOk(db, n.id, n.version);
      var moved := n.(version := n.version + 1, updatedAt := now);
      if n.scheduleAt.Some? && now < n.scheduleAt.value then
        h == Handled(db, Some(Copy(n, InTimer(n.scheduleAt.value))))
      else if n.expiresAt.Some? && now > n.expiresAt.value then
        && h.copy.None?
        && (if current then h.db.notifications == db.notifications[n.id := moved.(status := Expired)] else h.db == db)
      else if !granted then
        h == Handled(db, Some(Copy(n, InTimer(now + wait))))
      else if current then
        && h.copy == Some(Copy(moved.(status := Processing), Claimed))
        && h.db.notifications == db.notifications[n.id := moved.(status := Processing)]
      else
        h == Handled(db, None)
  {
    forall m: Note, expected: int
      ensures Updated(db, m, expected, now).notifications
              == if UpdateOk(db, m.id, expected) then db.notifications[m.id := m] else db.notifications
    {
      UpdateWrites(db, m, expected, now);
    }
  }

  /** In every reachable state, a dequeued copy that is due, current and unexpired leaves its record
      processing if the limiter grants, and one that has expired leaves its record expired. */
  lemma BeginOutcome(max: int, run: seq<Action>, p: Ptr, granted: bool, wait: int)
    requires FreshRun(max, run) && Dequeued(Exec(max, run), p) && wait >= 0
    ensures var s := Exec(max, run); var t := Step(max, s, BeginAction(s, p, granted, wait)); var n := s.copies[p].note;
      n.scheduleAt.None? || s.now >= n.scheduleAt.value ==>
        && (n.expiresAt.Some? && s.now > n.expiresAt.value ==>
              t.copies == s.copies - {p} && (IsCurrent(s, n) ==> StoredAs(s, t, n, Expired)))
        && ((n.expiresAt.None? || s.now <= n.expiresAt.value) && granted && IsCurrent(s, n) ==>
              At(t, p, Claimed) && StoredAs(s, t, n, Processing))
  {
    hide Exec, FreshRun, Step, BeginStep, Inv;
    var s := Exec(max, run);
    RunKeepsInv(max, run);
    DequeuedInPast(max, run, p);
    InvCopy(s, p);
    BeginIsStep(max, s, p, granted, wait);
    BeginStores(s.db, s.copies[p].note, s.now, granted, wait);
  }

  /** A send counts one more attempt on the copy and names its provider; the store does not change. */
  lemma SendCountsOne(max: int, s: State, p: Ptr, provider: string)
    requires At(s, p, Claimed)
    ensures var t := Step(max, s, Send(p, provider)); var n := s.copies[p].note;
      t == s.(copies := s.copies[p := Copy(n.(provider := provider, attempts := n.attempts + 1), Sending)])
  {
    hide Effect;
    EffectOfMove(max, s, Send(p, provider));
  }

  // ---------- No send after the expiry or before the schedule ----------

  /** When copy `p` was last dequeued. */
  ghost function DequeuedAt(max: int, run: seq<Action>, p: Ptr): int {
    if run == [] then 0
    else
      var s, a := Exec(max, run[..|run| - 1]), run[|run| - 1];
      if a == Dequeue(p) && Enabled(s, a) then s.now else DequeuedAt(max, run[..|run| - 1], p)
  }

  /** A copy in hand remembers when it was dequeued; one in an attempt had not expired then, and its
      schedule has come. */
  predicate InTime(s: State, p: Ptr, dequeued: int) {
    p in s.copies ==>
      var c := s.copies[p];
      && (c.place.InHand? ==> c.place.since == dequeued)
      && (c.place == Claimed || c.place == Sending ==>
            && (c.note.expiresAt.Some? ==> dequeued <= c.note.expiresAt.value)
            && (c.note.scheduleAt.Some? ==> c.note.scheduleAt.value <= s.now))
  }

  lemma StretchInTime(max: int, s: State, a: Action, dequeued: int)
    requires IsWorker(a) && Enabled(s, a) && InTime(s, a.ptr, dequeued)
    ensures InTime(Replace(s, a.ptr, WorkerStretch(max, s, a)), a.ptr, dequeued)
  {
    hide Effect, Updated, Backoff;
  }

  lemma MoveInTime(s: State, a: Action, dequeued: int)
    requires IsMove(a) && Enabled(s, a) && InTime(s, a.ptr, dequeued)
    ensures a.Postpone? ==> s.copies[a.ptr].note.scheduleAt.Some?
    ensures InTime(s.(copies := s.copies[a.ptr := Moved(s, a)]), a.ptr, if a.Dequeue? then s.now else dequeued)
  {
  }

  lemma StepInTime(max: int, s: State, a: Action, p: Ptr, dequeued: int)
    requires InTime(s, p, dequeued)
    ensures InTime(Step(max, s, a), p, if a == Dequeue(p) && Enabled(s, a) then s.now else dequeued)
  {
    hide Effect, WorkerStretch, SubmitEffect, Moved;
    if Enabled(s, a) {
      if IsWorker(a) {
        EffectOfStretch(max, s, a);
        if a.ptr == p {
          StretchInTime(max, s, a, dequeued);
        }
      } else if IsMove(a) {
        EffectOfMove(max, s, a);
        if a.ptr == p {
          MoveInTime(s, a, dequeued);
        }
      } else if a.Submit? {
        EffectOfSubmit(max, s, a);
        SubmittedCopy(s, a.n, a.ptr, a.full);
      } else {
        OutsideInTime(max, s, a);
      }
    }
  }

  lemma OutsideInTime(max: int, s: State, a: Action)
    requires Enabled(s, a) && !IsWorker(a) && !IsMove(a) && !a.Submit?
    ensures var t := Effect(max, s, a);
      t.now >= s.now && (t.copies == s.copies || forall p | p in t.copies :: t.copies[p].place == InQueue)
  {
    hide WorkerStretch, SubmitEffect, RequestOf, Updated, Ingested;
  }

  lemma {:induction false} RunInTime(max: int, run: seq<Action>, p: Ptr)
    ensures InTime(Exec(max, run), p, DequeuedAt(max, run, p))
  {
    hide Step, InTime;
    if run != [] {
      RunInTime(max, run[..|run| - 1], p);
      StepInTime(max, Exec(max, run[..|run| - 1]), run[|run| - 1], p, DequeuedAt(max, run[..|run| - 1], p));
    } else {
      NoneInTime(INITIAL, p);
    }
  }

  lemma NoneInTime(s: State, p: Ptr)
    requires s.copies == map[]
    ensures InTime(s, p, 0)
  {
  }

  /** Over every run: a send begins only for a copy that was dequeued for this attempt no later than its
      expiry, and not before its schedule. */
  lemma SendsInTime(max: int, run: seq<Action>, a: Action, id: string)
    requires Sends(Exec(max, run), a, id)
    ensures var s := Exec(max, run); var n := s.copies[a.ptr].note;
      && n.id == id
      && (n.expiresAt.Some? ==> DequeuedAt(max, run, a.ptr) <= n.expiresAt.value)
      && (n.scheduleAt.Some? ==> n.scheduleAt.value <= s.now)
  {
    RunInTime(max, run, a.ptr);
    hide Effect;
    EffectOfMove(max, Exec(max, run), a);
  }

  // ---------- Submissions and replays ----------

  /** A submission that creates a record stores it as queued at version 1, under its own ID, and keeps
      its attempts; its copy is in the queue unless that is full or the schedule is still to come. */
  lemma SubmissionStores(max: int, s: State, n: Note, p: Ptr, full: bool)
    requires Enabled(s, Submit(n, p, full)) && Creates(s, Submit(n, p, full), n.id)
    ensures var t := Step(max, s, Submit(n, p, full));
      var stored := n.(status := Queued, version := 1, createdAt := s.now, updatedAt := s.now);
      && t.db.notifications == s.db.notifications[n.id := stored]
      && t.copies == if !full && (n.scheduleAt.None? || n.scheduleAt.value <= s.now)
                     then s.copies[p := Copy(stored, InQueue)] else s.copies
  {
    hide Effect;
    EffectOfSubmit(max, s, Submit(n, p, full));
  }

  /** A replay keeps what is delivered, to whom, and when, and starts with no attempts, so that it has
      its whole budget again: over every run it is sent at most `max` times. */
  lemma ReplayHasWholeBudget(max: int, run: seq<Action>, original: Note, newId: string, suffix: string, p: Ptr,
                             full: bool, later: seq<Action>)
    requires max >= 1
    requires var submit := Submit(ReplayOf(original, newId, suffix), p, full);
      FreshRun(max, run + [submit] + later) && NoOverrun(max, run + [submit] + later)
      && Creates(Exec(max, run), submit, newId)
    ensures var n := ReplayOf(original, newId, suffix);
      && n.id == newId && n.attempts == 0 && n.provider == "" && n.lastError == ""
      && n.idempotencyKey == original.idempotencyKey + ":" + suffix
      && n.tenantId == original.tenantId && n.channel == original.channel && n.priority == original.priority
      && n.scheduleAt == original.scheduleAt && n.expiresAt == original.expiresAt
    ensures SendCount(max, run + [Submit(ReplayOf(original, newId, suffix), p, full)] + later, newId) <= max
  {
    StartKept(max, run, Submit(ReplayOf(original, newId, suffix), p, full), later, newId);
    SentAtMostMax(max, run + [Submit(ReplayOf(original, newId, suffix), p, full)] + later, newId);
  }

  /** An ID is created at most once, so what it was submitted with stays. */
  lemma {:induction false} StartKept(max: int, run: seq<Action>, submit: Action, later: seq<Action>, id: string)
    requires FreshRun(max, run + [submit] + later) && Creates(Exec(max, run), submit, id)
    ensures StartOf(max, run + [submit] + later, id) == submit.n.attempts
    ensures id in Exec(max, run + [submit] + later).db.notifications
    decreases |later|
  {
    hide Step, FreshStep, Creates;
    var full := run + [submit] + later;
    if later == [] {
      assert full == run + [submit] && full[..|full| - 1] == run;
      RunKeepsInv(max, run);
      LateExists(max, Exec(max, run), submit, id);
    } else {
      var front := later[..|later| - 1];
      assert full[..|full| - 1] == run + [submit] + front;
      StartKept(max, run, submit, front, id);
      RunKeepsInv(max, run + [submit] + front);
      LateExists(max, Exec(max, run + [submit] + front), later[|later| - 1], id);
    }
  }

  // ---------- Receipts ----------

  /** A receipt changes the store exactly if it names a provider and a stored notification, carries a
      positive sequence and one of these six statuses, and its key is new. */
  lemma ReceiptChangesExactly(db: Snapshot, r: Receipt, now: int)
    requires r.notificationId in db.notifications ==> db.notifications[r.notificationId].id == r.notificationId
    ensures Ingested(db, r, now) != db <==>
            && r.provider != "" && r.notificationId != "" && r.sequence >= 1
            && r.status in {Accepted, Sent, Delivered, Bounced, Complained, Failed}
            && r.notificationId in db.notifications
            && r.provider + ":" + r.externalId + ":" + PrintedSeq(r.sequence) !in db.receipts
  {
    if Admissible(db, r) && Key(r) !in db.receipts {
      assert Key(r) in Ingested(db, r, now).receipts;
    }
  }

  /** The event of a recorded receipt carries its key, status, provider, sequence and time. */
  lemma ReceiptEvent(db: Snapshot, r: Receipt, now: int)
    requires Ingested(db, r, now) != db
    ensures Timeline(Ingested(db, r, now), r.notificationId)
            == Timeline(db, r.notificationId)
               + [Event(r.provider + ":" + r.externalId + ":" + PrintedSeq(r.sequence), r.notificationId, r.status,
                        r.provider, r.sequence, r.occurredAt, map[])]
  {
  }

  // ---------- What the store logs ----------

  /** A creation and an accepted update each log one event, under the record's ID and the next number,
      with its status; an update names the provider and the attempts. */
  lemma StoreLogs(db: Snapshot, n: Note, expected: int, now: int)
    ensures var number := |Timeline(db, n.id)| + 1; var eventId := n.id + "-" + PrintedNat(number);
      && (Created(db, n, now).created ==>
            && Timeline(Created(db, n, now).db, n.id)
               == Timeline(db, n.id) + [Event(eventId, n.id, n.status, "", number, now, map["source" := "submit"])]
            && Created(db, n, now).db.outbox
               == db.outbox + [OutboxEntry(n.id + "-created", "notification.created", n.id, n, now)])
      && (n.id in db.notifications && db.notifications[n.id].version == expected ==>
            Timeline(Updated(db, n, expected, now), n.id)
            == Timeline(db, n.id) + [Event(eventId, n.id, n.status, n.provider, number, now,
                                           map["attempts" := PrintedNat(n.attempts)])])
  {
  }
}
