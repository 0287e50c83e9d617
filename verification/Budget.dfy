/** The retry budget, over whole runs with crashes and recoveries. */
module Budget {
  import opened Wrappers
  import opened Domain
  import opened Decimal
  import opened Repository
  import opened Receipts
  import opened Delivery
  import opened Protocol
  import opened Stranding
  import opened Conformity

  /** The attempts with which `id` was submitted: a caller-supplied number, usually 0. */
  ghost function StartOf(max: int, run: seq<Action>, id: string): int {
    if run == [] then 0
    else
      var s, a := Exec(max, run[..|run| - 1]), run[|run| - 1];
      if Creates(s, a, id) then a.n.attempts else StartOf(max, run[..|run| - 1], id)
  }

  /** A waiting copy that the expiry check will not let pass, or did not. */
  predicate Lapsed(c: Copy, now: int) {
    Waiting(c.place) && Past(c.note.expiresAt, now) && (c.place.InHand? ==> Past(c.note.expiresAt, c.place.since))
  }

  /** A success reported as `queued`, and written, puts the record back among those that a restart
      recovers, without looking at the budget: here the budget is spent, and the notification has
      not expired. */
  predicate OverrunsAt(max: int, db: Snapshot, c: Copy, result: Status, now: int) {
    && result == Queued && c.note.attempts >= max
    && UpdateOk(db, c.note.id, c.note.version) && !Past(c.note.expiresAt, now)
  }

  ghost predicate Overruns(max: int, s: State, a: Action) {
    a.SendOk? && Enabled(s, a) && OverrunsAt(max, s.db, s.copies[a.ptr], a.result, s.now)
  }

  /** The copy has counted every send; if the budget is respected (`bounded`), it is sending, may
      still send, or has lapsed. */
  predicate CopyCounts(max: int, c: Copy, now: int, start: int, sends: nat, bounded: bool) {
    && c.note.attempts == start + sends
    && (bounded ==>
          if c.place.Sending? then sends > 0 && (c.note.attempts <= max || sends == 1)
          else c.note.attempts < max || sends == 0 || Lapsed(c, now))
  }

  /** A queued record has counted every send, so a recovered copy starts from the right number. */
  predicate RecordCounts(max: int, r: Note, now: int, start: int, sends: nat, bounded: bool) {
    r.status == Queued ==>
      && r.attempts == start + sends
      && (bounded ==> r.attempts < max || sends == 0 || Past(r.expiresAt, now))
  }

  ghost predicate Counted(max: int, s: State, id: string, start: int, sends: nat, bounded: bool) {
    && (forall p | p in s.copies && s.copies[p].note.id == id ::
          CopyCounts(max, s.copies[p], s.now, start, sends, bounded))
    && (id in s.db.notifications ==> RecordCounts(max, s.db.notifications[id], s.now, start, sends, bounded))
    && (id !in s.db.notifications ==> sends == 0)
    && (bounded ==> sends <= 1 || start + sends <= max)
  }

  /** What the copy and its record count after a stretch. */
  predicate StretchCounted(max: int, c: Copy, h: Handled, now: int, start: int, sends: nat, bounded: bool) {
    && (h.copy.Some? ==> CopyCounts(max, h.copy.value, now, start, sends, bounded))
    && c.note.id in h.db.notifications
    && RecordCounts(max, h.db.notifications[c.note.id], now, start, sends, bounded)
  }

  predicate Counting(max: int, db: Snapshot, c: Copy, now: int, start: int, sends: nat, bounded: bool) {
    && CopyOk(db.notifications, c)
    && CopyCounts(max, c, now, start, sends, bounded)
    && RecordCounts(max, db.notifications[c.note.id], now, start, sends, bounded)
  }

  lemma ExpireCounts(max: int, db: Snapshot, c: Copy, now: int, start: int, sends: nat, bounded: bool)
    requires Counting(max, db, c, now, start, sends, bounded) && c.place.InHand?
    ensures StretchCounted(max, c, ExpireStep(db, c.note, now), now, start, sends, bounded)
  {
    UpdateWrites(db, Transitioned(c.note, Expired, now).value, c.note.version, now);
  }

  lemma ClaimCounts(max: int, db: Snapshot, c: Copy, now: int, start: int, sends: nat, bounded: bool)
    requires Counting(max, db, c, now, start, sends, bounded) && c.place.InHand?
    requires !Past(c.note.expiresAt, c.place.since)
    ensures StretchCounted(max, c, ClaimStep(db, c.note, now), now, start, sends, bounded)
  {
    UpdateWrites(db, Transitioned(c.note, Processing, now).value, c.note.version, now);
  }

  lemma RetryCounts(max: int, db: Snapshot, c: Copy, error: string, now: int, platform: Int64, start: int, sends: nat,
                    bounded: bool)
    requires Counting(max, db, c, now, start, sends, bounded) && Busy(c.place)
    ensures StretchCounted(max, c, RetryStep(max, db, c.note, error, now, platform), now, start, sends, bounded)
  {
    var m := c.note.(lastError := error);
    var next := if m.attempts >= max then Failed else Queued;
    UpdateWrites(db, Transitioned(m, next, now).value, c.note.version, now);
  }

  lemma SettleCounts(max: int, db: Snapshot, c: Copy, result: Status, now: int, start: int, sends: nat, bounded: bool)
    requires Counting(max, db, c, now, start, sends, bounded) && Busy(c.place)
    requires !(bounded && OverrunsAt(max, db, c, result, now))
    ensures StretchCounted(max, c, SettleStep(db, c.note, result, now), now, start, sends, bounded)
  {
    var t := Transitioned(c.note, Reported(result), now);
    if t.Some? {
      UpdateWrites(db, t.value, c.note.version, now);
    }
  }

  lemma StretchCounts(max: int, s: State, a: Action, start: int, sends: nat, bounded: bool)
    requires IsWorker(a) && Enabled(s, a) && !(bounded && Overruns(max, s, a))
    requires Counting(max, s.db, s.copies[a.ptr], s.now, start, sends, bounded)
    ensures StretchCounted(max, s.copies[a.ptr], WorkerStretch(max, s, a), s.now, start, sends, bounded)
  {
    hide ExpireStep, ClaimStep, RetryStep, SettleStep, Counting, StretchCounted;
    var c := s.copies[a.ptr];
    match a {
      case Expire(_) => ExpireCounts(max, s.db, c, s.now, start, sends, bounded);
      case Claim(_) => ClaimCounts(max, s.db, c, s.now, start, sends, bounded);
      case NoProvider(_, error, platform) => RetryCounts(max, s.db, c, error, s.now, platform, start, sends, bounded);
      case SendFailed(_, error, platform) => RetryCounts(max, s.db, c, error, s.now, platform, start, sends, bounded);
      case SendOk(_, result) => SettleCounts(max, s.db, c, result, s.now, start, sends, bounded);
    }
  }

  lemma WorkerCounted(max: int, s: State, a: Action, id: string, start: int, sends: nat, bounded: bool)
    requires Inv(s) && IsWorker(a) && Enabled(s, a) && !(bounded && Overruns(max, s, a))
    requires Counted(max, s, id, start, sends, bounded)
    ensures Counted(max, Effect(max, s, a), id, start, sends, bounded)
  {
    hide Effect, WorkerStretch, StretchOk, StretchCounted;
    WorkerOk(max, s, a);
    if s.copies[a.ptr].note.id == id {
      assert Counting(max, s.db, s.copies[a.ptr], s.now, start, sends, bounded);
      StretchCounts(max, s, a, start, sends, bounded);
    }
    hide Counted, Inv;
    ReplaceCounted(max, s, a.ptr, WorkerStretch(max, s, a), id, start, sends, bounded);
  }

  lemma ReplaceCounted(max: int, s: State, p: Ptr, h: Handled, id: string, start: int, sends: nat, bounded: bool)
    requires Inv(s) && p in s.copies && StretchOk(s.db, s.copies[p], h) && Counted(max, s, id, start, sends, bounded)
    requires s.copies[p].note.id == id ==> StretchCounted(max, s.copies[p], h, s.now, start, sends, bounded)
    ensures Counted(max, Replace(s, p, h), id, start, sends, bounded)
  {
    assert CopyOk(s.db.notifications, s.copies[p]);
  }

  lemma OutsideCounted(max: int, s: State, a: Action, id: string, start: int, sends: nat, bounded: bool)
    requires Inv(s) && Enabled(s, a) && (a.ApiWrite? || a.Ingest?) && Counted(max, s, id, start, sends, bounded)
    ensures Counted(max, Effect(max, s, a), id, start, sends, bounded)
  {
    if a.ApiWrite? {
      ApiWriteShape(max, s, a.request);
    } else {
      IngestShape(max, s, a.receipt);
    }
    hide Effect, Inv, Enabled;
    var t := Effect(max, s, a);
    assert id in s.db.notifications ==>
        t.db.notifications[id] == s.db.notifications[id] || t.db.notifications[id].status != Queued;
  }

  lemma RestartCounted(max: int, s: State, boot: map<Ptr, string>, id: string, start: int, sends: nat, bounded: bool)
    requires Inv(s) && Bootable(s.db, boot) && Counted(max, s, id, start, sends, bounded)
    ensures Counted(max, Effect(max, s, Restart(boot)), id, start, sends, bounded)
  {
    RestartShape(max, s, boot);
    var t := Effect(max, s, Restart(boot));
    assert forall p | p in t.copies :: t.copies[p].place == InQueue;
    hide Effect, Inv;
    forall p | p in t.copies && t.copies[p].note.id == id
      ensures CopyCounts(max, t.copies[p], t.now, start, sends, bounded)
    {
      assert RecordCounts(max, s.db.notifications[id], s.now, start, sends, bounded);
    }
  }

  lemma SubmitCounted(max: int, s: State, n: Note, p: Ptr, full: bool, id: string, start: int, sends: nat,
                      bounded: bool)
    requires Inv(s) && FreshStep(s, Submit(n, p, full)) && Enabled(s, Submit(n, p, full))
    requires Counted(max, s, id, start, sends, bounded)
    ensures Counted(max, SubmitEffect(s, n, p, full), id,
                    if Creates(s, Submit(n, p, full), id) then n.attempts else start, sends, bounded)
  {
    assert forall q | q in s.copies :: CopyOk(s.db.notifications, s.copies[q]);
  }

  lemma StepCounted(max: int, s: State, a: Action, id: string, start: int, sends: nat, bounded: bool)
    requires Inv(s) && FreshStep(s, a) && !(bounded && Overruns(max, s, a))
    requires Counted(max, s, id, start, sends, bounded)
    ensures Counted(max, Step(max, s, a), id, if Creates(s, a, id) then a.n.attempts else start,
                    sends + if Sends(s, a, id) then 1 else 0, bounded)
  {
    hide Effect, WorkerStretch, SubmitEffect, Inv, FreshStep, Counted, Bootable;
    if Enabled(s, a) {
      if IsWorker(a) {
        WorkerCounted(max, s, a, id, start, sends, bounded);
      } else {
        match a {
          case Submit(n, p, full) =>
            EffectOfSubmit(max, s, a);
            SubmitCounted(max, s, n, p, full, id, start, sends, bounded);
          case ApiWrite(_) => OutsideCounted(max, s, a, id, start, sends, bounded);
          case Ingest(_) => OutsideCounted(max, s, a, id, start, sends, bounded);
          case Restart(boot) => RestartCounted(max, s, boot, id, start, sends, bounded);
          case _ => MoveCounted(max, s, a, id, start, sends, bounded);
        }
      }
    }
  }

  lemma QuietCounted(max: int, s: State, t: State, id: string, start: int, sends: nat, bounded: bool)
    requires Counted(max, s, id, start, sends, bounded) && t.db == s.db && t.copies == s.copies && t.now >= s.now
    ensures Counted(max, t, id, start, sends, bounded)
  {
  }

  lemma RelocateCounted(max: int, s: State, p: Ptr, c: Copy, id: string, start: int, sends: nat, bounded: bool)
    requires SingleCopies(s) && Counted(max, s, id, start, sends, bounded)
    requires p in s.copies && c.note.id == s.copies[p].note.id && c.note.id in s.db.notifications
    requires if c.place == Sending then
               && s.copies[p].place == Claimed && s.db.notifications[c.note.id].status != Queued
               && c.note.attempts == s.copies[p].note.attempts + 1
             else
               && s.copies[p].place != Sending && c.note.attempts == s.copies[p].note.attempts
               && (Lapsed(s.copies[p], s.now) ==> Lapsed(c, s.now))
    ensures var counted := sends + (if c.place == Sending && c.note.id == id then 1 else 0);
      && Counted(max, s.(copies := s.copies[p := c]), id, start, counted, bounded)
      && (!(c.place == Sending) ==> Counted(max, s.(copies := s.copies - {p}), id, start, sends, bounded))
  {
    if c.note.id == id {
      assert CopyCounts(max, s.copies[p], s.now, start, sends, bounded);
    }
  }

  lemma StaysLapsed(s: State, a: Action)
    requires IsMove(a) && Enabled(s, a) && Lapsed(s.copies[a.ptr], s.now)
    ensures a.Postpone? ==> s.copies[a.ptr].note.scheduleAt.Some?
    ensures !a.Send? ==> Lapsed(Moved(s, a), s.now)
  {
  }

  lemma MoveCounted(max: int, s: State, a: Action, id: string, start: int, sends: nat, bounded: bool)
    requires Inv(s) && Enabled(s, a) && Counted(max, s, id, start, sends, bounded)
    requires IsMove(a) || a.Tick? || a.ApiRead?
    ensures Counted(max, Effect(max, s, a), id, start, sends + (if Sends(s, a, id) then 1 else 0), bounded)
  {
    hide Effect, Moved, Counted;
    if IsMove(a) {
      assert CopyOk(s.db.notifications, s.copies[a.ptr]);
      EffectOfMove(max, s, a);
      if Lapsed(s.copies[a.ptr], s.now) {
        StaysLapsed(s, a);
      }
      hide Inv;
      RelocateCounted(max, s, a.ptr, Moved(s, a), id, start, sends, bounded);
    } else {
      EffectOfQuiet(max, s, a);
      QuietCounted(max, s, Effect(max, s, a), id, start, sends, bounded);
    }
  }

  /** No over-budget answer of `queued` is written. */
  ghost predicate NoOverrun(max: int, run: seq<Action>) {
    run != [] ==>
      NoOverrun(max, run[..|run| - 1]) && !Overruns(max, Exec(max, run[..|run| - 1]), run[|run| - 1])
  }

  /** In every state of every run, crashes and recoveries included: the attempts of the live copy,
      and of a stored queued record, are the number of sends so far on top of the submitted
      number. As long as no answer of `queued` is written over budget, a notification is sent at
      most `max - start` times (once if that is less). */
  lemma {:induction false} RetryBudget(max: int, run: seq<Action>, id: string, bounded: bool)
    requires FreshRun(max, run) && (bounded ==> NoOverrun(max, run))
    ensures Counted(max, Exec(max, run), id, StartOf(max, run, id), SendCount(max, run, id), bounded)
  {
    if run != [] {
      var front := run[..|run| - 1];
      RetryBudget(max, front, id, bounded);
      RunKeepsInv(max, front);
      StepCounted(max, Exec(max, front), run[|run| - 1], id, StartOf(max, front, id), SendCount(max, front, id),
                  bounded);
    }
  }

  /** For a notification submitted with 0 attempts and a legal configuration. */
  lemma SentAtMostMax(max: int, run: seq<Action>, id: string)
    requires FreshRun(max, run) && NoOverrun(max, run) && max >= 1 && StartOf(max, run, id) == 0
    ensures SendCount(max, run, id) <= max
  {
    RetryBudget(max, run, id, true);
  }

  lemma CountStep(max: int, run: seq<Action>, a: Action, id: string)
    ensures SendCount(max, run + [a], id) == SendCount(max, run, id) + (if Sends(Exec(max, run), a, id) then 1 else 0)
  {
    assert (run + [a])[..|run|] == run;
  }

  /** The premise about the provider is needed: with a budget of 1, an answer of `queued` followed
      by a restart leads to a second send. */
  lemma QueuedAnswerOverspends()
    ensures var run := [Submit(X, 0, false)] + [Dequeue(0)] + [Claim(0)] + [Send(0, "p")] + [SendOk(0, Queued)]
                       + [Restart(map[0 := "x"])] + [Dequeue(0)] + [Claim(0)] + [Send(0, "p")];
      SendCount(1, run, "x") == 2
  {
    var run := XSubmittedOnce(1);
    run := XSentOnce(1, run, Copy(Prepared(X, 0), InQueue), 1);
    hide Exec, SendCount;
    ExecStep(1, run, SendOk(0, Queued));
    CountStep(1, run, SendOk(0, Queued), "x");
    XAnsweredQueued(1, Exec(1, run), Exec(1, run).copies[0]);
    run := run + [SendOk(0, Queued)];
    run := XSentAgain(1, run, Exec(1, run).db.notifications["x"], 3);
  }

  lemma XSubmittedOnce(max: int) returns (run: seq<Action>)
    ensures run == [Submit(X, 0, false)]
    ensures SendCount(max, run, "x") == 0 && Exec(max, run).now == 0
    ensures Shows(Exec(max, run), Queued, 1, Copy(Prepared(X, 0), InQueue))
  {
    run := [Submit(X, 0, false)];
    XSubmitted(max);
    CountStep(max, [], Submit(X, 0, false), "x");
    assert [] + run == run;
  }

  /** A restart puts the queued record on the queue at once, and it is sent. */
  lemma XSentAgain(max: int, run: seq<Action>, n: Note, version: int) returns (longer: seq<Action>)
    requires Stores(Exec(max, run), n) && n.version == version
    ensures longer == run + [Restart(map[0 := "x"])] + [Dequeue(0)] + [Claim(0)] + [Send(0, "p")]
    ensures SendCount(max, longer, "x") == SendCount(max, run, "x") + 1
    ensures Exec(max, longer).now == Exec(max, run).now
  {
    hide Exec, SendCount, Step;
    ExecStep(max, run, Restart(map[0 := "x"]));
    CountStep(max, run, Restart(map[0 := "x"]), "x");
    XRestarted(max, Exec(max, run), n);
    longer := run + [Restart(map[0 := "x"])];
    longer := XSentOnce(max, longer, Copy(n, InQueue), version);
  }

  /** The stored record, when no request is in flight. */
  predicate Stores(s: State, n: Note) {
    && s.requests == map[]
    && "x" in s.db.notifications && s.db.notifications["x"] == n
    && n.id == "x" && n.status == Queued && n.scheduleAt == None && n.expiresAt == None
  }

  lemma XAnsweredQueued(max: int, s: State, c: Copy)
    requires Shows(s, Processing, c.note.version, c) && c.place == Sending && c.note.status == Processing
    ensures Stores(Step(max, s, SendOk(0, Queued)),
                      c.note.(status := Queued, version := c.note.version + 1, updatedAt := s.now))
    ensures Step(max, s, SendOk(0, Queued)).now == s.now
  {
  }

  lemma XRestarted(max: int, s: State, n: Note)
    requires Stores(s, n)
    ensures Shows(Step(max, s, Restart(map[0 := "x"])), Queued, n.version, Copy(n, InQueue))
    ensures Step(max, s, Restart(map[0 := "x"])).now == s.now
  {
    var boot: map<Ptr, string> := map[0 := "x"];
    assert Bootable(s.db, boot);
    assert Step(max, s, Restart(boot)).copies == map[0 := Copy(n, InQueue)];
  }

  lemma XSentOnce(max: int, run: seq<Action>, c: Copy, version: int) returns (longer: seq<Action>)
    requires Shows(Exec(max, run), Queued, version, c)
    requires c.place == InQueue && c.note.status == Queued && c.note.version == version
    ensures longer == run + [Dequeue(0)] + [Claim(0)] + [Send(0, "p")]
    ensures SendCount(max, longer, "x") == SendCount(max, run, "x") + 1
    ensures 0 in Exec(max, longer).copies && Exec(max, longer).now == Exec(max, run).now
    ensures var d := Exec(max, longer).copies[0];
      && d.place == Sending && d.note.status == Processing && d.note.version == version + 1
      && d.note.attempts == c.note.attempts + 1
      && Shows(Exec(max, longer), Processing, version + 1, d)
  {
    hide Exec, SendCount, Step;
    longer := run;
    ExecStep(max, longer, Dequeue(0));
    CountStep(max, longer, Dequeue(0), "x");
    XDequeued(max, Exec(max, longer), Queued, version, c);
    longer := longer + [Dequeue(0)];
    ExecStep(max, longer, Claim(0));
    CountStep(max, longer, Claim(0), "x");
    XClaimed(max, Exec(max, longer), Queued, c.(place := InHand(Exec(max, longer).now)));
    longer := longer + [Claim(0)];
    var d := Exec(max, longer).copies[0];
    ExecStep(max, longer, Send(0, "p"));
    CountStep(max, longer, Send(0, "p"), "x");
    XSending(max, Exec(max, longer), Processing, version + 1, d);
    longer := longer + [Send(0, "p")];
    assert Shows(Exec(max, longer), Processing, version + 1, Copy(SendStep(d.note, "p"), Sending));
  }
}
