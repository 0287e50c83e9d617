/** The exponential spacing of the sends of one notification. */
module Spacing {
  import opened Wrappers
  import opened Domain
  import opened Decimal
  import opened Repository
  import opened Receipts
  import opened Delivery
  import opened Protocol
  import opened Stranding
  import opened Conformity
  import opened Budget
  import opened Resend

  /** The waiting time that lies between the sends numbered `j` and `k`. */
  function Gap(j: nat, k: nat): int {
    (Power2(k) - Power2(j)) * TENTH_SECOND
  }

  /** Where a copy can be, given that the send numbered `first` began at `start`: sending number
      `attempts` now, or not before the time for the next number. */
  predicate Paced(c: Copy, now: int, start: int, first: nat) {
    && c.note.attempts >= first
    && (Lapsed(c, now)
        || match c.place
           case Sending => now >= start + Gap(first, c.note.attempts)
           case InTimer(due) => (if due > now then due else now) >= start + Gap(first, c.note.attempts + 1)
           case _ => now >= start + Gap(first, c.note.attempts + 1))
  }

  ghost predicate AllPaced(s: State, id: string, start: int, first: nat) {
    forall p | p in s.copies && s.copies[p].note.id == id :: Paced(s.copies[p], s.now, start, first)
  }

  lemma RetryPaced(max: int, db: Snapshot, c: Copy, error: string, now: int, platform: Int64, start: int, first: nat)
    requires Busy(c.place) && Paced(c, now, start, first) && max <= 37
    ensures var h := RetryStep(max, db, c.note, error, now, platform);
      h.copy.Some? ==> Paced(h.copy.value, now, start, first)
  {
    hide Updated;
    if c.note.attempts < max {
      BackoffExact(c.note.attempts, platform);
      Power2Grows(0, c.note.attempts);
      assert Power2(c.note.attempts + 1) == 2 * Power2(c.note.attempts);
    }
  }

  lemma StretchPaced(max: int, s: State, a: Action, start: int, first: nat)
    requires IsWorker(a) && a.ptr in s.copies && Paced(s.copies[a.ptr], s.now, start, first) && max <= 37
    requires if a.Expire? || a.Claim? then s.copies[a.ptr].place.InHand? else Busy(s.copies[a.ptr].place)
    requires a.Claim? ==> Unexpired(s, a.ptr)
    ensures var h := WorkerStretch(max, s, a);
      h.copy.Some? ==> Paced(h.copy.value, s.now, start, first)
  {
    hide Updated, RetryStep;
    var c := s.copies[a.ptr];
    match a {
      case NoProvider(_, error, platform) => RetryPaced(max, s.db, c, error, s.now, platform, start, first);
      case SendFailed(_, error, platform) => RetryPaced(max, s.db, c, error, s.now, platform, start, first);
      case _ =>
    }
  }

  lemma MovePaced(max: int, s: State, a: Action, start: int, first: nat)
    requires IsMove(a) && Enabled(s, a) && a.ptr in s.copies && Paced(s.copies[a.ptr], s.now, start, first)
    requires a.Postpone? ==> s.copies[a.ptr].note.scheduleAt.Some?
    ensures Paced(Moved(s, a), s.now, start, first)
  {
  }

  lemma PacedStep(max: int, s: State, a: Action, id: string, start: int, first: nat)
    requires Inv(s) && FreshStep(s, a) && AllPaced(s, id, start, first) && id in s.db.notifications
    requires max <= 37 && !a.Restart?
    ensures AllPaced(Step(max, s, a), id, start, first)
  {
    hide Effect, WorkerStretch, SubmitEffect, Moved, StretchOk, Inv, FreshStep;
    if Enabled(s, a) {
      if IsWorker(a) {
        WorkerOk(max, s, a);
        EffectOfStretch(max, s, a);
        assert a.Claim? ==> Unexpired(s, a.ptr);
        if s.copies[a.ptr].note.id == id {
          StretchPaced(max, s, a, start, first);
        }
        ReplacePaced(s, a.ptr, WorkerStretch(max, s, a), id, start, first);
      } else if IsMove(a) {
        EffectOfMove(max, s, a);
        if s.copies[a.ptr].note.id == id {
          MovePaced(max, s, a, start, first);
        }
      } else if a.Submit? {
        EffectOfSubmit(max, s, a);
        SubmitPaced(s, a.n, a.ptr, a.full, id, start, first);
      } else if a.Tick? || a.ApiRead? {
        TimePaced(max, s, a, id, start, first);
      } else if a.ApiWrite? {
        ApiWriteShape(max, s, a.request);
        ApiWriteNow(max, s, a);
      } else {
        IngestShape(max, s, a.receipt);
        ApiWriteNow(max, s, a);
      }
    }
  }

  lemma ApiWriteNow(max: int, s: State, a: Action)
    requires (a.ApiWrite? || a.Ingest?) && Enabled(s, a)
    ensures Effect(max, s, a).now == s.now
  {
    hide WorkerStretch, SubmitEffect, RequestOf, Updated, Ingested;
  }

  lemma TimePaced(max: int, s: State, a: Action, id: string, start: int, first: nat)
    requires (a.Tick? || a.ApiRead?) && Enabled(s, a) && AllPaced(s, id, start, first)
    ensures AllPaced(Effect(max, s, a), id, start, first)
  {
    hide WorkerStretch, SubmitEffect, RequestOf, Updated, Ingested;
  }

  lemma ReplacePaced(s: State, p: Ptr, h: Handled, id: string, start: int, first: nat)
    requires p in s.copies && StretchOk(s.db, s.copies[p], h) && AllPaced(s, id, start, first)
    requires s.copies[p].note.id == id && h.copy.Some? ==> Paced(h.copy.value, s.now, start, first)
    ensures AllPaced(Replace(s, p, h), id, start, first)
  {
  }

  lemma SubmitPaced(s: State, n: Note, p: Ptr, full: bool, id: string, start: int, first: nat)
    requires FreshStep(s, Submit(n, p, full)) && AllPaced(s, id, start, first) && id in s.db.notifications
    ensures AllPaced(SubmitEffect(s, n, p, full), id, start, first)
  {
  }

  // ---------- Restarts between the sends ----------

  /** When the newest send of `id` began. */
  ghost function LastSendAt(max: int, run: seq<Action>, id: string): int {
    if run == [] then 0
    else
      var s, a := Exec(max, run[..|run| - 1]), run[|run| - 1];
      if Sends(s, a, id) then s.now else LastSendAt(max, run[..|run| - 1], id)
  }

  /** The back-off after the newest send is over, by the stored number of attempts. */
  ghost predicate BackedOff(max: int, run: seq<Action>, id: string)
    requires id in Exec(max, run).db.notifications
  {
    var s := Exec(max, run);
    var attempts := s.db.notifications[id].attempts;
    attempts >= 0 ==> s.now >= LastSendAt(max, run, id) + Power2(attempts) * TENTH_SECOND
  }

  /** A restart does not enqueue `id`, or does so after the back-off or the expiry. */
  ghost predicate Rested(max: int, run: seq<Action>, a: Action, id: string) {
    var s := Exec(max, run);
    a.Restart? && Enabled(s, a) && id in a.boot.Values ==>
      id in s.db.notifications && (Past(s.db.notifications[id].expiresAt, s.now) || BackedOff(max, run, id))
  }

  /** The same for every restart in `later`. */
  ghost predicate AlwaysRested(max: int, run: seq<Action>, later: seq<Action>, id: string) {
    later != [] ==>
      var front, a := later[..|later| - 1], later[|later| - 1];
      AlwaysRested(max, run, front, id) && Rested(max, run + front, a, id)
  }

  /** The newest send began no earlier than its place in the sequence demands. */
  predicate LastPaced(last: int, start: int, first: nat, attempts: int) {
    attempts >= first && last >= start + Gap(first, attempts)
  }

  lemma RecordPaced(r: Note, last: int, now: int, start: int, first: nat)
    requires LastPaced(last, start, first, r.attempts)
    requires Past(r.expiresAt, now) || now >= last + Power2(r.attempts) * TENTH_SECOND
    ensures Paced(Copy(r, InQueue), now, start, first)
  {
    assert Gap(first, r.attempts + 1) == Gap(first, r.attempts) + Power2(r.attempts) * TENTH_SECOND;
  }

  lemma RestartCopies(max: int, s: State, boot: map<Ptr, string>, p: Ptr)
    requires Inv(s) && Enabled(s, Restart(boot))
    ensures var t := Step(max, s, Restart(boot));
      && t.now == s.now
      && (p in t.copies ==>
            && p in boot && boot[p] in s.db.notifications && s.db.notifications[boot[p]].status == Queued
            && t.copies[p] == Copy(s.db.notifications[boot[p]], InQueue) && t.copies[p].note.id == boot[p])
  {
    hide WorkerStretch, SubmitEffect, RequestOf, Ingested, Updated;
  }

  lemma RestartPaced(max: int, run: seq<Action>, boot: map<Ptr, string>, id: string, start: int, first: nat)
    requires FreshRun(max, run) && Enabled(Exec(max, run), Restart(boot))
    requires Rested(max, run, Restart(boot), id)
    requires LastPaced(LastSendAt(max, run, id), start, first, StartOf(max, run, id) + SendCount(max, run, id))
    ensures AllPaced(Step(max, Exec(max, run), Restart(boot)), id, start, first)
  {
    hide Exec, Step, FreshRun, StartOf, SendCount, LastSendAt, Inv, Enabled, Paced;
    var s, t := Exec(max, run), Step(max, Exec(max, run), Restart(boot));
    RunKeepsInv(max, run);
    RetryBudget(max, run, id, false);
    forall p | p in t.copies && t.copies[p].note.id == id
      ensures Paced(t.copies[p], t.now, start, first)
    {
      RestartCopies(max, s, boot, p);
      assert id in boot.Values;
      assert RecordCounts(max, s.db.notifications[id], s.now, StartOf(max, run, id), SendCount(max, run, id), false);
      RecordPaced(s.db.notifications[id], LastSendAt(max, run, id), s.now, start, first);
    }
  }

  lemma {:induction false} PacedRun(max: int, run: seq<Action>, send: Action, later: seq<Action>, id: string)
    requires FreshRun(max, run + [send] + later) && AlwaysRested(max, run + [send], later, id) && max <= 37
    requires Sends(Exec(max, run), send, id) && StartOf(max, run, id) >= 0
    ensures var full := run + [send] + later;
      var start, first := Exec(max, run).now, StartOf(max, run, id) + SendCount(max, run, id) + 1;
      && AllPaced(Exec(max, full), id, start, first)
      && LastPaced(LastSendAt(max, full, id), start, first, StartOf(max, full, id) + SendCount(max, full, id))
      && id in Exec(max, full).db.notifications
      && StartOf(max, full, id) == StartOf(max, run, id)
    decreases |later|
  {
    hide AllPaced, Inv, Step, FreshStep, Counted, Rested;
    var full := run + [send] + later;
    var s := Exec(max, run);
    var first := StartOf(max, run, id) + SendCount(max, run, id) + 1;
    if later == [] {
      assert full == run + [send] && full[..|full| - 1] == run;
      RunKeepsInv(max, run);
      RetryBudget(max, run, id, false);
      FirstPaced(max, s, send, id, StartOf(max, run, id), SendCount(max, run, id));
    } else {
      var front, a := later[..|later| - 1], later[|later| - 1];
      var shorter := run + [send] + front;
      assert full[..|full| - 1] == shorter;
      PacedRun(max, run, send, front, id);
      RunKeepsInv(max, shorter);
      RetryBudget(max, shorter, id, false);
      LateExists(max, Exec(max, shorter), a, id);
      if a.Restart? {
        if Enabled(Exec(max, shorter), a) {
          RestartPaced(max, shorter, a.boot, id, s.now, first);
        } else {
          SkippedStep(max, Exec(max, shorter), a);
        }
      } else {
        PacedStep(max, Exec(max, shorter), a, id, s.now, first);
        SendIsPaced(max, Exec(max, shorter), a, id, s.now, first, StartOf(max, shorter, id),
                    SendCount(max, shorter, id));
      }
    }
  }

  lemma SkippedStep(max: int, s: State, a: Action)
    requires !Enabled(s, a)
    ensures Step(max, s, a) == s
  {
  }

  lemma FirstPaced(max: int, s: State, send: Action, id: string, start: int, sends: nat)
    requires Inv(s) && Sends(s, send, id) && Counted(max, s, id, start, sends, false) && start >= 0
    ensures AllPaced(Step(max, s, send), id, s.now, start + sends + 1)
    ensures id in Step(max, s, send).db.notifications
  {
    hide Effect;
    EffectOfMove(max, s, send);
    assert CopyOk(s.db.notifications, s.copies[send.ptr]);
    assert CopyCounts(max, s.copies[send.ptr], s.now, start, sends, false);
  }

  /** A send of a paced copy begins no earlier than its number demands. */
  lemma SendIsPaced(max: int, s: State, a: Action, id: string, start: int, first: nat, submitted: int, sends: nat)
    requires AllPaced(s, id, start, first) && Counted(max, s, id, submitted, sends, false)
    ensures Sends(s, a, id) ==> LastPaced(s.now, start, first, submitted + sends + 1)
  {
    if Sends(s, a, id) {
      assert CopyCounts(max, s.copies[a.ptr], s.now, submitted, sends, false);
      assert Paced(s.copies[a.ptr], s.now, start, first);
    }
  }

  /** Between two sends of a notification, the j-th and the k-th, at least (2^k - 2^j) tenths of a
      second pass, however many rate-limited or provider-less tries and restarts intervene, as long
      as no restart enqueues the record before its back-off is over; for the first send and the
      k-th that is (2^k - 2) * 100 ms. The budget of at most 37 keeps the delay from overflowing. A
      record submitted with earlier attempts counts them as sends. */
  lemma SendSpacing(max: int, run: seq<Action>, send: Action, later: seq<Action>, next: Action, id: string)
    requires FreshRun(max, run + [send] + later) && AlwaysRested(max, run + [send], later, id) && max <= 37
    requires Sends(Exec(max, run), send, id) && StartOf(max, run, id) >= 0
    requires Sends(Exec(max, run + [send] + later), next, id)
    ensures var j := StartOf(max, run, id) + SendCount(max, run, id) + 1;
            var k := StartOf(max, run, id) + SendCount(max, run + [send] + later, id) + 1;
            Exec(max, run + [send] + later).now >= Exec(max, run).now + Gap(j, k)
  {
    hide Effect, Exec, FreshRun, StartOf, SendCount, LastSendAt, AlwaysRested, Counted, Sends;
    var full := run + [send] + later;
    PacedRun(max, run, send, later, id);
    RetryBudget(max, full, id, false);
    SendIsPaced(max, Exec(max, full), next, id, Exec(max, run).now, StartOf(max, run, id) + SendCount(max, run, id) + 1,
                StartOf(max, full, id), SendCount(max, full, id));
  }

  /** The condition on restarts is exact: in any reachable state, a restart that enqueues a sent,
      unexpired record before its back-off is over lets the next send begin too early. */
  lemma EarlyRestartSendsEarly(max: int, run: seq<Action>, id: string, boot: map<Ptr, string>, p: Ptr)
    requires FreshRun(max, run) && SendCount(max, run, id) > 0 && StartOf(max, run, id) >= 0
    requires Boots(Exec(max, run).db, boot, p, id) && !Rested(max, run, Restart(boot), id)
    ensures var longer := run + RestartOf(boot, p);
      var k := StartOf(max, longer, id) + SendCount(max, longer, id);
      && FreshRun(max, longer) && Sends(Exec(max, longer), Send(p, "p"), id)
      && k > 0 && LastSendAt(max, longer, id) == LastSendAt(max, run, id)
      && Exec(max, longer).now < LastSendAt(max, longer, id) + Gap(k, k + 1)
  {
    hide Exec, FreshRun, StartOf, SendCount, LastSendAt, Inv, Enabled, Sends;
    RetryBudget(max, run, id, false);
    RestartResends(max, run, id, boot, p);
    var restart, next, claim := Restart(boot), Dequeue(p), Claim(p);
    LastSendKept(max, run, restart, id);
    LastSendKept(max, run + [restart], next, id);
    LastSendKept(max, run + [restart] + [next], claim, id);
    assert run + RestartOf(boot, p) == run + [restart] + [next] + [claim];
  }

  lemma LastSendKept(max: int, run: seq<Action>, a: Action, id: string)
    requires !a.Send?
    ensures LastSendAt(max, run + [a], id) == LastSendAt(max, run, id)
  {
    assert (run + [a])[..|run|] == run;
  }

  // ---------- A run in which a restart comes too early ----------

  lemma XFailed(max: int, s: State, c: Copy)
    requires Shows(s, Processing, c.note.version, c) && c.place == Sending && c.note.status == Processing
    requires c.note.attempts < max
    ensures var t := Step(max, s, SendFailed(0, "down", 0));
      && Stores(t, c.note.(lastError := "down", status := Queued, version := c.note.version + 1, updatedAt := s.now))
      && t.now == s.now
  {
  }

  /** A restart forgets the timers: a failed notification is sent again without any delay. */
  lemma RestartSkipsDelay()
    ensures var run := [Submit(X, 0, false)] + [Dequeue(0)] + [Claim(0)] + [Send(0, "p")] + [SendFailed(0, "down", 0)]
                       + [Restart(map[0 := "x"])] + [Dequeue(0)] + [Claim(0)] + [Send(0, "p")];
      SendCount(2, run, "x") == 2 && Exec(2, run).now == Exec(2, []).now
  {
    assert Exec(2, []).now == 0;
    var run := XSubmittedOnce(2);
    run := XSentOnce(2, run, Copy(Prepared(X, 0), InQueue), 1);
    hide Exec, SendCount, Step;
    ExecStep(2, run, SendFailed(0, "down", 0));
    CountStep(2, run, SendFailed(0, "down", 0), "x");
    XFailed(2, Exec(2, run), Exec(2, run).copies[0]);
    run := run + [SendFailed(0, "down", 0)];
    run := XSentAgain(2, run, Exec(2, run).db.notifications["x"], 3);
  }
}
