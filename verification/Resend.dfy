/** What a restart can send again, and the answers after which it sends too often. */
module Resend {
  import opened Wrappers
  import opened Domain
  import opened Repository
  import opened Receipts
  import opened Delivery
  import opened Protocol
  import opened Stranding
  import opened Budget

  /** No worker has an attempt of a notification whose schedule has not come; nor has it come for
      one that was sent before and is queued. */
  ghost predicate Timely(s: State, id: string, sent: bool) {
    && (forall p | p in s.copies && s.copies[p].note.id == id && Busy(s.copies[p].place) ::
          !Future(s.copies[p].note.scheduleAt, s.now))
    && (sent ==> id in s.db.notifications && TimelyRecord(s.db.notifications[id], s.now))
  }

  predicate TimelyRecord(r: Note, now: int) {
    r.status == Queued ==> !Future(r.scheduleAt, now)
  }

  /** What `Timely` says of a stretch on the notification's own copy. */
  predicate TimelyAfter(c: Copy, h: Handled, now: int, sent: bool) {
    && (h.copy.Some? && Busy(h.copy.value.place) ==> !Future(h.copy.value.note.scheduleAt, now))
    && (sent ==> c.note.id in h.db.notifications && TimelyRecord(h.db.notifications[c.note.id], now))
  }

  lemma StretchTimely(max: int, s: State, a: Action, sent: bool)
    requires IsWorker(a) && Enabled(s, a) && CopyOk(s.db.notifications, s.copies[a.ptr])
    requires var c := s.copies[a.ptr];
      && (Busy(c.place) ==> !Future(c.note.scheduleAt, s.now))
      && (sent ==> TimelyRecord(s.db.notifications[c.note.id], s.now))
    ensures TimelyAfter(s.copies[a.ptr], WorkerStretch(max, s, a), s.now, sent)
  {
    hide Effect, Backoff, Updated;
    var n := s.copies[a.ptr].note;
    forall next, m: Note | m.id == n.id && m.status == n.status && Transitioned(m, next, s.now).Some?
      ensures Updated(s.db, Transitioned(m, next, s.now).value, n.version, s.now).notifications
              == if UpdateOk(s.db, n.id, n.version) then s.db.notifications[n.id := Transitioned(m, next, s.now).value]
                 else s.db.notifications
    {
      UpdateWrites(s.db, Transitioned(m, next, s.now).value, n.version, s.now);
    }
  }

  lemma ReplaceTimely(s: State, p: Ptr, h: Handled, id: string, sent: bool)
    requires Inv(s) && Timely(s, id, sent) && p in s.copies && StretchOk(s.db, s.copies[p], h)
    requires s.copies[p].note.id == id ==> TimelyAfter(s.copies[p], h, s.now, sent)
    ensures Timely(Replace(s, p, h), id, sent)
  {
  }

  lemma RelocateTimely(s: State, p: Ptr, c: Copy, id: string, sent: bool, sends: bool)
    requires Timely(s, id, sent) && p in s.copies && c.note.id == s.copies[p].note.id
    requires Busy(c.place) ==> Busy(s.copies[p].place) && c.note.scheduleAt == s.copies[p].note.scheduleAt
    requires sends ==> id in s.db.notifications && s.db.notifications[id].status != Queued
    ensures Timely(s.(copies := s.copies[p := c]), id, sent || sends)
    ensures Timely(s.(copies := s.copies - {p}), id, sent || sends)
  {
  }

  lemma MoveTimely(max: int, s: State, a: Action, id: string, sent: bool)
    requires Inv(s) && IsMove(a) && Enabled(s, a) && Timely(s, id, sent)
    ensures Timely(Effect(max, s, a), id, sent || Sends(s, a, id))
  {
    hide Effect, Moved, Timely;
    EffectOfMove(max, s, a);
    assert CopyOk(s.db.notifications, s.copies[a.ptr]);
    hide Inv;
    RelocateTimely(s, a.ptr, Moved(s, a), id, sent, Sends(s, a, id));
  }

  lemma OutsideTimely(max: int, s: State, a: Action, id: string, sent: bool)
    requires Inv(s) && Enabled(s, a) && Timely(s, id, sent)
    requires !IsWorker(a) && !IsMove(a) && !a.Submit?
    ensures Timely(Effect(max, s, a), id, sent)
  {
    OutsideShape(max, s, a);
    hide WorkerStretch, SubmitEffect, RequestOf, Updated, Ingested, Inv;
  }

  lemma SubmitTimely(s: State, n: Note, p: Ptr, full: bool, id: string, sent: bool)
    requires Inv(s) && FreshStep(s, Submit(n, p, full)) && Timely(s, id, sent) && p !in s.copies
    ensures Timely(SubmitEffect(s, n, p, full), id, sent)
  {
    SubmitMoves(s, n, p, full);
  }

  lemma StepTimely(max: int, s: State, a: Action, id: string, sent: bool)
    requires Inv(s) && FreshStep(s, a) && Timely(s, id, sent)
    ensures Timely(Step(max, s, a), id, sent || Sends(s, a, id))
  {
    hide Effect, WorkerStretch, SubmitEffect, StretchOk, Inv, FreshStep, TimelyAfter;
    if Enabled(s, a) {
      if IsWorker(a) {
        WorkerOk(max, s, a);
        if s.copies[a.ptr].note.id == id {
          WorkerTimely(max, s, a, sent);
        }
        ReplaceTimely(s, a.ptr, WorkerStretch(max, s, a), id, sent);
      } else if IsMove(a) {
        MoveTimely(max, s, a, id, sent);
      } else if a.Submit? {
        EffectOfSubmit(max, s, a);
        SubmitTimely(s, a.n, a.ptr, a.full, id, sent);
      } else {
        OutsideTimely(max, s, a, id, sent);
      }
    }
  }

  lemma WorkerTimely(max: int, s: State, a: Action, sent: bool)
    requires Inv(s) && IsWorker(a) && Enabled(s, a) && Timely(s, s.copies[a.ptr].note.id, sent)
    ensures TimelyAfter(s.copies[a.ptr], WorkerStretch(max, s, a), s.now, sent)
  {
    hide Effect, WorkerStretch, TimelyAfter;
    assert CopyOk(s.db.notifications, s.copies[a.ptr]);
    StretchTimely(max, s, a, sent);
  }

  lemma {:induction false} SentIsTimely(max: int, run: seq<Action>, id: string)
    requires FreshRun(max, run)
    ensures Timely(Exec(max, run), id, SendCount(max, run, id) > 0)
  {
    if run != [] {
      var front := run[..|run| - 1];
      SentIsTimely(max, front, id);
      RunKeepsInv(max, front);
      StepTimely(max, Exec(max, front), run[|run| - 1], id, SendCount(max, front, id) > 0);
    }
  }

  // ---------- A restart sends a queued record at once ----------

  /** A restart, and the way of its copy `p` to the provider. */
  function RestartOf(boot: map<Ptr, string>, p: Ptr): seq<Action> {
    [Restart(boot)] + [Dequeue(p)] + [Claim(p)]
  }

  /** The restart can happen, and `p` is its copy of `id`; other records may be enqueued too. */
  ghost predicate Boots(db: Snapshot, boot: map<Ptr, string>, p: Ptr, id: string) {
    Bootable(db, boot) && p in boot && boot[p] == id
  }

  /** There is a restart that enqueues every queued record. */
  lemma {:induction false} CompleteBoot(db: Snapshot, ids: set<string>) returns (boot: map<Ptr, string>)
    requires forall id | id in ids :: id in db.notifications && db.notifications[id].status == Queued
    ensures Bootable(db, boot) && boot.Values == ids
    ensures forall p | p in boot :: p < |ids|
    decreases |ids|
  {
    if id :| id in ids {
      boot := CompleteBoot(db, ids - {id});
      var p: Ptr := |ids| - 1;
      assert boot[p := id].Values == boot.Values + {id} by {
        assert boot[p := id][p] == id;
        assert forall q | q in boot :: boot[p := id][q] == boot[q];
      }
      boot := boot[p := id];
    } else {
      boot := map[];
    }
  }

  /** The record `n` is stored, and copy `p` is of it. */
  predicate CopyOf(s: State, p: Ptr, n: Note, place: Place) {
    && n.id in s.db.notifications && s.db.notifications[n.id] == n
    && p in s.copies && s.copies[p] == Copy(n, place)
  }

  lemma RestartEnqueues(max: int, s: State, boot: map<Ptr, string>, p: Ptr, id: string)
    requires Keyed(s.db.notifications) && Boots(s.db, boot, p, id)
    ensures var t := Step(max, s, Restart(boot));
      && CopyOf(t, p, s.db.notifications[id], InQueue) && t.db == s.db && t.now == s.now
  {
    EffectOfRestart(max, s, boot);
    hide Step;
  }

  lemma ThenDequeued(max: int, s: State, p: Ptr, n: Note)
    requires CopyOf(s, p, n, InQueue)
    ensures var t := Step(max, s, Dequeue(p));
      CopyOf(t, p, n, InHand(s.now)) && t.db == s.db && t.now == s.now
  {
  }

  lemma ThenClaimed(max: int, s: State, p: Ptr, n: Note)
    requires CopyOf(s, p, n, InHand(s.now)) && n.status == Queued
    requires !Future(n.scheduleAt, s.now) && !Past(n.expiresAt, s.now)
    ensures var t := Step(max, s, Claim(p));
      && p in t.copies && t.copies[p].place == Claimed && t.now == s.now
      && t.copies[p].note.id == n.id && t.copies[p].note.attempts == n.attempts
  {
  }

  lemma AppendQuiet(max: int, run: seq<Action>, a: Action, id: string)
    requires FreshRun(max, run) && !a.Submit? && !a.Send?
    ensures var longer := run + [a];
      && Exec(max, longer) == Step(max, Exec(max, run), a)
      && FreshRun(max, longer)
      && SendCount(max, longer, id) == SendCount(max, run, id)
      && StartOf(max, longer, id) == StartOf(max, run, id)
      && (NoOverrun(max, run) && !a.SendOk? ==> NoOverrun(max, longer))
  {
    hide Step;
    assert (run + [a])[..|run|] == run;
  }

  /** In any reachable state, a restart that enqueues it lets a queued record that was sent before, and has not
      expired, be sent again at the same instant, with the stored number of attempts. */
  lemma RestartResends(max: int, run: seq<Action>, id: string, boot: map<Ptr, string>, p: Ptr)
    requires FreshRun(max, run) && SendCount(max, run, id) > 0
    requires var s := Exec(max, run); Boots(s.db, boot, p, id) && !Past(s.db.notifications[id].expiresAt, s.now)
    ensures var s, longer := Exec(max, run), run + RestartOf(boot, p); var t := Exec(max, longer);
      && FreshRun(max, longer) && t.now == s.now
      && SendCount(max, longer, id) == SendCount(max, run, id)
      && StartOf(max, longer, id) == StartOf(max, run, id)
      && Sends(t, Send(p, "p"), id) && t.copies[p].note.attempts == s.db.notifications[id].attempts
  {
    hide Step, Inv, Exec, FreshRun, SendCount, StartOf, NoOverrun;
    var s := Exec(max, run);
    var n := s.db.notifications[id];
    RunKeepsInv(max, run);
    SentIsTimely(max, run, id);
    InvKeyed(s, id);
    AppendQuiet(max, run, Restart(boot), id);
    RestartEnqueues(max, s, boot, p, id);
    var run1 := run + [Restart(boot)];
    AppendQuiet(max, run1, Dequeue(p), id);
    ThenDequeued(max, Exec(max, run1), p, n);
    var run2 := run1 + [Dequeue(p)];
    AppendQuiet(max, run2, Claim(p), id);
    ThenClaimed(max, Exec(max, run2), p, n);
    assert run + RestartOf(boot, p) == run2 + [Claim(p)];
  }

  lemma InvKeyed(s: State, id: string)
    requires Inv(s) && id in s.db.notifications
    ensures Keyed(s.db.notifications) && s.db.notifications[id].id == id
  {
  }

  // ---------- The answer that overspends ----------

  /** The condition of `RetryBudget` is exact: after an over-budget answer of `queued` that is
      written for an unexpired notification, any restart that enqueues it leads to a send beyond the
      budget. */
  lemma OverrunOverspends(max: int, run: seq<Action>, a: Action, boot: map<Ptr, string>, p: Ptr)
    requires FreshRun(max, run) && Overruns(max, Exec(max, run), a)
    requires Boots(Step(max, Exec(max, run), a).db, boot, p, Exec(max, run).copies[a.ptr].note.id)
    ensures var id := Exec(max, run).copies[a.ptr].note.id;
      var longer := run + [a] + RestartOf(boot, p) + [Send(p, "p")];
      && FreshRun(max, longer)
      && SendCount(max, longer, id) == SendCount(max, run, id) + 1 > 1
      && StartOf(max, longer, id) + SendCount(max, longer, id) > max
  {
    hide Exec, FreshRun, SendCount, StartOf, NoOverrun, Step, Inv;
    var s := Exec(max, run);
    var c := s.copies[a.ptr];
    var id := c.note.id;
    RunKeepsInv(max, run);
    RetryBudget(max, run, id, false);
    RequeuedRecord(max, s, a);
    SendingWasSent(max, run, a.ptr);
    assert CopyCounts(max, c, s.now, StartOf(max, run, id), SendCount(max, run, id), false);
    AppendQuiet(max, run, a, id);
    RestartResends(max, run + [a], id, boot, p);
    var more := run + [a] + RestartOf(boot, p);
    AppendSend(max, more, p, id);
  }

  lemma AppendSend(max: int, run: seq<Action>, p: Ptr, id: string)
    requires FreshRun(max, run) && Sends(Exec(max, run), Send(p, "p"), id)
    ensures var longer := run + [Send(p, "p")];
      && FreshRun(max, longer)
      && SendCount(max, longer, id) == SendCount(max, run, id) + 1
      && StartOf(max, longer, id) == StartOf(max, run, id)
  {
    hide Step;
    assert (run + [Send(p, "p")])[..|run|] == run;
  }

  lemma RequeuedRecord(max: int, s: State, a: Action)
    requires Inv(s) && Overruns(max, s, a)
    ensures var id := s.copies[a.ptr].note.id; var t := Step(max, s, a);
      && t.now == s.now && id in t.db.notifications
      && t.db.notifications[id].status == Queued
      && t.db.notifications[id].attempts == s.copies[a.ptr].note.attempts
      && t.db.notifications[id].expiresAt == s.copies[a.ptr].note.expiresAt
  {
    hide Effect;
    assert CopyOk(s.db.notifications, s.copies[a.ptr]);
    EffectOfStretch(max, s, a);
  }

  lemma SendingStep(max: int, s: State, a: Action, p: Ptr)
    requires At(Step(max, s, a), p, Sending)
    ensures if At(s, p, Sending) then s.copies[p].note.id == Step(max, s, a).copies[p].note.id
            else Sends(s, a, Step(max, s, a).copies[p].note.id)
  {
    hide Effect, WorkerStretch, SubmitEffect, RequestOf, Ingested, Updated;
    if Enabled(s, a) {
      if IsMove(a) {
        EffectOfMove(max, s, a);
      } else if IsWorker(a) {
        EffectOfStretch(max, s, a);
        StretchNeverSends(max, s, a);
      } else if a.Submit? {
        EffectOfSubmit(max, s, a);
        SubmitNeverSends(s, a);
      } else {
        OthersKeepCopies(max, s, a);
      }
    }
  }

  lemma StretchNeverSends(max: int, s: State, a: Action)
    requires IsWorker(a) && Enabled(s, a)
    ensures var h := WorkerStretch(max, s, a); h.copy.Some? ==> h.copy.value.place != Sending
  {
    hide Effect, Updated;
  }

  lemma SubmitNeverSends(s: State, a: Action)
    requires a.Submit? && a.ptr !in s.copies
    ensures var t := SubmitEffect(s, a.n, a.ptr, a.full);
      t.copies == s.copies || (t.copies == s.copies[a.ptr := t.copies[a.ptr]] && t.copies[a.ptr].place == InQueue)
  {
    hide Created;
  }

  lemma OthersKeepCopies(max: int, s: State, a: Action)
    requires Enabled(s, a) && !IsMove(a) && !IsWorker(a) && !a.Submit?
    ensures var t := Effect(max, s, a);
      t.copies == s.copies || forall p | p in t.copies :: t.copies[p].place == InQueue
  {
    hide WorkerStretch, SubmitEffect, RequestOf, Ingested, Updated;
  }

  /** A copy that is being sent has been sent at least once. */
  lemma {:induction false} SendingWasSent(max: int, run: seq<Action>, p: Ptr)
    requires FreshRun(max, run) && At(Exec(max, run), p, Sending)
    ensures SendCount(max, run, Exec(max, run).copies[p].note.id) > 0
  {
    if run != [] {
      var front, a := run[..|run| - 1], run[|run| - 1];
      SendingStep(max, Exec(max, front), a, p);
      if At(Exec(max, front), p, Sending) {
        SendingWasSent(max, front, p);
      }
    }
  }
}
