/** No record waits for a worker that will never come: who holds the queued and the processing
    records, and exactly which events lose them. */
module Stranding {
  import opened Domain
  import opened Repository
  import opened Receipts
  import opened Delivery
  import opened Protocol

  /** No crash, no refused enqueue, and a provider whose answer settles. */
  predicate Smooth(a: Action) {
    && !a.Restart?
    && (a.Submit? || a.Fire? ==> !a.full)
    && (a.SendOk? ==> Settles(a.result))
  }

  predicate SmoothRun(run: seq<Action>) {
    forall k | 0 <= k < |run| :: Smooth(run[k])
  }

  ghost predicate Creates(s: State, a: Action, id: string) {
    a.Submit? && Enabled(s, a) && a.n.id == id && KeyOf(a.n) !in s.db.idempotency
  }

  /** IDs that were submitted for a future time. */
  ghost function Deferred(max: int, run: seq<Action>): set<string> {
    if run == [] then {}
    else
      var s, a := Exec(max, run[..|run| - 1]), run[|run| - 1];
      Deferred(max, run[..|run| - 1])
      + (if a.Submit? && Creates(s, a, a.n.id) && Future(a.n.scheduleAt, s.now) then {a.n.id} else {})
  }

  ghost predicate HasCopy(s: State, id: string) {
    exists p :: p in s.copies && s.copies[p].note.id == id
  }

  ghost predicate Covered(s: State, id: string, late: bool) {
    && (late ==> !HasCopy(s, id))
    && (id in s.db.notifications && Active(s.db.notifications[id].status) ==>
          if late then s.db.notifications[id].status == Queued else HasCopy(s, id))
  }

  lemma CopiesStay(s: State, t: State, id: string, late: bool)
    requires Covered(s, id, late) && id in s.db.notifications
    requires forall p | p in s.copies :: p in t.copies && t.copies[p].note.id == s.copies[p].note.id
    requires forall p | p in t.copies && p !in s.copies :: t.copies[p].note.id != id
    requires ForeignAt(s.db.notifications, t.db.notifications, id)
    ensures Covered(t, id, late)
  {
    if HasCopy(s, id) {
      var p :| p in s.copies && s.copies[p].note.id == id;
      assert p in t.copies && t.copies[p].note.id == id;
    }
    if HasCopy(t, id) {
      var p :| p in t.copies && t.copies[p].note.id == id;
      assert p in s.copies && s.copies[p].note.id == id;
    }
  }

  lemma StretchCovered(s: State, p: Ptr, h: Handled, id: string, late: bool)
    requires Inv(s) && p in s.copies && StretchOk(s.db, s.copies[p], h) && Covered(s, id, late)
    requires DropOk(s.copies[p], h)
    ensures Covered(Replace(s, p, h), id, late)
  {
    var t := Replace(s, p, h);
    var own := s.copies[p].note.id;
    assert CopyOk(s.db.notifications, s.copies[p]);
    if own == id {
      assert HasCopy(s, id);
      if h.copy.Some? {
        assert p in t.copies && t.copies[p].note.id == id;
      }
    } else {
      if HasCopy(s, id) {
        var r :| r in s.copies && s.copies[r].note.id == id;
        assert r in t.copies && t.copies[r].note.id == id;
      }
      if HasCopy(t, id) {
        var r :| r in t.copies && t.copies[r].note.id == id;
        assert r in s.copies && s.copies[r].note.id == id;
      }
    }
  }

  lemma SubmitCovered(s: State, n: Note, p: Ptr, id: string, late: bool)
    requires Inv(s) && FreshStep(s, Submit(n, p, false)) && Enabled(s, Submit(n, p, false))
    requires Covered(s, id, late) && (id !in s.db.notifications ==> !late)
    ensures var created := Creates(s, Submit(n, p, false), id);
      Covered(SubmitEffect(s, n, p, false), id, if created then Future(n.scheduleAt, s.now) else late)
  {
    var t := SubmitEffect(s, n, p, false);
    assert forall q | q in s.copies :: CopyOk(s.db.notifications, s.copies[q]);
    SubmitMoves(s, n, p, false);
    if Creates(s, Submit(n, p, false), id) {
      if !Future(n.scheduleAt, s.now) {
        assert p in t.copies && t.copies[p].note.id == id;
      } else {
        assert t.copies == s.copies;
      }
    } else if id in s.db.notifications {
      CopiesStay(s, t, id, late);
    }
  }

  lemma StepCovered(max: int, s: State, a: Action, id: string, late: bool)
    requires Inv(s) && FreshStep(s, a) && Smooth(a)
    requires Covered(s, id, late) && (id !in s.db.notifications ==> !late)
    ensures Covered(Step(max, s, a), id, if Creates(s, a, id) then Future(a.n.scheduleAt, s.now) else late)
  {
    hide Effect, WorkerStretch, SubmitEffect, StretchOk, DropOk, Covered;
    if Enabled(s, a) {
      if IsWorker(a) {
        WorkerOk(max, s, a);
        StretchCovered(s, a.ptr, WorkerStretch(max, s, a), id, late);
      } else if a.Submit? {
        EffectOfSubmit(max, s, a);
        SubmitCovered(s, a.n, a.ptr, id, late);
      } else {
        OutsideCovered(max, s, a, id, late);
      }
    }
  }

  lemma OutsideCovered(max: int, s: State, a: Action, id: string, late: bool)
    requires Inv(s) && Smooth(a) && Enabled(s, a) && !IsWorker(a) && !a.Submit?
    requires Covered(s, id, late) && (id !in s.db.notifications ==> !late)
    ensures Covered(Effect(max, s, a), id, late)
  {
    hide Effect;
    var t := Effect(max, s, a);
    OutsideShape(max, s, a);
    hide Inv, Enabled;
    if id in s.db.notifications {
      assert ForeignAt(s.db.notifications, t.db.notifications, id);
      CopiesStay(s, t, id, late);
    }
  }

  ghost predicate NoneRequeued(before: map<string, Note>, after: map<string, Note>) {
    forall id | id in before && id in after :: after[id] == before[id] || after[id].status != Queued
  }

  /** A step that is neither a worker's nor a submission keeps the live copies, and a write in it
      is foreign to them. */
  lemma OutsideShape(max: int, s: State, a: Action)
    requires Inv(s) && Enabled(s, a) && !IsWorker(a) && !a.Submit?
    ensures var t := Effect(max, s, a);
      && AllForeign(s.db.notifications, t.db.notifications)
      && NoneRequeued(s.db.notifications, t.db.notifications)
      && t.db.notifications.Keys == s.db.notifications.Keys
      && (Smooth(a) ==> t.copies.Keys == s.copies.Keys)
      && (!a.Restart? ==> forall p | p in t.copies :: p in s.copies && t.copies[p].note.id == s.copies[p].note.id)
      && (a.Restart? ==> forall p | p in t.copies ::
            t.copies[p].note.id in s.db.notifications && s.db.notifications[t.copies[p].note.id].status == Queued)
  {
    hide Moved, Effect;
    match a {
      case ApiWrite(q) => ApiWriteShape(max, s, q);
      case Ingest(r) => IngestShape(max, s, r);
      case Restart(boot) => RestartShape(max, s, boot);
      case _ =>
        if IsMove(a) {
          EffectOfMove(max, s, a);
        } else {
          EffectOfQuiet(max, s, a);
        }
    }
  }

  lemma ApiWriteShape(max: int, s: State, q: nat)
    requires Inv(s) && q in s.requests
    ensures var t := Effect(max, s, ApiWrite(q));
      && AllForeign(s.db.notifications, t.db.notifications)
      && NoneRequeued(s.db.notifications, t.db.notifications)
      && t.db.notifications.Keys == s.db.notifications.Keys
      && t.copies == s.copies
  {
    hide WorkerStretch, SubmitEffect, RequestOf, Ingested, Updated;
    ApiWriteMoves(s, q);
    assert RequestOk(s.db.notifications, s.requests[q]);
    UpdateWrites(s.db, s.requests[q].note, s.requests[q].expected, s.now);
  }

  lemma IngestShape(max: int, s: State, r: Receipt)
    requires Inv(s)
    ensures var t := Effect(max, s, Ingest(r));
      && AllForeign(s.db.notifications, t.db.notifications)
      && NoneRequeued(s.db.notifications, t.db.notifications)
      && t.db.notifications.Keys == s.db.notifications.Keys
      && t.copies == s.copies
  {
    hide WorkerStretch, SubmitEffect, RequestOf, Updated;
    IngestMoves(s.db, r, s.now);
    assert Admissible(s.db, r) ==> s.db.notifications[r.notificationId].id == r.notificationId;
  }

  lemma RestartShape(max: int, s: State, boot: map<Ptr, string>)
    requires Inv(s) && Bootable(s.db, boot)
    ensures var t := Effect(max, s, Restart(boot));
      && t.db == s.db
      && t.copies.Keys == boot.Keys
      && forall p | p in boot :: t.copies[p].note == s.db.notifications[boot[p]] && t.copies[p].note.id == boot[p]
  {
    hide WorkerStretch, SubmitEffect, RequestOf, Updated, Ingested;
    forall p | p in boot
      ensures s.db.notifications[boot[p]].id == boot[p]
    {
    }
  }

  /** In a smooth run every stored `processing` record is in exactly one worker's hands, and a
      stored `queued` record has a live copy at its version exactly if it was not submitted for a
      future time. (Scheduled submissions are stored but never enqueued until a restart.) */
  lemma {:induction false} NothingStranded(max: int, run: seq<Action>, id: string)
    requires FreshRun(max, run) && SmoothRun(run)
    ensures var s := Exec(max, run); var late := id in Deferred(max, run);
      && Covered(s, id, late)
      && (late ==> id in s.db.notifications)
      && (id in s.db.notifications ==>
            var r := s.db.notifications[id];
            && (r.status == Processing ==> Held(s, id, r.version, true))
            && (r.status == Queued ==> (Held(s, id, r.version, false) <==> !late)))
  {
    if run != [] {
      var front, a := run[..|run| - 1], run[|run| - 1];
      NothingStranded(max, front, id);
      RunKeepsInv(max, front);
      StepCovered(max, Exec(max, front), a, id, id in Deferred(max, front));
      LateExists(max, Exec(max, front), a, id);
    }
    RunKeepsInv(max, run);
    CoveredIsHeld(Exec(max, run), id, id in Deferred(max, run));
  }

  lemma SubmitLands(s: State, n: Note, p: Ptr, full: bool)
    requires FreshStep(s, Submit(n, p, full)) && Enabled(s, Submit(n, p, full))
    ensures var after := SubmitEffect(s, n, p, full).db.notifications;
      && s.db.notifications.Keys <= after.Keys
      && (Creates(s, Submit(n, p, full), n.id) ==> n.id !in s.db.notifications && n.id in after)
  {
  }

  lemma LateExists(max: int, s: State, a: Action, id: string)
    requires Inv(s) && FreshStep(s, a)
    ensures Creates(s, a, id) ==> id !in s.db.notifications && id in Step(max, s, a).db.notifications
    ensures id in s.db.notifications ==> id in Step(max, s, a).db.notifications
  {
    hide Effect, WorkerStretch, SubmitEffect;
    if Enabled(s, a) {
      if IsWorker(a) {
        WorkerOk(max, s, a);
      } else if a.Submit? {
        EffectOfSubmit(max, s, a);
        SubmitLands(s, a.n, a.ptr, a.full);
      } else {
        OutsideShape(max, s, a);
      }
    }
  }

  /** One live copy of `id` is at `version`, busy or waiting as said, and there is no other. */
  ghost predicate Held(s: State, id: string, version: int, busy: bool) {
    exists p :: HeldBy(s, id, version, busy, p)
  }

  ghost predicate HeldBy(s: State, id: string, version: int, busy: bool, p: Ptr) {
    && p in s.copies
    && s.copies[p].note.id == id && s.copies[p].note.version == version
    && Busy(s.copies[p].place) == busy
    && (forall q | q in s.copies && s.copies[q].note.id == id :: q == p)
  }

  lemma CoveredIsHeld(s: State, id: string, late: bool)
    requires Inv(s) && Covered(s, id, late)
    ensures id in s.db.notifications ==>
              var r := s.db.notifications[id];
              && (r.status == Processing ==> Held(s, id, r.version, true))
              && (r.status == Queued ==> (Held(s, id, r.version, false) <==> !late))
  {
    if id in s.db.notifications && Active(s.db.notifications[id].status) && !late {
      var r := s.db.notifications[id];
      var p :| p in s.copies && s.copies[p].note.id == id;
      assert CopyOk(s.db.notifications, s.copies[p]);
      assert HeldBy(s, id, r.version, r.status == Processing, p);
    }
  }

  // ---------- Exactly what strands a record ----------

  /** A provider's success strands the record, which is left queued or processing without a copy,
      exactly if the record is at the copy's version and the answer does not settle. */
  lemma AnswerStrandsExactly(s: State, p: Ptr, result: Status)
    requires Inv(s) && At(s, p, Sending)
    ensures var h := SettleStep(s.db, s.copies[p].note, result, s.now); var id := s.copies[p].note.id;
      && h.copy.None? && id in s.db.notifications && id in h.db.notifications
      && (Active(h.db.notifications[id].status)
          <==> s.copies[p].note.version == s.db.notifications[id].version && !Settles(result))
  {
    hide Updated;
    var n := s.copies[p].note;
    assert CopyOk(s.db.notifications, s.copies[p]);
    var t := Transitioned(n, Reported(result), s.now);
    if t.Some? {
      UpdateWrites(s.db, t.value, n.version, s.now);
    }
  }

  /** A timer that fires into a full queue strands the record exactly if it is queued. */
  lemma FullQueueStrandsExactly(max: int, s: State, p: Ptr)
    requires Inv(s) && Enabled(s, Fire(p, true))
    ensures var t := Step(max, s, Fire(p, true)); var id := s.copies[p].note.id;
      && id in t.db.notifications && t.db == s.db && !HasCopy(t, id)
      && (Active(t.db.notifications[id].status) <==> s.db.notifications[id].status == Queued)
  {
    hide Effect;
    EffectOfMove(max, s, Fire(p, true));
    assert CopyOk(s.db.notifications, s.copies[p]);
  }

  /** A submission that creates a record leaves it without a copy exactly if it is refused by a full
      queue or is for a future time. */
  lemma SubmitStrandsExactly(max: int, s: State, n: Note, p: Ptr, full: bool)
    requires Inv(s) && FreshStep(s, Submit(n, p, full)) && Creates(s, Submit(n, p, full), n.id)
    ensures var t := Step(max, s, Submit(n, p, full));
      && n.id in t.db.notifications && t.db.notifications[n.id].status == Queued
      && (HasCopy(t, n.id) <==> !full && !Future(n.scheduleAt, s.now))
  {
    hide Effect;
    EffectOfSubmit(max, s, Submit(n, p, full));
    SubmitLands(s, n, p, full);
    var t := SubmitEffect(s, n, p, full);
    forall q | q in s.copies
      ensures s.copies[q].note.id != n.id
    {
      assert CopyOk(s.db.notifications, s.copies[q]);
    }
    if !full && !Future(n.scheduleAt, s.now) {
      assert p in t.copies && t.copies[p].note.id == n.id;
    }
  }

  ghost predicate Lost(s: State, id: string) {
    id in s.db.notifications && s.db.notifications[id].status != Queued && !HasCopy(s, id)
  }

  lemma LostReplace(s: State, p: Ptr, h: Handled, id: string)
    requires Lost(s, id) && p in s.copies && StretchOk(s.db, s.copies[p], h)
    ensures Lost(Replace(s, p, h), id)
  {
  }

  lemma LostStep(max: int, s: State, a: Action, id: string)
    requires Inv(s) && FreshStep(s, a) && Lost(s, id)
    ensures Lost(Step(max, s, a), id) && !Sends(s, a, id)
  {
    assert !Sends(s, a, id);
    hide Effect, WorkerStretch, Inv, Lost, StretchOk, FreshStep, Replace;
    if Enabled(s, a) {
      if IsWorker(a) {
        WorkerOk(max, s, a);
        LostReplace(s, a.ptr, WorkerStretch(max, s, a), id);
      } else {
        LostOutside(max, s, a, id);
      }
    }
  }

  lemma LostSubmit(s: State, n: Note, p: Ptr, full: bool, id: string)
    requires Lost(s, id) && FreshStep(s, Submit(n, p, full)) && p !in s.copies
    ensures Lost(SubmitEffect(s, n, p, full), id)
  {
  }

  lemma LostOutside(max: int, s: State, a: Action, id: string)
    requires Inv(s) && FreshStep(s, a) && Lost(s, id) && Enabled(s, a) && !IsWorker(a)
    ensures Lost(Effect(max, s, a), id)
  {
    hide Effect, SubmitEffect;
    if a.Submit? {
      EffectOfSubmit(max, s, a);
      LostSubmit(s, a.n, a.ptr, a.full, id);
    } else {
      OutsideShape(max, s, a);
      assert ForeignAt(s.db.notifications, Effect(max, s, a).db.notifications, id);
    }
  }

  /** A crash loses every attempt that was in flight for good: a record that was not queued when
      the process restarted is never held and never sent again, whatever follows. */
  lemma {:induction false} RestartLosesAttempts(max: int, run: seq<Action>, boot: map<Ptr, string>, later: seq<Action>,
                                                id: string)
    requires FreshRun(max, run + [Restart(boot)] + later)
    requires Enabled(Exec(max, run), Restart(boot))
    requires id in Exec(max, run).db.notifications && Exec(max, run).db.notifications[id].status != Queued
    ensures Lost(Exec(max, run + [Restart(boot)] + later), id)
    ensures SendCount(max, run + [Restart(boot)] + later, id) == SendCount(max, run, id)
    decreases |later|
  {
    var full := run + [Restart(boot)] + later;
    if later == [] {
      assert full == run + [Restart(boot)] && full[..|full| - 1] == run;
      ExecStep(max, run, Restart(boot));
      RunKeepsInv(max, run);
      var s, t := Exec(max, run), Exec(max, full);
      forall p | p in t.copies
        ensures t.copies[p].note.id != id
      {
        assert s.db.notifications[boot[p]].id == boot[p];
      }
    } else {
      var front := later[..|later| - 1];
      assert full[..|full| - 1] == run + [Restart(boot)] + front;
      RestartLosesAttempts(max, run, boot, front, id);
      RunKeepsInv(max, run + [Restart(boot)] + front);
      LostStep(max, Exec(max, run + [Restart(boot)] + front), later[|later| - 1], id);
    }
  }

  /** A restart that enqueues all queued records gives each of them its one copy at its version. */
  lemma RestartHeals(max: int, s: State, boot: map<Ptr, string>, id: string)
    requires Inv(s) && Enabled(s, Restart(boot)) && id in s.db.notifications
    requires s.db.notifications[id].status == Queued && id in boot.Values
    ensures Held(Step(max, s, Restart(boot)), id, s.db.notifications[id].version, false)
  {
    var t := Step(max, s, Restart(boot));
    var p :| p in boot && boot[p] == id;
    assert forall q | q in boot :: s.db.notifications[boot[q]].id == boot[q];
    assert HeldBy(t, id, s.db.notifications[id].version, false, p);
  }
}
