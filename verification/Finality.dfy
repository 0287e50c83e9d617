/** Writes from outside that are final against the workers, in every interleaving: cancellations, and
    every other write that no worker's retry can catch up with. */
module Finality {
  import opened Wrappers
  import opened Domain
  import opened Decimal
  import opened Repository
  import opened Receipts
  import opened Delivery
  import opened Protocol
  import opened Conformity

  /** The step in which the pending API call `q` turns record `id` to canceled. */
  predicate CancelTakes(s: State, q: nat, id: string) {
    && q in s.requests
    && s.requests[q].note.id == id
    && s.requests[q].note.status == Canceled
    && UpdateOk(s.db, id, s.requests[q].expected)
    && s.db.notifications[id].status != Canceled
  }

  /** The record is beyond the reach of its live copies: a waiting copy is at least one version
      behind; a busy one too, and its retry, which moves it up by one without a write, does not make
      up for that, or does not happen since its budget is spent. */
  predicate Outrun(max: int, s: State, id: string, p: Ptr)
    requires p in s.copies && id in s.db.notifications
  {
    var c, version := s.copies[p], s.db.notifications[id].version;
    c.note.id == id ==>
      && c.note.version < version
      && (Busy(c.place) ==> c.note.version + 1 < version || c.note.attempts >= max)
  }

  ghost predicate Dead(max: int, s: State, id: string) {
    && id in s.db.notifications
    && !Active(s.db.notifications[id].status)
    && (forall p | p in s.copies :: Outrun(max, s, id, p))
  }

  /** An API write or a receipt moves the version of `id`, and no worker is busy with a current copy
      that it could retry. */
  ghost predicate TakesHold(max: int, s: State, a: Action, id: string) {
    && MovesVersion(s, a, id)
    && forall p | p in s.copies && s.copies[p].note.id == id && Busy(s.copies[p].place) ::
         id in s.db.notifications
         && (s.copies[p].note.version < s.db.notifications[id].version || s.copies[p].note.attempts >= max)
  }

  /** A worker's update on `id` is accepted in this step. */
  ghost predicate WorkerWrites(max: int, s: State, a: Action, id: string) {
    IsWorker(a) && Enabled(s, a) && s.copies[a.ptr].note.id == id && WorkerStretch(max, s, a).db != s.db
  }

  predicate StatusChanges(s: State, t: State, id: string) {
    && id in s.db.notifications
    && (id !in t.db.notifications || t.db.notifications[id].status != s.db.notifications[id].status)
  }

  predicate Unpaused(s: State, id: string) {
    id in s.db.notifications && s.db.notifications[id].status != Paused
  }

  /** A copy that was claimed before and whose provider call has not begun. */
  ghost predicate HasClaimed(s: State, id: string) {
    exists p :: At(s, p, Claimed) && s.copies[p].note.id == id
  }

  ghost function Pending(s: State, id: string): nat {
    if HasClaimed(s, id) then 1 else 0
  }

  /** A Cancel that changes the status always takes hold: no worker is busy with a current copy of a
      record that can be canceled. */
  lemma CancelTakesHold(max: int, s: State, q: nat, id: string)
    requires Inv(s) && CancelTakes(s, q, id)
    ensures TakesHold(max, s, ApiWrite(q), id) && Enabled(s, ApiWrite(q))
  {
    assert RequestOk(s.db.notifications, s.requests[q]);
    forall p | p in s.copies && s.copies[p].note.id == id && Busy(s.copies[p].place)
      ensures s.copies[p].note.version < s.db.notifications[id].version
    {
      assert CopyOk(s.db.notifications, s.copies[p]);
    }
  }

  lemma WriteKills(max: int, s: State, a: Action, id: string)
    requires Inv(s) && Enabled(s, a) && TakesHold(max, s, a, id)
    ensures Dead(max, Step(max, s, a), id)
    ensures Pending(Step(max, s, a), id) == Pending(s, id)
  {
    hide Effect;
    var t := Effect(max, s, a);
    MovedRecord(s, a, id);
    LandingMoves(max, s, a, id);
    LandingShape(max, s, a);
    assert ForeignAt(s.db.notifications, t.db.notifications, id);
    forall p | p in t.copies
      ensures Outrun(max, t, id, p)
    {
      assert CopyOk(s.db.notifications, s.copies[p]);
    }
    assert HasClaimed(t, id) <==> HasClaimed(s, id) by {
      assert forall p :: At(t, p, Claimed) <==> At(s, p, Claimed);
    }
  }

  lemma MovedRecord(s: State, a: Action, id: string)
    requires MovesVersion(s, a, id)
    ensures id in s.db.notifications && (a.ApiWrite? || a.Ingest?)
  {
  }

  lemma LandingShape(max: int, s: State, a: Action)
    requires Inv(s) && Enabled(s, a) && (a.ApiWrite? || a.Ingest?)
    ensures AllForeign(s.db.notifications, Effect(max, s, a).db.notifications)
  {
    hide WorkerStretch, SubmitEffect, RequestOf, Updated, Ingested;
    if a.ApiWrite? {
      ApiWriteMoves(s, a.request);
    } else {
      IngestMoves(s.db, a.receipt, s.now);
    }
  }

  /** A write by someone else leaves a dead record dead. */
  lemma ForeignKeepsDead(max: int, s: State, t: State, id: string)
    requires Dead(max, s, id) && id in t.db.notifications
    requires !Active(t.db.notifications[id].status)
    requires s.db.notifications[id].version <= t.db.notifications[id].version
    requires forall p | p in t.copies && t.copies[p].note.id == id ::
               && p in s.copies && s.copies[p].note.id == id
               && t.copies[p].note.version == s.copies[p].note.version
               && t.copies[p].note.attempts >= s.copies[p].note.attempts
               && (Busy(t.copies[p].place) ==> Busy(s.copies[p].place))
    ensures Dead(max, t, id)
  {
    forall p | p in t.copies
      ensures Outrun(max, t, id, p)
    {
      if t.copies[p].note.id == id {
        assert Outrun(max, s, id, p);
      }
    }
  }

  /** No stretch of a worker writes to a dead record; a claim drops the copy. */
  lemma StretchOnDead(max: int, s: State, a: Action, id: string)
    requires Inv(s) && Dead(max, s, id) && IsWorker(a) && Enabled(s, a) && s.copies[a.ptr].note.id == id
    ensures var h := WorkerStretch(max, s, a);
      && h.db == s.db
      && (h.copy.Some? ==> h.copy.value.note.id == id && h.copy.value.place.InTimer?
                           && h.copy.value.note.version < s.db.notifications[id].version)
      && (a.Claim? ==> h.copy.None?)
  {
    hide Effect, WorkerStretch;
    EffectOfStretch(max, s, a);
    assert Outrun(max, s, id, a.ptr);
    StretchOnStale(max, s, a);
  }

  /** A stretch whose copy lags its record writes nothing, and at most retries. */
  lemma StretchOnStale(max: int, s: State, a: Action)
    requires IsWorker(a) && a.ptr in s.copies && !UpdateOk(s.db, s.copies[a.ptr].note.id, s.copies[a.ptr].note.version)
    ensures var h, n := WorkerStretch(max, s, a), s.copies[a.ptr].note;
      && h.db == s.db
      && (h.copy.Some? ==> h.copy.value.note.id == n.id && h.copy.value.place.InTimer?
                           && h.copy.value.note.version <= n.version + 1 && n.attempts < max)
      && (a.Claim? || a.Expire? ==> h.copy.None?)
  {
    hide ExpireStep, ClaimStep, RetryStep, SettleStep;
    var n := s.copies[a.ptr].note;
    match a {
      case Expire(_) => StaleExpire(s.db, n, s.now);
      case Claim(_) => StaleClaim(s.db, n, s.now);
      case NoProvider(_, error, platform) => StaleRetry(max, s.db, n, error, s.now, platform);
      case SendFailed(_, error, platform) => StaleRetry(max, s.db, n, error, s.now, platform);
      case SendOk(_, result) => StaleSettle(s.db, n, result, s.now);
    }
  }

  lemma StaleExpire(db: Snapshot, n: Note, now: int)
    requires !UpdateOk(db, n.id, n.version)
    ensures ExpireStep(db, n, now) == Handled(db, None)
  {
  }

  lemma StaleClaim(db: Snapshot, n: Note, now: int)
    requires !UpdateOk(db, n.id, n.version)
    ensures ClaimStep(db, n, now) == Handled(db, None)
  {
  }

  lemma StaleRetry(max: int, db: Snapshot, n: Note, error: string, now: int, platform: Int64)
    requires !UpdateOk(db, n.id, n.version)
    ensures var h := RetryStep(max, db, n, error, now, platform);
      && h.db == db
      && (h.copy.Some? ==> h.copy.value.place.InTimer? && h.copy.value.note.id == n.id
                           && h.copy.value.note.version <= n.version + 1 && n.attempts < max)
  {
  }

  lemma StaleSettle(db: Snapshot, n: Note, result: Status, now: int)
    requires !UpdateOk(db, n.id, n.version)
    ensures SettleStep(db, n, result, now) == Handled(db, None)
  {
  }

  lemma StretchElsewhere(max: int, s: State, p: Ptr, h: Handled, id: string)
    requires Inv(s) && Dead(max, s, id) && p in s.copies && s.copies[p].note.id != id && StretchOk(s.db, s.copies[p], h)
    ensures var t := Replace(s, p, h);
      && id in t.db.notifications && t.db.notifications[id] == s.db.notifications[id]
      && Dead(max, t, id)
      && (forall r | r in t.copies && t.copies[r].note.id == id :: r in s.copies && t.copies[r] == s.copies[r])
  {
    ForeignKeepsDead(max, s, Replace(s, p, h), id);
  }

  /** Copies of `id` in `t` come from `s`, as far along as there, and none is newly claimed. */
  ghost predicate NoNewCopies(s: State, t: State, id: string) {
    forall p | p in t.copies && t.copies[p].note.id == id ::
      && p in s.copies && s.copies[p].note.id == id
      && t.copies[p].note.version == s.copies[p].note.version
      && t.copies[p].note.attempts >= s.copies[p].note.attempts
      && (Busy(t.copies[p].place) ==> Busy(s.copies[p].place))
      && (t.copies[p].place.Claimed? ==> s.copies[p].place.Claimed?)
  }

  /** What a step by someone other than a worker leaves of a dead record and its copies. */
  ghost predicate Untouched(s: State, t: State, id: string) {
    && NoNewCopies(s, t, id)
    && id in s.db.notifications && id in t.db.notifications
    && !Active(t.db.notifications[id].status)
    && t.db.notifications[id].version >= s.db.notifications[id].version
  }

  lemma DeadSubmit(max: int, s: State, n: Note, p: Ptr, full: bool, id: string)
    requires Dead(max, s, id) && FreshStep(s, Submit(n, p, full)) && p !in s.copies
    ensures var t := SubmitEffect(s, n, p, full); Untouched(s, t, id) && !StatusChanges(s, t, id)
  {
  }

  lemma DeadMoved(max: int, s: State, a: Action, id: string)
    requires Dead(max, s, id) && Enabled(s, a) && (IsMove(a) || a.Tick? || a.ApiRead?)
    ensures var t := Effect(max, s, a); Untouched(s, t, id) && !StatusChanges(s, t, id)
  {
    hide Effect, Moved;
    if IsMove(a) {
      EffectOfMove(max, s, a);
    } else {
      EffectOfQuiet(max, s, a);
    }
  }

  lemma DeadApiWrite(max: int, s: State, q: nat, id: string)
    requires Inv(s) && Dead(max, s, id) && q in s.requests
    ensures var t := Effect(max, s, ApiWrite(q));
      Untouched(s, t, id) && (s.db.notifications[id].status != Paused ==> !StatusChanges(s, t, id))
  {
    var r := s.requests[q];
    assert RequestOk(s.db.notifications, r);
    UpdateWrites(s.db, r.note, r.expected, s.now);
  }

  lemma DeadIngest(max: int, s: State, r: Receipt, id: string)
    requires Inv(s) && Dead(max, s, id)
    ensures Untouched(s, Effect(max, s, Ingest(r)), id)
    ensures s.db.notifications[id].status != Paused ==> Effect(max, s, Ingest(r)).db.notifications[id].status != Paused
  {
    IngestMoves(s.db, r, s.now);
    assert MovesAt(s.db.notifications, Ingested(s.db, r, s.now).notifications, id);
  }

  lemma DeadRestart(max: int, s: State, boot: map<Ptr, string>, id: string)
    requires Inv(s) && Dead(max, s, id) && Bootable(s.db, boot)
    ensures var t := Effect(max, s, Restart(boot)); Untouched(s, t, id) && !StatusChanges(s, t, id)
  {
  }

  lemma DeadOutsider(max: int, s: State, a: Action, id: string)
    requires Inv(s) && FreshStep(s, a) && Dead(max, s, id) && Enabled(s, a) && !IsWorker(a)
    ensures Untouched(s, Effect(max, s, a), id)
    ensures StatusChanges(s, Effect(max, s, a), id) ==> a.Ingest? || a.ApiWrite?
    ensures Unpaused(s, id) ==>
              Unpaused(Effect(max, s, a), id) && (StatusChanges(s, Effect(max, s, a), id) ==> a.Ingest?)
  {
    hide Effect, SubmitEffect, NoNewCopies, Dead, FreshStep, Inv;
    match a {
      case Submit(n, p, full) =>
        EffectOfSubmit(max, s, a);
        DeadSubmit(max, s, n, p, full, id);
      case ApiWrite(q) => DeadApiWrite(max, s, q, id);
      case Ingest(r) => DeadIngest(max, s, r, id);
      case Restart(boot) => DeadRestart(max, s, boot, id);
      case _ => DeadMoved(max, s, a, id);
    }
  }

  lemma DeadReplace(max: int, s: State, p: Ptr, h: Handled, id: string)
    requires Dead(max, s, id) && p in s.copies && h.db == s.db
    requires h.copy.Some? ==> h.copy.value.note.id == id && h.copy.value.place.InTimer?
                              && h.copy.value.note.version < s.db.notifications[id].version
    ensures Dead(max, Replace(s, p, h), id)
  {
    var t := Replace(s, p, h);
    forall q | q in t.copies
      ensures Outrun(max, t, id, q)
    {
      if q != p {
        assert Outrun(max, s, id, q);
      }
    }
  }

  lemma DeadWorker(max: int, s: State, a: Action, id: string)
    requires Inv(s) && Dead(max, s, id) && IsWorker(a) && Enabled(s, a)
    ensures var t := Effect(max, s, a);
      && Dead(max, t, id)
      && !StatusChanges(s, t, id)
      && (forall p | At(t, p, Claimed) && t.copies[p].note.id == id :: At(s, p, Claimed) && s.copies[p].note.id == id)
      && !WorkerWrites(max, s, a, id)
  {
    hide Effect, WorkerStretch, StretchOk;
    WorkerOk(max, s, a);
    if s.copies[a.ptr].note.id == id {
      StretchOnDead(max, s, a, id);
      DeadReplace(max, s, a.ptr, WorkerStretch(max, s, a), id);
    } else {
      StretchElsewhere(max, s, a.ptr, WorkerStretch(max, s, a), id);
    }
  }

  /** One step from a dead record, whoever takes it. */
  lemma DeadStep(max: int, s: State, a: Action, id: string)
    requires Inv(s) && FreshStep(s, a) && Dead(max, s, id)
    ensures Dead(max, Step(max, s, a), id)
    ensures !WorkerWrites(max, s, a, id)
    ensures StatusChanges(s, Step(max, s, a), id) ==> a.Ingest? || a.ApiWrite?
    ensures Unpaused(s, id) ==> Unpaused(Step(max, s, a), id) && (StatusChanges(s, Step(max, s, a), id) ==> a.Ingest?)
    ensures forall p | At(Step(max, s, a), p, Claimed) && Step(max, s, a).copies[p].note.id == id ::
              At(s, p, Claimed) && s.copies[p].note.id == id
  {
    hide Effect, WorkerStretch, Inv, Dead, FreshStep;
    if Enabled(s, a) {
      if IsWorker(a) {
        DeadWorker(max, s, a, id);
      } else {
        DeadOutsider(max, s, a, id);
        ForeignKeepsDead(max, s, Effect(max, s, a), id);
      }
    }
  }

  /** From a dead record on, only a call whose copy was already claimed can still begin. */
  lemma DeadSends(max: int, s: State, a: Action, id: string)
    requires Inv(s) && FreshStep(s, a) && Dead(max, s, id)
    ensures (if Sends(s, a, id) then 1 else 0) + Pending(Step(max, s, a), id) <= Pending(s, id)
  {
    hide Effect, WorkerStretch, Dead, FreshStep;
    var t := Step(max, s, a);
    DeadStep(max, s, a, id);
    if Sends(s, a, id) {
      EffectOfMove(max, s, a);
      assert At(s, a.ptr, Claimed);
      assert !HasClaimed(t, id);
    } else if HasClaimed(t, id) {
      var p :| At(t, p, Claimed) && t.copies[p].note.id == id;
      assert At(s, p, Claimed) && s.copies[p].note.id == id;
    }
  }

  /** Step `k` of the run performs no worker write on `id`, and changes its status only from outside. */
  ghost predicate StepSpares(max: int, run: seq<Action>, k: nat, id: string)
    requires k < |run|
  {
    var s := Exec(max, run[..k]);
    && !WorkerWrites(max, s, run[k], id)
    && (StatusChanges(s, Step(max, s, run[k]), id) ==> run[k].Ingest? || run[k].ApiWrite?)
  }

  /** The main result. After an outside write that takes hold, be it a pause, a cancel or a receipt:
      whatever follows (further writes, retries whose update failed, crashes and recoveries
      included), no worker update on the notification is accepted again, and its status changes
      only from outside. */
  lemma {:induction false} WriteIsFinal(max: int, run: seq<Action>, a: Action, id: string, later: seq<Action>)
    requires FreshRun(max, run + [a] + later)
    requires Enabled(Exec(max, run), a) && TakesHold(max, Exec(max, run), a, id)
    ensures var full := run + [a] + later;
      && FreshRun(max, run + [a])
      && Dead(max, Exec(max, full), id)
      && SendCount(max, full, id) + Pending(Exec(max, full), id)
         <= SendCount(max, run, id) + Pending(Exec(max, run), id)
    ensures forall k | |run| < k < |run| + 1 + |later| :: StepSpares(max, run + [a] + later, k, id)
    decreases |later|
  {
    hide Step, Inv, Dead, FreshStep, WorkerWrites, StatusChanges, TakesHold, Unpaused, Enabled;
    var full := run + [a] + later;
    if later == [] {
      assert full == run + [a];
      assert full[..|full| - 1] == run;
      RunKeepsInv(max, run);
      WriteKills(max, Exec(max, run), a, id);
      NotASend(max, Exec(max, run), a, id);
    } else {
      var front, b := later[..|later| - 1], later[|later| - 1];
      var shorter := run + [a] + front;
      assert full[..|full| - 1] == shorter && full[|full| - 1] == b;
      WriteIsFinal(max, run, a, id, front);
      RunKeepsInv(max, shorter);
      DeadStep(max, Exec(max, shorter), b, id);
      DeadSends(max, Exec(max, shorter), b, id);
      forall k | |run| < k < |full|
        ensures StepSpares(max, full, k, id)
      {
        if k < |shorter| {
          assert StepSpares(max, shorter, k, id);
          assert full[..k] == shorter[..k] && full[k] == shorter[k];
        } else {
          assert full[..k] == shorter;
        }
      }
    }
  }

  lemma NotASend(max: int, s: State, a: Action, id: string)
    requires TakesHold(max, s, a, id)
    ensures !Sends(s, a, id)
  {
  }

  /** At most one send can begin after such a write, and none unless a worker had claimed a copy and
      not yet begun its call at that moment. */
  lemma SendsAfterWrite(max: int, run: seq<Action>, a: Action, id: string, later: seq<Action>)
    requires FreshRun(max, run + [a] + later)
    requires Enabled(Exec(max, run), a) && TakesHold(max, Exec(max, run), a, id)
    ensures SendCount(max, run + [a] + later, id)
            <= SendCount(max, run, id) + (if HasClaimed(Exec(max, run), id) then 1 else 0)
  {
    WriteIsFinal(max, run, a, id, later);
  }

  // ---------- Cancel ----------

  /** Step `k` of the run performs no worker write on `id`, and no status change but a receipt's. */
  ghost predicate StepLeavesToReceipts(max: int, run: seq<Action>, k: nat, id: string)
    requires k < |run|
  {
    var s := Exec(max, run[..k]);
    !WorkerWrites(max, s, run[k], id) && (StatusChanges(s, Step(max, s, run[k]), id) ==> run[k].Ingest?)
  }

  /** After a Cancel that changed the status no worker update on the notification is accepted again,
      and only a receipt changes its stored status. */
  lemma {:induction false} CancelIsFinal(max: int, run: seq<Action>, q: nat, id: string, later: seq<Action>)
    requires FreshRun(max, run + [ApiWrite(q)] + later)
    requires CancelTakes(Exec(max, run), q, id)
    ensures var full := run + [ApiWrite(q)] + later;
      Dead(max, Exec(max, full), id) && Unpaused(Exec(max, full), id)
    ensures forall k | |run| < k < |run| + 1 + |later| ::
              StepLeavesToReceipts(max, run + [ApiWrite(q)] + later, k, id)
    decreases |later|
  {
    hide Step, Inv, Dead, FreshStep, WorkerWrites, StatusChanges, TakesHold, Unpaused, CancelTakes, Enabled;
    var full := run + [ApiWrite(q)] + later;
    if later == [] {
      assert full == run + [ApiWrite(q)];
      assert full[..|full| - 1] == run;
      RunKeepsInv(max, run);
      CancelTakesHold(max, Exec(max, run), q, id);
      WriteKills(max, Exec(max, run), ApiWrite(q), id);
      CancelStores(max, Exec(max, run), q, id);
    } else {
      var front, b := later[..|later| - 1], later[|later| - 1];
      var shorter := run + [ApiWrite(q)] + front;
      assert full[..|full| - 1] == shorter && full[|full| - 1] == b;
      CancelIsFinal(max, run, q, id, front);
      RunKeepsInv(max, shorter);
      DeadStep(max, Exec(max, shorter), b, id);
      forall k | |run| < k < |full|
        ensures StepLeavesToReceipts(max, full, k, id)
      {
        if k < |shorter| {
          assert StepLeavesToReceipts(max, shorter, k, id);
          assert full[..k] == shorter[..k] && full[k] == shorter[k];
        } else {
          assert full[..k] == shorter;
        }
      }
    }
  }

  lemma CancelStores(max: int, s: State, q: nat, id: string)
    requires Inv(s) && CancelTakes(s, q, id)
    ensures Unpaused(Step(max, s, ApiWrite(q)), id)
  {
    hide WorkerStretch, SubmitEffect, RequestOf, Ingested, Updated;
    UpdateWrites(s.db, s.requests[q].note, s.requests[q].expected, s.now);
  }

  /** At most one send can begin after the Cancel, and none unless a worker had claimed a copy
      and not yet begun its call at the moment of the Cancel. */
  lemma SendsAfterCancel(max: int, run: seq<Action>, q: nat, id: string, later: seq<Action>)
    requires FreshRun(max, run + [ApiWrite(q)] + later)
    requires CancelTakes(Exec(max, run), q, id)
    ensures SendCount(max, run + [ApiWrite(q)] + later, id)
            <= SendCount(max, run, id) + (if HasClaimed(Exec(max, run), id) then 1 else 0)
  {
    assert run + ([ApiWrite(q)] + later) == run + [ApiWrite(q)] + later;
    FreshPrefix(max, run, [ApiWrite(q)] + later);
    RunKeepsInv(max, run);
    CancelTakesHold(max, Exec(max, run), q, id);
    SendsAfterWrite(max, run, ApiWrite(q), id, later);
  }

  lemma {:induction false} FreshPrefix(max: int, run: seq<Action>, later: seq<Action>)
    requires FreshRun(max, run + later)
    ensures FreshRun(max, run)
    decreases |later|
  {
    if later == [] {
      assert run + later == run;
    } else {
      assert (run + later)[..|run + later| - 1] == run + later[..|later| - 1];
      FreshPrefix(max, run, later[..|later| - 1]);
    }
  }

  // ---------- Why unused IDs are needed ----------

  const FIRST := ZERO_NOTE.(id := "x", tenantId := "t", idempotencyKey := "1")
  const SECOND := FIRST.(idempotencyKey := "2")

  /** Exactly which submissions undo a final write: those under the ID of the dead record with a key
      that was not used before. Its record is then queued again. */
  lemma ReuseUndoesExactly(max: int, s: State, n: Note, p: Ptr, full: bool, id: string)
    requires Dead(max, s, id) && Enabled(s, Submit(n, p, full))
    ensures var t := Step(max, s, Submit(n, p, full));
      && id in t.db.notifications
      && (t.db.notifications[id].status == Queued <==> n.id == id && KeyOf(n) !in s.db.idempotency)
  {
    hide Effect;
    EffectOfSubmit(max, s, Submit(n, p, full));
  }

  lemma CancelX(max: int)
    ensures var run := [Submit(FIRST, 0, false)] + [ApiRead(0, "x", 1, Canceled)];
      && CancelTakes(Exec(max, run), 0, "x")
      && Exec(max, run).db.idempotency == map[KeyOf(FIRST) := "x"]
      && Exec(max, run).copies.Keys == {0}
  {
    var a0, a1 := Submit(FIRST, 0, false), ApiRead(0, "x", 1, Canceled);
    ExecStep(max, [], a0);
    assert [] + [a0] == [a0] && Enabled(INITIAL, a0);
    var s1 := Exec(max, [a0]);
    assert s1 == SubmitEffect(INITIAL, FIRST, 0, false);
    assert s1.db.notifications["x"] == Prepared(FIRST, 0);
    ExecStep(max, [a0], a1);
  }

  /** A second submission under the ID of a canceled notification, with another key, replaces the
      record: `x` is queued again and has a live copy. */
  lemma ReusedIdUndoesCancel(max: int)
    ensures var run := [Submit(FIRST, 0, false)] + [ApiRead(0, "x", 1, Canceled)];
      && CancelTakes(Exec(max, run), 0, "x")
      && var s := Exec(max, run + [ApiWrite(0)] + [Submit(SECOND, 1, false)]);
         && "x" in s.db.notifications && s.db.notifications["x"].status == Queued
         && At(s, 1, InQueue) && s.copies[1].note.id == "x"
  {
    CancelX(max);
    var run := [Submit(FIRST, 0, false)] + [ApiRead(0, "x", 1, Canceled)];
    ExecStep(max, run, ApiWrite(0));
    ExecStep(max, run + [ApiWrite(0)], Submit(SECOND, 1, false));
    var s := Exec(max, run + [ApiWrite(0)]);
    assert s.db.idempotency == map[KeyOf(FIRST) := "x"];
    assert KeyOf(FIRST)[2] != KeyOf(SECOND)[2];
    assert Enabled(s, Submit(SECOND, 1, false));
  }
}
