/** The outside writes that are not final: those that a worker's retry overwrites; and exactly when a
    send still follows a write. */
module Overwriting {
  import opened Wrappers
  import opened Domain
  import opened Decimal
  import opened Repository
  import opened Receipts
  import opened Delivery
  import opened Protocol
  import opened Stranding
  import opened Conformity
  import opened Budget
  import opened Resend
  import opened Finality

  /** When a copy that fails now comes back from its timer. */
  function RetryAt(now: int, attempts: int, platform: Int64): int {
    var delay := Backoff(attempts, platform);
    if delay > 0 then now + delay else now
  }

  /** The attempt of copy `p` fails, and the copy comes back into a worker's hand. */
  function RetakeOf(c: Copy, p: Ptr, platform: Int64): seq<Action> {
    [if c.place == Claimed then NoProvider(p, "", platform) else SendFailed(p, "", platform)]
    + [Tick(RetryAt(0, c.note.attempts, platform))] + [Fire(p, false)] + [Dequeue(p)]
  }

  /** The copy as its retry leaves it. */
  function Retried(n: Note, now: int): Note {
    n.(lastError := "", status := Queued, version := n.version + 1, updatedAt := now)
  }

  /** A busy copy, within its budget, whose record has had exactly one more version-moving write. */
  predicate Overtakes(max: int, s: State, p: Ptr) {
    && p in s.copies && Busy(s.copies[p].place) && s.copies[p].note.attempts < max
    && s.copies[p].note.id in s.db.notifications
    && s.db.notifications[s.copies[p].note.id].version == s.copies[p].note.version + 1
  }

  predicate Has(s: State, p: Ptr, n: Note, place: Place) {
    p in s.copies && s.copies[p] == Copy(n, place)
  }

  lemma ThenFails(max: int, s: State, p: Ptr, platform: Int64)
    requires Inv(s) && Overtakes(max, s, p)
    ensures var c := s.copies[p]; var t := Step(max, s, RetakeOf(c, p, platform)[0]);
      && Has(t, p, Retried(c.note, s.now), InTimer(s.now + Backoff(c.note.attempts, platform)))
      && t.db == s.db && t.now == s.now
  {
    assert CopyOk(s.db.notifications, s.copies[p]);
    var a := RetakeOf(s.copies[p], p, platform)[0];
    hide Effect, Updated, Inv;
    EffectOfStretch(max, s, a);
    StaleUpdate(s.db, Retried(s.copies[p].note, s.now), s.copies[p].note.version, s.now);
  }

  lemma StaleUpdate(db: Snapshot, m: Note, expected: int, now: int)
    requires !UpdateOk(db, m.id, expected)
    ensures Updated(db, m, expected, now) == db
  {
  }

  lemma ThenTicks(max: int, s: State, elapsed: int)
    requires elapsed >= 0
    ensures Step(max, s, Tick(elapsed)) == s.(now := s.now + elapsed)
  {
  }

  lemma ThenFires(max: int, s: State, p: Ptr, n: Note, due: int)
    requires Has(s, p, n, InTimer(due)) && s.now >= due
    ensures var t := Step(max, s, Fire(p, false)); Has(t, p, n, InQueue) && t.db == s.db && t.now == s.now
  {
  }

  lemma ThenTaken(max: int, s: State, p: Ptr, n: Note)
    requires Has(s, p, n, InQueue)
    ensures var t := Step(max, s, Dequeue(p)); Has(t, p, n, InHand(s.now)) && t.db == s.db && t.now == s.now
  {
  }

  lemma UpdateChanges(db: Snapshot, n: Note, expected: int, now: int)
    requires UpdateOk(db, n.id, expected)
    ensures Updated(db, n, expected, now) != db
  {
    assert |Timeline(Updated(db, n, expected, now), n.id)| == |Timeline(db, n.id)| + 1;
  }

  /** A current copy in hand, whose schedule has come: the expiry or the claim is written, and after
      the claim a send can begin. */
  lemma ThenWrites(max: int, s: State, p: Ptr, n: Note)
    requires Has(s, p, n, InHand(s.now)) && UpdateOk(s.db, n.id, n.version) && n.status == Queued
    requires !Future(n.scheduleAt, s.now)
    ensures var a := if Past(n.expiresAt, s.now) then Expire(p) else Claim(p);
      && WorkerWrites(max, s, a, n.id)
      && (!Past(n.expiresAt, s.now) ==> Sends(Step(max, s, a), Send(p, "p"), n.id))
  {
    var a := if Past(n.expiresAt, s.now) then Expire(p) else Claim(p);
    var m := Transitioned(n, if Past(n.expiresAt, s.now) then Expired else Processing, s.now).value;
    UpdateChanges(s.db, m, n.version, s.now);
    hide Effect, Updated;
    EffectOfStretch(max, s, a);
  }

  /** From any reachable state with an overtaking copy, a failed attempt leads to a worker's write over
      the outside write: an expiry if the notification has expired when the copy comes back, else a
      claim, after which a send can begin. */
  lemma OverwriteFollows(max: int, run: seq<Action>, p: Ptr, platform: Int64)
    requires FreshRun(max, run) && Overtakes(max, Exec(max, run), p)
    ensures var s := Exec(max, run);
      var c, longer := s.copies[p], run + RetakeOf(s.copies[p], p, platform);
      var expired := Past(c.note.expiresAt, RetryAt(s.now, c.note.attempts, platform));
      var last := if expired then Expire(p) else Claim(p);
      && FreshRun(max, longer + [last]) && WorkerWrites(max, Exec(max, longer), last, c.note.id)
      && (!expired ==> Sends(Exec(max, longer + [last]), Send(p, "p"), c.note.id))
  {
    hide Step, Inv, Exec, FreshRun, SendCount, StartOf, NoOverrun, WorkerWrites, Sends, Backoff, Timely;
    var s := Exec(max, run);
    var c := s.copies[p];
    var id, steps, n := c.note.id, RetakeOf(c, p, platform), Retried(c.note, s.now);
    RunKeepsInv(max, run);
    BusyNotFuture(max, run, p);
    AppendQuiet(max, run, steps[0], id);
    ThenFails(max, s, p, platform);
    var run1 := run + [steps[0]];
    AppendQuiet(max, run1, steps[1], id);
    ThenTicks(max, Exec(max, run1), RetryAt(0, c.note.attempts, platform));
    var run2 := run1 + [steps[1]];
    AppendQuiet(max, run2, steps[2], id);
    ThenFires(max, Exec(max, run2), p, n, s.now + Backoff(c.note.attempts, platform));
    var run3 := run2 + [steps[2]];
    AppendQuiet(max, run3, steps[3], id);
    ThenTaken(max, Exec(max, run3), p, n);
    var run4 := run3 + [steps[3]];
    assert run + steps == run4;
    var t := Exec(max, run4);
    ThenWrites(max, t, p, n);
    var last := if Past(n.expiresAt, t.now) then Expire(p) else Claim(p);
    AppendQuiet(max, run4, last, id);
  }

  lemma BusyNotFuture(max: int, run: seq<Action>, p: Ptr)
    requires FreshRun(max, run) && p in Exec(max, run).copies && Busy(Exec(max, run).copies[p].place)
    ensures !Future(Exec(max, run).copies[p].note.scheduleAt, Exec(max, run).now)
  {
    SentIsTimely(max, run, Exec(max, run).copies[p].note.id);
  }

  // ---------- Which writes are final ----------

  /** After `run` and `later`, the step `a` would be a worker's write on `id`. */
  ghost predicate Overwrites(max: int, run: seq<Action>, later: seq<Action>, a: Action, id: string) {
    FreshRun(max, run + later + [a]) && WorkerWrites(max, Exec(max, run + later), a, id)
  }

  /** The condition is exact: a version-moving outside write is never overwritten by a worker, whatever
      follows, if and only if no worker is busy with a current copy within its budget. */
  lemma FinalExactly(max: int, run: seq<Action>, a: Action, id: string)
    requires FreshRun(max, run + [a]) && Enabled(Exec(max, run), a) && MovesVersion(Exec(max, run), a, id)
    ensures TakesHold(max, Exec(max, run), a, id)
            <==> forall later, b :: !Overwrites(max, run + [a], later, b, id)
  {
    if TakesHold(max, Exec(max, run), a, id) {
      forall later, b
        ensures !Overwrites(max, run + [a], later, b, id)
      {
        if Overwrites(max, run + [a], later, b, id) {
          SparedAfter(max, run, a, id, later, b);
        }
      }
    } else {
      var p := FindOvertaking(max, run, a, id);
      OverwriteFollows(max, run + [a], p, 0);
      var c := Exec(max, run + [a]).copies[p];
      var last := if Past(c.note.expiresAt, RetryAt(Exec(max, run + [a]).now, c.note.attempts, 0)) then Expire(p)
                  else Claim(p);
      assert Overwrites(max, run + [a], RetakeOf(c, p, 0), last, id);
    }
  }

  lemma SparedAfter(max: int, run: seq<Action>, a: Action, id: string, later: seq<Action>, b: Action)
    requires FreshRun(max, run + [a] + later + [b])
    requires Enabled(Exec(max, run), a) && TakesHold(max, Exec(max, run), a, id)
    ensures !WorkerWrites(max, Exec(max, run + [a] + later), b, id)
  {
    hide Exec, FreshRun, WorkerWrites, StatusChanges, TakesHold, Enabled;
    var full := run + [a] + (later + [b]);
    assert full == run + [a] + later + [b];
    WriteIsFinal(max, run, a, id, later + [b]);
    var k := |run| + 1 + |later|;
    assert StepSpares(max, full, k, id);
    assert full[..k] == run + [a] + later && full[k] == b;
  }

  /** The current busy copy that a write meets overtakes it. */
  lemma FindOvertaking(max: int, run: seq<Action>, a: Action, id: string) returns (p: Ptr)
    requires FreshRun(max, run + [a]) && Enabled(Exec(max, run), a) && MovesVersion(Exec(max, run), a, id)
    requires !TakesHold(max, Exec(max, run), a, id)
    ensures Overtakes(max, Exec(max, run + [a]), p) && Exec(max, run + [a]).copies[p].note.id == id
  {
    var s := Exec(max, run);
    assert (run + [a])[..|run|] == run;
    RunKeepsInv(max, run);
    MovedRecord(s, a, id);
    p :| p in s.copies && s.copies[p].note.id == id && Busy(s.copies[p].place)
         && s.copies[p].note.version >= s.db.notifications[id].version && s.copies[p].note.attempts < max;
    assert CopyOk(s.db.notifications, s.copies[p]);
    hide Effect;
    LandingMoves(max, s, a, id);
  }

  // ---------- Which writes are followed by a send ----------

  /** Whatever the platform makes of the delay, a copy that fails now or later comes back expired. */
  ghost predicate NeverInTime(c: Copy, now: int) {
    forall platform: Int64 :: Past(c.note.expiresAt, RetryAt(now, c.note.attempts, platform))
  }

  /** A worker is sending a current copy, within its budget, that can come back unexpired. */
  ghost predicate Retriable(max: int, s: State, id: string) {
    exists p ::
      && At(s, p, Sending) && s.copies[p].note.id == id && id in s.db.notifications
      && s.copies[p].note.version == s.db.notifications[id].version
      && s.copies[p].note.attempts < max && !NeverInTime(s.copies[p], s.now)
  }

  ghost predicate CanSend(max: int, run: seq<Action>, id: string) {
    exists later, x :: FreshRun(max, run + later) && Sends(Exec(max, run + later), x, id)
  }

  /** No send can ever begin from this copy. */
  ghost predicate QuenchedCopy(max: int, c: Copy, version: int, now: int) {
    match c.place
    case Claimed => false
    case Sending =>
      c.note.version < version && (c.note.version + 1 < version || c.note.attempts >= max || NeverInTime(c, now))
    case InTimer(due) => c.note.version < version || Past(c.note.expiresAt, if due > now then due else now)
    case InQueue => c.note.version < version || Past(c.note.expiresAt, now)
    case InHand(since) => c.note.version < version || (Past(c.note.expiresAt, since) && Past(c.note.expiresAt, now))
  }

  ghost predicate Quenched(max: int, s: State, id: string) {
    && id in s.db.notifications && s.db.notifications[id].status != Queued
    && forall p | p in s.copies && s.copies[p].note.id == id ::
         QuenchedCopy(max, s.copies[p], s.db.notifications[id].version, s.now)
  }

  lemma QuenchedLater(max: int, c: Copy, version: int, now: int, newer: int, later: int)
    requires QuenchedCopy(max, c, version, now) && version <= newer && now <= later
    ensures QuenchedCopy(max, c, newer, later)
  {
    if c.place.Sending? && NeverInTime(c, now) {
      forall platform: Int64
        ensures Past(c.note.expiresAt, RetryAt(later, c.note.attempts, platform))
      {
        assert Past(c.note.expiresAt, RetryAt(now, c.note.attempts, platform));
      }
    }
  }

  lemma StretchQuenched(max: int, s: State, a: Action)
    requires IsWorker(a) && Enabled(s, a) && CopyOk(s.db.notifications, s.copies[a.ptr])
    requires var c := s.copies[a.ptr]; var r := s.db.notifications[c.note.id];
      r.status != Queued && QuenchedCopy(max, c, r.version, s.now)
    ensures var h := WorkerStretch(max, s, a); var id := s.copies[a.ptr].note.id;
      && id in h.db.notifications && h.db.notifications[id].status != Queued
      && h.db.notifications[id].version >= s.db.notifications[id].version
      && (h.copy.Some? ==> QuenchedCopy(max, h.copy.value, h.db.notifications[id].version, s.now))
  {
    var c := s.copies[a.ptr];
    var n := c.note;
    if c.note.version < s.db.notifications[n.id].version {
      hide ExpireStep, ClaimStep, RetryStep, SettleStep;
      match a {
        case Expire(_) => StaleExpire(s.db, n, s.now);
        case Claim(_) => StaleClaim(s.db, n, s.now);
        case NoProvider(_, _, _) =>
        case SendFailed(_, error, platform) => RetryQuenched(max, s.db, c, error, s.now, platform);
        case SendOk(_, result) => StaleSettle(s.db, n, result, s.now);
      }
    } else {
      assert a.Expire?;
      UpdateWrites(s.db, Transitioned(n, Expired, s.now).value, n.version, s.now);
    }
  }

  lemma RetryQuenched(max: int, db: Snapshot, c: Copy, error: string, now: int, platform: Int64)
    requires c.note.id in db.notifications && c.place == Sending
    requires QuenchedCopy(max, c, db.notifications[c.note.id].version, now)
    ensures var h := RetryStep(max, db, c.note, error, now, platform);
      && h.db == db
      && (h.copy.Some? ==> QuenchedCopy(max, h.copy.value, db.notifications[c.note.id].version, now))
  {
    StaleRetry(max, db, c.note, error, now, platform);
    if NeverInTime(c, now) {
      assert Past(c.note.expiresAt, RetryAt(now, c.note.attempts, platform));
    }
    hide Updated, Backoff;
  }

  lemma ReplaceQuenched(max: int, s: State, p: Ptr, h: Handled, id: string)
    requires Inv(s) && Quenched(max, s, id) && p in s.copies && StretchOk(s.db, s.copies[p], h)
    requires s.copies[p].note.id == id ==>
               && id in h.db.notifications && h.db.notifications[id].status != Queued
               && h.db.notifications[id].version >= s.db.notifications[id].version
               && (h.copy.Some? ==> QuenchedCopy(max, h.copy.value, h.db.notifications[id].version, s.now))
    ensures Quenched(max, Replace(s, p, h), id)
  {
    var t := Replace(s, p, h);
    hide QuenchedCopy;
    forall q | q in t.copies && t.copies[q].note.id == id
      ensures QuenchedCopy(max, t.copies[q], t.db.notifications[id].version, t.now)
    {
      if q != p {
        QuenchedLater(max, s.copies[q], s.db.notifications[id].version, s.now, t.db.notifications[id].version, t.now);
      }
    }
  }

  lemma WorkerQuenched(max: int, s: State, a: Action, id: string)
    requires Inv(s) && Quenched(max, s, id) && IsWorker(a) && Enabled(s, a)
    ensures Quenched(max, Effect(max, s, a), id)
  {
    hide Effect, WorkerStretch, StretchOk, QuenchedCopy;
    WorkerOk(max, s, a);
    if s.copies[a.ptr].note.id == id {
      assert CopyOk(s.db.notifications, s.copies[a.ptr]);
      StretchQuenched(max, s, a);
    }
    hide Inv, Quenched;
    ReplaceQuenched(max, s, a.ptr, WorkerStretch(max, s, a), id);
  }

  lemma MovedQuenched(max: int, s: State, a: Action, version: int)
    requires IsMove(a) && Enabled(s, a) && QuenchedCopy(max, s.copies[a.ptr], version, s.now)
    ensures !a.Send?
    ensures a.Postpone? ==> s.copies[a.ptr].note.scheduleAt.Some?
    ensures QuenchedCopy(max, Moved(s, a), version, s.now)
  {
  }

  lemma MoveQuenched(max: int, s: State, a: Action, id: string)
    requires Quenched(max, s, id) && IsMove(a) && Enabled(s, a)
    ensures Quenched(max, Effect(max, s, a), id) && !Sends(s, a, id)
  {
    hide Effect, Moved, QuenchedCopy;
    EffectOfMove(max, s, a);
    if s.copies[a.ptr].note.id == id {
      MovedQuenched(max, s, a, s.db.notifications[id].version);
    }
  }

  lemma OutsideQuenched(max: int, s: State, a: Action, id: string)
    requires Inv(s) && FreshStep(s, a) && Quenched(max, s, id) && Enabled(s, a) && !IsWorker(a) && !IsMove(a)
    ensures Quenched(max, Effect(max, s, a), id)
  {
    hide Effect, QuenchedCopy, Inv;
    var t := Effect(max, s, a);
    OutsideCopies(max, s, a, id);
    forall p | p in t.copies && t.copies[p].note.id == id
      ensures QuenchedCopy(max, t.copies[p], t.db.notifications[id].version, t.now)
    {
      QuenchedLater(max, s.copies[p], s.db.notifications[id].version, s.now, t.db.notifications[id].version, t.now);
    }
  }

  /** A step from outside on a record that is not queued: no new copy of it, no older version. */
  lemma OutsideCopies(max: int, s: State, a: Action, id: string)
    requires Inv(s) && FreshStep(s, a) && Enabled(s, a) && !IsWorker(a) && !IsMove(a)
    requires id in s.db.notifications && s.db.notifications[id].status != Queued
    ensures var t := Effect(max, s, a);
      && id in t.db.notifications && t.db.notifications[id].status != Queued && t.now >= s.now
      && t.db.notifications[id].version >= s.db.notifications[id].version
      && forall p | p in t.copies && t.copies[p].note.id == id :: p in s.copies && t.copies[p] == s.copies[p]
  {
    if a.Submit? {
      EffectOfSubmit(max, s, a);
      SubmitMoves(s, a.n, a.ptr, a.full);
      SubmittedElsewhere(s, a.n, a.ptr, a.full, id);
    } else {
      OutsideShape(max, s, a);
      OutsideKeeps(max, s, a);
      assert ForeignAt(s.db.notifications, Effect(max, s, a).db.notifications, id);
    }
    hide Effect, SubmitEffect, Inv;
  }

  lemma SubmittedElsewhere(s: State, n: Note, p: Ptr, full: bool, id: string)
    requires FreshStep(s, Submit(n, p, full)) && id in s.db.notifications && p !in s.copies
    ensures var t := SubmitEffect(s, n, p, full);
      && t.now == s.now
      && forall q | q in t.copies && t.copies[q].note.id == id :: q in s.copies && t.copies[q] == s.copies[q]
  {
  }

  lemma OutsideKeeps(max: int, s: State, a: Action)
    requires Enabled(s, a) && !IsWorker(a) && !IsMove(a) && !a.Submit?
    ensures var t := Effect(max, s, a);
      t.now >= s.now && (t.copies == s.copies || (a.Restart? && forall p | p in t.copies :: p in a.boot))
  {
    hide WorkerStretch, SubmitEffect, RequestOf, Updated, Ingested;
  }

  lemma StepQuenched(max: int, s: State, a: Action, id: string)
    requires Inv(s) && FreshStep(s, a) && Quenched(max, s, id)
    ensures Quenched(max, Step(max, s, a), id) && !Sends(s, a, id)
  {
    hide Effect, WorkerStretch, Inv, Quenched, FreshStep;
    if Enabled(s, a) {
      if IsWorker(a) {
        WorkerQuenched(max, s, a, id);
      } else if IsMove(a) {
        MoveQuenched(max, s, a, id);
      } else {
        OutsideQuenched(max, s, a, id);
      }
    }
  }

  lemma {:induction false} QuenchedForEver(max: int, run: seq<Action>, later: seq<Action>, id: string)
    requires FreshRun(max, run + later) && Quenched(max, Exec(max, run), id)
    ensures Quenched(max, Exec(max, run + later), id)
    decreases |later|
  {
    hide Step, Quenched, FreshStep, Inv;
    if later == [] {
      assert run + later == run;
    } else {
      var front, a := later[..|later| - 1], later[|later| - 1];
      assert (run + later)[..|run + later| - 1] == run + front;
      QuenchedForEver(max, run, front, id);
      RunKeepsInv(max, run + front);
      StepQuenched(max, Exec(max, run + front), a, id);
    }
  }

  /** A version-moving write quenches the sends, but for an attempt that is under way. */
  lemma WriteQuenches(max: int, s: State, a: Action, id: string)
    requires Inv(s) && Enabled(s, a) && MovesVersion(s, a, id) && !HasClaimed(s, id) && !Retriable(max, s, id)
    ensures Quenched(max, Step(max, s, a), id)
  {
    hide Effect, NeverInTime;
    MovedRecord(s, a, id);
    LandingMoves(max, s, a, id);
    LandingShape(max, s, a);
    LandingNow(max, s, a);
    var t := Effect(max, s, a);
    assert ForeignAt(s.db.notifications, t.db.notifications, id);
    forall p | p in t.copies && t.copies[p].note.id == id
      ensures QuenchedCopy(max, t.copies[p], t.db.notifications[id].version, t.now)
    {
      assert CopyOk(s.db.notifications, s.copies[p]);
      assert !At(s, p, Claimed);
    }
  }

  lemma LandingNow(max: int, s: State, a: Action)
    requires Enabled(s, a) && (a.ApiWrite? || a.Ingest?)
    ensures Effect(max, s, a).now == s.now
  {
    hide WorkerStretch, SubmitEffect, RequestOf, Updated, Ingested;
  }

  /** Exactly when a send of the notification can still follow a version-moving outside write: if a
      worker had claimed it and not yet begun its call, or was sending a current copy, within its
      budget, that can come back unexpired. */
  lemma SendFollowsExactly(max: int, run: seq<Action>, a: Action, id: string)
    requires FreshRun(max, run + [a]) && Enabled(Exec(max, run), a) && MovesVersion(Exec(max, run), a, id)
    ensures CanSend(max, run + [a], id)
            <==> HasClaimed(Exec(max, run), id) || Retriable(max, Exec(max, run), id)
  {
    var s := Exec(max, run);
    assert (run + [a])[..|run|] == run;
    RunKeepsInv(max, run);
    hide FreshRun, Exec, Step, Retriable, MovesVersion, Inv;
    if HasClaimed(s, id) {
      ClaimedCanSend(max, run, a, id);
    } else if Retriable(max, s, id) {
      RetriableCanSend(max, run, a, id);
    } else {
      ExecStep(max, run, a);
      WriteQuenches(max, s, a, id);
      forall later, x | FreshRun(max, run + [a] + later)
        ensures !Sends(Exec(max, run + [a] + later), x, id)
      {
        QuenchedForEver(max, run + [a], later, id);
        QuenchedNoSend(max, Exec(max, run + [a] + later), x, id);
      }
    }
  }

  lemma QuenchedNoSend(max: int, s: State, x: Action, id: string)
    requires Quenched(max, s, id)
    ensures !Sends(s, x, id)
  {
    if Sends(s, x, id) {
      MoveQuenched(max, s, x, id);
    }
  }

  lemma ClaimedSends(max: int, s: State, a: Action, id: string) returns (p: Ptr)
    requires Inv(s) && Enabled(s, a) && MovesVersion(s, a, id) && HasClaimed(s, id)
    ensures Sends(Step(max, s, a), Send(p, "p"), id)
  {
    p :| At(s, p, Claimed) && s.copies[p].note.id == id;
    MovedRecord(s, a, id);
    hide Effect, Inv;
    LandingMoves(max, s, a, id);
  }

  lemma ClaimedCanSend(max: int, run: seq<Action>, a: Action, id: string)
    requires FreshRun(max, run + [a]) && Enabled(Exec(max, run), a) && MovesVersion(Exec(max, run), a, id)
    requires Inv(Exec(max, run)) && HasClaimed(Exec(max, run), id)
    ensures CanSend(max, run + [a], id)
  {
    hide FreshRun, Exec, Step, Inv, MovesVersion, HasClaimed, Sends, Enabled;
    var p := ClaimedSends(max, Exec(max, run), a, id);
    ExecStep(max, run, a);
    assert run + [a] + [] == run + [a];
    assert FreshRun(max, run + [a] + []) && Sends(Exec(max, run + [a] + []), Send(p, "p"), id);
  }

  /** After the write, the retriable copy overtakes it and can come back unexpired. */
  lemma RetriableOvertakes(max: int, s: State, a: Action, id: string) returns (p: Ptr, platform: Int64)
    requires Inv(s) && Enabled(s, a) && MovesVersion(s, a, id) && Retriable(max, s, id)
    ensures var t := Step(max, s, a);
      && Overtakes(max, t, p) && t.copies[p].note.id == id
      && !Past(t.copies[p].note.expiresAt, RetryAt(t.now, t.copies[p].note.attempts, platform))
  {
    p :| && At(s, p, Sending) && s.copies[p].note.id == id
         && s.copies[p].note.version == s.db.notifications[id].version
         && s.copies[p].note.attempts < max && !NeverInTime(s.copies[p], s.now);
    platform :| !Past(s.copies[p].note.expiresAt, RetryAt(s.now, s.copies[p].note.attempts, platform));
    MovedRecord(s, a, id);
    hide Effect, Inv, NeverInTime, RetryAt;
    LandingMoves(max, s, a, id);
    LandingNow(max, s, a);
  }

  lemma RetriableCanSend(max: int, run: seq<Action>, a: Action, id: string)
    requires FreshRun(max, run + [a]) && Enabled(Exec(max, run), a) && MovesVersion(Exec(max, run), a, id)
    requires Inv(Exec(max, run)) && Retriable(max, Exec(max, run), id)
    ensures CanSend(max, run + [a], id)
  {
    hide FreshRun, Exec, Step, Inv, MovesVersion, Retriable, Sends, Enabled, RetakeOf, WorkerWrites;
    var p, platform := RetriableOvertakes(max, Exec(max, run), a, id);
    ExecStep(max, run, a);
    OverwriteFollows(max, run + [a], p, platform);
    var c := Exec(max, run + [a]).copies[p];
    var later := RetakeOf(c, p, platform) + [Claim(p)];
    assert run + [a] + later == run + [a] + RetakeOf(c, p, platform) + [Claim(p)];
    assert FreshRun(max, run + [a] + later) && Sends(Exec(max, run + [a] + later), Send(p, "p"), id);
  }
}
