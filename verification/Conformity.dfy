/** When the stored statuses follow the transition table, and when a worker can overwrite a status
    that the table protects. */
module Conformity {
  import opened Wrappers
  import opened Domain
  import opened Decimal
  import opened Repository
  import opened Receipts
  import opened Delivery
  import opened Protocol

  /** Someone other than a worker writes the record `id` in this step. */
  predicate Lands(s: State, a: Action, id: string) {
    || (a.ApiWrite? && a.request in s.requests && s.requests[a.request].note.id == id
        && UpdateOk(s.db, id, s.requests[a.request].expected))
    || (a.Ingest? && a.receipt.notificationId == id && Admissible(s.db, a.receipt)
        && Key(a.receipt) !in s.db.receipts)
  }

  /** An outside write on `id` that gives the record a new version. A pause of a paused record is
      written too, but moves nothing. */
  predicate MovesVersion(s: State, a: Action, id: string) {
    Lands(s, a, id) && (a.ApiWrite? ==> s.requests[a.request].note.version != s.requests[a.request].expected)
  }

  /** A copy that has the version of its record also has its status. */
  predicate Agrees(notes: map<string, Note>, c: Copy) {
    c.note.id in notes && c.note.version == notes[c.note.id].version ==> c.note.status == notes[c.note.id].status
  }

  ghost predicate AllAgree(s: State) {
    forall p | p in s.copies :: Agrees(s.db.notifications, s.copies[p])
  }

  /** A retry that brings its copy up to the version of a record that someone else has written. */
  ghost predicate CatchesUp(max: int, s: State, a: Action) {
    && (a.NoProvider? || a.SendFailed?) && Enabled(s, a)
    && var n := s.copies[a.ptr].note;
    n.attempts < max && n.id in s.db.notifications && s.db.notifications[n.id].version == n.version + 1
  }

  ghost predicate NoCatchUp(max: int, run: seq<Action>) {
    run != [] ==>
      NoCatchUp(max, run[..|run| - 1]) && !CatchesUp(max, Exec(max, run[..|run| - 1]), run[|run| - 1])
  }

  lemma LandingMoves(max: int, s: State, a: Action, id: string)
    requires Inv(s) && Enabled(s, a) && (a.ApiWrite? || a.Ingest?) && id in s.db.notifications
    ensures var t := Effect(max, s, a);
      && t.copies == s.copies && id in t.db.notifications
      && t.db.notifications[id].version
         == s.db.notifications[id].version + if MovesVersion(s, a, id) then 1 else 0
  {
    if a.ApiWrite? {
      assert RequestOk(s.db.notifications, s.requests[a.request]);
      UpdateWrites(s.db, s.requests[a.request].note, s.requests[a.request].expected, s.now);
    } else {
      assert a.receipt.notificationId in s.db.notifications ==>
          s.db.notifications[a.receipt.notificationId].id == a.receipt.notificationId;
    }
    hide WorkerStretch, SubmitEffect, RequestOf, Updated;
  }

  // ---------- Agreement ----------

  /** A worker's own copy still agrees after its stretch, unless it catches up. */
  lemma StretchAgrees(max: int, s: State, a: Action)
    requires IsWorker(a) && Enabled(s, a)
    requires CopyOk(s.db.notifications, s.copies[a.ptr]) && Agrees(s.db.notifications, s.copies[a.ptr])
    ensures var h := WorkerStretch(max, s, a);
      h.copy.Some? ==> (Agrees(h.db.notifications, h.copy.value) <==> !CatchesUp(max, s, a))
    ensures CatchesUp(max, s, a) ==> WorkerStretch(max, s, a).copy.Some?
  {
    hide Effect, Backoff;
  }

  lemma AgreesElsewhere(s: State, p: Ptr, h: Handled)
    requires Inv(s) && AllAgree(s) && p in s.copies && StretchOk(s.db, s.copies[p], h)
    ensures AllAgree(Replace(s, p, h)) <==> (h.copy.Some? ==> Agrees(h.db.notifications, h.copy.value))
  {
    var t := Replace(s, p, h);
    forall r | r in t.copies && r != p
      ensures Agrees(t.db.notifications, t.copies[r])
    {
      assert s.copies[r].note.id != s.copies[p].note.id;
      assert Agrees(s.db.notifications, s.copies[r]);
    }
    if h.copy.Some? {
      assert p in t.copies && t.copies[p] == h.copy.value;
    }
  }

  lemma WorkerAgrees(max: int, s: State, a: Action)
    requires Inv(s) && AllAgree(s) && IsWorker(a) && Enabled(s, a)
    ensures AllAgree(Step(max, s, a)) <==> !CatchesUp(max, s, a)
  {
    hide Effect, WorkerStretch, StretchOk, CatchesUp;
    WorkerOk(max, s, a);
    assert CopyOk(s.db.notifications, s.copies[a.ptr]) && Agrees(s.db.notifications, s.copies[a.ptr]);
    StretchAgrees(max, s, a);
    hide Inv, AllAgree;
    AgreesElsewhere(s, a.ptr, WorkerStretch(max, s, a));
  }

  lemma ForeignAgrees(s: State, t: State)
    requires Inv(s) && AllAgree(s) && t.copies == s.copies && AllForeign(s.db.notifications, t.db.notifications)
    ensures AllAgree(t)
  {
    forall p | p in t.copies
      ensures Agrees(t.db.notifications, t.copies[p])
    {
      assert CopyOk(s.db.notifications, s.copies[p]) && Agrees(s.db.notifications, s.copies[p]);
      assert ForeignAt(s.db.notifications, t.db.notifications, s.copies[p].note.id);
    }
  }

  lemma LandingAgrees(max: int, s: State, a: Action)
    requires Inv(s) && AllAgree(s) && Enabled(s, a) && (a.ApiWrite? || a.Ingest?)
    ensures AllAgree(Effect(max, s, a))
  {
    hide WorkerStretch, SubmitEffect, RequestOf, Updated, Ingested;
    if a.ApiWrite? {
      ApiWriteMoves(s, a.request);
    } else {
      IngestMoves(s.db, a.receipt, s.now);
    }
    ForeignAgrees(s, Effect(max, s, a));
  }

  lemma SubmitAgrees(s: State, n: Note, p: Ptr, full: bool)
    requires Inv(s) && AllAgree(s) && FreshStep(s, Submit(n, p, full)) && p !in s.copies
    ensures AllAgree(SubmitEffect(s, n, p, full))
  {
    var t := SubmitEffect(s, n, p, full);
    forall q | q in t.copies
      ensures Agrees(t.db.notifications, t.copies[q])
    {
      if q in s.copies {
        assert CopyOk(s.db.notifications, s.copies[q]) && Agrees(s.db.notifications, s.copies[q]);
      }
    }
  }

  lemma OthersAgree(max: int, s: State, a: Action)
    requires Inv(s) && AllAgree(s) && Enabled(s, a) && !IsWorker(a) && !a.ApiWrite? && !a.Ingest? && !a.Submit?
    ensures AllAgree(Effect(max, s, a))
  {
    hide WorkerStretch, SubmitEffect, RequestOf, Updated, Ingested;
    if IsMove(a) {
      EffectOfMove(max, s, a);
      assert Agrees(s.db.notifications, s.copies[a.ptr]);
    }
  }

  /** One step keeps the agreement of all copies if and only if it is not a retry that catches up. */
  lemma StepAgrees(max: int, s: State, a: Action)
    requires Inv(s) && AllAgree(s) && FreshStep(s, a)
    ensures AllAgree(Step(max, s, a)) <==> !CatchesUp(max, s, a)
  {
    hide Effect, WorkerStretch, SubmitEffect, Inv, AllAgree, FreshStep;
    if Enabled(s, a) {
      if IsWorker(a) {
        WorkerAgrees(max, s, a);
      } else if a.ApiWrite? || a.Ingest? {
        LandingAgrees(max, s, a);
      } else if a.Submit? {
        EffectOfSubmit(max, s, a);
        SubmitAgrees(s, a.n, a.ptr, a.full);
      } else {
        OthersAgree(max, s, a);
      }
    }
  }

  /** What an update may do to a stored status. */
  predicate ConformsAt(s: State, t: State, id: string) {
    id in s.db.notifications ==>
      && id in t.db.notifications
      && (t.db.notifications[id].status == s.db.notifications[id].status
          || Edge(s.db.notifications[id].status, t.db.notifications[id].status))
  }

  /** Exactly which worker steps break the table: the claim, or expiry, of a copy that has the version
      of a record with another status. */
  lemma ConformsExactly(max: int, s: State, a: Action)
    requires IsWorker(a) && Enabled(s, a) && CopyOk(s.db.notifications, s.copies[a.ptr])
    ensures ConformsAt(s, s.(db := WorkerStretch(max, s, a).db), s.copies[a.ptr].note.id)
            <==> ((a.Claim? || a.Expire?) ==>
                    || Agrees(s.db.notifications, s.copies[a.ptr])
                    || (a.Expire? && s.db.notifications[s.copies[a.ptr].note.id].status == Expired))
  {
    hide Effect, Backoff, Updated;
    var n := s.copies[a.ptr].note;
    forall m: Note | m.id == n.id
      ensures Updated(s.db, m, n.version, s.now).notifications
              == if UpdateOk(s.db, n.id, n.version) then s.db.notifications[n.id := m] else s.db.notifications
    {
      UpdateWrites(s.db, m, n.version, s.now);
    }
  }

  lemma StretchConforms(max: int, s: State, a: Action, id: string)
    requires Inv(s) && AllAgree(s) && IsWorker(a) && Enabled(s, a)
    ensures ConformsAt(s, Step(max, s, a), id)
  {
    hide Effect, WorkerStretch;
    WorkerOk(max, s, a);
    assert CopyOk(s.db.notifications, s.copies[a.ptr]) && Agrees(s.db.notifications, s.copies[a.ptr]);
    ConformsExactly(max, s, a);
  }

  lemma StepConforms(max: int, s: State, a: Action, id: string)
    requires Inv(s) && AllAgree(s) && FreshStep(s, a) && !a.Ingest?
    ensures ConformsAt(s, Step(max, s, a), id)
  {
    hide WorkerStretch, SubmitEffect, RequestOf, Ingested, StretchOk;
    if Enabled(s, a) {
      if IsWorker(a) {
        StretchConforms(max, s, a, id);
      } else if a.ApiWrite? {
        UpdateWrites(s.db, s.requests[a.request].note, s.requests[a.request].expected, s.now);
        assert RequestOk(s.db.notifications, s.requests[a.request]);
      } else if a.Submit? {
        SubmitMoves(s, a.n, a.ptr, a.full);
      }
    }
  }

  ghost predicate ConformsAlways(max: int, run: seq<Action>, k: nat)
    requires k < |run|
  {
    var s := Exec(max, run[..k]);
    !run[k].Ingest? ==>
      forall id :: ConformsAt(s, Step(max, s, run[k]), id)
  }

  /** As long as no retry catches up with an outside write, equal versions mean equal statuses between
      copies and store, and every accepted update follows an edge of the transition table or leaves
      the status. Canceled, failed and expired have no outgoing edge, so no update ever leaves
      them. */
  lemma {:induction false} TableConformity(max: int, run: seq<Action>)
    requires FreshRun(max, run) && NoCatchUp(max, run)
    ensures AllAgree(Exec(max, run))
    ensures forall k | 0 <= k < |run| :: ConformsAlways(max, run, k)
  {
    hide Step, Inv, AllAgree, CatchesUp, FreshStep, ConformsAt;
    if run != [] {
      var front, a := run[..|run| - 1], run[|run| - 1];
      TableConformity(max, front);
      RunKeepsInv(max, front);
      StepAgrees(max, Exec(max, front), a);
      forall k | 0 <= k < |run|
        ensures ConformsAlways(max, run, k)
      {
        if k < |front| {
          assert ConformsAlways(max, front, k);
          assert run[..k] == front[..k];
        } else if !a.Ingest? {
          forall id
            ensures ConformsAt(Exec(max, front), Step(max, Exec(max, front), a), id)
          {
            StepConforms(max, Exec(max, front), a, id);
          }
        }
      }
    } else {
      NoCopiesAgree(INITIAL);
    }
  }

  lemma NoCopiesAgree(s: State)
    requires s.copies == map[]
    ensures AllAgree(s)
  {
  }

  /** The condition is exact: equal versions mean equal statuses in every state of a run if and only if
      no retry catches up. */
  lemma {:induction false} AgreementExactly(max: int, run: seq<Action>)
    requires FreshRun(max, run)
    ensures NoCatchUp(max, run) <==> forall k | 0 <= k <= |run| :: AllAgree(Exec(max, run[..k]))
  {
    hide Step, Inv, AllAgree, CatchesUp, FreshStep;
    if run != [] {
      var front, a := run[..|run| - 1], run[|run| - 1];
      AgreementExactly(max, front);
      RunKeepsInv(max, front);
      assert forall k | 0 <= k <= |front| :: run[..k] == front[..k];
      assert front == front[..|front|] && run == run[..|run|];
      if AllAgree(Exec(max, front)) {
        StepAgrees(max, Exec(max, front), a);
      }
    } else {
      NoCopiesAgree(INITIAL);
      assert run[..0] == [];
    }
  }

  lemma FinalStatusesHaveNoEdge(from: Status, to: Status)
    requires from in {Canceled, Failed, Expired}
    ensures !Edge(from, to)
  {
  }

  // ---------- The exact trap in a run that is not quiet ----------

  /** Nothing but the version decides whether the claim of a waiting copy is accepted. */
  lemma ClaimDecidedByVersion(s: State, p: Ptr)
    requires Inv(s) && Dequeued(s, p)
    ensures var c := s.copies[p]; var h := ClaimStep(s.db, c.note, s.now);
      && (h.copy.Some? <==> c.note.version == s.db.notifications[c.note.id].version)
      && (h.copy.Some? ==> h.db.notifications[c.note.id].status == Processing)
      && (h.copy.None? ==> h.db == s.db)
  {
    assert CopyOk(s.db.notifications, s.copies[p]);
  }

  /** The version-moving outside writes on the notification of copy `p` since the copy's claim. */
  ghost function WritesSinceClaim(max: int, run: seq<Action>, p: Ptr): nat {
    if run == [] then 0
    else
      var s, a := Exec(max, run[..|run| - 1]), run[|run| - 1];
      if a.Claim? && a.ptr == p && Enabled(s, a) then 0
      else
        WritesSinceClaim(max, run[..|run| - 1], p)
        + if p in s.copies && MovesVersion(s, a, s.copies[p].note.id) then 1 else 0
  }

  /** A copy that a worker is busy with lags its record by `gap` versions. */
  predicate Lags(s: State, p: Ptr, gap: nat) {
    p in s.copies && Busy(s.copies[p].place) ==>
      var c := s.copies[p];
      c.note.id in s.db.notifications && s.db.notifications[c.note.id].version == c.note.version + gap
  }

  lemma OwnStretchLags(max: int, s: State, a: Action)
    requires Inv(s) && IsWorker(a) && Enabled(s, a)
    ensures Lags(Replace(s, a.ptr, WorkerStretch(max, s, a)), a.ptr, 0)
  {
    hide Effect, Backoff;
    assert CopyOk(s.db.notifications, s.copies[a.ptr]);
  }

  lemma OtherStretchLags(s: State, p: Ptr, h: Handled, other: Ptr, gap: nat)
    requires Inv(s) && p in s.copies && StretchOk(s.db, s.copies[p], h) && other != p && Lags(s, other, gap)
    ensures Lags(Replace(s, p, h), other, gap)
  {
  }

  lemma MoveLags(max: int, s: State, a: Action, p: Ptr, gap: nat)
    requires IsMove(a) && Enabled(s, a) && Lags(s, p, gap)
    ensures Lags(Effect(max, s, a), p, gap)
  {
    hide Effect, Moved;
    EffectOfMove(max, s, a);
  }

  lemma SubmitLags(s: State, n: Note, pointer: Ptr, full: bool, p: Ptr, gap: nat)
    requires Inv(s) && FreshStep(s, Submit(n, pointer, full)) && pointer !in s.copies && Lags(s, p, gap)
    ensures Lags(SubmitEffect(s, n, pointer, full), p, gap)
  {
    SubmitMoves(s, n, pointer, full);
  }

  lemma QuietLags(max: int, s: State, a: Action, p: Ptr, gap: nat)
    requires Enabled(s, a) && (a.Tick? || a.ApiRead? || a.Restart?) && Lags(s, p, gap)
    ensures Lags(Effect(max, s, a), p, gap)
  {
    hide WorkerStretch, SubmitEffect, RequestOf, Updated, Ingested;
  }

  lemma StepLags(max: int, s: State, a: Action, p: Ptr, gap: nat)
    requires Inv(s) && FreshStep(s, a) && Lags(s, p, gap)
    ensures Lags(Step(max, s, a), p,
                 if a.Claim? && a.ptr == p && Enabled(s, a) then 0
                 else gap + if p in s.copies && MovesVersion(s, a, s.copies[p].note.id) then 1 else 0)
  {
    hide Effect, WorkerStretch, SubmitEffect, StretchOk, Inv, FreshStep;
    if Enabled(s, a) {
      if IsWorker(a) {
        WorkerOk(max, s, a);
        OwnStretchLags(max, s, a);
        if a.ptr != p {
          OtherStretchLags(s, a.ptr, WorkerStretch(max, s, a), p, gap);
        } else if !a.Claim? {
          NoLongerBusy(max, s, a);
        }
      } else if IsMove(a) {
        MoveLags(max, s, a, p, gap);
      } else if a.Submit? {
        EffectOfSubmit(max, s, a);
        SubmitLags(s, a.n, a.ptr, a.full, p, gap);
      } else if a.ApiWrite? || a.Ingest? {
        OutsideLags(max, s, a, p, gap);
      } else {
        QuietLags(max, s, a, p, gap);
      }
    } else {
      NothingLands(s, a);
    }
  }

  /** Only a claim leaves a worker busy. */
  lemma NoLongerBusy(max: int, s: State, a: Action)
    requires IsWorker(a) && Enabled(s, a) && !a.Claim?
    ensures var h := WorkerStretch(max, s, a); h.copy.Some? ==> !Busy(h.copy.value.place)
  {
    hide Effect, Updated;
  }

  lemma NothingLands(s: State, a: Action)
    requires !Enabled(s, a)
    ensures forall id :: !Lands(s, a, id)
  {
  }

  lemma OutsideLags(max: int, s: State, a: Action, p: Ptr, gap: nat)
    requires Inv(s) && Enabled(s, a) && (a.ApiWrite? || a.Ingest?) && Lags(s, p, gap)
    ensures Lags(Effect(max, s, a), p,
                 gap + if p in s.copies && MovesVersion(s, a, s.copies[p].note.id) then 1 else 0)
  {
    hide Effect;
    if p in s.copies {
      assert CopyOk(s.db.notifications, s.copies[p]);
      LandingMoves(max, s, a, s.copies[p].note.id);
    } else {
      CopiesUntouched(max, s, a);
    }
  }

  lemma CopiesUntouched(max: int, s: State, a: Action)
    requires Enabled(s, a) && (a.ApiWrite? || a.Ingest?)
    ensures Effect(max, s, a).copies == s.copies
  {
    hide WorkerStretch, SubmitEffect, RequestOf, Updated, Ingested;
  }

  /** In every reachable state, a copy that a worker is busy with lags its record by exactly the
      version-moving outside writes since its claim. */
  lemma {:induction false} LagIsOutsideWrites(max: int, run: seq<Action>, p: Ptr)
    requires FreshRun(max, run)
    ensures Lags(Exec(max, run), p, WritesSinceClaim(max, run, p))
  {
    if run != [] {
      var front, a := run[..|run| - 1], run[|run| - 1];
      LagIsOutsideWrites(max, front, p);
      RunKeepsInv(max, front);
      StepLags(max, Exec(max, front), a, p, WritesSinceClaim(max, front, p));
    }
  }

  /** After a failed attempt a copy comes to have the version of a record that is not queued
      exactly if one version-moving outside write, no more and no fewer, landed since its claim.
      The next claim then overwrites that write, even if it was a pause. */
  lemma OverwriteExactly(max: int, run: seq<Action>, p: Ptr, error: string, platform: Int64)
    requires FreshRun(max, run)
    requires var s := Exec(max, run); p in s.copies && Busy(s.copies[p].place) && s.copies[p].note.attempts < max
    ensures var s := Exec(max, run);
      var c := s.copies[p]; var h := RetryStep(max, s.db, c.note, error, s.now, platform);
      && h.copy.Some? && c.note.id in h.db.notifications
      && (h.copy.value.note.version == h.db.notifications[c.note.id].version
          && h.db.notifications[c.note.id].status != Queued
          <==> WritesSinceClaim(max, run, p) == 1)
  {
    hide Exec, FreshRun, WritesSinceClaim, Backoff;
    RunKeepsInv(max, run);
    LagIsOutsideWrites(max, run, p);
    assert CopyOk(Exec(max, run).db.notifications, Exec(max, run).copies[p]);
  }

  // ---------- Runs without a write during an attempt ----------

  ghost predicate InAttempt(s: State, id: string) {
    exists p :: p in s.copies && Busy(s.copies[p].place) && s.copies[p].note.id == id
  }

  /** No API write and no receipt moves the version of a notification between its claim and the end
      of that attempt. */
  ghost predicate Quiet(s: State, a: Action) {
    forall id | MovesVersion(s, a, id) :: !InAttempt(s, id)
  }

  ghost predicate QuietRun(max: int, run: seq<Action>) {
    run != [] ==> QuietRun(max, run[..|run| - 1]) && Quiet(Exec(max, run[..|run| - 1]), run[|run| - 1])
  }

  lemma BusyBefore(max: int, s: State, a: Action, p: Ptr)
    requires var t := Step(max, s, a); p in t.copies && Busy(t.copies[p].place)
    requires !(a.Claim? && a.ptr == p && Enabled(s, a))
    ensures p in s.copies && Busy(s.copies[p].place) && s.copies[p].note.id == Step(max, s, a).copies[p].note.id
  {
    hide Effect, WorkerStretch, SubmitEffect;
    if Enabled(s, a) {
      if IsMove(a) {
        EffectOfMove(max, s, a);
      } else if IsWorker(a) {
        EffectOfStretch(max, s, a);
        if !a.Claim? {
          NoLongerBusy(max, s, a);
        }
      } else if a.Submit? {
        EffectOfSubmit(max, s, a);
        SubmittedCopy(s, a.n, a.ptr, a.full);
      } else {
        NoneBusy(max, s, a);
      }
    }
  }

  lemma NoneBusy(max: int, s: State, a: Action)
    requires Enabled(s, a) && !IsMove(a) && !IsWorker(a) && !a.Submit?
    ensures var t := Effect(max, s, a); t.copies == s.copies || forall p | p in t.copies :: t.copies[p].place == InQueue
  {
    hide WorkerStretch, SubmitEffect, RequestOf, Updated, Ingested;
  }

  lemma {:induction false} QuietNoWrites(max: int, run: seq<Action>, p: Ptr)
    requires FreshRun(max, run) && QuietRun(max, run)
    requires p in Exec(max, run).copies && Busy(Exec(max, run).copies[p].place)
    ensures WritesSinceClaim(max, run, p) == 0
  {
    hide Step, MovesVersion;
    if run != [] {
      var front, a := run[..|run| - 1], run[|run| - 1];
      var s := Exec(max, front);
      if !(a.Claim? && a.ptr == p && Enabled(s, a)) {
        BusyBefore(max, s, a, p);
        QuietNoWrites(max, front, p);
        assert InAttempt(s, s.copies[p].note.id);
      }
    }
  }

  /** In a run in which no outside write moves a version during an attempt, no retry catches up. */
  lemma {:induction false} QuietNeverCatchesUp(max: int, run: seq<Action>)
    requires FreshRun(max, run) && QuietRun(max, run)
    ensures NoCatchUp(max, run)
  {
    hide Step;
    if run != [] {
      var front, a := run[..|run| - 1], run[|run| - 1];
      QuietNeverCatchesUp(max, front);
      if CatchesUp(max, Exec(max, front), a) {
        CatchUpIsOneWrite(max, front, a);
        QuietNoWrites(max, front, a.ptr);
      }
    }
  }

  /** A retry within the budget catches up if and only if exactly one version-moving outside write
      landed since its claim. */
  lemma CatchUpIsOneWrite(max: int, run: seq<Action>, a: Action)
    requires FreshRun(max, run) && (a.NoProvider? || a.SendFailed?) && Enabled(Exec(max, run), a)
    ensures CatchesUp(max, Exec(max, run), a)
            <==> Exec(max, run).copies[a.ptr].note.attempts < max && WritesSinceClaim(max, run, a.ptr) == 1
    ensures Busy(Exec(max, run).copies[a.ptr].place)
  {
    hide Exec, FreshRun, WritesSinceClaim;
    RunKeepsInv(max, run);
    LagIsOutsideWrites(max, run, a.ptr);
    assert CopyOk(Exec(max, run).db.notifications, Exec(max, run).copies[a.ptr]);
  }

  // A concrete run into the trap, one small step at a time.

  const X := ZERO_NOTE.(id := "x", tenantId := "t", idempotencyKey := "1")

  /** The store shows `x` at a status and version, and the only live copy is `c`. */
  predicate Shows(s: State, status: Status, version: int, c: Copy) {
    && "x" in s.db.notifications
    && s.db.notifications["x"].id == "x"
    && s.db.notifications["x"].status == status
    && s.db.notifications["x"].version == version
    && s.copies == map[0 := c]
    && s.requests == map[]
    && c.note.id == "x" && c.note.scheduleAt == None && c.note.expiresAt == None
  }

  lemma XSubmitted(max: int)
    ensures var s := Exec(max, [Submit(X, 0, false)]);
      Shows(s, Queued, 1, Copy(Prepared(X, 0), InQueue)) && s.now == 0
  {
    ExecStep(max, [], Submit(X, 0, false));
    assert [] + [Submit(X, 0, false)] == [Submit(X, 0, false)];
    assert Enabled(INITIAL, Submit(X, 0, false));
  }

  lemma XDequeued(max: int, s: State, status: Status, version: int, c: Copy)
    requires Shows(s, status, version, c) && c.place == InQueue
    ensures var t := Step(max, s, Dequeue(0)); Shows(t, status, version, c.(place := InHand(s.now))) && t.now == s.now
  {
  }

  lemma XClaimed(max: int, s: State, status: Status, c: Copy)
    requires Shows(s, status, c.note.version, c) && c.place.InHand? && c.note.status == Queued
    ensures var t := Step(max, s, Claim(0)); var n := c.note.(status := Processing, version := c.note.version + 1,
                                                              updatedAt := s.now);
      Shows(t, Processing, n.version, Copy(n, Claimed)) && t.now == s.now
  {
  }

  lemma XSending(max: int, s: State, status: Status, version: int, c: Copy)
    requires Shows(s, status, version, c) && c.place == Claimed
    ensures var t := Step(max, s, Send(0, "p"));
      Shows(t, status, version, Copy(SendStep(c.note, "p"), Sending)) && t.now == s.now
  {
  }

  lemma XPaused(max: int, s: State, version: int, c: Copy)
    requires Shows(s, Processing, version, c)
    ensures var t := Step(max, Step(max, s, ApiRead(0, "x", 0, Paused)), ApiWrite(0));
      Shows(t, Paused, version + 1, c) && t.now == s.now
  {
    var u := Step(max, s, ApiRead(0, "x", 0, Paused));
    assert u.requests.Keys == {0};
  }

  /** The retry finds the record changed, so its update fails, and it goes to the timer anyway. */
  lemma XRetried(max: int, s: State, status: Status, c: Copy)
    requires Shows(s, status, c.note.version + 1, c) && c.place == Sending && c.note.status == Processing
    requires c.note.attempts < max
    ensures var t := Step(max, s, SendFailed(0, "down", 0));
      var n := c.note.(lastError := "down", status := Queued, version := c.note.version + 1, updatedAt := s.now);
      Shows(t, status, n.version, Copy(n, InTimer(s.now + Backoff(c.note.attempts, 0)))) && t.now == s.now
  {
  }

  lemma XFired(max: int, s: State, status: Status, version: int, c: Copy, wait: nat)
    requires Shows(s, status, version, c) && c.place == InTimer(s.now + wait)
    ensures var t := Step(max, Step(max, s, Tick(wait)), Fire(0, false));
      Shows(t, status, version, c.(place := InQueue)) && t.now == s.now + wait
  {
  }

  const TO_PAUSE := [Submit(X, 0, false)] + [Dequeue(0)] + [Claim(0)] + [Send(0, "p")] + [ApiRead(0, "x", 0, Paused)]
                    + [ApiWrite(0)]

  const TENTHS := 200_000_000

  lemma XPausedInFlight(max: int)
    ensures var s := Exec(max, TO_PAUSE);
      && s.now == 0
      && Shows(s, Paused, 3,
               Copy(SendStep(Prepared(X, 0).(status := Processing, version := 2), "p"), Sending))
  {
    XSubmitted(max);
    var run := [Submit(X, 0, false)];
    ExecStep(max, run, Dequeue(0));
    XDequeued(max, Exec(max, run), Queued, 1, Copy(Prepared(X, 0), InQueue));
    run := run + [Dequeue(0)];
    ExecStep(max, run, Claim(0));
    XClaimed(max, Exec(max, run), Queued, Copy(Prepared(X, 0), InHand(0)));
    run := run + [Claim(0)];
    ExecStep(max, run, Send(0, "p"));
    XSending(max, Exec(max, run), Processing, 2, Copy(Prepared(X, 0).(status := Processing, version := 2), Claimed));
    run := run + [Send(0, "p")];
    ExecStep(max, run, ApiRead(0, "x", 0, Paused));
    ExecStep(max, run + [ApiRead(0, "x", 0, Paused)], ApiWrite(0));
    XPaused(max, Exec(max, run), 2, Copy(SendStep(Prepared(X, 0).(status := Processing, version := 2), "p"), Sending));
  }

  /** The trap happens: with a retry budget above 1 a notification that is stored as paused is
      claimed and sent a second time, although nobody resumed it. */
  lemma PausedIsSentAgain(max: int)
    requires max > 1
    ensures var paused := Exec(max, TO_PAUSE);
      "x" in paused.db.notifications && paused.db.notifications["x"].status == Paused
    ensures var s := Exec(max, TO_PAUSE + [SendFailed(0, "down", 0)] + [Tick(TENTHS)] + [Fire(0, false)] + [Dequeue(0)]
                               + [Claim(0)] + [Send(0, "p")]);
      "x" in s.db.notifications && s.db.notifications["x"].status == Processing
      && At(s, 0, Sending) && s.copies[0].note.attempts == 2
  {
    XPausedInFlight(max);
    var run := TO_PAUSE;
    var c := Copy(SendStep(Prepared(X, 0).(status := Processing, version := 2), "p"), Sending);
    ExecStep(max, run, SendFailed(0, "down", 0));
    XRetried(max, Exec(max, run), Paused, c);
    run := run + [SendFailed(0, "down", 0)];
    c := Exec(max, run).copies[0];
    assert Backoff(1, 0) == TENTHS;
    ExecStep(max, run, Tick(TENTHS));
    ExecStep(max, run + [Tick(TENTHS)], Fire(0, false));
    XFired(max, Exec(max, run), Paused, 3, c, TENTHS);
    run := run + [Tick(TENTHS)] + [Fire(0, false)];
    ExecStep(max, run, Dequeue(0));
    XDequeued(max, Exec(max, run), Paused, 3, c.(place := InQueue));
    run := run + [Dequeue(0)];
    ExecStep(max, run, Claim(0));
    XClaimed(max, Exec(max, run), Paused, c.(place := InHand(Exec(max, run).now)));
    run := run + [Claim(0)];
    ExecStep(max, run, Send(0, "p"));
    XSending(max, Exec(max, run), Processing, 4, Exec(max, run).copies[0]);
  }
}
