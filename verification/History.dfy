/** Every run of the delivery engine is, for the store, a disciplined sequence of store operations;
    the laws of `StoreLaws` therefore hold in every reachable state of the engine. */
module History {
  import opened Wrappers
  import opened Domain
  import opened Repository
  import opened Receipts
  import opened Delivery
  import opened Protocol
  import opened StoreLaws

  /** The update that a worker's stretch attempts, if its transition allows one. */
  function StretchOp(max: int, s: State, a: Action): Op
    requires IsWorker(a) && a.ptr in s.copies
  {
    var n := s.copies[a.ptr].note;
    match a
    case Expire(_) =>
      var t := Transitioned(n, Expired, s.now);
      UpdateOp(if t.Some? then t.value else n, n.version, s.now)
    case Claim(_) => AttemptedOp(n, n, Processing, s.now)
    case NoProvider(_, error, _) => RetryOp(max, n, error, s.now)
    case SendFailed(_, error, _) => RetryOp(max, n, error, s.now)
    case SendOk(_, result) => AttemptedOp(n, n, Reported(result), s.now)
  }

  function AttemptedOp(n: Note, changed: Note, next: Status, now: int): Op {
    var t := Transitioned(changed, next, now);
    if t.None? then Skip else UpdateOp(t.value, n.version, now)
  }

  function RetryOp(max: int, n: Note, error: string, now: int): Op {
    AttemptedOp(n, n.(lastError := error), if n.attempts >= max then Failed else Queued, now)
  }

  ghost function OpOf(max: int, s: State, a: Action): Op {
    if !Enabled(s, a) then Skip
    else if IsWorker(a) then StretchOp(max, s, a)
    else
      match a
      case Submit(n, _, _) => CreateOp(Prepared(n, s.now), s.now)
      case ApiWrite(q) => UpdateOp(s.requests[q].note, s.requests[q].expected, s.now)
      case Ingest(r) => IngestOp(r, s.now)
      case _ => Skip
  }

  ghost function OpsOf(max: int, run: seq<Action>): seq<Op> {
    if run == [] then []
    else OpsOf(max, run[..|run| - 1]) + [OpOf(max, Exec(max, run[..|run| - 1]), run[|run| - 1])]
  }

  lemma StretchIsOp(max: int, s: State, a: Action)
    requires IsWorker(a) && a.ptr in s.copies
    ensures WorkerStretch(max, s, a).db == Apply(s.db, StretchOp(max, s, a))
  {
    hide WithEvent;
  }

  lemma StretchDisciplined(max: int, s: State, a: Action)
    requires Keyed(s.db.notifications) && IsWorker(a)
    requires a.ptr in s.copies && CopyOk(s.db.notifications, s.copies[a.ptr])
    requires if a.Expire? || a.Claim? then s.copies[a.ptr].place.InHand? else Busy(s.copies[a.ptr].place)
    ensures Disciplined(s.db, StretchOp(max, s, a))
  {
  }

  lemma OutsiderIsOp(max: int, s: State, a: Action)
    requires Enabled(s, a) && !IsWorker(a)
    ensures Effect(max, s, a).db == Apply(s.db, OpOf(max, s, a))
  {
    hide WorkerStretch, Created, RequestOf, Updated, Ingested, StretchOp;
    if IsMove(a) {
      EffectOfMove(max, s, a);
    }
  }

  lemma RequestDisciplined(s: State, q: nat)
    requires Inv(s) && q in s.requests
    ensures Disciplined(s.db, UpdateOp(s.requests[q].note, s.requests[q].expected, s.now))
  {
    assert RequestOk(s.db.notifications, s.requests[q]);
  }

  lemma StepIsOp(max: int, s: State, a: Action)
    requires Inv(s) && FreshStep(s, a)
    ensures Step(max, s, a).db == Apply(s.db, OpOf(max, s, a))
    ensures Disciplined(s.db, OpOf(max, s, a))
  {
    assert Apply(s.db, Skip) == s.db;
    hide Effect, WorkerStretch, StretchOp, Apply, StretchOk, DropOk, Updated;
    if Enabled(s, a) {
      if IsWorker(a) {
        WorkerOk(max, s, a);
        EffectOfStretch(max, s, a);
        StretchIsOp(max, s, a);
        StretchDisciplined(max, s, a);
      } else {
        OutsiderIsOp(max, s, a);
        if a.ApiWrite? {
          RequestDisciplined(s, a.request);
        }
      }
    }
  }

  lemma {:induction false} DisciplinedExtends(ops: seq<Op>, op: Op)
    requires DisciplinedAll(EMPTY, ops) && Disciplined(ApplyAll(EMPTY, ops), op)
    ensures DisciplinedAll(EMPTY, ops + [op])
    ensures ApplyAll(EMPTY, ops + [op]) == Apply(ApplyAll(EMPTY, ops), op)
  {
    hide Disciplined, Apply;
    var longer := ops + [op];
    assert longer[..|ops|] == ops;
    forall k | 0 <= k < |longer|
      ensures Disciplined(ApplyAll(EMPTY, longer[..k]), longer[k])
    {
      if k < |ops| {
        assert longer[..k] == ops[..k];
      }
    }
  }

  /** The store of every reachable state is the result of a disciplined sequence of operations,
      one for each action of the run. */
  lemma {:induction false} RunIsDisciplined(max: int, run: seq<Action>)
    requires FreshRun(max, run)
    ensures Exec(max, run).db == ApplyAll(EMPTY, OpsOf(max, run))
    ensures DisciplinedAll(EMPTY, OpsOf(max, run))
  {
    hide Step, Apply, Disciplined, FreshStep;
    if run != [] {
      var front, a := run[..|run| - 1], run[|run| - 1];
      RunIsDisciplined(max, front);
      RunKeepsInv(max, front);
      assert FreshStep(Exec(max, front), a);
      StepIsOp(max, Exec(max, front), a);
      DisciplinedExtends(OpsOf(max, front), OpOf(max, Exec(max, front), a));
    }
  }

  /** In every reachable state: the last event of a timeline carries the stored status; the
      store's own events are numbered by position; timeline length minus version counts the
      accepted updates that left the status; receipts are recorded exactly once. */
  lemma TimelineOfRun(max: int, run: seq<Action>, id: string)
    requires FreshRun(max, run)
    ensures var db := Exec(max, run).db;
      && TimelineInv(db)
      && ReceiptInv(db)
      && |Positions(db)| == |db.receipts|
      && (id in db.notifications ==>
            |Timeline(db, id)| == db.notifications[id].version + IdleCount(EMPTY, OpsOf(max, run), id))
  {
    hide TimelineInv, ReceiptInv, DisciplinedAll, IdleCount;
    RunIsDisciplined(max, run);
    TimelineIsEventSource(OpsOf(max, run), 0);
    VersionCounts(OpsOf(max, run), id);
    ReceiptsOnce(OpsOf(max, run));
    ReceiptCount(OpsOf(max, run));
  }

  /** Whatever happens between two moments of a run, timelines are only appended to. */
  lemma {:induction false} TimelinesOnlyGrow(max: int, run: seq<Action>, later: seq<Action>)
    requires FreshRun(max, run + later)
    ensures Grows(Exec(max, run).db, Exec(max, run + later).db)
    decreases |later|
  {
    if later == [] {
      assert run + later == run;
    } else {
      var front, a := later[..|later| - 1], later[|later| - 1];
      assert (run + later)[..|run + later| - 1] == run + front;
      TimelinesOnlyGrow(max, run, front);
      RunKeepsInv(max, run + front);
      var s := Exec(max, run + front);
      StepIsOp(max, s, a);
      ApplyAppends(s.db, OpOf(max, s, a));
      hide Step, Apply;
      GrowsOn(Exec(max, run).db, s.db, Exec(max, run + later).db);
    }
  }

  lemma GrowsOn(a: Snapshot, b: Snapshot, c: Snapshot)
    requires Grows(a, b) && Grows(b, c)
    ensures Grows(a, c)
  {
    forall id
      ensures Timeline(a, id) <= Timeline(c, id)
    {
      assert Timeline(a, id) <= Timeline(b, id) && Timeline(b, id) <= Timeline(c, id);
    }
  }

  /** In every reachable state idempotency keys, stored notifications and creation entries of the
      outbox correspond one to one. */
  lemma {:induction false} IdempotencyOfRun(max: int, run: seq<Action>)
    requires FreshRun(max, run)
    ensures IdempotencyInv(Exec(max, run).db)
  {
    hide Step, Apply, Disciplined, FreshStep;
    if run != [] {
      var front, a := run[..|run| - 1], run[|run| - 1];
      IdempotencyOfRun(max, front);
      RunKeepsInv(max, front);
      assert FreshStep(Exec(max, front), a);
      StepIsOp(max, Exec(max, front), a);
      ApplyKeepsIdempotency(Exec(max, front).db, OpOf(max, Exec(max, front), a));
    }
  }

  ghost predicate TenantsWithoutColon(s: State) {
    forall id | id in s.db.notifications :: ':' !in s.db.notifications[id].tenantId
  }

  /** A repeated submission adds neither a record nor a queue copy: if a stored notification has the
      submitted tenant and key, the step leaves the whole state as it was. */
  lemma RepeatIsNoOp(max: int, run: seq<Action>, n: Note, p: Ptr, full: bool, id: string)
    requires FreshRun(max, run) && TenantsWithoutColon(Exec(max, run)) && ':' !in n.tenantId
    requires id in Exec(max, run).db.notifications && SameOwner(Exec(max, run).db.notifications[id], n)
    ensures Step(max, Exec(max, run), Submit(n, p, full)) == Exec(max, run)
  {
    var s := Exec(max, run);
    IdempotencyOfRun(max, run);
    RepeatedSubmission(s.db, Prepared(n, s.now), s.now);
    hide Effect, IdempotencyInv, Created;
    if Enabled(s, Submit(n, p, full)) {
      EffectOfSubmit(max, s, Submit(n, p, full));
    }
  }
}
