/** With router and limiter granting, a copy takes finitely many steps. */
module Progress {
  import opened Domain
  import opened Delivery
  import opened Repository
  import opened Protocol
  import opened Stranding
  import opened Budget

  // ---------- Schedules ----------

  /** A copy in an attempt is past its schedule, and one in a timer will be when the timer fires. */
  predicate Timed(c: Copy, now: int) {
    match c.place
    case InTimer(due) => !Future(c.note.scheduleAt, if due > now then due else now)
    case InQueue => true
    case InHand(_) => true
    case _ => !Future(c.note.scheduleAt, now)
  }

  ghost predicate AllTimed(s: State) {
    forall p | p in s.copies :: Timed(s.copies[p], s.now)
  }

  lemma StretchTimed(max: int, s: State, a: Action)
    requires IsWorker(a) && Enabled(s, a) && Timed(s.copies[a.ptr], s.now)
    ensures var h := WorkerStretch(max, s, a); h.copy.Some? ==> Timed(h.copy.value, s.now)
  {
    hide Effect, Updated, Backoff;
  }

  lemma MovedTimed(s: State, a: Action)
    requires IsMove(a) && Enabled(s, a) && Timed(s.copies[a.ptr], s.now)
    ensures a.Postpone? ==> s.copies[a.ptr].note.scheduleAt.Some?
    ensures Timed(Moved(s, a), s.now)
  {
  }

  lemma SubmitTimed(s: State, a: Action)
    requires a.Submit? && a.ptr !in s.copies && AllTimed(s)
    ensures AllTimed(SubmitEffect(s, a.n, a.ptr, a.full))
  {
    SubmittedCopy(s, a.n, a.ptr, a.full);
    hide SubmitEffect;
  }

  lemma OutsideTimed(max: int, s: State, a: Action)
    requires AllTimed(s) && Enabled(s, a) && !IsWorker(a) && !IsMove(a) && !a.Submit?
    ensures AllTimed(Effect(max, s, a))
  {
    hide WorkerStretch, SubmitEffect, RequestOf, Updated;
  }

  lemma StepTimed(max: int, s: State, a: Action)
    requires AllTimed(s)
    ensures AllTimed(Step(max, s, a))
  {
    hide Effect, WorkerStretch, SubmitEffect, Moved;
    if Enabled(s, a) {
      if IsWorker(a) {
        EffectOfStretch(max, s, a);
        StretchTimed(max, s, a);
      } else if IsMove(a) {
        EffectOfMove(max, s, a);
        MovedTimed(s, a);
      } else if a.Submit? {
        EffectOfSubmit(max, s, a);
        SubmitTimed(s, a);
      } else {
        OutsideTimed(max, s, a);
      }
    }
  }

  lemma {:induction false} RunTimed(max: int, run: seq<Action>)
    ensures AllTimed(Exec(max, run))
  {
    hide Step;
    if run != [] {
      RunTimed(max, run[..|run| - 1]);
      StepTimed(max, Exec(max, run[..|run| - 1]), run[|run| - 1]);
    }
  }

  // ---------- Progress ----------

  /** How far a copy is from its end: remaining attempts first, then the place in the cycle, with the
      timer of a schedule still to come. */
  function Rank(max: int, c: Copy, now: int): int {
    var early := if Future(c.note.scheduleAt, now) then 3 else 0;
    8 * (max - c.note.attempts) +
    match c.place
    case Sending => 5
    case InTimer(_) => 4
    case InQueue => 3 + early
    case InHand(_) => 2 + early
    case Claimed => 1
  }

  predicate Granting(a: Action) {
    a.Dequeue? || a.Fire? || a.Postpone? || a.Claim? || a.Expire? || a.Send? || a.SendFailed? || a.SendOk?
  }

  /** As long as provider choice and rate limiter grant, every step of a copy, even to wait for its
      schedule, either ends it or
      lowers its rank, which in every reachable state is not negative: a copy takes finitely many
      steps, whatever the others do. */
  lemma GrantedStepsEnd(max: int, run: seq<Action>, a: Action)
    requires FreshRun(max, run) && NoOverrun(max, run) && max >= 1
    requires Granting(a) && Enabled(Exec(max, run), a)
    requires StartOf(max, run, Exec(max, run).copies[a.ptr].note.id) == 0
    ensures var s := Exec(max, run); var t := Step(max, s, a);
      && 0 <= Rank(max, s.copies[a.ptr], s.now)
      && (a.ptr in t.copies ==> 0 <= Rank(max, t.copies[a.ptr], t.now) < Rank(max, s.copies[a.ptr], s.now))
  {
    hide Effect;
    RunKeepsInv(max, run);
    RunTimed(max, run);
    CopyFollows(max, Exec(max, run), a);
    RankBound(max, run, a);
  }

  /** After the step the copy, if it survives, is still within its budget. */
  lemma RankBound(max: int, run: seq<Action>, a: Action)
    requires FreshRun(max, run) && NoOverrun(max, run) && max >= 1 && Granting(a)
    requires Enabled(Exec(max, run), a)
    requires StartOf(max, run, Exec(max, run).copies[a.ptr].note.id) == 0
    ensures var s := Exec(max, run);
      && s.copies[a.ptr].note.attempts <= max
      && (a.Send? ==> s.copies[a.ptr].note.attempts < max)
  {
    hide Effect;
    var s := Exec(max, run);
    var id := s.copies[a.ptr].note.id;
    RetryBudget(max, run, id, true);
    assert CopyCounts(max, s.copies[a.ptr], s.now, 0, SendCount(max, run, id), true);
  }

  /** Whatever survives a worker's stretch is a copy with the same attempts, further on. */
  lemma StretchFollows(max: int, s: State, a: Action)
    requires IsWorker(a) && Enabled(s, a) && CopyOk(s.db.notifications, s.copies[a.ptr]) && !a.NoProvider?
    ensures var h := WorkerStretch(max, s, a); var c := s.copies[a.ptr];
      h.copy.Some? ==>
        && h.copy.value.note.id == c.note.id
        && h.copy.value.note.attempts == c.note.attempts
        && Rank(max, h.copy.value, s.now) < Rank(max, c, s.now)
  {
    hide Effect, Updated, UpdateOk, Backoff;
  }

  lemma CopyFollows(max: int, s: State, a: Action)
    requires Inv(s) && AllTimed(s) && Granting(a) && Enabled(s, a)
    ensures var t := Step(max, s, a); var c := s.copies[a.ptr];
      a.ptr in t.copies ==>
        && t.copies[a.ptr].note.id == c.note.id
        && t.copies[a.ptr].note.attempts == c.note.attempts + (if a.Send? then 1 else 0)
        && Rank(max, t.copies[a.ptr], t.now) < Rank(max, c, s.now)
  {
    hide Effect, WorkerStretch;
    assert CopyOk(s.db.notifications, s.copies[a.ptr]);
    if IsWorker(a) {
      EffectOfStretch(max, s, a);
      StretchFollows(max, s, a);
    } else {
      EffectOfMove(max, s, a);
    }
  }
}
