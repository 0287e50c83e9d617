/** What the ledger answers and keeps, said in instants, amounts and replies alone. */
module QuotaOutcomes {
  import opened Wrappers
  import opened Decimal
  import opened QuotaBook
  import opened QuotaLedger
  import opened QuotaHistory
  import opened QuotaLimits

  // ---------- The sweep ----------

  /** A sweep at `now` leaves exactly the reservations that are committed or not past their expiry, as
      they were. */
  lemma SweepLeavesExactly(c: Calendar, b: Book, order: seq<string>, now: int)
    requires Sound(c) && BookOk(c, b) && Enumerates(order, StaleIds(b, now))
    ensures var left := Swept(c, b, order, now).reservations;
      && (forall id | id in b.reservations ::
            id in left <==> b.reservations[id].committed || now <= b.reservations[id].expiresAt)
      && (forall id | id in left :: id in b.reservations && left[id] == b.reservations[id])
  {
    SweptShape(c, b, order, now);
  }

  /** A call that sweeps: a request that gets to the checks, or a reading of the usage. */
  predicate Sweeps(b: Book, call: Call) {
    Requests(b, call) || call.Read?
  }

  /** An uncommitted reservation past its expiry is gone after any sweep. */
  lemma GoneAfterSweep(c: Calendar, b: Book, call: Call, id: string)
    requires Sound(c) && BookOk(c, b) && Walked(b, call) && Sweeps(b, call)
    requires id in b.reservations && !b.reservations[id].committed && call.at > b.reservations[id].expiresAt
    ensures id !in Step(c, b, call).reservations
    ensures forall now :: AnswerTo(c, Step(c, b, call), Commit(id, now)).reply == Refused(NotFound)
  {
    SweepLeavesExactly(c, b, call.order, call.at);
    hide Swept, Exceeded, Rolled, Enumerates;
  }

  // ---------- How long a reservation is held ----------

  /** The calls come no later than `until`, and none commits or rolls back `id`. */
  predicate Spares(later: seq<Call>, id: string, until: int) {
    forall k | 0 <= k < |later| ::
      later[k].at <= until && !((later[k].Commit? || later[k].Rollback?) && later[k].id == id)
  }

  lemma StepSpares(c: Calendar, b: Book, call: Call, id: string, until: int)
    requires Sound(c) && BookOk(c, b) && Spares([call], id, until)
    requires id in b.reservations && !b.reservations[id].committed && b.reservations[id].expiresAt == until
    ensures id in Step(c, b, call).reservations && Step(c, b, call).reservations[id] == b.reservations[id]
  {
    assert [call][0] == call;
    if call.Reserve? || call.Read? {
      if Walked(b, call) && Sweeps(b, call) {
        SweepLeavesExactly(c, b, call.order, call.at);
      }
    }
    hide Swept, Exceeded, Rolled, Enumerates;
  }

  /** A reservation granted at `t` for a time `ttl`, neither committed nor rolled back, is held as it was
      granted as long as no call came after `t + ttl`, and can be committed up to that instant. */
  lemma {:induction false} HeldWhileLive(c: Calendar, calls: seq<Call>, grant: Call, later: seq<Call>)
    requires Sound(c) && NewGrant(c, Exec(c, calls), grant)
    requires Spares(later, grant.id, grant.at + grant.ttl)
    ensures var b := Exec(c, calls + [grant] + later); var id, until := grant.id, grant.at + grant.ttl;
      && id in b.reservations
      && b.reservations[id] == Reservation(id, grant.tenant, grant.amount, grant.at, until, false)
      && forall now | now <= until ::
           && AnswerTo(c, b, Commit(id, now)).reply == Done
           && id in Step(c, b, Commit(id, now)).reservations
           && Step(c, b, Commit(id, now)).reservations[id] == b.reservations[id].(committed := true)
    decreases |later|
  {
    HeldAsGranted(c, calls, grant, later);
    var b := Exec(c, calls + [grant] + later);
    hide Exec, Spares, Rolled;
    forall now | now <= grant.at + grant.ttl
      ensures AnswerTo(c, b, Commit(grant.id, now)) == Answer(Committed(c, b, b.reservations[grant.id], now), Done)
    {
    }
  }

  lemma {:induction false} HeldAsGranted(c: Calendar, calls: seq<Call>, grant: Call, later: seq<Call>)
    requires Sound(c) && NewGrant(c, Exec(c, calls), grant)
    requires Spares(later, grant.id, grant.at + grant.ttl)
    ensures var b := Exec(c, calls + [grant] + later); var id, until := grant.id, grant.at + grant.ttl;
      id in b.reservations && b.reservations[id] == Reservation(id, grant.tenant, grant.amount, grant.at, until, false)
    decreases |later|
  {
    hide Step;
    var full := calls + [grant] + later;
    if later == [] {
      assert full == calls + [grant] && full[..|full| - 1] == calls;
      RunKeepsOk(c, calls);
      GrantHeld(c, Exec(c, calls), grant);
    } else {
      var front, call := later[..|later| - 1], later[|later| - 1];
      assert full[..|full| - 1] == calls + [grant] + front;
      HeldAsGranted(c, calls, grant, front);
      RunKeepsOk(c, calls + [grant] + front);
      StepSpares(c, Exec(c, calls + [grant] + front), call, grant.id, grant.at + grant.ttl);
    }
  }

  lemma GrantHeld(c: Calendar, b: Book, grant: Call)
    requires Sound(c) && BookOk(c, b) && NewGrant(c, b, grant)
    ensures var after := Step(c, b, grant);
      && grant.id in after.reservations
      && after.reservations[grant.id]
         == Reservation(grant.id, grant.tenant, grant.amount, grant.at, grant.at + grant.ttl, false)
  {
    ReserveMap(c, b, grant);
    hide Swept, Exceeded, Rolled, Enumerates, BookOk, StaleIds;
  }

  // ---------- A commit is for ever ----------

  lemma CommittedStep(c: Calendar, b: Book, call: Call, id: string)
    requires Sound(c) && BookOk(c, b) && id in b.reservations && b.reservations[id].committed
    ensures id in Step(c, b, call).reservations && Step(c, b, call).reservations[id] == b.reservations[id]
  {
    if (call.Reserve? || call.Read?) && Walked(b, call) && Sweeps(b, call) {
      SweepLeavesExactly(c, b, call.order, call.at);
    }
    hide Swept, Exceeded, Rolled, Enumerates;
  }

  /** A committed reservation stays as it is whatever follows: committing it again succeeds and changes
      nothing, and rolling it back is refused. */
  lemma {:induction false} CommittedForEver(c: Calendar, calls: seq<Call>, later: seq<Call>, id: string, now: int)
    requires Sound(c) && id in Exec(c, calls).reservations && Exec(c, calls).reservations[id].committed
    ensures var b := Exec(c, calls + later);
      && id in b.reservations && b.reservations[id] == Exec(c, calls).reservations[id]
      && AnswerTo(c, b, Commit(id, now)) == Answer(b, Done)
      && AnswerTo(c, b, Rollback(id, now)) == Answer(b, Refused(AlreadyCommitted))
    decreases |later|
  {
    hide Step;
    if later == [] {
      assert calls + later == calls;
    } else {
      var front := later[..|later| - 1];
      assert (calls + later)[..|calls + later| - 1] == calls + front;
      CommittedForEver(c, calls, front, id, now);
      RunKeepsOk(c, calls + front);
      CommittedStep(c, Exec(c, calls + front), later[|later| - 1], id);
    }
  }

  // ---------- The replies ----------

  lemma ConfigureReplies(b: Book, tenant: string, q: Quota)
    ensures Configured(b, tenant, q).reply == Done
            <==> tenant != "" && q.daily >= 1 && q.monthly >= q.daily && q.burst >= 1
    ensures Configured(b, tenant, q).reply == Done ==>
              Configured(b, tenant, q).book == b.(quotas := b.quotas[tenant := q])
    ensures Configured(b, tenant, q).reply != Done ==> Configured(b, tenant, q) == Answer(b, Refused(BadRequest))
  {
  }

  /** Who is refused before the checks, and who gets back the reservation that is known already. */
  lemma ReserveReplies(c: Calendar, b: Book, id: string, tenant: string, amount: Int64, ttl: int, now: int,
                       order: seq<string>)
    ensures var answer := ReserveOn(c, b, id, tenant, amount, ttl, now, order);
      && (id == "" || tenant == "" || amount <= 0 <==> answer.reply == Refused(BadRequest))
      && (id != "" && tenant != "" && amount >= 1 && id in b.reservations ==>
            answer == Answer(b, Granted(b.reservations[id])))
      && (id != "" && tenant != "" && amount >= 1 && id !in b.reservations && tenant !in b.quotas <==>
            answer.reply == Refused(NotConfigured))
  {
    hide Swept;
  }

  /** Which limit a request is refused by, as long as the sums fit: the first that it exceeds, of the
      daily, the monthly and the burst limit; and if it exceeds none it is granted for its time. */
  lemma CheckReplies(c: Calendar, b: Book, id: string, tenant: string, amount: Int64, ttl: int, now: int,
                     order: seq<string>)
    requires id != "" && tenant != "" && amount >= 1 && id !in b.reservations && tenant in b.quotas
    requires var u := CurrentUsage(c, Swept(c, b, order, now), tenant, now);
      0 <= u.dailyUsed <= u.monthlyUsed && u.reserved >= 0 && u.monthlyUsed + u.reserved + amount <= MAX_INT64
    ensures var u, q := CurrentUsage(c, Swept(c, b, order, now), tenant, now), b.quotas[tenant];
      ReserveOn(c, b, id, tenant, amount, ttl, now, order).reply
      == if u.dailyUsed + u.reserved + amount > q.daily then Refused(DailyExceeded)
         else if u.monthlyUsed + u.reserved + amount > q.monthly then Refused(MonthlyExceeded)
         else if u.reserved + amount > q.burst then Refused(BurstExceeded)
         else Granted(Reservation(id, tenant, amount, now, now + ttl, false))
  {
    hide Swept, Rolled;
  }

  /** A commit fails exactly if the reservation is unknown, or uncommitted and past its expiry; then it
      is gone. */
  lemma CommitReplies(c: Calendar, b: Book, id: string, now: int)
    requires BookOk(c, b)
    ensures var answer := CommitOn(c, b, id, now);
      && (id !in b.reservations ==> answer == Answer(b, Refused(NotFound)))
      && (id in b.reservations && b.reservations[id].committed ==> answer == Answer(b, Done))
      && (id in b.reservations && !b.reservations[id].committed && now <= b.reservations[id].expiresAt ==>
            answer.reply == Done && id in answer.book.reservations && answer.book.reservations[id].committed)
      && (id in b.reservations && !b.reservations[id].committed && now > b.reservations[id].expiresAt ==>
            answer.reply == Refused(ReservationExpired) && answer.book.reservations == b.reservations - {id})
  {
    hide Rolled;
  }

  /** A rollback fails exactly if the reservation is unknown or committed, and else drops it. */
  lemma RollbackReplies(c: Calendar, b: Book, id: string, now: int)
    requires BookOk(c, b)
    ensures var answer := RollbackOn(c, b, id, now);
      && (id !in b.reservations ==> answer == Answer(b, Refused(NotFound)))
      && (id in b.reservations && b.reservations[id].committed ==> answer == Answer(b, Refused(AlreadyCommitted)))
      && (id in b.reservations && !b.reservations[id].committed ==>
            answer.reply == Done && answer.book.reservations == b.reservations - {id})
  {
    hide Rolled;
  }
}
