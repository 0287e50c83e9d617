/** The quota ledger over whole histories: what was committed when, and where every amount went. All of
    this module holds in every history, also after sums have wrapped around. */
module QuotaHistory {
  import opened Wrappers
  import opened Decimal
  import opened QuotaBook
  import opened QuotaLedger

  /** A call that sweeps comes with the order in which the map yields the stale reservations. */
  datatype Call =
    | Configure(tenant: string, quota: Quota, at: int)
    | Reserve(id: string, tenant: string, amount: Int64, ttl: int, at: int, order: seq<string>)
    | Commit(id: string, at: int)
    | Rollback(id: string, at: int)
    | Read(tenant: string, at: int, order: seq<string>)

  /** The request gets to the sweep and the checks. */
  predicate Requests(b: Book, call: Call) {
    call.Reserve? && Checked(b, call.id, call.tenant, call.amount)
  }

  /** The map can yield the stale reservations in that order. */
  ghost predicate Walked(b: Book, call: Call) {
    Requests(b, call) || call.Read? ==> Enumerates(call.order, StaleIds(b, call.at))
  }

  function AnswerTo(c: Calendar, b: Book, call: Call): Answer {
    match call
    case Configure(tenant, q, _) => Configured(b, tenant, q)
    case Reserve(id, tenant, amount, ttl, now, order) => ReserveOn(c, b, id, tenant, amount, ttl, now, order)
    case Commit(id, now) => CommitOn(c, b, id, now)
    case Rollback(id, now) => RollbackOn(c, b, id, now)
    case Read(_, now, order) => Answer(Swept(c, b, order, now), Done)
  }

  /** A call whose order cannot occur is skipped, so every sequence of calls is a history, and every
      walk over the map is among them. */
  ghost function Step(c: Calendar, b: Book, call: Call): Book {
    if Walked(b, call) then AnswerTo(c, b, call).book else b
  }

  ghost function Exec(c: Calendar, calls: seq<Call>): Book {
    if calls == [] then NEW else Step(c, Exec(c, calls[..|calls| - 1]), calls[|calls| - 1])
  }

  lemma StepKeepsOk(c: Calendar, b: Book, call: Call)
    requires Sound(c) && BookOk(c, b)
    ensures BookOk(c, Step(c, b, call))
  {
    hide ReserveOn, CommitOn, RollbackOn, Swept;
    match call {
      case Configure(tenant, q, _) =>
        var after := Step(c, b, call);
        assert forall t | PeriodShown(c, b, t) :: PeriodShown(c, after, t);
      case Reserve(id, tenant, amount, ttl, now, order) => ReserveKeepsOk(c, b, id, tenant, amount, ttl, now, order);
      case Commit(id, now) => CommitKeepsOk(c, b, id, now);
      case Rollback(id, now) => RollbackKeepsOk(c, b, id, now);
      case Read(_, now, order) => SweptShape(c, b, order, now);
    }
  }

  lemma {:induction false} RunKeepsOk(c: Calendar, calls: seq<Call>)
    requires Sound(c)
    ensures BookOk(c, Exec(c, calls))
  {
    if calls != [] {
      RunKeepsOk(c, calls[..|calls| - 1]);
      StepKeepsOk(c, Exec(c, calls[..|calls| - 1]), calls[|calls| - 1]);
    }
  }

  // ---------- Quotas ----------

  function Max(x: Int64, y: Int64): Int64 {
    if x < y then y else x
  }

  function MaxQuota(p: Quota, q: Quota): Quota {
    Quota(Max(p.daily, q.daily), Max(p.monthly, q.monthly), Max(p.burst, q.burst))
  }

  predicate Configures(call: Call, tenant: string) {
    call.Configure? && call.tenant == tenant && LegalQuota(tenant, call.quota)
  }

  /** The highest limits ever configured for a tenant; where limits are never lowered, the current
      ones. */
  function Highest(calls: seq<Call>, tenant: string): Quota {
    if calls == [] then Quota(0, 0, 0)
    else
      var front, call := Highest(calls[..|calls| - 1], tenant), calls[|calls| - 1];
      if Configures(call, tenant) then MaxQuota(front, call.quota)
      else front
  }

  predicate Below(q: Quota, h: Quota) {
    q.daily <= h.daily && q.monthly <= h.monthly && q.burst <= h.burst
  }

  ghost predicate QuotasLegal(b: Book) {
    forall tenant | tenant in b.quotas :: LegalQuota(tenant, b.quotas[tenant])
  }

  lemma {:induction false} RunKeepsLegal(c: Calendar, calls: seq<Call>)
    requires Sound(c)
    ensures QuotasLegal(Exec(c, calls))
  {
    if calls != [] {
      RunKeepsLegal(c, calls[..|calls| - 1]);
      RunKeepsOk(c, calls[..|calls| - 1]);
      QuotasOnlyConfigured(c, Exec(c, calls[..|calls| - 1]), calls[|calls| - 1]);
    }
  }

  /** No legal configuration lowers a limit that the tenant has. */
  ghost predicate NeverLowered(c: Calendar, calls: seq<Call>, tenant: string) {
    if calls == [] then true
    else
      var front, call := calls[..|calls| - 1], calls[|calls| - 1];
      var quotas := Exec(c, front).quotas;
      && NeverLowered(c, front, tenant)
      && (Configures(call, tenant) && tenant in quotas ==> Below(quotas[tenant], call.quota))
  }

  lemma {:induction false} HighestIsCurrent(c: Calendar, calls: seq<Call>, tenant: string)
    requires Sound(c) && NeverLowered(c, calls, tenant)
    ensures var quotas := Exec(c, calls).quotas;
      Highest(calls, tenant) == if tenant in quotas then quotas[tenant] else Quota(0, 0, 0)
  {
    if calls != [] {
      var front, call := calls[..|calls| - 1], calls[|calls| - 1];
      HighestIsCurrent(c, front, tenant);
      RunKeepsOk(c, front);
      QuotasOnlyConfigured(c, Exec(c, front), call);
    }
  }

  lemma QuotasOnlyConfigured(c: Calendar, b: Book, call: Call)
    requires Sound(c) && BookOk(c, b)
    ensures Step(c, b, call).quotas ==
            if call.Configure? && LegalQuota(call.tenant, call.quota) then b.quotas[call.tenant := call.quota]
            else b.quotas
  {
    hide Exceeded, Swept, Enumerates;
    if call.Reserve? || call.Read? {
      SweptShape(c, b, call.order, call.at);
    }
  }

  // ---------- What one call does to a tenant's usage ----------

  /** The amount that a call commits for a tenant. */
  function Commits(b: Book, call: Call, tenant: string): int {
    if && call.Commit? && call.id in b.reservations
       && !b.reservations[call.id].committed && call.at <= b.reservations[call.id].expiresAt
       && b.reservations[call.id].tenantId == tenant
    then b.reservations[call.id].amount else 0
  }

  predicate SamePeriodUse(u: Usage, v: Usage) {
    u.day == v.day && u.month == v.month && u.dailyUsed == v.dailyUsed && u.monthlyUsed == v.monthlyUsed
  }

  /** A tenant's usage stays, or is rolled to the time of the call and grows by what it commits. */
  predicate Advances(c: Calendar, u: Usage, v: Usage, now: int, added: int) {
    || (v == u && added == 0)
    || (v.lastModified == now
        && SamePeriodUse(v, var r := Rolled(c, u, v.tenantId, now);
                            r.(dailyUsed := Wrap64(r.dailyUsed + added), monthlyUsed := Wrap64(r.monthlyUsed + added))))
  }

  lemma {:induction false} SweptAdvances(c: Calendar, b: Book, order: seq<string>, now: int, tenant: string)
    requires Sound(c) && BookOk(c, b)
    ensures var swept := Swept(c, b, order, now);
      && (tenant in swept.usage <==> tenant in b.usage)
      && Advances(c, UsageOf(b, tenant), UsageOf(swept, tenant), now, 0)
  {
    if order != [] {
      SweptAdvances(c, b, order[..|order| - 1], now, tenant);
      SweptShape(c, b, order[..|order| - 1], now);
    }
  }

  /** Rolling a usage to the time of its last change shows the same use again. */
  lemma SweptShows(c: Calendar, b: Book, order: seq<string>, now: int, tenant: string)
    requires Sound(c) && BookOk(c, b)
    ensures var u, v := CurrentUsage(c, b, tenant, now), CurrentUsage(c, Swept(c, b, order, now), tenant, now);
      v.dailyUsed == u.dailyUsed && v.monthlyUsed == u.monthlyUsed
  {
    SweptAdvances(c, b, order, now, tenant);
  }

  lemma ReserveAdvances(c: Calendar, b: Book, call: Call, tenant: string)
    requires Sound(c) && BookOk(c, b) && call.Reserve?
    ensures var after := AnswerTo(c, b, call).book;
      && (tenant in b.usage ==> tenant in after.usage)
      && Advances(c, UsageOf(b, tenant), UsageOf(after, tenant), call.at, 0)
  {
    SweptAdvances(c, b, call.order, call.at, tenant);
    hide Swept, Exceeded, BookOk;
  }

  lemma StepAdvances(c: Calendar, b: Book, call: Call, tenant: string)
    requires Sound(c) && BookOk(c, b)
    ensures var after := Step(c, b, call);
      && (tenant in b.usage ==> tenant in after.usage)
      && (tenant !in after.usage ==> Commits(b, call, tenant) == 0)
      && Advances(c, UsageOf(b, tenant), UsageOf(after, tenant), call.at, Commits(b, call, tenant))
  {
    hide Swept, Exceeded, Enumerates;
    if call.Reserve? {
      ReserveAdvances(c, b, call, tenant);
    } else if call.Read? {
      SweptAdvances(c, b, call.order, call.at, tenant);
    }
  }

  // ---------- Calendar periods ----------

  function Period(c: Calendar, daily: bool, at: int): int {
    if daily then c.day(at) else c.month(at)
  }

  function Used(u: Usage, daily: bool): int {
    if daily then u.dailyUsed else u.monthlyUsed
  }

  /** All that a tenant committed in one day, or one month. */
  ghost function CommittedIn(c: Calendar, calls: seq<Call>, tenant: string, daily: bool, period: int): int {
    if calls == [] then 0
    else
      var front, call := calls[..|calls| - 1], calls[|calls| - 1];
      CommittedIn(c, front, tenant, daily, period)
      + if Period(c, daily, call.at) == period then Commits(Exec(c, front), call, tenant) else 0
  }

  /** The clock does not step back to an earlier day, or month, and nothing happens in one after
      that of `now`. */
  predicate InOrder(c: Calendar, daily: bool, calls: seq<Call>, now: int) {
    calls != [] ==>
      && Period(c, daily, calls[|calls| - 1].at) <= Period(c, daily, now)
      && InOrder(c, daily, calls[..|calls| - 1], calls[|calls| - 1].at)
  }

  /** The stored usage mirrors the history modulo 2^64: it shows the period of its last change, and
      nothing was committed in a later one. */
  ghost predicate Mirrors(c: Calendar, calls: seq<Call>, tenant: string, daily: bool, u: Usage, known: bool, now: int) {
    if known then
      && Period(c, daily, u.lastModified) <= Period(c, daily, now)
      && u.day == Some(c.day(u.lastModified)) && u.month == Some(c.month(u.lastModified))
      && Used(u, daily) == Wrap64(CommittedIn(c, calls, tenant, daily, Period(c, daily, u.lastModified)))
      && forall p | p > Period(c, daily, u.lastModified) :: CommittedIn(c, calls, tenant, daily, p) == 0
    else
      Used(u, daily) == 0 && forall p :: CommittedIn(c, calls, tenant, daily, p) == 0
  }

  lemma MirrorStep(c: Calendar, calls: seq<Call>, tenant: string, daily: bool, now: int)
    requires Sound(c) && calls != []
    requires var front, call := calls[..|calls| - 1], calls[|calls| - 1];
      var b := Exec(c, front);
      && BookOk(c, b) && Period(c, daily, call.at) <= Period(c, daily, now)
      && Mirrors(c, front, tenant, daily, UsageOf(b, tenant), tenant in b.usage, call.at)
    ensures var b := Exec(c, calls);
      Mirrors(c, calls, tenant, daily, UsageOf(b, tenant), tenant in b.usage, now)
  {
    var front, call := calls[..|calls| - 1], calls[|calls| - 1];
    var b, after := Exec(c, front), Exec(c, calls);
    StepAdvances(c, b, call, tenant);
    StepKeepsOk(c, b, call);
    assert PeriodShown(c, after, tenant);
    var u, v := UsageOf(b, tenant), UsageOf(after, tenant);
    var added := Commits(b, call, tenant);
    hide Step, BookOk, Commits;
    forall p
      ensures CommittedIn(c, calls, tenant, daily, p)
              == CommittedIn(c, front, tenant, daily, p) + if Period(c, daily, call.at) == p then added else 0
    {
    }
    hide CommittedIn;
    MirrorAdvances(c, front, calls, tenant, daily, u, tenant in b.usage, v, tenant in after.usage, call.at, now, added);
  }

  lemma MirrorAdvances(c: Calendar, front: seq<Call>, calls: seq<Call>, tenant: string, daily: bool, u: Usage,
                       known: bool, v: Usage, nowKnown: bool, at: int, now: int, added: int)
    requires Sound(c) && Period(c, daily, at) <= Period(c, daily, now) && Mirrors(c, front, tenant, daily, u, known, at)
    requires !known ==> u == NO_USAGE
    requires (known ==> nowKnown) && (!nowKnown ==> added == 0 && v == NO_USAGE)
    requires nowKnown ==> v.day == Some(c.day(v.lastModified)) && v.month == Some(c.month(v.lastModified))
    requires Advances(c, u, v, at, added)
    requires forall p :: CommittedIn(c, calls, tenant, daily, p)
                         == CommittedIn(c, front, tenant, daily, p) + if Period(c, daily, at) == p then added else 0
    ensures Mirrors(c, calls, tenant, daily, v, nowKnown, now)
  {
    assert Wrap64(0) == 0 && Wrap64(added) == Wrap64(0 + added);
    hide CommittedIn, Wrap64, Rolled, Sound;
    var p := Period(c, daily, at);
    if v != u || added != 0 {
      UsedAfter(c, u, v, known, daily, at, added);
      WrapTwice(CommittedIn(c, front, tenant, daily, p), added);
    }
    hide Advances;
  }

  /** The use after a change at `at`, by the period that it showed before. */
  lemma UsedAfter(c: Calendar, u: Usage, v: Usage, known: bool, daily: bool, at: int, added: int)
    requires Advances(c, u, v, at, added) && (v != u || added != 0)
    requires if known then u.day == Some(c.day(u.lastModified)) && u.month == Some(c.month(u.lastModified))
             else u == NO_USAGE
    ensures v.lastModified == at && v.day == Some(c.day(at)) && v.month == Some(c.month(at))
    ensures Used(v, daily)
            == Wrap64((if known && Period(c, daily, u.lastModified) == Period(c, daily, at) then Used(u, daily) else 0)
                      + added)
  {
    hide Wrap64;
  }

  lemma {:induction false} UsageMirrorsHistory(c: Calendar, calls: seq<Call>, tenant: string, daily: bool, now: int)
    requires Sound(c) && InOrder(c, daily, calls, now)
    ensures var b := Exec(c, calls);
      Mirrors(c, calls, tenant, daily, UsageOf(b, tenant), tenant in b.usage, now)
  {
    if calls != [] {
      var front, call := calls[..|calls| - 1], calls[|calls| - 1];
      UsageMirrorsHistory(c, front, tenant, daily, call.at);
      RunKeepsOk(c, front);
      MirrorStep(c, calls, tenant, daily, now);
    }
  }

  /** The usage as it stands is what was committed in the current day, or month, modulo 2^64. */
  lemma CurrentMirrors(c: Calendar, calls: seq<Call>, tenant: string, daily: bool, now: int)
    requires Sound(c) && InOrder(c, daily, calls, now)
    ensures Used(CurrentUsage(c, Exec(c, calls), tenant, now), daily)
            == Wrap64(CommittedIn(c, calls, tenant, daily, Period(c, daily, now)))
  {
    UsageMirrorsHistory(c, calls, tenant, daily, now);
    assert Wrap64(0) == 0;
    hide CommittedIn, Exec, Wrap64;
  }

  /** What `Usage` reports after its sweep is exactly what the tenant committed in the current day, or
      month, if and only if that fits an int64; in any case it is that modulo 2^64. */
  lemma ReportedUsage(c: Calendar, calls: seq<Call>, tenant: string, daily: bool, now: int, order: seq<string>)
    requires Sound(c) && InOrder(c, daily, calls, now)
    ensures var u := CurrentUsage(c, Swept(c, Exec(c, calls), order, now), tenant, now);
      var sum := CommittedIn(c, calls, tenant, daily, Period(c, daily, now));
      && Used(u, daily) == Wrap64(sum)
      && (Used(u, daily) == sum <==> sum <= MAX_INT64)
  {
    RunKeepsOk(c, calls);
    CurrentMirrors(c, calls, tenant, daily, now);
    SweptShows(c, Exec(c, calls), order, now, tenant);
    CommittedNotNegative(c, calls, tenant, daily, Period(c, daily, now));
    hide CommittedIn, Exec, Swept, BookOk;
  }

  lemma {:induction false} CommittedNotNegative(c: Calendar, calls: seq<Call>, tenant: string, daily: bool, period: int)
    requires Sound(c)
    ensures CommittedIn(c, calls, tenant, daily, period) >= 0
  {
    if calls != [] {
      CommittedNotNegative(c, calls[..|calls| - 1], tenant, daily, period);
      RunKeepsOk(c, calls[..|calls| - 1]);
    }
  }

  /** A clock in order for days is in order for months. */
  lemma {:induction false} DaysOrderMonths(c: Calendar, calls: seq<Call>, now: int)
    requires Sound(c) && InOrder(c, true, calls, now)
    ensures InOrder(c, false, calls, now)
  {
    if calls != [] {
      var at := calls[|calls| - 1].at;
      DaysOrderMonths(c, calls[..|calls| - 1], at);
      assert at <= now || c.day(at) == c.day(now);
    }
  }

  // ---------- Each amount is counted once ----------

  /** The amount that a call newly reserves for a tenant. */
  ghost function Grants(c: Calendar, b: Book, call: Call, tenant: string): int {
    if && Requests(b, call) && call.tenant == tenant && Walked(b, call)
       && AnswerTo(c, b, call).reply.Granted?
    then call.amount else 0
  }

  /** The reservations that a call makes disappear. */
  function Dropped(b: Book, after: Book): map<string, Reservation> {
    map id | id in b.reservations && id !in after.reservations :: b.reservations[id]
  }

  ghost function GrantedEver(c: Calendar, calls: seq<Call>, tenant: string): int {
    if calls == [] then 0
    else
      var front, call := calls[..|calls| - 1], calls[|calls| - 1];
      GrantedEver(c, front, tenant) + Grants(c, Exec(c, front), call, tenant)
  }

  ghost function ReleasedEver(c: Calendar, calls: seq<Call>, tenant: string): int {
    if calls == [] then 0
    else
      var front := calls[..|calls| - 1];
      ReleasedEver(c, front, tenant) + Total(Dropped(Exec(c, front), Exec(c, calls)), tenant, false)
  }

  ghost function CommittedEver(c: Calendar, calls: seq<Call>, tenant: string): int {
    if calls == [] then 0
    else
      var front, call := calls[..|calls| - 1], calls[|calls| - 1];
      CommittedEver(c, front, tenant) + Commits(Exec(c, front), call, tenant)
  }

  lemma {:induction false} TotalPart(rs: map<string, Reservation>, ids: set<string>, tenant: string, committed: bool)
    ensures Total(rs, tenant, committed)
            == Total(rs - ids, tenant, committed)
               + Total(map id | id in rs && id in ids :: rs[id], tenant, committed)
    decreases |ids|
  {
    var part := map id | id in rs && id in ids :: rs[id];
    if id :| id in ids {
      TotalPart(rs, ids - {id}, tenant, committed);
      var less := map i | i in rs && i in ids - {id} :: rs[i];
      if id in rs {
        TotalSplit(rs - (ids - {id}), id, tenant, committed);
        TotalAdd(less, rs[id], id, tenant, committed);
        assert rs - (ids - {id}) - {id} == rs - ids;
        assert part == less[id := rs[id]];
      } else {
        assert rs - (ids - {id}) == rs - ids;
        assert part == less;
      }
    } else {
      assert rs - ids == rs;
    }
  }

  lemma {:induction false} NoneCommitted(rs: map<string, Reservation>, tenant: string)
    requires forall id | id in rs :: !rs[id].committed
    ensures Total(rs, tenant, true) == 0
    decreases |rs|
  {
    if id :| id in rs {
      TotalSplit(rs, id, tenant, true);
      NoneCommitted(rs - {id}, tenant);
    }
  }

  /** Dropping uncommitted reservations takes away their sum. */
  lemma DropCounts(b: Book, ids: set<string>, after: Book, tenant: string)
    requires forall id | id in b.reservations && id in ids :: !b.reservations[id].committed
    requires forall id | id in b.reservations :: id in after.reservations <==> id !in ids
    ensures var left := b.reservations - ids;
      && Total(left, tenant, true) == Total(b.reservations, tenant, true)
      && Total(left, tenant, false) == Total(b.reservations, tenant, false) - Total(Dropped(b, after), tenant, false)
  {
    var part := map id | id in b.reservations && id in ids :: b.reservations[id];
    assert Dropped(b, after) == part;
    TotalPart(b.reservations, ids, tenant, true);
    TotalPart(b.reservations, ids, tenant, false);
    NoneCommitted(part, tenant);
  }

  /** The sums before and after one call. */
  ghost predicate Flows(b: Book, after: Book, tenant: string, granted: int, committed: int) {
    && Total(after.reservations, tenant, true) == Total(b.reservations, tenant, true) + committed
    && Total(after.reservations, tenant, false)
       == Total(b.reservations, tenant, false) + granted - committed - Total(Dropped(b, after), tenant, false)
  }

  lemma ReserveMap(c: Calendar, b: Book, call: Call)
    requires Sound(c) && BookOk(c, b) && Requests(b, call) && Walked(b, call)
    ensures var left := b.reservations - StaleIds(b, call.at); var answer := AnswerTo(c, b, call);
      Step(c, b, call).reservations
      == if answer.reply.Granted? then
           left[call.id := Reservation(call.id, call.tenant, call.amount, call.at, call.at + call.ttl, false)]
         else left
  {
    SweptShape(c, b, call.order, call.at);
    assert StaleIds(b, call.at) == set id | id in call.order;
    hide Swept, Exceeded, Rolled, BookOk;
  }

  lemma ReserveCounts(c: Calendar, b: Book, call: Call, tenant: string)
    requires Sound(c) && BookOk(c, b) && call.Reserve?
    ensures Flows(b, Step(c, b, call), tenant, Grants(c, b, call, tenant), 0)
  {
    var after := Step(c, b, call);
    var stale := StaleIds(b, call.at);
    if Requests(b, call) && Walked(b, call) {
      ReserveMap(c, b, call);
      hide Step, AnswerTo, Walked, Total, BookOk;
      DropCounts(b, stale, after, tenant);
      var r := Reservation(call.id, call.tenant, call.amount, call.at, call.at + call.ttl, false);
      TotalAdd(b.reservations - stale, r, call.id, tenant, false);
      TotalAdd(b.reservations - stale, r, call.id, tenant, true);
    } else {
      assert after == b;
      DropCounts(b, {}, after, tenant);
      assert b.reservations - {} == b.reservations;
    }
  }

  lemma ReadCounts(c: Calendar, b: Book, call: Call, tenant: string)
    requires Sound(c) && BookOk(c, b) && call.Read?
    ensures Flows(b, Step(c, b, call), tenant, 0, 0)
  {
    var after := Step(c, b, call);
    SweptShape(c, b, call.order, call.at);
    hide Swept, Total, BookOk;
    if Walked(b, call) {
      assert StaleIds(b, call.at) == set id | id in call.order;
      DropCounts(b, StaleIds(b, call.at), after, tenant);
    } else {
      DropCounts(b, {}, after, tenant);
      assert b.reservations - {} == b.reservations;
    }
  }

  lemma StepCounts(c: Calendar, b: Book, call: Call, tenant: string)
    requires Sound(c) && BookOk(c, b)
    ensures Flows(b, Step(c, b, call), tenant, Grants(c, b, call, tenant), Commits(b, call, tenant))
  {
    if call.Reserve? {
      ReserveCounts(c, b, call, tenant);
    } else if call.Read? {
      ReadCounts(c, b, call, tenant);
    } else {
      OtherCounts(c, b, call, tenant);
    }
  }

  lemma OtherCounts(c: Calendar, b: Book, call: Call, tenant: string)
    requires BookOk(c, b) && !call.Reserve? && !call.Read?
    ensures Flows(b, Step(c, b, call), tenant, 0, Commits(b, call, tenant))
  {
    var after := Step(c, b, call);
    hide Rolled, Total;
    if after.reservations.Keys == b.reservations.Keys {
      DropCounts(b, {}, after, tenant);
      assert b.reservations - {} == b.reservations;
      if after.reservations != b.reservations {
        var r := b.reservations[call.id].(committed := true);
        TotalUpdate(b.reservations, r, call.id, tenant, false);
        TotalUpdate(b.reservations, r, call.id, tenant, true);
      }
    } else {
      DropCounts(b, {call.id}, after, tenant);
    }
  }

  /** Every amount ever granted to a tenant is counted once: in an outstanding reservation, in a
      committed one, or as released. */
  lemma {:induction false} AmountsCountedOnce(c: Calendar, calls: seq<Call>, tenant: string)
    requires Sound(c)
    ensures var rs := Exec(c, calls).reservations;
      && GrantedEver(c, calls, tenant)
         == Total(rs, tenant, false) + Total(rs, tenant, true) + ReleasedEver(c, calls, tenant)
      && Total(rs, tenant, true) == CommittedEver(c, calls, tenant)
  {
    hide Step, Commits, Grants, Dropped;
    if calls != [] {
      var front, call := calls[..|calls| - 1], calls[|calls| - 1];
      AmountsCountedOnce(c, front, tenant);
      RunKeepsOk(c, front);
      StepCounts(c, Exec(c, front), call, tenant);
    }
  }
}
