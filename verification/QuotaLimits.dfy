/** The ledger's limits and balances over whole histories, with the exact conditions under which the
    wrap-around of its sums leaves them true. */
module QuotaLimits {
  import opened Wrappers
  import opened Decimal
  import opened QuotaBook
  import opened QuotaLedger
  import opened QuotaHistory

  /** The usage that the checks of a request look at. */
  function UseAt(c: Calendar, b: Book, call: Call): Usage
    requires call.Reserve?
  {
    CurrentUsage(c, Swept(c, b, call.order, call.at), call.tenant, call.at)
  }

  /** The request gets to the checks and passes them. */
  ghost predicate NewGrant(c: Calendar, b: Book, call: Call) {
    Walked(b, call) && Requests(b, call) && Exceeded(UseAt(c, b, call), b.quotas[call.tenant], call.amount).None?
  }

  // ---------- Balances ----------

  /** A grant after which what is outstanding does not fit an int64. */
  ghost predicate Overfills(c: Calendar, b: Book, call: Call) {
    NewGrant(c, b, call) && Brims(UseAt(c, b, call), call.amount)
  }

  ghost predicate RoomyRun(c: Calendar, calls: seq<Call>) {
    calls != [] ==>
      RoomyRun(c, calls[..|calls| - 1]) && !Overfills(c, Exec(c, calls[..|calls| - 1]), calls[|calls| - 1])
  }

  ghost predicate AllBalanced(b: Book) {
    forall tenant :: Balanced(b, tenant)
  }

  lemma StepKeepsBalance(c: Calendar, b: Book, call: Call)
    requires Sound(c) && BookInv(c, b) && !Overfills(c, b, call)
    ensures BookInv(c, Step(c, b, call))
  {
    hide CommitOn, RollbackOn, Swept, Enumerates, Exceeded;
    match call {
      case Configure(tenant, q, _) =>
        StepKeepsOk(c, b, call);
        var after := Step(c, b, call);
        assert forall t | Balanced(b, t) :: Balanced(after, t);
      case Reserve(id, tenant, amount, ttl, now, order) =>
        if Walked(b, call) && Requests(b, call) {
          ReserveBalance(c, b, id, tenant, amount, ttl, now, order);
        }
      case Commit(id, now) => CommitBalance(c, b, id, now);
      case Rollback(id, now) => RollbackBalance(c, b, id, now);
      case Read(_, now, order) =>
        if Walked(b, call) {
          AnyOrder(c, b, order, StaleIds(b, now), now);
        }
    }
  }

  /** Conservation: as long as no grant overfills, per tenant what is reserved is the sum of its
      uncommitted reservations and what was committed the sum of its committed ones modulo 2^64, so
      that the clamp never fires and every walk over the map has the same outcome. */
  lemma {:induction false} RunKeepsBalance(c: Calendar, calls: seq<Call>)
    requires Sound(c) && RoomyRun(c, calls)
    ensures BookInv(c, Exec(c, calls))
  {
    if calls != [] {
      RunKeepsBalance(c, calls[..|calls| - 1]);
      StepKeepsBalance(c, Exec(c, calls[..|calls| - 1]), calls[|calls| - 1]);
    }
  }

  /** What a grant does to a balanced book. */
  lemma GrantAdds(c: Calendar, b: Book, call: Call)
    requires Sound(c) && BookInv(c, b) && NewGrant(c, b, call)
    ensures var swept, after := Swept(c, b, call.order, call.at), Step(c, b, call); var u := UseAt(c, b, call);
      && BookInv(c, swept) && u.reserved == Total(swept.reservations, call.tenant, false)
      && UsageOf(after, call.tenant) == u.(reserved := Wrap64(u.reserved + call.amount), lastModified := call.at)
      && Total(after.reservations, call.tenant, false) == u.reserved + call.amount
  {
    AnyOrder(c, b, call.order, StaleIds(b, call.at), call.at);
    SweptShape(c, b, call.order, call.at);
    var swept := Swept(c, b, call.order, call.at);
    assert Balanced(swept, call.tenant);
    hide Swept, Exceeded, Enumerates, BookInv, BookOk, Total;
    var r := Reservation(call.id, call.tenant, call.amount, call.at, call.at + call.ttl, false);
    assert Step(c, b, call).reservations == swept.reservations[call.id := r];
    TotalAdd(swept.reservations, r, call.id, call.tenant, false);
  }

  /** The condition is exact: every tenant is balanced in every state of a history if and only if no
      grant in it overfills. */
  lemma {:induction false} BalancedExactly(c: Calendar, calls: seq<Call>)
    requires Sound(c)
    ensures RoomyRun(c, calls) <==> forall k | 0 <= k <= |calls| :: AllBalanced(Exec(c, calls[..k]))
  {
    hide Step, Overfills, BookOk, Balanced, AllBalanced;
    if calls != [] {
      var front, call := calls[..|calls| - 1], calls[|calls| - 1];
      var b := Exec(c, front);
      BalancedExactly(c, front);
      RunKeepsOk(c, front);
      assert forall k | 0 <= k <= |front| :: calls[..k] == front[..k];
      assert front[..|front|] == front && calls[..|calls|] == calls;
      if AllBalanced(b) {
        BalancedInv(c, b);
        if Overfills(c, b, call) {
          OverfillUnbalances(c, b, call);
        } else {
          StepKeepsBalance(c, b, call);
          InvBalanced(c, Step(c, b, call));
        }
      }
    } else {
      NewBalanced();
      assert calls[..0] == [];
    }
  }

  lemma NewBalanced()
    ensures AllBalanced(NEW)
  {
  }

  lemma BalancedInv(c: Calendar, b: Book)
    requires BookOk(c, b) && AllBalanced(b)
    ensures BookInv(c, b)
  {
  }

  lemma InvBalanced(c: Calendar, b: Book)
    requires BookInv(c, b)
    ensures AllBalanced(b)
  {
  }

  lemma OverfillUnbalances(c: Calendar, b: Book, call: Call)
    requires Sound(c) && BookInv(c, b) && Overfills(c, b, call)
    ensures !AllBalanced(Step(c, b, call))
  {
    GrantAdds(c, b, call);
    hide Step;
    assert !Balanced(Step(c, b, call), call.tenant);
  }

  // ---------- Limits ----------

  predicate SaneUse(u: Usage) {
    0 <= u.dailyUsed <= u.monthlyUsed
  }

  predicate Under(u: Usage, outstanding: int, h: Quota) {
    && u.dailyUsed + outstanding <= h.daily
    && u.monthlyUsed + outstanding <= h.monthly
    && outstanding <= h.burst
  }

  /** Used and outstanding amounts together are within the limits `h`. */
  ghost predicate WithinLimits(b: Book, h: Quota, tenant: string) {
    && SaneUse(UsageOf(b, tenant))
    && Under(UsageOf(b, tenant), Total(b.reservations, tenant, false), h)
    && (tenant in b.quotas ==> Below(b.quotas[tenant], h))
  }

  /** The call is not a request that overflows the sums and slips through the checks. */
  ghost predicate Tight(c: Calendar, b: Book, call: Call) {
    Walked(b, call) && Requests(b, call) ==> !Slips(UseAt(c, b, call), b.quotas[call.tenant], call.amount)
  }

  ghost predicate TightRun(c: Calendar, calls: seq<Call>) {
    calls != [] ==>
      TightRun(c, calls[..|calls| - 1]) && Tight(c, Exec(c, calls[..|calls| - 1]), calls[|calls| - 1])
  }

  /** A use that advances without an addition does not grow. */
  lemma RolledSane(c: Calendar, b: Book, tenant: string, now: int)
    requires Sound(c) && PeriodShown(c, b, tenant) && SaneUse(UsageOf(b, tenant))
    ensures var u, v := UsageOf(b, tenant), CurrentUsage(c, b, tenant, now);
      SaneUse(v) && v.dailyUsed <= u.dailyUsed && v.monthlyUsed <= u.monthlyUsed
  {
  }

  /** The use and the outstanding amount that a request is checked against. */
  lemma UseAtUnder(c: Calendar, b: Book, call: Call, h: Quota)
    requires Sound(c) && BookInv(c, b) && Walked(b, call) && Requests(b, call) && WithinLimits(b, h, call.tenant)
    ensures var u, swept := UseAt(c, b, call), Swept(c, b, call.order, call.at);
      && BookInv(c, swept) && SaneUse(u) && u.reserved >= 0
      && u.reserved == Total(swept.reservations, call.tenant, false) && Under(u, u.reserved, h)
  {
    AnyOrder(c, b, call.order, StaleIds(b, call.at), call.at);
    SweptShape(c, b, call.order, call.at);
    SweptShows(c, b, call.order, call.at, call.tenant);
    assert PeriodShown(c, b, call.tenant);
    RolledSane(c, b, call.tenant, call.at);
    var swept := Swept(c, b, call.order, call.at);
    assert Balanced(swept, call.tenant);
    TotalPart(b.reservations, StaleIds(b, call.at), call.tenant, false);
    assert StaleIds(b, call.at) == set id | id in call.order;
    var part := map id | id in b.reservations && id in StaleIds(b, call.at) :: b.reservations[id];
    TotalBounds(part, call.tenant, false);
    TotalBounds(swept.reservations, call.tenant, false);
    hide Swept, Enumerates, BookInv, BookOk, Total, StaleIds;
  }

  lemma GrantUnder(c: Calendar, b: Book, call: Call, h: Quota)
    requires Sound(c) && BookInv(c, b) && QuotasLegal(b) && NewGrant(c, b, call) && WithinLimits(b, h, call.tenant)
    ensures Tight(c, b, call) ==> WithinLimits(Step(c, b, call), h, call.tenant) && !Overfills(c, b, call)
    ensures !Tight(c, b, call) ==> forall q :: !WithinLimits(Step(c, b, call), q, call.tenant)
  {
    UseAtUnder(c, b, call, h);
    GrantAdds(c, b, call);
    ChecksExact(call.tenant, UseAt(c, b, call), b.quotas[call.tenant], call.amount);
    QuotasOnlyConfigured(c, b, call);
    hide Step, BookInv, UseAt, Walked, Total, Exceeded, Swept;
  }

  /** Whatever grants nothing to the tenant does not raise the sum of what it used and what it has
      outstanding. */
  lemma OtherUnder(c: Calendar, b: Book, call: Call, tenant: string, h: Quota)
    requires Sound(c) && BookInv(c, b) && WithinLimits(b, h, tenant) && Grants(c, b, call, tenant) == 0
    requires Configures(call, tenant) ==> Below(call.quota, h)
    ensures WithinLimits(Step(c, b, call), h, tenant)
  {
    var after := Step(c, b, call);
    StepAdvances(c, b, call, tenant);
    StepCounts(c, b, call, tenant);
    QuotasOnlyConfigured(c, b, call);
    assert PeriodShown(c, b, tenant);
    RolledSane(c, b, tenant, call.at);
    TotalBounds(b.reservations, tenant, false);
    TotalBounds(Dropped(b, after), tenant, false);
    assert 0 <= Commits(b, call, tenant) <= Total(b.reservations, tenant, false);
    hide Step, BookInv, BookOk, Commits, Grants, Total, Dropped;
  }

  lemma GrantsOfGrant(c: Calendar, b: Book, call: Call, tenant: string)
    ensures Grants(c, b, call, tenant) != 0 ==> NewGrant(c, b, call) && call.tenant == tenant
  {
    hide Swept, Exceeded, Walked;
  }

  /** Against the highest limits ever configured, and as long as no request slips through, the limits
      hold in every state: through commits, expiry and rollover, and even if the clock steps back.
      The book is then balanced too. */
  lemma {:induction false} LimitsHold(c: Calendar, calls: seq<Call>)
    requires Sound(c) && TightRun(c, calls)
    ensures BookInv(c, Exec(c, calls)) && RoomyRun(c, calls)
    ensures forall tenant :: WithinLimits(Exec(c, calls), Highest(calls, tenant), tenant)
  {
    if calls == [] {
      RunKeepsBalance(c, calls);
    } else {
      hide Step, Overfills, BookInv, BookOk, WithinLimits, Tight, Grants, NewGrant;
      var front, call := calls[..|calls| - 1], calls[|calls| - 1];
      var b := Exec(c, front);
      LimitsHold(c, front);
      RunKeepsLegal(c, front);
      if NewGrant(c, b, call) {
        GrantUnder(c, b, call, Highest(front, call.tenant));
      } else {
        NoOverfill(c, b, call);
      }
      StepKeepsBalance(c, b, call);
      forall tenant
        ensures WithinLimits(Exec(c, calls), Highest(calls, tenant), tenant)
      {
        GrantsOfGrant(c, b, call, tenant);
        if Grants(c, b, call, tenant) == 0 {
          LimitsGrow(b, Highest(front, tenant), Highest(calls, tenant), tenant);
          OtherUnder(c, b, call, tenant, Highest(calls, tenant));
        }
      }
    }
  }

  lemma NoOverfill(c: Calendar, b: Book, call: Call)
    requires !NewGrant(c, b, call)
    ensures !Overfills(c, b, call)
  {
  }

  lemma LimitsGrow(b: Book, h: Quota, higher: Quota, tenant: string)
    requires WithinLimits(b, h, tenant) && Below(h, higher)
    ensures WithinLimits(b, higher, tenant)
  {
  }

  ghost predicate AllWithin(c: Calendar, calls: seq<Call>) {
    forall tenant :: WithinLimits(Exec(c, calls), Highest(calls, tenant), tenant)
  }

  /** The condition is exact: the limits hold in every state of a history if and only if no request
      in it slips through the checks by overflowing them. */
  lemma {:induction false} LimitsHoldExactly(c: Calendar, calls: seq<Call>)
    requires Sound(c)
    ensures TightRun(c, calls) <==> forall k | 0 <= k <= |calls| :: AllWithin(c, calls[..k])
  {
    if TightRun(c, calls) {
      forall k | 0 <= k <= |calls|
        ensures AllWithin(c, calls[..k])
      {
        TightPrefix(c, calls, k);
        LimitsHold(c, calls[..k]);
      }
    } else {
      FirstSlip(c, calls);
    }
  }

  lemma {:induction false} TightPrefix(c: Calendar, calls: seq<Call>, k: nat)
    requires k <= |calls| && TightRun(c, calls)
    ensures TightRun(c, calls[..k])
  {
    if k == |calls| {
      assert calls[..k] == calls;
    } else {
      TightPrefix(c, calls[..|calls| - 1], k);
      assert calls[..|calls| - 1][..k] == calls[..k];
    }
  }

  lemma {:induction false} FirstSlip(c: Calendar, calls: seq<Call>)
    requires Sound(c) && !TightRun(c, calls)
    ensures exists k :: 0 <= k <= |calls| && !AllWithin(c, calls[..k])
  {
    hide Step, WithinLimits, BookInv, NewGrant;
    var front, call := calls[..|calls| - 1], calls[|calls| - 1];
    if TightRun(c, front) {
      var b := Exec(c, front);
      LimitsHold(c, front);
      RunKeepsLegal(c, front);
      SlipIsGrant(c, b, call, Highest(front, call.tenant));
      GrantUnder(c, b, call, Highest(front, call.tenant));
      assert !WithinLimits(Exec(c, calls), Highest(calls, call.tenant), call.tenant);
      assert calls[..|calls|] == calls && !AllWithin(c, calls[..|calls|]);
    } else {
      FirstSlip(c, front);
      var k :| 0 <= k <= |front| && !AllWithin(c, front[..k]);
      assert front[..k] == calls[..k];
    }
  }

  /** A request that slips through is granted. */
  lemma SlipIsGrant(c: Calendar, b: Book, call: Call, h: Quota)
    requires Sound(c) && BookInv(c, b) && QuotasLegal(b) && !Tight(c, b, call) && WithinLimits(b, h, call.tenant)
    ensures NewGrant(c, b, call)
  {
    UseAtUnder(c, b, call, h);
    ChecksExact(call.tenant, UseAt(c, b, call), b.quotas[call.tenant], call.amount);
    hide BookInv, UseAt, Walked, Exceeded, Swept;
  }

  // ---------- Calendar periods ----------

  /** Within any one day a tenant commits at most its daily limit, and within any one month at most
      its monthly limit (the highest ever configured; the current one if never lowered). */
  lemma {:induction false} PeriodBound(c: Calendar, calls: seq<Call>, tenant: string, daily: bool, now: int,
                                       period: int)
    requires Sound(c) && InOrder(c, daily, calls, now) && TightRun(c, calls)
    ensures CommittedIn(c, calls, tenant, daily, period) <= Limit(Highest(calls, tenant), daily)
  {
    hide Step, Commits, Tight;
    if calls != [] {
      var front, call := calls[..|calls| - 1], calls[|calls| - 1];
      PeriodBound(c, front, tenant, daily, call.at, period);
      if Period(c, daily, call.at) == period && Commits(Exec(c, front), call, tenant) != 0 {
        LimitsHold(c, front);
        CommitWithin(c, front, call, tenant, daily);
      }
    }
  }

  function Limit(h: Quota, daily: bool): int {
    if daily then h.daily else h.monthly
  }

  /** One more commit stays within the limit of its period. */
  lemma CommitWithin(c: Calendar, front: seq<Call>, call: Call, tenant: string, daily: bool)
    requires var b := Exec(c, front);
      && Sound(c) && InOrder(c, daily, front, call.at) && BookInv(c, b)
      && WithinLimits(b, Highest(front, tenant), tenant) && Commits(b, call, tenant) != 0
    requires CommittedIn(c, front, tenant, daily, Period(c, daily, call.at)) <= Limit(Highest(front, tenant), daily)
    ensures CommittedIn(c, front, tenant, daily, Period(c, daily, call.at)) + Commits(Exec(c, front), call, tenant)
            <= Limit(Highest(front, tenant), daily)
  {
    var b := Exec(c, front);
    CurrentMirrors(c, front, tenant, daily, call.at);
    CommittedNotNegative(c, front, tenant, daily, Period(c, daily, call.at));
    assert PeriodShown(c, b, tenant);
    RolledSane(c, b, tenant, call.at);
    TotalBounds(b.reservations, tenant, false);
    assert Commits(b, call, tenant) <= Total(b.reservations, tenant, false);
    hide Exec, CommittedIn, BookInv, BookOk, Commits, Total;
  }

  lemma OneMoreCall(c: Calendar, calls: seq<Call>, call: Call, tenant: string, daily: bool, period: int)
    ensures var b, more := Exec(c, calls), calls + [call];
      && Exec(c, more) == Step(c, b, call)
      && (TightRun(c, calls) && Tight(c, b, call) ==> TightRun(c, more))
      && CommittedIn(c, more, tenant, daily, period)
         == CommittedIn(c, calls, tenant, daily, period)
            + (if Period(c, daily, call.at) == period then Commits(b, call, tenant) else 0)
      && Highest(more, tenant)
         == if Configures(call, tenant) then MaxQuota(Highest(calls, tenant), call.quota) else Highest(calls, tenant)
  {
    hide Step, Tight, Commits, Configures, MaxQuota, Period;
    assert (calls + [call])[..|calls|] == calls;
  }

  /** Nothing is stale: the sweep changes nothing. */
  lemma ReserveFresh(c: Calendar, b: Book, call: Call)
    requires Requests(b, call) && StaleIds(b, call.at) == {} && call.order == []
    requires Exceeded(CurrentUsage(c, b, call.tenant, call.at), b.quotas[call.tenant], call.amount).None?
    ensures Within(CurrentUsage(c, b, call.tenant, call.at), b.quotas[call.tenant], call.amount) ==> Tight(c, b, call)
    ensures var r := Reservation(call.id, call.tenant, call.amount, call.at, call.at + call.ttl, false);
      && AnswerTo(c, b, call) == Answer(Reserved(b, CurrentUsage(c, b, call.tenant, call.at), r), Granted(r))
      && Step(c, b, call) == AnswerTo(c, b, call).book
  {
  }

  // ---------- A clock that steps back ----------

  /** A limit of 10 per day, or per month. */
  function Ten(daily: bool): Quota {
    Quota(10, if daily then 100 else 10, 10)
  }

  function UseTen(tenant: string, daily: bool, id: string, at: int): seq<Call> {
    [] + [Configure(tenant, Ten(daily), at)] + [Reserve(id, tenant, 10, 0, at, [])] + [Commit(id, at)]
  }

  lemma TenUsed(c: Calendar, tenant: string, daily: bool, id: string, at: int)
    requires Sound(c) && tenant != "" && id != ""
    ensures var calls, period := UseTen(tenant, daily, id, at), Period(c, daily, at);
      && TightRun(c, calls) && CommittedIn(c, calls, tenant, daily, period) == 10
      && Highest(calls, tenant) == Ten(daily)
      && var b := Exec(c, calls);
      && b.quotas == map[tenant := Ten(daily)]
      && b.usage == map[tenant := Usage(tenant, Some(c.day(at)), Some(c.month(at)), 10, 10, 0, 10, at)]
      && b.reservations == map[id := Reservation(id, tenant, 10, at, at, true)]
  {
    var configure, reserve := Configure(tenant, Ten(daily), at), Reserve(id, tenant, 10, 0, at, []);
    var period := Period(c, daily, at);
    OneMoreCall(c, [], configure, tenant, daily, period);
    var b := Exec(c, [] + [configure]);
    assert b == Book(map[tenant := Ten(daily)], map[], map[]);
    ReserveFresh(c, b, reserve);
    hide ReserveOn, Swept, TightRun, Exec, CommittedIn, Highest;
    OneMoreCall(c, [] + [configure], reserve, tenant, daily, period);
    OneMoreCall(c, [] + [configure] + [reserve], Commit(id, at), tenant, daily, period);
  }

  lemma PeriodTurned(c: Calendar, tenant: string, daily: bool, id1: string, id2: string, at: int, later: int)
    requires Sound(c) && tenant != "" && id1 != "" && id2 != "" && id1 != id2
    requires at < later && Period(c, daily, at) != Period(c, daily, later)
    ensures var calls := UseTen(tenant, daily, id1, at) + [Reserve(id2, tenant, 1, 0, later, [])];
      var period := Period(c, daily, at);
      && TightRun(c, calls) && CommittedIn(c, calls, tenant, daily, period) == 10
      && Highest(calls, tenant) == Ten(daily)
      && var b := Exec(c, calls);
      && b.quotas == map[tenant := Ten(daily)]
      && tenant in b.usage && b.usage[tenant].reserved == 1
      && Within(CurrentUsage(c, b, tenant, at), Ten(daily), 9)
      && Exceeded(CurrentUsage(c, b, tenant, at), Ten(daily), 9).None?
      && b.reservations == map[id1 := Reservation(id1, tenant, 10, at, at, true),
                               id2 := Reservation(id2, tenant, 1, later, later, false)]
  {
    TenUsed(c, tenant, daily, id1, at);
    var calls := UseTen(tenant, daily, id1, at);
    var next := Reserve(id2, tenant, 1, 0, later, []);
    hide UseTen, TightRun, Exec, CommittedIn, Highest;
    assert c.day(at) != c.day(later);
    ReserveFresh(c, Exec(c, calls), next);
    hide ReserveOn, Swept;
    OneMoreCall(c, calls, next, tenant, daily, Period(c, daily, at));
  }

  /** The condition on the clock is exact: for any two instants in different days, or months, a clock
      that comes back to the earlier one breaks the bound, since that period starts again from
      zero. */
  lemma ClockStepsBack(c: Calendar, tenant: string, daily: bool, id1: string, id2: string, id3: string,
                       at: int, later: int)
    requires Sound(c) && tenant != "" && id1 != "" && id2 != "" && id3 != ""
    requires id1 != id2 && id1 != id3 && id2 != id3
    requires at < later && Period(c, daily, at) != Period(c, daily, later)
    ensures exists calls ::
      && TightRun(c, calls)
      && CommittedIn(c, calls, tenant, daily, Period(c, daily, at))
         > var h := Highest(calls, tenant); if daily then h.daily else h.monthly
  {
    hide UseTen, TightRun, Exec, CommittedIn, Highest, ReserveOn, Swept, Exceeded, Sound, Within, Slips;
    PeriodTurned(c, tenant, daily, id1, id2, at, later);
    var calls := UseTen(tenant, daily, id1, at) + [Reserve(id2, tenant, 1, 0, later, [])];
    var back, commit := Reserve(id3, tenant, 9, 0, at, []), Commit(id3, at);
    assert StaleIds(Exec(c, calls), at) == {};
    ReserveFresh(c, Exec(c, calls), back);
    OneMoreCall(c, calls, back, tenant, daily, Period(c, daily, at));
    assert Exec(c, calls + [back]).reservations[id3] == Reservation(id3, tenant, 9, at, at, false);
    OneMoreCall(c, calls + [back], commit, tenant, daily, Period(c, daily, at));
  }

  // ---------- Overflow ----------

  function Overflowing(tenant: string, q: Quota, id1: string, id2: string, at: int): seq<Call> {
    [] + [Configure(tenant, q, at)] + [Reserve(id1, tenant, 1, 0, at, [])]
    + [Reserve(id2, tenant, MAX_INT64, 0, at, [])]
  }

  /** A tenant's usage at `at` with nothing used or committed. */
  function OnlyReserved(c: Calendar, tenant: string, reserved: Int64, at: int): Usage {
    Usage(tenant, Some(c.day(at)), Some(c.month(at)), 0, 0, reserved, 0, at)
  }

  function Open(tenant: string, id: string, amount: Int64, at: int): Reservation {
    Reservation(id, tenant, amount, at, at, false)
  }

  lemma OverflowedBook(c: Calendar, tenant: string, q: Quota, id1: string, id2: string, at: int)
    requires LegalQuota(tenant, q) && id1 != "" && id2 != "" && id1 != id2
    ensures Exec(c, Overflowing(tenant, q, id1, id2, at))
            == Book(map[tenant := q], map[tenant := OnlyReserved(c, tenant, MIN_INT64, at)],
                    map[id1 := Open(tenant, id1, 1, at), id2 := Open(tenant, id2, MAX_INT64, at)])
  {
    var configure, one, last := Configure(tenant, q, at), Reserve(id1, tenant, 1, 0, at, []),
        Reserve(id2, tenant, MAX_INT64, 0, at, []);
    OneMoreCall(c, [], configure, tenant, true, 0);
    var b := Exec(c, [] + [configure]);
    assert b == Book(map[tenant := q], map[], map[]);
    ReserveFresh(c, b, one);
    hide ReserveOn, Swept, Exec, Highest;
    OneMoreCall(c, [] + [configure], one, tenant, true, 0);
    var b1 := Exec(c, [] + [configure] + [one]);
    assert b1 == Book(map[tenant := q], map[tenant := OnlyReserved(c, tenant, 1, at)],
                      map[id1 := Open(tenant, id1, 1, at)]);
    ReserveFresh(c, b1, last);
    OneMoreCall(c, [] + [configure] + [one], last, tenant, true, 0);
  }

  lemma TotalOfTwo(tenant: string, id1: string, id2: string, r1: Reservation, r2: Reservation, committed: bool)
    requires id1 != id2 && Counts(r1, tenant, committed) && Counts(r2, tenant, committed)
    ensures Total(map[id1 := r1, id2 := r2], tenant, committed) == r1.amount + r2.amount
  {
    TotalAdd(map[], r1, id1, tenant, committed);
    TotalAdd(map[id1 := r1], r2, id2, tenant, committed);
    assert map[id1 := r1][id2 := r2] == map[id1 := r1, id2 := r2];
    assert map[][id1 := r1] == map[id1 := r1];
  }

  /** Slipping requests exist for every quota: with 1 outstanding, a request for the greatest int64 is
      granted, and the outstanding reservations are beyond every limit, while the ledger shows the
      least int64 as reserved. */
  lemma OverflowPasses(c: Calendar, tenant: string, q: Quota, id1: string, id2: string, at: int)
    requires LegalQuota(tenant, q) && id1 != "" && id2 != "" && id1 != id2
    ensures var b := Exec(c, Overflowing(tenant, q, id1, id2, at));
      && Total(b.reservations, tenant, false) == MAX_INT64 + 1
      && UsageOf(b, tenant).reserved == MIN_INT64
      && forall h: Quota :: !WithinLimits(b, h, tenant)
  {
    OverflowedBook(c, tenant, q, id1, id2, at);
    TotalOfTwo(tenant, id1, id2, Open(tenant, id1, 1, at), Open(tenant, id2, MAX_INT64, at), false);
    hide Exec;
  }

  /** After that the ledger's bookkeeping is lost: with a third reservation of 5, the release of the
      first one makes the clamp fire, and nothing shows as reserved while more than the greatest
      int64 is outstanding. */
  lemma ClampFires(c: Calendar, tenant: string, q: Quota, id1: string, id2: string, id3: string, at: int)
    requires LegalQuota(tenant, q) && id1 != "" && id2 != "" && id3 != ""
    requires id1 != id2 && id1 != id3 && id2 != id3
    ensures var calls := Overflowing(tenant, q, id1, id2, at) + [Reserve(id3, tenant, 5, 0, at, [])]
                         + [Rollback(id1, at)];
      var b := Exec(c, calls);
      Total(b.reservations, tenant, false) == MAX_INT64 + 5 && UsageOf(b, tenant).reserved == 0
  {
    OverflowedBook(c, tenant, q, id1, id2, at);
    var calls := Overflowing(tenant, q, id1, id2, at);
    var third, release := Reserve(id3, tenant, 5, 0, at, []), Rollback(id1, at);
    ReserveFresh(c, Exec(c, calls), third);
    hide Exec, Overflowing, ReserveOn, Swept, Highest;
    OneMoreCall(c, calls, third, tenant, true, 0);
    OneMoreCall(c, calls + [third], release, tenant, true, 0);
    var b := Exec(c, calls + [third] + [release]);
    assert b.reservations == map[id2 := Open(tenant, id2, MAX_INT64, at), id3 := Open(tenant, id3, 5, at)];
    TotalOfTwo(tenant, id2, id3, Open(tenant, id2, MAX_INT64, at), Open(tenant, id3, 5, at), false);
  }

  /** And once both reservations are committed, `Usage` reports the least int64 as used. */
  lemma UsageTurnsNegative(c: Calendar, tenant: string, q: Quota, id1: string, id2: string, at: int)
    requires LegalQuota(tenant, q) && id1 != "" && id2 != "" && id1 != id2
    ensures var b := Exec(c, Overflowing(tenant, q, id1, id2, at) + [Commit(id1, at)] + [Commit(id2, at)]);
      var u := CurrentUsage(c, Swept(c, b, [], at), tenant, at);
      StaleIds(b, at) == {} && u.dailyUsed == MIN_INT64 && u.monthlyUsed == MIN_INT64
  {
    OverflowedBook(c, tenant, q, id1, id2, at);
    var calls := Overflowing(tenant, q, id1, id2, at);
    OneMoreCall(c, calls, Commit(id1, at), tenant, true, 0);
    OneMoreCall(c, calls + [Commit(id1, at)], Commit(id2, at), tenant, true, 0);
    hide Exec, Overflowing;
  }
}
