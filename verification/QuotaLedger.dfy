/** The operations of the quota ledger: as functions on books, and as methods on its maps. */
module QuotaLedger {
  import opened Wrappers
  import opened Decimal
  import opened QuotaBook

  datatype Refusal =
    | BadRequest | NotConfigured | DailyExceeded | MonthlyExceeded | BurstExceeded
    | NotFound | ReservationExpired | AlreadyCommitted

  datatype Reply = Done | Granted(reservation: Reservation) | Refused(why: Refusal)

  datatype Answer = Answer(book: Book, reply: Reply)

  predicate LegalQuota(tenant: string, q: Quota) {
    tenant != "" && q.daily >= 1 && q.monthly >= q.daily && q.burst >= 1
  }

  function Configured(b: Book, tenant: string, q: Quota): Answer {
    if LegalQuota(tenant, q) then Answer(b.(quotas := b.quotas[tenant := q]), Done)
    else Answer(b, Refused(BadRequest))
  }

  /** The three checks, with the wrap-around of their int64 sums. */
  function Exceeded(u: Usage, q: Quota, amount: int): Option<Refusal> {
    if Wrap64(u.dailyUsed + u.reserved + amount) > q.daily then Some(DailyExceeded)
    else if Wrap64(u.monthlyUsed + u.reserved + amount) > q.monthly then Some(MonthlyExceeded)
    else if Wrap64(u.reserved + amount) > q.burst then Some(BurstExceeded)
    else None
  }

  function Reserved(b: Book, u: Usage, r: Reservation): Book {
    b.(usage := b.usage[r.tenantId := u.(reserved := Wrap64(u.reserved + r.amount), lastModified := r.createdAt)],
       reservations := b.reservations[r.id := r])
  }

  /** The request is well-formed and for a new reservation of a tenant with a quota. */
  predicate Checked(b: Book, id: string, tenant: string, amount: int) {
    id != "" && tenant != "" && amount >= 1 && id !in b.reservations && tenant in b.quotas
  }

  /** Asking again for a known ID yields the reservation as it is, whatever else is asked. A refusal
      by a check keeps the expiries that preceded it. */
  function ReserveOn(c: Calendar, b: Book, id: string, tenant: string, amount: Int64, ttl: int, now: int,
                     order: seq<string>): Answer
  {
    if id == "" || tenant == "" || amount < 1 then Answer(b, Refused(BadRequest))
    else if id in b.reservations then Answer(b, Granted(b.reservations[id]))
    else if tenant !in b.quotas then Answer(b, Refused(NotConfigured))
    else
      var swept := Swept(c, b, order, now);
      var u := CurrentUsage(c, swept, tenant, now);
      var exceeded := Exceeded(u, b.quotas[tenant], amount);
      if exceeded.Some? then Answer(swept, Refused(exceeded.value))
      else
        var r := Reservation(id, tenant, amount, now, now + ttl, false);
        Answer(Reserved(swept, u, r), Granted(r))
  }

  function Committed(c: Calendar, b: Book, r: Reservation, now: int): Book {
    var u := CurrentUsage(c, b, r.tenantId, now);
    b.(usage := b.usage[r.tenantId := u.(reserved := Wrap64(u.reserved - r.amount),
                                         dailyUsed := Wrap64(u.dailyUsed + r.amount),
                                         monthlyUsed := Wrap64(u.monthlyUsed + r.amount),
                                         committed := Wrap64(u.committed + r.amount), lastModified := now)],
       reservations := b.reservations[r.id := r.(committed := true)])
  }

  function CommitOn(c: Calendar, b: Book, id: string, now: int): Answer {
    if id !in b.reservations then Answer(b, Refused(NotFound))
    else
      var r := b.reservations[id];
      if r.committed then Answer(b, Done)
      else if now > r.expiresAt then Answer(Released(c, b, r, now), Refused(ReservationExpired))
      else Answer(Committed(c, b, r, now), Done)
  }

  function RollbackOn(c: Calendar, b: Book, id: string, now: int): Answer {
    if id !in b.reservations then Answer(b, Refused(NotFound))
    else if b.reservations[id].committed then Answer(b, Refused(AlreadyCommitted))
    else Answer(Released(c, b, b.reservations[id], now), Done)
  }

  // ---------- What every operation keeps ----------

  lemma ReservedOk(c: Calendar, b: Book, r: Reservation)
    requires BookOk(c, b) && r.id !in b.reservations && r.amount >= 1
    ensures BookOk(c, Reserved(b, CurrentUsage(c, b, r.tenantId, r.createdAt), r))
  {
    var after := Reserved(b, CurrentUsage(c, b, r.tenantId, r.createdAt), r);
    forall tenant
      ensures PeriodShown(c, after, tenant)
    {
      assert PeriodShown(c, b, tenant);
    }
  }

  lemma ReserveKeepsOk(c: Calendar, b: Book, id: string, tenant: string, amount: Int64, ttl: int, now: int,
                       order: seq<string>)
    requires Sound(c) && BookOk(c, b)
    ensures BookOk(c, ReserveOn(c, b, id, tenant, amount, ttl, now, order).book)
  {
    hide BookOk, Swept, Rolled, Exceeded;
    SweptShape(c, b, order, now);
    if Checked(b, id, tenant, amount) {
      ReservedOk(c, Swept(c, b, order, now), Reservation(id, tenant, amount, now, now + ttl, false));
    }
  }

  lemma CommittedOk(c: Calendar, b: Book, r: Reservation, now: int)
    requires BookOk(c, b) && r.id in b.reservations && b.reservations[r.id] == r
    ensures BookOk(c, Committed(c, b, r, now))
  {
    var after := Committed(c, b, r, now);
    forall tenant
      ensures PeriodShown(c, after, tenant)
    {
      assert PeriodShown(c, b, tenant);
    }
  }

  lemma CommitKeepsOk(c: Calendar, b: Book, id: string, now: int)
    requires BookOk(c, b)
    ensures BookOk(c, CommitOn(c, b, id, now).book)
  {
    hide BookOk;
    if id in b.reservations {
      KeyedUnder(c, b, id);
      ReleasedOk(c, b, id, now);
      CommittedOk(c, b, b.reservations[id], now);
    }
  }

  lemma KeyedUnder(c: Calendar, b: Book, id: string)
    requires BookOk(c, b) && id in b.reservations
    ensures b.reservations[id].id == id && b.reservations[id].tenantId in b.usage
  {
  }

  /** A walk over the reservations has released the stale ones but for those in `rest`. */
  ghost predicate Walking(b: Book, rest: set<string>, order: seq<string>, now: int) {
    Enumerates(order, StaleIds(b, now) - rest) && rest <= b.reservations.Keys
  }

  lemma WalkStarts(c: Calendar, b: Book, now: int)
    ensures Walking(b, b.reservations.Keys, [], now) && Swept(c, b, [], now) == b
  {
  }

  lemma WalkGoesOn(c: Calendar, b: Book, rest: set<string>, order: seq<string>, id: string, now: int)
    requires Sound(c) && BookOk(c, b) && Walking(b, rest, order, now) && id in rest
    ensures var swept := Swept(c, b, order, now);
      && id in swept.reservations && swept.reservations[id] == b.reservations[id]
      && (if Stale(b.reservations[id], now) then
            && Walking(b, rest - {id}, order + [id], now)
            && Swept(c, b, order + [id], now) == Released(c, swept, swept.reservations[id], now)
          else Walking(b, rest - {id}, order, now))
  {
    SweptShape(c, b, order, now);
    OneMoreSwept(c, b, order, id, now);
    var done := StaleIds(b, now) - rest;
    if Stale(b.reservations[id], now) {
      OneMoreListed(order, done, id);
      assert StaleIds(b, now) - (rest - {id}) == done + {id};
    } else {
      assert StaleIds(b, now) - (rest - {id}) == done;
    }
  }

  lemma WalkEnds(b: Book, order: seq<string>, now: int)
    requires Walking(b, {}, order, now)
    ensures Enumerates(order, StaleIds(b, now))
  {
    assert StaleIds(b, now) - {} == StaleIds(b, now);
  }

  lemma SweptLeaves(c: Calendar, b: Book, order: seq<string>, now: int)
    requires Sound(c) && BookOk(c, b) && Enumerates(order, StaleIds(b, now))
    ensures forall id :: id in Swept(c, b, order, now).reservations <==>
              id in b.reservations && (b.reservations[id].committed || now <= b.reservations[id].expiresAt)
  {
    SweptShape(c, b, order, now);
  }

  lemma RollbackKeepsOk(c: Calendar, b: Book, id: string, now: int)
    requires BookOk(c, b)
    ensures BookOk(c, RollbackOn(c, b, id, now).book)
  {
    hide BookOk;
    if id in b.reservations {
      ReleasedOk(c, b, id, now);
    }
  }

  // ---------- What keeps the book balanced ----------

  /** The sum of what is outstanding does not fit an int64. */
  predicate Brims(u: Usage, amount: int) {
    u.reserved + amount > MAX_INT64
  }

  lemma ReservedBalance(c: Calendar, b: Book, r: Reservation)
    requires Sound(c) && BookInv(c, b) && r.id !in b.reservations && r.amount >= 1 && !r.committed
    requires !Brims(UsageOf(b, r.tenantId), r.amount)
    ensures BookInv(c, Reserved(b, CurrentUsage(c, b, r.tenantId, r.createdAt), r))
  {
    var after := Reserved(b, CurrentUsage(c, b, r.tenantId, r.createdAt), r);
    ReservedOk(c, b, r);
    forall tenant
      ensures Balanced(after, tenant)
    {
      assert Balanced(b, tenant);
      TotalAdd(b.reservations, r, r.id, tenant, false);
      TotalAdd(b.reservations, r, r.id, tenant, true);
      TotalBounds(b.reservations, tenant, false);
    }
  }

  lemma ReserveBalance(c: Calendar, b: Book, id: string, tenant: string, amount: Int64, ttl: int, now: int,
                       order: seq<string>)
    requires Sound(c) && BookInv(c, b) && Enumerates(order, StaleIds(b, now))
    requires Checked(b, id, tenant, amount) && ReserveOn(c, b, id, tenant, amount, ttl, now, order).reply.Granted? ==>
               !Brims(UsageOf(Swept(c, b, order, now), tenant), amount)
    ensures BookInv(c, ReserveOn(c, b, id, tenant, amount, ttl, now, order).book)
  {
    hide Swept, Exceeded;
    AnyOrder(c, b, order, StaleIds(b, now), now);
    SweptShape(c, b, order, now);
    hide BookInv, BookOk;
    if Checked(b, id, tenant, amount) && ReserveOn(c, b, id, tenant, amount, ttl, now, order).reply.Granted? {
      ReservedBalance(c, Swept(c, b, order, now), Reservation(id, tenant, amount, now, now + ttl, false));
    }
  }

  lemma CommittedBalance(c: Calendar, b: Book, r: Reservation, now: int)
    requires Sound(c) && BookInv(c, b) && r.id in b.reservations && b.reservations[r.id] == r && !r.committed
    ensures BookInv(c, Committed(c, b, r, now))
  {
    var after := Committed(c, b, r, now);
    CommittedOk(c, b, r, now);
    ClampNeverFires(c, b, r.id, now);
    forall tenant
      ensures Balanced(after, tenant)
    {
      assert Balanced(b, tenant);
      TotalUpdate(b.reservations, r.(committed := true), r.id, tenant, false);
      TotalUpdate(b.reservations, r.(committed := true), r.id, tenant, true);
      WrapTwice(Total(b.reservations, tenant, true), r.amount);
    }
  }

  lemma CommitBalance(c: Calendar, b: Book, id: string, now: int)
    requires Sound(c) && BookInv(c, b)
    ensures BookInv(c, CommitOn(c, b, id, now).book)
  {
    if id in b.reservations && !b.reservations[id].committed {
      var r := b.reservations[id];
      if now > r.expiresAt {
        ReleaseKeepsInv(c, b, id, now);
      } else {
        CommittedBalance(c, b, r, now);
      }
    }
  }

  lemma RollbackBalance(c: Calendar, b: Book, id: string, now: int)
    requires Sound(c) && BookInv(c, b)
    ensures BookInv(c, RollbackOn(c, b, id, now).book)
  {
    if id in b.reservations && !b.reservations[id].committed {
      ReleaseKeepsInv(c, b, id, now);
    }
  }

  // ---------- The checks and their int64 sums ----------

  /** The request is within all three limits, in unbounded arithmetic. */
  predicate Within(u: Usage, q: Quota, amount: int) {
    && u.dailyUsed + u.reserved + amount <= q.daily
    && u.monthlyUsed + u.reserved + amount <= q.monthly
    && u.reserved + amount <= q.burst
  }

  /** One check lets a sum pass that is within its limit, or that does not fit an int64. */
  predicate Passes(sum: int, limit: Int64) {
    sum <= limit || sum > MAX_INT64
  }

  /** The request slips through: the largest sum does not fit, and every smaller sum that fits is
      within its limit. */
  predicate Slips(u: Usage, q: Quota, amount: int) {
    && u.monthlyUsed + u.reserved + amount > MAX_INT64
    && Passes(u.dailyUsed + u.reserved + amount, q.daily)
    && Passes(u.reserved + amount, q.burst)
  }

  /** Exactly which requests the checks let pass: those within the limits, and those that slip
      through. */
  lemma ChecksExact(tenant: string, u: Usage, q: Quota, amount: Int64)
    requires 0 <= u.dailyUsed <= u.monthlyUsed && u.reserved >= 0 && amount >= 1
    requires u.monthlyUsed + u.reserved <= MAX_INT64 && LegalQuota(tenant, q)
    ensures Exceeded(u, q, amount).None? <==>
            && Passes(u.dailyUsed + u.reserved + amount, q.daily)
            && Passes(u.monthlyUsed + u.reserved + amount, q.monthly)
            && Passes(u.reserved + amount, q.burst)
    ensures Exceeded(u, q, amount).None? <==> Within(u, q, amount) || Slips(u, q, amount)
    ensures !(Within(u, q, amount) && Slips(u, q, amount))
  {
  }

  class Ledger {
    const calendar: Calendar
    var quotas: map<string, Quota>
    var usage: map<string, Usage>
    var reservations: map<string, Reservation>

    function State(): Book
      reads this
    {
      Book(quotas, usage, reservations)
    }

    ghost predicate Valid()
      reads this
    {
      Sound(calendar) && BookOk(calendar, State())
    }

    constructor (calendar: Calendar)
      requires Sound(calendar)
      ensures Valid() && this.calendar == calendar && State() == NEW
    {
      this.calendar := calendar;
      quotas, usage, reservations := map[], map[], map[];
    }

    method Configure(tenant: string, q: Quota) returns (reply: Reply)
      requires Valid()
      modifies this
      ensures Valid() && Answer(State(), reply) == Configured(old(State()), tenant, q)
    {
      if tenant == "" || q.daily < 1 || q.monthly < q.daily || q.burst < 1 {
        return Refused(BadRequest);
      }
      quotas := quotas[tenant := q];
      assert forall t | PeriodShown(calendar, old(State()), t) :: PeriodShown(calendar, State(), t);
      return Done;
    }

    /** `currentUsageLocked`. */
    method Current(tenant: string, now: int) returns (u: Usage)
      ensures u == CurrentUsage(calendar, State(), tenant, now)
    {
      u := if tenant in usage then usage[tenant] else NO_USAGE;
      var day, month := Some(calendar.day(now)), Some(calendar.month(now));
      if u.day != day {
        u := u.(dailyUsed := 0, day := day);
      }
      if u.month != month {
        u := u.(monthlyUsed := 0, month := month);
      }
      u := u.(tenantId := tenant);
    }

    /** One reservation leaves. */
    method Release(id: string, now: int)
      requires Valid() && id in reservations
      modifies this
      ensures Valid() && State() == Released(calendar, old(State()), old(reservations)[id], now)
    {
      hide BookOk;
      KeyedUnder(calendar, State(), id);
      ReleasedOk(calendar, State(), id, now);
      var r := reservations[id];
      var u := Current(r.tenantId, now);
      var left := Wrap64(u.reserved - r.amount);
      if left < 0 {
        left := 0;
      }
      usage := usage[r.tenantId := u.(reserved := left, lastModified := now)];
      reservations := reservations - {r.id};
    }

    /** The stale reservations are released one by one, in the order in which the map yields them. */
    method Expire(now: int) returns (ghost order: seq<string>)
      requires Valid()
      modifies this
      ensures Valid() && Enumerates(order, StaleIds(old(State()), now))
      ensures State() == Swept(calendar, old(State()), order, now)
      ensures forall id :: id in reservations <==>
                id in old(reservations) && (old(reservations)[id].committed || now <= old(reservations)[id].expiresAt)
    {
      hide Swept, Enumerates, Released, Walking, StaleIds, BookOk;
      ghost var start := State();
      order := [];
      WalkStarts(calendar, start, now);
      var rest := reservations.Keys;
      while rest != {}
        invariant Valid() && State() == Swept(calendar, start, order, now) && Walking(start, rest, order, now)
        decreases |rest|
      {
        var id :| id in rest;
        WalkGoesOn(calendar, start, rest, order, id, now);
        rest := rest - {id};
        if !reservations[id].committed && now > reservations[id].expiresAt {
          Release(id, now);
          order := order + [id];
        }
      }
      WalkEnds(start, order, now);
      SweptLeaves(calendar, start, order, now);
    }

    method Reserve(id: string, tenant: string, amount: Int64, ttl: int, now: int)
      returns (reply: Reply, ghost order: seq<string>)
      requires Valid()
      modifies this
      ensures Valid()
      ensures Answer(State(), reply) == ReserveOn(calendar, old(State()), id, tenant, amount, ttl, now, order)
      ensures Checked(old(State()), id, tenant, amount) ==> Enumerates(order, StaleIds(old(State()), now))
    {
      hide BookOk, Swept, CurrentUsage, StaleIds, Enumerates;
      order := [];
      if id == "" || tenant == "" || amount < 1 {
        reply := Refused(BadRequest);
        return;
      }
      if id in reservations {
        reply := Granted(reservations[id]);
        return;
      }
      if tenant !in quotas {
        reply := Refused(NotConfigured);
        return;
      }
      ghost var start := State();
      var q := quotas[tenant];
      order := Expire(now);
      ReserveKeepsOk(calendar, start, id, tenant, amount, ttl, now, order);
      var u := Current(tenant, now);
      if Wrap64(u.dailyUsed + u.reserved + amount) > q.daily {
        reply := Refused(DailyExceeded);
        return;
      }
      if Wrap64(u.monthlyUsed + u.reserved + amount) > q.monthly {
        reply := Refused(MonthlyExceeded);
        return;
      }
      if Wrap64(u.reserved + amount) > q.burst {
        reply := Refused(BurstExceeded);
        return;
      }
      var r := Reservation(id, tenant, amount, now, now + ttl, false);
      usage := usage[tenant := u.(reserved := Wrap64(u.reserved + amount), lastModified := now)];
      reservations := reservations[id := r];
      reply := Granted(r);
    }

    method Commit(id: string, now: int) returns (reply: Reply)
      requires Valid()
      modifies this
      ensures Valid() && Answer(State(), reply) == CommitOn(calendar, old(State()), id, now)
    {
      hide BookOk;
      CommitKeepsOk(calendar, State(), id, now);
      if id !in reservations {
        return Refused(NotFound);
      }
      KeyedUnder(calendar, State(), id);
      var r := reservations[id];
      if r.committed {
        return Done;
      }
      if now > r.expiresAt {
        Release(id, now);
        return Refused(ReservationExpired);
      }
      var u := Current(r.tenantId, now);
      u := u.(reserved := Wrap64(u.reserved - r.amount), dailyUsed := Wrap64(u.dailyUsed + r.amount),
              monthlyUsed := Wrap64(u.monthlyUsed + r.amount), committed := Wrap64(u.committed + r.amount),
              lastModified := now);
      usage := usage[r.tenantId := u];
      reservations := reservations[id := r.(committed := true)];
      return Done;
    }

    method Rollback(id: string, now: int) returns (reply: Reply)
      requires Valid()
      modifies this
      ensures Valid() && Answer(State(), reply) == RollbackOn(calendar, old(State()), id, now)
    {
      if id !in reservations {
        return Refused(NotFound);
      }
      if reservations[id].committed {
        return Refused(AlreadyCommitted);
      }
      Release(id, now);
      return Done;
    }

    method ReadUsage(tenant: string, now: int) returns (u: Usage, ghost order: seq<string>)
      requires Valid()
      modifies this
      ensures Valid() && Enumerates(order, StaleIds(old(State()), now))
      ensures State() == Swept(calendar, old(State()), order, now)
      ensures u == CurrentUsage(calendar, State(), tenant, now)
    {
      order := Expire(now);
      u := Current(tenant, now);
    }
  }
}
