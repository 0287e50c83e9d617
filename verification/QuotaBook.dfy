/** The tenant quota ledger (internal/rate/quota.go).

    A reservation is outstanding until it is committed, rolled back or expired. Per tenant the
    ledger keeps what is reserved, and what was used in the current day and month. All amounts are
    int64, and every sum of them wraps around. */
module QuotaBook {
  import opened Wrappers
  import opened Decimal

  /** The numbers of the UTC day and month of an instant. */
  datatype Calendar = Calendar(day: int -> int, month: int -> int)

  /** Later instants are not in earlier days or months, and a day lies within one month. */
  ghost predicate Sound(c: Calendar) {
    && (forall s, t | s <= t :: c.day(s) <= c.day(t) && c.month(s) <= c.month(t))
    && (forall s, t | c.day(s) == c.day(t) :: c.month(s) == c.month(t))
  }

  datatype Quota = Quota(daily: Int64, monthly: Int64, burst: Int64)

  datatype Usage = Usage(tenantId: string, day: Option<int>, month: Option<int>, dailyUsed: Int64, monthlyUsed: Int64,
                         reserved: Int64, committed: Int64, lastModified: int)

  datatype Reservation = Reservation(id: string, tenantId: string, amount: Int64, createdAt: int, expiresAt: int,
                                     committed: bool)

  datatype Book = Book(quotas: map<string, Quota>, usage: map<string, Usage>, reservations: map<string, Reservation>)

  const NEW := Book(map[], map[], map[])
  const NO_USAGE := Usage("", None, None, 0, 0, 0, 0, 0)

  function UsageOf(b: Book, tenant: string): Usage {
    if tenant in b.usage then b.usage[tenant] else NO_USAGE
  }

  /** The usage as it stands at `now`: a new day or month starts from zero. */
  function Rolled(c: Calendar, u: Usage, tenant: string, now: int): Usage {
    var day, month := Some(c.day(now)), Some(c.month(now));
    u.(tenantId := tenant, day := day, month := month,
       dailyUsed := if u.day != day then 0 else u.dailyUsed,
       monthlyUsed := if u.month != month then 0 else u.monthlyUsed)
  }

  function CurrentUsage(c: Calendar, b: Book, tenant: string, now: int): Usage {
    Rolled(c, UsageOf(b, tenant), tenant, now)
  }

  predicate Stale(r: Reservation, now: int) {
    !r.committed && now > r.expiresAt
  }

  function Clamped(x: Int64): Int64 {
    if x < 0 then 0 else x
  }

  /** `releaseLocked`, with its wrap-around and its clamp. */
  function Released(c: Calendar, b: Book, r: Reservation, now: int): Book {
    var u := CurrentUsage(c, b, r.tenantId, now);
    b.(usage := b.usage[r.tenantId := u.(reserved := Clamped(Wrap64(u.reserved - r.amount)), lastModified := now)],
       reservations := b.reservations - {r.id})
  }

  // ---------- Sums over the reservations ----------

  predicate Counts(r: Reservation, tenant: string, committed: bool) {
    r.tenantId == tenant && r.committed == committed
  }

  function Share(r: Reservation, tenant: string, committed: bool): int {
    if Counts(r, tenant, committed) then r.amount else 0
  }

  ghost function Total(rs: map<string, Reservation>, tenant: string, committed: bool): int
    decreases |rs|
  {
    if rs == map[] then 0
    else
      var id :| id in rs;
      Share(rs[id], tenant, committed) + Total(rs - {id}, tenant, committed)
  }

  /** The sum does not depend on the order in which the map is walked. */
  lemma {:induction false} TotalSplit(rs: map<string, Reservation>, id: string, tenant: string, committed: bool)
    requires id in rs
    ensures Total(rs, tenant, committed) == Share(rs[id], tenant, committed) + Total(rs - {id}, tenant, committed)
    decreases |rs|
  {
    var first :| first in rs && Total(rs, tenant, committed)
                                == Share(rs[first], tenant, committed) + Total(rs - {first}, tenant, committed);
    if first != id {
      TotalSplit(rs - {first}, id, tenant, committed);
      TotalSplit(rs - {id}, first, tenant, committed);
      assert rs - {first} - {id} == rs - {id} - {first};
    }
  }

  lemma TotalAdd(rs: map<string, Reservation>, r: Reservation, id: string, tenant: string, committed: bool)
    requires id !in rs
    ensures Total(rs[id := r], tenant, committed) == Share(r, tenant, committed) + Total(rs, tenant, committed)
  {
    TotalSplit(rs[id := r], id, tenant, committed);
    assert rs[id := r] - {id} == rs;
  }

  lemma TotalUpdate(rs: map<string, Reservation>, r: Reservation, id: string, tenant: string, committed: bool)
    requires id in rs
    ensures Total(rs[id := r], tenant, committed)
            == Total(rs, tenant, committed) - Share(rs[id], tenant, committed) + Share(r, tenant, committed)
  {
    TotalSplit(rs, id, tenant, committed);
    TotalSplit(rs[id := r], id, tenant, committed);
    assert rs[id := r] - {id} == rs - {id};
  }

  lemma {:induction false} TotalBounds(rs: map<string, Reservation>, tenant: string, committed: bool)
    requires forall id | id in rs :: rs[id].amount >= 1
    ensures Total(rs, tenant, committed) >= 0
    ensures forall id | id in rs && Counts(rs[id], tenant, committed) :: Total(rs, tenant, committed) >= rs[id].amount
    decreases |rs|
  {
    if rs != map[] {
      forall id | id in rs
        ensures Total(rs, tenant, committed) >= Share(rs[id], tenant, committed)
      {
        TotalSplit(rs, id, tenant, committed);
        TotalBounds(rs - {id}, tenant, committed);
      }
    }
  }

  // ---------- The invariant ----------

  /** Every reservation is filed under its ID, for a positive amount, and its tenant has a usage. */
  predicate ReservationsKeyed(b: Book) {
    forall id | id in b.reservations ::
      var r := b.reservations[id]; r.id == id && r.amount >= 1 && r.tenantId in b.usage
  }

  /** Day and month of a usage are those of its last change. */
  predicate PeriodShown(c: Calendar, b: Book, tenant: string) {
    tenant in b.usage ==>
      var u := b.usage[tenant];
      u.day == Some(c.day(u.lastModified)) && u.month == Some(c.month(u.lastModified))
  }

  /** What holds of every book, also after sums have wrapped around. */
  ghost predicate BookOk(c: Calendar, b: Book) {
    ReservationsKeyed(b) && forall tenant :: PeriodShown(c, b, tenant)
  }

  /** What is reserved is the sum of the uncommitted reservations, and what was committed the sum of
      the committed ones modulo 2^64. */
  ghost predicate Balanced(b: Book, tenant: string) {
    && UsageOf(b, tenant).reserved == Total(b.reservations, tenant, false)
    && UsageOf(b, tenant).committed == Wrap64(Total(b.reservations, tenant, true))
  }

  ghost predicate BookInv(c: Calendar, b: Book) {
    BookOk(c, b) && forall tenant :: Balanced(b, tenant)
  }

  /** In a balanced book the clamp in `releaseLocked` does not fire: an outstanding reservation is
      part of the sum. */
  lemma ClampNeverFires(c: Calendar, b: Book, id: string, now: int)
    requires BookInv(c, b) && id in b.reservations && !b.reservations[id].committed
    ensures CurrentUsage(c, b, b.reservations[id].tenantId, now).reserved >= b.reservations[id].amount
    ensures b.reservations[id].tenantId in b.usage
  {
    var r := b.reservations[id];
    assert Balanced(b, r.tenantId);
    TotalBounds(b.reservations, r.tenantId, false);
  }

  lemma ReleaseKeepsInv(c: Calendar, b: Book, id: string, now: int)
    requires Sound(c) && BookInv(c, b) && id in b.reservations && !b.reservations[id].committed
    ensures BookInv(c, Released(c, b, b.reservations[id], now))
  {
    var r := b.reservations[id];
    var after := Released(c, b, r, now);
    ClampNeverFires(c, b, id, now);
    forall tenant
      ensures Balanced(after, tenant)
    {
      assert Balanced(b, tenant);
      TotalSplit(b.reservations, id, tenant, false);
      TotalSplit(b.reservations, id, tenant, true);
    }
    forall tenant
      ensures PeriodShown(c, after, tenant)
    {
      assert PeriodShown(c, b, tenant);
    }
  }

  // ---------- Expiry in any order ----------

  function Gone(b: Book, ids: set<string>): map<string, Reservation> {
    map id | id in b.reservations && id in ids :: b.reservations[id]
  }

  ghost predicate Touched(gone: map<string, Reservation>, tenant: string) {
    exists id :: id in gone && gone[id].tenantId == tenant
  }

  /** A tenant's usage after its share of `gone` was released at `now`. */
  ghost function ExpiredUsage(c: Calendar, u: Usage, tenant: string, gone: map<string, Reservation>, now: int): Usage {
    if Touched(gone, tenant) then
      Rolled(c, u, tenant, now).(reserved := Wrap64(u.reserved - Total(gone, tenant, false)), lastModified := now)
    else u
  }

  /** The book after the reservations `ids` were released at `now`, said without an order. */
  ghost function ExpiredOf(c: Calendar, b: Book, ids: set<string>, now: int): Book {
    b.(usage := map tenant | tenant in b.usage :: ExpiredUsage(c, b.usage[tenant], tenant, Gone(b, ids), now),
       reservations := b.reservations - ids)
  }

  ghost function StaleIds(b: Book, now: int): set<string> {
    set id | id in b.reservations && Stale(b.reservations[id], now)
  }

  /** `expireLocked`. */
  ghost function ExpireAll(c: Calendar, b: Book, now: int): Book {
    ExpiredOf(c, b, StaleIds(b, now), now)
  }

  lemma ExpireNone(c: Calendar, b: Book, now: int)
    ensures ExpiredOf(c, b, {}, now) == b
  {
    assert ExpiredOf(c, b, {}, now).usage == b.usage;
  }

  lemma {:induction false} NothingGone(gone: map<string, Reservation>, tenant: string)
    requires forall i | i in gone :: gone[i].tenantId != tenant
    ensures Total(gone, tenant, false) == 0
    decreases |gone|
  {
    if gone != map[] {
      var i :| i in gone;
      TotalSplit(gone, i, tenant, false);
      NothingGone(gone - {i}, tenant);
    }
  }

  lemma OneMoreUsage(c: Calendar, u: Usage, tenant: string, gone: map<string, Reservation>, r: Reservation, id: string,
                     now: int)
    requires id !in gone && !r.committed
    ensures var before := ExpiredUsage(c, u, tenant, gone, now);
            var after := ExpiredUsage(c, u, tenant, gone[id := r], now);
            after == if r.tenantId == tenant then
                       Rolled(c, before, tenant, now).(reserved := Wrap64(before.reserved - r.amount),
                                                         lastModified := now)
                     else before
  {
    TotalAdd(gone, r, id, tenant, false);
    var more := gone[id := r];
    assert more[id] == r;
    WrapTwice(u.reserved - Total(gone, tenant, false), 0 - r.amount);
    if !Touched(gone, tenant) {
      NothingGone(gone, tenant);
    } else {
      var i :| i in gone && gone[i].tenantId == tenant;
      assert more[i].tenantId == tenant;
    }
  }

  /** Releasing one more reservation, whichever it is, gives the book for one more ID. */
  lemma ExpireOneMore(c: Calendar, b: Book, ids: set<string>, id: string, now: int)
    requires ids <= b.reservations.Keys
    requires id in b.reservations && id !in ids && !b.reservations[id].committed
    requires BookInv(c, ExpiredOf(c, b, ids, now))
    ensures Released(c, ExpiredOf(c, b, ids, now), b.reservations[id], now) == ExpiredOf(c, b, ids + {id}, now)
  {
    var r := b.reservations[id];
    var before := ExpiredOf(c, b, ids, now);
    var after := ExpiredOf(c, b, ids + {id}, now);
    assert before.reservations[id] == r;
    ClampNeverFires(c, before, id, now);
    assert r.id == id && r.tenantId in before.usage;
    hide BookInv, ExpiredUsage;
    var released := Released(c, before, r, now);
    assert Gone(b, ids + {id}) == Gone(b, ids)[id := r];
    assert b.reservations - ids - {id} == b.reservations - (ids + {id});
    forall tenant | tenant in b.usage
      ensures released.usage[tenant] == after.usage[tenant]
    {
      OneMoreUsage(c, b.usage[tenant], tenant, Gone(b, ids), r, id, now);
    }
    assert released.usage.Keys == after.usage.Keys;
    assert released.usage == after.usage;
  }

  lemma {:induction false} ExpiryKeepsInv(c: Calendar, b: Book, ids: set<string>, now: int)
    requires Sound(c) && BookInv(c, b) && ids <= b.reservations.Keys
    requires forall id | id in ids :: !b.reservations[id].committed
    ensures BookInv(c, ExpiredOf(c, b, ids, now))
    decreases |ids|
  {
    if ids == {} {
      ExpireNone(c, b, now);
    } else {
      var id :| id in ids;
      var fewer := ids - {id};
      ExpiryKeepsInv(c, b, fewer, now);
      ExpireOneMore(c, b, fewer, id, now);
      assert fewer + {id} == ids;
      ReleaseKeepsInv(c, ExpiredOf(c, b, fewer, now), id, now);
    }
  }

  // ---------- The sweep, in the order in which the map is walked ----------

  /** The order lists each of the IDs once. */
  ghost predicate Enumerates(order: seq<string>, ids: set<string>) {
    && (forall id :: id in order <==> id in ids)
    && (forall i, j | 0 <= i < j < |order| :: order[i] != order[j])
  }

  /** `expireLocked`, when the map yields the stale reservations in this order. */
  function Swept(c: Calendar, b: Book, order: seq<string>, now: int): Book {
    if order == [] then b
    else
      var front, id := Swept(c, b, order[..|order| - 1], now), order[|order| - 1];
      if id in front.reservations then Released(c, front, front.reservations[id], now) else front
  }

  lemma OneMoreSwept(c: Calendar, b: Book, order: seq<string>, id: string, now: int)
    ensures var front := Swept(c, b, order, now);
      Swept(c, b, order + [id], now)
      == if id in front.reservations then Released(c, front, front.reservations[id], now) else front
  {
    assert (order + [id])[..|order|] == order;
  }

  lemma OneMoreListed(order: seq<string>, ids: set<string>, id: string)
    requires Enumerates(order, ids) && id !in ids
    ensures Enumerates(order + [id], ids + {id})
  {
  }

  lemma {:induction false} SweptShape(c: Calendar, b: Book, order: seq<string>, now: int)
    requires BookOk(c, b) && Sound(c)
    ensures var swept := Swept(c, b, order, now);
      && BookOk(c, swept) && swept.quotas == b.quotas && swept.usage.Keys == b.usage.Keys
      && swept.reservations == b.reservations - (set id | id in order)
  {
    if order != [] {
      SweptShape(c, b, order[..|order| - 1], now);
      var front, id := Swept(c, b, order[..|order| - 1], now), order[|order| - 1];
      if id in front.reservations {
        ReleasedOk(c, front, id, now);
      }
      assert order == order[..|order| - 1] + [id];
    }
  }

  lemma ReleasedOk(c: Calendar, b: Book, id: string, now: int)
    requires BookOk(c, b) && id in b.reservations
    ensures var after := Released(c, b, b.reservations[id], now);
      BookOk(c, after) && after.usage.Keys == b.usage.Keys
  {
    var after := Released(c, b, b.reservations[id], now);
    forall tenant
      ensures PeriodShown(c, after, tenant)
    {
      assert PeriodShown(c, b, tenant);
    }
  }

  /** In a balanced book the sweep has the same outcome for every order. */
  lemma {:induction false} AnyOrder(c: Calendar, b: Book, order: seq<string>, ids: set<string>, now: int)
    requires Sound(c) && BookInv(c, b) && Enumerates(order, ids) && ids <= b.reservations.Keys
    requires forall id | id in ids :: !b.reservations[id].committed
    ensures Swept(c, b, order, now) == ExpiredOf(c, b, ids, now)
    ensures BookInv(c, Swept(c, b, order, now))
    decreases |order|
  {
    hide BookInv, Released, ExpiredUsage;
    ExpiryKeepsInv(c, b, ids, now);
    if order == [] {
      assert ids == {};
      ExpireNone(c, b, now);
    } else {
      var front, id := order[..|order| - 1], order[|order| - 1];
      var fewer := ids - {id};
      AnyOrder(c, b, front, fewer, now);
      ExpireOneMore(c, b, fewer, id, now);
      assert fewer + {id} == ids;
    }
  }
}
