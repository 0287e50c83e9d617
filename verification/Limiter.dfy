/** The token bucket of internal/rate/limiter.go, over reals and in seconds.

    The bucket keeps one number; it decides each request exactly as a bound on the whole history of
    grants would. */
module Limiter {
  import opened Wrappers

  datatype Level = Level(tokens: real, capacity: real, refill: real, last: real)

  function Full(capacity: real, refill: real, now: real): Level {
    Level(capacity, capacity, refill, now)
  }

  function Refilled(rate: real, seconds: real): real {
    rate * seconds
  }

  lemma RefilledSplits(rate: real, s: real, t: real)
    ensures Refilled(rate, s) + Refilled(rate, t) == Refilled(rate, s + t)
  {
  }

  lemma RefilledGrows(rate: real, s: real, t: real)
    requires rate >= 0.0 && s <= t
    ensures Refilled(rate, s) <= Refilled(rate, t)
  {
  }

  lemma RefilledBy(rate: real, short: real, seconds: real)
    requires rate > 0.0
    ensures short <= Refilled(rate, seconds) <==> seconds >= short / rate
  {
    assert short == Refilled(rate, short / rate);
    if seconds < short / rate {
      assert rate * (short / rate - seconds) > 0.0;
    }
  }

  function Topped(l: Level, now: real): real {
    var raised := l.tokens + Refilled(l.refill, now - l.last);
    if raised > l.capacity then l.capacity else raised
  }

  predicate Grants(l: Level, n: real, now: real) {
    n <= Topped(l, now)
  }

  function Asked(l: Level, n: real, now: real): Level {
    l.(tokens := Topped(l, now) - if Grants(l, n, now) then n else 0.0, last := now)
  }

  /** The seconds that `Wait` computes; none where it divides by a zero rate. It does not top up the
      bucket first, so they count from the last request. */
  function WaitFor(l: Level, n: real): Option<real> {
    if l.tokens >= n then Some(0.0)
    else if l.refill == 0.0 then None
    else Some((n - l.tokens) / l.refill)
  }

  const SECOND := 1_000_000_000

  /** The conversion to a duration cuts to whole nanoseconds, towards zero. */
  function Nanoseconds(seconds: real): int {
    var nanos := seconds * SECOND as real;
    if nanos >= 0.0 then nanos.Floor else -(-nanos).Floor
  }

  /** The duration that `Wait` returns. */
  function WaitNanos(l: Level, n: real): Option<int> {
    var seconds := WaitFor(l, n);
    if seconds.None? then None else Some(Nanoseconds(seconds.value))
  }

  class Bucket {
    var tokens: real
    var capacity: real
    var refill: real
    var last: real

    function State(): Level
      reads this
    {
      Level(tokens, capacity, refill, last)
    }

    constructor (capacity: real, perSecond: real, now: real)
      ensures State() == Full(capacity, perSecond, now)
    {
      tokens, this.capacity, refill, last := capacity, capacity, perSecond, now;
    }

    method Allow(n: real, now: real) returns (ok: bool)
      modifies this
      ensures ok == Grants(old(State()), n, now)
      ensures State() == Asked(old(State()), n, now)
    {
      tokens := tokens + (now - last) * refill;
      if tokens > capacity {
        tokens := capacity;
      }
      last := now;
      if tokens < n {
        return false;
      }
      tokens := tokens - n;
      return true;
    }

    method Wait(n: real) returns (wait: Option<int>)
      ensures wait == WaitNanos(State(), n)
    {
      if tokens >= n {
        return Some(0);
      }
      if refill == 0.0 {
        return None;
      }
      return Some(Nanoseconds((n - tokens) / refill));
    }
  }

  // ---------- Histories ----------

  datatype Request = Request(n: real, at: real)

  /** A bucket made at `start`. */
  datatype Setup = Setup(capacity: real, refill: real, start: real)

  function Exec(u: Setup, reqs: seq<Request>): Level {
    if reqs == [] then Full(u.capacity, u.refill, u.start)
    else
      var req := reqs[|reqs| - 1];
      Asked(Exec(u, reqs[..|reqs| - 1]), req.n, req.at)
  }

  /** What the newest request of a history took. */
  function Taken(u: Setup, reqs: seq<Request>): real
    requires reqs != []
  {
    var req := reqs[|reqs| - 1];
    if Grants(Exec(u, reqs[..|reqs| - 1]), req.n, req.at) then req.n else 0.0
  }

  /** All that was granted from `from` to `to`, both included. */
  function GrantedWithin(u: Setup, reqs: seq<Request>, from: real, to: real): real {
    if reqs == [] then 0.0
    else
      GrantedWithin(u, reqs[..|reqs| - 1], from, to)
      + if from <= reqs[|reqs| - 1].at <= to then Taken(u, reqs) else 0.0
  }

  /** Requests are for no negative number, and come in the order of time, up to `now`. */
  predicate InOrder(u: Setup, reqs: seq<Request>, now: real) {
    if reqs == [] then u.start <= now
    else
      var req := reqs[|reqs| - 1];
      req.n >= 0.0 && req.at <= now && InOrder(u, reqs[..|reqs| - 1], req.at)
  }

  /** How much the window that opens at `from` still has room for at `now`. */
  function Room(u: Setup, reqs: seq<Request>, from: real, now: real): real {
    u.capacity + Refilled(u.refill, now - from) - GrantedWithin(u, reqs, from, now)
  }

  lemma {:induction false} InOrderAt(u: Setup, reqs: seq<Request>, now: real, k: nat)
    requires InOrder(u, reqs, now) && k < |reqs|
    ensures u.start <= reqs[k].at <= now && reqs[k].n >= 0.0
  {
    var front, req := reqs[..|reqs| - 1], reqs[|reqs| - 1];
    if k < |front| {
      InOrderAt(u, front, req.at, k);
    } else if front != [] {
      InOrderAt(u, front, req.at, |front| - 1);
    }
  }

  lemma {:induction false} GrantedBounds(u: Setup, reqs: seq<Request>, now: real, from: real, to: real)
    requires InOrder(u, reqs, now)
    ensures GrantedWithin(u, reqs, from, to) >= 0.0
    ensures from > now ==> GrantedWithin(u, reqs, from, to) == 0.0
  {
    if reqs != [] {
      GrantedBounds(u, reqs[..|reqs| - 1], reqs[|reqs| - 1].at, from, to);
      if from > now {
        GrantedBounds(u, reqs[..|reqs| - 1], now, from, to);
      }
    }
  }

  /** The end of a window does not matter once it is past every request. */
  lemma {:induction false} LaterEnd(u: Setup, reqs: seq<Request>, from: real, now: real, later: real)
    requires InOrder(u, reqs, now) && now <= later
    ensures GrantedWithin(u, reqs, from, later) == GrantedWithin(u, reqs, from, now)
  {
    if reqs != [] {
      var front, req := reqs[..|reqs| - 1], reqs[|reqs| - 1];
      LaterEnd(u, front, from, req.at, later);
      LaterEnd(u, front, from, req.at, now);
    }
  }

  // ---------- The bucket's number is the tightest window ----------

  /** No window that starts at a request leaves less room than the bucket holds. */
  ghost predicate NoTighter(u: Setup, reqs: seq<Request>, tokens: real, now: real) {
    forall k | 0 <= k < |reqs| :: tokens <= Room(u, reqs, reqs[k].at, now)
  }

  /** Some window leaves exactly what the bucket holds, or nothing was asked yet. */
  ghost predicate SomeTight(u: Setup, reqs: seq<Request>, tokens: real, now: real) {
    || (reqs == [] && tokens == u.capacity)
    || exists k :: 0 <= k < |reqs| && tokens == Room(u, reqs, reqs[k].at, now)
  }

  ghost predicate Tight(u: Setup, reqs: seq<Request>, l: Level) {
    && l.capacity == u.capacity && l.refill == u.refill && l.tokens <= l.capacity
    && l.last == (if reqs == [] then u.start else reqs[|reqs| - 1].at)
    && NoTighter(u, reqs, l.tokens, l.last) && SomeTight(u, reqs, l.tokens, l.last)
  }

  /** Waiting raises every window's room alike. */
  lemma RoomLater(u: Setup, reqs: seq<Request>, from: real, now: real, later: real)
    requires InOrder(u, reqs, now) && now <= later
    ensures Room(u, reqs, from, later) == Room(u, reqs, from, now) + Refilled(u.refill, later - now)
  {
    hide Refilled;
    LaterEnd(u, reqs, from, now, later);
    RefilledSplits(u.refill, now - from, later - now);
  }

  /** At `now`, the bucket holds the smaller of its capacity and the tightest window's room. */
  lemma ToppedTight(u: Setup, reqs: seq<Request>, now: real)
    requires InOrder(u, reqs, now) && u.refill >= 0.0 && Tight(u, reqs, Exec(u, reqs))
    ensures var t := Topped(Exec(u, reqs), now);
      && t <= u.capacity && NoTighter(u, reqs, t, now)
      && (t == u.capacity || exists k :: 0 <= k < |reqs| && t == Room(u, reqs, reqs[k].at, now))
  {
    assert Refilled(u.refill, 0.0) == 0.0;
    hide Refilled;
    var l := Exec(u, reqs);
    var last := l.last;
    assert InOrder(u, reqs, last) && last <= now;
    forall k | 0 <= k < |reqs|
      ensures Room(u, reqs, reqs[k].at, now) == Room(u, reqs, reqs[k].at, last) + Refilled(u.refill, now - last)
    {
      RoomLater(u, reqs, reqs[k].at, last, now);
    }
    if reqs != [] {
      var k :| 0 <= k < |reqs| && l.tokens == Room(u, reqs, reqs[k].at, last);
      assert l.tokens + Refilled(l.refill, now - last) == Room(u, reqs, reqs[k].at, now);
    } else {
      RefilledGrows(u.refill, 0.0, now - last);
    }
  }

  lemma {:induction false} TokensAreTight(u: Setup, reqs: seq<Request>, now: real)
    requires InOrder(u, reqs, now) && u.refill >= 0.0
    ensures Tight(u, reqs, Exec(u, reqs))
  {
    if reqs != [] {
      var front, req := reqs[..|reqs| - 1], reqs[|reqs| - 1];
      TokensAreTight(u, front, req.at);
      ToppedTight(u, front, req.at);
      StaysTight(u, reqs);
    }
  }

  lemma StaysTight(u: Setup, reqs: seq<Request>)
    requires reqs != [] && InOrder(u, reqs, reqs[|reqs| - 1].at) && u.refill >= 0.0
    requires var front, now := reqs[..|reqs| - 1], reqs[|reqs| - 1].at;
      var t := Topped(Exec(u, front), now);
      && Tight(u, front, Exec(u, front))
      && t <= u.capacity && NoTighter(u, front, t, now)
      && (t == u.capacity || exists k :: 0 <= k < |front| && t == Room(u, front, front[k].at, now))
    ensures Tight(u, reqs, Exec(u, reqs))
  {
    var front, now := reqs[..|reqs| - 1], reqs[|reqs| - 1].at;
    var t, taken := Topped(Exec(u, front), now), Taken(u, reqs);
    assert Refilled(u.refill, 0.0) == 0.0;
    hide Refilled;
    forall k | 0 <= k < |front|
      ensures Room(u, reqs, reqs[k].at, now) == Room(u, front, front[k].at, now) - taken
    {
      InOrderAt(u, front, now, k);
    }
    assert Room(u, reqs, now, now) == Room(u, front, now, now) - taken;
    GrantedBounds(u, front, now, now, now);
    assert t <= Room(u, front, now, now) by {
      if front != [] && front[|front| - 1].at == now {
        assert t <= Room(u, front, front[|front| - 1].at, now);
      } else if front != [] {
        GrantedBounds(u, front, front[|front| - 1].at, now, now);
      }
    }
    if t == u.capacity {
      assert t - taken == Room(u, reqs, reqs[|reqs| - 1].at, now);
    } else {
      var k :| 0 <= k < |front| && t == Room(u, front, front[k].at, now);
      assert t - taken == Room(u, reqs, reqs[k].at, now);
    }
  }

  /** A request is refused if and only if granting it would break the bound of some window that
      starts at an earlier request, or now. */
  lemma RefusedExactly(u: Setup, reqs: seq<Request>, n: real, now: real)
    requires InOrder(u, reqs, now) && u.refill >= 0.0
    ensures !Grants(Exec(u, reqs), n, now)
            <==> n > u.capacity || exists k :: 0 <= k < |reqs| && Room(u, reqs, reqs[k].at, now) < n
  {
    TokensAreTight(u, reqs, now);
    ToppedTight(u, reqs, now);
  }

  lemma {:induction false} TokensNotNegative(u: Setup, reqs: seq<Request>, now: real)
    requires InOrder(u, reqs, now) && u.refill >= 0.0 && u.capacity >= 0.0
    ensures Exec(u, reqs).tokens >= 0.0
  {
    if reqs != [] {
      var front, req := reqs[..|reqs| - 1], reqs[|reqs| - 1];
      TokensNotNegative(u, front, req.at);
      TokensAreTight(u, front, req.at);
      var l := Exec(u, front);
      assert l.last <= req.at;
      RefilledGrows(u.refill, 0.0, req.at - l.last);
    }
  }

  lemma {:induction false} LaterStart(u: Setup, reqs: seq<Request>, now: real, from: real, later: real, to: real)
    requires InOrder(u, reqs, now) && from <= later
    ensures GrantedWithin(u, reqs, later, to) <= GrantedWithin(u, reqs, from, to)
  {
    if reqs != [] {
      LaterStart(u, reqs[..|reqs| - 1], reqs[|reqs| - 1].at, from, later, to);
    }
  }

  /** A window from `from` holds the same grants as the one from its first request. */
  lemma {:induction false} FirstInside(u: Setup, reqs: seq<Request>, from: real, now: real)
    requires InOrder(u, reqs, now)
    ensures GrantedWithin(u, reqs, from, now) == 0.0
            || exists k :: 0 <= k < |reqs| && from <= reqs[k].at
                           && GrantedWithin(u, reqs, from, now) == GrantedWithin(u, reqs, reqs[k].at, now)
  {
    if reqs != [] {
      var front, req := reqs[..|reqs| - 1], reqs[|reqs| - 1];
      FirstInside(u, front, from, now);
      if k :| 0 <= k < |front| && from <= front[k].at
              && GrantedWithin(u, front, from, now) == GrantedWithin(u, front, front[k].at, now) {
        InOrderAt(u, front, req.at, k);
        assert reqs[k] == front[k];
      } else if from <= req.at {
        LaterStart(u, front, req.at, from, req.at, now);
        GrantedBounds(u, front, req.at, req.at, now);
        assert GrantedWithin(u, reqs, from, now) == GrantedWithin(u, reqs, reqs[|reqs| - 1].at, now);
      }
    }
  }

  /** The envelope: within any window, no more is granted than the capacity and what the window's
      length refills. */
  lemma {:induction false} Envelope(u: Setup, reqs: seq<Request>, now: real, from: real, to: real)
    requires InOrder(u, reqs, now) && u.refill >= 0.0 && u.capacity >= 0.0 && from <= to
    ensures GrantedWithin(u, reqs, from, to) <= u.capacity + Refilled(u.refill, to - from)
  {
    RefilledGrows(u.refill, 0.0, to - from);
    assert Refilled(u.refill, 0.0) == 0.0;
    hide Refilled;
    if reqs != [] {
      var front, req := reqs[..|reqs| - 1], reqs[|reqs| - 1];
      if req.at > to {
        Envelope(u, front, req.at, from, to);
      } else {
        assert InOrder(u, reqs, req.at);
        LaterEnd(u, reqs, from, req.at, to);
        FirstInside(u, reqs, from, req.at);
        TokensAreTight(u, reqs, req.at);
        TokensNotNegative(u, reqs, req.at);
        if k :| 0 <= k < |reqs| && from <= reqs[k].at
                && GrantedWithin(u, reqs, from, req.at) == GrantedWithin(u, reqs, reqs[k].at, req.at) {
          assert Room(u, reqs, reqs[k].at, req.at) >= 0.0;
          RefilledGrows(u.refill, req.at - reqs[k].at, to - from);
        }
      }
    }
  }

  // ---------- Waiting ----------

  /** With no other taker, a request within the capacity is granted from the reported wait on, and
      not a moment earlier; one beyond the capacity never is. */
  lemma WaitIsExact(u: Setup, reqs: seq<Request>, n: real, now: real)
    requires InOrder(u, reqs, now) && u.refill > 0.0
    ensures var l := Exec(u, reqs);
      && WaitFor(l, n).Some?
      && (n > u.capacity ==> !Grants(l, n, now))
      && (n <= u.capacity ==> (Grants(l, n, now) <==> now >= l.last + WaitFor(l, n).value))
  {
    hide Exec, Refilled, NoTighter, SomeTight;
    TokensAreTight(u, reqs, now);
    var l := Exec(u, reqs);
    RefilledBy(l.refill, n - l.tokens, now - l.last);
    RefilledBy(l.refill, 0.0, now - l.last);
  }

  /** The duration that `Wait` returns is enough exactly if it was not cut; a nanosecond more always
      is. */
  lemma CutWaitIsExact(u: Setup, reqs: seq<Request>, n: real, now: real)
    requires InOrder(u, reqs, now) && u.refill > 0.0 && n <= u.capacity
    ensures var l := Exec(u, reqs);
      && WaitFor(l, n).Some? && WaitNanos(l, n).Some?
      && var wait := WaitNanos(l, n).value;
      && (now == l.last + wait as real / SECOND as real ==>
            (Grants(l, n, now) <==> wait as real == WaitFor(l, n).value * SECOND as real))
      && (now == l.last + (wait + 1) as real / SECOND as real ==> Grants(l, n, now))
  {
    WaitNotNegative(u, reqs, n, now);
    hide Exec, Topped, WaitFor, Nanoseconds;
    WaitIsExact(u, reqs, n, now);
    var l := Exec(u, reqs);
    Nanos(WaitFor(l, n).value, now - l.last);
  }

  /** In numbers: an empty bucket that fills by one per second lets wait a billion nanoseconds for one. */
  lemma WaitForOne(capacity: real, last: real)
    ensures WaitNanos(Level(0.0, capacity, 1.0, last), 1.0) == Some(1_000_000_000)
  {
  }

  lemma WaitNotNegative(u: Setup, reqs: seq<Request>, n: real, now: real)
    requires InOrder(u, reqs, now) && u.refill > 0.0
    ensures WaitFor(Exec(u, reqs), n).Some? && WaitFor(Exec(u, reqs), n).value >= 0.0
  {
    hide Exec, NoTighter, SomeTight;
    TokensAreTight(u, reqs, now);
  }

  lemma Nanos(seconds: real, elapsed: real)
    requires seconds >= 0.0
    ensures var wait := Nanoseconds(seconds);
      && wait as real <= seconds * SECOND as real < (wait + 1) as real
      && (elapsed == wait as real / SECOND as real ==>
            (elapsed >= seconds <==> wait as real == seconds * SECOND as real))
      && (elapsed == (wait + 1) as real / SECOND as real ==> elapsed >= seconds)
  {
  }

  /** So whoever asks for the wait at `asked` and waits that long is granted the request. */
  lemma WaitedIsGranted(u: Setup, reqs: seq<Request>, n: real, asked: real, now: real)
    requires InOrder(u, reqs, asked) && u.refill > 0.0 && n <= u.capacity
    requires WaitFor(Exec(u, reqs), n).Some? ==> now >= asked + WaitFor(Exec(u, reqs), n).value
    ensures Grants(Exec(u, reqs), n, now)
  {
    TokensAreTight(u, reqs, asked);
    WaitIsExact(u, reqs, n, asked);
    var l := Exec(u, reqs);
    assert WaitFor(l, n).value >= 0.0;
    assert InOrder(u, reqs, now);
    WaitIsExact(u, reqs, n, now);
  }
}
