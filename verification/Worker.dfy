/** The dispatcher (internal/worker/dispatcher.go) on objects.

    A worker's `deliver` shares its notification with nobody while it runs, but the store with
    everybody. Each method here is one stretch of `deliver` with at most one store operation, so
    that a concurrent run is an interleaving of these methods with those of the API. The answers
    of the rate limiter, the router and the provider are parameters. */
module Worker {
  import opened Wrappers
  import opened Domain
  import opened Decimal
  import opened Repository
  import opened Delivery
  import opened Protocol

  /** A live copy as the store-and-copy functions of `Delivery` see it; `None` is dropped. */
  ghost function Live(n: Notification, place: Option<Place>): Option<Copy>
    reads n
  {
    if place.None? then None else Some(Copy(n.Value(), place.value))
  }

  class Dispatcher {
    const store: Store
    const maxAttempts: int

    constructor (store: Store, maxAttempts: int)
      ensures this.store == store && this.maxAttempts == maxAttempts
    {
      this.store, this.maxAttempts := store, maxAttempts;
    }

    /** From the dequeued copy to its claim. */
    method Begin(n: Notification, now: int, granted: bool, wait: int) returns (place: Option<Place>)
      modifies n, store
      ensures Handled(store.Data(), Live(n, place)) == BeginStep(old(store.Data()), old(n.Value()), now, granted, wait)
    {
      if n.scheduleAt.Some? && now < n.scheduleAt.value {
        return Some(InTimer(n.scheduleAt.value));
      }
      if n.expiresAt.Some? && now > n.expiresAt.value {
        var before := n.version;
        var moved := n.Transition(Expired, now);
        var ignored := store.Update(n.Value(), before, now);
        return None;
      }
      if !granted {
        return Some(InTimer(now + wait));
      }
      var before := n.version;
      var moved := n.Transition(Processing, now);
      if !moved {
        return None;
      }
      var error := store.Update(n.Value(), before, now);
      if error.Some? {
        return None;
      }
      return Some(Claimed);
    }

    /** The router's answer: retry without a provider, or count the attempt and start the call. */
    method Route(n: Notification, chosen: Option<string>, now: int, platform: Int64) returns (place: Option<Place>)
      modifies n, store
      ensures chosen.None? ==>
                Handled(store.Data(), Live(n, place))
                == RetryStep(maxAttempts, old(store.Data()), old(n.Value()), "no healthy provider", now, platform)
      ensures chosen.Some? ==> place == Some(Sending) && store.Data() == old(store.Data())
                               && n.Value() == SendStep(old(n.Value()), chosen.value)
    {
      if chosen.None? {
        place := Retry(n, "no healthy provider", now, platform);
        return;
      }
      n.provider := chosen.value;
      n.attempts := n.attempts + 1;
      return Some(Sending);
    }

    /** The provider's answer: retry on an error, settle otherwise. The error class that is noted
        first is overwritten by the error text in `Retry`. */
    method Finish(n: Notification, error: Option<string>, errorClass: string, result: Status, now: int, platform: Int64)
      returns (place: Option<Place>)
      modifies n, store
      ensures error.Some? ==>
                Handled(store.Data(), Live(n, place))
                == RetryStep(maxAttempts, old(store.Data()), old(n.Value()), error.value, now, platform)
      ensures error.None? ==>
                Handled(store.Data(), Live(n, place)) == SettleStep(old(store.Data()), old(n.Value()), result, now)
    {
      if error.Some? {
        n.lastError := errorClass;
        place := Retry(n, error.value, now, platform);
        return;
      }
      var before := n.version;
      var next := result;
      if next == Other("") {
        next := Accepted;
      }
      var moved := n.Transition(next, now);
      if moved {
        var ignored := store.Update(n.Value(), before, now);
      }
      return None;
    }

    /** Failed for good, or back to a timer whatever the store says. */
    method Retry(n: Notification, error: string, now: int, platform: Int64) returns (place: Option<Place>)
      modifies n, store
      ensures Handled(store.Data(), Live(n, place))
              == RetryStep(maxAttempts, old(store.Data()), old(n.Value()), error, now, platform)
    {
      n.lastError := error;
      var before := n.version;
      if n.attempts >= maxAttempts {
        var failed := n.Transition(Failed, now);
        if failed {
          var ignored := store.Update(n.Value(), before, now);
        }
        return None;
      }
      var moved := n.Transition(Queued, now);
      if !moved {
        return None;
      }
      var ignored := store.Update(n.Value(), before, now);
      return Some(InTimer(now + Backoff(n.attempts, platform)));
    }
  }

  // ---------- The methods are the steps of the protocol ----------

  /** The step of the state machine that `Begin` performs on a dequeued copy. */
  function BeginAction(s: State, p: Ptr, granted: bool, wait: int): Action
    requires p in s.copies
  {
    var n := s.copies[p].note;
    if Future(n.scheduleAt, s.now) then Postpone(p)
    else if Past(n.expiresAt, s.now) then Expire(p)
    else if !granted then Throttle(p, wait)
    else Claim(p)
  }

  lemma BeginIsStep(max: int, s: State, p: Ptr, granted: bool, wait: int)
    requires Dequeued(s, p) && s.copies[p].place.since <= s.now && wait >= 0
    ensures Step(max, s, BeginAction(s, p, granted, wait))
            == Replace(s, p, BeginStep(s.db, s.copies[p].note, s.now, granted, wait))
  {
    hide Effect, ExpireStep, ClaimStep;
    var a := BeginAction(s, p, granted, wait);
    if IsMove(a) {
      EffectOfMove(max, s, a);
    } else {
      EffectOfStretch(max, s, a);
    }
  }

  lemma AnswerIsStep(max: int, s: State, p: Ptr, error: Option<string>, result: Status, platform: Int64)
    requires At(s, p, Sending)
    ensures error.Some? ==> Step(max, s, SendFailed(p, error.value, platform))
                            == Replace(s, p, RetryStep(max, s.db, s.copies[p].note, error.value, s.now, platform))
    ensures error.None? ==> Step(max, s, SendOk(p, result))
                            == Replace(s, p, SettleStep(s.db, s.copies[p].note, result, s.now))
  {
    hide Effect, RetryStep, SettleStep;
    if error.Some? {
      EffectOfStretch(max, s, SendFailed(p, error.value, platform));
    } else {
      EffectOfStretch(max, s, SendOk(p, result));
    }
  }

  lemma RouteIsStep(max: int, s: State, p: Ptr, chosen: Option<string>, platform: Int64)
    requires At(s, p, Claimed)
    ensures var n := s.copies[p].note;
      if chosen.None? then
        Step(max, s, NoProvider(p, "no healthy provider", platform))
        == Replace(s, p, RetryStep(max, s.db, n, "no healthy provider", s.now, platform))
      else
        Step(max, s, Send(p, chosen.value))
        == Replace(s, p, Handled(s.db, Some(Copy(SendStep(n, chosen.value), Sending))))
  {
    hide Effect, RetryStep;
    if chosen.Some? {
      EffectOfMove(max, s, Send(p, chosen.value));
    } else {
      EffectOfStretch(max, s, NoProvider(p, "no healthy provider", platform));
    }
  }
}
