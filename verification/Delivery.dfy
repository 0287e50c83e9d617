/** What one worker or one API call does to a live copy and to the store, as values.

    `deliver` is not atomic: other store operations may fall between its claim and its settlement.
    Each function here is one stretch of it that contains at most one store operation. The class
    `Worker.Dispatcher` performs these stretches on objects, and the state machine of `Protocol`
    interleaves them. */
module Delivery {
  import opened Wrappers
  import opened Domain
  import opened Decimal
  import opened Repository

  /** Where a live copy of a notification is. */
  datatype Place =
    | InQueue             // held by the priority queue
    | InTimer(due: int)   // held by a pending time.AfterFunc
    | InHand(since: int)  // dequeued by a worker, not claimed yet
    | Claimed             // stored as processing by this worker, provider not chosen yet
    | Sending             // attempt counted, provider call outstanding

  predicate Waiting(p: Place) {
    p.InQueue? || p.InTimer? || p.InHand?
  }

  predicate Busy(p: Place) {
    p.Claimed? || p.Sending?
  }

  datatype Copy = Copy(note: Note, place: Place)

  /** The store and the copy after a stretch; a dropped copy is `None`. */
  datatype Handled = Handled(db: Snapshot, copy: Option<Copy>)

  predicate Future(at: Option<int>, now: int) {
    at.Some? && now < at.value
  }

  predicate Past(at: Option<int>, now: int) {
    at.Some? && now > at.value
  }

  /** An expired notification is written with whatever the transition made of it. */
  function ExpireStep(db: Snapshot, n: Note, now: int): Handled {
    var t := Transitioned(n, Expired, now);
    Handled(Updated(db, if t.Some? then t.value else n, n.version, now), None)
  }

  /** Claiming: the copy survives only if both the transition and the update succeed. */
  function ClaimStep(db: Snapshot, n: Note, now: int): Handled {
    var t := Transitioned(n, Processing, now);
    if t.None? || !UpdateOk(db, n.id, n.version) then Handled(db, None)
    else Handled(Updated(db, t.value, n.version, now), Some(Copy(t.value, Claimed)))
  }

  /** The handling of a dequeued copy up to its claim: not yet scheduled, expired, rate-limited, or
      claimed. */
  function BeginStep(db: Snapshot, n: Note, now: int, granted: bool, wait: int): Handled {
    if Future(n.scheduleAt, now) then Handled(db, Some(Copy(n, InTimer(n.scheduleAt.value))))
    else if Past(n.expiresAt, now) then ExpireStep(db, n, now)
    else if !granted then Handled(db, Some(Copy(n, InTimer(now + wait))))
    else ClaimStep(db, n, now)
  }

  function SendStep(n: Note, provider: string): Note {
    n.(provider := provider, attempts := n.attempts + 1)
  }

  function Power2(k: nat): nat {
    if k == 0 then 1 else 2 * Power2(k - 1)
  }

  const TENTH_SECOND := 100_000_000

  /** The delay in nanoseconds before the next try: 2^attempts tenths of a second, computed as
      a float64 power converted to int64 and multiplied with wrap-around. A negative power
      truncates to 0; from 2^63 on the conversion gives a platform's own value. */
  function Backoff(attempts: int, platform: Int64): Int64 {
    var power := if attempts < 0 then 0 else if attempts <= 62 then Power2(attempts) else platform;
    Wrap64(power * TENTH_SECOND)
  }

  /** The error of the update is ignored: the copy goes back to a timer either way. */
  function RetryStep(max: int, db: Snapshot, n: Note, error: string, now: int, platform: Int64): Handled {
    var m := n.(lastError := error);
    if m.attempts >= max then
      var t := Transitioned(m, Failed, now);
      Handled(if t.Some? then Updated(db, t.value, n.version, now) else db, None)
    else
      var t := Transitioned(m, Queued, now);
      if t.None? then Handled(db, None)
      else Handled(Updated(db, t.value, n.version, now),
                   Some(Copy(t.value, InTimer(now + Backoff(m.attempts, platform)))))
  }

  /** A provider that reports no status has accepted the message. */
  function Reported(result: Status): Status {
    if result == Other("") then Accepted else result
  }

  /** Provider answers after which a settled record is neither queued nor processing. */
  predicate Settles(result: Status) {
    Reported(result) in {Accepted, Sent, Failed, Paused}
  }

  function SettleStep(db: Snapshot, n: Note, result: Status, now: int): Handled {
    var t := Transitioned(n, Reported(result), now);
    Handled(if t.Some? then Updated(db, t.value, n.version, now) else db, None)
  }

  // ---------- The application service ----------

  /** The fields that a submission sets; ID and attempts of the caller are kept. */
  function Prepared(n: Note, now: int): Note {
    n.(status := Queued, createdAt := now, updatedAt := now, version := 1)
  }

  /** An API call between its read and its update. */
  datatype Request = Request(note: Note, expected: int)

  /** Reading, comparing the ETag (0 or less means none) and transitioning. */
  function RequestOf(db: Snapshot, id: string, expected: int, next: Status, now: int): Option<Request> {
    if id !in db.notifications then None
    else
      var n := db.notifications[id];
      if expected > 0 && n.version != expected then None
      else
        var t := Transitioned(n, next, now);
        if t.None? then None else Some(Request(t.value, n.version))
  }

  /** What `Replay` submits: the old content under a new ID and key, with a clean record. */
  function ReplayOf(n: Note, newId: string, suffix: string): Note {
    n.(id := newId, idempotencyKey := n.idempotencyKey + ":" + suffix, attempts := 0, lastError := "", provider := "")
  }

  // ---------- The back-off arithmetic ----------

  lemma {:induction false} Power2Grows(i: nat, j: nat)
    requires i <= j
    ensures 1 <= Power2(i) <= Power2(j)
    ensures i < j ==> 2 * Power2(i) <= Power2(j)
    decreases j
  {
    if i < j {
      Power2Grows(i, j - 1);
    } else if i > 0 {
      Power2Grows(i - 1, i - 1);
    }
  }

  lemma Power2At36And37()
    ensures Power2(36) == 0x10_0000_0000
    ensures Power2(37) == 0x20_0000_0000
  {
    assert Power2(6) == 0x40;
    assert Power2(12) == 0x1000;
    assert Power2(18) == 0x4_0000;
    assert Power2(24) == 0x100_0000;
    assert Power2(30) == 0x4000_0000;
    assert Power2(36) == 0x10_0000_0000;
  }

  /** The computed delay is 2^attempts tenths of a second exactly for 0..36 attempts, and too short
      from then on; a retry budget of 37 therefore never overflows and a budget of 38 can. */
  lemma BackoffExact(attempts: nat, platform: Int64)
    ensures Backoff(attempts, platform) <= Power2(attempts) * TENTH_SECOND
    ensures Backoff(attempts, platform) == Power2(attempts) * TENTH_SECOND <==> attempts <= 36
  {
    Power2At36And37();
    if attempts <= 36 {
      Power2Grows(attempts, 36);
    } else {
      Power2Grows(37, attempts);
    }
  }
}
