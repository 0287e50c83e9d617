/** Notifications and their status machine (internal/notification/domain). */
module Domain {
  import opened Wrappers

  /** The named statuses; `Other` is any other text that a provider may answer with. */
  datatype Status =
    | Queued | Processing | Accepted | Sent | Delivered | Bounced | Complained
    | Failed | Expired | Canceled | Paused
    | Other(text: string)

  /** The table of allowed status changes. */
  predicate Edge(from: Status, to: Status) {
    match from
    case Queued => to in {Processing, Canceled, Paused, Expired}
    case Processing => to in {Accepted, Sent, Failed, Queued, Paused}
    case Accepted => to in {Sent, Delivered, Bounced, Failed}
    case Sent => to in {Delivered, Bounced, Complained, Failed}
    case Paused => to in {Queued, Canceled}
    case _ => false
  }

  /** The value of a notification at one moment. Instants are nanoseconds. The message itself
      (targets, template, body) plays no part in delivery control and is not modelled. */
  datatype Note = Note(
    id: string,
    tenantId: string,
    idempotencyKey: string,
    channel: string,
    priority: int,
    scheduleAt: Option<int>,
    expiresAt: Option<int>,
    status: Status,
    attempts: int,
    provider: string,
    lastError: string,
    createdAt: int,
    updatedAt: int,
    version: int
  )

  /** What a Go map yields for a missing notification. */
  const ZERO_NOTE := Note("", "", "", "", 0, None, None, Other(""), 0, "", "", 0, 0, 0)

  /** `Transition` on values: `None` is the error, and staying put changes nothing. */
  function Transitioned(n: Note, next: Status, now: int): Option<Note> {
    if n.status == next then Some(n)
    else if !Edge(n.status, next) then None
    else Some(n.(status := next, version := n.version + 1, updatedAt := now))
  }

  /** The object that queue, timers and workers share by pointer. */
  class Notification {
    const id: string
    const tenantId: string
    const idempotencyKey: string
    const channel: string
    const priority: int
    const scheduleAt: Option<int>
    const expiresAt: Option<int>
    const createdAt: int
    var status: Status
    var attempts: int
    var provider: string
    var lastError: string
    var updatedAt: int
    var version: int

    function Value(): Note
      reads this
    {
      Note(id, tenantId, idempotencyKey, channel, priority, scheduleAt, expiresAt, status, attempts, provider,
           lastError, createdAt, updatedAt, version)
    }

    constructor (n: Note)
      ensures Value() == n
    {
      id, tenantId, idempotencyKey, channel := n.id, n.tenantId, n.idempotencyKey, n.channel;
      priority, scheduleAt, expiresAt, createdAt := n.priority, n.scheduleAt, n.expiresAt, n.createdAt;
      status, attempts, provider, lastError := n.status, n.attempts, n.provider, n.lastError;
      updatedAt, version := n.updatedAt, n.version;
    }

    /** An error leaves the notification untouched. */
    method Transition(next: Status, now: int) returns (ok: bool)
      modifies this
      ensures ok == Transitioned(old(Value()), next, now).Some?
      ensures Value() == if ok then Transitioned(old(Value()), next, now).value else old(Value())
    {
      if status == next {
        return true;
      }
      if !Edge(status, next) {
        return false;
      }
      status := next;
      version := version + 1;
      updatedAt := now;
      return true;
    }
  }
}
