/** The delay queue (internal/queue/delay.go): items wait in a heap ordered by their due time until
    `Run` hands them over to the priority queue. */
module DelayQueue {
  import opened Wrappers
  import opened Domain
  import opened Heap
  import opened PriorityQueue

  predicate Earlier(a: int, b: int) {
    a < b
  }

  lemma EarlierIsWeakOrder()
    ensures WeakOrder(Earlier)
  {
  }

  type Item = (int, Notification)

  predicate NonDecreasing(out: seq<Item>) {
    forall i, j | 0 <= i < j < |out| :: out[i].0 <= out[j].0
  }

  /** Handing over `out` made one Enqueue call on the target for each item, in order. */
  ghost predicate HandedTo(target: Queue, out: seq<Item>, stamps: seq<int>, accepted: seq<bool>,
                           bags: seq<multiset<(Ticket, Notification)>>)
  {
    && |out| == |accepted| <= |stamps| && |bags| == |out| + 1
    && forall k | 0 <= k < |out| ::
         BagStep(target.max, bags[k], Enqueued((Ticket(out[k].1.priority, stamps[k]), out[k].1), accepted[k]),
                 bags[k + 1])
  }

  // ---------- Whole histories ----------

  /** One call and its outcome; `Ran` is a stretch of passes with no Add in between. */
  datatype DelayCall = Added(item: Item, accepted: bool) | Ran(readings: seq<int>, out: seq<Item>)

  /** What a stretch of passes at these clock readings may hand over: everything was due when it
      was handed over and is not later than what stays, the order is by due time, and the stretch
      ends early only when nothing held is due. */
  ghost predicate RunAllowed(before: multiset<Item>, readings: seq<int>, out: seq<Item>, after: multiset<Item>) {
    && before == after + multiset(out)
    && |out| <= |readings| && (forall k | 0 <= k < |out| :: out[k].0 <= readings[k])
    && NonDecreasing(out)
    && (forall p, k | p in after && 0 <= k < |out| :: out[k].0 <= p.0)
    && (|out| < |readings| ==> forall p | p in after :: p.0 > readings[|out|])
  }

  ghost predicate DelayStep(limit: int, before: multiset<Item>, call: DelayCall, after: multiset<Item>) {
    match call
    case Added(item, accepted) =>
      accepted == (|before| < limit) && after == if accepted then before + multiset{item} else before
    case Ran(readings, out) => RunAllowed(before, readings, out, after)
  }

  ghost predicate DelayTrace(limit: int, calls: seq<DelayCall>, bags: seq<multiset<Item>>) {
    && |bags| == |calls| + 1
    && bags[0] == multiset{}
    && forall k | 0 <= k < |calls| :: DelayStep(limit, bags[k], calls[k], bags[k + 1])
  }

  function Accepted(calls: seq<DelayCall>): multiset<Item> {
    if calls == [] then multiset{}
    else
      var call := calls[|calls| - 1];
      Accepted(calls[..|calls| - 1]) + if call.Added? && call.accepted then multiset{call.item} else multiset{}
  }

  function HandedOver(calls: seq<DelayCall>): seq<Item> {
    if calls == [] then []
    else
      var call := calls[|calls| - 1];
      HandedOver(calls[..|calls| - 1]) + if call.Ran? then call.out else []
  }

  /** Over any sequence of calls nothing is lost or duplicated: the accepted items are those held
      and those handed over; and never more than `limit` are held. */
  lemma {:induction false} DelayConserves(limit: int, calls: seq<DelayCall>, bags: seq<multiset<Item>>)
    requires DelayTrace(limit, calls, bags)
    ensures Accepted(calls) == bags[|calls|] + multiset(HandedOver(calls))
    ensures |bags[|calls|]| <= limit || bags[|calls|] == multiset{}
    decreases |calls|
  {
    if calls != [] {
      var front, call := calls[..|calls| - 1], calls[|calls| - 1];
      DelayConserves(limit, front, bags[..|calls|]);
      assert DelayStep(limit, bags[|front|], call, bags[|calls|]);
      if call.Ran? {
        assert |bags[|front|]| == |bags[|calls|]| + |call.out|;
      }
    }
  }

  class DelayQueue {
    const limit: int
    const heap: Heap<int, Notification>

    ghost predicate Valid()
      reads this, heap, heap.Held()
    {
      heap.Valid() && heap.less == Earlier
    }

    ghost function Contents(): multiset<Item>
      reads heap
    {
      heap.Contents()
    }

    constructor (limit: int)
      ensures Valid() && this.limit == limit && Contents() == multiset{}
      ensures fresh(heap)
    {
      EarlierIsWeakOrder();
      this.limit := limit;
      this.heap := new Heap(Earlier);
    }

    /** Refused exactly when `limit` items are held; a refused item is dropped. */
    method Add(n: Notification, due: int) returns (ok: bool)
      requires Valid()
      modifies heap, heap.Held()
      ensures Valid() && fresh(heap.Held() - old(heap.Held()))
      ensures DelayStep(limit, old(Contents()), Added((due, n), ok), Contents())
    {
      if |heap.items| >= limit {
        return false;
      }
      heap.Push(due, n);
      return true;
    }

    /** The locked part of one pass of the loop at one reading of the clock: the item taken is due
        and minimal, and if there is none, nothing held is due. */
    method Take(now: int) returns (taken: bool, due: int, n: Option<Notification>)
      requires Valid()
      modifies heap, heap.Held()
      ensures Valid() && heap.Held() <= old(heap.Held())
      ensures taken == n.Some?
      ensures taken ==>
                && due <= now
                && (forall p | p in old(Contents()) :: due <= p.0)
                && old(Contents()) == Contents() + multiset{(due, n.value)}
      ensures !taken ==> Contents() == old(Contents()) && forall p | p in Contents() :: p.0 > now
    {
      taken, due, n := false, 0, None;
      if |heap.items| == 0 {
        return;
      }
      if heap.items[0].key > now {
        heap.FirstIsLeast();
        return;
      }
      var key, value := heap.Pop();
      taken, due, n := true, key, Some(value);
    }

    /** One pass: what was taken is handed to the target, which stamps it later and may refuse it. */
    method HandOver(now: int, stamp: int, target: Queue)
      returns (taken: bool, due: int, n: Option<Notification>, accepted: bool)
      requires Valid() && target.Valid()
      requires {heap} + heap.Held() !! {target.heap} + target.heap.Held()
      modifies heap, heap.Held(), target.heap, target.heap.Held()
      ensures Valid() && target.Valid()
      ensures heap.Held() <= old(heap.Held()) && fresh(target.heap.Held() - old(target.heap.Held()))
      ensures {heap} + heap.Held() !! {target.heap} + target.heap.Held()
      ensures taken == n.Some?
      ensures taken ==>
                && due <= now
                && (forall p | p in old(Contents()) :: due <= p.0)
                && old(Contents()) == Contents() + multiset{(due, n.value)}
                && BagStep(target.max, old(target.Contents()),
                           Enqueued((Ticket(n.value.priority, stamp), n.value), accepted), target.Contents())
      ensures !taken ==>
                && (forall p | p in Contents() :: p.0 > now)
                && Contents() == old(Contents()) && target.Contents() == old(target.Contents())
    {
      hide WeakOrder, Ordered, BagStep;
      accepted := false;
      taken, due, n := Take(now);
      if taken {
        accepted := target.Enqueue(n.value, stamp);
      }
    }

    /** The loop while it finds something due, over the clock readings that it and the target make.
        Whether the target refuses an item is ignored. */
    method Run(readings: seq<int>, stamps: seq<int>, target: Queue)
      returns (out: seq<Item>, accepted: seq<bool>, ghost bags: seq<multiset<(Ticket, Notification)>>)
      requires Valid() && target.Valid() && |stamps| == |readings|
      requires {heap} + heap.Held() !! {target.heap} + target.heap.Held()
      modifies heap, heap.Held(), target.heap, target.heap.Held()
      ensures Valid() && target.Valid()
      ensures DelayStep(limit, old(Contents()), Ran(readings, out), Contents())
      ensures HandedTo(target, out, stamps, accepted, bags)
      ensures bags[0] == old(target.Contents()) && bags[|out|] == target.Contents()
    {
      hide Valid, Queue.Valid, Contents, Queue.Contents, WeakOrder, Ordered, BagStep, RunAllowed, HandedTo;
      ghost var start := Contents();
      out, accepted, bags := [], [], [target.Contents()];
      RunStarts(target, start, readings, stamps, bags);
      while |out| < |readings|
        invariant Valid() && target.Valid()
        invariant heap.Held() <= old(heap.Held()) && fresh(target.heap.Held() - old(target.heap.Held()))
        invariant {heap} + heap.Held() !! {target.heap} + target.heap.Held()
        invariant |out| <= |readings| && RunAllowed(start, readings[..|out|], out, Contents())
        invariant HandedTo(target, out, stamps, accepted, bags)
        invariant |bags| == |out| + 1 && bags[0] == old(target.Contents()) && bags[|out|] == target.Contents()
      {
        ghost var before := Contents();
        var taken, due, n, ok := HandOver(readings[|out|], stamps[|out|], target);
        if !taken {
          RunRests(start, readings, out, before);
          return;
        }
        RunGoesOn(start, readings, out, before, (due, n.value), Contents());
        HandingGoesOn(target, out, stamps, accepted, bags, (due, n.value), ok, target.Contents());
        out, accepted, bags := out + [(due, n.value)], accepted + [ok], bags + [target.Contents()];
      }
      assert readings[..|out|] == readings;
    }
  }

  lemma RunStarts(target: Queue, held: multiset<Item>, readings: seq<int>, stamps: seq<int>,
                  bags: seq<multiset<(Ticket, Notification)>>)
    requires |bags| == 1
    ensures RunAllowed(held, readings[..0], [], held) && HandedTo(target, [], stamps, [], bags)
  {
  }

  lemma HandingGoesOn(target: Queue, out: seq<Item>, stamps: seq<int>, accepted: seq<bool>,
                      bags: seq<multiset<(Ticket, Notification)>>, x: Item, ok: bool,
                      bag: multiset<(Ticket, Notification)>)
    requires HandedTo(target, out, stamps, accepted, bags) && |out| < |stamps|
    requires BagStep(target.max, bags[|out|], Enqueued((Ticket(x.1.priority, stamps[|out|]), x.1), ok), bag)
    ensures HandedTo(target, out + [x], stamps, accepted + [ok], bags + [bag])
  {
    hide BagStep;
  }

  lemma RunGoesOn(start: multiset<Item>, readings: seq<int>, out: seq<Item>, before: multiset<Item>, x: Item,
                  after: multiset<Item>)
    requires |out| < |readings| && RunAllowed(start, readings[..|out|], out, before)
    requires before == after + multiset{x} && x.0 <= readings[|out|]
    requires forall p | p in before :: x.0 <= p.0
    ensures RunAllowed(start, readings[..|out| + 1], out + [x], after)
  {
    assert x in before;
    forall p | p in after
      ensures p in before
    {
    }
  }

  lemma RunRests(start: multiset<Item>, readings: seq<int>, out: seq<Item>, after: multiset<Item>)
    requires |out| < |readings| && RunAllowed(start, readings[..|out|], out, after)
    requires forall p | p in after :: p.0 > readings[|out|]
    ensures RunAllowed(start, readings, out, after)
  {
  }
}
