/** The bounded priority queue (internal/queue/priority.go) and the ordered list that it refines. */
module PriorityQueue {
  import opened Wrappers
  import opened Domain
  import opened Heap

  /** What the order looks at: the priority, and the time of enqueueing. */
  datatype Ticket = Ticket(priority: int, enqueued: int)

  /** Higher priorities first, earlier arrivals first among equals. */
  predicate Before(a: Ticket, b: Ticket) {
    if a.priority == b.priority then a.enqueued < b.enqueued else a.priority > b.priority
  }

  lemma BeforeIsWeakOrder()
    ensures WeakOrder(Before)
  {
  }

  // ---------- What an observer sees ----------

  /** One call and its answer. */
  datatype Call<V> = Enqueued(item: (Ticket, V), accepted: bool) | Dequeued(out: Option<(Ticket, V)>)

  /** A bounded bag from which some item with no other before it is taken. */
  ghost predicate BagStep<V>(max: int, before: multiset<(Ticket, V)>, call: Call<V>, after: multiset<(Ticket, V)>) {
    match call
    case Enqueued(item, accepted) =>
      && accepted == (|before| < max)
      && after == if accepted then before + multiset{item} else before
    case Dequeued(out) =>
      && (out.None? <==> before == multiset{})
      && (out.None? ==> after == before)
      && (out.Some? ==> out.value in before && after == before - multiset{out.value}
                        && forall p | p in before :: !Before(p.0, out.value.0))
  }

  /** The bags that a sequence of calls leads through, from the empty one. */
  ghost predicate BagTrace<V>(max: int, calls: seq<Call<V>>, bags: seq<multiset<(Ticket, V)>>) {
    && |bags| == |calls| + 1
    && bags[0] == multiset{}
    && forall k | 0 <= k < |calls| :: BagStep(max, bags[k], calls[k], bags[k + 1])
  }

  // ---------- The ordered list ----------

  function Insert<V>(list: seq<(Ticket, V)>, item: (Ticket, V)): seq<(Ticket, V)> {
    if list == [] then [item]
    else if Before(item.0, list[0].0) then [item] + list
    else [list[0]] + Insert(list[1..], item)
  }

  predicate Sorted<V>(list: seq<(Ticket, V)>) {
    forall i, j | 0 <= i < j < |list| :: Before(list[i].0, list[j].0)
  }

  function ListStep<V>(max: int, list: seq<(Ticket, V)>, call: Call<V>): seq<(Ticket, V)> {
    match call
    case Enqueued(item, _) => if |list| < max then Insert(list, item) else list
    case Dequeued(_) => if list == [] then [] else list[1..]
  }

  function ListAfter<V>(max: int, calls: seq<Call<V>>): seq<(Ticket, V)> {
    if calls == [] then [] else ListStep(max, ListAfter(max, calls[..|calls| - 1]), calls[|calls| - 1])
  }

  /** The answer that the ordered list gives. */
  predicate ListAnswers<V(==)>(max: int, list: seq<(Ticket, V)>, call: Call<V>) {
    match call
    case Enqueued(_, accepted) => accepted == (|list| < max)
    case Dequeued(out) => out == if list == [] then None else Some(list[0])
  }

  predicate ListExplains<V(==)>(max: int, calls: seq<Call<V>>) {
    forall k | 0 <= k < |calls| :: ListAnswers(max, ListAfter(max, calls[..k]), calls[k])
  }

  /** The clock never gives two enqueue calls the same stamp. */
  predicate StampsIncrease<V>(calls: seq<Call<V>>) {
    forall i, j | 0 <= i < j < |calls| && calls[i].Enqueued? && calls[j].Enqueued? ::
      calls[i].item.0.enqueued < calls[j].item.0.enqueued
  }

  lemma ConsSorted<V>(item: (Ticket, V), list: seq<(Ticket, V)>)
    requires Sorted(list) && forall p | p in list :: Before(item.0, p.0)
    ensures Sorted([item] + list)
  {
  }

  lemma HeadGoesFirst<V>(list: seq<(Ticket, V)>, item: (Ticket, V))
    requires Sorted(list) && list != [] && !Before(item.0, list[0].0) && list[0].0.enqueued < item.0.enqueued
    ensures Before(list[0].0, item.0)
    ensures forall p | p in list[1..] :: Before(list[0].0, p.0)
  {
    forall i | 0 < i < |list|
      ensures Before(list[0].0, list[i].0)
    {
    }
  }

  lemma {:induction false} InsertKeeps<V>(list: seq<(Ticket, V)>, item: (Ticket, V))
    requires Sorted(list) && forall p | p in list :: p.0.enqueued < item.0.enqueued
    ensures Sorted(Insert(list, item))
    ensures multiset(Insert(list, item)) == multiset(list) + multiset{item}
  {
    if list != [] && !Before(item.0, list[0].0) {
      var rest := list[1..];
      InsertKeeps(rest, item);
      assert list == [list[0]] + rest;
      HeadGoesFirst(list, item);
      forall p | p in Insert(rest, item)
        ensures Before(list[0].0, p.0)
      {
        InsertAdds(rest, item, p);
      }
      ConsSorted(list[0], Insert(rest, item));
    } else if list != [] {
      ConsSorted(item, list);
    }
  }

  /** In a sorted list only the head has no other item before it. */
  lemma LeastIsHead<V>(list: seq<(Ticket, V)>, p: (Ticket, V))
    requires Sorted(list) && p in list
    requires forall q | q in list :: !Before(q.0, p.0)
    ensures p == list[0]
  {
    var i :| 0 <= i < |list| && list[i] == p;
    assert i == 0 by {
      assert !Before(list[0].0, list[i].0);
    }
  }

  lemma NothingSorted<V>()
    ensures Sorted<V>([])
  {
  }

  lemma StampsOfPrefix<V>(calls: seq<Call<V>>)
    requires StampsIncrease(calls) && calls != []
    ensures StampsIncrease(calls[..|calls| - 1])
  {
  }

  /** Every item of the list was enqueued by one of the calls. */
  lemma {:induction false} ListFromCalls<V>(max: int, calls: seq<Call<V>>, p: (Ticket, V))
    requires p in ListAfter(max, calls)
    ensures exists k :: 0 <= k < |calls| && calls[k].Enqueued? && calls[k].item == p
  {
    var front, call := calls[..|calls| - 1], calls[|calls| - 1];
    var list := ListAfter(max, front);
    if p in list {
      ListFromCalls(max, front, p);
      var k :| 0 <= k < |front| && front[k].Enqueued? && front[k].item == p;
      assert calls[k] == front[k];
    } else {
      InsertAdds(list, call.item, p);
      assert calls[|calls| - 1].item == p;
    }
  }

  lemma {:induction false} InsertAdds<V>(list: seq<(Ticket, V)>, item: (Ticket, V), p: (Ticket, V))
    ensures p in Insert(list, item) <==> p == item || p in list
  {
    if list != [] && !Before(item.0, list[0].0) {
      InsertAdds(list[1..], item, p);
      assert list == [list[0]] + list[1..];
    }
  }

  /** The refinement: any interleaving of calls that the bag explains, with increasing stamps, is
      answered exactly as the ordered list answers it, and leaves the same items. */
  lemma {:induction false} BagRefinesList<V>(max: int, calls: seq<Call<V>>, bags: seq<multiset<(Ticket, V)>>)
    requires BagTrace(max, calls, bags) && StampsIncrease(calls)
    ensures ListExplains(max, calls)
    ensures Sorted(ListAfter(max, calls)) && multiset(ListAfter(max, calls)) == bags[|calls|]
    decreases |calls|
  {
    hide BagStep, ListStep, ListAnswers, Sorted;
    if calls != [] {
      var front, call := calls[..|calls| - 1], calls[|calls| - 1];
      StampsOfPrefix(calls);
      BagRefinesList(max, front, bags[..|calls|]);
      var list := ListAfter(max, front);
      NewestStamp(max, calls);
      StepRefines(max, list, call, bags[|calls|]);
      forall k | 0 <= k < |calls|
        ensures ListAnswers(max, ListAfter(max, calls[..k]), calls[k])
      {
        if k < |front| {
          assert calls[..k] == front[..k] && calls[k] == front[k];
        } else {
          assert calls[..k] == front;
        }
      }
    } else {
      NothingSorted<V>();
    }
  }

  /** Over any sequence of calls, never more than `max` items are held. */
  lemma {:induction false} NeverBeyondMax<V>(max: int, calls: seq<Call<V>>, bags: seq<multiset<(Ticket, V)>>, k: nat)
    requires BagTrace(max, calls, bags) && k <= |calls|
    ensures |bags[k]| <= max || bags[k] == multiset{}
    decreases k
  {
    if k > 0 {
      NeverBeyondMax(max, calls, bags, k - 1);
      assert BagStep(max, bags[k - 1], calls[k - 1], bags[k]);
    }
  }

  // ---------- The order in priorities and arrivals ----------

  /** What is dequeued has the highest priority held, and among those of its priority the earliest
      stamp. */
  lemma MostUrgentFirst<V>(max: int, before: multiset<(Ticket, V)>, item: (Ticket, V), after: multiset<(Ticket, V)>)
    requires BagStep(max, before, Dequeued(Some(item)), after)
    ensures item in before
    ensures forall p | p in before :: p.0.priority <= item.0.priority
    ensures forall p | p in before && p.0.priority == item.0.priority :: item.0.enqueued <= p.0.enqueued
  {
  }

  /** In every trace with increasing stamps the list that explains the answers has falling priorities,
      with equal ones in the order of arrival. */
  lemma ListInOrderOfUrgency<V>(max: int, calls: seq<Call<V>>, bags: seq<multiset<(Ticket, V)>>)
    requires BagTrace(max, calls, bags) && StampsIncrease(calls)
    ensures var list := ListAfter(max, calls);
      && multiset(list) == bags[|calls|]
      && forall i, j | 0 <= i < j < |list| ::
           || list[i].0.priority > list[j].0.priority
           || (list[i].0.priority == list[j].0.priority && list[i].0.enqueued < list[j].0.enqueued)
  {
    BagRefinesList(max, calls, bags);
  }

  lemma NewestStamp<V>(max: int, calls: seq<Call<V>>)
    requires calls != [] && StampsIncrease(calls)
    ensures var call := calls[|calls| - 1];
      call.Enqueued? ==>
        forall p | p in ListAfter(max, calls[..|calls| - 1]) :: p.0.enqueued < call.item.0.enqueued
  {
    var front, call := calls[..|calls| - 1], calls[|calls| - 1];
    forall p | p in ListAfter(max, front) && call.Enqueued?
      ensures p.0.enqueued < call.item.0.enqueued
    {
      ListFromCalls(max, front, p);
      var k :| 0 <= k < |front| && front[k].Enqueued? && front[k].item == p;
      assert calls[k] == front[k];
    }
  }

  lemma StepRefines<V>(max: int, list: seq<(Ticket, V)>, call: Call<V>, bag: multiset<(Ticket, V)>)
    requires Sorted(list) && BagStep(max, multiset(list), call, bag)
    requires call.Enqueued? ==> forall p | p in list :: p.0.enqueued < call.item.0.enqueued
    ensures ListAnswers(max, list, call)
    ensures Sorted(ListStep(max, list, call)) && multiset(ListStep(max, list, call)) == bag
  {
    match call {
      case Enqueued(item, accepted) => InsertKeeps(list, item);
      case Dequeued(out) =>
        if out.Some? {
          LeastIsHead(list, out.value);
          assert list == [list[0]] + list[1..];
        }
    }
  }

  class Queue {
    const max: int
    const heap: Heap<Ticket, Notification>

    ghost predicate Valid()
      reads this, heap, heap.Held()
    {
      heap.Valid() && heap.less == Before
    }

    ghost function Contents(): multiset<(Ticket, Notification)>
      reads heap
    {
      heap.Contents()
    }

    constructor (max: int)
      ensures Valid() && this.max == max && Contents() == multiset{}
      ensures fresh(heap)
    {
      BeforeIsWeakOrder();
      this.max := max;
      this.heap := new Heap(Before);
    }

    /** Refused exactly when `max` items are held. */
    method Enqueue(n: Notification, now: int) returns (ok: bool)
      requires Valid()
      modifies heap, heap.Held()
      ensures Valid() && fresh(heap.Held() - old(heap.Held()))
      ensures BagStep(max, old(Contents()), Enqueued((Ticket(n.priority, now), n), ok), Contents())
    {
      if |heap.items| >= max {
        return false;
      }
      heap.Push(Ticket(n.priority, now), n);
      return true;
    }

    /** Yields a notification that no held one goes before, and nothing exactly when empty. */
    method Dequeue() returns (n: Option<Notification>, ghost ticket: Ticket)
      requires Valid()
      modifies heap, heap.Held()
      ensures Valid() && heap.Held() <= old(heap.Held())
      ensures BagStep(max, old(Contents()), Dequeued(if n.None? then None else Some((ticket, n.value))), Contents())
      ensures n.Some? ==> forall p | p in old(Contents()) ::
                p.0.priority < ticket.priority
                || (p.0.priority == ticket.priority && ticket.enqueued <= p.0.enqueued)
    {
      ticket, n := Ticket(0, 0), None;
      if |heap.items| > 0 {
        var key, value := heap.Pop();
        ticket, n := key, Some(value);
      }
    }
  }
}
