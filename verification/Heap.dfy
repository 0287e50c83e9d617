/** The binary heap behind both queues: Go's container/heap driven through the queues' own
    Less, Swap, Push and Pop, with every item remembering its index.

    It is proved once, over an abstract strict weak order on keys, and used by `PriorityQueue` and
    `DelayQueue` with their own orders. */
module Heap {
  /** `less` is a strict weak order: "not less" is total and transitive. */
  ghost predicate WeakOrder<K(!new)>(less: (K, K) -> bool) {
    && (forall a, b | less(a, b) :: !less(b, a))
    && (forall a, b, c | !less(a, b) && !less(b, c) :: !less(a, c))
  }

  function Parent(j: nat): (p: int)
    requires j > 0
  {
    (j - 1) / 2
  }

  /** The first `n` keys form a heap. */
  ghost predicate Ordered<K(!new)>(less: (K, K) -> bool, ks: seq<K>, n: nat)
    requires n <= |ks|
  {
    forall j | 0 < j < n :: !less(ks[j], ks[Parent(j)])
  }

  /** A heap but for key `at`, which may be too small for its parent. */
  ghost predicate Rising<K(!new)>(less: (K, K) -> bool, ks: seq<K>, n: nat, at: nat)
    requires n <= |ks|
  {
    && (forall j | 0 < j < n && j != at :: !less(ks[j], ks[Parent(j)]))
    && (forall j | 0 < j < n && Parent(j) == at && at > 0 :: !less(ks[j], ks[Parent(at)]))
  }

  /** A heap but for key `at`, which may be too large for its children. */
  ghost predicate Sinking<K(!new)>(less: (K, K) -> bool, ks: seq<K>, n: nat, at: nat)
    requires n <= |ks|
  {
    && (forall j | 0 < j < n && Parent(j) != at :: !less(ks[j], ks[Parent(j)]))
    && (forall j | 0 < j < n && Parent(j) == at && at > 0 :: !less(ks[j], ks[Parent(at)]))
  }

  function Swapped<X>(s: seq<X>, i: nat, j: nat): seq<X>
    requires i < |s| && j < |s|
  {
    s[i := s[j]][j := s[i]]
  }

  lemma SwappedMultiset<X>(s: seq<X>, i: nat, j: nat)
    requires i < |s| && j < |s|
    ensures multiset(Swapped(s, i, j)) == multiset(s)
  {
  }

  lemma RiseStep<K(!new)>(less: (K, K) -> bool, ks: seq<K>, n: nat, at: nat)
    requires WeakOrder(less) && n <= |ks| && 0 < at < n
    requires Rising(less, ks, n, at) && less(ks[at], ks[Parent(at)])
    ensures Rising(less, Swapped(ks, Parent(at), at), n, Parent(at))
  {
    var p := Parent(at);
    var after := Swapped(ks, p, at);
    forall j | 0 < j < n && j != p
      ensures !less(after[j], after[Parent(j)])
    {
      if j != at && Parent(j) == p {
        assert !less(ks[j], ks[p]);
      }
    }
    forall j | 0 < j < n && Parent(j) == p && p > 0
      ensures !less(after[j], after[Parent(p)])
    {
      assert !less(ks[p], ks[Parent(p)]);
    }
  }

  lemma RiseEnds<K(!new)>(less: (K, K) -> bool, ks: seq<K>, n: nat, at: nat)
    requires n <= |ks| && at < n && Rising(less, ks, n, at)
    requires at == 0 || !less(ks[at], ks[Parent(at)])
    ensures Ordered(less, ks, n)
  {
  }

  lemma SinkStep<K(!new)>(less: (K, K) -> bool, ks: seq<K>, n: nat, at: nat, child: nat)
    requires WeakOrder(less) && n <= |ks| && 0 < child < n && Parent(child) == at
    requires Sinking(less, ks, n, at) && less(ks[child], ks[at])
    requires forall j | 0 < j < n && Parent(j) == at :: !less(ks[j], ks[child])
    ensures Sinking(less, Swapped(ks, at, child), n, child)
  {
    var after := Swapped(ks, at, child);
    forall j | 0 < j < n && Parent(j) != child
      ensures !less(after[j], after[Parent(j)])
    {
      if j == at {
        assert !less(ks[child], ks[Parent(at)]);
      }
    }
    forall j | 0 < j < n && Parent(j) == child
      ensures !less(after[j], after[Parent(child)])
    {
      assert !less(ks[j], ks[child]);
    }
  }

  lemma SinkEnds<K(!new)>(less: (K, K) -> bool, ks: seq<K>, n: nat, at: nat)
    requires n <= |ks| && at < n && Sinking(less, ks, n, at)
    requires forall j | 0 < j < n && Parent(j) == at :: !less(ks[j], ks[at])
    ensures Ordered(less, ks, n)
  {
  }

  /** The child that the sift-down picks is not greater than its sibling. */
  lemma SmallerChild<K(!new)>(less: (K, K) -> bool, ks: seq<K>, n: nat, at: nat, child: nat)
    requires WeakOrder(less) && n <= |ks| && 2 * at + 1 < n
    requires child == if 2 * at + 2 < n && less(ks[2 * at + 2], ks[2 * at + 1]) then 2 * at + 2 else 2 * at + 1
    ensures 0 < child < n && Parent(child) == at
    ensures forall j | 0 < j < n && Parent(j) == at :: !less(ks[j], ks[child])
  {
    forall j | 0 < j < n && Parent(j) == at
      ensures !less(ks[j], ks[child])
    {
      assert j == 2 * at + 1 || j == 2 * at + 2;
    }
  }

  lemma ChildrenNotLess<K(!new)>(less: (K, K) -> bool, ks: seq<K>, n: nat, at: nat, child: nat)
    requires WeakOrder(less) && n <= |ks| && 0 < child < n && at < n
    requires forall j | 0 < j < n && Parent(j) == at :: !less(ks[j], ks[child])
    requires !less(ks[child], ks[at])
    ensures forall j | 0 < j < n && Parent(j) == at :: !less(ks[j], ks[at])
  {
  }

  lemma LeafEnds<K(!new)>(less: (K, K) -> bool, ks: seq<K>, n: nat, at: nat)
    requires n <= |ks| && n <= 2 * at + 1 && Sinking(less, ks, n, at)
    ensures Ordered(less, ks, n)
  {
  }

  /** No key of a heap is less than its root. */
  lemma {:induction false} RootIsLeast<K(!new)>(less: (K, K) -> bool, ks: seq<K>, n: nat, j: nat)
    requires WeakOrder(less) && n <= |ks| && Ordered(less, ks, n) && j < n
    ensures !less(ks[j], ks[0])
    decreases j
  {
    if j > 0 {
      RootIsLeast(less, ks, n, Parent(j));
      assert !less(ks[j], ks[Parent(j)]);
    }
  }

  class Entry<K, V> {
    const key: K
    const value: V
    var index: int

    constructor (key: K, value: V, index: int)
      ensures this.key == key && this.value == value && this.index == index
    {
      this.key, this.value, this.index := key, value, index;
    }
  }

  class Heap<K(!new), V> {
    const less: (K, K) -> bool
    var items: seq<Entry<K, V>>

    function Keys(): (ks: seq<K>)
      reads this
      ensures |ks| == |items|
    {
      seq(|items|, i requires 0 <= i < |items| reads this => items[i].key)
    }

    function Pairs(): (ps: seq<(K, V)>)
      reads this
      ensures |ps| == |items|
    {
      seq(|items|, i requires 0 <= i < |items| reads this => (items[i].key, items[i].value))
    }

    /** What the heap holds, as a bag. */
    ghost function Contents(): multiset<(K, V)>
      reads this
    {
      multiset(Pairs())
    }

    /** The item objects. */
    ghost function Held(): set<Entry<K, V>>
      reads this
    {
      set e | e in items
    }

    /** Every item knows where it is, so no item is held twice. */
    ghost predicate Indexed()
      reads this, items
    {
      forall i | 0 <= i < |items| :: items[i].index == i
    }

    ghost predicate Valid()
      reads this, items
    {
      WeakOrder(less) && Indexed() && Ordered(less, Keys(), |items|)
    }

    constructor (less: (K, K) -> bool)
      requires WeakOrder(less)
      ensures Valid() && items == [] && this.less == less
    {
      this.less := less;
      items := [];
    }

    method Swap(i: nat, j: nat)
      requires Indexed() && i < |items| && j < |items|
      modifies this`items, items[i], items[j]
      ensures Indexed()
      ensures items == Swapped(old(items), i, j)
      ensures Keys() == Swapped(old(Keys()), i, j)
      ensures Contents() == old(Contents()) && Held() == old(Held())
    {
      SwappedMultiset(Pairs(), i, j);
      SwappedSame(items, i, j);
      ghost var before := Pairs();
      items := items[i := items[j]][j := items[i]];
      items[i].index := i;
      items[j].index := j;
      assert Keys() == Swapped(old(Keys()), i, j);
      assert Pairs() == Swapped(before, i, j);
    }

    /** Sift-up of the last item. */
    method Up(start: nat)
      requires WeakOrder(less) && Indexed() && start == |items| - 1
      requires Rising(less, Keys(), |items|, start)
      modifies this`items, Held()
      ensures Valid()
      ensures Contents() == old(Contents()) && |items| == old(|items|)
      ensures Held() == old(Held())
    {
      var j := start;
      while j > 0 && less(items[j].key, items[Parent(j)].key)
        invariant 0 <= j < |items| == old(|items|)
        invariant Indexed() && Rising(less, Keys(), |items|, j)
        invariant Contents() == old(Contents())
        invariant Held() == old(Held())
      {
        RiseStep(less, Keys(), |items|, j);
        Swap(Parent(j), j);
        j := Parent(j);
      }
      RiseEnds(less, Keys(), |items|, j);
    }

    /** Sift-down from the root among the first `n` items. */
    method Down(n: nat)
      requires WeakOrder(less) && Indexed() && n <= |items|
      requires Sinking(less, Keys(), n, 0)
      modifies this`items, Held()
      ensures Indexed() && |items| == old(|items|)
      ensures Ordered(less, Keys(), n)
      ensures Contents() == old(Contents())
      ensures forall k | n <= k < |items| :: items[k] == old(items)[k]
      ensures Held() == old(Held())
    {
      hide WeakOrder, Ordered, Sinking;
      var i := 0;
      while 2 * i + 1 < n
        invariant 0 <= i && (i < n || n == 0)
        invariant |items| == old(|items|)
        invariant Indexed() && Sinking(less, Keys(), n, i)
        invariant Contents() == old(Contents())
        invariant forall k | n <= k < |items| :: items[k] == old(items)[k]
        invariant Held() == old(Held())
        decreases n - i
      {
        var child := 2 * i + 1;
        if child + 1 < n && less(items[child + 1].key, items[child].key) {
          child := child + 1;
        }
        SmallerChild(less, Keys(), n, i, child);
        if !less(items[child].key, items[i].key) {
          ChildrenNotLess(less, Keys(), n, i, child);
          SinkEnds(less, Keys(), n, i);
          return;
        }
        SinkStep(less, Keys(), n, i, child);
        Swap(i, child);
        i := child;
      }
      LeafEnds(less, Keys(), n, i);
    }

    /** The slice operation of the queues' own Pop. */
    method PopLast() returns (last: Entry<K, V>)
      requires WeakOrder(less) && Indexed() && items != [] && Ordered(less, Keys(), |items| - 1)
      modifies this`items
      ensures Valid()
      ensures last == old(items)[|old(items)| - 1] && items == old(items)[..|old(items)| - 1]
      ensures Contents() == old(Contents()) - multiset{(last.key, last.value)}
      ensures Held() <= old(Held())
    {
      var n := |items| - 1;
      last := items[n];
      ghost var pairs, keys := Pairs(), Keys();
      items := items[..n];
      assert Pairs() == pairs[..n] && pairs == pairs[..n] + [(last.key, last.value)];
      assert Keys() == keys[..n];
    }

    method Push(key: K, value: V)
      requires Valid()
      modifies this`items, Held()
      ensures Valid()
      ensures Contents() == old(Contents()) + multiset{(key, value)}
      ensures |items| == old(|items|) + 1
      ensures fresh(Held() - old(Held()))
    {
      var entry := new Entry(key, value, |items|);
      ghost var before, keys := Pairs(), Keys();
      items := items + [entry];
      assert Pairs() == before + [(key, value)];
      assert Keys() == keys + [key];
      Up(|items| - 1);
    }

    /** Removes an item such that no held key is less than its key. */
    method Pop() returns (key: K, value: V)
      requires Valid() && items != []
      modifies this`items, Held()
      ensures Valid()
      ensures key == old(items)[0].key && value == old(items)[0].value
      ensures (key, value) in old(Contents())
      ensures Contents() == old(Contents()) - multiset{(key, value)}
      ensures |items| == old(|items|) - 1
      ensures forall p | p in old(Contents()) :: !less(p.0, key)
      ensures Held() <= old(Held())
    {
      hide WeakOrder, Ordered, Sinking, Rising, Heap.Pairs, Heap.Contents;
      var n := |items| - 1;
      key, value := items[0].key, items[0].value;
      FirstIsLeast();
      LastToRootSinks(less, Keys(), n);
      Swap(0, n);
      Down(n);
      var last := PopLast();
    }

    /** No held key is less than that of the first item. */
    lemma FirstIsLeast()
      requires Valid() && items != []
      ensures forall p | p in Contents() :: !less(p.0, items[0].key)
      ensures (items[0].key, items[0].value) in Contents()
    {
      assert (items[0].key, items[0].value) == Pairs()[0];
      forall p | p in Contents()
        ensures !less(p.0, items[0].key)
      {
        var j :| 0 <= j < |Pairs()| && Pairs()[j] == p;
        RootIsLeast(less, Keys(), |items|, j);
      }
    }
  }

  lemma SwappedSame<X>(s: seq<X>, i: nat, j: nat)
    requires i < |s| && j < |s|
    ensures forall e :: e in Swapped(s, i, j) <==> e in s
  {
    forall e
      ensures e in Swapped(s, i, j) <==> e in s
    {
      SwappedMultiset(s, i, j);
      assert e in Swapped(s, i, j) <==> e in multiset(Swapped(s, i, j));
    }
  }

  lemma LastToRootSinks<K(!new)>(less: (K, K) -> bool, ks: seq<K>, n: nat)
    requires n + 1 == |ks| && Ordered(less, ks, n + 1)
    ensures Sinking(less, Swapped(ks, 0, n), n, 0)
  {
    var after := Swapped(ks, 0, n);
    forall j | 0 < j < n && Parent(j) != 0
      ensures !less(after[j], after[Parent(j)])
    {
      assert !less(ks[j], ks[Parent(j)]);
    }
  }
}
