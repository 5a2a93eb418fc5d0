/** Bounded retention: choosing the oldest records of a collection.

    The morning-run history and the maintenance-job history are bounded the same
    way: sort the terminal records by (time, id) and drop a prefix. */
module Retention {
  import opened Common
  import opened Sorting

  /** (time, id) order of two records. */
  predicate Older(ages: map<string, real>, a: string, b: string) {
    && a in ages && b in ages
    && (ages[a] < ages[b] || (ages[a] == ages[b] && Before(a, b)))
  }

  function AgeOrder(ages: map<string, real>): Order {
    (a, b) => Older(ages, a, b)
  }

  lemma AgeOrderIsStrictTotal(ages: map<string, real>)
    ensures StrictTotal(AgeOrder(ages), ages.Keys)
  {
    var less := AgeOrder(ages);
    forall a | a in ages
      ensures !less(a, a)
    {
      BeforeIrreflexive(a);
    }
    forall a, b | a in ages && b in ages && a != b
      ensures less(a, b) || less(b, a)
    {
      BeforeTotal(a, b);
    }
    forall a, b, c | less(a, b) && less(b, c)
      ensures less(a, c)
    {
      if Before(a, b) && Before(b, c) {
        BeforeTransitive(a, b, c);
      }
    }
  }

  function Elders(ages: map<string, real>, k: string): set<string> {
    set j | j in ages && Older(ages, j, k)
  }

  /** The `n` oldest records: those with fewer than `n` elders. */
  function Oldest(ages: map<string, real>, n: nat): set<string> {
    set k | k in ages && |Elders(ages, k)| < n
  }

  lemma RankOf(ages: map<string, real>, list: seq<string>, i: nat)
    requires IsSorted(AgeOrder(ages), ages.Keys, list) && i < |list|
    ensures |Elders(ages, list[i])| == i
  {
    AgeOrderIsStrictTotal(ages);
    SortedSize(AgeOrder(ages), ages.Keys, list);
    forall j | j in ages
      ensures Older(ages, j, list[i]) <==> j in Elements(list[..i])
    {
      assert j in Elements(list);
      var p :| 0 <= p < |list| && list[p] == j;
      if p < i {
        assert list[..i][p] == j;
        assert AgeOrder(ages)(list[p], list[i]);
      } else if i < p {
        assert AgeOrder(ages)(list[i], list[p]);
      }
    }
    assert Elders(ages, list[i]) == Elements(list[..i]);
    DistinctSize(list[..i]);
  }

  /** A prefix of the sorted records is exactly the set of the oldest ones. */
  lemma PrefixIsOldest(ages: map<string, real>, list: seq<string>, n: nat)
    requires IsSorted(AgeOrder(ages), ages.Keys, list)
    ensures |list| == |ages|
    ensures Oldest(ages, n) == Elements(list[..Min(n, |list|)])
    ensures |Oldest(ages, n)| == Min(n, |ages|)
  {
    AgeOrderIsStrictTotal(ages);
    SortedSize(AgeOrder(ages), ages.Keys, list);
    assert |ages.Keys| == |ages|;
    var m := Min(n, |list|);
    forall k | k in ages
      ensures k in Oldest(ages, n) <==> k in Elements(list[..m])
    {
      assert k in Elements(list);
      var p :| 0 <= p < |list| && list[p] == k;
      RankOf(ages, list, p);
      if p < m {
        assert list[..m][p] == k;
      }
    }
    DistinctSize(list[..m]);
  }

  /** The number dropped is exact, and everything dropped is older than everything kept. */
  lemma OldestAreOldest(ages: map<string, real>, n: nat)
    ensures |Oldest(ages, n)| == Min(n, |ages|)
    ensures forall a, b :: a in Oldest(ages, n) && b in ages && b !in Oldest(ages, n) ==> Older(ages, a, b)
  {
    AgeOrderIsStrictTotal(ages);
    PrefixIsOldest(ages, Sorted(AgeOrder(ages), ages.Keys), n);
    forall a, b | a in Oldest(ages, n) && b in ages && b !in Oldest(ages, n)
      ensures Older(ages, a, b)
    {
      EldersNest(ages, b, a);
      assert AgeOrder(ages)(a, b) || AgeOrder(ages)(b, a);
    }
  }

  lemma EldersNest(ages: map<string, real>, a: string, b: string)
    ensures Older(ages, a, b) ==> |Elders(ages, a)| <= |Elders(ages, b)|
  {
    AgeOrderIsStrictTotal(ages);
    if Older(ages, a, b) {
      forall j | j in Elders(ages, a)
        ensures j in Elders(ages, b)
      {
        assert AgeOrder(ages)(j, a) && AgeOrder(ages)(a, b);
        assert AgeOrder(ages)(j, b);
      }
      SubsetSize(Elders(ages, a), Elders(ages, b));
    }
  }

  /** `records` after dropping enough of the oldest terminal ones to respect `limit`;
      `ages` holds the terminal records only. */
  function Bounded<V>(records: map<string, V>, ages: map<string, real>, limit: nat): map<string, V> {
    records - Oldest(ages, Excess(|records|, limit))
  }

  function Excess(size: nat, limit: nat): nat {
    if size > limit then size - limit else 0
  }

  lemma KeysWithout<V>(records: map<string, V>, dropped: set<string>)
    requires dropped <= records.Keys
    ensures (records - dropped).Keys == records.Keys - dropped
    ensures |records - dropped| == |records| - |dropped|
  {
    assert |(records - dropped).Keys| == |records.Keys| - |dropped|;
  }

  /** The bound is met as far as terminal records allow; only the oldest of those go. */
  lemma BoundedFacts<V>(records: map<string, V>, ages: map<string, real>, limit: nat)
    requires ages.Keys <= records.Keys
    ensures forall k :: k in Bounded(records, ages, limit) ==>
              k in records && Bounded(records, ages, limit)[k] == records[k]
    ensures forall k :: k in records && k !in ages ==> k in Bounded(records, ages, limit)
    ensures forall gone, k ::
              && gone in records && gone !in Bounded(records, ages, limit)
              && k in ages && k in Bounded(records, ages, limit)
              ==> Older(ages, gone, k)
    ensures |Bounded(records, ages, limit)| ==
            if |records| <= limit then |records|
            else if limit < |records.Keys - ages.Keys| then |records.Keys - ages.Keys| else limit
  {
    var n := Excess(|records|, limit);
    OldestAreOldest(ages, n);
    KeysWithout(records, Oldest(ages, n));
    KeysWithout(records, ages.Keys);
    assert |ages.Keys| == |ages|;
    assert |records.Keys - ages.Keys| == |records| - |ages|;
  }

  /** `for old in sorted(records, key=(time, id))[:n]`: the ids that get dropped. */
  method PickOldest(ages: map<string, real>, n: nat) returns (dropped: seq<string>)
    ensures Elements(dropped) == Oldest(ages, n)
    ensures forall i, j :: 0 <= i < j < |dropped| ==> Older(ages, dropped[i], dropped[j])
  {
    AgeOrderIsStrictTotal(ages);
    var list := Sort(AgeOrder(ages), ages.Keys);
    PrefixIsOldest(ages, list, n);
    dropped := list[..Min(n, |list|)];
    assert forall i, j :: 0 <= i < j < |dropped| ==> AgeOrder(ages)(list[i], list[j]);
  }

  /** `for old in dropped: records.pop(old)` */
  method DropKeys<V>(records: map<string, V>, dropped: seq<string>) returns (kept: map<string, V>)
    ensures kept == records - Elements(dropped)
  {
    kept := records;
    var i := 0;
    while i < |dropped|
      invariant 0 <= i <= |dropped|
      invariant forall k :: k in kept <==> k in records && k !in dropped[..i]
      invariant forall k :: k in kept ==> kept[k] == records[k]
    {
      kept := kept - {dropped[i]};
      i := i + 1;
    }
  }

  /** Bounding a collection in place. */
  method Bound<V>(records: map<string, V>, ages: map<string, real>, limit: nat) returns (kept: map<string, V>)
    ensures kept == Bounded(records, ages, limit)
  {
    var dropped := PickOldest(ages, Excess(|records|, limit));
    kept := DropKeys(records, dropped);
  }
}
