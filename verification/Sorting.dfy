/** Sorting a set of keys under a strict total order: Python's `sorted` over distinct keys. */
module Sorting {

  type Order = (string, string) -> bool

  ghost predicate StrictTotal(less: Order, keys: set<string>) {
    && (forall a :: a in keys ==> !less(a, a))
    && (forall a, b :: a in keys && b in keys && a != b ==> less(a, b) || less(b, a))
    && (forall a, b, c :: a in keys && b in keys && c in keys && less(a, b) && less(b, c) ==> less(a, c))
  }

  function Elements(s: seq<string>): set<string> {
    set x | x in s
  }

  /** `list` holds every key once, in ascending order. */
  ghost predicate IsSorted(less: Order, keys: set<string>, list: seq<string>) {
    && Elements(list) == keys
    && (forall i, j :: 0 <= i < j < |list| ==> less(list[i], list[j]))
  }

  lemma {:induction false} DistinctSize(s: seq<string>)
    requires forall i, j :: 0 <= i < j < |s| ==> s[i] != s[j]
    ensures |Elements(s)| == |s|
  {
    if s != [] {
      var init := s[..|s| - 1];
      DistinctSize(init);
      assert Elements(s) == Elements(init) + {s[|s| - 1]};
    }
  }

  lemma SortedSize(less: Order, keys: set<string>, list: seq<string>)
    requires StrictTotal(less, keys) && IsSorted(less, keys, list)
    ensures |list| == |keys|
    ensures forall i, j :: 0 <= i < j < |list| ==> list[i] != list[j]
    ensures forall i :: 0 <= i < |list| ==> list[i] in keys
  {
    forall i | 0 <= i < |list|
      ensures list[i] in keys
    {
      assert list[i] in Elements(list);
    }
    DistinctSize(list);
  }

  lemma TailSorted(less: Order, keys: set<string>, list: seq<string>)
    requires StrictTotal(less, keys) && IsSorted(less, keys, list) && list != []
    ensures IsSorted(less, keys - {list[0]}, list[1..])
  {
    SortedSize(less, keys, list);
    assert list == [list[0]] + list[1..];
    assert Elements(list) == {list[0]} + Elements(list[1..]);
  }

  /** There is only one sorted list of a set of keys. */
  lemma {:induction false} SortedUnique(less: Order, keys: set<string>, one: seq<string>, two: seq<string>)
    requires StrictTotal(less, keys) && IsSorted(less, keys, one) && IsSorted(less, keys, two)
    ensures one == two
    decreases |one|
  {
    SortedSize(less, keys, one);
    SortedSize(less, keys, two);
    if one != [] {
      assert one[0] in Elements(two) && two[0] in Elements(one);
      assert one[0] == two[0];
      TailSorted(less, keys, one);
      TailSorted(less, keys, two);
      SortedUnique(less, keys - {one[0]}, one[1..], two[1..]);
      assert one == [one[0]] + one[1..] && two == [two[0]] + two[1..];
    }
  }

  lemma {:induction false} Least(less: Order, keys: set<string>) returns (least: string)
    requires StrictTotal(less, keys) && keys != {}
    ensures least in keys
    ensures forall k :: k in keys && k != least ==> less(least, k)
    decreases keys
  {
    var some :| some in keys;
    least := some;
    var rest := keys - {some};
    if rest != {} {
      var other := Least(less, rest);
      assert other in keys && other != some;
      if less(other, some) {
        least := other;
      } else {
        assert less(some, other);
      }
      forall k | k in keys && k != least
        ensures less(least, k)
      {
        if k != some && k != other {
          assert k in rest;
          assert less(other, k);
        }
      }
    } else {
      assert keys == {some};
    }
  }

  lemma {:induction false} SortedExists(less: Order, keys: set<string>)
    requires StrictTotal(less, keys)
    ensures exists list :: IsSorted(less, keys, list)
    decreases keys
  {
    if keys == {} {
      assert IsSorted(less, keys, []);
    } else {
      var least := Least(less, keys);
      SortedExists(less, keys - {least});
      var rest :| IsSorted(less, keys - {least}, rest);
      var list := [least] + rest;
      assert Elements(list) == {least} + Elements(rest);
      forall i, j | 0 <= i < j < |list|
        ensures less(list[i], list[j])
      {
        assert list[j] in Elements(rest);
      }
      assert IsSorted(less, keys, list);
    }
  }

  /** The sorted list of `keys`. */
  ghost function Sorted(less: Order, keys: set<string>): (list: seq<string>)
    requires StrictTotal(less, keys)
    ensures IsSorted(less, keys, list)
  {
    SortedExists(less, keys);
    var list :| IsSorted(less, keys, list);
    list
  }

  lemma InsertSorted(less: Order, keys: set<string>, list: seq<string>, k: string, p: nat)
    requires IsSorted(less, keys, list) && p <= |list|
    requires forall i :: 0 <= i < p ==> less(list[i], k)
    requires forall i :: p <= i < |list| ==> less(k, list[i])
    ensures IsSorted(less, keys + {k}, list[..p] + [k] + list[p..])
  {
    var r := list[..p] + [k] + list[p..];
    assert list == list[..p] + list[p..];
    assert Elements(r) == Elements(list) + {k};
    assert forall i :: 0 <= i < p ==> r[i] == list[i];
    assert forall i :: p < i < |r| ==> r[i] == list[i - 1];
  }

  lemma BelowSlot(less: Order, keys: set<string>, list: seq<string>, k: string, p: nat)
    requires k !in keys && StrictTotal(less, keys + {k}) && IsSorted(less, keys, list) && 0 < p <= |list|
    requires !less(k, list[p - 1])
    ensures forall i :: 0 <= i < p ==> less(list[i], k)
  {
    var last := list[p - 1];
    assert last in Elements(list);
    assert less(last, k);
    forall i | 0 <= i < p - 1
      ensures less(list[i], k)
    {
      assert list[i] in Elements(list);
      assert less(list[i], last);
    }
  }

  /** Insertion of one key at its place. */
  method Insert(less: Order, keys: set<string>, list: seq<string>, k: string) returns (r: seq<string>)
    requires k !in keys && StrictTotal(less, keys + {k}) && IsSorted(less, keys, list)
    ensures IsSorted(less, keys + {k}, r)
  {
    var p := |list|;
    while p > 0 && less(k, list[p - 1])
      invariant 0 <= p <= |list|
      invariant forall i :: p <= i < |list| ==> less(k, list[i])
    {
      p := p - 1;
    }
    if p > 0 {
      BelowSlot(less, keys, list, k, p);
    }
    InsertSorted(less, keys, list, k, p);
    r := list[..p] + [k] + list[p..];
  }

  method Sort(less: Order, keys: set<string>) returns (list: seq<string>)
    requires StrictTotal(less, keys)
    ensures list == Sorted(less, keys)
  {
    list := [];
    var rest := keys;
    while rest != {}
      invariant rest <= keys && IsSorted(less, keys - rest, list)
      decreases rest
    {
      var k :| k in rest;
      list := Insert(less, keys - rest, list, k);
      assert keys - rest + {k} == keys - (rest - {k});
      rest := rest - {k};
    }
    assert keys - rest == keys;
    SortedUnique(less, keys, list, Sorted(less, keys));
  }
}
