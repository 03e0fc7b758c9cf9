/** Lists of entries identified by a text key: lookup, sorting, and the one sorted list of a set of entries. */
module Keyed {
  import opened Prelude
  import opened Texts

  /** The first entry with this key, or the length of the list. */
  function FindBy<T>(list: seq<T>, key: T -> Text, k: Text): (r: nat)
    ensures r <= |list|
    ensures r < |list| ==> key(list[r]) == k
    ensures forall i :: 0 <= i < r ==> key(list[i]) != k
    ensures r == |list| <==> forall i :: 0 <= i < |list| ==> key(list[i]) != k
  {
    if list == [] || key(list[0]) == k then 0
    else
      var r := FindBy(list[1..], key, k);
      assert forall i :: 0 < i <= r ==> i < |list| ==> list[i] == list[1..][i - 1];
      assert forall i :: 0 <= i < |list| - 1 ==> list[1..][i] == list[i + 1];
      1 + r
  }

  predicate DistinctBy<T>(list: seq<T>, key: T -> Text) {
    forall i, j :: 0 <= i < j < |list| ==> key(list[i]) != key(list[j])
  }

  /** Strictly ascending keys. */
  predicate StrictBy<T>(list: seq<T>, key: T -> Text) {
    forall i, j :: 0 <= i < j < |list| ==> Less(key(list[i]), key(list[j]))
  }

  function InsertBy<T>(x: T, list: seq<T>, key: T -> Text): (r: seq<T>)
    ensures multiset(r) == multiset{x} + multiset(list)
    ensures |r| == |list| + 1
  {
    if list == [] then [x]
    else if Less(key(list[0]), key(x)) then
      assert list == [list[0]] + list[1..];
      [list[0]] + InsertBy(x, list[1..], key)
    else [x] + list
  }

  function SortBy<T>(list: seq<T>, key: T -> Text): (r: seq<T>)
    ensures multiset(r) == multiset(list)
    ensures |r| == |list|
  {
    if list == [] then []
    else
      assert list == [list[0]] + list[1..];
      InsertBy(list[0], SortBy(list[1..], key), key)
  }

  lemma SameMembers<T>(a: seq<T>, b: seq<T>)
    requires multiset(a) == multiset(b)
    ensures forall x :: x in a <==> x in b
  {
    forall x: T
      ensures x in a <==> x in b
    {
      assert x in multiset(a) <==> x in a;
      assert x in multiset(b) <==> x in b;
    }
  }

  lemma {:induction false} InsertStrict<T>(x: T, list: seq<T>, key: T -> Text)
    requires StrictBy(list, key) && forall i :: 0 <= i < |list| ==> key(list[i]) != key(x)
    ensures StrictBy(InsertBy(x, list, key), key)
  {
    if list != [] {
      var head, tail := list[0], list[1..];
      LessTotal(key(head), key(x));
      if Less(key(head), key(x)) {
        InsertStrict(x, tail, key);
        var r := InsertBy(x, tail, key);
        forall i | 0 <= i < |r|
          ensures Less(key(head), key(r[i]))
        {
          assert r[i] in multiset(r);
          assert r[i] == x || r[i] in tail;
        }
      } else {
        forall i | 0 <= i < |list|
          ensures Less(key(x), key(list[i]))
        {
          if i > 0 {
            LessTransitive(key(x), key(head), key(list[i]));
          }
        }
      }
    }
  }

  /** Entries with distinct keys sort into strictly ascending order. */
  lemma {:induction false} SortStrict<T>(list: seq<T>, key: T -> Text)
    requires DistinctBy(list, key)
    ensures StrictBy(SortBy(list, key), key)
  {
    if list != [] {
      var tail := SortBy(list[1..], key);
      SortStrict(list[1..], key);
      forall i | 0 <= i < |tail|
        ensures key(tail[i]) != key(list[0])
      {
        assert tail[i] in multiset(tail) && multiset(tail) == multiset(list[1..]);
        var j :| 0 <= j < |list[1..]| && list[1..][j] == tail[i];
        assert list[j + 1] == tail[i];
      }
      InsertStrict(list[0], tail, key);
    }
  }

  /** A strictly ascending list is determined by its entries. */
  lemma {:induction false} StrictUnique<T>(a: seq<T>, b: seq<T>, key: T -> Text)
    requires StrictBy(a, key) && StrictBy(b, key) && forall x :: x in a <==> x in b
    ensures a == b
    decreases |a|
  {
    if a != [] {
      assert a[0] in b;
    }
    if b != [] {
      assert b[0] in a;
      HeadsMeet(a, b, key);
      forall x: T
        ensures x in a[1..] <==> x in b[1..]
      {
        LessIrreflexive(key(a[0]));
        assert x in a[1..] <==> x in a && x != a[0] by {
          TailMember(a, key, x);
        }
        assert x in b[1..] <==> x in b && x != b[0] by {
          TailMember(b, key, x);
        }
      }
      StrictUnique(a[1..], b[1..], key);
      assert a == [a[0]] + a[1..] && b == [b[0]] + b[1..];
    }
  }

  lemma TailMember<T>(a: seq<T>, key: T -> Text, x: T)
    requires StrictBy(a, key) && a != []
    ensures x in a[1..] <==> x in a && x != a[0]
  {
    LessIrreflexive(key(a[0]));
    if x in a[1..] {
      var i :| 0 < i < |a| && a[i] == x;
    }
    if x in a && x != a[0] {
      var i :| 0 <= i < |a| && a[i] == x;
      assert a[1..][i - 1] == x;
    }
  }

  lemma HeadsMeet<T>(a: seq<T>, b: seq<T>, key: T -> Text)
    requires StrictBy(a, key) && StrictBy(b, key) && a != [] && b != [] && a[0] in b && b[0] in a
    ensures a[0] == b[0]
  {
    var i :| 0 <= i < |b| && b[i] == a[0];
    var j :| 0 <= j < |a| && a[j] == b[0];
    if i > 0 && j > 0 {
      LessTransitive(key(b[0]), key(a[0]), key(b[0]));
      LessIrreflexive(key(b[0]));
    }
  }

  lemma StrictDistinct<T>(a: seq<T>, key: T -> Text)
    requires StrictBy(a, key)
    ensures DistinctBy(a, key)
  {
    forall i, j | 0 <= i < j < |a|
      ensures key(a[i]) != key(a[j])
    {
      LessIrreflexive(key(a[i]));
    }
  }

  /** Lists with the same entries sort to the same list. */
  lemma {:induction false} SortSame<T>(a: seq<T>, b: seq<T>, key: T -> Text)
    requires DistinctBy(a, key) && DistinctBy(b, key) && forall x :: x in a <==> x in b
    ensures SortBy(a, key) == SortBy(b, key)
  {
    SortStrict(a, key);
    SortStrict(b, key);
    SameMembers(SortBy(a, key), a);
    SameMembers(SortBy(b, key), b);
    StrictUnique(SortBy(a, key), SortBy(b, key), key);
  }

  /** Sorting a sorted list changes nothing. */
  lemma {:induction false} StrictStays<T>(a: seq<T>, key: T -> Text)
    requires StrictBy(a, key)
    ensures SortBy(a, key) == a
  {
    StrictDistinct(a, key);
    SortStrict(a, key);
    SameMembers(SortBy(a, key), a);
    StrictUnique(SortBy(a, key), a, key);
  }

  function SumBy<T>(list: seq<T>, weight: T -> nat): nat {
    if list == [] then 0 else SumBy(list[..|list| - 1], weight) + weight(list[|list| - 1])
  }

  lemma {:induction false} SumWithout<T>(list: seq<T>, weight: T -> nat, i: nat)
    requires i < |list|
    ensures SumBy(list, weight) == SumBy(list[..i] + list[i + 1..], weight) + weight(list[i])
  {
    var others := list[..i] + list[i + 1..];
    if i == |list| - 1 {
      assert others == list[..i];
    } else {
      var front := list[..|list| - 1];
      SumWithout(front, weight, i);
      assert others[..|others| - 1] == front[..i] + front[i + 1..];
    }
  }

  /** Sums do not depend on the order. */
  lemma {:induction false} SumSame<T>(a: seq<T>, b: seq<T>, weight: T -> nat)
    requires multiset(a) == multiset(b)
    ensures SumBy(a, weight) == SumBy(b, weight)
    decreases |a|
  {
    if a == [] {
      assert |multiset(b)| == 0;
    } else {
      var last, front := a[|a| - 1], a[..|a| - 1];
      assert a == front + [last];
      assert last in multiset(b);
      var i :| 0 <= i < |b| && b[i] == last;
      WithoutOne(b, i);
      assert multiset(front) == multiset(a) - multiset{last};
      SumSame(front, b[..i] + b[i + 1..], weight);
      SumWithout(b, weight, i);
    }
  }

  lemma WithoutOne<T>(b: seq<T>, i: nat)
    requires i < |b|
    ensures multiset(b[..i] + b[i + 1..]) == multiset(b) - multiset{b[i]}
  {
    assert b == b[..i] + [b[i]] + b[i + 1..];
  }

  lemma {:induction false} SumPart<T>(list: seq<T>, weight: T -> nat, n: nat)
    requires n <= |list|
    ensures SumBy(list[..n], weight) <= SumBy(list, weight)
  {
    if n < |list| {
      SumPart(list[..|list| - 1], weight, n);
      assert list[..|list| - 1][..n] == list[..n];
    } else {
      assert list[..n] == list;
    }
  }

  /** Reordering keeps keys distinct. */
  lemma DistinctSame<T>(a: seq<T>, b: seq<T>, key: T -> Text)
    requires multiset(a) == multiset(b) && DistinctBy(a, key)
    ensures DistinctBy(b, key)
  {
    forall i, j | 0 <= i < j < |b|
      ensures key(b[i]) != key(b[j])
    {
      if b[i] == b[j] {
        Twice(b, i, j);
        Once(a, key, b[i]);
      } else {
        assert b[i] in multiset(a) && b[j] in multiset(a);
        var m :| 0 <= m < |a| && a[m] == b[i];
        var n :| 0 <= n < |a| && a[n] == b[j];
        assert m < n || n < m;
      }
    }
  }

  lemma Twice<T>(b: seq<T>, i: nat, j: nat)
    requires i < j < |b| && b[i] == b[j]
    ensures multiset(b)[b[i]] >= 2
  {
    assert b == b[..j] + [b[j]] + b[j + 1..];
    assert b[i] in multiset(b[..j]) by {
      assert b[..j][i] == b[i];
    }
  }

  lemma {:induction false} Once<T>(a: seq<T>, key: T -> Text, x: T)
    requires DistinctBy(a, key)
    ensures multiset(a)[x] <= 1
  {
    if a != [] {
      assert a == [a[0]] + a[1..];
      Once(a[1..], key, x);
      forall i | 0 <= i < |a[1..]|
        ensures a[1..][i] != a[0]
      {
        assert a[i + 1] == a[1..][i];
      }
      assert a[0] !in multiset(a[1..]);
    }
  }

  // Keeping some entries

  function FilterBy<T(!new)>(list: seq<T>, keep: T -> bool): (r: seq<T>)
    ensures |r| <= |list|
  {
    if list == [] then []
    else
      var front, last := list[..|list| - 1], list[|list| - 1];
      FilterBy(front, keep) + if keep(last) then [last] else []
  }

  /** Exactly the entries to keep remain. */
  lemma {:induction false} FilterMembers<T(!new)>(list: seq<T>, keep: T -> bool)
    ensures forall x :: x in FilterBy(list, keep) <==> x in list && keep(x)
  {
    if list != [] {
      var front, last := list[..|list| - 1], list[|list| - 1];
      assert list == front + [last];
      FilterMembers(front, keep);
    }
  }

  lemma {:induction false} FilterStrict<T(!new)>(list: seq<T>, keep: T -> bool, key: T -> Text)
    requires StrictBy(list, key)
    ensures StrictBy(FilterBy(list, keep), key)
  {
    if list != [] {
      var front, last := list[..|list| - 1], list[|list| - 1];
      FilterStrict(front, keep, key);
      FilterMembers(front, keep);
      var r := FilterBy(front, keep);
      forall i | 0 <= i < |r|
        ensures Less(key(r[i]), key(last))
      {
        assert r[i] in r && r[i] in front;
        var k :| 0 <= k < |front| && front[k] == r[i];
        assert list[k] == r[i];
      }
    }
  }

  lemma {:induction false} SumAppend<T>(list: seq<T>, x: T, weight: T -> nat)
    ensures SumBy(list + [x], weight) == SumBy(list, weight) + weight(x)
  {
    assert (list + [x])[..|list|] == list;
  }

  lemma {:induction false} FilterSum<T(!new)>(list: seq<T>, keep: T -> bool, weight: T -> nat)
    ensures SumBy(FilterBy(list, keep), weight) <= SumBy(list, weight)
  {
    if list != [] {
      var front, last := list[..|list| - 1], list[|list| - 1];
      FilterSum(front, keep, weight);
      hide SumBy;
      assert list == front + [last];
      SumAppend(front, last, weight);
      SumAppend(FilterBy(front, keep), last, weight);
      assert FilterBy(list, keep) == if keep(last) then FilterBy(front, keep) + [last] else FilterBy(front, keep);
    }
  }

  /** Removing nothing or everything that is not kept: the two parts make up the list. */
  lemma {:induction false} FilterSplits<T(!new)>(list: seq<T>, keep: T -> bool, drop: T -> bool)
    requires forall x :: x in list ==> drop(x) == !keep(x)
    ensures |FilterBy(list, keep)| + |FilterBy(list, drop)| == |list|
  {
    if list != [] {
      var front, last := list[..|list| - 1], list[|list| - 1];
      assert list == front + [last];
      assert forall x :: x in front ==> x in list;
      FilterSplits(front, keep, drop);
    }
  }

  lemma {:induction false} FilterAll<T(!new)>(list: seq<T>, keep: T -> bool)
    requires forall x :: x in list ==> keep(x)
    ensures FilterBy(list, keep) == list
  {
    if list != [] {
      var front, last := list[..|list| - 1], list[|list| - 1];
      assert list == front + [last];
      assert forall x :: x in front ==> x in list;
      FilterAll(front, keep);
    }
  }
}
