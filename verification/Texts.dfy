/** Octet-wise text order, fixed-width hexadecimal, and sorted lists of texts. */
module Texts {
  import opened Prelude

  type Text = Bytes

  /** The order of std::string. */
  predicate Less(a: Text, b: Text) {
    b != [] && (a == [] || a[0] < b[0] || (a[0] == b[0] && Less(a[1..], b[1..])))
  }

  lemma {:induction false} LessIrreflexive(a: Text)
    ensures !Less(a, a)
  {
    if a != [] {
      LessIrreflexive(a[1..]);
    }
  }

  lemma {:induction false} LessTransitive(a: Text, b: Text, c: Text)
    requires Less(a, b) && Less(b, c)
    ensures Less(a, c)
  {
    if a != [] && a[0] == b[0] == c[0] {
      LessTransitive(a[1..], b[1..], c[1..]);
    }
  }

  lemma {:induction false} LessTotal(a: Text, b: Text)
    ensures Less(a, b) || a == b || Less(b, a)
  {
    if a != [] && b != [] && a[0] == b[0] {
      LessTotal(a[1..], b[1..]);
      assert a == [a[0]] + a[1..] && b == [b[0]] + b[1..];
    }
  }

  lemma {:induction false} LessExtends(a: Text, b: Text, x: Text, y: Text)
    requires |a| == |b| && Less(a, b)
    ensures Less(a + x, b + y)
  {
    assert (a + x)[0] == a[0] && (b + y)[0] == b[0];
    if a[0] == b[0] {
      LessExtends(a[1..], b[1..], x, y);
      assert (a + x)[1..] == a[1..] + x && (b + y)[1..] == b[1..] + y;
    }
  }

  lemma {:induction false} LessAfter(p: Text, a: Text, b: Text)
    requires Less(a, b)
    ensures Less(p + a, p + b)
  {
    if p == [] {
      assert p + a == a && p + b == b;
    } else {
      LessAfter(p[1..], a, b);
      assert (p + a)[1..] == p[1..] + a && (p + b)[1..] == p[1..] + b;
    }
  }

  /** Lower-case hexadecimal digits. */
  predicate HexByte(c: byte) {
    0x30 <= c <= 0x39 || 0x61 <= c <= 0x66
  }

  predicate HexText(t: Text) {
    forall i :: 0 <= i < |t| ==> HexByte(t[i])
  }

  function Digit(v: nat): (c: byte)
    requires v < 16
    ensures HexByte(c)
  {
    if v < 10 then 0x30 + v else 0x61 + v - 10
  }

  /** The low `width` hexadecimal digits of `v`, most significant first. */
  function Hex(v: nat, width: nat): (t: Text)
    ensures |t| == width
  {
    if width == 0 then [] else Hex(v / 16, width - 1) + [Digit(v % 16)]
  }

  /** Fills the digits from the right, as the source does. */
  method WriteHex(value: u64, width: nat) returns (result: Text)
    ensures result == Hex(value, width)
  {
    var left: nat, rest: nat := width, value;
    result := [];
    while left != 0
      invariant left <= width
      invariant Hex(rest, left) + result == Hex(value, width)
    {
      assert Hex(rest, left) + result == Hex(rest / 16, left - 1) + ([Digit(rest % 16)] + result);
      result := [Digit(rest % 16)] + result;
      rest, left := rest / 16, left - 1;
    }
    assert Hex(rest, 0) + result == result;
  }

  function Pow16(n: nat): (p: nat)
    ensures p > 0
  {
    if n == 0 then 1 else 16 * Pow16(n - 1)
  }

  /** Fixed-width hexadecimal is monotone. */
  lemma {:induction false} HexMonotone(a: nat, b: nat, width: nat)
    requires a < b < Pow16(width)
    ensures Less(Hex(a, width), Hex(b, width))
  {
    if a / 16 < b / 16 {
      HexMonotone(a / 16, b / 16, width - 1);
      LessExtends(Hex(a / 16, width - 1), Hex(b / 16, width - 1), [Digit(a % 16)], [Digit(b % 16)]);
    } else {
      LessAfter(Hex(a / 16, width - 1), [Digit(a % 16)], [Digit(b % 16)]);
    }
  }

  /** Sorted lists, as std::sort leaves them. */
  predicate Sorted(list: seq<Text>) {
    forall i, j :: 0 <= i < j < |list| ==> !Less(list[j], list[i])
  }

  function Insert(t: Text, list: seq<Text>): (r: seq<Text>)
    ensures multiset(r) == multiset{t} + multiset(list)
  {
    if list == [] then
      [t]
    else if Less(list[0], t) then
      assert list == [list[0]] + list[1..];
      [list[0]] + Insert(t, list[1..])
    else
      [t] + list
  }

  function Sort(list: seq<Text>): (r: seq<Text>)
    ensures multiset(r) == multiset(list)
  {
    if list == [] then
      []
    else
      assert list == [list[0]] + list[1..];
      Insert(list[0], Sort(list[1..]))
  }

  lemma {:induction false} InsertSorted(t: Text, list: seq<Text>)
    requires Sorted(list)
    ensures Sorted(Insert(t, list))
  {
    if list != [] {
      var head, tail := list[0], list[1..];
      if Less(head, t) {
        InsertSorted(t, tail);
        forall x | x in Insert(t, tail)
          ensures !Less(x, head)
        {
          assert x in multiset(Insert(t, tail));
          assert x == t || x in tail;
          if Less(x, head) {
            LessTransitive(x, head, t);
            if x == t {
              LessIrreflexive(t);
            }
          }
        }
      } else {
        forall x | x in list
          ensures !Less(x, t)
        {
          if Less(x, t) && x != head {
            LessTotal(head, x);
            if Less(head, x) {
              LessTransitive(head, x, t);
            }
          }
        }
      }
    }
  }

  lemma {:induction false} SortSorted(list: seq<Text>)
    ensures Sorted(Sort(list))
  {
    if list != [] {
      SortSorted(list[1..]);
      InsertSorted(list[0], Sort(list[1..]));
    }
  }

  /** Sorting a sorted list changes nothing. */
  lemma {:induction false} SortedStays(list: seq<Text>)
    requires Sorted(list)
    ensures Sort(list) == list
  {
    if list != [] {
      SortedStays(list[1..]);
      assert list == [list[0]] + list[1..];
    }
  }

  /** Halving search in a sorted list, as std::binary_search does it. */
  function Search(list: seq<Text>, t: Text, low: nat, high: nat): (found: bool)
    requires low <= high <= |list| && Sorted(list)
    ensures found <==> t in list[low..high]
    decreases high - low
  {
    if low == high then false
    else
      var mid := (low + high) / 2;
      SearchSplit(list, t, low, high, mid);
      if Less(list[mid], t) then Search(list, t, mid + 1, high)
      else if list[mid] == t then true
      else Search(list, t, low, mid)
  }

  lemma {:induction false} SearchSplit(list: seq<Text>, t: Text, low: nat, high: nat, mid: nat)
    requires low <= mid < high <= |list| && Sorted(list)
    ensures Less(list[mid], t) ==> (t in list[low..high] <==> t in list[mid + 1..high])
    ensures !Less(list[mid], t) && list[mid] != t ==> (t in list[low..high] <==> t in list[low..mid])
    ensures list[mid] == t ==> t in list[low..high]
  {
    LessTotal(list[mid], t);
    LessIrreflexive(t);
    if t in list[low..high] {
      var k :| low <= k < high && list[k] == t;
      if Less(list[mid], t) {
        assert k > mid;
        assert t == list[mid + 1..high][k - mid - 1];
      } else if list[mid] != t {
        assert k < mid;
        assert t == list[low..mid][k - low];
      }
    }
    assert forall x :: x in list[mid + 1..high] ==> x in list[low..high];
    assert forall x :: x in list[low..mid] ==> x in list[low..high];
    assert list[mid] in list[low..high];
  }

  function Contains(list: seq<Text>, t: Text): (found: bool)
    requires Sorted(list)
    ensures found <==> t in list
  {
    assert list[0..|list|] == list;
    Search(list, t, 0, |list|)
  }
}
