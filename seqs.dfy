/**
 * The JavaScript array methods both stores are built from, as functions on
 * sequences: `filter`, `findIndex`, `find` and `reduce`-to-a-sum.
 */
module Seqs {
  import opened Options

  /** `s.filter(keep)`: the elements of `s` that satisfy `keep`, in their original order. */
  function Filter<T(!new)>(s: seq<T>, keep: T -> bool): (r: seq<T>)
    ensures |r| <= |s|
    ensures forall x :: x in r <==> x in s && keep(x)
    decreases s
  {
    if s == [] then []
    else (if keep(s[0]) then [s[0]] else []) + Filter(s[1..], keep)
  }

  /** `s.findIndex(found)`: the first index whose element satisfies `found`, or -1. */
  function FindIndex<T(!new)>(s: seq<T>, found: T -> bool): (i: int)
    ensures -1 <= i < |s|
    ensures i == -1 <==> forall j :: 0 <= j < |s| ==> !found(s[j])
    ensures 0 <= i ==> found(s[i]) && forall j :: 0 <= j < i ==> !found(s[j])
    decreases s
  {
    if s == [] then -1
    else if found(s[0]) then 0
    else
      var k := FindIndex(s[1..], found);
      if k == -1 then -1 else k + 1
  }

  /** `s.find(found)`: the first element that satisfies `found`, if any. */
  function Find<T(!new)>(s: seq<T>, found: T -> bool): (r: Option<T>)
    ensures r.None? <==> forall x :: x in s ==> !found(x)
    ensures r.Some? ==> exists i :: 0 <= i < |s| && s[i] == r.value && found(r.value)
                          && forall j :: 0 <= j < i ==> !found(s[j])
  {
    var i := FindIndex(s, found);
    if i == -1 then None else Some(s[i])
  }

  /** `s.reduce((sum, x) => sum + amount(x), 0)`. */
  function SumBy<T(!new)>(s: seq<T>, amount: T -> int): int
    decreases s
  {
    if s == [] then 0 else amount(s[0]) + SumBy(s[1..], amount)
  }

  /** Filtering distributes over concatenation. */
  lemma {:induction false} FilterAppend<T(!new)>(a: seq<T>, b: seq<T>, keep: T -> bool)
    ensures Filter(a + b, keep) == Filter(a, keep) + Filter(b, keep)
    decreases a
  {
    if a == [] {
      assert a + b == b;
    } else {
      var head := if keep(a[0]) then [a[0]] else [];
      assert (a + b)[0] == a[0] && (a + b)[1..] == a[1..] + b;
      FilterAppend(a[1..], b, keep);
      calc {
        Filter(a + b, keep);
        head + Filter(a[1..] + b, keep);
        head + (Filter(a[1..], keep) + Filter(b, keep));
        (head + Filter(a[1..], keep)) + Filter(b, keep);
      }
    }
  }

  /** Filtering by `first` and then by `second` is filtering once by their conjunction `both`. */
  lemma {:induction false} FilterOfFilter<T(!new)>(s: seq<T>, first: T -> bool, second: T -> bool, both: T -> bool)
    requires forall x :: both(x) == (first(x) && second(x))
    ensures Filter(Filter(s, first), second) == Filter(s, both)
    decreases s
  {
    if s != [] {
      FilterOfFilter(s[1..], first, second, both);
      var head := if first(s[0]) then [s[0]] else [];
      FilterAppend(head, Filter(s[1..], first), second);
    }
  }

  /** Filtering with a predicate every element satisfies returns the sequence itself. */
  lemma {:induction false} FilterKeepsAll<T(!new)>(s: seq<T>, keep: T -> bool)
    requires forall j :: 0 <= j < |s| ==> keep(s[j])
    ensures Filter(s, keep) == s
    decreases s
  {
    if s != [] {
      FilterKeepsAll(s[1..], keep);
    }
  }

  /** Filtering with a predicate no element satisfies returns the empty sequence. */
  lemma FilterDropsAll<T(!new)>(s: seq<T>, keep: T -> bool)
    requires forall x :: x in s ==> !keep(x)
    ensures Filter(s, keep) == []
  {
    if Filter(s, keep) != [] {
      assert Filter(s, keep)[0] in Filter(s, keep);
    }
  }

  /**
   * Removing the element at `i` removes exactly one element from the filtered
   * sequence when that element passes the filter, and none otherwise.
   */
  lemma FilterRemoveAt<T(!new)>(s: seq<T>, keep: T -> bool, i: int)
    requires 0 <= i < |s|
    ensures |Filter(s, keep)| == |Filter(s[..i] + s[i+1..], keep)| + (if keep(s[i]) then 1 else 0)
  {
    assert s == s[..i] + ([s[i]] + s[i+1..]);
    FilterAppend(s[..i], [s[i]] + s[i+1..], keep);
    FilterAppend([s[i]], s[i+1..], keep);
    FilterAppend(s[..i], s[i+1..], keep);
  }

  /**
   * When the element at `i` passes, it is the only one to pass exactly when
   * the filtered sequence has one element.
   */
  lemma OnlyOnePasses<T(!new)>(s: seq<T>, keep: T -> bool, i: int)
    requires 0 <= i < |s| && keep(s[i])
    ensures |Filter(s, keep)| == 1 <==> forall j :: 0 <= j < |s| && j != i ==> !keep(s[j])
  {
    FilterRemoveAt(s, keep, i);
    var rest := s[..i] + s[i+1..];
    if forall j :: 0 <= j < |s| && j != i ==> !keep(s[j]) {
      forall x | x in rest
        ensures !keep(x)
      {
        var k :| 0 <= k < |rest| && rest[k] == x;
        if k < i {
          assert x == s[k];
        } else {
          assert x == s[k + 1];
        }
      }
      FilterDropsAll(rest, keep);
    } else {
      var j :| 0 <= j < |s| && j != i && keep(s[j]);
      var k := if j < i then j else j - 1;
      assert rest[k] == s[j];
      assert s[j] in Filter(rest, keep);
    }
  }

  /**
   * Splitting a sequence by two complementary predicates: the two parts
   * together have as many elements, and as large a sum, as the whole.
   */
  lemma {:induction false} FilterSplit<T(!new)>(s: seq<T>, a: T -> bool, b: T -> bool, amount: T -> int)
    requires forall x :: a(x) != b(x)
    ensures |Filter(s, a)| + |Filter(s, b)| == |s|
    ensures SumBy(Filter(s, a), amount) + SumBy(Filter(s, b), amount) == SumBy(s, amount)
    decreases s
  {
    if s != [] {
      FilterSplit(s[1..], a, b, amount);
      assert a(s[0]) != b(s[0]);
      if a(s[0]) {
        assert Filter(s, a) == [s[0]] + Filter(s[1..], a);
        assert Filter(s, b) == Filter(s[1..], b);
        assert Filter(s, a)[1..] == Filter(s[1..], a);
      } else {
        assert Filter(s, a) == Filter(s[1..], a);
        assert Filter(s, b) == [s[0]] + Filter(s[1..], b);
        assert Filter(s, b)[1..] == Filter(s[1..], b);
      }
    }
  }

  /**
   * Replacing the element at `i` changes the number of passing elements by
   * what the old element took away and what the new one adds.
   */
  lemma FilterUpdateAt<T(!new)>(s: seq<T>, keep: T -> bool, i: int, x: T)
    requires 0 <= i < |s|
    ensures |Filter(s[i := x], keep)| + (if keep(s[i]) then 1 else 0)
         == |Filter(s, keep)| + (if keep(x) then 1 else 0)
  {
    FilterRemoveAt(s, keep, i);
    FilterRemoveAt(s[i := x], keep, i);
    assert s[i := x][..i] + s[i := x][i+1..] == s[..i] + s[i+1..];
  }

  /** When only the first element fails the filter, filtering drops just that element. */
  lemma FilterDropsHead<T(!new)>(s: seq<T>, keep: T -> bool)
    requires |s| > 0 && !keep(s[0])
    requires forall j :: 1 <= j < |s| ==> keep(s[j])
    ensures Filter(s, keep) == s[1..]
  {
    forall j | 0 <= j < |s| - 1
      ensures keep(s[1..][j])
    {
      assert s[1..][j] == s[j + 1];
    }
    FilterKeepsAll(s[1..], keep);
  }

  /** When exactly the element at `i` fails the filter, filtering removes just that element. */
  lemma {:induction false} FilterAllBut<T(!new)>(s: seq<T>, keep: T -> bool, i: int)
    requires 0 <= i < |s|
    requires forall j :: 0 <= j < |s| ==> (keep(s[j]) <==> j != i)
    ensures Filter(s, keep) == s[..i] + s[i+1..]
    decreases s
  {
    if i == 0 {
      FilterDropsHead(s, keep);
    } else {
      ShiftFailing(s, keep, i);
      FilterAllBut(s[1..], keep, i - 1);
      assert keep(s[0]);
      DropAfterHead(s, i);
    }
  }

  lemma ShiftFailing<T(!new)>(s: seq<T>, keep: T -> bool, i: int)
    requires 0 < i < |s|
    requires forall j :: 0 <= j < |s| ==> (keep(s[j]) <==> j != i)
    ensures forall j :: 0 <= j < |s| - 1 ==> (keep(s[1..][j]) <==> j != i - 1)
  {
    forall j | 0 <= j < |s| - 1
      ensures keep(s[1..][j]) <==> j != i - 1
    {
      assert s[1..][j] == s[j + 1];
    }
  }

  lemma DropAfterHead<T>(s: seq<T>, i: int)
    requires 0 < i < |s|
    ensures s[..i] + s[i+1..] == [s[0]] + (s[1..][..i - 1] + s[1..][i..])
  {
  }
}
