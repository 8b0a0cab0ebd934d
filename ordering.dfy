// Stable sorting by a total preorder (Python's list.sort and sorted), and
// the lexicographic order of strings that Python uses to compare them.
module Ordering {
  /** le is total and transitive: a total preorder, the kind of key order list.sort uses. */
  ghost predicate TotalPreorder<T(!new)>(le: (T, T) -> bool) {
    (forall a: T, b: T :: le(a, b) || le(b, a)) &&
    (forall a: T, b: T, c: T :: le(a, b) && le(b, c) ==> le(a, c))
  }

  predicate SortedBy<T>(s: seq<T>, le: (T, T) -> bool) {
    forall i, j :: 0 <= i < j < |s| ==> le(s[i], s[j])
  }

  /** Inserts x after every leading element that is not above it, so that equal elements keep their order. */
  function InsertBy<T>(s: seq<T>, x: T, le: (T, T) -> bool): (r: seq<T>)
    ensures |r| == |s| + 1
  {
    if s == [] then [x]
    else if le(s[0], x) then [s[0]] + InsertBy(s[1..], x, le)
    else [x] + s
  }

  /** Insertion sort, taking the elements left to right: a stable sort. */
  function SortBy<T>(s: seq<T>, le: (T, T) -> bool): (r: seq<T>)
    ensures |r| == |s|
    decreases |s|
  {
    if s == [] then [] else InsertBy(SortBy(s[..|s| - 1], le), s[|s| - 1], le)
  }

  /** Insertion adds exactly the new element. */
  lemma {:induction false} InsertByPermutes<T>(s: seq<T>, x: T, le: (T, T) -> bool)
    ensures multiset(InsertBy(s, x, le)) == multiset(s) + multiset{x}
  {
    if s != [] && le(s[0], x) {
      InsertByPermutes(s[1..], x, le);
      assert s == [s[0]] + s[1..];
    }
  }

  /** The sort is a permutation of its input. */
  lemma {:induction false} SortByPermutes<T>(s: seq<T>, le: (T, T) -> bool)
    ensures multiset(SortBy(s, le)) == multiset(s)
    decreases |s|
  {
    if s != [] {
      SortByPermutes(s[..|s| - 1], le);
      InsertByPermutes(SortBy(s[..|s| - 1], le), s[|s| - 1], le);
      assert s == s[..|s| - 1] + [s[|s| - 1]];
    }
  }

  /** A lower bound of the sequence and of the new element bounds the result of the insertion. */
  lemma {:induction false} InsertByBound<T>(s: seq<T>, x: T, le: (T, T) -> bool, y: T)
    requires forall i :: 0 <= i < |s| ==> le(y, s[i])
    requires le(y, x)
    ensures forall j :: 0 <= j < |InsertBy(s, x, le)| ==> le(y, InsertBy(s, x, le)[j])
    decreases |s|
  {
    if s != [] && le(s[0], x) {
      var t := InsertBy(s[1..], x, le);
      InsertByBound(s[1..], x, le, y);
      assert InsertBy(s, x, le) == [s[0]] + t;
    }
  }

  lemma {:induction false} InsertBySorted<T(!new)>(s: seq<T>, x: T, le: (T, T) -> bool)
    requires TotalPreorder(le) && SortedBy(s, le)
    ensures SortedBy(InsertBy(s, x, le), le)
    decreases |s|
  {
    if s != [] && le(s[0], x) {
      var t := InsertBy(s[1..], x, le);
      InsertBySorted(s[1..], x, le);
      InsertByBound(s[1..], x, le, s[0]);
      assert InsertBy(s, x, le) == [s[0]] + t;
    } else if s != [] {
      assert le(x, s[0]);
      assert forall i :: 0 <= i < |s| ==> le(x, s[i]);
      assert InsertBy(s, x, le) == [x] + s;
    }
  }

  /** The partner of SortBy: its result is sorted (and, by SortByPermutes, a permutation of the input). */
  lemma {:induction false} SortBySorted<T(!new)>(s: seq<T>, le: (T, T) -> bool)
    requires TotalPreorder(le)
    ensures SortedBy(SortBy(s, le), le)
    decreases |s|
  {
    if s != [] {
      SortBySorted(s[..|s| - 1], le);
      InsertBySorted(SortBy(s[..|s| - 1], le), s[|s| - 1], le);
    }
  }

  /** Where insertion leaves the last element of a sorted sequence: the new element when it is not below the old last. */
  lemma {:induction false} InsertByLast<T(!new)>(s: seq<T>, x: T, le: (T, T) -> bool)
    requires TotalPreorder(le) && SortedBy(s, le) && s != []
    ensures var r := InsertBy(s, x, le);
      r[|r| - 1] == if le(s[|s| - 1], x) then x else s[|s| - 1]
  {
    if le(s[0], x) && |s| > 1 {
      InsertByLast(s[1..], x, le);
      assert s[1..][|s[1..]| - 1] == s[|s| - 1];
    } else if !le(s[0], x) {
      assert le(s[0], s[|s| - 1]) || |s| == 1;
    }
  }

  /** The index of the first least element, found by a scan that replaces the candidate only on a strictly smaller element. */
  function FirstLeast<T>(s: seq<T>, le: (T, T) -> bool): (i: nat)
    requires s != []
    ensures i < |s|
    decreases |s|
  {
    if |s| == 1 then 0
    else
      var h := FirstLeast(s[..|s| - 1], le);
      if le(s[h], s[|s| - 1]) then h else |s| - 1
  }

  /** Under a total preorder, every element is at least the first least one, and every earlier one is strictly above it. */
  lemma {:induction false} FirstLeastSpec<T(!new)>(s: seq<T>, le: (T, T) -> bool)
    requires TotalPreorder(le) && s != []
    ensures forall j :: 0 <= j < |s| ==> le(s[FirstLeast(s, le)], s[j])
    ensures forall j :: 0 <= j < FirstLeast(s, le) ==> !le(s[j], s[FirstLeast(s, le)])
    decreases |s|
  {
    if |s| > 1 {
      var init := s[..|s| - 1];
      var h := FirstLeast(init, le);
      FirstLeastSpec(init, le);
      assert s[h] == init[h];
      assert forall j :: 0 <= j < |s| - 1 ==> s[j] == init[j];
    }
  }

  /** The index of the last greatest element, found by a scan that replaces the candidate on any element not below it. */
  function LastGreatest<T>(s: seq<T>, le: (T, T) -> bool): (i: nat)
    requires s != []
    ensures i < |s|
    decreases |s|
  {
    if |s| == 1 then 0
    else
      var h := LastGreatest(s[..|s| - 1], le);
      if le(s[h], s[|s| - 1]) then |s| - 1 else h
  }

  /** Under a total preorder, every element is at most the last greatest one, and every later one is strictly below it. */
  lemma {:induction false} LastGreatestSpec<T(!new)>(s: seq<T>, le: (T, T) -> bool)
    requires TotalPreorder(le) && s != []
    ensures forall j :: 0 <= j < |s| ==> le(s[j], s[LastGreatest(s, le)])
    ensures forall j :: LastGreatest(s, le) < j < |s| ==> !le(s[LastGreatest(s, le)], s[j])
    decreases |s|
  {
    if |s| > 1 {
      var init := s[..|s| - 1];
      var h := LastGreatest(init, le);
      LastGreatestSpec(init, le);
      assert s[h] == init[h];
      assert forall j :: 0 <= j < |s| - 1 ==> s[j] == init[j];
    }
  }

  /** The stable sort puts the first least element first: among equals the earliest wins. */
  lemma {:induction false} SortByHead<T>(s: seq<T>, le: (T, T) -> bool)
    requires s != []
    ensures SortBy(s, le)[0] == s[FirstLeast(s, le)]
    decreases |s|
  {
    if |s| > 1 {
      var init := s[..|s| - 1];
      SortByHead(init, le);
      assert s[FirstLeast(init, le)] == init[FirstLeast(init, le)];
    }
  }

  /** The stable sort puts the last greatest element last: among equals the latest wins. */
  lemma {:induction false} SortByLast<T(!new)>(s: seq<T>, le: (T, T) -> bool)
    requires TotalPreorder(le) && s != []
    ensures SortBy(s, le)[|s| - 1] == s[LastGreatest(s, le)]
    decreases |s|
  {
    if |s| > 1 {
      var init, x := s[..|s| - 1], s[|s| - 1];
      var h := LastGreatest(init, le);
      SortByLast(init, le);
      SortBySnocLast(init, x, le);
      assert s == init + [x];
      assert s[h] == init[h];
    }
  }

  /** Sorting one more element leaves last the newcomer when it is not below the previous last, or that last. */
  lemma {:induction false} SortBySnocLast<T(!new)>(init: seq<T>, x: T, le: (T, T) -> bool)
    requires TotalPreorder(le) && init != []
    ensures var r := SortBy(init, le);
      SortBy(init + [x], le)[|init|] == if le(r[|init| - 1], x) then x else r[|init| - 1]
  {
    var s := init + [x];
    assert s[..|s| - 1] == init && s[|s| - 1] == x;
    SortBySorted(init, le);
    InsertByLast(SortBy(init, le), x, le);
  }

  /** Python's string order: code point by code point, a proper prefix first. */
  predicate StrLe(a: string, b: string)
    decreases |a|
  {
    if a == [] then true
    else if b == [] then false
    else if a[0] != b[0] then a[0] < b[0]
    else StrLe(a[1..], b[1..])
  }

  lemma {:induction false} StrLeTotal(a: string, b: string)
    ensures StrLe(a, b) || StrLe(b, a)
    decreases |a|
  {
    if a != [] && b != [] && a[0] == b[0] {
      StrLeTotal(a[1..], b[1..]);
    }
  }

  lemma {:induction false} StrLeTransitive(a: string, b: string, c: string)
    requires StrLe(a, b) && StrLe(b, c)
    ensures StrLe(a, c)
    decreases |a|
  {
    if a != [] && b != [] && c != [] && a[0] == b[0] && b[0] == c[0] {
      StrLeTransitive(a[1..], b[1..], c[1..]);
    }
  }

  lemma {:induction false} StrLeAntisymmetric(a: string, b: string)
    requires StrLe(a, b) && StrLe(b, a)
    ensures a == b
    decreases |a|
  {
    if a != [] && b != [] {
      StrLeAntisymmetric(a[1..], b[1..]);
      assert a == [a[0]] + a[1..] && b == [b[0]] + b[1..];
    }
  }

  /** The string order is a total preorder, so sorting strings by it is sorting. */
  lemma {:induction false} StrLePreorder()
    ensures TotalPreorder((a: string, b: string) => StrLe(a, b))
  {
    forall a: string, b: string
      ensures StrLe(a, b) || StrLe(b, a)
    {
      StrLeTotal(a, b);
    }
    forall a: string, b: string, c: string | StrLe(a, b) && StrLe(b, c)
      ensures StrLe(a, c)
    {
      StrLeTransitive(a, b, c);
    }
  }
}
