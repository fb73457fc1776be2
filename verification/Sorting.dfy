/** Sorting by a strict total order, and the lexicographic order of strings. */
module Sorting {

  /** What an order must be on the elements it sorts. */
  ghost predicate StrictOrder<T(!new)>(less: (T, T) -> bool) {
    && (forall a :: !less(a, a))
    && (forall a, b, c :: less(a, b) && less(b, c) ==> less(a, c))
  }

  ghost predicate Comparable<T>(s: seq<T>, less: (T, T) -> bool) {
    forall i, j :: 0 <= i < j < |s| ==> less(s[i], s[j]) || less(s[j], s[i])
  }

  ghost predicate Sorted<T>(s: seq<T>, less: (T, T) -> bool) {
    forall i, j :: 0 <= i < j < |s| ==> less(s[i], s[j])
  }

  function Insert<T(!new)>(x: T, s: seq<T>, less: (T, T) -> bool): (r: seq<T>)
    ensures |r| == |s| + 1 && forall y :: y in r <==> y == x || y in s
  {
    if s == [] || less(x, s[0]) then [x] + s else [s[0]] + Insert(x, s[1..], less)
  }

  function Sort<T(!new)>(s: seq<T>, less: (T, T) -> bool): (r: seq<T>)
    ensures |r| == |s| && forall y :: y in r <==> y in s
  {
    if s == [] then [] else Insert(s[0], Sort(s[1..], less), less)
  }

  lemma {:induction false} InsertSorted<T(!new)>(x: T, s: seq<T>, less: (T, T) -> bool)
    requires StrictOrder(less) && Sorted(s, less)
    requires forall y :: y in s ==> less(x, y) || less(y, x)
    ensures Sorted(Insert(x, s, less), less)
  {
    if s != [] && !less(x, s[0]) {
      InsertSorted(x, s[1..], less);
      var tail := Insert(x, s[1..], less);
      forall j | 0 <= j < |tail| ensures less(s[0], tail[j]) {
        assert tail[j] in tail;
        if tail[j] != x {
          var k :| 0 <= k < |s[1..]| && s[1..][k] == tail[j];
          assert s[k + 1] == tail[j];
        }
      }
    }
  }

  lemma {:induction false} SortSorted<T(!new)>(s: seq<T>, less: (T, T) -> bool)
    requires StrictOrder(less) && Comparable(s, less)
    ensures Sorted(Sort(s, less), less)
  {
    if s != [] {
      SortSorted(s[1..], less);
      forall y | y in Sort(s[1..], less) ensures less(s[0], y) || less(y, s[0]) {
        var k :| 0 <= k < |s[1..]| && s[1..][k] == y;
        assert s[k + 1] == y;
      }
      InsertSorted(s[0], Sort(s[1..], less), less);
    }
  }

  /** A sorted list is settled by its elements. */
  lemma {:induction false} SortedUnique<T(!new)>(a: seq<T>, b: seq<T>, less: (T, T) -> bool)
    requires StrictOrder(less) && Sorted(a, less) && Sorted(b, less)
    requires forall x :: x in a <==> x in b
    ensures a == b
  {
    assert b == [] || b[0] in b;
    assert a == [] || a[0] in a;
    if a != [] && b != [] {
      assert a[0] in a && b[0] in b;
      assert a[0] == b[0];
      forall x ensures x in a[1..] <==> x in b[1..] {
        if x in a[1..] { assert x in a && x != a[0]; }
        if x in b[1..] { assert x in b && x != b[0]; }
      }
      SortedUnique(a[1..], b[1..], less);
      assert a == [a[0]] + a[1..] && b == [b[0]] + b[1..];
    }
  }

  lemma SortIsOrderIndependent<T(!new)>(a: seq<T>, b: seq<T>, less: (T, T) -> bool)
    requires StrictOrder(less) && Comparable(a, less) && Comparable(b, less)
    requires forall x :: x in a <==> x in b
    ensures Sort(a, less) == Sort(b, less)
  {
    SortSorted(a, less);
    SortSorted(b, less);
    SortedUnique(Sort(a, less), Sort(b, less), less);
  }

  /* ---- Strings ---- */

  predicate Less(a: string, b: string) {
    b != "" && (a == "" || a[0] < b[0] || (a[0] == b[0] && Less(a[1..], b[1..])))
  }

  lemma {:induction false} LessTransitive(a: string, b: string, c: string)
    requires Less(a, b) && Less(b, c)
    ensures Less(a, c)
  {
    if a != "" && a[0] == b[0] == c[0] { LessTransitive(a[1..], b[1..], c[1..]); }
  }

  lemma {:induction false} LessIrreflexive(a: string)
    ensures !Less(a, a)
  {
    if a != "" { LessIrreflexive(a[1..]); }
  }

  lemma {:induction false} LessTotal(a: string, b: string)
    ensures a == b || Less(a, b) || Less(b, a)
  {
    if a != "" && b != "" && a[0] == b[0] {
      LessTotal(a[1..], b[1..]);
      assert a == [a[0]] + a[1..] && b == [b[0]] + b[1..];
    }
  }

  /** One string comes before another where they first differ by a smaller
      character, or by coming to its end. */
  ghost predicate FirstDifference(a: string, b: string, n: int) {
    && 0 <= n <= |a| && n < |b| && a[..n] == b[..n]
    && (n == |a| || a[n] < b[n])
  }

  lemma HeadsAgree(a: string, b: string, n: int)
    requires FirstDifference(a, b, n)
    ensures n > 0 ==> a != "" && b != "" && a[0] == b[0]
  {
    if n > 0 { assert a[..n][0] == b[..n][0]; }
  }

  lemma {:induction false} LessIsLexicographic(a: string, b: string)
    ensures Less(a, b) <==> exists n :: FirstDifference(a, b, n)
  {
    if a == "" || b == "" || a[0] != b[0] {
      if Less(a, b) { assert FirstDifference(a, b, 0); }
      forall n | FirstDifference(a, b, n) ensures Less(a, b) {
        HeadsAgree(a, b, n);
      }
    } else {
      LessIsLexicographic(a[1..], b[1..]);
      if Less(a, b) {
        var n :| FirstDifference(a[1..], b[1..], n);
        assert a[..n + 1] == [a[0]] + a[1..][..n] && b[..n + 1] == [b[0]] + b[1..][..n];
        assert FirstDifference(a, b, n + 1);
      }
      forall n | FirstDifference(a, b, n) ensures Less(a, b) {
        assert n > 0;
        assert a[1..][..n - 1] == a[..n][1..] && b[1..][..n - 1] == b[..n][1..];
        assert FirstDifference(a[1..], b[1..], n - 1);
      }
    }
  }

  lemma LessStrict()
    ensures StrictOrder(Less)
  {
    forall a ensures !Less(a, a) { LessIrreflexive(a); }
    forall a, b, c | Less(a, b) && Less(b, c) ensures Less(a, c) { LessTransitive(a, b, c); }
  }

  /** Lists every element once. */
  ghost predicate Enumerates<T(!new)>(s: seq<T>, elements: set<T>) {
    (forall x :: x in s <==> x in elements) && forall i, j :: 0 <= i < j < |s| ==> s[i] != s[j]
  }

  ghost function SomeOrder(elements: set<string>): (s: seq<string>)
    ensures Enumerates(s, elements)
    decreases elements
  {
    if elements == {} then [] else var x :| x in elements; [x] + SomeOrder(elements - {x})
  }

  /** The keys in ascending order, whatever order a map is iterated in. */
  ghost function SortedKeys(keys: set<string>): (s: seq<string>)
    ensures forall x :: x in s <==> x in keys
  {
    Sort(SomeOrder(keys), Less)
  }

  lemma EnumerationComparable(s: seq<string>)
    requires forall i, j :: 0 <= i < j < |s| ==> s[i] != s[j]
    ensures Comparable(s, Less)
  {
    forall i, j | 0 <= i < j < |s| ensures Less(s[i], s[j]) || Less(s[j], s[i]) { LessTotal(s[i], s[j]); }
  }

  lemma SortedKeysSorted(keys: set<string>)
    ensures Sorted(SortedKeys(keys), Less) && Enumerates(SortedKeys(keys), keys)
  {
    LessStrict();
    EnumerationComparable(SomeOrder(keys));
    SortSorted(SomeOrder(keys), Less);
    var s := SortedKeys(keys);
    forall i, j | 0 <= i < j < |s| ensures s[i] != s[j] { LessIrreflexive(s[i]); }
  }

  /** Any ascending list of the keys is the sorted one. */
  lemma SortedKeysAre(s: seq<string>, keys: set<string>)
    requires Sorted(s, Less) && forall x :: x in s <==> x in keys
    ensures SortedKeys(keys) == s
  {
    LessStrict();
    SortedKeysSorted(keys);
    SortedUnique(SortedKeys(keys), s, Less);
  }

  lemma NoKeys()
    ensures SortedKeys({}) == []
  {
    SortedKeysAre([], {});
  }

  lemma OneKey(k: string)
    ensures SortedKeys({k}) == [k]
  {
    SortedKeysAre([k], {k});
  }

  lemma TwoKeys(a: string, b: string, n: int)
    requires FirstDifference(a, b, n)
    ensures SortedKeys({a, b}) == [a, b]
  {
    LessIsLexicographic(a, b);
    SortedKeysAre([a, b], {a, b});
  }

  /** The sorted keys ascend: of two of them the earlier one comes first where
      they first differ. */
  lemma KeysAscend(keys: set<string>, i: nat, j: nat)
    requires i < j < |SortedKeys(keys)|
    ensures exists n :: FirstDifference(SortedKeys(keys)[i], SortedKeys(keys)[j], n)
  {
    SortedKeysSorted(keys);
    LessIsLexicographic(SortedKeys(keys)[i], SortedKeys(keys)[j]);
  }

  lemma SortingAnyOrder(s: seq<string>, keys: set<string>)
    requires Enumerates(s, keys)
    ensures Sort(s, Less) == SortedKeys(keys)
  {
    LessStrict();
    EnumerationComparable(s);
    EnumerationComparable(SomeOrder(keys));
    SortIsOrderIndependent(s, SomeOrder(keys), Less);
  }

  /** Ranging over a map yields its keys in an order of its own choosing; they
      are collected and sorted. */
  method CollectSorted(keys: set<string>) returns (s: seq<string>)
    ensures s == SortedKeys(keys)
  {
    s := [];
    var left := keys;
    while left != {}
      invariant left <= keys && Enumerates(s, keys - left)
      decreases left
    {
      var k :| k in left;
      s, left := s + [k], left - {k};
    }
    SortingAnyOrder(s, keys);
    s := Sort(s, Less);
  }
}
