/** Python's sorted and list.sort: stable, by string keys in code-point order. */
module Sorting {

  predicate Less(a: string, b: string) {
    b != [] && (a == [] || a[0] < b[0] || (a[0] == b[0] && Less(a[1..], b[1..])))
  }

  lemma LessAsymmetric(a: string, b: string)
    requires Less(a, b)
    ensures !Less(b, a) && a != b
  {
  }

  lemma LessTotal(a: string, b: string)
    ensures Less(a, b) || Less(b, a) || a == b
  {
    if a != [] && b != [] && a[0] == b[0] {
      LessTotal(a[1..], b[1..]);
      assert a == [a[0]] + a[1..] && b == [b[0]] + b[1..];
    }
  }

  lemma {:induction false} LessTransitive(a: string, b: string, c: string)
    requires Less(a, b) && Less(b, c)
    ensures Less(a, c)
  {
    if a != [] && a[0] == b[0] == c[0] {
      LessTransitive(a[1..], b[1..], c[1..]);
    }
  }

  /** x placed before the first element whose key is not smaller. */
  function Insert<T>(x: T, ys: seq<T>, key: T -> string): seq<T> {
    if ys == [] || !Less(key(ys[0]), key(x)) then [x] + ys
    else [ys[0]] + Insert(x, ys[1..], key)
  }

  function Sort<T>(xs: seq<T>, key: T -> string): seq<T> {
    if xs == [] then [] else Insert(xs[0], Sort(xs[1..], key), key)
  }

  /** The elements whose key is k, in their order. */
  function Filter<T>(xs: seq<T>, key: T -> string, k: string): seq<T> {
    if xs == [] then []
    else (if key(xs[0]) == k then [xs[0]] else []) + Filter(xs[1..], key, k)
  }

  ghost predicate Sorted<T>(xs: seq<T>, key: T -> string) {
    forall i, j :: 0 <= i < j < |xs| ==> !Less(key(xs[j]), key(xs[i]))
  }

  lemma {:induction false} InsertSorted<T>(x: T, ys: seq<T>, key: T -> string)
    requires Sorted(ys, key)
    ensures Sorted(Insert(x, ys, key), key)
    ensures multiset(Insert(x, ys, key)) == multiset{x} + multiset(ys)
  {
    if ys == [] {
    } else if !Less(key(ys[0]), key(x)) {
      forall j | 0 <= j < |ys| ensures !Less(key(ys[j]), key(x)) {
        if Less(key(ys[j]), key(x)) {
          if j > 0 {
            LessTotal(key(ys[0]), key(ys[j]));
            if Less(key(ys[0]), key(ys[j])) { LessTransitive(key(ys[0]), key(ys[j]), key(x)); }
          }
        }
      }
    } else {
      InsertSorted(x, ys[1..], key);
      assert ys == [ys[0]] + ys[1..];
      LessAsymmetric(key(ys[0]), key(x));
      var r := Insert(x, ys[1..], key);
      forall j | 0 <= j < |r| ensures !Less(key(r[j]), key(ys[0])) {
        assert r[j] in multiset(r);
        assert r[j] == x || r[j] in ys[1..];
      }
    }
  }

  lemma {:induction false} SortSorted<T>(xs: seq<T>, key: T -> string)
    ensures Sorted(Sort(xs, key), key)
    ensures multiset(Sort(xs, key)) == multiset(xs)
  {
    if xs != [] {
      SortSorted(xs[1..], key);
      InsertSorted(xs[0], Sort(xs[1..], key), key);
      assert xs == [xs[0]] + xs[1..];
    }
  }

  lemma FilterCons<T>(x: T, ys: seq<T>, key: T -> string, k: string)
    ensures Filter([x] + ys, key, k) == (if key(x) == k then [x] else []) + Filter(ys, key, k)
  {
  }

  lemma {:induction false} InsertFilter<T>(x: T, ys: seq<T>, key: T -> string, k: string)
    ensures Filter(Insert(x, ys, key), key, k) == (if key(x) == k then [x] else []) + Filter(ys, key, k)
  {
    if ys == [] || !Less(key(ys[0]), key(x)) {
      FilterCons(x, ys, key, k);
    } else {
      var r := Insert(x, ys[1..], key);
      InsertFilter(x, ys[1..], key, k);
      LessAsymmetric(key(ys[0]), key(x));
      FilterCons(ys[0], r, key, k);
    }
  }

  /** Sorting is stable: elements with the same key keep their order, and none is lost or added. */
  lemma {:induction false} SortFilter<T>(xs: seq<T>, key: T -> string, k: string)
    ensures Filter(Sort(xs, key), key, k) == Filter(xs, key, k)
  {
    if xs != [] {
      SortFilter(xs[1..], key, k);
      InsertFilter(xs[0], Sort(xs[1..], key), key, k);
    }
  }

  lemma FilterMember<T>(xs: seq<T>, key: T -> string, i: nat)
    requires i < |xs|
    ensures Filter(xs, key, key(xs[i])) != []
  {
    if i > 0 { FilterMember(xs[1..], key, i - 1); }
  }

  lemma FilterNonempty<T>(xs: seq<T>, key: T -> string, k: string) returns (i: nat)
    requires Filter(xs, key, k) != []
    ensures i < |xs| && key(xs[i]) == k
  {
    if key(xs[0]) == k { i := 0; } else { i := FilterNonempty(xs[1..], key, k); i := i + 1; }
  }

  /** In sorted sequences with the same elements under each key, the first keys agree. */
  lemma HeadNotLarger<T>(a: seq<T>, b: seq<T>, key: T -> string)
    requires a != [] && Sorted(b, key) && forall k :: Filter(a, key, k) == Filter(b, key, k)
    ensures b != [] && !Less(key(a[0]), key(b[0]))
  {
    FilterMember(a, key, 0);
    var i := FilterNonempty(b, key, key(a[0]));
    if i == 0 && Less(key(a[0]), key(b[0])) { LessAsymmetric(key(a[0]), key(b[0])); }
  }

  lemma {:induction false} SortedUnique<T>(a: seq<T>, b: seq<T>, key: T -> string)
    requires Sorted(a, key) && Sorted(b, key)
    requires forall k :: Filter(a, key, k) == Filter(b, key, k)
    ensures a == b
  {
    if a == [] {
      if b != [] { HeadNotLarger(b, a, key); }
    } else {
      HeadNotLarger(a, b, key);
      HeadNotLarger(b, a, key);
      LessTotal(key(a[0]), key(b[0]));
      var k0 := key(a[0]);
      assert Filter(a, key, k0)[0] == a[0] && Filter(b, key, k0)[0] == b[0];
      forall k ensures Filter(a[1..], key, k) == Filter(b[1..], key, k) {
        var pre := if k0 == k then [a[0]] else [];
        assert Filter(a, key, k) == pre + Filter(a[1..], key, k);
        assert Filter(b, key, k) == pre + Filter(b[1..], key, k);
        assert (pre + Filter(a[1..], key, k))[|pre|..] == Filter(a[1..], key, k);
        assert (pre + Filter(b[1..], key, k))[|pre|..] == Filter(b[1..], key, k);
      }
      SortedUnique(a[1..], b[1..], key);
      assert a == [a[0]] + a[1..] && b == [b[0]] + b[1..];
    }
  }

  /** Key by key, the same elements in the same order. */
  ghost predicate SameByKey<T>(a: seq<T>, b: seq<T>, key: T -> string) {
    forall k :: Filter(a, key, k) == Filter(b, key, k)
  }

  lemma SortSameByKey<T>(a: seq<T>, key: T -> string)
    ensures SameByKey(Sort(a, key), a, key)
  {
    forall k ensures Filter(Sort(a, key), key, k) == Filter(a, key, k) {
      SortFilter(a, key, k);
    }
  }

  lemma SameByKeyChain<T>(a: seq<T>, b: seq<T>, c: seq<T>, key: T -> string)
    requires SameByKey(a, b, key) && SameByKey(b, c, key)
    ensures SameByKey(a, c, key) && SameByKey(b, a, key)
  {
  }

  /** Two sequences sort alike exactly when they are the same key by key. */
  lemma SortEqual<T>(a: seq<T>, b: seq<T>, key: T -> string)
    ensures Sort(a, key) == Sort(b, key) <==> SameByKey(a, b, key)
  {
    SortSameByKey(a, key);
    SortSameByKey(b, key);
    var s, t := Sort(a, key), Sort(b, key);
    SameByKeyChain(s, a, a, key);
    SameByKeyChain(t, b, b, key);
    if s == t {
      SameByKeyChain(a, s, b, key);
    }
    if SameByKey(a, b, key) {
      SameByKeyChain(s, a, b, key);
      SameByKeyChain(s, b, t, key);
      SortSorted(a, key);
      SortSorted(b, key);
      SortedUnique(s, t, key);
    }
  }

  // ---- Distinct keys ----

  ghost predicate Distinct<T>(xs: seq<T>, key: T -> string) {
    forall i, j :: 0 <= i < j < |xs| ==> key(xs[i]) != key(xs[j])
  }

  lemma {:induction false} FilterAbsent<T>(xs: seq<T>, key: T -> string, k: string)
    requires forall i :: 0 <= i < |xs| ==> key(xs[i]) != k
    ensures Filter(xs, key, k) == []
  {
    if xs != [] { FilterAbsent(xs[1..], key, k); }
  }

  lemma {:induction false} FilterDistinct<T>(xs: seq<T>, key: T -> string, i: nat)
    requires Distinct(xs, key) && i < |xs|
    ensures Filter(xs, key, key(xs[i])) == [xs[i]]
  {
    if i == 0 {
      FilterAbsent(xs[1..], key, key(xs[0]));
    } else {
      FilterDistinct(xs[1..], key, i - 1);
    }
  }

  lemma {:induction false} FilterTwice<T>(xs: seq<T>, key: T -> string, i: nat, j: nat)
    requires i < j < |xs| && key(xs[i]) == key(xs[j])
    ensures |Filter(xs, key, key(xs[i]))| >= 2
  {
    if i == 0 { FilterMember(xs[1..], key, j - 1); } else { FilterTwice(xs[1..], key, i - 1, j - 1); }
  }

  lemma SortDistinct<T>(xs: seq<T>, key: T -> string)
    requires Distinct(xs, key)
    ensures Distinct(Sort(xs, key), key)
  {
    var s := Sort(xs, key);
    SortSorted(xs, key);
    forall i, j | 0 <= i < j < |s| ensures key(s[i]) != key(s[j]) {
      if key(s[i]) == key(s[j]) {
        FilterTwice(s, key, i, j);
        SortFilter(xs, key, key(s[i]));
        assert s[i] in multiset(s);
        assert s[i] in xs;
        var m: nat :| m < |xs| && xs[m] == s[i];
        FilterDistinct(xs, key, m);
      }
    }
  }

  /** With distinct keys the order of the elements does not matter at all. */
  lemma SortPermutation<T>(a: seq<T>, b: seq<T>, key: T -> string)
    requires Distinct(a, key) && Distinct(b, key)
    requires forall x :: x in a <==> x in b
    ensures SameByKey(a, b, key) && Sort(a, key) == Sort(b, key)
  {
    forall k ensures Filter(a, key, k) == Filter(b, key, k) {
      if i: nat :| i < |a| && key(a[i]) == k {
        FilterDistinct(a, key, i);
        assert a[i] in b;
        var j: nat :| j < |b| && b[j] == a[i];
        FilterDistinct(b, key, j);
      } else {
        FilterAbsent(a, key, k);
        forall j: nat | j < |b| ensures key(b[j]) != k {
          assert b[j] in a;
        }
        FilterAbsent(b, key, k);
      }
    }
    SortEqual(a, b, key);
  }
}
