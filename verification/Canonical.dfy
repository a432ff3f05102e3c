/** json.dumps with sort_keys=True: equal texts are exactly equal values up to member order. */
module Canonical {
  import opened Json
  import opened Sorting

  const BY_KEY: Member -> string := (m: Member) => m.key

  /** The value with the members of every object sorted by key. */
  function Canon(j: Json): Json {
    match j
    case Arr(items) => Arr(CanonItems(items))
    case Obj(ms) => Obj(Sort(CanonMembers(ms), BY_KEY))
    case _ => j
  }

  function CanonItems(items: seq<Json>): (r: seq<Json>)
    ensures |r| == |items| && forall i :: 0 <= i < |r| ==> r[i] == Canon(items[i])
  {
    if items == [] then [] else [Canon(items[0])] + CanonItems(items[1..])
  }

  function CanonMembers(ms: seq<Member>): (r: seq<Member>)
    ensures |r| == |ms| && forall i :: 0 <= i < |r| ==> r[i] == Member(ms[i].key, Canon(ms[i].value))
  {
    if ms == [] then [] else [Member(ms[0].key, Canon(ms[0].value))] + CanonMembers(ms[1..])
  }

  /** json.dumps(j, sort_keys=True, separators=(",", ":"), ensure_ascii=False). */
  function Dumps(j: Json): string { Print(Canon(j)) }

  /** Equality of JSON values: the order of an object's members does not matter, everything else does. */
  ghost predicate Equal(a: Json, b: Json) {
    match (a, b)
    case (Arr(xs), Arr(ys)) => |xs| == |ys| && forall i :: 0 <= i < |xs| ==> Equal(xs[i], ys[i])
    case (Obj(xs), Obj(ys)) =>
      && (forall k :: HasKey(xs, k) <==> HasKey(ys, k))
      && (forall i, j :: 0 <= i < |xs| && 0 <= j < |ys| && xs[i].key == ys[j].key
            ==> Equal(xs[i].value, ys[j].value))
    case _ => a == b
  }

  lemma {:induction false} CanonWellFormed(j: Json)
    requires WellFormed(j)
    ensures WellFormed(Canon(j))
  {
    match j
    case Arr(items) =>
      forall i | 0 <= i < |items| ensures WellFormed(CanonItems(items)[i]) { CanonWellFormed(items[i]); }
    case Obj(ms) =>
      var c := CanonMembers(ms);
      var s := Sort(c, BY_KEY);
      SortDistinct(c, BY_KEY);
      assert DistinctKeys(s) by {
        forall p, q | 0 <= p < q < |s| ensures s[p].key != s[q].key {
          assert BY_KEY(s[p]) != BY_KEY(s[q]);
        }
      }
      SortSorted(c, BY_KEY);
      forall p | 0 <= p < |s| ensures WellFormed(s[p].value) {
        assert s[p] in multiset(s);
        assert s[p] in c;
        var i :| 0 <= i < |c| && c[i] == s[p];
        CanonWellFormed(ms[i].value);
      }
    case _ =>
  }

  lemma {:induction false} CanonEqual(a: Json, b: Json)
    requires WellFormed(a) && WellFormed(b)
    ensures Canon(a) == Canon(b) <==> Equal(a, b)
  {
    match (a, b)
    case (Arr(xs), Arr(ys)) =>
      forall i | 0 <= i < |xs| && i < |ys| ensures Canon(xs[i]) == Canon(ys[i]) <==> Equal(xs[i], ys[i]) {
        CanonEqual(xs[i], ys[i]);
      }
      if Canon(a) == Canon(b) {
        assert |xs| == |ys|;
        forall i | 0 <= i < |xs| ensures Equal(xs[i], ys[i]) {
          assert CanonItems(xs)[i] == CanonItems(ys)[i];
        }
      }
      if Equal(a, b) { assert CanonItems(xs) == CanonItems(ys); }
    case (Obj(xs), Obj(ys)) =>
      forall i, j | 0 <= i < |xs| && 0 <= j < |ys|
        ensures Canon(xs[i].value) == Canon(ys[j].value) <==> Equal(xs[i].value, ys[j].value)
      {
        CanonEqual(xs[i].value, ys[j].value);
      }
      SortEqual(CanonMembers(xs), CanonMembers(ys), BY_KEY);
      if Equal(a, b) { EqualSameByKey(xs, ys); }
      if SameByKey(CanonMembers(xs), CanonMembers(ys), BY_KEY) {
        SameKeys(xs, ys);
        forall i, j | 0 <= i < |xs| && 0 <= j < |ys| && xs[i].key == ys[j].key
          ensures Equal(xs[i].value, ys[j].value)
        {
          SamePair(xs, ys, i, j);
        }
      }
    case _ =>
  }

  /** What one key holds in the canonical members: nothing, or the canonical value under it. */
  lemma FilterCanon(ms: seq<Member>, k: string)
    requires DistinctKeys(ms)
    ensures !HasKey(ms, k) ==> Filter(CanonMembers(ms), BY_KEY, k) == []
    ensures forall i | 0 <= i < |ms| && ms[i].key == k
      :: Filter(CanonMembers(ms), BY_KEY, k) == [Member(k, Canon(ms[i].value))]
  {
  }

  lemma EqualSameByKey(xs: seq<Member>, ys: seq<Member>)
    requires DistinctKeys(xs) && DistinctKeys(ys)
    requires forall k :: HasKey(xs, k) <==> HasKey(ys, k)
    requires forall i, j | 0 <= i < |xs| && 0 <= j < |ys| && xs[i].key == ys[j].key
      :: Canon(xs[i].value) == Canon(ys[j].value)
    ensures SameByKey(CanonMembers(xs), CanonMembers(ys), BY_KEY)
  {
    forall k ensures Filter(CanonMembers(xs), BY_KEY, k) == Filter(CanonMembers(ys), BY_KEY, k) {
      FilterCanon(xs, k);
      FilterCanon(ys, k);
      if HasKey(xs, k) {
        assert HasKey(ys, k);
        var i :| 0 <= i < |xs| && xs[i].key == k;
        var j :| 0 <= j < |ys| && ys[j].key == k;
      }
    }
  }

  lemma SameKeys(xs: seq<Member>, ys: seq<Member>)
    requires DistinctKeys(xs) && DistinctKeys(ys)
    requires SameByKey(CanonMembers(xs), CanonMembers(ys), BY_KEY)
    ensures forall k :: HasKey(xs, k) <==> HasKey(ys, k)
  {
    forall k ensures HasKey(xs, k) <==> HasKey(ys, k) { SameUnder(xs, ys, k); }
  }

  lemma SamePair(xs: seq<Member>, ys: seq<Member>, i: nat, j: nat)
    requires DistinctKeys(xs) && DistinctKeys(ys)
    requires SameByKey(CanonMembers(xs), CanonMembers(ys), BY_KEY)
    requires i < |xs| && j < |ys| && xs[i].key == ys[j].key
    ensures Canon(xs[i].value) == Canon(ys[j].value)
  {
    SameUnder(xs, ys, xs[i].key);
    FilterDistinct(CanonMembers(xs), BY_KEY, i);
    FilterDistinct(CanonMembers(ys), BY_KEY, j);
  }

  lemma SameUnder(xs: seq<Member>, ys: seq<Member>, k: string)
    requires DistinctKeys(xs) && DistinctKeys(ys)
    requires SameByKey(CanonMembers(xs), CanonMembers(ys), BY_KEY)
    ensures Filter(CanonMembers(xs), BY_KEY, k) == Filter(CanonMembers(ys), BY_KEY, k)
    ensures HasKey(xs, k) <==> HasKey(ys, k)
  {
    FilterCanon(xs, k);
    FilterCanon(ys, k);
    assert Filter(CanonMembers(xs), BY_KEY, k) == Filter(CanonMembers(ys), BY_KEY, k);
  }

  /** The sorted compact text identifies a value exactly up to member order. */
  lemma DumpsEqual(a: Json, b: Json)
    requires WellFormed(a) && WellFormed(b)
    ensures Dumps(a) == Dumps(b) <==> Equal(a, b)
  {
    CanonWellFormed(a);
    CanonWellFormed(b);
    PrintInjective(Canon(a), Canon(b));
    CanonEqual(a, b);
  }

  /** Both objects leave the key out, or both hold equal values under it. */
  ghost predicate SameAt(xs: seq<Member>, ys: seq<Member>, k: string) {
    match (Get(xs, k), Get(ys, k))
    case (None, None) => true
    case (Some(v), Some(w)) => Equal(v, w)
    case _ => false
  }

  lemma EqualAt(xs: seq<Member>, ys: seq<Member>, k: string)
    requires DistinctKeys(xs) && DistinctKeys(ys) && Equal(Obj(xs), Obj(ys))
    ensures SameAt(xs, ys, k)
  {
  }

  lemma AtEqual(xs: seq<Member>, ys: seq<Member>)
    requires DistinctKeys(xs) && DistinctKeys(ys) && forall k :: SameAt(xs, ys, k)
    ensures Equal(Obj(xs), Obj(ys))
  {
    forall k ensures HasKey(xs, k) <==> HasKey(ys, k) { assert SameAt(xs, ys, k); }
    forall i, j | 0 <= i < |xs| && 0 <= j < |ys| && xs[i].key == ys[j].key
      ensures Equal(xs[i].value, ys[j].value)
    {
      assert SameAt(xs, ys, xs[i].key);
      GetAt(xs, i);
      GetAt(ys, j);
    }
  }
}
