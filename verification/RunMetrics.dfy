/** The journal scanner's counters: each run record adds to a few buckets; sums are over exact reals. */
module RunMetrics {

  /** A numeric field as decoded: absent or of another type, a whole number (a bool counts as one), or a float. */
  datatype Number = NotNumber | Whole(n: int) | Fraction(x: real)

  /** Texts are empty when absent; the model name is already a slug. */
  datatype Record = Record(
    agentName: string, model: string, outcome: string,
    elapsed: Number, prompt: Number, completion: Number, cached: Number, cost: Number, calls: Number,
    parseFallback: bool, reflections: Number)

  datatype Family = Runs | Elapsed | Tokens | Cost | Calls | ParseFallback | Reflection

  type Labels = seq<string>

  type Counters = map<(Family, Labels), real>

  datatype Hit = Hit(bucket: (Family, Labels), amount: real)

  function OrUnknown(s: string): string { if s == "" then "unknown" else s }

  predicate Positive(n: Number) { n.Whole? && n.n > 0 }

  function AsReal(n: Number): real { match n case NotNumber => 0.0 case Whole(k) => k as real case Fraction(x) => x }

  function If(b: bool, h: Hit): seq<Hit> { if b then [h] else [] }

  function TokenHit(n: Number, kind: string, model: string): seq<Hit> {
    If(Positive(n), Hit((Tokens, [kind, model]), AsReal(n)))
  }

  /** What one record adds, in the order the loop adds it. */
  function Hits(r: Record): seq<Hit> {
    [Hit((Runs, [OrUnknown(r.agentName), r.model, OrUnknown(r.outcome)]), 1.0)] + Others(r)
  }

  function Others(r: Record): seq<Hit> {
    var agent, outcome := OrUnknown(r.agentName), OrUnknown(r.outcome);
    If(!r.elapsed.NotNumber?, Hit((Elapsed, [agent, r.model, outcome]), AsReal(r.elapsed)))
    + TokenHit(r.prompt, "prompt", r.model) + TokenHit(r.completion, "completion", r.model)
    + TokenHit(r.cached, "cached", r.model)
    + If(AsReal(r.cost) > 0.0, Hit((Cost, [r.model]), AsReal(r.cost)))
    + If(Positive(r.calls), Hit((Calls, [agent, r.model]), AsReal(r.calls)))
    + If(r.parseFallback, Hit((ParseFallback, [agent]), 1.0))
    + If(r.reflections.Whole? && r.reflections.n >= 1, Hit((Reflection, [agent]), 1.0))
  }

  /** defaultdict's += . */
  function Bump(c: Counters, h: Hit): Counters {
    c[h.bucket := (if h.bucket in c then c[h.bucket] else 0.0) + h.amount]
  }

  function BumpAll(c: Counters, hs: seq<Hit>): Counters {
    if hs == [] then c else Bump(BumpAll(c, hs[..|hs| - 1]), hs[|hs| - 1])
  }

  function AllHits(rs: seq<Record>): seq<Hit> {
    if rs == [] then [] else AllHits(rs[..|rs| - 1]) + Hits(rs[|rs| - 1])
  }

  /** The sum of what goes into one bucket. */
  function Amount(hs: seq<Hit>, bucket: (Family, Labels)): real {
    if hs == [] then 0.0
    else Amount(hs[..|hs| - 1], bucket) + if hs[|hs| - 1].bucket == bucket then hs[|hs| - 1].amount else 0.0
  }

  ghost predicate Touched(hs: seq<Hit>, bucket: (Family, Labels)) { exists h :: h in hs && h.bucket == bucket }

  lemma HitsSoFar(rs: seq<Record>, i: nat)
    requires i < |rs|
    ensures AllHits(rs[..i + 1]) == AllHits(rs[..i]) + Hits(rs[i])
  {
    assert rs[..i + 1][..i] == rs[..i];
  }

  lemma BumpedSoFar(done: seq<Hit>, hits: seq<Hit>, j: nat)
    requires j < |hits|
    ensures BumpAll(map[], done + hits[..j + 1]) == Bump(BumpAll(map[], done + hits[..j]), hits[j])
  {
    assert (done + hits[..j + 1])[..|done| + j] == done + hits[..j];
  }

  /** One walk over the records. */
  method Aggregate(records: seq<Record>) returns (c: Counters)
    ensures c == BumpAll(map[], AllHits(records))
  {
    hide Hits, Bump;
    c := map[];
    var i := 0;
    while i < |records|
      invariant i <= |records| && c == BumpAll(map[], AllHits(records[..i]))
    {
      var hits := Hits(records[i]);
      ghost var done := AllHits(records[..i]);
      assert done + hits[..0] == done;
      var j := 0;
      while j < |hits|
        invariant j <= |hits| && c == BumpAll(map[], done + hits[..j])
      {
        hide AllHits, BumpAll;
        BumpedSoFar(done, hits, j);
        c := Bump(c, hits[j]);
        j := j + 1;
      }
      assert hits[..j] == hits;
      HitsSoFar(records, i);
      i := i + 1;
    }
    assert records[..i] == records;
  }

  /** A bucket exists exactly when some record adds to it, and holds the sum of what is added. */
  lemma {:induction false} BucketsAreSums(hs: seq<Hit>, b: (Family, Labels))
    ensures b in BumpAll(map[], hs) <==> Touched(hs, b)
    ensures b in BumpAll(map[], hs) ==> BumpAll(map[], hs)[b] == Amount(hs, b)
    ensures !Touched(hs, b) ==> Amount(hs, b) == 0.0
  {
    if hs != [] {
      var init, last := hs[..|hs| - 1], hs[|hs| - 1];
      BucketsAreSums(init, b);
      assert hs == init + [last];
      if last.bucket == b { assert last in hs; }
      if Touched(init, b) { var h :| h in init && h.bucket == b; assert h in hs; }
    }
  }

  function Tokened(n: Number): real { if Positive(n) then AsReal(n) else 0.0 }

  /** What one record adds to one bucket, bucket by bucket. */
  function Adds(r: Record, b: (Family, Labels)): real {
    var agent, outcome := OrUnknown(r.agentName), OrUnknown(r.outcome);
    match b.0
    case Runs => if b.1 == [agent, r.model, outcome] then 1.0 else 0.0
    case Elapsed => if b.1 == [agent, r.model, outcome] then AsReal(r.elapsed) else 0.0
    case Tokens =>
      if b.1 == ["prompt", r.model] then Tokened(r.prompt)
      else if b.1 == ["completion", r.model] then Tokened(r.completion)
      else if b.1 == ["cached", r.model] then Tokened(r.cached)
      else 0.0
    case Cost => if b.1 == [r.model] && AsReal(r.cost) > 0.0 then AsReal(r.cost) else 0.0
    case Calls => if b.1 == [agent, r.model] then Tokened(r.calls) else 0.0
    case ParseFallback => if b.1 == [agent] && r.parseFallback then 1.0 else 0.0
    case Reflection => if b.1 == [agent] && Positive(r.reflections) then 1.0 else 0.0
  }

  lemma AmountIf(b: (Family, Labels), c: bool, h: Hit)
    ensures Amount(If(c, h), b) == if c && h.bucket == b then h.amount else 0.0
  {
  }

  function When(b: (Family, Labels), bucket: (Family, Labels), c: bool, x: real): real {
    if c && b == bucket then x else 0.0
  }

  lemma TokenAmount(b: (Family, Labels), n: Number, kind: string, model: string)
    ensures Amount(TokenHit(n, kind, model), b) == When(b, (Tokens, [kind, model]), Positive(n), AsReal(n))
  {
  }

  lemma RecordSum(r: Record, b: (Family, Labels))
    ensures var agent, outcome := OrUnknown(r.agentName), OrUnknown(r.outcome);
            Amount(Hits(r), b) ==
              When(b, (Runs, [agent, r.model, outcome]), true, 1.0)
              + When(b, (Elapsed, [agent, r.model, outcome]), !r.elapsed.NotNumber?, AsReal(r.elapsed))
              + When(b, (Tokens, ["prompt", r.model]), Positive(r.prompt), AsReal(r.prompt))
              + When(b, (Tokens, ["completion", r.model]), Positive(r.completion), AsReal(r.completion))
              + When(b, (Tokens, ["cached", r.model]), Positive(r.cached), AsReal(r.cached))
              + When(b, (Cost, [r.model]), AsReal(r.cost) > 0.0, AsReal(r.cost))
              + When(b, (Calls, [agent, r.model]), Positive(r.calls), AsReal(r.calls))
              + When(b, (ParseFallback, [agent]), r.parseFallback, 1.0)
              + When(b, (Reflection, [agent]), r.reflections.Whole? && r.reflections.n >= 1, 1.0)
  {
    hide Amount, If, TokenHit;
    var agent, outcome := OrUnknown(r.agentName), OrUnknown(r.outcome);
    var h0 := Hit((Runs, [agent, r.model, outcome]), 1.0);
    var h1 := Hit((Elapsed, [agent, r.model, outcome]), AsReal(r.elapsed));
    var h5, h6 := Hit((Cost, [r.model]), AsReal(r.cost)), Hit((Calls, [agent, r.model]), AsReal(r.calls));
    var h7, h8 := Hit((ParseFallback, [agent]), 1.0), Hit((Reflection, [agent]), 1.0);
    AmountEight(b, If(!r.elapsed.NotNumber?, h1), TokenHit(r.prompt, "prompt", r.model),
                TokenHit(r.completion, "completion", r.model), TokenHit(r.cached, "cached", r.model),
                If(AsReal(r.cost) > 0.0, h5), If(Positive(r.calls), h6), If(r.parseFallback, h7),
                If(r.reflections.Whole? && r.reflections.n >= 1, h8));
    AmountConcat([h0], Others(r), b);
    OneHit(h0, b);
    AmountIf(b, !r.elapsed.NotNumber?, h1);
    TokenAmount(b, r.prompt, "prompt", r.model);
    TokenAmount(b, r.completion, "completion", r.model);
    TokenAmount(b, r.cached, "cached", r.model);
    AmountIf(b, AsReal(r.cost) > 0.0, h5);
    AmountIf(b, Positive(r.calls), h6);
    AmountIf(b, r.parseFallback, h7);
    AmountIf(b, r.reflections.Whole? && r.reflections.n >= 1, h8);
  }

  lemma OneHit(h: Hit, b: (Family, Labels))
    ensures Amount([h], b) == if h.bucket == b then h.amount else 0.0
  {
  }

  /** A record's hits add to each bucket what Adds says. */
  lemma RecordAdds(r: Record, b: (Family, Labels))
    ensures Amount(Hits(r), b) == Adds(r, b)
  {
    RecordSum(r, b);
    hide Amount, Hits;
    Kinds(r.model);
  }

  /** Which buckets one record touches at all: a duration of zero opens its bucket, while a price, a count or a token
      number that is missing or zero opens none, so that what is not known does not read as nothing. */
  predicate Opens(r: Record, b: (Family, Labels)) {
    var agent := if r.agentName == "" then "unknown" else r.agentName;
    var outcome := if r.outcome == "" then "unknown" else r.outcome;
    match b.0
    case Runs => b.1 == [agent, r.model, outcome]
    case Elapsed => b.1 == [agent, r.model, outcome] && !r.elapsed.NotNumber?
    case Tokens =>
      || (b.1 == ["prompt", r.model] && r.prompt.Whole? && r.prompt.n > 0)
      || (b.1 == ["completion", r.model] && r.completion.Whole? && r.completion.n > 0)
      || (b.1 == ["cached", r.model] && r.cached.Whole? && r.cached.n > 0)
    case Cost => b.1 == [r.model] && ((r.cost.Whole? && r.cost.n > 0) || (r.cost.Fraction? && r.cost.x > 0.0))
    case Calls => b.1 == [agent, r.model] && r.calls.Whole? && r.calls.n > 0
    case ParseFallback => b.1 == [agent] && r.parseFallback
    case Reflection => b.1 == [agent] && r.reflections.Whole? && r.reflections.n >= 1
  }

  lemma RecordOpens(r: Record, b: (Family, Labels))
    ensures Touched(Hits(r), b) <==> Opens(r, b)
  {
    RecordTouches(r, b);
    hide Touched, Hits;
  }

  lemma RecordTouches(r: Record, b: (Family, Labels))
    ensures var agent, outcome := OrUnknown(r.agentName), OrUnknown(r.outcome);
            Touched(Hits(r), b) <==>
              || b == (Runs, [agent, r.model, outcome])
              || (!r.elapsed.NotNumber? && b == (Elapsed, [agent, r.model, outcome]))
              || (Positive(r.prompt) && b == (Tokens, ["prompt", r.model]))
              || (Positive(r.completion) && b == (Tokens, ["completion", r.model]))
              || (Positive(r.cached) && b == (Tokens, ["cached", r.model]))
              || (AsReal(r.cost) > 0.0 && b == (Cost, [r.model]))
              || (Positive(r.calls) && b == (Calls, [agent, r.model]))
              || (r.parseFallback && b == (ParseFallback, [agent]))
              || (r.reflections.Whole? && r.reflections.n >= 1 && b == (Reflection, [agent]))
  {
    hide Touched, If;
    var agent, outcome := OrUnknown(r.agentName), OrUnknown(r.outcome);
    var h0 := Hit((Runs, [agent, r.model, outcome]), 1.0);
    var h1 := Hit((Elapsed, [agent, r.model, outcome]), AsReal(r.elapsed));
    var h5, h6 := Hit((Cost, [r.model]), AsReal(r.cost)), Hit((Calls, [agent, r.model]), AsReal(r.calls));
    var h7, h8 := Hit((ParseFallback, [agent]), 1.0), Hit((Reflection, [agent]), 1.0);
    TouchedEight(b, [h0], If(!r.elapsed.NotNumber?, h1), TokenHit(r.prompt, "prompt", r.model),
                 TokenHit(r.completion, "completion", r.model), TokenHit(r.cached, "cached", r.model),
                 If(AsReal(r.cost) > 0.0, h5), If(Positive(r.calls), h6), If(r.parseFallback, h7),
                 If(r.reflections.Whole? && r.reflections.n >= 1, h8));
    TouchedIf(true, h0, b);
    TouchedIf(!r.elapsed.NotNumber?, h1, b);
    TouchedIf(Positive(r.prompt), Hit((Tokens, ["prompt", r.model]), AsReal(r.prompt)), b);
    TouchedIf(Positive(r.completion), Hit((Tokens, ["completion", r.model]), AsReal(r.completion)), b);
    TouchedIf(Positive(r.cached), Hit((Tokens, ["cached", r.model]), AsReal(r.cached)), b);
    TouchedIf(AsReal(r.cost) > 0.0, h5, b);
    TouchedIf(Positive(r.calls), h6, b);
    TouchedIf(r.parseFallback, h7, b);
    TouchedIf(r.reflections.Whole? && r.reflections.n >= 1, h8, b);
  }

  lemma TouchedIf(c: bool, h: Hit, b: (Family, Labels))
    ensures Touched(If(c, h), b) <==> c && h.bucket == b
    ensures If(true, h) == [h]
  {
    if c { assert h in If(c, h); }
  }

  lemma TouchedConcat(a: seq<Hit>, c: seq<Hit>, b: (Family, Labels))
    ensures Touched(a + c, b) <==> Touched(a, b) || Touched(c, b)
  {
    if x :| x in a && x.bucket == b { assert x in a + c; }
    if x :| x in c && x.bucket == b { assert x in a + c; }
  }

  lemma TouchedEight(b: (Family, Labels), s0: seq<Hit>, s1: seq<Hit>, s2: seq<Hit>, s3: seq<Hit>, s4: seq<Hit>,
                     s5: seq<Hit>, s6: seq<Hit>, s7: seq<Hit>, s8: seq<Hit>)
    ensures Touched(s0 + (s1 + s2 + s3 + s4 + s5 + s6 + s7 + s8), b) <==>
            Touched(s0, b) || Touched(s1, b) || Touched(s2, b) || Touched(s3, b) || Touched(s4, b)
            || Touched(s5, b) || Touched(s6, b) || Touched(s7, b) || Touched(s8, b)
  {
    hide Touched;
    TouchedConcat(s1, s2, b);
    TouchedConcat(s1 + s2, s3, b);
    TouchedConcat(s1 + s2 + s3, s4, b);
    TouchedConcat(s1 + s2 + s3 + s4, s5, b);
    TouchedConcat(s1 + s2 + s3 + s4 + s5, s6, b);
    TouchedConcat(s1 + s2 + s3 + s4 + s5 + s6, s7, b);
    TouchedConcat(s1 + s2 + s3 + s4 + s5 + s6 + s7, s8, b);
    TouchedConcat(s0, s1 + s2 + s3 + s4 + s5 + s6 + s7 + s8, b);
  }

  lemma Kinds(model: string)
    ensures ["prompt", model] != ["completion", model] && ["prompt", model] != ["cached", model]
    ensures ["completion", model] != ["cached", model]
  {
  }

  lemma AmountEight(b: (Family, Labels), s1: seq<Hit>, s2: seq<Hit>, s3: seq<Hit>, s4: seq<Hit>, s5: seq<Hit>,
                    s6: seq<Hit>, s7: seq<Hit>, s8: seq<Hit>)
    ensures Amount(s1 + s2 + s3 + s4 + s5 + s6 + s7 + s8, b) ==
            Amount(s1, b) + Amount(s2, b) + Amount(s3, b) + Amount(s4, b) + Amount(s5, b) + Amount(s6, b)
            + Amount(s7, b) + Amount(s8, b)
  {
    hide Amount;
    AmountConcat(s1, s2, b);
    AmountConcat(s1 + s2, s3, b);
    AmountConcat(s1 + s2 + s3, s4, b);
    AmountConcat(s1 + s2 + s3 + s4, s5, b);
    AmountConcat(s1 + s2 + s3 + s4 + s5, s6, b);
    AmountConcat(s1 + s2 + s3 + s4 + s5 + s6, s7, b);
    AmountConcat(s1 + s2 + s3 + s4 + s5 + s6 + s7, s8, b);
  }

  /** Each bucket is the sum over the records of what each adds to it. */
  lemma {:induction false} BucketTotals(rs: seq<Record>, b: (Family, Labels))
    ensures Amount(AllHits(rs), b) == TotalOf(rs, b)
  {
    hide Hits, Adds, Amount;
    if rs == [] {
      assert Amount([], b) == 0.0 by { NoAmount(b); }
    } else {
      BucketTotals(rs[..|rs| - 1], b);
      AmountConcat(AllHits(rs[..|rs| - 1]), Hits(rs[|rs| - 1]), b);
      RecordAdds(rs[|rs| - 1], b);
    }
  }

  lemma NoAmount(b: (Family, Labels))
    ensures Amount([], b) == 0.0
  {
  }

  function TotalOf(rs: seq<Record>, b: (Family, Labels)): real {
    if rs == [] then 0.0 else TotalOf(rs[..|rs| - 1], b) + Adds(rs[|rs| - 1], b)
  }

  lemma {:induction false} AmountConcat(a: seq<Hit>, c: seq<Hit>, b: (Family, Labels))
    ensures Amount(a + c, b) == Amount(a, b) + Amount(c, b)
  {
    if c == [] {
      assert a + c == a;
    } else {
      assert (a + c)[..|a + c| - 1] == a + c[..|c| - 1];
      AmountConcat(a, c[..|c| - 1], b);
    }
  }

  lemma LastRecord(rs: seq<Record>, b: (Family, Labels))
    requires rs != []
    ensures Amount(AllHits(rs), b) == Amount(AllHits(rs[..|rs| - 1]), b) + Amount(Hits(rs[|rs| - 1]), b)
  {
    hide Hits, Amount;
    AmountConcat(AllHits(rs[..|rs| - 1]), Hits(rs[|rs| - 1]), b);
  }

  function Without<T>(s: seq<T>, i: nat): seq<T>
    requires i < |s|
  {
    s[..i] + s[i + 1..]
  }

  lemma WithoutLast<T>(s: seq<T>, i: nat)
    requires i < |s|
    ensures i == |s| - 1 ==> Without(s, i) == s[..|s| - 1]
    ensures i < |s| - 1 ==> Without(s, i) == Without(s[..|s| - 1], i) + [s[|s| - 1]]
  {
  }

  lemma WithoutMultiset<T>(s: seq<T>, i: nat)
    requires i < |s|
    ensures multiset(s) == multiset(Without(s, i)) + multiset{s[i]}
  {
    assert s == s[..i] + [s[i]] + s[i + 1..];
  }

  lemma SameBut<T>(a: multiset<T>, b: multiset<T>, x: T)
    requires a + multiset{x} == b + multiset{x}
    ensures a == b
  {
    assert a == a + multiset{x} - multiset{x};
  }

  lemma {:induction false} AmountOfRecords(rs: seq<Record>, i: nat, b: (Family, Labels))
    requires i < |rs|
    ensures Amount(AllHits(rs), b) == Amount(AllHits(Without(rs, i)), b) + Amount(Hits(rs[i]), b)
  {
    hide Hits, Amount, AllHits, Without;
    LastRecord(rs, b);
    WithoutLast(rs, i);
    if i < |rs| - 1 {
      var init, less := rs[..|rs| - 1], Without(rs, i);
      AmountOfRecords(init, i, b);
      assert less == Without(init, i) + [rs[|rs| - 1]];
      assert less[..|less| - 1] == Without(init, i) && less[|less| - 1] == rs[|rs| - 1];
      LastRecord(less, b);
    }
  }

  lemma {:induction false} AmountPermutes(a: seq<Record>, c: seq<Record>, b: (Family, Labels))
    requires multiset(a) == multiset(c)
    ensures Amount(AllHits(a), b) == Amount(AllHits(c), b)
    decreases |a|
  {
    hide Hits, Amount, AllHits, Without;
    if a == [] {
      assert |multiset(a)| == |multiset(c)|;
    } else {
      var n := |a| - 1;
      assert a[n] in multiset(a);
      assert a[n] in c;
      var j :| 0 <= j < |c| && c[j] == a[n];
      WithoutMultiset(a, n);
      WithoutMultiset(c, j);
      WithoutLast(a, n);
      SameBut(multiset(a[..n]), multiset(Without(c, j)), a[n]);
      AmountPermutes(a[..n], Without(c, j), b);
      AmountOfRecords(c, j, b);
      LastRecord(a, b);
    }
  }

  lemma {:induction false} HitsOfRecords(rs: seq<Record>, h: Hit)
    ensures h in AllHits(rs) <==> exists r :: r in rs && h in Hits(r)
  {
    hide Hits;
    if rs != [] {
      HitsOfRecords(rs[..|rs| - 1], h);
      assert rs == rs[..|rs| - 1] + [rs[|rs| - 1]];
    }
  }

  /** Aggregation ignores the order in which the journal is listed. */
  lemma OrderIrrelevant(a: seq<Record>, c: seq<Record>)
    requires multiset(a) == multiset(c)
    ensures BumpAll(map[], AllHits(a)) == BumpAll(map[], AllHits(c))
  {
    hide Hits, Amount, BumpAll, AllHits;
    var x, y := BumpAll(map[], AllHits(a)), BumpAll(map[], AllHits(c));
    forall r: Record ensures r in a <==> r in c { assert r in multiset(a) <==> r in multiset(c); }
    forall b: (Family, Labels) ensures (b in x <==> b in y) && (b in x ==> x[b] == y[b]) {
      BucketsAreSums(AllHits(a), b);
      BucketsAreSums(AllHits(c), b);
      AmountPermutes(a, c, b);
      forall h: Hit ensures h in AllHits(a) <==> h in AllHits(c) {
        HitsOfRecords(a, h);
        HitsOfRecords(c, h);
      }
    }
  }

  // ---- The run buckets count the records ----

  ghost function RunBuckets(c: Counters): set<(Family, Labels)> { set b | b in c && b.0.Runs? }

  ghost function Sum(c: Counters, bs: set<(Family, Labels)>): real
    requires bs <= c.Keys
    decreases |bs|
  {
    if bs == {} then 0.0
    else
      var b :| b in bs;
      c[b] + Sum(c, bs - {b})
  }

  lemma {:induction false} SumTake(c: Counters, bs: set<(Family, Labels)>, b: (Family, Labels))
    requires bs <= c.Keys && b in bs
    ensures Sum(c, bs) == c[b] + Sum(c, bs - {b})
    decreases |bs|
  {
    var first :| first in bs && Sum(c, bs) == c[first] + Sum(c, bs - {first});
    if first != b {
      SumTake(c, bs - {first}, b);
      SumTake(c, bs - {b}, first);
      assert bs - {first} - {b} == bs - {b} - {first};
    }
  }

  lemma {:induction false} SumAgrees(c: Counters, d: Counters, bs: set<(Family, Labels)>)
    requires bs <= c.Keys && bs <= d.Keys && forall b | b in bs :: c[b] == d[b]
    ensures Sum(c, bs) == Sum(d, bs)
    decreases |bs|
  {
    if bs != {} {
      var b :| b in bs;
      SumTake(c, bs, b);
      SumTake(d, bs, b);
      SumAgrees(c, d, bs - {b});
    }
  }

  function RunAmount(hs: seq<Hit>): real {
    if hs == [] then 0.0
    else RunAmount(hs[..|hs| - 1]) + if hs[|hs| - 1].bucket.0.Runs? then hs[|hs| - 1].amount else 0.0
  }

  lemma BumpRuns(c: Counters, h: Hit)
    ensures Sum(Bump(c, h), RunBuckets(Bump(c, h))) ==
            Sum(c, RunBuckets(c)) + if h.bucket.0.Runs? then h.amount else 0.0
  {
    var d := Bump(c, h);
    if h.bucket.0.Runs? {
      SumTake(d, RunBuckets(d), h.bucket);
      var rest := RunBuckets(d) - {h.bucket};
      SumAgrees(c, d, rest);
      if h.bucket in c {
        SumTake(c, RunBuckets(c), h.bucket);
        assert rest == RunBuckets(c) - {h.bucket};
      } else {
        assert rest == RunBuckets(c);
      }
    } else {
      assert RunBuckets(d) == RunBuckets(c);
      SumAgrees(c, d, RunBuckets(c));
    }
  }

  lemma {:induction false} SumIsRunAmount(hs: seq<Hit>)
    ensures Sum(BumpAll(map[], hs), RunBuckets(BumpAll(map[], hs))) == RunAmount(hs)
  {
    if hs == [] {
      assert RunBuckets(map[]) == {};
    } else {
      SumIsRunAmount(hs[..|hs| - 1]);
      BumpRuns(BumpAll(map[], hs[..|hs| - 1]), hs[|hs| - 1]);
    }
  }

  lemma {:induction false} RunAmountConcat(a: seq<Hit>, c: seq<Hit>)
    ensures RunAmount(a + c) == RunAmount(a) + RunAmount(c)
  {
    if c == [] {
      assert a + c == a;
    } else {
      assert (a + c)[..|a + c| - 1] == a + c[..|c| - 1];
      RunAmountConcat(a, c[..|c| - 1]);
    }
  }

  lemma {:induction false} NoRuns(hs: seq<Hit>)
    requires forall h | h in hs :: !h.bucket.0.Runs?
    ensures RunAmount(hs) == 0.0
  {
    if hs != [] {
      assert hs[|hs| - 1] in hs;
      NoRuns(hs[..|hs| - 1]);
    }
  }

  lemma OneRun(r: Record)
    ensures RunAmount(Hits(r)) == 1.0
  {
    var first := Hits(r)[0];
    OthersAreNoRuns(r);
    NoRuns(Others(r));
    hide Others;
    RunAmountConcat([first], Others(r));
    assert [first][..0] == [];
  }

  lemma OthersAreNoRuns(r: Record)
    ensures forall h | h in Others(r) :: !h.bucket.0.Runs?
  {
  }

  lemma {:induction false} RunsOfRecords(rs: seq<Record>)
    ensures RunAmount(AllHits(rs)) == |rs| as real
  {
    hide Hits;
    if rs != [] {
      RunsOfRecords(rs[..|rs| - 1]);
      OneRun(rs[|rs| - 1]);
      RunAmountConcat(AllHits(rs[..|rs| - 1]), Hits(rs[|rs| - 1]));
    }
  }

  /** The run buckets together hold one for every record. */
  lemma RunsTotal(rs: seq<Record>)
    ensures var c := BumpAll(map[], AllHits(rs)); Sum(c, RunBuckets(c)) == |rs| as real
  {
    SumIsRunAmount(AllHits(rs));
    RunsOfRecords(rs);
  }
}
