/** Signing-key lookup with a throttled refetch: threads share one clock and the time of the last forced refresh. */
module Jwks {

  datatype Last = Never | At(time: real)

  datatype Answer = Found(key: nat) | RateLimited | Refetched(ok: bool, key: nat)

  /** One lookup, in the order threads pass the lock: the clock there, the kid (0 for none), and what a refetch
      gives. */
  datatype Lookup = Lookup(now: real, kid: nat, refetchOk: bool, refetched: nat)

  predicate Allowed(last: Last, now: real, minRefresh: real) { last.Never? || now - last.time >= minRefresh }

  /** The key set a thread can see without forcing a fetch: kids and their keys. */
  type Keys = map<nat, nat>

  predicate Known(keys: Keys, kid: nat) { kid != 0 && kid in keys }

  class JwksResolver {
    const minRefresh: real
    var last: Last

    constructor (minRefresh: real)
      ensures this.minRefresh == minRefresh && last == Never
    {
      this.minRefresh := minRefresh;
      last := Never;
    }

    /** cached is what get_signing_keys(refresh=False) returns. */
    method SigningKey(l: Lookup, cached: Keys) returns (a: Answer)
      modifies this
      ensures a == Resolve(old(last), cached, l, minRefresh)
      ensures a.Found? <==> l.kid != 0 && l.kid in cached
      ensures a.Found? ==> a.key == cached[l.kid]
      ensures !a.Found? ==> (a.RateLimited? <==> old(last).At? && l.now < old(last).time + minRefresh)
      ensures a.Refetched? ==> a.ok == l.refetchOk && a.key == l.refetched
      ensures last == if a.Refetched? then At(l.now) else old(last)
    {
      if l.kid != 0 {
        if l.kid in cached { return Found(cached[l.kid]); }
      }
      if last.At? && l.now - last.time < minRefresh { return RateLimited; }
      last := At(l.now);
      a := Refetched(l.refetchOk, l.refetched);
    }
  }

  function Resolve(last: Last, cached: Keys, l: Lookup, minRefresh: real): Answer {
    if Known(cached, l.kid) then Found(cached[l.kid])
    else if Allowed(last, l.now, minRefresh) then Refetched(l.refetchOk, l.refetched)
    else RateLimited
  }

  /** A lookup with the key set it sees. */
  datatype Call = Call(lookup: Lookup, cached: Keys)

  /** When the forced refreshes of a run happen. */
  function Refreshes(last: Last, calls: seq<Call>, minRefresh: real): seq<real>
    decreases |calls|
  {
    if calls == [] then []
    else
      var l := calls[0].lookup;
      if Resolve(last, calls[0].cached, l, minRefresh).Refetched?
      then [l.now] + Refreshes(At(l.now), calls[1..], minRefresh)
      else Refreshes(last, calls[1..], minRefresh)
  }

  /** Any sequence of lookups on a resolver forces a refresh just when Refreshes says. */
  method LookAll(r: JwksResolver, calls: seq<Call>) returns (forced: seq<real>)
    modifies r
    ensures forced == Refreshes(old(r.last), calls, r.minRefresh)
  {
    forced := [];
    var i := 0;
    while i < |calls|
      invariant i <= |calls|
      invariant forced + Refreshes(r.last, calls[i..], r.minRefresh) == Refreshes(old(r.last), calls, r.minRefresh)
    {
      assert calls[i..][0] == calls[i] && calls[i..][1..] == calls[i + 1..];
      ghost var later := Refreshes(r.last, calls[i..], r.minRefresh);
      var a := r.SigningKey(calls[i].lookup, calls[i].cached);
      if a.Refetched? {
        assert forced + later == forced + [calls[i].lookup.now] + Refreshes(r.last, calls[i + 1..], r.minRefresh);
        forced := forced + [calls[i].lookup.now];
      }
      i := i + 1;
    }
    assert calls[i..] == [];
    assert forced + [] == forced;
  }

  /** The last forced refresh of a run, or the one before it. */
  function Latest(last: Last, refreshes: seq<real>): Last {
    if refreshes == [] then last else At(refreshes[|refreshes| - 1])
  }

  /** One more lookup forces a refresh exactly when its kid is not in the cached set and the latest forced refresh, if
      there was one, is at least minRefresh old. */
  lemma {:induction false} OneMoreLookup(last: Last, calls: seq<Call>, c: Call, minRefresh: real)
    ensures var before := Refreshes(last, calls, minRefresh); var latest := Latest(last, before);
            Refreshes(last, calls + [c], minRefresh) ==
              if (c.lookup.kid == 0 || c.lookup.kid !in c.cached)
                 && (latest.Never? || c.lookup.now >= latest.time + minRefresh)
              then before + [c.lookup.now] else before
    decreases |calls|
  {
    if calls == [] {
      assert [c][1..] == [] && [] + [c] == [c];
    } else {
      var l := calls[0].lookup;
      assert (calls + [c])[1..] == calls[1..] + [c] && (calls + [c])[0] == calls[0];
      var next := if Resolve(last, calls[0].cached, l, minRefresh).Refetched? then At(l.now) else last;
      OneMoreLookup(next, calls[1..], c, minRefresh);
      assert Latest(last, [l.now] + Refreshes(At(l.now), calls[1..], minRefresh))
          == Latest(At(l.now), Refreshes(At(l.now), calls[1..], minRefresh));
    }
  }

  /** Consecutive forced refreshes, the one before the run included, are at least minRefresh apart. */
  lemma {:induction false} Spaced(last: Last, calls: seq<Call>, minRefresh: real)
    ensures var rs := Refreshes(last, calls, minRefresh);
            && (last.At? && rs != [] ==> rs[0] - last.time >= minRefresh)
            && forall i | 0 < i < |rs| :: rs[i] - rs[i - 1] >= minRefresh
    decreases |calls|
  {
    if calls != [] {
      var l := calls[0].lookup;
      if Resolve(last, calls[0].cached, l, minRefresh).Refetched? {
        Spaced(At(l.now), calls[1..], minRefresh);
        var rest := Refreshes(At(l.now), calls[1..], minRefresh);
        var rs := Refreshes(last, calls, minRefresh);
        assert rs == [l.now] + rest;
        forall i | 0 < i < |rs| ensures rs[i] - rs[i - 1] >= minRefresh {
          assert rs[i] == rest[i - 1];
          if i > 1 { assert rs[i - 1] == rest[i - 2]; }
        }
      } else {
        Spaced(last, calls[1..], minRefresh);
        assert Refreshes(last, calls, minRefresh) == Refreshes(last, calls[1..], minRefresh);
      }
    }
  }

  lemma {:induction false} SpreadOut(rs: seq<real>, i: nat, j: nat, minRefresh: real)
    requires i <= j < |rs| && forall k | 0 < k < |rs| :: rs[k] - rs[k - 1] >= minRefresh
    ensures rs[j] - rs[i] >= (j - i) as real * minRefresh
    decreases j - i
  {
    if i < j {
      SpreadOut(rs, i, j - 1, minRefresh);
      assert (j - i) as real == (j - 1 - i) as real + 1.0;
    }
  }

  /** The rate bound: n forced refreshes within a window of length L mean (n - 1) * minRefresh <= L, so that a window
      holds at most floor(L / minRefresh) + 1 of them, for any sequence of kids and threads. */
  lemma RateBound(last: Last, calls: seq<Call>, minRefresh: real, i: nat, n: nat, length: real)
    requires minRefresh > 0.0
    requires var rs := Refreshes(last, calls, minRefresh); n > 0 && i + n <= |rs| && rs[i + n - 1] - rs[i] <= length
    ensures n <= (length / minRefresh).Floor + 1
  {
    hide Refreshes;
    var rs := Refreshes(last, calls, minRefresh);
    Spaced(last, calls, minRefresh);
    SpreadOut(rs, i, i + n - 1, minRefresh);
    var gaps := (n - 1) as real * minRefresh;
    assert gaps <= length;
    DivideBy((n - 1) as real, length, minRefresh);
    BelowFloor(n - 1, length / minRefresh);
  }

  lemma BelowFloor(k: int, x: real)
    requires k as real <= x
    ensures k <= x.Floor
  {
  }

  lemma DivideBy(k: real, length: real, m: real)
    requires m > 0.0 && k * m <= length
    ensures k <= length / m
  {
    var q := length / m;
    assert q * m == length;
    assert (k - q) * m <= 0.0;
    Positive(k - q, m);
  }

  lemma Positive(x: real, m: real)
    requires m > 0.0 && x * m <= 0.0
    ensures x <= 0.0
  {
  }

  /** The first lookup of an unknown kid may always refetch, and one of a known kid never does, nor moves the time of
      the last refresh. */
  lemma FirstIsAllowed(call: Call, rest: seq<Call>, minRefresh: real)
    ensures Refreshes(Never, [call] + rest, minRefresh) ==
            if Known(call.cached, call.lookup.kid) then Refreshes(Never, rest, minRefresh)
            else [call.lookup.now] + Refreshes(At(call.lookup.now), rest, minRefresh)
  {
    assert ([call] + rest)[1..] == rest;
  }

  lemma KnownNeverRefreshes(last: Last, calls: seq<Call>, minRefresh: real)
    requires forall c | c in calls :: Known(c.cached, c.lookup.kid)
    ensures Refreshes(last, calls, minRefresh) == []
    decreases |calls|
  {
    if calls != [] {
      assert forall c | c in calls[1..] :: c in calls;
      KnownNeverRefreshes(last, calls[1..], minRefresh);
    }
  }
}
