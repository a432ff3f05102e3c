/** The judge pointer of the dispatcher: who is chosen over any sequence of calls on n daemons in id order. Whether a
    daemon can take a task may change between calls. */
module RoundRobin {

  datatype Choice = Nobody | Slot(index: nat)

  /** Which daemons can take a task at one call. */
  type Fit = seq<bool>

  predicate Able(fit: Fit, i: nat) { i < |fit| && fit[i] }

  /** The index o after p on a ring of n. */
  function Index(n: nat, p: nat, o: nat): (r: nat)
    requires p < n && o <= n
    ensures r == if p + o < n then p + o else p + o - n
  {
    Wrap(n, p + o);
    (p + o) % n
  }

  lemma Wrap(n: nat, x: nat)
    requires x < n + n
    ensures x % n == if x < n then x else x - n
  {
  }

  /** The first able daemon at offset o or later from p. */
  function Hop(fit: Fit, p: nat, o: nat): (r: Choice)
    requires p < |fit| && o <= |fit|
    ensures r.Slot? ==> o <= r.index < |fit|
    decreases |fit| - o
  {
    if o == |fit| then Nobody
    else if fit[Index(|fit|, p, o)] then Slot(o)
    else Hop(fit, p, o + 1)
  }

  datatype Turn = Turn(choice: Choice, pointer: nat)

  function Clamp(p: nat, n: nat): nat { if p >= n then 0 else p }

  /** One call: the daemon chosen, and the pointer left behind. */
  function Take(fit: Fit, pointer: nat): Turn {
    var n := |fit|;
    if n == 0 then Turn(Nobody, pointer)
    else
      var p := Clamp(pointer, n);
      match Hop(fit, p, 0)
      case Nobody => Turn(Nobody, Index(n, p, 1))
      case Slot(o) => Turn(Slot(Index(n, p, o)), Index(n, Index(n, p, o), 1))
  }

  /** How many steps ahead of the pointer daemon d is. */
  function Ahead(n: nat, p: nat, d: nat): nat
    requires p < n && d < n
  {
    if d >= p then d - p else d + n - p
  }

  lemma AheadReaches(n: nat, p: nat, d: nat)
    requires p < n && d < n
    ensures Ahead(n, p, d) < n && Index(n, p, Ahead(n, p, d)) == d
  {
  }

  /** Hop finds the nearest able daemon, and none exactly when nobody from the offset on is able. */
  lemma {:induction false} HopNearest(fit: Fit, p: nat, o: nat)
    requires p < |fit| && o <= |fit|
    ensures var h := Hop(fit, p, o);
            && (h.Slot? ==> o <= h.index < |fit| && fit[Index(|fit|, p, h.index)])
            && forall j: nat | o <= j < (if h.Slot? then h.index else |fit|) :: !fit[Index(|fit|, p, j)]
    decreases |fit| - o
  {
    hide Index;
    if o < |fit| && !fit[Index(|fit|, p, o)] { HopNearest(fit, p, o + 1); }
  }

  /** The result is nobody exactly when no daemon is able; otherwise it is the able daemon nearest to the pointer,
      and the pointer ends just behind it. */
  lemma TakeNearest(fit: Fit, pointer: nat)
    ensures var t := Take(fit, pointer); var p := Clamp(pointer, |fit|);
            && (t.choice.Nobody? <==> forall d: nat | d < |fit| :: !fit[d])
            && (|fit| > 0 ==> t.pointer < |fit|)
            && (t.choice.Slot? ==>
                  && Able(fit, t.choice.index)
                  && t.pointer == Index(|fit|, t.choice.index, 1)
                  && forall d | Able(fit, d) :: Ahead(|fit|, p, t.choice.index) <= Ahead(|fit|, p, d))
  {
    hide Index;
    var n := |fit|;
    if n > 0 {
      var p := Clamp(pointer, n);
      var h := Hop(fit, p, 0);
      HopNearest(fit, p, 0);
      forall d: nat | d < n && fit[d] ensures h.Slot? && h.index <= Ahead(n, p, d) { AheadReaches(n, p, d); }
    }
  }

  /** The choices of a sequence of calls. */
  function Choices(fits: seq<Fit>, pointer: nat): (r: seq<Choice>)
    ensures |r| == |fits|
  {
    if fits == [] then [] else [Take(fits[0], pointer).choice] + Choices(fits[1..], Take(fits[0], pointer).pointer)
  }

  /** A call that does not choose an able daemon d brings the pointer nearer to it. */
  lemma Nearer(fit: Fit, p: nat, d: nat)
    requires p < |fit| && Able(fit, d)
    ensures var t := Take(fit, p);
            t.choice == Slot(d) || (t.pointer < |fit| && Ahead(|fit|, t.pointer, d) < Ahead(|fit|, p, d))
  {
    hide Index, Hop;
    TakeNearest(fit, p);
  }

  /** No starvation: a daemon that stays able while n daemons are polled is chosen within n calls, whatever the
      others do. */
  lemma {:induction false} ChosenSoon(fits: seq<Fit>, n: nat, p: nat, d: nat)
    requires p < n && forall i | 0 <= i < |fits| :: |fits[i]| == n && Able(fits[i], d)
    requires d < n && Ahead(n, p, d) < |fits|
    ensures exists i :: 0 <= i <= Ahead(n, p, d) && Choices(fits, p)[i] == Slot(d)
    decreases |fits|
  {
    var t := Take(fits[0], p);
    Nearer(fits[0], p, d);
    if t.choice == Slot(d) {
      assert Choices(fits, p)[0] == Slot(d);
    } else {
      ChosenSoon(fits[1..], n, t.pointer, d);
      var i :| 0 <= i <= Ahead(n, t.pointer, d) && Choices(fits[1..], t.pointer)[i] == Slot(d);
      assert Choices(fits, p)[i + 1] == Slot(d);
    }
  }

  lemma NoStarvation(fits: seq<Fit>, n: nat, pointer: nat, d: nat)
    requires |fits| == n && d < n && forall i | 0 <= i < n :: |fits[i]| == n && Able(fits[i], d)
    ensures Slot(d) in Choices(fits, pointer)
  {
    var p := Clamp(pointer, n);
    assert Choices(fits, pointer) == Choices(fits, p);
    AheadReaches(n, p, d);
    ChosenSoon(fits, n, p, d);
  }

  // ---- A fixed set of able daemons ----

  function Same(fit: Fit, k: nat): seq<Fit> { seq(k, _ => fit) }

  /** The able daemons at least q ahead of p. */
  ghost function Beyond(fit: Fit, p: nat, q: nat): set<nat>
    requires p < |fit|
  {
    set d: nat | d < |fit| && fit[d] && Ahead(|fit|, p, d) >= q
  }

  /** From the pointer q ahead of p, the next choice is the nearest of those beyond q, and it leaves the rest. */
  lemma NextBeyond(fit: Fit, p: nat, q: nat) returns (d: nat)
    requires p < |fit| && q <= |fit| && Beyond(fit, p, q) != {}
    ensures d in Beyond(fit, p, q) && Beyond(fit, p, q) - {d} == Beyond(fit, p, Ahead(|fit|, p, d) + 1)
    ensures Take(fit, Index(|fit|, p, q)) == Turn(Slot(d), Index(|fit|, p, Ahead(|fit|, p, d) + 1))
  {
    hide Index, Hop, Take;
    var n := |fit|;
    var e :| e in Beyond(fit, p, q);
    var r := Index(n, p, q);
    TakeNearest(fit, r);
    var t := Take(fit, r);
    assert Able(fit, e);
    d := t.choice.index;
    assert Ahead(n, r, d) <= Ahead(n, r, e);
    forall x | x in Beyond(fit, p, q) && x != d ensures Ahead(n, p, x) >= Ahead(n, p, d) + 1 {
      assert Able(fit, x);
    }
  }

  /** Each of ds is chosen once, and nothing else is. */
  ghost predicate OnceEach(cs: seq<Choice>, ds: set<nat>) {
    && (forall c | c in cs :: c.Slot? && c.index in ds)
    && forall d | d in ds :: multiset(cs)[Slot(d)] == 1
  }

  lemma OnceMore(d: nat, cs: seq<Choice>, ds: set<nat>)
    requires OnceEach(cs, ds - {d}) && d in ds
    ensures OnceEach([Slot(d)] + cs, ds)
  {
  }

  lemma {:induction false} Lap(fit: Fit, p: nat, q: nat)
    requires p < |fit| && q <= |fit|
    ensures OnceEach(Choices(Same(fit, |Beyond(fit, p, q)|), Index(|fit|, p, q)), Beyond(fit, p, q))
    decreases |Beyond(fit, p, q)|
  {
    hide Index, Take;
    var k := |Beyond(fit, p, q)|;
    if k > 0 {
      var d := NextBeyond(fit, p, q);
      var q' := Ahead(|fit|, p, d) + 1;
      Lap(fit, p, q');
      assert Same(fit, k)[1..] == Same(fit, k - 1);
      OnceMore(d, Choices(Same(fit, k - 1), Index(|fit|, p, q')), Beyond(fit, p, q));
    }
  }

  ghost function AbleSet(fit: Fit): set<nat> { set d: nat | d < |fit| && fit[d] }

  lemma {:induction false} Suffix(fit: Fit, pointer: nat, m: nat, i: nat) returns (p: nat)
    requires fit != [] && i <= m
    ensures p < |fit| && Choices(Same(fit, m), pointer)[i..] == Choices(Same(fit, m - i), p)
    decreases i
  {
    if i == 0 {
      p := Clamp(pointer, |fit|);
    } else {
      TakeNearest(fit, pointer);
      assert Same(fit, m)[1..] == Same(fit, m - 1);
      p := Suffix(fit, Take(fit, pointer).pointer, m - 1, i - 1);
    }
  }

  lemma {:induction false} Prefix(fit: Fit, p: nat, m: nat, k: nat)
    requires k <= m
    ensures Choices(Same(fit, m), p)[..k] == Choices(Same(fit, k), p)
    decreases k
  {
    if k > 0 {
      assert Same(fit, m)[1..] == Same(fit, m - 1) && Same(fit, k)[1..] == Same(fit, k - 1);
      Prefix(fit, Take(fit, p).pointer, m - 1, k - 1);
    }
  }

  lemma Slice<T>(s: seq<T>, i: nat, k: nat)
    requires i + k <= |s|
    ensures s[i..][..k] == s[i..i + k]
  {
  }

  lemma FromHere(fit: Fit, p: nat)
    requires p < |fit|
    ensures Beyond(fit, p, 0) == AbleSet(fit) && Index(|fit|, p, 0) == p
  {
  }

  /** Fairness: while the set of able daemons does not change, any k choices in a row, k being its size, choose each
      able daemon exactly once. */
  lemma FairWindow(fit: Fit, pointer: nat, m: nat, i: nat)
    requires fit != [] && i + |AbleSet(fit)| <= m
    ensures OnceEach(Choices(Same(fit, m), pointer)[i..i + |AbleSet(fit)|], AbleSet(fit))
  {
    hide Take, Choices, OnceEach, AbleSet, Beyond;
    var k := |AbleSet(fit)|;
    var p := Suffix(fit, pointer, m, i);
    Prefix(fit, p, m - i, k);
    Slice(Choices(Same(fit, m), pointer), i, k);
    FromHere(fit, p);
    Lap(fit, p, 0);
  }
}
