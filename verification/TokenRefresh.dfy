/** The bearer token cache of one (scope, client) pair: any number of interleaved callers, one refresh at a time.
    Pairs share nothing, so one pair is the whole story. */
module TokenRefresh {

  const REFRESH_SKEW := 300.0

  datatype Token = Token(value: nat, expiresOn: real)

  datatype Cached = Nothing | Held(token: Token)

  predicate Usable(c: Cached, now: real) { c.Held? && c.token.expiresOn - REFRESH_SKEW > now }

  /** A caller between two awaits. */
  datatype Caller = Entering | Queued | Locked | Minting

  datatype Lock = Free | Taken(owner: nat)

  /** What a look at the cache found, and when. */
  datatype Glance = Glance(cached: Cached, at: real)

  /** served lists the glances answered from the cache, started those that began a mint under the lock. threads holds
      the mints running off the event loop, a cancelled caller's included; stales counts the times the cached token
      went stale, minted the mints that gave a token to the cache. */
  datatype World = World(
    now: real, cached: Cached, lock: Lock, callers: map<nat, Caller>, threads: set<nat>,
    served: seq<Glance>, started: seq<Glance>, minted: nat, stales: nat, cancelled: nat)

  datatype Move =
    | Enter(c: nat)
    | CheckFast(c: nat)
    | Acquire(c: nat)
    | CheckLocked(c: nat)
    | MintOk(c: nat, token: Token)
    | MintFail(c: nat)
    | Cancel(c: nat)
    | ThreadEnds(c: nat)
    | Wait(until: real)

  predicate Enabled(w: World, m: Move) {
    match m
    case Enter(c) => c !in w.callers && c !in w.threads
    case CheckFast(c) => c in w.callers && w.callers[c].Entering?
    case Acquire(c) => c in w.callers && w.callers[c].Queued? && w.lock.Free?
    case CheckLocked(c) => c in w.callers && w.callers[c].Locked?
    case MintOk(c, _) => c in w.callers && w.callers[c].Minting?
    case MintFail(c) => c in w.callers && w.callers[c].Minting?
    case Cancel(c) => c in w.callers && (w.callers[c].Queued? || w.callers[c].Minting?)
    case ThreadEnds(c) => c in w.threads && c !in w.callers
    case Wait(until) => until >= w.now
  }

  function Answered(w: World, c: nat): World {
    w.(callers := w.callers - {c}, served := w.served + [Glance(w.cached, w.now)])
  }

  function Step(w: World, m: Move): World
    requires Enabled(w, m)
  {
    match m
    case Enter(c) => w.(callers := w.callers[c := Entering])
    case CheckFast(c) => if Usable(w.cached, w.now) then Answered(w, c) else w.(callers := w.callers[c := Queued])
    case Acquire(c) => w.(callers := w.callers[c := Locked], lock := Taken(c))
    case CheckLocked(c) =>
      if Usable(w.cached, w.now) then Answered(w.(lock := Free), c)
      else w.(callers := w.callers[c := Minting], threads := w.threads + {c},
              started := w.started + [Glance(w.cached, w.now)])
    case MintOk(c, token) =>
      w.(callers := w.callers - {c}, threads := w.threads - {c}, lock := Free, cached := Held(token),
         minted := w.minted + 1, stales := w.stales + if Usable(Held(token), w.now) then 0 else 1)
    case MintFail(c) => w.(callers := w.callers - {c}, threads := w.threads - {c}, lock := Free)
    case Cancel(c) =>
      w.(callers := w.callers - {c}, lock := if w.callers[c].Minting? then Free else w.lock,
         cancelled := w.cancelled + if w.callers[c].Minting? then 1 else 0)
    case ThreadEnds(c) => w.(threads := w.threads - {c})
    case Wait(until) =>
      w.(now := until,
         stales := w.stales + if Usable(w.cached, w.now) && !Usable(w.cached, until) then 1 else 0)
  }

  function Cold(now: real): World { World(now, Nothing, Free, map[], {}, [], [], 0, 0, 0) }

  predicate Runs(w: World, moves: seq<Move>, end: World)
    decreases |moves|
  {
    if moves == [] then end == w else Enabled(w, moves[0]) && Runs(Step(w, moves[0]), moves[1..], end)
  }

  /** Threads whose caller is still waiting for them. */
  function Awaited(w: World): set<nat> { set c | c in w.threads && c in w.callers }

  predicate Exclusive(w: World) {
    && (forall c | c in w.callers && (w.callers[c].Locked? || w.callers[c].Minting?) :: w.lock == Taken(c))
    && (w.lock.Taken? ==>
          w.lock.owner in w.callers && (w.callers[w.lock.owner].Locked? || w.callers[w.lock.owner].Minting?))
    && (forall c | c in w.callers :: c in w.threads <==> w.callers[c].Minting?)
    && (w.lock.Taken? && w.callers[w.lock.owner].Minting? ==> !Usable(w.cached, w.now))
  }

  /** Mints nobody waits for any more. */
  function Orphans(w: World): set<nat> { set c | c in w.threads && c !in w.callers }

  predicate Counted(w: World) {
    && w.minted == w.stales + (if Usable(w.cached, w.now) then 1 else 0)
    && (forall g | g in w.served :: Usable(g.cached, g.at))
    && (forall g | g in w.started :: !Usable(g.cached, g.at))
  }

  lemma ExclusiveStep(w: World, m: Move)
    requires Exclusive(w) && Enabled(w, m)
    ensures Exclusive(Step(w, m))
  {
  }

  lemma CountedStep(w: World, m: Move)
    requires Exclusive(w) && Counted(w) && Enabled(w, m)
    ensures Counted(Step(w, m))
  {
  }

  lemma OrphansStep(w: World, m: Move)
    requires Exclusive(w) && |Orphans(w)| <= w.cancelled && Enabled(w, m)
    ensures |Orphans(Step(w, m))| <= Step(w, m).cancelled
  {
    var v := Step(w, m);
    if m.Cancel? && w.callers[m.c].Minting? {
      assert Orphans(v) == Orphans(w) + {m.c};
    } else if m.ThreadEnds? {
      assert Orphans(v) == Orphans(w) - {m.c};
    } else {
      assert Orphans(v) == Orphans(w);
    }
  }

  lemma {:induction false} RunKeeps(w: World, moves: seq<Move>, end: World)
    requires Exclusive(w) && Counted(w) && |Orphans(w)| <= w.cancelled && Runs(w, moves, end)
    ensures Exclusive(end) && Counted(end) && |Orphans(end)| <= end.cancelled
    decreases |moves|
  {
    if moves != [] {
      ExclusiveStep(w, moves[0]);
      CountedStep(w, moves[0]);
      OrphansStep(w, moves[0]);
      RunKeeps(Step(w, moves[0]), moves[1..], end);
    }
  }

  /** Single flight: in every interleaving at most one caller is minting, so at most one mint is running besides those
      whose caller was cancelled; a mint starts only on a cached token that is absent or within the skew of its expiry;
      every token answered from the cache had more than the skew left; and the tokens minted are at most one more than
      the times the cached one went stale. */
  lemma SingleFlight(now: real, moves: seq<Move>, end: World)
    requires Runs(Cold(now), moves, end)
    ensures forall c, d | c in Awaited(end) && d in Awaited(end) :: c == d
    ensures |end.threads| <= 1 + end.cancelled
    ensures forall g | g in end.started :: g.cached.Nothing? || g.cached.token.expiresOn - 300.0 <= g.at
    ensures forall g | g in end.served :: g.cached.Held? && g.cached.token.expiresOn > g.at + 300.0
    ensures end.minted == end.stales + (if Usable(end.cached, end.now) then 1 else 0) <= end.stales + 1
  {
    RunKeeps(Cold(now), moves, end);
    var a := Awaited(end);
    forall c, d | c in a && d in a ensures c == d {
      assert end.lock == Taken(c) && end.lock == Taken(d);
    }
    assert |a| <= 1 by {
      if a != {} {
        var c :| c in a;
        assert a == {c};
      }
    }
    assert end.threads == Orphans(end) + a;
  }

  /** The first j callers have each begun a mint and been cancelled; no mint has come back. */
  ghost function Piled(now: real, j: nat): World {
    World(now, Nothing, Free, map[], UpTo(j), [], seq(j, _ => Glance(Nothing, now)), 0, 0, j)
  }

  ghost function UpTo(j: nat): (s: set<nat>)
    ensures |s| == j && forall i :: i in s <==> 0 <= i < j
  {
    if j == 0 then {} else UpTo(j - 1) + {j - 1}
  }

  /** The state in which caller j mints beside them. */
  ghost function PiledAnd(now: real, j: nat): World {
    Piled(now, j).(callers := map[j := Minting], lock := Taken(j), threads := UpTo(j + 1),
                   started := seq(j + 1, _ => Glance(Nothing, now)))
  }

  lemma AnotherMint(now: real, j: nat)
    ensures Runs(Piled(now, j), [Enter(j), CheckFast(j), Acquire(j), CheckLocked(j)], PiledAnd(now, j))
  {
    hide Runs;
    var w0 := Piled(now, j);
    var w1 := Step(w0, Enter(j));
    var w2 := Step(w1, CheckFast(j));
    var w3 := Step(w2, Acquire(j));
    var w4 := Step(w3, CheckLocked(j));
    assert w4.callers == map[j := Minting];
    assert UpTo(j) + {j} == UpTo(j + 1);
    assert w4.started == PiledAnd(now, j).started;
    RunsNowhere(w4);
    RunsOn(w3, CheckLocked(j), [], w4);
    RunsOn(w2, Acquire(j), [CheckLocked(j)] + [], w4);
    RunsOn(w1, CheckFast(j), [Acquire(j)] + ([CheckLocked(j)] + []), w4);
    RunsOn(w0, Enter(j), [CheckFast(j)] + ([Acquire(j)] + ([CheckLocked(j)] + [])), w4);
    assert [Enter(j)] + ([CheckFast(j)] + ([Acquire(j)] + ([CheckLocked(j)] + [])))
        == [Enter(j), CheckFast(j), Acquire(j), CheckLocked(j)];
  }

  lemma AnotherCancel(now: real, j: nat)
    ensures Runs(PiledAnd(now, j), [Cancel(j)], Piled(now, j + 1))
  {
    var w := PiledAnd(now, j);
    assert Step(w, Cancel(j)).callers == map[];
    assert [Cancel(j)][1..] == [];
  }

  lemma {:induction false} Piling(now: real, j: nat) returns (moves: seq<Move>)
    ensures Runs(Cold(now), moves, Piled(now, j))
  {
    hide Runs;
    if j == 0 {
      moves := [];
      assert UpTo(0) == {} && Piled(now, 0) == Cold(now);
      RunsNowhere(Cold(now));
    } else {
      moves := Piling(now, j - 1);
      AnotherMint(now, j - 1);
      AnotherCancel(now, j - 1);
      var more := [Enter(j - 1), CheckFast(j - 1), Acquire(j - 1), CheckLocked(j - 1)];
      RunsJoin(Cold(now), moves, Piled(now, j - 1), more, PiledAnd(now, j - 1));
      RunsJoin(Cold(now), moves + more, PiledAnd(now, j - 1), [Cancel(j - 1)], Piled(now, j));
      moves := moves + more + [Cancel(j - 1)];
    }
  }

  /** Some run in which at most k minting callers are cancelled has m mints running at its end. */
  ghost predicate CanOverlap(now: real, k: nat, m: nat) {
    exists moves, end: World :: Runs(Cold(now), moves, end) && end.cancelled <= k && |end.threads| == m
  }

  lemma PiledAndReached(now: real, j: nat)
    ensures exists moves :: Runs(Cold(now), moves, PiledAnd(now, j))
    ensures PiledAnd(now, j).cancelled == j && |PiledAnd(now, j).threads| == j + 1
  {
    hide Runs, Step;
    var moves := Piling(now, j);
    AnotherMint(now, j);
    var more := [Enter(j), CheckFast(j), Acquire(j), CheckLocked(j)];
    RunsJoin(Cold(now), moves, Piled(now, j), more, PiledAnd(now, j));
    assert Runs(Cold(now), moves + more, PiledAnd(now, j));
  }

  /** Mints run side by side exactly as far as minting callers are cancelled: with at most k cancelled there can be m of
      them at once if and only if m is at most k + 1. */
  lemma OverlapExactly(now: real, k: nat, m: nat)
    ensures CanOverlap(now, k, m) <==> m <= k + 1
  {
    hide Runs, Step, PiledAnd, Piled;
    if CanOverlap(now, k, m) {
      var moves, end :| Runs(Cold(now), moves, end) && end.cancelled <= k && |end.threads| == m;
      SingleFlight(now, moves, end);
    }
    if m == 0 {
      RunsNowhere(Cold(now));
      assert Runs(Cold(now), [], Cold(now));
    } else if m <= k + 1 {
      PiledAndReached(now, m - 1);
    }
  }

  lemma RunsNowhere(w: World)
    ensures Runs(w, [], w)
  {
  }

  lemma RunsOn(w: World, m: Move, rest: seq<Move>, end: World)
    requires Enabled(w, m) && Runs(Step(w, m), rest, end)
    ensures Runs(w, [m] + rest, end)
  {
  }

  // ---- get_token itself, whatever happens between its awaits ----

  lemma {:induction false} RunsJoin(w: World, ms: seq<Move>, v: World, ns: seq<Move>, end: World)
    requires Runs(w, ms, v) && Runs(v, ns, end)
    ensures Runs(w, ms + ns, end)
    decreases |ms|
  {
    hide Step, Enabled;
    if ms == [] {
      assert ms + ns == ns;
    } else {
      RunsJoin(Step(w, ms[0]), ms[1..], v, ns, end);
      assert (ms + ns)[1..] == ms[1..] + ns && (ms + ns)[0] == ms[0];
    }
  }

  lemma RunsThen(w: World, ms: seq<Move>, v: World, m: Move)
    requires Runs(w, ms, v) && Enabled(v, m)
    ensures Runs(w, ms + [m], Step(v, m))
  {
    hide Step, Enabled;
    RunsNowhere(Step(v, m));
    RunsOn(v, m, [], Step(v, m));
    assert [m] + [] == [m];
    RunsJoin(w, ms, v, [m], Step(v, m));
  }

  /** A move of another caller, or of the clock. */
  predicate Foreign(c: nat, m: Move) { m.Wait? || m.c != c }

  /** How many mints of caller c a run stores. */
  function Mints(c: nat, moves: seq<Move>): nat {
    if moves == [] then 0
    else Mints(c, moves[..|moves| - 1]) + if moves[|moves| - 1].MintOk? && moves[|moves| - 1].c == c then 1 else 0
  }

  lemma ForeignMove(w: World, c: nat, m: Move)
    requires Exclusive(w) && c in w.callers && Foreign(c, m) && Enabled(w, m)
    ensures var v := Step(w, m);
            && Exclusive(v) && c in v.callers && v.callers[c] == w.callers[c]
            && (w.lock == Taken(c) ==> v.lock == Taken(c) && v.cached == w.cached && v.now >= w.now)
  {
    ExclusiveStep(w, m);
  }

  datatype MintResult = Minted(token: Token) | MintRaised | CallerCancelled

  /** What the others do while the caller waits for the lock, wait by wait, and while its mint runs; and how that
      ends. */
  datatype Surroundings = Surroundings(waits: seq<seq<Move>>, minting: seq<Move>, result: MintResult)

  datatype Answer = FromCache(token: Token, at: real) | Fresh(token: Token) | NoToken

  class EntraTokenProvider {
    var state: World

    constructor (now: real)
      ensures state == Cold(now)
    {
      state := Cold(now);
    }

    /** An await of caller c: the others and the clock go on as far as they can. */
    method Await(c: nat, others: seq<Move>) returns (ghost moves: seq<Move>)
      requires Exclusive(state) && c in state.callers
      modifies this
      ensures Exclusive(state) && Runs(old(state), moves, state) && Mints(c, moves) == 0
      ensures c in state.callers && state.callers[c] == old(state).callers[c]
      ensures old(state).lock == Taken(c) ==>
                state.lock == Taken(c) && state.cached == old(state).cached && state.now >= old(state).now
    {
      hide Step, Enabled, Runs, Exclusive, Foreign;
      moves := [];
      RunsNowhere(state);
      var i := 0;
      while i < |others|
        invariant i <= |others| && Exclusive(state) && Runs(old(state), moves, state) && Mints(c, moves) == 0
        invariant c in state.callers && state.callers[c] == old(state).callers[c]
        invariant old(state).lock == Taken(c) ==>
                    state.lock == Taken(c) && state.cached == old(state).cached && state.now >= old(state).now
      {
        var m := others[i];
        if Foreign(c, m) && Enabled(state, m) {
          ForeignMove(state, c, m);
          RunsThen(old(state), moves, state, m);
          ForeignMint(c, moves, m);
          state := Step(state, m);
          moves := moves + [m];
        }
        i := i + 1;
      }
    }

    /** Before the lock: answer from the cache, or queue. */
    method Fast(c: nat) returns (answer: Answer, ghost moves: seq<Move>)
      requires Exclusive(state) && Enabled(state, Enter(c))
      modifies this
      ensures Exclusive(state) && Runs(old(state), moves, state) && Mints(c, moves) == 0
      ensures answer.FromCache? ==> answer.token.expiresOn > answer.at + 300.0 && c !in state.callers
      ensures !answer.FromCache? ==> answer == NoToken && c in state.callers && state.callers[c] == Queued
    {
      moves := [Enter(c), CheckFast(c)];
      TwoMoves(state, Enter(c), CheckFast(c));
      ExclusiveStep(state, Enter(c));
      ExclusiveStep(Step(state, Enter(c)), CheckFast(c));
      NoMints(c, Enter(c), CheckFast(c));
      if state.cached.Held? && state.cached.token.expiresOn - REFRESH_SKEW > state.now {
        answer := FromCache(state.cached.token, state.now);
        state := state.(served := state.served + [Glance(state.cached, state.now)]);
        assert state.callers[c := Entering] - {c} == state.callers;
      } else {
        answer := NoToken;
        state := state.(callers := state.callers[c := Queued]);
      }
    }

    /** With the lock: look again, then answer, or start the mint while holding it. */
    method UnderLock(c: nat) returns (answer: Answer, ghost moves: seq<Move>)
      requires Exclusive(state) && Enabled(state, Acquire(c))
      modifies this
      ensures Exclusive(state) && Runs(old(state), moves, state) && Mints(c, moves) == 0
      ensures answer.FromCache? ==> answer.token.expiresOn > answer.at + 300.0 && c !in state.callers
      ensures !answer.FromCache? ==>
                answer == NoToken && c in state.callers && state.callers[c] == Minting && state.lock == Taken(c)
    {
      moves := [Acquire(c), CheckLocked(c)];
      TwoMoves(state, Acquire(c), CheckLocked(c));
      ExclusiveStep(state, Acquire(c));
      ExclusiveStep(Step(state, Acquire(c)), CheckLocked(c));
      NoMints(c, Acquire(c), CheckLocked(c));
      if state.cached.Held? && state.cached.token.expiresOn - REFRESH_SKEW > state.now {
        answer := FromCache(state.cached.token, state.now);
        assert state.callers[c := Locked] - {c} == state.callers - {c};
        state := state.(callers := state.callers - {c}, served := state.served + [Glance(state.cached, state.now)],
                        lock := Free);
      } else {
        answer := NoToken;
        assert state.callers[c := Locked][c := Minting] == state.callers[c := Minting];
        state := state.(callers := state.callers[c := Minting], lock := Taken(c), threads := state.threads + {c},
                        started := state.started + [Glance(state.cached, state.now)]);
      }
    }

    /** The mint off the event loop, and what its end does; replaced is the cached token it finds then. */
    method Mint(c: nat, env: Surroundings) returns (answer: Answer, ghost moves: seq<Move>, ghost replaced: Cached)
      requires Exclusive(state) && c in state.callers && state.callers[c] == Minting && state.lock == Taken(c)
      modifies this
      ensures Exclusive(state) && Runs(old(state), moves, state) && c !in state.callers
      ensures Mints(c, moves) == if answer.Fresh? then 1 else 0
      ensures answer.Fresh? ==> env.result == Minted(answer.token) && state.cached == Held(answer.token)
      ensures answer.Fresh? ==> replaced == old(state).cached && !Usable(replaced, state.now)
      ensures !answer.Fresh? ==> answer == NoToken
    {
      moves := Await(c, env.minting);
      replaced := state.cached;
      ghost var last := match env.result
        case Minted(t) => MintOk(c, t)
        case MintRaised => MintFail(c)
        case CallerCancelled => Cancel(c);
      ExclusiveStep(state, last);
      RunsThen(old(state), moves, state, last);
      ForeignMint(c, moves, last);
      moves := moves + [last];
      match env.result
      case Minted(t) =>
        answer := Fresh(t);
        state := state.(cached := Held(t), minted := state.minted + 1);
        if !Usable(Held(t), state.now) { state := state.(stales := state.stales + 1); }
        state := state.(callers := state.callers - {c}, threads := state.threads - {c}, lock := Free);
      case MintRaised =>
        answer := NoToken;
        state := state.(callers := state.callers - {c}, threads := state.threads - {c}, lock := Free);
      case CallerCancelled =>
        answer := NoToken;
        state := state.(callers := state.callers - {c}, lock := Free, cancelled := state.cancelled + 1);
    }

    /** get_token: whatever the other callers and the clock do between its awaits, it is a run of the machine above. An
        answer from the cache had more than the skew left when it was looked at; otherwise the caller minted once, and
        what the mint replaced was unusable even then. A caller that still waits when waits runs out is cancelled. */
    method GetToken(c: nat, env: Surroundings) returns (answer: Answer, ghost moves: seq<Move>, ghost replaced: Cached)
      requires Exclusive(state) && Enabled(state, Enter(c))
      modifies this
      ensures Exclusive(state) && Runs(old(state), moves, state) && c !in state.callers
      ensures answer.FromCache? ==> answer.token.expiresOn > answer.at + 300.0
      ensures Mints(c, moves) == if answer.Fresh? then 1 else 0
      ensures answer.Fresh? ==> env.result == Minted(answer.token) && state.cached == Held(answer.token)
      ensures answer.Fresh? ==> !Usable(replaced, state.now)
    {
      hide Step, Enabled, Runs, Exclusive, Mints;
      replaced := Nothing;
      answer, moves := Fast(c);
      if answer.FromCache? { return; }
      ghost var w, m := state, [];
      var i := 0;
      while i < |env.waits| && state.lock.Taken?
        invariant Exclusive(state) && Runs(old(state), moves, state) && Mints(c, moves) == 0
        invariant c in state.callers && state.callers[c] == Queued
      {
        w := state;
        m := Await(c, env.waits[i]);
        RunsJoin(old(state), moves, w, m, state);
        MintsJoin(c, moves, m);
        moves := moves + m;
        i := i + 1;
      }
      if state.lock.Taken? {
        GiveUp(state, c);
        RunsThen(old(state), moves, state, Cancel(c));
        ForeignMint(c, moves, Cancel(c));
        moves := moves + [Cancel(c)];
        state := state.(callers := state.callers - {c});
        return;
      }
      w := state;
      MayAcquire(state, c);
      answer, m := UnderLock(c);
      RunsJoin(old(state), moves, w, m, state);
      MintsJoin(c, moves, m);
      moves := moves + m;
      if answer.FromCache? { return; }
      w := state;
      answer, m, replaced := Mint(c, env);
      RunsJoin(old(state), moves, w, m, state);
      MintsJoin(c, moves, m);
      moves := moves + m;
    }
  }

  lemma TwoMoves(w: World, a: Move, b: Move)
    requires Enabled(w, a) && Enabled(Step(w, a), b)
    ensures Runs(w, [a, b], Step(Step(w, a), b))
  {
    RunsNowhere(w);
    RunsThen(w, [], w, a);
    assert [] + [a] == [a];
    RunsThen(w, [a], Step(w, a), b);
    assert [a] + [b] == [a, b];
  }

  lemma NoMints(c: nat, a: Move, b: Move)
    requires !a.MintOk? && !b.MintOk?
    ensures Mints(c, [a, b]) == 0
  {
    assert [] + [a] == [a] && [a] + [b] == [a, b];
    ForeignMint(c, [], a);
    ForeignMint(c, [a], b);
  }

  lemma GiveUp(w: World, c: nat)
    requires Exclusive(w) && c in w.callers && w.callers[c] == Queued
    ensures Enabled(w, Cancel(c)) && Step(w, Cancel(c)) == w.(callers := w.callers - {c})
    ensures Exclusive(w.(callers := w.callers - {c}))
  {
    ExclusiveStep(w, Cancel(c));
  }

  lemma MayAcquire(w: World, c: nat)
    requires c in w.callers && w.callers[c] == Queued && w.lock.Free?
    ensures Enabled(w, Acquire(c))
  {
  }

  lemma {:induction false} MintsJoin(c: nat, a: seq<Move>, b: seq<Move>)
    ensures Mints(c, a + b) == Mints(c, a) + Mints(c, b)
  {
    if b == [] {
      assert a + b == a;
    } else {
      assert (a + b)[..|a + b| - 1] == a + b[..|b| - 1];
      MintsJoin(c, a, b[..|b| - 1]);
    }
  }

  lemma ForeignMint(c: nat, moves: seq<Move>, m: Move)
    ensures Mints(c, moves + [m]) == Mints(c, moves) + if m.MintOk? && m.c == c then 1 else 0
    ensures Foreign(c, m) ==> !(m.MintOk? && m.c == c)
  {
    assert (moves + [m])[..|moves|] == moves;
  }
}
