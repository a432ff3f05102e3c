/** Timelines rebuilt from phase markers, and the statistics drawn from them. */
module PhaseLog {

  datatype Option<+T> = None | Some(value: T)

  /** Moments of a bug's timeline that fire once. */
  datatype Slot =
    | GatewayReceived | SpawnStart | ImportsDone | AgentRefDone | WorkerReady | ProbeDone | FixStart | FixEnd
    | CiWaitStart | CiWaitEnd

  datatype Phase = Moment(slot: Slot) | LlmCalled | ApplyStart | ApplyVenvDone | ApplyEnd | OtherPhase

  datatype LlmCall = LlmCall(index: int, wallclockMs: int, source: string)

  /** job and ref join a gateway line to the spawn line that minted the bug id. */
  datatype Marker = Marker(
    phase: Phase, bug: string, job: string, ref: string, t: Option<int>, attempt: int, elapsed: Option<int>,
    passed: bool, call: LlmCall)

  datatype Attempt = Attempt(
    attempt: int, startT: Option<int>, venvDoneT: Option<int>, endT: Option<int>, elapsed: Option<int>,
    passed: Option<bool>)

  datatype Bug = Bug(times: map<Slot, int>, elapsed: map<Slot, int>, attempts: seq<Attempt>, llmCalls: seq<LlmCall>)

  type Bugs = map<string, Bug>

  type SpawnIndex = map<(string, string), string>

  const NEW_BUG := Bug(map[], map[], [], [])

  function BugAt(bugs: Bugs, id: string): Bug { if id in bugs then bugs[id] else NEW_BUG }

  /** b[key] = value, where None reads as absent. */
  function Put<K>(m: map<K, int>, k: K, v: Option<int>): map<K, int> { if v.Some? then m[k := v.value] else m - {k} }

  function Mark(bugs: Bugs, id: string, slot: Slot, m: Marker): Bugs {
    var b := BugAt(bugs, id);
    bugs[id := b.(times := Put(b.times, slot, m.t),
                  elapsed := if slot.FixEnd? || slot.CiWaitEnd? then Put(b.elapsed, slot, m.elapsed) else b.elapsed)]
  }

  predicate IsSpawn(m: Marker) { m.phase == Moment(SpawnStart) }

  // ---- First pass: spawn lines ----

  datatype Joined = Joined(bugs: Bugs, index: SpawnIndex)

  function Spawned(j: Joined, m: Marker): Joined {
    if IsSpawn(m) then Joined(Mark(j.bugs, m.bug, SpawnStart, m), j.index[(m.job, m.ref) := m.bug]) else j
  }

  function SpawnPass(ms: seq<Marker>): Joined {
    if ms == [] then Joined(map[], map[]) else Spawned(SpawnPass(ms[..|ms| - 1]), ms[|ms| - 1])
  }

  // ---- Second pass: everything else ----

  /** The attempt an end marker belongs to: the first open one with its number, else the first open one. */
  function FindFrom(attempts: seq<Attempt>, i: nat, anyNumber: bool, number: int): Option<nat>
    requires i <= |attempts|
    ensures var r := FindFrom(attempts, i, anyNumber, number);
            r.Some? ==> i <= r.value < |attempts| && attempts[r.value].endT.None?
    decreases |attempts| - i
  {
    if i == |attempts| then None
    else if attempts[i].endT.None? && (anyNumber || attempts[i].attempt == number) then Some(i)
    else FindFrom(attempts, i + 1, anyNumber, number)
  }

  function FindAttempt(attempts: seq<Attempt>, number: int): (r: Option<nat>)
    ensures r.Some? ==> r.value < |attempts| && attempts[r.value].endT.None?
  {
    var exact := FindFrom(attempts, 0, false, number);
    if exact.Some? then exact else FindFrom(attempts, 0, true, number)
  }

  function Tried(attempts: seq<Attempt>, m: Marker): seq<Attempt> {
    if m.phase.ApplyStart? then attempts + [Attempt(m.attempt, m.t, None, None, None, None)]
    else
      var i := FindAttempt(attempts, m.attempt);
      if i.None? then attempts
      else
        var a := attempts[i.value];
        attempts[i.value := if m.phase.ApplyVenvDone? then a.(venvDoneT := m.t)
                            else a.(endT := m.t, elapsed := m.elapsed, passed := Some(m.passed))]
  }

  function Placed(bugs: Bugs, index: SpawnIndex, m: Marker): Bugs {
    match m.phase
    case Moment(GatewayReceived) =>
      if (m.job, m.ref) in index then Mark(bugs, index[(m.job, m.ref)], GatewayReceived, m) else bugs
    case Moment(SpawnStart) => bugs
    case Moment(slot) => Mark(bugs, m.bug, slot, m)
    case OtherPhase => bugs
    case LlmCalled =>
      var b := BugAt(bugs, m.bug);
      bugs[m.bug := b.(llmCalls := b.llmCalls + [m.call])]
    case _ =>
      var b := BugAt(bugs, m.bug);
      bugs[m.bug := b.(attempts := Tried(b.attempts, m))]
  }

  function PlacePass(bugs: Bugs, index: SpawnIndex, ms: seq<Marker>): Bugs {
    if ms == [] then bugs else Placed(PlacePass(bugs, index, ms[..|ms| - 1]), index, ms[|ms| - 1])
  }

  function Grouped(ms: seq<Marker>): Bugs {
    var j := SpawnPass(ms);
    PlacePass(j.bugs, j.index, ms)
  }

  method GroupByBug(ms: seq<Marker>) returns (bugs: Bugs)
    ensures bugs == Grouped(ms)
  {
    bugs := map[];
    var index: SpawnIndex := map[];
    var i := 0;
    while i < |ms|
      invariant i <= |ms| && Joined(bugs, index) == SpawnPass(ms[..i])
    {
      assert ms[..i + 1][..i] == ms[..i];
      var m := ms[i];
      if m.phase == Moment(SpawnStart) {
        index := index[(m.job, m.ref) := m.bug];
        bugs := Mark(bugs, m.bug, SpawnStart, m);
      }
      i := i + 1;
    }
    assert ms[..i] == ms;
    ghost var first := bugs;
    i := 0;
    while i < |ms|
      invariant i <= |ms| && bugs == PlacePass(first, index, ms[..i]) && Joined(first, index) == SpawnPass(ms)
    {
      assert ms[..i + 1][..i] == ms[..i];
      bugs := Placed(bugs, index, ms[i]);
      i := i + 1;
    }
    assert ms[..i] == ms;
  }

  // ---- Which bugs have a record ----

  /** A line of a known phase names its bug; a gateway line cannot, it comes before the id is minted. */
  predicate Names(m: Marker, id: string) {
    m.bug == id && !m.phase.OtherPhase? && m.phase != Moment(GatewayReceived)
  }

  lemma {:induction false} SpawnRecords(ms: seq<Marker>, id: string)
    ensures id in SpawnPass(ms).bugs <==> exists m :: m in ms && IsSpawn(m) && m.bug == id
    ensures forall key | key in SpawnPass(ms).index :: SpawnPass(ms).index[key] in SpawnPass(ms).bugs
  {
    if ms != [] {
      var init, last := ms[..|ms| - 1], ms[|ms| - 1];
      SpawnRecords(init, id);
      assert ms == init + [last];
    }
  }

  lemma PlacedRecords(bugs: Bugs, index: SpawnIndex, m: Marker, id: string)
    requires forall key | key in index :: index[key] in bugs
    ensures id in Placed(bugs, index, m) <==> id in bugs || (Names(m, id) && !IsSpawn(m))
    ensures forall b | b in bugs :: b in Placed(bugs, index, m)
  {
  }

  lemma {:induction false} PlaceRecords(bugs: Bugs, index: SpawnIndex, ms: seq<Marker>, id: string)
    requires forall key | key in index :: index[key] in bugs
    ensures id in PlacePass(bugs, index, ms) <==>
              id in bugs || exists m :: m in ms && Names(m, id) && !IsSpawn(m)
    ensures forall b | b in bugs :: b in PlacePass(bugs, index, ms)
  {
    hide Placed, Names, IsSpawn;
    if ms != [] {
      var init, last := ms[..|ms| - 1], ms[|ms| - 1];
      PlaceRecords(bugs, index, init, id);
      PlacedRecords(PlacePass(bugs, index, init), index, last, id);
      assert ms == init + [last];
      assert forall m :: m in ms <==> m in init || m == last;
    }
  }

  /** A bug has a record exactly when some line of a known phase, LLM calls included, names it. */
  lemma RecordsExactly(ms: seq<Marker>, id: string)
    ensures id in Grouped(ms) <==> exists m :: m in ms && Names(m, id)
  {
    SpawnRecords(ms, id);
    PlaceRecords(SpawnPass(ms).bugs, SpawnPass(ms).index, ms, id);
  }

  // ---- Order of lines ----

  function Only(ms: seq<Marker>, spawns: bool): seq<Marker> {
    if ms == [] then []
    else Only(ms[..|ms| - 1], spawns) + if IsSpawn(ms[|ms| - 1]) == spawns then [ms[|ms| - 1]] else []
  }

  lemma {:induction false} SpawnPassOnly(ms: seq<Marker>)
    ensures SpawnPass(ms) == SpawnPass(Only(ms, true))
  {
    if ms != [] {
      var init, last := ms[..|ms| - 1], ms[|ms| - 1];
      SpawnPassOnly(init);
      if IsSpawn(last) {
        assert Only(ms, true)[..|Only(ms, true)| - 1] == Only(init, true);
      } else {
        assert Only(ms, true) == Only(init, true);
      }
    }
  }

  lemma {:induction false} PlacePassOnly(bugs: Bugs, index: SpawnIndex, ms: seq<Marker>)
    ensures PlacePass(bugs, index, ms) == PlacePass(bugs, index, Only(ms, false))
  {
    if ms != [] {
      var init, last := ms[..|ms| - 1], ms[|ms| - 1];
      PlacePassOnly(bugs, index, init);
      if IsSpawn(last) {
        assert Only(ms, false) == Only(init, false);
      } else {
        assert Only(ms, false)[..|Only(ms, false)| - 1] == Only(init, false);
      }
    }
  }

  /** The join does not depend on how spawn lines interleave with the others: a gateway line finds its bug whether it
      comes before or after it. */
  lemma JoinIgnoresInterleaving(a: seq<Marker>, b: seq<Marker>)
    requires Only(a, true) == Only(b, true) && Only(a, false) == Only(b, false)
    ensures Grouped(a) == Grouped(b)
  {
    SpawnPassOnly(a);
    SpawnPassOnly(b);
    var j := SpawnPass(a);
    PlacePassOnly(j.bugs, j.index, a);
    PlacePassOnly(j.bugs, j.index, b);
  }

  lemma {:induction false} OnlyConcat(a: seq<Marker>, b: seq<Marker>, spawns: bool)
    ensures Only(a + b, spawns) == Only(a, spawns) + Only(b, spawns)
  {
    if b == [] {
      assert a + b == a;
    } else {
      assert (a + b)[..|a + b| - 1] == a + b[..|b| - 1];
      OnlyConcat(a, b[..|b| - 1], spawns);
    }
  }

  lemma OnlyTwo(x: Marker, y: Marker, spawns: bool)
    requires IsSpawn(x) != IsSpawn(y)
    ensures Only([x, y], spawns) == Only([y, x], spawns)
  {
    assert [x, y] == [x] + [y] && [y, x] == [y] + [x];
    OnlyConcat([x], [y], spawns);
    OnlyConcat([y], [x], spawns);
    assert [x][..0] == [] && [y][..0] == [];
  }

  /** In particular, swapping a gateway line and a spawn line that are next to each other changes nothing. */
  lemma SwapGatewaySpawn(before: seq<Marker>, x: Marker, y: Marker, after: seq<Marker>)
    requires IsSpawn(x) != IsSpawn(y)
    ensures Grouped(before + [x, y] + after) == Grouped(before + [y, x] + after)
  {
    forall spawns ensures Only(before + [x, y] + after, spawns) == Only(before + [y, x] + after, spawns) {
      OnlyConcat(before + [x, y], after, spawns);
      OnlyConcat(before + [y, x], after, spawns);
      OnlyConcat(before, [x, y], spawns);
      OnlyConcat(before, [y, x], spawns);
      OnlyTwo(x, y, spawns);
    }
    JoinIgnoresInterleaving(before + [x, y] + after, before + [y, x] + after);
  }

  // ---- Attempts ----

  function OpenCount(attempts: seq<Attempt>): nat {
    if attempts == [] then 0
    else OpenCount(attempts[..|attempts| - 1]) + if attempts[|attempts| - 1].endT.None? then 1 else 0
  }

  lemma {:induction false} OpenCountUpdate(attempts: seq<Attempt>, i: nat, a: Attempt)
    requires i < |attempts|
    ensures OpenCount(attempts[i := a]) + (if attempts[i].endT.None? then 1 else 0) ==
            OpenCount(attempts) + (if a.endT.None? then 1 else 0)
  {
    var n := |attempts| - 1;
    if i < n {
      OpenCountUpdate(attempts[..n], i, a);
      assert attempts[i := a][..n] == attempts[..n][i := a];
    } else {
      assert attempts[i := a][..n] == attempts[..n];
    }
  }

  lemma {:induction false} FindSome(attempts: seq<Attempt>, i: nat)
    requires i <= |attempts| && exists j :: i <= j < |attempts| && attempts[j].endT.None?
    ensures FindFrom(attempts, i, true, 0).Some?
    decreases |attempts| - i
  {
    if attempts[i].endT.Some? { FindSome(attempts, i + 1); }
  }

  lemma {:induction false} AnyNumber(attempts: seq<Attempt>, i: nat, x: int, y: int)
    requires i <= |attempts|
    ensures FindFrom(attempts, i, true, x) == FindFrom(attempts, i, true, y)
    decreases |attempts| - i
  {
    if i < |attempts| { AnyNumber(attempts, i + 1, x, y); }
  }

  lemma {:induction false} NoneOpen(attempts: seq<Attempt>)
    ensures OpenCount(attempts) == 0 <==> forall j | 0 <= j < |attempts| :: attempts[j].endT.Some?
  {
    if attempts != [] { NoneOpen(attempts[..|attempts| - 1]); }
  }

  /** An end marker that carries its time closes exactly one attempt when one is open, and none otherwise; a start
      opens one; nothing else changes how many are open. */
  lemma MarkerOpensOrCloses(attempts: seq<Attempt>, m: Marker)
    requires m.phase.ApplyStart? || m.phase.ApplyVenvDone? || m.phase.ApplyEnd?
    ensures OpenCount(Tried(attempts, m)) ==
            if m.phase.ApplyStart? then OpenCount(attempts) + 1
            else if m.phase.ApplyEnd? && m.t.Some? && OpenCount(attempts) > 0 then OpenCount(attempts) - 1
            else OpenCount(attempts)
  {
    if m.phase.ApplyStart? {
      assert Tried(attempts, m)[..|attempts|] == attempts;
    } else {
      var i := FindAttempt(attempts, m.attempt);
      NoneOpen(attempts);
      AnyNumber(attempts, 0, 0, m.attempt);
      if OpenCount(attempts) > 0 { FindSome(attempts, 0); }
      if i.Some? { OpenCountUpdate(attempts, i.value, Tried(attempts, m)[i.value]); }
    }
  }

  /** A closed attempt is never touched again, whatever markers follow: each attempt is closed by at most one end
      marker. */
  lemma {:induction false} ClosedStays(bugs: Bugs, index: SpawnIndex, ms: seq<Marker>, id: string, i: nat)
    requires id in bugs && i < |bugs[id].attempts| && bugs[id].attempts[i].endT.Some?
    ensures var end := PlacePass(bugs, index, ms);
            id in end && i < |end[id].attempts| && end[id].attempts[i] == bugs[id].attempts[i]
  {
    if ms != [] { ClosedStays(bugs, index, ms[..|ms| - 1], id, i); }
  }

  /** An end or venv marker belongs to the first open attempt with its number, if there is one, else to the first open
      attempt of all. */
  ghost predicate Belongs(attempts: seq<Attempt>, number: int, i: nat) {
    && i < |attempts| && attempts[i].endT.None?
    && if attempts[i].attempt == number then
         forall j | 0 <= j < i :: attempts[j].endT.Some? || attempts[j].attempt != number
       else
         && (forall j | 0 <= j < |attempts| :: attempts[j].endT.Some? || attempts[j].attempt != number)
         && forall j | 0 <= j < i :: attempts[j].endT.Some?
  }

  lemma {:induction false} FindFromIs(attempts: seq<Attempt>, i: nat, anyNumber: bool, number: int)
    requires i <= |attempts|
    ensures var r := FindFrom(attempts, i, anyNumber, number);
            && (r.Some? ==> anyNumber || attempts[r.value].attempt == number)
            && forall j | i <= j < (if r.Some? then r.value else |attempts|) ::
                 attempts[j].endT.Some? || (!anyNumber && attempts[j].attempt != number)
    decreases |attempts| - i
  {
    if i < |attempts| { FindFromIs(attempts, i + 1, anyNumber, number); }
  }

  /** A start adds an open attempt with its number and time. An end fills in its time, duration and result in the
      attempt it belongs to, a venv marker its time, and nothing else changes; one that belongs to none changes
      nothing. */
  lemma AttemptPaired(attempts: seq<Attempt>, m: Marker)
    requires m.phase.ApplyStart? || m.phase.ApplyVenvDone? || m.phase.ApplyEnd?
    ensures var r := Tried(attempts, m);
      if m.phase.ApplyStart? then r == attempts + [Attempt(m.attempt, m.t, None, None, None, None)]
      else if forall j | 0 <= j < |attempts| :: attempts[j].endT.Some? then r == attempts
      else
        exists i: nat :: Belongs(attempts, m.attempt, i) && |r| == |attempts|
          && (forall j | 0 <= j < |r| && j != i :: r[j] == attempts[j])
          && (var a := attempts[i];
              r[i] == if m.phase.ApplyEnd?
                then Attempt(a.attempt, a.startT, a.venvDoneT, m.t, m.elapsed, Some(m.passed))
                else Attempt(a.attempt, a.startT, m.t, None, a.elapsed, a.passed))
  {
    if !m.phase.ApplyStart? {
      FindFromIs(attempts, 0, false, m.attempt);
      FindFromIs(attempts, 0, true, m.attempt);
      var i := FindAttempt(attempts, m.attempt);
      if i.Some? { assert Belongs(attempts, m.attempt, i.value); }
    }
  }

  /** A line with a moment sets that moment of its bug, or takes it away when the line carries no time, and the duration
      only for the ends of a fix and of a wait for CI; no other moment and no other bug changes. A gateway line speaks
      for the bug its job and ref were joined to. */
  lemma LineSets(bugs: Bugs, index: SpawnIndex, m: Marker, slot: Slot)
    requires m.phase == Moment(slot) && slot != SpawnStart
    requires slot == GatewayReceived ==> (m.job, m.ref) in index
    ensures var id := if slot == GatewayReceived then index[(m.job, m.ref)] else m.bug;
      var r, b := Placed(bugs, index, m), BugAt(bugs, id);
      && r.Keys == bugs.Keys + {id} && (forall x | x in bugs && x != id :: r[x] == bugs[x])
      && At(r[id], slot) == m.t && (forall k | k != slot :: At(r[id], k) == At(b, k))
      && (forall k :: Elapsed(r[id], k) ==
            if k == slot && (k == FixEnd || k == CiWaitEnd) then m.elapsed else Elapsed(b, k))
      && r[id].attempts == b.attempts && r[id].llmCalls == b.llmCalls
  {
    var id := if slot == GatewayReceived then index[(m.job, m.ref)] else m.bug;
    assert Placed(bugs, index, m) == Mark(bugs, id, slot, m);
    MarkIs(bugs, id, slot, m);
    hide Mark, Placed, At, Elapsed, BugAt;
  }

  lemma PutIs(m: map<Slot, int>, k: Slot, v: Option<int>)
    ensures (if k in Put(m, k, v) then Some(Put(m, k, v)[k]) else None) == v
    ensures forall x | x != k :: (x in Put(m, k, v) <==> x in m) && (x in m ==> Put(m, k, v)[x] == m[x])
  {
  }

  lemma MarkIs(bugs: Bugs, id: string, slot: Slot, m: Marker)
    ensures var r, b := Mark(bugs, id, slot, m), BugAt(bugs, id);
      && r.Keys == bugs.Keys + {id} && (forall x | x in bugs && x != id :: r[x] == bugs[x])
      && At(r[id], slot) == m.t && (forall k | k != slot :: At(r[id], k) == At(b, k))
      && (forall k :: Elapsed(r[id], k) ==
            if k == slot && (k == FixEnd || k == CiWaitEnd) then m.elapsed else Elapsed(b, k))
      && r[id].attempts == b.attempts && r[id].llmCalls == b.llmCalls
  {
    var b := BugAt(bugs, id);
    PutIs(b.times, slot, m.t);
    PutIs(b.elapsed, slot, m.elapsed);
    hide Put, BugAt;
  }

  /** A line about an attempt goes to its bug's attempts, an LLM call to its bug's calls; nothing else changes, and
      other lines change nothing. */
  lemma LineAppends(bugs: Bugs, index: SpawnIndex, m: Marker)
    requires !m.phase.Moment?
    ensures var r, b := Placed(bugs, index, m), BugAt(bugs, m.bug);
      if m.phase.OtherPhase? then r == bugs
      else
        && r.Keys == bugs.Keys + {m.bug} && (forall x | x in bugs && x != m.bug :: r[x] == bugs[x])
        && r[m.bug].times == b.times && r[m.bug].elapsed == b.elapsed
        && r[m.bug].attempts == (if m.phase.LlmCalled? then b.attempts else Tried(b.attempts, m))
        && r[m.bug].llmCalls == if m.phase.LlmCalled? then b.llmCalls + [m.call] else b.llmCalls
  {
  }

  function Elapsed(b: Bug, s: Slot): Option<int> { if s in b.elapsed then Some(b.elapsed[s]) else None }

  // ---- Durations ----

  function At(b: Bug, s: Slot): Option<int> { if s in b.times then Some(b.times[s]) else None }

  const STAGES: seq<Slot> := [SpawnStart, ImportsDone, AgentRefDone, WorkerReady, ProbeDone, FixStart]

  /** The k-th sub-phase of phase 2: skipped when an end is missing or they are out of order. */
  function SubPhase(b: Bug, k: nat): Option<int>
    requires k < 5
  {
    var a, z := At(b, STAGES[k]), At(b, STAGES[k + 1]);
    if a.Some? && z.Some? && z.value >= a.value then Some(z.value - a.value) else None
  }

  function Phase2(b: Bug): Option<int> {
    var s := At(b, SpawnStart);
    var end := if At(b, FixStart).Some? then At(b, FixStart) else At(b, WorkerReady);
    if s.Some? && end.Some? then Some(end.value - s.value) else None
  }

  /** Both ends of the k-th sub-phase are there, in order. */
  predicate Rises(b: Bug, k: nat)
    requires k < 5
  {
    STAGES[k] in b.times && STAGES[k + 1] in b.times && b.times[STAGES[k]] <= b.times[STAGES[k + 1]]
  }

  ghost predicate InOrder(b: Bug) { forall k: nat | k < 5 :: Rises(b, k) }

  function SubSum(b: Bug, k: nat): Option<int>
    requires k <= 5
  {
    if k == 0 then Some(0)
    else
      var rest, d := SubSum(b, k - 1), SubPhase(b, k - 1);
      if rest.Some? && d.Some? then Some(rest.value + d.value) else None
  }

  lemma {:induction false} Telescopes(b: Bug, k: nat)
    requires k <= 5 && SubSum(b, k).Some? && STAGES[0] in b.times
    ensures STAGES[k] in b.times && SubSum(b, k).value == b.times[STAGES[k]] - b.times[STAGES[0]]
    ensures forall i: nat | i < k :: Rises(b, i)
  {
    if k > 0 { Telescopes(b, k - 1); }
  }

  lemma {:induction false} AllPresent(b: Bug, k: nat)
    requires k <= 5 && InOrder(b)
    ensures SubSum(b, k).Some?
  {
    if k > 0 {
      AllPresent(b, k - 1);
      assert Rises(b, k - 1);
    }
  }

  /** No sub-phase is skipped exactly when all six moments are there and in order; the sub-phases then add up to
      phase 2. */
  lemma SubPhasesAddUp(b: Bug)
    ensures SubSum(b, 5).Some? <==>
      && SpawnStart in b.times && ImportsDone in b.times && AgentRefDone in b.times && WorkerReady in b.times
      && ProbeDone in b.times && FixStart in b.times
      && b.times[SpawnStart] <= b.times[ImportsDone] <= b.times[AgentRefDone] <= b.times[WorkerReady]
      && b.times[WorkerReady] <= b.times[ProbeDone] <= b.times[FixStart]
    ensures SubSum(b, 5).Some? ==> SubSum(b, 5) == Phase2(b)
  {
    InOrderIs(b);
    if InOrder(b) { AllPresent(b, 5); }
    if SubSum(b, 5).Some? {
      FirstPresent(b, 5);
      Telescopes(b, 5);
    }
  }

  lemma InOrderIs(b: Bug)
    ensures InOrder(b) <==>
      && SpawnStart in b.times && ImportsDone in b.times && AgentRefDone in b.times && WorkerReady in b.times
      && ProbeDone in b.times && FixStart in b.times
      && b.times[SpawnStart] <= b.times[ImportsDone] <= b.times[AgentRefDone] <= b.times[WorkerReady]
      && b.times[WorkerReady] <= b.times[ProbeDone] <= b.times[FixStart]
  {
    assert InOrder(b) ==> Rises(b, 0) && Rises(b, 1) && Rises(b, 2) && Rises(b, 3) && Rises(b, 4);
  }

  lemma {:induction false} FirstPresent(b: Bug, k: nat)
    requires 1 <= k <= 5 && SubSum(b, k).Some?
    ensures STAGES[0] in b.times
  {
    if k > 1 { FirstPresent(b, k - 1); }
  }

  // ---- Percentiles ----

  function Insert(x: int, s: seq<int>): seq<int> {
    if s == [] || x <= s[0] then [x] + s else [s[0]] + Insert(x, s[1..])
  }

  function Sorted(s: seq<int>): seq<int> { if s == [] then [] else Insert(s[0], Sorted(s[1..])) }

  ghost predicate Ascends(s: seq<int>) { forall i, j | 0 <= i < j < |s| :: s[i] <= s[j] }

  lemma {:induction false} InsertFloor(x: int, s: seq<int>, lo: int)
    requires lo <= x && forall v | v in s :: lo <= v
    ensures forall v | v in Insert(x, s) :: lo <= v
  {
    if s != [] && x > s[0] {
      assert s[0] in s && forall v | v in s[1..] :: v in s;
      InsertFloor(x, s[1..], lo);
    }
  }

  lemma {:induction false} InsertSame(x: int, s: seq<int>)
    ensures multiset(Insert(x, s)) == multiset{x} + multiset(s)
  {
    if s != [] {
      assert s == [s[0]] + s[1..];
      if x > s[0] { InsertSame(x, s[1..]); }
    }
  }

  lemma {:induction false} InsertAscends(x: int, s: seq<int>)
    requires Ascends(s)
    ensures Ascends(Insert(x, s))
  {
    if s != [] && x > s[0] {
      InsertAscends(x, s[1..]);
      InsertFloor(x, s[1..], s[0]);
      var r := Insert(x, s[1..]);
      hide Insert;
      forall j | 0 <= j < |r| ensures s[0] <= r[j] { assert r[j] in r; }
    }
  }

  lemma {:induction false} SortedIs(s: seq<int>)
    ensures Ascends(Sorted(s)) && multiset(Sorted(s)) == multiset(s) && |Sorted(s)| == |s|
  {
    if s != [] {
      SortedIs(s[1..]);
      InsertAscends(s[0], Sorted(s[1..]));
      InsertSame(s[0], Sorted(s[1..]));
      assert s == [s[0]] + s[1..];
    }
    assert |multiset(Sorted(s))| == |Sorted(s)|;
  }

  /** round(num / den): halves go to the even neighbour. */
  function RoundHalfEven(num: nat, den: nat): nat
    requires den > 0
  {
    var q, r := num / den, num % den;
    if 2 * r < den then q else if 2 * r > den then q + 1 else if q % 2 == 0 then q else q + 1
  }

  lemma RoundNear(num: nat, den: nat)
    requires den > 0
    ensures 2 * num - den <= 2 * den * RoundHalfEven(num, den) <= 2 * num + den
    ensures 2 * den * RoundHalfEven(num, den) in {2 * num - den, 2 * num + den} ==> RoundHalfEven(num, den) % 2 == 0
  {
    var q, r := num / den, num % den;
    assert num == q * den + r;
    assert 2 * den * (q + 1) == 2 * (q * den) + 2 * den;
    assert 2 * den * q == 2 * (q * den);
  }

  function Index(percent: nat, n: nat): nat
    requires n > 0
  {
    var i := RoundHalfEven(percent * (n - 1), 100);
    if i < n - 1 then i else n - 1
  }

  /** The percentile at percent/100 of a list; none for an empty one. */
  function Pct(values: seq<int>, percent: nat): Option<int> {
    if values == [] then None
    else
      SortedIs(values);
      Some(Sorted(values)[Index(percent, |values|)])
  }

  /** max(values). */
  function MaxOf(values: seq<int>): Option<int> {
    if values == [] then None
    else
      var m := MaxOf(values[1..]);
      if m.Some? && m.value > values[0] then m else Some(values[0])
  }

  lemma {:induction false} MaxIsLargest(values: seq<int>)
    ensures values != [] ==> MaxOf(values).Some? && MaxOf(values).value in values
    ensures forall v | v in values :: v <= MaxOf(values).value
  {
    if values != [] {
      MaxIsLargest(values[1..]);
      assert values == [values[0]] + values[1..];
    }
  }

  lemma IndexGrows(n: nat)
    requires n > 0
    ensures Index(50, n) <= Index(95, n)
  {
    RoundNear(50 * (n - 1), 100);
    RoundNear(95 * (n - 1), 100);
  }

  lemma PctIs(values: seq<int>, percent: nat)
    requires values != []
    ensures Index(percent, |values|) < |values| == |Sorted(values)|
    ensures Pct(values, percent) == Some(Sorted(values)[Index(percent, |values|)])
    ensures Pct(values, percent).value in values
  {
    hide Index, Sorted;
    SortedIs(values);
    InRange(percent, |values|);
    var v := Sorted(values)[Index(percent, |values|)];
    assert v in multiset(Sorted(values));
    assert v in multiset(values);
  }

  lemma InRange(percent: nat, n: nat)
    requires n > 0
    ensures Index(percent, n) < n
  {
  }

  /** The percentile is the element of the sorted list whose position is nearest to percent/100 of the way from the
      first to the last; of two equally near ones, the one at the even position. */
  lemma PercentileIsNearest(values: seq<int>, percent: nat)
    requires values != [] && percent <= 100
    ensures exists i: nat ::
      && i < |values| == |Sorted(values)| && Pct(values, percent) == Some(Sorted(values)[i])
      && -50 <= percent * (|values| - 1) - 100 * i <= 50
      && (percent * (|values| - 1) - 100 * i in {-50, 50} ==> i % 2 == 0)
  {
    hide Sorted, Index, Pct;
    PctIs(values, percent);
    IndexIsNearest(percent * (|values| - 1), percent, |values|);
    var i := Index(percent, |values|);
    assert Pct(values, percent) == Some(Sorted(values)[i]);
  }

  lemma IndexIsNearest(num: nat, percent: nat, n: nat)
    requires percent <= 100 && n > 0 && num == percent * (n - 1)
    ensures var i := Index(percent, n); -50 <= num - 100 * i <= 50 && (num - 100 * i in {-50, 50} ==> i % 2 == 0)
  {
    RoundNear(num, 100);
    NoMore(percent, n - 1);
    Halved(RoundHalfEven(num, 100), num, n - 1);
    hide RoundHalfEven;
  }

  lemma NoMore(percent: nat, m: nat)
    requires percent <= 100
    ensures percent * m <= 100 * m
  {
    assert (100 - percent) * m >= 0;
  }

  lemma Halved(r: nat, num: nat, m: nat)
    requires 200 * r <= 2 * num + 100 && num <= 100 * m
    ensures r <= m
  {
  }

  /** Of any non-empty list, p50 <= p95 <= max, and each is an element of it. */
  lemma PercentilesOrdered(values: seq<int>)
    requires values != []
    ensures var p50, p95, top := Pct(values, 50), Pct(values, 95), MaxOf(values);
            && p50.Some? && p95.Some? && top.Some?
            && p50.value <= p95.value <= top.value
            && p50.value in values && p95.value in values && top.value in values
  {
    hide Sorted, Index, Pct, MaxOf;
    PctIs(values, 50);
    PctIs(values, 95);
    SortedIs(values);
    MaxIsLargest(values);
    IndexGrows(|values|);
  }

  // ---- The load sampler ----

  datatype Sample = Sample(t: Option<int>, active: Option<int>)

  /** The samples whose interval counts: both times and the earlier worker count are there. */
  predicate Usable(a: Sample, b: Sample) { a.t.Some? && b.t.Some? && a.active.Some? }

  function Interval(a: Sample, b: Sample): nat {
    if Usable(a, b) && b.t.value > a.t.value then b.t.value - a.t.value else 0
  }

  /** Workers times milliseconds. */
  function Share(a: Sample, b: Sample): int { if Usable(a, b) then a.active.value * Interval(a, b) else 0 }

  ghost function Total(rows: seq<Sample>): nat {
    if |rows| < 2 then 0 else Total(rows[..|rows| - 1]) + Interval(rows[|rows| - 2], rows[|rows| - 1])
  }

  /** The worker count at time zero of each interval, held for the interval. */
  ghost function Area(rows: seq<Sample>): int {
    if |rows| < 2 then 0 else Area(rows[..|rows| - 1]) + Share(rows[|rows| - 2], rows[|rows| - 1])
  }

  /** The worker count averaged over time: the area under the samples over the time they cover, between any bounds the
      samples keep to; none when they cover no time. */
  method TimeWeightedMean(rows: seq<Sample>, ghost lo: int, ghost hi: int) returns (mean: Option<real>)
    requires forall r | r in rows && r.active.Some? :: lo <= r.active.value <= hi
    ensures mean.None? <==> Total(rows) == 0
    ensures mean.Some? ==> IsQuotient(mean.value, Area(rows), Total(rows))
    ensures mean.Some? ==> lo as real <= mean.value <= hi as real
  {
    if |rows| < 2 { return None; }
    hide Total, Area, Between, Quotient, IsQuotient;
    var totalDt, weighted := Weigh(rows, lo, hi);
    if totalDt == 0 { return None; }
    mean := Some(Quotient(lo, weighted, hi, totalDt));
  }

  method Weigh(rows: seq<Sample>, ghost lo: int, ghost hi: int) returns (totalDt: nat, weighted: int)
    requires |rows| >= 2 && forall r | r in rows && r.active.Some? :: lo <= r.active.value <= hi
    ensures totalDt == Total(rows) && weighted == Area(rows) && Between(lo, weighted, hi, totalDt)
  {
    hide Total, Area, Between, Share, Interval;
    NoTime(rows);
    BetweenNothing(lo, hi);
    totalDt, weighted := 0, 0;
    var i := 1;
    while i < |rows|
      invariant 1 <= i <= |rows| && totalDt == Total(rows[..i]) && weighted == Area(rows[..i])
      invariant Between(lo, weighted, hi, totalDt)
    {
      var prev, nxt := rows[i - 1], rows[i];
      OneMore(rows, i);
      assert prev in rows;
      if Usable(prev, nxt) {
        BetweenAdd(lo, weighted, hi, totalDt, prev, nxt);
        totalDt := totalDt + Interval(prev, nxt);
        weighted := weighted + Share(prev, nxt);
      }
      i := i + 1;
    }
    assert rows[..i] == rows;
  }

  predicate IsQuotient(q: real, w: int, n: int) { q * n as real == w as real }

  ghost predicate Between(lo: int, w: int, hi: int, n: int) { lo * n <= w <= hi * n }

  lemma BetweenNothing(lo: int, hi: int)
    ensures Between(lo, 0, hi, 0)
  {
  }

  lemma BetweenAdd(lo: int, w: int, hi: int, n: int, prev: Sample, next: Sample)
    requires Between(lo, w, hi, n) && Usable(prev, next) && lo <= prev.active.value <= hi
    ensures Between(lo, w + Share(prev, next), hi, n + Interval(prev, next))
  {
    var a, dt := prev.active.value, Interval(prev, next);
    Weighs(lo, a, hi, dt);
    assert lo * (n + dt) == lo * n + lo * dt && hi * (n + dt) == hi * n + hi * dt;
  }

  lemma NoTime(rows: seq<Sample>)
    requires rows != []
    ensures Total(rows[..1]) == 0 && Area(rows[..1]) == 0
  {
  }

  lemma OneMore(rows: seq<Sample>, i: nat)
    requires 0 < i < |rows|
    ensures Total(rows[..i + 1]) == Total(rows[..i]) + Interval(rows[i - 1], rows[i])
    ensures Area(rows[..i + 1]) == Area(rows[..i]) + Share(rows[i - 1], rows[i])
    ensures !Usable(rows[i - 1], rows[i]) ==> Interval(rows[i - 1], rows[i]) == Share(rows[i - 1], rows[i]) == 0
  {
    assert rows[..i + 1][..i] == rows[..i];
  }

  lemma Weighs(lo: int, a: int, hi: int, dt: nat)
    requires lo <= a <= hi
    ensures lo * dt <= a * dt <= hi * dt
  {
  }

  /** w / n, between lo and hi when w is between lo * n and hi * n. */
  function Quotient(ghost lo: int, w: int, ghost hi: int, n: int): (q: real)
    requires n > 0 && Between(lo, w, hi, n)
    ensures IsQuotient(q, w, n) && lo as real <= q <= hi as real
  {
    var q := w as real / n as real;
    QuotientBetween(lo, w, hi, n, q);
    q
  }

  lemma QuotientBetween(lo: int, w: int, hi: int, n: int, q: real)
    requires n > 0 && Between(lo, w, hi, n) && q == w as real / n as real
    ensures q * n as real == w as real && lo as real <= q <= hi as real
  {
    assert q * n as real == w as real;
    assert (lo * n) as real == lo as real * n as real && (hi * n) as real == hi as real * n as real;
    NotBelow(q - lo as real, n as real);
    NotBelow(hi as real - q, n as real);
  }

  lemma NotBelow(x: real, m: real)
    requires m > 0.0 && x * m >= 0.0
    ensures x >= 0.0
  {
  }
}
