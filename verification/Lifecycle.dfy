/** The worker registry, the subprocess spawner and the health monitor: one entry per bug, a bounded number of
    restarts. */
module Lifecycle {

  const MAX_WORKER_RESTARTS: nat := 3
  const WARMUP_GRACE := 120.0

  datatype Status = Warmup | Running | Failed | Done

  datatype Option<+T> = None | Some(value: T)

  datatype Request = Request(projectId: string, webUrl: string, jobId: string, sourceBranch: string)

  datatype Entry = Entry(
    bugId: string, pid: nat, request: Request, startedAt: real, warmupDeadline: real,
    restartCount: nat, status: Status, doneAt: Option<real>)

  predicate IsActive(e: Entry) { e.status.Warmup? || e.status.Running? }

  predicate IsTerminal(s: Status) { s.Done? || s.Failed? }

  /** update_status on an entry: the first terminal transition is stamped, later ones are not. */
  function Updated(e: Entry, s: Status, now: real): Entry {
    e.(status := s, doneAt := if IsTerminal(s) && e.doneAt.None? then Some(now) else e.doneAt)
  }

  predicate Stale(e: Entry, grace: real, now: real) {
    IsTerminal(e.status) && e.doneAt.Some? && now - e.doneAt.value > grace
  }

  type Workers = map<string, Entry>

  function Active(ws: Workers): Workers { map b | b in ws && IsActive(ws[b]) :: ws[b] }

  function Swept(ws: Workers, grace: real, now: real): Workers { map b | b in ws && !Stale(ws[b], grace, now) :: ws[b] }

  class Registry {
    var workers: Workers

    constructor ()
      ensures workers == map[]
    {
      workers := map[];
    }

    method Register(e: Entry)
      modifies this
      ensures workers == old(workers)[e.bugId := e]
    {
      workers := workers[e.bugId := e];
    }

    method UpdateStatus(bug: string, s: Status, now: real)
      modifies this
      ensures workers ==
              if bug in old(workers) then old(workers)[bug := Updated(old(workers)[bug], s, now)] else old(workers)
      ensures bug in old(workers) ==>
                var e := old(workers)[bug];
                bug in workers && workers[bug] == e.(status := s, doneAt :=
                  if (s.Done? || s.Failed?) && e.doneAt.None? then Some(now) else e.doneAt)
    {
      if bug !in workers { return; }
      var e := workers[bug].(status := s);
      if IsTerminal(s) && e.doneAt.None? { e := e.(doneAt := Some(now)); }
      workers := workers[bug := e];
    }

    function AllActive(): (r: Workers)
      reads this
      ensures forall b :: b in r <==> b in workers && (workers[b].status.Warmup? || workers[b].status.Running?)
    {
      Active(workers)
    }

    predicate Exists(bug: string)
      reads this
      ensures Exists(bug) <==> bug in AllActive()
    {
      bug in workers && IsActive(workers[bug])
    }

    /** Drops terminal entries past the grace period; what is active stays what it is. */
    method SweepStale(grace: real, now: real) returns (removed: nat)
      modifies this
      ensures workers == Swept(old(workers), grace, now)
      ensures forall b :: b in workers <==> b in old(workers) && var e := old(workers)[b];
                !((e.status.Done? || e.status.Failed?) && e.doneAt.Some? && now - e.doneAt.value > grace)
      ensures removed == |old(workers)| - |workers|
      ensures AllActive() == old(AllActive())
    {
      removed := 0;
      var rest := workers.Keys;
      while rest != {}
        invariant rest <= old(workers).Keys
        invariant workers ==
                  map b | b in old(workers) && (b in rest || !Stale(old(workers)[b], grace, now)) :: old(workers)[b]
        invariant |workers| + removed == |old(workers)|
        decreases rest
      {
        var b :| b in rest;
        ghost var was := workers;
        if Stale(workers[b], grace, now) {
          assert (workers - {b}).Keys == workers.Keys - {b} && |workers.Keys| == |workers|;
          assert |(workers - {b}).Keys| == |workers - {b}|;
          workers := workers - {b};
          removed := removed + 1;
        }
        rest := rest - {b};
      }
    }
  }

  // ---- Starting processes ----

  function Started(bug: string, pid: nat, request: Request, at: real, restartCount: nat): Entry {
    Entry(bug, pid, request, at, at + WARMUP_GRACE, restartCount, Warmup, None)
  }

  class WorkerSpawner {
    const registry: Registry
    /** How many processes were started for each bug. */
    var launches: map<string, nat>

    constructor (registry: Registry)
      ensures this.registry == registry && launches == map[]
    {
      this.registry := registry;
      launches := map[];
    }

    /** Starts a worker unless one is active; process is what starting one gives, none when it raises. */
    method Spawn(bug: string, request: Request, process: Option<nat>, at: real) returns (ok: bool)
      modifies this, registry
      ensures ok <==> old(registry.Exists(bug)) || process.Some?
      ensures var runs := !old(registry.Exists(bug)) && process.Some?;
              registry.workers ==
                (if runs then old(registry.workers)[bug := Started(bug, process.value, request, at, 0)]
                 else old(registry.workers))
              && launches == if runs then Launched(old(launches), bug) else old(launches)
    {
      if registry.Exists(bug) { return true; }
      if process.None? { return false; }
      launches := Launched(launches, bug);
      registry.Register(Started(bug, process.value, request, at, 0));
      ok := true;
    }

    method Restart(bug: string, request: Request, process: Option<nat>, at: real) returns (ok: bool)
      modifies this, registry
      ensures ok <==> process.Some?
      ensures var count := if bug in old(registry.workers) then old(registry.workers)[bug].restartCount + 1 else 1;
              registry.workers ==
                (if ok then old(registry.workers)[bug := Started(bug, process.value, request, at, count)]
                 else old(registry.workers))
              && launches == if ok then Launched(old(launches), bug) else old(launches)
    {
      var count := if bug in registry.workers then registry.workers[bug].restartCount + 1 else 1;
      if process.None? { return false; }
      launches := Launched(launches, bug);
      registry.Register(Started(bug, process.value, request, at, count));
      ok := true;
    }
  }

  function Count(launches: map<string, nat>, bug: string): nat { if bug in launches then launches[bug] else 0 }

  function Launched(launches: map<string, nat>, bug: string): map<string, nat> {
    launches[bug := Count(launches, bug) + 1]
  }

  // ---- The health check ----

  /** What one look at a worker finds: the heartbeat's TTL, the exit code, the completion key; the clock then; and
      what starting a replacement would give. */
  datatype Obs = Obs(ttl: int, returncode: Option<int>, completed: bool, at: real, replacement: Option<nat>)

  datatype Verdict = Leave | ToRunning | ToDone | ToFailed | ToRestart

  function Judge(e: Entry, o: Obs, now: real): Verdict {
    if o.returncode.Some? then
      if o.returncode.value == 0 || o.completed then ToDone else ToRestart
    else if o.ttl > 0 then
      if e.status.Warmup? then ToRunning else Leave
    else if e.status.Warmup? then
      if now < e.warmupDeadline then Leave else ToFailed
    else if o.completed then ToDone
    else ToRestart
  }

  predicate Relaunches(e: Entry, o: Obs, now: real) {
    Judge(e, o, now).ToRestart? && e.restartCount < MAX_WORKER_RESTARTS && o.replacement.Some?
  }

  /** What a tick makes of an active entry. */
  function Next(e: Entry, o: Obs, now: real): Entry {
    match Judge(e, o, now)
    case Leave => e
    case ToRunning => Updated(e, Running, o.at)
    case ToDone => Updated(e, Done, o.at)
    case ToFailed => Updated(e, Failed, o.at)
    case ToRestart =>
      if Relaunches(e, o, now) then Started(e.bugId, o.replacement.value, e.request, o.at, e.restartCount + 1)
      else Updated(e, Failed, o.at)
  }

  function Ticked(ws: Workers, obs: string -> Obs, now: real): Workers {
    map b | b in ws :: if IsActive(ws[b]) then Next(ws[b], obs(b), now) else ws[b]
  }

  /** The registry once the bugs in done have been looked at. */
  ghost function Passed(ws: Workers, done: set<string>, obs: string -> Obs, now: real): Workers {
    map b | b in ws :: if b in done then Next(ws[b], obs(b), now) else ws[b]
  }

  /** And how many processes had been started before and are then. */
  ghost predicate Counted(was: map<string, nat>, launches: map<string, nat>, ws: Workers, done: set<string>,
                           obs: string -> Obs, now: real) {
    forall b :: Count(launches, b) == Count(was, b) +
                  if b in done && b in ws && Relaunches(ws[b], obs(b), now) then 1 else 0
  }

  lemma NonePassed(ws: Workers, launches: map<string, nat>, obs: string -> Obs, now: real)
    ensures Passed(ws, {}, obs, now) == ws && Counted(launches, launches, ws, {}, obs, now)
  {
  }

  lemma PassedOne(ws: Workers, done: set<string>, b: string, obs: string -> Obs, now: real)
    requires b in ws && b !in done
    ensures Passed(ws, done, obs, now).Keys == ws.Keys && Passed(ws, done, obs, now)[b] == ws[b]
    ensures Passed(ws, done, obs, now)[b := Next(ws[b], obs(b), now)] == Passed(ws, done + {b}, obs, now)
  {
  }

  lemma StartedOne(was: map<string, nat>, launches: map<string, nat>, ws: Workers, done: set<string>, b: string,
                   obs: string -> Obs, now: real)
    requires b in ws && b !in done && Counted(was, launches, ws, done, obs, now)
    ensures var more := if Relaunches(ws[b], obs(b), now) then Launched(launches, b) else launches;
            Counted(was, more, ws, done + {b}, obs, now)
  {
  }

  lemma ActiveIs(ws: Workers)
    ensures forall b :: b in Active(ws) <==> b in ws && IsActive(ws[b])
    ensures forall b | b in Active(ws) :: Active(ws)[b] == ws[b]
  {
  }

  lemma AllPassed(ws: Workers, obs: string -> Obs, now: real)
    ensures Passed(ws, Active(ws).Keys, obs, now) == Ticked(ws, obs, now)
  {
  }

  class HealthMonitor {
    const registry: Registry
    const spawner: WorkerSpawner
    const doneGrace: real

    constructor (spawner: WorkerSpawner, doneGrace: real)
      ensures this.spawner == spawner && registry == spawner.registry && this.doneGrace == doneGrace
    {
      this.spawner := spawner;
      registry := spawner.registry;
      this.doneGrace := doneGrace;
    }

    /** One pass: stale entries go, every active entry takes its next state, and a process is started exactly for
        those that relaunch. */
    method CheckAll(now: real, sweepAt: real, obs: string -> Obs)
      requires spawner.registry == registry && forall b | b in registry.workers :: registry.workers[b].bugId == b
      modifies registry, spawner
      ensures registry.workers == Ticked(Swept(old(registry.workers), doneGrace, sweepAt), obs, now)
      ensures forall b :: Count(spawner.launches, b) == old(Count(spawner.launches, b)) +
                if b in old(registry.AllActive()) && Relaunches(old(registry.workers)[b], obs(b), now) then 1 else 0
    {
      var _ := registry.SweepStale(doneGrace, sweepAt);
      ghost var swept := registry.workers;
      ActiveIs(swept);
      ActiveIs(old(registry.workers));
      var active := registry.AllActive();
      CheckEach(active.Keys, active, swept, now, obs);
      AllPassed(swept, obs, now);
    }

    method CheckEach(bugs: set<string>, active: Workers, ghost ws: Workers, now: real, obs: string -> Obs)
      requires spawner.registry == registry && registry.workers == ws
      requires forall b | b in bugs :: b in active && b in ws && active[b] == ws[b] && ws[b].bugId == b
      modifies registry, spawner
      ensures registry.workers == Passed(ws, bugs, obs, now)
      ensures Counted(old(spawner.launches), spawner.launches, ws, bugs, obs, now)
    {
      hide Next, Judge, Relaunches, Passed, Counted, Launched;
      var rest := bugs;
      NonePassed(ws, spawner.launches, obs, now);
      assert bugs - rest == {};
      while rest != {}
        invariant rest <= bugs && registry.workers == Passed(ws, bugs - rest, obs, now)
        invariant Counted(old(spawner.launches), spawner.launches, ws, bugs - rest, obs, now)
        decreases rest
      {
        var b :| b in rest;
        PassedOne(ws, bugs - rest, b, obs, now);
        StartedOne(old(spawner.launches), spawner.launches, ws, bugs - rest, b, obs, now);
        Check(b, active[b], obs(b), now);
        assert bugs - (rest - {b}) == (bugs - rest) + {b};
        rest := rest - {b};
      }
      assert bugs - rest == bugs;
    }

    method Check(b: string, e: Entry, o: Obs, now: real)
      requires spawner.registry == registry && b in registry.workers && registry.workers[b] == e && e.bugId == b
      modifies registry, spawner
      ensures registry.workers == old(registry.workers)[b := Next(e, o, now)]
      ensures spawner.launches ==
              if Relaunches(e, o, now) then Launched(old(spawner.launches), b) else old(spawner.launches)
    {
      if o.returncode.Some? {
        if o.returncode.value == 0 || o.completed {
          registry.UpdateStatus(b, Done, o.at);
        } else {
          Restart(b, o);
        }
      } else if o.ttl > 0 {
        if e.status.Warmup? { registry.UpdateStatus(b, Running, o.at); }
      } else if e.status.Warmup? {
        if !(now < e.warmupDeadline) { registry.UpdateStatus(b, Failed, o.at); }
      } else if o.completed {
        registry.UpdateStatus(b, Done, o.at);
      } else {
        Restart(b, o);
      }
    }

    method Restart(b: string, o: Obs)
      requires spawner.registry == registry && b in registry.workers && registry.workers[b].bugId == b
      modifies registry, spawner
      ensures var e := old(registry.workers)[b];
              var runs := e.restartCount < MAX_WORKER_RESTARTS && o.replacement.Some?;
              registry.workers == old(registry.workers)[b :=
                if runs then Started(b, o.replacement.value, e.request, o.at, e.restartCount + 1)
                else Updated(e, Failed, o.at)]
              && spawner.launches == if runs then Launched(old(spawner.launches), b) else old(spawner.launches)
    {
      var e := registry.workers[b];
      if e.restartCount >= MAX_WORKER_RESTARTS {
        registry.UpdateStatus(b, Failed, o.at);
        return;
      }
      var ok := spawner.Restart(b, e.request, o.replacement, o.at);
      if !ok { registry.UpdateStatus(b, Failed, o.at); }
    }
  }

  /** When a look ends, replaces or leaves a worker. It is done when it exited cleanly or left its completion key,
      unless it is alive or still warming up; it is started again when it exited or fell silent after its warm-up
      without either, three times at most; it has two minutes from its start to show a first heartbeat. */
  lemma LookDecides(e: Entry, o: Obs, now: real)
    requires IsActive(e)
    ensures var gone := o.returncode.Some? || (o.ttl <= 0 && e.status.Running?);
      var clean := o.returncode == Some(0) || (o.completed && gone);
      var e' := Next(e, o, now);
      && (e'.status.Done? <==> clean)
      && (Relaunches(e, o, now) <==> gone && !clean && e.restartCount < 3 && o.replacement.Some?)
      && (Relaunches(e, o, now) ==>
            e' == Entry(e.bugId, o.replacement.value, e.request, o.at, o.at + 120.0, e.restartCount + 1, Warmup, None))
      && (gone && !clean && !Relaunches(e, o, now) ==> e'.status.Failed?)
      && (!gone && !clean && o.ttl > 0 ==> e'.status.Running? && (e' == e || e.status.Warmup?))
      && (!gone && !clean && o.ttl <= 0 ==>
            e.status.Warmup? && if now < e.warmupDeadline then e' == e else e'.status.Failed?)
  {
  }

  // ---- The life of one bug, over any number of ticks ----

  datatype Life = Life(entry: Entry, launches: nat)

  datatype Look = Look(obs: Obs, now: real)

  function Live(l: Life, k: Look): Life {
    if !IsActive(l.entry) then l
    else Life(Next(l.entry, k.obs, k.now), l.launches + if Relaunches(l.entry, k.obs, k.now) then 1 else 0)
  }

  function Lived(l: Life, looks: seq<Look>): Life
    decreases |looks|
  {
    if looks == [] then l else Lived(Live(l, looks[0]), looks[1..])
  }

  function Changes(l: Life, looks: seq<Look>): nat
    decreases |looks|
  {
    if looks == [] then 0
    else (if Live(l, looks[0]) == l then 0 else 1) + Changes(Live(l, looks[0]), looks[1..])
  }

  function Rank(s: Status): nat { match s case Warmup => 2 case Running => 1 case _ => 0 }

  function Measure(e: Entry): int { 3 * (MAX_WORKER_RESTARTS - e.restartCount) + Rank(e.status) }

  predicate Sound(l: Life) {
    && l.launches == l.entry.restartCount + 1
    && l.entry.restartCount <= MAX_WORKER_RESTARTS
    && (l.entry.doneAt.Some? <==> IsTerminal(l.entry.status))
  }

  /** Every change a tick makes lowers the measure, which is never negative. */
  lemma ChangeLowers(l: Life, k: Look)
    requires Sound(l)
    ensures Sound(Live(l, k)) && Measure(l.entry) >= 0
    ensures Live(l, k) == l || Measure(Live(l, k).entry) < Measure(l.entry)
  {
  }

  lemma {:induction false} ChangesBounded(l: Life, looks: seq<Look>)
    requires Sound(l)
    ensures Sound(Lived(l, looks)) && 0 <= Measure(Lived(l, looks).entry)
    ensures Changes(l, looks) + Measure(Lived(l, looks).entry) <= Measure(l.entry)
    decreases |looks|
  {
    ChangeLowers(l, if looks == [] then Look(Obs(0, None, false, 0.0, None), 0.0) else looks[0]);
    if looks != [] { ChangesBounded(Live(l, looks[0]), looks[1..]); }
  }

  /** From its spawn on, over any number of ticks that see anything at all: a bug's entry changes at most 11 times, its
      worker is launched at most four times, the restart count is the launches but one, and it has a done_at exactly
      when it is terminal. */
  lemma RestartsTerminate(bug: string, pid: nat, request: Request, at: real, looks: seq<Look>)
    ensures var l := Life(Started(bug, pid, request, at, 0), 1); var end := Lived(l, looks);
            && l.entry.warmupDeadline == at + 120.0 && Changes(l, looks) <= 11
            && end.launches == end.entry.restartCount + 1 <= 4
            && (end.entry.doneAt.Some? <==> IsTerminal(end.entry.status))
  {
    ChangesBounded(Life(Started(bug, pid, request, at, 0), 1), looks);
  }

  /** Terminal is final: the entry, its done_at included, never moves again, and nothing is launched. */
  lemma {:induction false} TerminalStays(l: Life, looks: seq<Look>)
    requires IsTerminal(l.entry.status)
    ensures Lived(l, looks) == l && Changes(l, looks) == 0
  {
    if looks != [] { TerminalStays(l, looks[1..]); }
  }

  /** The bound is met by a worker that always dies. */
  lemma BoundReached(l: Life, k: Look)
    requires l.entry.restartCount == 0 && IsActive(l.entry) && l.launches == 1
    requires k.obs.returncode == Some(1) && !k.obs.completed && k.obs.replacement.Some?
    ensures Lived(l, [k, k, k]).launches == 4 && Lived(l, [k, k, k, k]).entry.status.Failed?
  {
    var a := Live(l, k);
    var b := Live(a, k);
    var c := Live(b, k);
    assert [k, k, k][1..] == [k, k] && [k, k][1..] == [k] && [k][1..] == [];
    assert [k, k, k, k][1..] == [k, k, k];
    assert Lived(c, []) == c && Lived(c, [k]) == Live(c, k);
    assert Lived(b, [k]) == c && Lived(b, [k, k]) == Live(c, k);
    assert Lived(a, [k, k]) == c && Lived(a, [k, k, k]) == Live(c, k);
  }

  /** A tick is one look at every entry, and sweeping takes no active entry away: the registry after a pass, read at
      one bug, is that bug's next life. */
  lemma TickIsLook(ws: Workers, grace: real, sweepAt: real, obs: string -> Obs, now: real, b: string, launches: nat)
    requires b in ws
    ensures var after := Ticked(Swept(ws, grace, sweepAt), obs, now);
            if Stale(ws[b], grace, sweepAt) then b !in after && !IsActive(ws[b])
            else b in after && after[b] == Live(Life(ws[b], launches), Look(obs(b), now)).entry
  {
  }
}
