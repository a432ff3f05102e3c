/** A worker daemon's slots: the inbox loop accepts tasks across several awaits while reap tasks free slots. */
module Admission {

  type Pid = nat

  /** Where the inbox loop stands; an exception in an acceptance or a rejection ends it. */
  datatype Loop =
    | Reading
    | Owning(bug: string)    // passed the check, awaits SET of the owner key
    | Spawning(bug: string)  // awaits the subprocess
    | Acking(bug: string)    // worker recorded, awaits XACK
    | Rejecting              // awaits the commands of a rejection
    | Ended

  datatype Reaper = Scheduled(bug: string) | Waiting(bug: string, pid: Pid)

  /** freed lists the processes whose wait ended in a slot being given back; errors counts reap tasks that found
      their entry gone when deleting it. */
  datatype World = World(
    concurrency: nat, active: map<string, Pid>, loop: Loop, reapers: map<nat, Reaper>,
    live: set<Pid>, exited: set<Pid>, freed: seq<Pid>, errors: nat)

  datatype Move =
    | Offer(bug: string, enoughMemory: bool)
    | Owned(ok: bool)
    | Spawned(ok: bool, pid: Pid)
    | Acked(ok: bool, task: nat)
    | Rejected(ok: bool)
    | Start(task: nat)
    | Exit(pid: Pid)
    | Free(task: nat)

  function FreeSlots(w: World): int { w.concurrency - |w.active| }

  predicate CanAccept(w: World, enoughMemory: bool) { FreeSlots(w) > 0 && enoughMemory }

  predicate Enabled(w: World, m: Move) {
    match m
    case Offer(_, _) => w.loop.Reading?
    case Owned(_) => w.loop.Owning?
    case Spawned(ok, pid) => w.loop.Spawning? && (ok ==> pid !in w.live && pid !in w.exited)
    case Acked(ok, task) => w.loop.Acking? && (ok ==> task !in w.reapers)
    case Rejected(_) => w.loop.Rejecting?
    case Start(task) => task in w.reapers && w.reapers[task].Scheduled?
    case Exit(pid) => pid in w.live
    case Free(task) => task in w.reapers && w.reapers[task].Waiting? && w.reapers[task].pid in w.exited
  }

  function Step(w: World, m: Move): World
    requires Enabled(w, m)
  {
    match m
    case Offer(bug, enough) => w.(loop := if CanAccept(w, enough) then Owning(bug) else Rejecting)
    case Owned(ok) => w.(loop := if ok then Spawning(w.loop.bug) else Ended)
    case Spawned(ok, pid) =>
      if !ok then w.(loop := Ended)
      else w.(active := w.active[w.loop.bug := pid], live := w.live + {pid}, loop := Acking(w.loop.bug))
    case Acked(ok, task) =>
      if ok then w.(loop := Reading, reapers := w.reapers[task := Scheduled(w.loop.bug)]) else w.(loop := Ended)
    case Rejected(ok) => w.(loop := if ok then Reading else Ended)
    case Start(task) =>
      var bug := w.reapers[task].bug;
      w.(reapers := if bug in w.active then w.reapers[task := Waiting(bug, w.active[bug])] else w.reapers - {task})
    case Exit(pid) => w.(live := w.live - {pid}, exited := w.exited + {pid})
    case Free(task) =>
      var r := w.reapers[task];
      var v := w.(reapers := w.reapers - {task});
      if r.bug in w.active then v.(active := w.active - {r.bug}, freed := w.freed + [r.pid])
      else v.(errors := w.errors + 1)
  }

  predicate Runs(w: World, moves: seq<Move>, end: World)
    decreases |moves|
  {
    if moves == [] then end == w else Enabled(w, moves[0]) && Runs(Step(w, moves[0]), moves[1..], end)
  }

  function Idle(concurrency: nat): World { World(concurrency, map[], Reading, map[], {}, {}, [], 0) }

  // ---- Capacity, whatever the tasks are ----

  /** The bound, and why the awaits between check and insertion do not break it: only the loop inserts, one entry at
      a time, so the slot it saw is still there. */
  ghost predicate Bounded(w: World) {
    |w.active| <= w.concurrency && (w.loop.Owning? || w.loop.Spawning? ==> |w.active| < w.concurrency)
  }

  lemma InsertSize(m: map<string, Pid>, k: string, p: Pid)
    ensures |m[k := p]| == if k in m then |m| else |m| + 1
  {
  }

  lemma RemoveSize(m: map<string, Pid>, k: string)
    requires k in m
    ensures |m - {k}| == |m| - 1
  {
  }

  lemma BoundedStep(w: World, m: Move)
    requires Bounded(w) && Enabled(w, m)
    ensures Bounded(Step(w, m)) && Step(w, m).concurrency == w.concurrency
  {
  }

  lemma {:induction false} BoundedRun(w: World, moves: seq<Move>, end: World)
    requires Bounded(w) && Runs(w, moves, end)
    ensures Bounded(end) && end.concurrency == w.concurrency
    decreases |moves|
  {
    if moves != [] {
      BoundedStep(w, moves[0]);
      BoundedRun(Step(w, moves[0]), moves[1..], end);
    }
  }

  /** In every interleaving the daemon records at most concurrency workers, and the free slots it advertises are
      between 0 and concurrency. */
  lemma NeverOverfull(concurrency: nat, moves: seq<Move>, end: World)
    requires Runs(Idle(concurrency), moves, end)
    ensures |end.active| <= concurrency && 0 <= FreeSlots(end) <= concurrency
  {
    BoundedRun(Idle(concurrency), moves, end);
  }

  // ---- Processes and slots, when no bug is accepted twice while active ----

  /** The caller's side: a task is offered only while its bug is not active. */
  predicate Fresh(w: World, m: Move) { m.Offer? ==> m.bug !in w.active }

  /** Live processes are recorded; each recorded worker but the one being acknowledged, or left behind when the loop
      ended there, has one reap task, which waits for that worker; processes are freed once, and only when they are
      recorded no more. */
  ghost predicate Matched(w: World) {
    && w.live !! w.exited
    && (forall p | p in w.live :: p in w.active.Values)
    && (forall b | b in w.active :: w.active[b] in w.live || w.active[b] in w.exited)
    && (forall b, c | b in w.active && c in w.active && b != c :: w.active[b] != w.active[c])
    && (w.loop.Owning? || w.loop.Spawning? ==> w.loop.bug !in w.active)
    && (w.loop.Acking? ==> w.loop.bug in w.active && forall t | t in w.reapers :: w.reapers[t].bug != w.loop.bug)
    && (forall t | t in w.reapers ::
          && w.reapers[t].bug in w.active
          && (w.reapers[t].Waiting? ==> w.active[w.reapers[t].bug] == w.reapers[t].pid))
    && (forall t, u | t in w.reapers && u in w.reapers && t != u :: w.reapers[t].bug != w.reapers[u].bug)
    && (forall i | 0 <= i < |w.freed| :: w.freed[i] in w.exited && w.freed[i] !in w.active.Values)
    && (forall i, j | 0 <= i < j < |w.freed| :: w.freed[i] != w.freed[j])
    && (forall p | p in w.exited :: p in w.active.Values || p in w.freed)
    && w.errors == 0
  }

  lemma SpawnedMatched(w: World, pid: Pid)
    requires Matched(w) && Enabled(w, Spawned(true, pid))
    ensures Matched(Step(w, Spawned(true, pid)))
  {
    var v := Step(w, Spawned(true, pid));
    var bug := w.loop.bug;
    assert v.active[bug] == pid;
    forall p | p in w.active.Values ensures p in v.active.Values {
      var b :| b in w.active && w.active[b] == p;
      assert v.active[b] == p;
    }
    forall p | p in v.active.Values ensures p == pid || p in w.active.Values {
      var b :| b in v.active && v.active[b] == p;
      assert b != bug ==> w.active[b] == p;
    }
    assert forall i | 0 <= i < |w.freed| :: w.freed[i] in w.exited;
  }

  lemma FreeMatched(w: World, task: nat)
    requires Matched(w) && Enabled(w, Free(task))
    ensures Matched(Step(w, Free(task)))
  {
    var v := Step(w, Free(task));
    var r := w.reapers[task];
    assert r.bug in w.active && w.active[r.bug] == r.pid;
    ValuesWithout(w.active, r.bug);
    assert v.freed == w.freed + [r.pid];
  }

  lemma ValuesWithout(m: map<string, Pid>, k: string)
    requires k in m && forall b, c | b in m && c in m && b != c :: m[b] != m[c]
    ensures forall p :: p in (m - {k}).Values <==> p in m.Values && p != m[k]
    ensures m[k] in m.Values
  {
    forall p | p in m.Values && p != m[k] ensures p in (m - {k}).Values {
      var b :| b in m && m[b] == p;
      assert (m - {k})[b] == p;
    }
    forall p | p in (m - {k}).Values ensures p in m.Values && p != m[k] {
      var b :| b in m - {k} && (m - {k})[b] == p;
      assert m[b] == p;
    }
  }

  lemma StartMatched(w: World, task: nat)
    requires Matched(w) && Enabled(w, Start(task))
    ensures Matched(Step(w, Start(task)))
  {
  }

  lemma MatchedStep(w: World, m: Move)
    requires Matched(w) && Enabled(w, m) && Fresh(w, m)
    ensures Matched(Step(w, m))
  {
    match m
    case Spawned(ok, pid) => if ok { SpawnedMatched(w, pid); }
    case Free(task) => FreeMatched(w, task);
    case Start(task) => StartMatched(w, task);
    case _ =>
  }

  ghost predicate FreshRuns(w: World, moves: seq<Move>, end: World)
    decreases |moves|
  {
    if moves == [] then end == w
    else Enabled(w, moves[0]) && Fresh(w, moves[0]) && FreshRuns(Step(w, moves[0]), moves[1..], end)
  }

  lemma {:induction false} MatchedRun(w: World, moves: seq<Move>, end: World)
    requires Matched(w) && FreshRuns(w, moves, end)
    ensures Matched(end)
    decreases |moves|
  {
    if moves != [] {
      MatchedStep(w, moves[0]);
      MatchedRun(Step(w, moves[0]), moves[1..], end);
    }
  }

  lemma LiveFit(w: World)
    requires Matched(w) && Bounded(w)
    ensures |w.live| <= w.concurrency
  {
    ValuesSize(w.active);
    assert w.live <= w.active.Values;
    Subset(w.live, w.active.Values);
  }

  lemma {:induction false} Subset<T>(a: set<T>, b: set<T>)
    requires a <= b
    ensures |a| <= |b|
  {
    if a != {} {
      var x :| x in a;
      Subset(a - {x}, b - {x});
    }
  }

  lemma {:induction false} ValuesSize(m: map<string, Pid>)
    ensures |m.Values| <= |m|
    decreases |m|
  {
    if m != map[] {
      var k :| k in m;
      var r := m - {k};
      RemoveSize(m, k);
      ValuesSize(r);
      assert m.Values <= r.Values + {m[k]} by {
        forall p | p in m.Values ensures p in r.Values + {m[k]} {
          var j :| j in m && m[j] == p;
          if j != k { assert r[j] == p; }
        }
      }
      Subset(m.Values, r.Values + {m[k]});
    } else {
      assert m.Values == {};
    }
  }

  /** When no bug is offered while it is active: the live processes are recorded workers, at most concurrency of them;
      every process is either recorded or has given its slot back, never both and never twice; and no reap task
      fails. */
  lemma SlotsFollowProcesses(concurrency: nat, moves: seq<Move>, end: World)
    requires FreshRuns(Idle(concurrency), moves, end)
    ensures end.live <= end.active.Values && |end.live| <= concurrency && end.errors == 0
    ensures forall p | p in end.exited :: p in end.active.Values <==> p !in end.freed
    ensures forall i, j :: 0 <= i < j < |end.freed| ==> end.freed[i] != end.freed[j]
  {
    MatchedRun(Idle(concurrency), moves, end);
    FreshIsRun(Idle(concurrency), moves, end);
    BoundedRun(Idle(concurrency), moves, end);
    LiveFit(end);
  }

  lemma {:induction false} FreshIsRun(w: World, moves: seq<Move>, end: World)
    requires FreshRuns(w, moves, end)
    ensures Runs(w, moves, end)
    decreases |moves|
  {
    if moves != [] { FreshIsRun(Step(w, moves[0]), moves[1..], end); }
  }

  /** Recording a second worker of an active bug keeps every live process recorded exactly when the first has
      exited. */
  lemma DuplicateHidesWorker(w: World, bug: string, pid: Pid)
    requires Matched(w.(loop := Reading)) && w.loop == Spawning(bug) && bug in w.active
    requires Enabled(w, Spawned(true, pid))
    ensures var v := Step(w, Spawned(true, pid)); v.live <= v.active.Values <==> w.active[bug] !in w.live
  {
    var v := Step(w, Spawned(true, pid));
    assert v.active[bug] == pid;
    if w.active[bug] in w.live {
      assert w.active[bug] in v.live;
      forall b | b in v.active ensures v.active[b] != w.active[bug] { assert b != bug ==> v.active[b] == w.active[b]; }
    } else {
      forall p | p in v.live ensures p in v.active.Values {
        if p != pid {
          assert p in w.active.Values;
          var b :| b in w.active && w.active[b] == p;
          assert v.active[b] == p;
        }
      }
    }
  }

  function Accepted(w: World, bug: string, pid: Pid, task: nat): World
    requires w.loop.Reading? && CanAccept(w, true) && pid !in w.live && pid !in w.exited && task !in w.reapers
  {
    Step(Step(Step(Step(w, Offer(bug, true)), Owned(true)), Spawned(true, pid)), Acked(true, task))
  }

  /** The same bug twice and another once: three live workers on two slots. */
  lemma DuplicateOverloads(x: string, y: string)
    requires x != y
    ensures var end := Accepted(Accepted(Accepted(Idle(2), x, 1, 1), x, 2, 2), y, 3, 3);
            |end.live| == 3 > end.concurrency
  {
  }

  /** Some continuation gives the slot of process pid back. */
  ghost predicate CanFree(w: World, pid: Pid) {
    exists moves, end: World :: Runs(w, moves, end) && pid in end.freed
  }

  lemma RunsOn(w: World, m: Move, rest: seq<Move>, end: World)
    requires Enabled(w, m) && Runs(Step(w, m), rest, end)
    ensures Runs(w, [m] + rest, end)
  {
    assert ([m] + rest)[1..] == rest;
  }

  /** With its reap task scheduled, a worker can exit and be reaped. */
  lemma ScheduledIsFreed(w: World, task: nat)
    requires Matched(w) && task in w.reapers && w.reapers[task].Scheduled?
    ensures CanFree(w, w.active[w.reapers[task].bug])
  {
    hide Runs;
    var pid := w.active[w.reapers[task].bug];
    var v := Step(w, Start(task));
    var u := if pid in v.live then Step(v, Exit(pid)) else v;
    assert u.reapers == v.reapers && pid in u.exited;
    var end := Step(u, Free(task));
    assert end.freed[|u.freed|] == pid;
    RunsNowhere(end);
    RunsOn(u, Free(task), [], end);
    var rest := [Free(task)] + [];
    if pid in v.live {
      RunsOn(v, Exit(pid), rest, end);
      rest := [Exit(pid)] + rest;
    }
    RunsOn(w, Start(task), rest, end);
    assert Runs(w, [Start(task)] + rest, end);
  }

  lemma RunsNowhere(w: World)
    ensures Runs(w, [], w)
  {
  }

  /** Once the loop has ended, a worker without a reap task keeps its slot for good. */
  lemma {:induction false} NeverFreed(w: World, bug: string, moves: seq<Move>, end: World)
    requires Matched(w) && w.loop == Ended && bug in w.active && forall t | t in w.reapers :: w.reapers[t].bug != bug
    requires Runs(w, moves, end)
    ensures bug in end.active && end.active[bug] == w.active[bug] && w.active[bug] !in end.freed
    decreases |moves|
  {
    hide Matched;
    if moves == [] {
      NotFreed(w, bug);
    } else {
      MatchedStep(w, moves[0]);
      NeverFreed(Step(w, moves[0]), bug, moves[1..], end);
    }
  }

  lemma NotFreed(w: World, bug: string)
    requires Matched(w) && bug in w.active
    ensures w.active[bug] !in w.freed
  {
    assert w.active[bug] in w.active.Values;
  }

  /** The slot of an accepted worker can be given back exactly when the acknowledgement of its task does not raise:
      only then is its reap task created. */
  lemma ReapedExactly(w: World, ok: bool, task: nat)
    requires Matched(w) && Enabled(w, Acked(ok, task))
    ensures CanFree(Step(w, Acked(ok, task)), w.active[w.loop.bug]) <==> ok
  {
    hide Runs;
    var v := Step(w, Acked(ok, task));
    MatchedStep(w, Acked(ok, task));
    if ok {
      ScheduledIsFreed(v, task);
    } else {
      forall moves, end: World | Runs(v, moves, end) ensures w.active[w.loop.bug] !in end.freed {
        NeverFreed(v, w.loop.bug, moves, end);
      }
    }
  }

  // ---- The inbox loop, whatever happens between its awaits ----

  /** What other coroutines and the operating system do while the loop awaits. */
  datatype Background = ReapStarts(task: nat) | WorkerExits(pid: Pid) | ReapEnds(task: nat)

  /** One entry read: what the checks and awaits of its handling find, and what happens meanwhile. */
  datatype Task = Task(
    bug: string, enoughMemory: bool, reading: seq<Background>, rejecting: seq<Background>, rejected: bool,
    owning: seq<Background>, ownerSet: bool, spawning: seq<Background>, started: bool,
    acking: seq<Background>, acked: bool)

  lemma {:induction false} RunsJoin(w: World, ms: seq<Move>, v: World, ns: seq<Move>, end: World)
    requires Runs(w, ms, v) && Runs(v, ns, end)
    ensures Runs(w, ms + ns, end)
    decreases |ms|
  {
    hide Step, Enabled;
    if ms == [] {
      assert ms + ns == ns;
    } else {
      RunsJoin(Step(w, ms[0]), ms[1..], v, ns, end);
      assert (ms + ns)[1..] == ms[1..] + ns && (ms + ns)[0] == ms[0];
    }
  }

  lemma RunsThen(w: World, ms: seq<Move>, v: World, m: Move)
    requires Runs(w, ms, v) && Enabled(v, m)
    ensures Runs(w, ms + [m], Step(v, m))
  {
    hide Step, Enabled;
    RunsNowhere(Step(v, m));
    RunsOn(v, m, [], Step(v, m));
    assert [m] + [] == [m];
    RunsJoin(w, ms, v, [m], Step(v, m));
  }

  class WorkerDaemon {
    const concurrency: nat
    var active: map<string, Pid>
    var reapers: map<nat, Reaper>
    var live: set<Pid>
    var exited: set<Pid>
    var freed: seq<Pid>
    var errors: nat
    /** The most workers ever recorded, and the ids the system gives out next. */
    var peak: nat
    var nextPid: Pid
    var nextTask: nat

    /** The machine's state when the loop stands at the given await. */
    function State(loop: Loop): World
      reads this
    {
      World(concurrency, active, loop, reapers, live, exited, freed, errors)
    }

    ghost predicate Valid()
      reads this
    {
      && (forall p | p in live || p in exited :: p < nextPid)
      && (forall t | t in reapers :: t < nextTask)
      && |active| <= peak <= concurrency
    }

    constructor (concurrency: nat)
      ensures Valid() && State(Reading) == Idle(concurrency)
    {
      this.concurrency := concurrency;
      active, reapers, live, exited, freed, errors := map[], map[], {}, {}, [], 0;
      peak, nextPid, nextTask := 0, 0, 0;
    }

    /** A reap task starts: it waits for the worker recorded under its bug now. */
    method StartReap(task: nat)
      requires Valid() && task in reapers && reapers[task].Scheduled?
      modifies this`reapers
      ensures Valid() && forall loop :: State(loop) == Step(old(State(loop)), Start(task))
    {
      var bug := reapers[task].bug;
      reapers := if bug in active then reapers[task := Waiting(bug, active[bug])] else reapers - {task};
    }

    /** Its worker gone, a reap task frees the slot. */
    method FinishReap(task: nat)
      requires Valid() && task in reapers && reapers[task].Waiting? && reapers[task].pid in exited
      modifies this`reapers, this`active, this`freed, this`errors
      ensures Valid() && |active| <= old(|active|)
      ensures forall loop :: State(loop) == Step(old(State(loop)), Free(task))
    {
      var r := reapers[task];
      reapers := reapers - {task};
      if r.bug in active {
        RemoveSize(active, r.bug);
        active := active - {r.bug};
        freed := freed + [r.pid];
      } else {
        errors := errors + 1;
      }
    }

    /** One thing another coroutine or the system does, if it can. */
    method Other(ghost loop: Loop, b: Background) returns (ghost m: seq<Move>)
      requires Valid()
      modifies this
      ensures Valid() && |active| <= old(|active|) && nextPid == old(nextPid) && nextTask == old(nextTask)
      ensures peak == old(peak) && |m| <= 1
      ensures m == [] ==> State(loop) == old(State(loop))
      ensures m != [] ==> Enabled(old(State(loop)), m[0]) && State(loop) == Step(old(State(loop)), m[0])
    {
      m := [];
      match b
      case WorkerExits(pid) =>
        if pid in live {
          m := [Exit(pid)];
          live, exited := live - {pid}, exited + {pid};
        }
      case ReapStarts(task) =>
        if task in reapers && reapers[task].Scheduled? {
          m := [Start(task)];
          StartReap(task);
        }
      case ReapEnds(task) =>
        if task in reapers && reapers[task].Waiting? && reapers[task].pid in exited {
          m := [Free(task)];
          FinishReap(task);
        }
    }

    /** An await of the loop: the others go on, in any order, as far as they can. */
    method Await(ghost loop: Loop, others: seq<Background>) returns (ghost moves: seq<Move>)
      requires Valid()
      modifies this
      ensures Valid() && Runs(old(State(loop)), moves, State(loop))
      ensures |active| <= old(|active|) && nextPid == old(nextPid) && nextTask == old(nextTask) && peak == old(peak)
    {
      hide Step, Enabled, Runs;
      moves := [];
      RunsNowhere(State(loop));
      var i := 0;
      while i < |others|
        invariant i <= |others| && Valid() && Runs(old(State(loop)), moves, State(loop))
        invariant |active| <= old(|active|) && nextPid == old(nextPid) && nextTask == old(nextTask)
        invariant peak == old(peak)
      {
        ghost var v := State(loop);
        ghost var m := Other(loop, others[i]);
        if m != [] {
          RunsThen(old(State(loop)), moves, v, m[0]);
          moves := moves + [m[0]];
        }
        i := i + 1;
      }
    }

    /** The owner key is set. */
    method MarkOwner(t: Task) returns (ghost moves: seq<Move>)
      requires Valid()
      modifies this
      ensures Valid() && |active| <= old(|active|)
      ensures Runs(old(State(Owning(t.bug))), moves, State(if t.ownerSet then Spawning(t.bug) else Ended))
    {
      hide Step, Enabled, Runs;
      moves := Await(Owning(t.bug), t.owning);
      OwnedStep(State(Owning(t.bug)), t.ownerSet);
      RunsThen(old(State(Owning(t.bug))), moves, State(Owning(t.bug)), Owned(t.ownerSet));
      moves := moves + [Owned(t.ownerSet)];
    }

    /** The subprocess is started and recorded; the slot seen by the check is still free. */
    method StartWorker(t: Task) returns (ghost moves: seq<Move>)
      requires Valid() && |active| < concurrency
      modifies this
      ensures Valid()
      ensures Runs(old(State(Spawning(t.bug))), moves, State(if t.started then Acking(t.bug) else Ended))
    {
      hide Step, Enabled, Runs;
      moves := Await(Spawning(t.bug), t.spawning);
      SpawnedStep(State(Spawning(t.bug)), t.started, nextPid);
      RunsThen(old(State(Spawning(t.bug))), moves, State(Spawning(t.bug)), Spawned(t.started, nextPid));
      moves := moves + [Spawned(t.started, nextPid)];
      if !t.started { return; }
      InsertSize(active, t.bug, nextPid);
      live := live + {nextPid};
      active := active[t.bug := nextPid];
      nextPid := nextPid + 1;
      peak := if |active| > peak then |active| else peak;
    }

    /** The entry is acknowledged and the reap task created. */
    method Acknowledge(t: Task) returns (ghost moves: seq<Move>)
      requires Valid()
      modifies this
      ensures Valid()
      ensures Runs(old(State(Acking(t.bug))), moves, State(if t.acked then Reading else Ended))
    {
      hide Step, Enabled, Runs;
      moves := Await(Acking(t.bug), t.acking);
      AckedStep(State(Acking(t.bug)), t.acked, nextTask);
      RunsThen(old(State(Acking(t.bug))), moves, State(Acking(t.bug)), Acked(t.acked, nextTask));
      moves := moves + [Acked(t.acked, nextTask)];
      if !t.acked { return; }
      reapers := reapers[nextTask := Scheduled(t.bug)];
      nextTask := nextTask + 1;
    }

    /** Accepts a task that passed the check; an exception in any part ends the loop. */
    method Accept(t: Task) returns (running: bool, ghost moves: seq<Move>)
      requires Valid() && concurrency - |active| > 0
      modifies this
      ensures Valid() && running == (t.ownerSet && t.started && t.acked)
      ensures Runs(old(State(Owning(t.bug))), moves, State(if running then Reading else Ended))
    {
      hide Step, Enabled, Runs;
      running := false;
      moves := MarkOwner(t);
      if !t.ownerSet { return; }
      ghost var w := State(Spawning(t.bug));
      ghost var m := StartWorker(t);
      RunsJoin(old(State(Owning(t.bug))), moves, w, m, State(if t.started then Acking(t.bug) else Ended));
      moves := moves + m;
      if !t.started { return; }
      w := State(Acking(t.bug));
      m := Acknowledge(t);
      RunsJoin(old(State(Owning(t.bug))), moves, w, m, State(if t.acked then Reading else Ended));
      moves := moves + m;
      running := t.acked;
    }

    /** Turns a task down; an exception in it ends the loop as well. */
    method Reject(t: Task) returns (ghost moves: seq<Move>)
      requires Valid()
      modifies this
      ensures Valid() && |active| <= old(|active|)
      ensures Runs(old(State(Rejecting)), moves, State(if t.rejected then Reading else Ended))
    {
      hide Step, Enabled, Runs;
      moves := Await(Rejecting, t.rejecting);
      RejectedStep(State(Rejecting), t.rejected);
      RunsThen(old(State(Rejecting)), moves, State(Rejecting), Rejected(t.rejected));
      moves := moves + [Rejected(t.rejected)];
    }

    /** The inbox loop over any entries, until an acceptance or a rejection raises: whatever happens between its
        awaits, it is a run of the machine above, and never records more workers than the concurrency. */
    method InboxLoop(tasks: seq<Task>) returns (running: bool, ghost moves: seq<Move>)
      requires Valid()
      modifies this
      ensures Valid() && |active| <= peak <= concurrency
      ensures Runs(old(State(Reading)), moves, State(if running then Reading else Ended))
    {
      hide Step, Enabled, Runs;
      ghost var start := State(Reading);
      running, moves := true, [];
      RunsNowhere(start);
      var i := 0;
      while i < |tasks| && running
        invariant i <= |tasks| && Valid()
        invariant Runs(start, moves, State(if running then Reading else Ended))
      {
        var t := tasks[i];
        ghost var w := State(Reading);
        ghost var m := Await(Reading, t.reading);
        RunsJoin(start, moves, w, m, State(Reading));
        w, moves := State(Reading), moves + m;
        OfferStep(w, t.bug, t.enoughMemory);
        RunsThen(start, moves, w, Offer(t.bug, t.enoughMemory));
        moves := moves + [Offer(t.bug, t.enoughMemory)];
        if concurrency - |active| > 0 && t.enoughMemory {
          w := State(Owning(t.bug));
          running, m := Accept(t);
        } else {
          w := State(Rejecting);
          m := Reject(t);
          running := t.rejected;
        }
        RunsJoin(start, moves, w, m, State(if running then Reading else Ended));
        moves := moves + m;
        i := i + 1;
      }
    }
  }

  lemma OfferStep(w: World, bug: string, enough: bool)
    requires w.loop == Reading
    ensures Enabled(w, Offer(bug, enough))
    ensures Step(w, Offer(bug, enough)) ==
            w.(loop := if w.concurrency - |w.active| > 0 && enough then Owning(bug) else Rejecting)
  {
  }

  lemma RejectedStep(w: World, ok: bool)
    requires w.loop.Rejecting?
    ensures Enabled(w, Rejected(ok)) && Step(w, Rejected(ok)) == w.(loop := if ok then Reading else Ended)
  {
  }

  lemma OwnedStep(w: World, ok: bool)
    requires w.loop.Owning?
    ensures Enabled(w, Owned(ok)) && Step(w, Owned(ok)) == w.(loop := if ok then Spawning(w.loop.bug) else Ended)
  {
  }

  lemma SpawnedStep(w: World, ok: bool, pid: Pid)
    requires w.loop.Spawning? && pid !in w.live && pid !in w.exited
    ensures Enabled(w, Spawned(ok, pid))
    ensures Step(w, Spawned(ok, pid)) ==
            if ok then w.(active := w.active[w.loop.bug := pid], live := w.live + {pid}, loop := Acking(w.loop.bug))
            else w.(loop := Ended)
  {
  }

  lemma AckedStep(w: World, ok: bool, task: nat)
    requires w.loop.Acking? && task !in w.reapers
    ensures Enabled(w, Acked(ok, task))
    ensures Step(w, Acked(ok, task)) ==
            if ok then w.(loop := Reading, reapers := w.reapers[task := Scheduled(w.loop.bug)]) else w.(loop := Ended)
  {
  }
}
