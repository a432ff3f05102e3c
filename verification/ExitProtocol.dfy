/** A worker's exit sequence against the health monitor's reads, one step at a time in any interleaving. They share a
    heartbeat key, which outlives a killed process until it expires, and a completion key. */
module ExitProtocol {
  import Lifecycle

  /** The current incarnation. Closing is the teardown up to the test of the interrupted flag, Clearing the teardown
      from there to the deletion of the heartbeat, Leaving what follows. */
  datatype Phase = Booting | Working | Closing | Clearing | Leaving | Gone(rc: int)

  datatype Status = Warmup | Running | Failed | Done

  /** Where one check of the monitor stands: between two of its awaits. */
  datatype Monitor = Idle | SawTtl(alive: bool) | NeedsKey | Stopping

  /** chose: this incarnation reached the completion key by its own choice; interrupted: a signal came before. */
  datatype World = World(
    phase: Phase, reported: bool, interrupted: bool, chose: bool,
    heartbeat: bool, completed: bool, status: Status, monitor: Monitor)

  datatype Move =
    | Begin | Beat | End | Signal | SetKey(ok: bool) | SkipKey | ClearHeartbeat | Exit(rc: int) | Kill
    | Expire
    | ReadTtl | ReadProcess(seen: bool, late: bool) | ReadKey | Relaunch | GiveUp

  const SIGTERM_EXIT := 143
  const SIGKILL_EXIT := -9

  predicate IsActive(s: Status) { s.Warmup? || s.Running? }

  /** The incarnation has reported and has not deleted its key yet. */
  predicate KeepsKey(w: World) { w.reported && !w.phase.Leaving? && !w.phase.Gone? }

  predicate Enabled(w: World, m: Move) {
    match m
    case Begin => w.phase.Booting?
    case Beat => w.phase.Working?
    case End => w.phase.Working?
    case Signal => !w.phase.Gone?
    case SetKey(_) => w.phase.Closing? && !w.interrupted
    case SkipKey => w.phase.Closing? && w.interrupted
    case ClearHeartbeat => w.phase.Clearing?
    case Exit(rc) => w.phase.Leaving? && (w.interrupted ==> rc == SIGTERM_EXIT)
    case Kill => !w.phase.Gone?
    case Expire => w.heartbeat && !KeepsKey(w)
    case ReadTtl => w.monitor.Idle? && IsActive(w.status)
    case ReadProcess(seen, _) => w.monitor.SawTtl? && (seen ==> w.phase.Gone?)
    case ReadKey => w.monitor.NeedsKey?
    case Relaunch => w.monitor.Stopping? && w.phase.Gone?
    case GiveUp => w.monitor.Stopping?
  }

  function Step(w: World, m: Move): World
    requires Enabled(w, m)
  {
    match m
    case Begin => w.(phase := Working)
    case Beat => w.(heartbeat := true, reported := true)
    case End => w.(phase := Closing)
    case Signal =>
      // Before the flag is tested it means interrupted; after that it only cuts the teardown short.
      if w.phase.Clearing? || w.phase.Leaving? then w.(phase := Leaving)
      else w.(phase := Closing, interrupted := true)
    case SetKey(ok) => w.(phase := Clearing, chose := true, completed := w.completed || ok)
    case SkipKey => w.(phase := Clearing)
    case ClearHeartbeat => w.(phase := Leaving, heartbeat := false)
    case Exit(rc) => w.(phase := Gone(rc))
    case Kill => w.(phase := Gone(SIGKILL_EXIT))
    case Expire => w.(heartbeat := false)
    case ReadTtl => w.(monitor := SawTtl(w.heartbeat))
    case ReadProcess(seen, late) => Judged(w, seen, late)
    case ReadKey => if w.completed then w.(monitor := Idle, status := Done) else w.(monitor := Stopping)
    case Relaunch => w.(phase := Booting, reported := false, interrupted := false, chose := false,
                        status := Warmup, monitor := Idle)
    case GiveUp => w.(status := Failed, monitor := Idle)
  }

  /** The check once the TTL is known: seen says the exit code is visible, late that the warmup deadline has passed. */
  function Judged(w: World, seen: bool, late: bool): World
    requires w.monitor.SawTtl? && (seen ==> w.phase.Gone?)
  {
    if seen then
      if w.phase.rc == 0 then w.(monitor := Idle, status := Done) else w.(monitor := NeedsKey)
    else if w.monitor.alive then
      w.(monitor := Idle, status := if w.status.Warmup? then Running else w.status)
    else if w.status.Warmup? then
      w.(monitor := Idle, status := if late then Failed else Warmup)
    else w.(monitor := NeedsKey)
  }

  /** A first launch; stale says a predecessor's heartbeat key is still there. */
  function Launch(stale: bool): World { World(Booting, false, false, false, stale, false, Warmup, Idle) }

  /** A check finds no heartbeat on a running entry whose incarnation has not reported yet: what made the entry running
      was a key left by a predecessor, and that key has lapsed. */
  predicate Lapse(w: World, m: Move) { m.ReadTtl? && !w.heartbeat && w.status.Running? && !w.reported }

  /** What the surroundings allow: lapses, and a completion key that fails to be set. Relaunching under the key of a
      killed predecessor is always allowed. */
  predicate Allowed(w: World, m: Move, lapses: bool, keyFails: bool) {
    (m.SetKey? ==> m.ok || keyFails) && (Lapse(w, m) ==> lapses)
  }

  predicate Runs(w: World, moves: seq<Move>, end: World, lapses: bool, keyFails: bool)
    decreases |moves|
  {
    if moves == [] then end == w
    else
      && Enabled(w, moves[0]) && Allowed(w, moves[0], lapses, keyFails)
      && Runs(Step(w, moves[0]), moves[1..], end, lapses, keyFails)
  }

  /** Without lapses: an incarnation that has reported has a heartbeat until it leaves, the monitor comes to its doubts
      only once the incarnation has left, and the completion key is there only if it chose to finish. */
  predicate Inv(w: World) {
    && (KeepsKey(w) ==> w.heartbeat)
    && (w.completed ==> w.chose)
    && !(w.chose && w.interrupted)
    && (w.chose ==> w.phase.Clearing? || w.phase.Leaving? || w.phase.Gone?)
    && (w.phase.Clearing? || w.phase.Leaving? ==> w.chose || w.interrupted)
    && (w.phase.Gone? && !w.chose ==> w.phase.rc != 0)
    && (w.status.Done? ==> w.chose)
    && (w.status.Done? || w.status.Failed? ==> w.monitor.Idle?)
    && (match w.monitor
        case Idle => true
        case SawTtl(alive) => !alive && w.status.Running? ==> w.phase.Leaving? || w.phase.Gone?
        case NeedsKey => w.phase.Leaving? || w.phase.Gone?
        case Stopping => (w.phase.Leaving? || w.phase.Gone?) && !w.completed)
  }

  /** Where the completion key is set when due, choosing to finish leaves it. */
  predicate Sure(w: World) { w.chose ==> w.completed }

  predicate IsCheck(m: Move) { m.ReadTtl? || m.ReadProcess? || m.ReadKey? || m.Relaunch? || m.GiveUp? }

  lemma CheckKeeps(w: World, m: Move, keyFails: bool)
    requires Inv(w) && Enabled(w, m) && Allowed(w, m, false, keyFails) && IsCheck(m)
    ensures Inv(Step(w, m)) && (Sure(w) && !keyFails ==> Sure(Step(w, m)))
  {
  }

  lemma WorkerKeeps(w: World, m: Move, keyFails: bool)
    requires Inv(w) && Enabled(w, m) && Allowed(w, m, false, keyFails) && !IsCheck(m)
    ensures Inv(Step(w, m)) && (Sure(w) && !keyFails ==> Sure(Step(w, m)))
  {
  }

  lemma {:induction false} RunKeeps(w: World, moves: seq<Move>, end: World, keyFails: bool)
    requires Inv(w) && Runs(w, moves, end, false, keyFails)
    ensures Inv(end) && (Sure(w) && !keyFails ==> Sure(end))
    decreases |moves|
  {
    hide Inv, Step, Sure;
    if moves != [] {
      if IsCheck(moves[0]) { CheckKeeps(w, moves[0], keyFails); } else { WorkerKeeps(w, moves[0], keyFails); }
      RunKeeps(Step(w, moves[0]), moves[1..], end, keyFails);
    }
  }

  /** Over any number of incarnations, launched with or without a predecessor's key: as long as no check meets a lapse
      and the completion key is set when due, an incarnation that chose to finish is never being replaced. */
  lemma FinisherKept(stale: bool, moves: seq<Move>, end: World)
    requires Runs(Launch(stale), moves, end, false, false)
    ensures end.monitor.Stopping? ==> !end.chose
  {
    RunKeeps(Launch(stale), moves, end, false);
  }

  /** As long as no check meets a lapse, whether or not the completion key can be set: a bug is done only when its
      incarnation chose to finish, which one interrupted or killed before that has not. */
  lemma DoneMeansChosen(stale: bool, moves: seq<Move>, end: World, keyFails: bool)
    requires Runs(Launch(stale), moves, end, false, keyFails)
    ensures end.status.Done? ==> end.chose && !end.interrupted
  {
    RunKeeps(Launch(stale), moves, end, keyFails);
  }

  /** Runs in which no incarnation is launched while its predecessor's key is still there. */
  predicate CleanRuns(w: World, moves: seq<Move>, end: World, keyFails: bool)
    decreases |moves|
  {
    if moves == [] then end == w
    else
      && Enabled(w, moves[0]) && (moves[0].SetKey? ==> moves[0].ok || keyFails)
      && (moves[0].Relaunch? ==> !w.heartbeat)
      && CleanRuns(Step(w, moves[0]), moves[1..], end, keyFails)
  }

  /** Whatever heartbeat there is, or the monitor has seen, is the incarnation's own. */
  predicate OwnKey(w: World) {
    (w.heartbeat || w.status.Running? || (w.monitor.SawTtl? && w.monitor.alive)) ==> w.reported
  }

  lemma OwnKeyStep(w: World, m: Move)
    requires OwnKey(w) && Enabled(w, m) && (m.Relaunch? ==> !w.heartbeat)
    ensures OwnKey(Step(w, m)) && !Lapse(w, m)
  {
  }

  /** Waiting for the old key to be gone before each launch rules lapses out. */
  lemma {:induction false} CleanNeverLapses(w: World, moves: seq<Move>, end: World, keyFails: bool)
    requires OwnKey(w) && CleanRuns(w, moves, end, keyFails)
    ensures Runs(w, moves, end, false, keyFails)
    decreases |moves|
  {
    hide Step, OwnKey, Lapse;
    if moves != [] {
      OwnKeyStep(w, moves[0]);
      CleanNeverLapses(Step(w, moves[0]), moves[1..], end, keyFails);
    }
  }

  /** The teardown of a worker that was not interrupted: completion key, heartbeat, exit; one that was skips the key and
      exits with 143. A signal after the flag was tested leaves the heartbeat there. */
  lemma TeardownRuns(w: World, ok: bool, again: bool, rc: int, lapses: bool, keyFails: bool) returns (moves: seq<Move>)
    requires w.phase.Closing? && (ok || keyFails || w.interrupted)
    ensures Runs(w, moves, w.(phase := Gone(if w.interrupted then 143 else rc),
                              chose := w.chose || !w.interrupted, completed := w.completed || (!w.interrupted && ok),
                              heartbeat := w.heartbeat && again), lapses, keyFails)
  {
    var key := if w.interrupted then SkipKey else SetKey(ok);
    var clear := if again then Signal else ClearHeartbeat;
    var w1 := Step(w, key);
    var w2 := Step(w1, clear);
    var exit := Exit(if w.interrupted then 143 else rc);
    var w3 := Step(w2, exit);
    hide Runs;
    moves := [];
    RunsNowhere(w3, lapses, keyFails);
    RunsOn(w2, exit, moves, w3, lapses, keyFails);
    moves := [exit] + moves;
    RunsOn(w1, clear, moves, w3, lapses, keyFails);
    moves := [clear] + moves;
    RunsOn(w, key, moves, w3, lapses, keyFails);
    moves := [key] + moves;
  }

  // ---- When it fails ----

  /** Some run leads the monitor to replace an incarnation that chose to finish. */
  ghost predicate CanReplaceFinisher(lapses: bool, keyFails: bool) {
    exists stale, moves, end: World ::
      Runs(Launch(stale), moves, end, lapses, keyFails) && end.monitor.Stopping? && end.chose
  }

  /** Some run marks a bug done whose incarnation did not choose to finish. */
  ghost predicate CanFinishUnchosen(lapses: bool, keyFails: bool) {
    exists stale, moves, end: World ::
      Runs(Launch(stale), moves, end, lapses, keyFails) && end.status.Done? && !(end.chose && !end.interrupted)
  }

  lemma RunsNowhere(w: World, lapses: bool, keyFails: bool)
    ensures Runs(w, [], w, lapses, keyFails)
  {
  }

  lemma RunsOn(w: World, m: Move, rest: seq<Move>, end: World, lapses: bool, keyFails: bool)
    requires Enabled(w, m) && Allowed(w, m, lapses, keyFails) && Runs(Step(w, m), rest, end, lapses, keyFails)
    ensures Runs(w, [m] + rest, end, lapses, keyFails)
  {
  }

  lemma {:induction false} RunsJoin(w: World, ms: seq<Move>, v: World, ns: seq<Move>, end: World, lapses: bool,
                                    keyFails: bool)
    requires Runs(w, ms, v, lapses, keyFails) && Runs(v, ns, end, lapses, keyFails)
    ensures Runs(w, ms + ns, end, lapses, keyFails)
    decreases |ms|
  {
    hide Step;
    if ms == [] {
      assert ms + ns == ns;
    } else {
      RunsJoin(Step(w, ms[0]), ms[1..], v, ns, end, lapses, keyFails);
      assert (ms + ns)[1..] == ms[1..] + ns && (ms + ns)[0] == ms[0];
    }
  }

  /** A booting worker taken for running, its predecessor's key gone. */
  function Mistaken(): World { World(Booting, false, false, false, false, false, Running, Idle) }

  /** That worker finishing while it is being replaced. */
  function Overtaken(): World { World(Clearing, false, false, true, false, true, Running, Stopping) }

  lemma StaleKey(keyFails: bool) returns (moves: seq<Move>)
    ensures Runs(Launch(true), moves, Mistaken(), true, keyFails)
  {
    hide Runs;
    var w0 := Launch(true);
    var w1 := Step(w0, ReadTtl);
    var w2 := Step(w1, ReadProcess(false, false));
    var w3 := Step(w2, Expire);
    moves := [];
    RunsNowhere(w3, true, keyFails);
    RunsOn(w2, Expire, moves, w3, true, keyFails);
    moves := [Expire] + moves;
    RunsOn(w1, ReadProcess(false, false), moves, w3, true, keyFails);
    moves := [ReadProcess(false, false)] + moves;
    RunsOn(w0, ReadTtl, moves, w3, true, keyFails);
    moves := [ReadTtl] + moves;
  }

  lemma Overtaking(keyFails: bool) returns (moves: seq<Move>)
    ensures Runs(Mistaken(), moves, Overtaken(), true, keyFails)
  {
    hide Runs;
    var w0 := Mistaken();
    var w1 := Step(w0, ReadTtl);
    var w2 := Step(w1, ReadProcess(false, false));
    var w3 := Step(w2, ReadKey);
    var w4 := Step(w3, Begin);
    var w5 := Step(w4, End);
    var w6 := Step(w5, SetKey(true));
    moves := [];
    RunsNowhere(w6, true, keyFails);
    RunsOn(w5, SetKey(true), moves, w6, true, keyFails);
    moves := [SetKey(true)] + moves;
    RunsOn(w4, End, moves, w6, true, keyFails);
    moves := [End] + moves;
    RunsOn(w3, Begin, moves, w6, true, keyFails);
    moves := [Begin] + moves;
    RunsOn(w2, ReadKey, moves, w6, true, keyFails);
    moves := [ReadKey] + moves;
    RunsOn(w1, ReadProcess(false, false), moves, w6, true, keyFails);
    moves := [ReadProcess(false, false)] + moves;
    RunsOn(w0, ReadTtl, moves, w6, true, keyFails);
    moves := [ReadTtl] + moves;
  }

  lemma StaleKeyOvertaken(keyFails: bool) returns (moves: seq<Move>)
    ensures Runs(Launch(true), moves, Overtaken(), true, keyFails)
  {
    hide Runs;
    var ms := StaleKey(keyFails);
    var ns := Overtaking(keyFails);
    RunsJoin(Launch(true), ms, Mistaken(), ns, Overtaken(), true, keyFails);
    moves := ms + ns;
  }

  lemma KilledSuccessor(keyFails: bool) returns (moves: seq<Move>, end: World)
    ensures Runs(Overtaken(), moves, end, true, keyFails) && end.status.Done? && !end.chose
  {
    hide Runs;
    var w0 := Overtaken();
    var w1 := Step(w0, Kill);
    var w2 := Step(w1, Relaunch);
    var w3 := Step(w2, Kill);
    var w4 := Step(w3, ReadTtl);
    var w5 := Step(w4, ReadProcess(true, false));
    var w6 := Step(w5, ReadKey);
    moves, end := [], w6;
    RunsNowhere(w6, true, keyFails);
    RunsOn(w5, ReadKey, moves, w6, true, keyFails);
    moves := [ReadKey] + moves;
    RunsOn(w4, ReadProcess(true, false), moves, w6, true, keyFails);
    moves := [ReadProcess(true, false)] + moves;
    RunsOn(w3, ReadTtl, moves, w6, true, keyFails);
    moves := [ReadTtl] + moves;
    RunsOn(w2, Kill, moves, w6, true, keyFails);
    moves := [Kill] + moves;
    RunsOn(w1, Relaunch, moves, w6, true, keyFails);
    moves := [Relaunch] + moves;
    RunsOn(w0, Kill, moves, w6, true, keyFails);
    moves := [Kill] + moves;
  }

  /** A lapse makes a booting worker look dead; it may finish while it is being replaced, and the completion key it
      leaves then speaks for a successor that is killed. */
  lemma LapseFails(keyFails: bool)
    ensures CanReplaceFinisher(true, keyFails) && CanFinishUnchosen(true, keyFails)
  {
    hide Runs;
    var ms := StaleKeyOvertaken(keyFails);
    assert Runs(Launch(true), ms, Overtaken(), true, keyFails);
    var ns, end := KilledSuccessor(keyFails);
    RunsJoin(Launch(true), ms, Overtaken(), ns, end, true, keyFails);
    assert Runs(Launch(true), ms + ns, end, true, keyFails);
  }

  /** A worker that has reported and was seen. */
  function Watched(): World { World(Working, true, false, false, true, false, Running, Idle) }

  lemma Watching(lapses: bool) returns (moves: seq<Move>)
    ensures Runs(Launch(false), moves, Watched(), lapses, true)
  {
    hide Runs;
    var w0 := Launch(false);
    var w1 := Step(w0, Begin);
    var w2 := Step(w1, Beat);
    var w3 := Step(w2, ReadTtl);
    var w4 := Step(w3, ReadProcess(false, false));
    moves := [];
    RunsNowhere(w4, lapses, true);
    RunsOn(w3, ReadProcess(false, false), moves, w4, lapses, true);
    moves := [ReadProcess(false, false)] + moves;
    RunsOn(w2, ReadTtl, moves, w4, lapses, true);
    moves := [ReadTtl] + moves;
    RunsOn(w1, Beat, moves, w4, lapses, true);
    moves := [Beat] + moves;
    RunsOn(w0, Begin, moves, w4, lapses, true);
    moves := [Begin] + moves;
  }

  lemma LostKey(lapses: bool) returns (moves: seq<Move>, end: World)
    ensures Runs(Watched(), moves, end, lapses, true) && end.monitor.Stopping? && end.chose
  {
    hide Runs;
    var w0 := Watched();
    var w1 := Step(w0, End);
    var w2 := Step(w1, SetKey(false));
    var w3 := Step(w2, ClearHeartbeat);
    var w4 := Step(w3, ReadTtl);
    var w5 := Step(w4, ReadProcess(false, false));
    var w6 := Step(w5, ReadKey);
    moves, end := [], w6;
    RunsNowhere(w6, lapses, true);
    RunsOn(w5, ReadKey, moves, w6, lapses, true);
    moves := [ReadKey] + moves;
    RunsOn(w4, ReadProcess(false, false), moves, w6, lapses, true);
    moves := [ReadProcess(false, false)] + moves;
    RunsOn(w3, ReadTtl, moves, w6, lapses, true);
    moves := [ReadTtl] + moves;
    RunsOn(w2, ClearHeartbeat, moves, w6, lapses, true);
    moves := [ClearHeartbeat] + moves;
    RunsOn(w1, SetKey(false), moves, w6, lapses, true);
    moves := [SetKey(false)] + moves;
    RunsOn(w0, End, moves, w6, lapses, true);
    moves := [End] + moves;
  }

  /** A completion key that could not be set leaves a finished worker without a heartbeat looking dead. */
  lemma LostKeyReplacesFinisher(lapses: bool)
    ensures CanReplaceFinisher(lapses, true)
  {
    hide Runs;
    var ms := Watching(lapses);
    var ns, end := LostKey(lapses);
    RunsJoin(Launch(false), ms, Watched(), ns, end, lapses, true);
    assert Runs(Launch(false), ms + ns, end, lapses, true);
  }

  /** A finisher can be replaced exactly when a check may meet a lapse or the completion key may fail to be set. */
  lemma RaceFreeExactly(lapses: bool, keyFails: bool)
    ensures CanReplaceFinisher(lapses, keyFails) <==> lapses || keyFails
  {
    hide Runs;
    if lapses {
      LapseFails(keyFails);
    } else if keyFails {
      LostKeyReplacesFinisher(lapses);
    } else {
      forall stale, moves, end: World | Runs(Launch(stale), moves, end, lapses, keyFails)
        ensures !(end.monitor.Stopping? && end.chose)
      {
        FinisherKept(stale, moves, end);
      }
    }
  }

  /** A bug can be done without its incarnation having chosen to finish exactly when a check may meet a lapse. */
  lemma DoneExactly(lapses: bool, keyFails: bool)
    ensures CanFinishUnchosen(lapses, keyFails) <==> lapses
  {
    hide Runs;
    if lapses {
      LapseFails(keyFails);
    } else {
      forall stale, moves, end: World | Runs(Launch(stale), moves, end, lapses, keyFails)
        ensures !(end.status.Done? && !(end.chose && !end.interrupted))
      {
        DoneMeansChosen(stale, moves, end, keyFails);
      }
    }
  }

  // ---- The check as one look ----

  /** The three reads of one check with nothing in between. */
  function Checked(w: World, seen: bool, late: bool): World
    requires w.monitor.Idle? && IsActive(w.status) && (seen ==> w.phase.Gone?)
  {
    var v := Step(Step(w, ReadTtl), ReadProcess(seen, late));
    if v.monitor.NeedsKey? then Step(v, ReadKey) else v
  }

  /** What such a check finds, as the health monitor's single look. */
  function LookAt(w: World, seen: bool): Lifecycle.Obs
    requires seen ==> w.phase.Gone?
  {
    var rc := if seen then Lifecycle.Some(w.phase.rc) else Lifecycle.None;
    Lifecycle.Obs(if w.heartbeat then 1 else -2, rc, w.completed, 0.0, Lifecycle.None)
  }

  /** A check step by step comes to the verdict of the health monitor's decision on one entry. */
  lemma CheckIsJudge(w: World, seen: bool, e: Lifecycle.Entry, now: real)
    requires w.monitor.Idle? && IsActive(w.status) && (seen ==> w.phase.Gone?)
    requires e.status == if w.status.Warmup? then Lifecycle.Warmup else Lifecycle.Running
    ensures var v, judged := Checked(w, seen, now >= e.warmupDeadline), Lifecycle.Judge(e, LookAt(w, seen), now);
            && (judged.ToDone? <==> v.status.Done?)
            && (judged.ToFailed? <==> v.status.Failed?)
            && (judged.ToRestart? <==> v.monitor.Stopping?)
            && (judged.ToRunning? <==> w.status.Warmup? && v.status.Running?)
            && (judged.Leave? <==> v == w)
  {
  }

  // ---- A worker that did not finish is replaced, one that did is not ----

  /** The incarnation ended or was told to end before it chose to finish. */
  predicate Unfinished(w: World) {
    && !w.completed && !w.chose && !w.status.Done? && (w.interrupted || w.phase.Gone?)
    && (w.phase.Closing? || w.phase.Clearing? || w.phase.Leaving? || w.phase.Gone?)
    && (w.phase.Gone? ==> w.phase.rc == 143 || w.phase.rc == -9)
  }

  /** A kill, or a signal before the teardown tests the flag, of an incarnation that has not chosen to finish. */
  predicate CutsShort(w: World, m: Move) {
    Enabled(w, m) && !w.chose && (m.Kill? || (m.Signal? && (w.phase.Booting? || w.phase.Working? || w.phase.Closing?)))
  }

  lemma CutShort(w: World, m: Move)
    requires Inv(w) && CutsShort(w, m)
    ensures Unfinished(Step(w, m))
  {
  }

  lemma UnfinishedChecked(w: World, late: bool)
    requires Unfinished(w) && w.phase.Gone? && w.monitor.Idle? && IsActive(w.status)
    ensures Checked(w, true, late).monitor.Stopping?
  {
  }

  lemma UnfinishedStep(w: World, m: Move)
    requires Unfinished(w) && Enabled(w, m) && !m.Relaunch?
    ensures Unfinished(Step(w, m))
  {
  }

  lemma {:induction false} UnfinishedRun(w: World, moves: seq<Move>, end: World, lapses: bool, keyFails: bool)
    requires Unfinished(w) && Runs(w, moves, end, lapses, keyFails)
    requires forall i | 0 <= i < |moves| :: !moves[i].Relaunch?
    ensures Unfinished(end)
    decreases |moves|
  {
    hide Step, Enabled, Allowed, Unfinished;
    if moves != [] {
      UnfinishedStep(w, moves[0]);
      UnfinishedRun(Step(w, moves[0]), moves[1..], end, lapses, keyFails);
    }
  }

  /** An incarnation killed, or signalled before its teardown tests the flag, without having chosen to finish leaves no
      completion key and is never taken for done while it lasts, whatever else happens; and once it has exited, a check
      that sees the exit code sets out to replace it. */
  lemma UnfinishedIsReplaced(stale: bool, before: seq<Move>, w: World, m: Move, after: seq<Move>, end: World,
                             keyFails: bool, lapses: bool, late: bool)
    requires Runs(Launch(stale), before, w, false, keyFails) && CutsShort(w, m)
    requires Runs(Step(w, m), after, end, lapses, keyFails)
    requires forall i | 0 <= i < |after| :: !after[i].Relaunch?
    ensures !end.completed && !end.status.Done?
    ensures end.phase.Gone? ==> end.phase.rc == 143 || end.phase.rc == -9
    ensures end.phase.Gone? && end.monitor.Idle? && IsActive(end.status) ==> Checked(end, true, late).monitor.Stopping?
  {
    RunKeeps(Launch(stale), before, w, keyFails);
    CutShort(w, m);
    UnfinishedRun(Step(w, m), after, end, lapses, keyFails);
    if end.phase.Gone? && end.monitor.Idle? && IsActive(end.status) { UnfinishedChecked(end, late); }
    hide Runs, Step, Checked, Inv, Enabled, Unfinished;
  }

  /** A replacement that cannot be started leaves the bug failed. */
  lemma GivingUpFails(w: World)
    requires w.monitor.Stopping?
    ensures Enabled(w, GiveUp) && Step(w, GiveUp) == w.(status := Failed, monitor := Idle)
  {
  }

  /** A replacement starts as a first launch does, under whatever keys are there. */
  lemma ReplacementIsFresh(w: World)
    requires Enabled(w, Relaunch)
    ensures Step(w, Relaunch) == Launch(w.heartbeat).(completed := w.completed)
  {
  }

  /** An incarnation that chose to finish, its key set, is taken for done by the first check that sees it gone. */
  lemma FinisherIsDone(stale: bool, moves: seq<Move>, end: World, late: bool)
    requires Runs(Launch(stale), moves, end, false, false)
    requires end.chose && end.phase.Gone? && end.monitor.Idle? && IsActive(end.status)
    ensures Checked(end, true, late).status.Done?
  {
    RunKeeps(Launch(stale), moves, end, false);
  }
}
