/** Task conservation in distr-pull: the orchestrator's dispatcher, its recovery loop and every daemon, one Redis
    command at a time, interleaved in any order and stopped anywhere. */
module DistrPull {
  import opened Streams

  /** Where a coroutine took its task from: a new request, or a stream entry it has to acknowledge. */
  datatype Source = Request | From(key: Key, id: nat)

  /** What a coroutine does next. */
  datatype Fiber =
    | Choosing(src: Source, fields: Fields)             // asks for a daemon
    | Grouping(src: Source, fields: Fields, dest: Key)  // creates the target's group
    | Adding(src: Source, fields: Fields, dest: Key)    // adds the entry
    | Judging(src: Source, fields: Fields)              // a daemon checks its slots and memory
    | Launching(src: Source, fields: Fields)            // a daemon starts the worker process
    | Acking(src: Source, fields: Fields)               // the task is elsewhere: acknowledges its source

  datatype World = World(db: Db, fibers: map<nat, Fiber>, submitted: set<Task>, spawned: set<Task>)

  datatype Move =
    | Submit(f: nat, task: Task)
    | Pick(f: nat, choice: Choice)
    | Create(f: nat, ok: bool)
    | Append(f: nat)
    | Receive(key: Key, id: nat)
    | Retry(f: nat, key: Key, id: nat)  // retry, claim after a crash, or dead-daemon recovery
    | Grab(f: nat, daemon: string, id: nat)
    | Judge(f: nat, accept: bool, daemon: string, reason: string)
    | Launch(f: nat)
    | Confirm(f: nat)
    | Crash(f: nat)
    | Register(key: Key)
    | DropInbox(daemon: string)

  predicate Doing(w: World, f: nat, what: Fiber -> bool) { f in w.fibers && what(w.fibers[f]) }

  predicate Enabled(w: World, m: Move) {
    match m
    case Submit(f, _) => f !in w.fibers
    case Pick(f, _) => Doing(w, f, (x: Fiber) => x.Choosing?)
    case Create(f, _) => Doing(w, f, (x: Fiber) => x.Grouping?)
    case Append(f) => Doing(w, f, (x: Fiber) => x.Adding?)
    case Receive(k, id) => IsNext(w.db, k, id)
    case Retry(f, k, id) => f !in w.fibers && InPel(w.db, k, id)
    case Grab(f, d, id) => f !in w.fibers && InPel(w.db, Inbox(d), id)
    case Judge(f, _, d, _) => Doing(w, f, (x: Fiber) => x.Judging? && x.src.From? && x.src.key == Inbox(d))
    case Launch(f) => Doing(w, f, (x: Fiber) => x.Launching?)
    case Confirm(f) => Doing(w, f, (x: Fiber) => x.Acking? && x.src.From?)
    case Crash(f) => f in w.fibers
    case Register(_) => w.db.next > 0
    case DropInbox(_) => true
  }

  /** A coroutine with no free daemon: a new request creates the pending group first, a retried task is added as
      it is. */
  function Chosen(x: Fiber, choice: Choice): Fiber
    requires x.Choosing?
  {
    if choice.Daemon? then Grouping(x.src, FieldsOf(View(x.fields)), Inbox(choice.id))
    else if x.src.From? then Adding(x.src, x.fields, Pending)
    else Grouping(x.src, FieldsOf(View(x.fields)), Pending)
  }

  function Set(w: World, f: nat, x: Fiber): World { w.(fibers := w.fibers[f := x]) }

  function End(w: World, f: nat): World { w.(fibers := w.fibers - {f}) }

  function Step(w: World, m: Move): World
    requires Enabled(w, m) && w.db.next > 0
  {
    match m
    case Submit(f, t) => Set(w, f, Choosing(Request, FieldsOf(t)))
    case Pick(f, c) => Set(w, f, Chosen(w.fibers[f], c))
    case Create(f, ok) =>
      var x := w.fibers[f];
      Set(w.(db := if ok then EnsureGroup(w.db, x.dest) else w.db), f, Adding(x.src, x.fields, x.dest))
    case Append(f) =>
      var x := w.fibers[f];
      var v := w.(db := Add(w.db, x.dest, x.fields));
      if x.src.From? then Set(v, f, Acking(x.src, x.fields))
      else End(v.(submitted := v.submitted + {View(x.fields)}), f)
    case Receive(k, id) => w.(db := Deliver(w.db, k, id))
    case Retry(f, k, id) => Set(w, f, Choosing(From(k, id), At(w.db, k).items[id]))
    case Grab(f, d, id) => Set(w, f, Judging(From(Inbox(d), id), At(w.db, Inbox(d)).items[id]))
    case Judge(f, accept, d, reason) =>
      var x := w.fibers[f];
      Set(w, f, if accept then Launching(x.src, x.fields)
                else Grouping(x.src, RejectedFields(x.fields, d, reason), Rejected))
    case Launch(f) =>
      var x := w.fibers[f];
      Set(w.(spawned := w.spawned + {View(x.fields)}), f, Acking(x.src, x.fields))
    case Confirm(f) => End(w.(db := Ack(w.db, w.fibers[f].src.key, w.fibers[f].src.id)), f)
    case Crash(f) => End(w, f)
    case Register(k) => w.(db := EnsureGroup(w.db, k))
    case DropInbox(d) => w.(db := Delete(w.db, Inbox(d)))
  }

  /** A live entry newer than the bound carries the task. */
  ghost predicate Copy(db: Db, t: Task, above: int) {
    exists k: Key, id: nat :: Live(db, k, id) && id > above && View(At(db, k).items[id]) == t
  }

  ghost predicate Held(w: World, t: Task, above: int) { t in w.spawned || Copy(w.db, t, above) }

  /** The tasks a move puts at risk: one added to a stream that has no group, and those owed by an inbox that is
      deleted. No other move does. */
  ghost function AtRisk(w: World, m: Move): set<Task>
    requires Enabled(w, m)
  {
    match m
    case Append(f) => if HasGroup(w.db, w.fibers[f].dest) then {} else {View(w.fibers[f].fields)}
    case DropInbox(d) =>
      set id | id in At(w.db, Inbox(d)).items && Live(w.db, Inbox(d), id) :: View(At(w.db, Inbox(d)).items[id])
    case _ => {}
  }

  /** The fiber's source entry, while it is owed, carries the fiber's task; and a task about to be acknowledged is
      already held elsewhere, by something newer, or was put at risk. */
  ghost predicate FiberOk(w: World, risked: set<Task>, x: Fiber) {
    && (x.src.From? ==>
          && x.src.id < w.db.next
          && View(x.fields) in w.submitted
          && (Live(w.db, x.src.key, x.src.id) ==> View(At(w.db, x.src.key).items[x.src.id]) == View(x.fields)))
    && (x.Judging? || x.Launching? || x.Acking? ==> x.src.From?)
    && (x.Acking? ==> View(x.fields) in risked || Held(w, View(x.fields), x.src.id))
  }

  /** Nothing is made up: every entry and every worker carries a task that was submitted, all five fields of it. */
  ghost predicate Genuine(w: World) {
    && w.spawned <= w.submitted
    && forall k, id | Live(w.db, k, id) :: View(At(w.db, k).items[id]) in w.submitted
  }

  ghost predicate Conserved(w: World, risked: set<Task>) {
    forall t | t in w.submitted :: t in risked || Held(w, t, -1)
  }

  ghost predicate Inv(w: World, risked: set<Task>) {
    && WellFormed(w.db) && Genuine(w) && Conserved(w, risked)
    && forall f | f in w.fibers :: FiberOk(w, risked, w.fibers[f])
  }

  /** The live entries of a are live in b with the same fields, but for some that carry risked tasks. */
  ghost predicate KeepsBar(a: Db, b: Db, risked: set<Task>) {
    forall k, id | Live(a, k, id) ::
      (Live(b, k, id) && At(b, k).items[id] == At(a, k).items[id]) || View(At(a, k).items[id]) in risked
  }

  lemma HeldKept(w: World, v: World, risked: set<Task>, t: Task, above: int)
    requires KeepsBar(w.db, v.db, risked) && w.spawned <= v.spawned && Held(w, t, above)
    ensures t in risked || Held(v, t, above)
  {
    if t !in w.spawned {
      var k: Key, id: nat :| Live(w.db, k, id) && id > above && View(At(w.db, k).items[id]) == t;
      assert (Live(v.db, k, id) && At(v.db, k).items[id] == At(w.db, k).items[id]) || t in risked;
    }
  }

  /** A command that makes no live entry up and takes none away but risked ones keeps the invariant. */
  lemma DbStep(w: World, v: World, risked: set<Task>, more: set<Task>)
    requires Inv(w, risked) && WellFormed(v.db) && KeepsBar(w.db, v.db, risked + more)
    requires v == w.(db := v.db) && w.db.next <= v.db.next
    requires forall k, id | Live(v.db, k, id) :: Live(w.db, k, id) && At(v.db, k).items[id] == At(w.db, k).items[id]
    ensures Inv(v, risked + more)
  {
    forall t | t in v.submitted ensures t in risked + more || Held(v, t, -1) {
      if t !in risked { HeldKept(w, v, risked + more, t, -1); }
    }
    forall f | f in v.fibers ensures FiberOk(v, risked + more, v.fibers[f]) {
      var x := w.fibers[f];
      assert FiberOk(w, risked, x);
      if x.Acking? && View(x.fields) !in risked { HeldKept(w, v, risked + more, View(x.fields), x.src.id); }
    }
  }

  lemma Same(risked: set<Task>)
    ensures risked + {} == risked
  {
  }

  lemma CreateKeeps(w: World, risked: set<Task>, k: Key)
    requires Inv(w, risked)
    ensures Inv(w.(db := EnsureGroup(w.db, k)), risked)
  {
    EnsureGroupKeeps(w.db, k);
    DbStep(w, w.(db := EnsureGroup(w.db, k)), risked, {});
    Same(risked);
  }

  lemma ReceiveKeeps(w: World, risked: set<Task>, k: Key, id: nat)
    requires Inv(w, risked) && IsNext(w.db, k, id)
    ensures Inv(w.(db := Deliver(w.db, k, id)), risked)
  {
    DeliverKeeps(w.db, k, id);
    DbStep(w, w.(db := Deliver(w.db, k, id)), risked, {});
    Same(risked);
  }

  lemma DropKeeps(w: World, risked: set<Task>, d: string)
    requires Inv(w, risked)
    ensures Inv(Step(w, DropInbox(d)), risked + AtRisk(w, DropInbox(d)))
  {
    DeletedEntries(w.db, Inbox(d));
    var more := AtRisk(w, DropInbox(d));
    forall k, id | Live(w.db, k, id)
      ensures Live(Delete(w.db, Inbox(d)), k, id) || View(At(w.db, k).items[id]) in risked + more
    {
    }
    DbStep(w, w.(db := Delete(w.db, Inbox(d))), risked, more);
  }

  /** Setting one fiber that is fit for the world. */
  lemma SetKeeps(w: World, risked: set<Task>, f: nat, x: Fiber)
    requires Inv(w, risked) && FiberOk(w, risked, x)
    ensures Inv(Set(w, f, x), risked)
  {
  }

  lemma EndKeeps(w: World, risked: set<Task>, f: nat)
    requires Inv(w, risked)
    ensures Inv(End(w, f), risked)
  {
  }

  /** XADD: with a group the new entry is a copy newer than everything before it; without one its task is at risk. */
  lemma AddHolds(w: World, risked: set<Task>, k: Key, fields: Fields)
    requires Inv(w, risked)
    ensures var v := w.(db := Add(w.db, k, fields), submitted := w.submitted + {View(fields)});
            var more := if HasGroup(w.db, k) then {} else {View(fields)};
            && Inv(v, risked + more)
            && (View(fields) in risked + more || Copy(v.db, View(fields), w.db.next - 1))
            && forall j: Key, n: nat | n < w.db.next && Live(v.db, j, n) ::
                 Live(w.db, j, n) && At(v.db, j).items[n] == At(w.db, j).items[n]
  {
    var v := w.(db := Add(w.db, k, fields), submitted := w.submitted + {View(fields)});
    var more := if HasGroup(w.db, k) then {} else {View(fields)};
    AddKeeps(w.db, k, fields);
    AddedEntries(w.db, k, fields);
    assert HasGroup(w.db, k) ==> Live(v.db, k, w.db.next) && View(At(v.db, k).items[w.db.next]) == View(fields);
    forall t | t in v.submitted ensures t in risked + more || Held(v, t, -1) {
      if t in w.submitted && t !in risked { HeldKept(w, v, risked + more, t, -1); }
    }
    forall g | g in v.fibers ensures FiberOk(v, risked + more, v.fibers[g]) {
      var y := v.fibers[g];
      assert FiberOk(w, risked, y);
      if y.Acking? && View(y.fields) !in risked { HeldKept(w, v, risked + more, View(y.fields), y.src.id); }
    }
  }

  lemma AppendKeeps(w: World, risked: set<Task>, f: nat)
    requires Inv(w, risked) && Enabled(w, Append(f))
    ensures Inv(Step(w, Append(f)), risked + AtRisk(w, Append(f)))
  {
    var x := w.fibers[f];
    assert FiberOk(w, risked, x);
    AddHolds(w, risked, x.dest, x.fields);
    var v := w.(db := Add(w.db, x.dest, x.fields), submitted := w.submitted + {View(x.fields)});
    var more := risked + AtRisk(w, Append(f));
    if x.src.From? {
      assert v.submitted == w.submitted;
      Newer(v, View(x.fields), w.db.next - 1, x.src.id);
      SetKeeps(v, more, f, Acking(x.src, x.fields));
    } else {
      EndKeeps(v, more, f);
    }
  }

  lemma Newer(w: World, t: Task, a: int, b: int)
    requires b <= a
    ensures Copy(w.db, t, a) ==> Held(w, t, b)
  {
  }

  lemma LaunchKeeps(w: World, risked: set<Task>, f: nat)
    requires Inv(w, risked) && Enabled(w, Launch(f))
    ensures Inv(Step(w, Launch(f)), risked)
  {
    var x := w.fibers[f];
    assert FiberOk(w, risked, x);
    var v := w.(spawned := w.spawned + {View(x.fields)});
    forall t | t in v.submitted ensures t in risked || Held(v, t, -1) { assert t in risked || Held(w, t, -1); }
    forall g | g in v.fibers ensures FiberOk(v, risked, v.fibers[g]) {
      var y := v.fibers[g];
      assert FiberOk(w, risked, y);
      assert Held(w, View(y.fields), if y.src.From? then y.src.id else -1) ==>
               Held(v, View(y.fields), if y.src.From? then y.src.id else -1);
    }
    SetKeeps(v, risked, f, Acking(x.src, x.fields));
  }

  /** Acknowledging (k, id), whose task is held by something newer or at risk, takes no other copy away: whoever relied
      on (k, id) can rely on the newer one. */
  lemma HeldPast(w: World, risked: set<Task>, k: Key, id: nat, t: Task, above: int)
    requires Inv(w, risked) && Held(w, t, above)
    requires Live(w.db, k, id) ==>
               View(At(w.db, k).items[id]) in risked || Held(w, View(At(w.db, k).items[id]), id)
    ensures t in risked || Held(w.(db := Ack(w.db, k, id)), t, above)
  {
    var b := Ack(w.db, k, id);
    AckKeeps(w.db, k, id);
    if t !in w.spawned && t !in risked {
      var j: Key, n: nat :| Live(w.db, j, n) && n > above && View(At(w.db, j).items[n]) == t;
      if (j, n) == (k, id) {
        assert Held(w, t, id);
        var i: Key, m: nat :| Live(w.db, i, m) && m > id && View(At(w.db, i).items[m]) == t;
        assert Live(b, i, m);
      } else {
        assert Live(b, j, n);
      }
    }
  }

  lemma ConfirmKeeps(w: World, risked: set<Task>, f: nat)
    requires Inv(w, risked) && Enabled(w, Confirm(f))
    ensures Inv(Step(w, Confirm(f)), risked)
  {
    var x := w.fibers[f];
    assert FiberOk(w, risked, x);
    var k, id := x.src.key, x.src.id;
    var v := w.(db := Ack(w.db, k, id));
    AckKeeps(w.db, k, id);
    forall t | t in v.submitted ensures t in risked || Held(v, t, -1) {
      if t !in risked { HeldPast(w, risked, k, id, t, -1); }
    }
    forall g | g in v.fibers ensures FiberOk(v, risked, v.fibers[g]) {
      var y := v.fibers[g];
      assert FiberOk(w, risked, y);
      if y.Acking? && View(y.fields) !in risked { HeldPast(w, risked, k, id, View(y.fields), y.src.id); }
    }
    EndKeeps(v, risked, f);
  }

  lemma FiberKeeps(w: World, risked: set<Task>, m: Move)
    requires Inv(w, risked) && Enabled(w, m)
    requires m.Submit? || m.Pick? || m.Retry? || m.Grab? || m.Judge?
    ensures Inv(Step(w, m), risked)
  {
    match m
    case Submit(f, t) => SetKeeps(w, risked, f, Choosing(Request, FieldsOf(t)));
    case Pick(f, c) =>
      assert FiberOk(w, risked, w.fibers[f]);
      SetKeeps(w, risked, f, Chosen(w.fibers[f], c));
    case Retry(f, k, id) =>
      assert Live(w.db, k, id);
      SetKeeps(w, risked, f, Choosing(From(k, id), At(w.db, k).items[id]));
    case Grab(f, d, id) =>
      assert Live(w.db, Inbox(d), id);
      SetKeeps(w, risked, f, Judging(From(Inbox(d), id), At(w.db, Inbox(d)).items[id]));
    case Judge(f, accept, d, reason) =>
      var x := w.fibers[f];
      assert FiberOk(w, risked, x);
      SetKeeps(w, risked, f, if accept then Launching(x.src, x.fields)
                             else Grouping(x.src, RejectedFields(x.fields, d, reason), Rejected));
  }

  lemma CreatedKeeps(w: World, risked: set<Task>, f: nat, ok: bool)
    requires Inv(w, risked) && Enabled(w, Create(f, ok))
    ensures Inv(Step(w, Create(f, ok)), risked)
  {
    var x := w.fibers[f];
    assert FiberOk(w, risked, x);
    CreateKeeps(w, risked, x.dest);
    var v := if ok then w.(db := EnsureGroup(w.db, x.dest)) else w;
    assert Inv(v, risked) && FiberOk(v, risked, v.fibers[f]);
    SetKeeps(v, risked, f, Adding(x.src, x.fields, x.dest));
  }

  /** Every step keeps the invariant, with the tasks it puts at risk added. */
  lemma StepKeeps(w: World, risked: set<Task>, m: Move)
    requires Inv(w, risked) && Enabled(w, m)
    ensures Inv(Step(w, m), risked + AtRisk(w, m))
  {
    hide Inv, Step;
    Same(risked);
    NextPositive(w, risked);
    match m
    case Create(f, ok) => CreatedKeeps(w, risked, f, ok);
    case Append(f) => AppendKeeps(w, risked, f);
    case Receive(k, id) => ReceiveKeeps(w, risked, k, id); ReceiveIs(w, k, id);
    case Launch(f) => LaunchKeeps(w, risked, f);
    case Confirm(f) => ConfirmKeeps(w, risked, f);
    case Crash(f) => EndKeeps(w, risked, f); CrashIs(w, f);
    case Register(k) => CreateKeeps(w, risked, k); RegisterIs(w, k);
    case DropInbox(d) => DropKeeps(w, risked, d);
    case _ => FiberKeeps(w, risked, m);
  }

  lemma NextPositive(w: World, risked: set<Task>)
    requires Inv(w, risked)
    ensures w.db.next > 0
  {
  }

  lemma ReceiveIs(w: World, k: Key, id: nat)
    requires w.db.next > 0 && Enabled(w, Receive(k, id))
    ensures Step(w, Receive(k, id)) == w.(db := Deliver(w.db, k, id))
  {
  }

  lemma CrashIs(w: World, f: nat)
    requires w.db.next > 0 && Enabled(w, Crash(f))
    ensures Step(w, Crash(f)) == End(w, f)
  {
  }

  lemma RegisterIs(w: World, k: Key)
    requires w.db.next > 0
    ensures Step(w, Register(k)) == w.(db := EnsureGroup(w.db, k))
  {
  }

  /** A run of the whole system. */
  ghost predicate Runs(w: World, moves: seq<Move>, end: World)
    decreases |moves|
  {
    if moves == [] then end == w
    else w.db.next > 0 && Enabled(w, moves[0]) && Runs(Step(w, moves[0]), moves[1..], end)
  }

  /** The tasks a run puts at risk. */
  ghost function Risked(w: World, moves: seq<Move>): set<Task>
    decreases |moves|
  {
    if moves == [] || w.db.next == 0 || !Enabled(w, moves[0]) then {}
    else AtRisk(w, moves[0]) + Risked(Step(w, moves[0]), moves[1..])
  }

  function Empty(next: nat): World { World(Db(map[], next), map[], {}, {}) }

  lemma {:induction false} RunKeeps(w: World, risked: set<Task>, moves: seq<Move>, end: World)
    requires Inv(w, risked) && Runs(w, moves, end)
    ensures Inv(end, risked + Risked(w, moves))
    decreases |moves|
  {
    hide Inv, Step, Enabled, AtRisk;
    if moves == [] {
      Same(risked);
    } else {
      StepKeeps(w, risked, moves[0]);
      RunKeeps(Step(w, moves[0]), risked + AtRisk(w, moves[0]), moves[1..], end);
      assert risked + Risked(w, moves)
          == risked + AtRisk(w, moves[0]) + Risked(Step(w, moves[0]), moves[1..]);
    }
  }

  /** Task conservation and payload preservation: after any run from empty streams, with any crashes and failures,
      every submitted task that no move put at risk has been started, or some stream still owes an entry carrying its
      five fields; and whatever was started or is owed was submitted with those very fields. */
  lemma TasksConserved(next: nat, moves: seq<Move>, end: World)
    requires next > 0 && Runs(Empty(next), moves, end)
    ensures forall t | t in end.submitted && t !in Risked(Empty(next), moves) :: t in end.spawned || Copy(end.db, t, -1)
    ensures end.spawned <= end.submitted
    ensures forall k, id | Live(end.db, k, id) :: View(At(end.db, k).items[id]) in end.submitted
  {
    var risked := Risked(Empty(next), moves);
    RunKeeps(Empty(next), {}, moves, end);
    assert {} + risked == risked;
    forall t | t in end.submitted && t !in risked ensures t in end.spawned || Copy(end.db, t, -1) {
      assert Held(end, t, -1);
    }
  }

  // ---- What keeps a run from putting tasks at risk ----

  /** Nothing is owed in d's inbox and nobody is about to add to it. */
  ghost predicate Quiet(w: World, d: string) {
    && (forall id :: !Live(w.db, Inbox(d), id))
    && (forall f | f in w.fibers :: !(w.fibers[f].Adding? && w.fibers[f].dest == Inbox(d)))
  }

  /** An inbox is deleted only when quiet; a retried task goes back to pending only once the pending group exists; a
      group creation that failed did so because the group is there. */
  ghost predicate Careful(w: World, m: Move) {
    match m
    case DropInbox(d) => Quiet(w, d)
    case Pick(f, c) => Doing(w, f, (x: Fiber) => x.src.From?) && c.Nobody? ==> HasGroup(w.db, Pending)
    case Create(f, ok) => ok || (f in w.fibers && w.fibers[f].Grouping? && HasGroup(w.db, w.fibers[f].dest))
    case _ => true
  }

  ghost predicate CarefulRuns(w: World, moves: seq<Move>)
    decreases |moves|
  {
    moves == [] || (w.db.next > 0 && Enabled(w, moves[0]) && Careful(w, moves[0])
                    && CarefulRuns(Step(w, moves[0]), moves[1..]))
  }

  /** Whoever is about to add to a stream finds its group. */
  ghost predicate Grouped(w: World) {
    forall f | f in w.fibers && w.fibers[f].Adding? :: HasGroup(w.db, w.fibers[f].dest)
  }

  lemma CarefulStep(w: World, m: Move)
    requires Grouped(w) && w.db.next > 0 && Enabled(w, m) && Careful(w, m)
    ensures AtRisk(w, m) == {} && Grouped(Step(w, m))
  {
    if m.Pick? {
      assert w.fibers[m.f].Choosing?;
    }
  }

  /** A careful run puts nothing at risk, so by TasksConserved it loses nothing. */
  lemma {:induction false} CarefulRisksNothing(w: World, moves: seq<Move>)
    requires Grouped(w) && CarefulRuns(w, moves)
    ensures Risked(w, moves) == {}
    decreases |moves|
  {
    hide Step, Enabled, AtRisk, Careful, Grouped;
    if moves != [] {
      CarefulStep(w, moves[0]);
      CarefulRisksNothing(Step(w, moves[0]), moves[1..]);
    }
  }

  // ---- When a task at risk is lost ----

  /** An entry added to a stream is owed, now and after the group is created, exactly when the group was there
      first: a group created with "$" starts after it. */
  lemma GroupFirst(db: Db, k: Key, f: Fields)
    requires WellFormed(db)
    ensures Live(EnsureGroup(Add(db, k, f), k), k, db.next) <==> HasGroup(db, k)
  {
  }

  /** A copy of the task other than the entry (k, id). */
  ghost predicate Elsewhere(db: Db, t: Task, k: Key, id: nat) {
    exists j: Key, n: nat :: Live(db, j, n) && (j, n) != (k, id) && View(At(db, j).items[n]) == t
  }

  /** One entry retried with no daemon free, and the pending group created afterwards at the latest. */
  function RetryAlone(w: World, f: nat, k: Key, id: nat): World
    requires w.db.next > 0 && f !in w.fibers && InPel(w.db, k, id)
  {
    var w1 := Step(w, Retry(f, k, id));
    var w2 := Step(w1, Pick(f, Nobody));
    var w3 := Step(w2, Append(f));
    var w4 := Step(w3, Confirm(f));
    Step(w4, Register(Pending))
  }

  function Moved(db: Db, k: Key, id: nat): Db
    requires id in At(db, k).items && db.next > 0
  {
    EnsureGroup(Ack(Add(db, Pending, At(db, k).items[id]), k, id), Pending)
  }

  lemma RetriedDb(w: World, f: nat, k: Key, id: nat)
    requires WellFormed(w.db) && f !in w.fibers && InPel(w.db, k, id)
    ensures var v := RetryAlone(w, f, k, id); v.db == Moved(w.db, k, id) && v.spawned == w.spawned
  {
  }

  lemma RetriedEntries(db: Db, k: Key, id: nat)
    requires WellFormed(db) && InPel(db, k, id)
    ensures WellFormed(Moved(db, k, id))
    ensures var c := Moved(db, k, id);
            && (forall j: Key, n: nat | Live(c, j, n) ::
                  ((j, n) == (Pending, db.next) && HasGroup(db, Pending)) || (Live(db, j, n) && (j, n) != (k, id)))
            && (forall j: Key, n: nat | Live(db, j, n) && (j, n) != (k, id) ::
                  Live(c, j, n) && At(c, j).items[n] == At(db, j).items[n])
            && (HasGroup(db, Pending) ==>
                  Live(c, Pending, db.next) && At(c, Pending).items[db.next] == At(db, k).items[id])
  {
    var f := At(db, k).items[id];
    var a := Add(db, Pending, f);
    AddKeeps(db, Pending, f);
    AddedEntries(db, Pending, f);
    AddedPel(db, f, k, id);
    hide Add, Ack, EnsureGroup, InPel, HasGroup, WellFormed, Live, At;
    AckedEntries(a, k, id);
    EnsuredEntries(Ack(a, k, id), Pending);
  }

  lemma AddedPel(db: Db, f: Fields, k: Key, id: nat)
    requires WellFormed(db) && InPel(db, k, id)
    ensures InPel(Add(db, Pending, f), k, id) && (k, id) != (Pending, db.next)
    ensures At(Add(db, Pending, f), Pending).items[db.next] == f
  {
  }

  /** Without the pending group the retried task is still held exactly when something else holds it already: the
      guard in Careful is the one the code misses when the first recovery tick finds a dead daemon. */
  lemma RetryNeedsPendingGroup(w: World, f: nat, k: Key, id: nat)
    requires WellFormed(w.db) && f !in w.fibers && InPel(w.db, k, id)
    ensures var t := View(At(w.db, k).items[id]);
            Held(RetryAlone(w, f, k, id), t, -1) <==>
              HasGroup(w.db, Pending) || t in w.spawned || Elsewhere(w.db, t, k, id)
  {
    var t := View(At(w.db, k).items[id]);
    var db := RetryAlone(w, f, k, id).db;
    RetriedDb(w, f, k, id);
    RetriedEntries(w.db, k, id);
    if HasGroup(w.db, Pending) {
      assert Live(db, Pending, w.db.next);
    } else if Elsewhere(w.db, t, k, id) {
      var j: Key, n: nat :| Live(w.db, j, n) && (j, n) != (k, id) && View(At(w.db, j).items[n]) == t;
      assert Live(db, j, n);
    }
    if Copy(db, t, -1) && !HasGroup(w.db, Pending) {
      var j: Key, n: nat :| Live(db, j, n) && n > -1 && View(At(db, j).items[n]) == t;
      assert Live(w.db, j, n);
    }
  }

  /** A new request whose group creation failed, the group made later at the latest. */
  function AddUngrouped(w: World, f: nat): World
    requires w.db.next > 0 && Enabled(w, Create(f, false))
  {
    var w1 := Step(w, Create(f, false));
    Step(Step(w1, Append(f)), Register(w.fibers[f].dest))
  }

  lemma UngroupedEntries(db: Db, k: Key, f: Fields)
    requires WellFormed(db)
    ensures var b := EnsureGroup(Add(db, k, f), k);
            && (forall j: Key, n: nat :: Live(b, j, n) <==>
                  ((j, n) == (k, db.next) && HasGroup(db, k)) || Live(db, j, n))
            && (forall j: Key, n: nat | Live(db, j, n) :: At(b, j).items[n] == At(db, j).items[n])
            && At(b, k).items[db.next] == f
  {
    var a := Add(db, k, f);
    AddKeeps(db, k, f);
    AddedEntries(db, k, f);
    EnsureGroupKeeps(a, k);
    assert forall j: Key, n: nat | Live(EnsureGroup(a, k), j, n) :: Live(a, j, n);
  }

  /** When XGROUP CREATE fails for another reason than BUSYGROUP, which the code takes for one, and XADD then succeeds,
      the task is held exactly when the group was there after all or something else holds it. */
  lemma FailedCreationLoses(w: World, f: nat)
    requires WellFormed(w.db) && Enabled(w, Create(f, false)) && w.fibers[f].src.Request?
    ensures var t := View(w.fibers[f].fields); var k := w.fibers[f].dest;
            Held(AddUngrouped(w, f), t, -1) <==> HasGroup(w.db, k) || t in w.spawned || Copy(w.db, t, -1)
  {
    var x := w.fibers[f];
    var t, b := View(x.fields), EnsureGroup(Add(w.db, x.dest, x.fields), x.dest);
    assert AddUngrouped(w, f).db == b && AddUngrouped(w, f).spawned == w.spawned;
    UngroupedEntries(w.db, x.dest, x.fields);
    hide Live, At, View, EnsureGroup, Add, AddUngrouped, HasGroup;
    if HasGroup(w.db, x.dest) {
      assert Live(b, x.dest, w.db.next);
    } else if Copy(w.db, t, -1) {
      var j: Key, n: nat :| Live(w.db, j, n) && n > -1 && View(At(w.db, j).items[n]) == t;
      assert Live(b, j, n);
    }
    if Copy(b, t, -1) && !HasGroup(w.db, x.dest) {
      var j: Key, n: nat :| Live(b, j, n) && n > -1 && View(At(b, j).items[n]) == t;
      assert Live(w.db, j, n);
    }
  }

  /** Deleting an inbox leaves a task held exactly when it was started or some other stream owes it. */
  lemma DropLoses(w: World, d: string, t: Task)
    requires WellFormed(w.db)
    ensures Held(Step(w, DropInbox(d)), t, -1) <==>
            t in w.spawned
            || exists k: Key, id: nat :: Live(w.db, k, id) && k != Inbox(d) && View(At(w.db, k).items[id]) == t
  {
    var v := Step(w, DropInbox(d));
    DeletedEntries(w.db, Inbox(d));
    if k: Key, id: nat :| Live(w.db, k, id) && k != Inbox(d) && View(At(w.db, k).items[id]) == t {
      assert Live(v.db, k, id);
    }
    if Copy(v.db, t, -1) {
      var k: Key, id: nat :| Live(v.db, k, id) && id > -1 && View(At(v.db, k).items[id]) == t;
      assert Live(w.db, k, id) && k != Inbox(d);
    }
  }

  // ---- Runs that lose a task ----

  lemma {:induction false} RunsJoin(w: World, ms: seq<Move>, v: World, ns: seq<Move>, end: World)
    requires Runs(w, ms, v) && Runs(v, ns, end)
    ensures Runs(w, ms + ns, end)
    decreases |ms|
  {
    hide Step, Enabled;
    if ms == [] {
      assert ms + ns == ns;
    } else {
      RunsJoin(Step(w, ms[0]), ms[1..], v, ns, end);
      assert (ms + ns)[1..] == ms[1..] + ns && (ms + ns)[0] == ms[0];
    }
  }

  lemma OneMove(w: World, m: Move)
    requires w.db.next > 0 && Enabled(w, m)
    ensures Runs(w, [m], Step(w, m))
  {
    assert [m][1..] == [];
  }

  /** The four moves that dispatch a request. */
  lemma Dispatching(w: World, f: nat, t: Task, d: string) returns (moves: seq<Move>)
    requires w.db.next > 0 && f !in w.fibers
    ensures Runs(w, moves, w.(db := Add(EnsureGroup(w.db, Inbox(d)), Inbox(d), FieldsOf(t)),
                              submitted := w.submitted + {t}))
  {
    var w1 := Step(w, Submit(f, t));
    var w2 := Step(w1, Pick(f, Daemon(d)));
    var w3 := Step(w2, Create(f, true));
    var w4 := Step(w3, Append(f));
    assert w4.fibers == w.fibers;
    OneMove(w, Submit(f, t));
    OneMove(w1, Pick(f, Daemon(d)));
    OneMove(w2, Create(f, true));
    OneMove(w3, Append(f));
    hide Runs, Step;
    RunsJoin(w, [Submit(f, t)], w1, [Pick(f, Daemon(d))], w2);
    RunsJoin(w, [Submit(f, t)] + [Pick(f, Daemon(d))], w2, [Create(f, true)], w3);
    moves := [Submit(f, t)] + [Pick(f, Daemon(d))] + [Create(f, true)];
    RunsJoin(w, moves, w3, [Append(f)], w4);
    moves := moves + [Append(f)];
  }

  /** The five moves that recover an entry to daemon e. */
  lemma Recovering(w: World, f: nat, k: Key, id: nat, e: string) returns (moves: seq<Move>)
    requires w.db.next > 0 && f !in w.fibers && InPel(w.db, k, id)
    ensures var fields := FieldsOf(View(At(w.db, k).items[id]));
            Runs(w, moves, w.(db := Ack(Add(EnsureGroup(w.db, Inbox(e)), Inbox(e), fields), k, id)))
  {
    var w1 := Step(w, Retry(f, k, id));
    var w2 := Step(w1, Pick(f, Daemon(e)));
    var w3 := Step(w2, Create(f, true));
    var w4 := Step(w3, Append(f));
    var w5 := Step(w4, Confirm(f));
    assert w5.fibers == w.fibers;
    OneMove(w, Retry(f, k, id));
    OneMove(w1, Pick(f, Daemon(e)));
    OneMove(w2, Create(f, true));
    OneMove(w3, Append(f));
    OneMove(w4, Confirm(f));
    hide Runs, Step;
    RunsJoin(w, [Retry(f, k, id)], w1, [Pick(f, Daemon(e))], w2);
    moves := [Retry(f, k, id)] + [Pick(f, Daemon(e))];
    RunsJoin(w, moves, w2, [Create(f, true)], w3);
    moves := moves + [Create(f, true)];
    RunsJoin(w, moves, w3, [Append(f)], w4);
    moves := moves + [Append(f)];
    RunsJoin(w, moves, w4, [Confirm(f)], w5);
    moves := moves + [Confirm(f)];
  }

  /** The four moves that put an entry back to the pending queue. */
  lemma PuttingBack(w: World, f: nat, k: Key, id: nat) returns (moves: seq<Move>)
    requires w.db.next > 0 && f !in w.fibers && InPel(w.db, k, id)
    ensures Runs(w, moves, w.(db := Ack(Add(w.db, Pending, At(w.db, k).items[id]), k, id)))
  {
    var w1 := Step(w, Retry(f, k, id));
    var w2 := Step(w1, Pick(f, Nobody));
    var w3 := Step(w2, Append(f));
    var w4 := Step(w3, Confirm(f));
    assert w4.fibers == w.fibers;
    OneMove(w, Retry(f, k, id));
    OneMove(w1, Pick(f, Nobody));
    OneMove(w2, Append(f));
    OneMove(w3, Confirm(f));
    hide Runs, Step;
    RunsJoin(w, [Retry(f, k, id)], w1, [Pick(f, Nobody)], w2);
    moves := [Retry(f, k, id)] + [Pick(f, Nobody)];
    RunsJoin(w, moves, w2, [Append(f)], w3);
    moves := moves + [Append(f)];
    RunsJoin(w, moves, w3, [Confirm(f)], w4);
    moves := moves + [Confirm(f)];
  }

  /** The three moves of a recovery that raises before it adds anything. */
  lemma GivingUp(w: World, f: nat, k: Key, id: nat, e: string) returns (moves: seq<Move>)
    requires w.db.next > 0 && f !in w.fibers && InPel(w.db, k, id)
    ensures Runs(w, moves, w)
  {
    var w1 := Step(w, Retry(f, k, id));
    var w2 := Step(w1, Pick(f, Daemon(e)));
    var w3 := Step(w2, Crash(f));
    assert w3.fibers == w.fibers;
    OneMove(w, Retry(f, k, id));
    OneMove(w1, Pick(f, Daemon(e)));
    OneMove(w2, Crash(f));
    hide Runs, Step;
    RunsJoin(w, [Retry(f, k, id)], w1, [Pick(f, Daemon(e))], w2);
    RunsJoin(w, [Retry(f, k, id)] + [Pick(f, Daemon(e))], w2, [Crash(f)], w3);
    moves := [Retry(f, k, id)] + [Pick(f, Daemon(e))] + [Crash(f)];
  }

  /** The moves of a daemon that turns down an entry of its inbox. */
  lemma TurningDown(w: World, f: nat, d: string, id: nat, reason: string, made: bool) returns (moves: seq<Move>)
    requires w.db.next > 0 && f !in w.fibers && InPel(w.db, Inbox(d), id)
    ensures var fields := RejectedFields(At(w.db, Inbox(d)).items[id], d, reason);
            var db := if made then EnsureGroup(w.db, Rejected) else w.db;
            Runs(w, moves, w.(db := Ack(Add(db, Rejected, fields), Inbox(d), id)))
  {
    var fields := RejectedFields(At(w.db, Inbox(d)).items[id], d, reason);
    var u := w.(db := if made then EnsureGroup(w.db, Rejected) else w.db);
    moves := Deciding(w, f, d, id, reason, made);
    var adding := Set(u, f, Adding(From(Inbox(d), id), fields, Rejected));
    var added := Step(adding, Append(f));
    OneMove(adding, Append(f));
    OneMove(added, Confirm(f));
    assert (w.fibers[f := added.fibers[f]] - {f}) == w.fibers;
    assert Step(added, Confirm(f)) == w.(db := Ack(Add(u.db, Rejected, fields), Inbox(d), id));
    hide Runs, Step;
    RunsJoin(w, moves, adding, [Append(f)], added);
    moves := moves + [Append(f)];
    RunsJoin(w, moves, added, [Confirm(f)], w.(db := Ack(Add(u.db, Rejected, fields), Inbox(d), id)));
    moves := moves + [Confirm(f)];
  }

  /** Up to the addition to the rejected stream. */
  lemma Deciding(w: World, f: nat, d: string, id: nat, reason: string, made: bool) returns (moves: seq<Move>)
    requires w.db.next > 0 && f !in w.fibers && InPel(w.db, Inbox(d), id)
    ensures var fields := RejectedFields(At(w.db, Inbox(d)).items[id], d, reason);
            var u := w.(db := if made then EnsureGroup(w.db, Rejected) else w.db);
            Runs(w, moves, Set(u, f, Adding(From(Inbox(d), id), fields, Rejected)))
  {
    var w1 := Step(w, Grab(f, d, id));
    var w2 := Step(w1, Judge(f, false, d, reason));
    var w3 := Step(w2, Create(f, made));
    OneMove(w, Grab(f, d, id));
    OneMove(w1, Judge(f, false, d, reason));
    OneMove(w2, Create(f, made));
    var fields := RejectedFields(At(w.db, Inbox(d)).items[id], d, reason);
    var u := w.(db := if made then EnsureGroup(w.db, Rejected) else w.db);
    assert w3 == Set(u, f, Adding(From(Inbox(d), id), fields, Rejected));
    hide Runs, Step;
    RunsJoin(w, [Grab(f, d, id)], w1, [Judge(f, false, d, reason)], w2);
    moves := [Grab(f, d, id)] + [Judge(f, false, d, reason)];
    RunsJoin(w, moves, w2, [Create(f, made)], w3);
    moves := moves + [Create(f, made)];
  }

  /** The moves of a daemon that accepts one. */
  lemma TakingOn(w: World, f: nat, d: string, id: nat) returns (moves: seq<Move>)
    requires w.db.next > 0 && f !in w.fibers && InPel(w.db, Inbox(d), id)
    ensures var t := View(At(w.db, Inbox(d)).items[id]);
            Runs(w, moves, w.(db := Ack(w.db, Inbox(d), id), spawned := w.spawned + {t}))
  {
    var w1 := Step(w, Grab(f, d, id));
    var w2 := Step(w1, Judge(f, true, d, ""));
    var w3 := Step(w2, Launch(f));
    var w4 := Step(w3, Confirm(f));
    assert w4.fibers == w.fibers;
    OneMove(w, Grab(f, d, id));
    OneMove(w1, Judge(f, true, d, ""));
    OneMove(w2, Launch(f));
    OneMove(w3, Confirm(f));
    hide Runs, Step;
    RunsJoin(w, [Grab(f, d, id)], w1, [Judge(f, true, d, "")], w2);
    moves := [Grab(f, d, id)] + [Judge(f, true, d, "")];
    RunsJoin(w, moves, w2, [Launch(f)], w3);
    moves := moves + [Launch(f)];
    RunsJoin(w, moves, w3, [Confirm(f)], w4);
    moves := moves + [Confirm(f)];
  }

  /** The moves of a daemon whose acceptance raises before the process starts. */
  lemma Declining(w: World, f: nat, d: string, id: nat) returns (moves: seq<Move>)
    requires w.db.next > 0 && f !in w.fibers && InPel(w.db, Inbox(d), id)
    ensures Runs(w, moves, w)
  {
    var w1 := Step(w, Grab(f, d, id));
    var w2 := Step(w1, Judge(f, true, d, ""));
    var w3 := Step(w2, Crash(f));
    assert w3.fibers == w.fibers;
    OneMove(w, Grab(f, d, id));
    OneMove(w1, Judge(f, true, d, ""));
    OneMove(w2, Crash(f));
    hide Runs, Step;
    RunsJoin(w, [Grab(f, d, id)], w1, [Judge(f, true, d, "")], w2);
    RunsJoin(w, [Grab(f, d, id)] + [Judge(f, true, d, "")], w2, [Crash(f)], w3);
    moves := [Grab(f, d, id)] + [Judge(f, true, d, "")] + [Crash(f)];
  }

  /** The moves of a read that delivers several entries. */
  lemma {:induction false} Receiving(w: World, k: Key, ids: seq<nat>, b: Db) returns (moves: seq<Move>)
    requires w.db.next > 0 && Reads(w.db, k, ids, b)
    ensures Runs(w, moves, w.(db := b))
    decreases |ids|
  {
    if ids == [] {
      moves := [];
    } else {
      var rest := Receiving(Step(w, Receive(k, ids[0])), k, ids[1..], b);
      moves := [Receive(k, ids[0])] + rest;
      assert moves[1..] == rest;
    }
  }

  /** Two requests in the inbox of daemon d, which has read the first. */
  function Stocked(t: Task, u: Task, d: string): World {
    var inbox := Stream(map[1 := FieldsOf(t), 2 := FieldsOf(u)], Group(1, {1}));
    World(Db(map[Inbox(d) := inbox], 3), map[], {t, u}, {})
  }

  /** The inbox of d with some entries, nothing delivered. */
  function InboxOnly(d: string, items: map<nat, Fields>, next: nat): Db {
    Db(map[Inbox(d) := Stream(items, Group(0, {}))], next)
  }

  lemma FirstAdded(d: string, f: Fields)
    ensures Add(EnsureGroup(Empty(1).db, Inbox(d)), Inbox(d), f) == InboxOnly(d, map[1 := f], 2)
  {
    assert map[][1 := f] == map[1 := f];
  }

  lemma SecondAdded(d: string, f: Fields, g: Fields)
    ensures var db := InboxOnly(d, map[1 := f], 2);
            Add(EnsureGroup(db, Inbox(d)), Inbox(d), g) == InboxOnly(d, map[1 := f, 2 := g], 3)
  {
    assert map[1 := f][2 := g] == map[1 := f, 2 := g];
  }

  lemma FirstDelivered(d: string, f: Fields, g: Fields)
    ensures var db := InboxOnly(d, map[1 := f, 2 := g], 3);
            IsNext(db, Inbox(d), 1)
            && Deliver(db, Inbox(d), 1) == Db(map[Inbox(d) := Stream(map[1 := f, 2 := g], Group(1, {1}))], 3)
  {
    var none: set<nat> := {};
    assert none + {1} == {1};
  }

  lemma StockedIsReached(t: Task, u: Task, d: string) returns (moves: seq<Move>)
    ensures Runs(Empty(1), moves, Stocked(t, u, d))
  {
    var k, f, g := Inbox(d), FieldsOf(t), FieldsOf(u);
    var one := World(InboxOnly(d, map[1 := f], 2), map[], {t}, {});
    var two := World(InboxOnly(d, map[1 := f, 2 := g], 3), map[], {t, u}, {});
    FirstAdded(d, f);
    SecondAdded(d, f, g);
    FirstDelivered(d, f, g);
    hide Add, EnsureGroup, Deliver, InboxOnly, IsNext, FieldsOf;
    var a := Dispatching(Empty(1), 0, t, d);
    assert Empty(1).submitted + {t} == {t};
    var b := Dispatching(one, 0, u, d);
    assert {t} + {u} == {t, u};
    OneMove(two, Receive(k, 1));
    hide Runs;
    RunsJoin(Empty(1), a, one, b, two);
    RunsJoin(Empty(1), a + b, two, [Receive(k, 1)], Stocked(t, u, d));
    moves := a + b + [Receive(k, 1)];
  }

  /** Stocked with the first task recovered to daemon e. */
  function Recovered(t: Task, u: Task, d: string, e: string): World {
    var left := Stream(map[1 := FieldsOf(t), 2 := FieldsOf(u)], Group(1, {}));
    World(Db(map[Inbox(d) := left, Inbox(e) := Stream(map[3 := FieldsOf(t)], Group(2, {}))], 4), map[], {t, u}, {})
  }

  lemma RecoveredDb(t: Task, u: Task, d: string, e: string)
    requires d != e
    ensures var db := Stocked(t, u, d).db;
            Ack(Add(EnsureGroup(db, Inbox(e)), Inbox(e), FieldsOf(t)), Inbox(d), 1) == Recovered(t, u, d, e).db
  {
    var db := Stocked(t, u, d).db;
    var s := Stream(map[3 := FieldsOf(t)], Group(2, {}));
    assert map[][3 := FieldsOf(t)] == map[3 := FieldsOf(t)];
    var added := Add(EnsureGroup(db, Inbox(e)), Inbox(e), FieldsOf(t));
    assert added == Db(db.streams[Inbox(e) := s], 4);
    assert {1} - {1} == {};
  }

  lemma RecoveredIsReached(t: Task, u: Task, d: string, e: string) returns (moves: seq<Move>)
    requires d != e
    ensures Runs(Stocked(t, u, d), moves, Recovered(t, u, d, e))
  {
    RecoveredDb(t, u, d, e);
    moves := Recovering(Stocked(t, u, d), 0, Inbox(d), 1, e);
  }

  lemma RecoveredEntries(t: Task, u: Task, d: string, e: string)
    requires d != e
    ensures var db := Recovered(t, u, d, e).db;
            && WellFormed(db) && Live(db, Inbox(d), 2) && Live(db, Inbox(e), 3)
            && (forall k: Key, id: nat :: Live(db, k, id) ==> (k == Inbox(d) && id == 2) || (k == Inbox(e) && id == 3))
            && View(At(db, Inbox(d)).items[2]) == u && View(At(db, Inbox(e)).items[3]) == t
  {
  }

  /** Recovery of a dead daemon that had read one of two requests: the run the code makes moves the first to another
      daemon, deletes the inbox, and loses the second. */
  lemma RecoveryLosesUnread(t: Task, u: Task, d: string, e: string)
    requires t != u && d != e
    ensures exists moves :: Runs(Empty(1), moves, Stocked(t, u, d)) && InPel(Stocked(t, u, d).db, Inbox(d), 1)
    ensures exists moves :: Runs(Stocked(t, u, d), moves, Recovered(t, u, d, e))
    ensures var w := Recovered(t, u, d, e);
            u in w.submitted && Held(w, u, -1) && Held(Step(w, DropInbox(d)), t, -1)
            && !Held(Step(w, DropInbox(d)), u, -1)
  {
    var ms := StockedIsReached(t, u, d);
    assert Runs(Empty(1), ms, Stocked(t, u, d));
    var ns := RecoveredIsReached(t, u, d, e);
    assert Runs(Stocked(t, u, d), ns, Recovered(t, u, d, e));
    RecoveredEntries(t, u, d, e);
    hide Live, At, View, Step, Runs, WellFormed;
    DropLoses(Recovered(t, u, d, e), d, t);
    DropLoses(Recovered(t, u, d, e), d, u);
  }

  /** The same recovery in the first tick, with no daemon free and the pending group not made yet: the first is lost. */
  lemma FirstTickLosesRetried(t: Task, u: Task, d: string)
    requires t != u
    ensures exists moves :: Runs(Empty(1), moves, Stocked(t, u, d))
    ensures t in Stocked(t, u, d).submitted && !Held(RetryAlone(Stocked(t, u, d), 0, Inbox(d), 1), t, -1)
  {
    var ms := StockedIsReached(t, u, d);
    assert Runs(Empty(1), ms, Stocked(t, u, d));
    var w := Stocked(t, u, d);
    RetryNeedsPendingGroup(w, 0, Inbox(d), 1);
    assert forall k: Key, id: nat | Live(w.db, k, id) :: k == Inbox(d) && (id == 1 || id == 2);
  }
}
