/** The orchestrator's stream consumer (orchestrator/consumer.py) against a Redis stream with a consumer
    group: every await a separate step, a crash possible at each. */
module Consumer {

  datatype DeadLetter = DeadLetter(data: string, originId: nat)

  /** The stream, its group and what processing has left behind. Entry ids are positions; entries before
      delivered have been handed to the group, pending ones are unacknowledged, in id order. handled holds
      the entries some handler call returned for; calls logs every handler call. */
  datatype World = World(entries: seq<string>, delivered: nat, pending: seq<nat>, acked: set<nat>,
                         handled: set<nat>, dead: seq<DeadLetter>, calls: seq<nat>)

  const EMPTY := World([], 0, [], {}, {}, [], [])

  const MAX_PASSES := 100

  // ---- Redis ----

  function Min(a: nat, b: nat): nat { if a <= b then a else b }

  function Range(lo: nat, hi: nat): seq<nat>
    requires lo <= hi
  {
    seq(hi - lo, i => lo + i)
  }

  function Without(ids: seq<nat>, id: nat): seq<nat> {
    if ids == [] then []
    else if ids[0] == id then Without(ids[1..], id)
    else [ids[0]] + Without(ids[1..], id)
  }

  /** XACK. */
  function Ack(w: World, id: nat): World {
    if id in w.pending then w.(pending := Without(w.pending, id), acked := w.acked + {id}) else w
  }

  /** XADD to the dead-letter stream. */
  function Bury(w: World, id: nat): World
    requires id < |w.entries|
  {
    w.(dead := w.dead + [DeadLetter(w.entries[id], id)])
  }

  /** The batch XREADGROUP with id 0 returns: the first of this consumer's pending entries. */
  function Batch(w: World, count: nat): seq<nat> { w.pending[..Min(count, |w.pending|)] }

  /** How many entries XREADGROUP with id > delivers. */
  function Fresh(w: World, count: nat): nat
    requires w.delivered <= |w.entries|
  {
    Min(count, |w.entries| - w.delivered)
  }

  function Deliver(w: World, count: nat): World
    requires w.delivered <= |w.entries|
  {
    var to := w.delivered + Fresh(w, count);
    w.(delivered := to, pending := w.pending + Range(w.delivered, to))
  }

  // ---- The consumer process, step by step ----

  datatype Phase = Draining(pass: nat) | Consuming

  datatype Stage = Handle | AckHandled | WriteDead | AckDead

  datatype Pc = Down | Read(phase: Phase) | Work(phase: Phase, queue: seq<nat>, stage: Stage)

  datatype State = State(w: World, pc: Pc)

  /** How one await on Redis ends: with a reply, with an exception, or never because the process is
      cancelled or dies; in the last two cases the command may or may not have taken effect. */
  datatype Result = Replied | Raised(applied: bool) | Died(applied: bool) {
    predicate Applied() { Replied? || applied }
  }

  datatype Event =
    | Publish(data: string)
    | Start
    | OnRead(res: Result)
    | OnHandler(ok: bool)
    | HandlerDies
    | OnCommand(res: Result)

  /** Where the process goes when the entry at the head of the queue is done. */
  function Onward(phase: Phase, queue: seq<nat>): Pc
    requires queue != []
  {
    if |queue| > 1 then Work(phase, queue[1..], Handle)
    else
      match phase
      case Consuming => Read(Consuming)
      case Draining(p) => if p + 1 < MAX_PASSES then Read(Draining(p + 1)) else Read(Consuming)
  }

  predicate Enabled(s: State, e: Event) {
    match e
    case Publish(_) => true
    case Start => s.pc.Down?
    case OnRead(_) => s.pc.Read?
    case OnHandler(_) => s.pc.Work? && s.pc.stage == Handle
    case HandlerDies => s.pc.Work? && s.pc.stage == Handle
    case OnCommand(_) => s.pc.Work? && s.pc.stage != Handle
  }

  ghost predicate Sound(s: State) {
    && s.w.delivered <= |s.w.entries|
    && (s.pc.Work? ==> s.pc.queue != [] && forall i | 0 <= i < |s.pc.queue| :: s.pc.queue[i] < s.w.delivered)
  }

  /** One event. count is the XREADGROUP batch size. */
  ghost function Step(count: nat, s: State, e: Event): State
    requires Sound(s) && Enabled(s, e)
  {
    match e
    case Publish(d) => s.(w := s.w.(entries := s.w.entries + [d]))
    case Start => s.(pc := Read(Draining(0)))
    case HandlerDies => s.(pc := Down)
    case OnRead(res) =>
      (match s.pc.phase
       case Draining(p) =>
         (match res
          case Replied =>
            if s.w.pending == [] || count == 0 then s.(pc := Read(Consuming))
            else s.(pc := Work(Draining(p), Batch(s.w, count), Handle))
          case Raised(_) => s.(pc := Read(Consuming))
          case Died(_) => s.(pc := Down))
       case Consuming =>
         var w := if res.Applied() then Deliver(s.w, count) else s.w;
         (match res
          case Replied =>
            if Fresh(s.w, count) == 0 then State(w, Read(Consuming))
            else State(w, Work(Consuming, Range(s.w.delivered, w.delivered), Handle))
          case Raised(_) => State(w, Read(Consuming))
          case Died(_) => State(w, Down)))
    case OnHandler(ok) =>
      var id := s.pc.queue[0];
      var w := s.w.(calls := s.w.calls + [id]);
      if ok then State(w.(handled := w.handled + {id}), s.pc.(stage := AckHandled))
      else State(w, s.pc.(stage := WriteDead))
    case OnCommand(res) =>
      var id := s.pc.queue[0];
      var w := if !res.Applied() then s.w else if s.pc.stage == WriteDead then Bury(s.w, id) else Ack(s.w, id);
      if res.Died? then State(w, Down)
      else
        match s.pc.stage
        // The except around the handler also covers its XACK.
        case AckHandled => State(w, if res.Replied? then Onward(s.pc.phase, s.pc.queue) else s.pc.(stage := WriteDead))
        case WriteDead => State(w, if res.Replied? then s.pc.(stage := AckDead) else Onward(s.pc.phase, s.pc.queue))
        case _ => State(w, Onward(s.pc.phase, s.pc.queue))
  }

  // ---- Nothing is lost ----

  ghost predicate Increasing(ids: seq<nat>) { forall i, j | 0 <= i < j < |ids| :: ids[i] < ids[j] }

  ghost predicate HasDeadCopy(w: World, id: nat) {
    id < |w.entries| && DeadLetter(w.entries[id], id) in w.dead
  }

  /** Every entry is exactly one of undelivered, pending and acknowledged. */
  ghost predicate Partition(w: World) {
    && w.delivered <= |w.entries|
    && Increasing(w.pending)
    && (forall id :: id in w.pending ==> id !in w.acked)
    && (forall id :: (id in w.pending || id in w.acked) <==> 0 <= id < w.delivered)
  }

  /** An acknowledged entry had a handler call return, or its data stands in the dead-letter stream. */
  ghost predicate NothingLost(w: World) {
    forall id :: id in w.acked ==> id in w.handled || HasDeadCopy(w, id)
  }

  ghost predicate Inv(s: State) {
    && Sound(s) && Partition(s.w) && NothingLost(s.w)
    && (s.pc.Work? && s.pc.stage == AckHandled ==> s.pc.queue[0] in s.w.handled)
    && (s.pc.Work? && s.pc.stage == AckDead ==> HasDeadCopy(s.w, s.pc.queue[0]))
  }

  lemma {:induction false} WithoutHas(ids: seq<nat>, id: nat)
    ensures forall x :: x in Without(ids, id) <==> x in ids && x != id
  {
    if ids != [] {
      WithoutHas(ids[1..], id);
      assert forall x :: x in ids <==> x == ids[0] || x in ids[1..];
    }
  }

  lemma {:induction false} WithoutIs(ids: seq<nat>, id: nat)
    requires Increasing(ids)
    ensures Increasing(Without(ids, id))
    ensures forall x :: x in Without(ids, id) <==> x in ids && x != id
  {
    WithoutHas(ids, id);
    if ids != [] {
      WithoutIs(ids[1..], id);
      var r := Without(ids[1..], id);
      forall i | 0 <= i < |r| ensures ids[0] < r[i] { assert r[i] in ids[1..]; }
    }
  }

  lemma AckKeeps(w: World, id: nat)
    requires Partition(w) && NothingLost(w) && (id in w.handled || HasDeadCopy(w, id))
    ensures Partition(Ack(w, id)) && NothingLost(Ack(w, id))
  {
    WithoutIs(w.pending, id);
    var v := Ack(w, id);
    forall x ensures x in v.acked ==> x in v.handled || HasDeadCopy(v, x) {
      assert x in v.acked ==> x == id || x in w.acked;
      assert HasDeadCopy(w, x) ==> HasDeadCopy(v, x);
    }
  }

  lemma BuryKeeps(w: World, id: nat)
    requires Partition(w) && NothingLost(w) && id < |w.entries|
    ensures Partition(Bury(w, id)) && NothingLost(Bury(w, id)) && HasDeadCopy(Bury(w, id), id)
  {
  }

  lemma DeliverKeeps(w: World, count: nat)
    requires Partition(w) && NothingLost(w)
    ensures Partition(Deliver(w, count)) && NothingLost(Deliver(w, count))
  {
    var v := Deliver(w, count);
    var r := Range(w.delivered, v.delivered);
    assert forall x :: x in r <==> w.delivered <= x < v.delivered by {
      forall x | w.delivered <= x < v.delivered ensures x in r { assert r[x - w.delivered] == x; }
    }
    assert forall x :: x in v.pending <==> x in w.pending || x in r;
    forall i, j | 0 <= i < j < |v.pending| ensures v.pending[i] < v.pending[j] {
      if i < |w.pending| { assert w.pending[i] in w.pending; }
    }
    forall x | x in w.acked ensures x in v.handled || HasDeadCopy(v, x) {
      assert HasDeadCopy(w, x) ==> HasDeadCopy(v, x);
    }
  }

  lemma PublishKeeps(w: World, d: string)
    requires Partition(w) && NothingLost(w)
    ensures var v := w.(entries := w.entries + [d]);
      Partition(v) && NothingLost(v) && forall id: nat :: HasDeadCopy(w, id) ==> HasDeadCopy(v, id)
  {
  }

  lemma BatchInRange(w: World, count: nat)
    requires Partition(w)
    ensures forall i | 0 <= i < |Batch(w, count)| :: Batch(w, count)[i] < w.delivered
  {
    forall i | 0 <= i < |Batch(w, count)| ensures Batch(w, count)[i] < w.delivered {
      assert w.pending[i] in w.pending;
    }
  }

  lemma StepKeeps(count: nat, s: State, e: Event)
    requires Inv(s) && Enabled(s, e)
    ensures Inv(Step(count, s, e))
  {
    match e
    case Publish(d) => PublishKeeps(s.w, d);
    case OnRead(res) =>
      DeliverKeeps(s.w, count);
      BatchInRange(s.w, count);
    case OnHandler(ok) =>
      HandlerKeeps(s, ok);
    case OnCommand(res) =>
      CommandKeeps(count, s, res);
    case _ =>
  }

  lemma HandlerKeeps(s: State, ok: bool)
    requires Inv(s) && Enabled(s, OnHandler(ok))
    ensures forall count :: Inv(Step(count, s, OnHandler(ok)))
  {
  }

  lemma CommandKeeps(count: nat, s: State, res: Result)
    requires Inv(s) && Enabled(s, OnCommand(res))
    ensures Inv(Step(count, s, OnCommand(res)))
  {
    var id := s.pc.queue[0];
    if s.pc.stage == WriteDead { BuryKeeps(s.w, id); } else { AckKeeps(s.w, id); }
  }

  /** The process can die at any await, whether or not the command it waits for takes effect. */
  lemma DeathAnywhere(count: nat, s: State)
    requires Inv(s) && !s.pc.Down?
    ensures exists e :: Enabled(s, e) && Step(count, s, e) == State(s.w, Down)
    ensures s.pc.Work? && s.pc.stage != Handle ==>
              Step(count, s, OnCommand(Died(true))) ==
              State(if s.pc.stage == WriteDead then Bury(s.w, s.pc.queue[0]) else Ack(s.w, s.pc.queue[0]), Down)
    ensures s.pc == Read(Consuming) ==> Step(count, s, OnRead(Died(true))) == State(Deliver(s.w, count), Down)
  {
    var e := if s.pc.Read? then OnRead(Died(false)) else if s.pc.stage == Handle then HandlerDies
             else OnCommand(Died(false));
    assert Enabled(s, e) && Step(count, s, e) == State(s.w, Down);
  }

  /** The states a run of events can reach from an empty stream with no consumer running. */
  ghost predicate Reaches(count: nat, s: State, es: seq<Event>, t: State)
    decreases |es|
  {
    if es == [] then s == t
    else Sound(s) && Enabled(s, es[0]) && Reaches(count, Step(count, s, es[0]), es[1..], t)
  }

  lemma {:induction false} RunKeeps(count: nat, s: State, es: seq<Event>, t: State)
    requires Inv(s) && Reaches(count, s, es, t)
    ensures Inv(t)
    decreases |es|
  {
    if es != [] {
      StepKeeps(count, s, es[0]);
      RunKeeps(count, Step(count, s, es[0]), es[1..], t);
    }
  }

  /** Crash-safe at-least-once: after any events at all (publishing, crashes between any two awaits and
      in the middle of a command, restarts, handler failures, Redis errors) every entry is exactly one of
      undelivered, pending and acknowledged, and no acknowledged entry is lost. */
  lemma AtLeastOnce(count: nat, es: seq<Event>, t: State)
    requires Reaches(count, State(EMPTY, Down), es, t)
    ensures Partition(t.w) && NothingLost(t.w)
  {
    RunKeeps(count, State(EMPTY, Down), es, t);
  }

  // ---- What the main loop leaves behind ----

  /** The process, if alive, is past the drain, and the entry is not among those it is working on. */
  ghost predicate PassedOver(s: State, id: nat) {
    && id in s.w.pending
    && match s.pc
       case Down => true
       case Read(phase) => phase == Consuming
       case Work(phase, queue, _) => phase == Consuming && id !in queue
  }

  lemma PassedOverStep(count: nat, s: State, e: Event, id: nat)
    requires Inv(s) && Enabled(s, e) && !e.Start? && PassedOver(s, id)
    ensures PassedOver(Step(count, s, e), id)
  {
    match e
    case OnRead(res) =>
      assert id < s.w.delivered;
    case OnCommand(res) =>
      WithoutIs(s.w.pending, s.pc.queue[0]);
      assert s.pc.queue[0] != id;
    case _ =>
  }

  /** An entry still pending when the drain has ended stays pending until the process is started again:
      the main loop reads new entries only, so it never retries one. */
  lemma {:induction false} PendingUntilRestart(count: nat, s: State, es: seq<Event>, t: State, id: nat)
    requires Inv(s) && PassedOver(s, id) && Reaches(count, s, es, t)
    requires forall i | 0 <= i < |es| :: !es[i].Start?
    ensures PassedOver(t, id)
    decreases |es|
  {
    if es != [] {
      StepKeeps(count, s, es[0]);
      PassedOverStep(count, s, es[0], id);
      PendingUntilRestart(count, Step(count, s, es[0]), es[1..], t, id);
    }
  }

  lemma Nowhere(count: nat, s: State)
    ensures Reaches(count, s, [], s)
  {
  }

  /** Such an entry does come about: one whose handler raises and whose dead-letter write fails in the main loop. */
  lemma PassedOverIsReached(count: nat, data: string) returns (es: seq<Event>, t: State)
    requires count > 0
    ensures Reaches(count, State(EMPTY, Down), es, t) && PassedOver(t, 0) && !t.pc.Down?
  {
    hide Reaches;
    var s0 := State(EMPTY, Down);
    Nowhere(count, s0);
    es, t := [], s0;
    es, t := Then(count, s0, es, t, Publish(data));
    es, t := Then(count, s0, es, t, Start);
    es, t := Then(count, s0, es, t, OnRead(Replied));
    es, t := Then(count, s0, es, t, OnRead(Replied));
    assert t.w.pending == [0] && t.pc == Work(Consuming, [0], Handle);
    es, t := Then(count, s0, es, t, OnHandler(false));
    es, t := Then(count, s0, es, t, OnCommand(Raised(false)));
  }

  /** A run with one more event. */
  lemma Then(count: nat, s: State, es: seq<Event>, t: State, e: Event) returns (fs: seq<Event>, u: State)
    requires Reaches(count, s, es, t) && Sound(t) && Enabled(t, e)
    ensures fs == es + [e] && u == Step(count, t, e) && Reaches(count, s, fs, u)
  {
    fs, u := es + [e], Step(count, t, e);
    Nowhere(count, u);
    Chain(count, t, e, [], u);
    assert [e] + [] == [e];
    ReachesJoin(count, s, es, t, [e], u);
  }

  // ---- Processing one entry and draining, as the code does them ----

  /** How the awaits of one _process_entry end when the process survives: the handler, its XACK, the
      dead-letter XADD and the second XACK. */
  datatype Outcome = Outcome(handled: bool, ack: Result, write: Result, ackDead: Result) {
    ghost predicate Survives() { !ack.Died? && !write.Died? && !ackDead.Died? }

    ghost predicate Reliable() { ack.Replied? && write.Replied? && ackDead.Replied? }
  }

  function Process(w: World, id: nat, o: Outcome): World
    requires id < |w.entries|
  {
    var w := w.(calls := w.calls + [id]);
    var w := if o.handled then w.(handled := w.handled + {id}) else w;
    var w := if o.handled && o.ack.Applied() then Ack(w, id) else w;
    if o.handled && o.ack.Replied? then w
    else
      var w := if o.write.Applied() then Bury(w, id) else w;
      if o.write.Replied? && o.ackDead.Applied() then Ack(w, id) else w
  }

  function ProcessAll(w: World, ids: seq<nat>, o: nat -> Outcome): World
    requires forall i | 0 <= i < |ids| :: ids[i] < |w.entries|
    ensures ProcessAll(w, ids, o).entries == w.entries && ProcessAll(w, ids, o).delivered == w.delivered
    decreases |ids|
  {
    if ids == [] then w else ProcessAll(Process(w, ids[0], o(ids[0])), ids[1..], o)
  }

  /** What each pass of a drain meets: whether its read raises, and how each entry's awaits end. */
  datatype Weather = Weather(readRaises: bool, entry: nat -> Outcome)

  predicate Known(w: World) { forall i | 0 <= i < |w.pending| :: w.pending[i] < |w.entries| }

  lemma ProcessKnown(w: World, id: nat, o: Outcome)
    requires Known(w) && Increasing(w.pending) && id < |w.entries|
    ensures Known(Process(w, id, o)) && Increasing(Process(w, id, o).pending)
    ensures Process(w, id, o).entries == w.entries
  {
    AckKnown(w, id);
    AckTwice(w, id);
  }

  lemma AckKnown(w: World, id: nat)
    requires Known(w) && Increasing(w.pending)
    ensures Known(Ack(w, id)) && Increasing(Ack(w, id).pending)
  {
    WithoutIs(w.pending, id);
    var v := Ack(w, id);
    forall i | 0 <= i < |v.pending| ensures v.pending[i] < |v.entries| {
      assert v.pending[i] in v.pending;
      assert v.pending[i] in w.pending;
    }
  }

  lemma AckTwice(w: World, id: nat)
    requires Increasing(w.pending)
    ensures Ack(Ack(w, id), id) == Ack(w, id)
  {
    WithoutIs(w.pending, id);
  }

  lemma {:induction false} ProcessAllKnown(w: World, ids: seq<nat>, o: nat -> Outcome)
    requires Known(w) && Increasing(w.pending) && forall i | 0 <= i < |ids| :: ids[i] < |w.entries|
    ensures Known(ProcessAll(w, ids, o)) && Increasing(ProcessAll(w, ids, o).pending)
    decreases |ids|
  {
    if ids != [] {
      ProcessKnown(w, ids[0], o(ids[0]));
      ProcessAllKnown(Process(w, ids[0], o(ids[0])), ids[1..], o);
    }
  }

  /** The drain from a given pass on. */
  ghost function Drained(w: World, count: nat, pass: nat, weather: nat -> Weather): World
    requires Known(w) && Increasing(w.pending)
    decreases MAX_PASSES - pass
  {
    if pass >= MAX_PASSES || weather(pass).readRaises || Batch(w, count) == [] then w
    else
      ProcessAllKnown(w, Batch(w, count), weather(pass).entry);
      Drained(ProcessAll(w, Batch(w, count), weather(pass).entry), count, pass + 1, weather)
  }

  /** One turn of the main loop: a read of new entries, and the entries it returns. */
  function Consumed(w: World, count: nat, read: Result, o: nat -> Outcome): World
    requires w.delivered <= |w.entries|
  {
    var v := if read.Applied() then Deliver(w, count) else w;
    if read.Replied? then ProcessAll(v, Range(w.delivered, v.delivered), o) else v
  }

  class StreamConsumer {
    const count: nat
    var w: World

    constructor (count: nat, w: World)
      ensures this.count == count && this.w == w
    {
      this.count, this.w := count, w;
    }

    method ProcessEntry(id: nat, o: Outcome)
      requires id < |w.entries|
      modifies this
      ensures w == Process(old(w), id, o)
    {
      var failed := false;
      w := w.(calls := w.calls + [id]);
      if o.handled {
        w := w.(handled := w.handled + {id});
        if o.ack.Applied() { w := Ack(w, id); }
        failed := !o.ack.Replied?;
      } else {
        failed := true;
      }
      if failed {
        if o.write.Applied() { w := Bury(w, id); }
        if o.write.Replied? && o.ackDead.Applied() { w := Ack(w, id); }
      }
    }

    /** One pass over a batch. */
    method ProcessBatch(ids: seq<nat>, o: nat -> Outcome)
      requires forall i | 0 <= i < |ids| :: ids[i] < |w.entries|
      modifies this
      ensures w == ProcessAll(old(w), ids, o)
    {
      var i := 0;
      while i < |ids|
        invariant i <= |ids| && w.entries == old(w.entries)
        invariant ProcessAll(w, ids[i..], o) == ProcessAll(old(w), ids, o)
      {
        assert ids[i..][1..] == ids[i + 1..];
        ProcessEntry(ids[i], o(ids[i]));
        i := i + 1;
      }
    }

    /** One turn of the main loop. */
    method ConsumeOnce(read: Result, o: nat -> Outcome)
      requires w.delivered <= |w.entries| && !read.Died?
      modifies this
      ensures w == Consumed(old(w), count, read, o)
    {
      var n := Fresh(w, count);
      var entries := Range(w.delivered, w.delivered + n);
      if read.Applied() { w := Deliver(w, count); }
      if read.Raised? { return; }
      if entries == [] { return; }
      ProcessBatch(entries, o);
    }

    method DrainPending(weather: nat -> Weather)
      requires Known(w) && Increasing(w.pending)
      modifies this
      ensures w == Drained(old(w), count, 0, weather)
    {
      for pass := 0 to MAX_PASSES
        invariant Known(w) && Increasing(w.pending)
        invariant Drained(w, count, pass, weather) == Drained(old(w), count, 0, weather)
      {
        if weather(pass).readRaises { return; }
        var entries := Batch(w, count);
        if entries == [] { return; }
        ProcessAllKnown(w, entries, weather(pass).entry);
        ProcessBatch(entries, weather(pass).entry);
      }
    }
  }

  // ---- The drain with Redis working ----

  /** The dead-letter copies of the entries whose handler raises, in order. */
  function Failures(entries: seq<string>, ids: seq<nat>, o: nat -> Outcome): seq<DeadLetter>
    requires forall i | 0 <= i < |ids| :: ids[i] < |entries|
  {
    if ids == [] then []
    else (if o(ids[0]).handled then [] else [DeadLetter(entries[ids[0]], ids[0])]) + Failures(entries, ids[1..], o)
  }

  lemma WithoutHead(ids: seq<nat>)
    requires ids != [] && Increasing(ids)
    ensures Without(ids, ids[0]) == ids[1..]
  {
    WithoutAbsent(ids[1..], ids[0]);
  }

  lemma {:induction false} WithoutAbsent(ids: seq<nat>, id: nat)
    requires forall i | 0 <= i < |ids| :: ids[i] != id
    ensures Without(ids, id) == ids
  {
    if ids != [] { WithoutAbsent(ids[1..], id); }
  }

  function IdSet(ids: seq<nat>): set<nat> { set id | id in ids }

  function HandledIn(ids: seq<nat>, o: nat -> Outcome): set<nat> { set id | id in ids && o(id).handled }

  /** The first n pending entries worked off, each handled or dead-lettered. */
  function Worked(w: World, n: nat, o: nat -> Outcome): World
    requires Known(w) && n <= |w.pending|
  {
    var ids := w.pending[..n];
    w.(pending := w.pending[n..], acked := w.acked + IdSet(ids), handled := w.handled + HandledIn(ids, o),
       dead := w.dead + Failures(w.entries, ids, o), calls := w.calls + ids)
  }

  lemma {:induction false} FailuresSplit(entries: seq<string>, xs: seq<nat>, ys: seq<nat>, o: nat -> Outcome)
    requires forall i | 0 <= i < |xs| :: xs[i] < |entries|
    requires forall i | 0 <= i < |ys| :: ys[i] < |entries|
    ensures Failures(entries, xs + ys, o) == Failures(entries, xs, o) + Failures(entries, ys, o)
  {
    if xs == [] {
      assert xs + ys == ys;
    } else {
      FailuresSplit(entries, xs[1..], ys, o);
      assert (xs + ys)[1..] == xs[1..] + ys && (xs + ys)[0] == xs[0];
      var head := if o(xs[0]).handled then [] else [DeadLetter(entries[xs[0]], xs[0])];
      assert head + (Failures(entries, xs[1..], o) + Failures(entries, ys, o))
          == (head + Failures(entries, xs[1..], o)) + Failures(entries, ys, o);
    }
  }

  lemma {:induction false} FailuresSame(entries: seq<string>, ids: seq<nat>, o: nat -> Outcome, p: nat -> Outcome)
    requires forall i | 0 <= i < |ids| :: ids[i] < |entries| && o(ids[i]) == p(ids[i])
    ensures Failures(entries, ids, o) == Failures(entries, ids, p)
  {
    if ids != [] { FailuresSame(entries, ids[1..], o, p); }
  }

  lemma SetsSplit(xs: seq<nat>, ys: seq<nat>, o: nat -> Outcome, p: nat -> Outcome, q: nat -> Outcome)
    requires forall i | 0 <= i < |xs| :: q(xs[i]) == o(xs[i])
    requires forall i | 0 <= i < |ys| :: q(ys[i]) == p(ys[i])
    ensures IdSet(xs + ys) == IdSet(xs) + IdSet(ys)
    ensures HandledIn(xs + ys, q) == HandledIn(xs, o) + HandledIn(ys, p)
  {
  }

  /** Working off m entries and then n more is working off m + n. */
  lemma WorkedTwice(w: World, m: nat, n: nat, o: nat -> Outcome, p: nat -> Outcome, q: nat -> Outcome)
    requires Known(w) && Increasing(w.pending) && m + n <= |w.pending|
    requires forall i | 0 <= i < m :: q(w.pending[i]) == o(w.pending[i])
    requires forall i | m <= i < m + n :: q(w.pending[i]) == p(w.pending[i])
    ensures Known(Worked(w, m, o)) && Worked(Worked(w, m, o), n, p) == Worked(w, m + n, q)
  {
    hide IdSet, HandledIn, Failures;
    var xs, ys := w.pending[..m], w.pending[m..m + n];
    assert w.pending[m..][..n] == ys && w.pending[..m + n] == xs + ys && w.pending[m..][n..] == w.pending[m + n..];
    SetsSplit(xs, ys, o, p, q);
    FailuresSplit(w.entries, xs, ys, q);
    FailuresSame(w.entries, xs, o, q);
    FailuresSame(w.entries, ys, p, q);
    assert w.dead + Failures(w.entries, xs, o) + Failures(w.entries, ys, p)
        == w.dead + (Failures(w.entries, xs, o) + Failures(w.entries, ys, p));
    assert w.calls + xs + ys == w.calls + (xs + ys);
    assert w.acked + IdSet(xs) + IdSet(ys) == w.acked + (IdSet(xs) + IdSet(ys));
    assert w.handled + HandledIn(xs, o) + HandledIn(ys, p) == w.handled + (HandledIn(xs, o) + HandledIn(ys, p));
  }

  lemma WorkedNone(w: World, o: nat -> Outcome)
    requires Known(w)
    ensures Worked(w, 0, o) == w
  {
  }

  lemma ProcessReliable(w: World, o: nat -> Outcome)
    requires Known(w) && Increasing(w.pending) && w.pending != [] && o(w.pending[0]).Reliable()
    ensures Process(w, w.pending[0], o(w.pending[0])) == Worked(w, 1, o)
  {
    var id := w.pending[0];
    WithoutHead(w.pending);
    assert w.pending[..1] == [id];
    assert IdSet([id]) == {id} && HandledIn([id], o) == if o(id).handled then {id} else {};
    assert Failures(w.entries, [id], o) == if o(id).handled then [] else [DeadLetter(w.entries[id], id)];
  }

  /** With Redis replying, working off the first n pending entries leaves the others pending, calls the
      handler once for each in order, and dead-letters exactly those whose handler raised. */
  lemma {:induction false} ProcessAllReliable(w: World, n: nat, o: nat -> Outcome)
    requires Known(w) && Increasing(w.pending) && n <= |w.pending|
    requires forall id :: o(id).Reliable()
    ensures ProcessAll(w, w.pending[..n], o) == Worked(w, n, o)
    decreases n
  {
    hide Process, Worked;
    if n == 0 {
      WorkedNone(w, o);
    } else {
      ProcessKnown(w, w.pending[0], o(w.pending[0]));
      ProcessReliable(w, o);
      WorkedPending(w, 1, o);
      var v := Worked(w, 1, o);
      ProcessAllReliable(v, n - 1, o);
      assert w.pending[..n][1..] == v.pending[..n - 1] && w.pending[..n][0] == w.pending[0];
      WorkedTwice(w, 1, n - 1, o, o, o);
    }
  }

  /** The outcome an entry meets: that of the pass whose batch it falls into. */
  function Met(pending: seq<nat>, count: nat, pass: nat, weather: nat -> Weather, id: nat): Outcome
    decreases MAX_PASSES - pass
  {
    var n := Min(count, |pending|);
    if pass >= MAX_PASSES || id in pending[..n] then weather(pass).entry(id)
    else Met(pending[n..], count, pass + 1, weather, id)
  }

  function MetFrom(pending: seq<nat>, count: nat, pass: nat, weather: nat -> Weather): nat -> Outcome {
    (id: nat) => Met(pending, count, pass, weather, id)
  }

  lemma MetSplit(pending: seq<nat>, count: nat, pass: nat, weather: nat -> Weather)
    requires Increasing(pending) && pass < MAX_PASSES
    ensures var m, met := Min(count, |pending|), MetFrom(pending, count, pass, weather);
      && (forall i | 0 <= i < m :: met(pending[i]) == weather(pass).entry(pending[i]))
      && (forall i | m <= i < |pending| ::
            met(pending[i]) == MetFrom(pending[m..], count, pass + 1, weather)(pending[i]))
  {
  }

  /** With every read, ack and dead-letter write succeeding, whatever the handlers do: the drain works
      off the first (MAX_PASSES - pass) * count pending entries, in order and once each. */
  lemma {:induction false} DrainFrom(w: World, count: nat, pass: nat, weather: nat -> Weather)
    requires Known(w) && Increasing(w.pending) && count > 0 && pass <= MAX_PASSES
    requires forall p :: !weather(p).readRaises && forall id :: weather(p).entry(id).Reliable()
    ensures var n := Min((MAX_PASSES - pass) * count, |w.pending|);
      Drained(w, count, pass, weather) == Worked(w, n, MetFrom(w.pending, count, pass, weather))
    decreases MAX_PASSES - pass
  {
    hide ProcessAll, Worked, Met, Drained, Min;
    var met, k := MetFrom(w.pending, count, pass, weather), MAX_PASSES - pass;
    DrainedUnfolds(w, count, pass, weather);
    if k == 0 || w.pending == [] {
      MinZero(k * count, |w.pending|);
      WorkedNone(w, met);
    } else {
      var o, m := weather(pass).entry, Min(count, |w.pending|);
      MinSplit(k, count, |w.pending|);
      var n := Min((k - 1) * count, |w.pending| - m);
      ProcessAllReliable(w, m, o);
      WorkedPending(w, m, o);
      DrainFrom(Worked(w, m, o), count, pass + 1, weather);
      MetSplit(w.pending, count, pass, weather);
      WorkedTwice(w, m, n, o, MetFrom(w.pending[m..], count, pass + 1, weather), met);
    }
  }

  lemma MinZero(a: nat, b: nat)
    ensures a == 0 || b == 0 ==> Min(a, b) == 0
  {
  }

  lemma MinSplit(k: nat, count: nat, len: nat)
    requires k > 0
    ensures var m := Min(count, len);
      m <= len && Min(k * count, len) == m + Min((k - 1) * count, len - m)
      && m + Min((k - 1) * count, len - m) <= len
  {
  }

  lemma DrainedUnfolds(w: World, count: nat, pass: nat, weather: nat -> Weather)
    requires Known(w) && Increasing(w.pending) && count > 0 && pass <= MAX_PASSES
    requires pass < MAX_PASSES ==> !weather(pass).readRaises
    ensures if pass == MAX_PASSES || w.pending == [] then Drained(w, count, pass, weather) == w
      else
        var m := Min(count, |w.pending|);
        var v := ProcessAll(w, w.pending[..m], weather(pass).entry);
        Known(v) && Increasing(v.pending) && Drained(w, count, pass, weather) == Drained(v, count, pass + 1, weather)
  {
    if pass < MAX_PASSES && w.pending != [] { ProcessAllKnown(w, Batch(w, count), weather(pass).entry); }
  }

  lemma WorkedPending(w: World, n: nat, o: nat -> Outcome)
    requires Known(w) && n <= |w.pending|
    ensures Worked(w, n, o).pending == w.pending[n..]
  {
  }

  /** The startup drain: with Redis working, it empties the pending list exactly when that started with at
      most 100 * count entries, and calls the handler once for each entry it works off. */
  lemma DrainBound(w: World, count: nat, weather: nat -> Weather)
    requires Known(w) && Increasing(w.pending) && count > 0
    requires forall p :: !weather(p).readRaises && forall id :: weather(p).entry(id).Reliable()
    ensures var v, n := Drained(w, count, 0, weather), if |w.pending| <= 100 * count then |w.pending| else 100 * count;
      && (v.pending == [] <==> |w.pending| <= 100 * count)
      && v.pending == w.pending[n..] && v.calls == w.calls + w.pending[..n]
      && v.acked == w.acked + IdSet(w.pending[..n])
  {
    DrainFrom(w, count, 0, weather);
  }

  // ---- The main loop with Redis working ----

  lemma {:induction false} ProcessCalls(w: World, ids: seq<nat>, o: nat -> Outcome)
    requires forall i | 0 <= i < |ids| :: ids[i] < |w.entries|
    ensures ProcessAll(w, ids, o).calls == w.calls + ids
    decreases |ids|
  {
    if ids == [] {
      assert w.calls + [] == w.calls;
    } else {
      ProcessCalls(Process(w, ids[0], o(ids[0])), ids[1..], o);
      assert w.calls + [ids[0]] + ids[1..] == w.calls + ids;
    }
  }

  /** A turn whose read replies calls the handler once for each of the oldest undelivered entries, at most count of
      them, in order, whatever happens to the entries' own commands; no other turn calls it. */
  lemma ConsumedCalls(w: World, count: nat, read: Result, o: nat -> Outcome)
    requires w.delivered <= |w.entries|
    ensures var v, rest := Consumed(w, count, read, o), |w.entries| - w.delivered;
      var n := if count <= rest then count else rest;
      && v.calls == w.calls + (if read.Replied? then seq(n, i => w.delivered + i) else [])
      && v.delivered == w.delivered + (if read.Replied? || read.applied then n else 0)
      && v.entries == w.entries
  {
    var v := if read.Applied() then Deliver(w, count) else w;
    if read.Replied? { ProcessCalls(v, Range(w.delivered, v.delivered), o); }
  }

  /** Processing an entry anywhere in the pending list, Redis replying. */
  lemma ProcessOne(w: World, id: nat, o: Outcome)
    requires o.Reliable() && id in w.pending && id < |w.entries|
    ensures var v := Process(w, id, o);
      && v.pending == Without(w.pending, id) && v.acked == w.acked + {id} && v.entries == w.entries
      && v.handled == w.handled + (if o.handled then {id} else {})
      && v.dead == w.dead + (if o.handled then [] else [DeadLetter(w.entries[id], id)])
  {
  }

  lemma {:induction false} WithoutAppend(xs: seq<nat>, ys: seq<nat>, id: nat)
    ensures Without(xs + ys, id) == Without(xs, id) + Without(ys, id)
  {
    if xs == [] {
      assert xs + ys == ys;
    } else {
      WithoutAppend(xs[1..], ys, id);
      assert (xs + ys)[1..] == xs[1..] + ys && (xs + ys)[0] == xs[0];
      var head := if xs[0] == id then [] else [xs[0]];
      WithoutCons(xs, id);
      WithoutCons(xs + ys, id);
      hide Without;
      assert head + (Without(xs[1..], id) + Without(ys, id)) == head + Without(xs[1..], id) + Without(ys, id);
    }
  }

  lemma WithoutCons(xs: seq<nat>, id: nat)
    requires xs != []
    ensures Without(xs, id) == (if xs[0] == id then [] else [xs[0]]) + Without(xs[1..], id)
  {
  }

  lemma TailWithout(pending: seq<nat>, kept: seq<nat>, ids: seq<nat>)
    requires Increasing(pending) && pending == kept + ids && ids != []
    ensures Without(pending, ids[0]) == kept + ids[1..]
  {
    var id := ids[0];
    assert pending[|kept|] == id;
    forall i | 0 <= i < |kept| ensures kept[i] != id { assert pending[i] == kept[i]; }
    forall i | 0 <= i < |ids[1..]| ensures ids[1..][i] != id { assert pending[|kept| + 1 + i] == ids[1..][i]; }
    WithoutAppend(kept, ids, id);
    WithoutAbsent(kept, id);
    WithoutAbsent(ids[1..], id);
  }

  /** The entries ids are off the pending list, each handled or dead-lettered. */
  ghost predicate DoneWith(w: World, v: World, kept: seq<nat>, ids: seq<nat>, o: nat -> Outcome)
    requires forall i | 0 <= i < |ids| :: ids[i] < |w.entries|
  {
    && v.pending == kept && v.acked == w.acked + IdSet(ids) && v.handled == w.handled + HandledIn(ids, o)
    && v.dead == w.dead + Failures(w.entries, ids, o)
  }

  lemma DoneNext(w: World, u: World, v: World, kept: seq<nat>, ids: seq<nat>, o: nat -> Outcome)
    requires ids != [] && w.entries == u.entries && forall i | 0 <= i < |ids| :: ids[i] < |w.entries|
    requires u.acked == w.acked + {ids[0]} && u.handled == w.handled + (if o(ids[0]).handled then {ids[0]} else {})
    requires u.dead == w.dead + if o(ids[0]).handled then [] else [DeadLetter(w.entries[ids[0]], ids[0])]
    requires DoneWith(u, v, kept, ids[1..], o)
    ensures DoneWith(w, v, kept, ids, o)
  {
    SetsSplit([ids[0]], ids[1..], o, o, o);
    assert [ids[0]] + ids[1..] == ids && IdSet([ids[0]]) == {ids[0]};
    assert HandledIn([ids[0]], o) == if o(ids[0]).handled then {ids[0]} else {};
  }

  /** Working off the tail of the pending list, Redis replying, leaves what was pending before it. */
  lemma {:induction false} TailWorked(w: World, kept: seq<nat>, ids: seq<nat>, o: nat -> Outcome)
    requires w.pending == kept + ids && Increasing(w.pending) && forall id :: o(id).Reliable()
    requires forall i | 0 <= i < |ids| :: ids[i] < |w.entries|
    ensures DoneWith(w, ProcessAll(w, ids, o), kept, ids, o)
    decreases |ids|
  {
    if ids == [] {
      assert kept + [] == kept;
    } else {
      hide Process, DoneWith;
      assert w.pending[|kept|] == ids[0];
      ProcessOne(w, ids[0], o(ids[0]));
      TailWithout(w.pending, kept, ids);
      TailIncreases(w.pending, kept, ids);
      var u := Process(w, ids[0], o(ids[0]));
      TailWorked(u, kept, ids[1..], o);
      DoneNext(w, u, ProcessAll(w, ids, o), kept, ids, o);
    }
  }

  lemma TailIncreases(pending: seq<nat>, kept: seq<nat>, ids: seq<nat>)
    requires Increasing(pending) && pending == kept + ids && ids != []
    ensures Increasing(kept + ids[1..])
  {
    var p := kept + ids[1..];
    forall i, j | 0 <= i < j < |p| ensures p[i] < p[j] {
      var i', j' := if i < |kept| then i else i + 1, if j < |kept| then j else j + 1;
      assert p[i] == pending[i'] && p[j] == pending[j'];
    }
  }

  /** With Redis replying a turn leaves pending what was pending, and acknowledges every entry it read, having handled
      it or, if its handler raised, put its data and id in the dead-letter stream. */
  lemma ConsumedReliable(w: World, count: nat, o: nat -> Outcome)
    requires Partition(w) && forall id :: o(id).Reliable()
    ensures var v, rest := Consumed(w, count, Replied, o), |w.entries| - w.delivered;
      var n := if count <= rest then count else rest;
      var ids := seq(n, i => w.delivered + i);
      && v.pending == w.pending
      && v.acked == w.acked + (set id | id in ids)
      && v.handled == w.handled + (set id | id in ids && o(id).handled)
      && |w.dead| <= |v.dead| && v.dead[..|w.dead|] == w.dead
      && forall id | id in ids && !o(id).handled :: DeadLetter(w.entries[id], id) in v.dead
  {
    var d := Deliver(w, count);
    var ids := Range(w.delivered, d.delivered);
    DeliveredIncreasing(w, count);
    TailWorked(d, w.pending, ids, o);
    FailuresHave(w.entries, ids, o);
  }

  lemma DeliveredIncreasing(w: World, count: nat)
    requires Partition(w)
    ensures Increasing(Deliver(w, count).pending)
  {
    forall i | 0 <= i < |w.pending| ensures w.pending[i] < w.delivered { assert w.pending[i] in w.pending; }
  }

  lemma {:induction false} FailuresHave(entries: seq<string>, ids: seq<nat>, o: nat -> Outcome)
    requires forall i | 0 <= i < |ids| :: ids[i] < |entries|
    ensures forall id | id in ids && !o(id).handled :: DeadLetter(entries[id], id) in Failures(entries, ids, o)
  {
    if ids != [] {
      FailuresHave(entries, ids[1..], o);
      assert forall id | id in ids :: id == ids[0] || id in ids[1..];
    }
  }

  // ---- The two views of processing agree ----

  /** Events of one process on the entries it has: no publishing, no start and no read. */
  ghost predicate OnlyWork(es: seq<Event>) { forall i | 0 <= i < |es| :: es[i].OnHandler? || es[i].OnCommand? }

  /** Processing an entry as one call is a run of the steps that a surviving process takes. */
  lemma ProcessIsSteps(count: nat, w: World, phase: Phase, queue: seq<nat>, o: Outcome) returns (es: seq<Event>)
    requires o.Survives() && queue != [] && Partition(w) && NothingLost(w)
    requires forall i | 0 <= i < |queue| :: queue[i] < w.delivered
    ensures Reaches(count, State(w, Work(phase, queue, Handle)), es,
                    State(Process(w, queue[0], o), Onward(phase, queue)))
    ensures OnlyWork(es)
  {
    var s := State(w, Work(phase, queue, Handle));
    var e0 := OnHandler(o.handled);
    var s1 := Step(count, s, e0);
    if o.handled && o.ack.Replied? {
      es := [e0, OnCommand(o.ack)];
      Chain(count, s, e0, es[1..], Step(count, s1, es[1]));
      return;
    }
    if o.handled {
      var s2 := Step(count, s1, OnCommand(o.ack));
      var tail, t := WriteSteps(count, s2, o);
      es := [e0, OnCommand(o.ack)] + tail;
      Chain(count, s1, OnCommand(o.ack), tail, t);
      assert es[1..] == [OnCommand(o.ack)] + tail;
      Chain(count, s, e0, es[1..], t);
    } else {
      var tail, t := WriteSteps(count, s1, o);
      es := [e0] + tail;
      assert es[1..] == tail;
      Chain(count, s, e0, tail, t);
    }
  }

  lemma Chain(count: nat, s: State, e: Event, es: seq<Event>, t: State)
    requires Sound(s) && Enabled(s, e) && Reaches(count, Step(count, s, e), es, t)
    ensures Reaches(count, s, [e] + es, t)
  {
  }

  lemma WriteSteps(count: nat, s: State, o: Outcome) returns (es: seq<Event>, t: State)
    requires Sound(s) && s.pc.Work? && s.pc.stage == WriteDead && o.Survives()
    ensures Reaches(count, s, es, t) && t.pc == Onward(s.pc.phase, s.pc.queue)
    ensures var w := if o.write.Applied() then Bury(s.w, s.pc.queue[0]) else s.w;
      t.w == if o.write.Replied? && o.ackDead.Applied() then Ack(w, s.pc.queue[0]) else w
    ensures OnlyWork(es)
  {
    var s1 := Step(count, s, OnCommand(o.write));
    if o.write.Replied? {
      t := Step(count, s1, OnCommand(o.ackDead));
      Chain(count, s1, OnCommand(o.ackDead), [], t);
      es := [OnCommand(o.write), OnCommand(o.ackDead)];
      assert es == [OnCommand(o.write)] + ([OnCommand(o.ackDead)] + []);
      Chain(count, s, OnCommand(o.write), [OnCommand(o.ackDead)] + [], t);
    } else {
      t := s1;
      es := [OnCommand(o.write)] + [];
      Chain(count, s, OnCommand(o.write), [], t);
    }
  }

  lemma {:induction false} ReachesJoin(count: nat, s: State, es: seq<Event>, t: State, fs: seq<Event>, u: State)
    requires Reaches(count, s, es, t) && Reaches(count, t, fs, u)
    ensures Reaches(count, s, es + fs, u)
    decreases |es|
  {
    hide Step, Enabled;
    if es == [] {
      assert es + fs == fs;
    } else {
      ReachesJoin(count, Step(count, s, es[0]), es[1..], t, fs, u);
      assert (es + fs)[1..] == es[1..] + fs && (es + fs)[0] == es[0];
    }
  }

  /** Where the process goes when its whole queue is done. */
  function Afterwards(phase: Phase): Pc {
    match phase
    case Consuming => Read(Consuming)
    case Draining(p) => if p + 1 < MAX_PASSES then Read(Draining(p + 1)) else Read(Consuming)
  }

  /** A batch processed call by call is a run of the steps. */
  lemma {:induction false} BatchIsSteps(count: nat, w: World, phase: Phase, queue: seq<nat>, o: nat -> Outcome)
    returns (es: seq<Event>)
    requires queue != [] && Inv(State(w, Work(phase, queue, Handle))) && forall id :: o(id).Survives()
    ensures Reaches(count, State(w, Work(phase, queue, Handle)), es, State(ProcessAll(w, queue, o), Afterwards(phase)))
    ensures OnlyWork(es)
    decreases |queue|
  {
    hide Step, Enabled, Reaches, Process;
    var s := State(w, Work(phase, queue, Handle));
    es := ProcessIsSteps(count, w, phase, queue, o(queue[0]));
    var v := Process(w, queue[0], o(queue[0]));
    if |queue| > 1 {
      var t := State(v, Work(phase, queue[1..], Handle));
      RunKeeps(count, s, es, t);
      var rest := BatchIsSteps(count, v, phase, queue[1..], o);
      ReachesJoin(count, s, es, t, rest, State(ProcessAll(w, queue, o), Afterwards(phase)));
      es := es + rest;
    } else {
      assert queue[1..] == [];
    }
  }

  lemma BatchKnown(w: World, count: nat)
    requires Known(w)
    ensures forall i | 0 <= i < |Batch(w, count)| :: Batch(w, count)[i] < |w.entries|
  {
  }

  lemma ReadStep(count: nat, w: World, p: nat, raises: bool)
    requires Inv(State(w, Read(Draining(p))))
    ensures var s := State(w, Read(Draining(p))); var e := OnRead(if raises then Raised(false) else Replied);
            var t := State(w, if raises || Batch(w, count) == [] then Read(Consuming)
                              else Work(Draining(p), Batch(w, count), Handle));
            Step(count, s, e) == t && Inv(t) && Reaches(count, s, [e], t)
  {
    var s := State(w, Read(Draining(p)));
    var e := OnRead(if raises then Raised(false) else Replied);
    StepKeeps(count, s, e);
    Chain(count, s, e, [], Step(count, s, e));
    assert [e] + [] == [e];
  }

  /** The drain as one call is a run of the steps, from its first read to the first read of the main loop. */
  lemma {:induction false} DrainIsSteps(count: nat, w: World, p: nat, weather: nat -> Weather) returns (es: seq<Event>)
    requires Inv(State(w, Read(Draining(p)))) && p < MAX_PASSES && Known(w) && Increasing(w.pending)
    requires forall i :: forall id :: weather(i).entry(id).Survives()
    ensures Reaches(count, State(w, Read(Draining(p))), es, State(Drained(w, count, p, weather), Read(Consuming)))
    decreases MAX_PASSES - p
  {
    hide Step, Enabled, Reaches, Process, Inv, Batch;
    var s := State(w, Read(Draining(p)));
    ReadStep(count, w, p, weather(p).readRaises);
    es := [OnRead(if weather(p).readRaises then Raised(false) else Replied)];
    if !weather(p).readRaises && Batch(w, count) != [] {
      BatchKnown(w, count);
      var t := State(w, Work(Draining(p), Batch(w, count), Handle));
      var batch := BatchIsSteps(count, w, Draining(p), Batch(w, count), weather(p).entry);
      var v := ProcessAll(w, Batch(w, count), weather(p).entry);
      var u := State(v, Afterwards(Draining(p)));
      ReachesJoin(count, s, es, t, batch, u);
      es := es + batch;
      ProcessAllKnown(w, Batch(w, count), weather(p).entry);
      RunKeeps(count, s, es, u);
      if p + 1 < MAX_PASSES {
        var rest := DrainIsSteps(count, v, p + 1, weather);
        ReachesJoin(count, s, es, u, rest, State(Drained(w, count, p, weather), Read(Consuming)));
        es := es + rest;
      }
    }
  }

  /** A process that starts drains first: from its start to the first read of the main loop it is such a run. */
  lemma StartIsSteps(count: nat, w: World, weather: nat -> Weather) returns (es: seq<Event>)
    requires Inv(State(w, Down)) && Known(w) && Increasing(w.pending)
    requires forall i :: forall id :: weather(i).entry(id).Survives()
    ensures Reaches(count, State(w, Down), [Start] + es, State(Drained(w, count, 0, weather), Read(Consuming)))
  {
    StepKeeps(count, State(w, Down), Start);
    es := DrainIsSteps(count, w, 0, weather);
    Chain(count, State(w, Down), Start, es, State(Drained(w, count, 0, weather), Read(Consuming)));
  }

  lemma NewBatch(count: nat, w: World, read: Result)
    requires Inv(State(w, Read(Consuming))) && !read.Died?
    ensures var s, v := State(w, Read(Consuming)), if read.Applied() then Deliver(w, count) else w;
      var queue := Range(w.delivered, v.delivered);
      var t := State(v, if read.Raised? || queue == [] then Read(Consuming) else Work(Consuming, queue, Handle));
      Step(count, s, OnRead(read)) == t && Inv(t) && Reaches(count, s, [OnRead(read)], t)
  {
    var s := State(w, Read(Consuming));
    StepKeeps(count, s, OnRead(read));
    Chain(count, s, OnRead(read), [], Step(count, s, OnRead(read)));
    assert [OnRead(read)] + [] == [OnRead(read)];
  }

  /** A turn of the main loop as one call is a run of the steps, one read and then work on what it returned, from
      reading back to reading. */
  lemma ConsumeIsSteps(count: nat, w: World, read: Result, o: nat -> Outcome) returns (es: seq<Event>)
    requires Inv(State(w, Read(Consuming))) && !read.Died? && forall id :: o(id).Survives()
    ensures es != [] && es[0] == OnRead(read) && OnlyWork(es[1..])
    ensures Reaches(count, State(w, Read(Consuming)), es, State(Consumed(w, count, read, o), Read(Consuming)))
  {
    var s := State(w, Read(Consuming));
    assert w.delivered <= |w.entries|;
    hide Step, Enabled, Reaches, Process, Inv;
    var v := if read.Applied() then Deliver(w, count) else w;
    var queue := Range(w.delivered, v.delivered);
    NewBatch(count, w, read);
    es := [OnRead(read)];
    if read.Replied? && queue != [] {
      var t := State(v, Work(Consuming, queue, Handle));
      var batch := BatchIsSteps(count, v, Consuming, queue, o);
      ReachesJoin(count, s, es, t, batch, State(ProcessAll(v, queue, o), Afterwards(Consuming)));
      es := es + batch;
      assert es[1..] == batch;
    } else {
      assert es[1..] == [];
    }
  }

  // ---- While no command fails ----

  /** Nothing but a handler may fail. */
  predicate Smooth(e: Event) {
    match e
    case OnRead(res) => res.Replied?
    case OnCommand(res) => res.Replied?
    case HandlerDies => false
    case _ => true
  }

  /** Past the drain, the entry is pending only while the process has it in its queue. */
  ghost predicate InHand(s: State, id: nat) {
    match s.pc
    case Down => id !in s.w.pending
    case Read(phase) => phase == Consuming && id !in s.w.pending
    case Work(phase, queue, _) => phase == Consuming && (id in s.w.pending ==> id in queue)
  }

  lemma InHandStep(count: nat, s: State, e: Event, id: nat)
    requires Inv(s) && Enabled(s, e) && !e.Start? && Smooth(e) && InHand(s, id)
    ensures InHand(Step(count, s, e), id)
  {
    match e
    case OnRead(res) =>
      var v := Deliver(s.w, count);
      assert id in v.pending ==> id in Range(s.w.delivered, v.delivered);
    case OnCommand(res) =>
      WithoutIs(s.w.pending, s.pc.queue[0]);
      assert forall x | x in s.pc.queue :: x == s.pc.queue[0] || x in s.pc.queue[1..];
    case _ =>
  }

  /** While no command fails, an entry that was not left pending by the drain is never passed over by the main loop,
      however its handler fares. */
  lemma {:induction false} NeverPassedOver(count: nat, s: State, es: seq<Event>, t: State, id: nat)
    requires Inv(s) && s.pc == Read(Consuming) && id !in s.w.pending && Reaches(count, s, es, t)
    requires forall i | 0 <= i < |es| :: !es[i].Start? && Smooth(es[i])
    ensures !PassedOver(t, id)
  {
    StaysInHand(count, s, es, t, id);
  }

  lemma {:induction false} StaysInHand(count: nat, s: State, es: seq<Event>, t: State, id: nat)
    requires Inv(s) && InHand(s, id) && Reaches(count, s, es, t)
    requires forall i | 0 <= i < |es| :: !es[i].Start? && Smooth(es[i])
    ensures InHand(t, id)
    decreases |es|
  {
    hide Step, Enabled, Inv, InHand, Smooth;
    if es != [] {
      StepKeeps(count, s, es[0]);
      InHandStep(count, s, es[0], id);
      StaysInHand(count, Step(count, s, es[0]), es[1..], t, id);
    }
  }
}
