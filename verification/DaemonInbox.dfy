/** What a daemon does with its inbox (bf_worker/worker_daemon.py): one entry read and started here, or handed back to
    the orchestrator through the rejected stream, and from there on to the daemon chosen next. */
module DaemonInbox {
  import opened Streams
  import opened Dispatch
  import DistrPull
  import Recovery

  datatype Verdict = NoMessage | Accepted(id: nat) | Refused(id: nat) | Raised(id: nat)

  /** What a worker process is started with. */
  datatype Start = Start(bugId: string, projectId: string, webUrl: string, jobId: string, sourceBranch: string)

  class Daemon {
    const redis: Redis
    const daemonId: string
    const concurrency: nat
    const minFreeMemory: nat
    /** The bugs with a recorded worker. */
    var active: set<string>
    var started: seq<Start>

    constructor (redis: Redis, daemonId: string, concurrency: nat, minFreeMemory: nat)
      ensures this.redis == redis && this.daemonId == daemonId && this.concurrency == concurrency
      ensures this.minFreeMemory == minFreeMemory && active == {} && started == []
    {
      this.redis, this.daemonId, this.concurrency, this.minFreeMemory := redis, daemonId, concurrency, minFreeMemory;
      active, started := {}, [];
    }

    predicate CanAccept(freeMemory: nat)
      reads this
    {
      concurrency - |active| > 0 && freeMemory >= minFreeMemory
    }

    /** Starts a worker with the entry's fields and acknowledges the entry; an entry without a bug id raises, and so may
        starting the process. */
    method Accept(id: nat, raises: bool, ghost w: DistrPull.World, ghost f: nat)
      returns (v: Verdict, ghost moves: seq<DistrPull.Move>)
      requires WellFormed(redis.db) && InPel(redis.db, Inbox(daemonId), id) && w.db == redis.db && f !in w.fibers
      modifies this, redis
      ensures id in At(old(redis.db), Inbox(daemonId)).items
      ensures v == if !raises && "bug_id" in At(old(redis.db), Inbox(daemonId)).items[id] then Accepted(id)
                   else Raised(id)
      ensures redis.db == if v.Accepted? then Ack(old(redis.db), Inbox(daemonId), id) else old(redis.db)
      ensures var t := Recovery.TaskAt(old(redis.db), Inbox(daemonId), id);
              Started(old(active), old(started), v, t) && DistrPull.Runs(w, moves, Ended(w, redis.db, v, t))
    {
      InPelIs(redis.db, Inbox(daemonId), id);
      var fields := At(redis.db, Inbox(daemonId)).items[id];
      if raises || "bug_id" !in fields {
        moves := DistrPull.Declining(w, f, daemonId, id);
        assert w.spawned + {} == w.spawned;
        return Raised(id), moves;
      }
      moves := DistrPull.TakingOn(w, f, daemonId, id);
      active := active + {fields["bug_id"]};
      started := started + [Start(fields["bug_id"], Field(fields, "project_id"), Field(fields, "project_web_url"),
                                  Field(fields, "job_id"), Field(fields, "source_branch"))];
      redis.db := Ack(redis.db, Inbox(daemonId), id);
      v := Accepted(id);
    }

    /** Hands an entry back. made says whether the rejected stream's group could be created, if it was not there. */
    method Reject(id: nat, made: bool, ghost w: DistrPull.World, ghost f: nat)
      returns (ghost moves: seq<DistrPull.Move>)
      requires WellFormed(redis.db) && InPel(redis.db, Inbox(daemonId), id) && w.db == redis.db && f !in w.fibers
      modifies redis
      ensures id in At(old(redis.db), Inbox(daemonId)).items && old(redis.db).next > 0
      ensures redis.db == HandedBack(old(redis.db), daemonId, id, made, Reason(concurrency - |active|))
      ensures DistrPull.Runs(w, moves, w.(db := redis.db))
    {
      InPelIs(redis.db, Inbox(daemonId), id);
      var fields := At(redis.db, Inbox(daemonId)).items[id];
      var reason := Reason(concurrency - |active|);
      moves := DistrPull.TurningDown(w, f, daemonId, id, reason, made);
      if made { redis.db := EnsureGroup(redis.db, Rejected); }
      redis.db := Add(redis.db, Rejected, RejectedFields(fields, daemonId, reason));
      redis.db := Ack(redis.db, Inbox(daemonId), id);
    }

    /** Accepts or refuses the entry just read; a is what the streams were before the read. */
    method Decide(ghost a: Db, id: nat, freeMemory: nat, raises: bool, made: bool, ghost w: DistrPull.World,
                  ghost f: nat)
      returns (v: Verdict, ghost moves: seq<DistrPull.Move>)
      requires WellFormed(redis.db) && InPel(redis.db, Inbox(daemonId), id) && w.db == redis.db && f !in w.fibers
      requires SameEntries(a, redis.db) && Reads(a, Inbox(daemonId), [id], redis.db)
      modifies this, redis
      ensures !v.NoMessage? && v.id == id && (v.Accepted? ==> !raises)
      ensures v.Refused? <==> |old(active)| >= concurrency || freeMemory < minFreeMemory
      ensures Judged(a, redis.db, daemonId, v, made, concurrency - |old(active)|)
      ensures Started(old(active), old(started), v, TaskOf(a, daemonId, v))
      ensures DistrPull.Runs(w, moves, Ended(w, redis.db, v, TaskOf(a, daemonId, v)))
    {
      ghost var b, room := redis.db, concurrency - |active|;
      SameTask(a, b, Inbox(daemonId), id);
      hide DistrPull.Runs, Judged, Reason, Live, WellFormed, HasGroup, SameEntries, Reads, Ack, InPel, HandedBack,
           Recovery.TaskAt, At, Ended, AsStart;
      if CanAccept(freeMemory) {
        v, moves := Accept(id, raises, w, f);
        if v.Accepted? {
          AcceptedIs(a, b, daemonId, id, made, room);
        } else {
          RaisedIs(a, b, daemonId, id, made, room);
        }
      } else {
        moves := Reject(id, made, w, f);
        v := Refused(id);
        RefusedIs(a, b, daemonId, id, made, room);
        RefusedEnds(w, redis.db, id, TaskOf(a, daemonId, v));
      }
    }

    /** An accepted entry leaves its bug recorded and a worker started with its five fields; nothing else does. */
    ghost predicate Started(was: set<string>, before: seq<Start>, v: Verdict, t: Task)
      reads this
    {
      && active == (if v.Accepted? then was + {t.bugId} else was)
      && started == (if v.Accepted? then before + [AsStart(t)] else before)
    }

    /** One turn of the inbox loop. It reads the oldest undelivered entry, if there is one, and refuses it exactly when
        as many workers are recorded as the concurrency allows or too little memory is free. */
    method HandleNext(freeMemory: nat, raises: bool, made: bool, ghost w: DistrPull.World, ghost f: nat)
      returns (v: Verdict, ghost moves: seq<DistrPull.Move>)
      requires WellFormed(redis.db) && w.db == redis.db && f !in w.fibers
      modifies this, redis
      ensures v.NoMessage? <==> forall n :: !Unread(old(redis.db), Inbox(daemonId), n)
      ensures !v.NoMessage? ==>
                && Unread(old(redis.db), Inbox(daemonId), v.id)
                && forall n | Unread(old(redis.db), Inbox(daemonId), n) :: v.id <= n
      ensures !v.NoMessage? ==> (v.Refused? <==> |old(active)| >= concurrency || freeMemory < minFreeMemory)
      ensures v.Accepted? ==> !raises
      ensures Judged(old(redis.db), redis.db, daemonId, v, made, concurrency - |old(active)|)
      ensures var t := TaskOf(old(redis.db), daemonId, v);
              Started(old(active), old(started), v, t) && DistrPull.Runs(w, moves, Ended(w, redis.db, v, t))
    {
      var k := Inbox(daemonId);
      ghost var a := redis.db;
      JudgedNothing(a, daemonId, made);
      assert forall t :: Ended(w, a, NoMessage, t) == w;
      moves := [];
      assert DistrPull.Runs(w, moves, w);
      assert !HasGroup(redis.db, k) ==> forall n :: !Unread(redis.db, k, n);
      hide DistrPull.Runs, Judged, Live, Unread, InPel, WellFormed, HasGroup, At, SameEntries, Reads, TaskOf;
      if !HasGroup(redis.db, k) { return NoMessage, moves; }
      var ids := redis.ReadNew(k, 1);
      ghost var b, more := redis.db, moves;
      moves := DistrPull.Receiving(w, k, ids, b);
      if ids == [] { return NoMessage, moves; }
      assert ids == [ids[0]];
      OldestRead(a, b, k, ids[0]);
      v, more := Decide(a, ids[0], freeMemory, raises, made, w.(db := b), f);
      ghost var t := TaskOf(a, daemonId, v);
      assert Ended(w.(db := b), redis.db, v, t) == Ended(w, redis.db, v, t);
      DistrPull.RunsJoin(w, moves, w.(db := b), more, Ended(w, redis.db, v, t));
      moves := moves + more;
    }
  }

  /** The machine after the turn: an accepted task counts as started. */
  ghost function Ended(w: DistrPull.World, db: Db, v: Verdict, t: Task): DistrPull.World {
    w.(db := db, spawned := w.spawned + if v.Accepted? then {t} else {})
  }

  lemma RefusedEnds(w: DistrPull.World, db: Db, id: nat, t: Task)
    ensures Ended(w, db, Refused(id), t) == w.(db := db)
  {
    assert w.spawned + {} == w.spawned;
  }

  /** Why an entry is refused. */
  function Reason(room: int): string { if room == 0 then "no_free_slots" else "insufficient_memory" }

  /** A process started with what stands under the five names of the fields, the bug id's required. */
  predicate RunsWith(s: Start, f: Fields) {
    && "bug_id" in f && s.bugId == f["bug_id"]
    && s.projectId == (if "project_id" in f then f["project_id"] else "")
    && s.webUrl == (if "project_web_url" in f then f["project_web_url"] else "")
    && s.jobId == (if "job_id" in f then f["job_id"] else "")
    && s.sourceBranch == (if "source_branch" in f then f["source_branch"] else "")
  }

  lemma StartIs(f: Fields)
    requires "bug_id" in f
    ensures RunsWith(AsStart(View(f)), f)
  {
  }

  function AsStart(t: Task): Start { Start(t.bugId, t.projectId, t.webUrl, t.jobId, t.sourceBranch) }

  function TaskOf(db: Db, d: string, v: Verdict): Task {
    Recovery.TaskAt(db, Inbox(d), if v.NoMessage? then 0 else v.id)
  }

  /** Only the entry but of stream k is owed no more, and what is owed keeps its fields. */
  ghost predicate OwedBut(a: Db, b: Db, k: Key, but: nat) {
    && (forall j: Key, n: nat | Live(a, j, n) && (j, n) != (k, but) ::
          Live(b, j, n) && At(b, j).items[n] == At(a, j).items[n])
    && !Live(b, k, but)
  }

  /** No stream but k has other entries than before. */
  ghost predicate SameItems(a: Db, b: Db, k: Key) { forall j | j != k :: At(b, j).items == At(a, j).items }

  /** What a verdict on the entry makes of the streams. Accepted: the inbox owes it no more, no stream gets an entry.
      Refused: the inbox owes it no more, and the rejected stream gets one entry with its five fields, the daemon's name
      and the reason, owed as a new one if the group is there. Nothing else changes. */
  ghost predicate Judged(a: Db, b: Db, d: string, v: Verdict, made: bool, room: int) {
    && WellFormed(b) && (forall j | HasGroup(a, j) :: HasGroup(b, j))
    && match v
       case NoMessage => b == a
       case Raised(id) => SameEntries(a, b) && InPel(b, Inbox(d), id)
       case Accepted(id) =>
         && b.next == a.next && OwedBut(a, b, Inbox(d), id)
         && forall j :: At(b, j).items == At(a, j).items
       case Refused(id) =>
         && b.next == a.next + 1 && OwedBut(a, b, Inbox(d), id) && SameItems(a, b, Rejected)
         && At(b, Rejected).items.Keys == At(a, Rejected).items.Keys + {a.next}
         && (var f := At(b, Rejected).items[a.next];
             && View(f) == Recovery.TaskAt(a, Inbox(d), id)
             && "daemon_id" in f && f["daemon_id"] == d && "reason" in f
             && f["reason"] == if room == 0 then "no_free_slots" else "insufficient_memory")
         && (HasGroup(b, Rejected) <==> made || HasGroup(a, Rejected))
         && (HasGroup(b, Rejected) <==> Unread(b, Rejected, a.next))
         && forall j: Key, n: nat | Live(b, j, n) :: (j, n) == (Rejected, a.next) || Live(a, j, n)
  }

  lemma JudgedNothing(a: Db, d: string, made: bool)
    requires WellFormed(a)
    ensures forall room: int :: Judged(a, a, d, NoMessage, made, room)
  {
  }

  lemma InPelIs(db: Db, k: Key, id: nat)
    requires WellFormed(db) && InPel(db, k, id)
    ensures id in At(db, k).items && Live(db, k, id) && 0 < db.next && id < db.next
  {
  }

  lemma OldestRead(a: Db, b: Db, k: Key, id: nat)
    requires forall n :: Unread(a, k, n) <==> n in [id] || Unread(b, k, n)
    requires forall i: nat, j: nat | i in [id] && Unread(b, k, j) :: i < j
    ensures Unread(a, k, id) && forall n | Unread(a, k, n) :: id <= n
  {
  }

  lemma ReadsItems(a: Db, k: Key, ids: seq<nat>, b: Db)
    requires Reads(a, k, ids, b)
    ensures forall j :: At(b, j).items == At(a, j).items
    ensures b.next == a.next
    decreases |ids|
  {
    if ids != [] { ReadsItems(Deliver(a, k, ids[0]), k, ids[1..], b); }
  }

  lemma SameTask(a: Db, b: Db, k: Key, id: nat)
    requires Reads(a, k, [id], b)
    ensures Recovery.TaskAt(a, k, id) == Recovery.TaskAt(b, k, id)
  {
    ReadsItems(a, k, [id], b);
  }

  lemma RaisedIs(a: Db, b: Db, d: string, id: nat, made: bool, room: int)
    requires SameEntries(a, b) && WellFormed(b) && InPel(b, Inbox(d), id)
    ensures Judged(a, b, d, Raised(id), made, room)
  {
  }

  lemma AcceptedIs(a: Db, b: Db, d: string, id: nat, made: bool, room: int)
    requires SameEntries(a, b) && WellFormed(b) && InPel(b, Inbox(d), id) && Reads(a, Inbox(d), [id], b)
    ensures Judged(a, Ack(b, Inbox(d), id), d, Accepted(id), made, room)
  {
    ReadsItems(a, Inbox(d), [id], b);
    AckedEntries(b, Inbox(d), id);
    var c := Ack(b, Inbox(d), id);
    assert forall j :: At(c, j).items == At(b, j).items;
  }

  function HandedBack(b: Db, d: string, id: nat, made: bool, reason: string): Db
    requires b.next > 0 && id in At(b, Inbox(d)).items
  {
    var db := if made then EnsureGroup(b, Rejected) else b;
    Ack(Add(db, Rejected, RejectedFields(At(b, Inbox(d)).items[id], d, reason)), Inbox(d), id)
  }

  lemma RefusedIs(a: Db, b: Db, d: string, id: nat, made: bool, room: int)
    requires SameEntries(a, b) && WellFormed(b) && InPel(b, Inbox(d), id) && Reads(a, Inbox(d), [id], b)
    ensures b.next > 0 && id in At(b, Inbox(d)).items
    ensures Judged(a, HandedBack(b, d, id, made, Reason(room)), d, Refused(id), made, room)
  {
    ReadsItems(a, Inbox(d), [id], b);
    var f := RejectedFields(At(b, Inbox(d)).items[id], d, Reason(room));
    var e := HandedBack(b, d, id, made, Reason(room));
    HandedBackItems(b, d, id, made, Reason(room));
    HandedBackOwed(b, d, id, made, Reason(room));
    hide HandedBack, At, EnsureGroup, Add, Ack;
    assert At(e, Rejected).items[a.next] == f;
  }

  lemma HandedBackItems(b: Db, d: string, id: nat, made: bool, reason: string)
    requires b.next > 0 && id in At(b, Inbox(d)).items
    ensures var e, f := HandedBack(b, d, id, made, reason), RejectedFields(At(b, Inbox(d)).items[id], d, reason);
      && e.next == b.next + 1 && (forall j | j != Rejected :: At(e, j).items == At(b, j).items)
      && At(e, Rejected).items == At(b, Rejected).items[b.next := f]
      && (forall j | HasGroup(b, j) :: HasGroup(e, j)) && (HasGroup(e, Rejected) <==> made || HasGroup(b, Rejected))
  {
  }

  lemma HandedBackOwed(b: Db, d: string, id: nat, made: bool, reason: string)
    requires WellFormed(b) && InPel(b, Inbox(d), id)
    ensures b.next > 0 && id in At(b, Inbox(d)).items
    ensures var e := HandedBack(b, d, id, made, reason);
      && WellFormed(e) && OwedBut(b, e, Inbox(d), id)
      && (HasGroup(e, Rejected) <==> Unread(e, Rejected, b.next))
      && forall j: Key, n: nat | Live(e, j, n) :: (j, n) == (Rejected, b.next) || Live(b, j, n)
  {
    var f := RejectedFields(At(b, Inbox(d)).items[id], d, reason);
    var db := if made then EnsureGroup(b, Rejected) else b;
    var c := Add(db, Rejected, f);
    if made { EnsuredEntries(b, Rejected); }
    assert WellFormed(db) && InPel(db, Inbox(d), id) && db.next == b.next;
    AddKeeps(db, Rejected, f);
    AddedEntries(db, Rejected, f);
    NewIsUnread(db, f, Inbox(d), id);
    AckedEntries(c, Inbox(d), id);
    hide EnsureGroup, Add, Ack, At, Live, InPel, WellFormed, Unread, HasGroup;
    assert HandedBack(b, d, id, made, reason) == Ack(c, Inbox(d), id);
  }

  /** An entry added to the rejected stream is new to its group, and no entry of an inbox changes. */
  lemma NewIsUnread(db: Db, f: Fields, k: Key, id: nat)
    requires WellFormed(db) && k.Inbox? && InPel(db, k, id)
    ensures var c := Add(db, Rejected, f);
      && InPel(c, k, id) && (HasGroup(Ack(c, k, id), Rejected) <==> Unread(Ack(c, k, id), Rejected, db.next))
  {
  }

  // ---- From a daemon that turns a task down to the one chosen next ----

  lemma CalledIsAble(d: Desk, seen: Seen)
    ensures var (c, e) := Called(d, seen);
      && e.minMemory == d.minMemory
      && (c.Daemon? ==> AbleIn(e.cache, c.id, d.minMemory))
      && (c.Nobody? ==> forall id :: !AbleIn(e.cache, id, d.minMemory))
  {
    ChosenIsEligible(Called(d, seen).1.cache, d.minMemory, d.pointer);
    hide Fetched, InOrder, Fit, ChoiceOf, AbleIn;
  }

  /** Each call of a sequence chooses a daemon its cache knows as able, and nobody only if it knows none. */
  lemma {:induction false} UpcomingAreAble(d: Desk, seens: seq<Seen>, j: nat)
    requires j < |seens|
    ensures var c, cache := Upcoming(d, seens)[j], After(d, seens[..j + 1]).cache;
      && (c.Daemon? ==> AbleIn(cache, c.id, d.minMemory))
      && (c.Nobody? ==> forall id :: !AbleIn(cache, id, d.minMemory))
    decreases |seens|
  {
    hide Called, AbleIn;
    var n := |seens| - 1;
    if j < n {
      UpcomingAreAble(d, seens[..n], j);
      assert seens[..n][..j + 1] == seens[..j + 1];
    } else {
      assert seens[..j + 1] == seens;
      CalledIsAble(After(d, seens[..n]), seens[n]);
      SameMinimum(d, seens[..n]);
    }
  }

  lemma {:induction false} SameMinimum(d: Desk, seens: seq<Seen>)
    ensures After(d, seens).minMemory == d.minMemory
  {
    if seens != [] { SameMinimum(d, seens[..|seens| - 1]); }
  }

  /** The entry n of the rejected stream stands again with its task where the call made for it sent it, or ten older
      ones came first. */
  ghost predicate PassedOn(db: Db, n: nat, t: Task, taken: seq<nat>, choices: seq<Choice>) {
    if n in taken then
      exists j :: 0 <= j < |taken| && j < |choices| && taken[j] == n
                  && Recovery.HasCopy(db, Target(choices[j]), t, n + 1)
    else |taken| == 10 && forall id | id in taken :: id < n
  }

  /** A daemon's turn, and the orchestrator's next pass over the rejected stream: a task the daemon turned down is owed
      by the inbox of the daemon the dispatcher chooses for it, by pending if nobody is able, unless ten older rejected
      tasks came first. */
  method HandOver(d: Daemon, m: Recovery.DaemonMonitor, freeMemory: nat, raises: bool, made: bool, later: nat -> Seen,
                  ghost w: DistrPull.World, ghost f: nat)
    returns (v: Verdict, ok: bool, taken: seq<nat>, ghost choices: seq<Choice>, ghost moves: seq<DistrPull.Move>)
    requires m.redis == d.redis && m.dispatcher.redis == d.redis && w.db == d.redis.db && f !in w.fibers
    requires WellFormed(d.redis.db) && HasGroup(d.redis.db, Pending) && (made || HasGroup(d.redis.db, Rejected))
    modifies d, d.redis, m.dispatcher
    ensures v.Refused? <==> (exists n :: Unread(old(d.redis.db), Inbox(d.daemonId), n))
                            && (|old(d.active)| >= d.concurrency || freeMemory < d.minFreeMemory)
    ensures ok ==> choices == Upcoming(old(m.dispatcher.State()), Recovery.Sight(later, |taken|))
    ensures ok && v.Refused? ==>
              PassedOn(d.redis.db, old(d.redis.db).next, TaskOf(old(d.redis.db), d.daemonId, v), taken, choices)
    ensures DistrPull.Runs(w, moves, Ended(w, d.redis.db, v, TaskOf(old(d.redis.db), d.daemonId, v)))
  {
    hide Unread, Live, HasGroup, WellFormed, At, DistrPull.Runs, Upcoming;
    ghost var a, task := d.redis.db, Task("", "", "", "", "");
    v, moves := d.HandleNext(freeMemory, raises, made, w, f);
    task := TaskOf(a, d.daemonId, v);
    ghost var b := d.redis.db;
    JudgedKeeps(a, b, d.daemonId, v, made);
    ghost var u := Ended(w, b, v, task);
    ghost var more;
    ok, taken, choices, more := m.RetryStream(Rejected, [], later, later, u, f);
    DistrPull.RunsJoin(w, moves, u, more, u.(db := d.redis.db));
    moves := moves + more;
    assert Recovery.Sight(later, 0) == [] && [] + Recovery.Sight(later, |taken|) == Recovery.Sight(later, |taken|);
    if ok && v.Refused? { Requeues(a, b, d.redis.db, d.daemonId, v, made, taken, choices); }
  }

  lemma JudgedKeeps(a: Db, b: Db, d: string, v: Verdict, made: bool)
    requires exists room: int :: Judged(a, b, d, v, made, room)
    ensures WellFormed(b) && forall j | HasGroup(a, j) :: HasGroup(b, j)
  {
  }

  lemma Requeues(a: Db, b: Db, c: Db, d: string, v: Verdict, made: bool, taken: seq<nat>, choices: seq<Choice>)
    requires v.Refused? && (made || HasGroup(a, Rejected)) && exists room: int :: Judged(a, b, d, v, made, room)
    requires Recovery.RetriedAll(b, c, Rejected, [], taken) && Recovery.Requeued(b, c, Rejected, taken, choices)
    ensures PassedOn(c, a.next, TaskOf(a, d, v), taken, choices)
  {
    assert Unread(b, Rejected, a.next) && Recovery.TaskAt(b, Rejected, a.next) == TaskOf(a, d, v);
    if a.next in taken {
      var j :| 0 <= j < |taken| && taken[j] == a.next;
      assert Recovery.HasCopy(c, Target(choices[j]), TaskOf(a, d, v), b.next);
    }
  }
}
