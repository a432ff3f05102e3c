/** The recovery loops of the daemon monitor: retry of the pending and rejected queues, and the inbox of a daemon that
    died. */
module Recovery {
  import opened Streams
  import opened Dispatch
  import RoundRobin
  import DistrPull

  const BATCH := 10

  /** b owes what a owes, whichever entries of stream k other than ids are left out of account. */
  ghost predicate Preserves(a: Db, b: Db, k: Key, ids: seq<nat>) {
    forall us: set<nat>, t | Apart(us, a.next, ids) :: OwesBeside(a, k, us, t) <==> OwesBeside(b, k, us, t)
  }

  ghost predicate Apart(us: set<nat>, next: nat, ids: seq<nat>) { forall u | u in us :: u < next && u !in ids }

  /** No call can choose the daemon whose inbox k is: the cache does not hold it, and a refresh will not find it. */
  ghost predicate Shunned(k: Key, cache: seq<Info>, seen: nat -> Seen) {
    k.Inbox? && (forall i | i in cache :: i.id != k.daemon) && forall j :: k.daemon !in seen(j).hashes
  }

  lemma PreservesStep(a: Db, b: Db, choice: Choice, k: Key, ids: seq<nat>, i: nat)
    requires WellFormed(b) && a.next <= b.next && i < |ids| && InPel(b, k, ids[i]) && Preserves(a, b, k, ids)
    requires choice.Nobody? ==> HasGroup(b, Pending)
    ensures Preserves(a, Shifted(b, choice, k, ids[i]), k, ids)
  {
    assert b.next > 0 && ids[i] in At(b, k).items;
    hide Shifted, OwesBeside, InPel, WellFormed, HasGroup, At;
    forall us: set<nat>, t | Apart(us, a.next, ids)
      ensures OwesBeside(a, k, us, t) <==> OwesBeside(Shifted(b, choice, k, ids[i]), k, us, t)
    {
      ShiftedOwes(b, choice, k, ids[i], us, t);
    }
  }

  /** A shunned inbox stays shunned after the next call, and that call does not choose it. */
  lemma NotChosen(k: Key, cache: seq<Info>, seen: nat -> Seen, i: nat, next: seq<Info>, minMemory: int, pointer: nat)
    requires Shunned(k, cache, seen) && (next == cache || next == Fetched(seen(i).members, seen(i).hashes))
    ensures Shunned(k, next, seen)
    ensures Target(ChoiceOf(InOrder(next), RoundRobin.Take(Fit(InOrder(next), minMemory), pointer).choice)) != k
  {
    FetchedAre(seen(i).members, seen(i).hashes);
    ChosenIsEligible(next, minMemory, pointer);
  }

  lemma InPelHas(db: Db, k: Key, id: nat)
    requires WellFormed(db) && InPel(db, k, id)
    ensures id in At(db, k).items && id < db.next
  {
  }

  lemma ShiftIs(db: Db, choice: Choice, k: Key, id: nat)
    requires db.next > 0 && id in At(db, k).items
    ensures Ack(Respawned(db, choice, At(db, k).items[id]), k, id) == Shifted(db, choice, k, id)
  {
  }

  /** What is true of the stream after some of its entries were dispatched again and acknowledged. */
  ghost predicate Progress(a: Db, b: Db, k: Key, ids: seq<nat>, i: nat)
    requires i <= |ids|
  {
    && WellFormed(b) && a.next <= b.next
    && (forall j | i <= j < |ids| :: InPel(b, k, ids[j]))
    && (forall j | 0 <= j < i :: !Live(b, k, ids[j]) && ids[j] < b.next)
    && (forall n: nat | Live(b, k, n) :: Live(a, k, n) || n >= a.next)
    && (forall n: nat | Unread(a, k, n) :: SameUnread(a, b, k, n))
    && (forall j: Key | HasGroup(a, j) :: HasGroup(b, j))
  }

  /** Stream k owes nothing in b that it does not owe in a. */
  ghost predicate NothingNew(a: Db, b: Db, k: Key) { forall n: nat | Live(b, k, n) :: Live(a, k, n) }

  lemma NothingNewChain(a: Db, b: Db, c: Db, k: Key)
    requires NothingNew(a, b, k) && NothingNew(b, c, k)
    ensures NothingNew(a, c, k)
  {
  }

  lemma ProgressStep(a: Db, b: Db, choice: Choice, k: Key, ids: seq<nat>, i: nat)
    requires i < |ids| && Distinct(ids) && Progress(a, b, k, ids, i) && (choice.Nobody? ==> HasGroup(b, Pending))
    ensures Progress(a, Shifted(b, choice, k, ids[i]), k, ids, i + 1)
    ensures Target(choice) != k ==> NothingNew(b, Shifted(b, choice, k, ids[i]), k)
  {
    hide Shifted, Live, InPel, Unread, HasGroup, WellFormed, At, View, Target;
    var id := ids[i];
    InPelHas(b, k, id);
    ShiftedEntries(b, choice, k, id);
    var v := Shifted(b, choice, k, id);
    assert forall j | i + 1 <= j < |ids| :: ids[j] != id && InPel(v, k, ids[j]);
    assert !Live(v, k, id);
    assert forall j | 0 <= j < i :: !Live(v, k, ids[j]);
    forall n: nat | Unread(a, k, n) ensures SameUnread(a, v, k, n) {
      UnreadIsLive(b, k, n, id);
      UnreadIsLive(v, k, n, id);
    }
  }

  predicate SameUnread(a: Db, b: Db, k: Key, n: nat)
    requires Unread(a, k, n)
  {
    Unread(b, k, n) && At(b, k).items[n] == At(a, k).items[n]
  }

  lemma UnreadIsLive(db: Db, k: Key, n: nat, id: nat)
    requires WellFormed(db) && Unread(db, k, n)
    ensures Live(db, k, n) && n in At(db, k).items && !InPel(db, k, n)
  {
  }

  /** The task the entry carries, no task if there is none. */
  function TaskAt(db: Db, k: Key, id: nat): Task { View(if id in At(db, k).items then At(db, k).items[id] else map[]) }

  /** The entries ids of stream k stand again, each with its five fields, where the calls sent them. */
  ghost predicate Placed(a: Db, b: Db, k: Key, ids: seq<nat>, choices: seq<Choice>) {
    && |choices| <= |ids| && b.next == a.next + |choices| && (forall j | 0 <= j < |ids| :: ids[j] < a.next)
    && (forall j | |choices| <= j < |ids| :: TaskAt(b, k, ids[j]) == TaskAt(a, k, ids[j]))
    && (forall j | 0 <= j < |choices| ::
          Live(b, Target(choices[j]), a.next + j) && TaskAt(b, Target(choices[j]), a.next + j) == TaskAt(a, k, ids[j]))
  }

  lemma PlacedOn(a: Db, b: Db, choice: Choice, k: Key, ids: seq<nat>, choices: seq<Choice>)
    requires |choices| < |ids| && Distinct(ids) && Progress(a, b, k, ids, |choices|)
    requires Placed(a, b, k, ids, choices) && (choice.Nobody? ==> HasGroup(b, Pending))
    ensures b.next > 0 && ids[|choices|] in At(b, k).items
    ensures Placed(a, Shifted(b, choice, k, ids[|choices|]), k, ids, choices + [choice])
  {
    var i := |choices|;
    assert InPel(b, k, ids[i]);
    forall j | i <= j < |ids| ensures Live(b, k, ids[j]) { assert InPel(b, k, ids[j]); }
    ShiftedTasks(b, choice, k, ids[i]);
    hide Shifted, Live, InPel, HasGroup, WellFormed, At, Target, TaskAt, Placed, Progress;
    PlacedNext(a, b, Shifted(b, choice, k, ids[i]), choice, k, ids, choices);
  }

  lemma PlacedNext(a: Db, b: Db, v: Db, choice: Choice, k: Key, ids: seq<nat>, choices: seq<Choice>)
    requires |choices| < |ids| && Distinct(ids)
    requires Placed(a, b, k, ids, choices) && forall j | |choices| <= j < |ids| :: Live(b, k, ids[j])
    requires v.next == b.next + 1 && Live(v, Target(choice), b.next)
    requires TaskAt(v, Target(choice), b.next) == TaskAt(b, k, ids[|choices|])
    requires forall j: Key, n: nat | Live(b, j, n) && (j, n) != (k, ids[|choices|]) ::
               Live(v, j, n) && TaskAt(v, j, n) == TaskAt(b, j, n)
    ensures Placed(a, v, k, ids, choices + [choice])
  {
    hide Live, Target, TaskAt;
    var i, cs := |choices|, choices + [choice];
    forall j | i < j < |ids| ensures TaskAt(v, k, ids[j]) == TaskAt(a, k, ids[j]) {
      assert ids[j] != ids[i] && Live(b, k, ids[j]);
    }
    forall j | 0 <= j < i
      ensures Live(v, Target(cs[j]), a.next + j) && TaskAt(v, Target(cs[j]), a.next + j) == TaskAt(a, k, ids[j])
    {
      assert cs[j] == choices[j] && Live(b, Target(choices[j]), a.next + j) && a.next + j != ids[i];
    }
    assert cs[i] == choice && b.next == a.next + i;
  }

  lemma ShiftedTasks(db: Db, choice: Choice, k: Key, id: nat)
    requires WellFormed(db) && InPel(db, k, id) && (choice.Nobody? ==> HasGroup(db, Pending))
    ensures var v := Shifted(db, choice, k, id);
            && v.next == db.next + 1 && Live(v, Target(choice), db.next)
            && TaskAt(v, Target(choice), db.next) == TaskAt(db, k, id)
            && forall j: Key, n: nat | Live(db, j, n) && (j, n) != (k, id) ::
                 Live(v, j, n) && TaskAt(v, j, n) == TaskAt(db, j, n)
  {
    ShiftedEntries(db, choice, k, id);
    var v := Shifted(db, choice, k, id);
    hide Shifted, InPel, HasGroup, WellFormed, View, Target;
    assert Live(v, Target(choice), db.next);
    forall j: Key, n: nat | Live(db, j, n) && (j, n) != (k, id)
      ensures Live(v, j, n) && TaskAt(v, j, n) == TaskAt(db, j, n)
    {
      assert Live(v, j, n);
    }
  }

  /** All that, and an inbox nobody can choose got no new entry. */
  ghost predicate Done(a: Db, b: Db, k: Key, ids: seq<nat>, choices: seq<Choice>, shunned: bool)
    requires |choices| <= |ids|
  {
    && Preserves(a, b, k, ids) && Progress(a, b, k, ids, |choices|) && HasGroup(b, Pending)
    && Placed(a, b, k, ids, choices) && (shunned ==> NothingNew(a, b, k))
  }

  lemma DoneFirst(a: Db, k: Key, ids: seq<nat>, shunned: bool)
    requires WellFormed(a) && HasGroup(a, Pending) && forall j | 0 <= j < |ids| :: InPel(a, k, ids[j])
    ensures Done(a, a, k, ids, [], shunned)
  {
  }

  lemma DoneIs(a: Db, b: Db, k: Key, ids: seq<nat>, choices: seq<Choice>, shunned: bool)
    requires |choices| <= |ids| && Done(a, b, k, ids, choices, shunned)
    ensures WellFormed(b) && b.next > 0 && HasGroup(b, Pending) && Placed(a, b, k, ids, choices)
    ensures var i := |choices|; i < |ids| ==> InPel(b, k, ids[i]) && ids[i] in At(b, k).items
    ensures Preserves(a, b, k, ids) && Progress(a, b, k, ids, |choices|)
    ensures shunned ==> NothingNew(a, b, k)
  {
    hide Preserves, Placed, NothingNew;
  }

  lemma DoneOn(a: Db, b: Db, choice: Choice, k: Key, ids: seq<nat>, choices: seq<Choice>, shunned: bool)
    requires |choices| < |ids| && Distinct(ids) && Done(a, b, k, ids, choices, shunned)
    requires shunned ==> Target(choice) != k
    ensures b.next > 0 && ids[|choices|] in At(b, k).items
    ensures Done(a, Shifted(b, choice, k, ids[|choices|]), k, ids, choices + [choice], shunned)
  {
    var i := |choices|;
    hide Preserves, Shifted, Live, InPel, Unread, At, Target, Placed, WellFormed, HasGroup, Progress, NothingNew,
         Distinct;
    DoneIs(a, b, k, ids, choices, shunned);
    ProgressIs(a, b, k, ids, i);
    PreservesStep(a, b, choice, k, ids, i);
    ProgressStep(a, b, choice, k, ids, i);
    PlacedOn(a, b, choice, k, ids, choices);
    var v := Shifted(b, choice, k, ids[i]);
    PendingKept(b, choice, k, ids[i]);
    if shunned { NothingNewChain(a, b, v, k); }
    assert |choices + [choice]| == i + 1;
    assert Done(a, v, k, ids, choices + [choice], shunned);
  }

  lemma PendingKept(b: Db, choice: Choice, k: Key, id: nat)
    requires WellFormed(b) && InPel(b, k, id) && HasGroup(b, Pending)
    ensures HasGroup(Shifted(b, choice, k, id), Pending)
  {
    ShiftedEntries(b, choice, k, id);
  }

  lemma ProgressIs(a: Db, b: Db, k: Key, ids: seq<nat>, i: nat)
    requires i <= |ids| && Progress(a, b, k, ids, i)
    ensures a.next <= b.next && WellFormed(b) && b.next > 0 && forall j: Key | HasGroup(a, j) :: HasGroup(b, j)
  {
  }

  /** What the first n calls of a sequence see. */
  function Sight(seen: nat -> Seen, n: nat): seq<Seen> { seq(n, i requires 0 <= i < n => seen(i)) }

  /** The choices are those of the dispatcher's next calls, and the desk is what these leave. */
  ghost predicate Said(d: Desk, now: Desk, seen: nat -> Seen, choices: seq<Choice>) {
    choices == Upcoming(d, Sight(seen, |choices|)) && now == After(d, Sight(seen, |choices|))
  }

  lemma SaidNothing(d: Desk, seen: nat -> Seen)
    ensures Said(d, d, seen, [])
  {
  }

  lemma SaidIs(d: Desk, now: Desk, seen: nat -> Seen, choices: seq<Choice>)
    requires Said(d, now, seen, choices)
    ensures choices == Upcoming(d, Sight(seen, |choices|))
  {
  }

  lemma SaidOn(d: Desk, now: Desk, seen: nat -> Seen, choices: seq<Choice>, choice: Choice, next: Desk)
    requires Said(d, now, seen, choices) && (choice, next) == Called(now, seen(|choices|))
    ensures Said(d, next, seen, choices + [choice])
  {
    hide Called;
    var n := |choices|;
    assert Sight(seen, n + 1)[..n] == Sight(seen, n) && Sight(seen, n + 1)[n] == seen(n);
  }

  lemma SaidBoth(d: Desk, now: Desk, end: Desk, seen: nat -> Seen, choices: seq<Choice>, later: nat -> Seen,
                 more: seq<Choice>)
    requires Said(d, now, seen, choices) && Said(now, end, later, more)
    ensures choices + more == Upcoming(d, Sight(seen, |choices|) + Sight(later, |more|))
  {
    UpcomingJoin(d, Sight(seen, |choices|), Sight(later, |more|));
  }

  /** A loop over the entries ids of stream k, as it started. */
  datatype Round = Round(a: Db, k: Key, ids: seq<nat>, shunned: bool, desk: Desk, w: DistrPull.World)

  /** Where it stands after some rounds. */
  ghost predicate Going(r: Round, seen: nat -> Seen, b: Db, now: Desk, choices: seq<Choice>, moves: seq<DistrPull.Move>)
    requires |choices| <= |r.ids|
  {
    && Done(r.a, b, r.k, r.ids, choices, r.shunned) && Said(r.desk, now, seen, choices)
    && DistrPull.Runs(r.w, moves, r.w.(db := b))
  }

  lemma GoingFirst(r: Round, seen: nat -> Seen)
    requires WellFormed(r.a) && HasGroup(r.a, Pending) && forall j | 0 <= j < |r.ids| :: InPel(r.a, r.k, r.ids[j])
    requires r.w.db == r.a
    ensures Going(r, seen, r.a, r.desk, [], [])
  {
    DoneFirst(r.a, r.k, r.ids, r.shunned);
    SaidNothing(r.desk, seen);
  }

  lemma GoingIs(r: Round, seen: nat -> Seen, b: Db, now: Desk, choices: seq<Choice>, moves: seq<DistrPull.Move>)
    requires |choices| <= |r.ids| && Going(r, seen, b, now, choices, moves)
    ensures WellFormed(b) && b.next > 0 && HasGroup(b, Pending) && Placed(r.a, b, r.k, r.ids, choices)
    ensures var i := |choices|; i < |r.ids| ==> InPel(b, r.k, r.ids[i]) && r.ids[i] in At(b, r.k).items
    ensures Preserves(r.a, b, r.k, r.ids) && Progress(r.a, b, r.k, r.ids, |choices|)
    ensures r.shunned ==> NothingNew(r.a, b, r.k)
    ensures Said(r.desk, now, seen, choices) && choices == Upcoming(r.desk, Sight(seen, |choices|))
    ensures DistrPull.Runs(r.w, moves, r.w.(db := b))
  {
    DoneIs(r.a, b, r.k, r.ids, choices, r.shunned);
    SaidIs(r.desk, now, seen, choices);
  }

  lemma GoingOn(r: Round, seen: nat -> Seen, b: Db, now: Desk, choices: seq<Choice>, moves: seq<DistrPull.Move>,
                choice: Choice, next: Desk, round: seq<DistrPull.Move>)
    requires |choices| < |r.ids| && Distinct(r.ids) && Going(r, seen, b, now, choices, moves)
    requires (choice, next) == Called(now, seen(|choices|)) && (r.shunned ==> Target(choice) != r.k)
    requires b.next > 0 && r.ids[|choices|] in At(b, r.k).items
    requires DistrPull.Runs(r.w.(db := b), round, r.w.(db := Shifted(b, choice, r.k, r.ids[|choices|])))
    ensures Going(r, seen, Shifted(b, choice, r.k, r.ids[|choices|]), next, choices + [choice], moves + round)
  {
    hide DistrPull.Runs, Done, Said, Called, Shifted, Target, Distinct, At;
    DoneOn(r.a, b, choice, r.k, r.ids, choices, r.shunned);
    SaidOn(r.desk, now, seen, choices, choice, next);
    ThenRuns(r.w, moves, b, round, Shifted(b, choice, r.k, r.ids[|choices|]));
  }

  class DaemonMonitor {
    const redis: Redis
    const dispatcher: Dispatcher

    constructor (dispatcher: Dispatcher)
      ensures this.dispatcher == dispatcher && redis == dispatcher.redis
    {
      this.dispatcher := dispatcher;
      redis := dispatcher.redis;
    }

    /** Dispatches one delivered entry again, and acknowledges it once its new copy is in place. */
    method Renew(k: Key, id: nat, seen: nat -> Seen, i: nat, ghost w: DistrPull.World, ghost f: nat)
      returns (ok: bool, ghost choice: Choice, ghost moves: seq<DistrPull.Move>)
      requires w.db == redis.db && f !in w.fibers
      requires dispatcher.redis == redis && WellFormed(redis.db)
      requires InPel(redis.db, k, id) && id in At(redis.db, k).items
      modifies redis, dispatcher
      ensures redis.db == if ok then Shifted(old(redis.db), choice, k, id) else old(redis.db)
      ensures (choice, dispatcher.State()) == Called(old(dispatcher.State()), seen(i))
      ensures old(Shunned(k, dispatcher.cache, seen)) ==> Shunned(k, dispatcher.cache, seen) && Target(choice) != k
      ensures DistrPull.Runs(w, moves, w.(db := redis.db))
    {
      hide DistrPull.Runs, InPel, At, Respawned, Ack, Shifted, Fetched, InOrder, Fit, RoundRobin.Take;
      ghost var db, cache, pointer := redis.db, dispatcher.cache, dispatcher.judgePointer;
      var fields := At(redis.db, k).items[id];
      ok, choice := dispatcher.SpawnRaw(fields, seen(i));
      if old(Shunned(k, dispatcher.cache, seen)) {
        NotChosen(k, cache, seen, i, dispatcher.cache, dispatcher.minFreeMemoryMb, pointer);
      }
      if !ok {
        moves := DistrPull.GivingUp(w, f, k, id, choice.id);
        return;
      }
      moves := RetryIsSteps(w, f, choice, k, id);
      redis.db := Ack(redis.db, k, id);
      ShiftIs(db, choice, k, id);
    }

    /** Dispatches delivered entries again, one by one, each where the dispatcher's next call says: from any world with
        these streams and no coroutine f, this is a run of the protocol machine, however it ends. */
    method Redispatch(k: Key, ids: seq<nat>, seen: nat -> Seen, ghost w: DistrPull.World, ghost f: nat)
      returns (ok: bool, ghost choices: seq<Choice>, ghost moves: seq<DistrPull.Move>)
      requires w.db == redis.db && f !in w.fibers
      requires dispatcher.redis == redis && WellFormed(redis.db) && HasGroup(redis.db, Pending)
      requires Distinct(ids) && forall j | 0 <= j < |ids| :: InPel(redis.db, k, ids[j])
      modifies redis, dispatcher
      ensures Preserves(old(redis.db), redis.db, k, ids) && WellFormed(redis.db) && HasGroup(redis.db, Pending)
      ensures ok ==> Progress(old(redis.db), redis.db, k, ids, |ids|) && |choices| == |ids|
      ensures Placed(old(redis.db), redis.db, k, ids, choices)
      ensures choices == Upcoming(old(dispatcher.State()), Sight(seen, |choices|))
      ensures ok ==> Said(old(dispatcher.State()), dispatcher.State(), seen, choices)
      ensures old(Shunned(k, dispatcher.cache, seen)) ==> NothingNew(old(redis.db), redis.db, k)
      ensures DistrPull.Runs(w, moves, w.(db := redis.db))
    {
      ghost var r := Round(redis.db, k, ids, Shunned(k, dispatcher.cache, seen), dispatcher.State(), w);
      choices, moves := [], [];
      GoingFirst(r, seen);
      hide DistrPull.Runs, Going, InPel, HasGroup, WellFormed, At, Shifted, Shunned, Target, Called, Progress,
           Preserves, Placed, Said, Distinct, Upcoming, Sight, NothingNew;
      var i := 0;
      while i < |ids|
        invariant i == |choices| <= |ids| && Going(r, seen, redis.db, dispatcher.State(), choices, moves)
        invariant r.shunned ==> Shunned(k, dispatcher.cache, seen)
      {
        ghost var b, now, choice, round := redis.db, dispatcher.State(), Nobody, moves;
        GoingIs(r, seen, b, now, choices, moves);
        ok, choice, round := Renew(k, ids[i], seen, i, w.(db := b), f);
        if !ok {
          ThenRuns(w, moves, b, round, b);
          moves := moves + round;
          return;
        }
        GoingOn(r, seen, b, now, choices, moves, choice, dispatcher.State(), round);
        choices, moves := choices + [choice], moves + round;
        i := i + 1;
      }
      GoingIs(r, seen, redis.db, dispatcher.State(), choices, moves);
      ok := true;
    }

    /** Reads up to ten new entries and dispatches them again; read is what the streams are in between. */
    method RetryNew(k: Key, seen: nat -> Seen, ghost w: DistrPull.World, ghost f: nat)
      returns (ok: bool, taken: seq<nat>, ghost choices: seq<Choice>, ghost read: Db, ghost moves: seq<DistrPull.Move>)
      requires w.db == redis.db && f !in w.fibers && dispatcher.redis == redis
      requires WellFormed(redis.db) && HasGroup(redis.db, Pending) && HasGroup(redis.db, k)
      modifies redis, dispatcher
      ensures WellFormed(redis.db) && HasGroup(redis.db, Pending)
      ensures forall t :: Owes(redis.db, t) <==> Owes(old(redis.db), t)
      ensures ok ==> TookNew(old(redis.db), read, redis.db, k, taken) && Placed(read, redis.db, k, taken, choices)
      ensures ok ==> |choices| == |taken| && Said(old(dispatcher.State()), dispatcher.State(), seen, choices)
      ensures DistrPull.Runs(w, moves, w.(db := redis.db))
    {
      assert redis.db.next > 0;
      hide DistrPull.Runs, Placed, Preserves, Progress, SameEntries, Owes, Reads, InPel, Unread, HasGroup, WellFormed,
           Said, Distinct, Upcoming, Sight, TookNew, Read, At;
      ghost var b, more := redis.db, [];
      taken := redis.ReadNew(k, BATCH);
      read := redis.db;
      ReadIs(b, read, k, taken);
      moves := DistrPull.Receiving(w, k, taken, read);
      SameOwes(b, read);
      ok, choices, more := Redispatch(k, taken, seen, w.(db := read), f);
      ThenRuns(w, moves, read, more, redis.db);
      moves := moves + more;
      PreservesOwes(read, redis.db, k, taken);
      if ok { TookNewIs(b, read, redis.db, k, taken); }
    }

    /** One pass over the pending or the rejected queue: what Redis lets the orchestrator claim back, then new
        entries. The queue's group exists before anything is read. The tasks owed are the same before and after,
        even when a dispatch raises half way, and the pass is a run of the protocol machine. */
    method RetryStream(k: Key, claimed: seq<nat>, seen: nat -> Seen, later: nat -> Seen, ghost w: DistrPull.World,
                       ghost f: nat)
      returns (ok: bool, taken: seq<nat>, ghost choices: seq<Choice>, ghost moves: seq<DistrPull.Move>)
      requires w.db == redis.db && f !in w.fibers
      requires dispatcher.redis == redis && WellFormed(redis.db) && (HasGroup(redis.db, Pending) || k == Pending)
      requires Distinct(claimed) && forall j | 0 <= j < |claimed| :: InPel(redis.db, k, claimed[j])
      modifies redis, dispatcher
      ensures WellFormed(redis.db) && HasGroup(redis.db, Pending)
      ensures forall t :: Owes(redis.db, t) <==> Owes(old(redis.db), t)
      ensures ok ==> RetriedAll(old(redis.db), redis.db, k, claimed, taken)
      ensures ok ==> choices == Upcoming(old(dispatcher.State()), Sight(seen, |claimed|) + Sight(later, |taken|))
      ensures ok ==> |choices| == |claimed| + |taken|
      ensures ok ==> Requeued(old(redis.db), redis.db, k, taken, choices[|claimed|..])
      ensures DistrPull.Runs(w, moves, w.(db := redis.db))
    {
      assert redis.db.next > 0;
      hide DistrPull.Runs, Placed, Preserves, Progress, TaskAt, Requeued, RetriedAll, Owes, InPel, Unread, HasGroup,
           WellFormed, At, EnsureGroup, Said, Distinct, Upcoming, Sight, TookNew;
      choices, taken := [], [];
      ghost var start, desk, more, mid, last, c := redis.db, dispatcher.State(), [], [], [], redis.db;
      moves := Registers(w, k);
      GroupMade(redis.db, k, claimed);
      redis.db := EnsureGroup(redis.db, k);
      ghost var a := redis.db;
      ok, mid, more := Redispatch(k, claimed, seen, w.(db := a), f);
      ThenRuns(w, moves, a, more, redis.db);
      moves := moves + more;
      PreservesOwes(a, redis.db, k, claimed);
      if !ok { return; }
      ghost var b, now := redis.db, dispatcher.State();
      ProgressIs(a, b, k, claimed, |claimed|);
      ok, taken, last, c, more := RetryNew(k, later, w.(db := b), f);
      choices := mid + last;
      ThenRuns(w, moves, b, more, redis.db);
      moves := moves + more;
      if ok {
        RetryDone(start, b, c, redis.db, k, claimed, taken, last);
        SaidBoth(desk, now, dispatcher.State(), seen, mid, later, last);
        assert choices[|claimed|..] == last;
      }
    }

    /** Recovery of a dead daemon's inbox: nothing when nothing was delivered; otherwise every delivered entry is
        dispatched again and the stream is deleted, unread entries with it. While no call can choose the dead daemon,
        the tasks owed afterwards are exactly those owed before by something other than these unread entries. It is a
        run of the protocol machine. */
    method RecoverInbox(daemon: string, seen: nat -> Seen, ghost w: DistrPull.World, ghost f: nat)
      returns (ok: bool, ghost moves: seq<DistrPull.Move>)
      requires w.db == redis.db && f !in w.fibers
      requires dispatcher.redis == redis && WellFormed(redis.db) && HasGroup(redis.db, Pending)
      requires Shunned(Inbox(daemon), dispatcher.cache, seen)
      modifies redis, dispatcher
      ensures WellFormed(redis.db)
      ensures !ok ==> forall t :: Owes(redis.db, t) <==> Owes(old(redis.db), t)
      ensures (forall id :: !InPel(old(redis.db), Inbox(daemon), id)) ==> ok && redis.db == old(redis.db)
      ensures ok && (exists id :: InPel(old(redis.db), Inbox(daemon), id)) ==>
                && Inbox(daemon) !in redis.db.streams
                && forall t :: Owes(redis.db, t) <==>
                     OwesBeside(old(redis.db), Inbox(daemon), UnreadIn(old(redis.db), Inbox(daemon)), t)
      ensures DistrPull.Runs(w, moves, w.(db := redis.db))
    {
      moves := [];
      assert DistrPull.Runs(w, moves, w.(db := redis.db));
      hide DistrPull.Runs;
      var k := Inbox(daemon);
      ghost var a := redis.db;
      if !HasGroup(redis.db, k) || At(redis.db, k).group.pel == {} {
        ok := true;
        return;
      }
      NotEmpty(redis.db, k);
      var ids := Ascending(At(redis.db, k).group.pel);
      AllDelivered(redis.db, k, ids);
      ghost var choices;
      ok, choices, moves := Redispatch(k, ids, seen, w, f);
      PreservesOwes(a, redis.db, k, ids);
      if !ok { return; }
      OnlyUnreadLeft(a, redis.db, k, ids);
      moves := Drops(w, moves, redis.db, daemon);
      redis.db := Delete(redis.db, k);
    }
  }

  /** Entries never delivered. */
  function UnreadIn(db: Db, k: Key): set<nat> { set id | id in At(db, k).items && Unread(db, k, id) }

  method Ascending(s: set<nat>) returns (ids: seq<nat>)
    ensures Distinct(ids) && forall id :: id in s <==> id in ids
    ensures forall i, j :: 0 <= i < j < |ids| ==> ids[i] < ids[j]
  {
    ids := [];
    var rest := s;
    while rest != {}
      invariant rest <= s && forall id :: id in s <==> id in ids || id in rest
      invariant forall i, j :: 0 <= i < j < |ids| ==> ids[i] < ids[j]
      invariant forall i: nat, x: nat | i < |ids| && x in rest :: ids[i] < x
      decreases rest
    {
      var m := Least(rest);
      ids := ids + [m];
      rest := rest - {m};
    }
  }

  lemma NotEmpty(db: Db, k: Key)
    requires WellFormed(db) && HasGroup(db, k) && At(db, k).group.pel != {}
    ensures exists id :: InPel(db, k, id)
  {
    var id :| id in At(db, k).group.pel;
    assert InPel(db, k, id);
  }

  lemma AllDelivered(db: Db, k: Key, ids: seq<nat>)
    requires WellFormed(db) && HasGroup(db, k) && forall id :: id in At(db, k).group.pel <==> id in ids
    ensures forall j | 0 <= j < |ids| :: InPel(db, k, ids[j])
    ensures forall n :: Live(db, k, n) <==> n in ids || n in UnreadIn(db, k)
    ensures Apart(UnreadIn(db, k), db.next, ids)
  {
  }

  /** Once the delivered entries are gone from k, deleting k takes away just the unread ones. */
  lemma OnlyUnreadLeft(a: Db, b: Db, k: Key, ids: seq<nat>)
    requires Progress(a, b, k, ids, |ids|) && Preserves(a, b, k, ids)
    requires forall n: nat | Live(b, k, n) :: Live(a, k, n)
    requires forall n :: Live(a, k, n) <==> n in ids || n in UnreadIn(a, k)
    requires Apart(UnreadIn(a, k), a.next, ids)
    ensures WellFormed(Delete(b, k)) && k !in Delete(b, k).streams
    ensures forall t :: Owes(Delete(b, k), t) <==> OwesBeside(a, k, UnreadIn(a, k), t)
  {
    var us := UnreadIn(a, k);
    DoneAreGone(a, b, k, ids);
    forall n: nat | Live(b, k, n) ensures n in us {
      assert n !in ids;
    }
    DeletedEntries(b, k);
    forall t ensures Owes(Delete(b, k), t) <==> OwesBeside(a, k, us, t) {
      assert OwesBeside(a, k, us, t) <==> OwesBeside(b, k, us, t);
      if OwesBeside(b, k, us, t) {
        var j: Key, n: nat :| Live(b, j, n) && !(j == k && n in us) && View(At(b, j).items[n]) == t;
        assert Live(Delete(b, k), j, n);
      }
      if Owes(Delete(b, k), t) {
        var j: Key, n: nat :| Live(Delete(b, k), j, n) && View(At(Delete(b, k), j).items[n]) == t;
        assert Live(b, j, n);
      }
    }
  }

  lemma DoneAreGone(a: Db, b: Db, k: Key, ids: seq<nat>)
    requires Progress(a, b, k, ids, |ids|)
    ensures forall n | n in ids :: !Live(b, k, n)
  {
  }

  lemma GroupMade(db: Db, k: Key, ids: seq<nat>)
    requires WellFormed(db) && forall j | 0 <= j < |ids| :: InPel(db, k, ids[j])
    ensures var v := EnsureGroup(db, k);
            && WellFormed(v) && HasGroup(v, k) && (HasGroup(db, Pending) ==> HasGroup(v, Pending))
            && (forall j | 0 <= j < |ids| :: InPel(v, k, ids[j]))
            && (forall n: nat | Unread(db, k, n) :: Unread(v, k, n))
            && forall t :: Owes(v, t) <==> Owes(db, t)
  {
    var v := EnsureGroup(db, k);
    EnsureGroupKeeps(db, k);
    assert forall j: Key, n: nat | Live(v, j, n) :: Live(db, j, n);
  }

  /** The entries of stream k that were new have a copy where the calls sent them. */
  ghost predicate Requeued(a: Db, b: Db, k: Key, ids: seq<nat>, choices: seq<Choice>) {
    |choices| == |ids|
    && forall j | 0 <= j < |ids| && Unread(a, k, ids[j]) ::
         HasCopy(b, Target(choices[j]), TaskAt(a, k, ids[j]), a.next)
  }

  /** An entry of stream k, no older than from, owes the task. */
  ghost predicate HasCopy(db: Db, k: Key, t: Task, from: nat) {
    exists n: nat :: n >= from && Live(db, k, n) && TaskAt(db, k, n) == t
  }

  /** None of the entries is owed any more; they are the claimed ones and the oldest ten of the new ones. */
  ghost predicate RetriedAll(start: Db, end: Db, k: Key, claimed: seq<nat>, taken: seq<nat>) {
    && (forall id | id in claimed || id in taken :: !Live(end, k, id))
    && (forall id: nat, j: nat | id in taken && j !in taken && Unread(start, k, j) :: id < j)
    && |taken| <= 10 && (|taken| < 10 ==> forall j | Unread(start, k, j) :: j in taken)
  }

  /** The entries taken were the oldest new ones, ten at most, and have been worked off. */
  ghost predicate TookNew(b: Db, c: Db, d: Db, k: Key, taken: seq<nat>) {
    SameEntries(b, c) && Read(b, c, k, taken) && Progress(c, d, k, taken, |taken|)
  }

  ghost predicate Read(b: Db, c: Db, k: Key, taken: seq<nat>) {
    && (forall id :: Unread(b, k, id) <==> id in taken || Unread(c, k, id))
    && (forall id: nat, j: nat | id in taken && Unread(c, k, j) :: id < j)
    && |taken| <= BATCH && (|taken| < BATCH ==> forall id :: !Unread(c, k, id))
  }

  lemma ReadIs(b: Db, c: Db, k: Key, taken: seq<nat>)
    requires forall id :: Unread(b, k, id) <==> id in taken || Unread(c, k, id)
    requires forall id: nat, j: nat | id in taken && Unread(c, k, j) :: id < j
    requires |taken| <= BATCH && (|taken| < BATCH ==> forall id :: !Unread(c, k, id))
    ensures Read(b, c, k, taken)
  {
  }

  lemma TookNewIs(b: Db, c: Db, d: Db, k: Key, taken: seq<nat>)
    requires SameEntries(b, c) && Read(b, c, k, taken) && Progress(c, d, k, taken, |taken|)
    ensures TookNew(b, c, d, k, taken)
  {
  }

  lemma RetryDone(start: Db, b: Db, c: Db, d: Db, k: Key, claimed: seq<nat>, taken: seq<nat>, choices: seq<Choice>)
    requires start.next > 0 && Progress(EnsureGroup(start, k), b, k, claimed, |claimed|) && TookNew(b, c, d, k, taken)
    requires forall n: nat | Unread(start, k, n) :: Unread(EnsureGroup(start, k), k, n)
    requires Placed(c, d, k, taken, choices) && |choices| == |taken|
    ensures RetriedAll(start, d, k, claimed, taken) && Requeued(start, d, k, taken, choices)
  {
    UnreadSame(start, EnsureGroup(start, k), b, c, k, claimed);
    PlacedAgain(start, c, d, k, taken, choices);
    hide Requeued, Placed, Live;
    forall id | id in claimed ensures !Live(d, k, id) {
      var j :| 0 <= j < |claimed| && claimed[j] == id;
      assert !Live(b, k, claimed[j]) && claimed[j] < b.next;
      assert !Live(c, k, id);
    }
    forall id | id in taken ensures !Live(d, k, id) {
      var j :| 0 <= j < |taken| && taken[j] == id;
      assert !Live(d, k, taken[j]);
    }
  }

  lemma UnreadSame(start: Db, a: Db, b: Db, c: Db, k: Key, claimed: seq<nat>)
    requires start.next > 0 && a == EnsureGroup(start, k) && Progress(a, b, k, claimed, |claimed|) && SameEntries(b, c)
    ensures start.next <= c.next
    ensures forall n: nat | Unread(start, k, n) :: TaskAt(c, k, n) == TaskAt(start, k, n)
  {
    forall n: nat | Unread(start, k, n) ensures TaskAt(c, k, n) == TaskAt(start, k, n) {
      assert Unread(a, k, n);
      assert Unread(b, k, n);
      assert Live(b, k, n);
    }
  }

  lemma PlacedAgain(start: Db, c: Db, d: Db, k: Key, ids: seq<nat>, choices: seq<Choice>)
    requires Placed(c, d, k, ids, choices) && |choices| == |ids| && start.next <= c.next
    requires forall n: nat | Unread(start, k, n) :: TaskAt(c, k, n) == TaskAt(start, k, n)
    ensures Requeued(start, d, k, ids, choices)
  {
    hide Live, Unread, At, View, Target, TaskAt;
    forall j | 0 <= j < |ids| && Unread(start, k, ids[j])
      ensures HasCopy(d, Target(choices[j]), TaskAt(start, k, ids[j]), start.next)
    {
      assert Live(d, Target(choices[j]), c.next + j);
    }
  }

  lemma SameOwes(a: Db, b: Db)
    requires SameEntries(a, b)
    ensures forall t :: Owes(b, t) <==> Owes(a, t)
    ensures forall k :: HasGroup(a, k) <==> HasGroup(b, k)
  {
  }

  lemma PreservesOwes(a: Db, b: Db, k: Key, ids: seq<nat>)
    requires Preserves(a, b, k, ids)
    ensures forall t :: Owes(b, t) <==> Owes(a, t)
  {
    forall t ensures Owes(b, t) <==> Owes(a, t) {
      var us: set<nat> := {};
      assert Apart(us, a.next, ids);
      assert OwesBeside(a, k, us, t) <==> OwesBeside(b, k, us, t);
    }
  }

  // ---- The calls are runs of the step machine ----

  function Requested(w: DistrPull.World, f: nat, choice: Choice, task: Task): DistrPull.World
    requires w.db.next > 0 && f !in w.fibers
  {
    var w1 := DistrPull.Step(w, DistrPull.Submit(f, task));
    var w2 := DistrPull.Step(w1, DistrPull.Pick(f, choice));
    DistrPull.Step(DistrPull.Step(w2, DistrPull.Create(f, true)), DistrPull.Append(f))
  }

  /** A dispatch of a new task, made as one call, leaves the streams as the four steps of its coroutine do. */
  lemma SpawnIsSteps(w: DistrPull.World, f: nat, choice: Choice, task: Task)
    requires w.db.next > 0 && f !in w.fibers
    ensures var v := Requested(w, f, choice, task);
            v.db == Sent(w.db, Target(choice), FieldsOf(task)) && v.submitted == w.submitted + {task}
  {
  }

  /** So does one round of the recovery loops: add the new copy, then acknowledge the old. */
  lemma RetryIsSteps(w: DistrPull.World, f: nat, choice: Choice, k: Key, id: nat) returns (moves: seq<DistrPull.Move>)
    requires w.db.next > 0 && f !in w.fibers && InPel(w.db, k, id)
    ensures id in At(w.db, k).items && DistrPull.Runs(w, moves, w.(db := Shifted(w.db, choice, k, id)))
  {
    hide DistrPull.Runs;
    if choice.Daemon? {
      moves := DistrPull.Recovering(w, f, k, id, choice.id);
    } else {
      moves := DistrPull.PuttingBack(w, f, k, id);
    }
  }

  /** Creating the queue's group is one move. */
  lemma Registers(w: DistrPull.World, k: Key) returns (moves: seq<DistrPull.Move>)
    requires w.db.next > 0
    ensures DistrPull.Runs(w, moves, w.(db := EnsureGroup(w.db, k)))
  {
    moves := [DistrPull.Register(k)];
    DistrPull.OneMove(w, DistrPull.Register(k));
  }

  /** So is deleting an inbox. */
  lemma Drops(w: DistrPull.World, ms: seq<DistrPull.Move>, db: Db, daemon: string)
    returns (moves: seq<DistrPull.Move>)
    requires DistrPull.Runs(w, ms, w.(db := db)) && db.next > 0
    ensures DistrPull.Runs(w, moves, w.(db := Delete(db, Inbox(daemon))))
  {
    var v := w.(db := db);
    DistrPull.OneMove(v, DistrPull.DropInbox(daemon));
    DistrPull.RunsJoin(w, ms, v, [DistrPull.DropInbox(daemon)], v.(db := Delete(db, Inbox(daemon))));
    moves := ms + [DistrPull.DropInbox(daemon)];
  }

  /** Two runs that only changed the streams, one after the other. */
  lemma ThenRuns(w: DistrPull.World, ms: seq<DistrPull.Move>, a: Db, ns: seq<DistrPull.Move>, b: Db)
    requires DistrPull.Runs(w, ms, w.(db := a)) && DistrPull.Runs(w.(db := a), ns, w.(db := b))
    ensures DistrPull.Runs(w, ms + ns, w.(db := b))
  {
    DistrPull.RunsJoin(w, ms, w.(db := a), ns, w.(db := b));
  }
}
