/** The orchestrator side of distr-pull: the dispatcher's cache, pointer and queues, and the recovery loops. */
module Dispatch {
  import opened Streams
  import RoundRobin
  import Sorting

  // ---- Daemon snapshots ----

  datatype Beat = Beat(freeSlots: int, freeMemoryMb: int, lastHbTs: int)

  datatype Info = Info(id: string, beat: Beat)

  predicate IsAlive(i: Info) { i.beat.lastHbTs > 0 }

  predicate CanAccept(i: Info, minMemory: int) { i.beat.freeSlots > 0 && i.beat.freeMemoryMb >= minMemory }

  predicate Eligible(i: Info, minMemory: int) { IsAlive(i) && CanAccept(i, minMemory) }

  function IdOf(i: Info): string { i.id }

  /** The cached daemons in id order. */
  function InOrder(cache: seq<Info>): seq<Info> { Sorting.Sort(cache, IdOf) }

  function Fit(ds: seq<Info>, minMemory: int): (r: RoundRobin.Fit)
    ensures |r| == |ds| && forall i | 0 <= i < |ds| :: r[i] == Eligible(ds[i], minMemory)
  {
    seq(|ds|, i requires 0 <= i < |ds| => Eligible(ds[i], minMemory))
  }

  /** What Redis would answer to a cache refresh: the clock, the daemon set and the heartbeat hashes still there. */
  datatype Seen = Seen(now: real, members: seq<string>, hashes: map<string, Beat>)

  function Fetched(members: seq<string>, hashes: map<string, Beat>): seq<Info> {
    if members == [] then []
    else
      var last := members[|members| - 1];
      Fetched(members[..|members| - 1], hashes) + if last in hashes then [Info(last, hashes[last])] else []
  }

  /** A refreshed cache holds exactly the registered daemons with a heartbeat, with what they last reported. */
  lemma {:induction false} FetchedAre(members: seq<string>, hashes: map<string, Beat>)
    ensures forall i :: i in Fetched(members, hashes) <==> i.id in members && i.id in hashes && i.beat == hashes[i.id]
  {
    if members != [] { FetchedAre(members[..|members| - 1], hashes); }
  }

  class Redis {
    var db: Db

    constructor ()
      ensures db == Db(map[], 1)
    {
      db := Db(map[], 1);
    }

    /** XREADGROUP > COUNT: the oldest undelivered entries, at most count of them. */
    method ReadNew(k: Key, count: nat) returns (ids: seq<nat>)
      requires WellFormed(db) && HasGroup(db, k)
      modifies this
      ensures WellFormed(db) && SameEntries(old(db), db) && Distinct(ids)
      ensures |ids| <= count && (|ids| < count ==> forall id :: !Unread(db, k, id))
      ensures forall id :: Unread(old(db), k, id) <==> id in ids || Unread(db, k, id)
      ensures forall id: nat, j: nat | id in ids && Unread(db, k, j) :: id < j
      ensures forall id | id in ids :: InPel(db, k, id)
      ensures Reads(old(db), k, ids, db)
    {
      ids := [];
      var todo := set id | id in At(db, k).items && Unread(db, k, id);
      assert forall id | Unread(db, k, id) :: id in todo;
      hide IsNext, Deliver, Live, WellFormed, InPel, Unread, HasGroup, SameEntries;
      assert Reads(db, k, [], db);
      hide Reads;
      SameEntriesItself(db);
      while |ids| < count && todo != {}
        invariant WellFormed(db) && HasGroup(db, k) && SameEntries(old(db), db) && Distinct(ids) && |ids| <= count
        invariant forall id :: id in todo <==> Unread(db, k, id)
        invariant forall id :: Unread(old(db), k, id) <==> id in ids || id in todo
        invariant forall id | id in ids :: InPel(db, k, id)
        invariant forall id, j | id in ids && j in todo :: id < j
        invariant Reads(old(db), k, ids, db)
        decreases todo
      {
        var id := Least(todo);
        assert id !in ids;
        NextUnread(db, k, id);
        Delivered(db, k, id);
        SameEntriesChain(old(db), db, Deliver(db, k, id));
        ReadsOn(old(db), k, ids, db, id);
        db := Deliver(db, k, id);
        ids := ids + [id];
        todo := todo - {id};
      }
    }
  }

  method Least(s: set<nat>) returns (m: nat)
    requires s != {}
    ensures m in s && forall x: nat | x in s :: m <= x
  {
    m :| m in s;
    var rest := s - {m};
    while rest != {}
      invariant m in s && rest <= s && forall x: nat | x in s - rest :: m <= x
      decreases rest
    {
      var x :| x in rest;
      assert s - (rest - {x}) == (s - rest) + {x};
      if x < m { m := x; }
      rest := rest - {x};
    }
    assert s - rest == s;
  }

  ghost predicate Distinct(ids: seq<nat>) { forall i, j :: 0 <= i < j < |ids| ==> ids[i] != ids[j] }

  /** The same entries are owed, with the same fields, and the same groups exist. */
  ghost predicate SameEntries(a: Db, b: Db) {
    && (forall k, id :: Live(a, k, id) <==> Live(b, k, id))
    && (forall k, id | Live(a, k, id) :: At(b, k).items[id] == At(a, k).items[id])
    && (forall k :: HasGroup(a, k) <==> HasGroup(b, k))
    && a.next == b.next
  }

  lemma SameEntriesItself(a: Db)
    ensures SameEntries(a, a)
  {
  }

  lemma SameEntriesChain(a: Db, b: Db, c: Db)
    requires SameEntries(a, b) && SameEntries(b, c)
    ensures SameEntries(a, c)
  {
  }

  lemma NextUnread(db: Db, k: Key, id: nat)
    requires Unread(db, k, id) && forall j | Unread(db, k, j) :: id <= j
    ensures IsNext(db, k, id)
  {
    assert forall j | j in At(db, k).items && j > At(db, k).group.last :: Unread(db, k, j);
  }

  lemma Delivered(db: Db, k: Key, id: nat)
    requires WellFormed(db) && IsNext(db, k, id)
    ensures var v := Deliver(db, k, id);
            && WellFormed(v) && SameEntries(db, v) && HasGroup(v, k) && InPel(v, k, id)
            && (forall j :: Unread(v, k, j) <==> Unread(db, k, j) && j != id)
            && forall j | InPel(db, k, j) :: InPel(v, k, j)
  {
    DeliverKeeps(db, k, id);
  }

  /** Some live entry carries the task. */
  ghost predicate Owes(db: Db, t: Task) {
    exists k: Key, id: nat :: Live(db, k, id) && View(At(db, k).items[id]) == t
  }

  /** Some live entry other than those of set us in stream k carries the task. */
  ghost predicate OwesBeside(db: Db, k: Key, us: set<nat>, t: Task) {
    exists j: Key, n: nat :: Live(db, j, n) && !(j == k && n in us) && View(At(db, j).items[n]) == t
  }

  // ---- The dispatcher ----

  class Dispatcher {
    const redis: Redis
    const cacheTtl: real
    const minFreeMemoryMb: int
    var judgePointer: nat
    var cache: seq<Info>
    var fetchedAt: real

    constructor (redis: Redis, cacheTtl: real, minFreeMemoryMb: int)
      ensures this.redis == redis && this.cacheTtl == cacheTtl && this.minFreeMemoryMb == minFreeMemoryMb
      ensures judgePointer == 0 && cache == [] && fetchedAt == 0.0
    {
      this.redis, this.cacheTtl, this.minFreeMemoryMb := redis, cacheTtl, minFreeMemoryMb;
      judgePointer, cache, fetchedAt := 0, [], 0.0;
    }

    /** The cache a call works with. */
    function CacheAt(seen: Seen): seq<Info>
      reads this
    {
      if seen.now - fetchedAt < cacheTtl then cache else Fetched(seen.members, seen.hashes)
    }

    method MaybeRefreshCache(seen: Seen)
      modifies this
      ensures cache == old(CacheAt(seen)) && judgePointer == old(judgePointer)
      ensures fetchedAt == if seen.now - old(fetchedAt) < cacheTtl then old(fetchedAt) else seen.now
    {
      if seen.now - fetchedAt < cacheTtl { return; }
      var fetched: seq<Info> := [];
      var i := 0;
      while i < |seen.members|
        invariant i <= |seen.members| && fetched == Fetched(seen.members[..i], seen.hashes)
      {
        assert seen.members[..i + 1][..i] == seen.members[..i];
        var id := seen.members[i];
        if id in seen.hashes { fetched := fetched + [Info(id, seen.hashes[id])]; }
        i := i + 1;
      }
      assert seen.members[..i] == seen.members;
      cache := fetched;
      fetchedAt := seen.now;
    }

    /** The first daemon from the pointer on that can take a task. */
    method ChooseDaemon(seen: Seen) returns (r: Choice)
      modifies this
      ensures cache == old(CacheAt(seen))
      ensures fetchedAt == if seen.now - old(fetchedAt) < cacheTtl then old(fetchedAt) else seen.now
      ensures var t := RoundRobin.Take(Fit(InOrder(cache), minFreeMemoryMb), old(judgePointer));
              judgePointer == t.pointer && r == ChoiceOf(InOrder(cache), t.choice)
    {
      MaybeRefreshCache(seen);
      var ds := InOrder(cache);
      if ds == [] { return Nobody; }
      var n := |ds|;
      if judgePointer >= n { judgePointer := 0; }
      ghost var fit := Fit(ds, minFreeMemoryMb);
      var offset := 0;
      while offset < n
        invariant offset <= n && judgePointer < n && judgePointer == RoundRobin.Clamp(old(judgePointer), n)
        invariant RoundRobin.Hop(fit, judgePointer, 0) == RoundRobin.Hop(fit, judgePointer, offset)
        invariant cache == old(CacheAt(seen)) && ds == InOrder(cache)
        invariant fetchedAt == if seen.now - old(fetchedAt) < cacheTtl then old(fetchedAt) else seen.now
      {
        var idx := RoundRobin.Index(n, judgePointer, offset);
        if IsAlive(ds[idx]) && CanAccept(ds[idx], minFreeMemoryMb) {
          judgePointer := RoundRobin.Index(n, idx, 1);
          return Daemon(ds[idx].id);
        }
        offset := offset + 1;
      }
      judgePointer := RoundRobin.Index(n, judgePointer, 1);
      return Nobody;
    }

    method DispatchTo(daemon: string, task: Task)
      requires WellFormed(redis.db)
      modifies redis
      ensures redis.db == Sent(old(redis.db), Inbox(daemon), FieldsOf(task))
    {
      redis.db := EnsureGroup(redis.db, Inbox(daemon));
      redis.db := Add(redis.db, Inbox(daemon), FieldsOf(task));
    }

    method EnqueuePending(task: Task)
      requires WellFormed(redis.db)
      modifies redis
      ensures redis.db == Sent(old(redis.db), Pending, FieldsOf(task))
    {
      redis.db := EnsureGroup(redis.db, Pending);
      redis.db := Add(redis.db, Pending, FieldsOf(task));
    }

    method Spawn(task: Task, seen: Seen) returns (ghost choice: Choice)
      requires WellFormed(redis.db)
      modifies this, redis
      ensures cache == old(CacheAt(seen)) && (choice, State()) == Called(old(State()), seen)
      ensures redis.db == Sent(old(redis.db), if choice.Daemon? then Inbox(choice.id) else Pending, FieldsOf(task))
    {
      var c := ChooseDaemon(seen);
      choice := c;
      if c.Daemon? { DispatchTo(c.id, task); } else { EnqueuePending(task); }
    }

    /** Dispatches a recovered task again. A task without a bug id raises when a daemon is chosen. */
    method SpawnRaw(fields: Fields, seen: Seen) returns (ok: bool, ghost choice: Choice)
      requires WellFormed(redis.db)
      modifies this, redis
      ensures cache == old(CacheAt(seen)) && (choice, State()) == Called(old(State()), seen)
      ensures ok <==> choice.Nobody? || "bug_id" in fields
      ensures redis.db == if ok then Respawned(old(redis.db), choice, fields) else old(redis.db)
    {
      var c := ChooseDaemon(seen);
      choice := c;
      if c.Daemon? {
        ok := "bug_id" in fields;
        if ok { DispatchTo(c.id, View(fields)); }
      } else {
        ok := true;
        redis.db := Add(redis.db, Pending, fields);
      }
    }

    function State(): Desk
      reads this
    {
      Desk(cache, fetchedAt, cacheTtl, minFreeMemoryMb, judgePointer)
    }
  }

  /** What the dispatcher's choices depend on. */
  datatype Desk = Desk(cache: seq<Info>, fetchedAt: real, ttl: real, minMemory: int, pointer: nat)

  /** One call: who is chosen, and the desk after it. */
  function Called(d: Desk, seen: Seen): (Choice, Desk) {
    var keep := seen.now - d.fetchedAt < d.ttl;
    var cache := if keep then d.cache else Fetched(seen.members, seen.hashes);
    var t := RoundRobin.Take(Fit(InOrder(cache), d.minMemory), d.pointer);
    (ChoiceOf(InOrder(cache), t.choice),
     Desk(cache, if keep then d.fetchedAt else seen.now, d.ttl, d.minMemory, t.pointer))
  }

  /** The desk after a sequence of calls. */
  ghost function After(d: Desk, seens: seq<Seen>): Desk {
    if seens == [] then d else Called(After(d, seens[..|seens| - 1]), seens[|seens| - 1]).1
  }

  /** Who they choose. */
  ghost function Upcoming(d: Desk, seens: seq<Seen>): (r: seq<Choice>)
    ensures |r| == |seens|
  {
    if seens == [] then []
    else
      var n := |seens| - 1;
      Upcoming(d, seens[..n]) + [Called(After(d, seens[..n]), seens[n]).0]
  }

  function ChoiceOf(ds: seq<Info>, c: RoundRobin.Choice): Choice {
    if c.Slot? && c.index < |ds| then Daemon(ds[c.index].id) else Nobody
  }

  /** The cache has a report of the daemon alive, with a free slot and the memory asked for. */
  ghost predicate AbleIn(cache: seq<Info>, id: string, minMemory: int) {
    exists i :: i in cache && i.id == id
                && i.beat.lastHbTs > 0 && i.beat.freeSlots > 0 && i.beat.freeMemoryMb >= minMemory
  }

  /** A daemon is chosen exactly when some cached report is of one able to take a task, and then it is such a one. */
  lemma ChosenIsEligible(cache: seq<Info>, minMemory: int, pointer: nat)
    ensures var ds := InOrder(cache); var c := ChoiceOf(ds, RoundRobin.Take(Fit(ds, minMemory), pointer).choice);
            && (c.Daemon? <==> exists id :: AbleIn(cache, id, minMemory))
            && (c.Daemon? ==> AbleIn(cache, c.id, minMemory))
  {
    hide RoundRobin.Take, InOrder;
    var ds := InOrder(cache);
    var fit := Fit(ds, minMemory);
    SameInfos(cache);
    RoundRobin.TakeNearest(fit, pointer);
    var t := RoundRobin.Take(fit, pointer);
    if t.choice.Slot? {
      assert ds[t.choice.index] in cache && Eligible(ds[t.choice.index], minMemory);
      assert AbleIn(cache, ds[t.choice.index].id, minMemory);
    } else {
      forall i | i in cache ensures !Eligible(i, minMemory) {
        var d: nat :| d < |ds| && ds[d] == i;
        assert !fit[d];
      }
    }
  }

  lemma SameInfos(cache: seq<Info>)
    ensures forall i :: i in InOrder(cache) <==> i in cache
  {
    Sorting.SortSorted(cache, IdOf);
    forall i ensures i in InOrder(cache) <==> i in cache {
      assert i in multiset(InOrder(cache)) <==> i in multiset(cache);
    }
  }

  // ---- Sequences of choices ----

  /** The caches a sequence of calls works with. */
  function Caches(cache: seq<Info>, fetchedAt: real, ttl: real, seens: seq<Seen>): (r: seq<seq<Info>>)
    ensures |r| == |seens|
    decreases |seens|
  {
    if seens == [] then []
    else
      var keep := seens[0].now - fetchedAt < ttl;
      var next := if keep then cache else Fetched(seens[0].members, seens[0].hashes);
      [next] + Caches(next, if keep then fetchedAt else seens[0].now, ttl, seens[1..])
  }

  function Fits(caches: seq<seq<Info>>, minMemory: int): (r: seq<RoundRobin.Fit>)
    ensures |r| == |caches|
  {
    seq(|caches|, i requires 0 <= i < |caches| => Fit(InOrder(caches[i]), minMemory))
  }

  /** Who a sequence of calls chooses. */
  function Picks(caches: seq<seq<Info>>, minMemory: int, pointer: nat): (r: seq<Choice>)
    ensures |r| == |caches|
  {
    var slots := RoundRobin.Choices(Fits(caches, minMemory), pointer);
    seq(|caches|, i requires 0 <= i < |caches| => ChoiceOf(InOrder(caches[i]), slots[i]))
  }

  lemma FirstPick(caches: seq<seq<Info>>, minMemory: int, pointer: nat)
    requires caches != []
    ensures var t := RoundRobin.Take(Fit(InOrder(caches[0]), minMemory), pointer);
            Picks(caches, minMemory, pointer) ==
              [ChoiceOf(InOrder(caches[0]), t.choice)] + Picks(caches[1..], minMemory, t.pointer)
  {
    hide RoundRobin.Take, Fit, InOrder, ChoiceOf;
    assert Fits(caches, minMemory)[1..] == Fits(caches[1..], minMemory);
  }

  /** Any sequence of calls of one dispatcher, its cache refreshed when stale, chooses as Picks says. */
  method ChooseAll(d: Dispatcher, seens: seq<Seen>) returns (choices: seq<Choice>)
    modifies d
    ensures choices == Picks(Caches(old(d.cache), old(d.fetchedAt), d.cacheTtl, seens), d.minFreeMemoryMb,
                             old(d.judgePointer))
  {
    hide RoundRobin.Take, Fit, InOrder, ChoiceOf, Picks;
    ghost var all := Picks(Caches(d.cache, d.fetchedAt, d.cacheTtl, seens), d.minFreeMemoryMb, d.judgePointer);
    choices := [];
    var i := 0;
    while i < |seens|
      invariant i <= |seens|
      invariant choices + Picks(Caches(d.cache, d.fetchedAt, d.cacheTtl, seens[i..]), d.minFreeMemoryMb, d.judgePointer)
             == all
    {
      ghost var caches := Caches(d.cache, d.fetchedAt, d.cacheTtl, seens[i..]);
      FirstPick(caches, d.minFreeMemoryMb, d.judgePointer);
      assert seens[i..][0] == seens[i] && seens[i..][1..] == seens[i + 1..];
      ghost var done := choices;
      var c := d.ChooseDaemon(seens[i]);
      choices := choices + [c];
      ghost var rest := Picks(caches[1..], d.minFreeMemoryMb, d.judgePointer);
      assert done + ([c] + rest) == choices + rest;
      i := i + 1;
    }
    assert seens[i..] == [];
    PicksNothing(d.minFreeMemoryMb, d.judgePointer);
    assert choices + [] == choices;
  }

  lemma PicksNothing(minMemory: int, pointer: nat)
    ensures Picks([], minMemory, pointer) == []
  {
  }

  lemma {:induction false} FirstUpcoming(d: Desk, seens: seq<Seen>)
    requires seens != []
    ensures Upcoming(d, seens) == [Called(d, seens[0]).0] + Upcoming(Called(d, seens[0]).1, seens[1..])
    ensures After(d, seens) == After(Called(d, seens[0]).1, seens[1..])
    decreases |seens|
  {
    hide Called;
    var n := |seens| - 1;
    if n == 0 {
      assert seens[1..] == [] && seens[..n] == [];
    } else {
      FirstUpcoming(d, seens[..n]);
      assert seens[..n][1..] == seens[1..][..n - 1] && seens[1..][n - 1] == seens[n] && seens[..n][0] == seens[0];
    }
  }

  lemma {:induction false} UpcomingJoin(d: Desk, s: seq<Seen>, t: seq<Seen>)
    ensures Upcoming(d, s + t) == Upcoming(d, s) + Upcoming(After(d, s), t)
    ensures After(d, s + t) == After(After(d, s), t)
    decreases |t|
  {
    hide Called;
    if t == [] {
      assert s + t == s;
    } else {
      var n := |t| - 1;
      UpcomingJoin(d, s, t[..n]);
      assert (s + t)[..|s| + n] == s + t[..n] && (s + t)[|s| + n] == t[n];
    }
  }

  /** They are the picks, so what holds of picks holds of them. */
  lemma {:induction false} UpcomingArePicks(d: Desk, seens: seq<Seen>)
    ensures Upcoming(d, seens) == Picks(Caches(d.cache, d.fetchedAt, d.ttl, seens), d.minMemory, d.pointer)
    decreases |seens|
  {
    var caches := Caches(d.cache, d.fetchedAt, d.ttl, seens);
    if seens == [] {
      PicksNothing(d.minMemory, d.pointer);
    } else {
      FirstUpcoming(d, seens);
      FirstPick(caches, d.minMemory, d.pointer);
      UpcomingArePicks(Called(d, seens[0]).1, seens[1..]);
    }
  }

  // ---- Places in the ring belong to ids ----

  function Ids(xs: seq<Info>): (r: seq<string>)
    ensures |r| == |xs| && forall i | 0 <= i < |xs| :: r[i] == xs[i].id
  {
    seq(|xs|, i requires 0 <= i < |xs| => xs[i].id)
  }

  function Itself(s: string): string { s }

  lemma {:induction false} InsertIds(x: Info, ys: seq<Info>)
    ensures Ids(Sorting.Insert(x, ys, IdOf)) == Sorting.Insert(x.id, Ids(ys), Itself)
  {
    if ys != [] {
      InsertIds(x, ys[1..]);
      assert Ids(ys)[1..] == Ids(ys[1..]) && Ids(ys)[0] == ys[0].id;
      assert Ids([ys[0]] + Sorting.Insert(x, ys[1..], IdOf)) == [ys[0].id] + Ids(Sorting.Insert(x, ys[1..], IdOf));
    }
    assert Ids([x] + ys) == [x.id] + Ids(ys);
  }

  lemma {:induction false} SortIds(xs: seq<Info>)
    ensures Ids(InOrder(xs)) == Sorting.Sort(Ids(xs), Itself)
  {
    if xs != [] {
      SortIds(xs[1..]);
      InsertIds(xs[0], InOrder(xs[1..]));
      assert Ids(xs)[1..] == Ids(xs[1..]);
    }
  }

  /** A cache is a dict: one entry an id. */
  ghost predicate OnePerId(cache: seq<Info>) { Sorting.Distinct(Ids(cache), Itself) }

  /** Caches of the same daemons have them at the same places, whatever they report and in whatever order they were
      fetched. */
  lemma SamePlaces(a: seq<Info>, b: seq<Info>)
    requires OnePerId(a) && OnePerId(b) && forall id :: id in Ids(a) <==> id in Ids(b)
    ensures Ids(InOrder(a)) == Ids(InOrder(b))
  {
    SortIds(a);
    SortIds(b);
    Sorting.SortPermutation(Ids(a), Ids(b), Itself);
  }

  lemma AblePlace(cache: seq<Info>, id: string, minMemory: int, d: nat)
    requires OnePerId(cache) && AbleIn(cache, id, minMemory) && d < |InOrder(cache)| && InOrder(cache)[d].id == id
    ensures RoundRobin.Able(Fit(InOrder(cache), minMemory), d)
  {
    var ds := InOrder(cache);
    Sorting.SortSorted(cache, IdOf);
    var i :| i in cache && i.id == id && Eligible(i, minMemory);
    assert i in multiset(cache);
    assert i in ds;
    var j: nat :| j < |ds| && ds[j] == i;
    SortIds(cache);
    Sorting.SortDistinct(Ids(cache), Itself);
    assert Ids(ds)[j] == Ids(ds)[d];
  }

  lemma PlaceOf(cache: seq<Info>, id: string) returns (d: nat)
    requires id in Ids(cache)
    ensures d < |InOrder(cache)| && InOrder(cache)[d].id == id && |InOrder(cache)| == |cache|
  {
    var ds := InOrder(cache);
    Sorting.SortSorted(cache, IdOf);
    var k: nat :| k < |cache| && Ids(cache)[k] == id;
    assert cache[k] in multiset(cache);
    assert cache[k] in ds;
    d :| d < |ds| && ds[d] == cache[k];
    assert |multiset(ds)| == |multiset(cache)|;
  }

  /** No starvation, by id: over as many calls as there are daemons, the cache refreshed in between or not, a daemon
      that every cache knows as able is chosen, whatever happens to the others. */
  lemma AbleIsChosen(caches: seq<seq<Info>>, minMemory: int, pointer: nat, id: string)
    requires caches != [] && |caches| == |caches[0]|
    requires forall i | 0 <= i < |caches| ::
               && OnePerId(caches[i]) && AbleIn(caches[i], id, minMemory)
               && forall x :: x in Ids(caches[i]) <==> x in Ids(caches[0])
    ensures Daemon(id) in Picks(caches, minMemory, pointer)
  {
    var n, fits := |caches|, Fits(caches, minMemory);
    AbleIsThere(caches[0], id, minMemory);
    var d := PlaceOf(caches[0], id);
    forall i | 0 <= i < n ensures |fits[i]| == n && RoundRobin.Able(fits[i], d) && InOrder(caches[i])[d].id == id {
      SamePlaces(caches[i], caches[0]);
      assert Ids(InOrder(caches[i]))[d] == Ids(InOrder(caches[0]))[d];
      AblePlace(caches[i], id, minMemory, d);
    }
    RoundRobin.NoStarvation(fits, n, pointer, d);
    var k: nat :| k < n && RoundRobin.Choices(fits, pointer)[k] == RoundRobin.Slot(d);
    assert Picks(caches, minMemory, pointer)[k] == Daemon(id);
  }

  lemma AbleIsThere(cache: seq<Info>, id: string, minMemory: int)
    requires AbleIn(cache, id, minMemory)
    ensures id in Ids(cache)
  {
    var i :| i in cache && i.id == id && Eligible(i, minMemory);
    var k :| 0 <= k < |cache| && cache[k] == i;
    assert Ids(cache)[k] == id;
  }

  /** While the able daemons stay the same by id, every call sees the same ring. */
  lemma SameRing(a: seq<Info>, b: seq<Info>, minMemory: int)
    requires OnePerId(a) && OnePerId(b) && forall id :: id in Ids(a) <==> id in Ids(b)
    requires forall id :: AbleIn(a, id, minMemory) <==> AbleIn(b, id, minMemory)
    ensures Fit(InOrder(a), minMemory) == Fit(InOrder(b), minMemory)
  {
    var x, y := InOrder(a), InOrder(b);
    SamePlaces(a, b);
    assert |Ids(x)| == |Ids(y)|;
    forall d | 0 <= d < |x| ensures Eligible(x[d], minMemory) == Eligible(y[d], minMemory) {
      assert Ids(x)[d] == Ids(y)[d];
      PlaceDecides(a, minMemory, d);
      PlaceDecides(b, minMemory, d);
    }
  }

  lemma PlaceDecides(cache: seq<Info>, minMemory: int, d: nat)
    requires OnePerId(cache) && d < |InOrder(cache)|
    ensures Eligible(InOrder(cache)[d], minMemory) <==> AbleIn(cache, InOrder(cache)[d].id, minMemory)
  {
    var ds := InOrder(cache);
    Sorting.SortSorted(cache, IdOf);
    assert ds[d] in multiset(ds);
    assert ds[d] in cache;
    if AbleIn(cache, ds[d].id, minMemory) { AblePlace(cache, ds[d].id, minMemory, d); }
  }

  // ---- Fairness by id ----

  ghost function Named(names: seq<string>, ds: set<nat>): set<string>
    requires forall d | d in ds :: d < |names|
  {
    set d | d in ds :: names[d]
  }

  lemma {:induction false} NamedSize(names: seq<string>, ds: set<nat>)
    requires Sorting.Distinct(names, Itself) && forall d | d in ds :: d < |names|
    ensures |Named(names, ds)| == |ds|
  {
    if ds != {} {
      var d :| d in ds;
      NamedSize(names, ds - {d});
      forall e | e in ds - {d} ensures names[e] != names[d] { assert Itself(names[e]) != Itself(names[d]); }
      assert Named(names, ds) == Named(names, ds - {d}) + {names[d]};
    }
  }

  /** The choices of ring places, as ids. */
  function NamesOf(names: seq<string>, cs: seq<RoundRobin.Choice>): (r: seq<Choice>)
    ensures |r| == |cs|
  {
    seq(|cs|, i requires 0 <= i < |cs| =>
      if cs[i].Slot? && cs[i].index < |names| then Daemon(names[cs[i].index]) else Nobody)
  }

  lemma {:induction false} NamedAsOften(names: seq<string>, cs: seq<RoundRobin.Choice>, d: nat)
    requires Sorting.Distinct(names, Itself) && d < |names|
    ensures multiset(NamesOf(names, cs))[Daemon(names[d])] == multiset(cs)[RoundRobin.Slot(d)]
  {
    if cs != [] {
      NamedAsOften(names, cs[1..], d);
      assert NamesOf(names, cs) == NamesOf(names, cs[..1]) + NamesOf(names, cs[1..]);
      assert cs == [cs[0]] + cs[1..] && NamesOf(names, cs[..1]) == [NamesOf(names, cs[..1])[0]];
      var c := cs[0];
      if c.Slot? && c.index < |names| && c.index != d { assert Itself(names[c.index]) != Itself(names[d]); }
    }
  }

  /** Each of ids is chosen once, and nobody else is. */
  ghost predicate OnceEachId(cs: seq<Choice>, ids: set<string>) {
    && (forall c | c in cs :: c.Daemon? && c.id in ids)
    && forall id | id in ids :: multiset(cs)[Daemon(id)] == 1
  }

  lemma OnceByName(names: seq<string>, cs: seq<RoundRobin.Choice>, ds: set<nat>)
    requires Sorting.Distinct(names, Itself) && (forall d | d in ds :: d < |names|) && RoundRobin.OnceEach(cs, ds)
    ensures OnceEachId(NamesOf(names, cs), Named(names, ds))
  {
    var ns := NamesOf(names, cs);
    forall c | c in ns ensures c.Daemon? && c.id in Named(names, ds) {
      var i :| 0 <= i < |ns| && ns[i] == c;
      assert cs[i] in cs;
    }
    forall id | id in Named(names, ds) ensures multiset(ns)[Daemon(id)] == 1 {
      var d :| d in ds && names[d] == id;
      NamedAsOften(names, cs, d);
    }
  }

  /** The daemons of every cache are the same, one entry an id, and those of ids are able in every one. */
  ghost predicate SteadyIds(caches: seq<seq<Info>>, minMemory: int, ids: set<string>) {
    forall j | 0 <= j < |caches| ::
      && OnePerId(caches[j])
      && (forall id :: id in Ids(caches[j]) <==> id in Ids(caches[0]))
      && (forall id :: AbleIn(caches[j], id, minMemory) <==> id in ids)
  }

  lemma SteadyRing(caches: seq<seq<Info>>, minMemory: int, pointer: nat, ids: set<string>)
    requires caches != [] && SteadyIds(caches, minMemory, ids)
    ensures var fit, names := Fit(InOrder(caches[0]), minMemory), Ids(InOrder(caches[0]));
            && Fits(caches, minMemory) == RoundRobin.Same(fit, |caches|)
            && Picks(caches, minMemory, pointer)
               == NamesOf(names, RoundRobin.Choices(RoundRobin.Same(fit, |caches|), pointer))
  {
    hide Fit, InOrder, OnePerId;
    var fits, same := Fits(caches, minMemory), RoundRobin.Same(Fit(InOrder(caches[0]), minMemory), |caches|);
    forall j | 0 <= j < |caches| ensures fits[j] == same[j] && Ids(InOrder(caches[j])) == Ids(InOrder(caches[0])) {
      SameRing(caches[j], caches[0], minMemory);
      SamePlaces(caches[j], caches[0]);
    }
    assert fits == same;
    var slots, names := RoundRobin.Choices(same, pointer), Ids(InOrder(caches[0]));
    forall j | 0 <= j < |caches| ensures Picks(caches, minMemory, pointer)[j] == NamesOf(names, slots)[j] {
      assert Ids(InOrder(caches[j])) == names && |InOrder(caches[j])| == |names|;
    }
  }

  lemma AbleIds(cache: seq<Info>, minMemory: int, ids: set<string>)
    requires OnePerId(cache) && forall id :: AbleIn(cache, id, minMemory) <==> id in ids
    ensures var able, names := RoundRobin.AbleSet(Fit(InOrder(cache), minMemory)), Ids(InOrder(cache));
            && Sorting.Distinct(names, Itself) && (forall d | d in able :: d < |names|)
            && Named(names, able) == ids && |able| == |ids|
  {
    var ds := InOrder(cache);
    var able, names := RoundRobin.AbleSet(Fit(ds, minMemory)), Ids(ds);
    SortIds(cache);
    Sorting.SortDistinct(Ids(cache), Itself);
    forall d: nat | d < |ds| ensures d in able <==> names[d] in ids { PlaceDecides(cache, minMemory, d); }
    forall id | id in ids ensures id in Named(names, able) {
      AbleIsThere(cache, id, minMemory);
      var d := PlaceOf(cache, id);
      assert names[d] == id;
    }
    NamedSize(names, able);
  }

  lemma NamesSlice(names: seq<string>, cs: seq<RoundRobin.Choice>, i: nat, j: nat)
    requires i <= j <= |cs|
    ensures NamesOf(names, cs)[i..j] == NamesOf(names, cs[i..j])
  {
  }

  /** Fairness, by id: while the same daemons are registered and the same ones able, the cache refreshed in between or
      not, any k calls in a row choose each of the k able daemons exactly once and nobody else. */
  lemma FairById(caches: seq<seq<Info>>, minMemory: int, pointer: nat, ids: set<string>, i: nat)
    requires SteadyIds(caches, minMemory, ids) && i + |ids| <= |caches|
    ensures OnceEachId(Picks(caches, minMemory, pointer)[i..i + |ids|], ids)
  {
    hide Picks, Fits, Fit, InOrder, OnceEachId, RoundRobin.Choices, RoundRobin.OnceEach, RoundRobin.AbleSet;
    if caches != [] && ids != {} {
      var ds := InOrder(caches[0]);
      var fit, names := Fit(ds, minMemory), Ids(ds);
      SteadyRing(caches, minMemory, pointer, ids);
      AbleIds(caches[0], minMemory, ids);
      var slots := RoundRobin.Choices(RoundRobin.Same(fit, |caches|), pointer);
      RoundRobin.FairWindow(fit, pointer, |caches|, i);
      OnceByName(names, slots[i..i + |ids|], RoundRobin.AbleSet(fit));
      NamesSlice(names, slots, i, i + |ids|);
    } else {
      NobodyAble(Picks(caches, minMemory, pointer)[i..i + |ids|]);
    }
  }

  lemma NobodyAble(cs: seq<Choice>)
    requires cs == []
    ensures OnceEachId(cs, {})
  {
  }

  /** Create the group if need be, then add. */
  function Sent(db: Db, k: Key, f: Fields): Db
    requires db.next > 0
  {
    Add(EnsureGroup(db, k), k, f)
  }

  function Target(choice: Choice): Key { if choice.Daemon? then Inbox(choice.id) else Pending }

  function Respawned(db: Db, choice: Choice, f: Fields): Db
    requires db.next > 0
  {
    if choice.Daemon? then Sent(db, Inbox(choice.id), FieldsOf(View(f))) else Add(db, Pending, f)
  }

  lemma SentEntries(db: Db, k: Key, f: Fields)
    requires WellFormed(db)
    ensures var v := Sent(db, k, f);
            && WellFormed(v) && v.next == db.next + 1 && Live(v, k, db.next) && View(At(v, k).items[db.next]) == View(f)
            && (forall j: Key, n: nat :: Live(v, j, n) <==> (j, n) == (k, db.next) || Live(db, j, n))
            && (forall j: Key, n: nat | Live(db, j, n) :: At(v, j).items[n] == At(db, j).items[n])
            && (forall j: Key, n: nat | InPel(db, j, n) :: InPel(v, j, n))
            && (forall j: Key, n: nat | Unread(db, j, n) :: Unread(v, j, n))
            && (forall j: Key | HasGroup(db, j) :: HasGroup(v, j))
  {
    hide EnsureGroup, Add, Live, InPel, Unread, HasGroup, WellFormed, At, View;
    EnsuredEntries(db, k);
    EnteredEntries(EnsureGroup(db, k), k, f);
  }

  lemma RespawnedEntries(db: Db, choice: Choice, f: Fields)
    requires WellFormed(db) && (choice.Nobody? ==> HasGroup(db, Pending))
    ensures var v := Respawned(db, choice, f); var k := Target(choice);
            && WellFormed(v) && v.next == db.next + 1 && Live(v, k, db.next) && View(At(v, k).items[db.next]) == View(f)
            && (forall j: Key, n: nat :: Live(v, j, n) <==> (j, n) == (k, db.next) || Live(db, j, n))
            && (forall j: Key, n: nat | Live(db, j, n) :: At(v, j).items[n] == At(db, j).items[n])
            && (forall j: Key, n: nat | InPel(db, j, n) :: InPel(v, j, n))
            && (forall j: Key, n: nat | Unread(db, j, n) :: Unread(v, j, n))
            && (forall j: Key | HasGroup(db, j) :: HasGroup(v, j))
  {
    if choice.Daemon? {
      SentEntries(db, Inbox(choice.id), FieldsOf(View(f)));
    } else {
      AddKeeps(db, Pending, f);
      AddedEntries(db, Pending, f);
    }
  }

  /** One entry dispatched again and then acknowledged. */
  function Shifted(db: Db, choice: Choice, k: Key, id: nat): Db
    requires db.next > 0 && id in At(db, k).items
  {
    Ack(Respawned(db, choice, At(db, k).items[id]), k, id)
  }

  lemma ShiftedEntries(db: Db, choice: Choice, k: Key, id: nat)
    requires WellFormed(db) && InPel(db, k, id) && (choice.Nobody? ==> HasGroup(db, Pending))
    ensures var v := Shifted(db, choice, k, id); var to := Target(choice);
            && WellFormed(v) && v.next == db.next + 1
            && (forall j: Key, n: nat :: Live(v, j, n) <==>
                  (j, n) == (to, db.next) || (Live(db, j, n) && (j, n) != (k, id)))
            && (forall j: Key, n: nat | Live(db, j, n) && (j, n) != (k, id) :: At(v, j).items[n] == At(db, j).items[n])
            && View(At(v, to).items[db.next]) == View(At(db, k).items[id])
            && (forall n: nat | InPel(db, k, n) && n != id :: InPel(v, k, n))
            && (forall n: nat | Unread(db, k, n) :: Unread(v, k, n))
            && (forall j: Key | HasGroup(db, j) :: HasGroup(v, j))
  {
    var f := At(db, k).items[id];
    RespawnedEntries(db, choice, f);
    var r := Respawned(db, choice, f);
    assert id < db.next by { assert id in At(db, k).items; }
    hide Respawned, Ack, InPel, HasGroup, Unread;
    AckedEntries(r, k, id);
    assert Live(Ack(r, k, id), Target(choice), db.next);
  }

  /** The tasks owed stay the same, even when the entries us of the same stream are left out of account. */
  lemma ShiftedOwes(db: Db, choice: Choice, k: Key, id: nat, us: set<nat>, t: Task)
    requires WellFormed(db) && InPel(db, k, id) && (choice.Nobody? ==> HasGroup(db, Pending))
    requires id !in us && forall u | u in us :: u < db.next
    ensures OwesBeside(Shifted(db, choice, k, id), k, us, t) <==> OwesBeside(db, k, us, t)
  {
    var v := Shifted(db, choice, k, id);
    var to := Target(choice);
    assert Live(db, k, id);
    ShiftedEntries(db, choice, k, id);
    hide Shifted, Live, InPel, HasGroup, WellFormed, At, View, Target;
    if OwesBeside(db, k, us, t) {
      var j: Key, n: nat :| Live(db, j, n) && !(j == k && n in us) && View(At(db, j).items[n]) == t;
      if (j, n) == (k, id) {
        assert Live(v, to, db.next) && !(to == k && db.next in us);
      } else {
        assert Live(v, j, n);
      }
    }
    if OwesBeside(v, k, us, t) {
      var j: Key, n: nat :| Live(v, j, n) && !(j == k && n in us) && View(At(v, j).items[n]) == t;
      if (j, n) == (to, db.next) {
        assert Live(db, k, id) && !(k == k && id in us);
      } else {
        assert Live(db, j, n);
      }
    }
  }
}
