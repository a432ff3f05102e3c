/** Whole runs of a worker through the gateway: recording once, replaying for nothing. */
module ReplayRuns {
  import opened Json
  import opened Keying
  import opened ResponseCache
  import opened Gateway
  import Billing

  /** A deterministic worker: its next request, if any, from the answers it has had so far. */
  type Worker = seq<Reply> -> Option<Request>

  /** What the i-th request of a run meets: what the upstream would answer, the clock, and the storage's faults. */
  datatype Turn = Turn(up: Upstream, clock: Clock, faults: Faults)

  type Script = nat -> Turn

  ghost predicate Complete(ups: Script) { forall i :: Answers(ups(i).up) }

  /** No lookup raises. */
  ghost predicate Reads(ups: Script) { forall i :: !ups(i).faults.readFails }

  /** No put raises. */
  ghost predicate Writes(ups: Script) { forall i :: !ups(i).faults.writeFails }

  /** Neither does; whether the update of a hit counter raises is left open. */
  ghost predicate Stored(ups: Script) { Reads(ups) && Writes(ups) }

  datatype Run = Run(replies: seq<Reply>, keys: seq<string>, rows: Table,
                     forwards: nat, failed: bool, spend: real, saved: real)

  /** At most n requests of worker w, one after the other. */
  ghost function Play(env: Env, mode: Mode, rows: Table, w: Worker, ups: Script, past: seq<Reply>, n: nat): Run
    requires env.order != [] && Complete(ups)
    decreases n
  {
    var req := w(past);
    if n == 0 || req.None? then Run([], [], rows, 0, false, 0.0, 0.0)
    else
      var s := Serve(env, mode, rows, req.value, ups(|past|).up, ups(|past|).clock, ups(|past|).faults);
      var rest := Play(env, mode, s.rows, w, ups, past + [s.reply], n - 1);
      Run([s.reply] + rest.replies, [env.key(req.value.body)] + rest.keys, rest.rows,
          s.forwards + rest.forwards, s.failed || rest.failed, s.spend + rest.spend, s.saved + rest.saved)
  }

  ghost function First(env: Env, mode: Mode, rows: Table, w: Worker, ups: Script, past: seq<Reply>): Step
    requires env.order != [] && Complete(ups) && w(past).Some?
  {
    Serve(env, mode, rows, w(past).value, ups(|past|).up, ups(|past|).clock, ups(|past|).faults)
  }

  /** A run is nothing, or its first request and the run from there. */
  lemma Unroll(env: Env, mode: Mode, rows: Table, w: Worker, ups: Script, past: seq<Reply>, n: nat)
    requires env.order != [] && Complete(ups)
    ensures n == 0 || w(past).None? ==> Play(env, mode, rows, w, ups, past, n) == Run([], [], rows, 0, false, 0.0, 0.0)
    ensures n > 0 && w(past).Some? ==>
      var r, s := Play(env, mode, rows, w, ups, past, n), First(env, mode, rows, w, ups, past);
      var rest := Play(env, mode, s.rows, w, ups, past + [s.reply], n - 1);
      && r.replies == [s.reply] + rest.replies && r.replies[0] == s.reply && r.replies[1..] == rest.replies
      && r.keys == [env.key(w(past).value.body)] + rest.keys && r.keys[0] == env.key(w(past).value.body)
      && r.keys[1..] == rest.keys && r.rows == rest.rows && r.failed == (s.failed || rest.failed)
      && r.forwards == s.forwards + rest.forwards
      && r.spend == s.spend + rest.spend && r.saved == s.saved + rest.saved
  {
  }

  /** The same worker as far as the cache key can tell: given the same answers, both stop or both send
      requests with the same key. What the key leaves out (assistant turns, tool_call_id, unlisted
      parameters, the order of tools, rewritten text, the attempt number) may differ freely. */
  ghost predicate Alike(env: Env, w1: Worker, w2: Worker) {
    forall past :: w1(past).None? == w2(past).None?
      && (w1(past).Some? ==> env.key(w1(past).value.body) == env.key(w2(past).value.body))
  }

  /** Every recording of a stands in b, whatever happened to its counters. */
  ghost predicate Carries(a: Table, b: Table) {
    forall k :: k in a ==> k in b && b[k].body == a[k].body && b[k].status == a[k].status
                           && b[k].backend == a[k].backend
  }

  // ---- Cache mode ----

  /** In cache mode a stored response is never overwritten: a put follows only a miss. */
  lemma ServeCarries(env: Env, mode: Mode, rows: Table, req: Request, up: Upstream, clock: Clock, f: Faults)
    requires env.order != [] && Answers(up) && LooksUp(mode) && !f.readFails
    ensures Carries(rows, Serve(env, mode, rows, req, up, clock, f).rows)
  {
  }

  lemma {:induction false} PlayCarries(env: Env, mode: Mode, rows: Table, w: Worker, ups: Script, past: seq<Reply>,
                                       n: nat)
    requires env.order != [] && Complete(ups) && Reads(ups) && LooksUp(mode)
    ensures Carries(rows, Play(env, mode, rows, w, ups, past, n).rows)
    decreases n
  {
    if n > 0 && w(past).Some? {
      var s := First(env, mode, rows, w, ups, past);
      ServeCarries(env, mode, rows, w(past).value, ups(|past|).up, ups(|past|).clock, ups(|past|).faults);
      PlayCarries(env, mode, s.rows, w, ups, past + [s.reply], n - 1);
    }
  }

  /** After a request that did not fail, the row under its key gives the reply back, priced as it was. */
  lemma ServedIsStored(env: Env, rows: Table, req: Request, up: Upstream, clock: Clock, f: Faults)
    requires env.Valid() && Answers(up) && !f.readFails && !f.writeFails
    requires !Serve(env, CacheMode, rows, req, up, clock, f).failed
    ensures var s := Serve(env, CacheMode, rows, req, up, clock, f);
      && env.key(req.body) in s.rows
      && StoredReply(env, s.rows[env.key(req.body)]) == s.reply
      && env.Cost(s.rows[env.key(req.body)].backend, s.reply.body) == s.spend + s.saved
  {
  }

  /** A row that carries a recording serves the same reply without the upstream, at the recorded price. */
  lemma CarriedHit(env: Env, mode: Mode, rows: Table, a: Table, req: Request, up: Upstream, clock: Clock, f: Faults)
    requires env.Valid() && Answers(up) && LooksUp(mode) && !f.readFails
    requires Carries(a, rows) && env.key(req.body) in a
    ensures var s, row := Serve(env, mode, rows, req, up, clock, f), a[env.key(req.body)];
      && s.reply == StoredReply(env, row) && s.forwards == 0 && !s.failed && s.spend == 0.0
      && s.saved == env.Cost(row.backend, s.reply.body) && Carries(a, s.rows)
  {
  }

  /** Replay refines recording. Run a worker in cache mode from any cache, every upstream call succeeding and the
      storage working; then run any worker alike it, in cache or in replay mode, lookups working, on any cache that
      carries what the first run left. The second run gets the same answers, calls no upstream and spends nothing, and
      books as saved exactly what the first run spent and saved. */
  lemma {:induction false} ReplayRefinesRecording(
      env: Env, rows: Table, w1: Worker, ups1: Script, mode: Mode, rows2: Table, w2: Worker, ups2: Script,
      past: seq<Reply>, n: nat)
    requires env.Valid() && Complete(ups1) && Complete(ups2) && Alike(env, w1, w2)
    requires Stored(ups1) && Reads(ups2) && LooksUp(mode)
    requires !Play(env, CacheMode, rows, w1, ups1, past, n).failed
    requires Carries(Play(env, CacheMode, rows, w1, ups1, past, n).rows, rows2)
    ensures var r1 := Play(env, CacheMode, rows, w1, ups1, past, n);
      var r2 := Play(env, mode, rows2, w2, ups2, past, n);
      && r2.replies == r1.replies && r2.keys == r1.keys && r2.forwards == 0 && !r2.failed
      && r2.spend == 0.0 && r2.saved == r1.spend + r1.saved
    decreases n
  {
    hide Serve, Play;
    assert w1(past).None? == w2(past).None?;
    Unroll(env, CacheMode, rows, w1, ups1, past, n);
    Unroll(env, mode, rows2, w2, ups2, past, n);
    if n > 0 && w1(past).Some? {
      var s1 := First(env, CacheMode, rows, w1, ups1, past);
      var last := Play(env, CacheMode, rows, w1, ups1, past, n).rows;
      var t1, t2 := ups1(|past|), ups2(|past|);
      ServedIsStored(env, rows, w1(past).value, t1.up, t1.clock, t1.faults);
      PlayCarries(env, CacheMode, s1.rows, w1, ups1, past + [s1.reply], n - 1);
      CarriedHit(env, mode, rows2, last, w2(past).value, t2.up, t2.clock, t2.faults);
      var s2 := First(env, mode, rows2, w2, ups2, past);
      ReplayRefinesRecording(env, s1.rows, w1, ups1, mode, s2.rows, w2, ups2, past + [s1.reply], n - 1);
    }
  }

  /** An upstream call that leaves no new row: it failed, its put raised, or its key was stored already and the lookup
      had raised, so that the put overwrites. */
  predicate Wasteful(rows: Table, key: string, s: Step, f: Faults) {
    s.forwards > 0 && (s.failed || f.writeFails || key in rows)
  }

  /** How many calls of a run leave no new row. */
  ghost function Wasted(env: Env, rows: Table, w: Worker, ups: Script, past: seq<Reply>, n: nat): nat
    requires env.order != [] && Complete(ups)
    decreases n
  {
    if n == 0 || w(past).None? then 0
    else
      var s := First(env, CacheMode, rows, w, ups, past);
      (if Wasteful(rows, env.key(w(past).value.body), s, ups(|past|).faults) then 1 else 0)
        + Wasted(env, s.rows, w, ups, past + [s.reply], n - 1)
  }

  lemma ServeRows(env: Env, rows: Table, req: Request, up: Upstream, clock: Clock, f: Faults)
    requires env.Valid() && Answers(up)
    ensures var s, key := Serve(env, CacheMode, rows, req, up, clock, f), env.key(req.body);
      |s.rows| + (if Wasteful(rows, key, s, f) then 1 else 0) == |rows| + s.forwards
  {
    var s, key := Serve(env, CacheMode, rows, req, up, clock, f), env.key(req.body);
    BumpSize(rows, key);
    if key in s.rows { UpsertSize(rows, key, s.rows[key]); }
  }

  lemma UpsertSize(t: Table, key: string, row: Row)
    ensures |Upsert(t, key, row)| == if key in t then |t| else |t| + 1
  {
  }

  lemma BumpSize(t: Table, key: string)
    ensures |Bump(t, key)| == |t|
  {
  }

  /** Every upstream call of a run in cache mode, whatever fails in it, pays for one new row, but for the wasted
      ones. */
  lemma {:induction false} CallsMakeRows(env: Env, rows: Table, w: Worker, ups: Script, past: seq<Reply>, n: nat)
    requires env.Valid() && Complete(ups)
    ensures var r := Play(env, CacheMode, rows, w, ups, past, n);
      |r.rows| + Wasted(env, rows, w, ups, past, n) == |rows| + r.forwards
    decreases n
  {
    hide Serve, Play, Wasteful;
    Unroll(env, CacheMode, rows, w, ups, past, n);
    if n > 0 && w(past).Some? {
      var s, t := First(env, CacheMode, rows, w, ups, past), ups(|past|);
      ServeRows(env, rows, w(past).value, t.up, t.clock, t.faults);
      CallsMakeRows(env, s.rows, w, ups, past + [s.reply], n - 1);
    }
  }

  lemma NotWasted(env: Env, rows: Table, req: Request, up: Upstream, clock: Clock, f: Faults)
    requires env.order != [] && Answers(up) && !f.readFails && !f.writeFails
    requires !Serve(env, CacheMode, rows, req, up, clock, f).failed
    ensures !Wasteful(rows, env.key(req.body), Serve(env, CacheMode, rows, req, up, clock, f), f)
  {
  }

  /** When no call fails and the storage works none is wasted: every call adds a row, and nothing stored is
      overwritten. */
  lemma {:induction false} EveryCallAddsARow(env: Env, rows: Table, w: Worker, ups: Script, past: seq<Reply>, n: nat)
    requires env.Valid() && Complete(ups) && Stored(ups)
    requires !Play(env, CacheMode, rows, w, ups, past, n).failed
    ensures Wasted(env, rows, w, ups, past, n) == 0
    ensures var r := Play(env, CacheMode, rows, w, ups, past, n);
      |r.rows| == |rows| + r.forwards && Carries(rows, r.rows)
    decreases n
  {
    hide Play, Serve, Wasteful;
    Unroll(env, CacheMode, rows, w, ups, past, n);
    CallsMakeRows(env, rows, w, ups, past, n);
    PlayCarries(env, CacheMode, rows, w, ups, past, n);
    if n > 0 && w(past).Some? {
      var s, t := First(env, CacheMode, rows, w, ups, past), ups(|past|);
      NotWasted(env, rows, w(past).value, t.up, t.clock, t.faults);
      EveryCallAddsARow(env, s.rows, w, ups, past + [s.reply], n - 1);
    }
  }

  // ---- When a recording is overwritten ----

  datatype Recording = Recording(body: string, status: int, backend: Option<string>)

  function RecordingOf(row: Row): Recording { Recording(row.body, row.status, row.backend) }

  /** What a request puts without having seen what is stored: its lookup raises, the upstream answers, the put
      works. */
  function BlindPut(env: Env, req: Request, up: Upstream, f: Faults): Option<Recording>
    requires env.order != [] && Answers(up)
  {
    match Forwarded(env, up)
    case Ok(status, body) =>
      if f.readFails && !f.writeFails then Some(Recording(env.dump(body), status, Some(env.Select(req.attempt))))
      else None
    case Fail(_, _) => None
  }

  /** Such a put meets another recording under its key. */
  predicate Overwrites(env: Env, rows: Table, req: Request, up: Upstream, f: Faults)
    requires env.order != [] && Answers(up)
  {
    var key, put := env.key(req.body), BlindPut(env, req, up, f);
    put.Some? && key in rows && put.value != RecordingOf(rows[key])
  }

  /** A stored recording is lost to a request in cache mode exactly when the lookup raises, the put works, the key is
      stored, and the upstream answers something else than what is recorded. */
  lemma OverwrittenExactly(env: Env, rows: Table, req: Request, up: Upstream, clock: Clock, f: Faults)
    requires env.Valid() && Answers(up)
    ensures var s := Serve(env, CacheMode, rows, req, up, clock, f);
      Carries(rows, s.rows) <==> !Overwrites(env, rows, req, up, f)
  {
  }

  /** One more request goes on from the table and the answers of the run so far. */
  lemma {:induction false} PlayOneMore(env: Env, mode: Mode, rows: Table, w: Worker, ups: Script, past: seq<Reply>,
                                       n: nat)
    requires env.order != [] && Complete(ups)
    ensures var r, r' := Play(env, mode, rows, w, ups, past, n), Play(env, mode, rows, w, ups, past, n + 1);
      var now := past + r.replies;
      if w(now).None? then r' == r
      else
        var s := First(env, mode, r.rows, w, ups, now);
        |r.replies| == n && r'.replies == r.replies + [s.reply] && r'.rows == s.rows
    decreases n
  {
    hide Serve, Play;
    Unroll(env, mode, rows, w, ups, past, n);
    Unroll(env, mode, rows, w, ups, past, n + 1);
    assert past + [] == past;
    if w(past).Some? {
      var s := First(env, mode, rows, w, ups, past);
      Unroll(env, mode, s.rows, w, ups, past + [s.reply], 0);
      if n > 0 {
        PlayOneMore(env, mode, s.rows, w, ups, past + [s.reply], n - 1);
        var rest := Play(env, mode, s.rows, w, ups, past + [s.reply], n - 1);
        assert past + ([s.reply] + rest.replies) == past + [s.reply] + rest.replies;
      }
    }
  }

  /** The i-th request of a cache-mode run is made, and overwrites something in the table it finds. */
  ghost predicate OverwritesAt(env: Env, rows: Table, w: Worker, ups: Script, i: nat)
    requires env.order != [] && Complete(ups)
  {
    var r := Play(env, CacheMode, rows, w, ups, [], i);
    w(r.replies).Some? && Overwrites(env, r.rows, w(r.replies).value, ups(i).up, ups(i).faults)
  }

  lemma TurnOverwrites(env: Env, rows: Table, w: Worker, ups: Script, i: nat)
    requires env.Valid() && Complete(ups)
    ensures Carries(Play(env, CacheMode, rows, w, ups, [], i).rows, Play(env, CacheMode, rows, w, ups, [], i + 1).rows)
       <==> !OverwritesAt(env, rows, w, ups, i)
  {
    hide Serve, Play, Overwrites;
    var r := Play(env, CacheMode, rows, w, ups, [], i);
    assert [] + r.replies == r.replies;
    PlayOneMore(env, CacheMode, rows, w, ups, [], i);
    if w(r.replies).Some? {
      OverwrittenExactly(env, r.rows, w(r.replies).value, ups(i).up, ups(i).clock, ups(i).faults);
    }
  }

  /** Whatever a cache-mode run has stored at one moment stands at every later one. */
  ghost predicate NothingLost(env: Env, rows: Table, w: Worker, ups: Script, n: nat)
    requires env.order != [] && Complete(ups)
  {
    forall i, j | 0 <= i <= j <= n :: Carries(Play(env, CacheMode, rows, w, ups, [], i).rows,
                                              Play(env, CacheMode, rows, w, ups, [], j).rows)
  }

  lemma {:induction false} CarriedOn(env: Env, rows: Table, w: Worker, ups: Script, i: nat, j: nat)
    requires env.Valid() && Complete(ups) && i <= j
    requires forall l: nat | l < j :: !OverwritesAt(env, rows, w, ups, l)
    ensures Carries(Play(env, CacheMode, rows, w, ups, [], i).rows, Play(env, CacheMode, rows, w, ups, [], j).rows)
    decreases j
  {
    hide Play, OverwritesAt;
    if i < j {
      CarriedOn(env, rows, w, ups, i, j - 1);
      TurnOverwrites(env, rows, w, ups, j - 1);
    }
  }

  /** A cache-mode run never loses a recording, neither one it found nor one it made, exactly when none of its requests
      meets the guard. */
  lemma NothingLostExactly(env: Env, rows: Table, w: Worker, ups: Script, n: nat)
    requires env.Valid() && Complete(ups)
    ensures NothingLost(env, rows, w, ups, n) <==> forall i: nat | i < n :: !OverwritesAt(env, rows, w, ups, i)
  {
    hide Play, OverwritesAt, Carries;
    if forall i: nat | i < n :: !OverwritesAt(env, rows, w, ups, i) {
      forall i: nat, j: nat | i <= j <= n
        ensures Carries(Play(env, CacheMode, rows, w, ups, [], i).rows, Play(env, CacheMode, rows, w, ups, [], j).rows)
      {
        CarriedOn(env, rows, w, ups, i, j);
      }
    }
    forall i: nat | i < n && NothingLost(env, rows, w, ups, n) ensures !OverwritesAt(env, rows, w, ups, i) {
      TurnOverwrites(env, rows, w, ups, i);
      assert 0 <= i <= i + 1 <= n;
    }
  }

  /** The last of a run's blind puts under a key. */
  ghost function LastBlindPut(env: Env, rows: Table, w: Worker, ups: Script, past: seq<Reply>, n: nat, k: string)
    : Option<Recording>
    requires env.order != [] && Complete(ups)
    decreases n
  {
    if n == 0 || w(past).None? then None
    else
      var s, req, t := First(env, CacheMode, rows, w, ups, past), w(past).value, ups(|past|);
      var later := LastBlindPut(env, s.rows, w, ups, past + [s.reply], n - 1, k);
      if later.Some? || env.key(req.body) != k then later else BlindPut(env, req, t.up, t.faults)
  }

  lemma ServeRecords(env: Env, rows: Table, req: Request, up: Upstream, clock: Clock, f: Faults, k: string)
    requires env.Valid() && Answers(up) && k in rows
    ensures var s := Serve(env, CacheMode, rows, req, up, clock, f);
      var put := if env.key(req.body) == k then BlindPut(env, req, up, f) else None;
      k in s.rows && RecordingOf(s.rows[k]) == if put.Some? then put.value else RecordingOf(rows[k])
  {
  }

  lemma {:induction false} PlayRecords(env: Env, rows: Table, w: Worker, ups: Script, past: seq<Reply>, n: nat,
                                       k: string)
    requires env.Valid() && Complete(ups) && k in rows
    ensures var r, put := Play(env, CacheMode, rows, w, ups, past, n), LastBlindPut(env, rows, w, ups, past, n, k);
      k in r.rows && RecordingOf(r.rows[k]) == if put.Some? then put.value else RecordingOf(rows[k])
    decreases n
  {
    hide Serve, Play, BlindPut;
    Unroll(env, CacheMode, rows, w, ups, past, n);
    if n > 0 && w(past).Some? {
      var s, t := First(env, CacheMode, rows, w, ups, past), ups(|past|);
      ServeRecords(env, rows, w(past).value, t.up, t.clock, t.faults, k);
      PlayRecords(env, s.rows, w, ups, past + [s.reply], n - 1, k);
    }
  }

  /** After a whole cache-mode run the recordings it found stand exactly when under each key it put nothing blindly, or
      last put what was there. */
  lemma CarriesExactly(env: Env, rows: Table, w: Worker, ups: Script, n: nat)
    requires env.Valid() && Complete(ups)
    ensures Carries(rows, Play(env, CacheMode, rows, w, ups, [], n).rows)
       <==> forall k | k in rows :: var put := LastBlindPut(env, rows, w, ups, [], n, k);
              put.Some? ==> put.value == RecordingOf(rows[k])
  {
    hide Play, LastBlindPut;
    forall k | k in rows
      ensures var r, put := Play(env, CacheMode, rows, w, ups, [], n), LastBlindPut(env, rows, w, ups, [], n, k);
        k in r.rows && RecordingOf(r.rows[k]) == if put.Some? then put.value else RecordingOf(rows[k])
    {
      PlayRecords(env, rows, w, ups, [], n, k);
    }
  }

  /** It happens: from the empty table a worker makes one request twice, the second lookup raises, and the upstream
      answers 200 and then 201. The first recording is gone. */
  lemma LostToAFailedLookup(env: Env, req: Request) returns (w: Worker, ups: Script)
    requires env.Valid()
    ensures Complete(ups) && Writes(ups) && OverwritesAt(env, map[], w, ups, 1)
    ensures var after1, after2 := Play(env, CacheMode, map[], w, ups, [], 1).rows,
                                  Play(env, CacheMode, map[], w, ups, [], 2).rows;
      !Carries(after1, after2)
  {
    w := (past: seq<Reply>) => if |past| < 2 then Some(req) else None;
    ups := (i: nat) =>
      var a := Answer(200 + i, "");
      Turn(Upstream(true, [a, a, a]), Clock(0, 0), Faults(i == 1, false, false));
    hide Play;
    var key, s := env.key(req.body), First(env, CacheMode, map[], w, ups, []);
    assert Forwarded(env, ups(0).up) == Ok(200, env.load(""));
    assert Forwarded(env, ups(1).up) == Ok(201, env.load(""));
    assert env.dump(env.load("")) != "";
    Unroll(env, CacheMode, map[], w, ups, [], 1);
    Unroll(env, CacheMode, s.rows, w, ups, [] + [s.reply], 0);
    assert key in s.rows && s.rows[key].status == 200;
    TurnOverwrites(env, map[], w, ups, 1);
  }

  // ---- When a failed call spoils the rerun ----

  /** No stored response is an error: the gateway records successes only. */
  ghost predicate Healthy(rows: Table) { forall k :: k in rows ==> rows[k].status < 400 }

  lemma ServeHealthy(env: Env, mode: Mode, rows: Table, req: Request, up: Upstream, clock: Clock, f: Faults)
    requires env.Valid() && Answers(up) && Healthy(rows)
    ensures var s := Serve(env, mode, rows, req, up, clock, f);
      && Healthy(s.rows)
      && (s.failed ==> s.reply.status >= 400)
      && (!s.failed && mode != Replay ==> s.reply.status < 400)
  {
  }

  lemma {:induction false} PlayHealthy(env: Env, mode: Mode, rows: Table, w: Worker, ups: Script, past: seq<Reply>,
                                       n: nat)
    requires env.Valid() && Complete(ups) && Healthy(rows)
    ensures Healthy(Play(env, mode, rows, w, ups, past, n).rows)
    decreases n
  {
    if n > 0 && w(past).Some? {
      var s := First(env, mode, rows, w, ups, past);
      ServeHealthy(env, mode, rows, w(past).value, ups(|past|).up, ups(|past|).clock, ups(|past|).faults);
      PlayHealthy(env, mode, s.rows, w, ups, past + [s.reply], n - 1);
    }
  }

  /** An upstream that answers everything at once, with the given status, and working storage. */
  function Always(status: int): Script {
    (i: nat) =>
      Turn(Upstream(true, [Answer(status, ""), Answer(status, ""), Answer(status, "")]), Clock(0, 0), NO_FAULTS)
  }

  lemma AlwaysServes(env: Env, rows: Table, req: Request, status: int)
    requires env.Valid() && status < 400
    ensures Complete(Always(status)) && Reads(Always(status))
    ensures var t := Always(status)(0); var s := Serve(env, CacheMode, rows, req, t.up, t.clock, t.faults);
      !s.failed && (env.key(req.body) !in rows ==> s.reply.status == status)
  {
  }

  /** A run with a failed call is not reproduced once the upstream has recovered: at the failed request
      the rerun gets a success. */
  lemma {:induction false} FailureNotReplayed(env: Env, rows: Table, w1: Worker, ups1: Script, rows2: Table, w2: Worker,
                                              past: seq<Reply>, n: nat)
    requires env.Valid() && Complete(ups1) && Alike(env, w1, w2)
    requires Play(env, CacheMode, rows, w1, ups1, past, n).failed
    requires Healthy(rows) && Healthy(rows2)
    ensures Complete(Always(200)) && Reads(Always(200))
    ensures Play(env, CacheMode, rows2, w2, Always(200), past, n).replies
         != Play(env, CacheMode, rows, w1, ups1, past, n).replies
    decreases n
  {
    hide Serve, Play;
    assert w1(past).None? == w2(past).None?;
    AlwaysComplete(200);
    Unroll(env, CacheMode, rows, w1, ups1, past, n);
    Unroll(env, CacheMode, rows2, w2, Always(200), past, n);
    var s1, s2 := First(env, CacheMode, rows, w1, ups1, past), First(env, CacheMode, rows2, w2, Always(200), past);
    var t1, t2 := ups1(|past|), Always(200)(|past|);
    ServeHealthy(env, CacheMode, rows, w1(past).value, t1.up, t1.clock, t1.faults);
    ServeHealthy(env, CacheMode, rows2, w2(past).value, t2.up, t2.clock, t2.faults);
    AlwaysServes(env, rows2, w2(past).value, 200);
    if !s1.failed && s1.reply == s2.reply {
      FailureNotReplayed(env, s1.rows, w1, ups1, s2.rows, w2, past + [s1.reply], n - 1);
    }
  }

  lemma AlwaysComplete(status: int)
    ensures Complete(Always(status)) && Reads(Always(status))
  {
  }

  // ---- When a run repeats, whatever failed in it ----

  /** The table answers every request of a run as the run did. */
  ghost predicate Tells(env: Env, rows: Table, r: Run) {
    |r.keys| == |r.replies|
    && forall i | 0 <= i < |r.keys| :: r.keys[i] in rows && StoredReply(env, rows[r.keys[i]]) == r.replies[i]
  }

  /** A stored key answers with its row, in either mode that looks up. */
  lemma StoredHit(env: Env, mode: Mode, rows: Table, req: Request, up: Upstream, clock: Clock, f: Faults)
    requires env.order != [] && Answers(up) && env.key(req.body) in rows && LooksUp(mode) && !f.readFails
    ensures var s, key := Serve(env, mode, rows, req, up, clock, f), env.key(req.body);
      && s.reply == StoredReply(env, rows[key]) && s.forwards == 0 && !s.failed
      && s.rows.Keys == rows.Keys && forall k | k in rows :: StoredReply(env, s.rows[k]) == StoredReply(env, rows[k])
  {
  }

  lemma TellsTail(env: Env, rows: Table, rows': Table, r: Run, rest: Run)
    requires r.keys != [] && r.replies != [] && r.keys[1..] == rest.keys && r.replies[1..] == rest.replies
    requires rows'.Keys == rows.Keys && forall k | k in rows :: StoredReply(env, rows'[k]) == StoredReply(env, rows[k])
    requires r.keys[0] in rows && StoredReply(env, rows[r.keys[0]]) == r.replies[0]
    ensures Tells(env, rows, r) <==> Tells(env, rows', rest)
  {
  }

  /** A table that tells a run, however that run went, repeats it without the upstream. */
  lemma {:induction false} ToldRunRepeats(env: Env, r: Run, mode1: Mode, rows: Table, w1: Worker, ups1: Script,
                                          mode: Mode, rows2: Table, w2: Worker, ups2: Script, past: seq<Reply>, n: nat)
    requires env.Valid() && Complete(ups1) && Complete(ups2) && Reads(ups2) && Alike(env, w1, w2) && LooksUp(mode)
    requires r == Play(env, mode1, rows, w1, ups1, past, n) && Tells(env, rows2, r)
    ensures var r2 := Play(env, mode, rows2, w2, ups2, past, n);
      r2.replies == r.replies && r2.keys == r.keys && r2.forwards == 0 && !r2.failed
    decreases n
  {
    hide Serve, Play;
    assert w1(past).None? == w2(past).None?;
    Unroll(env, mode1, rows, w1, ups1, past, n);
    Unroll(env, mode, rows2, w2, ups2, past, n);
    if n > 0 && w1(past).Some? {
      var s1, s2 := First(env, mode1, rows, w1, ups1, past), First(env, mode, rows2, w2, ups2, past);
      var rest, t := Play(env, mode1, s1.rows, w1, ups1, past + [s1.reply], n - 1), ups2(|past|);
      StoredHit(env, mode, rows2, w2(past).value, t.up, t.clock, t.faults);
      TellsTail(env, rows2, s2.rows, r, rest);
      ToldRunRepeats(env, rest, mode1, s1.rows, w1, ups1, mode, s2.rows, w2, ups2, past + [s1.reply], n - 1);
    }
  }

  /** A run the table does not tell comes out differently in cache mode, for some upstream. */
  lemma {:induction false} UntoldRunDiffers(env: Env, r: Run, mode1: Mode, rows: Table, w1: Worker, ups1: Script,
                                            rows2: Table, w2: Worker, past: seq<Reply>, n: nat)
    returns (ups2: Script)
    requires env.Valid() && Complete(ups1) && Alike(env, w1, w2)
    requires r == Play(env, mode1, rows, w1, ups1, past, n) && !Tells(env, rows2, r)
    ensures Complete(ups2) && Reads(ups2) && (ups2 == Always(200) || ups2 == Always(201))
    ensures Play(env, CacheMode, rows2, w2, ups2, past, n).replies != r.replies
    decreases n
  {
    hide Serve, Play;
    assert w1(past).None? == w2(past).None?;
    Unroll(env, mode1, rows, w1, ups1, past, n);
    var s1 := First(env, mode1, rows, w1, ups1, past);
    var key, rest := env.key(w2(past).value.body), Play(env, mode1, s1.rows, w1, ups1, past + [s1.reply], n - 1);
    var status := if s1.reply.status == 200 then 201 else 200;
    ups2 := Always(status);
    AlwaysComplete(status);
    if key in rows2 {
      var t := Always(status)(|past|);
      StoredHit(env, CacheMode, rows2, w2(past).value, t.up, t.clock, t.faults);
      if StoredReply(env, rows2[key]) == s1.reply {
        var s2 := First(env, CacheMode, rows2, w2, ups2, past);
        TellsTail(env, rows2, s2.rows, r, rest);
        ups2 := UntoldRunDiffers(env, rest, mode1, s1.rows, w1, ups1, s2.rows, w2, past + [s1.reply], n - 1);
        SameHit(env, rows2, w2, past);
      }
    } else {
      AlwaysServes(env, rows2, w2(past).value, status);
      assert Always(status)(|past|) == Always(status)(0);
    }
    AlwaysComplete(200);
    AlwaysComplete(201);
    Unroll(env, CacheMode, rows2, w2, ups2, past, n);
  }

  lemma SameHit(env: Env, rows: Table, w: Worker, past: seq<Reply>)
    requires env.order != [] && w(past).Some? && env.key(w(past).value.body) in rows
    ensures Complete(Always(200)) && Complete(Always(201))
    ensures First(env, CacheMode, rows, w, Always(200), past) == First(env, CacheMode, rows, w, Always(201), past)
  {
  }

  /** The run just made, in any mode and whatever failed in it, is repeated answer for answer in cache mode, whatever
      the upstream does then, exactly when the table it left tells it. */
  lemma RerunExact(env: Env, mode: Mode, rows: Table, w1: Worker, ups1: Script, w2: Worker, n: nat)
    requires env.Valid() && Complete(ups1) && Alike(env, w1, w2)
    ensures var r1 := Play(env, mode, rows, w1, ups1, [], n);
      Tells(env, r1.rows, r1) <==> forall ups2: Script | Complete(ups2) && Reads(ups2)
        :: Play(env, CacheMode, r1.rows, w2, ups2, [], n).replies == r1.replies
  {
    hide Play, Tells;
    var r1 := Play(env, mode, rows, w1, ups1, [], n);
    if Tells(env, r1.rows, r1) {
      forall ups2: Script | Complete(ups2) && Reads(ups2)
        ensures Play(env, CacheMode, r1.rows, w2, ups2, [], n).replies == r1.replies
      {
        ToldRunRepeats(env, r1, mode, rows, w1, ups1, CacheMode, r1.rows, w2, ups2, [], n);
      }
    } else {
      var ups2 := UntoldRunDiffers(env, r1, mode, rows, w1, ups1, r1.rows, w2, [], n);
    }
  }

  /** With the storage working in a cache-mode run, the table it leaves tells it exactly when none of its upstream calls
      failed; whether hit counters could be updated does not matter. */
  lemma ToldUnlessFailed(env: Env, rows: Table, w: Worker, ups: Script, n: nat)
    requires env.Valid() && Complete(ups) && Stored(ups) && Healthy(rows)
    ensures var r := Play(env, CacheMode, rows, w, ups, [], n); Tells(env, r.rows, r) <==> !r.failed
  {
    hide Play, Tells;
    var r := Play(env, CacheMode, rows, w, ups, [], n);
    PlayHealthy(env, CacheMode, rows, w, ups, [], n);
    if r.failed {
      if Tells(env, r.rows, r) {
        AlwaysComplete(200);
        ToldRunRepeats(env, r, CacheMode, rows, w, ups, CacheMode, r.rows, w, Always(200), [], n);
        FailureNotReplayed(env, rows, w, ups, r.rows, w, [], n);
      }
    } else {
      if !Tells(env, r.rows, r) {
        var ups2 := UntoldRunDiffers(env, r, CacheMode, rows, w, ups, r.rows, w, [], n);
        ReplayRefinesRecording(env, rows, w, ups, CacheMode, r.rows, w, ups2, [], n);
      }
    }
  }

  // ---- Record, then replay ----

  /** Recording touches no key but the request's own, and stores what it answered. */
  lemma RecordStep(env: Env, rows: Table, req: Request, up: Upstream, clock: Clock, f: Faults)
    requires env.Valid() && Answers(up) && !f.writeFails
    requires !Serve(env, Record, rows, req, up, clock, f).failed
    ensures var s, key := Serve(env, Record, rows, req, up, clock, f), env.key(req.body);
      && key in s.rows && StoredReply(env, s.rows[key]) == s.reply
      && forall k | k != key :: k in rows ==> k in s.rows && s.rows[k] == rows[k]
  {
  }

  lemma {:induction false} RecordOthers(env: Env, rows: Table, w: Worker, ups: Script, past: seq<Reply>, n: nat,
                                        k: string)
    requires env.Valid() && Complete(ups) && Writes(ups) && k in rows
    requires !Play(env, Record, rows, w, ups, past, n).failed
    requires k !in Play(env, Record, rows, w, ups, past, n).keys
    ensures var r := Play(env, Record, rows, w, ups, past, n); k in r.rows && r.rows[k] == rows[k]
    decreases n
  {
    hide Serve, Play;
    Unroll(env, Record, rows, w, ups, past, n);
    if n > 0 && w(past).Some? {
      var s := First(env, Record, rows, w, ups, past);
      RecordStep(env, rows, w(past).value, ups(|past|).up, ups(|past|).clock, ups(|past|).faults);
      RecordOthers(env, s.rows, w, ups, past + [s.reply], n - 1, k);
    }
  }

  /** The last request of the run with the same key as request i. */
  ghost predicate LastOf(keys: seq<string>, i: nat, j: nat) {
    i <= j < |keys| && keys[j] == keys[i] && forall l | j < l < |keys| :: keys[l] != keys[i]
  }

  lemma LastExists(keys: seq<string>, i: nat) returns (j: nat)
    requires i < |keys|
    ensures LastOf(keys, i, j)
  {
    j := |keys| - 1;
    while keys[j] != keys[i]
      invariant i <= j < |keys|
      invariant forall l | j < l < |keys| :: keys[l] != keys[i]
      decreases j
    {
      j := j - 1;
    }
  }

  /** The last recording of each key is the one that stays. */
  lemma {:induction false} LastRecordingStays(env: Env, rows: Table, w: Worker, ups: Script, past: seq<Reply>, n: nat,
                                              j: nat)
    requires env.Valid() && Complete(ups) && Writes(ups)
    requires !Play(env, Record, rows, w, ups, past, n).failed
    requires var r := Play(env, Record, rows, w, ups, past, n); LastOf(r.keys, j, j)
    ensures var r := Play(env, Record, rows, w, ups, past, n);
      j < |r.replies| && r.keys[j] in r.rows && StoredReply(env, r.rows[r.keys[j]]) == r.replies[j]
    decreases n
  {
    hide Serve, Play;
    Unroll(env, Record, rows, w, ups, past, n);
    var s := First(env, Record, rows, w, ups, past);
    RecordStep(env, rows, w(past).value, ups(|past|).up, ups(|past|).clock, ups(|past|).faults);
    var keys := Play(env, Record, rows, w, ups, past, n).keys;
    LastTail(keys, j);
    if j == 0 {
      RecordOthers(env, s.rows, w, ups, past + [s.reply], n - 1, keys[0]);
    } else {
      LastRecordingStays(env, s.rows, w, ups, past + [s.reply], n - 1, j - 1);
    }
  }

  lemma LastTail(keys: seq<string>, j: nat)
    requires LastOf(keys, j, j)
    ensures if j == 0 then keys[0] !in keys[1..] else LastOf(keys[1..], j - 1, j - 1)
  {
  }

  lemma {:induction false} OneReplyPerKey(env: Env, mode: Mode, rows: Table, w: Worker, ups: Script,
                                          past: seq<Reply>, n: nat)
    requires env.order != [] && Complete(ups)
    ensures var r := Play(env, mode, rows, w, ups, past, n); |r.keys| == |r.replies|
    decreases n
  {
    if n > 0 && w(past).Some? {
      var s := First(env, mode, rows, w, ups, past);
      OneReplyPerKey(env, mode, s.rows, w, ups, past + [s.reply], n - 1);
    }
  }

  /** Strict replay from a table that holds all the keys repeats a run, however that went, exactly when the table tells
      it. */
  lemma {:induction false} ReplayTells(env: Env, r: Run, mode: Mode, rows: Table, w1: Worker, ups1: Script,
                                       rows2: Table, w2: Worker, ups2: Script, past: seq<Reply>, n: nat)
    requires env.Valid() && Complete(ups1) && Complete(ups2) && Reads(ups2) && Alike(env, w1, w2)
    requires r == Play(env, mode, rows, w1, ups1, past, n)
    requires forall i | 0 <= i < |r.keys| :: r.keys[i] in rows2
    ensures Play(env, Replay, rows2, w2, ups2, past, n).replies == r.replies <==> Tells(env, rows2, r)
    decreases n
  {
    hide Serve, Play;
    assert w1(past).None? == w2(past).None?;
    Unroll(env, mode, rows, w1, ups1, past, n);
    Unroll(env, Replay, rows2, w2, ups2, past, n);
    if n > 0 && w1(past).Some? {
      var s1, s2 := First(env, mode, rows, w1, ups1, past), First(env, Replay, rows2, w2, ups2, past);
      var rest := Play(env, mode, s1.rows, w1, ups1, past + [s1.reply], n - 1);
      assert r.keys[0] in rows2;
      StoredHit(env, Replay, rows2, w2(past).value, ups2(|past|).up, ups2(|past|).clock, ups2(|past|).faults);
      if s1.reply == s2.reply {
        ReplayTells(env, rest, mode, s1.rows, w1, ups1, s2.rows, w2, ups2, past + [s1.reply], n - 1);
        TellsTail(env, rows2, s2.rows, r, rest);
      }
    }
  }

  /** In replay mode, whatever the table holds and whatever fails, a run calls no upstream, spends nothing and keeps
      every recording. */
  lemma {:induction false} ReplayIsFree(env: Env, rows: Table, w: Worker, ups: Script, past: seq<Reply>, n: nat)
    requires env.order != [] && Complete(ups)
    ensures var r := Play(env, Replay, rows, w, ups, past, n);
      && r.forwards == 0 && r.spend == 0.0 && !r.failed
      && r.rows.Keys == rows.Keys && forall k | k in rows :: RecordingOf(r.rows[k]) == RecordingOf(rows[k])
    decreases n
  {
    hide Play, Forwarded;
    Unroll(env, Replay, rows, w, ups, past, n);
    if n > 0 && w(past).Some? {
      var s, t := First(env, Replay, rows, w, ups, past), ups(|past|);
      WhoAnswers(env, Replay, rows, w(past).value, t.up, t.clock, t.faults);
      ReplayIsFree(env, s.rows, w, ups, past + [s.reply], n - 1);
    }
  }

  /** What strict replay from a table answers to a key: what is stored, or that there is nothing. */
  function Replayed(env: Env, rows: Table, key: string, fails: bool): Reply {
    if key in rows && !fails then Reply(rows[key].status, env.load(rows[key].body))
    else Reply(env.missStatus, ErrorBody("cache_miss_replay"))
  }

  ghost predicate RepeatedBy(env: Env, rows: Table, r: Run, ups: Script, at: nat) {
    |r.keys| == |r.replies|
    && forall i | 0 <= i < |r.keys| :: r.replies[i] == Replayed(env, rows, r.keys[i], ups(at + i).faults.readFails)
  }

  lemma ReplayStep(env: Env, rows: Table, req: Request, up: Upstream, clock: Clock, f: Faults)
    requires env.order != [] && Answers(up)
    ensures var s, key := Serve(env, Replay, rows, req, up, clock, f), env.key(req.body);
      && s.reply == Replayed(env, rows, key, f.readFails)
      && forall k, fails :: Replayed(env, s.rows, k, fails) == Replayed(env, rows, k, fails)
  {
  }

  /** Strict replay from any table, whatever fails then, repeats a run exactly when it answers each of the run's keys
      with the run's reply. */
  lemma {:induction false} ReplayExactly(env: Env, r: Run, mode: Mode, rows: Table, w1: Worker, ups1: Script,
                                         rows2: Table, w2: Worker, ups2: Script, past: seq<Reply>, n: nat)
    requires env.Valid() && Complete(ups1) && Complete(ups2) && Alike(env, w1, w2)
    requires r == Play(env, mode, rows, w1, ups1, past, n)
    ensures Play(env, Replay, rows2, w2, ups2, past, n).replies == r.replies <==>
            RepeatedBy(env, rows2, r, ups2, |past|)
    decreases n
  {
    hide Serve, Play, Replayed;
    assert w1(past).None? == w2(past).None?;
    Unroll(env, mode, rows, w1, ups1, past, n);
    Unroll(env, Replay, rows2, w2, ups2, past, n);
    if n > 0 && w1(past).Some? {
      var s1, s2 := First(env, mode, rows, w1, ups1, past), First(env, Replay, rows2, w2, ups2, past);
      var rest, t := Play(env, mode, s1.rows, w1, ups1, past + [s1.reply], n - 1), ups2(|past|);
      ReplayStep(env, rows2, w2(past).value, t.up, t.clock, t.faults);
      hide RepeatedBy;
      if RepeatedBy(env, rows2, r, ups2, |past|) { FirstRepeated(env, rows2, r, ups2, |past|); }
      if s1.reply == s2.reply {
        ReplayExactly(env, rest, mode, s1.rows, w1, ups1, s2.rows, w2, ups2, past + [s1.reply], n - 1);
        ReplayedTail(env, rows2, s2.rows, r, rest, ups2, |past|);
      }
    }
  }

  lemma FirstRepeated(env: Env, rows: Table, r: Run, ups: Script, at: nat)
    requires r.keys != [] && r.replies != [] && RepeatedBy(env, rows, r, ups, at)
    ensures r.replies[0] == Replayed(env, rows, r.keys[0], ups(at).faults.readFails)
  {
    assert ups(at + 0) == ups(at);
  }

  lemma ReplayedTail(env: Env, rows: Table, rows': Table, r: Run, rest: Run, ups: Script, at: nat)
    requires r.keys != [] && r.replies != [] && r.keys[1..] == rest.keys && r.replies[1..] == rest.replies
    requires forall k, fails :: Replayed(env, rows', k, fails) == Replayed(env, rows, k, fails)
    requires r.replies[0] == Replayed(env, rows, r.keys[0], ups(at).faults.readFails)
    ensures RepeatedBy(env, rows, r, ups, at) <==> RepeatedBy(env, rows', rest, ups, at + 1)
  {
    hide Replayed;
    if RepeatedBy(env, rows', rest, ups, at + 1) {
      forall i | 0 <= i < |r.keys|
        ensures r.replies[i] == Replayed(env, rows, r.keys[i], ups(at + i).faults.readFails)
      {
        if i > 0 { assert r.keys[i] == rest.keys[i - 1] && r.replies[i] == rest.replies[i - 1]; }
      }
    }
    if RepeatedBy(env, rows, r, ups, at) {
      forall i | 0 <= i < |rest.keys|
        ensures rest.replies[i] == Replayed(env, rows', rest.keys[i], ups(at + 1 + i).faults.readFails)
      {
        assert rest.keys[i] == r.keys[i + 1] && rest.replies[i] == r.replies[i + 1];
      }
    }
  }

  /** A run all of whose replies are successes is repeated by strict replay exactly when the table tells it and no
      lookup of the replay raises. */
  lemma ReplayOfSuccesses(env: Env, r: Run, mode: Mode, rows: Table, w1: Worker, ups1: Script,
                          rows2: Table, w2: Worker, ups2: Script, n: nat)
    requires env.Valid() && Complete(ups1) && Complete(ups2) && Alike(env, w1, w2)
    requires r == Play(env, mode, rows, w1, ups1, [], n) && forall a | a in r.replies :: a.status < 400
    ensures Play(env, Replay, rows2, w2, ups2, [], n).replies == r.replies <==>
      Tells(env, rows2, r) && forall i: nat | i < |r.keys| :: !ups2(i).faults.readFails
  {
    hide Play;
    OneReplyPerKey(env, mode, rows, w1, ups1, [], n);
    ReplayExactly(env, r, mode, rows, w1, ups1, rows2, w2, ups2, [], n);
    forall i: nat | i < |r.keys|
      ensures r.replies[i] == Replayed(env, rows2, r.keys[i], ups2(i).faults.readFails) <==>
              !ups2(i).faults.readFails && r.keys[i] in rows2 && StoredReply(env, rows2[r.keys[i]]) == r.replies[i]
    {
      assert r.replies[i] in r.replies;
    }
  }

  /** A recorded run is replayed answer for answer exactly when it never gave one key two answers; in
      particular when its keys are pairwise distinct. */
  lemma RecordedRunReplays(env: Env, rows: Table, w1: Worker, ups1: Script, rows2: Table, w2: Worker, ups2: Script,
                           n: nat)
    requires env.Valid() && Complete(ups1) && Complete(ups2) && Alike(env, w1, w2)
    requires Writes(ups1) && Reads(ups2)
    requires !Play(env, Record, rows, w1, ups1, [], n).failed
    requires Carries(Play(env, Record, rows, w1, ups1, [], n).rows, rows2)
    ensures var r1 := Play(env, Record, rows, w1, ups1, [], n);
      |r1.keys| == |r1.replies|
      && (Play(env, Replay, rows2, w2, ups2, [], n).replies == r1.replies
          <==> OneAnswerPerKey(r1))
  {
    hide Serve, Play;
    var r1 := Play(env, Record, rows, w1, ups1, [], n);
    OneReplyPerKey(env, Record, rows, w1, ups1, [], n);
    forall i: nat | i < |r1.keys|
      ensures r1.keys[i] in rows2 && LastAnswer(r1.keys, r1.replies, i, StoredReply(env, rows2[r1.keys[i]]))
    {
      var j := LastExists(r1.keys, i);
      LastRecordingStays(env, rows, w1, ups1, [], n, j);
    }
    ReplayTells(env, r1, Record, rows, w1, ups1, rows2, w2, ups2, [], n);
    TellsOneAnswer(env, rows2, r1);
  }

  ghost predicate OneAnswerPerKey(r: Run)
    requires |r.keys| == |r.replies|
  {
    forall i, j | 0 <= i < j < |r.keys| && r.keys[i] == r.keys[j] :: r.replies[i] == r.replies[j]
  }

  /** The answer a is the last one given to the key of request i. */
  ghost predicate LastAnswer(keys: seq<string>, replies: seq<Reply>, i: nat, a: Reply) {
    exists j: nat | j < |replies| :: LastOf(keys, i, j) && replies[j] == a
  }

  /** A table that holds the last answer to each key tells the run exactly when each key has one answer. */
  lemma TellsOneAnswer(env: Env, rows: Table, r: Run)
    requires |r.keys| == |r.replies|
    requires forall i | 0 <= i < |r.keys| :: r.keys[i] in rows
    requires forall i | 0 <= i < |r.keys| :: LastAnswer(r.keys, r.replies, i, StoredReply(env, rows[r.keys[i]]))
    ensures Tells(env, rows, r) <==> OneAnswerPerKey(r)
  {
  }

  // ---- The workers the key cannot tell apart ----

  /** Requests that differ only in what the key leaves out. */
  ghost predicate SameToKey(k: Keyer, p: Request, q: Request) {
    && Get(p.body, "model") == Get(q.body, "model")
    && SameTurns(k, Items(Get(p.body, "messages")), Items(Get(q.body, "messages")))
    && SameTools(k, Items(Get(p.body, "tools")), Items(Get(q.body, "tools")))
    && forall f | f in PARAM_FIELDS :: Get(p.body, f) == Get(q.body, f)
  }

  /** A worker whose requests differ from another's only in assistant turns, correlation ids, unlisted
      parameters, tool order or volatile text is alike to it, so all the above holds across the two. */
  lemma AlikeByKey(env: Env, k: Keyer, w1: Worker, w2: Worker)
    requires env.Keyed(k)
    requires forall past | w1(past).Some? && w2(past).Some? :: SameToKey(k, w1(past).value, w2(past).value)
    requires forall past :: w1(past).None? == w2(past).None?
    ensures Alike(env, w1, w2)
  {
    forall past | w1(past).Some? ensures env.key(w1(past).value.body) == env.key(w2(past).value.body) {
      assert w1(past).None? == w2(past).None?;
      KeyUnchanged(k, w1(past).value.body, w2(past).value.body);
    }
  }

  // ---- The configurations these results speak of exist ----

  ghost predicate Written(text: string) { exists b :: WellFormed(b) && Print(b) == text }

  /** A json.loads that undoes Print, and turns any other text into null. */
  ghost function Read(text: string): (j: Json)
    ensures WellFormed(j)
  {
    if Written(text) then
      var b :| WellFormed(b) && Print(b) == text;
      b
    else Null
  }

  lemma ReadPrinted(b: Json)
    requires WellFormed(b)
    ensures Read(Print(b)) == b && Print(b) != ""
  {
    assert Written(Print(b));
    PrintInjective(Read(Print(b)), b);
  }

  /** With the key derivation, the compact printer and its inverse, any usage reader, any backends and either miss
      status make a valid configuration. */
  lemma ConfigurationsExist(k: Keyer, usageOf: Json -> Option<Billing.UsageBlock>, order: seq<string>, advance: bool,
                            backends: map<string, Option<Billing.Pricing>>, missStatus: int)
    returns (env: Env)
    requires order != [] && forall n | n in order :: n in backends && n != ""
    requires missStatus == 409 || missStatus == 404
    ensures env.Valid() && env.Keyed(k) && env.order == order && env.backends == backends
  {
    env := Env((body: seq<Member>) => DeriveKey(k, body), (j: Json) => Print(j), (t: string) => Read(t), usageOf, order,
               advance, backends, missStatus);
    forall b | WellFormed(b) ensures env.load(env.dump(b)) == b && env.dump(b) != "" { ReadPrinted(b); }
  }
}
