/** Record and replay in front of the LLM backends (llm_gateway/app.py): one request, then whole runs. */
module Gateway {
  import opened Json
  import opened Keying
  import opened ResponseCache
  import Billing

  datatype Mode = Disabled | Record | Replay | CacheMode

  /** The configuration and the functions the handler calls: the key derivation (see Keyed), json.dumps
      and _safe_json, the usage block of a response, the policy's order of backends and what each charges. */
  datatype Env = Env(key: seq<Member> -> string, dump: Json -> string, load: string -> Json,
                     usageOf: Json -> Option<Billing.UsageBlock>,
                     order: seq<string>, advance: bool,
                     backends: map<string, Option<Billing.Pricing>>, missStatus: int)
  {
    ghost predicate Valid() {
      && order != [] && (forall n :: n in order ==> n in backends && n != "")
      && (missStatus == 409 || missStatus == 404)
      && (forall t :: WellFormed(load(t)))
      && (forall b :: WellFormed(b) ==> load(dump(b)) == b && dump(b) != "")
    }

    /** The key function is derive_key. */
    ghost predicate Keyed(k: Keyer) {
      forall body :: key(body) == DeriveKey(k, body)
    }

    /** InferencePolicy.select. */
    function Select(attempt: nat): string
      requires order != []
    {
      order[if !advance then 0 else if attempt < |order| then attempt else |order| - 1]
    }

    /** What a response costs at a named backend; an unknown name, an unpriced backend and a response
        without usage count as nothing. */
    function Cost(backend: Option<string>, body: Json): real {
      if backend.None? || backend.value == "" || backend.value !in backends then 0.0
      else
        match Billing.CostOf(backends[backend.value], Billing.ExtractUsage(usageOf(body)))
        case Some(c) => c
        case None => 0.0
    }
  }

  datatype Request = Request(body: seq<Member>, attempt: nat)

  /** What the worker sees of an answer. */
  datatype Reply = Reply(status: int, body: Json)

  // ---- Forwarding with a narrow retry ----

  datatype Post =
    | Unreachable              // connect errors, read timeouts, network errors
    | Broken                   // any other httpx error
    | Answer(status: int, text: string)

  datatype Outcome = Ok(status: int, body: Json) | Fail(status: int, text: string)

  const ATTEMPTS := 3

  predicate Transient(p: Post) {
    match p
    case Unreachable => true
    case Broken => false
    case Answer(s, _) => s == 429 || s == 500 || s == 502 || s == 503 || s == 504
  }

  function Settle(env: Env, p: Post): Outcome {
    match p
    case Answer(s, t) => if s < 400 then Ok(s, env.load(t)) else Fail(s, t)
    case _ => Fail(502, "")
  }

  /** What the upstream would do with the posts of one request; token says whether a bearer was had. */
  datatype Upstream = Upstream(token: bool, posts: seq<Post>)

  ghost predicate Answers(up: Upstream) { |up.posts| == ATTEMPTS }

  /** The post whose result stands: the first that is not transient, else the last. */
  function Final(posts: seq<Post>): (r: nat)
    requires posts != []
    ensures r < |posts| && forall j | 0 <= j < r :: Transient(posts[j])
    ensures r == |posts| - 1 || !Transient(posts[r])
  {
    if |posts| == 1 || !Transient(posts[0]) then 0 else 1 + Final(posts[1..])
  }

  lemma {:induction false} FinalIs(posts: seq<Post>, i: nat)
    requires i < |posts| && forall j | 0 <= j < i :: Transient(posts[j])
    requires i == |posts| - 1 || !Transient(posts[i])
    ensures Final(posts) == i
  {
    if i > 0 { FinalIs(posts[1..], i - 1); }
  }

  function Forwarded(env: Env, up: Upstream): Outcome
    requires Answers(up)
  {
    if !up.token then Fail(502, "") else Settle(env, up.posts[Final(up.posts)])
  }

  /** Posts until one is not transient, at most ATTEMPTS times; without a token it posts nothing. */
  method Forward(env: Env, up: Upstream) returns (out: Outcome, sent: nat)
    requires Answers(up)
    ensures out == Forwarded(env, up)
    ensures !up.token ==> sent == 0 && out == Fail(502, "")
    ensures up.token ==> 1 <= sent <= 3
    ensures forall j | 0 <= j < sent - 1 ::
              up.posts[j].Unreachable? || (up.posts[j].Answer? && up.posts[j].status in {429, 500, 502, 503, 504})
    ensures 0 < sent < 3 ==>
              var p := up.posts[sent - 1]; p.Broken? || (p.Answer? && p.status !in {429, 500, 502, 503, 504})
    ensures sent > 0 ==> var p := up.posts[sent - 1];
              out == if !p.Answer? then Fail(502, "")
                     else if p.status < 400 then Ok(p.status, env.load(p.text)) else Fail(p.status, p.text)
  {
    if !up.token { return Fail(502, ""), 0; }
    var lastStatus, lastText := 0, "";
    for i := 0 to ATTEMPTS
      invariant forall j | 0 <= j < i :: Transient(up.posts[j])
      invariant i > 0 ==> Fail(lastStatus, lastText) == Settle(env, up.posts[i - 1])
    {
      match up.posts[i] {
        case Unreachable =>
          lastStatus, lastText := 502, "";
        case Broken =>
          FinalIs(up.posts, i);
          return Fail(502, ""), i + 1;
        case Answer(s, t) =>
          lastStatus, lastText := s, t;
          if s < 400 {
            FinalIs(up.posts, i);
            return Ok(s, env.load(t)), i + 1;
          }
          if !Transient(up.posts[i]) {
            FinalIs(up.posts, i);
            return Fail(s, t), i + 1;
          }
      }
    }
    FinalIs(up.posts, ATTEMPTS - 1);
    return Fail(lastStatus, lastText), ATTEMPTS;
  }

  // ---- One request ----

  datatype Faults = Faults(readFails: bool, bumpFails: bool, writeFails: bool)

  const NO_FAULTS := Faults(false, false, false)

  /** The time a forward took and the wall clock when it is recorded. */
  datatype Clock = Clock(wallclockMs: int, nowMs: int)

  datatype Step = Step(reply: Reply, rows: Table, forwards: nat, failed: bool, spend: real, saved: real)

  function ErrorBody(kind: string): Json { Obj([Member("error", Obj([Member("type", Str(kind))]))]) }

  function StoredReply(env: Env, row: Row): Reply { Reply(row.status, env.load(row.body)) }

  function FailReply(env: Env, out: Outcome): Reply
    requires out.Fail?
  {
    if out.text != "" then Reply(out.status, env.load(out.text))
    else Reply(502, ErrorBody("gateway_upstream_unreachable"))
  }

  predicate LooksUp(mode: Mode) { mode == Replay || mode == CacheMode }

  predicate Stores(mode: Mode) { mode == Record || mode == CacheMode }

  function Serve(env: Env, mode: Mode, rows: Table, req: Request, up: Upstream, clock: Clock, f: Faults): Step
    requires env.order != [] && Answers(up)
  {
    var key := env.key(req.body);
    if LooksUp(mode) && !f.readFails && key in rows then
      var reply := StoredReply(env, rows[key]);
      Step(reply, if f.bumpFails then rows else Bump(rows, key), 0, false, 0.0,
           env.Cost(rows[key].backend, reply.body))
    else if mode == Replay then
      Step(Reply(env.missStatus, ErrorBody("cache_miss_replay")), rows, 0, false, 0.0, 0.0)
    else
      var backend := env.Select(req.attempt);
      match Forwarded(env, up)
      case Ok(status, body) =>
        var text := env.dump(body);
        var row := Row(text, status, clock.wallclockMs, Some(backend), clock.nowMs, 0);
        Step(Reply(status, body),
             if Stores(mode) && text != "" && !f.writeFails then Upsert(rows, key, row) else rows,
             1, false, env.Cost(Some(backend), body), 0.0)
      case Fail(_, _) => Step(FailReply(env, Forwarded(env, up)), rows, 1, true, 0.0, 0.0)
  }

  /** Who answers: replay mode never calls the upstream, cache mode does on a miss, the other two always. A lookup that
      raises is a miss. */
  lemma WhoAnswers(env: Env, mode: Mode, rows: Table, req: Request, up: Upstream, clock: Clock, f: Faults)
    requires env.order != [] && Answers(up)
    ensures var s, hit := Serve(env, mode, rows, req, up, clock, f), !f.readFails && env.key(req.body) in rows;
      && s.forwards == (match mode case Replay => 0 case CacheMode => if hit then 0 else 1 case _ => 1)
      && (s.forwards == 0 ==> s.spend == 0.0 && !s.failed)
      && (s.forwards == 1 ==> s.saved == 0.0 && s.failed == Forwarded(env, up).Fail?)
      && (s.forwards == 0 && hit ==>
            var row := rows[env.key(req.body)];
            s.reply == Reply(row.status, env.load(row.body)) && s.saved == env.Cost(row.backend, s.reply.body))
      && (s.forwards == 0 && !hit ==>
            && s.reply == Reply(env.missStatus, Obj([Member("error", Obj([Member("type", Str("cache_miss_replay"))]))]))
            && s.rows == rows && s.saved == 0.0)
  {
  }

  /** What a hit is booked as saving: the price of the stored reply at the rates of the backend that gave it, nothing
      when that backend is not named, not known or without rates, or the reply reports no usage. */
  lemma WhatIsSaved(env: Env, mode: Mode, rows: Table, req: Request, up: Upstream, clock: Clock, f: Faults)
    requires env.order != [] && Answers(up) && (mode == Replay || mode == CacheMode)
    requires !f.readFails && env.key(req.body) in rows
    ensures var row, saved := rows[env.key(req.body)], Serve(env, mode, rows, req, up, clock, f).saved;
      match (row.backend, env.usageOf(env.load(row.body)))
      case (Some(name), Some(block)) =>
        if name != "" && name in env.backends && env.backends[name].Some? then
          var u := Billing.ExtractUsage(Some(block)).value;
          saved == Billing.CostUsd(env.backends[name].value, u.prompt, u.completion, u.cached)
        else saved == 0.0
      case _ => saved == 0.0
  {
  }

  /** What a forwarded request answers and costs: the upstream's own reply, or 502 when there is none; the price of the
      tokens the reply reports at the rates of the backend that served it, nothing without a report or rates. */
  lemma WhatIsAnswered(env: Env, mode: Mode, rows: Table, req: Request, up: Upstream, clock: Clock, f: Faults)
    requires env.Valid() && Answers(up) && Serve(env, mode, rows, req, up, clock, f).forwards == 1
    ensures var s, n := Serve(env, mode, rows, req, up, clock, f), |env.order| - 1;
      var backend := env.order[if !env.advance then 0 else if req.attempt > n then n else req.attempt];
      match Forwarded(env, up)
      case Ok(status, body) =>
        && s.reply == Reply(status, body)
        && s.spend == (match (env.backends[backend], env.usageOf(body))
                       case (Some(rates), Some(block)) =>
                         var u := Billing.ExtractUsage(Some(block)).value;
                         Billing.CostUsd(rates, u.prompt, u.completion, u.cached)
                       case _ => 0.0)
      case Fail(status, text) =>
        s.spend == 0.0 && if text != "" then s.reply == Reply(status, env.load(text)) else s.reply.status == 502
  {
    assert env.Select(req.attempt) in env.order;
  }

  /** What is stored: an upstream success under the request's key, in record and cache mode, with the first backend or,
      when a failed fix moves on, the one its attempt number leads to. Nothing else touches any recording, and a hit
      counter rises by one on a hit. */
  lemma WhatIsStored(env: Env, mode: Mode, rows: Table, req: Request, up: Upstream, clock: Clock, f: Faults)
    requires env.Valid() && Answers(up)
    ensures var s, key := Serve(env, mode, rows, req, up, clock, f), env.key(req.body);
      var out, hit := Forwarded(env, up), (mode == Replay || mode == CacheMode) && !f.readFails && key in rows;
      var puts := !hit && (mode == Record || mode == CacheMode) && out.Ok? && !f.writeFails;
      var was := if key in rows then rows[key].hits else 0;
      s.rows ==
        if puts then
          var n := |env.order| - 1;
          var i := if !env.advance then 0 else if req.attempt > n then n else req.attempt;
          rows[key := Row(env.dump(out.body), out.status, clock.wallclockMs, Some(env.order[i]), clock.nowMs, was)]
        else if hit && !f.bumpFails then rows[key := rows[key].(hits := was + 1)]
        else rows
  {
    match Forwarded(env, up)
    case Ok(status, body) => assert env.dump(body) != "";
    case Fail(_, _) =>
  }

  class App {
    const env: Env
    const mode: Mode
    const cache: Cache
    var spend: real
    var saved: real

    constructor (env: Env, mode: Mode, cache: Cache)
      ensures this.env == env && this.mode == mode && this.cache == cache
      ensures spend == 0.0 && saved == 0.0
    {
      this.env, this.mode, this.cache := env, mode, cache;
      spend, saved := 0.0, 0.0;
    }

    /** POST /v1/chat/completions. */
    method ChatCompletions(req: Request, up: Upstream, clock: Clock, f: Faults) returns (reply: Reply, forwards: nat)
      requires env.order != [] && Answers(up)
      modifies this, cache
      ensures var s := Serve(env, mode, old(cache.rows), req, up, clock, f);
        && reply == s.reply && cache.rows == s.rows && forwards == s.forwards
        && spend == old(spend) + s.spend && saved == old(saved) + s.saved
    {
      var key := env.key(req.body);
      forwards := 0;
      if mode == Replay || mode == CacheMode {
        var entry := cache.Get(key, f.readFails, f.bumpFails);
        if entry.Some? {
          var body := env.load(entry.value.body);
          saved := saved + env.Cost(entry.value.backend, body);
          return Reply(entry.value.status, body), 0;
        }
        if mode == Replay {
          return Reply(env.missStatus, ErrorBody("cache_miss_replay")), 0;
        }
      }
      var backend := env.Select(req.attempt);
      var out, _ := Forward(env, up);
      forwards := 1;
      if out.Ok? {
        spend := spend + env.Cost(Some(backend), out.body);
        if mode == Record || mode == CacheMode {
          var text := env.dump(out.body);
          if text != "" {
            cache.Put(key, text, out.status, clock.wallclockMs, Some(backend), clock.nowMs, f.writeFails);
          }
        }
        return Reply(out.status, out.body), forwards;
      }
      if out.text != "" {
        reply := Reply(out.status, env.load(out.text));
      } else {
        reply := Reply(502, ErrorBody("gateway_upstream_unreachable"));
      }
    }
  }
}
