/** The gateway's cache key: which requests share one (llm_gateway/keying.py). */
module Keying {
  import opened Json
  import opened Sorting
  import opened Canonical

  /** What the key derivation is given from outside: the volatile-text rewriter, str() of a value that
      is not a string, the digest, and the normalize_content switch. */
  datatype Keyer = Keyer(scrub: string -> string, show: Json -> string, digest: string -> string, normalize: bool) {
    /** SHA-256 is taken to be injective. */
    ghost predicate CollisionFree() {
      forall x, y :: digest(x) == digest(y) ==> x == y
    }
  }

  const PARAM_FIELDS: seq<string> := [
    "temperature", "top_p", "top_k", "max_tokens", "max_completion_tokens",
    "presence_penalty", "frequency_penalty", "seed", "stop", "response_format"
  ]

  // ---- Messages ----

  predicate External(m: Json) {
    m.Obj? && match Get(m.members, "role")
              case Some(Str(r)) => r == "system" || r == "user" || r == "tool"
              case _ => false
  }

  /** content as it enters the key; a missing one is null. */
  function Content(k: Keyer, ms: seq<Member>): Json {
    match Get(ms, "content")
    case Some(Str(s)) => Str(if k.normalize then k.scrub(s) else s)
    case Some(v) => v
    case None => Null
  }

  function Kept(k: Keyer, m: Json): Json
    requires External(m)
  {
    var named := match Get(m.members, "name")
      case Some(v) => [Member("name", v)]
      case None => [];
    Obj([Member("role", Get(m.members, "role").value), Member("content", Content(k, m.members))] + named)
  }

  function View(k: Keyer, messages: seq<Json>): seq<Json> {
    if messages == [] then []
    else (if External(messages[0]) then [Kept(k, messages[0])] else []) + View(k, messages[1..])
  }

  function Items(v: Option<Json>): seq<Json> {
    if v.Some? && v.value.Arr? then v.value.items else []
  }

  lemma {:induction false} ViewAppend(k: Keyer, xs: seq<Json>, ys: seq<Json>)
    ensures View(k, xs + ys) == View(k, xs) + View(k, ys)
  {
    hide Kept, External;
    if xs == [] {
      assert xs + ys == ys;
    } else {
      ViewAppend(k, xs[1..], ys);
      assert (xs + ys)[1..] == xs[1..] + ys && (xs + ys)[0] == xs[0];
      var head := if External(xs[0]) then [Kept(k, xs[0])] else [];
      assert head + (View(k, xs[1..]) + View(k, ys)) == (head + View(k, xs[1..])) + View(k, ys);
    }
  }

  method NormalizeMessages(k: Keyer, messages: Option<Json>) returns (out: seq<Json>)
    ensures out == View(k, Items(messages))
  {
    out := [];
    if messages.None? || !messages.value.Arr? { return; }
    var xs := messages.value.items;
    for i := 0 to |xs|
      invariant out == View(k, xs[..i])
    {
      ViewAppend(k, xs[..i], [xs[i]]);
      assert xs[..i + 1] == xs[..i] + [xs[i]];
      if External(xs[i]) { out := out + [Kept(k, xs[i])]; }
    }
    assert xs[..|xs|] == xs;
  }

  // ---- Tools ----

  /** The name a tool is sorted by. */
  function ToolName(k: Keyer, t: Json): string {
    match t
    case Obj(ms) =>
      (match Get(ms, "function")
       case Some(Obj(f)) =>
         (match Get(f, "name")
          case Some(Str(s)) => s
          case Some(v) => k.show(v)
          case None => "")
       case _ => "")
    case _ => ""
  }

  function ByName(k: Keyer): Json -> string { (t: Json) => ToolName(k, t) }

  function Objects(ts: seq<Json>): (r: seq<Json>)
    ensures forall t :: t in r ==> t in ts && t.Obj?
  {
    if ts == [] then []
    else
      var last := ts[|ts| - 1];
      Objects(ts[..|ts| - 1]) + if last.Obj? then [last] else []
  }

  function Tools(k: Keyer, ts: seq<Json>): seq<Json> { Sort(Objects(ts), ByName(k)) }

  method NormalizeTools(k: Keyer, tools: Option<Json>) returns (out: seq<Json>)
    ensures out == Tools(k, Items(tools))
  {
    out := [];
    if tools.None? || !tools.value.Arr? { return; }
    var xs := tools.value.items;
    for i := 0 to |xs|
      invariant out == Objects(xs[..i])
    {
      assert xs[..i + 1][..i] == xs[..i];
      if xs[i].Obj? { out := out + [xs[i]]; }
    }
    assert xs[..|xs|] == xs;
    out := Sort(out, ByName(k));
  }

  // ---- Parameters ----

  function Picked(body: seq<Member>, fields: seq<string>): (r: seq<Member>)
    ensures forall i :: 0 <= i < |r| ==> r[i].key in fields && Get(body, r[i].key) == Some(r[i].value)
    ensures forall f :: f in fields && Get(body, f).Some? ==> HasKey(r, f)
  {
    if fields == [] then []
    else
      var f := fields[|fields| - 1];
      var before := Picked(body, fields[..|fields| - 1]);
      var r := before + match Get(body, f)
        case Some(v) => [Member(f, v)]
        case None => [];
      assert forall g :: HasKey(before, g) ==> HasKey(r, g) by {
        forall g | HasKey(before, g) ensures HasKey(r, g) {
          var i :| 0 <= i < |before| && before[i].key == g;
          assert r[i].key == g;
        }
      }
      assert Get(body, f).Some? ==> r[|before|].key == f;
      r
  }

  method NormalizeParams(body: seq<Member>) returns (out: seq<Member>)
    ensures out == Picked(body, PARAM_FIELDS)
  {
    hide PARAM_FIELDS;
    out := [];
    for i := 0 to |PARAM_FIELDS|
      invariant out == Picked(body, PARAM_FIELDS[..i])
    {
      var v := Get(body, PARAM_FIELDS[i]);
      if v.Some? { out := out + [Member(PARAM_FIELDS[i], v.value)]; }
      assert PARAM_FIELDS[..i + 1][..i] == PARAM_FIELDS[..i];
    }
    assert PARAM_FIELDS[..|PARAM_FIELDS|] == PARAM_FIELDS;
  }

  // ---- The key ----

  function Model(body: seq<Member>): Json {
    var m := Get(body, "model");
    if m.Some? then m.value else Str("")
  }

  function Payload(k: Keyer, body: seq<Member>): Json {
    Obj(Parts(Model(body),
              Arr(View(k, Items(Get(body, "messages")))),
              Arr(Tools(k, Items(Get(body, "tools")))),
              Obj(Picked(body, PARAM_FIELDS))))
  }

  function DeriveKey(k: Keyer, body: seq<Member>): string { k.digest(Dumps(Payload(k, body))) }

  // ---- Which bodies share a key ----

  lemma PickedDistinct(body: seq<Member>, fields: seq<string>)
    requires forall i, j :: 0 <= i < j < |fields| ==> fields[i] != fields[j]
    ensures DistinctKeys(Picked(body, fields))
  {
    if fields != [] { PickedDistinct(body, fields[..|fields| - 1]); }
  }

  lemma ValueWellFormed(ms: seq<Member>, key: string)
    requires WellFormed(Obj(ms))
    ensures Get(ms, key).Some? ==> WellFormed(Get(ms, key).value)
  {
  }

  lemma KeptWellFormed(k: Keyer, m: Json)
    requires WellFormed(m) && External(m)
    ensures WellFormed(Kept(k, m))
  {
    ValueWellFormed(m.members, "role");
    ValueWellFormed(m.members, "content");
    ValueWellFormed(m.members, "name");
  }

  lemma {:induction false} ViewWellFormed(k: Keyer, xs: seq<Json>)
    requires forall i :: 0 <= i < |xs| ==> WellFormed(xs[i])
    ensures forall i :: 0 <= i < |View(k, xs)| ==> WellFormed(View(k, xs)[i])
  {
    if xs != [] {
      ViewWellFormed(k, xs[1..]);
      if External(xs[0]) { KeptWellFormed(k, xs[0]); }
    }
  }

  lemma ToolsWellFormed(k: Keyer, ts: seq<Json>)
    requires forall i :: 0 <= i < |ts| ==> WellFormed(ts[i])
    ensures forall i :: 0 <= i < |Tools(k, ts)| ==> WellFormed(Tools(k, ts)[i])
  {
    SortSorted(Objects(ts), ByName(k));
    forall i | 0 <= i < |Tools(k, ts)| ensures WellFormed(Tools(k, ts)[i]) {
      assert Tools(k, ts)[i] in multiset(Tools(k, ts));
      assert Tools(k, ts)[i] in Objects(ts);
    }
  }

  lemma PayloadWellFormed(k: Keyer, body: seq<Member>)
    requires WellFormed(Obj(body))
    ensures WellFormed(Payload(k, body))
  {
    hide View, Tools, Get;
    ValueWellFormed(body, "model");
    ValueWellFormed(body, "messages");
    ValueWellFormed(body, "tools");
    ViewWellFormed(k, Items(Get(body, "messages")));
    ToolsWellFormed(k, Items(Get(body, "tools")));
    PickedDistinct(body, PARAM_FIELDS);
    var p := Picked(body, PARAM_FIELDS);
    forall i | 0 <= i < |p| ensures WellFormed(p[i].value) { ValueWellFormed(body, p[i].key); }
  }

  lemma PickedAt(b1: seq<Member>, b2: seq<Member>, f: string)
    ensures SameAt(Picked(b1, PARAM_FIELDS), Picked(b2, PARAM_FIELDS), f)
      <==> (f in PARAM_FIELDS ==> SameAt(b1, b2, f))
  {
  }

  lemma PickedEqual(b1: seq<Member>, b2: seq<Member>)
    ensures Equal(Obj(Picked(b1, PARAM_FIELDS)), Obj(Picked(b2, PARAM_FIELDS))) <==> SameParams(b1, b2)
  {
    var p, q := Picked(b1, PARAM_FIELDS), Picked(b2, PARAM_FIELDS);
    PickedDistinct(b1, PARAM_FIELDS);
    PickedDistinct(b2, PARAM_FIELDS);
    if Equal(Obj(p), Obj(q)) {
      forall f | f in PARAM_FIELDS ensures SameAt(b1, b2, f) {
        EqualAt(p, q, f);
        PickedAt(b1, b2, f);
      }
    }
    if SameParams(b1, b2) {
      forall f ensures SameAt(p, q, f) { PickedAt(b1, b2, f); }
      AtEqual(p, q);
    }
  }

  ghost predicate SameParams(b1: seq<Member>, b2: seq<Member>) {
    forall f | f in PARAM_FIELDS :: SameAt(b1, b2, f)
  }

  ghost predicate SameExternally(k: Keyer, b1: seq<Member>, b2: seq<Member>) {
    && Equal(Model(b1), Model(b2))
    && Equal(Arr(View(k, Items(Get(b1, "messages")))), Arr(View(k, Items(Get(b2, "messages")))))
    && Equal(Arr(Tools(k, Items(Get(b1, "tools")))), Arr(Tools(k, Items(Get(b2, "tools")))))
    && SameParams(b1, b2)
  }

  /** The payload object of four parts. */
  function Parts(m: Json, e: Json, t: Json, p: Json): seq<Member> {
    [Member("model", m), Member("external_messages", e), Member("tools", t), Member("params", p)]
  }

  lemma PartsAt(m: Json, e: Json, t: Json, p: Json, key: string)
    ensures DistinctKeys(Parts(m, e, t, p))
    ensures Get(Parts(m, e, t, p), key) ==
      if key == "model" then Some(m) else if key == "external_messages" then Some(e)
      else if key == "tools" then Some(t) else if key == "params" then Some(p) else None
  {
    var ms := Parts(m, e, t, p);
    assert ms[1..] == [ms[1], ms[2], ms[3]] && ms[1..][1..] == [ms[2], ms[3]] && ms[1..][1..][1..] == [ms[3]];
    assert ms[1..][1..][1..][1..] == [];
  }

  ghost predicate EqualParts(m: Json, e: Json, t: Json, p: Json, m': Json, e': Json, t': Json, p': Json) {
    Equal(m, m') && Equal(e, e') && Equal(t, t') && Equal(p, p')
  }

  /** The value under one key of the payload, by the key alone. */
  lemma PartsSameAt(m: Json, e: Json, t: Json, p: Json, m': Json, e': Json, t': Json, p': Json, key: string)
    ensures DistinctKeys(Parts(m, e, t, p)) && DistinctKeys(Parts(m', e', t', p'))
    ensures SameAt(Parts(m, e, t, p), Parts(m', e', t', p'), key) ==
      if key == "model" then Equal(m, m') else if key == "external_messages" then Equal(e, e')
      else if key == "tools" then Equal(t, t') else if key == "params" then Equal(p, p') else true
  {
    PartsAt(m, e, t, p, key);
    PartsAt(m', e', t', p', key);
  }

  lemma PartsEqual(m: Json, e: Json, t: Json, p: Json, m': Json, e': Json, t': Json, p': Json)
    ensures Equal(Obj(Parts(m, e, t, p)), Obj(Parts(m', e', t', p'))) <==> EqualParts(m, e, t, p, m', e', t', p')
  {
    hide Parts, SameAt, Equal;
    var x, y := Parts(m, e, t, p), Parts(m', e', t', p');
    PartsSameAt(m, e, t, p, m', e', t', p', "");
    if Equal(Obj(x), Obj(y)) {
      forall key ensures SameAt(x, y, key) { EqualAt(x, y, key); }
      PartsSameAt(m, e, t, p, m', e', t', p', "model");
      PartsSameAt(m, e, t, p, m', e', t', p', "external_messages");
      PartsSameAt(m, e, t, p, m', e', t', p', "tools");
      PartsSameAt(m, e, t, p, m', e', t', p', "params");
    }
    if EqualParts(m, e, t, p, m', e', t', p') {
      forall key ensures SameAt(x, y, key) { PartsSameAt(m, e, t, p, m', e', t', p', key); }
      AtEqual(x, y);
    }
  }

  /** Two decoded bodies share a cache key exactly when their models, external messages, name-sorted
      tools and listed parameters are equal JSON values. */
  lemma SameKey(k: Keyer, b1: seq<Member>, b2: seq<Member>)
    requires k.CollisionFree() && WellFormed(Obj(b1)) && WellFormed(Obj(b2))
    ensures DeriveKey(k, b1) == DeriveKey(k, b2) <==> SameExternally(k, b1, b2)
  {
    PayloadWellFormed(k, b1);
    PayloadWellFormed(k, b2);
    var p, q := Payload(k, b1), Payload(k, b2);
    DumpsEqual(p, q);
    PickedEqual(b1, b2);
    PartsEqual(p.members[0].value, p.members[1].value, p.members[2].value, p.members[3].value,
               q.members[0].value, q.members[1].value, q.members[2].value, q.members[3].value);
  }

  // ---- What the key ignores ----

  function Externals(xs: seq<Json>): (r: seq<Json>)
    ensures forall i | 0 <= i < |r| :: External(r[i])
  {
    if xs == [] then [] else (if External(xs[0]) then [xs[0]] else []) + Externals(xs[1..])
  }

  /** Two messages that agree on role, normalised content and name, whatever else they carry. */
  ghost predicate SameTurn(k: Keyer, m: Json, m': Json)
    requires External(m) && External(m')
  {
    && Get(m.members, "role") == Get(m'.members, "role")
    && Content(k, m.members) == Content(k, m'.members)
    && Get(m.members, "name") == Get(m'.members, "name")
  }

  ghost predicate SameTurns(k: Keyer, xs: seq<Json>, ys: seq<Json>) {
    var es, fs := Externals(xs), Externals(ys);
    |es| == |fs| && forall i | 0 <= i < |es| :: SameTurn(k, es[i], fs[i])
  }

  lemma SameKept(k: Keyer, m: Json, m': Json)
    requires External(m) && External(m')
    ensures Kept(k, m) == Kept(k, m') <==> SameTurn(k, m, m')
  {
    var p, q := Kept(k, m).members, Kept(k, m').members;
    assert p[0].value == Get(m.members, "role").value && p[1].value == Content(k, m.members);
    assert q[0].value == Get(m'.members, "role").value && q[1].value == Content(k, m'.members);
    assert (|p| == 3) == Get(m.members, "name").Some? && (|q| == 3) == Get(m'.members, "name").Some?;
    if Get(m.members, "name").Some? { assert p[2].value == Get(m.members, "name").value; }
    if Get(m'.members, "name").Some? { assert q[2].value == Get(m'.members, "name").value; }
  }

  lemma {:induction false} ViewAt(k: Keyer, xs: seq<Json>)
    ensures |View(k, xs)| == |Externals(xs)|
    ensures forall i | 0 <= i < |Externals(xs)| :: View(k, xs)[i] == Kept(k, Externals(xs)[i])
  {
    if xs != [] { ViewAt(k, xs[1..]); }
  }

  /** The message part of the key is equal exactly when, assistant and unknown turns left out, the turns
      agree one by one on role, content and name. */
  lemma SameView(k: Keyer, xs: seq<Json>, ys: seq<Json>)
    ensures View(k, xs) == View(k, ys) <==> SameTurns(k, xs, ys)
  {
    ViewAt(k, xs);
    ViewAt(k, ys);
    var es, fs := Externals(xs), Externals(ys);
    forall i | 0 <= i < |es| && i < |fs|
      ensures Kept(k, es[i]) == Kept(k, fs[i]) <==> SameTurn(k, es[i], fs[i])
    {
      SameKept(k, es[i], fs[i]);
    }
    if View(k, xs) == View(k, ys) {
      forall i | 0 <= i < |es| ensures SameTurn(k, es[i], fs[i]) {
        assert View(k, xs)[i] == View(k, ys)[i];
      }
    }
  }

  /** An assistant turn, wherever it stands, is no part of the view. */
  lemma TurnErased(k: Keyer, before: seq<Json>, m: Json, after: seq<Json>)
    requires !External(m)
    ensures View(k, before + [m] + after) == View(k, before + after)
  {
    ViewAppend(k, before, [m]);
    ViewAppend(k, before + [m], after);
    ViewAppend(k, before, after);
    assert [m][1..] == [];
  }

  /** A member the view does not read, such as tool_call_id, can be replaced at will. */
  lemma MemberErased(k: Keyer, ms: seq<Member>, i: nat, m: Member)
    requires i < |ms| && ms[i].key == m.key && External(Obj(ms))
    requires m.key != "role" && m.key != "content" && m.key != "name"
    ensures External(Obj(ms[i := m])) && SameTurn(k, Obj(ms), Obj(ms[i := m]))
  {
    GetReplaced(ms, i, m, "role");
    GetReplaced(ms, i, m, "content");
    GetReplaced(ms, i, m, "name");
  }

  lemma {:induction false} GetReplaced(ms: seq<Member>, i: nat, m: Member, key: string)
    requires i < |ms| && ms[i].key == m.key && m.key != key
    ensures Get(ms[i := m], key) == Get(ms, key)
  {
    if i > 0 {
      GetReplaced(ms[1..], i - 1, m, key);
      assert ms[i := m][1..] == ms[1..][i - 1 := m];
    } else {
      assert ms[i := m][1..] == ms[1..];
    }
  }

  /** The tools of two requests are the same, name by name and in the same order under each name; tools that have
      no name count as one name. */
  ghost predicate SameTools(k: Keyer, ts: seq<Json>, us: seq<Json>) {
    SameByKey(Objects(ts), Objects(us), ByName(k))
  }

  /** Tools with distinct names are the same in any order. */
  lemma ToolsInAnyOrder(k: Keyer, ts: seq<Json>, us: seq<Json>)
    requires Distinct(Objects(ts), ByName(k)) && Distinct(Objects(us), ByName(k))
    requires forall t :: t in Objects(ts) <==> t in Objects(us)
    ensures SameTools(k, ts, us)
  {
    SortPermutation(Objects(ts), Objects(us), ByName(k));
  }

  /** The tool part of the key is equal exactly when the tools are the same name by name. */
  lemma SameToolPart(k: Keyer, ts: seq<Json>, us: seq<Json>)
    ensures Tools(k, ts) == Tools(k, us) <==> SameTools(k, ts, us)
  {
    SortEqual(Objects(ts), Objects(us), ByName(k));
  }

  /** Bodies that differ only in assistant turns, in message members other than role, content and name,
      in unlisted members, in the order of tools with different names, or in text the rewriter erases share a key. */
  lemma KeyUnchanged(k: Keyer, b1: seq<Member>, b2: seq<Member>)
    requires Get(b1, "model") == Get(b2, "model")
    requires SameTurns(k, Items(Get(b1, "messages")), Items(Get(b2, "messages")))
    requires SameTools(k, Items(Get(b1, "tools")), Items(Get(b2, "tools")))
    requires forall f | f in PARAM_FIELDS :: Get(b1, f) == Get(b2, f)
    ensures DeriveKey(k, b1) == DeriveKey(k, b2)
  {
    SameView(k, Items(Get(b1, "messages")), Items(Get(b2, "messages")));
    SameToolPart(k, Items(Get(b1, "tools")), Items(Get(b2, "tools")));
    PickedUnchanged(b1, b2, PARAM_FIELDS);
  }

  lemma PickedUnchanged(b1: seq<Member>, b2: seq<Member>, fields: seq<string>)
    requires forall f | f in fields :: Get(b1, f) == Get(b2, f)
    ensures Picked(b1, fields) == Picked(b2, fields)
  {
    if fields != [] { PickedUnchanged(b1, b2, fields[..|fields| - 1]); }
  }
}
