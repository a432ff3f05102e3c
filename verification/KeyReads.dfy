/** Which edits of a request change its cache key, and which do not: roles, members and parameters by name. */
module KeyReads {
  import opened Json
  import opened Sorting
  import opened Canonical
  import opened Keying

  /** A turn the key reads. */
  predicate Counts(m: Json) {
    m.Obj? && Get(m.members, "role") in {Some(Str("system")), Some(Str("user")), Some(Str("tool"))}
  }

  lemma CountsIsExternal(m: Json)
    ensures Counts(m) <==> External(m)
  {
  }

  /** Two bodies that differ at most in the member f. */
  ghost predicate AlikeBut(b1: seq<Member>, b2: seq<Member>, f: string) {
    forall g | g != f :: Get(b1, g) == Get(b2, g)
  }

  lemma {:induction false} EqualItself(j: Json)
    requires WellFormed(j)
    ensures Equal(j, j)
  {
    CanonEqual(j, j);
  }

  lemma SameAtItself(b1: seq<Member>, b2: seq<Member>, f: string)
    requires WellFormed(Obj(b1)) && Get(b1, f) == Get(b2, f)
    ensures SameAt(b1, b2, f)
  {
    ValueWellFormed(b1, f);
    if Get(b1, f).Some? { EqualItself(Get(b1, f).value); }
  }

  // ---- Turns ----

  /** The bodies have these messages and are otherwise alike. */
  ghost predicate Differ(b1: seq<Member>, b2: seq<Member>, xs: seq<Json>, ys: seq<Json>) {
    && WellFormed(Obj(b1)) && WellFormed(Obj(b2)) && AlikeBut(b1, b2, "messages")
    && Get(b1, "messages") == Some(Arr(xs)) && Get(b2, "messages") == Some(Arr(ys))
  }

  lemma AllWellFormed(b: seq<Member>, f: string, xs: seq<Json>)
    requires WellFormed(Obj(b)) && Get(b, f) == Some(Arr(xs))
    ensures forall i | 0 <= i < |xs| :: WellFormed(xs[i])
  {
    ValueWellFormed(b, f);
  }

  /** Then the keys agree exactly when the views of the messages do. */
  lemma ByMessages(k: Keyer, b1: seq<Member>, b2: seq<Member>, xs: seq<Json>, ys: seq<Json>)
    requires k.CollisionFree() && Differ(b1, b2, xs, ys)
    ensures DeriveKey(k, b1) == DeriveKey(k, b2) <==> Equal(Arr(View(k, xs)), Arr(View(k, ys)))
  {
    hide DeriveKey, View, Tools, Equal, WellFormed, Get;
    SameKey(k, b1, b2);
    ModelSame(b1, b2);
    ToolsSame(k, b1, b2);
    forall f | f in PARAM_FIELDS ensures SameAt(b1, b2, f) { SameAtItself(b1, b2, f); }
  }

  lemma ModelSame(b1: seq<Member>, b2: seq<Member>)
    requires WellFormed(Obj(b1)) && Get(b1, "model") == Get(b2, "model")
    ensures Equal(Model(b1), Model(b2))
  {
    ValueWellFormed(b1, "model");
    EqualItself(Model(b1));
  }

  lemma ToolsSame(k: Keyer, b1: seq<Member>, b2: seq<Member>)
    requires WellFormed(Obj(b1)) && Get(b1, "tools") == Get(b2, "tools")
    ensures Equal(Arr(Tools(k, Items(Get(b1, "tools")))), Arr(Tools(k, Items(Get(b2, "tools")))))
  {
    ValueWellFormed(b1, "tools");
    ToolsWellFormed(k, Items(Get(b1, "tools")));
    EqualItself(Arr(Tools(k, Items(Get(b1, "tools")))));
  }

  lemma ViewOf(k: Keyer, before: seq<Json>, m: Json, after: seq<Json>)
    ensures View(k, before + [m] + after) ==
            View(k, before) + (if Counts(m) then [Kept(k, m)] else []) + View(k, after)
  {
    CountsIsExternal(m);
    ViewAppend(k, before, [m]);
    ViewAppend(k, before + [m], after);
    assert [m][1..] == [] && View(k, [m]) == if External(m) then [Kept(k, m)] else [];
  }

  /** Adding a turn changes the key exactly when it is a system, user or tool turn: assistant turns, unknown roles,
      roles that are no string, turns without a role or that are no object are no part of the key, wherever they
      stand. */
  lemma TurnCounts(k: Keyer, b1: seq<Member>, b2: seq<Member>, before: seq<Json>, m: Json, after: seq<Json>)
    requires k.CollisionFree() && Differ(b1, b2, before + [m] + after, before + after)
    ensures DeriveKey(k, b1) == DeriveKey(k, b2) <==> !Counts(m)
  {
    hide DeriveKey, View, Kept, Get, WellFormed, AlikeBut;
    ByMessages(k, b1, b2, before + [m] + after, before + after);
    ViewOf(k, before, m, after);
    ViewAppend(k, before, after);
    if !Counts(m) {
      assert View(k, before) + [] == View(k, before);
      AllWellFormed(b2, "messages", before + after);
      ViewWellFormed(k, before + after);
      EqualItself(Arr(View(k, before + after)));
    }
  }

  /** The content of a turn as the key reads it: a string goes through the rewriter when that is on. */
  function Text(k: Keyer, m: seq<Member>): Json {
    match Get(m, "content")
    case None => Null
    case Some(Str(s)) => if k.normalize then Str(k.scrub(s)) else Str(s)
    case Some(v) => v
  }

  /** The same role, content and name. */
  ghost predicate Agree(k: Keyer, ms: seq<Member>, ms': seq<Member>) {
    && Get(ms, "role") == Get(ms', "role")
    && Equal(Text(k, ms), Text(k, ms'))
    && SameAt(ms, ms', "name")
  }

  /** Replacing a system, user or tool turn by another keeps the key exactly when they agree on role, content and name;
      a correlation id and everything else in them is not read. */
  lemma TurnDecides(k: Keyer, b1: seq<Member>, b2: seq<Member>, before: seq<Json>, m: Json, m': Json, after: seq<Json>)
    requires k.CollisionFree() && Differ(b1, b2, before + [m] + after, before + [m'] + after)
    requires Counts(m) && Counts(m')
    ensures DeriveKey(k, b1) == DeriveKey(k, b2) <==> Agree(k, m.members, m'.members)
  {
    CountsIsExternal(m);
    CountsIsExternal(m');
    hide DeriveKey, View, Kept, Get, WellFormed, Equal, AlikeBut, External, Agree;
    var xs, ys := before + [m] + after, before + [m'] + after;
    ByMessages(k, b1, b2, xs, ys);
    ViewOf(k, before, m, after);
    ViewOf(k, before, m', after);
    AllWellFormed(b1, "messages", xs);
    ViewWellFormed(k, xs);
    var u, v, n := View(k, xs), View(k, ys), |View(k, before)|;
    assert u[n] == Kept(k, m) && v[n] == Kept(k, m');
    assert forall i | 0 <= i < |u| && i != n :: u[i] == v[i];
    EqualButOne(u, v, n);
    KeptEqual(k, m, m');
  }

  lemma EqualButOne(u: seq<Json>, v: seq<Json>, n: nat)
    requires |u| == |v| && n < |u| && forall i | 0 <= i < |u| :: WellFormed(u[i])
    requires forall i | 0 <= i < |u| && i != n :: u[i] == v[i]
    ensures Equal(Arr(u), Arr(v)) <==> Equal(u[n], v[n])
  {
    forall i | 0 <= i < |u| && i != n ensures Equal(u[i], v[i]) { EqualItself(u[i]); }
  }

  lemma KeptAt(k: Keyer, m: Json, f: string)
    requires External(m)
    ensures DistinctKeys(Kept(k, m).members)
    ensures Get(Kept(k, m).members, f) ==
            if f == "role" then Get(m.members, "role") else if f == "content" then Some(Text(k, m.members))
            else if f == "name" then Get(m.members, "name") else None
  {
    var ms := Kept(k, m).members;
    assert ms[0].key == "role" && ms[1].key == "content" && (|ms| > 2 ==> ms[2].key == "name");
    assert ms[1..][0] == ms[1] && ms[1..][1..] == ms[2..] && (|ms| > 2 ==> ms[2..][0] == ms[2] && ms[2..][1..] == []);
  }

  lemma KeptEqual(k: Keyer, m: Json, m': Json)
    requires External(m) && External(m')
    ensures Equal(Kept(k, m), Kept(k, m')) <==> Agree(k, m.members, m'.members)
  {
    if Equal(Kept(k, m), Kept(k, m')) { KeptAgree(k, m, m'); }
    if Agree(k, m.members, m'.members) { AgreeKept(k, m, m'); }
    hide Kept, Equal, Agree, External;
  }

  lemma KeptAgree(k: Keyer, m: Json, m': Json)
    requires External(m) && External(m') && Equal(Kept(k, m), Kept(k, m'))
    ensures Agree(k, m.members, m'.members)
  {
    var p, q := Kept(k, m).members, Kept(k, m').members;
    assert Kept(k, m) == Obj(p) && Kept(k, m') == Obj(q);
    KeptAt(k, m, "");
    KeptAt(k, m', "");
    KeptSameAt(k, m, m', "role");
    KeptSameAt(k, m, m', "content");
    KeptSameAt(k, m, m', "name");
    KeptSameIs(k, m, m');
    hide Kept, Equal, SameAt, Get, Text, KeptSame;
    EqualAt(p, q, "role");
    EqualAt(p, q, "content");
    EqualAt(p, q, "name");
  }

  lemma AgreeKept(k: Keyer, m: Json, m': Json)
    requires External(m) && External(m') && Agree(k, m.members, m'.members)
    ensures Equal(Kept(k, m), Kept(k, m'))
  {
    var p, q := Kept(k, m).members, Kept(k, m').members;
    assert Kept(k, m) == Obj(p) && Kept(k, m') == Obj(q);
    KeptAt(k, m, "");
    KeptAt(k, m', "");
    KeptSameIs(k, m, m');
    forall f ensures SameAt(p, q, f) { KeptSameAt(k, m, m', f); }
    hide Kept, Equal, SameAt, Get, Text, KeptSame;
    AtEqual(p, q);
  }

  lemma KeptSameIs(k: Keyer, m: Json, m': Json)
    requires m.Obj? && m'.Obj?
    ensures KeptSame(k, m, m', "role") <==> Get(m.members, "role") == Get(m'.members, "role")
    ensures KeptSame(k, m, m', "content") <==> Equal(Text(k, m.members), Text(k, m'.members))
    ensures KeptSame(k, m, m', "name") <==> SameAt(m.members, m'.members, "name")
    ensures forall f | f != "role" && f != "content" && f != "name" :: KeptSame(k, m, m', f)
  {
  }

  lemma KeptSameAt(k: Keyer, m: Json, m': Json, f: string)
    requires External(m) && External(m')
    ensures SameAt(Kept(k, m).members, Kept(k, m').members, f) <==> KeptSame(k, m, m', f)
  {
    KeptAt(k, m, f);
    KeptAt(k, m', f);
    RolesEqual(m, m');
    hide Kept, External, Text, Equal;
  }

  ghost predicate KeptSame(k: Keyer, m: Json, m': Json, f: string)
    requires m.Obj? && m'.Obj?
  {
    if f == "role" then Get(m.members, "role") == Get(m'.members, "role")
    else if f == "content" then Equal(Text(k, m.members), Text(k, m'.members))
    else if f == "name" then SameAt(m.members, m'.members, "name")
    else true
  }

  lemma RolesEqual(m: Json, m': Json)
    requires External(m) && External(m')
    ensures SameAt(m.members, m'.members, "role") <==> Get(m.members, "role") == Get(m'.members, "role")
  {
  }

  // ---- Tools ----

  /** A tool declaration of a function with the given name. */
  predicate Declares(t: Json, name: string) {
    t.Obj? && match Get(t.members, "function")
              case Some(Obj(f)) => Get(f, "name") == Some(Str(name))
              case _ => false
  }

  lemma NothingNew(k: Keyer, ts: seq<Json>, us: seq<Json>)
    requires Objects(ts) == Objects(us)
    ensures SameTools(k, ts, us)
  {
    SameToolPart(k, ts, us);
  }

  lemma ByTools(k: Keyer, b1: seq<Member>, b2: seq<Member>, ts: seq<Json>, us: seq<Json>)
    requires AlikeBut(b1, b2, "tools") && SameTools(k, ts, us)
    requires Get(b1, "tools") == Some(Arr(ts)) && Get(b2, "tools") == Some(Arr(us))
    ensures DeriveKey(k, b1) == DeriveKey(k, b2)
  {
    assert forall f | f in PARAM_FIELDS :: f != "tools";
    assert Get(b1, "messages") == Get(b2, "messages") && Get(b1, "model") == Get(b2, "model");
    assert forall f | f in PARAM_FIELDS :: Get(b1, f) == Get(b2, f);
    hide DeriveKey, View, Get, SameTools, PARAM_FIELDS, AlikeBut;
    SameView(k, Items(Get(b1, "messages")), Items(Get(b2, "messages")));
    KeyUnchanged(k, b1, b2);
  }

  /** Declarations of functions with distinct names can be listed in any order. */
  lemma ToolsShuffled(k: Keyer, b1: seq<Member>, b2: seq<Member>, ts: seq<Json>, us: seq<Json>, names: seq<string>,
                      names': seq<string>)
    requires AlikeBut(b1, b2, "tools")
    requires Get(b1, "tools") == Some(Arr(ts)) && Get(b2, "tools") == Some(Arr(us)) && multiset(ts) == multiset(us)
    requires |names| == |ts| && forall i | 0 <= i < |ts| :: Declares(ts[i], names[i])
    requires |names'| == |us| && forall i | 0 <= i < |us| :: Declares(us[i], names'[i])
    requires forall i, j | 0 <= i < j < |names| :: names[i] != names[j]
    requires forall i, j | 0 <= i < j < |names'| :: names'[i] != names'[j]
    ensures DeriveKey(k, b1) == DeriveKey(k, b2)
  {
    hide DeriveKey, Get, ToolName, Declares, AlikeBut;
    Declared(k, ts, names);
    Declared(k, us, names');
    forall t ensures t in ts <==> t in us { assert t in multiset(ts) <==> t in multiset(us); }
    ToolsInAnyOrder(k, ts, us);
    hide SameTools;
    ByTools(k, b1, b2, ts, us);
  }

  lemma Declared(k: Keyer, ts: seq<Json>, names: seq<string>)
    requires |names| == |ts| && forall i | 0 <= i < |ts| :: Declares(ts[i], names[i])
    requires forall i, j | 0 <= i < j < |names| :: names[i] != names[j]
    ensures Objects(ts) == ts && Distinct(ts, ByName(k))
  {
    assert forall i | 0 <= i < |ts| :: ts[i].Obj?;
    hide Declares, ToolName;
    AllObjects(ts);
    forall i, j | 0 <= i < j < |ts| ensures ByName(k)(ts[i]) != ByName(k)(ts[j]) {
      DeclaredName(k, ts[i], names[i]);
      DeclaredName(k, ts[j], names[j]);
    }
  }

  lemma DeclaredName(k: Keyer, t: Json, name: string)
    requires Declares(t, name)
    ensures ToolName(k, t) == name
  {
  }

  lemma {:induction false} AllObjects(ts: seq<Json>)
    requires forall i | 0 <= i < |ts| :: ts[i].Obj?
    ensures Objects(ts) == ts
  {
    if ts != [] {
      var n := |ts| - 1;
      AllObjects(ts[..n]);
      assert ts[n].Obj? && ts == ts[..n] + [ts[n]];
      assert Objects(ts) == Objects(ts[..n]) + [ts[n]];
    }
  }

  /** Adding an object to the list of tools changes the key; anything else in the list is not read. */
  lemma ToolCounts(k: Keyer, b1: seq<Member>, b2: seq<Member>, before: seq<Json>, t: Json, after: seq<Json>)
    requires k.CollisionFree() && WellFormed(Obj(b1)) && WellFormed(Obj(b2)) && AlikeBut(b1, b2, "tools")
    requires Get(b1, "tools") == Some(Arr(before + [t] + after)) && Get(b2, "tools") == Some(Arr(before + after))
    ensures DeriveKey(k, b1) == DeriveKey(k, b2) <==> !t.Obj?
  {
    hide View, DeriveKey, Get, WellFormed, Objects, Tools, Model, PARAM_FIELDS, AlikeBut, SameTools;
    var xs, ys := before + [t] + after, before + after;
    ObjectsOf(before, t, after);
    if t.Obj? {
      SameKey(k, b1, b2);
      ToolsSize(k, xs);
      ToolsSize(k, ys);
    } else {
      NothingNew(k, xs, ys);
      ByTools(k, b1, b2, xs, ys);
    }
  }

  lemma ToolsSize(k: Keyer, ts: seq<Json>)
    ensures |Tools(k, ts)| == |Objects(ts)|
  {
    SortSorted(Objects(ts), ByName(k));
    assert |multiset(Tools(k, ts))| == |multiset(Objects(ts))|;
  }

  lemma {:induction false} ObjectsOf(before: seq<Json>, t: Json, after: seq<Json>)
    ensures |Objects(before + [t] + after)| == |Objects(before + after)| + if t.Obj? then 1 else 0
    ensures !t.Obj? ==> Objects(before + [t] + after) == Objects(before + after)
    decreases |after|
  {
    if after == [] {
      assert before + [t] + [] == before + [t] && before + [] == before && (before + [t])[..|before|] == before;
    } else {
      var n := |after| - 1;
      ObjectsOf(before, t, after[..n]);
      var x, y := before + [t] + after, before + after;
      assert x[..|x| - 1] == before + [t] + after[..n] && y[..|y| - 1] == before + after[..n];
    }
  }

  // ---- The other members ----

  predicate Parameter(f: string) {
    f in {"temperature", "top_p", "top_k", "max_tokens", "max_completion_tokens", "presence_penalty",
          "frequency_penalty", "seed", "stop", "response_format"}
  }

  lemma ParametersAre(f: string)
    ensures Parameter(f) <==> f in PARAM_FIELDS
  {
  }

  /** Bodies that differ at most in one member other than messages and tools: in one of the ten generation parameters
      the keys agree exactly when the values do, absence included; in the model they agree exactly when the models do,
      none counting as the empty one; in any other member they agree. */
  lemma MemberDecides(k: Keyer, b1: seq<Member>, b2: seq<Member>, f: string)
    requires k.CollisionFree() && WellFormed(Obj(b1)) && WellFormed(Obj(b2)) && AlikeBut(b1, b2, f)
    requires f != "messages" && f != "tools"
    ensures DeriveKey(k, b1) == DeriveKey(k, b2) <==>
            if Parameter(f) then SameAt(b1, b2, f)
            else if f == "model" then Equal(Named(Get(b1, "model")), Named(Get(b2, "model")))
            else true
  {
    hide View, DeriveKey, Tools, Equal, WellFormed, Get, SameAt;
    SameKey(k, b1, b2);
    ParametersAre(f);
    ToolsSame(k, b1, b2);
    MessagesSame(k, b1, b2);
    forall g | g in PARAM_FIELDS && g != f ensures SameAt(b1, b2, g) { SameAtItself(b1, b2, g); }
    if f != "model" { ModelSame(b1, b2); }
    assert "model" !in PARAM_FIELDS;
  }

  function Named(m: Option<Json>): Json { if m.None? then Str("") else m.value }

  lemma MessagesSame(k: Keyer, b1: seq<Member>, b2: seq<Member>)
    requires WellFormed(Obj(b1)) && Get(b1, "messages") == Get(b2, "messages")
    ensures Equal(Arr(View(k, Items(Get(b1, "messages")))), Arr(View(k, Items(Get(b2, "messages")))))
  {
    ValueWellFormed(b1, "messages");
    ViewWellFormed(k, Items(Get(b1, "messages")));
    EqualItself(Arr(View(k, Items(Get(b1, "messages")))));
  }
}
