/** JSON values as Python's json module decodes them, and the compact text json.dumps writes.

    An object keeps its members in insertion order, as a Python dict does. Integers and floats are
    different values (1 and 1.0 are written differently); a float is the text repr() gives it. */
module Json {

  datatype Member = Member(key: string, value: Json)

  datatype Json =
    | Null
    | Bool(b: bool)
    | Int(n: int)
    | Float(repr: string)
    | Str(s: string)
    | Arr(items: seq<Json>)
    | Obj(members: seq<Member>)

  datatype Option<+T> = None | Some(value: T)

  // ---- Looking members up ----

  predicate HasKey(ms: seq<Member>, key: string) {
    exists i :: 0 <= i < |ms| && ms[i].key == key
  }

  /** The value dict.get(key) finds. */
  function Get(ms: seq<Member>, key: string): (r: Option<Json>)
    ensures r.Some? <==> HasKey(ms, key)
    ensures r.Some? ==> exists i :: 0 <= i < |ms| && ms[i] == Member(key, r.value)
  {
    if ms == [] then None
    else if ms[0].key == key then Some(ms[0].value)
    else
      var r := Get(ms[1..], key);
      assert ms == [ms[0]] + ms[1..];
      r
  }

  ghost predicate DistinctKeys(ms: seq<Member>) {
    forall i, j :: 0 <= i < j < |ms| ==> ms[i].key != ms[j].key
  }

  lemma GetAt(ms: seq<Member>, i: nat)
    requires DistinctKeys(ms) && i < |ms|
    ensures Get(ms, ms[i].key) == Some(ms[i].value)
  {
    var r := Get(ms, ms[i].key);
    assert HasKey(ms, ms[i].key);
    var j :| 0 <= j < |ms| && ms[j] == Member(ms[i].key, r.value);
    assert i == j;
  }

  /** What every decoded value satisfies: float texts are float texts and object keys are distinct. */
  ghost predicate WellFormed(j: Json) {
    match j
    case Float(r) => FloatText(r)
    case Arr(items) => forall i :: 0 <= i < |items| ==> WellFormed(items[i])
    case Obj(ms) => DistinctKeys(ms) && forall i :: 0 <= i < |ms| ==> WellFormed(ms[i].value)
    case _ => true
  }

  // ---- Numbers ----

  predicate IntChar(c: char) { '0' <= c <= '9' || c == '-' }

  predicate NumChar(c: char) {
    IntChar(c) || c == '+' || c == '.' || c == 'e' || c == 'N' || c == 'a'
    || c == 'I' || c == 'i' || c == 'n' || c == 'f' || c == 't' || c == 'y'
  }

  predicate AllNum(s: string) { forall i :: 0 <= i < |s| ==> NumChar(s[i]) }

  /** The shapes float.__repr__ produces: 1.5, 1e-05, NaN, -Infinity. */
  ghost predicate FloatText(s: string) {
    AllNum(s) && 0 < |s| && (IntChar(s[0]) || s[0] == 'N' || s[0] == 'I')
    && exists i :: 0 <= i < |s| && !IntChar(s[i])
  }

  function Digit(d: nat): char
    requires d < 10
  {
    ('0' as int + d) as char
  }

  function Digits(n: nat): (s: string)
    ensures 0 < |s| && forall i :: 0 <= i < |s| ==> '0' <= s[i] <= '9'
  {
    if n < 10 then [Digit(n)] else Digits(n / 10) + [Digit(n % 10)]
  }

  function Value(s: string): int {
    if s == [] then 0 else Value(s[..|s| - 1]) * 10 + (s[|s| - 1] as int - '0' as int)
  }

  lemma {:induction false} DigitsValue(n: nat)
    ensures Value(Digits(n)) == n
  {
    if n >= 10 {
      DigitsValue(n / 10);
      var s := Digits(n);
      assert s[..|s| - 1] == Digits(n / 10);
    } else {
      assert Digits(n)[..0] == [];
    }
  }

  function IntText(n: int): (s: string)
    ensures 0 < |s| && forall i :: 0 <= i < |s| ==> IntChar(s[i])
  {
    if n < 0 then "-" + Digits(-n) else Digits(n)
  }

  /** str(int) loses nothing. */
  lemma IntTextInjective(m: int, n: int)
    requires IntText(m) == IntText(n)
    ensures m == n
  {
    SignShows(m);
    SignShows(n);
    if m < 0 {
      Cut("-", Digits(-m), "-", Digits(-n));
      DigitsValue(-m);
      DigitsValue(-n);
    } else {
      DigitsValue(m);
      DigitsValue(n);
    }
  }

  lemma SignShows(n: int)
    ensures (IntText(n)[0] == '-') == (n < 0)
  {
  }

  // ---- Strings ----

  function HexDigit(d: nat): char
    requires d < 16
  {
    if d < 10 then Digit(d) else ('a' as int + d - 10) as char
  }

  /** One character as json.dumps writes it with ensure_ascii=False. */
  function EscapeChar(c: char): string {
    if c == '"' then "\\\""
    else if c == '\\' then "\\\\"
    else if c == '\n' then "\\n"
    else if c == '\r' then "\\r"
    else if c == '\t' then "\\t"
    else if c as int == 12 then "\\f"
    else if c as int == 8 then "\\b"
    else if c as int < 32 then "\\u00" + [HexDigit(c as int / 16), HexDigit(c as int % 16)]
    else [c]
  }

  /** The escaped text of s followed by the closing quote. */
  function EscapeRest(s: string): string {
    if s == [] then "\"" else EscapeChar(s[0]) + EscapeRest(s[1..])
  }

  function Quote(s: string): string { "\"" + EscapeRest(s) }

  /** Equal texts starting with an escaped character start with the same character. */
  lemma EscapeCharCancel(c: char, d: char, s: string, t: string)
    requires EscapeChar(c) + s == EscapeChar(d) + t
    ensures c == d && s == t
  {
    var x, y := EscapeChar(c) + s, EscapeChar(d) + t;
    assert x[0] == EscapeChar(c)[0] && y[0] == EscapeChar(d)[0];
    if |EscapeChar(c)| > 1 {
      assert |EscapeChar(d)| > 1;
      assert x[1] == EscapeChar(c)[1] && y[1] == EscapeChar(d)[1];
      if |EscapeChar(c)| == 6 {
        assert x[4] == EscapeChar(c)[4] && y[4] == EscapeChar(d)[4];
        assert x[5] == EscapeChar(c)[5] && y[5] == EscapeChar(d)[5];
      }
    }
    assert c == d;
    assert x[|EscapeChar(c)|..] == s && y[|EscapeChar(d)|..] == t;
  }

  lemma EscapeRestLead(x: string, s: string)
    ensures 0 < |EscapeRest(x) + s| && ((EscapeRest(x) + s)[0] == '"' <==> x == [])
  {
  }

  lemma {:induction false} EscapeRestCancel(x: string, y: string, s: string, t: string)
    requires EscapeRest(x) + s == EscapeRest(y) + t
    ensures x == y && s == t
  {
    EscapeRestLead(x, s);
    EscapeRestLead(y, t);
    if x == [] {
      Cut("\"", s, "\"", t);
    } else {
      Assoc(EscapeChar(x[0]), EscapeRest(x[1..]), s);
      Assoc(EscapeChar(y[0]), EscapeRest(y[1..]), t);
      EscapeCharCancel(x[0], y[0], EscapeRest(x[1..]) + s, EscapeRest(y[1..]) + t);
      EscapeRestCancel(x[1..], y[1..], s, t);
    }
  }

  // ---- The printer ----

  /** json.dumps(j, separators=(",", ":"), ensure_ascii=False), members in the order they stand. */
  function Print(j: Json): string {
    match j
    case Null => "null"
    case Bool(b) => if b then "true" else "false"
    case Int(n) => IntText(n)
    case Float(r) => r
    case Str(s) => Quote(s)
    case Arr(items) => "[" + PrintItems(items, true)
    case Obj(ms) => "{" + PrintMembers(ms, true)
  }

  /** The rest of an array: a comma before every item but the first, then the bracket. */
  function PrintItems(items: seq<Json>, first: bool): string {
    if items == [] then "]"
    else (if first then "" else ",") + (Print(items[0]) + PrintItems(items[1..], false))
  }

  function PrintMembers(ms: seq<Member>, first: bool): string {
    if ms == [] then "}"
    else (if first then "" else ",")
         + (Quote(ms[0].key) + (":" + (Print(ms[0].value) + PrintMembers(ms[1..], false))))
  }

  /** What may follow a complete value inside a document. */
  predicate Stops(s: string) { s == [] || s[0] == ',' || s[0] == ']' || s[0] == '}' }

  datatype Lead = LNull | LBool | LNum | LStr | LArr | LObj

  function LeadOf(j: Json): Lead {
    match j
    case Null => LNull
    case Bool(_) => LBool
    case Int(_) => LNum
    case Float(_) => LNum
    case Str(_) => LStr
    case Arr(_) => LArr
    case Obj(_) => LObj
  }

  function LeadOfChar(c: char): Option<Lead> {
    if c == 'n' then Some(LNull)
    else if c == 't' || c == 'f' then Some(LBool)
    else if IntChar(c) || c == 'N' || c == 'I' then Some(LNum)
    else if c == '"' then Some(LStr)
    else if c == '[' then Some(LArr)
    else if c == '{' then Some(LObj)
    else None
  }

  lemma PrintLead(j: Json)
    requires WellFormed(j)
    ensures 0 < |Print(j)| && LeadOfChar(Print(j)[0]) == Some(LeadOf(j))
  {
    match j
    case Int(n) => assert IntChar(IntText(n)[0]);
    case _ =>
  }

  /** Equal concatenations whose first parts are equally long have equal parts. */
  lemma Cut(x: string, s: string, y: string, t: string)
    requires x + s == y + t && |x| == |y|
    ensures x == y && s == t
  {
    assert (x + s)[..|x|] == x && (y + t)[..|y|] == y;
    assert (x + s)[|x|..] == s && (y + t)[|y|..] == t;
  }

  lemma Assoc(x: string, y: string, z: string)
    ensures (x + y) + z == x + (y + z)
  {
  }

  lemma Overhang(x: string, s: string, y: string, t: string)
    requires x + s == y + t
    ensures |x| < |y| ==> s != [] && s[0] == y[|x|]
  {
    if |x| < |y| {
      assert (x + s)[|x|] == (y + t)[|x|];
    }
  }

  lemma TokenCancel(x: string, y: string, s: string, t: string)
    requires AllNum(x) && AllNum(y) && Stops(s) && Stops(t)
    requires x + s == y + t
    ensures x == y && s == t
  {
    Overhang(x, s, y, t);
    Overhang(y, t, x, s);
    Cut(x, s, y, t);
  }

  lemma NumberCancel(a: Json, b: Json, s: string, t: string)
    requires WellFormed(a) && WellFormed(b) && Stops(s) && Stops(t)
    requires LeadOf(a) == LNum && LeadOf(b) == LNum
    requires Print(a) + s == Print(b) + t
    ensures a == b && s == t
  {
    TokenCancel(Print(a), Print(b), s, t);
    if a.Int? && b.Int? { IntTextInjective(a.n, b.n); }
  }

  /** Equal texts that both start with a complete value start with the same value. */
  lemma {:induction false} PrintCancel(a: Json, b: Json, s: string, t: string)
    requires WellFormed(a) && WellFormed(b) && Stops(s) && Stops(t)
    requires Print(a) + s == Print(b) + t
    ensures a == b && s == t
    decreases a, 1
  {
    PrintLead(a);
    PrintLead(b);
    assert Print(a)[0] == (Print(a) + s)[0] == (Print(b) + t)[0] == Print(b)[0];
    match a {
      case Null => Cut(Print(a), s, Print(b), t);
      case Bool(_) => Cut(Print(a), s, Print(b), t);
      case Int(_) => NumberCancel(a, b, s, t);
      case Float(_) => NumberCancel(a, b, s, t);
      case Str(x) =>
        Uncons('"', EscapeRest(x), s, EscapeRest(b.s), t);
        EscapeRestCancel(x, b.s, s, t);
      case Arr(xs) =>
        Uncons('[', PrintItems(xs, true), s, PrintItems(b.items, true), t);
        ItemsCancel(xs, b.items, true, s, t);
      case Obj(xs) =>
        Uncons('{', PrintMembers(xs, true), s, PrintMembers(b.members, true), t);
        MembersCancel(xs, b.members, true, s, t);
    }
  }

  lemma Uncons(c: char, x: string, s: string, y: string, t: string)
    requires ([c] + x) + s == ([c] + y) + t
    ensures x + s == y + t
  {
    assert ([c] + x) + s == [c] + (x + s) && ([c] + y) + t == [c] + (y + t);
    Cut([c], x + s, [c], y + t);
  }

  lemma {:induction false} ItemsCancel(xs: seq<Json>, ys: seq<Json>, first: bool, s: string, t: string)
    requires forall i :: 0 <= i < |xs| ==> WellFormed(xs[i])
    requires forall i :: 0 <= i < |ys| ==> WellFormed(ys[i])
    requires PrintItems(xs, first) + s == PrintItems(ys, first) + t
    ensures xs == ys && s == t
    decreases xs, 0
  {
    ItemsLead(xs, first, s);
    ItemsLead(ys, first, t);
    if xs == [] {
      Cut("]", s, "]", t);
    } else {
      var sep := if first then "" else ",";
      var s', t' := PrintItems(xs[1..], false) + s, PrintItems(ys[1..], false) + t;
      ItemsSplit(xs, first, s);
      ItemsSplit(ys, first, t);
      Cut(sep, Print(xs[0]) + s', sep, Print(ys[0]) + t');
      ItemsLead(xs[1..], false, s);
      ItemsLead(ys[1..], false, t);
      PrintCancel(xs[0], ys[0], s', t');
      ItemsCancel(xs[1..], ys[1..], false, s, t);
      assert xs == [xs[0]] + xs[1..] && ys == [ys[0]] + ys[1..];
    }
  }

  lemma ItemsLead(xs: seq<Json>, first: bool, s: string)
    requires forall i :: 0 <= i < |xs| ==> WellFormed(xs[i])
    ensures var u := PrintItems(xs, first) + s;
      0 < |u| && (u[0] == ']' <==> xs == []) && (!first ==> Stops(u))
  {
    if xs != [] {
      PrintLead(xs[0]);
      ItemsSplit(xs, first, s);
    }
  }

  lemma ItemsSplit(xs: seq<Json>, first: bool, s: string)
    requires xs != []
    ensures PrintItems(xs, first) + s
      == (if first then "" else ",") + (Print(xs[0]) + (PrintItems(xs[1..], false) + s))
  {
    var sep, x, r := if first then "" else ",", Print(xs[0]), PrintItems(xs[1..], false);
    Assoc(sep, x + r, s);
    Assoc(x, r, s);
  }

  lemma {:induction false} MembersCancel(xs: seq<Member>, ys: seq<Member>, first: bool, s: string, t: string)
    requires forall i :: 0 <= i < |xs| ==> WellFormed(xs[i].value)
    requires forall i :: 0 <= i < |ys| ==> WellFormed(ys[i].value)
    requires PrintMembers(xs, first) + s == PrintMembers(ys, first) + t
    ensures xs == ys && s == t
    decreases xs, 0
  {
    MembersLead(xs, first, s);
    MembersLead(ys, first, t);
    if xs == [] {
      Cut("}", s, "}", t);
    } else {
      var sep := if first then "\"" else ",\"";
      var s', t' := PrintMembers(xs[1..], false) + s, PrintMembers(ys[1..], false) + t;
      var u, v := Print(xs[0].value) + s', Print(ys[0].value) + t';
      MembersSplit(xs, first, s);
      MembersSplit(ys, first, t);
      Cut(sep, EscapeRest(xs[0].key) + (":" + u), sep, EscapeRest(ys[0].key) + (":" + v));
      EscapeRestCancel(xs[0].key, ys[0].key, ":" + u, ":" + v);
      Cut(":", u, ":", v);
      MembersLead(xs[1..], false, s);
      MembersLead(ys[1..], false, t);
      PrintCancel(xs[0].value, ys[0].value, s', t');
      MembersCancel(xs[1..], ys[1..], false, s, t);
      assert xs == [xs[0]] + xs[1..] && ys == [ys[0]] + ys[1..];
    }
  }

  lemma MembersLead(xs: seq<Member>, first: bool, s: string)
    ensures var u := PrintMembers(xs, first) + s;
      0 < |u| && (u[0] == '}' <==> xs == []) && (!first ==> Stops(u))
  {
    if xs != [] { MembersSplit(xs, first, s); }
  }

  /** One member and what follows it, regrouped around the key. */
  lemma MemberSplit(sep: string, k: string, v: string, r: string, s: string)
    ensures (sep + (("\"" + k) + (":" + (v + r)))) + s == (sep + "\"") + (k + (":" + (v + (r + s))))
  {
    var tail := ":" + (v + r);
    assert tail + s == ":" + (v + (r + s)) by {
      Assoc(":", v + r, s);
      Assoc(v, r, s);
    }
    Assoc(sep, ("\"" + k) + tail, s);
    Assoc("\"" + k, tail, s);
    Assoc("\"", k, tail + s);
    Assoc(sep, "\"", k + (tail + s));
  }

  lemma MembersSplit(xs: seq<Member>, first: bool, s: string)
    requires xs != []
    ensures PrintMembers(xs, first) + s
      == (if first then "\"" else ",\"") + (EscapeRest(xs[0].key)
           + (":" + (Print(xs[0].value) + (PrintMembers(xs[1..], false) + s))))
  {
    var sep := if first then "" else ",";
    MemberSplit(sep, EscapeRest(xs[0].key), Print(xs[0].value), PrintMembers(xs[1..], false), s);
    assert sep + "\"" == if first then "\"" else ",\"";
  }

  /** The compact text determines the value it was written from. */
  lemma PrintInjective(a: Json, b: Json)
    requires WellFormed(a) && WellFormed(b)
    ensures Print(a) == Print(b) <==> a == b
  {
    if Print(a) == Print(b) {
      PrintCancel(a, b, "", "");
    }
  }
}
