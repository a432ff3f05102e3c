/** Bug ids, the fix branches named after them, and the patterns that read a bug id back from a pipeline's ref. */
module Branches {

  /** One position of a fixed-width pattern. */
  datatype Class = Lit(c: char) | Digit | Hex

  predicate IsDigit(c: char) { '0' <= c <= '9' }

  predicate IsHex(c: char) { IsDigit(c) || 'a' <= c <= 'f' }

  predicate Accepts(k: Class, c: char) {
    match k
    case Lit(l) => c == l
    case Digit => IsDigit(c)
    case Hex => IsHex(c)
  }

  type Mask = seq<Class>

  predicate Matches(m: Mask, s: string) { |m| == |s| && forall i | 0 <= i < |s| :: Accepts(m[i], s[i]) }

  /** ^...$ on a string: "$" also accepts one newline at the end. */
  predicate MatchesLine(m: Mask, s: string) {
    Matches(m, s) || (s != "" && s[|s| - 1] == '\n' && Matches(m, s[..|s| - 1]))
  }

  function Literal(s: string): (m: Mask)
    ensures |m| == |s| && forall t :: Matches(m, t) <==> t == s
  {
    var m := seq(|s|, i requires 0 <= i < |s| => Lit(s[i]));
    assert forall t | Matches(m, t) :: forall i | 0 <= i < |t| :: t[i] == s[i];
    m
  }

  const STAMP: Mask := [
    Digit, Digit, Digit, Digit, Lit('_'), Digit, Digit, Lit('_'), Digit, Digit, Lit('-'),
    Digit, Digit, Lit('_'), Digit, Digit, Lit('_'), Digit, Digit, Lit('_'), Digit]

  const TAIL: Mask := [Lit('_'), Hex, Hex, Hex, Hex]

  const PATCH_ID: Mask := [Digit, Digit, Lit('_'), Digit, Digit, Lit('_'), Digit, Digit, Lit('_'), Digit]

  const COMMIT: Mask := [Hex, Hex, Hex, Hex, Hex, Hex, Hex, Hex]

  predicate IsBugId(s: string) { Matches(STAMP, s) || Matches(STAMP + TAIL, s) }

  const BF_PREFIX := "auto/bf/"
  const BUG_PREFIX := "auto/bug_"
  const PATCH := "-patch_"

  function LegacyMask(id: Mask): Mask { Literal(BUG_PREFIX) + id + Literal(PATCH) + PATCH_ID }

  function FixMask(id: Mask): Mask { Literal(BF_PREFIX) + id + [Lit('-')] + COMMIT }

  datatype Option<+T> = None | Some(value: T)

  /** Group 1 of the first pattern that matches; the tail of a bug id is optional and tried first. */
  function ParseBranch(ref: string): (r: Option<string>) {
    if MatchesLine(LegacyMask(STAMP + TAIL), ref) then Some(ref[9..35])
    else if MatchesLine(LegacyMask(STAMP), ref) then Some(ref[9..30])
    else if MatchesLine(FixMask(STAMP + TAIL), ref) then Some(ref[8..34])
    else if MatchesLine(FixMask(STAMP), ref) then Some(ref[8..29])
    else None
  }

  /** The branch every running mode pushes. */
  function FixBranch(bugId: string, commit: string): string
    requires |commit| >= 8
  {
    BF_PREFIX + bugId + "-" + commit[..8]
  }

  lemma FixMatches(id: Mask, bugId: string, commit: string)
    requires Matches(id, bugId) && |commit| >= 8 && Matches(COMMIT, commit[..8])
    ensures Matches(FixMask(id), FixBranch(bugId, commit))
  {
  }

  /** The ref without the newline that "$" forgives. */
  function Chomp(ref: string): string {
    if ref != "" && ref[|ref| - 1] == '\n' then ref[..|ref| - 1] else ref
  }

  lemma FixLine(id: Mask, ref: string)
    ensures MatchesLine(FixMask(id), ref) <==> Matches(FixMask(id), Chomp(ref))
  {
  }

  lemma FixBranchSeventh(bugId: string, commit: string)
    requires |commit| >= 8
    ensures FixBranch(bugId, commit)[6] == 'f' && |FixBranch(bugId, commit)| == |bugId| + 17
    ensures FixBranch(bugId, commit)[8..8 + |bugId|] == bugId
  {
  }

  lemma NotLegacy(ref: string)
    requires |ref| > 6 && ref[6] != 'u'
    ensures !MatchesLine(LegacyMask(STAMP + TAIL), ref) && !MatchesLine(LegacyMask(STAMP), ref)
  {
  }

  lemma TooShort(ref: string)
    requires |ref| < 42
    ensures !MatchesLine(FixMask(STAMP + TAIL), ref)
  {
  }

  /** Printing then parsing: a fix branch yields exactly the bug id it was named after. */
  lemma ParsePrinted(bugId: string, commit: string)
    requires IsBugId(bugId) && |commit| >= 8 && Matches(COMMIT, commit[..8])
    ensures ParseBranch(FixBranch(bugId, commit)) == Some(bugId)
  {
    hide MatchesLine;
    var ref := FixBranch(bugId, commit);
    FixBranchSeventh(bugId, commit);
    NotLegacy(ref);
    if |bugId| == 26 {
      FixMatches(STAMP + TAIL, bugId, commit);
      LineOf(FixMask(STAMP + TAIL), ref);
    } else {
      TooShort(ref);
      FixMatches(STAMP, bugId, commit);
      LineOf(FixMask(STAMP), ref);
    }
  }

  lemma LineOf(m: Mask, s: string)
    requires Matches(m, s)
    ensures MatchesLine(m, s)
  {
  }

  /** Parsing then printing: an accepted auto/bf/ ref is the fix branch of the bug id it yields, up to the newline at
      its end that the pattern forgives; it reprints to itself exactly when it has none. */
  lemma PrintParsed(ref: string)
    requires BF_PREFIX <= ref && ParseBranch(ref).Some?
    ensures var id, core := ParseBranch(ref).value, Chomp(ref);
            && IsBugId(id) && |core| >= 8
            && core == FixBranch(id, core[|core| - 8..])
            && (ref == FixBranch(id, core[|core| - 8..]) <==> ref[|ref| - 1] != '\n')
  {
    hide MatchesLine, Matches;
    assert ref[6] == BF_PREFIX[6] == 'f';
    NotLegacy(ref);
    if MatchesLine(FixMask(STAMP + TAIL), ref) {
      FixLine(STAMP + TAIL, ref);
      Reprinted(STAMP + TAIL, Chomp(ref));
      assert Chomp(ref)[8..34] == ref[8..34];
    } else {
      FixLine(STAMP, ref);
      Reprinted(STAMP, Chomp(ref));
      assert Chomp(ref)[8..29] == ref[8..29];
    }
  }

  lemma Reprinted(id: Mask, core: string)
    requires Matches(FixMask(id), core)
    ensures |core| == |id| + 17 && Matches(id, core[8..8 + |id|])
    ensures core == FixBranch(core[8..8 + |id|], core[|core| - 8..])
  {
  }

  // ---- Minting ----

  datatype Clock = Clock(year: nat, month: nat, day: nat, hour: nat, minute: nat, second: nat, microsecond: nat)

  predicate IsClock(t: Clock) {
    && 1000 <= t.year <= 9999 && 1 <= t.month <= 12 && 1 <= t.day <= 31
    && t.hour < 24 && t.minute < 60 && t.second < 60 && t.microsecond < 1000000
  }

  function DigitChar(n: nat): (c: char)
    requires n < 10
    ensures IsDigit(c) && c as int == '0' as int + n
  {
    (('0' as int) + n) as char
  }

  function HexChar(n: nat): (c: char)
    requires n < 16
    ensures IsHex(c)
    ensures c as int == if n < 10 then '0' as int + n else 'a' as int + n - 10
  {
    if n < 10 then DigitChar(n) else (('a' as int) + n - 10) as char
  }

  function Two(n: nat): (s: string)
    requires n < 100
    ensures |s| == 2 && IsDigit(s[0]) && IsDigit(s[1])
    ensures n == 10 * (s[0] as int - '0' as int) + (s[1] as int - '0' as int)
  {
    [DigitChar(n / 10), DigitChar(n % 10)]
  }

  /** secrets.token_hex(2): four hex digits of a number below 65536. */
  function TokenHex(n: nat): (s: string)
    requires n < 65536
    ensures |s| == 4 && IsHex(s[0]) && IsHex(s[1]) && IsHex(s[2]) && IsHex(s[3])
  {
    var a := n / 16;
    var b := a / 16;
    [HexChar(b / 16), HexChar(b % 16), HexChar(a % 16), HexChar(n % 16)]
  }

  /** The bug id of a report received at t. */
  function Mint(t: Clock, tail: nat): string
    requires IsClock(t) && tail < 65536
  {
    Two(t.year / 100) + Two(t.year % 100) + "_" + Two(t.month) + "_" + Two(t.day) + "-"
      + Two(t.hour) + "_" + Two(t.minute) + "_" + Two(t.second) + "_"
      + [DigitChar(t.microsecond / 100000)] + "_" + TokenHex(tail)
  }

  /** The characters of a minted id, one by one. */
  lemma MintParts(t: Clock, x: nat)
    requires IsClock(t) && x < 65536
    ensures var s, c, y, m, d := Mint(t, x), Two(t.year / 100), Two(t.year % 100), Two(t.month), Two(t.day);
            && |s| == 26 && s[0] == c[0] && s[1] == c[1] && s[2] == y[0] && s[3] == y[1] && s[4] == '_'
            && s[5] == m[0] && s[6] == m[1] && s[7] == '_' && s[8] == d[0] && s[9] == d[1] && s[10] == '-'
    ensures var s, h, m, e, z := Mint(t, x), Two(t.hour), Two(t.minute), Two(t.second), TokenHex(x);
            && s[11] == h[0] && s[12] == h[1] && s[13] == '_' && s[14] == m[0] && s[15] == m[1] && s[16] == '_'
            && s[17] == e[0] && s[18] == e[1] && s[19] == '_' && s[20] == DigitChar(t.microsecond / 100000)
            && s[21] == '_' && s[22] == z[0] && s[23] == z[1] && s[24] == z[2] && s[25] == z[3]
  {
  }

  /** Every minted id has the shape the parser looks for, so its fix branch for any base commit leads back to it. */
  lemma MintedIsBugId(t: Clock, tail: nat)
    requires IsClock(t) && tail < 65536
    ensures Matches(STAMP + TAIL, Mint(t, tail))
  {
    hide Mint, Two, TokenHex, DigitChar;
    MintParts(t, tail);
  }

  lemma MintedRoundTrip(t: Clock, tail: nat, commit: string)
    requires IsClock(t) && tail < 65536 && |commit| >= 8 && Matches(COMMIT, commit[..8])
    ensures ParseBranch(FixBranch(Mint(t, tail), commit)) == Some(Mint(t, tail))
  {
    MintedIsBugId(t, tail);
    ParsePrinted(Mint(t, tail), commit);
  }

  /** The same to a tenth of a second. */
  predicate SameDecisecond(t: Clock, u: Clock) {
    t.(microsecond := t.microsecond / 100000) == u.(microsecond := u.microsecond / 100000)
  }

  /** Two reports get one id exactly when they arrive within the same tenth of a second and draw the same tail. */
  lemma MintCollides(t: Clock, x: nat, u: Clock, y: nat)
    requires IsClock(t) && IsClock(u) && x < 65536 && y < 65536
    ensures Mint(t, x) == Mint(u, y) <==> SameDecisecond(t, u) && x == y
  {
    hide Two, TokenHex;
    if Mint(t, x) == Mint(u, y) {
      MintParts(t, x);
      MintParts(u, y);
      HexApart(x, y);
      YearApart(t.year, u.year);
    }
  }

  lemma HexApart(x: nat, y: nat)
    requires x < 65536 && y < 65536
    requires TokenHex(x)[0] == TokenHex(y)[0] && TokenHex(x)[1] == TokenHex(y)[1]
    requires TokenHex(x)[2] == TokenHex(y)[2] && TokenHex(x)[3] == TokenHex(y)[3]
    ensures x == y
  {
    var a, b := x / 16, y / 16;
    HexCharApart(a / 16 / 16, b / 16 / 16);
    HexCharApart(a / 16 % 16, b / 16 % 16);
    HexCharApart(a % 16, b % 16);
    HexCharApart(x % 16, y % 16);
  }

  lemma HexCharApart(a: nat, b: nat)
    requires a < 16 && b < 16
    ensures HexChar(a) == HexChar(b) ==> a == b
  {
  }

  lemma YearApart(y: nat, z: nat)
    requires y < 10000 && z < 10000 && y / 100 == z / 100 && y % 100 == z % 100
    ensures y == z
  {
  }
}
