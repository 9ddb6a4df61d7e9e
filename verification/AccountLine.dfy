/**
 The four-part account line `email----password----client_id----refresh_token`: its parser, its printer,
 and exactly when parsing undoes printing.
 */
module AccountLine {

  datatype ParsedAccount = ParsedAccount(email: string, password: string, clientId: string, token: string)

  datatype FormatError = NotFourParts | BadEmail | NoClientId | ShortToken | ControlCharacter

  datatype LineResult = Parsed(account: ParsedAccount) | Blank | Malformed(error: FormatError)

  const BOM: char := '\U{FEFF}'
  const MIN_TOKEN: nat := 20

  /**
   The interpreter's Unicode tables: which characters are white space (for `str.strip` and for the pattern
   class `\s` alike) and the lower-case mapping.
   */
  datatype Unicode = Unicode(isSpace: char -> bool, lower: string -> string)

  /** A dash is no white space, and lower-casing never makes a byte order mark appear at the front. */
  ghost predicate Lawful(u: Unicode) {
    && !u.isSpace('-')
    && forall s: string :: u.lower(s) != [] && u.lower(s)[0] == BOM ==> s != [] && s[0] == BOM
  }

  function Strip(u: Unicode, s: string): string {
    if s == [] then s
    else if u.isSpace(s[0]) then Strip(u, s[1..])
    else if u.isSpace(s[|s| - 1]) then Strip(u, s[..|s| - 1])
    else s
  }

  function StripBom(s: string): string {
    if s != [] && s[0] == BOM then StripBom(s[1..]) else s
  }

  // ----- Splitting at "----"

  const SEPARATOR: string := "----"

  predicate SepAt(s: string, i: nat) {
    i + 4 <= |s| && s[i] == '-' && s[i + 1] == '-' && s[i + 2] == '-' && s[i + 3] == '-'
  }

  /** The first separator at or after `i`, or the length of `s` if there is none. */
  function FirstSep(s: string, i: nat): (k: nat)
    requires i <= |s|
    ensures i <= k <= |s| && (k < |s| ==> SepAt(s, k))
    decreases |s| - i
  {
    if i == |s| || SepAt(s, i) then i else FirstSep(s, i + 1)
  }

  lemma {:induction false} FirstSepIsFirst(s: string, i: nat, k: nat)
    requires i <= k && SepAt(s, k)
    ensures FirstSep(s, i) <= k
    decreases k - i
  {
    if i < k && !SepAt(s, i) {
      FirstSepIsFirst(s, i + 1, k);
    }
  }

  /** The fields after at most `cuts` left-to-right cuts; what follows the last cut is kept whole. */
  function Fields(s: string, i: nat, cuts: nat): (parts: seq<string>)
    requires i <= |s|
    ensures 1 <= |parts| <= cuts + 1
    decreases cuts
  {
    var k := FirstSep(s, i);
    if cuts == 0 || k == |s| then [s[i..]]
    else [s[i..k]] + Fields(s, k + 4, cuts - 1)
  }

  // ----- Field checks

  /** `[^\s@]+@[^\s@]+\.[^\s@]+` over the whole string. */
  predicate MatchesEmail(u: Unicode, e: string) {
    exists at: nat, dot: nat | at < |e| && dot < |e| ::
      && 1 <= at && at + 2 <= dot && dot + 1 < |e|
      && e[at] == '@' && e[dot] == '.'
      && forall k: nat | k < |e| :: !u.isSpace(e[k]) && (k != at ==> e[k] != '@')
  }

  predicate HasControl(s: string) {
    exists k: nat | k < |s| :: s[k] as int < 32
  }

  function NormalizeEmail(u: Unicode, value: string): string {
    u.lower(Strip(u, value))
  }

  function Checked(u: Unicode, email: string, password: string, clientId: string, token: string)
    : LineResult
  {
    if !MatchesEmail(u, email) then Malformed(BadEmail)
    else if clientId == [] then Malformed(NoClientId)
    else if |token| < MIN_TOKEN then Malformed(ShortToken)
    else if HasControl(email + clientId + token) then Malformed(ControlCharacter)
    else Parsed(ParsedAccount(NormalizeEmail(u, email), password, clientId, token))
  }

  function CheckedParts(u: Unicode, parts: seq<string>): LineResult {
    if |parts| != 4 then Malformed(NotFourParts)
    else Checked(u, Strip(u, parts[0]), Strip(u, parts[1]), Strip(u, parts[2]), Strip(u, parts[3]))
  }

  function ParseAccountLine(u: Unicode, raw: string): LineResult {
    var line := StripBom(Strip(u, raw));
    if line == [] || line[0] == '#' then Blank
    else CheckedParts(u, Fields(line, 0, 3))
  }

  // ----- Printing

  function Glue(f: string, rest: string): string {
    f + SEPARATOR + rest
  }

  function Print(a: ParsedAccount): string {
    Glue(a.email, Glue(a.password, Glue(a.clientId, a.token)))
  }

  predicate Trimmed(u: Unicode, s: string) {
    s == [] || (!u.isSpace(s[0]) && !u.isSpace(s[|s| - 1]))
  }

  /** The accounts an import can store: trimmed, valid fields and a normalized email. */
  predicate Storable(u: Unicode, a: ParsedAccount) {
    && Trimmed(u, a.email) && Trimmed(u, a.password) && Trimmed(u, a.clientId) && Trimmed(u, a.token)
    && MatchesEmail(u, a.email) && u.lower(a.email) == a.email
    && a.clientId != [] && |a.token| >= MIN_TOKEN
    && !HasControl(a.email + a.clientId + a.token)
  }

  /** A field that would move the cut behind it: it holds a separator, or ends in a dash. */
  predicate Ambiguous(f: string) {
    (f != [] && f[|f| - 1] == '-') || exists i: nat | i < |f| :: SepAt(f, i)
  }

  /** What a caller checks before printing. The token is free to contain separators. */
  predicate Printable(a: ParsedAccount) {
    && !Ambiguous(a.email) && !Ambiguous(a.password) && !Ambiguous(a.clientId)
    && a.email != [] && a.email[0] != '#' && a.email[0] != BOM
  }

  lemma StripTrimmed(u: Unicode, s: string)
    requires Trimmed(u, s)
    ensures Strip(u, s) == s
  {
  }

  /** Text glued in front of a trimmed field survives stripping if it ends in a dash. */
  lemma {:induction false} StripKeepsDash(u: Unicode, x: string, f: string)
    requires Lawful(u) && x != [] && x[|x| - 1] == '-' && Trimmed(u, f)
    ensures Strip(u, x + f) != f
    decreases |x|
  {
    if u.isSpace(x[0]) {
      assert |x| > 1;
      assert (x + f)[1..] == x[1..] + f;
      StripKeepsDash(u, x[1..], f);
    } else {
      assert (x + f)[|x + f| - 1] == if f == [] then '-' else f[|f| - 1];
      assert Strip(u, x + f) == x + f;
      assert |x + f| > |f|;
    }
  }

  /**
   One cut of the canonical line `f ---- rest` (from position `i`): the first separator is the printed one
   if and only if the field is unambiguous, and never lies behind it.
   */
  lemma {:induction false} CutIffUnambiguous(s: string, i: nat, f: string)
    requires FieldAt(s, i, f)
    ensures FirstSep(s, i) <= i + |f|
    ensures FirstSep(s, i) == i + |f| <==> !Ambiguous(f)
  {
    var c := i + |f|;
    FirstSepIsFirst(s, i, c);
    var k := FirstSep(s, i);
    assert forall j :: 0 <= j < |f| ==> f[j] == s[i + j];
    if k < c {
      if k + 4 <= c {
        assert SepAt(f, k - i);
      } else {
        assert f[|f| - 1] == s[c - 1] == '-';
      }
    }
    if f != [] && f[|f| - 1] == '-' {
      assert SepAt(s, c - 1);
      FirstSepIsFirst(s, i, c - 1);
    } else if Ambiguous(f) {
      var j: nat :| j < |f| && SepAt(f, j);
      assert SepAt(s, i + j);
      FirstSepIsFirst(s, i, i + j);
    }
  }

  /** The field `f` stands at position `i` of `s`, followed by a separator. */
  predicate FieldAt(s: string, i: nat, f: string) {
    i + |f| + 4 <= |s| && s[i..i + |f|] == f && SepAt(s, i + |f|)
  }

  /** The field `f` is what remains of `s` from position `i`. */
  predicate RestIs(s: string, i: nat, f: string) {
    i <= |s| && s[i..] == f
  }

  // Cutting `s` from `i` on yields these fields, up to surrounding white space.

  predicate YieldsTwo(u: Unicode, s: string, i: nat, c: string, t: string)
    requires i <= |s|
  {
    var k := FirstSep(s, i);
    k < |s| && Strip(u, s[i..k]) == c && Strip(u, s[k + 4..]) == t
  }

  predicate YieldsThree(u: Unicode, s: string, i: nat, p: string, c: string, t: string)
    requires i <= |s|
  {
    var k := FirstSep(s, i);
    k < |s| && Strip(u, s[i..k]) == p && YieldsTwo(u, s, k + 4, c, t)
  }

  // The next three lemmas: cutting gives back the trimmed fields printed from `i` on exactly when every
  // field but the last is unambiguous and the cutting starts at `i`. If it starts earlier, the surplus text
  // ends in a dash, and one slip is never made up for.

  predicate Slipped(s: string, start: nat, i: nat) {
    start <= i <= |s| && (start < i ==> s[i - 1] == '-')
  }

  lemma LastField(u: Unicode, s: string, start: nat, i: nat, t: string)
    requires Lawful(u) && Slipped(s, start, i) && RestIs(s, i, t) && Trimmed(u, t)
    ensures Strip(u, s[start..]) == t <==> start == i
  {
    SlippedField(u, s, start, i, t);
    assert s[start..] == s[start..i] + t;
  }

  lemma LastTwoFields(u: Unicode, s: string, start: nat, i: nat, c: string, t: string)
    requires Lawful(u) && Slipped(s, start, i) && FieldAt(s, i, c) && RestIs(s, i + |c| + 4, t)
    requires Trimmed(u, c) && Trimmed(u, t)
    ensures YieldsTwo(u, s, start, c, t) <==> start == i && !Ambiguous(c)
  {
    var k := FirstSep(s, start);
    OneCut(u, s, start, i, c);
    LastField(u, s, k + 4, i + |c| + 4, t);
  }

  lemma LastThreeFields(u: Unicode, s: string, start: nat, i: nat, p: string, c: string, t: string, q: nat)
    requires Lawful(u) && Slipped(s, start, i) && FieldAt(s, i, p)
    requires q == i + |p| + 4 && FieldAt(s, q, c) && RestIs(s, q + |c| + 4, t)
    requires Trimmed(u, p) && Trimmed(u, c) && Trimmed(u, t)
    ensures YieldsThree(u, s, start, p, c, t) <==> start == i && !Ambiguous(p) && !Ambiguous(c)
  {
    var k := FirstSep(s, start);
    OneCut(u, s, start, i, p);
    LastTwoFields(u, s, k + 4, q, c, t);
  }

  lemma OneCut(u: Unicode, s: string, start: nat, i: nat, f: string)
    requires Lawful(u) && Slipped(s, start, i) && FieldAt(s, i, f) && Trimmed(u, f)
    ensures FirstSep(s, start) <= i + |f| && Slipped(s, FirstSep(s, start) + 4, i + |f| + 4)
    ensures FirstSep(s, start) == i + |f| ==> (Strip(u, s[start..i + |f|]) == f <==> start == i)
    ensures start == i ==> (FirstSep(s, i) == i + |f| <==> !Ambiguous(f))
  {
    FirstSepIsFirst(s, start, i + |f|);
    SlippedField(u, s, start, i, f);
    Slices(s, start, i, i + |f|);
    CutIffUnambiguous(s, i, f);
  }

  lemma Slices<T>(s: seq<T>, a: nat, b: nat, c: nat)
    requires a <= b <= c <= |s|
    ensures s[a..c] == s[a..b] + s[b..c]
  {
  }

  lemma SlippedField(u: Unicode, s: string, start: nat, i: nat, f: string)
    requires Lawful(u) && Slipped(s, start, i) && Trimmed(u, f)
    ensures Strip(u, s[start..i] + f) == f <==> start == i
  {
    if start < i {
      var x := s[start..i];
      assert x[|x| - 1] == '-';
      StripKeepsDash(u, x, f);
    } else {
      assert s[start..i] + f == f;
      StripTrimmed(u, f);
    }
  }

  /** Where the fields of the printed line stand. */
  predicate Layout(s: string, a: ParsedAccount) {
    var i := |a.email| + 4;
    var q := i + |a.password| + 4;
    && FieldAt(s, 0, a.email) && FieldAt(s, i, a.password) && FieldAt(s, q, a.clientId)
    && RestIs(s, q + |a.clientId| + 4, a.token)
  }

  lemma PrintLayout(a: ParsedAccount)
    ensures Layout(Print(a), a)
  {
    var p, c, t := a.password, a.clientId, a.token;
    LayoutOfThree(p, c, t);
    var s1 := Glue(p, Glue(c, t));
    GluedFirst(a.email, s1);
    GluedField(a.email, s1, 0, p);
    GluedField(a.email, s1, |p| + 4, c);
    GluedRest(a.email, s1, |p| + 4 + |c| + 4, t);
  }

  lemma LayoutOfThree(p: string, c: string, t: string)
    ensures var s := Glue(p, Glue(c, t));
            && FieldAt(s, 0, p) && FieldAt(s, |p| + 4, c) && RestIs(s, |p| + 4 + |c| + 4, t)
  {
    GluedFirst(c, t);
    GluedRest(c, t, 0, t);
    GluedFirst(p, Glue(c, t));
    GluedField(p, Glue(c, t), 0, c);
    GluedRest(p, Glue(c, t), |c| + 4, t);
  }

  lemma GluedFirst(f: string, rest: string)
    ensures FieldAt(Glue(f, rest), 0, f)
  {
    var s, k := Glue(f, rest), |f|;
    assert s[k] == '-' && s[k + 1] == '-' && s[k + 2] == '-' && s[k + 3] == '-';
  }

  lemma GluedField(f: string, rest: string, i: nat, g: string)
    requires FieldAt(rest, i, g)
    ensures FieldAt(Glue(f, rest), |f| + 4 + i, g)
  {
    var s, x := Glue(f, rest), |f| + 4;
    assert s[x..] == rest;
    assert s[x + i..x + i + |g|] == s[x..][i..i + |g|];
    var k := i + |g|;
    assert rest[k] == s[x..][k] && rest[k + 1] == s[x..][k + 1];
    assert rest[k + 2] == s[x..][k + 2] && rest[k + 3] == s[x..][k + 3];
  }

  lemma GluedRest(f: string, rest: string, i: nat, g: string)
    requires RestIs(rest, i, g)
    ensures RestIs(Glue(f, rest), |f| + 4 + i, g)
  {
    var s, x := Glue(f, rest), |f| + 4;
    assert s[x..] == rest;
    assert s[x + i..] == rest[i..];
  }

  // ----- From the cuts to the parser

  lemma YieldsThreeFields(u: Unicode, s: string, i: nat, p: string, c: string, t: string)
    requires i <= |s|
    ensures YieldsThree(u, s, i, p, c, t) <==>
            var parts := Fields(s, i, 2);
            |parts| == 3 && Strip(u, parts[0]) == p && Strip(u, parts[1]) == c && Strip(u, parts[2]) == t
  {
    var k := FirstSep(s, i);
    if k < |s| {
      var j := FirstSep(s, k + 4);
      if j < |s| {
        assert Fields(s, j + 4, 0) == [s[j + 4..]];
        assert Fields(s, k + 4, 1) == [s[k + 4..j]] + Fields(s, j + 4, 0);
      }
      assert Fields(s, i, 2) == [s[i..k]] + Fields(s, k + 4, 1);
    }
  }

  /** What it takes for a line without surrounding space, mark or comment sign to parse to `b`. */
  lemma ParsesTo(u: Unicode, line: string, b: ParsedAccount)
    requires line != [] && Strip(u, line) == line && line[0] != BOM && line[0] != '#'
    ensures ParseAccountLine(u, line) == Parsed(b) <==>
            var k := FirstSep(line, 0);
            && k < |line| && YieldsThree(u, line, k + 4, b.password, b.clientId, b.token)
            && Checked(u, Strip(u, line[0..k]), b.password, b.clientId, b.token) == Parsed(b)
  {
    var k := FirstSep(line, 0);
    assert Strip(u, line) == line && StripBom(line) == line;
    if k < |line| {
      var rest := Fields(line, k + 4, 2);
      YieldsThreeFields(u, line, k + 4, b.password, b.clientId, b.token);
      CheckedPartsIff(u, line[0..k], rest, b);
      assert Fields(line, 0, 3) == [line[0..k]] + rest;
    } else {
      assert Fields(line, 0, 3) == [line[0..]];
    }
  }

  lemma CheckedPartsIff(u: Unicode, first: string, rest: seq<string>, b: ParsedAccount)
    ensures CheckedParts(u, [first] + rest) == Parsed(b) <==>
            && |rest| == 3 && Strip(u, rest[0]) == b.password && Strip(u, rest[1]) == b.clientId
            && Strip(u, rest[2]) == b.token
            && Checked(u, Strip(u, first), b.password, b.clientId, b.token) == Parsed(b)
  {
    var parts := [first] + rest;
    if |rest| == 3 {
      assert parts[0] == first && parts[1] == rest[0] && parts[2] == rest[1] && parts[3] == rest[2];
      CheckedKeeps(u, Strip(u, first), Strip(u, rest[0]), Strip(u, rest[1]), Strip(u, rest[2]));
    }
  }

  lemma CheckedKeeps(u: Unicode, e: string, p: string, c: string, t: string)
    ensures var r := Checked(u, e, p, c, t);
            r.Parsed? ==> r.account.password == p && r.account.clientId == c && r.account.token == t
  {
  }

  lemma {:induction false} StripKeepsFirst(u: Unicode, s: string)
    requires s != [] && !u.isSpace(s[0])
    ensures Strip(u, s) != [] && Strip(u, s)[0] == s[0]
    decreases |s|
  {
    if u.isSpace(s[|s| - 1]) {
      StripKeepsFirst(u, s[..|s| - 1]);
    }
  }

  /** Leading byte order marks of an email go, and the line then starts inside the email. */
  lemma {:induction false} StripBomInside(u: Unicode, e: string, rest: string, at: nat)
    requires at < |e| && e[at] != BOM && forall k: nat | k < |e| :: !u.isSpace(e[k])
    ensures var r := StripBom(e + rest); r != [] && r[0] != BOM && !u.isSpace(r[0])
    decreases at
  {
    assert (e + rest)[0] == e[0];
    if e[0] == BOM {
      assert (e + rest)[1..] == e[1..] + rest;
      assert forall k: nat | k < |e[1..]| :: e[1..][k] == e[k + 1];
      StripBomInside(u, e[1..], rest, at - 1);
    }
  }

  /** A parsed account's email never starts with a byte order mark when the line does not. */
  lemma ParsedLead(u: Unicode, line: string)
    requires Lawful(u) && line != [] && line[0] != BOM && !u.isSpace(line[0])
    ensures var first := Strip(u, Fields(line, 0, 3)[0]);
            MatchesEmail(u, first) ==> var email := NormalizeEmail(u, first); email == [] || email[0] != BOM
  {
    var k := FirstSep(line, 0);
    var part := Fields(line, 0, 3)[0];
    assert part == if k == |line| then line[0..] else line[0..k];
    if part != [] {
      assert part[0] == line[0];
      StripKeepsFirst(u, part);
      StripKeepsFirst(u, Strip(u, part));
    }
  }

  /** A printed line starts with its email, ends with its token, and has no white space around it. */
  lemma PrintedEnds(u: Unicode, a: ParsedAccount)
    requires Storable(u, a)
    ensures var line := Print(a); line != [] && line[0] == a.email[0] && Strip(u, line) == line
  {
    var line := Print(a);
    assert line[0] == a.email[0] && line[|line| - 1] == a.token[|a.token| - 1];
  }

  /** A byte order mark in front is taken off, so the email that had it does not come back. */
  lemma MarkedLead(u: Unicode, a: ParsedAccount)
    requires Lawful(u) && Storable(u, a) && a.email[0] == BOM && Strip(u, Print(a)) == Print(a)
    ensures ParseAccountLine(u, Print(a)) != Parsed(a)
  {
    var line := Print(a);
    var rest := SEPARATOR + a.password + SEPARATOR + a.clientId + SEPARATOR + a.token;
    assert line == a.email + rest;
    var at: nat :| at < |a.email| && a.email[at] == '@';
    StripBomInside(u, a.email, rest, at);
    ParsedLead(u, StripBom(line));
  }

  /** The first cut is the printed one exactly if the first field is unambiguous. */
  lemma FieldFirst(u: Unicode, s: string, e: string)
    requires Lawful(u) && FieldAt(s, 0, e) && Trimmed(u, e)
    ensures var k := FirstSep(s, 0);
            && k <= |e| && k < |s| && (k == |e| <==> !Ambiguous(e)) && Slipped(s, k + 4, |e| + 4) && s[0..|e|] == e
  {
    OneCut(u, s, 0, 0, e);
  }

  /** The printed cuts come back exactly if the fields in front of them are unambiguous. */
  lemma PlainCuts(u: Unicode, s: string, e: string, p: string, c: string, t: string, i: nat, q: nat)
    requires Lawful(u) && FieldAt(s, 0, e) && i == |e| + 4 && FieldAt(s, i, p)
    requires q == i + |p| + 4 && FieldAt(s, q, c) && RestIs(s, q + |c| + 4, t)
    requires Trimmed(u, e) && Trimmed(u, p) && Trimmed(u, c) && Trimmed(u, t)
    ensures var k := FirstSep(s, 0);
            && k < |s| && (!Ambiguous(e) ==> s[0..k] == e)
            && (YieldsThree(u, s, k + 4, p, c, t) <==> !Ambiguous(e) && !Ambiguous(p) && !Ambiguous(c))
  {
    FieldFirst(u, s, e);
    LastThreeFields(u, s, FirstSep(s, 0) + 4, i, p, c, t, q);
  }

  lemma LayoutCuts(u: Unicode, line: string, a: ParsedAccount)
    requires Lawful(u) && Layout(line, a)
    requires Trimmed(u, a.email) && Trimmed(u, a.password) && Trimmed(u, a.clientId) && Trimmed(u, a.token)
    ensures CutsBack(u, line, a)
  {
    var i := |a.email| + 4;
    PlainCuts(u, line, a.email, a.password, a.clientId, a.token, i, i + |a.password| + 4);
  }

  /** Cutting gives the fields behind the email back exactly if the printed fields are unambiguous. */
  predicate CutsBack(u: Unicode, s: string, a: ParsedAccount) {
    var k := FirstSep(s, 0);
    && k < |s| && (!Ambiguous(a.email) ==> s[0..k] == a.email)
    && (YieldsThree(u, s, k + 4, a.password, a.clientId, a.token)
        <==> !Ambiguous(a.email) && !Ambiguous(a.password) && !Ambiguous(a.clientId))
  }

  lemma PlainLead(u: Unicode, line: string, a: ParsedAccount)
    requires line != [] && Strip(u, line) == line && line[0] != BOM && line[0] != '#'
    requires CutsBack(u, line, a) && Strip(u, a.email) == a.email
    requires Checked(u, a.email, a.password, a.clientId, a.token) == Parsed(a)
    ensures ParseAccountLine(u, line) == Parsed(a) <==>
            !Ambiguous(a.email) && !Ambiguous(a.password) && !Ambiguous(a.clientId)
  {
    ParsesTo(u, line, a);
  }

  /**
   Printing then parsing is the identity on a storable account if and only if the account is printable.
   */
  lemma PrintThenParse(u: Unicode, a: ParsedAccount)
    requires Lawful(u) && Storable(u, a)
    ensures ParseAccountLine(u, Print(a)) == Parsed(a) <==> Printable(a)
  {
    PrintedEnds(u, a);
    if a.email[0] == BOM {
      MarkedLead(u, a);
    } else if a.email[0] != '#' {
      PrintLayout(a);
      LayoutCuts(u, Print(a), a);
      PlainLead(u, Print(a), a);
    }
  }

  /** ASCII: only the blank is white space, and letters are left alone. */
  function PlainText(): Unicode {
    Unicode(c => c == ' ', s => s)
  }

  /** A valid account whose password ends in a dash: the dash moves the cut, and parsing returns another account. */
  lemma UnprintableAccount() returns (a: ParsedAccount)
    ensures Lawful(PlainText()) && Storable(PlainText(), a) && !Printable(a)
    ensures ParseAccountLine(PlainText(), Print(a)) != Parsed(a)
  {
    a := ParsedAccount("a@b.c", "p-", "client", "tttttttttttttttttttt");
    var e := a.email;
    assert |e| == 5 && e[1] == '@' && e[3] == '.';
    assert MatchesEmail(PlainText(), e);
    assert !HasControl(a.email + a.clientId + a.token);
    assert Ambiguous(a.password);
    PrintThenParse(PlainText(), a);
  }
}
