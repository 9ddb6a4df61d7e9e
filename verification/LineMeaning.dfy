/**
 What the account line parser accepts, said without its steps: the text between the outer white space, cut at the
 first three separators, with each part trimmed and checked.
 */
module LineMeaning {
  import opened AccountLine

  // ----- Trimming

  predicate AllSpace(u: Unicode, s: string) {
    forall k :: 0 <= k < |s| ==> u.isSpace(s[k])
  }

  /** What stands from `i` to `j` has no white space at its ends, and there is only white space around it. */
  predicate TrimAt(u: Unicode, s: string, i: int, j: int) {
    && 0 <= i <= j <= |s|
    && (forall k :: 0 <= k < i ==> u.isSpace(s[k])) && (forall k :: j <= k < |s| ==> u.isSpace(s[k]))
    && (i < j ==> !u.isSpace(s[i]) && !u.isSpace(s[j - 1]))
  }

  /** `t` is `s` without the white space around it. */
  predicate TrimOf(u: Unicode, s: string, t: string) {
    exists i, j :: 0 <= i <= j <= |s| && TrimAt(u, s, i, j) && t == s[i..j]
  }

  lemma {:induction false} StripAt(u: Unicode, s: string) returns (i: int, j: int)
    ensures TrimAt(u, s, i, j) && Strip(u, s) == s[i..j]
    decreases |s|
  {
    if s == [] {
      i, j := 0, 0;
    } else if u.isSpace(s[0]) {
      i, j := StripAt(u, s[1..]);
      LaterBy(u, s, i, j);
      i, j := i + 1, j + 1;
    } else if u.isSpace(s[|s| - 1]) {
      i, j := StripAt(u, s[..|s| - 1]);
      assert s[i..j] == s[..|s| - 1][i..j];
    } else {
      i, j := 0, |s|;
      assert s[0..|s|] == s;
    }
  }

  lemma SliceShift<T>(s: seq<T>, a: nat, i: nat, j: nat)
    requires i <= j && a + j <= |s|
    ensures s[a..][i..j] == s[a + i..a + j]
  {
  }

  lemma LaterBy(u: Unicode, s: string, i: int, j: int)
    requires s != [] && u.isSpace(s[0]) && TrimAt(u, s[1..], i, j)
    ensures TrimAt(u, s, i + 1, j + 1) && s[i + 1..j + 1] == s[1..][i..j]
  {
    SliceShift(s, 1, i, j);
    forall k | j + 1 <= k < |s| ensures u.isSpace(s[k]) {
      assert s[k] == s[1..][k - 1];
    }
    forall k | 0 <= k < i + 1 ensures u.isSpace(s[k]) {
      if k > 0 { assert s[k] == s[1..][k - 1]; }
    }
  }

  lemma TrimUnique(u: Unicode, s: string, i: int, j: int, i': int, j': int)
    requires TrimAt(u, s, i, j) && TrimAt(u, s, i', j')
    ensures s[i..j] == s[i'..j']
  {
    if i < j {
      Inside(u, s, i, i', j');
      Inside(u, s, j - 1, i', j');
      Inside(u, s, i', i, j);
      Inside(u, s, j' - 1, i, j);
    } else if i' < j' {
      Inside(u, s, i', i, j);
    }
  }

  /** A character that is no white space lies within the trimmed text. */
  lemma Inside(u: Unicode, s: string, k: int, i: int, j: int)
    requires 0 <= k < |s| && !u.isSpace(s[k]) && TrimAt(u, s, i, j)
    ensures i <= k < j
  {
  }

  /** Trimming is the one way to take the white space off. */
  lemma TrimExactly(u: Unicode, s: string, t: string)
    ensures TrimOf(u, s, t) <==> t == Strip(u, s)
  {
    var i, j := StripAt(u, s);
    if TrimOf(u, s, t) {
      var i', j' :| 0 <= i' <= j' <= |s| && TrimAt(u, s, i', j') && t == s[i'..j'];
      TrimUnique(u, s, i, j, i', j');
    }
  }

  lemma StripPadded(u: Unicode, w: string, t: string, w': string)
    requires AllSpace(u, w) && AllSpace(u, w') && Trimmed(u, t)
    ensures Strip(u, w + t + w') == t
  {
    var s := w + t + w';
    assert s[|w|..|w| + |t|] == t;
    assert TrimAt(u, s, |w|, |w| + |t|) by {
      assert forall k :: 0 <= k < |w| ==> s[k] == w[k];
      assert forall k :: |w| + |t| <= k < |s| ==> s[k] == w'[k - |w| - |t|];
      assert t != [] ==> s[|w|] == t[0] && s[|w| + |t| - 1] == t[|t| - 1];
    }
    TrimExactly(u, s, t);
  }

  // ----- Marks and comments

  predicate AllMarks(s: string) {
    forall k :: 0 <= k < |s| ==> s[k] == '\U{FEFF}'
  }

  lemma {:induction false} MarksOff(s: string) returns (n: int)
    ensures 0 <= n <= |s| && AllMarks(s[..n]) && (n < |s| ==> s[n] != '\U{FEFF}') && StripBom(s) == s[n..]
    decreases |s|
  {
    if s != [] && s[0] == BOM {
      n := MarksOff(s[1..]);
      n := n + 1;
      assert s[..n] == [s[0]] + s[1..][..n - 1] && s[n..] == s[1..][n - 1..];
    } else {
      n := 0;
    }
  }

  /** `core` is the line without the white space around it and the byte order marks then in front. */
  ghost predicate CoreOf(u: Unicode, raw: string, core: string) {
    (core == [] || core[0] != '\U{FEFF}')
    && exists t, marks :: TrimOf(u, raw, t) && AllMarks(marks) && t == marks + core
  }

  lemma {:induction false} MarksUnique(marks: string, core: string)
    requires AllMarks(marks) && (core == [] || core[0] != '\U{FEFF}')
    ensures StripBom(marks + core) == core
    decreases |marks|
  {
    if marks != [] {
      assert (marks + core)[1..] == marks[1..] + core;
      MarksUnique(marks[1..], core);
    } else {
      assert marks + core == core;
    }
  }

  lemma CoreExactly(u: Unicode, raw: string, core: string)
    ensures CoreOf(u, raw, core) <==> core == StripBom(Strip(u, raw))
  {
    var t := Strip(u, raw);
    TrimExactly(u, raw, t);
    if core == StripBom(t) {
      var n := MarksOff(t);
      assert t == t[..n] + t[n..];
    }
    if CoreOf(u, raw, core) {
      var t', marks :| TrimOf(u, raw, t') && AllMarks(marks) && t' == marks + core;
      TrimExactly(u, raw, t');
      MarksUnique(marks, core);
    }
  }

  // ----- Cutting

  /** Four parts around the first three separators; only the last part may hold one, or a dash before one. */
  predicate Cut(core: string, f: seq<string>) {
    && |f| == 4 && core == f[0] + "----" + f[1] + "----" + f[2] + "----" + f[3]
    && !Ambiguous(f[0]) && !Ambiguous(f[1]) && !Ambiguous(f[2])
  }

  /** The parts, with separators between them. */
  function Join(parts: seq<string>): string
    requires parts != []
  {
    if |parts| == 1 then parts[0] else parts[0] + "----" + Join(parts[1..])
  }

  predicate AllButLastPlain(parts: seq<string>) {
    forall k :: 0 <= k < |parts| - 1 ==> !Ambiguous(parts[k])
  }

  /** A first separator cuts off an unambiguous part. */
  lemma PartBefore(s: string, i: nat)
    requires i <= |s| && FirstSep(s, i) < |s|
    ensures var k := FirstSep(s, i);
            !Ambiguous(s[i..k]) && k + 4 <= |s| && s[i..] == s[i..k] + "----" + s[k + 4..]
  {
    var k := FirstSep(s, i);
    assert FieldAt(s, i, s[i..k]);
    CutIffUnambiguous(s, i, s[i..k]);
    assert s[k..k + 4] == "----";
  }

  lemma JoinCons(f: string, rest: seq<string>)
    requires rest != [] && !Ambiguous(f) && AllButLastPlain(rest)
    ensures Join([f] + rest) == f + "----" + Join(rest) && AllButLastPlain([f] + rest)
  {
    var parts := [f] + rest;
    assert parts[1..] == rest && parts[0] == f;
    assert forall k :: 0 < k < |parts| ==> parts[k] == rest[k - 1];
  }

  /** The parts are the text from `i` on, and only the last may be ambiguous. */
  predicate PartsFrom(s: string, i: nat, parts: seq<string>) {
    i <= |s| && parts != [] && Join(parts) == s[i..] && AllButLastPlain(parts)
  }

  lemma PartInFront(s: string, i: nat, rest: seq<string>)
    requires i <= |s| && FirstSep(s, i) < |s| && PartsFrom(s, FirstSep(s, i) + 4, rest)
    ensures PartsFrom(s, i, [s[i..FirstSep(s, i)]] + rest)
  {
    PartBefore(s, i);
    JoinCons(s[i..FirstSep(s, i)], rest);
  }

  lemma {:induction false} FieldsJoin(s: string, i: nat, cuts: nat)
    requires i <= |s|
    ensures PartsFrom(s, i, Fields(s, i, cuts))
    decreases cuts
  {
    var k := FirstSep(s, i);
    if cuts > 0 && k < |s| {
      FieldsJoin(s, k + 4, cuts - 1);
      PartInFront(s, i, Fields(s, k + 4, cuts - 1));
    } else {
      assert Fields(s, i, cuts) == [s[i..]];
    }
  }

  /** An unambiguous part before a separator is what the first cut finds. */
  lemma CutHere(s: string, i: nat, f: string, rest: string)
    requires i <= |s| && s[i..] == f + "----" + rest && !Ambiguous(f)
    ensures FirstSep(s, i) == i + |f| && i + |f| + 4 <= |s|
    ensures s[i..i + |f|] == f && s[i + |f| + 4..] == rest
  {
    var c := i + |f|;
    assert s[i..][..|f|] == f && s[i..][|f|..|f| + 4] == "----" && s[i..][|f| + 4..] == rest;
    assert s[c..c + 4] == "----";
    assert SepAt(s, c) by {
      assert s[c] == s[c..c + 4][0] && s[c + 1] == s[c..c + 4][1] && s[c + 2] == s[c..c + 4][2];
      assert s[c + 3] == s[c..c + 4][3];
    }
    CutIffUnambiguous(s, i, f);
  }

  lemma FieldsSnip(s: string, i: nat, f: string, rest: seq<string>, cuts: nat)
    requires i <= |s| && cuts >= 1 && FirstSep(s, i) == i + |f| && i + |f| + 4 <= |s| && s[i..i + |f|] == f
    requires Fields(s, i + |f| + 4, cuts - 1) == rest
    ensures Fields(s, i, cuts) == [f] + rest
  {
  }

  lemma JoinTail(parts: seq<string>)
    requires |parts| > 1 && AllButLastPlain(parts)
    ensures Join(parts) == parts[0] + "----" + Join(parts[1..])
    ensures !Ambiguous(parts[0]) && AllButLastPlain(parts[1..])
  {
    assert forall k :: 0 <= k < |parts[1..]| ==> parts[1..][k] == parts[k + 1];
  }

  lemma LastPart(s: string, i: nat, f: string)
    requires i <= |s| && s[i..] == f
    ensures Fields(s, i, 0) == [f]
  {
  }

  lemma {:induction false} JoinFields(s: string, i: nat, parts: seq<string>)
    requires i <= |s| && parts != [] && s[i..] == Join(parts) && AllButLastPlain(parts)
    ensures Fields(s, i, |parts| - 1) == parts
    decreases |parts|
  {
    if |parts| == 1 {
      LastPart(s, i, parts[0]);
    } else {
      var f, rest := parts[0], parts[1..];
      var j := i + |f| + 4;
      assert FirstSep(s, i) == i + |f| && j <= |s| && s[i..i + |f|] == f && Fields(s, j, |rest| - 1) == rest by {
        JoinTail(parts);
        CutHere(s, i, f, Join(rest));
        JoinFields(s, j, rest);
      }
      FieldsSnip(s, i, f, rest, |rest|);
      assert parts == [f] + rest;
    }
  }

  lemma JoinFour(f: seq<string>)
    requires |f| == 4
    ensures Join(f) == f[0] + "----" + f[1] + "----" + f[2] + "----" + f[3]
  {
    var g, h := f[1..], f[2..];
    assert g[1..] == h && h[1..] == [f[3]] && g[0] == f[1] && h[0] == f[2];
    assert Join(h) == f[2] + "----" + f[3];
    assert Join(g) == f[1] + "----" + Join(h);
  }

  /** Cutting finds four parts exactly if there are four, and then these. */
  lemma CutIsFields(core: string, f: seq<string>)
    ensures Cut(core, f) <==> |f| == 4 && Fields(core, 0, 3) == f
  {
    assert core[0..] == core;
    if |f| == 4 {
      JoinFour(f);
      if Cut(core, f) {
        JoinFields(core, 0, f);
      }
      FieldsJoin(core, 0, 3);
    }
  }

  // ----- Checks

  /** A run of characters with neither white space nor an at sign. */
  predicate Clean(u: Unicode, s: string) {
    s != [] && forall k :: 0 <= k < |s| ==> !u.isSpace(s[k]) && s[k] != '@'
  }

  ghost predicate EmailShape(u: Unicode, e: string) {
    !u.isSpace('@') && !u.isSpace('.')
    && exists l, d, t :: Clean(u, l) && Clean(u, d) && Clean(u, t) && e == l + "@" + d + "." + t
  }

  lemma EmailIs(u: Unicode, e: string)
    ensures MatchesEmail(u, e) <==> EmailShape(u, e)
  {
    if MatchesEmail(u, e) {
      var at: nat, dot: nat :| at < |e| && dot < |e| && 1 <= at && at + 2 <= dot && dot + 1 < |e|
                               && e[at] == '@' && e[dot] == '.'
                               && forall k: nat | k < |e| :: !u.isSpace(e[k]) && (k != at ==> e[k] != '@');
      MatchShapes(u, e, at, dot);
    }
    if EmailShape(u, e) {
      var l, d, t :| Clean(u, l) && Clean(u, d) && Clean(u, t) && e == l + "@" + d + "." + t;
      ShapeMatches(u, e, l, d, t);
    }
  }

  lemma MatchShapes(u: Unicode, e: string, at: nat, dot: nat)
    requires 1 <= at && at + 2 <= dot && dot + 1 < |e| && e[at] == '@' && e[dot] == '.'
    requires forall k: nat | k < |e| :: !u.isSpace(e[k]) && (k != at ==> e[k] != '@')
    ensures EmailShape(u, e)
  {
    var l, d, t := e[..at], e[at + 1..dot], e[dot + 1..];
    assert Clean(u, l) && Clean(u, d) && Clean(u, t);
    assert e == e[..at] + [e[at]] + e[at + 1..dot] + [e[dot]] + e[dot + 1..];
    assert e == l + "@" + d + "." + t;
  }

  lemma ShapeMatches(u: Unicode, e: string, l: string, d: string, t: string)
    requires !u.isSpace('@') && !u.isSpace('.') && Clean(u, l) && Clean(u, d) && Clean(u, t)
    requires e == l + "@" + d + "." + t
    ensures MatchesEmail(u, e)
  {
    var at: nat, dot: nat := |l|, |l| + 1 + |d|;
    assert e[at] == '@' && e[dot] == '.';
    forall k: nat | k < |e| ensures !u.isSpace(e[k]) && (k != at ==> e[k] != '@') {
      if k < at { assert e[k] == l[k]; }
      if at < k < dot { assert e[k] == d[k - at - 1]; }
      if k > dot { assert e[k] == t[k - dot - 1]; }
    }
  }

  predicate Visible(s: string) {
    forall k :: 0 <= k < |s| ==> s[k] as int >= 32
  }

  lemma ControlIs(a: string, b: string, c: string)
    ensures HasControl(a + b + c) <==> !(Visible(a) && Visible(b) && Visible(c))
  {
    var s := a + b + c;
    assert forall k :: 0 <= k < |a| ==> s[k] == a[k];
    assert forall k :: 0 <= k < |b| ==> s[|a| + k] == b[k];
    assert forall k :: 0 <= k < |c| ==> s[|a| + |b| + k] == c[k];
  }

  /** The trimmed parts pass the checks, and `b` is the account they make. */
  ghost predicate Makes(u: Unicode, e: string, p: string, c: string, t: string, b: ParsedAccount) {
    && EmailShape(u, e) && c != [] && |t| >= 20 && Visible(e) && Visible(c) && Visible(t)
    && b.email == u.lower(e) && b.password == p && b.clientId == c && b.token == t
  }

  lemma ChecksAre(u: Unicode, e: string, p: string, c: string, t: string, b: ParsedAccount)
    requires Strip(u, e) == e
    ensures Checked(u, e, p, c, t) == Parsed(b) <==> Makes(u, e, p, c, t, b)
  {
    EmailIs(u, e);
    ControlIs(e, c, t);
  }

  // ----- The parser

  /** Each part, trimmed. */
  ghost predicate TrimmedParts(u: Unicode, f: seq<string>, e: string, p: string, c: string, t: string)
    requires |f| == 4
  {
    TrimOf(u, f[0], e) && TrimOf(u, f[1], p) && TrimOf(u, f[2], c) && TrimOf(u, f[3], t)
  }

  /** The line is the account `b`: cut into four parts that, trimmed, make it. */
  ghost predicate IsAccount(u: Unicode, core: string, b: ParsedAccount) {
    exists f, e :: Cut(core, f) && TrimmedParts(u, f, e, b.password, b.clientId, b.token)
                   && Makes(u, e, b.password, b.clientId, b.token, b)
  }

  ghost predicate FourParts(core: string) {
    exists f :: Cut(core, f)
  }

  lemma {:induction false} StripTwice(u: Unicode, s: string)
    ensures Strip(u, Strip(u, s)) == Strip(u, s)
  {
    var i, j := StripAt(u, s);
    var t := Strip(u, s);
    assert t != [] ==> t[0] == s[i] && t[|t| - 1] == s[j - 1];
    StripTrimmed(u, t);
  }

  lemma PartsParse(u: Unicode, core: string, b: ParsedAccount)
    ensures CheckedParts(u, Fields(core, 0, 3)) == Parsed(b) <==> IsAccount(u, core, b)
  {
    var f := Fields(core, 0, 3);
    if CheckedParts(u, f) == Parsed(b) {
      PartsMake(u, core, f, b);
    }
    if IsAccount(u, core, b) {
      var g, e :| Cut(core, g) && TrimmedParts(u, g, e, b.password, b.clientId, b.token)
                  && Makes(u, e, b.password, b.clientId, b.token, b);
      CutIsFields(core, g);
      MadeParts(u, g, e, b);
    }
  }

  lemma PartsMake(u: Unicode, core: string, f: seq<string>, b: ParsedAccount)
    requires f == Fields(core, 0, 3) && CheckedParts(u, f) == Parsed(b)
    ensures IsAccount(u, core, b)
  {
    CutIsFields(core, f);
    var e, p, c, t := Strip(u, f[0]), Strip(u, f[1]), Strip(u, f[2]), Strip(u, f[3]);
    CheckedKeeps(u, e, p, c, t);
    StripTwice(u, f[0]);
    ChecksAre(u, e, p, c, t, b);
    TrimExactly(u, f[0], e);
    TrimExactly(u, f[1], p);
    TrimExactly(u, f[2], c);
    TrimExactly(u, f[3], t);
    assert TrimmedParts(u, f, e, b.password, b.clientId, b.token);
  }

  lemma MadeParts(u: Unicode, f: seq<string>, e: string, b: ParsedAccount)
    requires |f| == 4 && TrimmedParts(u, f, e, b.password, b.clientId, b.token)
    requires Makes(u, e, b.password, b.clientId, b.token, b)
    ensures CheckedParts(u, f) == Parsed(b)
  {
    PartsTrim(u, f, e, b.password, b.clientId, b.token);
    TrimExactly(u, f[0], e);
    StripTwice(u, f[0]);
    ChecksAre(u, e, b.password, b.clientId, b.token, b);
  }

  /**
   What a line comes to, for every line: blank if nothing or a comment is left of it, the account it is if it is
   one, and otherwise malformed, with "not four parts" exactly if there are not four.
   */
  lemma LineComesTo(u: Unicode, raw: string, core: string, b: ParsedAccount)
    requires CoreOf(u, raw, core)
    ensures var r := ParseAccountLine(u, raw);
            && (r == Blank <==> core == "" || core[0] == '#')
            && (r == Parsed(b) <==> core != "" && core[0] != '#' && IsAccount(u, core, b))
            && (r == Malformed(NotFourParts) <==> core != "" && core[0] != '#' && !FourParts(core))
  {
    CoreExactly(u, raw, core);
    PartsParse(u, core, b);
    CutIsFields(core, Fields(core, 0, 3));
    if FourParts(core) {
      var g :| Cut(core, g);
      CutIsFields(core, g);
    }
  }

  /** Why a line of four parts is turned down: the first check that fails, in this order. */
  lemma ReasonIs(u: Unicode, raw: string, core: string, f: seq<string>, e: string, p: string, c: string, t: string)
    requires CoreOf(u, raw, core) && core != "" && core[0] != '#'
    requires Cut(core, f) && TrimmedParts(u, f, e, p, c, t)
    ensures var r := ParseAccountLine(u, raw);
            && (r == Malformed(BadEmail) <==> !EmailShape(u, e))
            && (r == Malformed(NoClientId) <==> EmailShape(u, e) && c == "")
            && (r == Malformed(ShortToken) <==> EmailShape(u, e) && c != "" && |t| < 20)
            && (r == Malformed(ControlCharacter) <==>
                  EmailShape(u, e) && c != "" && |t| >= 20 && !(Visible(e) && Visible(c) && Visible(t)))
  {
    CoreExactly(u, raw, core);
    CutIsFields(core, f);
    PartsTrim(u, f, e, p, c, t);
    EmailIs(u, e);
    ControlIs(e, c, t);
  }

  lemma PartsTrim(u: Unicode, f: seq<string>, e: string, p: string, c: string, t: string)
    requires |f| == 4 && TrimmedParts(u, f, e, p, c, t)
    ensures CheckedParts(u, f) == Checked(u, e, p, c, t)
  {
    TrimExactly(u, f[0], e);
    TrimExactly(u, f[1], p);
    TrimExactly(u, f[2], c);
    TrimExactly(u, f[3], t);
  }

  /** Every line leaves a core, and only one. */
  lemma CoreUnique(u: Unicode, raw: string) returns (core: string)
    ensures CoreOf(u, raw, core) && forall other :: CoreOf(u, raw, other) ==> other == core
  {
    core := StripBom(Strip(u, raw));
    CoreExactly(u, raw, core);
    forall other | CoreOf(u, raw, other) ensures other == core {
      CoreExactly(u, raw, other);
    }
  }

  // ----- White space does not matter

  lemma SepInside(u: Unicode, w: string, f: string, w': string, i: nat)
    requires !u.isSpace('-') && AllSpace(u, w) && AllSpace(u, w') && SepAt(w + f + w', i)
    ensures i >= |w| && i - |w| < |f| && SepAt(f, i - |w|)
  {
    var s := w + f + w';
    assert forall k :: 0 <= k < |w| ==> s[k] == w[k];
    assert forall k :: 0 <= k < |f| ==> s[|w| + k] == f[k];
    assert forall k :: 0 <= k < |w'| ==> s[|w| + |f| + k] == w'[k];
    assert !u.isSpace(s[i]) && !u.isSpace(s[i + 3]);
  }

  /** White space around an unambiguous part makes no separator, and takes no dash to the end. */
  lemma PaddedPlain(u: Unicode, w: string, f: string, w': string)
    requires !u.isSpace('-') && AllSpace(u, w) && AllSpace(u, w') && !Ambiguous(f)
    ensures !Ambiguous(w + f + w')
  {
    var s := w + f + w';
    forall i: nat | i < |s| && SepAt(s, i) ensures i >= |w| && i - |w| < |f| && SepAt(f, i - |w|) {
      SepInside(u, w, f, w', i);
    }
    assert s != [] ==> s[|s| - 1] == if w' != [] then w'[|w'| - 1] else if f != [] then f[|f| - 1] else w[|w| - 1];
  }

  /** Eight runs of white space: around the line and around each separator. */
  datatype Padding = Padding(a: string, b: string, c: string, d: string, e: string, f: string, g: string, h: string)

  predicate AllWhite(u: Unicode, w: Padding) {
    && AllSpace(u, w.a) && AllSpace(u, w.b) && AllSpace(u, w.c) && AllSpace(u, w.d)
    && AllSpace(u, w.e) && AllSpace(u, w.f) && AllSpace(u, w.g) && AllSpace(u, w.h)
  }

  /** The parts once the white space around the line is off. */
  function PaddedParts(x: ParsedAccount, w: Padding): seq<string> {
    [x.email + w.b, w.c + x.password + w.d, w.e + x.clientId + w.f, w.g + x.token]
  }

  function PrintPadded(x: ParsedAccount, w: Padding): string {
    var f := PaddedParts(x, w);
    w.a + (f[0] + "----" + f[1] + "----" + f[2] + "----" + f[3]) + w.h
  }

  lemma Bounded(u: Unicode, f: string, g: string, h: string, l: string)
    requires f != [] && l != [] && !u.isSpace(f[0]) && !u.isSpace(l[|l| - 1])
    ensures var s := f + "----" + g + "----" + h + "----" + l; s != [] && s[0] == f[0] && Trimmed(u, s)
  {
    var s := f + "----" + g + "----" + h + "----" + l;
    assert s[|s| - 1] == l[|l| - 1];
  }

  lemma PaddedCore(u: Unicode, x: ParsedAccount, w: Padding) returns (core: string)
    requires Lawful(u) && Storable(u, x) && Printable(x) && AllWhite(u, w)
    ensures CoreOf(u, PrintPadded(x, w), core) && core != [] && core[0] == x.email[0]
    ensures core == Join(PaddedParts(x, w))
  {
    var f := PaddedParts(x, w);
    core := Join(f);
    JoinFour(f);
    assert f[0][0] == x.email[0] && f[3][|f[3]| - 1] == x.token[|x.token| - 1];
    Bounded(u, f[0], f[1], f[2], f[3]);
    StripPadded(u, w.a, core, w.h);
    MarksUnique("", core);
    assert "" + core == core;
    CoreExactly(u, PrintPadded(x, w), core);
  }

  lemma PaddedCut(u: Unicode, x: ParsedAccount, w: Padding)
    requires Lawful(u) && Storable(u, x) && Printable(x) && AllWhite(u, w)
    ensures Cut(Join(PaddedParts(x, w)), PaddedParts(x, w))
    ensures TrimmedParts(u, PaddedParts(x, w), x.email, x.password, x.clientId, x.token)
  {
    JoinFour(PaddedParts(x, w));
    assert "" + x.email + w.b == x.email + w.b && w.g + x.token + "" == w.g + x.token;
    PaddedPlain(u, "", x.email, w.b);
    PaddedPlain(u, w.c, x.password, w.d);
    PaddedPlain(u, w.e, x.clientId, w.f);
    StripPadded(u, "", x.email, w.b);
    StripPadded(u, w.c, x.password, w.d);
    StripPadded(u, w.e, x.clientId, w.f);
    StripPadded(u, w.g, x.token, "");
    TrimExactly(u, x.email + w.b, x.email);
    TrimExactly(u, w.c + x.password + w.d, x.password);
    TrimExactly(u, w.e + x.clientId + w.f, x.clientId);
    TrimExactly(u, w.g + x.token, x.token);
  }

  /** A printed account comes back whatever white space stands around its parts, a newline at the end included. */
  lemma PaddedRoundTrip(u: Unicode, x: ParsedAccount, w: Padding)
    requires Lawful(u) && Storable(u, x) && Printable(x) && AllWhite(u, w)
    ensures ParseAccountLine(u, PrintPadded(x, w)) == Parsed(x)
  {
    var core := PaddedCore(u, x, w);
    PaddedCut(u, x, w);
    StripTrimmed(u, x.email);
    ChecksAre(u, x.email, x.password, x.clientId, x.token, x);
    assert IsAccount(u, core, x);
    LineComesTo(u, PrintPadded(x, w), core, x);
  }
}
