/**
 What an import does with each line of its file, without the batches and the pass: which lines are stored, ignored
 or rejected, what is counted, which columns are stored, and which errors are shown.
 */
module LineFates {
  import opened Prelude
  import opened Lines
  import opened AccountLine
  import opened Accounts
  import opened ImportPass

  // ----- The fate of a line

  lemma {:induction false} OutcomesFromAt(rules: Rules, data: seq<byte>, pos: nat, k: nat)
    requires pos <= |data| && k < |LinesFrom(data, pos)|
    ensures OutcomesFrom(rules, data, pos)[k] == Classify(rules, LinesFrom(data, pos)[k], pos == 0 && k == 0)
    decreases |data| - pos
  {
    var e := LineEnd(data, pos);
    if k > 0 {
      OutcomesFromAt(rules, data, e, k - 1);
    }
  }

  /** The text of a line: a byte order mark at the very beginning of the file is left out. */
  function TextOf(rules: Rules, line: seq<byte>, first: bool): Option<string> {
    if first && |line| >= 3 && line[0] == 0xEF && line[1] == 0xBB && line[2] == 0xBF then rules.decode(line[3..])
    else rules.decode(line)
  }

  /** Reading the line raises: it is too long, or no text, or no account line. */
  predicate Raises(rules: Rules, line: seq<byte>, first: bool) {
    || |line| > rules.lineLimit
    || TextOf(rules, line, first) == None
    || ParseAccountLine(rules.unicode, TextOf(rules, line, first).value).Malformed?
  }

  lemma TextIs(rules: Rules, line: seq<byte>, first: bool)
    ensures DecodeLine(rules, line, first) == TextOf(rules, line, first)
  {
    assert BOM_BYTES == [0xEF, 0xBB, 0xBF];
    if |line| >= 3 {
      assert line[..3] == [line[0], line[1], line[2]];
    }
  }

  /** For every file and every line of it: rejected if it raises, ignored if blank, accepted as the account it is. */
  lemma LineFate(rules: Rules, data: seq<byte>, k: nat, a: ParsedAccount)
    requires k < |LinesOf(data)|
    ensures var line, o := LinesOf(data)[k], Outcomes(rules, data)[k];
            var parsed := if TextOf(rules, line, k == 0) == None then Blank
                          else ParseAccountLine(rules.unicode, TextOf(rules, line, k == 0).value);
            && (o.Rejected? <==> Raises(rules, line, k == 0))
            && (o.Ignored? <==> !Raises(rules, line, k == 0) && parsed == Blank)
            && (o == Accepted(a) <==> !Raises(rules, line, k == 0) && parsed == Parsed(a))
  {
    OutcomesFromAt(rules, data, 0, k);
    TextIs(rules, LinesOf(data)[k], k == 0);
  }

  // ----- Counting

  function Rejections(outs: seq<LineOutcome>): set<nat> {
    set k: nat | k < |outs| && outs[k].Rejected?
  }

  function Acceptances(outs: seq<LineOutcome>): set<nat> {
    set k: nat | k < |outs| && outs[k].Accepted?
  }

  lemma SnocSets(outs: seq<LineOutcome>)
    requires outs != []
    ensures var n := |outs| - 1;
            && |Rejections(outs)| == |Rejections(outs[..n])| + (if outs[n].Rejected? then 1 else 0)
            && |Acceptances(outs)| == |Acceptances(outs[..n])| + (if outs[n].Accepted? then 1 else 0)
  {
    var n := |outs| - 1;
    assert Rejections(outs) == if outs[n].Rejected? then Rejections(outs[..n]) + {n} else Rejections(outs[..n]);
    assert Acceptances(outs) == if outs[n].Accepted? then Acceptances(outs[..n]) + {n} else Acceptances(outs[..n]);
  }

  /**
   A pass counts the rejected lines as failed. In update mode every accepted line succeeds; in skip mode as many
   succeed as accounts are new. All other lines are skipped.
   */
  lemma {:induction false} PassCounts(rules: Rules, t: Table, outs: seq<LineOutcome>, target: Target, next: seq<Time>)
    requires TableOk(t) && |next| == |outs|
    ensures var u := OnePass(rules, Tally(t, 0, 0, 0), outs, target, next);
            && TableOk(u.table) && u.failed == |Rejections(outs)|
            && (target.mode == Update ==> u.succeeded == |Acceptances(outs)|)
            && (target.mode == Skip ==> u.succeeded == |u.table.rows| - |t.rows|)
            && u.skipped == |outs| - u.succeeded - u.failed
    decreases |outs|
  {
    if outs == [] {
      assert Rejections(outs) == {} && Acceptances(outs) == {};
    } else {
      var n := |outs| - 1;
      PassCounts(rules, t, outs[..n], target, next[..n]);
      SnocSets(outs);
      if outs[n].Accepted? {
        var u := OnePass(rules, Tally(t, 0, 0, 0), outs[..n], target, next[..n]);
        var row := RowOf(rules, outs[n].account, target, next[n]);
        UpsertRowOk(u.table, row, target.mode);
        RowGrows(u.table, row, target.mode);
      }
    }
  }

  lemma RowGrows(t: Table, row: Row, mode: DuplicateMode)
    requires TableOk(t)
    ensures |Upsert(t, row, mode).rows| == |t.rows| + if row.hash in t.index then 0 else 1
  {
    if row.hash in t.index {
      assert Upsert(t, row, mode).rows.Keys == t.rows.Keys;
    } else {
      assert t.nextId !in t.rows;
    }
  }

  // ----- What is stored

  /** The columns of an account that was just imported from a line. */
  predicate FromLine(rules: Rules, b: Account, a: ParsedAccount, target: Target, next: Time) {
    && b.hash == rules.hash(a.email) && b.email == a.email && b.clientId == a.clientId && b.token == a.token
    && b.source == (if |target.source| <= 255 then target.source else target.source[..255])
    && b.status == Unknown && b.nextRefresh == Some(next) && b.errorCode == None
  }

  /**
   An accepted line stores its own columns: for a new address in a new row, in update mode over the known one,
   whose expiry stays; in skip mode a known address is left alone.
   */
  lemma StoresLine(rules: Rules, t: Tally, a: ParsedAccount, target: Target, next: Time)
    requires TableOk(t.table)
    ensures var u, h := OnePass(rules, t, [Accepted(a)], target, [next]), rules.hash(a.email);
            var e, e' := EntryOf(t.table, h), EntryOf(u.table, h);
            match e
            case Nothing =>
              && e'.Held? && e'.id == t.table.nextId && FromLine(rules, e'.account, a, target, next)
              && e'.account.tokenExpires == None
            case Held(id, b) =>
              if target.mode == Skip then e' == e
              else
                && e'.Held? && e'.id == id && FromLine(rules, e'.account, a, target, next)
                && e'.account.tokenExpires == b.tokenExpires
  {
    var outs := [Accepted(a)];
    assert outs[..0] == [] && [next][..0] == [];
    var row := RowOf(rules, a, target, next);
    UpsertRowEntry(t.table, row, target.mode, row.hash);
    assert OnePass(rules, t, outs, target, [next]).table == Upsert(t.table, row, target.mode);
  }

  // ----- What is shown

  lemma {:induction false} ShowsUpToFive(outs: seq<LineOutcome>, base: nat)
    ensures |FirstErrors(outs, base)| == if |Rejections(outs)| <= 5 then |Rejections(outs)| else 5
    decreases |outs|
  {
    if outs == [] {
      assert Rejections(outs) == {};
    } else {
      ShowsUpToFive(outs[..|outs| - 1], base);
      SnocSets(outs);
    }
  }

  /** Each shown error names a rejected line and its reason; they come in the order of the lines. */
  predicate InOrder(es: seq<LineError>, outs: seq<LineOutcome>, base: nat) {
    && (forall i :: 0 <= i < |es| ==> base < es[i].0 <= base + |outs| && outs[es[i].0 - base - 1] == Rejected(es[i].1))
    && (forall i, j :: 0 <= i < j < |es| ==> es[i].0 < es[j].0)
  }

  lemma {:induction false} ShowsInOrder(outs: seq<LineOutcome>, base: nat)
    ensures InOrder(FirstErrors(outs, base), outs, base)
    decreases |outs|
  {
    if outs != [] {
      ShowsInOrder(outs[..|outs| - 1], base);
    }
  }

  predicate Shown(es: seq<LineError>, line: nat) {
    exists i :: 0 <= i < |es| && es[i].0 == line
  }

  lemma {:induction false} ShowsTheFirst(outs: seq<LineOutcome>, base: nat, k: nat)
    requires k in Rejections(outs)
    ensures var es := FirstErrors(outs, base);
            Shown(es, base + k + 1) || (|es| == 5 && forall i :: 0 <= i < 5 ==> es[i].0 < base + k + 1)
    decreases |outs|
  {
    var n := |outs| - 1;
    var es, before := FirstErrors(outs, base), FirstErrors(outs[..n], base);
    if k < n {
      ShowsTheFirst(outs[..n], base, k);
      if Shown(before, base + k + 1) {
        var i :| 0 <= i < |before| && before[i].0 == base + k + 1;
        assert es[i].0 == base + k + 1;
      }
    } else {
      ShowsInOrder(outs[..n], base);
      if |before| < 5 {
        assert es[|before|].0 == base + k + 1;
      }
    }
  }

  /** The shown errors are the first five rejected lines, in order. */
  lemma ShowsFirstFive(outs: seq<LineOutcome>, base: nat)
    ensures var es := FirstErrors(outs, base);
            && |es| == (if |Rejections(outs)| <= 5 then |Rejections(outs)| else 5) && InOrder(es, outs, base)
            && (forall k :: k in Rejections(outs) ==>
                  Shown(es, base + k + 1) || (|es| == 5 && forall i :: 0 <= i < 5 ==> es[i].0 < base + k + 1))
  {
    ShowsUpToFive(outs, base);
    ShowsInOrder(outs, base);
    forall k | k in Rejections(outs)
      ensures var es := FirstErrors(outs, base);
              Shown(es, base + k + 1) || (|es| == 5 && forall i :: 0 <= i < 5 ==> es[i].0 < base + k + 1)
    {
      ShowsTheFirst(outs, base, k);
    }
  }
}
