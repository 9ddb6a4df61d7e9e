/**
 One import file: what each logical line comes to, the single left-to-right pass that defines the import's
 meaning, and the batch the worker actually reads and commits.
 */
module ImportPass {
  import opened Prelude
  import opened Lines
  import opened AccountLine
  import opened Accounts

  /** Settings and library functions of the import path. */
  datatype Rules = Rules(
    lineLimit: nat, batchSize: nat, decode: seq<byte> -> Option<string>, unicode: Unicode, hash: string -> Hash)

  datatype Reason = TooLong | BadEncoding | BadFormat(error: FormatError)

  datatype LineOutcome = Accepted(account: ParsedAccount) | Ignored | Rejected(reason: Reason)

  const BOM_BYTES: seq<byte> := [0xEF, 0xBB, 0xBF]

  /** The first line of a file may carry a byte order mark. */
  function DecodeLine(rules: Rules, raw: seq<byte>, first: bool): Option<string> {
    if first && BOM_BYTES <= raw then rules.decode(raw[3..]) else rules.decode(raw)
  }

  function ClassifyText(rules: Rules, text: Option<string>): LineOutcome {
    match text
    case None => Rejected(BadEncoding)
    case Some(s) =>
      match ParseAccountLine(rules.unicode, s)
      case Parsed(a) => Accepted(a)
      case Blank => Ignored
      case Malformed(e) => Rejected(BadFormat(e))
  }

  function Classify(rules: Rules, raw: seq<byte>, first: bool): LineOutcome {
    if |raw| > rules.lineLimit then Rejected(TooLong)
    else ClassifyText(rules, DecodeLine(rules, raw, first))
  }

  /** The outcomes of the logical lines from `pos` on; only the file's first line is decoded as such. */
  function OutcomesFrom(rules: Rules, data: seq<byte>, pos: nat): (outs: seq<LineOutcome>)
    requires pos <= |data|
    ensures |outs| == |LinesFrom(data, pos)|
    decreases |data| - pos
  {
    if pos == |data| then []
    else
      var e := LineEnd(data, pos);
      [Classify(rules, data[pos..e], pos == 0)] + OutcomesFrom(rules, data, e)
  }

  function Outcomes(rules: Rules, data: seq<byte>): (outs: seq<LineOutcome>)
    ensures |outs| == |LinesOf(data)|
  {
    OutcomesFrom(rules, data, 0)
  }

  /** The position after `n` more lines. */
  function Advance(data: seq<byte>, pos: nat, n: nat): (q: nat)
    requires pos <= |data|
    ensures pos <= q <= |data|
    decreases n
  {
    if n == 0 then pos else Advance(data, LineEnd(data, pos), n - 1)
  }

  lemma {:induction false} AdvanceDrops(rules: Rules, data: seq<byte>, pos: nat, n: nat)
    requires pos <= |data| && n <= |OutcomesFrom(rules, data, pos)|
    ensures OutcomesFrom(rules, data, Advance(data, pos, n)) == OutcomesFrom(rules, data, pos)[n..]
    ensures n > 0 ==> Advance(data, pos, n) > pos
    ensures IsBoundary(data, pos) ==> IsBoundary(data, Advance(data, pos, n))
    decreases n
  {
    if n > 0 {
      var e := LineEnd(data, pos);
      assert OutcomesFrom(rules, data, pos)[1..] == OutcomesFrom(rules, data, e);
      AdvanceDrops(rules, data, e, n - 1);
      assert OutcomesFrom(rules, data, pos)[n..] == OutcomesFrom(rules, data, e)[n - 1..];
    }
  }

  /** A boundary position is the end of the lines counted in the prefix before it. */
  lemma BoundaryCountsPrefix(rules: Rules, data: seq<byte>, pos: nat, k: nat)
    requires IsBoundary(data, pos) && k <= |Outcomes(rules, data)|
    requires OutcomesFrom(rules, data, pos) == Outcomes(rules, data)[k..]
    ensures k == |LinesOf(data[..pos])|
  {
    SplitAtBoundary(data, 0, pos);
  }

  // ----- One pass

  datatype Tally = Tally(table: Table, succeeded: nat, failed: nat, skipped: nat)

  /** Where an account's row goes, apart from its first refresh time. */
  datatype Target = Target(source: string, mode: DuplicateMode)

  function RowOf(rules: Rules, a: ParsedAccount, target: Target, next: Time): Row {
    Row(rules.hash(a.email), a.email, a.clientId, a.token, Truncated(target.source, 255), next)
  }

  function Absorb(rules: Rules, t: Tally, o: LineOutcome, target: Target, next: Time): Tally {
    match o
    case Accepted(a) =>
      var row := RowOf(rules, a, target, next);
      var u := t.(table := Upsert(t.table, row, target.mode));
      if target.mode == Update || row.hash !in t.table.index then u.(succeeded := t.succeeded + 1)
      else u.(skipped := t.skipped + 1)
    case Ignored => t.(skipped := t.skipped + 1)
    case Rejected(_) => t.(failed := t.failed + 1)
  }

  /** The meaning of an import: every line in turn, stored row by row; `next[k]` is line k's first refresh time. */
  function OnePass(rules: Rules, t: Tally, outs: seq<LineOutcome>, target: Target, next: seq<Time>): Tally
    requires |next| == |outs|
    decreases |outs|
  {
    if outs == [] then t
    else
      var n := |outs| - 1;
      Absorb(rules, OnePass(rules, t, outs[..n], target, next[..n]), outs[n], target, next[n])
  }

  /** Every line is counted exactly once. */
  lemma {:induction false} OnePassCounts(
    rules: Rules, t: Tally, outs: seq<LineOutcome>, target: Target, next: seq<Time>)
    requires |next| == |outs|
    ensures var u := OnePass(rules, t, outs, target, next);
            u.succeeded + u.failed + u.skipped == t.succeeded + t.failed + t.skipped + |outs|
    decreases |outs|
  {
    if outs != [] {
      OnePassCounts(rules, t, outs[..|outs| - 1], target, next[..|outs| - 1]);
    }
  }

  lemma {:induction false} OnePassConcat(
    rules: Rules, t: Tally, a: seq<LineOutcome>, b: seq<LineOutcome>, target: Target, na: seq<Time>, nb: seq<Time>)
    requires |na| == |a| && |nb| == |b|
    ensures OnePass(rules, t, a + b, target, na + nb) == OnePass(rules, OnePass(rules, t, a, target, na), b, target, nb)
    decreases |b|
  {
    if b == [] {
      assert a + b == a && na + nb == na;
    } else {
      var n := |b| - 1;
      OnePassConcat(rules, t, a, b[..n], target, na, nb[..n]);
      assert (a + b)[..|a + b| - 1] == a + b[..n] && (na + nb)[..|a + b| - 1] == na + nb[..n];
    }
  }

  function Repeat(next: Time, n: nat): (r: seq<Time>)
    ensures |r| == n && forall k :: 0 <= k < n ==> r[k] == next
  {
    seq(n, _ => next)
  }

  // ----- A batch

  function Rows(rules: Rules, outs: seq<LineOutcome>, target: Target, next: Time): seq<Row>
    decreases |outs|
  {
    if outs == [] then []
    else
      var before := Rows(rules, outs[..|outs| - 1], target, next);
      match outs[|outs| - 1]
      case Accepted(a) => before + [RowOf(rules, a, target, next)]
      case _ => before
  }

  function AcceptedAccounts(outs: seq<LineOutcome>): (r: seq<ParsedAccount>)
    ensures |r| + RejectedCount(outs) <= |outs|
    decreases |outs|
  {
    if outs == [] then []
    else
      var before := AcceptedAccounts(outs[..|outs| - 1]);
      match outs[|outs| - 1]
      case Accepted(a) => before + [a]
      case _ => before
  }

  function RejectedCount(outs: seq<LineOutcome>): nat
    decreases |outs|
  {
    if outs == [] then 0
    else RejectedCount(outs[..|outs| - 1]) + if outs[|outs| - 1].Rejected? then 1 else 0
  }

  type LineError = (nat, Reason)

  const MAX_ERRORS: nat := 5

  /** The first five rejections, each with its line number counted from `base` lines before the batch. */
  function FirstErrors(outs: seq<LineOutcome>, base: nat): (r: seq<LineError>)
    ensures |r| <= MAX_ERRORS
    decreases |outs|
  {
    if outs == [] then []
    else
      var before := FirstErrors(outs[..|outs| - 1], base);
      if outs[|outs| - 1].Rejected? && |before| < MAX_ERRORS then before + [(base + |outs|, outs[|outs| - 1].reason)]
      else before
  }

  /** `es` points at lines of the file that really are rejected, for the reason it gives. */
  predicate TrueErrors(all: seq<LineOutcome>, es: seq<LineError>) {
    forall e :: e in es ==> 1 <= e.0 <= |all| && all[e.0 - 1] == Rejected(e.1)
  }

  lemma {:induction false} ErrorsAreTrue(all: seq<LineOutcome>, base: nat, outs: seq<LineOutcome>)
    requires base + |outs| <= |all| && all[base..base + |outs|] == outs
    ensures TrueErrors(all, FirstErrors(outs, base))
    decreases |outs|
  {
    if outs != [] {
      var before := outs[..|outs| - 1];
      assert all[base..base + |before|] == before;
      ErrorsAreTrue(all, base, before);
      assert outs[|outs| - 1] == all[base + |outs| - 1];
    }
  }

  datatype Batch = Batch(outs: seq<LineOutcome>, newOffset: nat, eof: bool)

  /** The next at most `batchSize` lines; the end of the file shows only when fewer remained. */
  function BatchAt(rules: Rules, data: seq<byte>, offset: nat): Batch
    requires offset <= |data|
  {
    var rest := OutcomesFrom(rules, data, offset);
    if |rest| < rules.batchSize then Batch(rest, Advance(data, offset, |rest|), true)
    else Batch(rest[..rules.batchSize], Advance(data, offset, rules.batchSize), false)
  }

  /** What one committed batch does to the table and the counters. */
  function CommitBatch(rules: Rules, t: Tally, outs: seq<LineOutcome>, target: Target, next: Time): Tally {
    var rows := Rows(rules, outs, target, next);
    var inserted := Inserted(t.table, rows, target.mode);
    var left := if inserted <= |rows| then |rows| - inserted else 0;
    var silent := |outs| - |rows| - RejectedCount(outs);
    Tally(UpsertAll(t.table, rows, target.mode), t.succeeded + inserted, t.failed + RejectedCount(outs),
          t.skipped + left + if silent > 0 then silent else 0)
  }

  lemma {:induction false} RowsFit(rules: Rules, outs: seq<LineOutcome>, target: Target, next: Time)
    ensures |Rows(rules, outs, target, next)| + RejectedCount(outs) <= |outs|
    decreases |outs|
  {
    if outs != [] {
      RowsFit(rules, outs[..|outs| - 1], target, next);
    }
  }

  /** One more line in a bulk commit is one more line of the pass. */
  lemma CommitSnoc(rules: Rules, t: Tally, outs: seq<LineOutcome>, o: LineOutcome, target: Target, next: Time)
    ensures CommitBatch(rules, t, outs + [o], target, next)
         == Absorb(rules, CommitBatch(rules, t, outs, target, next), o, target, next)
  {
    var all, rows, rows0 := outs + [o], Rows(rules, outs + [o], target, next), Rows(rules, outs, target, next);
    assert all[..|outs|] == outs && all[|outs|] == o;
    RowsFit(rules, outs, target, next);
    InsertedBound(t.table, rows0, target.mode);
    if o.Accepted? {
      assert rows[..|rows0|] == rows0;
      InsertedBound(t.table, rows, target.mode);
    }
  }

  /** A bulk commit equals the row-by-row pass over its lines. */
  lemma {:induction false} BatchIsOnePass(rules: Rules, t: Tally, outs: seq<LineOutcome>, target: Target, next: Time)
    ensures CommitBatch(rules, t, outs, target, next) == OnePass(rules, t, outs, target, Repeat(next, |outs|))
    ensures |Rows(rules, outs, target, next)| + RejectedCount(outs) <= |outs|
    decreases |outs|
  {
    RowsFit(rules, outs, target, next);
    if outs != [] {
      var before, last := outs[..|outs| - 1], outs[|outs| - 1];
      BatchIsOnePass(rules, t, before, target, next);
      CommitSnoc(rules, t, before, last, target, next);
      assert before + [last] == outs;
      assert Repeat(next, |outs|)[..|before|] == Repeat(next, |before|);
    }
  }

  lemma {:induction false} RowsLength(rules: Rules, outs: seq<LineOutcome>, target: Target, next: Time)
    ensures |Rows(rules, outs, target, next)| == |AcceptedAccounts(outs)|
    ensures forall k :: 0 <= k < |AcceptedAccounts(outs)| ==>
              Rows(rules, outs, target, next)[k] == RowOf(rules, AcceptedAccounts(outs)[k], target, next)
    decreases |outs|
  {
    if outs != [] {
      RowsLength(rules, outs[..|outs| - 1], target, next);
    }
  }

  // ----- The batch as the worker reads it

  datatype ReadResult = ReadResult(
    parsed: seq<ParsedAccount>, processed: nat, failed: nat, errors: seq<LineError>, newOffset: nat, eof: bool)

  /** One turn of the worker's loop: read one line within bounds, decode it, parse it; nothing at the end. */
  method ReadOutcome(rules: Rules, handle: SpoolHandle, first: bool) returns (o: Option<LineOutcome>)
    requires handle.Valid()
    modifies handle
    ensures handle.Valid() && handle.pos == LineEnd(handle.data, old(handle.pos))
    ensures o == if old(handle.pos) == |handle.data| then None
                 else Some(Classify(rules, handle.data[old(handle.pos)..handle.pos], first))
  {
    var raw, tooLong, _ := ReadLimitedLine(handle, rules.lineLimit);
    if tooLong {
      return Some(Rejected(TooLong));
    }
    if raw == [] {
      return None;
    }
    o := Some(ClassifyText(rules, DecodeLine(rules, raw, first)));
  }

  /** The reader stands after `i` lines of the batch, with `rest` the outcomes from the batch's start. */
  ghost predicate AtLine(rules: Rules, handle: SpoolHandle, offset: nat, rest: seq<LineOutcome>, i: nat)
    reads handle
  {
    && handle.Valid() && offset <= |handle.data| && i <= |rest|
    && handle.pos == Advance(handle.data, offset, i)
    && OutcomesFrom(rules, handle.data, handle.pos) == rest[i..]
  }

  method NextOutcome(rules: Rules, handle: SpoolHandle, offset: nat, i: nat, ghost rest: seq<LineOutcome>)
    returns (o: Option<LineOutcome>)
    requires AtLine(rules, handle, offset, rest, i)
    modifies handle
    ensures o == if i == |rest| then None else Some(rest[i])
    ensures AtLine(rules, handle, offset, rest, if i == |rest| then i else i + 1)
  {
    ghost var start := handle.pos;
    o := ReadOutcome(rules, handle, offset == 0 && i == 0);
    if start < |handle.data| {
      LoopStep(rules, handle.data, offset, start, rest, i);
    }
  }

  /** Where the loop stops, it has read the batch. */
  lemma BatchRead(rules: Rules, data: seq<byte>, offset: nat, rest: seq<LineOutcome>, n: nat, eof: bool)
    requires offset <= |data| && rest == OutcomesFrom(rules, data, offset) && n <= |rest|
    requires if eof then n == |rest| < rules.batchSize else n == rules.batchSize
    ensures BatchAt(rules, data, offset) == Batch(rest[..n], Advance(data, offset, n), eof)
  {
    assert rest[..|rest|] == rest;
  }

  /** The loop over the bounded reader computes the batch, its counters and its error lines. */
  method ReadImportBatch(rules: Rules, handle: SpoolHandle, offset: nat, alreadyProcessed: nat) returns (r: ReadResult)
    requires offset <= |handle.data|
    modifies handle
    ensures var b := BatchAt(rules, handle.data, offset);
            r == ReadResult(AcceptedAccounts(b.outs), |b.outs|, RejectedCount(b.outs),
                            FirstErrors(b.outs, alreadyProcessed), b.newOffset, b.eof)
  {
    ghost var rest := OutcomesFrom(rules, handle.data, offset);
    var parsed: seq<ParsedAccount> := [];
    var processed, failed, eof := 0, 0, false;
    var errors: seq<LineError> := [];
    handle.Seek(offset);
    while processed < rules.batchSize && !eof
      invariant AtLine(rules, handle, offset, rest, processed) && processed <= rules.batchSize
      invariant Collected(rest[..processed], alreadyProcessed, parsed, failed, errors)
      invariant eof ==> processed == |rest| < rules.batchSize
      decreases rules.batchSize - processed, !eof
    {
      ghost var i := processed;
      var o := NextOutcome(rules, handle, offset, processed, rest);
      if o == None {
        eof := true;
      } else {
        assert rest[..i + 1] == rest[..i] + [o.value];
        processed := processed + 1;
        parsed, failed, errors :=
          Note(o.value, alreadyProcessed + processed, parsed, failed, errors, alreadyProcessed, rest[..i]);
      }
    }
    BatchRead(rules, handle.data, offset, rest, processed, eof);
    r := ReadResult(parsed, processed, failed, errors, handle.pos, eof);
  }

  /** Books one line's outcome; `line` is its number in the file. */
  method Note(o: LineOutcome, line: nat, parsed0: seq<ParsedAccount>, failed0: nat, errors0: seq<LineError>,
              ghost base: nat, ghost outs: seq<LineOutcome>)
    returns (parsed: seq<ParsedAccount>, failed: nat, errors: seq<LineError>)
    requires Collected(outs, base, parsed0, failed0, errors0) && line == base + |outs| + 1
    ensures Collected(outs + [o], base, parsed, failed, errors)
  {
    CollectedSnoc(outs, o, base, parsed0, failed0, errors0);
    parsed, failed, errors := parsed0, failed0, errors0;
    if o.Accepted? {
      parsed := parsed + [o.account];
    } else if o.Rejected? {
      failed := failed + 1;
      if |errors| < MAX_ERRORS {
        errors := errors + [(line, o.reason)];
      }
    }
  }

  /** The loop's variables hold what the lines read so far come to. */
  predicate Collected(
    outs: seq<LineOutcome>, base: nat, parsed: seq<ParsedAccount>, failed: nat, errors: seq<LineError>)
  {
    parsed == AcceptedAccounts(outs) && failed == RejectedCount(outs) && errors == FirstErrors(outs, base)
  }

  lemma CollectedSnoc(
    outs: seq<LineOutcome>, o: LineOutcome, base: nat, parsed: seq<ParsedAccount>, failed: nat,
    errors: seq<LineError>)
    requires Collected(outs, base, parsed, failed, errors)
    ensures Collected(outs + [o], base,
                      if o.Accepted? then parsed + [o.account] else parsed,
                      if o.Rejected? then failed + 1 else failed,
                      if o.Rejected? && |errors| < MAX_ERRORS then errors + [(base + |outs| + 1, o.reason)] else errors)
  {
    assert (outs + [o])[..|outs|] == outs;
  }

  lemma LoopStep(rules: Rules, data: seq<byte>, offset: nat, start: nat, rest: seq<LineOutcome>, i: nat)
    requires offset <= start < |data| && i <= |rest| && OutcomesFrom(rules, data, start) == rest[i..]
    requires start == Advance(data, offset, i)
    ensures i < |rest| && rest[i] == Classify(rules, data[start..LineEnd(data, start)], offset == 0 && i == 0)
    ensures OutcomesFrom(rules, data, LineEnd(data, start)) == rest[i + 1..]
    ensures LineEnd(data, start) == Advance(data, offset, i + 1)
  {
    AdvanceOne(data, offset, i);
    FirstIffStart(data, offset, i);
    StepOutcome(rules, data, start, rest, i);
  }

  lemma {:induction false} AdvanceOne(data: seq<byte>, pos: nat, n: nat)
    requires pos <= |data|
    ensures Advance(data, pos, n + 1) == LineEnd(data, Advance(data, pos, n))
    decreases n
  {
    if n > 0 {
      AdvanceOne(data, LineEnd(data, pos), n - 1);
    }
  }

  lemma StepOutcome(rules: Rules, data: seq<byte>, start: nat, rest: seq<LineOutcome>, i: nat)
    requires start < |data| && i <= |rest| && OutcomesFrom(rules, data, start) == rest[i..]
    ensures i < |rest| && rest[i] == Classify(rules, data[start..LineEnd(data, start)], start == 0)
    ensures OutcomesFrom(rules, data, LineEnd(data, start)) == rest[i + 1..]
  {
    assert OutcomesFrom(rules, data, start)[0] == rest[i];
    assert rest[i..][1..] == rest[i + 1..];
    assert OutcomesFrom(rules, data, start)[1..] == OutcomesFrom(rules, data, LineEnd(data, start));
  }

  /** The worker's test for the first line, on offset and counter, is the test on the position. */
  lemma {:induction false} FirstIffStart(data: seq<byte>, offset: nat, i: nat)
    requires offset <= |data|
    ensures offset < |data| ==> (Advance(data, offset, i) == 0 <==> offset == 0 && i == 0)
    decreases i
  {
    if i > 0 {
      AdvanceOne(data, offset, i - 1);
    }
  }
}
