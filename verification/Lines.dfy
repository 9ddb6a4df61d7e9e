/**
 Logical lines of a spool file: the simple definition (cut after every newline byte), the bounded
 reader that the worker uses instead of it, and the streamed line count made at upload.
 */
module Lines {
  import opened Prelude

  const NL: byte := 10

  /** End of the logical line that starts at `pos`: just past the next newline, or the end of the data. */
  function LineEnd(data: seq<byte>, pos: nat): (e: nat)
    requires pos <= |data|
    ensures pos <= e <= |data|
    ensures e == pos <==> pos == |data|
    ensures pos < e < |data| ==> data[e - 1] == NL
    decreases |data| - pos
  {
    if pos == |data| then pos
    else if data[pos] == NL then pos + 1
    else LineEnd(data, pos + 1)
  }

  lemma {:induction false} NoNewlineInside(data: seq<byte>, pos: nat, i: nat)
    requires pos <= |data|
    requires pos <= i < LineEnd(data, pos) - 1
    ensures data[i] != NL
    decreases |data| - pos
  {
    if i > pos {
      NoNewlineInside(data, pos + 1, i);
    }
  }

  function LinesFrom(data: seq<byte>, pos: nat): (ls: seq<seq<byte>>)
    requires pos <= |data|
    ensures ls == [] <==> pos == |data|
    decreases |data| - pos
  {
    if pos == |data| then []
    else [data[pos..LineEnd(data, pos)]] + LinesFrom(data, LineEnd(data, pos))
  }

  function LinesOf(data: seq<byte>): seq<seq<byte>> {
    LinesFrom(data, 0)
  }

  predicate IsBoundary(data: seq<byte>, pos: nat) {
    pos <= |data| && (pos == 0 || pos == |data| || data[pos - 1] == NL)
  }

  // ----- LinesOf is the line structure: it loses nothing, and nothing else has its shape

  function Concat(ls: seq<seq<byte>>): seq<byte> {
    if ls == [] then [] else ls[0] + Concat(ls[1..])
  }

  lemma {:induction false} LinesPartition(data: seq<byte>, pos: nat)
    requires pos <= |data|
    ensures Concat(LinesFrom(data, pos)) == data[pos..]
    decreases |data| - pos
  {
    if pos < |data| {
      var e := LineEnd(data, pos);
      LinesPartition(data, e);
      assert LinesFrom(data, pos)[1..] == LinesFrom(data, e);
      assert data[pos..e] + data[e..] == data[pos..];
    }
  }

  /** A nonempty run of bytes with a newline at most at its end. */
  predicate IsLine(l: seq<byte>) {
    l != [] && forall i :: 0 <= i < |l| - 1 ==> l[i] != NL
  }

  /** Every piece is a line, and only the last one may lack its newline. */
  predicate WellCut(ls: seq<seq<byte>>) {
    ls == [] || (IsLine(ls[0]) && (|ls| == 1 || ls[0][|ls[0]| - 1] == NL) && WellCut(ls[1..]))
  }

  predicate CutOf(data: seq<byte>, pos: nat, ls: seq<seq<byte>>) {
    pos <= |data| && WellCut(ls) && Concat(ls) == data[pos..]
  }

  lemma LinesSnip(data: seq<byte>, pos: nat, ls: seq<seq<byte>>)
    requires pos < |data| && ls != [] && ls[0] == data[pos..LineEnd(data, pos)]
    requires ls[1..] == LinesFrom(data, LineEnd(data, pos))
    ensures ls == LinesFrom(data, pos)
  {
    assert ls == [ls[0]] + ls[1..];
  }

  lemma {:induction false} LinesUnique(data: seq<byte>, pos: nat, ls: seq<seq<byte>>)
    requires CutOf(data, pos, ls)
    ensures ls == LinesFrom(data, pos)
    decreases |ls|
  {
    if ls == [] {
      assert |data[pos..]| == 0;
    } else {
      FirstLineForced(data, pos, ls);
      LinesUnique(data, LineEnd(data, pos), ls[1..]);
      LinesSnip(data, pos, ls);
    }
  }

  /** The lines of a file are characterised by their shape and by losing nothing. */
  lemma LinesCharacterised(data: seq<byte>, ls: seq<seq<byte>>)
    ensures ls == LinesOf(data) <==> WellCut(ls) && Concat(ls) == data
  {
    assert data[0..] == data;
    LinesPartition(data, 0);
    LinesWellCut(data, 0);
    if WellCut(ls) && Concat(ls) == data {
      LinesUnique(data, 0, ls);
    }
  }

  lemma {:induction false} FirstLineForced(data: seq<byte>, pos: nat, ls: seq<seq<byte>>)
    requires ls != [] && CutOf(data, pos, ls)
    ensures pos < pos + |ls[0]| <= |data| && LineEnd(data, pos) == pos + |ls[0]|
    ensures ls[0] == data[pos..pos + |ls[0]|]
    ensures CutOf(data, pos + |ls[0]|, ls[1..])
  {
    var q := pos + |ls[0]|;
    assert |ls[0]| > 0 && Concat(ls) == ls[0] + Concat(ls[1..]);
    assert |Concat(ls)| == |data| - pos;
    assert data[pos..q] == ls[0] by { assert data[pos..][..|ls[0]|] == ls[0]; }
    assert data[q..] == Concat(ls[1..]) by { assert data[pos..][|ls[0]|..] == Concat(ls[1..]); }
    forall i | pos <= i < q - 1 ensures data[i] != NL {
      assert data[i] == ls[0][i - pos];
    }
    if |ls| > 1 {
      assert data[q - 1] == ls[0][|ls[0]| - 1];
    } else {
      assert Concat(ls[1..]) == [];
    }
    LineEndIs(data, pos, q);
  }

  lemma {:induction false} LinesWellCut(data: seq<byte>, pos: nat)
    requires pos <= |data|
    ensures WellCut(LinesFrom(data, pos))
    decreases |data| - pos
  {
    if pos < |data| {
      var e := LineEnd(data, pos);
      LinesWellCut(data, e);
      var line := data[pos..e];
      forall i | 0 <= i < |line| - 1 ensures line[i] != NL {
        NoNewlineInside(data, pos, pos + i);
      }
      assert LinesFrom(data, pos)[1..] == LinesFrom(data, e);
    }
  }

  /** A line end is determined by what lies before it. */
  lemma {:induction false} LineEndIs(data: seq<byte>, pos: nat, e: nat)
    requires pos < e <= |data|
    requires forall i :: pos <= i < e - 1 ==> data[i] != NL
    requires e == |data| || data[e - 1] == NL
    ensures LineEnd(data, pos) == e
  {
    var f := LineEnd(data, pos);
    if e < f {
      NoNewlineInside(data, pos, e - 1);
    }
  }

  // ----- Boundaries: where a run may stop and resume

  /** Cutting at a boundary cuts the list of lines: the prefix's lines, then the lines from there on. */
  lemma {:induction false} SplitAtBoundary(data: seq<byte>, a: nat, pos: nat)
    requires a <= pos && IsBoundary(data, pos)
    ensures LinesFrom(data, a) == LinesFrom(data[..pos], a) + LinesFrom(data, pos)
    decreases pos - a
  {
    if a < pos {
      var e := LineEnd(data, a);
      LineEndInPrefix(data, a, pos);
      SplitAtBoundary(data, e, pos);
      assert data[a..e] == data[..pos][a..e];
      assert [data[a..e]] + (LinesFrom(data[..pos], e) + LinesFrom(data, pos))
          == [data[a..e]] + LinesFrom(data[..pos], e) + LinesFrom(data, pos);
    } else {
      assert LinesFrom(data[..pos], a) == [];
    }
  }

  lemma {:induction false} LineEndInPrefix(data: seq<byte>, a: nat, pos: nat)
    requires a < pos && IsBoundary(data, pos)
    ensures LineEnd(data, a) <= pos && LineEnd(data[..pos], a) == LineEnd(data, a)
  {
    var e := LineEnd(data, a);
    if e > pos {
      NoNewlineInside(data, a, pos - 1);
    }
    forall i | a <= i < e - 1 ensures data[..pos][i] != NL {
      NoNewlineInside(data, a, i);
    }
    LineEndIs(data[..pos], a, e);
  }

  // ----- The bounded reader

  class SpoolHandle {
    const data: seq<byte>
    var pos: nat

    constructor (data: seq<byte>)
      ensures this.data == data && pos == 0
    {
      this.data := data;
      pos := 0;
    }

    predicate Valid()
      reads this
    {
      pos <= |data|
    }

    method Seek(offset: nat)
      requires offset <= |data|
      modifies this
      ensures Valid() && pos == offset
    {
      pos := offset;
    }

    /** A buffered file's bounded `readline`: at most `n` bytes and never past a line end. */
    method Readline(n: nat) returns (chunk: seq<byte>)
      requires Valid()
      modifies this
      ensures Valid() && old(pos) <= pos && chunk == data[old(pos)..pos]
      ensures pos == if LineEnd(data, old(pos)) <= old(pos) + n then LineEnd(data, old(pos)) else old(pos) + n
    {
      var e := LineEnd(data, pos);
      var stop := if e <= pos + n then e else pos + n;
      chunk := data[pos..stop];
      pos := stop;
    }
  }

  /**
   Consumes exactly one logical line whatever its length, and returns it if and only if it fits the limit.
   `peak` is the largest buffer held on the way.
   */
  method ReadLimitedLine(handle: SpoolHandle, limit: nat)
    returns (line: seq<byte>, tooLong: bool, ghost peak: nat)
    requires handle.Valid()
    modifies handle
    ensures handle.Valid() && handle.pos == LineEnd(handle.data, old(handle.pos))
    ensures tooLong <==> handle.pos - old(handle.pos) > limit
    ensures line == if tooLong then [] else handle.data[old(handle.pos)..handle.pos]
    ensures peak <= limit + 1
  {
    ghost var data, start := handle.data, handle.pos;
    ghost var end := LineEnd(data, start);
    var raw := handle.Readline(limit + 1);
    peak := |raw|;
    if raw == [] {
      return [], false, peak;
    }
    tooLong := |raw| > limit;
    while raw != [] && raw[|raw| - 1] != NL
      invariant handle.Valid() && Buffered(data, start, handle.pos, limit, raw, tooLong) && peak <= limit + 1
      decreases |data| - handle.pos
    {
      ghost var before := handle.pos;
      NoNewlineYet(data, start, before);
      var chunk := handle.Readline(limit + 1);
      if chunk == [] {
        break;
      }
      BufferedMore(data, start, before, handle.pos, limit, raw, tooLong);
      tooLong := tooLong || |chunk| > limit;
      raw := if tooLong then chunk else raw + chunk;
      peak := if |raw| > peak then |raw| else peak;
    }
    BufferedAll(data, start, handle.pos, limit, raw, tooLong);
    line := if tooLong then [] else raw;
  }

  /** The reader stands at `pos` in the line that began at `start`; `raw` ends there, and is all of a line that fits. */
  predicate Buffered(data: seq<byte>, start: nat, pos: nat, limit: nat, raw: seq<byte>, tooLong: bool) {
    && start < pos <= |data| && pos <= LineEnd(data, start)
    && 0 < |raw| <= limit + 1 && |raw| <= pos - start && raw == data[pos - |raw|..pos]
    && (tooLong <==> pos - start > limit)
    && (!tooLong ==> |raw| == pos - start && pos == LineEnd(data, start))
  }

  lemma BufferedMore(data: seq<byte>, start: nat, pos: nat, pos': nat, limit: nat, raw: seq<byte>, tooLong: bool)
    requires Buffered(data, start, pos, limit, raw, tooLong) && LineEnd(data, pos) == LineEnd(data, start)
    requires pos < pos' <= |data|
    requires pos' == if LineEnd(data, pos) <= pos + limit + 1 then LineEnd(data, pos) else pos + limit + 1
    ensures var chunk := data[pos..pos'];
            var long := tooLong || |chunk| > limit;
            Buffered(data, start, pos', limit, if long then chunk else raw + chunk, long)
  {
  }

  /** Where reading stops, the line is over. */
  lemma BufferedAll(data: seq<byte>, start: nat, pos: nat, limit: nat, raw: seq<byte>, tooLong: bool)
    requires Buffered(data, start, pos, limit, raw, tooLong)
    requires raw[|raw| - 1] == NL || LineEnd(data, pos) == pos
    ensures pos == LineEnd(data, start)
    ensures !tooLong ==> raw == data[start..pos]
  {
    if pos < LineEnd(data, start) {
      if raw[|raw| - 1] == NL {
        NoNewlineInside(data, start, pos - 1);
      } else {
        NoNewlineYet(data, start, pos);
      }
    }
  }

  lemma {:induction false} NoNewlineYet(data: seq<byte>, start: nat, pos: nat)
    requires start < pos <= |data| && pos <= LineEnd(data, start) && data[pos - 1] != NL
    ensures LineEnd(data, pos) == LineEnd(data, start)
  {
    var e := LineEnd(data, start);
    if pos < e {
      forall i | pos <= i < e - 1 ensures data[i] != NL {
        NoNewlineInside(data, start, i);
      }
      LineEndIs(data, pos, e);
    }
  }

  // ----- The line total of an upload

  function CountNL(s: seq<byte>): nat {
    if s == [] then 0 else (if s[0] == NL then 1 else 0) + CountNL(s[1..])
  }

  lemma {:induction false} CountNLConcat(a: seq<byte>, b: seq<byte>)
    ensures CountNL(a + b) == CountNL(a) + CountNL(b)
  {
    if a == [] {
      assert a + b == b;
    } else {
      CountNLConcat(a[1..], b);
      assert (a + b)[1..] == a[1..] + b;
    }
  }

  predicate EndsOpen(s: seq<byte>) {
    s != [] && s[|s| - 1] != NL
  }

  /** The number of logical lines is the number of newlines, plus one for an unterminated last line. */
  lemma {:induction false} LineCount(data: seq<byte>, pos: nat)
    requires pos <= |data|
    ensures |LinesFrom(data, pos)| == CountNL(data[pos..]) + if EndsOpen(data[pos..]) then 1 else 0
    decreases |data| - pos
  {
    if pos < |data| {
      var e := LineEnd(data, pos);
      LineCount(data, e);
      CountOneLine(data, pos);
    }
  }

  lemma {:induction false} CountOneLine(data: seq<byte>, pos: nat)
    requires pos < |data|
    ensures var e := LineEnd(data, pos);
            CountNL(data[pos..]) == CountNL(data[e..]) + if data[e - 1] == NL then 1 else 0
    ensures var e := LineEnd(data, pos);
            EndsOpen(data[pos..]) <==> if e < |data| then EndsOpen(data[e..]) else data[e - 1] != NL
  {
    var e := LineEnd(data, pos);
    assert data[pos..] == data[pos..e - 1] + ([data[e - 1]] + data[e..]);
    CountNLConcat(data[pos..e - 1], [data[e - 1]] + data[e..]);
    CountNLConcat([data[e - 1]], data[e..]);
    assert CountNL([data[e - 1]]) == (if data[e - 1] == NL then 1 else 0) + CountNL([]);
    var body := data[pos..e - 1];
    forall i | 0 <= i < |body| ensures body[i] != NL {
      NoNewlineInside(data, pos, pos + i);
    }
    NoNewlines(body);
  }

  lemma {:induction false} NoNewlines(s: seq<byte>)
    requires forall i :: 0 <= i < |s| ==> s[i] != NL
    ensures CountNL(s) == 0
  {
    if s != [] {
      assert forall i :: 0 <= i < |s[1..]| ==> s[1..][i] == s[i + 1];
      NoNewlines(s[1..]);
    }
  }

  datatype UploadOutcome =
    | Spooled(content: seq<byte>, totalLines: nat)
    | TooLarge
    | NoDiskSpace
    | EmptyImport

  /** The pasted text as spooled: a newline separates it from a file that follows. */
  function TextPart(payload: seq<byte>, fileFollows: bool): seq<byte> {
    payload + if fileFollows && EndsOpen(payload) then [NL] else []
  }

  /** What ends up in the spool file. */
  function UploadContent(payload: seq<byte>, file: Option<seq<seq<byte>>>): seq<byte> {
    TextPart(payload, file.Some?) + if file.Some? then Concat(file.value) else []
  }

  lemma {:induction false} ConcatSnoc(ls: seq<seq<byte>>, last: seq<byte>)
    ensures Concat(ls + [last]) == Concat(ls) + last
  {
    if ls == [] {
      assert [last][1..] == [];
      assert Concat([last]) == last + Concat([]);
      assert Concat(ls) == [] && ls + [last] == [last];
    } else {
      ConcatSnoc(ls[1..], last);
      assert (ls + [last])[1..] == ls[1..] + [last];
    }
  }

  lemma {:induction false} ConcatLength(chunks: seq<seq<byte>>, i: nat)
    requires i <= |chunks|
    ensures |Concat(chunks[..i])| <= |Concat(chunks)|
    decreases |chunks| - i
  {
    if i < |chunks| {
      assert chunks[..i + 1] == chunks[..i] + [chunks[i]];
      ConcatSnoc(chunks[..i], chunks[i]);
      ConcatLength(chunks, i + 1);
    } else {
      assert chunks[..i] == chunks;
    }
  }

  predicate WithinLimits(size: nat, maxUpload: nat, diskBudget: nat) {
    size <= maxUpload && size <= diskBudget
  }

  /** The first chunk that takes the file beyond a limit. */
  predicate BreaksAt(head: seq<byte>, chunks: seq<seq<byte>>, maxUpload: nat, diskBudget: nat, k: nat) {
    && k < |chunks| && !WithinLimits(|head + Concat(chunks[..k + 1])|, maxUpload, diskBudget)
    && (k > 0 ==> WithinLimits(|head + Concat(chunks[..k])|, maxUpload, diskBudget))
  }

  /** Sizes only grow, so at most one chunk is the first to break a limit. */
  lemma BreaksOnce(head: seq<byte>, chunks: seq<seq<byte>>, maxUpload: nat, diskBudget: nat, j: nat, k: nat)
    requires BreaksAt(head, chunks, maxUpload, diskBudget, j) && BreaksAt(head, chunks, maxUpload, diskBudget, k)
    ensures j == k
  {
    if j < k {
      assert chunks[..k][..j + 1] == chunks[..j + 1];
      ConcatLength(chunks[..k], j + 1);
    } else if k < j {
      assert chunks[..j][..k + 1] == chunks[..k + 1];
      ConcatLength(chunks[..j], k + 1);
    }
  }

  lemma BreaksNever(head: seq<byte>, chunks: seq<seq<byte>>, maxUpload: nat, diskBudget: nat)
    requires chunks != [] ==> WithinLimits(|head + Concat(chunks)|, maxUpload, diskBudget)
    ensures forall k: nat :: !BreaksAt(head, chunks, maxUpload, diskBudget, k)
  {
    forall k | 0 <= k < |chunks| ensures !BreaksAt(head, chunks, maxUpload, diskBudget, k) {
      ConcatLength(chunks, k + 1);
    }
  }

  /** The running count of lines, apart from an unterminated last one, after one more chunk. */
  lemma CountChunk(content: seq<byte>, chunk: seq<byte>)
    requires chunk != []
    ensures CountNL(content + chunk) == CountNL(content) + CountNL(chunk)
    ensures EndsOpen(content + chunk) <==> chunk[|chunk| - 1] != NL
  {
    CountNLConcat(content, chunk);
    assert (content + chunk)[|content + chunk| - 1] == chunk[|chunk| - 1];
  }

  lemma CountedLines(data: seq<byte>)
    ensures |LinesOf(data)| == CountNL(data) + if EndsOpen(data) then 1 else 0
  {
    LineCount(data, 0);
    assert data[0..] == data;
  }

  /** Pasted text and file keep their own lines: the last line of the text does not run into the file's first. */
  lemma LinesAddUp(payload: seq<byte>, chunks: seq<seq<byte>>)
    ensures |LinesOf(UploadContent(payload, Some(chunks)))| == |LinesOf(payload)| + |LinesOf(Concat(chunks))|
  {
    var text, file := TextPart(payload, true), Concat(chunks);
    CountedLines(payload);
    CountedLines(file);
    CountedLines(text + file);
    CountNLConcat(text, file);
    if EndsOpen(payload) {
      CountChunk(payload, [NL]);
      assert CountNL([NL]) == 1;
    } else {
      assert text == payload;
    }
    assert file != [] ==> (text + file)[|text + file| - 1] == file[|file| - 1];
    assert file == [] ==> text + file == text;
  }

  /** The total that the paste endpoint stores. */
  function PasteTotal(encoded: seq<byte>): nat {
    CountNL(encoded) + if EndsOpen(encoded) then 1 else 0
  }

  lemma PasteTotalIsLineCount(encoded: seq<byte>)
    ensures PasteTotal(encoded) == |LinesOf(encoded)|
  {
    CountedLines(encoded);
  }
}
