/** The first steps of the runs that show where a promise fails: one account, and one uploaded file in hand. */
module Scenarios {
  import opened Prelude
  import opened Lines
  import opened AccountLine
  import opened ImportPass
  import opened Engine
  import opened SpoolSafety
  import opened LifeCycle

  /** The file is one line, and the line is an account. */
  predicate OneLine(rules: Rules, file: seq<byte>) {
    IsLine(file) && Classify(rules, file, true).Accepted?
  }

  /** The worker has read the first batch of the only import, and the one account is still there. */
  predicate Reading(c: Config, s: State, file: seq<byte>, target: Target) {
    && s.worker == HasBatch("f", BatchAt(c.rules, file, 0))
    && s.jobs == map["f" := NewImportJob(|LinesOf(file)|, target, 0).(status := Running)]
    && s.traces == map["f" := Trace(file, {}, [], 0, 0, {})]
    && s.table == OneAccount().table && s.gone == {} && s.used == {"f"} && s.now == 0 && s.intervalDays == 60
  }

  function Written(file: seq<byte>): State {
    Started().(used := {"f"}, spool := map["f" := SpoolFile(file, 0)], uploads := map["f" := SpoolFile(file, 0)])
  }

  function Published(file: seq<byte>, target: Target): State {
    Written(file).(uploads := map[], jobs := map["f" := NewImportJob(|LinesOf(file)|, target, 0)],
                   traces := map["f" := Trace(file, {}, [], 0, 0, {})])
  }

  lemma UploadFile(c: Config, file: seq<byte>, target: Target)
    requires c.uploadPause >= 0 && file != []
    ensures CanUpload(c, Started(), CreateSpool("f", file))
    ensures UploadNext(c, Started(), CreateSpool("f", file)) == Written(file)
    ensures CanUpload(c, Written(file), PublishImport("f", target))
    ensures UploadNext(c, Written(file), PublishImport("f", target)) == Published(file, target)
  {
  }

  lemma PublishFile(c: Config, file: seq<byte>, target: Target) returns (steps: seq<Step>)
    requires c.uploadPause >= 0 && file != []
    ensures Initial(OneAccount()) && Possible(c, OneAccount(), steps)
    ensures After(c, OneAccount(), steps) == Published(file, target)
  {
    UploadFile(c, file, target);
    steps := StartUp(c);
    steps := Then(c, OneAccount(), steps, Upload(CreateSpool("f", file)));
    steps := Then(c, OneAccount(), steps, Upload(PublishImport("f", target)));
  }

  lemma ReadFile(c: Config, file: seq<byte>, target: Target) returns (steps: seq<Step>, s: State)
    requires c.uploadPause >= 0 && file != []
    ensures Initial(OneAccount()) && Possible(c, OneAccount(), steps) && s == After(c, OneAccount(), steps)
    ensures Reading(c, s, file, target)
  {
    steps := PublishFile(c, file, target);
    steps := Then(c, OneAccount(), steps, Take(Claim("f")));
    steps := Then(c, OneAccount(), steps, Take(ReadBatch));
    s := After(c, OneAccount(), steps);
  }

  lemma OneOutcome(rules: Rules, file: seq<byte>)
    requires OneLine(rules, file) && rules.batchSize >= 1
    ensures Outcomes(rules, file) == [Classify(rules, file, true)]
    ensures BatchAt(rules, file, 0).outs == [Classify(rules, file, true)]
  {
    LineEndIs(file, 0, |file|);
    assert file[0..|file|] == file;
  }

  /** A line that is the account `a` wherever it stands in a file. */
  predicate LineOf(rules: Rules, l: seq<byte>, a: ParsedAccount) {
    && IsLine(l) && l[|l| - 1] == NL
    && Classify(rules, l, true) == Accepted(a) && Classify(rules, l, false) == Accepted(a)
  }

  lemma TwoEnds(l: seq<byte>)
    requires IsLine(l) && l[|l| - 1] == NL
    ensures LineEnd(l + l, 0) == |l| && LineEnd(l + l, |l|) == |l + l|
    ensures (l + l)[0..|l|] == l && (l + l)[|l|..|l + l|] == l
  {
    LineEndIs(l + l, 0, |l|);
    LineEndIs(l + l, |l|, |l + l|);
  }

  lemma SecondOutcome(rules: Rules, l: seq<byte>, a: ParsedAccount)
    requires LineOf(rules, l, a)
    ensures OutcomesFrom(rules, l + l, |l|) == [Accepted(a)]
  {
    TwoEnds(l);
    assert OutcomesFrom(rules, l + l, |l + l|) == [];
  }

  lemma TwoOutcomes(rules: Rules, l: seq<byte>, a: ParsedAccount)
    requires LineOf(rules, l, a)
    ensures Outcomes(rules, l + l) == [Accepted(a), Accepted(a)]
  {
    TwoEnds(l);
    SecondOutcome(rules, l, a);
  }

  lemma BatchOfAll(rules: Rules, file: seq<byte>)
    requires |Outcomes(rules, file)| <= rules.batchSize
    ensures BatchAt(rules, file, 0).outs == Outcomes(rules, file)
  {
    var outs := Outcomes(rules, file);
    assert outs[..|outs|] == outs;
  }

  /** `s` is where these steps lead. */
  predicate Reaches(c: Config, steps: seq<Step>, s: State) {
    Possible(c, OneAccount(), steps) && s == After(c, OneAccount(), steps)
  }

  lemma Go(c: Config, steps: seq<Step>, s: State, e: Step) returns (longer: seq<Step>, t: State)
    requires Reaches(c, steps, s) && Enabled(c, s, e)
    ensures Reaches(c, longer, t) && t == Next(c, s, e)
  {
    longer := Then(c, OneAccount(), steps, e);
    t := After(c, OneAccount(), longer);
  }
}
