/**
 The queue drains: while no new jobs arrive, the worker can always go on as long as a job is live, and the work
 it can do is bounded, crashes costing only a constant each.
 */
module Drain {
  import opened Prelude
  import opened Accounts
  import opened ImportPass
  import opened Engine
  import opened QueueSafety
  import opened ImportRuns
  import opened Progress
  import opened Coverage
  import opened SpoolSafety

  // ----- Sums over a table of jobs

  ghost function Total(m: map<JobId, nat>): nat {
    if m == map[] then 0
    else
      assert m.Keys != {};
      var k := AnyOf(m.Keys);
      m[k] + Total(m - {k})
  }

  lemma {:induction false} TotalWithout(m: map<JobId, nat>, k: JobId)
    requires k in m
    ensures Total(m) == m[k] + Total(m - {k})
  {
    assert m.Keys != {};
    var a := AnyOf(m.Keys);
    if a != k {
      TotalWithout(m - {a}, k);
      TotalWithout(m - {k}, a);
      assert m - {a} - {k} == m - {k} - {a};
    }
  }

  /** `m` shrinks to `m'`: no key is added and no value raised. */
  predicate Shrinks(m: map<JobId, nat>, m': map<JobId, nat>) {
    forall k :: k in m' ==> k in m && m'[k] <= m[k]
  }

  lemma {:induction false} TotalShrinks(m: map<JobId, nat>, m': map<JobId, nat>)
    requires Shrinks(m, m')
    ensures Total(m') <= Total(m)
  {
    if m' != map[] {
      assert m'.Keys != {};
      var k := AnyOf(m'.Keys);
      TotalWithout(m, k);
      TotalShrinks(m - {k}, m' - {k});
    }
  }

  lemma TotalDrops(m: map<JobId, nat>, m': map<JobId, nat>, k: JobId)
    requires Shrinks(m, m') && k in m && k in m' && m'[k] < m[k]
    ensures Total(m') < Total(m)
  {
    TotalWithout(m, k);
    TotalWithout(m', k);
    TotalShrinks(m - {k}, m' - {k});
  }

  // ----- The measure

  /** What is left to do for a row: bytes of the file, or ids up to the snapshot's largest, and the last batch. */
  function Weight(job: Job, trace: Trace): nat {
    var left := if job.kind == ImportFile then |trace.content| - job.cursor + 1 else job.maxId - job.cursor + 1;
    if Live(job) && left > 0 then left else 0
  }

  function Weights(s: State): map<JobId, nat> {
    map j | j in s.jobs && j in s.traces :: Weight(s.jobs[j], s.traces[j])
  }

  ghost function Measure(s: State): nat {
    Total(Weights(s))
  }

  /** How far the worker is from the next committed batch. */
  function Rank(w: Worker): nat {
    match w
    case HasBatch(_, _) => 1
    case HasWork(_, _) => 1
    case Claimed(_) => 2
    case Unlinking(_) => 4
    case Down => 4
    case _ => 3
  }

  ghost function Potential(s: State): nat {
    4 * Measure(s) + Rank(s.worker)
  }

  /** Steps by which the worker works off the queue. */
  predicate IsWork(e: Step) {
    e.Take? || e.Commit? || (e.Upkeep? && e.m.Unlink?)
  }

  ghost predicate DrainInv(c: Config, s: State) {
    QueueOk(s) && ImportsOk(c, s) && CoverageOk(c, s)
  }

  lemma KeptWeight(s: State, s': State, j: JobId)
    requires QueueOk(s) && Kept(s, s', j) && j in s'.jobs && j in s.jobs
    ensures j in s.traces && j in s'.traces && Weight(s'.jobs[j], s'.traces[j]) <= Weight(s.jobs[j], s.traces[j])
  {
    Traced(s);
  }

  lemma BatchAdvances(rules: Rules, content: seq<byte>, pos: nat)
    requires pos <= |content| && rules.batchSize >= 1 && !BatchAt(rules, content, pos).eof
    ensures pos < BatchAt(rules, content, pos).newOffset <= |content|
  {
    AdvanceDrops(rules, content, pos, rules.batchSize);
  }

  lemma CommitImportDrops(
    c: Config, job: Job, job': Job, t: Table, batch: Batch, trace: Trace, trace': Trace, next: Time, now: Time)
    requires c.rules.batchSize >= 1 && job.kind == ImportFile && job.status == Running
    requires ImportOk(c, job, trace.content) && batch == BatchAt(c.rules, trace.content, job.cursor)
    requires job' == ImportedJob(c, job, t, batch, next, now) && trace'.content == trace.content
    ensures Weight(job', trace') < Weight(job, trace)
  {
    CommittedFields(c, job, t, batch, next, now);
    if Live(job') {
      assert !batch.eof;
      BatchAdvances(c.rules, trace.content, job.cursor);
    }
  }

  lemma CommitAccountsDrops(
    c: Config, t: Table, job: Job, job': Job, work: seq<Work>, hits: seq<Id>, trace: Trace, trace': Trace,
    results: map<Id, AccountResult>, now: Time)
    requires job.kind != ImportFile && job.status == Running && CursorOk(job, trace)
    requires LoadedOk(c.workerBatch, job, IdsOf(work))
    requires job' == WorkedJob(c, job, work, hits, results, now)
    ensures Weight(job', trace') < Weight(job, trace)
  {
    if work == [] {
      assert Terminal(job'.status);
    } else {
      var ids := IdsOf(work);
      assert ids[|ids| - 1] in ids && ids[|ids| - 1] == work[|work| - 1].id;
    }
  }

  lemma ImportDrops(c: Config, s: State, s': State, job: Job, trace: Trace)
    requires c.rules.batchSize >= 1 && s.worker.HasBatch?
    requires s.worker.job in s.jobs && s.worker.job in s.traces && Imported(c, s, s')
    requires job == s.jobs[s.worker.job] && trace == s.traces[s.worker.job]
    requires job.status == Running && job.kind == ImportFile && ImportOk(c, job, trace.content)
    requires s.worker.batch == BatchAt(c.rules, trace.content, job.cursor)
    ensures Weight(s'.jobs[s.worker.job], s'.traces[s.worker.job]) < Weight(job, trace)
  {
    CommitImportDrops(c, job, s'.jobs[s.worker.job], s.table, s.worker.batch, trace, s'.traces[s.worker.job],
                      s.now + s.intervalDays * DAY, s.now);
  }

  lemma AccountsDrop(c: Config, s: State, results: map<Id, AccountResult>)
    requires DrainInv(c, s) && CanCommit(c, s, CommitAccounts(results))
    ensures var s', j := CommitAccountsStep(c, s, results), s.worker.job;
            Weight(s'.jobs[j], s'.traces[j]) < Weight(s.jobs[j], s.traces[j])
  {
    var s', j := CommitAccountsStep(c, s, results), s.worker.job;
    assert CursorRowOk(s, j);
    CommitAccountsDrops(c, s.table, s.jobs[j], s'.jobs[j], s.worker.work, Present(s.table, s.worker.work),
                        s.traces[j], s'.traces[j], results, s.now);
  }

  lemma CommitDrops(c: Config, s: State, k: CommitStep)
    requires DrainInv(c, s) && c.rules.batchSize >= 1 && CanCommit(c, s, k)
    ensures var s', j := CommitNext(c, s, k), s.worker.job;
            j in s'.jobs && j in s'.traces && Weight(s'.jobs[j], s'.traces[j]) < Weight(s.jobs[j], s.traces[j])
  {
    match k
    case CommitImport =>
      CommitImports(c, s);
      HandAtCursor(c, s, s.jobs[s.worker.job], s.traces[s.worker.job].content);
      ImportDrops(c, s, CommitImportStep(c, s), s.jobs[s.worker.job], s.traces[s.worker.job]);
    case CommitAccounts(results) => AccountsDrop(c, s, results);
  }

  // ----- No step raises the measure, and each batch lowers it

  lemma WeightsShrink(c: Config, s: State, e: Step)
    requires DrainInv(c, s) && c.rules.batchSize >= 1 && Enabled(c, s, e)
    requires Next(c, s, e).jobs.Keys <= s.jobs.Keys
    ensures Shrinks(Weights(s), Weights(Next(c, s, e)))
  {
    var s' := Next(c, s, e);
    Traced(s);
    forall j | j in Weights(s') ensures j in Weights(s) && Weights(s')[j] <= Weights(s)[j] {
      assert j in s'.jobs.Keys;
      if Commits(s, e, j) {
        CommitDrops(c, s, e.k);
      } else {
        KeptStep(c, s, e, j);
        KeptWeight(s, s', j);
      }
    }
  }

  /** Each committed batch lowers the measure. */
  lemma CommitLowers(c: Config, s: State, e: Step)
    requires DrainInv(c, s) && c.rules.batchSize >= 1 && Enabled(c, s, e) && e.Commit?
    ensures Measure(Next(c, s, e)) < Measure(s)
  {
    var s', j := Next(c, s, e), s.worker.job;
    CommitDrops(c, s, e.k);
    assert s'.jobs.Keys == s.jobs.Keys;
    WeightsShrink(c, s, e);
    Traced(s);
    TotalDrops(Weights(s), Weights(s'), j);
  }

  /** A row that becomes terminal gives up its weight. */
  lemma EndLowers(c: Config, s: State, e: Step, j: JobId)
    requires DrainInv(c, s) && c.rules.batchSize >= 1 && Enabled(c, s, e) && !e.Commit?
    requires Next(c, s, e).jobs.Keys <= s.jobs.Keys
    requires j in s.jobs && Live(s.jobs[j]) && j in Next(c, s, e).jobs && Terminal(Next(c, s, e).jobs[j].status)
    ensures Measure(Next(c, s, e)) < Measure(s)
  {
    var s' := Next(c, s, e);
    WeightsShrink(c, s, e);
    Traced(s);
    KeptStep(c, s, e, j);
    assert ImportRowOk(c, s, j) && CursorRowOk(s, j);
    TotalDrops(Weights(s), Weights(s'), j);
  }

  // ----- The potential

  lemma MeasureKept(c: Config, s: State, e: Step)
    requires DrainInv(c, s) && c.rules.batchSize >= 1 && Enabled(c, s, e)
    requires Next(c, s, e).jobs.Keys <= s.jobs.Keys
    ensures Measure(Next(c, s, e)) <= Measure(s)
  {
    WeightsShrink(c, s, e);
    TotalShrinks(Weights(s), Weights(Next(c, s, e)));
  }

  /** Claiming a cancelled job, or failing one, ends it. */
  predicate Ends(s: State, t: TakeStep)
    requires CanTake(s, t)
  {
    t.FailJob? || (t.Claim? && s.jobs[t.id].cancelRequested)
  }

  lemma TakeRank(c: Config, s: State, t: TakeStep)
    requires CanTake(s, t)
    ensures Rank(TakeNext(c, s, t).worker) < Rank(s.worker) + if Ends(s, t) then 4 else 0
    ensures TakeNext(c, s, t).jobs.Keys == s.jobs.Keys
  {
  }

  lemma EndedRow(c: Config, s: State, t: TakeStep) returns (j: JobId)
    requires QueueOk(s) && CanTake(s, t) && Ends(s, t)
    ensures j in s.jobs && Live(s.jobs[j]) && j in TakeNext(c, s, t).jobs && Terminal(TakeNext(c, s, t).jobs[j].status)
  {
    j := if t.FailJob? then s.worker.job else t.id;
  }

  lemma TakeLowers(c: Config, s: State, t: TakeStep)
    requires DrainInv(c, s) && c.rules.batchSize >= 1 && CanTake(s, t)
    ensures Potential(TakeNext(c, s, t)) < Potential(s)
  {
    TakeRank(c, s, t);
    if Ends(s, t) {
      var j := EndedRow(c, s, t);
      EndLowers(c, s, Take(t), j);
    } else {
      MeasureKept(c, s, Take(t));
    }
  }

  lemma CommitRank(c: Config, s: State, k: CommitStep)
    requires CanCommit(c, s, k)
    ensures Rank(CommitNext(c, s, k).worker) < Rank(s.worker) + 4
  {
  }

  lemma UnlinkRank(c: Config, s: State, removed: bool)
    requires s.worker.Unlinking?
    ensures var s' := UpkeepNext(c, s, Unlink(removed)); s'.jobs == s.jobs && Rank(s'.worker) < Rank(s.worker)
  {
  }

  lemma WorkLowers(c: Config, s: State, e: Step)
    requires DrainInv(c, s) && c.rules.batchSize >= 1 && Enabled(c, s, e) && IsWork(e)
    ensures Potential(Next(c, s, e)) < Potential(s)
  {
    match e
    case Take(t) => TakeLowers(c, s, t);
    case Commit(k) =>
      CommitRank(c, s, k);
      CommitLowers(c, s, e);
    case Upkeep(m) =>
      UnlinkRank(c, s, m.removed);
      MeasureKept(c, s, e);
  }

  lemma RankKept(c: Config, s: State, e: Step)
    requires Enabled(c, s, e) && !IsWork(e)
    ensures Rank(Next(c, s, e).worker) <= Rank(s.worker) + if e == Life(Crash) then 3 else 0
  {
    match e
    case Upkeep(m) => UpkeepRank(c, s, m);
    case Upload(u) => assert UploadNext(c, s, u).worker == s.worker;
    case Request(r) => assert RequestNext(c, s, r).worker == s.worker;
    case Life(l) =>
  }

  lemma UpkeepRank(c: Config, s: State, m: UpkeepStep)
    requires CanUpkeep(c, s, m)
    ensures Rank(UpkeepNext(c, s, m).worker) <= Rank(s.worker)
  {
    if m.SchedulerTick? { SchedulerCases(s, m.id, m.date, m.minute, m.dueMinute); }
  }

  lemma OthersKeep(c: Config, s: State, e: Step)
    requires DrainInv(c, s) && c.rules.batchSize >= 1 && Enabled(c, s, e) && !IsWork(e)
    requires Next(c, s, e).jobs.Keys <= s.jobs.Keys
    ensures Potential(Next(c, s, e)) <= Potential(s) + if e == Life(Crash) then 3 else 0
  {
    MeasureKept(c, s, e);
    RankKept(c, s, e);
  }

  // ----- Whole runs

  lemma {:induction false} RunDrainInv(c: Config, s: State, steps: seq<Step>)
    requires c.workerBatch >= 1 && Initial(s) && Possible(c, s, steps)
    ensures DrainInv(c, After(c, s, steps))
  {
    QueueInitial(s);
    RunImportsOk(c, s, steps);
    RunCoverageOk(c, s, steps);
  }

  predicate NoNewJobs(c: Config, s: State, steps: seq<Step>)
    requires Possible(c, s, steps)
    decreases |steps|
  {
    steps == []
    || var before := steps[..|steps| - 1];
       NoNewJobs(c, s, before) && After(c, s, steps).jobs.Keys <= After(c, s, before).jobs.Keys
  }

  function Works(steps: seq<Step>): nat {
    if steps == [] then 0 else Works(steps[..|steps| - 1]) + if IsWork(steps[|steps| - 1]) then 1 else 0
  }

  function Crashes(steps: seq<Step>): nat {
    if steps == [] then 0 else Crashes(steps[..|steps| - 1]) + if steps[|steps| - 1] == Life(Crash) then 1 else 0
  }

  lemma DrainStep(c: Config, s: State, e: Step)
    requires DrainInv(c, s) && SettingsOk(c) && Enabled(c, s, e)
    ensures DrainInv(c, Next(c, s, e))
  {
    QueueStep(c, s, e);
    ImportsStep(c, s, e);
    CoverageStep(c, s, e);
  }

  /** The worker's steps are paid for by the potential; a crash adds at most three. */
  lemma {:induction false} WorkIsBounded(c: Config, s: State, steps: seq<Step>)
    requires DrainInv(c, s) && SettingsOk(c) && Possible(c, s, steps) && NoNewJobs(c, s, steps)
    ensures DrainInv(c, After(c, s, steps))
    ensures Potential(After(c, s, steps)) + Works(steps) <= Potential(s) + 3 * Crashes(steps)
    decreases |steps|
  {
    if steps != [] {
      var before, e := steps[..|steps| - 1], steps[|steps| - 1];
      WorkIsBounded(c, s, before);
      DrainStep(c, After(c, s, before), e);
      if IsWork(e) {
        WorkLowers(c, After(c, s, before), e);
      } else {
        OthersKeep(c, After(c, s, before), e);
      }
    }
  }

  predicate AllTerminal(s: State) {
    forall j :: j in s.jobs ==> Terminal(s.jobs[j].status)
  }

  /** A step of the worker itself: work, the end of a sweep, or its restart. */
  predicate Goes(e: Step) {
    IsWork(e) || e == Upkeep(EndSweep) || e == Life(Recover)
  }

  lemma {:induction false} FirstInLine(jobs: map<JobId, Job>, ids: set<JobId>) returns (first: JobId)
    requires ids != {} && ids <= jobs.Keys
    ensures first in ids && forall j :: j in ids ==> ClaimedBefore(jobs[first], jobs[j])
  {
    first := AnyOf(ids);
    var rest := ids - {first};
    if rest != {} {
      var best := FirstInLine(jobs, rest);
      assert forall j :: j in ids ==> j == first || j in rest;
      if !ClaimedBefore(jobs[first], jobs[best]) {
        first := best;
      }
    } else {
      assert forall j :: j in ids && j != first ==> j in rest;
    }
  }

  lemma ClaimPossible(s: State, live: JobId) returns (id: JobId)
    requires QueueOk(s) && s.worker == Idle && live in s.jobs && Live(s.jobs[live])
    ensures CanTake(s, Claim(id))
  {
    assert RowOk(s, live);
    var queued := set j | j in s.jobs && s.jobs[j].status == Queued;
    assert live in queued;
    id := FirstInLine(s.jobs, queued);
  }

  lemma CommitPossible(c: Config, s: State) returns (results: map<Id, AccountResult>)
    requires QueueOk(s) && s.worker.HasWork?
    ensures CanCommit(c, s, CommitAccounts(results))
  {
    Traced(s);
    results := map id | id in WorkIds(s.worker.work) :: AccountResult(false, "", "network_error", false, false);
  }

  lemma ReadPossible(c: Config, s: State)
    requires QueueOk(s) && ImportsOk(c, s) && FilesPresent(s)
    requires s.worker.Claimed? && s.worker.job in s.jobs && s.jobs[s.worker.job].kind == ImportFile
    ensures CanTake(s, ReadBatch)
  {
    assert ImportRowOk(c, s, s.worker.job);
  }

  /** A step that gives a job up only when the database refuses its batch. */
  predicate Fair(c: Config, s: State, e: Step) {
    e == Take(FailJob) ==> s.worker.HasBatch? && !CanCommit(c, s, CommitImport)
  }

  /** A fair step of the worker. */
  predicate Diligent(c: Config, s: State, e: Step) {
    Goes(e) && Fair(c, s, e)
  }

  /** As long as some job is live, such a step is possible. */
  lemma CanGoOn(c: Config, s: State, live: JobId) returns (e: Step)
    requires DrainInv(c, s) && FilesPresent(s) && live in s.jobs && Live(s.jobs[live])
    ensures Enabled(c, s, e) && Diligent(c, s, e)
  {
    match s.worker
    case Down => e := Life(Recover);
    case Idle =>
      var id := ClaimPossible(s, live);
      e := Take(Claim(id));
    case Claimed(j) =>
      if s.jobs[j].kind == ImportFile {
        ReadPossible(c, s);
        e := Take(ReadBatch);
      } else {
        e := Take(Load);
      }
    case HasBatch(_, _) => e := if CanCommit(c, s, CommitImport) then Commit(CommitImport) else Take(FailJob);
    case HasWork(_, _) =>
      var results := CommitPossible(c, s);
      e := Commit(CommitAccounts(results));
    case Unlinking(_) => e := Upkeep(Unlink(true));
    case _ => e := Upkeep(EndSweep);
  }

  // ----- Draining

  /** What is left to do, with the end of a sweep that is under way. */
  ghost function Effort(s: State): nat {
    Potential(s) + if s.worker.Listed? || s.worker.Sweeping? then 1 else 0
  }

  /** Every step of the worker lowers the effort. */
  lemma GoesDown(c: Config, s: State, e: Step)
    requires DrainInv(c, s) && c.rules.batchSize >= 1 && Enabled(c, s, e) && Goes(e)
    ensures Effort(Next(c, s, e)) < Effort(s)
  {
    SweepsNot(c, s, e);
    if IsWork(e) {
      WorkLowers(c, s, e);
    } else {
      assert Next(c, s, e).jobs.Keys == s.jobs.Keys;
      MeasureKept(c, s, e);
    }
  }

  lemma SweepsNot(c: Config, s: State, e: Step)
    requires Enabled(c, s, e) && Goes(e)
    ensures !Next(c, s, e).worker.Listed? && !Next(c, s, e).worker.Sweeping?
  {
    match e
    case Take(t) =>
    case Commit(CommitImport) =>
    case Commit(CommitAccounts(results)) =>
    case _ =>
  }

  /** From the `n`-th step on, the run consists of diligent steps of the worker. */
  predicate WorkerOnly(c: Config, init: State, steps: seq<Step>, n: nat)
    requires Possible(c, init, steps)
    decreases |steps|
  {
    |steps| <= n
    || var before := steps[..|steps| - 1];
       WorkerOnly(c, init, before, n) && Diligent(c, After(c, init, before), steps[|steps| - 1])
  }

  /** A diligent worker cannot go on for longer than its effort. */
  lemma {:induction false} EffortBounds(c: Config, init: State, steps: seq<Step>, all: seq<Step>)
    requires SettingsOk(c) && Initial(init) && Possible(c, init, all) && Possible(c, init, steps)
    requires steps <= all && WorkerOnly(c, init, all, |steps|)
    ensures |all| - |steps| + Effort(After(c, init, all)) <= Effort(After(c, init, steps))
    decreases |all|
  {
    if |all| == |steps| {
      assert all == steps;
    } else {
      var before := all[..|all| - 1];
      EffortBounds(c, init, steps, before);
      RunDrainInv(c, init, before);
      GoesDown(c, After(c, init, before), all[|all| - 1]);
    }
  }

  /** No diligent step of the worker is possible. */
  ghost predicate AtRest(c: Config, s: State) {
    forall e :: Enabled(c, s, e) ==> !Diligent(c, s, e)
  }

  /** Wherever the worker comes to rest, after any run whatever, every job is terminal. */
  lemma RestMeansDone(c: Config, init: State, steps: seq<Step>)
    requires SettingsOk(c) && c.uploadPause + c.sweepLag <= SWEEP_AGE
    requires Initial(init) && Possible(c, init, steps) && AtRest(c, After(c, init, steps))
    ensures AllTerminal(After(c, init, steps))
  {
    var s := After(c, init, steps);
    RunDrainInv(c, init, steps);
    RunSpoolOk(c, init, steps);
    if !AllTerminal(s) {
      var live :| live in s.jobs && !Terminal(s.jobs[live].status);
      var e := CanGoOn(c, s, live);
    }
  }

  /**
   The queue drains. Left to itself after any run, the worker stops within its effort, whichever diligent steps
   it takes; and where it stops, every job is terminal.
   */
  lemma QueueDrains(c: Config, init: State, steps: seq<Step>, all: seq<Step>)
    requires SettingsOk(c) && c.uploadPause + c.sweepLag <= SWEEP_AGE
    requires Initial(init) && Possible(c, init, all) && Possible(c, init, steps)
    requires steps <= all && WorkerOnly(c, init, all, |steps|)
    ensures |all| - |steps| <= Effort(After(c, init, steps))
    ensures AtRest(c, After(c, init, all)) ==> AllTerminal(After(c, init, all))
  {
    EffortBounds(c, init, steps, all);
    if AtRest(c, After(c, init, all)) {
      RestMeansDone(c, init, all);
    }
  }

  /** Such a run exists: going on diligently for as long as possible ends with every job terminal. */
  lemma {:induction false} DrainingRun(c: Config, init: State, steps: seq<Step>, n: nat) returns (all: seq<Step>)
    requires SettingsOk(c) && c.uploadPause + c.sweepLag <= SWEEP_AGE
    requires Initial(init) && Possible(c, init, steps) && WorkerOnly(c, init, steps, n)
    ensures Possible(c, init, all) && steps <= all && WorkerOnly(c, init, all, n) && AllTerminal(After(c, init, all))
    decreases Effort(After(c, init, steps))
  {
    var s := After(c, init, steps);
    if AllTerminal(s) {
      all := steps;
    } else {
      var live :| live in s.jobs && !Terminal(s.jobs[live].status);
      var longer := GoOn(c, init, steps, n, live);
      all := DrainingRun(c, init, longer, n);
    }
  }

  lemma GoOn(c: Config, init: State, steps: seq<Step>, n: nat, live: JobId) returns (longer: seq<Step>)
    requires SettingsOk(c) && c.uploadPause + c.sweepLag <= SWEEP_AGE
    requires Initial(init) && Possible(c, init, steps) && WorkerOnly(c, init, steps, n)
    requires live in After(c, init, steps).jobs && Live(After(c, init, steps).jobs[live])
    ensures steps <= longer && Possible(c, init, longer) && WorkerOnly(c, init, longer, n)
    ensures Effort(After(c, init, longer)) < Effort(After(c, init, steps))
  {
    var s := After(c, init, steps);
    RunDrainInv(c, init, steps);
    RunSpoolOk(c, init, steps);
    var e := CanGoOn(c, s, live);
    GoesDown(c, s, e);
    longer := Then(c, init, steps, e);
    assert longer[..|longer| - 1] == steps;
  }
}
