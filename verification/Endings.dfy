/**
 How jobs end. As long as the worker gives a job up only when the database refuses its batch, every job that
 nobody cancelled ends completed, except exactly the imports with an unacceptable batch.
 */
module Endings {
  import opened Engine
  import opened QueueSafety
  import opened ImportRuns
  import opened ImportRefinement
  import opened Progress
  import opened Drain
  import opened Prelude
  import opened AccountLine
  import opened Accounts
  import opened ImportPass
  import opened LifeCycle
  import opened Scenarios

  /** How one step may change a row's status; `gaveUp` says that the worker failed it in this step. */
  predicate StatusMoves(a: Job, b: Job, gaveUp: bool) {
    && b.kind == a.kind && b.target == a.target && (a.cancelRequested ==> b.cancelRequested)
    && (b.status == Failed ==> a.status == Failed || gaveUp)
    && (b.status == Cancelled ==> a.status == Cancelled || b.cancelRequested)
  }

  predicate GivesUp(s: State, e: Step, j: JobId) {
    e == Take(FailJob) && InHand(s.worker) && s.worker.job == j
  }

  predicate RowStatus(s: State, s': State, j: JobId, gaveUp: bool) {
    j in s.jobs && j in s'.jobs ==> StatusMoves(s.jobs[j], s'.jobs[j], gaveUp)
  }

  lemma StatusUpload(c: Config, s: State, u: UploadStep, j: JobId)
    requires QueueOk(s) && CanUpload(c, s, u)
    ensures RowStatus(s, UploadNext(c, s, u), j, false)
  {
    Traced(s);
  }

  lemma StatusRequest(c: Config, s: State, r: RequestStep, j: JobId)
    requires QueueOk(s) && CanRequest(c, s, r)
    ensures RowStatus(s, RequestNext(c, s, r), j, false)
  {
    Traced(s);
  }

  lemma StatusTake(c: Config, s: State, t: TakeStep, j: JobId)
    requires CanTake(s, t)
    ensures RowStatus(s, TakeNext(c, s, t), j, GivesUp(s, Take(t), j))
  {
  }

  lemma StatusCommit(c: Config, s: State, k: CommitStep, j: JobId)
    requires QueueOk(s) && CanCommit(c, s, k)
    ensures RowStatus(s, CommitNext(c, s, k), j, false)
  {
  }

  lemma StatusUpkeep(c: Config, s: State, m: UpkeepStep, j: JobId)
    requires QueueOk(s) && CanUpkeep(c, s, m)
    ensures RowStatus(s, UpkeepNext(c, s, m), j, false)
  {
    Traced(s);
    if m.SchedulerTick? { SchedulerCases(s, m.id, m.date, m.minute, m.dueMinute); }
  }

  lemma StatusStep(c: Config, s: State, e: Step, j: JobId)
    requires QueueOk(s) && Enabled(c, s, e)
    ensures RowStatus(s, Next(c, s, e), j, GivesUp(s, e, j))
  {
    match e
    case Upload(u) => StatusUpload(c, s, u, j);
    case Request(r) => StatusRequest(c, s, r, j);
    case Take(t) => StatusTake(c, s, t, j);
    case Commit(k) => StatusCommit(c, s, k, j);
    case Upkeep(m) => StatusUpkeep(c, s, m, j);
    case Life(l) =>
  }

  /** The content a job was published with never changes. */
  lemma ContentKept(c: Config, s: State, e: Step, j: JobId)
    requires QueueOk(s) && Enabled(c, s, e) && j in s.traces
    ensures j in Next(c, s, e).traces && Next(c, s, e).traces[j].content == s.traces[j].content
  {
    if Commits(s, e, j) {
      if e.k == CommitImport { CommitImports(c, s); }
    } else {
      KeptStep(c, s, e, j);
    }
  }

  /** A failed row is a refused import, and a cancelled one was asked to stop. */
  predicate Deserved(c: Config, s: State, j: JobId)
    requires c.rules.batchSize >= 1
  {
    j in s.jobs ==>
      && j in s.traces
      && (s.jobs[j].status == Failed ==> s.jobs[j].kind == ImportFile && !FileAccepted(c, s, j))
      && (s.jobs[j].status == Cancelled ==> s.jobs[j].cancelRequested)
  }

  lemma SameVerdict(c: Config, s: State, s': State, j: JobId)
    requires c.rules.batchSize >= 1 && j in s.jobs && j in s'.jobs && j in s.traces && j in s'.traces
    requires s'.jobs[j].target == s.jobs[j].target && s'.traces[j].content == s.traces[j].content
    ensures FileAccepted(c, s', j) == FileAccepted(c, s, j)
  {
  }

  /** A fairly refused batch belongs to an unacceptable file. */
  lemma RefusedFile(c: Config, s: State, j: JobId)
    requires QueueOk(s) && ImportsOk(c, s) && c.rules.batchSize >= 1 && WindowsRowOk(c, s, j)
    requires s.worker.HasBatch? && s.worker.job == j && !CanCommit(c, s, CommitImport)
    ensures j in s.jobs && j in s.traces && s.jobs[j].kind == ImportFile && !FileAccepted(c, s, j)
  {
    RefusedHere(c, s, j);
  }

  lemma DeservedOld(c: Config, s: State, s': State, j: JobId, gaveUp: bool)
    requires c.rules.batchSize >= 1 && j in s.jobs && j in s'.jobs && Deserved(c, s, j)
    requires j in s'.traces && s'.traces[j].content == s.traces[j].content
    requires RowStatus(s, s', j, gaveUp)
    requires gaveUp ==> s.jobs[j].kind == ImportFile && !FileAccepted(c, s, j)
    ensures Deserved(c, s', j)
  {
    SameVerdict(c, s, s', j);
  }

  lemma DeservedNew(c: Config, s: State, e: Step, j: JobId)
    requires QueueOk(s) && c.rules.batchSize >= 1 && Enabled(c, s, e) && j !in s.jobs && j in Next(c, s, e).jobs
    ensures Deserved(c, Next(c, s, e), j)
  {
    Traced(s);
    KeptStep(c, s, e, j);
  }

  lemma DeservedStep(c: Config, s: State, e: Step, j: JobId)
    requires QueueOk(s) && ImportsOk(c, s) && c.rules.batchSize >= 1 && WindowsRowOk(c, s, j)
    requires Deserved(c, s, j) && Enabled(c, s, e) && Fair(c, s, e)
    ensures Deserved(c, Next(c, s, e), j)
  {
    if j in Next(c, s, e).jobs {
      if j in s.jobs {
        if GivesUp(s, e, j) { RefusedFile(c, s, j); }
        StatusStep(c, s, e, j);
        ContentKept(c, s, e, j);
        DeservedOld(c, s, Next(c, s, e), j, GivesUp(s, e, j));
      } else {
        DeservedNew(c, s, e, j);
      }
    }
  }

  predicate AllFair(c: Config, s: State, steps: seq<Step>)
    requires Possible(c, s, steps)
    decreases |steps|
  {
    steps == []
    || var before := steps[..|steps| - 1];
       AllFair(c, s, before) && Fair(c, After(c, s, before), steps[|steps| - 1])
  }

  lemma {:induction false} RunDeserved(c: Config, s: State, steps: seq<Step>, j: JobId)
    requires Initial(s) && Possible(c, s, steps) && c.rules.batchSize >= 1 && AllFair(c, s, steps)
    ensures Deserved(c, After(c, s, steps), j)
    decreases |steps|
  {
    if steps != [] {
      var before := steps[..|steps| - 1];
      RunDeserved(c, s, before, j);
      RunWindowsOk(c, s, before, j);
      DeservedStep(c, After(c, s, before), steps[|steps| - 1], j);
    }
  }

  /** What an ended job that nobody cancelled must have ended as. */
  predicate EndsRightly(c: Config, s: State, j: JobId)
    requires c.rules.batchSize >= 1
  {
    && j in s.jobs && j in s.traces
    && (Terminal(s.jobs[j].status) && !s.jobs[j].cancelRequested ==>
          (s.jobs[j].status == Completed <==> (s.jobs[j].kind == ImportFile ==> FileAccepted(c, s, j))))
  }

  lemma EndedHere(c: Config, s: State, j: JobId)
    requires QueueOk(s) && ImportsOk(c, s) && c.rules.batchSize >= 1 && WindowsRowOk(c, s, j)
    requires Deserved(c, s, j) && j in s.jobs
    ensures EndsRightly(c, s, j)
  {
    if s.jobs[j].kind == ImportFile {
      RefusedHere(c, s, j);
    }
  }

  /**
   Over every run, with crashes and requests anywhere: if the worker gives up only refused batches, a terminal
   job that nobody cancelled is completed exactly if it is an account job or an import whose batches are all
   acceptable.
   */
  lemma EveryJobEndsRightly(c: Config, s: State, steps: seq<Step>, t: State, j: JobId)
    requires Initial(s) && Possible(c, s, steps) && t == After(c, s, steps)
    requires c.rules.batchSize >= 1 && AllFair(c, s, steps) && j in t.jobs
    ensures EndsRightly(c, t, j)
  {
    RunDeserved(c, s, steps, j);
    RunWindowsOk(c, s, steps, j);
    EndedHere(c, t, j);
  }

  /** Diligent steps are fair. */
  lemma {:induction false} DiligentIsFair(c: Config, s: State, steps: seq<Step>, all: seq<Step>)
    requires Possible(c, s, steps) && Possible(c, s, all) && steps <= all
    requires AllFair(c, s, steps) && WorkerOnly(c, s, all, |steps|)
    ensures AllFair(c, s, all)
    decreases |all|
  {
    if |all| == |steps| {
      assert all == steps;
    } else {
      DiligentIsFair(c, s, steps, all[..|all| - 1]);
    }
  }

  /**
   After any fair run the worker, left to itself, brings every job that nobody cancels to the end it deserves:
   completed, unless the database refuses one of its batches.
   */
  lemma EveryJobIsServed(c: Config, init: State, steps: seq<Step>) returns (all: seq<Step>)
    requires SettingsOk(c) && c.uploadPause + c.sweepLag <= SWEEP_AGE
    requires Initial(init) && Possible(c, init, steps) && AllFair(c, init, steps)
    ensures Possible(c, init, all) && steps <= all && WorkerOnly(c, init, all, |steps|)
    ensures AllTerminal(After(c, init, all))
    ensures forall j :: j in After(c, init, all).jobs ==> EndsRightly(c, After(c, init, all), j)
  {
    all := DrainingRun(c, init, steps, |steps|);
    DiligentIsFair(c, init, steps, all);
    forall j | j in After(c, init, all).jobs ensures EndsRightly(c, After(c, init, all), j) {
      EveryJobEndsRightly(c, init, all, After(c, init, all), j);
    }
  }

  // ----- A refused file

  lemma RefusedInHand(c: Config, s: State, outs: seq<LineOutcome>)
    requires s.worker.HasBatch? && s.worker.job in s.jobs && s.worker.batch.outs == outs
    requires !BatchAccepted(c, s.jobs[s.worker.job].target, outs)
    ensures !CanCommit(c, s, CommitImport) && CanTake(s, FailJob)
    ensures forall e :: Enabled(c, s, e) && IsWork(e) ==> e == Take(FailJob)
  {
    AcceptedAnyTime(c, s.jobs[s.worker.job].target, outs, s.now + s.intervalDays * DAY);
  }

  /**
   A file of twice the same line, imported on PostgreSQL in update mode: once the batch is read, nothing is left
   for the worker but to fail the job, and no account is stored.
   */
  lemma RepeatRefused(c: Config, l: seq<byte>, a: ParsedAccount, source: string) returns (steps: seq<Step>, s: State)
    requires SettingsOk(c) && c.rules.batchSize >= 2 && c.dialect == Postgres && LineOf(c.rules, l, a)
    ensures Initial(OneAccount()) && Reaches(c, steps, s)
    ensures s.worker.HasBatch? && s.worker.job == "f" && "f" in s.jobs && "f" in s.traces
    ensures s.traces["f"].content == l + l && s.jobs["f"].total == 2
    ensures !CanCommit(c, s, CommitImport) && CanTake(s, FailJob)
    ensures forall e :: Enabled(c, s, e) && IsWork(e) ==> e == Take(FailJob)
    ensures var t := TakeNext(c, s, FailJob); t.jobs["f"].status == Failed && t.table == OneAccount().table
  {
    TwoOutcomes(c.rules, l, a);
    BatchOfAll(c.rules, l + l);
    var target := Target(source, Update);
    steps, s := ReadFile(c, l + l, target);
    RepeatUnacceptable(c, target, a);
    RefusedInHand(c, s, [Accepted(a), Accepted(a)]);
  }
}
