/**
 The cursor of account jobs. A job takes a snapshot of (count, largest id) and then follows a strictly increasing
 cursor, while accounts are deleted, imported and changed under it: what holds for every scope and table.
 */
module Coverage {
  import opened Prelude
  import opened Keyset
  import opened Accounts
  import opened Engine
  import opened QueueSafety
  import opened Progress

  /** The snapshot's numbers, a strictly increasing list of results, and where every counted account went. */
  predicate CursorOk(job: Job, trace: Trace) {
    && job.total == |trace.snapshot| && 1 <= job.maxId
    && (forall id :: id in trace.snapshot ==> 1 <= id <= job.maxId)
    && 0 <= job.cursor <= job.maxId
    && Increasing(trace.hits)
    && (forall id :: id in trace.hits ==> id <= job.cursor && id <= job.maxId)
    && job.processed == job.succeeded + job.failed + trace.lost
  }

  predicate CursorRowOk(s: State, j: JobId) {
    j in s.jobs && s.jobs[j].kind != ImportFile ==> j in s.traces && CursorOk(s.jobs[j], s.traces[j])
  }

  function IdsOf(work: seq<Work>): seq<Id> {
    seq(|work|, k requires 0 <= k < |work| => work[k].id)
  }

  /** The loaded work: ascending ids that the job has yet to work on. */
  predicate LoadedOk(limit: nat, job: Job, ids: seq<Id>) {
    |ids| <= limit && Increasing(ids) && forall id :: id in ids ==> job.cursor < id <= job.maxId
  }

  predicate HandOk(c: Config, s: State) {
    s.worker.HasWork? && s.worker.job in s.jobs ==>
      LoadedOk(c.workerBatch, s.jobs[s.worker.job], IdsOf(s.worker.work))
  }

  predicate CoverageOk(c: Config, s: State) {
    TableOk(s.table) && HandOk(c, s) && forall j :: j in s.jobs ==> CursorRowOk(s, j)
  }

  // ----- Creation

  lemma NewJobOk(s: State, job: Job, trace: Trace)
    requires TableOk(s.table) && FreshAccountJob(s, job, trace)
    ensures CursorOk(job, trace)
  {
  }

  // ----- Loading

  lemma IdsOfWorkOf(t: Table, ids: seq<Id>)
    requires forall k :: 0 <= k < |ids| ==> ids[k] in t.rows
    ensures IdsOf(WorkOf(t, ids)) == ids
  {
  }

  /** What the batch query returns. */
  lemma LoadIs(c: Config, t: Table, job: Job, now: Time)
    ensures IdsOf(LoadWork(c, t, job, now)) == Select(Candidates(t, job, now), job.cursor, c.workerBatch)
  {
    var ids := Select(Candidates(t, job, now), job.cursor, c.workerBatch);
    assert forall k :: 0 <= k < |ids| ==> ids[k] in ids;
    IdsOfWorkOf(t, ids);
  }

  lemma LoadOk(c: Config, t: Table, job: Job, trace: Trace, now: Time)
    requires CursorOk(job, trace)
    ensures LoadedOk(c.workerBatch, job, IdsOf(LoadWork(c, t, job, now)))
  {
    LoadIs(c, t, job, now);
    var ids := Select(Candidates(t, job, now), job.cursor, c.workerBatch);
    forall id | id in ids ensures job.cursor < id <= job.maxId {
      assert id in Candidates(t, job, now);
    }
  }

  // ----- Committing

  /** The ids still in the table, in order. */
  lemma {:induction false} PresentIs(t: Table, work: seq<Work>)
    requires Increasing(IdsOf(work))
    ensures Increasing(Present(t, work)) && |Present(t, work)| <= |work|
    ensures forall id :: id in Present(t, work) <==> id in IdsOf(work) && id in t.rows
  {
    if work != [] {
      var ids := IdsOf(work);
      IncreasingTail(ids);
      assert IdsOf(work[1..]) == ids[1..] && work[0].id == ids[0];
      PresentIs(t, work[1..]);
      IncreasingAppend([ids[0]], Present(t, work[1..]), ids[0]);
    }
  }

  lemma {:induction false} CountOkBound(ids: seq<Id>, results: map<Id, AccountResult>)
    ensures CountOk(ids, results) <= |ids|
  {
    if ids != [] {
      CountOkBound(ids[1..], results);
    }
  }

  lemma WorkedFields(c: Config, job: Job, work: seq<Work>, hits: seq<Id>, results: map<Id, AccountResult>, now: Time)
    requires job.status == Running
    ensures var job' := WorkedJob(c, job, work, hits, results, now);
            && job'.kind == job.kind && job'.scope == job.scope && job'.maxId == job.maxId && job'.total == job.total
            && job'.cursor == (if work == [] then job.cursor else work[|work| - 1].id)
            && job'.processed == job.processed + |work|
            && (job'.status == Completed ==> work == [] || job'.processed >= job.total || |work| < c.workerBatch)
  {
  }

  lemma WorkedCounters(c: Config, job: Job, work: seq<Work>, hits: seq<Id>, results: map<Id, AccountResult>, now: Time)
    requires |hits| <= |work|
    ensures var job' := WorkedJob(c, job, work, hits, results, now);
            job'.succeeded + job'.failed + (|work| - |hits|) - job'.processed
            == job.succeeded + job.failed - job.processed
  {
    CountOkBound(hits, results);
  }

  /** One committed batch of account work keeps the job's cursor facts. */
  lemma CommitKeepsCursor(
    limit: nat, job: Job, job': Job, trace: Trace, trace': Trace, ids: seq<Id>, hits: seq<Id>)
    requires CursorOk(job, trace) && LoadedOk(limit, job, ids)
    requires Increasing(hits) && |hits| <= |ids| && forall id :: id in hits ==> id in ids
    requires job'.maxId == job.maxId && job'.total == job.total
    requires job'.cursor == if ids == [] then job.cursor else ids[|ids| - 1]
    requires job'.processed == job.processed + |ids|
    requires job'.succeeded + job'.failed + (|ids| - |hits|) - job'.processed
          == job.succeeded + job.failed - job.processed
    requires trace'.hits == trace.hits + hits && trace'.lost == trace.lost + |ids| - |hits|
    requires trace'.snapshot == trace.snapshot
    ensures CursorOk(job', trace')
  {
    IncreasingAppend(trace.hits, hits, job.cursor);
    if ids != [] {
      assert ids[|ids| - 1] in ids;
      assert forall id :: id in ids ==> id <= ids[|ids| - 1];
    }
  }

  lemma CursorCommit(
    c: Config, s: State, results: map<Id, AccountResult>, job: Job, trace: Trace, ids: seq<Id>, hits: seq<Id>)
    requires CanCommit(c, s, CommitAccounts(results))
    requires job == s.jobs[s.worker.job] && trace == s.traces[s.worker.job]
    requires job.status == Running && CursorOk(job, trace)
    requires ids == IdsOf(s.worker.work) && hits == Present(s.table, s.worker.work)
    requires LoadedOk(c.workerBatch, job, ids)
    ensures var s', j := CommitAccountsStep(c, s, results), s.worker.job;
            CursorOk(s'.jobs[j], s'.traces[j])
  {
    var s', j, work := CommitAccountsStep(c, s, results), s.worker.job, s.worker.work;
    PresentIs(s.table, work);
    WorkedFields(c, job, work, hits, results, s.now);
    WorkedCounters(c, job, work, hits, results, s.now);
    CommitKeepsCursor(c.workerBatch, job, s'.jobs[j], trace, s'.traces[j], ids, hits);
  }

  // ----- Every step

  lemma CursorKept(s: State, s': State, j: JobId)
    requires TableOk(s.table) && Kept(s, s', j) && CursorRowOk(s, j)
    ensures CursorRowOk(s', j)
  {
    if j in s'.jobs && s'.jobs[j].kind != ImportFile && j !in s.traces {
      NewJobOk(s, s'.jobs[j], s'.traces[j]);
    }
  }

  lemma UpkeepHands(c: Config, s: State, m: UpkeepStep)
    requires CanUpkeep(c, s, m)
    ensures !UpkeepNext(c, s, m).worker.HasWork?
  {
    if m.SchedulerTick? {
      SchedulerCases(s, m.id, m.date, m.minute, m.dueMinute);
    }
  }

  /** Only loading puts account work into the worker's hands. */
  lemma HandsOff(c: Config, s: State, e: Step)
    requires Enabled(c, s, e) && Next(c, s, e).worker.HasWork?
    ensures e == Take(Load) || (Next(c, s, e).worker == s.worker && !e.Commit?)
  {
    match e
    case Upkeep(m) => UpkeepHands(c, s, m);
    case Upload(u) => assert UploadNext(c, s, u).worker == s.worker;
    case Request(r) => assert RequestNext(c, s, r).worker == s.worker;
    case _ =>
  }

  lemma LoadedHand(c: Config, s: State)
    requires QueueOk(s) && CoverageOk(c, s) && CanTake(s, Load)
    ensures HandOk(c, TakeNext(c, s, Load))
  {
    Traced(s);
    var j := s.worker.job;
    assert CursorRowOk(s, j);
    LoadOk(c, s.table, s.jobs[j], s.traces[j], s.now);
  }

  lemma HandStep(c: Config, s: State, e: Step)
    requires QueueOk(s) && CoverageOk(c, s) && Enabled(c, s, e)
    ensures HandOk(c, Next(c, s, e))
  {
    if Next(c, s, e).worker.HasWork? {
      HandsOff(c, s, e);
      if e == Take(Load) {
        LoadedHand(c, s);
      } else {
        Traced(s);
        KeptStep(c, s, e, s.worker.job);
      }
    }
  }

  lemma RowCommit(c: Config, s: State, results: map<Id, AccountResult>)
    requires QueueOk(s) && CoverageOk(c, s) && CanCommit(c, s, CommitAccounts(results))
    ensures CursorRowOk(CommitAccountsStep(c, s, results), s.worker.job)
  {
    var j := s.worker.job;
    assert CursorRowOk(s, j);
    CursorCommit(c, s, results, s.jobs[j], s.traces[j], IdsOf(s.worker.work), Present(s.table, s.worker.work));
  }

  lemma RowStep(c: Config, s: State, e: Step, j: JobId)
    requires QueueOk(s) && CoverageOk(c, s) && Enabled(c, s, e) && j in Next(c, s, e).jobs
    ensures CursorRowOk(Next(c, s, e), j)
  {
    if Commits(s, e, j) {
      if e.k.CommitAccounts? {
        RowCommit(c, s, e.k.results);
      }
    } else {
      Traced(s);
      KeptStep(c, s, e, j);
      assert j in s.jobs ==> CursorRowOk(s, j);
      CursorKept(s, Next(c, s, e), j);
    }
  }

  lemma CoverageStep(c: Config, s: State, e: Step)
    requires QueueOk(s) && CoverageOk(c, s) && Enabled(c, s, e)
    ensures CoverageOk(c, Next(c, s, e))
  {
    var s' := Next(c, s, e);
    TableEvolves(c, s, e);
    HandStep(c, s, e);
    forall j | j in s'.jobs ensures CursorRowOk(s', j) {
      RowStep(c, s, e, j);
    }
  }

  lemma {:induction false} CoverageFrom(c: Config, s: State, steps: seq<Step>)
    requires QueueOk(s) && CoverageOk(c, s) && Possible(c, s, steps)
    ensures QueueOk(After(c, s, steps)) && CoverageOk(c, After(c, s, steps))
    decreases |steps|
  {
    if steps != [] {
      var before := steps[..|steps| - 1];
      CoverageFrom(c, s, before);
      QueueStep(c, After(c, s, before), steps[|steps| - 1]);
      CoverageStep(c, After(c, s, before), steps[|steps| - 1]);
    }
  }

  lemma RunCoverageOk(c: Config, s: State, steps: seq<Step>)
    requires Initial(s) && Possible(c, s, steps)
    ensures QueueOk(After(c, s, steps)) && CoverageOk(c, After(c, s, steps))
  {
    QueueInitial(s);
    CoverageFrom(c, s, steps);
  }

  /** No id occurs twice. */
  predicate Once(ids: seq<Id>) {
    forall i, j :: 0 <= i < j < |ids| ==> ids[i] != ids[j]
  }

  /** For every scope, "due" included: at most one result per account, and every result is accounted for. */
  lemma CountersConserved(c: Config, s: State, steps: seq<Step>, t: State, j: JobId)
    requires Initial(s) && Possible(c, s, steps) && t == After(c, s, steps)
    requires j in t.jobs && t.jobs[j].kind != ImportFile
    ensures && j in t.traces && Once(t.traces[j].hits)
            && t.jobs[j].processed == t.jobs[j].succeeded + t.jobs[j].failed + t.traces[j].lost
  {
    RunCoverageOk(c, s, steps);
    assert CursorRowOk(t, j);
  }

  /** An account job's commit changes exactly the accounts it books as hits, each by its own result. */
  lemma CommitTouchesHits(c: Config, s: State, results: map<Id, AccountResult>)
    requires QueueOk(s) && CoverageOk(c, s) && CanCommit(c, s, CommitAccounts(results))
    ensures var s', j := CommitAccountsStep(c, s, results), s.worker.job;
            && s.traces[j].hits <= s'.traces[j].hits && s'.table.rows.Keys == s.table.rows.Keys
            && var booked := s'.traces[j].hits[|s.traces[j].hits|..];
            && (forall id :: id in booked ==> id in results && id in s.table.rows)
            && forall id :: id in s.table.rows ==>
                 s'.table.rows[id] == if id in booked then Apply(s.table.rows[id], results[id], s.now, s.intervalDays)
                                      else s.table.rows[id]
  {
    var s', j, work := CommitAccountsStep(c, s, results), s.worker.job, s.worker.work;
    Traced(s);
    PresentIs(s.table, work);
    assert s'.traces[j].hits[|s.traces[j].hits|..] == Present(s.table, work);
    forall id | id in results ensures id in IdsOf(work) {
      assert id in WorkIds(work);
      var k :| 0 <= k < |work| && work[k].id == id;
      assert IdsOf(work)[k] == id;
    }
    forall id | id in IdsOf(work) ensures id in results {
      var k :| 0 <= k < |IdsOf(work)| && IdsOf(work)[k] == id;
      assert work[k].id in WorkIds(work);
    }
  }

  function Successes(ids: seq<Id>, results: map<Id, AccountResult>): set<Id> {
    set id | id in ids && id in results && results[id].ok
  }

  lemma {:induction false} CountOkIs(ids: seq<Id>, results: map<Id, AccountResult>)
    requires Increasing(ids)
    ensures CountOk(ids, results) == |Successes(ids, results)|
  {
    if ids != [] {
      IncreasingTail(ids);
      CountOkIs(ids[1..], results);
      var rest := Successes(ids[1..], results);
      assert ids[0] !in rest;
      if ids[0] in results && results[ids[0]].ok {
        assert Successes(ids, results) == rest + {ids[0]};
      } else {
        assert Successes(ids, results) == rest;
      }
    } else {
      assert Successes(ids, results) == {};
    }
  }

  /** The commit adds the booked accounts with a good result to `succeeded`, the other booked ones to `failed`. */
  lemma CommitCounts(c: Config, s: State, results: map<Id, AccountResult>)
    requires QueueOk(s) && CoverageOk(c, s) && CanCommit(c, s, CommitAccounts(results))
    ensures var s', j := CommitAccountsStep(c, s, results), s.worker.job;
            && |s.traces[j].hits| <= |s'.traces[j].hits|
            && var booked := s'.traces[j].hits[|s.traces[j].hits|..];
            && s'.jobs[j].succeeded == s.jobs[j].succeeded + |Successes(booked, results)|
            && s'.jobs[j].failed == s.jobs[j].failed + |booked| - |Successes(booked, results)|
  {
    var s', j, work := CommitAccountsStep(c, s, results), s.worker.job, s.worker.work;
    Traced(s);
    PresentIs(s.table, work);
    CountOkIs(Present(s.table, work), results);
    CountOkBound(Present(s.table, work), results);
    assert s'.traces[j].hits[|s.traces[j].hits|..] == Present(s.table, work);
    if work == [] {
      assert Present(s.table, work) == [];
      assert Successes([], results) == {};
    }
  }
}
