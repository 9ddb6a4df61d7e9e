/**
 Exactly-once coverage of the jobs of a fixed scope, over every run, and the one thing it depends on: that no id
 a job has yet to reach is handed out to another account.
 */
module Exactness {
  import opened Prelude
  import opened Keyset
  import opened Lines
  import opened Accounts
  import opened ImportPass
  import opened Engine
  import opened QueueSafety
  import opened Progress
  import opened Coverage
  import opened AccountLine
  import opened SpoolSafety
  import opened LifeCycle
  import opened Scenarios

  /** No id is handed out again, or none within a live job's reach. */
  predicate IdsStay(c: Config) {
    c.reusesIds ==> c.keepsReach
  }

  function UpTo(ids: set<Id>, cursor: int): set<Id> {
    set i | i in ids && i <= cursor
  }

  /** `id` is one the job has yet to work on. */
  predicate Ahead(job: Job, id: Id) {
    job.cursor < id <= job.maxId && Chosen(job.scope, id)
  }

  /** Whatever the job may still find is an account of its snapshot, and will stay so. */
  ghost predicate ReachOk(t: Table, alive: set<Id>, job: Job) {
    forall id :: Ahead(job, id) ==> id < t.nextId && (id in t.rows ==> id in alive)
  }

  /** Coverage so far; `alive` are the snapshot accounts that were never deleted. */
  ghost predicate CoverOk(t: Table, alive: set<Id>, job: Job, trace: Trace) {
    && alive <= trace.snapshot && alive <= t.rows.Keys
    && (forall id :: id in trace.snapshot ==> Chosen(job.scope, id))
    && trace.strangers == {} && (forall id :: id in trace.hits ==> id in trace.snapshot)
    && (forall id :: id in alive && id <= job.cursor ==> id in trace.hits)
    && job.processed <= |UpTo(trace.snapshot, job.cursor)|
    && (job.status == Completed ==> forall id :: id in alive ==> id in trace.hits)
    && (Live(job) ==> ReachOk(t, alive, job))
  }

  predicate FixedJob(job: Job) {
    job.kind != ImportFile && Fixed(job.scope)
  }

  ghost predicate CoverRowOk(s: State, j: JobId) {
    j in s.jobs && FixedJob(s.jobs[j]) ==>
      j in s.traces && CoverOk(s.table, Surviving(s, j), s.jobs[j], s.traces[j])
  }

  /** The loaded work: snapshot accounts, and every remaining one the query reached. */
  predicate WorkCovers(limit: nat, alive: set<Id>, job: Job, trace: Trace, ids: seq<Id>) {
    && (forall id :: id in ids ==> id in trace.snapshot)
    && (forall id :: id in alive && id > job.cursor && Reached(ids, limit, id) ==> id in ids)
  }

  predicate HandCovers(c: Config, s: State) {
    s.worker.HasWork? && s.worker.job in s.jobs && s.worker.job in s.traces && Fixed(s.jobs[s.worker.job].scope) ==>
      WorkCovers(c.workerBatch, Surviving(s, s.worker.job), s.jobs[s.worker.job], s.traces[s.worker.job],
                 IdsOf(s.worker.work))
  }

  /** A deleted id is below the next one and, unless it can come back, in no row. */
  predicate GoneOk(c: Config, s: State) {
    forall p :: p in s.gone ==> p.0 in s.traces && (!c.reusesIds ==> p.1 < s.table.nextId && p.1 !in s.table.rows)
  }

  ghost predicate ExactOk(c: Config, s: State) {
    GoneOk(c, s) && HandCovers(c, s) && forall j :: j in s.jobs ==> CoverRowOk(s, j)
  }

  // ----- Creation and loading

  lemma NewCovers(c: Config, s: State, s': State, j: JobId)
    requires TableOk(s.table) && j !in s.traces && GoneOk(c, s)
    requires j in s'.jobs && j in s'.traces && FreshAccountJob(s, s'.jobs[j], s'.traces[j]) && Fixed(s'.jobs[j].scope)
    requires s'.table == s.table && s'.gone == s.gone
    ensures CoverRowOk(s', j)
  {
    assert forall id :: (j, id) in s.gone ==> (j, id).0 in s.traces;
    assert Surviving(s', j) == s'.traces[j].snapshot;
  }

  lemma LoadCovers(c: Config, t: Table, alive: set<Id>, job: Job, trace: Trace, now: Time)
    requires TableOk(t) && CursorOk(job, trace) && CoverOk(t, alive, job, trace) && Fixed(job.scope) && Live(job)
    ensures WorkCovers(c.workerBatch, alive, job, trace, IdsOf(LoadWork(c, t, job, now)))
  {
    LoadIs(c, t, job, now);
    var ids := Select(Candidates(t, job, now), job.cursor, c.workerBatch);
    forall id | id in ids ensures id in trace.snapshot {
      assert id in Candidates(t, job, now);
      assert Ahead(job, id);
    }
    forall id | id in alive && id > job.cursor && Reached(ids, c.workerBatch, id) ensures id in ids {
      assert id in t.rows.Keys && id in Candidates(t, job, now);
    }
  }

  // ----- Committing

  /** The processed count stays within the snapshot rows passed by the cursor. */
  lemma {:induction false} CountedBelow(snapshot: set<Id>, cursor: int, ids: seq<Id>)
    requires Increasing(ids) && ids != []
    requires forall id :: id in ids ==> id in snapshot && id > cursor
    ensures |UpTo(snapshot, cursor)| + |ids| <= |UpTo(snapshot, ids[|ids| - 1])|
  {
    var last := |ids| - 1;
    assert ids[last] in ids;
    if last == 0 {
      assert UpTo(snapshot, cursor) + {ids[0]} <= UpTo(snapshot, ids[0]);
      SubsetSize(UpTo(snapshot, cursor) + {ids[0]}, UpTo(snapshot, ids[0]));
    } else {
      var before := ids[..last];
      assert forall id :: id in before ==> id in ids;
      CountedBelow(snapshot, cursor, before);
      assert ids[last - 1] < ids[last];
      assert UpTo(snapshot, before[last - 1]) + {ids[last]} <= UpTo(snapshot, ids[last]);
      SubsetSize(UpTo(snapshot, before[last - 1]) + {ids[last]}, UpTo(snapshot, ids[last]));
    }
  }

  lemma AllPassed(snapshot: set<Id>, cursor: int)
    requires |UpTo(snapshot, cursor)| >= |snapshot|
    ensures UpTo(snapshot, cursor) == snapshot
  {
    SubsetSize(UpTo(snapshot, cursor), snapshot);
  }

  /** A committed batch reaches no stranger. */
  lemma NoStrangers(t: Table, alive: set<Id>, job: Job, trace: Trace, limit: nat, ids: seq<Id>, hits: seq<Id>)
    requires Live(job) && CoverOk(t, alive, job, trace) && LoadedOk(limit, job, ids)
    requires WorkCovers(limit, alive, job, trace, ids)
    requires forall id :: id in hits <==> id in ids && id in t.rows
    ensures forall id :: id in hits ==> id in alive
  {
    forall id | id in hits ensures id in alive {
      assert Ahead(job, id);
    }
  }

  lemma CommitCovers(
    limit: nat, t: Table, t': Table, alive: set<Id>, job: Job, job': Job, trace: Trace, trace': Trace, ids: seq<Id>,
    hits: seq<Id>)
    requires limit >= 1 && Live(job)
    requires CursorOk(job, trace) && CoverOk(t, alive, job, trace)
    requires LoadedOk(limit, job, ids) && WorkCovers(limit, alive, job, trace, ids)
    requires t'.rows.Keys == t.rows.Keys && t'.nextId == t.nextId
    requires forall id :: id in hits <==> id in ids && id in t.rows
    requires job'.scope == job.scope && job'.maxId == job.maxId && job'.total == job.total
    requires job'.cursor == if ids == [] then job.cursor else ids[|ids| - 1]
    requires job'.processed == job.processed + |ids|
    requires job'.status == Completed ==> ids == [] || job'.processed >= job'.total || |ids| < limit
    requires trace'.snapshot == trace.snapshot && trace'.hits == trace.hits + hits && trace'.strangers == {}
    ensures CoverOk(t', alive, job', trace')
  {
    NoStrangers(t, alive, job, trace, limit, ids, hits);
    if ids != [] {
      assert ids[|ids| - 1] in ids;
      CountedBelow(trace.snapshot, job.cursor, ids);
    }
    forall id | id in alive && id <= job'.cursor ensures id in trace'.hits {
      assert id in t.rows.Keys;
    }
    if job'.status == Completed {
      CompletedCovers(limit, t, alive, job, job', trace, trace', ids, hits);
    }
    assert forall id :: Ahead(job', id) ==> Ahead(job, id);
    forall id | Live(job') && Ahead(job', id) ensures id < t'.nextId && (id in t'.rows ==> id in alive) {
      assert id in t'.rows.Keys ==> id in t.rows.Keys;
    }
  }

  lemma CompletedCovers(
    limit: nat, t: Table, alive: set<Id>, job: Job, job': Job, trace: Trace, trace': Trace, ids: seq<Id>,
    hits: seq<Id>)
    requires limit >= 1 && CursorOk(job, trace) && CoverOk(t, alive, job, trace)
    requires |ids| <= limit && WorkCovers(limit, alive, job, trace, ids)
    requires forall id :: id in hits <==> id in ids && id in t.rows
    requires job'.total == job.total && (ids == [] || job'.processed >= job'.total || |ids| < limit)
    requires job'.processed <= |UpTo(trace.snapshot, job'.cursor)|
    requires job'.cursor == if ids == [] then job.cursor else ids[|ids| - 1]
    requires trace'.hits == trace.hits + hits
    ensures forall id :: id in alive ==> id in trace'.hits
  {
    if |ids| == limit {
      AllPassed(trace.snapshot, job'.cursor);
      assert forall id :: id in trace.snapshot ==> id in UpTo(trace.snapshot, job'.cursor);
    }
    forall id | id in alive ensures id in trace'.hits {
      assert id in t.rows.Keys;
    }
  }

  lemma RowCommitCovers(
    c: Config, s: State, results: map<Id, AccountResult>, job: Job, trace: Trace, alive: set<Id>, ids: seq<Id>,
    hits: seq<Id>)
    requires c.workerBatch >= 1 && CanCommit(c, s, CommitAccounts(results))
    requires job == s.jobs[s.worker.job] && trace == s.traces[s.worker.job] && alive == Surviving(s, s.worker.job)
    requires job.status == Running && CursorOk(job, trace) && CoverOk(s.table, alive, job, trace)
    requires ids == IdsOf(s.worker.work) && hits == Present(s.table, s.worker.work)
    requires LoadedOk(c.workerBatch, job, ids) && WorkCovers(c.workerBatch, alive, job, trace, ids)
    ensures var s', j := CommitAccountsStep(c, s, results), s.worker.job;
            CoverOk(s'.table, alive, s'.jobs[j], s'.traces[j]) && Surviving(s', j) == alive
  {
    var s', j, work := CommitAccountsStep(c, s, results), s.worker.job, s.worker.work;
    PresentIs(s.table, work);
    WorkedFields(c, job, work, hits, results, s.now);
    NoStrangers(s.table, alive, job, trace, c.workerBatch, ids, hits);
    assert Strangers(s, j, hits) == {};
    CommitCovers(c.workerBatch, s.table, s'.table, alive, job, s'.jobs[j], trace, s'.traces[j], ids, hits);
  }

  // ----- Every step

  /** Snapshot accounts can only go, and those that stay are in the table. */
  lemma SurvivorsKept(c: Config, s: State, e: Step, j: JobId)
    requires TableOk(s.table) && Enabled(c, s, e) && j in s.traces
    requires j in Next(c, s, e).traces && Next(c, s, e).traces[j].snapshot == s.traces[j].snapshot
    ensures Surviving(Next(c, s, e), j) <= Surviving(s, j)
    ensures Surviving(s, j) <= s.table.rows.Keys ==> Surviving(Next(c, s, e), j) <= Next(c, s, e).table.rows.Keys
  {
    match e
    case Request(DeleteAccounts(ids)) => DeletedSurvivors(c, s, ids, j);
    case Commit(CommitImport) => UpsertAllOk(s.table, BatchRows(c, s), s.jobs[s.worker.job].target.mode);
    case Commit(CommitAccounts(results)) => ApplyEvolves(s.table, results, s.now, s.intervalDays);
    case _ =>
      TableKept(c, s, e);
      GoneKept(c, s, e);
  }

  lemma DeletedSurvivors(c: Config, s: State, ids: set<Id>, j: JobId)
    requires j in s.traces && CanRequest(c, s, DeleteAccounts(ids))
    ensures var s' := RequestNext(c, s, DeleteAccounts(ids));
            && Surviving(s', j) <= Surviving(s, j)
            && (Surviving(s, j) <= s.table.rows.Keys ==> Surviving(s', j) <= s'.table.rows.Keys)
            && forall id :: id in Surviving(s, j) && id !in ids ==> id in Surviving(s', j)
  {
    var s' := RequestNext(c, s, DeleteAccounts(ids));
    forall id | id in Surviving(s', j) && Surviving(s, j) <= s.table.rows.Keys ensures id in s'.table.rows {
      assert id in s.table.rows.Keys;
      assert id in ids ==> (j, id) in Deleted(s, ids);
    }
  }

  lemma GoneKept(c: Config, s: State, e: Step)
    requires Enabled(c, s, e) && !(e.Request? && e.r.DeleteAccounts?)
    ensures Next(c, s, e).gone == s.gone
  {
    if e.Upkeep? && e.m.SchedulerTick? {
      SchedulerCases(s, e.m.id, e.m.date, e.m.minute, e.m.dueMinute);
    }
  }

  /** A live job's reach holds no stranger after the step either. */
  lemma ReachStep(c: Config, s: State, e: Step, j: JobId)
    requires IdsStay(c) && TableOk(s.table) && Enabled(c, s, e)
    requires j in s.jobs && Live(s.jobs[j]) && FixedJob(s.jobs[j]) && j in s.traces && j in Next(c, s, e).traces
    requires Next(c, s, e).traces[j].snapshot == s.traces[j].snapshot
    requires ReachOk(s.table, Surviving(s, j), s.jobs[j])
    ensures ReachOk(Next(c, s, e).table, Surviving(Next(c, s, e), j), s.jobs[j])
  {
    if e.Request? && e.r.DeleteAccounts? {
      ReachDelete(c, s, e.r.ids, j);
    } else {
      GoneKept(c, s, e);
      TableEvolves(c, s, e);
      ReachKept(s, Next(c, s, e), j);
    }
  }

  lemma ReachKept(s: State, s': State, j: JobId)
    requires j in s.jobs && j in s.traces && j in s'.traces && s'.traces[j].snapshot == s.traces[j].snapshot
    requires s'.gone == s.gone && Evolves(s.table, s'.table) && s.table.nextId <= s'.table.nextId
    requires ReachOk(s.table, Surviving(s, j), s.jobs[j])
    ensures ReachOk(s'.table, Surviving(s', j), s.jobs[j])
  {
    ReachGrow(s.table, s'.table, Surviving(s, j), s.jobs[j]);
    assert Surviving(s', j) == Surviving(s, j);
  }

  lemma ReachGrow(t: Table, t': Table, alive: set<Id>, job: Job)
    requires Evolves(t, t') && t.nextId <= t'.nextId && ReachOk(t, alive, job)
    ensures ReachOk(t', alive, job)
  {
  }

  lemma ReachDelete(c: Config, s: State, ids: set<Id>, j: JobId)
    requires IdsStay(c) && CanRequest(c, s, DeleteAccounts(ids))
    requires j in s.jobs && Live(s.jobs[j]) && FixedJob(s.jobs[j]) && j in s.traces
    requires ReachOk(s.table, Surviving(s, j), s.jobs[j])
    ensures var s' := RequestNext(c, s, DeleteAccounts(ids)); ReachOk(s'.table, Surviving(s', j), s.jobs[j])
  {
    var s', job := RequestNext(c, s, DeleteAccounts(ids)), s.jobs[j];
    DeletedSurvivors(c, s, ids, j);
    assert c.reusesIds ==> OutOfReach(s'.table, job);
    forall id | Ahead(job, id) ensures id < s'.table.nextId && (id in s'.table.rows ==> id in Surviving(s', j)) {
    }
  }

  lemma CoverEvolves(t: Table, alive: set<Id>, t': Table, alive': set<Id>, job: Job, job': Job, trace: Trace)
    requires CoverOk(t, alive, job, trace) && SameProgress(job, job')
    requires alive' <= alive && alive' <= t'.rows.Keys && (Live(job) ==> ReachOk(t', alive', job))
    ensures CoverOk(t', alive', job', trace)
  {
    assert forall id :: Ahead(job', id) <==> Ahead(job, id);
  }

  lemma RowKept(c: Config, s: State, e: Step, j: JobId)
    requires IdsStay(c) && QueueOk(s) && TableOk(s.table) && CoverRowOk(s, j) && Enabled(c, s, e)
    requires !Commits(s, e, j) && j in s.jobs && j in Next(c, s, e).jobs
    ensures CoverRowOk(Next(c, s, e), j)
  {
    Traced(s);
    KeptStep(c, s, e, j);
    if FixedJob(s.jobs[j]) {
      SurvivorsKept(c, s, e, j);
      if Live(s.jobs[j]) {
        ReachStep(c, s, e, j);
      }
      var s' := Next(c, s, e);
      CoverEvolves(s.table, Surviving(s, j), s'.table, Surviving(s', j), s.jobs[j], s'.jobs[j], s.traces[j]);
    }
  }

  lemma RowNew(c: Config, s: State, e: Step, j: JobId)
    requires QueueOk(s) && TableOk(s.table) && GoneOk(c, s) && Enabled(c, s, e)
    requires j !in s.jobs && j in Next(c, s, e).jobs
    ensures CoverRowOk(Next(c, s, e), j)
  {
    Traced(s);
    var s' := Next(c, s, e);
    KeptStep(c, s, e, j);
    NewRowsQuietly(c, s, e, j);
    if FixedJob(s'.jobs[j]) {
      NewCovers(c, s, s', j);
    }
  }

  /** A row does not appear in a step that writes or deletes accounts. */
  lemma NewRowsQuietly(c: Config, s: State, e: Step, j: JobId)
    requires QueueOk(s) && Enabled(c, s, e) && j !in s.jobs && j in Next(c, s, e).jobs
    ensures Next(c, s, e).table == s.table && Next(c, s, e).gone == s.gone
  {
    if !e.Commit? && !(e.Request? && e.r.DeleteAccounts?) {
      TableKept(c, s, e);
      GoneKept(c, s, e);
    }
  }

  lemma RowCommitted(c: Config, s: State, e: Step, j: JobId)
    requires c.workerBatch >= 1 && QueueOk(s) && CoverageOk(c, s) && ExactOk(c, s) && Enabled(c, s, e)
    requires Commits(s, e, j)
    ensures CoverRowOk(Next(c, s, e), j)
  {
    if e.k.CommitAccounts? && Fixed(s.jobs[j].scope) {
      assert CoverRowOk(s, j) && CursorRowOk(s, j);
      RowCommitCovers(c, s, e.k.results, s.jobs[j], s.traces[j], Surviving(s, j), IdsOf(s.worker.work),
                      Present(s.table, s.worker.work));
    } else if e.k.CommitAccounts? {
      WorkedScope(c, s, e.k.results);
    }
  }

  lemma WorkedScope(c: Config, s: State, results: map<Id, AccountResult>)
    requires QueueOk(s) && CanCommit(c, s, CommitAccounts(results))
    ensures CommitAccountsStep(c, s, results).jobs[s.worker.job].scope == s.jobs[s.worker.job].scope
  {
  }

  lemma GoneStep(c: Config, s: State, e: Step)
    requires QueueOk(s) && TableOk(s.table) && GoneOk(c, s) && Enabled(c, s, e)
    ensures GoneOk(c, Next(c, s, e))
  {
    var s' := Next(c, s, e);
    TableEvolves(c, s, e);
    if e.Request? && e.r.DeleteAccounts? {
      assert s'.traces == s.traces;
    } else {
      GoneKept(c, s, e);
      forall p | p in s'.gone ensures p.0 in s'.traces {
        TraceKept(c, s, e, p.0);
      }
    }
  }

  lemma TraceKept(c: Config, s: State, e: Step, j: JobId)
    requires QueueOk(s) && Enabled(c, s, e) && j in s.traces
    ensures j in Next(c, s, e).traces
  {
    if !Commits(s, e, j) {
      KeptStep(c, s, e, j);
    }
  }

  lemma HandLoaded(c: Config, s: State, j: JobId)
    requires QueueOk(s) && CoverageOk(c, s) && ExactOk(c, s) && CanTake(s, Load) && j == s.worker.job
    ensures HandCovers(c, TakeNext(c, s, Load))
  {
    assert CoverRowOk(s, j) && CursorRowOk(s, j);
    if Fixed(s.jobs[j].scope) {
      LoadCovers(c, s.table, Surviving(s, j), s.jobs[j], s.traces[j], s.now);
      assert Surviving(TakeNext(c, s, Load), j) == Surviving(s, j);
    }
  }

  lemma HandHeld(c: Config, s: State, e: Step, j: JobId)
    requires QueueOk(s) && CoverageOk(c, s) && ExactOk(c, s) && Enabled(c, s, e)
    requires s.worker.HasWork? && s.worker.job == j && Next(c, s, e).worker == s.worker && !e.Commit?
    ensures HandCovers(c, Next(c, s, e))
  {
    Traced(s);
    KeptStep(c, s, e, j);
    SurvivorsKept(c, s, e, j);
  }

  lemma HandCoversStep(c: Config, s: State, e: Step)
    requires QueueOk(s) && CoverageOk(c, s) && ExactOk(c, s) && Enabled(c, s, e)
    ensures HandCovers(c, Next(c, s, e))
  {
    if Next(c, s, e).worker.HasWork? {
      HandsOff(c, s, e);
      if e == Take(Load) {
        HandLoaded(c, s, s.worker.job);
      } else {
        HandHeld(c, s, e, s.worker.job);
      }
    }
  }

  lemma ExactStep(c: Config, s: State, e: Step)
    requires IdsStay(c) && c.workerBatch >= 1
    requires QueueOk(s) && CoverageOk(c, s) && ExactOk(c, s) && Enabled(c, s, e)
    ensures ExactOk(c, Next(c, s, e))
  {
    var s' := Next(c, s, e);
    GoneStep(c, s, e);
    HandCoversStep(c, s, e);
    forall j | j in s'.jobs ensures CoverRowOk(s', j) {
      if j !in s.jobs {
        RowNew(c, s, e, j);
      } else if Commits(s, e, j) {
        RowCommitted(c, s, e, j);
      } else {
        assert CoverRowOk(s, j);
        RowKept(c, s, e, j);
      }
    }
  }

  lemma {:induction false} RunExactOk(c: Config, s: State, steps: seq<Step>)
    requires IdsStay(c) && c.workerBatch >= 1 && Initial(s) && Possible(c, s, steps)
    ensures QueueOk(After(c, s, steps)) && CoverageOk(c, After(c, s, steps)) && ExactOk(c, After(c, s, steps))
    decreases |steps|
  {
    RunCoverageOk(c, s, steps);
    if steps != [] {
      var before := steps[..|steps| - 1];
      RunExactOk(c, s, before);
      ExactStep(c, After(c, s, before), steps[|steps| - 1]);
    }
  }

  // ----- Exactly once

  /**
   Each account at most once, none that the job was not created for, and, once completed, every account of the
   snapshot that was not deleted. `hits` lists the committed results.
   */
  predicate ExactlyOnce(s: State, j: JobId) {
    && j in s.jobs && j in s.traces
    && Once(s.traces[j].hits)
    && s.traces[j].strangers == {} && (forall id :: id in s.traces[j].hits ==> id in s.traces[j].snapshot)
    && (s.jobs[j].status == Completed ==> forall id :: id in Surviving(s, j) ==> id in s.traces[j].hits)
  }

  /**
   Over every run, with other jobs, crashes, deletions and later imports interleaved: a job of scope "all" or
   "selected" covers exactly once, as long as no id within a live job's reach comes back. The snapshot accounts
   never deleted are still in the table, and are all its snapshot ids there if ids do not come back at all.
   */
  lemma CoversExactlyOnce(c: Config, s: State, steps: seq<Step>, t: State, j: JobId)
    requires IdsStay(c) && c.workerBatch >= 1 && Initial(s) && Possible(c, s, steps) && t == After(c, s, steps)
    requires j in t.jobs && FixedJob(t.jobs[j])
    ensures ExactlyOnce(t, j) && Surviving(t, j) <= t.table.rows.Keys
    ensures !c.reusesIds ==> forall id :: id in t.traces[j].snapshot && id in t.table.rows ==> id in Surviving(t, j)
  {
    RunExactOk(c, s, steps);
    assert CoverRowOk(t, j) && CursorRowOk(t, j);
    forall id | !c.reusesIds && id in t.traces[j].snapshot && id in t.table.rows ensures id in Surviving(t, j) {
      assert (j, id) in t.gone ==> (j, id).1 !in t.table.rows;
    }
  }

  ghost predicate AlwaysExactlyOnce(c: Config) {
    forall s, steps, j ::
      Initial(s) && Possible(c, s, steps) && j in After(c, s, steps).jobs && FixedJob(After(c, s, steps).jobs[j]) ==>
        ExactlyOnce(After(c, s, steps), j)
  }

  // ----- The other side

  const SKIP: Target := Target("", Skip)

  function RefreshJob(): Job {
    NewAccountJob(RefreshTokens, All, 40, {1}, 0)
  }

  /** During an import, a job for the one account is created, the account deleted, and the import cancelled. */
  predicate Orphaned(c: Config, s: State, file: seq<byte>) {
    && s.worker == HasBatch("f", BatchAt(c.rules, file, 0))
    && s.jobs.Keys == {"f", "r"} && s.jobs["r"] == RefreshJob()
    && s.jobs["f"] == NewImportJob(|LinesOf(file)|, SKIP, 0).(status := Running, cancelRequested := true)
    && s.traces.Keys == {"f", "r"} && s.traces["r"] == Trace([], {1}, [], 0, 0, {})
    && s.table == Table(map[], map[], 1) && ("r", 1) in s.gone && s.now == 0 && s.intervalDays == 60
  }

  /** The same before the cancellation; `present` says whether the account is still there. */
  predicate Watched(c: Config, s: State, file: seq<byte>, present: bool) {
    && s.worker == HasBatch("f", BatchAt(c.rules, file, 0))
    && s.jobs == map["f" := NewImportJob(|LinesOf(file)|, SKIP, 0).(status := Running), "r" := RefreshJob()]
    && s.traces.Keys == {"f", "r"} && s.traces["r"] == Trace([], {1}, [], 0, 0, {})
    && (if present then s.table == OneAccount().table else s.table == Table(map[], map[], 1) && ("r", 1) in s.gone)
    && s.now == 0 && s.intervalDays == 60
  }

  lemma Watch(c: Config, steps: seq<Step>, s: State, file: seq<byte>) returns (longer: seq<Step>, t: State)
    requires Reaches(c, steps, s) && Reading(c, s, file, SKIP)
    ensures Reaches(c, longer, t) && Watched(c, t, file, true)
  {
    assert Snapshot(s.table, All, s.now) == {1};
    longer, t := Go(c, steps, s, Request(CreateAccountJob("r", RefreshTokens, All)));
  }

  lemma DeletedAll(c: Config, s: State)
    requires c.reusesIds && s.table == OneAccount().table && "r" in s.traces
    ensures Delete(s.table, {1}, c.reusesIds) == Table(map[], map[], 1) && ("r", 1) in Deleted(s, {1})
  {
    assert Delete(s.table, {1}, c.reusesIds).rows.Keys == {};
  }

  lemma Empty(c: Config, steps: seq<Step>, s: State, file: seq<byte>) returns (longer: seq<Step>, t: State)
    requires !IdsStay(c) && Reaches(c, steps, s) && Watched(c, s, file, true)
    ensures Reaches(c, longer, t) && Watched(c, t, file, false)
  {
    DeletedAll(c, s);
    longer, t := Go(c, steps, s, Request(DeleteAccounts({1})));
  }

  lemma Cancel(c: Config, steps: seq<Step>, s: State, file: seq<byte>) returns (longer: seq<Step>, t: State)
    requires Reaches(c, steps, s) && Watched(c, s, file, false)
    ensures Reaches(c, longer, t) && Orphaned(c, t, file)
  {
    longer, t := Go(c, steps, s, Request(CancelJob("f")));
  }

  /** The import has stored its account, under the deleted one's id, and ended. */
  predicate Reborn(s: State) {
    && s.worker == Idle && s.jobs.Keys == {"f", "r"} && Terminal(s.jobs["f"].status) && s.jobs["r"] == RefreshJob()
    && "r" in s.traces && s.traces["r"] == Trace([], {1}, [], 0, 0, {}) && ("r", 1) in s.gone
    && s.table.rows.Keys == {1} && s.now == 0
  }

  lemma StoreNew(rules: Rules, a: ParsedAccount, next: Time)
    ensures UpsertAll(Table(map[], map[], 1), Rows(rules, [Accepted(a)], SKIP, next), Skip).rows.Keys == {1}
  {
    var rows := Rows(rules, [Accepted(a)], SKIP, next);
    assert Rows(rules, [], SKIP, next) == [];
    assert rows == [RowOf(rules, a, SKIP, next)];
    assert rows[..0] == [];
  }

  lemma RowsOfOne(c: Config, s: State, outs: seq<LineOutcome>, a: ParsedAccount)
    requires s.worker.HasBatch? && s.worker.job in s.jobs && s.jobs[s.worker.job].target == SKIP
    requires s.worker.batch.outs == outs && outs == [Accepted(a)] && s.table == Table(map[], map[], 1)
    ensures UpsertAll(s.table, BatchRows(c, s), Skip).rows.Keys == {1}
  {
    StoreNew(c.rules, a, s.now + s.intervalDays * DAY);
  }

  lemma OutsOfOne(c: Config, s: State, file: seq<byte>)
    requires c.rules.batchSize >= 1 && OneLine(c.rules, file) && Orphaned(c, s, file)
    ensures s.worker.batch.outs == [Classify(c.rules, file, true)]
  {
    OneOutcome(c.rules, file);
  }

  lemma BornAgain(s: State, t: State)
    requires s.jobs.Keys == {"f", "r"} && s.jobs["r"] == RefreshJob() && s.now == 0
    requires s.traces.Keys == {"f", "r"} && s.traces["r"] == Trace([], {1}, [], 0, 0, {}) && ("r", 1) in s.gone
    requires "f" in t.jobs && t.jobs == s.jobs["f" := t.jobs["f"]] && t.jobs["f"].status == Cancelled
    requires "f" in t.traces && t.traces == s.traces["f" := t.traces["f"]] && t.gone == s.gone && t.now == s.now
    requires t.table.rows.Keys == {1}
    ensures Reborn(t.(worker := Idle))
  {
  }

  lemma ImportNew(c: Config, steps: seq<Step>, s: State, file: seq<byte>) returns (longer: seq<Step>, t: State)
    requires c.rules.batchSize >= 1 && OneLine(c.rules, file) && Reaches(c, steps, s) && Orphaned(c, s, file)
    ensures Reaches(c, longer, t) && t.worker == Unlinking("f") && Reborn(t.(worker := Idle))
  {
    OutsOfOne(c, s, file);
    RowsOfOne(c, s, s.worker.batch.outs, Classify(c.rules, file, true).account);
    CommitsCancelled(c, s);
    t := CommitImportStep(c, s);
    BornAgain(s, t);
    longer := Then(c, OneAccount(), steps, Commit(CommitImport));
  }

  lemma Tidy(c: Config, steps: seq<Step>, s: State) returns (longer: seq<Step>, t: State)
    requires Reaches(c, steps, s) && s.worker == Unlinking("f") && Reborn(s.(worker := Idle))
    ensures Reaches(c, longer, t) && Reborn(t)
  {
    longer, t := Go(c, steps, s, Upkeep(Unlink(true)));
  }

  lemma CommitsCancelled(c: Config, s: State)
    requires s.worker.HasBatch? && s.worker.job in s.jobs && s.worker.job in s.traces
    requires s.jobs[s.worker.job].target.mode == Skip && s.jobs[s.worker.job].cancelRequested
    ensures CanCommit(c, s, CommitImport)
    ensures var t, j := CommitImportStep(c, s), s.worker.job;
            && t.worker == Unlinking(j) && t.jobs == s.jobs[j := t.jobs[j]] && t.jobs[j].status == Cancelled
            && t.table == UpsertAll(s.table, BatchRows(c, s), Skip)
            && t.traces == s.traces[j := t.traces[j]] && t.gone == s.gone && t.now == s.now
  {
  }

  lemma ClaimJob(c: Config, steps: seq<Step>, s: State) returns (longer: seq<Step>, t: State)
    requires Reaches(c, steps, s) && Reborn(s)
    ensures Reaches(c, longer, t) && t == PutJob(s, "r", RefreshJob().(status := Running)).(worker := Claimed("r"))
  {
    longer, t := Go(c, steps, s, Take(Claim("r")));
  }

  lemma LoadJob(c: Config, steps: seq<Step>, s: State) returns (longer: seq<Step>, t: State)
    requires c.workerBatch >= 1 && Reaches(c, steps, s) && s.worker == Claimed("r") && "r" in s.jobs
    requires s.table.rows.Keys == {1} && s.jobs["r"] == RefreshJob().(status := Running)
    ensures Reaches(c, longer, t) && t == s.(worker := HasWork("r", [Work(1, s.table.rows[1].token)]))
  {
    LoadNew(c, s);
    longer, t := Go(c, steps, s, Take(Load));
  }

  /** The job for the deleted account commits a result to the new one. */
  lemma HitStranger(c: Config, steps: seq<Step>, s: State) returns (longer: seq<Step>, t: State)
    requires Reaches(c, steps, s) && s.worker.HasWork? && s.worker.job == "r" && "r" in s.jobs
    requires |s.worker.work| == 1 && s.worker.work[0].id == 1 && 1 in s.table.rows
    requires s.jobs["r"] == RefreshJob().(status := Running)
    requires "r" in s.traces && s.traces["r"] == Trace([], {1}, [], 0, 0, {}) && ("r", 1) in s.gone
    ensures Reaches(c, longer, t)
    ensures "r" in t.jobs && FixedJob(t.jobs["r"]) && "r" in t.traces && t.traces["r"].strangers == {1}
  {
    var results := map[1 := AccountResult(false, "", "network_error", false, false)];
    WorkOne(s.worker.work);
    assert Strangers(s, "r", [1]) == {1};
    longer, t := Go(c, steps, s, Commit(CommitAccounts(results)));
  }

  lemma LoadNew(c: Config, s: State)
    requires c.workerBatch >= 1 && s.worker == Claimed("r") && "r" in s.jobs && s.table.rows.Keys == {1}
    requires s.jobs["r"] == RefreshJob().(status := Running)
    ensures CanTake(s, Load)
    ensures var w := TakeNext(c, s, Load).worker; w.HasWork? && w.work == [Work(1, s.table.rows[1].token)]
  {
    assert Candidates(s.table, s.jobs["r"], s.now) == {1};
    SelectOne(c.workerBatch);
    assert WorkOf(s.table, [1]) == [Work(1, s.table.rows[1].token)];
  }

  lemma WorkOne(work: seq<Work>)
    requires |work| == 1 && work[0].id == 1
    ensures WorkIds(work) == {1} && forall t: Table :: 1 in t.rows ==> Present(t, work) == [1]
  {
    assert work[0].id in WorkIds(work);
    forall t: Table | 1 in t.rows ensures Present(t, work) == [1] {
      assert Present(t, work[1..]) == [];
    }
  }

  /** An account is deleted while a job waits for it, an import gets its id, and the job works on the new account. */
  lemma StrangerHit(c: Config, file: seq<byte>) returns (steps: seq<Step>, s: State)
    requires SettingsOk(c) && OneLine(c.rules, file) && !IdsStay(c)
    ensures Initial(OneAccount()) && Reaches(c, steps, s)
    ensures "r" in s.jobs && FixedJob(s.jobs["r"]) && "r" in s.traces && s.traces["r"].strangers == {1}
  {
    steps, s := ReadFile(c, file, SKIP);
    steps, s := Watch(c, steps, s, file);
    steps, s := Empty(c, steps, s, file);
    steps, s := Cancel(c, steps, s, file);
    steps, s := ImportNew(c, steps, s, file);
    steps, s := Tidy(c, steps, s);
    steps, s := ClaimJob(c, steps, s);
    steps, s := LoadJob(c, steps, s);
    steps, s := HitStranger(c, steps, s);
  }

  /**
   Exactly-once coverage holds over every run if and only if ids do not come back within a live job's reach,
   wherever some file can be imported at all.
   */
  lemma ExactlyOnceIffIdsStay(c: Config, file: seq<byte>)
    requires SettingsOk(c) && OneLine(c.rules, file)
    ensures AlwaysExactlyOnce(c) <==> IdsStay(c)
  {
    if IdsStay(c) {
      forall s, steps, j |
        Initial(s) && Possible(c, s, steps) && j in After(c, s, steps).jobs && FixedJob(After(c, s, steps).jobs[j])
        ensures ExactlyOnce(After(c, s, steps), j)
      {
        CoversExactlyOnce(c, s, steps, After(c, s, steps), j);
      }
    } else {
      var steps, s := StrangerHit(c, file);
      assert !ExactlyOnce(s, "r");
    }
  }
}
