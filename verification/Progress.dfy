/**
 What a step leaves alone. Only committing a batch of a job moves that job's cursor and counters, only three
 kinds of step write accounts, and no step reuses an account id.
 */
module Progress {
  import opened Prelude
  import opened Accounts
  import opened Engine
  import opened QueueSafety

  predicate SameProgress(a: Job, b: Job) {
    && a.kind == b.kind && a.scope == b.scope && a.priority == b.priority && a.target == b.target
    && a.maxId == b.maxId && a.total == b.total
    && a.cursor == b.cursor && a.processed == b.processed
    && a.succeeded == b.succeeded && a.failed == b.failed && a.skipped == b.skipped
    && (b.status == Completed ==> a.status == Completed) && (Live(b) ==> Live(a))
  }

  predicate FreshImport(job: Job) {
    job.processed == 0 && job.succeeded == 0 && job.failed == 0 && job.skipped == 0 && Live(job)
  }

  /** A job over the accounts in scope at the time. */
  predicate FreshAccountJob(s: State, job: Job, trace: Trace) {
    && trace == Trace([], Snapshot(s.table, job.scope, s.now), [], 0, 0, {}) && trace.snapshot != {}
    && job == NewAccountJob(job.kind, job.scope, job.priority, trace.snapshot, s.now)
  }

  /** The job `j` is not there yet, is new and untouched, has kept its progress, or is gone for good. */
  predicate Kept(s: State, s': State, j: JobId) {
    && (j in s.traces ==> j in s'.traces && s'.traces[j] == s.traces[j])
    && (j in s.traces && j in s'.jobs ==> j in s.jobs && SameProgress(s.jobs[j], s'.jobs[j]))
    && (j !in s.traces && j in s'.jobs ==>
          && j in s'.traces
          && if s'.jobs[j].kind == ImportFile then FreshImport(s'.jobs[j])
             else FreshAccountJob(s, s'.jobs[j], s'.traces[j]))
  }

  /** The step commits a batch of the job `j`. */
  predicate Commits(s: State, e: Step, j: JobId) {
    e.Commit? && (s.worker.HasBatch? || s.worker.HasWork?) && s.worker.job == j
  }

  lemma Traced(s: State)
    requires QueueOk(s)
    ensures forall j :: j in s.jobs ==> j in s.traces
  {
    forall j | j in s.jobs ensures j in s.traces {
      assert RowOk(s, j);
    }
  }

  /** Rewriting one row without its progress. */
  lemma KeptPut(s: State, s': State, id: JobId, j: JobId)
    requires QueueOk(s) && id in s.jobs && id in s'.jobs && s'.jobs == s.jobs[id := s'.jobs[id]]
    requires s'.traces == s.traces && SameProgress(s.jobs[id], s'.jobs[id])
    ensures Kept(s, s', j)
  {
    Traced(s);
  }

  lemma KeptAdd(s: State, id: JobId, kind: Kind, scope: Scope, priority: int, j: JobId)
    requires QueueOk(s) && id !in s.used && kind != ImportFile && Snapshot(s.table, scope, s.now) != {}
    ensures var snapshot := Snapshot(s.table, scope, s.now);
            Kept(s, AddAccountJob(s, id, NewAccountJob(kind, scope, priority, snapshot, s.now), snapshot), j)
  {
    Traced(s);
  }

  lemma KeptUpload(c: Config, s: State, u: UploadStep, j: JobId)
    requires QueueOk(s) && CanUpload(c, s, u)
    ensures Kept(s, UploadNext(c, s, u), j)
  {
    Traced(s);
  }

  lemma KeptRequest(c: Config, s: State, r: RequestStep, j: JobId)
    requires QueueOk(s) && CanRequest(c, s, r)
    ensures Kept(s, RequestNext(c, s, r), j)
  {
    match r
    case CreateAccountJob(id, kind, scope) => KeptAdd(s, id, kind, scope, if scope.Selected? then 100 else 40, j);
    case CancelJob(id) => KeptPut(s, RequestNext(c, s, r), id, j);
    case _ => Traced(s);
  }

  lemma KeptTake(c: Config, s: State, t: TakeStep, j: JobId)
    requires QueueOk(s) && CanTake(s, t)
    ensures Kept(s, TakeNext(c, s, t), j)
  {
    match t
    case Claim(id) => KeptPut(s, TakeNext(c, s, t), id, j);
    case FailJob => KeptPut(s, TakeNext(c, s, t), s.worker.job, j);
    case _ => Traced(s);
  }

  lemma KeptCommit(c: Config, s: State, k: CommitStep, j: JobId)
    requires QueueOk(s) && CanCommit(c, s, k) && s.worker.job != j
    ensures Kept(s, CommitNext(c, s, k), j)
  {
    Traced(s);
    var s', id := CommitNext(c, s, k), s.worker.job;
    assert s'.jobs == s.jobs[id := s'.jobs[id]] && s'.traces == s.traces[id := s'.traces[id]];
  }

  /** An account job's commit leaves it an account job. */
  lemma WorkedKind(c: Config, s: State, results: map<Id, AccountResult>)
    requires QueueOk(s) && CanCommit(c, s, CommitAccounts(results))
    ensures var s', id := CommitAccountsStep(c, s, results), s.worker.job;
            s'.jobs[id].kind == s.jobs[id].kind && s'.jobs[id].kind != ImportFile && id in s'.traces
  {
  }

  lemma KeptUpkeep(c: Config, s: State, m: UpkeepStep, j: JobId)
    requires QueueOk(s) && CanUpkeep(c, s, m) && !m.SchedulerTick?
    ensures Kept(s, UpkeepNext(c, s, m), j)
  {
    Traced(s);
  }

  lemma KeptScheduled(s: State, s': State, id: JobId, date: int, minute: int, dueMinute: int, j: JobId)
    requires QueueOk(s) && id !in s.used && s' == SchedulerStep(s, id, date, minute, dueMinute)
    ensures Kept(s, s', j)
  {
    if s'.jobs == s.jobs {
      Traced(s);
    } else {
      KeptAdd(s, id, RefreshTokens, Due, SCHEDULED, j);
    }
  }

  lemma KeptLife(s: State, l: LifeStep, j: JobId)
    requires QueueOk(s)
    ensures Kept(s, LifeNext(s, l), j)
  {
    Traced(s);
  }

  lemma KeptStep(c: Config, s: State, e: Step, j: JobId)
    requires QueueOk(s) && Enabled(c, s, e) && !Commits(s, e, j)
    ensures Kept(s, Next(c, s, e), j)
  {
    match e
    case Upload(u) => KeptUpload(c, s, u, j);
    case Request(r) => KeptRequest(c, s, r, j);
    case Take(t) => KeptTake(c, s, t, j);
    case Commit(k) => KeptCommit(c, s, k, j);
    case Upkeep(m) =>
      if m.SchedulerTick? {
        KeptScheduled(s, Next(c, s, e), m.id, m.date, m.minute, m.dueMinute, j);
      } else {
        KeptUpkeep(c, s, m, j);
      }
    case Life(l) => KeptLife(s, l, j);
  }

  // ----- The account table

  /** Rows may go, and new ones come under ids the table had yet to hand out. */
  predicate Evolves(t: Table, t': Table) {
    TableOk(t') && forall id :: id in t'.rows && id < t.nextId ==> id in t.rows
  }

  lemma DeleteEvolves(t: Table, ids: set<Id>, reuse: bool)
    requires TableOk(t)
    ensures Evolves(t, Delete(t, ids, reuse))
  {
    var u := Delete(t, ids, reuse);
    forall id | id in u.rows ensures 1 <= id < u.nextId {
      assert id in u.rows.Keys;
    }
  }

  /** A deletion takes away exactly these accounts, with their hashes, and touches no other and no job. */
  lemma DeletesExactly(c: Config, s: State, ids: set<Id>)
    requires TableOk(s.table) && CanRequest(c, s, DeleteAccounts(ids))
    ensures var t, s' := s.table, RequestNext(c, s, DeleteAccounts(ids));
            var u := s'.table;
            && s'.jobs == s.jobs && s'.spool == s.spool
            && (forall id :: id in u.rows <==> id in t.rows && id !in ids)
            && (forall id :: id in u.rows ==> u.rows[id] == t.rows[id])
            && forall h ::
                 var e := EntryOf(t, h);
                 EntryOf(u, h) == if e.Held? && e.id in ids then Nothing else e
  {
  }

  lemma ApplyEvolves(t: Table, results: map<Id, AccountResult>, now: Time, intervalDays: int)
    requires TableOk(t)
    ensures Evolves(t, ApplyAll(t, results, now, intervalDays))
  {
    var u := ApplyAll(t, results, now, intervalDays);
    assert forall id :: id in t.rows ==> u.rows[id].hash == t.rows[id].hash;
  }

  /** Steps outside the three writers of accounts leave the table as it is. */
  lemma TableKept(c: Config, s: State, e: Step)
    requires Enabled(c, s, e) && !e.Commit? && !(e.Request? && e.r.DeleteAccounts?)
    ensures Next(c, s, e).table == s.table
  {
    if e.Upkeep? && e.m.SchedulerTick? {
      SchedulerCases(s, e.m.id, e.m.date, e.m.minute, e.m.dueMinute);
    }
  }

  /** A deletion on a table that reuses ids. */
  predicate Forgets(c: Config, e: Step) {
    c.reusesIds && e.Request? && e.r.DeleteAccounts?
  }

  lemma TableEvolves(c: Config, s: State, e: Step)
    requires TableOk(s.table) && Enabled(c, s, e)
    ensures Evolves(s.table, Next(c, s, e).table)
    ensures Forgets(c, e) || s.table.nextId <= Next(c, s, e).table.nextId
  {
    match e
    case Request(DeleteAccounts(ids)) => DeleteEvolves(s.table, ids, c.reusesIds);
    case Commit(CommitImport) => UpsertAllOk(s.table, BatchRows(c, s), s.jobs[s.worker.job].target.mode);
    case Commit(CommitAccounts(results)) => ApplyEvolves(s.table, results, s.now, s.intervalDays);
    case _ => TableKept(c, s, e);
  }
}
