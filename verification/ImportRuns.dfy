/**
 Imports over whole runs: the cursor invariant, the exact line total, and the refinement theorem. Whatever
 the batch size and wherever crashes fall, the committed table and counters are those of one pass over the
 lines processed so far.
 */
module ImportRuns {
  import opened Prelude
  import opened Lines
  import opened Accounts
  import opened ImportPass
  import opened Engine
  import opened QueueSafety

  /** The cursor invariant of one import row against the bytes that were uploaded. */
  predicate ImportOk(c: Config, job: Job, content: seq<byte>) {
    var all := Outcomes(c.rules, content);
    && 0 <= job.cursor <= |content| && IsBoundary(content, job.cursor)
    && job.processed <= job.total == |all|
    && OutcomesFrom(c.rules, content, job.cursor) == all[job.processed..]
    && job.succeeded + job.failed + job.skipped == job.processed
    && (job.status == Completed ==> job.processed == job.total)
    && (job.summary.LineErrors? ==> TrueErrors(all, job.summary.errors))
  }

  predicate ImportRowOk(c: Config, s: State, j: JobId)
    requires j in s.jobs
  {
    j in s.traces && (s.jobs[j].kind == ImportFile ==> ImportOk(c, s.jobs[j], s.traces[j].content))
  }

  /** Files hold what was uploaded, and the batch in hand is the one at the row's cursor. */
  predicate DataOk(c: Config, s: State) {
    && (forall j :: j in s.traces && j in s.spool ==> s.spool[j].data == s.traces[j].content)
    && (forall u :: u in s.uploads && u in s.spool ==> s.spool[u].data == s.uploads[u].data)
    && (s.worker.HasBatch? && s.worker.job in s.jobs && s.worker.job in s.traces ==>
          var cursor, content := s.jobs[s.worker.job].cursor, s.traces[s.worker.job].content;
          0 <= cursor <= |content| && s.worker.batch == BatchAt(c.rules, content, cursor))
  }

  predicate ImportsOk(c: Config, s: State) {
    DataOk(c, s) && forall j :: j in s.jobs ==> ImportRowOk(c, s, j)
  }

  // ----- One batch

  /** What the counters of the row become. */
  lemma CommittedCounters(c: Config, job: Job, t: Table, batch: Batch, next: Time, now: Time)
    ensures var job' := ImportedJob(c, job, t, batch, next, now);
            job'.succeeded + job'.failed + job'.skipped == job.succeeded + job.failed + job.skipped + |batch.outs|
  {
    var tally := Tally(t, job.succeeded, job.failed, job.skipped);
    BatchIsOnePass(c.rules, tally, batch.outs, job.target, next);
    OnePassCounts(c.rules, tally, batch.outs, job.target, Repeat(next, |batch.outs|));
  }

  /** The batch at a boundary `k` lines into the file leads to a boundary, and to the end exactly if it says so. */
  lemma BatchCut(rules: Rules, content: seq<byte>, pos: nat, k: nat)
    requires pos <= |content| && IsBoundary(content, pos) && k <= |Outcomes(rules, content)|
    requires OutcomesFrom(rules, content, pos) == Outcomes(rules, content)[k..]
    ensures var all, batch := Outcomes(rules, content), BatchAt(rules, content, pos);
            && batch.newOffset <= |content| && IsBoundary(content, batch.newOffset)
            && k + |batch.outs| <= |all| && all[k..k + |batch.outs|] == batch.outs
            && OutcomesFrom(rules, content, batch.newOffset) == all[k + |batch.outs|..]
            && (batch.eof ==> k + |batch.outs| == |all|)
  {
    var all, rest, batch := Outcomes(rules, content), OutcomesFrom(rules, content, pos), BatchAt(rules, content, pos);
    assert batch.outs == rest[..|batch.outs|];
    AdvanceDrops(rules, content, pos, |batch.outs|);
    assert rest[|batch.outs|..] == all[k + |batch.outs|..];
  }

  lemma BatchErrors(rules: Rules, content: seq<byte>, pos: nat, k: nat)
    requires pos <= |content| && IsBoundary(content, pos) && k <= |Outcomes(rules, content)|
    requires OutcomesFrom(rules, content, pos) == Outcomes(rules, content)[k..]
    ensures TrueErrors(Outcomes(rules, content), FirstErrors(BatchAt(rules, content, pos).outs, k))
  {
    BatchCut(rules, content, pos, k);
    ErrorsAreTrue(Outcomes(rules, content), k, BatchAt(rules, content, pos).outs);
  }

  lemma CommittedFields(c: Config, job: Job, t: Table, batch: Batch, next: Time, now: Time)
    requires job.status == Running
    ensures var job' := ImportedJob(c, job, t, batch, next, now);
            && job'.kind == job.kind && job'.target == job.target && job'.total == job.total
            && job'.cancelRequested == job.cancelRequested && job'.scope == job.scope
            && job'.cursor == batch.newOffset && job'.processed == job.processed + |batch.outs|
            && (job'.status == Completed <==> batch.eof && !job.cancelRequested)
            && (job'.status == Queued || Terminal(job'.status))
            && (job'.summary == job.summary || job'.summary == LineErrors(FirstErrors(batch.outs, job.processed)))
  {
  }

  /** Committing the batch at the cursor keeps the cursor invariant, and completes only at the last line. */
  lemma CommittedImportOk(
    c: Config, job: Job, job': Job, t: Table, batch: Batch, content: seq<byte>, next: Time, now: Time)
    requires ImportOk(c, job, content) && job.status == Running
    requires batch == BatchAt(c.rules, content, job.cursor)
    requires job' == ImportedJob(c, job, t, batch, next, now)
    ensures ImportOk(c, job', content) && job'.kind == job.kind
  {
    BatchCut(c.rules, content, job.cursor, job.processed);
    BatchErrors(c.rules, content, job.cursor, job.processed);
    CommittedCounters(c, job, t, batch, next, now);
    CommittedFields(c, job, t, batch, next, now);
  }

  lemma NewImportOk(c: Config, content: seq<byte>, target: Target, now: Time)
    ensures ImportOk(c, NewImportJob(|LinesOf(content)|, target, now), content)
  {
    assert Outcomes(c.rules, content)[0..] == Outcomes(c.rules, content);
  }

  // ----- Every step

  lemma ImportsUpload(c: Config, s: State, u: UploadStep)
    requires QueueOk(s) && ImportsOk(c, s) && CanUpload(c, s, u)
    ensures ImportsOk(c, UploadNext(c, s, u))
  {
    var s' := UploadNext(c, s, u);
    if u.PublishImport? {
      NewImportOk(c, s.uploads[u.id].data, u.target, s.now);
    }
    forall j | j in s'.jobs ensures ImportRowOk(c, s', j) {
      if j in s.jobs { assert RowOk(s, j) && ImportRowOk(c, s, j); }
    }
    HandNotUploaded(s);
  }

  lemma HandNotUploaded(s: State)
    requires QueueOk(s)
    ensures s.worker.HasBatch? ==> s.worker.job in s.jobs && s.worker.job !in s.uploads
  {
    if s.worker.HasBatch? {
      assert RowOk(s, s.worker.job);
    }
  }

  /** One row is put whose import invariant is known; nothing else that matters changes. */
  lemma ImportsPut(c: Config, s: State, s': State, id: JobId)
    requires QueueOk(s) && ImportsOk(c, s) && id in s.jobs && id in s'.jobs
    requires s'.jobs == s.jobs[id := s'.jobs[id]] && s'.spool == s.spool && s'.uploads == s.uploads
    requires s'.traces.Keys == s.traces.Keys
    requires forall j :: j in s.traces ==> s'.traces[j].content == s.traces[j].content
    requires ImportRowOk(c, s', id)
    requires !s'.worker.HasBatch? || (s'.worker == s.worker && s'.jobs[id].cursor == s.jobs[id].cursor)
    ensures ImportsOk(c, s')
  {
    forall j | j in s'.jobs ensures ImportRowOk(c, s', j) {
      assert ImportRowOk(c, s, j);
      assert j in s'.traces.Keys;
    }
    forall j | j in s'.traces && j in s'.spool ensures s'.spool[j].data == s'.traces[j].content {
      assert j in s.traces.Keys;
    }
  }

  lemma ImportsAdd(c: Config, s: State, id: JobId, job: Job, snapshot: set<Id>)
    requires QueueOk(s) && ImportsOk(c, s) && id !in s.used && job.kind != ImportFile
    ensures ImportsOk(c, AddAccountJob(s, id, job, snapshot))
  {
    var s' := AddAccountJob(s, id, job, snapshot);
    forall j | j in s'.jobs ensures ImportRowOk(c, s', j) {
      if j in s.jobs { assert RowOk(s, j) && ImportRowOk(c, s, j); }
    }
    if s.worker.HasBatch? { assert RowOk(s, s.worker.job); }
  }

  lemma ImportsRequest(c: Config, s: State, r: RequestStep)
    requires QueueOk(s) && ImportsOk(c, s) && CanRequest(c, s, r)
    ensures ImportsOk(c, RequestNext(c, s, r))
  {
    match r
    case CreateAccountJob(id, kind, scope) =>
      var snapshot := Snapshot(s.table, scope, s.now);
      ImportsAdd(c, s, id, NewAccountJob(kind, scope, if scope.Selected? then 100 else 40, snapshot, s.now), snapshot);
    case CancelJob(id) =>
      assert ImportRowOk(c, s, id);
      ImportsPut(c, s, RequestNext(c, s, r), id);
    case _ =>
      ImportsSame(c, s, RequestNext(c, s, r));
  }

  /** Nothing the import invariant looks at has changed, except that the worker may have put down its batch. */
  lemma ImportsSame(c: Config, s: State, s': State)
    requires ImportsOk(c, s) && s'.jobs == s.jobs && s'.traces == s.traces && s'.uploads == s.uploads
    requires s'.spool.Keys <= s.spool.Keys && forall j :: j in s'.spool ==> s'.spool[j] == s.spool[j]
    requires s'.worker == s.worker || !s'.worker.HasBatch?
    ensures ImportsOk(c, s')
  {
    forall j | j in s'.jobs ensures ImportRowOk(c, s', j) {
      assert ImportRowOk(c, s, j);
    }
  }

  lemma ImportsReadBatch(c: Config, s: State)
    requires QueueOk(s) && ImportsOk(c, s) && CanTake(s, ReadBatch)
    ensures ImportsOk(c, TakeNext(c, s, ReadBatch))
  {
    var s' := TakeNext(c, s, ReadBatch);
    var id := s.worker.job;
    assert ImportRowOk(c, s, id);
    assert s.spool[id].data == s.traces[id].content;
    ImportsSame(c, s, s'.(worker := Idle));
    forall j | j in s'.jobs ensures ImportRowOk(c, s', j) {
      assert ImportRowOk(c, s, j);
    }
  }

  /** Claiming or failing an import changes neither its cursor nor its counters. */
  lemma ImportsTouched(c: Config, job: Job, job': Job, content: seq<byte>)
    requires ImportOk(c, job, content)
    requires job' == job.(status := job'.status, finishedAt := job'.finishedAt, summary := job'.summary)
    requires job'.status != Completed && (job'.summary == job.summary || !job'.summary.LineErrors?)
    ensures ImportOk(c, job', content)
  {
  }

  lemma ImportsTake(c: Config, s: State, t: TakeStep)
    requires QueueOk(s) && ImportsOk(c, s) && CanTake(s, t)
    ensures ImportsOk(c, TakeNext(c, s, t))
  {
    match t
    case ReadBatch => ImportsReadBatch(c, s);
    case Load => ImportsSame(c, s, TakeNext(c, s, t));
    case Claim(id) => ImportsRetake(c, s, TakeNext(c, s, t), id);
    case FailJob => ImportsRetake(c, s, TakeNext(c, s, t), s.worker.job);
  }

  lemma ImportsRetake(c: Config, s: State, s': State, id: JobId)
    requires QueueOk(s) && ImportsOk(c, s) && id in s.jobs && id in s'.jobs
    requires s' == s.(jobs := s.jobs[id := s'.jobs[id]], worker := s'.worker) && !s'.worker.HasBatch?
    requires var job, job' := s.jobs[id], s'.jobs[id];
             && job' == job.(status := job'.status, finishedAt := job'.finishedAt, summary := job'.summary)
             && job'.status != Completed && (job'.summary == job.summary || !job'.summary.LineErrors?)
    ensures ImportsOk(c, s')
  {
    assert ImportRowOk(c, s, id);
    if s.jobs[id].kind == ImportFile {
      ImportsTouched(c, s.jobs[id], s'.jobs[id], s.traces[id].content);
    }
    ImportsPut(c, s, s', id);
  }

  /** What committing an import batch changes. */
  predicate Imported(c: Config, s: State, s': State)
    requires s.worker.HasBatch? && s.worker.job in s.jobs && s.worker.job in s.traces
  {
    var id, next := s.worker.job, s.now + s.intervalDays * DAY;
    && s' == s.(table := s'.table, jobs := s'.jobs, traces := s'.traces, worker := s'.worker)
    && s'.jobs == s.jobs[id := ImportedJob(c, s.jobs[id], s.table, s.worker.batch, next, s.now)]
    && s'.table == UpsertAll(s.table, Rows(c.rules, s.worker.batch.outs, s.jobs[id].target, next),
                             s.jobs[id].target.mode)
    && s'.traces == s.traces[id := s.traces[id].(batches := s.traces[id].batches + 1)]
    && (s'.worker == Idle || s'.worker == Unlinking(id))
  }

  lemma CommitImports(c: Config, s: State)
    requires CanCommit(c, s, CommitImport)
    ensures Imported(c, s, CommitImportStep(c, s))
  {
  }

  lemma ImportedRowOk(c: Config, s: State, s': State, job: Job, content: seq<byte>)
    requires s.worker.HasBatch? && s.worker.job in s.jobs && s.worker.job in s.traces && Imported(c, s, s')
    requires job == s.jobs[s.worker.job] && job.status == Running && ImportOk(c, job, content)
    requires s.worker.batch == BatchAt(c.rules, content, job.cursor)
    ensures ImportOk(c, s'.jobs[s.worker.job], content) && s'.jobs[s.worker.job].kind == job.kind
  {
    CommittedImportOk(c, job, s'.jobs[s.worker.job], s.table, s.worker.batch, content,
                      s.now + s.intervalDays * DAY, s.now);
  }

  lemma ImportsCommitImport(c: Config, s: State, s': State, job: Job, content: seq<byte>)
    requires QueueOk(s) && ImportsOk(c, s) && s.worker.HasBatch?
    requires s.worker.job in s.jobs && s.worker.job in s.traces && Imported(c, s, s')
    requires job == s.jobs[s.worker.job] && content == s.traces[s.worker.job].content
    requires job.status == Running && ImportOk(c, job, content)
    requires s.worker.batch == BatchAt(c.rules, content, job.cursor)
    ensures ImportsOk(c, s')
  {
    var id := s.worker.job;
    ImportedRowOk(c, s, s', job, content);
    ImportsPutRow(c, s, s', id, s'.jobs[id]);
  }

  lemma HandAtCursor(c: Config, s: State, job: Job, content: seq<byte>)
    requires QueueOk(s) && ImportsOk(c, s) && s.worker.HasBatch?
    requires s.worker.job in s.jobs && s.worker.job in s.traces
    requires job == s.jobs[s.worker.job] && content == s.traces[s.worker.job].content
    ensures job.status == Running && job.kind == ImportFile && ImportOk(c, job, content)
    ensures s.worker.batch == BatchAt(c.rules, content, job.cursor)
  {
    assert ImportRowOk(c, s, s.worker.job);
  }

  lemma ImportsPutRow(c: Config, s: State, s': State, id: JobId, job: Job)
    requires QueueOk(s) && ImportsOk(c, s) && id in s.jobs && id in s.traces
    requires s'.jobs == s.jobs[id := job] && s'.spool == s.spool && s'.uploads == s.uploads
    requires s'.traces.Keys == s.traces.Keys
    requires forall j :: j in s.traces ==> s'.traces[j].content == s.traces[j].content
    requires job.kind == ImportFile ==> ImportOk(c, job, s.traces[id].content)
    requires !s'.worker.HasBatch?
    ensures ImportsOk(c, s')
  {
    assert id in s'.traces.Keys;
    ImportsPut(c, s, s', id);
  }

  lemma ImportsCommitAccounts(c: Config, s: State, results: map<Id, AccountResult>)
    requires QueueOk(s) && ImportsOk(c, s) && CanCommit(c, s, CommitAccounts(results))
    ensures ImportsOk(c, CommitAccountsStep(c, s, results))
  {
    assert RowOk(s, s.worker.job);
    ImportsPut(c, s, CommitAccountsStep(c, s, results), s.worker.job);
  }

  lemma ImportsUpkeep(c: Config, s: State, m: UpkeepStep)
    requires QueueOk(s) && ImportsOk(c, s) && CanUpkeep(c, s, m) && !m.SchedulerTick?
    ensures ImportsOk(c, UpkeepNext(c, s, m))
  {
    var s' := UpkeepNext(c, s, m);
    if m == ListActive {
      forall j | j in s'.jobs ensures ImportRowOk(c, s', j) {
        assert ImportRowOk(c, s, j);
      }
    } else {
      ImportsSame(c, s, s');
    }
  }

  lemma ImportsScheduled(c: Config, s: State, s': State, id: JobId)
    requires QueueOk(s) && ImportsOk(c, s) && id !in s.used && ScheduledFrom(s, s', id)
    ensures ImportsOk(c, s')
  {
    ImportsAdd(c, s, id, ScheduledJob(s), Snapshot(s.table, Due, s.now));
    if s' == s.(schedule := s'.schedule) {
      ImportsSame(c, s, s');
    } else {
      ImportsSame(c, AddAccountJob(s, id, ScheduledJob(s), Snapshot(s.table, Due, s.now)), s');
    }
  }

  lemma ImportsLife(c: Config, s: State, l: LifeStep)
    requires QueueOk(s) && ImportsOk(c, s)
    ensures ImportsOk(c, LifeNext(s, l))
  {
    var s' := LifeNext(s, l);
    forall j | j in s'.jobs ensures ImportRowOk(c, s', j) {
      assert ImportRowOk(c, s, j);
    }
  }

  lemma ImportsStep(c: Config, s: State, e: Step)
    requires QueueOk(s) && ImportsOk(c, s) && Enabled(c, s, e)
    ensures ImportsOk(c, Next(c, s, e))
  {
    match e
    case Upload(u) => ImportsUpload(c, s, u);
    case Request(r) => ImportsRequest(c, s, r);
    case Take(t) => ImportsTake(c, s, t);
    case Commit(CommitImport) =>
      CommitImports(c, s);
      HandAtCursor(c, s, s.jobs[s.worker.job], s.traces[s.worker.job].content);
      ImportsCommitImport(c, s, CommitImportStep(c, s), s.jobs[s.worker.job], s.traces[s.worker.job].content);
    case Commit(CommitAccounts(results)) => ImportsCommitAccounts(c, s, results);
    case Upkeep(m) =>
      if m.SchedulerTick? {
        SchedulerCases(s, m.id, m.date, m.minute, m.dueMinute);
        ImportsScheduled(c, s, UpkeepNext(c, s, m), m.id);
      } else {
        ImportsUpkeep(c, s, m);
      }
    case Life(l) => ImportsLife(c, s, l);
  }

  lemma {:induction false} RunImportsOk(c: Config, s: State, steps: seq<Step>)
    requires QueueOk(s) && ImportsOk(c, s) && Possible(c, s, steps)
    ensures QueueOk(After(c, s, steps)) && ImportsOk(c, After(c, s, steps))
    decreases |steps|
  {
    RunQueueOk(c, s, steps);
    if steps != [] {
      var before := steps[..|steps| - 1];
      RunImportsOk(c, s, before);
      ImportsStep(c, After(c, s, before), steps[|steps| - 1]);
    }
  }

  /**
   In every reachable state an import's cursor is a line boundary of the uploaded file, `processed` is the
   number of lines before it, the counters add up to it, reported line numbers are true, and a completed
   import has processed exactly its total, which is the number of lines of the file.
   */
  lemma CursorInvariant(c: Config, s: State, steps: seq<Step>, t: State, j: JobId)
    requires Initial(s) && Possible(c, s, steps) && t == After(c, s, steps)
    requires j in t.jobs && t.jobs[j].kind == ImportFile
    ensures && j in t.traces
            && var job, content := t.jobs[j], t.traces[j].content;
            && 0 <= job.cursor <= |content| && IsBoundary(content, job.cursor)
            && job.processed == |LinesOf(content[..job.cursor])|
            && job.processed == job.succeeded + job.failed + job.skipped
            && job.total == |LinesOf(content)|
            && (job.status == Completed ==> job.processed == job.total)
            && (job.summary.LineErrors? ==> TrueErrors(Outcomes(c.rules, content), job.summary.errors))
  {
    QueueInitial(s);
    RunImportsOk(c, s, steps);
    assert ImportRowOk(c, t, j);
    BoundaryCountsPrefix(c.rules, t.traces[j].content, t.jobs[j].cursor, t.jobs[j].processed);
  }
}
