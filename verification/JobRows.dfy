/**
 What single steps do to the rows of the job table, column by column: how a job begins, what an import reports,
 and how and when a job ends.
 */
module JobRows {
  import opened Prelude
  import opened Lines
  import opened Accounts
  import opened ImportPass
  import opened Engine
  import opened QueueSafety
  import opened SpoolSafety
  import opened LineFates

  /** A published upload is queued as an import of all its lines, with nothing done yet; its file stays. */
  lemma PublishQueues(c: Config, s: State, id: JobId, target: Target)
    requires CanUpload(c, s, PublishImport(id, target))
    ensures var t := UploadNext(c, s, PublishImport(id, target));
            && t.spool == s.spool && t.table == s.table && id in t.jobs
            && (forall j :: j != id ==> (j in t.jobs <==> j in s.jobs) && (j in s.jobs ==> t.jobs[j] == s.jobs[j]))
            && var b := t.jobs[id];
               && b.kind == ImportFile && b.status == Queued && b.createdAt == s.now && b.target == target
               && b.total == |LinesOf(s.uploads[id].data)| && b.cursor == 0 && b.processed == 0
               && b.succeeded == 0 && b.failed == 0 && b.skipped == 0 && !b.cancelRequested && b.finishedAt == None
  {
  }

  // ----- The end of a job

  predicate Over(job: Job) {
    job.status == Completed || job.status == Failed || job.status == Cancelled
  }

  /** The batch at hand is the job's last: the file is read to its end, or no account is left. */
  predicate LastBatch(c: Config, s: State, job: Job) {
    match s.worker
    case HasBatch(_, batch) => batch.eof
    case HasWork(_, work) => work == [] || |work| < c.workerBatch || job.processed + |work| >= job.total
    case _ => false
  }

  /** From `s` to `s'` by step `e`: how job `j` fares. */
  predicate Fares(c: Config, s: State, e: Step, s': State, j: JobId)
    requires j in s.jobs && j in s'.jobs
  {
    var a, b := s.jobs[j], s'.jobs[j];
    var mine := e.Commit? && Holds(s.worker, j);
    && (b.status == Failed <==> e == Take(FailJob) && Holds(s.worker, j))
    && (b.status == Cancelled <==> a.cancelRequested && (e == Take(Claim(j)) || mine))
    && (b.status == Completed <==> !a.cancelRequested && mine && LastBatch(c, s, a))
    && (Over(b) ==> b.finishedAt == Some(s.now))
    && (mine && !Over(b) ==> b.status == Queued)
  }

  lemma NotOverIsLive(job: Job)
    ensures Over(job) <==> !Live(job)
  {
    var x := job.status;
    assert x == Queued || x == Running || x == Completed || x == Failed || x == Cancelled;
  }

  lemma SameFares(c: Config, s: State, e: Step, s': State, j: JobId)
    requires j in s.jobs && !Over(s.jobs[j]) && !e.Take? && !e.Commit?
    requires j in s'.jobs && s'.jobs[j].status == s.jobs[j].status
    ensures Fares(c, s, e, s', j)
  {
  }

  lemma TakeFares(c: Config, s: State, t: TakeStep, j: JobId)
    requires CanTake(s, t) && j in s.jobs && !Over(s.jobs[j])
    ensures j in TakeNext(c, s, t).jobs && Fares(c, s, Take(t), TakeNext(c, s, t), j)
  {
  }

  lemma ImportFares(c: Config, s: State, j: JobId)
    requires CanCommit(c, s, CommitImport) && j in s.jobs && !Over(s.jobs[j])
    ensures var k := CommitImport; j in CommitNext(c, s, k).jobs && Fares(c, s, Commit(k), CommitNext(c, s, k), j)
  {
  }

  lemma WorkFares(c: Config, s: State, results: map<Id, AccountResult>, j: JobId)
    requires CanCommit(c, s, CommitAccounts(results)) && j in s.jobs && !Over(s.jobs[j])
    ensures var k := CommitAccounts(results);
            j in CommitNext(c, s, k).jobs && Fares(c, s, Commit(k), CommitNext(c, s, k), j)
  {
  }

  lemma UpkeepSame(c: Config, s: State, m: UpkeepStep, j: JobId)
    requires CanUpkeep(c, s, m) && j in s.jobs && Live(s.jobs[j]) && j in s.used
    ensures j in UpkeepNext(c, s, m).jobs && UpkeepNext(c, s, m).jobs[j] == s.jobs[j]
  {
    if m.SchedulerTick? {
      SchedulerCases(s, m.id, m.date, m.minute, m.dueMinute);
    }
  }

  /**
   How a job that is not over fares in any step: it fails only by being given up, is cancelled exactly where its flag
   is seen, and completed exactly by its last batch, at the time of that step.
   */
  lemma EndsNow(c: Config, s: State, e: Step, j: JobId)
    requires QueueOk(s) && Enabled(c, s, e) && j in s.jobs && !Over(s.jobs[j])
    ensures j in Next(c, s, e).jobs && Fares(c, s, e, Next(c, s, e), j)
  {
    assert RowOk(s, j);
    NotOverIsLive(s.jobs[j]);
    match e
    case Take(t) => TakeFares(c, s, t, j);
    case Commit(CommitImport) => ImportFares(c, s, j);
    case Commit(CommitAccounts(results)) => WorkFares(c, s, results, j);
    case Upload(u) =>
      JobsNotUploads(s);
      SameFares(c, s, e, Next(c, s, e), j);
    case Request(r) =>
      SameFares(c, s, e, Next(c, s, e), j);
    case Upkeep(m) =>
      UpkeepSame(c, s, m, j);
      SameFares(c, s, e, Next(c, s, e), j);
    case Life(l) =>
  }

  // ----- What an import reports

  /** A batch with rejected lines reports the first five of them by their line numbers; any other batch nothing new. */
  lemma BatchReports(c: Config, s: State)
    requires CanCommit(c, s, CommitImport)
    ensures var job, outs := s.jobs[s.worker.job], s.worker.batch.outs;
            var job' := CommitNext(c, s, CommitImport).jobs[s.worker.job];
            && (Rejections(outs) == {} ==> job'.summary == job.summary)
            && (Rejections(outs) != {} ==>
                  && job'.summary.LineErrors? && InOrder(job'.summary.errors, outs, job.processed)
                  && |job'.summary.errors| == if |Rejections(outs)| <= 5 then |Rejections(outs)| else 5)
  {
    ShowsFirstFive(s.worker.batch.outs, s.jobs[s.worker.job].processed);
  }
}
