/**
 The worker's and the web process's sessions as they execute, on the state they update in place. Each method is
 one atomic session or file operation, and is proved to take exactly the corresponding step of the state machine;
 the sessions of the two processes may be interleaved in any order.
 */
module Service {
  import opened Prelude
  import opened Keyset
  import opened Lines
  import opened AccountLine
  import opened Accounts
  import opened ImportPass
  import opened Engine
  import opened QueueSafety
  import opened Coverage
  import opened Scopes
  import opened SpoolSafety
  import opened ImportRuns

  /** What reading a batch leaves in the worker's local variables. */
  function ReadOf(batch: Batch, processed: nat): ReadResult {
    ReadResult(AcceptedAccounts(batch.outs), |batch.outs|, RejectedCount(batch.outs),
               FirstErrors(batch.outs, processed),
               batch.newOffset, batch.eof)
  }

  /** The rows of the statement, one for each parsed account. */
  method MakeRows(rules: Rules, parsed: seq<ParsedAccount>, target: Target, next: Time) returns (rows: seq<Row>)
    ensures |rows| == |parsed| && forall k :: 0 <= k < |rows| ==> rows[k] == RowOf(rules, parsed[k], target, next)
  {
    rows := [];
    for i := 0 to |parsed|
      invariant |rows| == i && forall k :: 0 <= k < i ==> rows[k] == RowOf(rules, parsed[k], target, next)
    {
      rows := rows + [RowOf(rules, parsed[i], target, next)];
    }
  }

  lemma RowsOfRead(rules: Rules, outs: seq<LineOutcome>, target: Target, next: Time, rows: seq<Row>)
    requires |rows| == |AcceptedAccounts(outs)|
    requires forall k :: 0 <= k < |rows| ==> rows[k] == RowOf(rules, AcceptedAccounts(outs)[k], target, next)
    ensures rows == Rows(rules, outs, target, next)
  {
    RowsLength(rules, outs, target, next);
  }

  class Processes {
    const c: Config
    var jobs: map<JobId, Job>
    var table: Table
    var spool: map<JobId, SpoolFile>
    var uploads: map<JobId, SpoolFile>
    var now: Time
    var intervalDays: int
    var schedule: Schedule
    ghost var traces: map<JobId, Trace>
    ghost var gone: set<(JobId, Id)>
    ghost var used: set<JobId>
    /** Where the worker stands between its sessions. */
    var worker: Worker

    constructor (config: Config, s: State)
      ensures c == config && View() == s
    {
      c := config;
      jobs, table, spool, uploads, now := s.jobs, s.table, s.spool, s.uploads, s.now;
      intervalDays, schedule, worker := s.intervalDays, s.schedule, s.worker;
      traces, gone, used := s.traces, s.gone, s.used;
    }

    ghost function View(): State
      reads this
    {
      State(jobs, table, spool, uploads, traces, gone, used, now, intervalDays, schedule, worker)
    }

    // ----- The worker's sessions

    /** After a restart, running jobs are queued again. */
    method RecoverStaleJobs()
      requires worker == Down
      modifies this`jobs, this`worker
      ensures View() == LifeNext(old(View()), Recover)
    {
      jobs := map j | j in jobs :: Requeued(jobs[j]);
      worker := Idle;
    }

    /** Takes the queued job first in line; a cancelled one is only closed. */
    method ClaimJob() returns (first: Option<JobId>, claimed: bool)
      requires QueueOk(View()) && worker == Idle
      modifies this`jobs, this`worker
      ensures first == None <==> forall j :: j in old(jobs) ==> old(jobs)[j].status != Queued
      ensures first == None ==> View() == old(View()) && !claimed
      ensures first.Some? ==>
                && CanTake(old(View()), Claim(first.value)) && View() == ClaimStep(old(View()), first.value)
                && old(jobs)[first.value].status == Queued
                && (forall j :: j in old(jobs) && old(jobs)[j].status == Queued ==>
                      || old(jobs)[j].priority < old(jobs)[first.value].priority
                      || (old(jobs)[j].priority == old(jobs)[first.value].priority
                          && old(jobs)[first.value].createdAt <= old(jobs)[j].createdAt))
                && (claimed <==> !old(jobs)[first.value].cancelRequested)
    {
      var queued := set j | j in jobs && jobs[j].status == Queued;
      if queued == {} {
        assert forall j :: j in jobs && jobs[j].status == Queued ==> j in queued;
        return None, false;
      }
      var id := FirstByPriority(jobs, queued);
      var job := jobs[id];
      if job.cancelRequested {
        jobs := jobs[id := job.(status := Cancelled, finishedAt := Some(now))];
        worker := AfterTerminal(job, id);
      } else {
        jobs := jobs[id := job.(status := Running)];
        worker := Claimed(id);
      }
      first, claimed := Some(id), !job.cancelRequested;
    }

    /** The first half of an import batch: reads the next lines of the file from the row's offset. */
    method ReadBatchOf(id: JobId) returns (read: ReadResult)
      requires CanTake(View(), ReadBatch) && worker.job == id
      modifies this`worker
      ensures View() == TakeNext(c, old(View()), ReadBatch)
      ensures read == ReadOf(worker.batch, jobs[id].processed)
    {
      var handle := new SpoolHandle(spool[id].data);
      read := ReadImportBatch(c.rules, handle, jobs[id].cursor, jobs[id].processed);
      worker := HasBatch(id, BatchAt(c.rules, spool[id].data, jobs[id].cursor));
    }

    /** The upsert of one batch; a refused statement changes nothing. */
    method StoreAccounts(rows: seq<Row>, mode: DuplicateMode) returns (r: UpsertOutcome)
      requires TableOk(table)
      modifies this`table
      ensures r.Stored? <==> Accepts(c.dialect, mode, rows)
      ensures r.Stored? ==> table == UpsertAll(old(table), rows, mode)
      ensures r.Stored? ==> r.inserted == Inserted(old(table), rows, mode) && r.inserted + r.skipped == |rows|
      ensures r.CardinalityViolation? ==> table == old(table)
    {
      var store := new AccountStore(table);
      r := store.UpsertAccounts(c.dialect, rows, mode);
      table := store.View();
    }

    method RowsToStore(id: JobId, read: ReadResult) returns (rows: seq<Row>)
      requires worker.HasBatch? && worker.job == id && id in jobs && read == ReadOf(worker.batch, jobs[id].processed)
      ensures rows == BatchRows(c, View())
    {
      rows := MakeRows(c.rules, read.parsed, jobs[id].target, now + intervalDays * DAY);
      RowsOfRead(c.rules, worker.batch.outs, jobs[id].target, now + intervalDays * DAY, rows);
    }

    /** The second half: stores the accounts and moves the row on, all or nothing. */
    method CommitImportBatch(id: JobId, read: ReadResult) returns (committed: bool)
      requires TableOk(table) && worker.HasBatch? && worker.job == id && id in jobs && id in traces
      requires read == ReadOf(worker.batch, jobs[id].processed)
      modifies this
      ensures committed <==> CanCommit(c, old(View()), CommitImport)
      ensures View() == if committed then CommitImportStep(c, old(View())) else old(View())
    {
      ghost var s := View();
      var job := jobs[id];
      var rows := RowsToStore(id, read);
      CommitAllowed(c, s, rows);
      var r := StoreAccounts(rows, job.target.mode);
      if r == CardinalityViolation {
        return false;
      }
      CommitPlan(c, s, rows, r.inserted, r.skipped);
      var updated := Booked(job, read, r.inserted, r.skipped, now);
      jobs := jobs[id := updated];
      traces := traces[id := traces[id].(batches := traces[id].batches + 1)];
      worker := if Terminal(updated.status) then Unlinking(id) else Idle;
      committed := true;
    }

    /** Loads the next accounts of a job. */
    method LoadWorkOf(id: JobId) returns (work: seq<Work>)
      requires CanTake(View(), Load) && worker.job == id
      modifies this`worker
      ensures View() == TakeNext(c, old(View()), Load) && work == worker.work
    {
      work := LoadWork(c, table, jobs[id], now);
      worker := HasWork(id, work);
    }

    /** Books the results of the loaded accounts that still exist, and moves the row on. */
    method CommitAccountBatch(id: JobId, work: seq<Work>, results: map<Id, AccountResult>)
      requires CanCommit(c, View(), CommitAccounts(results)) && worker == HasWork(id, work) && Increasing(IdsOf(work))
      modifies this
      ensures View() == CommitAccountsStep(c, old(View()), results)
    {
      var rows, success, failed := ApplyResults(table, work, results, now, intervalDays);
      var updated := BookedWork(c, jobs[id], work, success, failed, now);
      WorkPlan(c, View(), results, success, failed);
      traces := traces[id := BookedTrace(View(), id, work)];
      table := rows;
      jobs := jobs[id := updated];
      worker := Idle;
    }

    method FailJobOf(id: JobId)
      requires CanTake(View(), FailJob) && worker.job == id
      modifies this
      ensures View() == TakeNext(c, old(View()), FailJob)
    {
      var job := jobs[id];
      jobs := jobs[id := job.(status := Failed, finishedAt := Some(now), summary := Exception)];
      worker := AfterTerminal(job, id);
    }

    /** Reading and committing; a refused batch fails the job. */
    method ReadAndCommit(id: JobId) returns (ghost steps: seq<Step>)
      requires TableOk(table) && CanTake(View(), ReadBatch) && worker.job == id && id in traces
      modifies this
      ensures steps == ImportSteps(c, old(View()))
      ensures Possible(c, old(View()), steps) && View() == After(c, old(View()), steps)
      ensures worker == Idle || worker == Unlinking(id)
    {
      ghost var s := View();
      var read := ReadBatchOf(id);
      steps := Then(c, s, [], Take(ReadBatch));
      var committed := CommitImportBatch(id, read);
      if committed {
        steps := Then(c, s, steps, Commit(CommitImport));
      } else {
        FailJobOf(id);
        steps := Then(c, s, steps, Take(FailJob));
      }
    }

    /**
     One import batch from reading to commit. The job is failed exactly if its file is missing or the database
     refuses the batch.
     */
    method ProcessImport(id: JobId) returns (ghost steps: seq<Step>)
      requires QueueOk(View()) && ImportsOk(c, View()) && TableOk(table)
      requires worker == Claimed(id) && id in jobs && jobs[id].kind == ImportFile
      modifies this
      ensures steps == ImportSteps(c, old(View())) && (steps == [Take(FailJob)] <==> id !in old(spool))
      ensures Possible(c, old(View()), steps) && View() == After(c, old(View()), steps)
      ensures worker == Idle || worker == Unlinking(id)
    {
      ghost var s := View();
      ReadyToRead(c, s);
      if id in spool {
        steps := ReadAndCommit(id);
      } else {
        FailJobOf(id);
        steps := Then(c, s, [], Take(FailJob));
      }
    }

    /** One batch of account work, each loaded account with what the endpoint and its mailbox answer. */
    method ProcessAccountJob(id: JobId, answer: Work -> AccountResult)
      returns (ghost results: map<Id, AccountResult>, ghost steps: seq<Step>)
      requires QueueOk(View()) && CoverageOk(c, View()) && forall w :: Producible(answer(w))
      requires worker == Claimed(id) && id in jobs && jobs[id].kind != ImportFile
      modifies this
      ensures AnswersTo(results, LoadWork(c, old(table), old(jobs)[id], old(now)), answer)
      ensures NextBatch(old(table), old(jobs)[id], old(now), c.workerBatch,
                        LoadWork(c, old(table), old(jobs)[id], old(now)))
      ensures steps == [Take(Load), Commit(CommitAccounts(results))]
      ensures Possible(c, old(View()), steps) && View() == After(c, old(View()), steps)
      ensures worker == Idle
    {
      ghost var s := View();
      var work := LoadWorkOf(id);
      LoadsNextBatch(c, s.table, s.jobs[id], s.now);
      LoadedReady(c, s, work);
      steps := Then(c, s, [], Take(Load));
      var answered := Answered(work, answer);
      results := answered;
      CommitAccountBatch(id, work, answered);
      steps := Then(c, s, steps, Commit(CommitAccounts(results)));
    }

    /** Removes a terminal import's file; an I/O error is swallowed. */
    method RemoveImportSpool(id: JobId, ioError: bool)
      requires worker == Unlinking(id)
      modifies this`spool, this`worker
      ensures View() == UpkeepNext(c, old(View()), Unlink(!ioError))
    {
      if !ioError {
        spool := spool - {id};
      }
      worker := Idle;
    }

    // ----- Maintenance and the scheduler

    /** The maintenance session: old jobs go, and the live imports are listed. */
    method ListActiveImports() returns (active: set<JobId>)
      requires worker == Idle
      modifies this`jobs, this`worker
      ensures View() == UpkeepNext(c, old(View()), ListActive) && worker == Listed(active, now)
    {
      active := set j | j in jobs && LiveImport(jobs[j]);
      jobs := Unexpired(c, jobs, now);
      worker := Listed(active, now);
    }

    method FixSweepCutoff() returns (cutoff: Time)
      requires CanUpkeep(c, View(), FixCutoff)
      modifies this`worker
      ensures View() == UpkeepNext(c, old(View()), FixCutoff) && cutoff == worker.cutoff
    {
      cutoff := now - SWEEP_AGE;
      worker := Sweeping(worker.active, worker.listedAt, cutoff);
    }

    /** The sweep's loop over the directory: it removes every file that is old and not needed, one by one. */
    method SweepSpool(active: set<JobId>, cutoff: Time, listing: seq<JobId>) returns (ghost steps: seq<Step>)
      requires worker.Sweeping? && worker.active == active && worker.cutoff == cutoff
      modifies this`spool
      ensures Possible(c, old(View()), steps) && View() == After(c, old(View()), steps)
      ensures spool == Swept(old(spool), active, cutoff, listing)
    {
      ghost var s := View();
      steps := [];
      assert Swept(spool, active, cutoff, []) == spool;
      for i := 0 to |listing|
        invariant Possible(c, s, steps) && View() == After(c, s, steps)
        invariant spool == Swept(s.spool, active, cutoff, listing[..i])
      {
        var name := listing[i];
        SweptSnoc(s.spool, active, cutoff, listing[..i], name);
        assert listing[..i + 1] == listing[..i] + [name];
        if name in spool && name !in active && spool[name].written < cutoff {
          spool := spool - {name};
          steps := Then(c, s, steps, Upkeep(SweepFile(name)));
        }
      }
      assert listing[..|listing|] == listing;
    }

    /** The session and the cutoff of a sweep. */
    method BeginSweep() returns (active: set<JobId>, cutoff: Time, ghost steps: seq<Step>)
      requires worker == Idle && c.sweepLag >= 0
      modifies this`jobs, this`worker
      ensures Possible(c, old(View()), steps) && View() == After(c, old(View()), steps)
      ensures worker == Sweeping(active, now, cutoff)
      ensures active == ActiveImports(old(View())) && cutoff == now - SWEEP_AGE
      ensures jobs == Unexpired(c, old(jobs), now) && steps == [Upkeep(ListActive), Upkeep(FixCutoff)]
    {
      SweepBegins(c, View());
      active := ListActiveImports();
      cutoff := FixSweepCutoff();
      steps := [Upkeep(ListActive), Upkeep(FixCutoff)];
    }

    method EndOfSweep()
      requires worker.Sweeping?
      modifies this`worker
      ensures View() == UpkeepNext(c, old(View()), EndSweep)
    {
      worker := Idle;
    }

    /** Maintenance: the session, then the sweep of the directory with a cutoff an hour back. */
    method MaintenanceTick(listing: seq<JobId>) returns (ghost steps: seq<Step>)
      requires worker == Idle && c.sweepLag >= 0
      modifies this`jobs, this`spool, this`worker
      ensures Possible(c, old(View()), steps) && View() == After(c, old(View()), steps) && worker == Idle
      ensures |steps| >= 1 && steps[0] == Upkeep(ListActive)
      ensures forall id :: id in spool <==>
                && id in old(spool)
                && !(id in listing && old(spool)[id].written < now - 3600 && !IsWaitingImport(old(jobs), id))
      ensures forall id :: id in spool ==> spool[id] == old(spool)[id]
      ensures forall j :: j in jobs <==> j in old(jobs) && !IsOutdated(old(jobs)[j], now - c.retention)
      ensures forall j :: j in jobs ==> jobs[j] == old(jobs)[j]
    {
      ghost var s := View();
      var active, cutoff;
      active, cutoff, steps := BeginSweep();
      ghost var swept := SweepSpool(active, cutoff, listing);
      Compose(c, s, steps, swept);
      steps := steps + swept;
      EndOfSweep();
      steps := Then(c, s, steps, Upkeep(EndSweep));
      forall id ensures id in ActiveImports(s) <==> IsWaitingImport(s.jobs, id) {
        WaitingImports(s, id);
      }
    }

    /** What the worker does before its loop: it queues again what a predecessor was running, and tidies up. */
    method StartUp(listing: seq<JobId>) returns (ghost steps: seq<Step>)
      requires worker == Down && c.sweepLag >= 0
      modifies this`jobs, this`spool, this`worker
      ensures Possible(c, old(View()), steps) && View() == After(c, old(View()), steps) && worker == Idle
      ensures forall j :: j in jobs ==>
                && j in old(jobs)
                && if old(jobs)[j].status == Running
                   then jobs[j] == old(jobs)[j].(status := Queued, summary := Resumed)
                   else jobs[j] == old(jobs)[j]
      ensures forall j :: j in old(jobs) && Live(old(jobs)[j]) ==> j in jobs
    {
      ghost var s := View();
      RecoverStaleJobs();
      steps := Then(c, s, [], Life(Recover));
      ghost var more := MaintenanceTick(listing);
      Compose(c, s, steps, more);
      steps := steps + more;
    }

    /** One tick of the daily scheduler, at the given local date and minute of the day. */
    method Tick(id: JobId, date: int, minute: int, dueMinute: int)
      requires CanUpkeep(c, View(), SchedulerTick(id, date, minute, dueMinute))
      modifies this
      ensures View() == SchedulerStep(old(View()), id, date, minute, dueMinute)
    {
      schedule := schedule.(lastSeen := date);
      if minute < dueMinute || schedule.marker == Some(date) {
        return;
      }
      var existing := exists j :: j in jobs && LiveDueRefresh(jobs[j]);
      var snapshot := Snapshot(table, Due, now);
      if !existing && snapshot != {} {
        AddJob(id, NewAccountJob(RefreshTokens, Due, SCHEDULED, snapshot, now), snapshot);
        schedule := schedule.(dates := schedule.dates + [date]);
      }
      schedule := schedule.(marker := Some(date));
    }

    method AddJob(id: JobId, job: Job, snapshot: set<Id>)
      modifies this`jobs, this`traces, this`used
      ensures View() == AddAccountJob(old(View()), id, job, snapshot)
    {
      jobs := jobs[id := job];
      traces := traces[id := Trace([], snapshot, [], 0, 0, {})];
      used := used + {id};
    }

    /** The claimed job's batch, of either kind. */
    method ProcessClaimed(id: JobId, answer: Work -> AccountResult) returns (ghost steps: seq<Step>)
      requires QueueOk(View()) && ImportsOk(c, View()) && CoverageOk(c, View()) && forall w :: Producible(answer(w))
      requires worker == Claimed(id) && id in jobs
      modifies this
      ensures BatchSteps(c, old(View()), id, answer, steps)
      ensures Possible(c, old(View()), steps) && View() == After(c, old(View()), steps)
      ensures worker == Idle || worker == Unlinking(id)
    {
      if jobs[id].kind == ImportFile {
        steps := ProcessImport(id);
      } else {
        ghost var results;
        results, steps := ProcessAccountJob(id, answer);
      }
    }

    /**
     One pass of the worker's loop over the queue: the first job in line is claimed, its next batch done as
     `batch`, and the file of an ended import removed. Nothing happens if nothing is queued.
     */
    method WorkOnce(answer: Work -> AccountResult, ioError: bool)
      returns (first: Option<JobId>, ghost batch: seq<Step>, ghost steps: seq<Step>)
      requires QueueOk(View()) && ImportsOk(c, View()) && CoverageOk(c, View()) && forall w :: Producible(answer(w))
      requires worker == Idle
      modifies this
      ensures first == None <==> forall j :: j in old(jobs) ==> old(jobs)[j].status != Queued
      ensures first.Some? ==> CanTake(old(View()), Claim(first.value))
      ensures PassSteps(c, old(View()), first, answer, ioError, batch, steps)
      ensures Possible(c, old(View()), steps) && View() == After(c, old(View()), steps) && worker == Idle
    {
      ghost var s := View();
      var claimed;
      first, claimed := ClaimJob();
      batch, steps := [], [];
      if first.Some? {
        steps := Then(c, s, [], Take(Claim(first.value)));
        ClaimedOk(c, s, first.value);
        if claimed {
          batch := ProcessClaimed(first.value, answer);
          Compose(c, s, steps, batch);
        }
        steps := steps + batch;
        if worker.Unlinking? {
          RemoveImportSpool(worker.job, ioError);
          steps := Then(c, s, steps, Upkeep(Unlink(!ioError)));
        }
      }
    }

    /** The scheduler's part of a turn of the loop. */
    method TickIfDue(tick: Option<TickAt>) returns (ghost steps: seq<Step>)
      requires worker == Idle
      requires tick.Some? ==> CanUpkeep(c, View(), tick.value.Step())
      modifies this
      ensures Possible(c, old(View()), steps) && View() == After(c, old(View()), steps) && worker == Idle
      ensures steps == if tick.Some? then [Upkeep(tick.value.Step())] else []
    {
      ghost var s := View();
      steps := [];
      if tick.Some? {
        Tick(tick.value.id, tick.value.date, tick.value.minute, tick.value.dueMinute);
        steps := Then(c, s, [], Upkeep(tick.value.Step()));
      }
    }

    /** The timers of the loop: a scheduler tick and maintenance, whichever are due. */
    method Timers(tick: Option<TickAt>, listing: Option<seq<JobId>>) returns (ghost steps: seq<Step>)
      requires worker == Idle && c.sweepLag >= 0
      requires tick.Some? ==> CanUpkeep(c, View(), tick.value.Step())
      modifies this
      ensures Possible(c, old(View()), steps) && View() == After(c, old(View()), steps) && worker == Idle
      ensures tick.Some? ==> steps != [] && steps[0] == Upkeep(tick.value.Step())
      ensures listing.Some? <==> Upkeep(ListActive) in steps
    {
      ghost var s := View();
      steps := TickIfDue(tick);
      if listing.Some? {
        ghost var ticked := steps;
        ghost var more := MaintenanceTick(listing.value);
        Compose(c, s, ticked, more);
        steps := ticked + more;
        assert steps[|ticked|] == Upkeep(ListActive);
      }
    }

    /** One turn of the worker's loop leaves it ready for the next. */
    method LoopPass(tick: Option<TickAt>, listing: Option<seq<JobId>>, answer: Work -> AccountResult, ioError: bool)
      returns (first: Option<JobId>, ghost steps: seq<Step>)
      requires QueueOk(View()) && ImportsOk(c, View()) && CoverageOk(c, View()) && forall w :: Producible(answer(w))
      requires worker == Idle && c.sweepLag >= 0
      requires tick.Some? ==> CanUpkeep(c, View(), tick.value.Step())
      modifies this
      ensures Possible(c, old(View()), steps) && View() == After(c, old(View()), steps)
      ensures QueueOk(View()) && ImportsOk(c, View()) && CoverageOk(c, View()) && worker == Idle
      ensures first == None ==> forall j :: j in jobs ==> jobs[j].status != Queued
    {
      ghost var s := View();
      steps := Timers(tick, listing);
      RunImportsOk(c, s, steps);
      CoverageFrom(c, s, steps);
      ghost var batch;
      ghost var more;
      first, batch, more := WorkOnce(answer, ioError);
      Compose(c, s, steps, more);
      steps := steps + more;
      RunImportsOk(c, s, steps);
      CoverageFrom(c, s, steps);
    }

    // ----- An upload: the spool file first, the queue row last

    method NewSpool(id: JobId)
      requires CanUpload(c, View(), CreateSpool(id, []))
      modifies this`used, this`uploads, this`spool
      ensures View() == UploadNext(c, old(View()), CreateSpool(id, []))
    {
      used := used + {id};
      uploads := uploads[id := SpoolFile([], now)];
      spool := spool[id := SpoolFile([], now)];
    }

    method WriteSpool(id: JobId, chunk: seq<byte>)
      requires CanUpload(c, View(), AppendSpool(id, chunk))
      modifies this`uploads, this`spool
      ensures View() == UploadNext(c, old(View()), AppendSpool(id, chunk))
    {
      var file := SpoolFile(uploads[id].data + chunk, now);
      uploads := uploads[id := file];
      if id in spool {
        spool := spool[id := file];
      }
    }

    /** Queues the import, with the line total counted while the file was written. */
    method PublishUpload(id: JobId, totalLines: nat, target: Target)
      requires CanUpload(c, View(), PublishImport(id, target)) && totalLines == |LinesOf(uploads[id].data)|
      modifies this
      ensures View() == UploadNext(c, old(View()), PublishImport(id, target))
    {
      traces := traces[id := Trace(uploads[id].data, {}, [], 0, 0, {})];
      jobs := jobs[id := NewImportJob(totalLines, target, now)];
      uploads := uploads - {id};
    }

    method AbandonUpload(id: JobId)
      requires CanUpload(c, View(), AbortUpload(id))
      modifies this
      ensures View() == UploadNext(c, old(View()), AbortUpload(id))
    {
      uploads := uploads - {id};
      spool := spool - {id};
    }

    /** The upload of `id` has so far taken `steps` from `s` and written `data`. */
    ghost predicate Writing(s: State, steps: seq<Step>, id: JobId, data: seq<byte>)
      reads this
    {
      && Possible(c, s, steps) && View() == After(c, s, steps)
      && id in uploads && uploads[id] == SpoolFile(data, now) && id in spool && spool[id] == SpoolFile(data, now)
      && jobs == s.jobs && table == s.table && worker == s.worker && now == s.now
      && spool == s.spool[id := spool[id]]
    }

    method Start(id: JobId) returns (ghost steps: seq<Step>)
      requires id !in used
      modifies this`used, this`uploads, this`spool
      ensures Writing(old(View()), steps, id, [])
    {
      ghost var s := View();
      NewSpool(id);
      steps := Then(c, s, [], Upload(CreateSpool(id, [])));
    }

    method Write(id: JobId, chunk: seq<byte>, ghost s: State, ghost before: seq<Step>, ghost data: seq<byte>)
      returns (ghost steps: seq<Step>)
      requires Writing(s, before, id, data) && c.uploadPause >= 0
      modifies this`uploads, this`spool
      ensures Writing(s, steps, id, data + chunk)
    {
      WriteSpool(id, chunk);
      steps := Then(c, s, before, Upload(AppendSpool(id, chunk)));
    }

    /** Writes the pasted text and the newline that parts it from a file, and starts the count of lines. */
    method WriteText(id: JobId, payload: seq<byte>, fileFollows: bool, ghost s: State, ghost before: seq<Step>)
      returns (totalBytes: nat, totalLines: nat, ghost steps: seq<Step>)
      requires Writing(s, before, id, []) && c.uploadPause >= 0
      modifies this`uploads, this`spool
      ensures Writing(s, steps, id, TextPart(payload, fileFollows)) && totalBytes == |TextPart(payload, fileFollows)|
      ensures totalLines == CountNL(TextPart(payload, fileFollows))
                            + if EndsOpen(TextPart(payload, fileFollows)) then 1 else 0
    {
      totalBytes, totalLines, steps := 0, 0, before;
      if payload != [] {
        steps := Write(id, payload, s, steps, []);
        assert [] + payload == payload;
        totalBytes := |payload|;
        totalLines := CountNL(payload) + if payload[|payload| - 1] != NL then 1 else 0;
        if fileFollows && payload[|payload| - 1] != NL {
          CountChunk(payload, [NL]);
          steps := Write(id, [NL], s, steps, payload);
          totalBytes := totalBytes + 1;
        } else {
          assert payload + [] == payload;
        }
      }
    }

    /** Writes the file chunk by chunk until it ends or breaks a limit; the breaking chunk is not written. */
    method WriteChunks(
      id: JobId, ghost head: seq<byte>, headBytes: nat, headLines: nat, chunks: seq<seq<byte>>, maxUpload: nat,
      diskBudget: nat, ghost s: State, ghost before: seq<Step>)
      returns (refused: Option<UploadOutcome>, totalLines: nat, ghost data: seq<byte>, ghost steps: seq<Step>)
      requires Writing(s, before, id, head) && c.uploadPause >= 0
      requires (forall k :: 0 <= k < |chunks| ==> chunks[k] != []) && headLines == CountNL(head) && !EndsOpen(head)
      requires headBytes == |head|
      modifies this`uploads, this`spool
      ensures Writing(s, steps, id, data)
      ensures refused == None ==>
                && data == head + Concat(chunks) && totalLines == |LinesOf(data)|
                && (chunks != [] ==> WithinLimits(|data|, maxUpload, diskBudget))
      ensures refused.Some? ==>
                exists k: nat :: BreaksAt(head, chunks, maxUpload, diskBudget, k)
                            && refused.value == Breaking(head, chunks, k, maxUpload)
    {
      totalLines, data, steps, refused := headLines, head, before, None;
      var totalBytes, endedWithNewline := headBytes, true;
      for i := 0 to |chunks|
        invariant Writing(s, steps, id, data) && data == head + Concat(chunks[..i]) && totalBytes == |data|
        invariant i > 0 ==> WithinLimits(totalBytes, maxUpload, diskBudget)
        invariant totalLines == CountNL(data) && endedWithNewline == !EndsOpen(data)
      {
        var chunk := chunks[i];
        NextChunk(head, chunks, i);
        endedWithNewline := chunk[|chunk| - 1] == NL;
        totalBytes := totalBytes + |chunk|;
        if !WithinLimits(totalBytes, maxUpload, diskBudget) {
          assert BreaksAt(head, chunks, maxUpload, diskBudget, i);
          refused := Some(OverLimit(totalBytes, maxUpload));
          return;
        }
        CountChunk(data, chunk);
        steps := Write(id, chunk, s, steps, data);
        data := data + chunk;
        totalLines := totalLines + CountNL(chunk);
      }
      assert chunks[..|chunks|] == chunks;
      CountedLines(data);
      totalLines := totalLines + if endedWithNewline then 0 else 1;
    }

    /** The text, then the file if there is one. */
    method WriteUpload(id: JobId, payload: seq<byte>, file: Option<seq<seq<byte>>>, maxUpload: nat, diskBudget: nat,
                       ghost s: State, ghost before: seq<Step>)
      returns (refused: Option<UploadOutcome>, totalLines: nat, ghost data: seq<byte>, ghost steps: seq<Step>)
      requires Writing(s, before, id, []) && c.uploadPause >= 0
      requires forall k :: 0 <= k < |ChunksOf(file)| ==> ChunksOf(file)[k] != []
      modifies this`uploads, this`spool
      ensures Writing(s, steps, id, data)
      ensures refused == None ==>
                && data == UploadContent(payload, file) && totalLines == |LinesOf(data)|
                && forall k: nat :: !BreaksAt(TextPart(payload, file.Some?), ChunksOf(file), maxUpload, diskBudget, k)
      ensures refused.Some? ==>
                exists k: nat :: BreaksAt(TextPart(payload, file.Some?), ChunksOf(file), maxUpload, diskBudget, k)
                            && refused.value == Breaking(TextPart(payload, file.Some?), ChunksOf(file), k, maxUpload)
    {
      refused, data := None, TextPart(payload, file.Some?);
      ContentParts(payload, file);
      var totalBytes;
      totalBytes, totalLines, steps := WriteText(id, payload, file.Some?, s, before);
      if file.Some? {
        refused, totalLines, data, steps :=
          WriteChunks(id, data, totalBytes, totalLines, file.value, maxUpload, diskBudget, s, steps);
        if refused == None { BreaksNever(TextPart(payload, true), file.value, maxUpload, diskBudget); }
      } else {
        CountedLines(data);
        BreaksNever(data, [], maxUpload, diskBudget);
      }
    }

    /** The end of an upload: its row is queued, or its file goes. */
    method Finalize(
      id: JobId, outcome: UploadOutcome, target: Target, ghost s: State, ghost before: seq<Step>,
      ghost data: seq<byte>)
      returns (ghost steps: seq<Step>)
      requires Writing(s, before, id, data) && c.uploadPause >= 0
      requires id !in s.spool && (outcome.Spooled? ==> outcome == Spooled(data, |LinesOf(data)|) && data != [])
      modifies this
      ensures Possible(c, s, steps) && View() == After(c, s, steps)
      ensures Landed(s, View(), id, outcome, target)
    {
      if outcome.Spooled? {
        PublishUpload(id, outcome.totalLines, target);
        steps := Then(c, s, before, Upload(PublishImport(id, target)));
      } else {
        AbandonUpload(id);
        steps := Then(c, s, before, Upload(AbortUpload(id)));
      }
    }

    /**
     The import endpoint: pasted text, then the file in arbitrary nonempty chunks. It refuses before anything is
     written, or at the first chunk that breaks a limit, or an empty import; otherwise it queues a job whose
     total is the number of lines of what it has written. A refused upload leaves nothing behind.
     */
    method ImportAccounts(id: JobId, text: seq<byte>, blank: bool, file: Option<seq<seq<byte>>>, maxUpload: nat,
                          diskBudget: nat, target: Target)
      returns (outcome: UploadOutcome, ghost steps: seq<Step>)
      requires id !in used && id !in spool && c.uploadPause >= 0
      requires forall k :: 0 <= k < |ChunksOf(file)| ==> ChunksOf(file)[k] != []
      modifies this
      ensures Possible(c, old(View()), steps) && View() == After(c, old(View()), steps)
      ensures IsUploadOutcome(text, blank, file, maxUpload, diskBudget, outcome)
      ensures Landed(old(View()), View(), id, outcome, target)
    {
      var early := EarlyRefusal(|text|, blank, file.Some?, diskBudget);
      if early.Some? {
        return early.value, [];
      }
      ghost var s := View();
      steps := Start(id);
      var refused, totalLines;
      ghost var data;
      refused, totalLines, data, steps :=
        WriteUpload(id, if blank then [] else text, file, maxUpload, diskBudget, s, steps);
      if refused.Some? {
        outcome := refused.value;
      } else if uploads[id].data == [] {
        outcome := EmptyImport;
      } else {
        outcome := Spooled(uploads[id].data, totalLines);
      }
      steps := Finalize(id, outcome, target, s, steps, data);
    }
  }

  const MAX_TEXT: nat := 10 * 1024 * 1024

  /** What the endpoint refuses before it opens a file. */
  function EarlyRefusal(textBytes: nat, blank: bool, hasFile: bool, diskBudget: nat): Option<UploadOutcome> {
    if blank && !hasFile then Some(EmptyImport)
    else if textBytes > MAX_TEXT then Some(TooLarge)
    else if diskBudget == 0 then Some(NoDiskSpace)
    else None
  }

  function OverLimit(size: nat, maxUpload: nat): UploadOutcome {
    if size > maxUpload then TooLarge else NoDiskSpace
  }

  function ChunksOf(file: Option<seq<seq<byte>>>): seq<seq<byte>> {
    if file.Some? then file.value else []
  }

  lemma ContentParts(payload: seq<byte>, file: Option<seq<seq<byte>>>)
    ensures UploadContent(payload, file) == TextPart(payload, file.Some?) + Concat(ChunksOf(file))
    ensures file.None? ==> UploadContent(payload, file) == TextPart(payload, false)
    ensures file.Some? ==> !EndsOpen(TextPart(payload, true))
  {
  }

  /** The refusal at chunk `k`. */
  function Breaking(head: seq<byte>, chunks: seq<seq<byte>>, k: nat, maxUpload: nat): UploadOutcome
    requires k < |chunks|
  {
    OverLimit(|head + Concat(chunks[..k + 1])|, maxUpload)
  }

  /** The one outcome the endpoint may report. */
  ghost predicate IsUploadOutcome(
    text: seq<byte>, blank: bool, file: Option<seq<seq<byte>>>, maxUpload: nat, diskBudget: nat, r: UploadOutcome)
  {
    var payload := if blank then [] else text;
    var head, chunks := TextPart(payload, file.Some?), ChunksOf(file);
    var early := EarlyRefusal(|text|, blank, file.Some?, diskBudget);
    if early.Some? then r == early.value
    else if exists k: nat :: BreaksAt(head, chunks, maxUpload, diskBudget, k) then
      exists k: nat :: BreaksAt(head, chunks, maxUpload, diskBudget, k) && r == Breaking(head, chunks, k, maxUpload)
    else
      var content := UploadContent(payload, file);
      r == if content == [] then EmptyImport else Spooled(content, |LinesOf(content)|)
  }

  /** There is only one: which refusal an upload meets is determined by its sizes. */
  lemma OutcomeUnique(
    text: seq<byte>, blank: bool, file: Option<seq<seq<byte>>>, maxUpload: nat, diskBudget: nat, r: UploadOutcome,
    r': UploadOutcome)
    requires IsUploadOutcome(text, blank, file, maxUpload, diskBudget, r)
    requires IsUploadOutcome(text, blank, file, maxUpload, diskBudget, r')
    ensures r == r'
  {
    var head, chunks := TextPart(if blank then [] else text, file.Some?), ChunksOf(file);
    forall j: nat, k: nat |
      BreaksAt(head, chunks, maxUpload, diskBudget, j) && BreaksAt(head, chunks, maxUpload, diskBudget, k)
      ensures j == k
    {
      BreaksOnce(head, chunks, maxUpload, diskBudget, j, k);
    }
  }

  /** What an upload leaves behind: a queued job with its file, or nothing. */
  predicate Landed(s: State, s': State, id: JobId, outcome: UploadOutcome, target: Target) {
    && s'.table == s.table && s'.worker == s.worker
    && if outcome.Spooled? then
         && s'.jobs == s.jobs[id := NewImportJob(outcome.totalLines, target, s.now)]
         && s'.spool == s.spool[id := SpoolFile(outcome.content, s.now)]
         && id in s'.traces && s'.traces[id].content == outcome.content
       else s'.jobs == s.jobs && s'.spool == s.spool
  }

  /** If the whole is too large, some chunk is the first to break a limit. */
  lemma {:induction false} SomeBreak(head: seq<byte>, chunks: seq<seq<byte>>, maxUpload: nat, diskBudget: nat, n: nat)
    returns (k: nat)
    requires 0 < n <= |chunks|
    requires var size := |head + Concat(chunks[..n])|; size > maxUpload || size > diskBudget
    ensures BreaksAt(head, chunks, maxUpload, diskBudget, k)
    decreases n
  {
    k := n - 1;
    if k > 0 && !WithinLimits(|head + Concat(chunks[..k])|, maxUpload, diskBudget) {
      k := SomeBreak(head, chunks, maxUpload, diskBudget, k);
    }
  }

  lemma NotSpooled(
    text: seq<byte>, blank: bool, file: Option<seq<seq<byte>>>, maxUpload: nat, diskBudget: nat, r: UploadOutcome,
    k: nat)
    requires IsUploadOutcome(text, blank, file, maxUpload, diskBudget, r)
    requires BreaksAt(TextPart(if blank then [] else text, file.Some?), ChunksOf(file), maxUpload, diskBudget, k)
    ensures !r.Spooled?
  {
    var head, chunks := TextPart(if blank then [] else text, file.Some?), ChunksOf(file);
    var early := EarlyRefusal(|text|, blank, file.Some?, diskBudget);
    if early == None {
      forall n: nat | BreaksAt(head, chunks, maxUpload, diskBudget, n)
        ensures !Breaking(head, chunks, n, maxUpload).Spooled?
      {
      }
    } else {
      assert r == early.value;
      assert early.value == EmptyImport || early.value == TooLarge || early.value == NoDiskSpace;
    }
  }

  /** A file is accepted exactly if nothing is refused early, something is there, and neither limit is exceeded. */
  lemma AcceptedIff(
    text: seq<byte>, blank: bool, file: Option<seq<seq<byte>>>, maxUpload: nat, diskBudget: nat, r: UploadOutcome)
    requires IsUploadOutcome(text, blank, file, maxUpload, diskBudget, r)
    ensures var content := UploadContent(if blank then [] else text, file);
            r.Spooled? <==>
              && !(blank && file == None) && |text| <= 10 * 1024 * 1024 && diskBudget > 0 && content != []
              && (ChunksOf(file) != [] ==> |content| <= maxUpload && |content| <= diskBudget)
  {
    var payload, chunks := if blank then [] else text, ChunksOf(file);
    var head := TextPart(payload, file.Some?);
    ContentParts(payload, file);
    assert chunks[..|chunks|] == chunks;
    var size := |head + Concat(chunks)|;
    if chunks != [] && (size > maxUpload || size > diskBudget) {
      var k := SomeBreak(head, chunks, maxUpload, diskBudget, |chunks|);
      assert BreaksAt(head, chunks, maxUpload, diskBudget, k);
      NotSpooled(text, blank, file, maxUpload, diskBudget, r, k);
    } else {
      BreaksNever(head, chunks, maxUpload, diskBudget);
    }
  }

  /** The bytes written and to be written when the first limit is broken. */
  ghost predicate BrokenAt(head: seq<byte>, chunks: seq<seq<byte>>, maxUpload: nat, diskBudget: nat, size: nat) {
    exists k: nat ::
      BreaksAt(head, chunks, maxUpload, diskBudget, k) && size == |head + Concat(chunks[..k + 1])|
  }

  /** Which refusal an upload meets. */
  lemma RefusedAs(
    text: seq<byte>, blank: bool, file: Option<seq<seq<byte>>>, maxUpload: nat, diskBudget: nat, r: UploadOutcome)
    requires IsUploadOutcome(text, blank, file, maxUpload, diskBudget, r)
    requires !(blank && file == None) && |text| <= 10 * 1024 * 1024 && diskBudget > 0
    ensures var head := TextPart(if blank then [] else text, file.Some?);
            && (r == TooLarge ==>
                  exists size: nat :: BrokenAt(head, ChunksOf(file), maxUpload, diskBudget, size) && size > maxUpload)
            && (r == NoDiskSpace ==>
                  exists size: nat ::
                    BrokenAt(head, ChunksOf(file), maxUpload, diskBudget, size) && diskBudget < size <= maxUpload)
            && (r == EmptyImport ==> UploadContent(if blank then [] else text, file) == [])
  {
    var head, chunks := TextPart(if blank then [] else text, file.Some?), ChunksOf(file);
    forall k: nat | BreaksAt(head, chunks, maxUpload, diskBudget, k) && r == Breaking(head, chunks, k, maxUpload)
      ensures var size := |head + Concat(chunks[..k + 1])|;
              && BrokenAt(head, chunks, maxUpload, diskBudget, size) && (r == TooLarge || r == NoDiskSpace)
              && (size > maxUpload || size > diskBudget) && (r == TooLarge <==> size > maxUpload)
    {
    }
  }

  lemma NextChunk(head: seq<byte>, chunks: seq<seq<byte>>, i: nat)
    requires i < |chunks|
    ensures head + Concat(chunks[..i + 1]) == head + Concat(chunks[..i]) + chunks[i]
  {
    assert chunks[..i + 1] == chunks[..i] + [chunks[i]];
    ConcatSnoc(chunks[..i], chunks[i]);
  }

  lemma SweepBegins(c: Config, s: State)
    requires s.worker == Idle && c.sweepLag >= 0
    ensures var t := UpkeepNext(c, s, ListActive);
            && CanUpkeep(c, t, FixCutoff)
            && Possible(c, s, [Upkeep(ListActive), Upkeep(FixCutoff)])
            && After(c, s, [Upkeep(ListActive), Upkeep(FixCutoff)]) == UpkeepNext(c, t, FixCutoff)
  {
    TwoSteps(c, s, Upkeep(ListActive), Upkeep(FixCutoff));
  }

  lemma TwoSteps(c: Config, s: State, d: Step, e: Step)
    requires Enabled(c, s, d) && Enabled(c, Next(c, s, d), e)
    ensures Possible(c, s, [d, e]) && After(c, s, [d, e]) == Next(c, Next(c, s, d), e)
  {
    Extend(c, s, [], d);
    Extend(c, s, [d], e);
    assert [] + [d] == [d] && [d] + [e] == [d, e];
  }

  lemma ClaimedOk(c: Config, s: State, id: JobId)
    requires QueueOk(s) && ImportsOk(c, s) && CoverageOk(c, s) && CanTake(s, Claim(id))
    ensures var t := ClaimStep(s, id); QueueOk(t) && ImportsOk(c, t) && CoverageOk(c, t)
  {
    QueueStep(c, s, Take(Claim(id)));
    ImportsStep(c, s, Take(Claim(id)));
    CoverageStep(c, s, Take(Claim(id)));
  }

  lemma ReadyToRead(c: Config, s: State)
    requires QueueOk(s) && ImportsOk(c, s)
    requires s.worker.Claimed? && s.worker.job in s.jobs && s.jobs[s.worker.job].kind == ImportFile
    ensures s.worker.job in s.traces && (s.worker.job in s.spool <==> CanTake(s, ReadBatch))
  {
    assert ImportRowOk(c, s, s.worker.job);
  }

  lemma LoadedReady(c: Config, s: State, work: seq<Work>)
    requires QueueOk(s) && CoverageOk(c, s) && CanTake(s, Load)
    requires work == LoadWork(c, s.table, s.jobs[s.worker.job], s.now)
    ensures s.worker.job in s.traces && Increasing(IdsOf(work))
  {
    assert RowOk(s, s.worker.job) && CursorRowOk(s, s.worker.job);
    LoadOk(c, s.table, s.jobs[s.worker.job], s.traces[s.worker.job], s.now);
  }

  /** The steps an import batch must take from `s`. */
  ghost function ImportSteps(c: Config, s: State): seq<Step> {
    if !CanTake(s, ReadBatch) then [Take(FailJob)]
    else if CanCommit(c, TakeNext(c, s, ReadBatch), CommitImport) then [Take(ReadBatch), Commit(CommitImport)]
    else [Take(ReadBatch), Take(FailJob)]
  }

  /** The steps one batch of the claimed job must take from `s`. */
  ghost predicate BatchSteps(c: Config, s: State, id: JobId, answer: Work -> AccountResult, steps: seq<Step>)
    requires id in s.jobs
  {
    if s.jobs[id].kind == ImportFile then steps == ImportSteps(c, s)
    else exists results ::
           && AnswersTo(results, LoadWork(c, s.table, s.jobs[id], s.now), answer)
           && steps == [Take(Load), Commit(CommitAccounts(results))]
  }

  /** The steps of one pass of the loop: claim, batch unless the job was cancelled, removal if its file is left. */
  ghost predicate PassSteps(
    c: Config, s: State, first: Option<JobId>, answer: Work -> AccountResult, ioError: bool, batch: seq<Step>,
    steps: seq<Step>)
    requires first.Some? ==> first.value in s.jobs
  {
    match first
    case None => batch == [] && steps == []
    case Some(id) =>
      && (if s.jobs[id].cancelRequested then batch == [] else BatchSteps(c, ClaimStep(s, id), id, answer, batch))
      && (|| steps == [Take(Claim(id))] + batch
          || steps == [Take(Claim(id))] + batch + [Upkeep(Unlink(!ioError))])
  }

  /** Exactly the accounts of the batch have a result, each its own. */
  predicate AnswersTo(results: map<Id, AccountResult>, work: seq<Work>, answer: Work -> AccountResult) {
    && results.Keys == WorkIds(work)
    && forall k :: 0 <= k < |work| ==> work[k].id in results && results[work[k].id] == answer(work[k])
  }

  /** The results of a batch by account. */
  method Answered(work: seq<Work>, answer: Work -> AccountResult) returns (results: map<Id, AccountResult>)
    requires Increasing(IdsOf(work))
    ensures AnswersTo(results, work, answer)
    ensures forall id :: id in results ==> exists w :: results[id] == answer(w)
  {
    results := map[];
    for i := 0 to |work|
      invariant results.Keys == WorkIds(work[..i])
      invariant forall k :: 0 <= k < i ==> work[k].id in results && results[work[k].id] == answer(work[k])
      invariant forall id :: id in results ==> exists w :: results[id] == answer(w)
    {
      NewId(work, i);
      WorkIdsSnoc(work[..i], work[i]);
      assert work[..i + 1] == work[..i] + [work[i]];
      results := results[work[i].id := answer(work[i])];
      assert results[work[i].id] == answer(work[i]);
    }
    assert work[..|work|] == work;
  }

  /** An import that is queued or running. */
  predicate IsWaitingImport(jobs: map<JobId, Job>, id: JobId) {
    id in jobs && jobs[id].kind == ImportFile && (jobs[id].status == Queued || jobs[id].status == Running)
  }

  /** A job that ended before this time. */
  predicate IsOutdated(job: Job, time: Time) {
    && (job.status == Completed || job.status == Failed || job.status == Cancelled)
    && job.finishedAt != None && job.finishedAt.value < time
  }

  lemma WaitingImports(s: State, id: JobId)
    ensures id in ActiveImports(s) <==> IsWaitingImport(s.jobs, id)
  {
    if id in s.jobs {
      var x := s.jobs[id].status;
      assert x == Queued || x == Running || x == Completed || x == Failed || x == Cancelled;
    }
  }

  /** What a sweep over these names leaves. */
  function Swept(
    spool: map<JobId, SpoolFile>, active: set<JobId>, cutoff: Time, names: seq<JobId>) : map<JobId, SpoolFile> {
    map id | id in spool && !(id in names && id !in active && spool[id].written < cutoff) :: spool[id]
  }

  lemma SweptSnoc(spool: map<JobId, SpoolFile>, active: set<JobId>, cutoff: Time, names: seq<JobId>, name: JobId)
    ensures Swept(spool, active, cutoff, names + [name])
         == if name in Swept(spool, active, cutoff, names) && name !in active && spool[name].written < cutoff
            then Swept(spool, active, cutoff, names) - {name} else Swept(spool, active, cutoff, names)
  {
  }

  /** The row after a committed batch of account work. */
  function BookedWork(c: Config, job: Job, work: seq<Work>, success: nat, failed: nat, now: Time): Job {
    if work == [] then Finish(job, true, now)
    else
      var job' := job.(cursor := work[|work| - 1].id, processed := job.processed + |work|,
                       succeeded := job.succeeded + success, failed := job.failed + failed);
      Finish(job', job'.processed >= job.total || |work| < c.workerBatch, now)
  }

  function BookedTrace(s: State, id: JobId, work: seq<Work>): Trace
    requires id in s.traces
  {
    var trace, hits := s.traces[id], Present(s.table, work);
    trace.(hits := trace.hits + hits, batches := trace.batches + 1,
           lost := trace.lost + if |hits| <= |work| then |work| - |hits| else 0,
           strangers := trace.strangers + Strangers(s, id, hits))
  }

  lemma WorkPlan(c: Config, s: State, results: map<Id, AccountResult>, success: nat, failed: nat)
    requires CanCommit(c, s, CommitAccounts(results))
    requires success == CountOk(Present(s.table, s.worker.work), results)
    requires success + failed == |Present(s.table, s.worker.work)|
    ensures var id, work := s.worker.job, s.worker.work;
            CommitAccountsStep(c, s, results) ==
              s.(table := ApplyAll(s.table, results, s.now, s.intervalDays),
                 jobs := s.jobs[id := BookedWork(c, s.jobs[id], work, success, failed, s.now)],
                 traces := s.traces[id := BookedTrace(s, id, work)], worker := Idle)
  {
  }

  /** The row after a committed batch, from the worker's counters. */
  function Booked(job: Job, read: ReadResult, inserted: nat, skipped: nat, now: Time): Job {
    var silent := read.processed - |read.parsed| - read.failed;
    Finish(job.(cursor := read.newOffset, processed := job.processed + read.processed,
                succeeded := job.succeeded + inserted, failed := job.failed + read.failed,
                skipped := job.skipped + skipped + if silent > 0 then silent else 0,
                summary := if read.errors != [] then LineErrors(read.errors) else job.summary),
           read.eof, now)
  }

  lemma CommitAllowed(c: Config, s: State, rows: seq<Row>)
    requires s.worker.HasBatch? && s.worker.job in s.jobs && s.worker.job in s.traces && rows == BatchRows(c, s)
    ensures CanCommit(c, s, CommitImport) <==> Accepts(c.dialect, s.jobs[s.worker.job].target.mode, rows)
  {
  }

  /** A scheduler tick at a local date and minute of the day. */
  datatype TickAt = TickAt(id: JobId, date: int, minute: int, dueMinute: int) {
    function Step(): UpkeepStep {
      SchedulerTick(id, date, minute, dueMinute)
    }
  }

  /** What the commit has to leave behind, in the worker's own terms. */
  lemma CommitPlan(c: Config, s: State, rows: seq<Row>, inserted: nat, skipped: nat)
    requires s.worker.HasBatch? && s.worker.job in s.jobs && s.worker.job in s.traces
    requires rows == BatchRows(c, s) && Accepts(c.dialect, s.jobs[s.worker.job].target.mode, rows)
    requires inserted == Inserted(s.table, rows, s.jobs[s.worker.job].target.mode) && inserted + skipped == |rows|
    ensures CanCommit(c, s, CommitImport)
    ensures var id, job := s.worker.job, s.jobs[s.worker.job];
            var updated := Booked(job, ReadOf(s.worker.batch, job.processed), inserted, skipped, s.now);
            CommitImportStep(c, s) ==
              s.(table := UpsertAll(s.table, rows, job.target.mode), jobs := s.jobs[id := updated],
                 traces := s.traces[id := s.traces[id].(batches := s.traces[id].batches + 1)],
                 worker := if Terminal(updated.status) then Unlinking(id) else Idle)
  {
    BookedIs(c, s.jobs[s.worker.job], s.table, s.worker.batch, s.now + s.intervalDays * DAY, s.now, inserted, skipped);
  }

  lemma BookedIs(c: Config, job: Job, t: Table, batch: Batch, next: Time, now: Time, inserted: nat, skipped: nat)
    requires inserted == Inserted(t, Rows(c.rules, batch.outs, job.target, next), job.target.mode)
    requires inserted + skipped == |Rows(c.rules, batch.outs, job.target, next)|
    ensures Booked(job, ReadOf(batch, job.processed), inserted, skipped, now)
         == ImportedJob(c, job, t, batch, next, now)
  {
    RowsLength(c.rules, batch.outs, job.target, next);
  }

  /** The results of some of the loaded accounts. */
  function Part(results: map<Id, AccountResult>, work: seq<Work>): map<Id, AccountResult> {
    map id | id in results && id in WorkIds(work) :: results[id]
  }

  lemma {:induction false} PresentSnoc(t: Table, work: seq<Work>, w: Work)
    ensures Present(t, work + [w]) == Present(t, work) + if w.id in t.rows then [w.id] else []
  {
    if work != [] {
      PresentSnoc(t, work[1..], w);
      assert (work + [w])[1..] == work[1..] + [w];
    }
  }

  lemma {:induction false} CountOkSnoc(ids: seq<Id>, id: Id, results: map<Id, AccountResult>)
    ensures CountOk(ids + [id], results) == CountOk(ids, results) + if id in results && results[id].ok then 1 else 0
  {
    if ids != [] {
      CountOkSnoc(ids[1..], id, results);
      assert (ids + [id])[1..] == ids[1..] + [id];
    }
  }

  lemma WorkIdsSnoc(work: seq<Work>, w: Work)
    ensures WorkIds(work + [w]) == WorkIds(work) + {w.id}
  {
    assert (work + [w])[|work|] == w;
    forall id | id in WorkIds(work) ensures id in WorkIds(work + [w]) {
      var k :| 0 <= k < |work| && work[k].id == id;
      assert (work + [w])[k].id == id;
    }
  }

  lemma NewId(work: seq<Work>, i: nat)
    requires i < |work| && Increasing(IdsOf(work))
    ensures work[i].id !in WorkIds(work[..i])
  {
    forall k | 0 <= k < i ensures work[..i][k].id != work[i].id {
      assert IdsOf(work)[k] < IdsOf(work)[i];
    }
  }

  /** The table and the counters once the first `i` accounts are booked. */
  predicate AppliedTo(
    t: Table, rows: map<Id, Account>, work: seq<Work>, results: map<Id, AccountResult>, now: Time, intervalDays: int,
    success: nat, failed: nat)
  {
    && rows == ApplyAll(t, Part(results, work), now, intervalDays).rows
    && success == CountOk(Present(t, work), results) && success + failed == |Present(t, work)|
  }

  lemma AppliedSnoc(
    t: Table, rows: map<Id, Account>, work: seq<Work>, w: Work, results: map<Id, AccountResult>, now: Time,
    intervalDays: int, success: nat, failed: nat)
    requires AppliedTo(t, rows, work, results, now, intervalDays, success, failed)
    requires w.id in results && w.id !in WorkIds(work)
    ensures if w.id in t.rows then
              && w.id in rows
              && AppliedTo(t, rows[w.id := Apply(rows[w.id], results[w.id], now, intervalDays)], work + [w], results,
                           now, intervalDays,
                           if results[w.id].ok then success + 1 else success,
                           if results[w.id].ok then failed else failed + 1)
            else w.id !in rows && AppliedTo(t, rows, work + [w], results, now, intervalDays, success, failed)
  {
    WorkIdsSnoc(work, w);
    PresentSnoc(t, work, w);
    CountOkSnoc(Present(t, work), w.id, results);
    assert Part(results, work + [w]) == Part(results, work)[w.id := results[w.id]];
    if w.id in t.rows {
      assert rows[w.id] == t.rows[w.id];
      assert rows[w.id := Apply(rows[w.id], results[w.id], now, intervalDays)]
          == ApplyAll(t, Part(results, work + [w]), now, intervalDays).rows;
    } else {
      assert Present(t, work + [w]) == Present(t, work);
      assert rows == ApplyAll(t, Part(results, work + [w]), now, intervalDays).rows;
    }
  }

  lemma AppliedNone(t: Table, results: map<Id, AccountResult>, now: Time, intervalDays: int)
    ensures AppliedTo(t, t.rows, [], results, now, intervalDays, 0, 0)
  {
    assert forall id :: id !in WorkIds([]);
    assert Part(results, []) == map[];
    assert ApplyAll(t, map[], now, intervalDays).rows == t.rows;
  }

  lemma AppliedAll(
    t: Table, rows: map<Id, Account>, work: seq<Work>, results: map<Id, AccountResult>, now: Time, intervalDays: int,
    success: nat, failed: nat)
    requires AppliedTo(t, rows, work, results, now, intervalDays, success, failed) && results.Keys == WorkIds(work)
    ensures t.(rows := rows) == ApplyAll(t, results, now, intervalDays)
  {
    assert Part(results, work) == results;
  }

  /** The loop over the accounts of a batch, with its two counters. */
  method ApplyResults(t: Table, work: seq<Work>, results: map<Id, AccountResult>, now: Time, intervalDays: int)
    returns (t': Table, success: nat, failed: nat)
    requires Increasing(IdsOf(work)) && results.Keys == WorkIds(work)
    ensures t' == ApplyAll(t, results, now, intervalDays)
    ensures success == CountOk(Present(t, work), results) && success + failed == |Present(t, work)|
  {
    var rows := t.rows;
    success, failed := 0, 0;
    AppliedNone(t, results, now, intervalDays);
    for i := 0 to |work|
      invariant AppliedTo(t, rows, work[..i], results, now, intervalDays, success, failed)
    {
      var id := work[i].id;
      assert id in WorkIds(work);
      NewId(work, i);
      AppliedSnoc(t, rows, work[..i], work[i], results, now, intervalDays, success, failed);
      assert work[..i + 1] == work[..i] + [work[i]];
      if id in rows {
        var r := results[id];
        rows := rows[id := Apply(rows[id], r, now, intervalDays)];
        success, failed := if r.ok then success + 1 else success, if r.ok then failed else failed + 1;
      }
    }
    assert work[..|work|] == work;
    AppliedAll(t, rows, work, results, now, intervalDays, success, failed);
    t' := t.(rows := rows);
  }

  /** The statement's answer: a queued row that no other comes before. */
  method FirstByPriority(jobs: map<JobId, Job>, queued: set<JobId>) returns (first: JobId)
    requires queued != {} && queued <= jobs.Keys
    ensures first in queued && forall j :: j in queued ==> ClaimedBefore(jobs[first], jobs[j])
    ensures forall j :: j in queued ==>
              || jobs[j].priority < jobs[first].priority
              || (jobs[j].priority == jobs[first].priority && jobs[first].createdAt <= jobs[j].createdAt)
  {
    first :| first in queued;
    var left := queued - {first};
    while left != {}
      invariant left <= queued && first in queued
      invariant forall j :: j in queued && j !in left ==> ClaimedBefore(jobs[first], jobs[j])
      decreases |left|
    {
      var j :| j in left;
      left := left - {j};
      if !ClaimedBefore(jobs[first], jobs[j]) {
        first := j;
      }
    }
  }
}
