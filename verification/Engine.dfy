/**
 The durable job engine as a state machine: the job queue, the account table and the spool directory, driven
 by a web process and one worker. A step is one committed database session, one file operation, or the death
 or restart of the worker; web steps may fall between any two worker steps.
 */
module Engine {
  import opened Prelude
  import opened Keyset
  import opened Lines
  import opened Accounts
  import opened ImportPass

  type JobId = string

  datatype Kind = ImportFile | RefreshTokens | HealthCheck

  datatype Scope = File | All | Selected(ids: set<Id>) | Due

  datatype JobStatus = Queued | Running | Completed | Failed | Cancelled

  datatype Summary = NoSummary | Resumed | LineErrors(errors: seq<LineError>) | Exception

  /** A row of the jobs table. */
  datatype Job = Job(
    kind: Kind, scope: Scope, status: JobStatus, priority: int, createdAt: Time, maxId: Id, target: Target,
    cursor: int, total: nat, processed: nat, succeeded: nat, failed: nat, skipped: nat,
    cancelRequested: bool, finishedAt: Option<Time>, summary: Summary)

  /** A spool file: its bytes and the time of the last write to it. */
  datatype SpoolFile = SpoolFile(data: seq<byte>, written: Time)

  /**
   What a job has worked on and done so far; kept for the statements only. `strangers` are the accounts it has
   committed a result to without having been created for them.
   */
  datatype Trace = Trace(
    content: seq<byte>, snapshot: set<Id>, hits: seq<Id>, lost: nat, batches: nat, strangers: set<Id>)

  datatype Work = Work(id: Id, token: string)

  /** Where the single worker stands. */
  datatype Worker =
    | Down
    | Idle
    | Claimed(job: JobId)
    | HasBatch(job: JobId, batch: Batch)
    | HasWork(job: JobId, work: seq<Work>)
    | Unlinking(job: JobId)
    | Listed(active: set<JobId>, listedAt: Time)
    | Sweeping(active: set<JobId>, listedAt: Time, cutoff: Time)

  datatype Schedule = Schedule(marker: Option<int>, lastSeen: int, dates: seq<int>)

  /** `gone` lists, for each job, the ids of accounts deleted since it was created; kept for the statements only. */
  datatype State = State(
    jobs: map<JobId, Job>, table: Table, spool: map<JobId, SpoolFile>, uploads: map<JobId, SpoolFile>,
    traces: map<JobId, Trace>, gone: set<(JobId, Id)>, used: set<JobId>, now: Time, intervalDays: int,
    schedule: Schedule, worker: Worker)

  /**
   Settings, and bounds on the environment: how long an upload may pause, how long a sweep may take to fix its
   cutoff, and how many days an observed local date may lie behind the one observed before. `reusesIds` holds of
   a table that hands out the largest id plus one (SQLite's without AUTOINCREMENT), `keepsReach` if deletions
   then spare the ids that a live job has yet to reach.
   */
  datatype Config = Config(
    rules: Rules, dialect: Dialect, workerBatch: nat, retention: Time, uploadPause: Time, sweepLag: Time, dateSlip: nat,
    reusesIds: bool, keepsReach: bool)

  const SWEEP_AGE: Time := 3600

  /** The priority that marks the scheduler's own jobs. */
  const SCHEDULED: int := 20

  predicate SettingsOk(c: Config) {
    c.rules.batchSize >= 1 && c.workerBatch >= 1 && c.uploadPause >= 0 && c.sweepLag >= 0
  }

  predicate Terminal(status: JobStatus) {
    status in {Completed, Failed, Cancelled}
  }

  predicate Live(job: Job) {
    !Terminal(job.status)
  }

  predicate LiveImport(job: Job) {
    Live(job) && job.kind == ImportFile
  }

  predicate LiveDueRefresh(job: Job) {
    Live(job) && job.kind == RefreshTokens && job.scope == Due
  }

  /** The worker is at work on `id`: it has claimed the job and not yet given it back. */
  predicate Holds(w: Worker, id: JobId) {
    (w.Claimed? || w.HasBatch? || w.HasWork?) && w.job == id
  }

  // ----- Scopes and snapshots

  /** The scopes whose membership does not depend on the account's columns. */
  predicate Fixed(scope: Scope) {
    scope == All || scope.Selected?
  }

  /** `id` is one a job of this fixed scope may work on. */
  predicate Chosen(scope: Scope, id: Id) {
    scope.Selected? ==> id in scope.ids
  }

  /** No id that the table has yet to hand out is one the job has yet to work on. */
  predicate OutOfReach(t: Table, job: Job) {
    forall id: Id | job.cursor < id <= job.maxId :: Chosen(job.scope, id) ==> id < t.nextId
  }

  predicate SparesReach(s: State, t: Table) {
    forall j :: j in s.jobs && Live(s.jobs[j]) && s.jobs[j].kind != ImportFile && Fixed(s.jobs[j].scope) ==>
      OutOfReach(t, s.jobs[j])
  }

  predicate InScope(scope: Scope, id: Id, a: Account, now: Time) {
    match scope
    case Selected(ids) => id in ids
    case Due => a.nextRefresh.Some? && a.nextRefresh.value <= now
    case _ => true
  }

  function Snapshot(t: Table, scope: Scope, now: Time): set<Id> {
    set id | id in t.rows && InScope(scope, id, t.rows[id], now)
  }

  /** The rows a job's batch query ranges over, apart from the cursor. */
  function Candidates(t: Table, job: Job, now: Time): set<Id> {
    set id | id in t.rows && (job.maxId != 0 ==> id <= job.maxId) && InScope(job.scope, id, t.rows[id], now)
  }

  function WorkOf(t: Table, ids: seq<Id>): seq<Work>
    requires forall k :: 0 <= k < |ids| ==> ids[k] in t.rows
  {
    seq(|ids|, k requires 0 <= k < |ids| => Work(ids[k], t.rows[ids[k]].token))
  }

  function LoadWork(c: Config, t: Table, job: Job, now: Time): seq<Work> {
    var ids := Select(Candidates(t, job, now), job.cursor, c.workerBatch);
    assert forall k :: 0 <= k < |ids| ==> ids[k] in ids;
    WorkOf(t, ids)
  }

  function NewAccountJob(kind: Kind, scope: Scope, priority: int, snapshot: set<Id>, now: Time): Job {
    Job(kind, scope, Queued, priority, now, MaxOrZero(snapshot), Target("", Skip), 0, |snapshot|, 0, 0, 0, 0,
        false, None, NoSummary)
  }

  // ----- Account results

  /** The work items whose rows still exist, in order. */
  function Present(t: Table, work: seq<Work>): seq<Id> {
    if work == [] then []
    else (if work[0].id in t.rows then [work[0].id] else []) + Present(t, work[1..])
  }

  function ApplyAll(t: Table, results: map<Id, AccountResult>, now: Time, intervalDays: int): Table {
    t.(rows := map id | id in t.rows ::
                 if id in results then Apply(t.rows[id], results[id], now, intervalDays) else t.rows[id])
  }

  function CountOk(ids: seq<Id>, results: map<Id, AccountResult>): nat {
    if ids == [] then 0
    else (if ids[0] in results && results[ids[0]].ok then 1 else 0) + CountOk(ids[1..], results)
  }

  function WorkIds(work: seq<Work>): set<Id> {
    set k | 0 <= k < |work| :: work[k].id
  }

  // ----- Steps

  /** The upload endpoint: a spool file is created, grows, and becomes a job or is thrown away. */
  datatype UploadStep =
    | CreateSpool(id: JobId, data: seq<byte>)
    | AppendSpool(id: JobId, more: seq<byte>)
    | AbortUpload(id: JobId)
    | PublishImport(id: JobId, target: Target)

  /** Other requests of the web process, and the passing of time. */
  datatype RequestStep =
    | CreateAccountJob(id: JobId, kind: Kind, scope: Scope)
    | CancelJob(id: JobId)
    | DeleteAccounts(ids: set<Id>)
    | SetInterval(days: int)
    | Wait(seconds: Time)

  /** The worker takes up a job, or gives it up. */
  datatype TakeStep =
    | Claim(id: JobId)
    | ReadBatch
    | Load
    | FailJob

  /** The worker commits a batch. */
  datatype CommitStep =
    | CommitImport
    | CommitAccounts(results: map<Id, AccountResult>)

  /** File removal, periodic maintenance and the scheduler. */
  datatype UpkeepStep =
    | Unlink(removed: bool)
    | ListActive
    | FixCutoff
    | SweepFile(id: JobId)
    | EndSweep
    | SchedulerTick(id: JobId, date: int, minute: int, dueMinute: int)

  datatype LifeStep = Crash | Recover

  datatype Step =
    | Upload(u: UploadStep)
    | Request(r: RequestStep)
    | Take(t: TakeStep)
    | Commit(k: CommitStep)
    | Upkeep(m: UpkeepStep)
    | Life(l: LifeStep)

  predicate ClaimedBefore(a: Job, b: Job) {
    a.priority > b.priority || (a.priority == b.priority && a.createdAt <= b.createdAt)
  }

  predicate NextInLine(s: State, id: JobId) {
    && id in s.jobs && s.jobs[id].status == Queued
    && forall j :: j in s.jobs && s.jobs[j].status == Queued ==> ClaimedBefore(s.jobs[id], s.jobs[j])
  }

  predicate InHand(w: Worker) {
    w.Claimed? || w.HasBatch? || w.HasWork?
  }

  predicate CanUpload(c: Config, s: State, u: UploadStep) {
    match u
    case CreateSpool(id, data) => id !in s.used
    case AppendSpool(id, more) => id in s.uploads && s.now - s.uploads[id].written <= c.uploadPause
    case AbortUpload(id) => id in s.uploads
    case PublishImport(id, target) =>
      id in s.uploads && s.uploads[id].data != [] && s.now - s.uploads[id].written <= c.uploadPause
  }

  predicate CanRequest(c: Config, s: State, r: RequestStep) {
    match r
    case CreateAccountJob(id, kind, scope) =>
      id !in s.used && kind != ImportFile && scope != File && Snapshot(s.table, scope, s.now) != {}
    case CancelJob(id) => id in s.jobs && Live(s.jobs[id])
    case DeleteAccounts(ids) => c.reusesIds && c.keepsReach ==> SparesReach(s, Delete(s.table, ids, true))
    case SetInterval(days) => 1 <= days <= 89
    case Wait(seconds) => seconds >= 0
  }

  predicate CanTake(s: State, t: TakeStep) {
    match t
    case Claim(id) => s.worker == Idle && NextInLine(s, id)
    case ReadBatch =>
      && s.worker.Claimed? && s.worker.job in s.jobs && s.jobs[s.worker.job].kind == ImportFile
      && s.worker.job in s.spool && 0 <= s.jobs[s.worker.job].cursor <= |s.spool[s.worker.job].data|
    case Load => s.worker.Claimed? && s.worker.job in s.jobs && s.jobs[s.worker.job].kind != ImportFile
    case FailJob => InHand(s.worker) && s.worker.job in s.jobs
  }

  predicate CanCommit(c: Config, s: State, k: CommitStep) {
    match k
    case CommitImport =>
      && s.worker.HasBatch? && s.worker.job in s.jobs && s.worker.job in s.traces
      && Accepts(c.dialect, s.jobs[s.worker.job].target.mode, BatchRows(c, s))
    case CommitAccounts(results) =>
      && s.worker.HasWork? && s.worker.job in s.jobs && s.worker.job in s.traces
      && results.Keys == WorkIds(s.worker.work) && forall id :: id in results ==> Producible(results[id])
  }

  predicate CanUpkeep(c: Config, s: State, m: UpkeepStep) {
    match m
    case Unlink(removed) => s.worker.Unlinking?
    case ListActive => s.worker == Idle
    case FixCutoff => s.worker.Listed? && s.now - s.worker.listedAt <= c.sweepLag
    case SweepFile(id) =>
      s.worker.Sweeping? && id in s.spool && id !in s.worker.active && s.spool[id].written < s.worker.cutoff
    case EndSweep => s.worker.Listed? || s.worker.Sweeping?
    case SchedulerTick(id, date, minute, dueMinute) =>
      s.worker == Idle && id !in s.used && s.schedule.lastSeen <= date + c.dateSlip
  }

  predicate Enabled(c: Config, s: State, e: Step) {
    match e
    case Upload(u) => CanUpload(c, s, u)
    case Request(r) => CanRequest(c, s, r)
    case Take(t) => CanTake(s, t)
    case Commit(k) => CanCommit(c, s, k)
    case Upkeep(m) => CanUpkeep(c, s, m)
    case Life(l) => l == Crash <==> s.worker != Down
  }

  function Next(c: Config, s: State, e: Step): State
    requires Enabled(c, s, e)
  {
    match e
    case Upload(u) => UploadNext(c, s, u)
    case Request(r) => RequestNext(c, s, r)
    case Take(t) => TakeNext(c, s, t)
    case Commit(k) => CommitNext(c, s, k)
    case Upkeep(m) => UpkeepNext(c, s, m)
    case Life(l) => LifeNext(s, l)
  }

  function UploadNext(c: Config, s: State, u: UploadStep): State
    requires CanUpload(c, s, u)
  {
    match u
    case CreateSpool(id, data) =>
      s.(used := s.used + {id}, uploads := s.uploads[id := SpoolFile(data, s.now)],
         spool := s.spool[id := SpoolFile(data, s.now)])
    case AppendSpool(id, more) =>
      var file := SpoolFile(s.uploads[id].data + more, s.now);
      s.(uploads := s.uploads[id := file], spool := if id in s.spool then s.spool[id := file] else s.spool)
    case AbortUpload(id) => s.(uploads := s.uploads - {id}, spool := s.spool - {id})
    case PublishImport(id, target) =>
      var data := s.uploads[id].data;
      s.(uploads := s.uploads - {id}, traces := s.traces[id := Trace(data, {}, [], 0, 0, {})],
         jobs := s.jobs[id := NewImportJob(|LinesOf(data)|, target, s.now)])
  }

  function NewImportJob(total: nat, target: Target, now: Time): Job {
    Job(ImportFile, File, Queued, 70, now, 0, target, 0, total, 0, 0, 0, 0, false, None, NoSummary)
  }

  function RequestNext(c: Config, s: State, r: RequestStep): State
    requires CanRequest(c, s, r)
  {
    match r
    case CreateAccountJob(id, kind, scope) =>
      var snapshot := Snapshot(s.table, scope, s.now);
      AddAccountJob(s, id, NewAccountJob(kind, scope, if scope.Selected? then 100 else 40, snapshot, s.now), snapshot)
    case CancelJob(id) => PutJob(s, id, s.jobs[id].(cancelRequested := true))
    case DeleteAccounts(ids) =>
      s.(table := Delete(s.table, ids, c.reusesIds), gone := s.gone + Deleted(s, ids))
    case SetInterval(days) => s.(intervalDays := days)
    case Wait(seconds) => s.(now := s.now + seconds)
  }

  function TakeNext(c: Config, s: State, t: TakeStep): State
    requires CanTake(s, t)
  {
    match t
    case Claim(id) => ClaimStep(s, id)
    case ReadBatch =>
      var id := s.worker.job;
      s.(worker := HasBatch(id, BatchAt(c.rules, s.spool[id].data, s.jobs[id].cursor)))
    case Load =>
      var id := s.worker.job;
      s.(worker := HasWork(id, LoadWork(c, s.table, s.jobs[id], s.now)))
    case FailJob =>
      var id := s.worker.job;
      PutJob(s, id, s.jobs[id].(status := Failed, finishedAt := Some(s.now), summary := Exception))
      .(worker := AfterTerminal(s.jobs[id], id))
  }

  function CommitNext(c: Config, s: State, k: CommitStep): State
    requires CanCommit(c, s, k)
  {
    match k
    case CommitImport => CommitImportStep(c, s)
    case CommitAccounts(results) => CommitAccountsStep(c, s, results)
  }

  function UpkeepNext(c: Config, s: State, m: UpkeepStep): State
    requires CanUpkeep(c, s, m)
  {
    match m
    case Unlink(removed) => s.(spool := if removed then s.spool - {s.worker.job} else s.spool, worker := Idle)
    case ListActive =>
      s.(jobs := Unexpired(c, s.jobs, s.now),
         worker := Listed(ActiveImports(s), s.now))
    case FixCutoff => s.(worker := Sweeping(s.worker.active, s.worker.listedAt, s.now - SWEEP_AGE))
    case SweepFile(id) => s.(spool := s.spool - {id})
    case EndSweep => s.(worker := Idle)
    case SchedulerTick(id, date, minute, dueMinute) => SchedulerStep(s, id, date, minute, dueMinute)
  }

  function LifeNext(s: State, l: LifeStep): State {
    match l
    case Crash => s.(worker := Down)
    case Recover => s.(jobs := map j | j in s.jobs :: Requeued(s.jobs[j]), worker := Idle)
  }

  function BatchRows(c: Config, s: State): seq<Row>
    requires s.worker.HasBatch? && s.worker.job in s.jobs
  {
    Rows(c.rules, s.worker.batch.outs, s.jobs[s.worker.job].target, s.now + s.intervalDays * DAY)
  }

  function ActiveImports(s: State): set<JobId> {
    set j | j in s.jobs && LiveImport(s.jobs[j])
  }

  function PutJob(s: State, id: JobId, job: Job): State {
    s.(jobs := s.jobs[id := job])
  }

  function AddAccountJob(s: State, id: JobId, job: Job, snapshot: set<Id>): State {
    s.(used := s.used + {id}, jobs := s.jobs[id := job], traces := s.traces[id := Trace([], snapshot, [], 0, 0, {})])
  }

  /** If ids can come back, the next one is the largest that is left plus one. */
  function Delete(t: Table, ids: set<Id>, reuse: bool): Table {
    var rest := map id | id in t.rows && id !in ids :: t.rows[id];
    Table(rest, map h | h in t.index && t.index[h] !in ids :: t.index[h],
          if reuse then MaxOrZero(rest.Keys) + 1 else t.nextId)
  }

  function Deleted(s: State, ids: set<Id>): set<(JobId, Id)> {
    set j, id | j in s.traces && id in s.table.rows && id in ids :: (j, id)
  }

  /** The snapshot accounts of a job that were never deleted since it was created. */
  function Surviving(s: State, j: JobId): set<Id>
    requires j in s.traces
  {
    set id | id in s.traces[j].snapshot && (j, id) !in s.gone
  }

  function AfterTerminal(job: Job, id: JobId): Worker {
    if job.kind == ImportFile then Unlinking(id) else Idle
  }

  function Expired(c: Config, job: Job, now: Time): bool {
    Terminal(job.status) && job.finishedAt.Some? && job.finishedAt.value < now - c.retention
  }

  function Unexpired(c: Config, jobs: map<JobId, Job>, now: Time): map<JobId, Job> {
    map j | j in jobs && !Expired(c, jobs[j], now) :: jobs[j]
  }

  function Requeued(job: Job): Job {
    if job.status == Running then job.(status := Queued, summary := Resumed) else job
  }

  function ClaimStep(s: State, id: JobId): State
    requires id in s.jobs
  {
    var job := s.jobs[id];
    if job.cancelRequested then
      PutJob(s, id, job.(status := Cancelled, finishedAt := Some(s.now))).(worker := AfterTerminal(job, id))
    else
      PutJob(s, id, job.(status := Running)).(worker := Claimed(id))
  }

  /** The status a batch commit leaves behind. */
  function StatusAfter(job: Job, done: bool): JobStatus {
    if job.cancelRequested then Cancelled else if done then Completed else Queued
  }

  function Finish(job: Job, done: bool, now: Time): Job {
    var status := StatusAfter(job, done);
    job.(status := status, finishedAt := if Terminal(status) then Some(now) else job.finishedAt)
  }

  function ImportedJob(c: Config, job: Job, t: Table, batch: Batch, next: Time, now: Time): Job {
    var tally := CommitBatch(c.rules, Tally(t, job.succeeded, job.failed, job.skipped), batch.outs, job.target, next);
    var errors := FirstErrors(batch.outs, job.processed);
    Finish(job.(cursor := batch.newOffset, processed := job.processed + |batch.outs|,
                succeeded := tally.succeeded, failed := tally.failed, skipped := tally.skipped,
                summary := if errors != [] then LineErrors(errors) else job.summary),
           batch.eof, now)
  }

  function CommitImportStep(c: Config, s: State): State
    requires CanCommit(c, s, CommitImport)
  {
    var id := s.worker.job;
    var job := s.jobs[id];
    var job' := ImportedJob(c, job, s.table, s.worker.batch, s.now + s.intervalDays * DAY, s.now);
    s.(table := UpsertAll(s.table, BatchRows(c, s), job.target.mode), jobs := s.jobs[id := job'],
       traces := s.traces[id := s.traces[id].(batches := s.traces[id].batches + 1)],
       worker := if Terminal(job'.status) then Unlinking(id) else Idle)
  }

  function WorkedJob(
    c: Config, job: Job, work: seq<Work>, hits: seq<Id>, results: map<Id, AccountResult>, now: Time) : Job {
    if work == [] then Finish(job, true, now)
    else
      var ok := CountOk(hits, results);
      var job' := job.(cursor := work[|work| - 1].id, processed := job.processed + |work|,
                       succeeded := job.succeeded + ok,
                       failed := job.failed + if ok <= |hits| then |hits| - ok else 0);
      Finish(job', job'.processed >= job.total || |work| < c.workerBatch, now)
  }

  function CommitAccountsStep(c: Config, s: State, results: map<Id, AccountResult>): State
    requires CanCommit(c, s, CommitAccounts(results))
  {
    var id, work := s.worker.job, s.worker.work;
    var hits := Present(s.table, work);
    var trace := s.traces[id];
    s.(table := ApplyAll(s.table, results, s.now, s.intervalDays),
       jobs := s.jobs[id := WorkedJob(c, s.jobs[id], work, hits, results, s.now)],
       traces := s.traces[id := trace.(hits := trace.hits + hits, batches := trace.batches + 1,
                                       lost := trace.lost + if |hits| <= |work| then |work| - |hits| else 0,
                                       strangers := trace.strangers + Strangers(s, id, hits))],
       worker := Idle)
  }

  /** Those among these accounts that are not the ones the job was created for. */
  function Strangers(s: State, j: JobId, hits: seq<Id>): set<Id>
    requires j in s.traces
  {
    set id | id in hits && id !in Surviving(s, j)
  }

  predicate DueRefreshLive(s: State) {
    exists j :: j in s.jobs && LiveDueRefresh(s.jobs[j])
  }

  function SchedulerStep(s: State, id: JobId, date: int, minute: int, dueMinute: int): State {
    var seen := s.schedule.(lastSeen := date);
    if minute < dueMinute || s.schedule.marker == Some(date) then s.(schedule := seen)
    else
      var snapshot := Snapshot(s.table, Due, s.now);
      if DueRefreshLive(s) || snapshot == {} then s.(schedule := seen.(marker := Some(date)))
      else
        AddAccountJob(s, id, NewAccountJob(RefreshTokens, Due, SCHEDULED, snapshot, s.now), snapshot)
        .(schedule := seen.(marker := Some(date), dates := seen.dates + [date]))
  }

  function ScheduledJob(s: State): Job {
    NewAccountJob(RefreshTokens, Due, SCHEDULED, Snapshot(s.table, Due, s.now), s.now)
  }

  /** A scheduler tick changes the schedule, and at most adds the due-refresh job. */
  predicate ScheduledFrom(s: State, s': State, id: JobId) {
    || s' == s.(schedule := s'.schedule)
    || s' == AddAccountJob(s, id, ScheduledJob(s), Snapshot(s.table, Due, s.now)).(schedule := s'.schedule)
  }

  lemma SchedulerCases(s: State, id: JobId, date: int, minute: int, dueMinute: int)
    ensures ScheduledFrom(s, SchedulerStep(s, id, date, minute, dueMinute), id)
  {
  }

  // ----- Runs

  predicate Initial(s: State) {
    && s.jobs == map[] && s.spool == map[] && s.uploads == map[] && s.traces == map[] && s.gone == {}
    && TableOk(s.table) && TableLife(s.table) && 1 <= s.intervalDays <= 89
    && s.schedule.dates == [] && (s.schedule.marker.Some? ==> s.schedule.marker.value <= s.schedule.lastSeen)
    && s.worker == Down
  }

  /** The steps can be taken one after the other from `s`. */
  predicate Possible(c: Config, s: State, steps: seq<Step>)
    decreases |steps|, 0
  {
    steps == []
    || (Possible(c, s, steps[..|steps| - 1]) && Enabled(c, After(c, s, steps[..|steps| - 1]), steps[|steps| - 1]))
  }

  /** The state a run ends in. */
  function After(c: Config, s: State, steps: seq<Step>): State
    requires Possible(c, s, steps)
    decreases |steps|, 1
  {
    if steps == [] then s
    else Next(c, After(c, s, steps[..|steps| - 1]), steps[|steps| - 1])
  }
}
