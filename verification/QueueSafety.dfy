/**
 Safety of the job queue over every run: one running job, terminal statuses for good, finish times, and what
 a cancel request guarantees.
 */
module QueueSafety {
  import opened Prelude
  import opened Accounts
  import opened Engine

  /** Every id is accounted for: a job row has a trace, and an unpublished upload has neither. */
  predicate IdsOk(s: State) {
    && (forall j :: j in s.traces ==> j in s.used && j !in s.uploads)
    && (forall j :: j in s.uploads ==> j in s.used)
    && (forall j :: j in s.spool ==> j in s.used)
  }

  predicate FinishOk(job: Job) {
    job.finishedAt.Some? <==> Terminal(job.status)
  }

  /** The worker's position agrees with the row it is working on. */
  predicate WorkerOk(s: State) {
    match s.worker
    case Claimed(j) => j in s.jobs && s.jobs[j].status == Running
    case HasBatch(j, _) => j in s.jobs && s.jobs[j].status == Running && s.jobs[j].kind == ImportFile
    case HasWork(j, _) => j in s.jobs && s.jobs[j].status == Running && s.jobs[j].kind != ImportFile
    case Unlinking(j) => j in s.jobs && Terminal(s.jobs[j].status) && s.jobs[j].kind == ImportFile
    case _ => true
  }

  /** A row is traced, finished exactly if terminal, and running only in the worker's hands or a dead worker's. */
  predicate RowOk(s: State, j: JobId)
    requires j in s.jobs
  {
    && j in s.traces && FinishOk(s.jobs[j])
    && (s.jobs[j].status == Running ==> s.worker == Down || Holds(s.worker, j))
  }

  predicate OneRunning(s: State) {
    forall j, k :: j in s.jobs && k in s.jobs && s.jobs[j].status == Running && s.jobs[k].status == Running ==> j == k
  }

  predicate QueueOk(s: State) {
    && IdsOk(s) && WorkerOk(s) && OneRunning(s)
    && forall j :: j in s.jobs ==> RowOk(s, j)
  }

  lemma QueueInitial(s: State)
    requires Initial(s)
    ensures QueueOk(s)
  {
  }

  lemma AddJobKeeps(s: State, id: JobId, job: Job, snapshot: set<Id>)
    requires QueueOk(s) && id !in s.used && job.status == Queued && job.finishedAt == None
    ensures QueueOk(AddAccountJob(s, id, job, snapshot))
  {
    var s' := AddAccountJob(s, id, job, snapshot);
    assert id !in s.traces && id !in s.jobs && id !in s.uploads;
    forall j | j in s'.jobs ensures RowOk(s', j) {
      if j != id { assert RowOk(s, j); }
    }
  }

  /** Rewriting one row, together with the worker's position. */
  lemma PutJobKeeps(s: State, id: JobId, job: Job, w: Worker)
    requires QueueOk(s) && id in s.jobs && FinishOk(job)
    requires w == s.worker || s.worker == Idle || Holds(s.worker, id)
    requires job.status == Running ==> (s.jobs[id].status == Running && w == s.worker) || Holds(w, id)
    requires WorkerOk(s.(jobs := s.jobs[id := job], worker := w))
    ensures QueueOk(PutJob(s, id, job).(worker := w))
  {
    var s' := PutJob(s, id, job).(worker := w);
    forall j | j in s'.jobs ensures RowOk(s', j) {
      assert RowOk(s, j);
    }
    assert RowOk(s, id);
  }

  /** Nothing the queue invariant looks at has changed. */
  lemma SameRows(s: State, s': State)
    requires QueueOk(s) && s'.jobs == s.jobs && s'.worker == s.worker && s'.traces.Keys == s.traces.Keys
    requires s'.used == s.used && s'.uploads == s.uploads && s'.spool == s.spool
    ensures QueueOk(s')
  {
    forall j | j in s'.jobs ensures RowOk(s', j) {
      assert RowOk(s, j) && j in s'.traces.Keys;
    }
  }

  lemma QueueUpload(c: Config, s: State, u: UploadStep)
    requires QueueOk(s) && CanUpload(c, s, u)
    ensures QueueOk(UploadNext(c, s, u))
  {
  }

  lemma QueueRequest(c: Config, s: State, r: RequestStep)
    requires QueueOk(s) && CanRequest(c, s, r)
    ensures QueueOk(RequestNext(c, s, r))
  {
    match r
    case CreateAccountJob(id, kind, scope) =>
      var snapshot := Snapshot(s.table, scope, s.now);
      AddJobKeeps(s, id, NewAccountJob(kind, scope, if scope.Selected? then 100 else 40, snapshot, s.now), snapshot);
    case CancelJob(id) =>
      assert RowOk(s, id);
      PutJobKeeps(s, id, s.jobs[id].(cancelRequested := true), s.worker);
    case _ =>
      var s' := RequestNext(c, s, r);
      forall j | j in s'.jobs ensures RowOk(s', j) {
        assert RowOk(s, j);
      }
  }

  lemma QueueTake(c: Config, s: State, t: TakeStep)
    requires QueueOk(s) && CanTake(s, t)
    ensures QueueOk(TakeNext(c, s, t))
  {
    match t
    case Claim(id) =>
      var job := s.jobs[id];
      assert RowOk(s, id);
      if job.cancelRequested {
        PutJobKeeps(s, id, job.(status := Cancelled, finishedAt := Some(s.now)), AfterTerminal(job, id));
      } else {
        PutJobKeeps(s, id, job.(status := Running), Claimed(id));
      }
    case FailJob =>
      var id := s.worker.job;
      var failed := s.jobs[id].(status := Failed, finishedAt := Some(s.now), summary := Exception);
      PutJobKeeps(s, id, failed, AfterTerminal(s.jobs[id], id));
    case _ =>
      var s' := TakeNext(c, s, t);
      forall j | j in s'.jobs ensures RowOk(s', j) {
        assert RowOk(s, j);
      }
  }

  lemma QueueCommit(c: Config, s: State, k: CommitStep)
    requires QueueOk(s) && CanCommit(c, s, k)
    ensures QueueOk(CommitNext(c, s, k))
  {
    var s' := CommitNext(c, s, k);
    var id := s.worker.job;
    PutJobKeeps(s, id, s'.jobs[id], s'.worker);
    assert s'.jobs == s.jobs[id := s'.jobs[id]];
    SameRows(PutJob(s, id, s'.jobs[id]).(worker := s'.worker), s');
  }

  lemma QueueUpkeep(c: Config, s: State, m: UpkeepStep)
    requires QueueOk(s) && CanUpkeep(c, s, m) && !m.SchedulerTick?
    ensures QueueOk(UpkeepNext(c, s, m))
  {
  }

  lemma QueueScheduled(s: State, s': State, id: JobId)
    requires QueueOk(s) && id !in s.used && ScheduledFrom(s, s', id)
    ensures QueueOk(s')
  {
    if s' == s.(schedule := s'.schedule) {
      SameRows(s, s');
    } else {
      var t := AddAccountJob(s, id, ScheduledJob(s), Snapshot(s.table, Due, s.now));
      AddJobKeeps(s, id, ScheduledJob(s), Snapshot(s.table, Due, s.now));
      SameRows(t, s');
    }
  }

  lemma QueueLife(s: State, l: LifeStep)
    requires QueueOk(s) && (l == Crash <==> s.worker != Down)
    ensures QueueOk(LifeNext(s, l))
  {
  }

  lemma QueueStep(c: Config, s: State, e: Step)
    requires QueueOk(s) && Enabled(c, s, e)
    ensures QueueOk(Next(c, s, e))
  {
    match e
    case Upload(u) => QueueUpload(c, s, u);
    case Request(r) => QueueRequest(c, s, r);
    case Take(t) => QueueTake(c, s, t);
    case Commit(k) => QueueCommit(c, s, k);
    case Upkeep(m) => 
      if m.SchedulerTick? {
        SchedulerCases(s, m.id, m.date, m.minute, m.dueMinute);
        QueueScheduled(s, UpkeepNext(c, s, m), m.id);
      } else {
        QueueUpkeep(c, s, m);
      }
    case Life(l) => QueueLife(s, l);
  }

  // ----- Whole runs

  lemma {:induction false} RunQueueOk(c: Config, s: State, steps: seq<Step>)
    requires QueueOk(s) && Possible(c, s, steps)
    ensures QueueOk(After(c, s, steps))
    decreases |steps|
  {
    if steps != [] {
      var before := steps[..|steps| - 1];
      RunQueueOk(c, s, before);
      QueueStep(c, After(c, s, before), steps[|steps| - 1]);
    }
  }

  /**
   In every reachable state at most one job is running, none while the worker is at the top of its loop, and a
   job has a finish time exactly if its status is terminal.
   */
  lemma QueueSafe(c: Config, s: State, steps: seq<Step>, j: JobId, k: JobId)
    requires Initial(s) && Possible(c, s, steps)
    ensures var t := After(c, s, steps);
            && (j in t.jobs ==> (t.jobs[j].finishedAt.Some? <==> Terminal(t.jobs[j].status)))
            && (j in t.jobs && t.jobs[j].status == Running ==> t.worker != Idle)
            && (j in t.jobs && k in t.jobs && t.jobs[j].status == Running && t.jobs[k].status == Running ==> j == k)
  {
    QueueInitial(s);
    RunQueueOk(c, s, steps);
    var t := After(c, s, steps);
    if j in t.jobs {
      assert RowOk(t, j);
    }
  }

  // ----- The life of one row

  /** How a row and the number of batches committed for it may change in one step. */
  predicate RowMoves(a: Job, b: Job, batches: nat, batches': nat) {
    && (Terminal(a.status) ==> b == a)
    && (a.cancelRequested ==> b.cancelRequested && (b.status == Completed ==> a.status == Completed))
    && (a.cancelRequested && a.status == Queued ==> b.status != Running)
    && batches <= batches' <= batches + 1
    && (batches' > batches ==> a.status == Running && b.status != Running)
  }

  predicate Moves(s: State, s': State, j: JobId)
    requires j in s.traces
  {
    && j in s'.traces && (j in s'.jobs ==> j in s.jobs)
    && (j in s.jobs ==>
          if j in s'.jobs then RowMoves(s.jobs[j], s'.jobs[j], s.traces[j].batches, s'.traces[j].batches)
          else Terminal(s.jobs[j].status) && s'.traces[j] == s.traces[j])
    && (j !in s.jobs ==> s'.traces[j] == s.traces[j])
  }

  lemma MovesUpload(c: Config, s: State, u: UploadStep, j: JobId)
    requires QueueOk(s) && CanUpload(c, s, u) && j in s.traces
    ensures Moves(s, UploadNext(c, s, u), j)
  {
  }

  lemma MovesRequest(c: Config, s: State, r: RequestStep, j: JobId)
    requires QueueOk(s) && CanRequest(c, s, r) && j in s.traces
    ensures Moves(s, RequestNext(c, s, r), j)
  {
  }

  lemma MovesTake(c: Config, s: State, t: TakeStep, j: JobId)
    requires QueueOk(s) && CanTake(s, t) && j in s.traces
    ensures Moves(s, TakeNext(c, s, t), j)
  {
  }

  lemma MovesCommit(c: Config, s: State, k: CommitStep, j: JobId)
    requires QueueOk(s) && CanCommit(c, s, k) && j in s.traces
    ensures Moves(s, CommitNext(c, s, k), j)
  {
  }

  lemma MovesUpkeep(c: Config, s: State, m: UpkeepStep, j: JobId)
    requires QueueOk(s) && CanUpkeep(c, s, m) && j in s.traces
    ensures Moves(s, UpkeepNext(c, s, m), j)
  {
  }

  lemma MovesLife(s: State, l: LifeStep, j: JobId)
    requires QueueOk(s) && j in s.traces
    ensures Moves(s, LifeNext(s, l), j)
  {
  }

  lemma MovesStep(c: Config, s: State, e: Step, j: JobId)
    requires QueueOk(s) && Enabled(c, s, e) && j in s.traces
    ensures Moves(s, Next(c, s, e), j)
  {
    match e
    case Upload(u) => MovesUpload(c, s, u, j);
    case Request(r) => MovesRequest(c, s, r, j);
    case Take(t) => MovesTake(c, s, t, j);
    case Commit(k) => MovesCommit(c, s, k, j);
    case Upkeep(m) => MovesUpkeep(c, s, m, j);
    case Life(l) => MovesLife(s, l, j);
  }

  /** A terminal row stays as it is until maintenance deletes it, and it never comes back. */
  lemma {:induction false} TerminalForever(c: Config, s: State, steps: seq<Step>, j: JobId)
    requires QueueOk(s) && Possible(c, s, steps)
    requires j in s.jobs && Terminal(s.jobs[j].status)
    ensures var t := After(c, s, steps);
            j in t.traces && (j in t.jobs ==> t.jobs[j] == s.jobs[j])
    decreases |steps|
  {
    assert RowOk(s, j);
    if steps != [] {
      var before := steps[..|steps| - 1];
      TerminalForever(c, s, before, j);
      RunQueueOk(c, s, before);
      MovesStep(c, After(c, s, before), steps[|steps| - 1], j);
    }
  }

  /** A cancel request is accepted exactly for a queued or running job, and then only sets its flag. */
  lemma CancelSetsFlag(c: Config, s: State, id: JobId)
    ensures CanRequest(c, s, CancelJob(id)) <==>
              id in s.jobs && (s.jobs[id].status == Queued || s.jobs[id].status == Running)
    ensures CanRequest(c, s, CancelJob(id)) ==>
              RequestNext(c, s, CancelJob(id)) == s.(jobs := s.jobs[id := s.jobs[id].(cancelRequested := true)])
  {
    if id in s.jobs {
      var x := s.jobs[id].status;
      assert x == Queued || x == Running || x == Completed || x == Failed || x == Cancelled;
    }
  }

  /** The batches `j` has committed, plus the one it may still commit. */
  function Allowance(s: State, j: JobId): nat
    requires j in s.traces
  {
    s.traces[j].batches + if j in s.jobs && s.jobs[j].status == Running then 1 else 0
  }

  /**
   A job whose cancel flag is set while it is live commits at most one more batch, none if it was queued, and
   is never completed.
   */
  lemma {:induction false} CancelHonoured(c: Config, s: State, steps: seq<Step>, j: JobId)
    requires QueueOk(s) && Possible(c, s, steps)
    requires j in s.jobs && Live(s.jobs[j]) && s.jobs[j].cancelRequested
    ensures j in s.traces
    ensures var t := After(c, s, steps);
            && j in t.traces && Allowance(t, j) <= Allowance(s, j)
            && (j in t.jobs ==> t.jobs[j].cancelRequested && t.jobs[j].status != Completed)
    decreases |steps|
  {
    assert RowOk(s, j);
    if steps != [] {
      var before := steps[..|steps| - 1];
      CancelHonoured(c, s, before, j);
      RunQueueOk(c, s, before);
      MovesStep(c, After(c, s, before), steps[|steps| - 1], j);
    }
  }
}
