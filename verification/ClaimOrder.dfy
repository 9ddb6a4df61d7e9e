/**
 Which job is next: over every run, queued jobs over selected accounts go first, then imports, then other jobs a
 user started, then the scheduler's; of the same rank, the older one.
 */
module ClaimOrder {
  import opened Engine
  import opened QueueSafety
  import opened SchedulerRuns

  /** A job's rank by what it is for; only the scheduler's due refresh has the lowest. */
  predicate Ranked(job: Job) {
    if job.kind == ImportFile then job.priority == 70
    else if job.scope.Selected? then job.priority == 100
    else job.priority == 40 || (job.priority == 20 && job.scope == Due && job.kind == RefreshTokens)
  }

  lemma NewUpload(c: Config, s: State, u: UploadStep, j: JobId)
    requires CanUpload(c, s, u) && j !in s.jobs && j in UploadNext(c, s, u).jobs
    ensures Ranked(UploadNext(c, s, u).jobs[j])
  {
  }

  lemma NewRequest(c: Config, s: State, r: RequestStep, j: JobId)
    requires CanRequest(c, s, r) && j !in s.jobs && j in RequestNext(c, s, r).jobs
    ensures Ranked(RequestNext(c, s, r).jobs[j])
  {
  }

  lemma NewTick(s: State, s': State, id: JobId, j: JobId)
    requires ScheduledFrom(s, s', id) && j !in s.jobs && j in s'.jobs
    ensures Ranked(s'.jobs[j])
  {
  }

  lemma OthersAddNoRow(c: Config, s: State, e: Step)
    requires QueueOk(s) && Enabled(c, s, e) && !e.Upload? && !e.Request? && !IsTick(e)
    ensures Next(c, s, e).jobs.Keys <= s.jobs.Keys
  {
    match e
    case Take(t) => TakeRows(c, s, t);
    case Commit(k) => CommitOrigin(c, s, k);
    case _ =>
  }

  lemma TakeRows(c: Config, s: State, t: TakeStep)
    requires CanTake(s, t)
    ensures TakeNext(c, s, t).jobs.Keys == s.jobs.Keys
  {
  }

  lemma NewRanked(c: Config, s: State, e: Step, j: JobId)
    requires QueueOk(s) && Enabled(c, s, e) && j !in s.jobs && j in Next(c, s, e).jobs
    ensures Ranked(Next(c, s, e).jobs[j])
  {
    if e.Upload? {
      NewUpload(c, s, e.u, j);
    } else if e.Request? {
      NewRequest(c, s, e.r, j);
    } else if IsTick(e) {
      SchedulerCases(s, e.m.id, e.m.date, e.m.minute, e.m.dueMinute);
      NewTick(s, Next(c, s, e), e.m.id, j);
    } else {
      OthersAddNoRow(c, s, e);
    }
  }

  lemma {:induction false} RunRanked(c: Config, s: State, steps: seq<Step>)
    requires Initial(s) && Possible(c, s, steps)
    ensures QueueOk(After(c, s, steps))
    ensures forall j :: j in After(c, s, steps).jobs ==> Ranked(After(c, s, steps).jobs[j])
    decreases |steps|
  {
    if steps == [] {
      QueueInitial(s);
    } else {
      var before, e := steps[..|steps| - 1], steps[|steps| - 1];
      var t := After(c, s, before);
      RunRanked(c, s, before);
      QueueStep(c, t, e);
      forall j | j in After(c, s, steps).jobs ensures Ranked(After(c, s, steps).jobs[j]) {
        if j in t.jobs { OldOrigin(c, t, e, j); } else { NewRanked(c, t, e, j); }
      }
    }
  }

  /** What the worker may claim in any reachable state, given some queued job `j`. */
  lemma NextInOrder(c: Config, s: State, steps: seq<Step>, t: State, id: JobId, j: JobId)
    requires Initial(s) && Possible(c, s, steps) && t == After(c, s, steps) && CanTake(t, Claim(id))
    requires j in t.jobs && t.jobs[j].status == Queued
    ensures id in t.jobs && t.jobs[id].status == Queued
    ensures var a, b := t.jobs[id], t.jobs[j];
            && (b.kind != ImportFile && b.scope.Selected? ==> a.kind != ImportFile && a.scope.Selected?)
            && (b.kind == ImportFile ==> a.kind == ImportFile || a.scope.Selected?)
            && (b.kind != ImportFile && b.priority == 40 ==>
                  a.kind == ImportFile || a.scope.Selected? || a.priority == 40)
            && (a.priority == b.priority ==> a.createdAt <= b.createdAt)
  {
    RunRanked(c, s, steps);
    assert Ranked(t.jobs[id]) && Ranked(t.jobs[j]);
  }
}
