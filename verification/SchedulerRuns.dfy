/**
 The daily scheduler over whole runs: when it creates a job, that two of its jobs are never live together, and
 that it serves no local date twice exactly if the observed date never goes back.
 */
module SchedulerRuns {
  import opened Prelude
  import opened Keyset
  import opened Engine
  import opened QueueSafety
  import opened Progress
  import opened SpoolSafety
  import opened LifeCycle

  predicate IsTick(e: Step) {
    e.Upkeep? && e.m.SchedulerTick?
  }

  /** A job that only the scheduler creates. */
  predicate Scheduled(job: Job) {
    job.priority == SCHEDULED
  }

  function ScheduledJobs(s: State): set<JobId> {
    set j | j in s.jobs && Scheduled(s.jobs[j])
  }

  /** The conditions under which a tick creates its job. */
  predicate Creates(s: State, date: int, minute: int, dueMinute: int) {
    && minute >= dueMinute && s.schedule.marker != Some(date)
    && !DueRefreshLive(s) && Snapshot(s.table, Due, s.now) != {}
  }

  lemma TickCreates(s: State, id: JobId, date: int, minute: int, dueMinute: int)
    requires id !in s.jobs
    ensures var s' := SchedulerStep(s, id, date, minute, dueMinute);
            if Creates(s, date, minute, dueMinute) then
              && s'.schedule.dates == s.schedule.dates + [date] && s'.jobs == s.jobs[id := ScheduledJob(s)]
            else s'.schedule.dates == s.schedule.dates && s'.jobs == s.jobs
    ensures var s' := SchedulerStep(s, id, date, minute, dueMinute);
            && s'.schedule.marker == (if minute >= dueMinute then Some(date) else s.schedule.marker)
            && s'.schedule.lastSeen == date
  {
  }

  lemma UpkeepSchedule(c: Config, s: State, m: UpkeepStep)
    requires CanUpkeep(c, s, m) && !m.SchedulerTick?
    ensures UpkeepNext(c, s, m).schedule == s.schedule
  {
  }

  lemma TakeSchedule(c: Config, s: State, t: TakeStep)
    requires CanTake(s, t)
    ensures TakeNext(c, s, t).schedule == s.schedule
  {
  }

  lemma ScheduleKept(c: Config, s: State, e: Step)
    requires Enabled(c, s, e) && !IsTick(e)
    ensures Next(c, s, e).schedule == s.schedule
  {
    match e
    case Upkeep(m) => UpkeepSchedule(c, s, m);
    case Take(t) => TakeSchedule(c, s, t);
    case Upload(u) => assert UploadNext(c, s, u).schedule == s.schedule;
    case Request(r) => assert RequestNext(c, s, r).schedule == s.schedule;
    case Commit(k) => assert CommitNext(c, s, k).schedule == s.schedule;
    case Life(l) =>
  }

  // ----- At most one scheduled job is live

  predicate LiveScheduled(s: State, j: JobId) {
    j in s.jobs && Scheduled(s.jobs[j]) && Live(s.jobs[j])
  }

  /** A live row of the scheduler's priority is a due refresh, and there is at most one. */
  ghost predicate OneLive(s: State) {
    && (forall j :: LiveScheduled(s, j) ==> LiveDueRefresh(s.jobs[j]))
    && (forall j, k :: LiveScheduled(s, j) && LiveScheduled(s, k) ==> j == k)
  }

  /** An old row keeps its kind, scope and priority, and does not come back to life. */
  predicate SameOrigin(a: Job, b: Job) {
    a.kind == b.kind && a.scope == b.scope && a.priority == b.priority && (Live(b) ==> Live(a))
  }

  lemma CommitOrigin(c: Config, s: State, k: CommitStep)
    requires QueueOk(s) && CanCommit(c, s, k)
    ensures var s', j := CommitNext(c, s, k), s.worker.job;
            && s'.jobs == s.jobs[j := s'.jobs[j]] && SameOrigin(s.jobs[j], s'.jobs[j])
  {
  }

  lemma OldOrigin(c: Config, s: State, e: Step, j: JobId)
    requires QueueOk(s) && Enabled(c, s, e) && j in s.jobs && j in Next(c, s, e).jobs
    ensures SameOrigin(s.jobs[j], Next(c, s, e).jobs[j])
  {
    if Commits(s, e, j) {
      CommitOrigin(c, s, e.k);
    } else {
      Traced(s);
      KeptStep(c, s, e, j);
    }
  }

  lemma UploadAdds(c: Config, s: State, u: UploadStep)
    requires CanUpload(c, s, u)
    ensures ScheduledJobs(UploadNext(c, s, u)) <= s.jobs.Keys
  {
  }

  lemma RequestAdds(c: Config, s: State, r: RequestStep)
    requires CanRequest(c, s, r)
    ensures ScheduledJobs(RequestNext(c, s, r)) <= s.jobs.Keys
  {
  }

  lemma TakeAdds(c: Config, s: State, t: TakeStep)
    requires CanTake(s, t)
    ensures ScheduledJobs(TakeNext(c, s, t)) <= s.jobs.Keys
  {
  }

  /** No step but a tick adds a row of the scheduler's priority. */
  lemma OthersAddNone(c: Config, s: State, e: Step)
    requires QueueOk(s) && Enabled(c, s, e) && !IsTick(e)
    ensures ScheduledJobs(Next(c, s, e)) <= s.jobs.Keys
  {
    match e
    case Upload(u) => UploadAdds(c, s, u);
    case Request(r) => RequestAdds(c, s, r);
    case Take(t) => TakeAdds(c, s, t);
    case Commit(k) => CommitOrigin(c, s, k);
    case _ =>
  }

  /** A row of the scheduler's priority is old, or comes from a tick that creates its job. */
  lemma Origin(c: Config, s: State, e: Step, j: JobId)
    requires QueueOk(s) && Enabled(c, s, e) && j in ScheduledJobs(Next(c, s, e))
    ensures j in s.jobs || (IsTick(e) && j == e.m.id && Creates(s, e.m.date, e.m.minute, e.m.dueMinute))
    ensures j !in s.jobs ==> LiveDueRefresh(Next(c, s, e).jobs[j]) && !DueRefreshLive(s)
  {
    Traced(s);
    if IsTick(e) {
      TickCreates(s, e.m.id, e.m.date, e.m.minute, e.m.dueMinute);
    } else {
      OthersAddNone(c, s, e);
    }
  }

  /** Where a live row of the scheduler's priority was before the step. */
  lemma WasLive(c: Config, s: State, e: Step, j: JobId)
    requires QueueOk(s) && OneLive(s) && Enabled(c, s, e) && LiveScheduled(Next(c, s, e), j)
    ensures LiveDueRefresh(Next(c, s, e).jobs[j])
    ensures LiveScheduled(s, j) || (IsTick(e) && j == e.m.id && forall k :: !LiveScheduled(s, k))
  {
    Origin(c, s, e, j);
    if j in s.jobs {
      OldOrigin(c, s, e, j);
    }
  }

  lemma OneLiveStep(c: Config, s: State, e: Step)
    requires QueueOk(s) && OneLive(s) && Enabled(c, s, e)
    ensures OneLive(Next(c, s, e))
  {
    var s' := Next(c, s, e);
    forall j | LiveScheduled(s', j) ensures LiveDueRefresh(s'.jobs[j]) {
      WasLive(c, s, e, j);
    }
    forall j, k | LiveScheduled(s', j) && LiveScheduled(s', k) ensures j == k {
      WasLive(c, s, e, j);
      WasLive(c, s, e, k);
    }
  }

  lemma {:induction false} RunOneLive(c: Config, s: State, steps: seq<Step>)
    requires Initial(s) && Possible(c, s, steps)
    ensures QueueOk(After(c, s, steps)) && OneLive(After(c, s, steps))
    decreases |steps|
  {
    if steps == [] {
      QueueInitial(s);
    } else {
      var before := steps[..|steps| - 1];
      RunOneLive(c, s, before);
      QueueStep(c, After(c, s, before), steps[|steps| - 1]);
      OneLiveStep(c, After(c, s, before), steps[|steps| - 1]);
    }
  }

  /** In every reachable state at most one of the scheduler's jobs is queued or running. */
  lemma OneScheduledLive(c: Config, s: State, steps: seq<Step>, t: State, j: JobId, k: JobId)
    requires Initial(s) && Possible(c, s, steps) && t == After(c, s, steps)
    requires LiveScheduled(t, j) && LiveScheduled(t, k)
    ensures j == k
  {
    RunOneLive(c, s, steps);
  }

  // ----- Every scheduled job is on time

  /** Wherever the run adds a scheduled job, the day's time has come, its date is booked and no due refresh is live. */
  predicate OnTime(c: Config, s: State, steps: seq<Step>)
    requires Possible(c, s, steps)
    decreases |steps|
  {
    steps == []
    || var before, e := steps[..|steps| - 1], steps[|steps| - 1];
       var t, t' := After(c, s, before), After(c, s, steps);
       && OnTime(c, s, before)
       && (ScheduledJobs(t') <= ScheduledJobs(t) <==> t'.schedule.dates == t.schedule.dates)
       && (!(ScheduledJobs(t') <= ScheduledJobs(t)) ==>
             && IsTick(e) && e.m.minute >= e.m.dueMinute && !DueRefreshLive(t)
             && ScheduledJobs(t') == ScheduledJobs(t) + {e.m.id} && t'.schedule.dates == t.schedule.dates + [e.m.date])
  }

  lemma QuietStep(c: Config, s: State, e: Step)
    requires QueueOk(s) && Enabled(c, s, e) && !IsTick(e)
    ensures ScheduledJobs(Next(c, s, e)) <= ScheduledJobs(s)
  {
    OthersAddNone(c, s, e);
    forall j | j in ScheduledJobs(Next(c, s, e)) ensures j in ScheduledJobs(s) {
      OldOrigin(c, s, e, j);
    }
  }

  lemma TickOnTime(s: State, s': State, id: JobId, date: int, minute: int, dueMinute: int)
    requires id !in s.jobs && s' == SchedulerStep(s, id, date, minute, dueMinute)
    ensures ScheduledJobs(s') <= ScheduledJobs(s) <==> s'.schedule.dates == s.schedule.dates
    ensures !(ScheduledJobs(s') <= ScheduledJobs(s)) ==>
              && minute >= dueMinute && !DueRefreshLive(s)
              && ScheduledJobs(s') == ScheduledJobs(s) + {id} && s'.schedule.dates == s.schedule.dates + [date]
  {
    TickCreates(s, id, date, minute, dueMinute);
    if Creates(s, date, minute, dueMinute) {
      assert ScheduledJobs(s') == ScheduledJobs(s) + {id};
      assert id in ScheduledJobs(s') && id !in ScheduledJobs(s);
    } else {
      assert ScheduledJobs(s') == ScheduledJobs(s);
    }
  }

  /** Over every run: no scheduled job before its time, none while a due refresh is live, one booked date for each. */
  lemma {:induction false} ScheduledOnTime(c: Config, s: State, steps: seq<Step>)
    requires Initial(s) && Possible(c, s, steps)
    ensures OnTime(c, s, steps)
    decreases |steps|
  {
    if steps != [] {
      var before, e := steps[..|steps| - 1], steps[|steps| - 1];
      var t := After(c, s, before);
      ScheduledOnTime(c, s, before);
      RunOneLive(c, s, before);
      Traced(t);
      if IsTick(e) {
        TickOnTime(t, After(c, s, steps), e.m.id, e.m.date, e.m.minute, e.m.dueMinute);
      } else {
        QuietStep(c, t, e);
        ScheduleKept(c, t, e);
      }
    }
  }

  // ----- No date twice

  /** Scheduled dates ascend up to the marker, and the marker is not ahead of the last date seen. */
  predicate ScheduleOk(c: Schedule) {
    && Increasing(c.dates)
    && (c.dates != [] ==> c.marker.Some?)
    && (forall d :: d in c.dates ==> d <= c.marker.value)
    && (c.marker.Some? ==> c.marker.value <= c.lastSeen)
  }

  /** What a tick may do to the schedule. */
  predicate Ticked(a: Schedule, b: Schedule, date: int) {
    && b.lastSeen == date
    && (b.marker == a.marker || b.marker == Some(date))
    && (b.dates == a.dates || (a.marker != Some(date) && b.marker == Some(date) && b.dates == a.dates + [date]))
  }

  lemma TickedOk(a: Schedule, b: Schedule, date: int)
    requires ScheduleOk(a) && Ticked(a, b, date) && a.lastSeen <= date
    ensures ScheduleOk(b)
  {
    assert forall k :: 0 <= k < |a.dates| ==> a.dates[k] in a.dates;
  }

  lemma TickIs(s: State, id: JobId, date: int, minute: int, dueMinute: int)
    ensures Ticked(s.schedule, SchedulerStep(s, id, date, minute, dueMinute).schedule, date)
  {
  }

  lemma {:induction false} RunScheduleOk(c: Config, s: State, steps: seq<Step>)
    requires c.dateSlip == 0 && Initial(s) && Possible(c, s, steps)
    ensures ScheduleOk(After(c, s, steps).schedule)
    decreases |steps|
  {
    if steps != [] {
      var before, e := steps[..|steps| - 1], steps[|steps| - 1];
      RunScheduleOk(c, s, before);
      if IsTick(e) {
        TickIs(After(c, s, before), e.m.id, e.m.date, e.m.minute, e.m.dueMinute);
        TickedOk(After(c, s, before).schedule, After(c, s, steps).schedule, e.m.date);
      } else {
        ScheduleKept(c, After(c, s, before), e);
      }
    }
  }

  predicate NoRepeats(dates: seq<int>) {
    forall i, j :: 0 <= i < j < |dates| ==> dates[i] != dates[j]
  }

  /** No run creates two scheduled jobs for one local date. */
  ghost predicate NeverTwice(c: Config) {
    forall s, steps :: Initial(s) && Possible(c, s, steps) ==> NoRepeats(After(c, s, steps).schedule.dates)
  }

  /** The worker rests, every job has ended, and the one account is due. */
  predicate Rested(s: State) {
    && s.worker == Idle && s.table == OneAccount().table && s.now == 0 && s.jobs.Keys <= s.used
    && forall j :: j in s.jobs ==> Terminal(s.jobs[j].status)
  }

  /** A tick at `date` creates a job, which is cancelled and closed at once. */
  lemma ServeDate(c: Config, steps: seq<Step>, s: State, id: JobId, date: int) returns (longer: seq<Step>, t: State)
    requires Possible(c, OneAccount(), steps) && s == After(c, OneAccount(), steps) && Rested(s)
    requires id !in s.used && s.schedule.marker != Some(date) && s.schedule.lastSeen <= date + c.dateSlip
    ensures Possible(c, OneAccount(), longer) && t == After(c, OneAccount(), longer) && Rested(t)
    ensures t.used == s.used + {id} && t.schedule == Schedule(Some(date), date, s.schedule.dates + [date])
  {
    longer := Then(c, OneAccount(), steps, Upkeep(SchedulerTick(id, date, 0, 0)));
    TickServes(s, id, date);
    longer := Then(c, OneAccount(), longer, Request(CancelJob(id)));
    longer := Then(c, OneAccount(), longer, Take(Claim(id)));
    t := After(c, OneAccount(), longer);
  }

  lemma TickServes(s: State, id: JobId, date: int)
    requires Rested(s) && id !in s.used && s.schedule.marker != Some(date)
    ensures var t := SchedulerStep(s, id, date, 0, 0);
            && t == AddAccountJob(s, id, ScheduledJob(s), Snapshot(s.table, Due, s.now)).(schedule := t.schedule)
            && t.schedule == Schedule(Some(date), date, s.schedule.dates + [date])
  {
    assert 1 in Snapshot(s.table, Due, s.now);
  }

  /** If the date may go back, the days 1, 2, 1 give three scheduled jobs, two of them for day 1. */
  lemma ServedTwice(c: Config) returns (steps: seq<Step>, s: State)
    requires c.dateSlip >= 1
    ensures Initial(OneAccount()) && Possible(c, OneAccount(), steps) && s == After(c, OneAccount(), steps)
    ensures s.schedule.dates == [1, 2, 1]
  {
    steps := StartUp(c);
    s := Started();
    steps, s := ServeDate(c, steps, s, "a", 1);
    steps, s := ServeDate(c, steps, s, "b", 2);
    steps, s := ServeDate(c, steps, s, "c", 1);
  }

  /** The scheduler serves no local date twice, over every run, exactly if the observed date never goes back. */
  lemma NeverTwiceIffNoSlip(c: Config)
    ensures NeverTwice(c) <==> c.dateSlip == 0
  {
    if c.dateSlip == 0 {
      forall s, steps | Initial(s) && Possible(c, s, steps) ensures NoRepeats(After(c, s, steps).schedule.dates) {
        RunScheduleOk(c, s, steps);
      }
    } else {
      var steps, s := ServedTwice(c);
      assert s.schedule.dates[0] == s.schedule.dates[2];
    }
  }
}
