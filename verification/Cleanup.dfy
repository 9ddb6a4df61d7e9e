/** Ended imports leave no file behind, unless the worker dies or the file system refuses: over every other run. */
module Cleanup {
  import opened Engine
  import opened QueueSafety
  import opened SpoolSafety

  predicate Ended(job: Job) {
    job.status == Completed || job.status == Failed || job.status == Cancelled
  }

  /** An ended import has no file, except while the worker is about to remove it. */
  predicate Gone(s: State, j: JobId) {
    j in s.jobs && s.jobs[j].kind == ImportFile && Ended(s.jobs[j]) ==> j !in s.spool || s.worker == Unlinking(j)
  }

  predicate AllGone(s: State) {
    forall j :: j in s.jobs ==> Gone(s, j)
  }

  /** The worker is not killed, and file removal works. */
  predicate Smooth(e: Step) {
    e != Life(Crash) && e != Upkeep(Unlink(false))
  }

  lemma GoneUpload(c: Config, s: State, u: UploadStep)
    requires QueueOk(s) && AllGone(s) && CanUpload(c, s, u)
    ensures AllGone(UploadNext(c, s, u))
  {
    JobsNotUploads(s);
    var s' := UploadNext(c, s, u);
    forall j | j in s'.jobs ensures Gone(s', j) {
      if j in s.jobs { assert Gone(s, j); }
    }
  }

  lemma GoneRequest(c: Config, s: State, r: RequestStep)
    requires AllGone(s) && CanRequest(c, s, r)
    ensures AllGone(RequestNext(c, s, r))
  {
    var s' := RequestNext(c, s, r);
    forall j | j in s'.jobs ensures Gone(s', j) {
      if j in s.jobs { assert Gone(s, j); }
    }
  }

  lemma GoneTake(c: Config, s: State, t: TakeStep)
    requires QueueOk(s) && AllGone(s) && CanTake(s, t)
    ensures AllGone(TakeNext(c, s, t))
  {
    var s' := TakeNext(c, s, t);
    forall j | j in s'.jobs ensures Gone(s', j) {
      assert Gone(s, j);
    }
  }

  lemma GoneCommit(c: Config, s: State, k: CommitStep)
    requires QueueOk(s) && AllGone(s) && CanCommit(c, s, k)
    ensures AllGone(CommitNext(c, s, k))
  {
    var s' := CommitNext(c, s, k);
    forall j | j in s'.jobs ensures Gone(s', j) {
      assert Gone(s, j);
    }
  }

  lemma GoneUpkeep(c: Config, s: State, m: UpkeepStep)
    requires AllGone(s) && CanUpkeep(c, s, m) && m != Unlink(false) && !m.SchedulerTick?
    ensures AllGone(UpkeepNext(c, s, m))
  {
    var s' := UpkeepNext(c, s, m);
    forall j | j in s'.jobs ensures Gone(s', j) {
      assert Gone(s, j);
    }
  }

  lemma GoneScheduled(s: State, s': State, id: JobId)
    requires AllGone(s) && ScheduledFrom(s, s', id)
    ensures AllGone(s')
  {
    forall j | j in s'.jobs ensures Gone(s', j) {
      if j in s.jobs { assert Gone(s, j); }
    }
  }

  lemma GoneRecover(s: State)
    requires AllGone(s) && s.worker == Down
    ensures AllGone(LifeNext(s, Recover))
  {
    forall j | j in s.jobs ensures Gone(LifeNext(s, Recover), j) {
      assert Gone(s, j);
    }
  }

  lemma GoneStep(c: Config, s: State, e: Step)
    requires QueueOk(s) && AllGone(s) && Enabled(c, s, e) && Smooth(e)
    ensures AllGone(Next(c, s, e))
  {
    match e
    case Upload(u) => GoneUpload(c, s, u);
    case Request(r) => GoneRequest(c, s, r);
    case Take(t) => GoneTake(c, s, t);
    case Commit(k) => GoneCommit(c, s, k);
    case Upkeep(m) =>
      if m.SchedulerTick? {
        SchedulerCases(s, m.id, m.date, m.minute, m.dueMinute);
        GoneScheduled(s, UpkeepNext(c, s, m), m.id);
      } else {
        GoneUpkeep(c, s, m);
      }
    case Life(l) => GoneRecover(s);
  }

  /** Over every smooth run the file of an ended import is gone as soon as the worker does something else. */
  lemma {:induction false} NoLeftovers(c: Config, s: State, steps: seq<Step>)
    requires Initial(s) && Possible(c, s, steps) && forall k :: 0 <= k < |steps| ==> Smooth(steps[k])
    ensures QueueOk(After(c, s, steps)) && AllGone(After(c, s, steps))
    decreases |steps|
  {
    if steps == [] {
      QueueInitial(s);
    } else {
      var before := steps[..|steps| - 1];
      NoLeftovers(c, s, before);
      QueueStep(c, After(c, s, before), steps[|steps| - 1]);
      GoneStep(c, After(c, s, before), steps[|steps| - 1]);
    }
  }
}
