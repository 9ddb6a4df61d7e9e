/**
 Spool safety: a queued or running import always has its file, whatever crashes and sweeps happen, and the
 sweep can remove exactly the old files no live import needs. The guarantee holds if and only if the pauses
 of an upload and the lag of a sweep together stay within the sweep age.
 */
module SpoolSafety {
  import opened Prelude
  import opened Lines
  import opened Accounts
  import opened ImportPass
  import opened Engine
  import opened QueueSafety

  predicate FilesPresent(s: State) {
    forall j :: j in s.jobs && LiveImport(s.jobs[j]) ==>
      j in s.traces && j in s.spool && s.spool[j].data == s.traces[j].content
  }

  /** An upload that has not paused too long still has its file, with all it has written. */
  predicate UploadsPresent(c: Config, s: State) {
    forall u :: u in s.uploads && s.now - s.uploads[u].written <= c.uploadPause ==>
      u in s.spool && s.spool[u] == s.uploads[u]
  }

  /** The sweep's list is of live imports; a live import it misses was written recently enough. */
  predicate ListOk(c: Config, s: State, active: set<JobId>, listedAt: Time) {
    && listedAt <= s.now
    && (forall j :: j in active ==> j in s.jobs && LiveImport(s.jobs[j]))
    && (forall j :: j in s.jobs && LiveImport(s.jobs[j]) && j !in active ==>
          j in s.spool && s.spool[j].written >= listedAt - c.uploadPause)
  }

  predicate SweepOk(c: Config, s: State) {
    match s.worker
    case Listed(active, at) => ListOk(c, s, active, at)
    case Sweeping(active, at, cutoff) => ListOk(c, s, active, at) && cutoff <= at - c.uploadPause
    case _ => true
  }

  predicate SpoolOk(c: Config, s: State) {
    FilesPresent(s) && UploadsPresent(c, s) && SweepOk(c, s)
  }

  lemma SpoolUpload(c: Config, s: State, u: UploadStep)
    requires QueueOk(s) && SpoolOk(c, s) && CanUpload(c, s, u) && c.uploadPause >= 0
    ensures SpoolOk(c, UploadNext(c, s, u))
  {
    JobsNotUploads(s);
  }

  lemma JobsNotUploads(s: State)
    requires QueueOk(s)
    ensures forall j :: j in s.jobs ==> j in s.traces && j in s.used && j !in s.uploads
  {
    forall j | j in s.jobs ensures j in s.traces && j in s.used && j !in s.uploads {
      assert RowOk(s, j);
    }
  }

  lemma SpoolAddJob(c: Config, s: State, id: JobId, job: Job, snapshot: set<Id>)
    requires QueueOk(s) && SpoolOk(c, s) && id !in s.used && job.kind != ImportFile
    ensures SpoolOk(c, AddAccountJob(s, id, job, snapshot))
  {
    JobsNotUploads(s);
  }

  lemma SpoolRequest(c: Config, s: State, r: RequestStep)
    requires QueueOk(s) && SpoolOk(c, s) && CanRequest(c, s, r)
    ensures SpoolOk(c, RequestNext(c, s, r))
  {
    match r
    case CreateAccountJob(id, kind, scope) =>
      var snapshot := Snapshot(s.table, scope, s.now);
      SpoolAddJob(c, s, id, NewAccountJob(kind, scope, if scope.Selected? then 100 else 40, snapshot, s.now), snapshot);
    case _ =>
  }

  lemma SpoolTake(c: Config, s: State, t: TakeStep)
    requires QueueOk(s) && SpoolOk(c, s) && CanTake(s, t)
    ensures SpoolOk(c, TakeNext(c, s, t))
  {
  }

  lemma SpoolCommit(c: Config, s: State, k: CommitStep)
    requires QueueOk(s) && SpoolOk(c, s) && CanCommit(c, s, k)
    ensures SpoolOk(c, CommitNext(c, s, k))
  {
  }

  lemma SpoolUpkeep(c: Config, s: State, m: UpkeepStep)
    requires QueueOk(s) && SpoolOk(c, s) && CanUpkeep(c, s, m) && !m.SchedulerTick?
    requires c.uploadPause + c.sweepLag <= SWEEP_AGE
    ensures SpoolOk(c, UpkeepNext(c, s, m))
  {
    JobsNotUploads(s);
  }

  lemma SpoolScheduled(c: Config, s: State, s': State, id: JobId)
    requires QueueOk(s) && SpoolOk(c, s) && id !in s.used && ScheduledFrom(s, s', id)
    ensures SpoolOk(c, s')
  {
    SpoolAddJob(c, s, id, ScheduledJob(s), Snapshot(s.table, Due, s.now));
  }

  lemma SpoolLife(c: Config, s: State, l: LifeStep)
    requires QueueOk(s) && SpoolOk(c, s)
    ensures SpoolOk(c, LifeNext(s, l))
  {
  }

  lemma SpoolStep(c: Config, s: State, e: Step)
    requires SettingsOk(c) && c.uploadPause + c.sweepLag <= SWEEP_AGE
    requires QueueOk(s) && SpoolOk(c, s) && Enabled(c, s, e)
    ensures SpoolOk(c, Next(c, s, e))
  {
    match e
    case Upload(u) => SpoolUpload(c, s, u);
    case Request(r) => SpoolRequest(c, s, r);
    case Take(t) => SpoolTake(c, s, t);
    case Commit(k) => SpoolCommit(c, s, k);
    case Upkeep(m) =>
      if m.SchedulerTick? {
        SchedulerCases(s, m.id, m.date, m.minute, m.dueMinute);
        SpoolScheduled(c, s, UpkeepNext(c, s, m), m.id);
      } else {
        SpoolUpkeep(c, s, m);
      }
    case Life(l) => SpoolLife(c, s, l);
  }

  lemma {:induction false} RunSpoolOk(c: Config, s: State, steps: seq<Step>)
    requires SettingsOk(c) && c.uploadPause + c.sweepLag <= SWEEP_AGE
    requires Initial(s) && Possible(c, s, steps)
    ensures QueueOk(After(c, s, steps)) && SpoolOk(c, After(c, s, steps))
    decreases |steps|
  {
    if steps == [] {
      QueueInitial(s);
    } else {
      var before := steps[..|steps| - 1];
      RunSpoolOk(c, s, before);
      QueueStep(c, After(c, s, before), steps[|steps| - 1]);
      SpoolStep(c, After(c, s, before), steps[|steps| - 1]);
    }
  }

  // ----- When the bounds are not met

  lemma Extend(c: Config, s: State, steps: seq<Step>, e: Step)
    requires Possible(c, s, steps) && Enabled(c, After(c, s, steps), e)
    ensures Possible(c, s, steps + [e]) && After(c, s, steps + [e]) == Next(c, After(c, s, steps), e)
  {
    assert (steps + [e])[..|steps + [e]| - 1] == steps;
  }

  /** The last step of a run. */
  lemma LastStep(c: Config, s: State, steps: seq<Step>, before: seq<Step>, e: Step)
    requires steps == before + [e] && Possible(c, s, steps)
    ensures Possible(c, s, before) && Enabled(c, After(c, s, before), e)
    ensures After(c, s, steps) == Next(c, After(c, s, before), e)
  {
    assert steps[..|steps| - 1] == before;
  }

  lemma NoMore(c: Config, s: State, first: seq<Step>)
    requires Possible(c, s, first)
    ensures Possible(c, s, first + []) && After(c, s, first + []) == After(c, After(c, s, first), [])
  {
    assert first + [] == first;
  }

  /** One run after another. */
  lemma {:induction false} Compose(c: Config, s: State, first: seq<Step>, more: seq<Step>)
    requires Possible(c, s, first) && Possible(c, After(c, s, first), more)
    ensures Possible(c, s, first + more) && After(c, s, first + more) == After(c, After(c, s, first), more)
    decreases |more|
  {
    if more == [] {
      NoMore(c, s, first);
    } else {
      var before, e := more[..|more| - 1], more[|more| - 1];
      LastStep(c, After(c, s, first), more, before, e);
      Compose(c, s, first, before);
      Extend(c, s, first + before, e);
      assert first + before + [e] == first + more;
    }
  }

  function EmptyState(): State {
    State(map[], Table(map[], map[], 1), map[], map[], map[], {}, {}, 0, 60, Schedule(None, 0, []), Down)
  }

  /**
   The sweep lists the live imports, an upload that paused for as long as allowed is published, and the sweep
   then takes its cutoff as late as allowed: if the two delays exceed the sweep age, the published file goes.
   */
  lemma StalledSweep(c: Config) returns (steps: seq<Step>)
    requires SettingsOk(c) && c.uploadPause + c.sweepLag > SWEEP_AGE
    ensures Initial(EmptyState()) && Possible(c, EmptyState(), steps)
    ensures !FilesPresent(After(c, EmptyState(), steps))
  {
    var s := EmptyState();
    var first: seq<Step> := [
      Life(Recover), Upload(CreateSpool("a", [NL])), Request(Wait(c.uploadPause)), Upkeep(ListActive)
    ];
    StallUntilListed(c, first);
    var target := Target("", Update);
    steps := Then(c, s, first, Upload(PublishImport("a", target)));
    steps := Then(c, s, steps, Request(Wait(c.sweepLag)));
    steps := Then(c, s, steps, Upkeep(FixCutoff));
    var t := After(c, s, steps);
    assert "a" in t.spool && "a" !in t.worker.active && t.spool["a"].written == 0;
    steps := Then(c, s, steps, Upkeep(SweepFile("a")));
    assert "a" in After(c, s, steps).jobs;
  }

  lemma Then(c: Config, s: State, steps: seq<Step>, e: Step) returns (longer: seq<Step>)
    requires Possible(c, s, steps) && Enabled(c, After(c, s, steps), e)
    ensures longer == steps + [e] && Possible(c, s, longer) && After(c, s, longer) == Next(c, After(c, s, steps), e)
  {
    longer := steps + [e];
    Extend(c, s, steps, e);
  }

  /** The state once the sweep has listed no live import, with an upload waiting. */
  function ListedState(c: Config): State {
    var file := SpoolFile([NL], 0);
    State(map[], Table(map[], map[], 1), map["a" := file], map["a" := file], map[], {}, {"a"}, c.uploadPause, 60,
          Schedule(None, 0, []), Listed({}, c.uploadPause))
  }

  lemma StallUntilListed(c: Config, script: seq<Step>)
    requires SettingsOk(c)
    requires script == [
      Life(Recover), Upload(CreateSpool("a", [NL])), Request(Wait(c.uploadPause)), Upkeep(ListActive)
    ]
    ensures Possible(c, EmptyState(), script) && After(c, EmptyState(), script) == ListedState(c)
  {
    var s := EmptyState();
    var steps := Then(c, s, [], script[0]);
    assert After(c, s, steps) == s.(worker := Idle);
    steps := Then(c, s, steps, script[1]);
    steps := Then(c, s, steps, script[2]);
    steps := Then(c, s, steps, script[3]);
    assert ActiveImports(s) == {};
    assert After(c, s, steps) == ListedState(c);
    assert steps == script;
  }

  /** No run loses the file of a live import. */
  ghost predicate NeverLosesFile(c: Config) {
    forall s, steps :: Initial(s) && Possible(c, s, steps) ==> FilesPresent(After(c, s, steps))
  }

  /** Spool safety over every run, exactly when upload pauses and sweep lag fit into the sweep age. */
  lemma SpoolSafeIffBounded(c: Config)
    requires SettingsOk(c)
    ensures NeverLosesFile(c) <==> c.uploadPause + c.sweepLag <= 3600
  {
    if c.uploadPause + c.sweepLag <= SWEEP_AGE {
      forall s, steps | Initial(s) && Possible(c, s, steps) ensures FilesPresent(After(c, s, steps)) {
        RunSpoolOk(c, s, steps);
      }
    } else {
      var steps := StalledSweep(c);
    }
  }

  // ----- What the sweep may remove

  /**
   During a sweep, a spool file can be removed exactly if it is older than the cutoff and no queued or running
   import refers to it; in particular the leftover file of a terminal import can.
   */
  lemma SweepRemovesExactly(c: Config, s: State, steps: seq<Step>, j: JobId)
    requires SettingsOk(c) && c.uploadPause + c.sweepLag <= SWEEP_AGE
    requires Initial(s) && Possible(c, s, steps)
    requires After(c, s, steps).worker.Sweeping? && j in After(c, s, steps).spool
    ensures var t := After(c, s, steps);
            CanUpkeep(c, t, SweepFile(j)) <==>
            t.spool[j].written < t.worker.cutoff && !(j in t.jobs && LiveImport(t.jobs[j]))
  {
    RunSpoolOk(c, s, steps);
  }
}
