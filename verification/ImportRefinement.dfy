/**
 What an import does, over whole runs. If nothing else writes to the account table, the committed table and
 counters are at every moment those of one plain pass over the lines processed so far; and on PostgreSQL an
 import in update mode gets to its end exactly as far as its batches repeat no address.
 */
module ImportRefinement {
  import opened Prelude
  import opened AccountLine
  import opened Accounts
  import opened ImportPass
  import opened Engine
  import opened QueueSafety
  import opened ImportRuns
  import opened Progress
  import opened LifeCycle

  // ----- One pass

  /** Every step of the run that changes the account table is a commit of the import `j`. */
  predicate OnlyWriter(c: Config, s: State, steps: seq<Step>, j: JobId)
    requires Possible(c, s, steps)
    decreases |steps|
  {
    steps == []
    || var before, e := steps[..|steps| - 1], steps[|steps| - 1];
       && OnlyWriter(c, s, before, j)
       && (Commits(After(c, s, before), e, j) || After(c, s, steps).table == After(c, s, before).table)
  }

  function TallyOf(t: Table, job: Job): Tally {
    Tally(t, job.succeeded, job.failed, job.skipped)
  }

  /** The table and the counters are exactly those of a pass from `start` over the lines processed. */
  predicate IsPass(c: Config, start: Table, t: Table, job: Job, content: seq<byte>, next: seq<Time>) {
    var all := Outcomes(c.rules, content);
    && |next| == job.processed <= |all|
    && TallyOf(t, job) == OnePass(c.rules, Tally(start, 0, 0, 0), all[..job.processed], job.target, next)
  }

  /** The refresh times lie one interval after some moment between `from` and `to`. */
  predicate Timely(next: seq<Time>, from: Time, to: Time) {
    forall k :: 0 <= k < |next| ==> from + DAY <= next[k] <= to + 89 * DAY
  }

  predicate PassOk(c: Config, start: State, s: State, j: JobId, next: seq<Time>) {
    && (j !in s.traces ==> s.table == start.table)
    && (j in s.jobs && s.jobs[j].kind == ImportFile ==>
          && j in s.traces && IsPass(c, start.table, s.table, s.jobs[j], s.traces[j].content, next)
          && Timely(next, start.now, s.now))
  }

  lemma NewIsPass(c: Config, t: Table, job: Job, content: seq<byte>)
    requires FreshImport(job)
    ensures IsPass(c, t, t, job, content, [])
  {
    assert Outcomes(c.rules, content)[..0] == [];
  }

  /** A bulk commit takes the pass over `done` to the pass over `done + outs`. */
  lemma PassExtends(
    rules: Rules, zero: Tally, t: Tally, done: seq<LineOutcome>, outs: seq<LineOutcome>, target: Target,
    next: seq<Time>, now: Time)
    requires |next| == |done| && t == OnePass(rules, zero, done, target, next)
    ensures CommitBatch(rules, t, outs, target, now)
         == OnePass(rules, zero, done + outs, target, next + Repeat(now, |outs|))
  {
    OnePassConcat(rules, zero, done, outs, target, next, Repeat(now, |outs|));
    BatchIsOnePass(rules, t, outs, target, now);
  }

  lemma CommittedTally(c: Config, job: Job, t: Table, batch: Batch, next: Time, now: Time)
    ensures TallyOf(UpsertAll(t, Rows(c.rules, batch.outs, job.target, next), job.target.mode),
                    ImportedJob(c, job, t, batch, next, now))
         == CommitBatch(c.rules, TallyOf(t, job), batch.outs, job.target, next)
  {
  }

  lemma BatchContinuesPass(
    c: Config, start: Table, t: Table, t': Table, job: Job, job': Job, outs: seq<LineOutcome>, content: seq<byte>,
    next: seq<Time>, at: Time)
    requires IsPass(c, start, t, job, content, next)
    requires job.processed + |outs| <= |Outcomes(c.rules, content)|
    requires Outcomes(c.rules, content)[job.processed..job.processed + |outs|] == outs
    requires job'.processed == job.processed + |outs| && job'.target == job.target
    requires TallyOf(t', job') == CommitBatch(c.rules, TallyOf(t, job), outs, job.target, at)
    ensures IsPass(c, start, t', job', content, next + Repeat(at, |outs|))
  {
    var all := Outcomes(c.rules, content);
    PassExtends(c.rules, Tally(start, 0, 0, 0), TallyOf(t, job), all[..job.processed], outs, job.target, next, at);
    assert all[..job.processed + |outs|] == all[..job.processed] + outs;
  }

  lemma ImportedPass(
    c: Config, start: Table, job: Job, job': Job, t: Table, t': Table, batch: Batch, content: seq<byte>,
    next: seq<Time>, at: Time, now: Time)
    requires job.status == Running && ImportOk(c, job, content) && IsPass(c, start, t, job, content, next)
    requires batch == BatchAt(c.rules, content, job.cursor)
    requires t' == UpsertAll(t, Rows(c.rules, batch.outs, job.target, at), job.target.mode)
    requires job' == ImportedJob(c, job, t, batch, at, now)
    ensures IsPass(c, start, t', job', content, next + Repeat(at, |batch.outs|))
  {
    BatchCut(c.rules, content, job.cursor, job.processed);
    CommittedTally(c, job, t, batch, at, now);
    CommittedFields(c, job, t, batch, at, now);
    BatchContinuesPass(c, start, t, t', job, job', batch.outs, content, next, at);
  }

  lemma PassCommit(
    c: Config, start: Table, s: State, s': State, job: Job, content: seq<byte>, next: seq<Time>)
    requires s.worker.HasBatch? && s.worker.job in s.jobs && s.worker.job in s.traces && Imported(c, s, s')
    requires job == s.jobs[s.worker.job] && content == s.traces[s.worker.job].content
    requires job.status == Running && ImportOk(c, job, content)
    requires s.worker.batch == BatchAt(c.rules, content, job.cursor)
    requires IsPass(c, start, s.table, job, content, next)
    ensures IsPass(c, start, s'.table, s'.jobs[s.worker.job], content,
                   next + Repeat(s.now + s.intervalDays * DAY, |s.worker.batch.outs|))
  {
    ImportedPass(c, start, job, s'.jobs[s.worker.job], s.table, s'.table, s.worker.batch, content, next,
                 s.now + s.intervalDays * DAY, s.now);
  }

  lemma PassKept(c: Config, start: State, s: State, s': State, j: JobId, next: seq<Time>) returns (next': seq<Time>)
    requires QueueOk(s) && PassOk(c, start, s, j, next) && Kept(s, s', j) && s'.table == s.table && s.now <= s'.now
    ensures PassOk(c, start, s', j, next')
  {
    next' := next;
    if j !in s.traces && j in s'.jobs && s'.jobs[j].kind == ImportFile {
      next' := [];
      NewIsPass(c, start.table, s'.jobs[j], s'.traces[j].content);
    }
  }

  lemma ClockStep(c: Config, s: State, e: Step)
    requires Enabled(c, s, e) && 1 <= s.intervalDays <= 89
    ensures s.now <= Next(c, s, e).now && 1 <= Next(c, s, e).intervalDays <= 89
  {
    IntervalKept(c, s, e);
    if e.Upkeep? && e.m.SchedulerTick? {
      SchedulerCases(s, e.m.id, e.m.date, e.m.minute, e.m.dueMinute);
    }
  }

  lemma {:induction false} RunClock(c: Config, s: State, steps: seq<Step>)
    requires Possible(c, s, steps) && 1 <= s.intervalDays <= 89
    ensures s.now <= After(c, s, steps).now && 1 <= After(c, s, steps).intervalDays <= 89
    decreases |steps|
  {
    if steps != [] {
      RunClock(c, s, steps[..|steps| - 1]);
      ClockStep(c, After(c, s, steps[..|steps| - 1]), steps[|steps| - 1]);
    }
  }

  lemma PassImport(c: Config, start: State, s: State, s': State, j: JobId, next: seq<Time>) returns (next': seq<Time>)
    requires QueueOk(s) && ImportsOk(c, s) && PassOk(c, start, s, j, next)
    requires s.worker.HasBatch? && s.worker.job == j && j in s.jobs && j in s.traces && Imported(c, s, s')
    requires start.now <= s.now && 1 <= s.intervalDays <= 89
    ensures PassOk(c, start, s', j, next')
  {
    HandAtCursor(c, s, s.jobs[j], s.traces[j].content);
    PassCommit(c, start.table, s, s', s.jobs[j], s.traces[j].content, next);
    next' := next + Repeat(s.now + s.intervalDays * DAY, |s.worker.batch.outs|);
  }

  lemma {:induction false} RunPassOk(c: Config, s: State, steps: seq<Step>, j: JobId) returns (next: seq<Time>)
    requires QueueOk(s) && ImportsOk(c, s) && j !in s.traces && 1 <= s.intervalDays <= 89
    requires Possible(c, s, steps) && OnlyWriter(c, s, steps, j)
    ensures PassOk(c, s, After(c, s, steps), j, next)
    decreases |steps|
  {
    if steps == [] {
      Traced(s);
      next := [];
    } else {
      var before, e := steps[..|steps| - 1], steps[|steps| - 1];
      var t := After(c, s, before);
      next := RunPassOk(c, s, before, j);
      RunImportsOk(c, s, before);
      RunClock(c, s, before);
      if Commits(t, e, j) && e.k.CommitAccounts? {
        WorkedKind(c, t, e.k.results);
      } else if Commits(t, e, j) {
        CommitImports(c, t);
        next := PassImport(c, s, t, After(c, s, steps), j, next);
      } else {
        KeptStep(c, t, e, j);
        ClockStep(c, t, e);
        next := PassKept(c, s, t, After(c, s, steps), j, next);
      }
    }
  }

  /**
   The batched, resumable import refines one pass. `s` is any reachable state before import `j` is published;
   afterwards anything may happen (crashes, restarts, sweeps, other jobs, changes of policy) as long as only
   `j` writes accounts. Then after any number of steps the table and `j`'s counters equal those of the pass
   over the lines processed so far, in which each line gets a refresh time one allowed interval after a moment
   between `s` and now; once `j` is completed, the pass is over all lines.
   */
  lemma ImportRefinesOnePass(
    c: Config, init: State, prior: seq<Step>, s: State, steps: seq<Step>, t: State, j: JobId)
    returns (next: seq<Time>)
    requires Initial(init) && Possible(c, init, prior) && s == After(c, init, prior) && j !in s.traces
    requires Possible(c, s, steps) && OnlyWriter(c, s, steps, j) && t == After(c, s, steps)
    requires j in t.jobs && t.jobs[j].kind == ImportFile
    ensures && j in t.traces
            && var all, job := Outcomes(c.rules, t.traces[j].content), t.jobs[j];
            && |next| == job.processed <= |all| && (job.status == Completed ==> all[..job.processed] == all)
            && Tally(t.table, job.succeeded, job.failed, job.skipped)
               == OnePass(c.rules, Tally(s.table, 0, 0, 0), all[..job.processed], job.target, next)
            && Timely(next, s.now, t.now)
  {
    QueueInitial(init);
    RunImportsOk(c, init, prior);
    RunClock(c, init, prior);
    next := RunPassOk(c, s, steps, j);
    RunImportsOk(c, s, steps);
    assert ImportRowOk(c, t, j);
  }

  // ----- When PostgreSQL lets an import reach its end

  /** The statement for these lines is accepted. */
  predicate BatchAccepted(c: Config, target: Target, outs: seq<LineOutcome>) {
    Accepts(c.dialect, target.mode, Rows(c.rules, outs, target, 0))
  }

  /** Cut into batches from its start, the list of lines has only batches the database accepts. */
  predicate AllAccepted(c: Config, target: Target, outs: seq<LineOutcome>)
    requires c.rules.batchSize >= 1
    decreases |outs|
  {
    if |outs| < c.rules.batchSize then BatchAccepted(c, target, outs)
    else BatchAccepted(c, target, outs[..c.rules.batchSize]) && AllAccepted(c, target, outs[c.rules.batchSize..])
  }

  lemma AcceptedAnyTime(c: Config, target: Target, outs: seq<LineOutcome>, next: Time)
    ensures BatchAccepted(c, target, outs) <==> Accepts(c.dialect, target.mode, Rows(c.rules, outs, target, next))
  {
    RowsLength(c.rules, outs, target, 0);
    RowsLength(c.rules, outs, target, next);
    var n := |AcceptedAccounts(outs)|;
    forall i, j | 0 <= i < j < n
      ensures Rows(c.rules, outs, target, 0)[i].hash != Rows(c.rules, outs, target, 0)[j].hash
              <==> Rows(c.rules, outs, target, next)[i].hash != Rows(c.rules, outs, target, next)[j].hash
    {
    }
  }

  /** All remaining batches are acceptable exactly if all batches of the file are; completed means all were. */
  predicate WindowsOk(c: Config, job: Job, content: seq<byte>)
    requires c.rules.batchSize >= 1
  {
    var all := Outcomes(c.rules, content);
    && job.processed <= |all|
    && (Live(job) ==> (AllAccepted(c, job.target, all[job.processed..]) <==> AllAccepted(c, job.target, all)))
    && (job.status == Completed ==> AllAccepted(c, job.target, all))
  }

  predicate WindowsRowOk(c: Config, s: State, j: JobId)
    requires c.rules.batchSize >= 1
  {
    j in s.jobs && s.jobs[j].kind == ImportFile ==> j in s.traces && WindowsOk(c, s.jobs[j], s.traces[j].content)
  }

  lemma BatchWindows(c: Config, job: Job, job': Job, batch: Batch, content: seq<byte>)
    requires c.rules.batchSize >= 1 && ImportOk(c, job, content) && WindowsOk(c, job, content)
    requires job.status == Running && batch == BatchAt(c.rules, content, job.cursor)
    requires BatchAccepted(c, job.target, batch.outs)
    requires job'.target == job.target && job'.processed == job.processed + |batch.outs|
    requires job'.status == Completed ==> batch.eof
    requires Live(job') ==> !batch.eof
    ensures WindowsOk(c, job', content)
  {
    var all := Outcomes(c.rules, content);
    BatchCut(c.rules, content, job.cursor, job.processed);
    assert all[job.processed..][|batch.outs|..] == all[job'.processed..];
  }

  lemma WindowsKept(c: Config, s: State, s': State, j: JobId)
    requires QueueOk(s) && c.rules.batchSize >= 1
    requires WindowsRowOk(c, s, j) && Kept(s, s', j)
    ensures WindowsRowOk(c, s', j)
  {
    if j in s'.jobs && s'.jobs[j].kind == ImportFile && j !in s.traces {
      var all := Outcomes(c.rules, s'.traces[j].content);
      assert all[0..] == all;
    }
  }

  lemma WindowsCommit(c: Config, s: State, s': State, job: Job, content: seq<byte>)
    requires c.rules.batchSize >= 1 && s.worker.HasBatch?
    requires s.worker.job in s.jobs && s.worker.job in s.traces && Imported(c, s, s')
    requires job == s.jobs[s.worker.job] && content == s.traces[s.worker.job].content
    requires job.status == Running && ImportOk(c, job, content)
    requires s.worker.batch == BatchAt(c.rules, content, job.cursor)
    requires BatchAccepted(c, job.target, s.worker.batch.outs) && WindowsOk(c, job, content)
    ensures WindowsRowOk(c, s', s.worker.job)
  {
    CommittedFields(c, job, s.table, s.worker.batch, s.now + s.intervalDays * DAY, s.now);
    BatchWindows(c, job, s'.jobs[s.worker.job], s.worker.batch, content);
  }

  lemma CommitWasAccepted(c: Config, s: State)
    requires CanCommit(c, s, CommitImport)
    ensures BatchAccepted(c, s.jobs[s.worker.job].target, s.worker.batch.outs)
  {
    AcceptedAnyTime(c, s.jobs[s.worker.job].target, s.worker.batch.outs, s.now + s.intervalDays * DAY);
  }

  lemma WindowsStep(c: Config, s: State, e: Step, j: JobId)
    requires QueueOk(s) && ImportsOk(c, s) && c.rules.batchSize >= 1 && Enabled(c, s, e) && WindowsRowOk(c, s, j)
    ensures WindowsRowOk(c, Next(c, s, e), j)
  {
    if Commits(s, e, j) && e.k.CommitAccounts? {
      WorkedKind(c, s, e.k.results);
    } else if Commits(s, e, j) {
      CommitImports(c, s);
      CommitWasAccepted(c, s);
      HandAtCursor(c, s, s.jobs[j], s.traces[j].content);
      WindowsCommit(c, s, Next(c, s, e), s.jobs[j], s.traces[j].content);
    } else {
      KeptStep(c, s, e, j);
      WindowsKept(c, s, Next(c, s, e), j);
    }
  }

  lemma {:induction false} RunWindowsOk(c: Config, s: State, steps: seq<Step>, j: JobId)
    requires Initial(s) && Possible(c, s, steps) && c.rules.batchSize >= 1
    ensures QueueOk(After(c, s, steps)) && ImportsOk(c, After(c, s, steps)) && WindowsRowOk(c, After(c, s, steps), j)
    decreases |steps|
  {
    if steps == [] {
      QueueInitial(s);
    } else {
      var before := steps[..|steps| - 1];
      RunWindowsOk(c, s, before, j);
      WindowsStep(c, After(c, s, before), steps[|steps| - 1], j);
      QueueStep(c, After(c, s, before), steps[|steps| - 1]);
      ImportsStep(c, After(c, s, before), steps[|steps| - 1]);
    }
  }

  /** The batch at the cursor of an acceptable file is acceptable. */
  lemma NextAccepted(c: Config, job: Job, content: seq<byte>)
    requires c.rules.batchSize >= 1 && ImportOk(c, job, content) && Live(job) && WindowsOk(c, job, content)
    requires AllAccepted(c, job.target, Outcomes(c.rules, content))
    ensures BatchAccepted(c, job.target, BatchAt(c.rules, content, job.cursor).outs)
  {
    assert AllAccepted(c, job.target, OutcomesFrom(c.rules, content, job.cursor));
  }

  lemma AcceptedInHand(c: Config, s: State)
    requires s.worker.HasBatch? && s.worker.job in s.jobs && s.worker.job in s.traces
    requires BatchAccepted(c, s.jobs[s.worker.job].target, s.worker.batch.outs)
    ensures CanCommit(c, s, CommitImport)
  {
    AcceptedAnyTime(c, s.jobs[s.worker.job].target, s.worker.batch.outs, s.now + s.intervalDays * DAY);
  }

  lemma HandAccepted(c: Config, s: State, job: Job, content: seq<byte>)
    requires QueueOk(s) && ImportsOk(c, s) && s.worker.HasBatch? && c.rules.batchSize >= 1
    requires s.worker.job in s.jobs && s.worker.job in s.traces
    requires job == s.jobs[s.worker.job] && content == s.traces[s.worker.job].content
    requires WindowsOk(c, job, content) && AllAccepted(c, job.target, Outcomes(c.rules, content))
    ensures CanCommit(c, s, CommitImport)
  {
    HandAtCursor(c, s, job, content);
    NextAccepted(c, job, content);
    AcceptedInHand(c, s);
  }

  /** Every batch of the file of `j` is acceptable to the database. */
  predicate FileAccepted(c: Config, s: State, j: JobId)
    requires c.rules.batchSize >= 1 && j in s.jobs && j in s.traces
  {
    AllAccepted(c, s.jobs[j].target, Outcomes(c.rules, s.traces[j].content))
  }

  predicate RefusedExactly(c: Config, s: State, j: JobId)
    requires c.rules.batchSize >= 1
  {
    && j in s.jobs && j in s.traces
    && (s.jobs[j].status == Completed ==> FileAccepted(c, s, j))
    && (FileAccepted(c, s, j) && s.worker.HasBatch? && s.worker.job == j ==> CanCommit(c, s, CommitImport))
  }

  lemma RefusedHere(c: Config, s: State, j: JobId)
    requires QueueOk(s) && ImportsOk(c, s) && c.rules.batchSize >= 1 && WindowsRowOk(c, s, j)
    requires j in s.jobs && s.jobs[j].kind == ImportFile
    ensures RefusedExactly(c, s, j)
  {
    if s.worker.HasBatch? && s.worker.job == j && FileAccepted(c, s, j) {
      HandAccepted(c, s, s.jobs[j], s.traces[j].content);
    }
  }

  /**
   An import whose batches are all acceptable is never refused by the database, at any point of any run; and
   an import that completed had only acceptable batches, so one with an unacceptable batch never completes.
   */
  lemma RefusedOnlyByRepeats(c: Config, s: State, steps: seq<Step>, t: State, j: JobId)
    requires Initial(s) && Possible(c, s, steps) && t == After(c, s, steps) && c.rules.batchSize >= 1
    requires j in t.jobs && t.jobs[j].kind == ImportFile
    ensures RefusedExactly(c, t, j)
  {
    RunWindowsOk(c, s, steps, j);
    RefusedHere(c, t, j);
  }

  /** Off PostgreSQL, in skip mode, or without repeats in the file, every batch is acceptable. */
  lemma {:induction false} NoRepeatsAccepted(c: Config, target: Target, outs: seq<LineOutcome>)
    requires c.rules.batchSize >= 1
    requires c.dialect == Sqlite || target.mode == Skip || Distinct(Rows(c.rules, outs, target, 0))
    ensures AllAccepted(c, target, outs)
    decreases |outs|
  {
    if |outs| >= c.rules.batchSize {
      var a, b := outs[..c.rules.batchSize], outs[c.rules.batchSize..];
      assert outs == a + b;
      RowsConcat(c.rules, a, b, target, 0);
      var rows, ra, rb := Rows(c.rules, outs, target, 0), Rows(c.rules, a, target, 0), Rows(c.rules, b, target, 0);
      assert forall i :: 0 <= i < |ra| ==> rows[i] == ra[i];
      assert forall i :: 0 <= i < |rb| ==> rows[|ra| + i] == rb[i];
      NoRepeatsAccepted(c, target, b);
    }
  }

  /** PostgreSQL does not take the same account twice in one statement in update mode. */
  lemma RepeatUnacceptable(c: Config, target: Target, a: ParsedAccount)
    requires c.dialect == Postgres && target.mode == Update
    ensures !BatchAccepted(c, target, [Accepted(a), Accepted(a)])
  {
    var outs := [Accepted(a), Accepted(a)];
    RowsLength(c.rules, outs, target, 0);
    assert outs[..1] == [Accepted(a)];
    assert AcceptedAccounts(outs[..1]) == AcceptedAccounts([]) + [a];
    assert AcceptedAccounts(outs) == [a, a];
    var rows := Rows(c.rules, outs, target, 0);
    assert rows[0].hash == rows[1].hash && !Distinct(rows);
  }

  lemma {:induction false} RowsConcat(
    rules: Rules, a: seq<LineOutcome>, b: seq<LineOutcome>, target: Target, next: Time)
    ensures Rows(rules, a + b, target, next) == Rows(rules, a, target, next) + Rows(rules, b, target, next)
    decreases |b|
  {
    if b == [] {
      assert a + b == a;
    } else {
      RowsConcat(rules, a, b[..|b| - 1], target, next);
      assert (a + b)[..|a + b| - 1] == a + b[..|b| - 1];
    }
  }
}
