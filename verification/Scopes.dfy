/**
 What the scopes of account jobs mean, in terms of the account columns: who is counted when a job is created, who
 is loaded in a batch, and when the daily tick has work.
 */
module Scopes {
  import opened Prelude
  import opened Keyset
  import opened Accounts
  import opened Engine
  import opened Coverage

  /** The account's next refresh is set and not after now. */
  predicate IsDue(t: Table, id: Id, now: Time) {
    id in t.rows && t.rows[id].nextRefresh != None && t.rows[id].nextRefresh.value <= now
  }

  /** The account is one a job of this scope is about. */
  predicate About(t: Table, scope: Scope, id: Id, now: Time) {
    match scope
    case Selected(ids) => id in t.rows && id in ids
    case Due => IsDue(t, id, now)
    case _ => id in t.rows
  }

  function Matching(t: Table, scope: Scope, now: Time): set<Id> {
    set id | id in t.rows && About(t, scope, id, now)
  }

  lemma SnapshotIs(t: Table, scope: Scope, now: Time)
    ensures Snapshot(t, scope, now) == Matching(t, scope, now)
  {
  }

  /** Up to the largest id of the snapshot, if the job has one. */
  predicate Bounded(job: Job, id: Id) {
    job.maxId == 0 || id <= job.maxId
  }

  /** Ids of the scope within the job's bounds. */
  function Eligible(t: Table, job: Job, now: Time): set<Id> {
    set id | id in t.rows && About(t, job.scope, id, now) && Bounded(job, id)
  }

  /** `work` is the next batch: the first accounts of the scope past the cursor, with their stored tokens. */
  predicate NextBatch(t: Table, job: Job, now: Time, limit: nat, work: seq<Work>) {
    && Increasing(IdsOf(work))
    && (forall k :: 0 <= k < |work| ==> work[k].id in t.rows && work[k].token == t.rows[work[k].id].token)
    && (forall id :: id in t.rows ==>
          (id in IdsOf(work) <==>
             && About(t, job.scope, id, now) && job.cursor < id && Bounded(job, id)
             && |Between(Eligible(t, job, now), job.cursor, id)| < limit))
  }

  lemma EligibleAre(t: Table, job: Job, now: Time, id: Id)
    ensures Candidates(t, job, now) == Eligible(t, job, now)
    ensures id in Eligible(t, job, now) <==> id in t.rows && About(t, job.scope, id, now) && Bounded(job, id)
  {
  }

  lemma FirstEligible(c: Config, t: Table, job: Job, now: Time, id: Id)
    requires id in t.rows
    ensures id in IdsOf(LoadWork(c, t, job, now)) <==>
              && About(t, job.scope, id, now) && job.cursor < id && Bounded(job, id)
              && |Between(Eligible(t, job, now), job.cursor, id)| < c.workerBatch
  {
    LoadIs(c, t, job, now);
    EligibleAre(t, job, now, id);
    SelectIsFirst(Eligible(t, job, now), job.cursor, c.workerBatch, id);
  }

  lemma StoredTokens(c: Config, t: Table, job: Job, now: Time)
    ensures var work := LoadWork(c, t, job, now);
            forall k :: 0 <= k < |work| ==> work[k].id in t.rows && work[k].token == t.rows[work[k].id].token
  {
    var ids := Select(Candidates(t, job, now), job.cursor, c.workerBatch);
    assert forall k :: 0 <= k < |ids| ==> ids[k] in ids;
    assert LoadWork(c, t, job, now) == WorkOf(t, ids);
  }

  /** A batch holds exactly the first so many accounts of the job's scope beyond its cursor, up to its largest id. */
  lemma LoadsNextBatch(c: Config, t: Table, job: Job, now: Time)
    ensures NextBatch(t, job, now, c.workerBatch, LoadWork(c, t, job, now))
  {
    LoadIs(c, t, job, now);
    StoredTokens(c, t, job, now);
    forall id | id in t.rows
      ensures id in IdsOf(LoadWork(c, t, job, now)) <==>
              && About(t, job.scope, id, now) && job.cursor < id && Bounded(job, id)
              && |Between(Eligible(t, job, now), job.cursor, id)| < c.workerBatch
    {
      FirstEligible(c, t, job, now, id);
    }
  }

  /** A new job over these accounts: their number, their largest id, and nothing done yet. */
  predicate JobOver(job: Job, kind: Kind, scope: Scope, ids: set<Id>, now: Time) {
    && job.kind == kind && job.scope == scope && job.status == Queued && job.createdAt == now
    && job.total == |ids| && job.maxId in ids && (forall id :: id in ids ==> id <= job.maxId)
    && job.cursor == 0 && job.processed == 0 && job.succeeded == 0 && job.failed == 0
    && !job.cancelRequested && job.finishedAt == None
  }

  /** A job can be created exactly if some account is in its scope, and is then over all of these. */
  lemma CreatesJobOver(c: Config, s: State, id: JobId, kind: Kind, scope: Scope)
    requires id !in s.used && kind != ImportFile && scope != File
    ensures CanRequest(c, s, CreateAccountJob(id, kind, scope)) <==> exists a :: About(s.table, scope, a, s.now)
    ensures CanRequest(c, s, CreateAccountJob(id, kind, scope)) ==>
              var t := RequestNext(c, s, CreateAccountJob(id, kind, scope));
              id in t.jobs && JobOver(t.jobs[id], kind, scope, Matching(s.table, scope, s.now), s.now)
  {
    SnapshotIs(s.table, scope, s.now);
    if a :| About(s.table, scope, a, s.now) {
      assert a in Matching(s.table, scope, s.now);
    } else {
      assert forall a :: a in Matching(s.table, scope, s.now) ==> About(s.table, scope, a, s.now);
    }
  }

  function DueAccounts(t: Table, now: Time): set<Id> {
    set id | id in t.rows && IsDue(t, id, now)
  }

  /** The dashboard's overdue accounts are those a job over due accounts would be created for. */
  lemma OverdueAreDue(t: Table, now: Time)
    ensures Overdue(t, now) == DueAccounts(t, now) == Snapshot(t, Due, now)
  {
    SnapshotIs(t, Due, now);
  }

  /** A refresh of due accounts that is queued or running. */
  predicate RefreshPending(s: State) {
    exists j :: j in s.jobs && s.jobs[j].kind == RefreshTokens && s.jobs[j].scope == Due
                && (s.jobs[j].status == Queued || s.jobs[j].status == Running)
  }

  lemma PendingIs(s: State)
    ensures DueRefreshLive(s) <==> RefreshPending(s)
  {
    forall j | j in s.jobs
      ensures LiveDueRefresh(s.jobs[j]) <==>
              && s.jobs[j].kind == RefreshTokens && s.jobs[j].scope == Due
              && (s.jobs[j].status == Queued || s.jobs[j].status == Running)
    {
      var x := s.jobs[j].status;
      assert x == Queued || x == Running || x == Completed || x == Failed || x == Cancelled;
    }
  }

  /**
   The daily tick adds a job exactly if the day's time has come, the day is not served yet, no such refresh is
   pending and some account is due; the job is over all due accounts. The day is booked once its time has come.
   */
  lemma TickServesDue(s: State, id: JobId, date: int, minute: int, dueMinute: int)
    requires id !in s.jobs
    ensures var t := SchedulerStep(s, id, date, minute, dueMinute);
            && (id in t.jobs <==>
                  && minute >= dueMinute && s.schedule.marker != Some(date) && !RefreshPending(s)
                  && exists a :: IsDue(s.table, a, s.now))
            && (id in t.jobs ==>
                  JobOver(t.jobs[id], RefreshTokens, Due, DueAccounts(s.table, s.now), s.now))
            && (forall j :: j in s.jobs ==> j in t.jobs && t.jobs[j] == s.jobs[j])
            && t.table == s.table
            && t.schedule.marker == (if minute >= dueMinute then Some(date) else s.schedule.marker)
  {
    PendingIs(s);
    SnapshotIs(s.table, Due, s.now);
    var due := DueAccounts(s.table, s.now);
    assert Snapshot(s.table, Due, s.now) == due;
    if a :| IsDue(s.table, a, s.now) {
      assert a in due;
    } else {
      assert forall a :: a in due ==> IsDue(s.table, a, s.now);
    }
  }
}
