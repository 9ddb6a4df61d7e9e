/** Token rotation over whole runs: results are computed from tokens read earlier and committed later. */
module Rotation {
  import opened Prelude
  import opened Accounts
  import opened Engine
  import opened Progress
  import opened Coverage
  import opened OAuth

  /** The tokens in the worker's hands are still the stored ones, for all rows that still exist. */
  predicate FreshTokens(t: Table, work: seq<Work>) {
    forall k :: 0 <= k < |work| && work[k].id in t.rows ==> t.rows[work[k].id].token == work[k].token
  }

  predicate HandFresh(s: State) {
    s.worker.HasWork? ==> FreshTokens(s.table, s.worker.work)
  }

  lemma LoadFresh(c: Config, t: Table, job: Job, now: Time)
    ensures FreshTokens(t, LoadWork(c, t, job, now))
  {
  }

  lemma HandFreshStep(c: Config, s: State, e: Step)
    requires HandFresh(s) && Enabled(c, s, e)
    ensures HandFresh(Next(c, s, e))
  {
    var s' := Next(c, s, e);
    if s'.worker.HasWork? {
      HandsOff(c, s, e);
      if e == Take(Load) {
        LoadFresh(c, s.table, s.jobs[s.worker.job], s.now);
      } else if !(e.Request? && e.r.DeleteAccounts?) {
        TableKept(c, s, e);
      }
    }
  }

  lemma {:induction false} RunHandFresh(c: Config, s: State, steps: seq<Step>)
    requires Initial(s) && Possible(c, s, steps)
    ensures HandFresh(After(c, s, steps))
    decreases |steps|
  {
    if steps != [] {
      RunHandFresh(c, s, steps[..|steps| - 1]);
      HandFreshStep(c, After(c, s, steps[..|steps| - 1]), steps[|steps| - 1]);
    }
  }

  /** The answers behind a batch of results: for each account, its last post and the mailbox check. */
  datatype Answer = Answer(last: Post, exhausted: bool, mailbox: bool)

  predicate AnsweredBy(work: seq<Work>, health: bool, results: map<Id, AccountResult>, answers: map<Id, Answer>) {
    && answers.Keys == results.Keys
    && forall k :: 0 <= k < |work| ==>
         && work[k].id in results && work[k].id in answers
         && var a := answers[work[k].id];
            results[work[k].id] == AccountOutcome(Verdict(a.last, work[k].token, a.exhausted), health, a.mailbox)
  }

  function Rotated(token: string, a: Answer): string {
    if HasToken(a.last) && a.last.refreshToken != "" then a.last.refreshToken else token
  }

  /** Every account's token after the commit: rotated as its own answer says, or untouched. */
  predicate TokensRotated(t: Table, t': Table, answers: map<Id, Answer>) {
    && t'.rows.Keys == t.rows.Keys
    && forall id :: id in t.rows ==>
         t'.rows[id].token == if id in answers then Rotated(t.rows[id].token, answers[id]) else t.rows[id].token
  }

  /**
   In any run, when a batch of account results is committed, a stored token changes only for an account whose
   request was granted, and only to the token returned for it: a token read before other processes went on is
   never written back over a newer one.
   */
  lemma CommitRotates(
    c: Config, s: State, steps: seq<Step>, t: State, results: map<Id, AccountResult>, answers: map<Id, Answer>,
    health: bool)
    requires Initial(s) && Possible(c, s, steps) && t == After(c, s, steps)
    requires CanCommit(c, t, CommitAccounts(results)) && AnsweredBy(t.worker.work, health, results, answers)
    ensures TokensRotated(t.table, CommitAccountsStep(c, t, results).table, answers)
  {
    RunHandFresh(c, s, steps);
    ApplyRotates(t.table, t.worker.work, health, results, answers, t.now, t.intervalDays);
  }

  lemma OneRotates(a: Account, answer: Answer, health: bool, now: Time, intervalDays: int)
    ensures var r := AccountOutcome(Verdict(answer.last, a.token, answer.exhausted), health, answer.mailbox);
            Apply(a, r, now, intervalDays).token == Rotated(a.token, answer)
  {
  }

  lemma ApplyRotates(
    t: Table, work: seq<Work>, health: bool, results: map<Id, AccountResult>, answers: map<Id, Answer>, now: Time,
    intervalDays: int)
    requires FreshTokens(t, work) && AnsweredBy(work, health, results, answers)
    requires results.Keys == WorkIds(work)
    ensures TokensRotated(t, ApplyAll(t, results, now, intervalDays), answers)
  {
    forall id | id in t.rows && id in answers
      ensures ApplyAll(t, results, now, intervalDays).rows[id].token == Rotated(t.rows[id].token, answers[id])
    {
      assert id in results.Keys;
      var k :| 0 <= k < |work| && work[k].id == id;
      OneRotates(t.rows[id], answers[id], health, now, intervalDays);
    }
    forall id | id in t.rows && id !in answers ensures ApplyAll(t, results, now, intervalDays).rows[id] == t.rows[id] {
      assert id !in results.Keys;
    }
  }
}
