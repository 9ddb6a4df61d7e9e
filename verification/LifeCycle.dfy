/**
 The account life-cycle over whole runs of imports and account jobs, and the one answer of the token endpoint
 that breaks it.
 */
module LifeCycle {
  import opened Prelude
  import opened Keyset
  import opened Lines
  import opened Accounts
  import opened ImportPass
  import opened Engine
  import opened Progress
  import opened SpoolSafety

  predicate Tokened(outs: seq<LineOutcome>) {
    forall k :: 0 <= k < |outs| && outs[k].Accepted? ==> outs[k].account.token != ""
  }

  predicate LifeInv(s: State) {
    && TableLife(s.table) && 1 <= s.intervalDays <= 89
    && (s.worker.HasBatch? ==> Tokened(s.worker.batch.outs))
  }

  lemma ClassifiedToken(rules: Rules, raw: seq<byte>, first: bool)
    ensures var o := Classify(rules, raw, first); o.Accepted? ==> o.account.token != ""
  {
  }

  lemma {:induction false} OutcomesTokened(rules: Rules, data: seq<byte>, pos: nat)
    requires pos <= |data|
    ensures Tokened(OutcomesFrom(rules, data, pos))
    decreases |data| - pos
  {
    if pos < |data| {
      ClassifiedToken(rules, data[pos..LineEnd(data, pos)], pos == 0);
      OutcomesTokened(rules, data, LineEnd(data, pos));
    }
  }

  lemma {:induction false} RowsTokened(rules: Rules, outs: seq<LineOutcome>, target: Target, next: Time)
    requires Tokened(outs)
    ensures forall k :: 0 <= k < |Rows(rules, outs, target, next)| ==> Rows(rules, outs, target, next)[k].token != ""
    decreases |outs|
  {
    if outs != [] {
      RowsTokened(rules, outs[..|outs| - 1], target, next);
    }
  }

  predicate NoImpersonation(e: Step) {
    e.Commit? && e.k.CommitAccounts? ==> forall id :: id in e.k.results ==> !Impersonates(e.k.results[id])
  }

  lemma ResultsKeepLife(t: Table, results: map<Id, AccountResult>, now: Time, intervalDays: int)
    requires TableLife(t) && 1 <= intervalDays <= 89
    requires forall id :: id in results ==> Producible(results[id]) && !Impersonates(results[id])
    ensures TableLife(ApplyAll(t, results, now, intervalDays))
  {
    var u := ApplyAll(t, results, now, intervalDays);
    forall id | id in u.rows ensures LifeOk(u.rows[id]) {
      if id in results { ApplyKeepsLife(t.rows[id], results[id], now, intervalDays); }
    }
  }

  lemma UpkeepBatch(c: Config, s: State, m: UpkeepStep)
    requires CanUpkeep(c, s, m)
    ensures !UpkeepNext(c, s, m).worker.HasBatch?
  {
    if m.SchedulerTick? { SchedulerCases(s, m.id, m.date, m.minute, m.dueMinute); }
  }

  /** The worker's next batch, if it holds one after the step. */
  lemma BatchInHand(c: Config, s: State, e: Step)
    requires Enabled(c, s, e) && Next(c, s, e).worker.HasBatch?
    ensures e == Take(ReadBatch) || (Next(c, s, e).worker == s.worker && !e.Commit?)
  {
    match e
    case Upkeep(m) => UpkeepBatch(c, s, m);
    case Upload(u) => assert UploadNext(c, s, u).worker == s.worker;
    case Request(r) => assert RequestNext(c, s, r).worker == s.worker;
    case _ =>
  }

  lemma LifeTable(c: Config, s: State, e: Step)
    requires LifeInv(s) && Enabled(c, s, e) && NoImpersonation(e)
    ensures TableLife(Next(c, s, e).table)
  {
    match e
    case Request(DeleteAccounts(ids)) =>
    case Commit(CommitImport) =>
      RowsTokened(c.rules, s.worker.batch.outs, s.jobs[s.worker.job].target, s.now + s.intervalDays * DAY);
      UpsertKeepsLife(s.table, BatchRows(c, s), s.jobs[s.worker.job].target.mode);
    case Commit(CommitAccounts(results)) => ResultsKeepLife(s.table, results, s.now, s.intervalDays);
    case _ => TableKept(c, s, e);
  }

  lemma IntervalKept(c: Config, s: State, e: Step)
    requires Enabled(c, s, e) && 1 <= s.intervalDays <= 89
    ensures 1 <= Next(c, s, e).intervalDays <= 89
  {
    if e.Upkeep? && e.m.SchedulerTick? {
      SchedulerCases(s, e.m.id, e.m.date, e.m.minute, e.m.dueMinute);
    }
  }

  lemma LifeStepKeeps(c: Config, s: State, e: Step)
    requires LifeInv(s) && Enabled(c, s, e) && NoImpersonation(e)
    ensures LifeInv(Next(c, s, e))
  {
    LifeTable(c, s, e);
    IntervalKept(c, s, e);
    if Next(c, s, e).worker.HasBatch? {
      BatchInHand(c, s, e);
      if e == Take(ReadBatch) {
        ReadTokened(c, s);
      }
    }
  }

  lemma ReadTokened(c: Config, s: State)
    requires CanTake(s, ReadBatch)
    ensures Tokened(TakeNext(c, s, ReadBatch).worker.batch.outs)
  {
    OutcomesTokened(c.rules, s.spool[s.worker.job].data, s.jobs[s.worker.job].cursor);
  }

  lemma {:induction false} RunLifeOk(c: Config, s: State, steps: seq<Step>)
    requires Initial(s) && Possible(c, s, steps) && forall k :: 0 <= k < |steps| ==> NoImpersonation(steps[k])
    ensures LifeInv(After(c, s, steps))
    decreases |steps|
  {
    if steps != [] {
      var before := steps[..|steps| - 1];
      RunLifeOk(c, s, before);
      LifeStepKeeps(c, After(c, s, before), steps[|steps| - 1]);
    }
  }

  // ----- Exactly when the life-cycle holds

  /** Every committed result is one of `answers`. */
  ghost predicate Answers(steps: seq<Step>, answers: AccountResult -> bool) {
    forall k :: 0 <= k < |steps| && steps[k].Commit? && steps[k].k.CommitAccounts? ==>
      forall id :: id in steps[k].k.results ==> answers(steps[k].k.results[id])
  }

  /** Whatever happens, as long as account results are among `answers`, every account keeps its invariant. */
  ghost predicate AlwaysAlive(c: Config, answers: AccountResult -> bool) {
    forall s, steps :: Initial(s) && Possible(c, s, steps) && Answers(steps, answers) ==>
      TableLife(After(c, s, steps).table)
  }

  function NewAccount(): Account {
    Account("h", "a@b.c", "client", "token", "", Unknown, Some(0), None, None)
  }

  function OneAccount(): State {
    State(map[], Table(map[1 := NewAccount()], map["h" := 1], 2), map[], map[], map[], {}, {}, 0, 60,
          Schedule(None, 0, []), Down)
  }

  function LoadedOne(c: Config): State {
    var job := NewAccountJob(RefreshTokens, All, 40, {1}, 0).(status := Running);
    OneAccount().(used := {"r"}, jobs := map["r" := job], traces := map["r" := Trace([], {1}, [], 0, 0, {})],
                  worker := HasWork("r", [Work(1, "token")]))
  }

  lemma {:induction false} SelectOne(limit: nat)
    requires limit >= 1
    ensures Select({1}, 0, limit) == [1]
  {
    var r := Select({1}, 0, limit);
    assert |r| > 0 ==> r[|r| - 1] in r;
    assert Reached(r, limit, 1);
    IncreasingUnique(r, [1]);
  }

  function QueuedOne(): State {
    OneAccount().(used := {"r"}, jobs := map["r" := NewAccountJob(RefreshTokens, All, 40, {1}, 0)],
                  traces := map["r" := Trace([], {1}, [], 0, 0, {})], worker := Idle)
  }

  /** The worker has started up and rests. */
  function Started(): State {
    OneAccount().(worker := Idle)
  }

  lemma StartUp(c: Config) returns (steps: seq<Step>)
    ensures Initial(OneAccount()) && Possible(c, OneAccount(), steps) && After(c, OneAccount(), steps) == Started()
    ensures forall k :: 0 <= k < |steps| ==> !steps[k].Commit?
  {
    steps := Then(c, OneAccount(), [], Life(Recover));
    assert LifeNext(OneAccount(), Recover) == Started();
  }

  lemma QueueOne(c: Config) returns (steps: seq<Step>)
    ensures Initial(OneAccount()) && Possible(c, OneAccount(), steps)
    ensures After(c, OneAccount(), steps) == QueuedOne()
    ensures forall k :: 0 <= k < |steps| ==> !steps[k].Commit?
  {
    steps := StartUp(c);
    assert Snapshot(Started().table, All, 0) == {1};
    steps := Then(c, OneAccount(), steps, Request(CreateAccountJob("r", RefreshTokens, All)));
  }

  function ClaimedOne(c: Config): State {
    ClaimStep(QueuedOne(), "r")
  }

  lemma ClaimOne(c: Config) returns (steps: seq<Step>)
    ensures Initial(OneAccount()) && Possible(c, OneAccount(), steps)
    ensures After(c, OneAccount(), steps) == ClaimedOne(c)
    ensures forall k :: 0 <= k < |steps| ==> !steps[k].Commit?
  {
    steps := QueueOne(c);
    steps := Then(c, OneAccount(), steps, Take(Claim("r")));
  }

  lemma RefreshOne(c: Config) returns (steps: seq<Step>)
    requires c.workerBatch >= 1
    ensures Initial(OneAccount()) && Possible(c, OneAccount(), steps)
    ensures After(c, OneAccount(), steps) == LoadedOne(c)
    ensures forall k :: 0 <= k < |steps| ==> !steps[k].Commit?
  {
    steps := ClaimOne(c);
    LoadQueued(c);
    steps := Then(c, OneAccount(), steps, Take(Load));
  }

  lemma LoadQueued(c: Config)
    requires c.workerBatch >= 1
    ensures CanTake(ClaimedOne(c), Load) && TakeNext(c, ClaimedOne(c), Load) == LoadedOne(c)
  {
    var t := ClaimedOne(c);
    assert Candidates(t.table, t.jobs["r"], t.now) == {1};
    SelectOne(c.workerBatch);
    assert WorkOf(t.table, [1]) == [Work(1, "token")];
  }

  lemma ImpersonationBreaks(c: Config, r: AccountResult) returns (steps: seq<Step>)
    requires c.workerBatch >= 1 && Producible(r) && Impersonates(r)
    ensures Initial(OneAccount()) && Possible(c, OneAccount(), steps)
    ensures forall k :: 0 <= k < |steps| && steps[k].Commit? ==> steps[k] == Commit(CommitAccounts(map[1 := r]))
    ensures !TableLife(After(c, OneAccount(), steps).table)
  {
    var before := RefreshOne(c);
    var t := LoadedOne(c);
    assert t.worker.work[0].id in WorkIds(t.worker.work);
    assert WorkIds(t.worker.work) == {1};
    steps := Then(c, OneAccount(), before, Commit(CommitAccounts(map[1 := r])));
    ApplyKeepsLife(NewAccount(), r, 0, 60);
    assert After(c, OneAccount(), steps).table.rows[1] == Apply(NewAccount(), r, 0, 60);
  }

  /** The life-cycle invariant holds over every run exactly if the endpoint never sends the worker's own code. */
  lemma AliveIffHonest(c: Config, answers: AccountResult -> bool)
    requires c.workerBatch >= 1 && forall r :: answers(r) ==> Producible(r)
    ensures AlwaysAlive(c, answers) <==> forall r :: answers(r) ==> !Impersonates(r)
  {
    if forall r :: answers(r) ==> !Impersonates(r) {
      forall s, steps | Initial(s) && Possible(c, s, steps) && Answers(steps, answers)
        ensures TableLife(After(c, s, steps).table)
      {
        RunLifeOk(c, s, steps);
      }
    } else {
      var r :| answers(r) && Impersonates(r);
      var steps := ImpersonationBreaks(c, r);
      assert Answers(steps, answers);
    }
  }
}
