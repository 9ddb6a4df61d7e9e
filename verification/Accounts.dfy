/**
 The account table: its unique index on the email hash, the bulk upsert of an import batch, the result of
 a token or health job on one account, and the life-cycle invariant the columns keep together.
 Ciphertexts are represented by their plaintexts here; module Vault is about the encryption itself.
 */
module Accounts {
  import opened Prelude

  type Hash = string
  type Id = int

  datatype Status = Unknown | Healthy | Refreshed | TokenInvalid | FetchFailed | TransientError

  datatype Account = Account(
    hash: Hash, email: string, clientId: string, token: string, source: string, status: Status,
    nextRefresh: Option<Time>, tokenExpires: Option<Time>, errorCode: Option<string>)

  /** The columns an import supplies for one line. */
  datatype Row = Row(hash: Hash, email: string, clientId: string, token: string, source: string, nextRefresh: Time)

  datatype DuplicateMode = Update | Skip

  datatype Dialect = Postgres | Sqlite

  datatype Table = Table(rows: map<Id, Account>, index: map<Hash, Id>, nextId: Id)

  predicate TableOk(t: Table) {
    && t.nextId >= 1
    && (forall h :: h in t.index ==> t.index[h] in t.rows && t.rows[t.index[h]].hash == h)
    && (forall id :: id in t.rows ==>
          1 <= id < t.nextId && t.rows[id].hash in t.index && t.index[t.rows[id].hash] == id)
  }

  // ----- Upsert

  function Fresh(row: Row): Account {
    Account(row.hash, row.email, row.clientId, row.token, row.source, Unknown, Some(row.nextRefresh), None, None)
  }

  function Overwrite(a: Account, row: Row): Account {
    a.(email := row.email, clientId := row.clientId, token := row.token, source := row.source,
       status := Unknown, nextRefresh := Some(row.nextRefresh), errorCode := None)
  }

  function Upsert(t: Table, row: Row, mode: DuplicateMode): Table {
    if row.hash !in t.index then
      Table(t.rows[t.nextId := Fresh(row)], t.index[row.hash := t.nextId], t.nextId + 1)
    else if mode == Update && t.index[row.hash] in t.rows then
      t.(rows := t.rows[t.index[row.hash] := Overwrite(t.rows[t.index[row.hash]], row)])
    else t
  }

  /** One row after the other, in order. */
  function UpsertAll(t: Table, rows: seq<Row>, mode: DuplicateMode): Table
    decreases |rows|
  {
    if rows == [] then t
    else Upsert(UpsertAll(t, rows[..|rows| - 1], mode), rows[|rows| - 1], mode)
  }

  /** The row count the statement reports. */
  function Inserted(t: Table, rows: seq<Row>, mode: DuplicateMode): nat
    decreases |rows|
  {
    if rows == [] then 0
    else
      var before := rows[..|rows| - 1];
      Inserted(t, before, mode)
      + if mode == Update || rows[|rows| - 1].hash !in UpsertAll(t, before, mode).index then 1 else 0
  }

  predicate Distinct(rows: seq<Row>) {
    forall i, j :: 0 <= i < j < |rows| ==> rows[i].hash != rows[j].hash
  }

  /** PostgreSQL refuses an update statement that would hit one row twice. */
  predicate Accepts(dialect: Dialect, mode: DuplicateMode, rows: seq<Row>) {
    dialect == Sqlite || mode == Skip || Distinct(rows)
  }

  /** The account stored under a hash, with its id. */
  datatype Entry = Nothing | Held(id: Id, account: Account)

  function EntryOf(t: Table, h: Hash): Entry {
    if h in t.index && t.index[h] in t.rows then Held(t.index[h], t.rows[t.index[h]]) else Nothing
  }

  /** What one row makes of the entry of its own hash. */
  function Renewed(e: Entry, row: Row, mode: DuplicateMode, nextId: Id): Entry {
    match e
    case Nothing => Held(nextId, Fresh(row))
    case Held(id, a) => if mode == Update then Held(id, Overwrite(a, row)) else e
  }

  /** One row: the table stays consistent, and only the entry of the row's hash changes. */
  lemma UpsertRowOk(t: Table, row: Row, mode: DuplicateMode)
    requires TableOk(t)
    ensures var u := Upsert(t, row, mode);
            && TableOk(u) && t.nextId <= u.nextId && t.rows.Keys <= u.rows.Keys && t.index.Keys <= u.index.Keys
            && forall id :: id in u.rows && id !in t.rows ==> t.nextId <= id
  {
  }

  lemma UpsertRowEntry(t: Table, row: Row, mode: DuplicateMode, h: Hash)
    requires TableOk(t)
    ensures EntryOf(Upsert(t, row, mode), h)
         == if h == row.hash then Renewed(EntryOf(t, h), row, mode, t.nextId) else EntryOf(t, h)
  {
    if h in t.index && h != row.hash && row.hash in t.index {
      assert t.index[h] != t.index[row.hash];
    }
  }

  lemma {:induction false} UpsertAllOk(t: Table, rows: seq<Row>, mode: DuplicateMode)
    requires TableOk(t)
    ensures var u := UpsertAll(t, rows, mode);
            && TableOk(u) && t.nextId <= u.nextId && t.rows.Keys <= u.rows.Keys && t.index.Keys <= u.index.Keys
            && forall id :: id in u.rows && id !in t.rows ==> t.nextId <= id
    decreases |rows|
  {
    if rows != [] {
      var before := rows[..|rows| - 1];
      UpsertAllOk(t, before, mode);
      UpsertRowOk(UpsertAll(t, before, mode), rows[|rows| - 1], mode);
    }
  }

  lemma {:induction false} UpsertAllConcat(t: Table, a: seq<Row>, b: seq<Row>, mode: DuplicateMode)
    ensures UpsertAll(t, a + b, mode) == UpsertAll(UpsertAll(t, a, mode), b, mode)
    ensures Inserted(t, a + b, mode) == Inserted(t, a, mode) + Inserted(UpsertAll(t, a, mode), b, mode)
    decreases |b|
  {
    if b == [] {
      assert a + b == a;
    } else {
      var b' := b[..|b| - 1];
      UpsertAllConcat(t, a, b', mode);
      assert (a + b)[..|a + b| - 1] == a + b';
    }
  }

  lemma {:induction false} InsertedBound(t: Table, rows: seq<Row>, mode: DuplicateMode)
    ensures Inserted(t, rows, mode) <= |rows|
    ensures mode == Update ==> Inserted(t, rows, mode) == |rows|
    decreases |rows|
  {
    if rows != [] {
      InsertedBound(t, rows[..|rows| - 1], mode);
    }
  }

  /** In skip mode the statement reports the number of accounts it created. */
  lemma {:induction false} InsertedIsNew(t: Table, rows: seq<Row>)
    requires TableOk(t)
    ensures |UpsertAll(t, rows, Skip).rows| == |t.rows| + Inserted(t, rows, Skip)
    decreases |rows|
  {
    if rows != [] {
      InsertedIsNew(t, rows[..|rows| - 1]);
      UpsertAllOk(t, rows[..|rows| - 1], Skip);
    }
  }

  // ----- What the upsert means, hash by hash

  predicate Absent(h: Hash, rows: seq<Row>) {
    forall k :: 0 <= k < |rows| ==> rows[k].hash != h
  }

  lemma {:induction false} UpsertFrame(t: Table, rows: seq<Row>, mode: DuplicateMode, h: Hash)
    requires TableOk(t) && Absent(h, rows)
    ensures EntryOf(UpsertAll(t, rows, mode), h) == EntryOf(t, h)
    decreases |rows|
  {
    if rows != [] {
      var before, last := rows[..|rows| - 1], rows[|rows| - 1];
      assert last.hash != h;
      UpsertAllOk(t, before, mode);
      UpsertFrame(t, before, mode, h);
      UpsertRowEntry(UpsertAll(t, before, mode), last, mode, h);
    }
  }

  /** The entry of `rows[k]` once no later row has its hash. */
  lemma LastEntry(t: Table, rows: seq<Row>, k: nat, mode: DuplicateMode)
    requires TableOk(t) && k < |rows| && Absent(rows[k].hash, rows[k + 1..])
    ensures var v, h := UpsertAll(t, rows[..k], mode), rows[k].hash;
            EntryOf(UpsertAll(t, rows, mode), h) == Renewed(EntryOf(v, h), rows[k], mode, v.nextId)
  {
    var v := UpsertAll(t, rows[..k], mode);
    UpsertAllOk(t, rows[..k], mode);
    UpsertRowOk(v, rows[k], mode);
    UpsertRowEntry(v, rows[k], mode, rows[k].hash);
    assert rows == rows[..k] + rows[k..] && rows[k..] == [rows[k]] + rows[k + 1..];
    UpsertAllConcat(t, rows[..k], rows[k..], mode);
    UpsertAllConcat(v, [rows[k]], rows[k + 1..], mode);
    UpsertOne(v, rows[k], mode);
    UpsertFrame(Upsert(v, rows[k], mode), rows[k + 1..], mode, rows[k].hash);
  }

  lemma UpsertOne(t: Table, row: Row, mode: DuplicateMode)
    ensures UpsertAll(t, [row], mode) == Upsert(t, row, mode)
  {
    assert [row][..0] == [];
  }

  /** What no import row touches: the id of a known hash, and its expiry. */
  predicate SameAccount(e: Entry, e': Entry, h: Hash, nextId: Id) {
    match e
    case Held(id, a) => e'.Held? && e'.id == id && e'.account.hash == h && e'.account.tokenExpires == a.tokenExpires
    case Nothing =>
      e'.Held? ==> e'.id >= nextId && e'.account.hash == h && e'.account.tokenExpires == None
  }

  lemma {:induction false} KeptColumns(t: Table, rows: seq<Row>, mode: DuplicateMode, h: Hash)
    requires TableOk(t)
    ensures SameAccount(EntryOf(t, h), EntryOf(UpsertAll(t, rows, mode), h), h, t.nextId)
    decreases |rows|
  {
    if rows != [] {
      var before, last := rows[..|rows| - 1], rows[|rows| - 1];
      UpsertAllOk(t, before, mode);
      KeptColumns(t, before, mode, h);
      UpsertRowEntry(UpsertAll(t, before, mode), last, mode, h);
    }
  }

  /** In update mode the last row of a hash decides its imported columns; the id of a known hash is kept. */
  lemma LastRowWins(t: Table, rows: seq<Row>, k: nat)
    requires TableOk(t) && k < |rows| && Absent(rows[k].hash, rows[k + 1..])
    ensures var e, e' := EntryOf(t, rows[k].hash), EntryOf(UpsertAll(t, rows, Update), rows[k].hash);
            match e
            case Held(id, a) => e' == Held(id, Overwrite(a, rows[k]))
            case Nothing => e'.Held? && e'.id >= t.nextId && e'.account == Fresh(rows[k])
  {
    LastEntry(t, rows, k, Update);
    KeptColumns(t, rows[..k], Update, rows[k].hash);
    UpsertAllOk(t, rows[..k], Update);
  }

  /** In skip mode a known hash is left alone and the first row of a new hash is the one kept. */
  lemma FirstRowWins(t: Table, rows: seq<Row>, k: nat)
    requires TableOk(t) && k < |rows| && Absent(rows[k].hash, rows[..k])
    ensures var e, e' := EntryOf(t, rows[k].hash), EntryOf(UpsertAll(t, rows, Skip), rows[k].hash);
            match e
            case Held(_, _) => e' == e
            case Nothing => e'.Held? && e'.id >= t.nextId && e'.account == Fresh(rows[k])
  {
    var v := UpsertAll(t, rows[..k], Skip);
    UpsertAllOk(t, rows[..k], Skip);
    UpsertFrame(t, rows[..k], Skip, rows[k].hash);
    UpsertRowOk(v, rows[k], Skip);
    UpsertRowEntry(v, rows[k], Skip, rows[k].hash);
    assert rows == rows[..k] + rows[k..] && rows[k..] == [rows[k]] + rows[k + 1..];
    UpsertAllConcat(t, rows[..k], rows[k..], Skip);
    UpsertAllConcat(v, [rows[k]], rows[k + 1..], Skip);
    UpsertOne(v, rows[k], Skip);
    SkipKeeps(Upsert(v, rows[k], Skip), rows[k + 1..], rows[k].hash);
  }

  lemma {:induction false} SkipKeeps(t: Table, rows: seq<Row>, h: Hash)
    requires TableOk(t) && EntryOf(t, h).Held?
    ensures EntryOf(UpsertAll(t, rows, Skip), h) == EntryOf(t, h)
    decreases |rows|
  {
    if rows != [] {
      var before, last := rows[..|rows| - 1], rows[|rows| - 1];
      UpsertAllOk(t, before, Skip);
      SkipKeeps(t, before, h);
      UpsertRowEntry(UpsertAll(t, before, Skip), last, Skip, h);
    }
  }

  // ----- The statement as it executes

  datatype UpsertOutcome = Stored(inserted: nat, skipped: nat) | CardinalityViolation

  class AccountStore {
    var rows: map<Id, Account>
    var index: map<Hash, Id>
    var nextId: Id

    constructor (t: Table)
      ensures View() == t
    {
      rows, index, nextId := t.rows, t.index, t.nextId;
    }

    function View(): Table
      reads this
    {
      Table(rows, index, nextId)
    }

    method InsertOrUpdate(row: Row, mode: DuplicateMode) returns (changed: bool)
      requires TableOk(View())
      modifies this
      ensures View() == Upsert(old(View()), row, mode)
      ensures changed <==> mode == Update || row.hash !in old(index)
    {
      changed := true;
      if row.hash !in index {
        rows := rows[nextId := Fresh(row)];
        index := index[row.hash := nextId];
        nextId := nextId + 1;
      } else if mode == Update {
        var id := index[row.hash];
        rows := rows[id := Overwrite(rows[id], row)];
      } else {
        changed := false;
      }
    }

    /** All or nothing: a refused statement leaves the table as it was. */
    method UpsertAccounts(dialect: Dialect, batch: seq<Row>, mode: DuplicateMode) returns (r: UpsertOutcome)
      requires TableOk(View())
      modifies this
      ensures r.Stored? <==> Accepts(dialect, mode, batch)
      ensures r.Stored? ==> View() == UpsertAll(old(View()), batch, mode)
      ensures r.Stored? ==> r.inserted == Inserted(old(View()), batch, mode) && r.inserted + r.skipped == |batch|
      ensures r.CardinalityViolation? ==> View() == old(View())
    {
      var refused := false;
      if dialect == Postgres && mode == Update {
        refused := HitsTwice(batch);
      }
      if refused {
        return CardinalityViolation;
      }
      var inserted := InsertBatch(batch, mode);
      InsertedBound(old(View()), batch, mode);
      r := if mode == Update then Stored(|batch|, 0) else Stored(inserted, |batch| - inserted);
    }

    method InsertBatch(batch: seq<Row>, mode: DuplicateMode) returns (inserted: nat)
      requires TableOk(View())
      modifies this
      ensures View() == UpsertAll(old(View()), batch, mode)
      ensures inserted == Inserted(old(View()), batch, mode)
    {
      ghost var t := View();
      inserted := 0;
      for i := 0 to |batch|
        invariant TableOk(View()) && View() == UpsertAll(t, batch[..i], mode)
        invariant inserted == Inserted(t, batch[..i], mode)
      {
        assert batch[..i + 1][..i] == batch[..i];
        UpsertAllOk(t, batch[..i + 1], mode);
        var changed := InsertOrUpdate(batch[i], mode);
        inserted := inserted + if changed then 1 else 0;
      }
      assert batch[..|batch|] == batch;
    }
  }

  /** Would the statement touch some hash a second time? */
  method HitsTwice(batch: seq<Row>) returns (twice: bool)
    ensures twice <==> !Distinct(batch)
  {
    var touched: set<Hash> := {};
    for i := 0 to |batch|
      invariant forall k :: 0 <= k < i ==> batch[k].hash in touched
      invariant forall h :: h in touched ==> exists k :: 0 <= k < i && batch[k].hash == h
      invariant Distinct(batch[..i])
    {
      if batch[i].hash in touched {
        return true;
      }
      touched := touched + {batch[i].hash};
    }
    assert batch[..|batch|] == batch;
    twice := false;
  }

  // ----- A job's result on one account

  /** What one account's token request, and in health jobs its mailbox check, came to. */
  datatype AccountResult = AccountResult(
    ok: bool, refreshToken: string, errorCode: string, permanent: bool, healthChecked: bool)

  function Truncated(s: string, n: nat): (r: string)
    ensures |r| <= n && r <= s
  {
    if |s| <= n then s else s[..n]
  }

  function Apply(a: Account, r: AccountResult, now: Time, intervalDays: int): Account {
    var b :=
      if r.refreshToken != "" then
        a.(token := r.refreshToken, tokenExpires := Some(now + 90 * DAY),
           nextRefresh := Some(now + intervalDays * DAY))
      else a;
    if r.ok then
      b.(status := if r.healthChecked then Healthy else Refreshed, errorCode := None)
    else
      var c :=
        if r.permanent then b.(status := TokenInvalid, nextRefresh := None)
        else if r.errorCode == "imap_failed" then b.(status := FetchFailed)
        else b.(status := TransientError, nextRefresh := Some(now + DAY));
      c.(errorCode := Some(Truncated(r.errorCode, 80)))
  }

  /** The life-cycle invariant of one row. */
  predicate LifeOk(a: Account) {
    && (a.status == TokenInvalid <==> a.nextRefresh == None)
    && (a.errorCode.Some? <==> a.status in {TokenInvalid, FetchFailed, TransientError})
    && (a.status in {Healthy, Refreshed, FetchFailed} ==>
          a.nextRefresh.Some? && a.tokenExpires.Some? && a.nextRefresh.value < a.tokenExpires.value)
    && a.token != ""
  }

  /** The results the token endpoint and the mailbox check can produce, whatever they answer. */
  predicate Producible(r: AccountResult) {
    && (r.ok ==> r.refreshToken != "")
    && (r.permanent ==> !r.ok && r.refreshToken == "")
    && (!r.ok && r.refreshToken != "" ==> r.errorCode == "imap_failed")
  }

  /** A token endpoint that answers with the error code the worker itself uses for a failed mailbox check. */
  predicate Impersonates(r: AccountResult) {
    !r.ok && !r.permanent && r.refreshToken == "" && r.errorCode == "imap_failed"
  }

  /**
   One result keeps the life-cycle invariant, except that an impersonated mailbox failure does so exactly
   when the row already had a next refresh ahead of its expiry.
   */
  lemma ApplyKeepsLife(a: Account, r: AccountResult, now: Time, intervalDays: int)
    requires LifeOk(a) && Producible(r) && 1 <= intervalDays <= 89
    ensures LifeOk(Apply(a, r, now, intervalDays)) <==>
            (Impersonates(r) ==>
               a.nextRefresh.Some? && a.tokenExpires.Some? && a.nextRefresh.value < a.tokenExpires.value)
  {
    var b := Apply(a, r, now, intervalDays);
    if r.ok {
      assert b.errorCode == None;
    } else {
      assert b.errorCode.Some?;
    }
  }

  predicate TableLife(t: Table) {
    forall id :: id in t.rows ==> LifeOk(t.rows[id])
  }

  lemma {:induction false} UpsertKeepsLife(t: Table, rows: seq<Row>, mode: DuplicateMode)
    requires TableLife(t) && forall k :: 0 <= k < |rows| ==> rows[k].token != ""
    ensures TableLife(UpsertAll(t, rows, mode))
    decreases |rows|
  {
    if rows != [] {
      UpsertKeepsLife(t, rows[..|rows| - 1], mode);
    }
  }

  // ----- The dashboard

  function Bucket(t: Table, statuses: set<Status>): set<Id> {
    set id | id in t.rows && t.rows[id].status in statuses
  }

  function Overdue(t: Table, now: Time): set<Id> {
    set id | id in t.rows && t.rows[id].nextRefresh.Some? && t.rows[id].nextRefresh.value <= now
  }

  /** The four status buckets partition the table. */
  lemma DashboardPartition(t: Table)
    ensures |Bucket(t, {Healthy, Refreshed})| + |Bucket(t, {TokenInvalid})|
          + |Bucket(t, {FetchFailed, TransientError})| + |Bucket(t, {Unknown})| == |t.rows|
  {
    BucketSplit(t, {Healthy, Refreshed}, {TokenInvalid});
    BucketSplit(t, {Healthy, Refreshed} + {TokenInvalid}, {FetchFailed, TransientError});
    BucketSplit(t, {Healthy, Refreshed} + {TokenInvalid} + {FetchFailed, TransientError}, {Unknown});
    var all := {Healthy, Refreshed} + {TokenInvalid} + {FetchFailed, TransientError} + {Unknown};
    forall id | id in t.rows ensures id in Bucket(t, all) {
      var s := t.rows[id].status;
      assert s == Healthy || s == Refreshed || s == TokenInvalid || s == FetchFailed || s == TransientError
          || s == Unknown;
    }
    assert Bucket(t, all) == t.rows.Keys;
  }

  lemma BucketSplit(t: Table, a: set<Status>, b: set<Status>)
    requires a !! b
    ensures |Bucket(t, a + b)| == |Bucket(t, a)| + |Bucket(t, b)|
  {
    assert Bucket(t, a + b) == Bucket(t, a) + Bucket(t, b);
  }

  /** An account whose token is invalid is never due for refresh. */
  lemma InvalidNeverDue(t: Table, now: Time)
    requires TableLife(t)
    ensures Overdue(t, now) !! Bucket(t, {TokenInvalid})
  {
    forall id | id in Overdue(t, now) ensures id !in Bucket(t, {TokenInvalid}) {
      assert LifeOk(t.rows[id]);
    }
  }
}
