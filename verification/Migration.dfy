/** The start-up migration of account ciphertexts to the bound format, batch by batch. */
module Migration {
  import opened Prelude
  import opened Keyset
  import opened Vault

  type Id = int

  datatype Record = Record(hash: string, email: Bytes, clientId: Bytes, token: Bytes)

  type Records = map<Id, Record>

  function Get(r: Record, f: Field): Bytes {
    match f
    case Email => r.email
    case ClientId => r.clientId
    case RefreshToken => r.token
  }

  function Set(r: Record, f: Field, v: Bytes): Record {
    match f
    case Email => r.(email := v)
    case ClientId => r.(clientId := v)
    case RefreshToken => r.(token := v)
  }

  /** The order in which an account's fields are converted. */
  const FIELDS: seq<Field> := [Email, ClientId, RefreshToken]

  /** No field is passed over. */
  lemma AllFields(f: Field)
    ensures exists i :: 0 <= i < |FIELDS| && FIELDS[i] == f
  {
    assert FIELDS[0] == Email && FIELDS[1] == ClientId && FIELDS[2] == RefreshToken;
  }

  /** The fields still in the old format. */
  function LegacyFields(rows: Records): set<(Id, Field)> {
    set id, f: Field | id in rows && NeedsUpgrade(Get(rows[id], f)) :: (id, f)
  }

  /** What a field decrypts to in its own account and place. */
  function Plain(u: Suite, r: Record, f: Field): Option<string> {
    Open(u, Get(r, f), AccountContext(r.hash, f))
  }

  /** A field the migration cannot convert. */
  predicate Stuck(u: Suite, r: Record, f: Field) {
    NeedsUpgrade(Get(r, f)) && (!ValidHash(r.hash) || Plain(u, r, f).None?)
  }

  predicate SomeStuck(u: Suite, rows: Records) {
    exists id, f: Field :: id in rows && Stuck(u, rows[id], f)
  }

  /** The same plaintexts; a field is as it was, or was convertible and is now in the new format. */
  predicate SameField(u: Suite, a: Record, b: Record, f: Field) {
    && Plain(u, b, f) == Plain(u, a, f)
    && (Get(b, f) == Get(a, f) || (NeedsUpgrade(Get(a, f)) && !NeedsUpgrade(Get(b, f)) && !Stuck(u, a, f)))
  }

  predicate SameRecord(u: Suite, a: Record, b: Record) {
    b.hash == a.hash && forall f: Field :: SameField(u, a, b, f)
  }

  /** The same accounts with the same meaning. */
  predicate SameMeaning(u: Suite, a: Records, b: Records) {
    b.Keys == a.Keys && forall id :: id in a ==> id in b && SameRecord(u, a[id], b[id])
  }

  lemma SameTransitive(u: Suite, a: Records, b: Records, c: Records)
    requires SameMeaning(u, a, b) && SameMeaning(u, b, c)
    ensures SameMeaning(u, a, c)
  {
    forall id | id in a ensures id in c && SameRecord(u, a[id], c[id]) {
      assert SameRecord(u, a[id], b[id]) && SameRecord(u, b[id], c[id]);
      forall f: Field ensures SameField(u, a[id], c[id], f) {
        assert SameField(u, a[id], b[id], f) && SameField(u, b[id], c[id], f);
      }
    }
  }

  lemma StuckBefore(u: Suite, a: Records, b: Records, id: Id, f: Field)
    requires SameMeaning(u, a, b) && id in b && Stuck(u, b[id], f)
    ensures id in a && Stuck(u, a[id], f)
  {
    assert id in a.Keys;
    assert SameRecord(u, a[id], b[id]) && SameField(u, a[id], b[id], f);
  }

  /** Once everything is in the new format, nothing was unconvertible before. */
  lemma NoneStuck(u: Suite, a: Records, b: Records)
    requires SameMeaning(u, a, b) && LegacyFields(b) == {}
    ensures !SomeStuck(u, a)
  {
    forall id, f: Field | id in a ensures !Stuck(u, a[id], f) {
      assert SameRecord(u, a[id], b[id]) && SameField(u, a[id], b[id], f);
      assert (id, f) !in LegacyFields(b);
    }
  }

  // ----- Column by column

  /** The column is empty or in the new format. */
  predicate NewFormat(v: Bytes) {
    v == [] || [0x54, 0x4C, 0x32, 0x00] <= v
  }

  predicate AllNew(rows: Records) {
    forall id :: id in rows ==> NewFormat(rows[id].email) && NewFormat(rows[id].clientId) && NewFormat(rows[id].token)
  }

  /** Every column opens, as its own account's and its own, to what it opened to. */
  predicate RecordKept(u: Suite, a: Record, b: Record) {
    var h := a.hash;
    && b.hash == h
    && Open(u, b.email, "account:" + h + ":email") == Open(u, a.email, "account:" + h + ":email")
    && Open(u, b.clientId, "account:" + h + ":client_id") == Open(u, a.clientId, "account:" + h + ":client_id")
    && Open(u, b.token, "account:" + h + ":refresh_token") == Open(u, a.token, "account:" + h + ":refresh_token")
  }

  predicate ColumnsKept(u: Suite, a: Records, b: Records) {
    b.Keys == a.Keys && forall id :: id in a ==> id in b && RecordKept(u, a[id], b[id])
  }

  function OldEmails(rows: Records): set<Id> {
    set id | id in rows && !NewFormat(rows[id].email)
  }

  function OldClientIds(rows: Records): set<Id> {
    set id | id in rows && !NewFormat(rows[id].clientId)
  }

  function OldTokens(rows: Records): set<Id> {
    set id | id in rows && !NewFormat(rows[id].token)
  }

  lemma ContextText(h: string)
    ensures AccountContext(h, Email) == "account:" + h + ":email"
    ensures AccountContext(h, ClientId) == "account:" + h + ":client_id"
    ensures AccountContext(h, RefreshToken) == "account:" + h + ":refresh_token"
  {
    var x := "account:" + h;
    assert ":" + "email" == ":email" && ":" + "client_id" == ":client_id" && ":" + "refresh_token" == ":refresh_token";
    assert x + ":" + "email" == x + (":" + "email") && x + ":" + "client_id" == x + (":" + "client_id");
    assert x + ":" + "refresh_token" == x + (":" + "refresh_token");
  }

  lemma RecordColumns(u: Suite, a: Record, b: Record)
    requires SameRecord(u, a, b)
    ensures RecordKept(u, a, b)
  {
    ContextText(a.hash);
    assert SameField(u, a, b, Email) && SameField(u, a, b, ClientId) && SameField(u, a, b, RefreshToken);
  }

  lemma SameColumns(u: Suite, a: Records, b: Records)
    requires SameMeaning(u, a, b)
    ensures ColumnsKept(u, a, b)
  {
    forall id | id in a ensures id in b && RecordKept(u, a[id], b[id]) {
      RecordColumns(u, a[id], b[id]);
    }
  }

  lemma NoneOld(rows: Records)
    requires LegacyFields(rows) == {}
    ensures AllNew(rows)
  {
    forall id | id in rows
      ensures NewFormat(rows[id].email) && NewFormat(rows[id].clientId) && NewFormat(rows[id].token)
    {
      assert (id, Email) !in LegacyFields(rows) && (id, ClientId) !in LegacyFields(rows);
      assert (id, RefreshToken) !in LegacyFields(rows);
    }
  }

  function Pairs(ids: set<Id>, f: Field): set<(Id, Field)> {
    set id | id in ids :: (id, f)
  }

  lemma {:induction false} PairsCount(ids: set<Id>, f: Field)
    ensures |Pairs(ids, f)| == |ids|
  {
    if ids != {} {
      var id := AnyOf(ids);
      PairsCount(ids - {id}, f);
      assert Pairs(ids, f) == Pairs(ids - {id}, f) + {(id, f)};
    }
  }

  lemma LegacyByColumn(rows: Records)
    ensures LegacyFields(rows)
         == Pairs(OldEmails(rows), Email) + Pairs(OldClientIds(rows), ClientId) + Pairs(OldTokens(rows), RefreshToken)
  {
    forall id, f: Field
      ensures (id, f) in LegacyFields(rows) <==>
              (id, f) in Pairs(OldEmails(rows), Email) + Pairs(OldClientIds(rows), ClientId)
                         + Pairs(OldTokens(rows), RefreshToken)
    {
    }
  }

  /** The legacy fields are those of the three columns together. */
  lemma CountByColumn(rows: Records)
    ensures |LegacyFields(rows)| == |OldEmails(rows)| + |OldClientIds(rows)| + |OldTokens(rows)|
  {
    LegacyByColumn(rows);
    PairsCount(OldEmails(rows), Email);
    PairsCount(OldClientIds(rows), ClientId);
    PairsCount(OldTokens(rows), RefreshToken);
  }

  // ----- One field

  /** The account with one more field in the new format; None where the code raises. */
  function Converted(u: Suite, r: Record, f: Field, nonce: Bytes): Option<Record> {
    if !NeedsUpgrade(Get(r, f)) then Some(r)
    else if !ValidHash(r.hash) then None
    else
      var v := Upgrade(u, Get(r, f), AccountContext(r.hash, f), nonce);
      if v.None? then None else Some(Set(r, f, v.value))
  }

  lemma ConvertedKeeps(u: Suite, r: Record, f: Field, nonce: Bytes)
    requires Lawful(u) && |nonce| == NONCE
    ensures var c := Converted(u, r, f, nonce);
            && (c.None? <==> Stuck(u, r, f))
            && (c.Some? ==> SameRecord(u, r, c.value) && !NeedsUpgrade(Get(c.value, f)))
            && (c.Some? ==> forall g :: g != f ==> Get(c.value, g) == Get(r, g))
  {
    if NeedsUpgrade(Get(r, f)) && ValidHash(r.hash) {
      ContextInjective(u, r.hash, f, r.hash, f);
      UpgradeKeeps(u, Get(r, f), AccountContext(r.hash, f), nonce);
    }
  }

  lemma ConvertedRest(rows: Records, id: Id, f: Field, r: Record)
    requires id in rows && !NeedsUpgrade(Get(r, f))
    requires forall g :: g != f ==> Get(r, g) == Get(rows[id], g)
    ensures LegacyFields(rows[id := r]) == LegacyFields(rows) - {(id, f)}
  {
    forall i, g ensures (i, g) in LegacyFields(rows[id := r]) <==> (i, g) in LegacyFields(rows) - {(id, f)} {
    }
  }

  lemma ConvertedCount(rows: Records, id: Id, f: Field, r: Record)
    requires id in rows && !NeedsUpgrade(Get(r, f))
    requires forall g :: g != f ==> Get(r, g) == Get(rows[id], g)
    ensures |LegacyFields(rows[id := r])| + (if NeedsUpgrade(Get(rows[id], f)) then 1 else 0) == |LegacyFields(rows)|
  {
    ConvertedRest(rows, id, f, r);
    if NeedsUpgrade(Get(rows[id], f)) {
      assert (id, f) in LegacyFields(rows);
    } else {
      assert (id, f) !in LegacyFields(rows);
      assert LegacyFields(rows) - {(id, f)} == LegacyFields(rows);
    }
  }

  lemma PutSame(u: Suite, a: Records, b: Records, id: Id, r: Record)
    requires SameMeaning(u, a, b) && id in b && SameRecord(u, b[id], r)
    ensures SameMeaning(u, a, b[id := r])
  {
    SameMeaningRefl(u, b);
    assert SameMeaning(u, b, b[id := r]);
    SameTransitive(u, a, b, b[id := r]);
  }

  lemma SameMeaningRefl(u: Suite, a: Records)
    ensures SameMeaning(u, a, a)
  {
  }

  // ----- The migration

  type Nonces = f: (Id, Field) -> Bytes | forall id, g :: |f(id, g)| == NONCE witness (id, g) => seq(NONCE, _ => 0)

  datatype Outcome = Done(migrated: nat) | Interrupted | Raised

  /** The first `k` fields are in the new format. */
  predicate FirstBound(r: Record, k: nat) {
    forall i :: 0 <= i < k && i < |FIELDS| ==> !NeedsUpgrade(Get(r, FIELDS[i]))
  }

  /** `staged` is what a part of the migration made of `rows`, having converted `count` fields and no other account. */
  predicate StagedFrom(u: Suite, rows: Records, staged: Records, count: nat) {
    SameMeaning(u, rows, staged) && count + |LegacyFields(staged)| == |LegacyFields(rows)|
  }

  predicate OthersSame(rows: Records, staged: Records, id: Id) {
    staged.Keys == rows.Keys && forall other :: other in rows && other != id ==> staged[other] == rows[other]
  }

  lemma StagedTransitive(u: Suite, a: Records, b: Records, c: Records, m: nat, n: nat)
    requires StagedFrom(u, a, b, m) && StagedFrom(u, b, c, n)
    ensures StagedFrom(u, a, c, m + n)
  {
    SameTransitive(u, a, b, c);
  }

  lemma ConvertedStaged(u: Suite, rows: Records, id: Id, f: Field, r: Record)
    requires id in rows && SameRecord(u, rows[id], r) && !NeedsUpgrade(Get(r, f))
    requires forall g :: g != f ==> Get(r, g) == Get(rows[id], g)
    ensures StagedFrom(u, rows, rows[id := r], if NeedsUpgrade(Get(rows[id], f)) then 1 else 0)
  {
    SameMeaningRefl(u, rows);
    PutSame(u, rows, rows, id, r);
    ConvertedCount(rows, id, f, r);
  }

  lemma ConvertedBound(r: Record, r': Record, k: nat)
    requires k < |FIELDS| && FirstBound(r, k) && !NeedsUpgrade(Get(r', FIELDS[k]))
    requires forall g :: g != FIELDS[k] ==> Get(r', g) == Get(r, g)
    ensures FirstBound(r', k + 1)
  {
  }

  /** One field, in the session's copy of the account. None where the code raises. */
  method ConvertField(
    u: Suite, rows: Records, id: Id, k: nat, nonce: Bytes)
    returns (staged: Option<Records>, count: nat)
    requires Lawful(u) && id in rows && k < |FIELDS| && |nonce| == NONCE && FirstBound(rows[id], k)
    ensures staged.None? ==> Stuck(u, rows[id], FIELDS[k])
    ensures staged.Some? ==> StagedFrom(u, rows, staged.value, count) && OthersSame(rows, staged.value, id)
    ensures staged.Some? ==> FirstBound(staged.value[id], k + 1)
  {
    var f := FIELDS[k];
    var next := Converted(u, rows[id], f, nonce);
    ConvertedKeeps(u, rows[id], f, nonce);
    if next == None {
      return None, 0;
    }
    ConvertedStaged(u, rows, id, f, next.value);
    ConvertedBound(rows[id], next.value, k);
    return Some(rows[id := next.value]), if NeedsUpgrade(Get(rows[id], f)) then 1 else 0;
  }

  /** One account: its fields in turn. */
  method ConvertAccount(u: Suite, rows: Records, id: Id, nonces: Nonces) returns (staged: Option<Records>, count: nat)
    requires Lawful(u) && id in rows
    ensures staged.None? ==> SomeStuck(u, rows)
    ensures staged.Some? ==> StagedFrom(u, rows, staged.value, count) && OthersSame(rows, staged.value, id)
    ensures staged.Some? ==> FirstBound(staged.value[id], |FIELDS|)
  {
    var current := rows;
    count := 0;
    SameMeaningRefl(u, rows);
    for k := 0 to |FIELDS|
      invariant StagedFrom(u, rows, current, count) && OthersSame(rows, current, id)
      invariant id in current && FirstBound(current[id], k)
    {
      var next, n := ConvertField(u, current, id, k, nonces(id, FIELDS[k]));
      if next == None {
        StuckBefore(u, rows, current, id, FIELDS[k]);
        return None, 0;
      }
      StagedTransitive(u, rows, current, next.value, count, n);
      current, count := next.value, count + n;
    }
    staged := Some(current);
  }

  // ----- Batches

  predicate AllBound(r: Record) {
    FirstBound(r, |FIELDS|)
  }

  /** Every account up to the cursor is in the new format. */
  predicate BoundUpTo(rows: Records, cursor: Id) {
    forall id :: id in rows && id <= cursor ==> AllBound(rows[id])
  }

  /** The page's accounts exist, and the first `n` of them are in the new format. */
  predicate PageBoundSoFar(rows: Records, ids: seq<Id>, n: nat) {
    forall k :: 0 <= k < |ids| ==> ids[k] in rows && (k < n ==> AllBound(rows[ids[k]]))
  }

  lemma BoundKept(u: Suite, a: Records, b: Records, id: Id)
    requires SameMeaning(u, a, b) && id in a && AllBound(a[id])
    ensures AllBound(b[id])
  {
    assert SameRecord(u, a[id], b[id]);
    forall i | 0 <= i < |FIELDS| ensures !NeedsUpgrade(Get(b[id], FIELDS[i])) {
      assert SameField(u, a[id], b[id], FIELDS[i]);
    }
  }

  lemma BoundUpToKept(u: Suite, a: Records, b: Records, cursor: Id)
    requires SameMeaning(u, a, b) && BoundUpTo(a, cursor)
    ensures BoundUpTo(b, cursor)
  {
    forall id | id in b && id <= cursor ensures AllBound(b[id]) {
      assert id in a.Keys;
      BoundKept(u, a, b, id);
    }
  }

  /** With the whole page in the new format, so is everything up to the page's last account. */
  lemma PageBound(rows: Records, staged: Records, cursor: Id, batchSize: nat, ids: seq<Id>)
    requires ids == Select(rows.Keys, cursor, batchSize) && ids != [] && staged.Keys == rows.Keys
    requires BoundUpTo(staged, cursor)
    requires PageBoundSoFar(staged, ids, |ids|)
    ensures BoundUpTo(staged, ids[|ids| - 1]) && ids[|ids| - 1] > cursor
  {
    assert ids[|ids| - 1] in ids;
    forall id | id in staged && id <= ids[|ids| - 1] ensures AllBound(staged[id]) {
      if id > cursor {
        assert id in rows.Keys && Reached(ids, batchSize, id);
        assert id in ids;
      }
    }
  }

  lemma LastPage(rows: Records, cursor: Id, batchSize: nat)
    requires batchSize >= 1 && Select(rows.Keys, cursor, batchSize) == [] && BoundUpTo(rows, cursor)
    ensures LegacyFields(rows) == {}
  {
    forall id, f: Field | id in rows ensures !NeedsUpgrade(Get(rows[id], f)) {
      if id > cursor {
        assert id in rows.Keys && Reached([], batchSize, id);
      } else {
        assert AllBound(rows[id]);
        AllFields(f);
        var i :| 0 <= i < |FIELDS| && FIELDS[i] == f;
      }
    }
  }

  lemma PageStep(u: Suite, a: Records, b: Records, ids: seq<Id>, i: nat)
    requires i < |ids| && PageBoundSoFar(a, ids, i) && SameMeaning(u, a, b) && AllBound(b[ids[i]])
    ensures PageBoundSoFar(b, ids, i + 1)
  {
    forall k | 0 <= k < |ids| ensures ids[k] in b && (k <= i ==> AllBound(b[ids[k]])) {
      if k < i { BoundKept(u, a, b, ids[k]); }
    }
  }

  /** One session: a page of accounts, all or nothing. */
  method ConvertPage(
    u: Suite, rows: Records, ids: seq<Id>, nonces: Nonces)
    returns (staged: Option<Records>, count: nat)
    requires Lawful(u) && PageBoundSoFar(rows, ids, 0)
    ensures staged.None? ==> SomeStuck(u, rows)
    ensures staged.Some? ==> StagedFrom(u, rows, staged.value, count) && PageBoundSoFar(staged.value, ids, |ids|)
  {
    var current := rows;
    count := 0;
    SameMeaningRefl(u, rows);
    for i := 0 to |ids|
      invariant StagedFrom(u, rows, current, count)
      invariant PageBoundSoFar(current, ids, i)
    {
      var next, n := ConvertAccount(u, current, ids[i], nonces);
      if next == None {
        StuckSomewhere(u, rows, current);
        return None, 0;
      }
      StagedTransitive(u, rows, current, next.value, count, n);
      PageStep(u, current, next.value, ids, i);
      current, count := next.value, count + n;
    }
    staged := Some(current);
  }

  lemma StuckSomewhere(u: Suite, a: Records, b: Records)
    requires SameMeaning(u, a, b) && SomeStuck(u, b)
    ensures SomeStuck(u, a)
  {
    var id, f :| id in b && Stuck(u, b[id], f);
    StuckBefore(u, a, b, id, f);
  }

  class AccountTable {
    var rows: Records

    constructor (r: Records)
      ensures rows == r
    {
      rows := r;
    }

    /**
     The migration. The process may die before committing batch number `dies`. However it ends, every field
     still means what it meant; an undisturbed run converts all legacy fields and counts them, or raises exactly
     if some legacy field cannot be opened for its account.
     */
    method Migrate(u: Suite, batchSize: nat, nonces: Nonces, dies: Option<nat>) returns (o: Outcome)
      requires Lawful(u) && batchSize >= 1 && forall id :: id in rows ==> id > 0
      modifies this
      ensures SameMeaning(u, old(rows), rows) && ColumnsKept(u, old(rows), rows)
      ensures o.Done? ==> LegacyFields(rows) == {} && o.migrated == |LegacyFields(old(rows))|
      ensures o.Done? ==>
                && AllNew(rows)
                && o.migrated == |OldEmails(old(rows))| + |OldClientIds(old(rows))| + |OldTokens(old(rows))|
      ensures dies == None ==> !o.Interrupted? && (o.Raised? <==> SomeStuck(u, old(rows)))
    {
      ghost var start := rows;
      var migrated, cursor, batches := 0, 0, 0;
      SameMeaningRefl(u, rows);
      while true
        invariant StagedFrom(u, start, rows, migrated)
        invariant BoundUpTo(rows, cursor) && cursor >= 0
        decreases |Above(rows.Keys, cursor)|
      {
        var ids := Select(rows.Keys, cursor, batchSize);
        if ids == [] {
          LastPage(rows, cursor, batchSize);
          NoneStuck(u, start, rows);
          NoneOld(rows);
          CountByColumn(start);
          SameColumns(u, start, rows);
          return Done(migrated);
        }
        if dies == Some(batches) {
          SameColumns(u, start, rows);
          return Interrupted;
        }
        assert forall k :: 0 <= k < |ids| ==> ids[k] in ids;
        var staged, n := ConvertPage(u, rows, ids, nonces);
        if staged == None {
          StuckSomewhere(u, start, rows);
          SameColumns(u, start, rows);
          return Raised;
        }
        BoundUpToKept(u, rows, staged.value, cursor);
        PageBound(rows, staged.value, cursor, batchSize, ids);
        StagedTransitive(u, start, rows, staged.value, migrated, n);
        AboveShrinks(rows.Keys, cursor, ids[|ids| - 1]);
        rows := staged.value;
        migrated, cursor, batches := migrated + n, ids[|ids| - 1], batches + 1;
      }
    }

    /**
     Dies any number of times, each time anywhere, and is then run to its end, and once more. `left` is what the
     deaths left behind. The last run counts exactly the legacy fields left, or raises exactly if the original
     table held a field that cannot be opened.
     */
    method MigrateWithRestarts(u: Suite, batchSize: nat, nonces: Nonces, deaths: seq<nat>)
      returns (last: Outcome, again: Outcome, ghost left: Records)
      requires Lawful(u) && batchSize >= 1 && forall id :: id in rows ==> id > 0
      modifies this
      ensures SameMeaning(u, old(rows), left) && SameMeaning(u, old(rows), rows)
      ensures last == if SomeStuck(u, old(rows)) then Raised else Done(|LegacyFields(left)|)
      ensures last.Done? ==> LegacyFields(rows) == {} && AllNew(rows) && again == Done(0)
      ensures ColumnsKept(u, old(rows), rows)
      ensures last.Raised? ==> again == Raised
    {
      ghost var start := rows;
      SameMeaningRefl(u, rows);
      for i := 0 to |deaths|
        invariant SameMeaning(u, start, rows)
      {
        ghost var before := rows;
        var o := Migrate(u, batchSize, nonces, Some(deaths[i]));
        SameTransitive(u, start, before, rows);
      }
      left := rows;
      StuckStays(u, start, left);
      last := Migrate(u, batchSize, nonces, None);
      ghost var done := rows;
      SameTransitive(u, start, left, done);
      StuckStays(u, start, done);
      again := Migrate(u, batchSize, nonces, None);
      SameTransitive(u, start, done, rows);
      SameColumns(u, start, rows);
    }
  }

  /** An unconvertible field stays as it is, and none comes about. */
  lemma StuckStays(u: Suite, a: Records, b: Records)
    requires SameMeaning(u, a, b)
    ensures SomeStuck(u, a) <==> SomeStuck(u, b)
  {
    if SomeStuck(u, a) {
      var id, f :| id in a && Stuck(u, a[id], f);
      assert SameRecord(u, a[id], b[id]) && SameField(u, a[id], b[id], f);
      assert Stuck(u, b[id], f);
    }
    if SomeStuck(u, b) {
      StuckSomewhere(u, a, b);
    }
  }

  lemma AboveShrinks(ids: set<Id>, low: Id, high: Id)
    requires high in ids && low < high
    ensures |Above(ids, high)| < |Above(ids, low)|
  {
    assert Above(ids, high) <= Above(ids, low) - {high};
    assert high in Above(ids, low);
    SubsetSize(Above(ids, high), Above(ids, low) - {high});
  }
}
