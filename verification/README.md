# Token Loom: the durable job engine and its stateful cores

Token Loom keeps mail-account refresh tokens alive. A web process queues jobs in a database, one worker carries
them out in batches, and either process may die between any two database sessions or file operations. This
project models that engine in Dafny and proves what it promises over every run, together with the smaller
stateful parts around it. `dafny verify dfyconfig.toml` checks everything.

## How the model is built

`Engine` is the state machine: the jobs table, the account table with its unique hash index, the spool directory,
the unfinished uploads, the clock, the scheduler's marker, and the position of the single worker. A step is one
committed session, one file operation, a crash, or a restart; web steps may fall between any two worker steps. A
run is a sequence of steps; `After` is the state it leads to. The `Trace` kept for each job (its uploaded bytes, its
snapshot, the results it committed) is bookkeeping for the statements: no step's behaviour depends on it.

`Service` holds the same sessions as imperative code over fields that are updated in place, each proved to take
exactly the machine's step, so that every theorem about runs is a theorem about sessions executed in any order. Its
shorter sessions are the machine's steps written as assignments and state nothing of their own; the table below
lists those whose loops, counters or branches have to be proved.

| module | about |
|---|---|
| `Lines`, `AccountLine`, `LineMeaning` | the bounded line reader, the streamed line count, the account line format and what it accepts |
| `Accounts` | upsert, the result of a job on one account, the dashboard |
| `ImportPass`, `LineFates`, `ImportRuns`, `ImportRefinement` | what an import means, line by line and in counts; its cursor; batches equal one pass |
| `QueueSafety`, `ClaimOrder`, `JobRows`, `SpoolSafety`, `Cleanup`, `Drain`, `Endings`, `Progress` | safety, order and progress of the queue and its files, and how jobs end |
| `Keyset`, `Scopes`, `Coverage`, `Exactness`, `LifeCycle`, `Rotation`, `OAuth` | account jobs and their scopes, account columns, tokens |
| `Scenarios` | the shared beginning of the runs that show a failing side |
| `SchedulerRuns` | the daily tick |
| `LoginLimiter`, `Vault`, `Migration`, `PageWalk` | login limiter, field encryption, its migration, the account list |

## Where the code does less than it seems to

Each of these is stated as an exact condition.

- **A sweep can delete the file of a queued import.** The maintenance session lists live imports, and computes the
  one-hour cutoff only later; an upload may also pause before its row is committed. `SpoolSafety.SpoolSafeIffBounded`:
  no run loses a live import's file if and only if the longest pause of an upload between two writes or before its
  publication, plus the longest lag of a sweep between its listing and its cutoff, is at most 3600 seconds.
- **An OAuth error with the code `imap_failed`** is taken for a failed mailbox check, which leaves an account in
  `fetch_failed` without the expiry that status implies. `LifeCycle.AliveIffHonest`: the life-cycle invariant holds
  over every run if and only if no answer carries that code (`ImpersonationBreaks` is a run that breaks it);
  `Accounts.ApplyKeepsLife` says for one account exactly when it survives.
- **PostgreSQL refuses an update batch that repeats an address**, which fails the whole import.
  `ImportRefinement.RefusedOnlyByRepeats`: only imports all of whose batches are free of repeats complete, and those
  are never refused. `Endings.RepeatRefused` is a run with a two-line file that is refused; SQLite and skip mode are
  not affected (`NoRepeatsAccepted`).
- **The scheduler's marker remembers one date.** `SchedulerRuns.NeverTwiceIffNoSlip`: over every run no local date is
  served twice if and only if the observed date never goes back, as it does when the time zone is changed;
  `ServedTwice` is a run on days 1, 2, 1.
- **Printing an account line and parsing it again** returns the account exactly if `AccountLine.Printable` holds: the
  first three fields neither contain `----` nor end in `-`, and the address does not start with `#` or a byte order mark;
  `UnprintableAccount` is a valid account that fails it.
- **Account ids can come back on SQLite.** The table is declared without `AUTOINCREMENT`, so after the largest id is
  deleted it is handed out again. `Exactness.ExactlyOnceIffIdsStay`: over every run, jobs of a fixed scope cover
  exactly once if and only if ids do not come back at all, or no deletion lets the table's next id fall to or below
  an id that a live job of such a scope has yet to work on (`Engine.SparesReach`). `StrangerHit` is a run in which a
  waiting job works on an account imported after its own was deleted.

## Assumptions

- One worker, as `SECURITY.md` and `docs/ARCHITECTURE.md` require. Job ids are never used twice; for account ids see
  above.
- A session is atomic. A job's cancellation, which reads the row and then writes it, is one step.
- Text decoding, white space, lower-casing, the email hash, the cipher, compression and the text codec are parameters
  with the laws stated in `AccountLine.Lawful` and `Vault.Lawful`: authenticated encryption is idealised (decryption
  under other associated data fails), and a legacy nonce does not begin with the new format's prefix
  (`Vault.LegacyOpens`).
- The token endpoint and the mailbox answer arbitrarily; clocks do not go back where a statement says so.

## Model

| member | source | states |
|---|---|---|
| Lines.ReadLimitedLine | app/worker.py:63-74 | one call consumes exactly one logical line, returns it iff it is at most the limit long, newline included, and never buffers more than limit + 1 bytes |
| Lines.LinesCharacterised | app/worker.py:63-74 | the logical lines are the only cut of the file into well-formed lines that loses and repeats no byte |
| Lines.PasteTotalIsLineCount | app/main.py:274 | the paste endpoint's total is the number of logical lines |
| Lines.LinesAddUp | app/main.py:324-348 | the lines of an upload are those of the pasted text and those of the file: the last line of the one does not run into the first of the other |
| AccountLine.PrintThenParse | app/services.py:96-112 | for valid fields, already trimmed, printing then parsing is the identity iff the account is printable |
| AccountLine.UnprintableAccount | app/services.py:96-112 | a valid account that parsing does not return from its printed line |
| LineMeaning.PaddedRoundTrip | app/services.py:96-112 | a printable account comes back whatever white space stands around the line and around each separator, the newline included |
| LineMeaning.TrimExactly | app/services.py:97-103 | trimming leaves the one slice with only white space around it and none at its ends |
| LineMeaning.LineComesTo | app/services.py:96-112 | for every line: it parses to an account iff, between the outer white space and the marks in front, it is four parts around the first three separators that, trimmed, are this account and valid; it is blank iff nothing or a comment is left; it has not four parts iff there is no such cut |
| LineMeaning.CoreUnique | app/services.py:97 | every line leaves one core and only one: what is left without the outer white space and the marks then in front |
| LineMeaning.ReasonIs | app/services.py:104-111 | a line of four parts is turned down for the first failing one of: address shape, client id, token of at least 20, no control characters |
| Accounts.LastRowWins | app/services.py:177-212 | in update mode the last row of a hash decides the imported columns; a known hash keeps its id |
| Accounts.FirstRowWins | app/services.py:184-206 | in skip mode a known hash is untouched and the first row of a new hash is kept |
| Accounts.UpsertFrame | app/services.py:177-212 | hashes that occur in no row keep their account |
| Accounts.InsertedIsNew | app/services.py:184-212 | in skip mode the reported count is the number of accounts created |
| Accounts.HitsTwice | app/services.py:193-212 | finds whether a statement would touch one row twice |
| Accounts.AccountStore.UpsertAccounts | app/services.py:177-212 | the statement stores row by row, counts inserted and skipped rows, and is refused as a whole exactly for repeats on PostgreSQL in update mode |
| Accounts.ApplyKeepsLife | app/worker.py:307-339 | one job result keeps the life-cycle invariant, exactly unless an endpoint error impersonates a mailbox failure on a row without valid dates |
| Accounts.UpsertKeepsLife | app/services.py:153-206 | an import keeps the life-cycle invariant of every account |
| Accounts.DashboardPartition | app/services.py:380-414 | the healthy, invalid, attention and unknown counts add up to the total |
| Accounts.InvalidNeverDue | app/services.py:380-414 | an account with an invalid token is never counted as due |
| Scopes.OverdueAreDue | app/services.py:397-399 | the dashboard's overdue accounts are exactly those a due job would be created for |
| ImportPass.ReadImportBatch | app/worker.py:206-236 | the read loop yields the outcomes, counters, error lines, offset and end-of-file flag of the next at most batch-size lines |
| ImportPass.BatchIsOnePass | app/worker.py:238-246 | a bulk commit equals the row-by-row pass over its lines, counters included; the clamp on silent lines never clips |
| ImportPass.OnePassCounts | app/worker.py:241-246 | every line is counted as exactly one of succeeded, failed and skipped |
| ImportPass.ErrorsAreTrue | app/worker.py:216-236 | each reported error names the true line of the file and its reason |
| LineFates.LineFate | app/worker.py:206-236 | every line of every file is rejected iff it is too long, no text or malformed, ignored iff blank, and otherwise accepted as the account it parses to |
| LineFates.PassCounts | app/worker.py:241-246 | failed is the number of rejected lines; succeeded the number of accepted lines in update mode, and of new accounts in skip mode; skipped is the rest |
| LineFates.StoresLine | app/services.py:153-206 | an accepted line stores its own email, client id and token, in a new row or, in update mode, over the known one; in skip mode a known row stays |
| LineFates.ShowsFirstFive | app/worker.py:216-236 | the errors shown are the first five rejected lines, in order |
| ImportRuns.CursorInvariant | app/worker.py:195-253 | in every reachable state the cursor is a line boundary, processed counts the lines before it and equals the counters' sum, the total is exact, and a completed import processed all of it |
| ImportRuns.ImportsStep | app/worker.py:195-253 | every step of either process keeps the import invariant |
| ImportRefinement.ImportRefinesOnePass | app/worker.py:195-253 | for any batch size, mode and crashes, the table and the counters equal a single pass over the lines processed, refresh times included; over all lines once completed |
| ImportRefinement.RefusedOnlyByRepeats | app/services.py:193-212 | an import with acceptable batches is never refused, and a completed one had only such batches |
| Endings.RepeatRefused | app/services.py:193-212 | a concrete run: a file of twice the same line, once read on PostgreSQL in update mode, leaves the worker only to fail the job, with no account stored |
| ImportRefinement.NoRepeatsAccepted | app/services.py:193-212 | SQLite, skip mode, or a file without repeated addresses make every batch acceptable |
| QueueSafety.QueueStep | app/worker.py:77-192 | every step keeps the queue invariant: one running job, finish times, the worker's position |
| QueueSafety.QueueSafe | app/worker.py:169-192 | in every reachable state at most one job runs, none at the top of the loop, and finished_at is set iff the status is terminal |
| QueueSafety.TerminalForever | app/worker.py:87-112 | a terminal row never changes until maintenance deletes it, and does not come back |
| QueueSafety.CancelHonoured | app/main.py:432-443 | a live job with its cancel flag set commits at most one more batch, none if it was queued, and is never completed |
| QueueSafety.CancelSetsFlag | app/main.py:432-443 | a cancel request is accepted exactly for a queued or running job, and sets its flag and nothing else |
| JobRows.EndsNow | app/worker.py:169-354 | in any step a live job fails exactly if it is given up, is cancelled exactly where the worker sees its flag, and completes exactly by its last batch, and finished_at is the time of that step |
| JobRows.PublishQueues | app/main.py:351-372 | a published upload is a queued import of exactly its lines with nothing done; no other row and no file changes |
| JobRows.BatchReports | app/worker.py:238-246 | a batch with rejected lines reports the first five by line number, any other leaves the report alone |
| ClaimOrder.NextInOrder | app/worker.py:169-192 | in every reachable state the job claimed next is over selected accounts if any such job is queued, else an import if one is queued, else started by a user if such a job is queued; among equals it is the oldest |
| SpoolSafety.SpoolStep | app/worker.py:87-123 | under the time bound every step keeps the files of live imports and of active uploads |
| SpoolSafety.SpoolSafeIffBounded | app/worker.py:114-123 | no run loses a live import's file iff upload pauses plus sweep lag fit into 3600 seconds |
| SpoolSafety.StalledSweep | app/worker.py:98-123 | beyond that bound a concrete run loses a queued import's file |
| SpoolSafety.SweepRemovesExactly | app/worker.py:114-123 | a sweep can remove a file iff it is older than the cutoff and no queued or running import refers to it |
| Cleanup.NoLeftovers | app/worker.py:255-256 | over every run without a crash or a failing removal, an ended import has no file as soon as the worker has moved on |
| Progress.KeptStep | app/worker.py:169-192 | no step but the commit of its own batch moves a job's cursor or counters |
| Progress.TableEvolves | app/services.py:177-212 | whatever the step, accounts appear only under ids the table had yet to hand out, and only a deletion on a table that reuses ids takes its next id back |
| Progress.DeletesExactly | app/main.py:493-511 | a deletion takes exactly the named accounts and their hashes and touches no other account and no job |
| Keyset.Select | app/worker.py:264-269 | the batch query's answer: ascending ids above the cursor, at most the limit, and every id it must reach |
| Keyset.SelectIsFirst | app/worker.py:264-269 | the answer is exactly the ids above the cursor with fewer than limit such ids before them |
| Scopes.SnapshotIs | app/services.py:366-377 | the accounts counted for a job: the chosen ids in the table, all of them, or those whose next refresh is set and not after now |
| Scopes.CreatesJobOver | app/main.py:379-422 | an account job can be created iff some account is in its scope; its total is their number and its bound their largest id |
| Scopes.LoadsNextBatch | app/worker.py:259-271 | a batch is exactly the first worker-batch ids above the cursor, up to the largest id, that are chosen, in the table or due, each with its stored token |
| Scopes.TickServesDue | app/worker.py:126-166 | a tick adds a job iff the time has come, the date is not served, no due refresh is pending and some account's next refresh is set and not after now; the job is over all of these; the date is booked once its time has come |
| Coverage.CoverageStep | app/worker.py:274-354 | on any table, every step keeps the cursor, hits and counters of every account job consistent |
| Exactness.ExactStep | app/worker.py:274-354 | as long as ids stay, every step keeps the coverage invariant of every job of a fixed scope |
| Exactness.CoversExactlyOnce | app/worker.py:274-354 | as long as no id within a live job's reach comes back: for scopes all and selected, at most one result per account, none to an account outside the snapshot, and all snapshot accounts never deleted once completed |
| Exactness.ExactlyOnceIffIdsStay | app/models.py:34 | this holds over every run iff ids do not come back within a live job's reach |
| Exactness.StrangerHit | app/models.py:34 | a concrete run in which a job commits a result to an account imported under a deleted id |
| Coverage.CountersConserved | app/worker.py:300-344 | for every scope, at most one result per account, and processed = succeeded + failed + accounts deleted between load and commit |
| Coverage.CommitTouchesHits | app/worker.py:302-339 | a commit changes exactly the accounts it books, each by its own result |
| Coverage.CommitCounts | app/worker.py:304-344 | succeeded grows by the booked accounts with a good result, failed by the others |
| Drain.MeasureKept | app/worker.py:169-192 | no step that adds no job raises the total of remaining bytes and ids over live jobs |
| Drain.CommitLowers | app/worker.py:238-253 | each committed batch lowers the total of remaining bytes and ids over live jobs |
| Drain.WorkIsBounded | app/worker.py:387-436 | with no new jobs, the worker's steps in any run are bounded by the initial potential plus three per crash |
| Drain.CanGoOn | app/worker.py:387-436 | while a job is live some worker step is enabled that gives no job up, unless the database refuses its batch |
| Drain.QueueDrains | app/worker.py:387-436 | after any run, however the worker goes on by itself without giving up acceptable batches, it stops within its effort, and where it stops every job is terminal |
| Drain.DrainingRun | app/worker.py:387-436 | such a run to the end exists from every reachable state |
| Endings.EveryJobEndsRightly | app/worker.py:238-253 | over every run in which only refused batches are given up, a terminal job that nobody cancelled is completed iff it is an account job or an import whose batches are all acceptable |
| Endings.EveryJobIsServed | app/worker.py:387-436 | after any such run the worker can bring every job to that end by itself |
| LifeCycle.LifeStepKeeps | app/worker.py:307-339 | every step without an impersonated mailbox failure keeps every account's invariant |
| LifeCycle.AliveIffHonest | app/worker.py:327-339 | the life-cycle invariant holds over every run iff no answer of the endpoint carries the worker's own error code |
| OAuth.RefreshToken | app/services.py:215-262 | at most max(1, max_retries) posts; no post follows a grant or a reply that names one of the six permanent errors; the posts stop early only there or at an unreadable answer; pauses are at most 30 s; the result is the last post's, never the trailing one |
| OAuth.PermanentIsFatal | app/services.py:249-252 | a refused reply is permanent iff its error is, or its description contains, one of the six codes, written out |
| OAuth.PausesAre | app/services.py:253-258 | without a Retry-After the pauses are 1, 2, 4, 8, 8, …; with one they follow it up to thirty |
| OAuth.OutcomeProducible | app/services.py:298-328 | what results one account can have, and exactly when one impersonates a mailbox failure |
| OAuth.RotatesOnlyIfGranted | app/worker.py:310-317 | a token changes only if the request was granted, to the returned token or else the old one, never to an empty one, whatever the mailbox check says |
| OAuth.StatusOfAnswer | app/worker.py:320-338 | status, next refresh and error flag as a function of the last answer and the mailbox check: a granted token, else a fatal code (invalid token, no next refresh), else another try a day later, the impersonated mailbox failure apart |
| OAuth.ErrorOfAnswer | app/worker.py:320-338 | without a token the account keeps the endpoint's own code, or network_error or internal_error, cut to 80 characters |
| Rotation.CommitRotates | app/worker.py:300-317 | over every run, a batch commit rotates exactly the granted tokens and never writes a stale token over a newer one |
| SchedulerRuns.ScheduledOnTime | app/worker.py:126-166 | wherever any run adds a scheduled job, the day's time had come, no due-refresh job was live, and exactly one date was booked for it |
| SchedulerRuns.OneScheduledLive | app/worker.py:149-164 | in every reachable state at most one of the scheduler's jobs is queued or running |
| SchedulerRuns.NeverTwiceIffNoSlip | app/worker.py:144-166 | over every run no local date gets two scheduled jobs, iff the observed date never goes back |
| SchedulerRuns.ServedTwice | app/worker.py:144-166 | a concrete run, with ticks on days 1, 2 and 1, that serves day 1 twice |
| LoginLimiter.PrunedCount | app/auth.py:40-46 | a pruned deque has as many entries as the full history has grants in the window |
| LoginLimiter.CountIs | app/auth.py:40-46 | what is counted is the set of grants not before the last 900 seconds |
| LoginLimiter.DropOld | app/auth.py:40-46 | pruning leaves exactly the grants in the window |
| LoginLimiter.Limiter.Reserve | app/auth.py:49-67 | grants iff fewer than eight grants of the whole history lie in the last 900 seconds; forgets at most one other client, only when 4096 are tracked with recent grants, and then the one tracked longest |
| LoginLimiter.Limiter.Allowed | app/auth.py:70-73 | answers the same question without granting |
| LoginLimiter.Limiter.Clear | app/auth.py:80-82 | clearing forgets one client and no other |
| LoginLimiter.NineGrantsSpan | app/auth.py:49-67 | any nine grants in a row to a client span more than 900 seconds |
| LoginLimiter.TrackedBounds | app/auth.py:53-66 | at most 4096 clients are tracked, each with one to eight grants in order |
| Vault.SealOpensOnlyThere | app/crypto.py:32-46 | a sealed value opens under its own context, and under no other |
| Vault.SealedFormat | app/crypto.py:25-36 | sealing fails iff the context is empty or over 256 bytes, and otherwise yields the prefix, the nonce, and what decrypts under the tagged context to the compressed text |
| Vault.UpgradeKeeps | app/crypto.py:48-54 | upgrading succeeds iff there is nothing to do or the value opens, keeps the plaintext and yields the new format |
| Vault.LegacyOpens | app/crypto.py:43-46 | a legacy value is recognised iff its nonce does not begin like the new format, and then opens |
| Vault.ContextInjective | app/crypto.py:80-84 | different accounts or fields have different contexts, all of them acceptable |
| Vault.NotTransferable | app/crypto.py:80-84 | a ciphertext moved to another account or field does not open there |
| Migration.ConvertPage | app/database.py:37-72 | a page is converted as a whole, each of the three columns keeping its plaintext under its own context, or not at all if a column cannot be opened |
| Migration.AccountTable.Migrate | app/database.py:37-72 | any batch size, dying anywhere: every column keeps its plaintext; a finished run leaves email, client id and token of every row in the new format and returns how many were not; an undisturbed one raises iff one of these cannot be opened |
| Migration.AccountTable.MigrateWithRestarts | app/database.py:31-37 | after any number of deaths the last run returns exactly the number of old columns left and leaves none, or raises iff the original table held one that cannot be opened; one more run returns 0 |
| PageWalk.PageIs | app/main.py:205-231 | a page holds min(limit, matching ids above its cursor) ids, all matching ids between its cursor and its next cursor, which exists iff more ids match |
| PageWalk.WalkIsComplete | app/main.py:205-231 | under any changes between requests no id is shown twice and none that matches throughout is skipped; the walk stops |
| PageWalk.StaticWalk | app/main.py:205-231 | on a table at rest the walk is the ascending enumeration of the matching ids |
| Service.ApplyResults | app/worker.py:304-339 | the loop over a batch's accounts applies each result once and counts successes and failures |
| Service.FirstByPriority | app/worker.py:171-177 | no queued job has a higher priority than the picked one, and none of the same priority is older; none is picked iff none is queued |
| Service.Processes.ClaimJob | app/worker.py:169-192 | claims a queued job such that none queued has a higher priority, and none of the same priority is older, as the machine's step; or none if nothing is queued |
| Service.Processes.WorkOnce | app/worker.py:414-435 | one pass over the queue: claim, exactly the batch the job is due, and the removal of an ended import's file |
| Service.Processes.MaintenanceTick | app/worker.py:87-123 | exactly the jobs that ended before the retention time go, and exactly the listed files over an hour old that no queued or running import needs, as a run of machine steps |
| Service.Processes.StartUp | app/worker.py:387-392 | before its loop the worker queues every running job again, changes no other row and loses none that is live |
| Service.Processes.LoopPass | app/worker.py:401-435 | a turn of the loop, with whichever timers are due, is a run of machine steps after which the invariants hold for the next turn |
| Service.Processes.ReadBatchOf | app/worker.py:195-236 | the read half of an import batch |
| Service.Processes.CommitImportBatch | app/worker.py:238-253 | the commit half: the machine's step, or nothing at all if the statement is refused |
| Service.Processes.ProcessImport | app/worker.py:195-256 | a whole import batch: read and commit, or the job failed, exactly if its file is missing or the database refuses the batch |
| Service.Processes.CommitAccountBatch | app/worker.py:274-354 | the commit step of an account batch |
| Service.Processes.ProcessAccountJob | app/worker.py:274-354 | a whole account batch: it loads exactly the next accounts of the job's scope and commits every loaded account's own result |
| Service.Processes.ImportAccounts | app/main.py:300-373 | the upload from first byte to queue row, as machine steps: which refusal or success it reports, that the queued total is the number of lines written, and that a refused upload leaves nothing |
| Service.OutcomeUnique | app/main.py:312-346 | the reported outcome is determined by the text and the chunk sizes |
| Service.AcceptedIff | app/main.py:312-346 | an upload is accepted iff something is there, the text is at most 10 MiB, there is disk space, and a file leaves the size within both the upload limit and the disk budget |
| Service.RefusedAs | app/main.py:312-346 | it is too large if the chunk that breaks a limit exceeds the upload limit, short of space if only the disk budget, and empty if there is nothing |
| Service.Processes.SweepSpool | app/worker.py:114-123 | the sweep's loop removes exactly the old, unlisted files, one machine step each |

## Left out

- HTTP, sessions, cookies, templates, scripts, the demo, logging, audit rows and heartbeats: input and output.
- The OAuth and mailbox protocols themselves: an account's posts and its mailbox check are arbitrary outcomes.
- AES-GCM, HMAC, Argon2, zlib, JSON and UTF-8: parameters with stated laws.
- Redaction, masking, display names, configuration parsing and the request guard: they would add only easy members.
- Columns no modelled decision reads (mask, domain, health and refresh timestamps, error summary, progress display).
- Exactness.CoversExactlyOnce: not stated for scope "due", whose membership is re-evaluated for every batch; the code does not promise coverage there. At most one result per account is proved for it too (Coverage.CountersConserved).
- ImportRefinement.ImportRefinesOnePass: other writers of accounts are excluded while the import runs; the refresh time of a line is known only to be one allowed interval after some moment of the run, since it depends on when its batch is committed.
- The refresh interval is read at the commit; the code reads it just before reading the file or after loading the accounts, so a change of the setting in between counts one batch earlier here.
- LoginLimiter.Limiter.Reserve: assumes that times are booked in order. The lock makes each call atomic, but app/auth.py:51 reads the clock before it takes the lock, so calls from several threads may book times out of order even under a clock that does not go back.
- Service.Processes.ImportAccounts: runs without interleaving; the checks of the other form fields and the paste endpoint's own limits are not modelled, and the free disk space is a parameter.
- Migration.AccountTable.Migrate: no other process writes accounts meanwhile; a death inside a batch equals a death before it, since the batch is one session.
- Batch sizes and the line limit are fixed for a run; the code reads them afresh whenever a process starts (app/config.py:57-59), so a restart with other settings in the middle of an import or job is not modelled.
- A cancel request that reads a live row just before the row becomes terminal would still set the flag on it; the model treats the request as one step.
- An I/O error while reading a spool file is a failed job; a file that shrinks while being read is not modelled.
- White space in addresses is tested by the same predicate as trimming; their small differences for control characters are not modelled.
- The order in which results are gathered, the concurrency limit and connection pools: every account's result is computed on its own.
