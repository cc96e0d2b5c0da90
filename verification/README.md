# Verified model of the CubeTimer sync server

The server keeps one user's cube sessions and solves in step across devices. A device sends
mutations that carry the version they were made against; the server applies each as a
compare-and-swap, appends the resulting row to a change log, and answers with a page of the log.
A new device first streams the tables page by page under a fixed watermark while writers keep
going, then follows the log. A background job deletes the part of the log that every active device
has acknowledged. Beside this the server rotates refresh tokens in families, computes trimmed
averages of solves and aggregates request metrics.

The project models these four parts in Dafny and proves what they promise over all inputs and all
runs. `dafny verify dfyconfig.toml` checks everything.

## How the modules fit together

- `Records`, `Mutations`, `History`: rows, changes and mutations; the verdict on one mutation; the
  full history of a user's changes and what compare-and-swap makes of it.
- `Paging`, `Snapshots`, `Devices`: one page of the log, one page of a table, device rows with
  their acknowledged cursors and the expiry check.
- `Transactions`: the fine-grained layer. Statements of many transactions of many users interleave;
  ids come from one global sequence with gaps; transactions abort; each holds its user's advisory
  lock to the end, and lock keys may collide; reads and retention run in between. It shows that, user by user, every schedule is a run
  of the atomic layer below.
- `Replication`: the atomic layer, a state machine with steps for commits, device rows,
  acknowledgements, the two statements of a retention pass (reading the minimum cursor and deleting
  below it, with anything in between), snapshot pages and pulls. `Replica` is the device's side.
- `SnapshotWalks`: a whole snapshot, request by request, over tables that stand still.
- `Convergence`, `Expiry`, `References`, `PageBoundaries`: theorems over whole runs of that machine.
  `SmallRuns` and `FuzzyRuns` build the runs that show where they stop.
- `ForeignKeys`: which requests meet a missing session.
- `Ordering`, `Batches`, `SyncService`, `Retention`, `Requests`: the service itself. `UserStore` and
  `RetentionService` change their fields as the code changes its tables; their methods are specified
  by functions on the stored data, and `Requests` shows that a served request is a run of the
  state machine.
- `Tokens`: refresh-token families and one-time tokens, after section 4.14.2 of RFC 9700.
- `Averages`: the trimmed average (for five solves, regulations 9f8 and 9f9 of the World Cube
  Association).
- `Metrics`: channel, buffer and hourly table.

## Where the code and its documents differ

The model follows the code.

- `docs/sync-protocol.md:90` says that a cursor older than the oldest retained change is answered
  with `cursor_expired`. The code compares the cursor with the least acknowledgement of the devices
  active at that moment and skips the check when that is 0, so a pruned cursor can pass.
  `Expiry.StaleCursorCanPass` gives a whole run that ends this way, and
  `Expiry.CheckIsSoundExactlyWhen` states exactly when no cursor can slip through.
- `docs/sync-protocol.md:125` says that more than one DNF makes an average a DNF. The code allows as
  many as it trims at the slow end. `Averages.DocumentedRuleExactlyUpTo20` proves that the two rules
  agree for a window exactly when it has at most 20 solves: for 5 and 12, but not for 50 and 100.
- `internal/sync/service.go:458-460` wants a missing session to reject one mutation, but the database
  aborts the transaction on the failed statement. The model leaves open which of the two happens and
  proves everything for both. `ForeignKeys.LoneSolveAborts` is a request that is lost whole;
  `ForeignKeys.RequestAbortsExactlyWhen` states exactly when, and
  `ForeignKeys.SessionsMayStandAnywhere` proves the rule of `docs/sync-protocol.md:29` for everything else.
- A device stopped at a page boundary does not always hold a consistent state: a solve page read late
  can be ahead of its session. `PageBoundaries.CaughtUpIsPastState` says from where on it does, and
  `FuzzyRuns.ReferencesHoldExactlyFrom` that no earlier boundary will do.

## Model

| member | source | states |
|---|---|---|
| Convergence.Converges | internal/sync/snapshot.go:42-187 | Over every run: a device that bootstraps by snapshot (or starts at 0 before anything was pruned) and was inside the window each time retention read its floor holds exactly the server's rows whenever a pull reports no more, whatever was written and pruned in between; from protocol 2 on, up to tombstone contents |
| Convergence.PullsAreGapFree | internal/sync/service.go:178-209 | At every moment of such a run, also between a retention pass's read and its delete, log and history list the same changes after the device's own cursor, and after any cursor at or above its acknowledgement and the watermark it started from |
| Convergence.SnapshotIsRepaired | internal/sync/snapshot.go:67-77 | Over every run, whatever was written between its snapshot pages, a device that has read them all reaches the current tables both by applying every change after its cursor and by applying only the newer ones |
| Convergence.RetentionSafety | internal/sync/retention.go:214-236 | A floor read while a device was active never exceeds that device's acknowledgement, then or at any later time, so deleting below it removes no change at or above the acknowledgement |
| Convergence.AcksGrow | db/queries/sync.sql:100-103 | Over every run acknowledgements only grow and device rows never disappear |
| Convergence.WatermarkSafety | db/queries/sync.sql:96-112 | In every reachable state the newest change ever committed is still in the log, the log is exactly the history at or above the highest floor applied, and a watermark is above every pruned id |
| Convergence.LogRefinesTables | internal/sync/service.go:549-571 | Replaying the retained log over the tables as of any retained cursor gives the current tables |
| Convergence.NoMutationTakesEffectTwice | internal/sync/service.go:326-333 | Over every run, dedup records pruned or not, no two effective mutations are equal and no two on one entity share a base version |
| Convergence.StaysTracked | internal/sync/service.go:144-153 | Between bootstrap and any later point no floor retention has read passes the device's cursor, and every collected row that no later change touches is already right |
| Convergence.PullIsSlice | internal/sync/service.go:187-200 | What a covered device pulls is the slice of the full history between its old and new cursor, and no more to come means the end of the history |
| Convergence.GapFree | db/queries/sync.sql:90-94 | From any cursor at or above the floor, log and history list the same changes |
| Replication.InvHolds | internal/sync/service.go:46-156 | Every world of every run: the tables are the replay of a legal history, the log is its suffix from the floor, no floor passes the newest change, an acknowledgement is at most the cursor its device holds |
| Replication.KeptIsFilter | db/queries/sync.sql:110-112 | Pruning keeps exactly the changes at or above the floor, the newest among them |
| Replication.NewestIsRetained | db/queries/sync.sql:96-98 | The greatest id in the retained log is the greatest id ever committed |
| Replica.FaithfulCollect | db/queries/snapshot.sql:1-13 | Reading one more keyset page keeps the replica invariant, whatever was written since the previous page |
| Replica.FaithfulAppend | internal/sync/snapshot.go:89-187 | Any legal writes landing between pages keep the replica invariant |
| Replica.FaithfulPage | internal/sync/service.go:213-240 | Applying a run of the log by either policy, with full or stub payloads, moves the replica invariant to the end of that run |
| Replica.FaithfulAtEnd | docs/sync-protocol.md:118-118 | A device with nothing left to apply holds exactly the tables |
| PageBoundaries.CaughtUpIsPastState | docs/sync-protocol.md:82-84 | Over every run, for a device that bootstrapped by snapshot or started at 0: once its cursor is at or above the newest id in the log at its last snapshot page, in particular from the first pull on that reports no more, it holds exactly the tables as of its cursor at every page boundary, and every solve in it has its session |
| PageBoundaries.CopyIsPastState | internal/sync/snapshot.go:89-187 | The same by position: as soon as it has reached the change its last snapshot page was read at, the copy is a past state of the server |
| PageBoundaries.PageBoundaryKeepsReferences | db/migrations/00001_initial.sql:79-92 | From one change before that on, every solve it knows in full has its session |
| FuzzyRuns.CopyIsPastStateExactlyFrom | internal/sync/snapshot.go:140-187 | For all n and q: some run has a device that read its last page at change n, stands at change q and holds no past state, if and only if q < n |
| FuzzyRuns.ReferencesHoldExactlyFrom | internal/sync/snapshot.go:140-187 | For all n and q: some run has such a device with a solve whose session it does not know, if and only if q + 1 < n |
| FuzzyRuns.AheadRun | internal/sync/snapshot.go:140-187 | For every such n and q, both protocols and both policies, the run itself: a session and its solve are created between the session page and the solve page |
| References.SettledKeepsReferences | internal/sync/service.go:213-240 | A device whose rows come from the first n changes and that knows every key up to its cursor knows the sessions of its solves one change before n |
| Expiry.CheckIsSoundExactlyWhen | internal/sync/service.go:160-176 | No positive cursor that misses a change passes the check if and only if no pruned change lies above the least positive cursor the check lets through |
| Expiry.NothingSlipsThrough | internal/sync/service.go:160-176 | While the active minimum is at or above every applied floor, a positive cursor that passes misses nothing |
| Expiry.StaleCursorCanPass | internal/sync/service.go:161-172 | A reachable state, built as a run from the empty one, in which a device's own cursor passes the check although its next change is pruned |
| Devices.ActiveDeviceNotExpired | internal/sync/service.go:172-174 | An active device whose cursor is at or above its own acknowledgement is never told cursor_expired |
| Devices.MinValidCursor | db/queries/sync.sql:105-108 | The result is at most every active acknowledgement and is attained by one of them, or is 0 when no device is active |
| Devices.SeenIsActive | db/queries/sync.sql:4-10 | A device just seen is active for exactly the cutoffs before that moment, keeps its acknowledgement, and leaves other devices alone |
| Devices.AckIsMaximum | db/queries/sync.sql:100-103 | An acknowledgement becomes the greater of the old one and the reported cursor, and nothing else changes |
| Devices.EffectiveInactiveWindow | internal/sync/window.go:9-14 | The shared window is always positive and is the configured one if that is positive, 90 days if not |
| Transactions.CommitOrderIsIdOrder | internal/sync/service.go:84-142 | Under any interleaving with aborts, gaps and colliding lock keys: once a reader has seen a change of a user, no smaller id of that user becomes visible later |
| Transactions.ScheduleRefines | internal/sync/service.go:84-142 | Seen from one user, every schedule of transactions, page reads, device rows and the two retention statements of all users is a run of the atomic protocol that ends in what is committed for that user |
| Transactions.CommittedInv | db/queries/sync.sql:84-112 | So the invariant of the protocol holds of what is committed for every user at every moment of every schedule |
| Transactions.ReadThenCommitIsOnePoint | internal/sync/service.go:125-142 | The page a mutation request reads inside its open transaction answers a pull at the moment of its commit, whatever retention, devices and other users did in between, unless retention went beyond its cursor |
| Transactions.StatementRefines | internal/sync/service.go:92-94 | Every statement is one step of the protocol for the user it concerns, or changes nothing that is committed for a user |
| Transactions.ScheduleKeeps | db/migrations/00001_initial.sql:106-116 | In every schedule each user's committed tables replay a legal history, and what an open transaction holds would extend it legally |
| Transactions.HistoryOnlyGrows | db/queries/sync.sql:84-88 | A user's committed history is only ever extended at its end |
| Transactions.CommitRefines | internal/sync/service.go:140-142 | A commit is one enabled commit step for its user and invisible to all others |
| Transactions.LockIsNeeded | internal/sync/service.go:639-646 | Without the lock an interleaving from the empty system lets two transactions of one user take their ids in one order and commit in the other, so that a reader sees the smaller id later |
| History.NoLostUpdates | internal/sync/service.go:359-375 | Along any legal history the effective mutations of an entity carry strictly growing base versions |
| History.HistoryIsGapless | internal/sync/service.go:438-456 | Versions of an entity run 1, 2, 3, ... without a gap, tombstones are exactly the deletes, and no change refers to a session created later |
| History.PrefixKeepsReferences | db/migrations/00001_initial.sql:79-92 | After every prefix each solve's session is present and each row's version is the number of its changes |
| History.PastRow | db/queries/sync.sql:32-50 | A row the history once held is the current row or strictly older by version |
| History.LastTouchWins | internal/sync/service.go:549-571 | The last change of an entity decides its row |
| Mutations.WriteIsCompareAndSwap | internal/sync/service.go:313-467 | A write happens only on the version the client edited, moves it up by one, keeps the session reference, stores the client's data or keeps the row's, and is a tombstone exactly for a delete of a live row |
| Mutations.VersionDecides | internal/sync/service.go:326-333 | Of the well-formed mutations exactly those against another version of an existing row conflict, showing that row, from protocol 2 on only its id, version and time; those against its own version take effect, fail on a missing session, or repeat a delete; an absent row accepts only an insert at base 0 |
| Mutations.RejectionsDecide | internal/sync/service.go:469-487 | Each rejection is given exactly when it is the first that applies, under the mutation's own id |
| Mutations.DataIsValidExactlyWhen | internal/sync/service.go:511-519 | Data is valid exactly if it is of its entity, carries its id, passes the field rules, and a solve lasts between nothing and a day |
| History.StoredRowsAreValid | internal/sync/service.go:515-515 | After any legal history rows stand in the table of their kind and no stored solve lasts longer than a day |
| Paging.ReadPage | internal/sync/service.go:187-200 | A page is a non-empty run of the later changes if there are any, shown field by field, reports more exactly when something remains, points at its last change, and is as long as the count and byte limits allow |
| Paging.ApplyByteLimit | internal/sync/service.go:245-260 | The kept run is the longest within the byte budget, but at least one change; the cursor is that of the last kept change |
| Paging.BuildChanges | internal/sync/service.go:213-240 | Every log row is shown in order with its id as cursor, its entity, operation and version, and its whole payload, or for a delete from protocol 2 on its id, version and deletion time; the cursor is that of the last row |
| Paging.PageShows | internal/sync/service.go:233-237 | The same, field by field, of every page that answers a pull, and its cursor is the one shown with its last change |
| Paging.BytesAddUp | internal/sync/service.go:249-249 | The size a page is cut by is the payloads plus 200 bytes a change |
| Paging.WalkDeliversAll | internal/sync/service.go:70-73 | For any limits, repeated pulls deliver exactly the later changes in order, each once, in at most one page per change |
| Paging.PageAdvances | docs/sync-protocol.md:82-86 | A page with more to come strictly advances the cursor and strictly shortens what remains |
| Paging.PageIsSlice | internal/sync/service.go:125-138 | A page is a slice of the log and its cursor stands just behind that slice |
| Snapshots.ReadSnapshotPage | internal/sync/snapshot.go:89-138 | A page is a gapless run of rows in id order after the key, empty only at the end, reports more exactly when rows remain, and is as long as the page size and byte budget allow |
| Snapshots.KeysetQuery | db/queries/snapshot.sql:1-13 | The ordered, limited read returns the rows just after the key, skipping none, and is short only when nothing remains |
| Snapshots.TrimByBytes | internal/sync/snapshot.go:193-233 | The longest run within the byte budget, but at least one row; trimmed exactly when something was cut |
| Snapshots.RunCovers | internal/sync/snapshot.go:140-187 | A keyset run holds exactly the rows between its start and its last id, as the table has them |
| Ordering.OrderedSorted | internal/sync/service.go:102-110 | The batch is ordered by entity rank and then entity id |
| Ordering.SortedMeans | internal/sync/service.go:628-637 | In that order sessions stand before solves, solves before anything else, and ids do not fall within a kind |
| Ordering.OrderedKeeps | internal/sync/service.go:103-103 | Ordering permutes the batch |
| Ordering.OrderedIsStable | internal/sync/service.go:104-110 | Mutations of one entity keep their order in the request |
| Ordering.OrderIsUnique | internal/sync/service.go:104-110 | A sorted batch is determined by each entity's own mutations |
| Batches.BatchOrderIsCanonical | internal/sync/service.go:102-123 | Two batches that agree on each session's and each solve's own mutations leave the same tables, log and per-mutation outcomes, wherever those stand in the request |
| Batches.RetryIsIdempotent | internal/sync/service.go:269-283 | Resubmitting a batch in any order at any later time while its records are retained returns the first outcomes and changes nothing |
| Batches.BatchRecords | internal/sync/service.go:299-311 | Every mutation of a batch ends with a stored outcome under its own id, the one returned, and stored outcomes keep carrying their own ids |
| Batches.NewRecords | db/queries/sync.sql:16-19 | A new record is of a mutation of the batch and of its device, and carries the time of the batch |
| Batches.RecordedBatchIsInert | internal/sync/service.go:269-279 | A batch whose mutations are all on record leaves the database as it is and answers from the records |
| Batches.MutationEffect | internal/sync/service.go:262-311 | A mutation either changes neither tables nor log, as every conflict, rejection and repeated delete does, or stores one row and logs exactly that row |
| Batches.BatchExtends | internal/sync/service.go:112-118 | A committed batch extends the history legally by exactly the changes it logged |
| Batches.UnknownTail | internal/sync/service.go:292-294 | Mutations of unknown entities change neither tables nor log nor any other outcome |
| ForeignKeys.SessionsMayStandAnywhere | docs/sync-protocol.md:29-29 | A request goes through, on either behaviour of the database, if every valid new solve refers to a session that exists or is created by the same request, wherever it stands; no solve is then rejected for its session |
| ForeignKeys.RequestAbortsExactlyWhen | internal/sync/service.go:458-460 | Where no solve is mutated twice, a request is rolled back if and only if the database aborts on foreign keys and the request holds a valid new solve, at the version the row has, whose session neither exists nor is created in the request |
| ForeignKeys.SolveRejectedExactlyWhen | internal/sync/service.go:458-460 | Where the request goes through, a new solve is rejected for its session if and only if it is such a solve |
| ForeignKeys.AbortsExactlyWhen | internal/sync/service.go:438-460 | For any sorted batch: rolled back if and only if the database aborts on foreign keys and some mutation, at the version its row has in its turn, lacks its session |
| ForeignKeys.LoneSolveAborts | internal/sync/service.go:458-460 | A request with one such solve is rolled back whole, with an unrelated new session in it |
| ForeignKeys.SessionBehindSolve | internal/sync/service.go:628-637 | A solve listed before its session goes through; applied in the order of the list the request would be rolled back |
| SyncService.UserStore.Sync | internal/sync/service.go:46-156 | An error changes nothing but the id sequence, and each kind is answered exactly when it applies: a malformed request, an expired cursor, an abort, which where no solve is mutated twice means a current solve without its session; otherwise the mutations were applied in canonical order, outcomes match the request position by position, the page continues the log, and the cursor is acknowledged |
| SyncService.UserStore.ApplyTransaction | internal/sync/service.go:84-118 | The whole ordered batch is applied with an outcome for every mutation, or all but the id sequence is as before; the first always when no solve lacks its session |
| SyncService.UserStore.ApplyBatch | internal/sync/service.go:112-118 | Applying mutations one by one on the stored rows gives the specified database and outcomes, or a rollback |
| SyncService.UserStore.ApplyOne | internal/sync/service.go:262-311 | One mutation on the stored rows: answer from the record, or apply and record |
| SyncService.UserStore.ApplyEntity | internal/sync/service.go:313-467 | The branch-by-branch statements on a row do what the verdict on the mutation says, log the row, and leave devices and records alone |
| SyncService.UserStore.DeleteRow | db/queries/sync.sql:46-50 | The guarded update tombstones the row exactly when it has the base version and is live |
| SyncService.UserStore.PutRow | db/queries/sync.sql:26-44 | An absent row is inserted at version 1 and a present one moves up by one exactly when it has the base version, in both cases only if the session exists |
| SyncService.UserStore.AppendChange | db/queries/sync.sql:84-88 | The whole row is appended under a greater id of the sequence |
| SyncService.UserStore.CheckCursorNotExpired | internal/sync/service.go:160-176 | Expired exactly when the cursor is positive and below a positive minimum of the active devices |
| SyncService.UserStore.PullOnly | internal/sync/service.go:178-209 | Only the device row changes, and the page answers the cursor |
| SyncService.UserStore.ValidateRequest | internal/sync/service.go:47-68 | A request is refused exactly when a field is out of range or a mutation id is zero or repeated, with the error that names the fault |
| SyncService.UserStore.UpsertDevice | db/queries/sync.sql:4-10 | A known device keeps its acknowledgement, a new one starts at 0 |
| SyncService.UserStore.AckRequest | internal/sync/service.go:148-153 | The acknowledgement is raised to the request's cursor, never lowered |
| SyncService.UserStore.Snapshot | internal/sync/snapshot.go:42-87 | An error changes nothing; otherwise the device is touched, the first session page reads the newest id as watermark, later pages echo theirs, the page is a full keyset page, and it continues after its last row while there is more, then with the solves, then nowhere |
| SnapshotWalks.SnapshotReadsAll | internal/sync/snapshot.go:31-41 | On tables that stand still, requests that echo every continuation take at most one page per row and two more, read rows in order and none twice, each as stored, and when no continuation is named have read every session and every solve |
| SnapshotWalks.PageMovesOn | internal/sync/snapshot.go:120-137 | A page with more to come ends past where it started, and the next request continues after exactly that row in the same table |
| SnapshotWalks.WalkEnds | internal/sync/snapshot.go:171-186 | Every page costs one of a number of pages that only depends on the rows still to come, so no sequence of echoing requests goes on for ever |
| SyncService.CheckMutationIds | internal/sync/service.go:59-68 | No error exactly when all ids are non-zero and distinct, and the error says which fails |
| SyncService.SyncIsCommit | internal/sync/service.go:102-142 | An applied batch is an enabled commit step of the protocol with the same tables and log |
| Requests.SyncIsRun | internal/sync/service.go:46-156 | A served request takes the protocol through its seen, commit, pull and acknowledge steps and ends in the same tables, log and device rows |
| Requests.SnapshotIsRun | internal/sync/snapshot.go:42-87 | A snapshot request takes the protocol through its seen, bootstrap (for the first page) and collect steps, with the newest id as watermark and the continuation of the answer |
| Retention.RetentionService.RunOnce | internal/sync/retention.go:200-246 | Every user is pruned by the minimum of its own active devices: of its data exactly the changes below the minimum and the dedup records older than the window go, and tables, devices and sequence stay; users without changes or without a positive minimum are untouched |
| Retention.RetentionService.PruneUser | internal/sync/retention.go:214-244 | The same of one user, against the log as its ids order it |
| Retention.PassRetainsRecent | db/queries/sync.sql:114-116 | A pass keeps the dedup records younger than the window, so those retries stay idempotent |
| Retention.PassIsPlanThenPrune | internal/sync/retention.go:214-236 | A pass over a user is the protocol's plan step followed by its prune step: tables, log, devices and history agree afterwards |
| Retention.PrunedIsKept | db/queries/sync.sql:110-112 | What a pass leaves of the log is exactly the changes at or above the minimum, in order |
| Retention.BatchOutlivesPass | db/queries/sync.sql:114-116 | After a pass whose cutoff is not after the moment a batch was applied, sending the batch again returns the first outcomes and changes nothing |
| Tokens.DeadFamiliesStayDead | internal/auth/service.go:207-215 | Over every run, once a token is refused as reused no token of its family ever yields a session again |
| Tokens.OneUserPerFamily | internal/auth/service.go:605-629 | In every reachable state all tokens of a family belong to one user |
| Tokens.NewTokenHasParent | internal/auth/service.go:191-235 | A token appearing in an existing family was issued by presenting an unrevoked, unexpired token of that family, unused or within the grace |
| Tokens.RefreshDecides | internal/auth/service.go:176-235 | Exactly a token that is unrevoked, unexpired and unused or within the grace yields a session, one new token in its family for its user, and no old token changes but the presented one by its first use; other used or revoked tokens are reported as reused and exactly the unrevoked ones of the family revoked; an invalid one changes nothing |
| Tokens.RetryWithinGraceSucceeds | internal/auth/service.go:191-206 | Over every run a token that once yielded a session yields one again, up to 30 seconds after its first use and before it expires, unless reuse, logout, reset, password change or claim revoked it in between |
| Tokens.RevokedExactlyWhen | internal/auth/service.go:207-215 | A token becomes revoked by exactly those five |
| Tokens.SignInIssues | internal/auth/service.go:589-603 | Signing in adds one unused, unrevoked token of the configured lifetime and changes nothing else |
| Tokens.RevocationsReach | db/queries/auth.sql:60-70 | Logging out revokes exactly the presented token, a password change exactly those of its user |
| Tokens.RequestsCreate | internal/auth/service.go:259-267 | A request uses up exactly the user's earlier tokens of the kind and creates one that lives 24 hours to verify an address and 1 hour to reset a password |
| Tokens.NewUserStarts | internal/auth/service.go:60-108 | A registered user is unverified and has a verification token; a provisioned one is verified at once |
| Tokens.ConsumeDecides | internal/auth/service.go:553-586 | Exactly an unused, unexpired token of the right kind yields a session: it is used up, its user verified and signed in, and a reset revokes exactly that user's other tokens; anything else changes nothing |
| Tokens.ClaimDecides | internal/auth/service.go:359-419 | Exactly an unverified account without a linked identity is claimed: all its tokens are discarded, it is verified and signed in, and nothing of other users changes |
| Tokens.GraceDoesNotSlide | internal/auth/service.go:191-206 | Over every run all successes of one token lie within 30 seconds, however often it is retried |
| Tokens.RowLater | db/queries/auth.sql:57-70 | Over every run a token row keeps family, user and expiry, and its use and revocation times never change once set |
| Tokens.AtMostOneUnused | internal/auth/service.go:241-274 | In every reachable state at most one one-time token per user and kind is unused |
| Tokens.TwoRequestsAtOnce | db/queries/auth.sql:72-86 | Two token requests whose statements interleave leave two unused tokens, so the property rests on requests running one by one |
| Tokens.OneTimeMeansOnce | internal/auth/service.go:562-570 | Over every run a one-time token yields at most one session |
| Tokens.ResetLeavesOneSurvivor | internal/auth/service.go:276-295 | Right after a password reset the user's only unrevoked refresh token is the one just issued |
| Tokens.ClaimDiscardsEverything | internal/auth/service.go:384-396 | Right after a claim the user has one unrevoked refresh token and no unused one-time token |
| Tokens.AuthService.Refresh | internal/auth/service.go:176-235 | The update of the stored rows and the reply are those of the refresh step the run theorems speak about |
| Tokens.AuthService.ConsumeOneTimeToken | internal/auth/service.go:539-587 | The updates of users, refresh and one-time rows are those of the consume step |
| Tokens.AuthService.RevokeWhere | db/queries/auth.sql:64-70 | Every unrevoked row of the family or user is revoked now, all others stay |
| Tokens.AuthService.InvalidateOneTimeTokens | db/queries/auth.sql:84-86 | Every unused row of the user and kind is used up, all others stay |
| Tokens.AuthService.ResendVerification | internal/auth/service.go:110-145 | The verification token of an unverified user is replaced; nothing changes for anyone else |
| Tokens.AuthService.ForgotPassword | internal/auth/service.go:241-274 | The reset token of a known user is replaced |
| Tokens.AuthService.ClaimUnverifiedAccount | internal/auth/service.go:359-419 | Only an unverified account without a linked identity is claimed, and then revoked, invalidated, verified and signed in |
| Tokens.AuthService.Logout | internal/auth/service.go:237-239 | Exactly the presented token is revoked |
| Averages.ComputeAverage | internal/sync/retention.go:114-132 | The four cases by n and length; otherwise the 64-bit sum of the order statistics left after trimming, divided with rounding |
| Averages.DnfExactlyWhen | internal/sync/retention.go:120-124 | The average is DNF exactly when more than ceil(n/20) of the n times are DNF |
| Averages.MeanIsNearest | internal/sync/retention.go:125-131 | Otherwise it is the mean of the kept times rounded to nearest and lies within their range |
| Averages.OrderDoesNotMatter | internal/sync/retention.go:118-119 | The average depends only on the multiset of times |
| Averages.NeverFalls | internal/sync/retention.go:114-132 | Raising times, or turning them into DNF, never lowers the average |
| Averages.NoOverflow | internal/sync/service.go:515-515 | For up to 100 validated times the 64-bit sum does not wrap, so the computed mean is the mathematical one |
| Averages.SortedRank | internal/sync/retention.go:119-121 | The i-th sorted time is at most x exactly when more than i times are |
| Averages.KeptAreMiddle | internal/sync/retention.go:120-121 | The times kept are the middle of the order: as many are dropped as too fast as are dropped as too slow |
| Averages.Trim | internal/sync/retention.go:120-120 | At each end a twentieth is dropped, rounded up |
| Averages.StoredDurationsCount | db/queries/stats.sql:26-30 | Stored durations, with two seconds for a penalty, give times within the bound of the sum, and only an unfinished solve gives a DNF |
| Averages.DocumentedRuleExactlyUpTo20 | docs/sync-protocol.md:125-125 | "More than one DNF" describes the code for all windows of n solves if and only if n is at most 20 |
| Metrics.MetricsService.FlushLoop | internal/admin/service.go:154-204 | For every interleaving and batch split, the channel takes what is offered in order, less what finds it full; accepted events are flushed, buffered or queued in order, each once; the table tallies the flushed ones; and what is left after the drain is some of the requests that arrived during or after it |
| Metrics.MetricsService.Drain | internal/admin/service.go:190-201 | After the stop signal the channel is emptied and flushed; only some of the late arrivals can remain |
| Metrics.MetricsService.Flush | internal/admin/service.go:225-262 | The buffer moves into the table, which again equals the event-by-event tallies |
| Metrics.MetricsService.ReceiveOne | internal/admin/service.go:174-179 | One event moves from the channel to the buffer, which is flushed exactly when it is full |
| Metrics.MetricsService.RecordRequestAsync | internal/admin/service.go:286-301 | The event is accepted exactly when the route counts, the service runs and the channel has room |
| Metrics.MetricsService.RunCleanup | internal/admin/service.go:206-216 | Cleanup deletes exactly the rows before its horizon and leaves the others as they were |
| Metrics.Aggregate | internal/admin/service.go:229-252 | For every key the aggregated row is the count, sum and maximum of the batch's events |
| Metrics.TallyMeans | internal/admin/service.go:249-251 | A tally is the number of the events of its key, the sum of their milliseconds, and a maximum that is at least each of them and one of them |
| Metrics.DurationsAreOfKey | internal/admin/service.go:230-252 | Those milliseconds are of exactly the events of the key, as many as there are |
| Metrics.EventBelongs | internal/admin/service.go:231-241 | An event counts in the hour that contains it, under "unmatched" without a route and 200 without a status, with its milliseconds rounded down and never negative |
| Metrics.RecordAll | db/queries/admin.sql:1-10 | Accumulating rows on conflict, in any order, merges the batch into the table key by key |
| Metrics.AccumulateMeans | db/queries/admin.sql:6-10 | A conflict adds count and total, keeps the greater of the two maxima, and touches no other row |
| Metrics.TallyConcat | internal/admin/service.go:225-262 | Tallies do not depend on how events are cut into batches |
| Metrics.CountByType | internal/admin/service.go:381-384 | For every request type the fold is the sum of the counts of its routes, and exactly the types that occur are present |
| Metrics.TypeIsByPrefix | internal/admin/service.go:522-539 | The prefixes are disjoint, so each type is decided by its own whatever the order of the tests |
| Metrics.TypeTotalsCountRequests | internal/admin/service.go:369-401 | The per-type totals of a range add up to the number of flushed requests in it |

## Left out

- HTTP handlers, JSON, configuration, command line, OpenAPI, deployment: plumbing over libraries.
- Password hashing, access tokens, provider verification, mail: foreign cryptography and network; token hashes and new ids are abstract fresh values.
- Field rules of sessions and solves other than the id and the duration bound: carried as one verdict in the input.
- Columns no rule depends on: they travel together, and sessions and solves share one keyed model, one keyset read and one byte trim, because the two copies in the code are alike.
- Widths of ids and times, and 32-bit conversions: unbounded integers, except the 64-bit sum of the averages.
- Serialisation of stored rows and outcomes: taken to succeed; its size is an arbitrary function.
- Database failures other than the foreign key: a failed statement ends the request; rollback is modelled for the mutation transaction.
- Dishonest cursors: a device acknowledges only cursors it was given, as docs/sync-protocol.md:82 asks; the server does not check this.
- Tokens.AtMostOneUnused: takes each transaction as one step with one clock, because the row locks of the code do not serialise two concurrent requests for a new token.
- The device row of a mutation request: seen when the transaction commits, with the rest of it.
- Concurrency inside one token family: transactions are atomic steps for the same reason.
- Account deletion: it removes a user's whole state; users are only added during a run.
- ComputeStats and the statistics in SQL: field copying and floating point in the database.
- Metrics.MetricsService.Flush: does not model failed writes, which the code logs and drops.
- Metrics.MetricsService.RunCleanup: takes the ninety-day limit as a parameter, because the clock is the database's.
- Error-event log, trimming of spaces in routes, sorting of type totals, overview counts, range resolution: easy or computed by the database.
- History and error-log pagination: the snapshot's keyset walk without concurrent writes.
- Rate limiter and client addresses: a library and small parsing.
