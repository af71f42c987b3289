# Transcription hub: a verified model

A Dafny model of the hub's state-heavy components, with proofs of what they keep over whole runs. Each
module states one part; `dafny verify dfyconfig.toml` checks them all.

| modules | part of the hub |
|---|---|
| `TokenText`, `Fernet`, `KeyWrapping`, `Vault` | stored secrets, data keys, the key-encryption key, and all of them as one state machine |
| `Reencryption`, `Bootstrap` | the loops of the re-encryption job beside other writers, and the migration of legacy secrets |
| `Sessions`, `SessionRefinement` | browser sessions in the database and in Valkey, and the refinement of one by the other |
| `Dispatch`, `TaskMachine`, `TaskRuns`, `TaskReports`, `TaskNodes`, `TaskHub` | worker pools, the offering loop, the queue of transcriptions and summaries as a machine, its theorems, what workers' reports and requests on nodes leave, and its handlers as methods |
| `Money`, `Billing` | amounts, charges and wallets |
| `Capture`, `CaptureAudio`, `CaptureOutcome`, `CaptureRunner` | meeting captures: background threads, dispatcher ticks, recovery and requests, step by step; when an Audio row can come, how final the outcome is, and the runner's methods |
| `RateLimit`, `RateLimitRuns` | fixed-window limits in memory and in Valkey |
| `OrgAdmins`, `Transfer` | the last-administrator rule, account deletion, handing over a library |
| `LibraryList`, `ShareBadges` | the paged listing against the per-row read rule, and page badges against per-row badges |

Code that changes rows step by step is a class whose methods assign fields in the code's order and are
proved equal to a specification function; the theorems about whole runs are lemmas about those
functions. There is one server process (app/serve.py:22), and recovery takes the tick lock before it
listens (app/main.py:123, app/services/dispatcher.py:954-975), so no capture thread is alive then.
Encryption is ideal (`Fernet.Ideal`): a parameter of every theorem, with a scheme that satisfies it.
SHA-256 is taken to be injective. Identifiers made by `new_id` are fresh. Worker replies, clocks, the
moments of expiry and the order in which a query returns rows are parameters.

## Where the code departs from what one expects

- `users.totp_secret_encrypted` is in the list of encrypted columns but falls through in the usage
  count and in the batch; `org_capture_jitsi_hosts.jwt_secret_encrypted` is not in the list. A key
  rotation that completes makes such values undecryptable (`Vault.RotationLosesUnhandledColumn`,
  `Vault.DeletionLosesExactly`). The vault theorems are about the other eight columns.
- The start-up test strips HUB_SECRET_PREV, unwrapping does not (`KeyWrapping.StartupTestIsExactIff`):
  the hub may start and be unable to read (`Vault.RestartReadsIff`).
- Python's `$` lets a key id end in a newline (`TokenText.MatchesDekIdPattern`), and SQLite's LIKE
  ignores case (`TokenText.CountedIffNamed`); neither loses a value.
- A task whose source or owner is gone is charged when its worker reports success, though nothing is
  saved: exactly then and only then (`TaskReports.ChargedUnsavedIff`, `TaskReports.ChargedUnsavedHappens`).
- `payload_too_large` follows 413 answers from all candidates, but also a single refusal that carries
  that code in its body, and a worker that accepts the task and reports that code, at once or later
  (`TaskReports.PayloadTooLargeRecordedIff`).
- A task shown a waiting pool may time out without having been retried, when a request on its node has
  moved it to other models since (`TaskNodes.TimesOutAfterWaiting`, `TaskRuns.TimeoutIff`).
- A running task whose node is removed goes on running unseen until a restart, and so does one accepted
  without an id (`TaskNodes.LeftAloneIff`, `TaskNodes.StrandsIff`).
- The success of a capture can be overwritten: by a cancel or a removal of the node that checked the row
  before, by a thread that has not yet come to its end, and by a tick that acts on what it read before
  (`CaptureOutcome.SuccessStaysIff`, `CaptureOutcome.CancelAfterSuccess`,
  `CaptureOutcome.RequeuedAfterSuccess`). Removing a node while a capture runs on it can even lead to a
  second Audio row; without such a request there is never more than one (`CaptureAudio.AnotherAudioIff`,
  `CaptureOutcome.SecondAudio`, `Capture.AtMostOneAudio`).
- A running capture whose node is removed or remediated goes back to the queue without a worker, and so
  does one that recovery requeues; without a worker a tick only fails it (`CaptureOutcome.RunsAgainIff`).
- Memory counts allowed hits and Valkey all hits, so the two differ once a limit is raised to between
  their counts of a window (`RateLimitRuns.BackendsAgreeIff`, `RateLimitRuns.RaisedLimitSeparates`).
- `transfer_user` with the user as its own target deletes the incoming shares and keeps the outgoing
  ones (`Transfer.SelfTransferLosesShares`, `Transfer.NobodyNamesTheDeparted`). The branch that
  deletes an outgoing duplicate is dead (`Transfer.NoDuplicate`).

## Model

| member | source | states |
|---|---|---|
| TokenText.ParseRoundTrip | app/crypto.py:103-116 | a token written for a key id parses back to that id and the same sealed text |
| TokenText.ParseIsExact | app/crypto.py:103-109 | parsing loses nothing: a token that names a key is exactly that key's header and the sealed text; any other is returned whole |
| TokenText.ColonFreeIsLegacy | app/crypto.py:103-116 | a bare Fernet token is a legacy token and names no key |
| TokenText.LikePrefix | app/crypto.py:199-247 | the SQL pattern `prefix%`, by the semantics of LIKE, is a prefix comparison, with or without folding of case |
| TokenText.CountedIffNamed | app/crypto.py:199-247 | the usage count misses no value that names the key; on PostgreSQL it counts exactly those, on SQLite at most values whose header differs in letter case |
| Fernet.WrongKeyFails | app/crypto.py:154-168 | a token sealed under one key is refused under every other |
| Fernet.IdealSchemeExists | app/crypto.py:154-168 | the assumption of ideal encryption can be met, so the theorems that rest on it are not empty |
| KeyWrapping.StartupTestIsExactIff | app/crypto.py:67-87 | the start-up test accepts exactly the keys that unwrap if and only if HUB_SECRET_PREV carries no surrounding white space: one function strips it, the other does not |
| KeyWrapping.AcceptedUnwrapsIff | app/crypto.py:67-87 | a key that passes the start-up test unwraps if and only if it is not wrapped under the stripped previous secret while another is configured; with no white space there it always does |
| KeyWrapping.NewSecretsSameKeys | app/services/crypto_bootstrap.py:60-89 | keys usable under the old secrets that pass the start-up test under new ones which open them unwrap to the same raw keys |
| KeyWrapping.RewrapOneKeepsKey | app/crypto.py:192-194 | re-wrapping one key keeps its raw key and puts it under the current secret |
| KeyWrapping.RewrapIsCrashSafe | app/crypto.py:184-196 | after any prefix of the per-key commits every key still unwraps to the same raw key |
| KeyWrapping.FullPassRetiresPrev | app/crypto.py:184-196 | after a full pass every key unwraps to its raw key under the current secret alone |
| KeyWrapping.RewrapIsIdempotent | app/crypto.py:184-196 | a second pass, in any order, changes nothing |
| Vault.EncryptRoundTrip | app/crypto.py:154-168 | a value just encrypted names the active key and decrypts to what was encrypted |
| Vault.UsageZeroIff | app/crypto.py:266-270 | the usage count is zero exactly when no value of a handled column matches the key's pattern |
| Vault.DeletionSparesHandled | app/crypto.py:250-263 | deleting a retiring key leaves every handled value readable with the same plaintext |
| Vault.DeletionLosesExactly | app/crypto.py:250-270 | over all columns a readable value survives a deletion if and only if it does not name the deleted key; a value that is lost is in a column the count does not visit |
| Vault.BatchKeepsSound | app/services/crypto_reencrypt.py:104-183 | a batch on a sound vault never fails and changes no plaintext |
| Vault.AddDekKeepsSound | app/routers/crypto.py:62-75 | creating a key, which retires the active one and is refused beside a running job, keeps every secret readable |
| Vault.RestartKeepsSound | app/services/crypto_bootstrap.py:60-89 | a restart with rotated secrets that open the keys they are accepted for, and any part of the re-wrapping, keeps every secret readable |
| Vault.StepKeepsSound | app/services/crypto_reencrypt.py:186-303 | each step of writers, key creation, job, cancel, crash, deletion and restart keeps every handled secret readable as last written |
| Vault.RunKeepsSound | app/crypto.py:127-168 | in every interleaving of those steps each non-empty handled value names an existing key and decrypts to the last plaintext written |
| Vault.RestartReadsIff | app/crypto.py:67-87 | after any run, a restart that the start-up test lets through leaves a handled value readable if and only if its key is not wrapped under the stripped previous secret only; otherwise the hub is up and the value lost to it |
| Vault.RotationLosesUnhandledColumn | app/crypto.py:30-41 | for every value in a column that is not handled (TOTP secrets, Jitsi secrets) one rotation completes and leaves it undecryptable |
| Reencryption.BatchMoves | app/services/crypto_reencrypt.py:104-183 | a batch moves exactly as many values as it reports, at most the limit, only pending values of its column, and all of those when it reports fewer than the limit |
| Reencryption.CountedOnlyForItsKey | app/crypto.py:199-270 | for values whose key id has the form the hub makes, the LIKE count equals the count by parsed key id, also with case folded |
| Reencryption.NothingPendingNothingCounted | app/crypto.py:199-270 | when nothing pending is left on a retiring key its usage count is zero |
| Reencryption.KeyStore.RewrapPendingDeks | app/crypto.py:184-196 | the loop with a commit per row produces the specified table and counts the keys that were pending |
| Reencryption.IdleWithoutSecret | app/crypto.py:184-187 | with HUB_SECRET empty no key is pending and re-wrapping changes nothing |
| Reencryption.KeyStore.CountPending | app/services/crypto_reencrypt.py:63-101 | the loop counts exactly the column's values on retiring keys, and nothing in a column that is not handled |
| Reencryption.KeyStore.ReencryptBatch | app/services/crypto_reencrypt.py:104-183 | the loop with its counter does what the specification function says, and an exception leaves the table as it was |
| Reencryption.KeyStore.BatchPass | app/services/crypto_reencrypt.py:228-240 | a pass over the columns either shrinks the number of pending values or leaves none, other requests' commits between columns included |
| Reencryption.KeyStore.MoveEverything | app/services/crypto_reencrypt.py:228-242 | the loop of passes terminates by that measure; not canceled, it leaves nothing pending |
| Reencryption.KeyStore.DeleteOne | app/crypto.py:250-263 | a drained retiring key is deleted, and only it |
| Reencryption.KeyStore.RunJob | app/services/crypto_reencrypt.py:186-269 | a job completes with all keys retiring at its start deleted and nothing left on them, or is canceled, or fails exactly on a stale target; secrets stay readable beside every schedule of other writes |
| Bootstrap.MigrateRow | app/services/crypto_bootstrap.py:128-190 | a legacy value becomes one under the active key with its plaintext, any other stays; it fails exactly when HUB_SECRET does not open it |
| Bootstrap.MigrateColumn | app/services/crypto_bootstrap.py:128-190 | all rows of one column are migrated and nothing else changes, or some value of the table cannot be read |
| Bootstrap.MigrationMakesSound | app/services/crypto_bootstrap.py:193-217 | migrating every handled column turns a sound legacy store into a sound encrypted one |
| Bootstrap.BootstrapEncryptionDb | app/services/crypto_bootstrap.py:193-217 | the bootstrap does nothing without a secret or with keys present, fails exactly when a handled legacy value is unreadable and then changes nothing, and otherwise establishes the invariant of every later run |
| Sessions.KeySpacesDisjoint | app/session_store.py:120-129 | record keys and the keys of the two indexes never collide, as token hashes hold no colon |
| Sessions.DbSessionStore.LookupByToken | app/session_store.py:173-182 | the query finds the unexpired row with the token's hash, if there is one |
| Sessions.DbSessionStore.Touch | app/session_store.py:184-192 | an existing row and the passed record are extended alike; a missing row changes nothing |
| Sessions.ValkeySessionStore.LookupByToken | app/session_store.py:263-275 | the answer is the live record; an expired one is removed with its index entries |
| Sessions.ValkeySessionStore.DeleteUserSessions | app/session_store.py:297-317 | the loop over the user's index drops the records it finds there, cleans their index entries, and then drops the index |
| Sessions.ValkeySessionStore.ClearImpersonationTarget | app/session_store.py:319-340 | the loop over the target's index clears exactly the records there that still impersonate the target |
| Sessions.ValkeySessionStore.SetImpersonate | app/session_store.py:342-353 | the record is saved with the new target and the impersonation index moves with it |
| SessionRefinement.UserDeletedSound | app/session_store.py:297-317 | deleting by the index reaches every session of the user and nobody else's, stale entries notwithstanding |
| SessionRefinement.TargetClearedReaches | app/session_store.py:319-340 | clearing by the index reaches every session that impersonates the target and changes no other |
| SessionRefinement.StepKeepsSim | app/session_store.py:156-353 | each request, each tick of the clock and each expiry, at whatever moment after its deadline, keeps the stores in agreement |
| SessionRefinement.LookupsAgree | app/session_store.py:156-353 | at every point of every run each token looks up to the same record, or to none, in both stores |
| SessionRefinement.LiveSessionsAreIndexed | app/session_store.py:228-246 | every live session is in its owner's index and, if it impersonates, in its target's |
| Dispatch.PoolState | app/services/dispatcher.py:125-170 | the loop over the nodes answers ready, waiting or empty as the set of offering nodes determines |
| Dispatch.Candidates | app/services/dispatcher.py:173-202 | the candidates are exactly the enabled nodes that offer the models and have the engines loaded |
| Dispatch.PoolsAndCandidates | app/services/dispatcher.py:125-202 | a ready pool has a candidate, any candidate makes the pool not empty, and outside waiting ready means just that there is a candidate |
| Dispatch.InFlightIs | app/services/dispatcher.py:210-218 | the load of a node is the number of live rows that it holds under a worker task id |
| Dispatch.PickedIsAhead | app/services/dispatcher.py:205-222 | the node picked stands before every other in a stable sort by load over weight, heavier nodes first among equals |
| Dispatch.PostsAreDistinct | app/services/dispatcher.py:740-820 | each candidate is posted to at most once, nobody else is, and every reply but the last passed the task on |
| Dispatch.PostsAreOrdered | app/services/dispatcher.py:740-747 | the posts go by non-decreasing score, in the order of that sort |
| Dispatch.AcceptingNodeIsLeast | app/services/dispatcher.py:740-820 | the accepting node stands before every candidate that has not passed the task on |
| Dispatch.PayloadTooLargeIff | app/services/dispatcher.py:783-825 | an offering fails with `payload_too_large` exactly when all candidates answered 413 or the first candidate by score that did not pass the task on refused it with that code; what is recorded is TaskReports.PayloadTooLargeRecordedIff |
| Dispatch.UnplacedWhy | app/services/dispatcher.py:785-825 | a task is left queued after posting only if every candidate was asked and one was busy or out of reach |
| Dispatch.OfferToCandidates | app/services/dispatcher.py:740-825 | the loop with its remaining list, its counter of 413 answers and its early returns comes to the specified posts, flag and outcome |
| TaskRuns.AmountIsFair | app/services/billing.py:52-66 | each charge is a whole number of thousandths within one thousandth of the raw price |
| TaskRuns.CompletionKeepsRows | app/services/dispatcher.py:482-533 | a result, saved or refused, leaves rows that hold a worker only while running and a saved result only in success |
| TaskRuns.CompletionKeepsChain | app/services/dispatcher.py:381-414 | a follow-up is made exactly for a successful transcription that names skills, and once |
| TaskRuns.PollKeepsSound | app/services/dispatcher.py:653-692 | polling, lost and unknown workers included, keeps the invariant |
| TaskRuns.RecoverKeepsSound | app/services/dispatcher.py:580-650 | recovery after a restart keeps the invariant |
| TaskRuns.DispatchKeepsSound | app/services/dispatcher.py:695-825 | dispatching, with a worker that may finish at once, keeps the invariant |
| TaskRuns.DeleteKeepsSound | app/services/artifacts.py:16-84 | deleting an audio or transcript keeps the invariant |
| TaskRuns.RemediateKeepsSound | app/services/worker_impact.py:447-567 | moving the tasks that lose their models, or run on the node, to models still offered keeps the invariant |
| TaskRuns.RemoveKeepsSound | app/services/worker_impact.py:396-413 | removing a node, with its tasks let go, keeps the invariant |
| TaskRuns.StepKeepsSound | app/services/dispatcher.py:549-823 | every step of dispatcher, requests on tasks, sources, wallets and nodes, restarts and clock keeps it |
| TaskRuns.EveryRun | app/services/dispatcher.py:246-533 | after any run: a worker's task id only while running, neither set while queued, success and the usage event once each at most, one follow-up a parent, every usage event within a thousandth of the raw price of its result, and every wallet equal to its funds less the exact sum of its charges |
| TaskRuns.RunEvolves | app/services/dispatcher.py:580-692 | success is absorbing, its follow-up fixed, and a row that has lost its source never gets there, in any run |
| TaskRuns.NothingSavedAfterDeletion | app/services/artifacts.py:16-84 | after a source is deleted no step of any run saves a result of a row that had it |
| TaskRuns.FlagIsMemory | app/services/dispatcher.py:715-718 | the no-timeout flag remembers exactly whether the row was shown a waiting pool, a full queue or a missing engine since it was created, last retried or last moved to other models by a request on a node |
| TaskRuns.TimeoutIff | app/services/dispatcher.py:261-268 | `dispatch_timeout` is recorded exactly on an attempt in the queue, past the limit, with no candidate, the pool not waiting, and nothing of that kind seen since the row was created, last retried or last moved to other models |
| TaskNodes.TimesOutAfterWaiting | app/services/worker_impact.py:541-567 | a run: a task is shown a waiting pool, is moved to another model, and times out although it is neither new nor retried |
| TaskNodes.LeftAloneIff | app/services/dispatcher.py:914-923 | a running row of any run is left running by every tick and request of every continuation, until a restart or a move to other models, if and only if it names no task on a worker |
| TaskNodes.StrandsIff | app/services/dispatcher.py:808-812 | in every run a row newly comes to that exactly when its node is removed while it runs, or a node accepts it without an id and without being done |
| TaskReports.ChargedIff | app/services/dispatcher.py:482-533 | in every run a step adds a usage event for a task if and only if a worker reports its success, asked for it or on accepting it, and the task has a wallet and is not yet billed |
| TaskReports.ChargedUnsavedIff | app/services/dispatcher.py:281-299 | in every run a step charges a task without saving a result if and only if success is reported of an unbilled task that may not save |
| TaskReports.ChargedUnsavedHappens | app/services/dispatcher.py:482-510 | such a charge happens: a task is dispatched, its audio deleted, and its worker then reports success |
| TaskReports.CodeRecordedIff | app/services/dispatcher.py:536-546 | a code that comes from workers is newly recorded if and only if a worker reports an error that maps to it, at once, to a poll or to recovery, or an offering fails with it |
| TaskReports.PayloadTooLargeRecordedIff | app/services/dispatcher.py:536-825 | in every run a step records `payload_too_large` if and only if an offering has all candidates answering 413 or its decider refusing with that code, or a worker reports that code of the task, on accepting it, to a poll or to recovery |
| TaskHub.Hub.Fail | app/services/dispatcher.py:246-258 | a failure sets status and code and releases the worker |
| TaskHub.Hub.Persist | app/services/dispatcher.py:281-320 | a result becomes a new row and the row succeeds, or the row fails with the reason saving was forbidden |
| TaskHub.CompletionInParts | app/services/dispatcher.py:482-533 | saving, charging, chaining and releasing the worker, each defined by itself, one after another come to the completion that the theorems are about |
| TaskHub.Hub.OnSuccess | app/services/dispatcher.py:482-533 | the handler, assignment by assignment, does a completion |
| TaskHub.Hub.PollRunningTask | app/services/dispatcher.py:653-692 | the handler does the specified step, branch by branch, and so keeps the invariant of every run |
| TaskHub.Hub.RecoverWorkerTask | app/services/dispatcher.py:580-650 | the handler does the specified step, branch by branch, and so keeps the invariant |
| TaskHub.Hub.DispatchQueuedTask | app/services/dispatcher.py:695-825 | pool, timeout, candidates and the offering loop come to the specified step, and so keep the invariant |
| TaskHub.Hub.Tick | app/services/dispatcher.py:914-923 | a turn is a poll and, if the row is then queued, an attempt to dispatch, and keeps the invariant |
| TaskHub.Hub.RetryTask | app/routers/tasks.py:676-716 | a retry is accepted exactly for a failed row with a retriable code and an existing source, resets it, and keeps the invariant |
| TaskHub.Hub.CancelTask | app/routers/tasks.py:757-763 | a cancel is accepted exactly for a row that waits without a worker, and keeps the invariant |
| TaskHub.Hub.CancelQueuedForSource | app/services/artifacts.py:16-28 | the loop stops exactly the live rows of the kind that have the source |
| TaskHub.Hub.HardDelete | app/services/artifacts.py:54-84 | stopping, the deletion and the foreign keys together are the specified step and keep the invariant |
| TaskHub.Hub.ApplyRemediation | app/services/worker_impact.py:447-567 | the loop moves exactly the live tasks that the specification names, is refused exactly for models not offered, and keeps the invariant |
| TaskHub.Hub.DeleteWorker | app/services/worker_impact.py:396-413 | the loop lets go of the node on exactly the tasks that name it, and the handler keeps the invariant |
| Money.FloorMoneyIsClose | app/money.py:11-16 | rounding gives whole thousandths, moves toward zero, and by less than one |
| Money.FloorMoneyKeepsMoney | app/money.py:11-16 | an amount already in thousandths is not changed, so balances do not drift |
| Money.ChargeIsFair | app/money.py:19-26 | a charge is within a thousandth of the raw price, free only when the price is, and above it only as the minimum charge |
| Money.UnitsAreTheLeastEnough | app/services/billing.py:57-60 | the units are the least number of thousand-character units that covers the text |
| Billing.ChargeConserves | app/services/billing.py:81-110 | a charge moves money from the balance to the events exactly and touches no other organization |
| Billing.AdjustIsExact | app/routers/instance/orgs.py:37-54 | a wallet correction changes one balance by the rounded amount |
| Billing.Accounts.ApplySuccessCharge | app/services/billing.py:81-110 | the first charge of a task changes balance, events and mark; any later one does nothing |
| Capture.TickKeepsSound | app/services/capture_runner.py:985-1009 | each step of a dispatcher tick, acting on a row it read earlier, keeps the invariant |
| Capture.ThreadKeepsSound | app/services/capture_runner.py:719-978 | each step of a background thread keeps it; an exception gives up the persist lock before its failure is written |
| Capture.PersistKeepsSound | app/services/capture_runner.py:356-491 | each step under the persist lock keeps it, whoever commits between them |
| Capture.OneThread | app/services/capture_runner.py:343-1009 | in every interleaving: one thread at most in its body, no more follow-ups than Audio rows, and success or an Audio reference only after one was committed |
| Capture.AtMostOneAudio | app/services/capture_runner.py:343-1009 | in every interleaving in which no node is removed or remediated while the task runs on it, restarts and recovery included: one Audio row at most, and closed for good afterwards |
| CaptureAudio.AnotherAudioIff | app/services/capture_runner.py:343-1009 | after every run, node requests included, a first or another Audio row can still be committed if and only if the state is savable: a condition on the row, the thread, the lock, what the tick read and the requests under way |
| CaptureOutcome.SecondAudio | app/services/worker_impact.py:396-411 | a run that commits two Audio rows: a removal read the task running and is written after its success, and a thread that read the row before binds another worker |
| CaptureOutcome.StaysClosedIff | app/services/capture_runner.py:719-1009 | a closed capture of any run stays closed in every continuation if and only if no removal that read it running is under way, no tick is about to start it on an old reading, and recovery does not hold it |
| CaptureOutcome.RequeuedAfterSuccess | app/services/worker_impact.py:396-411 | a run in which a removal that read the task running puts it back into the queue after its success, with its Audio and without a worker |
| Capture.OnlyReadyArtifactsAreSaved | app/services/capture_runner.py:320-399 | in no interleaving is an artifact saved that is under the least size, was declared unready, differs in size from the report, or came from a task neither finished nor vouched for |
| CaptureOutcome.RunsAgainIff | app/services/capture_runner.py:985-1009 | a capture of any run that does not run comes to run again if and only if a tick is about to start it on an old reading, or it waits, or is about to be put back, while a worker is named or on its way to be named |
| CaptureOutcome.SuccessStaysIff | app/services/capture_runner.py:719-1009 | a success reached by any run stays in every continuation if and only if no cancel and no removal that read the task running is under way, every thread is on its way out, and neither recovery nor a tick still acts on a reading of the open task |
| CaptureOutcome.CancelAfterSuccess | app/routers/tasks.py:743-756 | such a loss happens: a cancel that checked the row in time lands after the success |
| CaptureRunner.Runner.MaybeStartCapture | app/services/capture_runner.py:985-1009 | the code under the start lock does the machine's two steps |
| CaptureRunner.Runner.PersistCaptureArtifact | app/services/capture_runner.py:343-491 | an uninterrupted call does the machine's steps and reports success only for a successful row with its Audio |
| CaptureRunner.Runner.FetchAndStore | app/services/capture_runner.py:384-491 | from the download on a call succeeds exactly for an audio file of the reported size that reaches storage, and does the machine's steps |
| RateLimit.RetryAfterIsEnough | app/rate_limit_store.py:86-88 | the wait announced is the least whole number of seconds that is enough |
| RateLimit.MemoryRateLimitStore.PurgeExpired | app/rate_limit_store.py:152-155 | the loop removes exactly the expired buckets and reports how many |
| RateLimit.MemoryRateLimitStore.EvictIfNeeded | app/rate_limit_store.py:158-165 | afterwards there is room, only the oldest live buckets were evicted, and none if purging was enough |
| RateLimit.MemoryRateLimitStore.Hit | app/rate_limit_store.py:71-92 | the answer is that of the limiter that never purges, the store stays within its bound, and without live evictions only dead buckets are missing |
| RateLimit.ValkeyRateLimitStore.Hit | app/rate_limit_store.py:115-131 | INCR, PEXPIRE and PTTL together are the specified counter and answer |
| RateLimitRuns.PurgingIsInvisible | app/rate_limit_store.py:71-105 | with room for every live key the store gives, to every hit of every run, the answer of a limiter that never purges, the sweeper's purges between hits included |
| RateLimitRuns.TwiceTheLimit | app/rate_limit_store.py:71-92 | any half-open interval one window long contains at most twice the limit of allowed hits |
| RateLimitRuns.LimitPerBucket | app/rate_limit_store.py:71-92 | a bucket's own window contains at most the limit |
| RateLimitRuns.BackendsAgreeIff | app/rate_limit_store.py:71-131 | over every timed sequence of hits with any limits, memory and Valkey answer a hit alike, the wait included, if and only if its limit does not lie between their counts of the window |
| RateLimitRuns.BetweenMeansRaised | app/rate_limit_store.py:71-131 | a limit can lie between the counts only when it is above one that an earlier hit of the key had |
| RateLimitRuns.BackendsAgree | app/rate_limit_store.py:71-131 | while a key's limit is not raised, memory and Valkey answer every hit alike, the wait included |
| RateLimitRuns.RaisedLimitSeparates | app/rate_limit_store.py:115-131 | a limit raised within a window makes them differ: Valkey has counted denied hits |
| OrgAdmins.GuardIsExact | app/services/access.py:18-36 | the guard passes if and only if an active administrator is left after the demotion, the disabling or the removal |
| OrgAdmins.AccountDeletion | app/services/account_delete.py:49-72 | the organization goes exactly when its only active administrator leaves and nobody active remains; a needed successor ends up its administrator; refusals are exactly the missing and the unfit successor |
| OrgAdmins.SuccessionKeepsLed | app/services/account_delete.py:117-124 | promoting a successor leads the organization on and takes nobody's place elsewhere |
| OrgAdmins.StepKeepsLed | app/routers/org.py:381-548 | no request takes the last active administrator from an organization that stays |
| OrgAdmins.RunKeepsLed | app/routers/org.py:381-548 | an organization with an active administrator keeps one for as long as it exists, over every sequence of requests |
| OrgAdmins.Tables.CountActiveOrgAdmins | app/services/access.py:18-31 | the count of active administrators other than the excluded user |
| OrgAdmins.Tables.PatchUserRole | app/routers/org.py:411-431 | the handler does the specified step and refusal, and every organization that was led stays so or is gone |
| OrgAdmins.Tables.DisableUser | app/routers/org.py:435-451 | the handler does the specified step and refusal, and every organization that was led stays so or is gone |
| OrgAdmins.Tables.OffboardUser | app/routers/org.py:513-548 | the handler does the specified step and refusal, as far as members and accounts go; every organization that was led stays so |
| OrgAdmins.Tables.DeleteUserAccount | app/services/account_delete.py:127-160 | preview, promotion and deletion in order do the specified step and refusal; every organization that was led stays so or is gone |
| Transfer.KeyStaysUnique | app/services/offboarding.py:34-60 | the share key stays unique, whoever the target is |
| Transfer.NobodyNamesTheDeparted | app/services/offboarding.py:34-60 | no share names the departing user afterwards if and only if the target is another user or that user has no outgoing share to others |
| Transfer.TargetSeesBoth | app/services/offboarding.py:34-46 | the target's shared objects are the union of both users' sets |
| Transfer.SelfTransferLosesShares | app/services/offboarding.py:34-46 | handing a library to its own owner loses every incoming share and nothing else |
| Transfer.OthersSeeTheSame | app/services/offboarding.py:34-60 | everybody else's shared objects are unchanged |
| Transfer.NoDuplicate | app/services/offboarding.py:47-60 | the senders' query for duplicates never finds one, so no outgoing share is lost |
| Transfer.EverythingMoves | app/services/offboarding.py:24-33 | every owned audio, transcript, summary and own skill becomes the target's and no other row changes |
| Transfer.Library.RepointIncoming | app/services/offboarding.py:34-46 | the loop over incoming shares drops the duplicates and repoints the rest, its queries reading unflushed tables |
| Transfer.Library.TransferUser | app/services/offboarding.py:23-65 | the updates and both loops come to the specified library, shares and hidden marks |
| LibraryList.ListedIffReadable | app/services/library_list.py:99-182 | the listing's clauses accept exactly the rows the viewer can read, less the hidden ones when those are left out |
| LibraryList.Latest | app/services/library_list.py:259-262 | a group is dated by its newest row: no row of it is later, and one has that date |
| LibraryList.OneAnswer | app/services/library_list.py:258-267 | the ordering of groups is strict, so the group query has just one answer and its pages fit together |
| LibraryList.SourceGroups | app/services/library_helpers.py:320-335 | the dictionary of a page's items yields, for each source, exactly its items, the newest first |
| LibraryList.NewestFirstIs | app/services/library_helpers.py:329-333 | sorting a group puts the newest first and loses and doubles nothing |
| LibraryList.PagesTile | app/services/library_list.py:232-285 | pages at successive offsets list the groups one after another, each with all of its rows |
| LibraryList.PagesHoldTheListing | app/services/library_list.py:193-285 | for every page size the pages list each source group once, as many as the count says, and together hold every listed row as often as the table does |
| LibraryList.ListingIsReadableLibrary | app/services/access.py:60-88 | with nothing filtered and hidden rows included, all pages together hold exactly the rows the viewer can read, each once |
| ShareBadges.CollectIncoming | app/services/library_list.py:418-426 | the dictionary filled in table order holds, for each row of the page, the share the single-row query finds |
| ShareBadges.CollectOutgoing | app/services/library_list.py:428-437 | the lists filled in table order are, for each owned row, those of the single-row query |
| ShareBadges.BatchShareBadges | app/services/library_list.py:390-473 | under the share key the page's badges are, row by row, those of the single-row function |
| ShareBadges.BadgesAgree | app/services/library_helpers.py:65-94 | a badge made from what was collected equals the one made from the tables |

## Left out

- Real cryptography, hashing of secrets and tokens, JSON text of records: ideal or injective functions.
- A writer that reads the active key, stalls, and commits after that key was deleted; and the lost
  update of a batch that commits over a value written meanwhile: a write and a batch are one step each.
- `_encrypted_sample_readable`, the progress counters, job listing and logging.
- `ValkeySessionStore.count_active`, whose scan also matches index keys; `reset`; Redis errors.
- Sub-second lifetimes of sessions, and a touch or an impersonation of a record deleted in between,
  which the two stores treat differently. Clearing the empty user id is not a request.
- Floating-point rounding of load scores and of the monotonic clock: loads are rationals, times integers.
- Requests that land inside a dispatcher `await` on a transcription or summary, where ORM objects are
  kept un-expired: those handlers are one step each. For captures such interleavings are modelled.
- Import tasks, which share the queue but run in threads of their own; retention of finished tasks.
- The progress stages and error details in task metadata, notifications, tags and titles.
- Capture capacity after a second choice of node, and the platform rules for a meeting URL: a thread
  may fail at any of its steps, whatever the reason.
- Metadata of a capture other than the meeting's address. `CaptureAudio.AnotherAudioIff`: a removal of the
  node that finds no address left is taken to wipe one written meanwhile, which the code may leave.
- What a remediation does to the defaults of users and of the instance.
- `RateLimitRuns.PurgingIsInvisible`, `RateLimitRuns.BackendsAgreeIff`: hits reach a store in the order of
  their clock readings; the clock is read before the lock is taken, so two hits may pass each other.
- `SessionRefinement.LookupsAgree`: Valkey is one step a request; two requests on one session that
  interleave their Valkey commands are not modelled.
- Search, tag and owner filters of the listing, `audio_derived_info`, the presentation of items.
- The order of successor candidates by e-mail, password and MFA checks before an account is deleted.
- Wiping of content on offboarding, and the removal of task rows together with an account or an
  organization: what is modelled is that live tasks may no longer save (the event `Withdraw`); the
  deletion of API tokens and sessions beside a transfer.
- Workers, SMTP, storage, downloads, Telegram, MCP, migrations, schemas and pages.
