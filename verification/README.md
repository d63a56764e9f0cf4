# Verified models of the offline sync and redemption layer

A Dafny project beside the application. It models the logic that decides whether a coupon is redeemed
once, what a device shows while it is offline, and what a sync keeps, and it proves the properties that
logic is for. `dafny verify dfyconfig.toml` checks all of it.

| files | what they model |
|---|---|
| `Redemption`, `PushHandler`, `RedemptionProtocol` | the push queue of redemption attempts: the handler as loops and as an automaton that stops at each await, and the whole protocol of many devices, one arbiter, a lossy network and crashes |
| `HeadOfLine` | the same protocol with the queue worked in the order its rows were inserted |
| `PullReplication`, `PullCompleteness`, `SyncClock` | keyset pulls over a changing table, what the replica then holds, the calibrated clock |
| `SubmitMachine`, `SubmitCompiler`, `SubmitTable`, `SubmitMoves`, `SubmitRun`, `SubmitSafety`, `SubmitLockstep` | the strict scanner statechart: table, compiler, the exact move on each event, interpreter, run-level safety and its relation to the reference machine |
| `CampaignPolicy`, `SubmitSupport`, `SubmitFlow`, `SubmitOverride` | the page that drives it: the campaign policy source, the order number, the flow's handlers, and what an offline override records over every run |
| `ScanResolver`, `ScanJourney` | what a device answers about a scanned code; and a scan followed from that answer through the page to the queue |
| `ConflictMerge`, `ConflictSheet` | the three-way field merge and the sheet of overwritten answers |
| `ScopeFilter`, `ScopeIdentity`, `ScopeRegistry` | replication scopes: filter printer and query, identities, and the registry of open scopes |
| `JsWords`, `Sha256` | SHA-256 in JavaScript arithmetic against FIPS 180-4 |
| `Prelude`, `Text` | shared value types and folds; cutting, joining and sorting of strings |

## Hypotheses

These are assumed; each is a guard or a parameter of the model, never a fact added to it.

- Redemption: a device's queue is durable and one page drives it; a device's name is its own, and burns
  naming it are sent by its handler only; attempt ids are fresh uuids; codes are named by uuids as
  PostgreSQL reads them, and a verified attempt whose code is spelled like one names a code the device's
  replica has held (under any other spelling it may be enqueued); the server's clock does not run back,
  codes are not deleted and their expiry does not change; `redeem` and the landing insert are atomic. The
  network is not trusted: any request may be served late, more than once or never, and any response may be
  lost.
  `HeadOfLine` adds that rows are handed to the handler as they were inserted, each after the ones before it
  are resolved.
- Pull: a write stamps a key above everything already served and above the version it replaces. Nothing is
  assumed of the window bounds, which the clock does move back (`SyncClock.WindowSlips`); completeness is
  against the highest one used, and `PullCompleteness.HeldInTrueWindow` adds that every pull was made by a
  device whose clock has been calibrated.
- Clock: the skew is constant after the first capture and a response read within L milliseconds of its
  stamp.
- Flow: each handler of the page runs as one step, `onResult` as two around its lookup, and an effect is
  drained before the next event. `SubmitOverride.HolesExactly` and what follows from it assume that the
  replicas show a code's id and campaign as they were issued, one code for a token hash, as the codes
  table's unique constraint has it (`supabase/migrations/20260904000100_qr_attribution_spine.sql:47`).
- Journey: `ScanJourney.HeldCodesAreGuarded` assumes each result the page gets is the resolver's answer from
  what the device held at that moment; `NamelessExactly`, that a token hash has 64 characters and the
  replica's documents are named by uuids.

## Where the code does not do what its documentation says

- The lockstep walk expects the statechart and the reference machine never to differ
  (`tests/machine/lockstep-fuzz.mjs:1-10`). They do, in three situations: an online device standing at the
  offline gate sees a repeated RESUBSCRIBED, or a DISMISS; or a DISMISS follows a resume under the prompt and
  a second loss of connection. `SubmitLockstep.LockstepExactly` proves these are all of them, and each is
  reached: `LockstepFails`, `LockstepFailsOnDismiss`, `LockstepFailsOnSecondLoss`.
- The fail-closed policy does not cover a spent code whose document lookup fails, nor an embedded offer that
  names its campaign (`marketing/submit-flow.js:368-390`): `SubmitOverride.LookupHole` and `EmbeddedHole`.
  `SubmitOverride.HolesExactly` proves that these, and the unknown codes left overridable on purpose, are
  all the ways a session for a code that may not be overridden is granted the override;
  `ScanJourney.HeldCodesAreGuarded` that the codes the device held got there by the lookups alone.
- The push handler's guard is there so that no token hash reaches `redeem`, whose answer of 400 would strand
  every later redemption (`marketing/sync/push-replication.js:286-297`). It looks at the unverified flag, and a
  spent code whose second lookup fails is written under its token hash without it
  (`marketing/submit-flow.js:303-309`): that attempt is never resolved, and nothing queued behind it is.
  `ScanJourney.FailedLookupStrands` is the input, `PushHandler.NamelessBatchNeverEnds` the handler's side,
  `ScanJourney.NamelessExactly` says exactly which records these are, and
  `RedemptionProtocol.NothingIsStranded` and `HeadOfLine.DrainsExactly` exactly which attempts get stuck.
- `onResult` asks whether some session is resolving, not whether it is this result's session
  (`marketing/submit-flow.js:348`): `SubmitOverride.LateResultIsRecorded`, and exactly when in
  `SubmitOverride.RecordMatchesSession`. After the lookup's await it asks nothing at all, so a late lookup
  replaces the code in hand under another session's grant: `SubmitOverride.LateLookupIsRecorded`, and
  exactly when in `SubmitOverride.StashIsGrantedExactly`.
- A handle's `cancel` deletes its key's entry without asking whose it is (`sync-rxdb/bootstrap.js:386-389`):
  `ScopeRegistry.DoubleCancelRivals`, and exactly when in `ScopeRegistry.StepKeepsExactly` and
  `ScopeRegistry.RivalsExactly`.
- Chips are promised distinct (`sync-rxdb/conflict-notice.js:530`); an id that contains the ordinal's dot
  can break it: `ConflictSheet.DottedIdCollides`, and exactly when in `ConflictSheet.ChipsDistinctExactly`.
- Counting rule 6 names dismissed records among those reviewed (`sync-rxdb/conflict-notice.js:255`); the code
  counts restored and kept ones only, and so does the model.

## Model

| member | source | states |
|---|---|---|
| RedemptionProtocol.SingleWinner | marketing/sync/push-replication.js:22-40 | in every run of any number of devices, with lost, repeated and late requests, crashes and retries, two accepted verified attempts for one code are the same attempt on the same device |
| RedemptionProtocol.Agreement | marketing/sync/push-replication.js:352-383 | an accepted attempt's device is the one the arbiter names, a rejected one's never is, and neither changes however the run goes on |
| RedemptionProtocol.AgreesNow | marketing/sync/push-replication.js:361-375 | a rejection as already used carries the arbiter's winner and time, a device other than this one; any other rejection means the code expired unredeemed |
| RedemptionProtocol.WinnerIsNotRejected | marketing/sync/push-replication.js:27-36 | the device the arbiter names holds exactly one verified attempt for the code, and it is not rejected |
| RedemptionProtocol.BurnIsFinal | marketing/sync/push-replication.js:343-383 | once an outcome is persisted it and the row it lands never change, and the attempt is never redeemed again |
| RedemptionProtocol.LandingIsIdempotent | marketing/sync/push-replication.js:416-420 | whenever a landing would be answered 409, the existing row is identical to the one being sent; after any landing the table holds exactly that row |
| RedemptionProtocol.ResolvedMeansLanded | marketing/sync/push-replication.js:422-423 | a resolved attempt has its server row, with the status and reason the device shows |
| RedemptionProtocol.LandedRowsTellTheTruth | marketing/sync/push-replication.js:303-332 | the server's attempt rows agree with the arbiter: a verified row names its code and is accepted exactly if the arbiter names its device; an unverified one names no code, carries the hash and is accepted |
| RedemptionProtocol.QueuedAsAsked | marketing/sync/push-replication.js:204-228 | in every run each queued attempt is its device's own and was asked for there by an enqueue of that code with that unverified flag and that audit data |
| RedemptionProtocol.RowsAsAsked | marketing/sync/push-replication.js:303-332 | so was every row of the server's attempt table, under its token hash if unverified and its code id otherwise |
| RedemptionProtocol.OneLiveAttempt | marketing/scanner.js:226-248 | through the serialized enqueue no device's queue ever holds two attempts for one code that are not rejected |
| RedemptionProtocol.NothingIsStranded | marketing/sync/push-replication.js:232-242 | from every reachable world, whatever was lost or crashed, some continuation resolves a queued attempt if and only if it is unverified or its code names a code |
| HeadOfLine.DrainsExactly | marketing/sync/push-replication.js:286-297 | in a queue worked in order, some continuation in order resolves an attempt if and only if neither it nor any attempt inserted before it is verified under a code that names none |
| HeadOfLine.BlockedForGood | marketing/sync/push-replication.js:286-297 | in order, nothing at or behind such an attempt is ever resolved, however the run goes on |
| RedemptionProtocol.UnserializedTwiceAccepted | marketing/sync/push-replication.js:204-229 | why the enqueue is serialized: of all interleavings of two raw calls at their awaits, both insert exactly in those where both finds come before the first insert, and the handler then accepts both attempts, the second by belt 2 |
| RedemptionProtocol.StepKeeps | marketing/sync/push-replication.js:283-426 | every step keeps the whole invariant, the server only evolves, and devices only carry forward |
| RedemptionProtocol.RunKeeps | marketing/sync/push-replication.js:283-426 | the same over whole runs |
| RedemptionProtocol.PushKeeps | marketing/sync/push-replication.js:343-423 | each await-to-await step of the handler keeps queue, in-flight state, request log and enqueue chains truthful |
| RedemptionProtocol.InsertKeeps | marketing/scanner.js:237-248 | an insert by the head of a code's chain keeps at most one live attempt for it |
| RedemptionProtocol.RedeemEvolves | supabase/migrations/20260904000200_redeem_rpc.sql:63-79 | the conditional UPDATE never rewrites a burned or expired code, and its verdict stays true of the table from then on |
| RedemptionProtocol.LandingMeetsItself | marketing/sync/push-replication.js:416-418 | a row already under an attempt's id is that attempt's own landing row |
| Redemption.HashNamesNoCode | marketing/sync/push-replication.js:290-294 | no token hash, 64 characters, is a uuid in any spelling the database reads |
| Redemption.UuidNamesCode | supabase/migrations/20260904000200_redeem_rpc.sql:56-56 | a uuid names a code with its four hyphens and without them, in braces or not |
| Redemption.OneWinnerPerCode | supabase/migrations/20260904000200_redeem_rpc.sql:63-79 | of two calls for one code by any devices at any times at most one is told it won, exactly when the code existed, was unredeemed and unexpired, and then the row names that device and that time; a loser leaves the table and is told which of the three failed, after a winner that it was already used |
| PushHandler.AwaitWinner | marketing/sync/push-replication.js:273-281 | the polling loop ends while its clock advances and returns the first winner a poll names, or nothing |
| PushHandler.PolledMeaning | marketing/sync/push-replication.js:273-281 | the deciding poll is the first whose document has a redeemed_by or the first past the deadline; the answer is that document's redeemed_by and redeemed_at, or nothing |
| PushHandler.PushReplica.EnqueueAttempt | marketing/sync/push-replication.js:204-228 | dedupes exactly when a non-rejected attempt for the code is queued, else inserts the pending attempt with what the caller passed and nothing burned or landed, and changes nothing else |
| PushHandler.PushReplica.HandleRow | marketing/sync/push-replication.js:284-423 | handling one row equals the await-point automaton fed that row's script; it returns normally exactly when nothing throws |
| PushHandler.PushReplica.BurnAndPersist | marketing/sync/push-replication.js:347-383 | burn, arbitration by the replica, then the persisted patch, before any landing |
| PushHandler.PushReplica.Land | marketing/sync/push-replication.js:385-423 | lands the decided row and resolves it on 201 or 409; otherwise leaves it pending |
| PushHandler.PushReplica.Push | marketing/sync/push-replication.js:283-426 | a batch equals the automaton over its rows in order, stopping at the first throw |
| PushHandler.RowClosed | marketing/sync/push-replication.js:284-423 | one row in closed form: only its own document moves, with exactly these requests |
| PushHandler.BurnMeans | marketing/sync/push-replication.js:352-375 | the outcome persisted: a win, and a loss the replica shows to be this device's own burn, has neither reason nor winner; any other loss as already used carries the winner, and a refusal the arbiter's reason |
| PushHandler.QueueProgress | marketing/sync/push-replication.js:236-240 | rows before the one that throws are done, it is still pending, rows after it are untouched |
| PushHandler.ThrowsExactly | marketing/sync/push-replication.js:416-420 | a pass throws exactly when some row still to be handled has its landing answered by anything but 201 and 409, or its burn fails; it stops at the first such row, which stays pending |
| PushHandler.OutsideTheBatch | marketing/sync/push-replication.js:283-289 | documents named by no row of the batch are unchanged |
| PushHandler.RequestsAreEarned | marketing/sync/push-replication.js:286-305 | every redeem sent is for a verified attempt with no persisted outcome, every landing is a pending attempt's decided row |
| PushHandler.ResolvedRowsSendNothing | marketing/sync/push-replication.js:286-288 | a pass over resolved or missing rows sends nothing and changes nothing |
| PushHandler.RetryOnlyLands | marketing/sync/push-replication.js:376-383 | belt 1: after a persisted burn and a failed landing, the retry sends the same landing row and no redeem |
| PushHandler.NamelessBatchThrows | marketing/sync/push-replication.js:290-297 | a batch holding a pending verified row that names no code throws at or before it, and leaves it and every row behind it as they were |
| PushHandler.NamelessBatchNeverEnds | marketing/sync/push-replication.js:236-242 | and so does every retry: however often the batch is handed over, that row and the rows behind it never move |
| PullReplication.PullMeans | marketing/sync/pull-replication.js:64-69 | the compound predicate and optional window select exactly the rows lexicographically above the checkpoint and inside the window |
| PullReplication.PullSelects | marketing/sync/pull-replication.js:50-69 | which rows a pull asks for, by what RxDB hands back: those after the stored pair, after the stored timestamp and the zero id, or after the epoch; and in which window: of codes those that live or died in the last two days, of offers those that live, of campaigns all |
| PullReplication.PullHandler.Pull | marketing/sync/pull-replication.js:132-162 | logs the normalised checkpoint and the query made from what it was handed before sending; calibrates the clock and signals success only on 200; an empty batch keeps the checkpoint, any other advances both halves to its last row |
| PullReplication.BatchAdvances | marketing/sync/pull-replication.js:153-160 | the rows remaining before a batch are the batch followed by the rows the advanced checkpoint selects; the checkpoint never regresses |
| PullReplication.WalkDeliversAll | marketing/sync/pull-replication.js:12-22 | from whatever RxDB hands back, a legacy pair or nothing included, for any batch size and ties of any length the walk ends and delivers each row above that checkpoint exactly once, in key order, each pull made from the pair stored after the one before |
| PullReplication.AscendingUnique | marketing/sync/pull-replication.js:97-98 | the ORDER BY key makes a batch unique: two ascending lists of the same rows are equal |
| PullCompleteness.ReplicaComplete | marketing/sync/pull-replication.js:64-69 | in every run of writes, pulls with windows that move either way, and crashes between storing and checkpointing, each row at or below the checkpoint and above the highest bound used is held at its current version, and the checkpoint never regresses |
| PullCompleteness.CompleteFromStart | marketing/sync/pull-replication.js:40-56 | from an empty replica and the epoch checkpoint on, nothing above that bound that the checkpoint passed is missing or stale, and nothing held is invented or ahead of the table |
| PullCompleteness.HeldInTrueWindow | marketing/sync/replicas.js:44-48 | with windows from the calibrated clock, whichever way it was corrected, every row the checkpoint passed that is inside the window of true time is held current, and so is every row expiring a second plus the latency after the bound computed now |
| PullCompleteness.HeldByKind | marketing/sync/replicas.js:36-48 | of the rows the checkpoint passed, a codes replica holds current every one that by true time lives or died less than two days ago, an offers replica every one that lives, a campaigns replica every one |
| PullCompleteness.PullKeepsComplete | marketing/sync/pull-replication.js:132-162 | one pull with any window keeps completeness, also when the checkpoint is lost |
| PullCompleteness.Converges | marketing/sync/pull-replication.js:132-162 | after writes stop, as many pulls as the remaining rows divided by the batch size make the replica agree with the filtered table, however their windows move; the rows are counted at any bound no window lies below |
| PullCompleteness.BareCursorLosesRow | marketing/sync/pull-replication.js:12-22 | a bare greater-than cursor never delivers a row tied with a batch's last one; the keyset walk delivers both |
| PullCompleteness.WindowBackLosesRow | marketing/sync/pull-replication.js:110-113 | why not above the current bound: a row one window shut out and a later one lets in again is neither held nor asked for |
| SyncClock.SyncClock.CaptureFromResponse | marketing/sync/clock.js:85-102 | a readable Date replaces the offset and counts one capture, anything else changes nothing and returns nothing |
| SyncClock.EstimateBound | marketing/sync/clock.js:72-102 | whatever the device's skew, after any history with one dated response the offset is off by at most a second plus the latency, and never ahead of true time |
| SyncClock.ExpiryJudgement | marketing/sync/clock.js:103-107 | a live code is never judged expired, one dead for the bound or longer always is, an unreadable date always is |
| SyncClock.UncalibratedResurrects | marketing/sync/clock.js:6-9 | before any capture a dead code is accepted exactly when the device clock is rolled back past its expiry |
| SyncClock.WindowSlipsAtMost | marketing/sync/replicas.js:44-48 | between two requests a window bound moves back by less than a second plus the latency |
| SyncClock.WindowSlips | marketing/sync/replicas.js:44-48 | and it can move back: a slow response captured after a fast one |
| ScanResolver.LiveIsNotExpired | marketing/sync/replicas.js:404-413 | the liveness filter of resolveOffers is the negation of isExpired on unredeemed codes, unreadable dates included |
| ScanResolver.OffersAreLive | marketing/scanner.js:161-178 | an offered code is held for the hash, unredeemed in the replica, and dead by true time for less than the bound; the soonest to expire come first |
| ScanResolver.LiveCodesAreOffered | marketing/scanner.js:161-178 | a held code live by true time always yields an offer; it is left out only when the offers replica lacks it and lists others |
| ScanResolver.RefusalsAreGrounded | marketing/scanner.js:180-218 | spent-locally only offline and on a recorded redemption; unknown and embedded only when no codes row has the hash; expired only when all are unredeemed and expired |
| ScanResolver.OffersExactly | marketing/scanner.js:161-178 | the codes offered are the offers replica's live ones for the hash, or if it has none the codes replica's, and no others |
| ScanResolver.AnswersExactly | marketing/scanner.js:155-218 | which answer is given, as an if and only if for each: offers while a live code is held; else, if one held code is redeemed, the server decides online and the device rejects offline; else expired if any is held; else the QR's own offer if there is one, flagged expired by its own date; else unknown |
| SubmitCompiler.BuildOnMeaning | marketing/submit-machine.js:112-123 | the merge throws exactly on an event declared twice, else holds both lists and nothing more |
| SubmitCompiler.TableCompiler.Merge | marketing/submit-machine.js:112-123 | the merging loop returns that map and adds its alphabet events to the declared-pair counter |
| SubmitCompiler.TableCompiler.ScanTable | marketing/submit-machine.js:132-158 | the scan-state loop returns the gated, tailed candidate lists and counts the state |
| SubmitCompiler.WrapMeaning | marketing/submit-machine.js:138-156 | a wrapped list decides as the declared one under an open gate and does nothing under the prompt; it has an enabled candidate in every context exactly when it is not empty |
| SubmitCompiler.TableMeaning | marketing/submit-machine.js:132-158 | any declaration that names no event twice compiles and no other does; the compiled state answers exactly the declared events, every answer in every context is what its declared list means, and an ignored event compiles to one bare no-op |
| SubmitTable.EveryPairDeclared | marketing/submit-machine.js:14-29 | every state of every region declares every one of the twenty events |
| SubmitTable.ScanChoice | marketing/submit-machine.js:261-377 | the first enabled compiled candidate of any scan state, event and context is the one the decision form names |
| SubmitTable.OverlayChoice | marketing/submit-machine.js:238-260 | the same for the overlay region |
| SubmitTable.ConnChoice | marketing/submit-machine.js:219-237 | the same for the connectivity region |
| SubmitRun.CompileChart | marketing/submit-machine.js:218-377 | the compiled chart steps as the decision form wherever the mirrors agree, and the counters come to 23 states and 23 times 20 pairs |
| SubmitRun.StepIsAdvance | marketing/submit-machine.js:165-186 | one macrostep of the interpreted chart, raised events and wildcard trips included, equals the closed form |
| SubmitRun.SubmitActor.Send | marketing/submit-machine.js:381-391 | sending one event appends its effects and leaves the settled snapshot |
| SubmitRun.InterpretedIsAfter | marketing/submit-machine.js:381-391 | every run of the compiled chart is the run in closed form |
| SubmitRun.NoTripOverAlphabet | marketing/submit-machine.js:14-34 | no sequence of alphabet events reaches the error card |
| SubmitRun.RetryUndoesTrip | marketing/submit-machine.js:363-372 | RETRY after a trip restores the interrupted state and session, only the prompt gone; a trip on the error card resets |
| SubmitSafety.OverrideSafety | marketing/submit-machine.js:194-205 | every offline write comes from an entitled user, in a session not requiring the server whose SUBMIT the gate refused, flagged unverified exactly for unknown codes |
| SubmitSafety.OneOutcomePerSession | marketing/submit-machine.js:326-354 | a session's offline writes and redeemed verdicts together are at most one |
| SubmitSafety.EffectAccounting | marketing/submit-machine.js:194-205 | requests sent equal verdicts received plus the one in flight |
| SubmitSafety.VerdictLands | marketing/submit-machine.js:345-354 | while submitting only the verdict moves the scan region, and it is never dropped |
| SubmitSafety.PromptSaneRun | marketing/submit-machine.js:238-249 | the prompt is open only over an interruptible state with a session |
| SubmitSafety.PromptFreezes | marketing/submit-machine.js:250-259 | under the prompt an event other than NEXT_CUSTOMER changes no session data and no scan state but the gate's resume, and emits nothing |
| SubmitSafety.DismissExposes | marketing/submit-machine.js:6-12 | however many events pass under the prompt, DISMISS exposes the interrupted state, or the one the gate resumed to, with its session |
| SubmitLockstep.LockstepExactly | tests/machine/lockstep-fuzz.mjs:1-10 | statechart and reference machine show the same regions, flags and effects over a run if and only if it avoids three named situations |
| SubmitLockstep.LockstepFails | tests/machine/reference-machine.mjs:121-125 | a walk in lockstep so far parts in the first situation: the override is cancelled online, then a repeated RESUBSCRIBED |
| SubmitLockstep.LockstepFailsOnDismiss | tests/machine/reference-machine.mjs:147-155 | one parts in the second: there another code opens the prompt, and it is dismissed |
| SubmitLockstep.LockstepFailsOnSecondLoss | tests/machine/reference-machine.mjs:147-155 | one parts in the third: the gate resumes under the prompt, the connection drops again, and the prompt is dismissed |
| SubmitLockstep.LockstepStep | tests/machine/reference-machine.mjs:57-159 | from related states one event gives related states and equal effects, unless it is one of those situations, and then they visibly differ |
| SubmitOverride.FlowOverrideSafety | marketing/submit-flow.js:346-404 | in every run every enqueued override is an entitled user's, made under a grant whose campaign, if the session resolved with a document in hand, was replicated and not required online; unverified exactly where that session resolved without a document; it names its user and a valid order number |
| SubmitOverride.OverrideIff | marketing/submit-flow.js:346-404 | from every page of every run with a resolved session short of its submit, losing the connection and confirming records one override if the user is entitled and the document in hand names no campaign or an overridable one, or there is none; and nothing otherwise |
| SubmitOverride.RecordableExactly | marketing/submit-flow.js:346-404 | and whatever is done next, some continuation records an override under that grant if and only if so |
| SubmitOverride.HolesExactly | marketing/submit-flow.js:346-404 | against the codes as issued: an override is recorded exactly when the user is entitled and the code may be overridden here, or its session resolved unseen, by a failed second lookup, an embedded offer or no replicated code |
| SubmitOverride.GuardedUnlessUnseen | marketing/submit-flow.js:157-163 | in every run, a record of a code that may not be overridden was made without its document in hand, or a late lookup put it under another code's grant |
| SubmitOverride.EveryStashIsMade | marketing/submit-flow.js:346-404 | every stash a page has in hand, was granted or has recorded was made by a result or a lookup's end in its run, with the policy of that time |
| SubmitOverride.VerifiedWithoutDocument | marketing/submit-flow.js:303-309 | a record without the unverified flag has no document in its stash exactly when its session was granted for a code the replica knew and the stash in hand has none; where no lookup ended late, exactly when its own second lookup failed |
| SubmitOverride.LookupHole | marketing/submit-flow.js:368-382 | the failing input: a code of a required-online campaign, shown spent, is overridden when the second lookup fails and not when it succeeds |
| SubmitOverride.EmbeddedHole | marketing/submit-flow.js:384-390 | the other: an embedded offer whose own descriptor names the required-online campaign is overridden |
| SubmitOverride.StashIsGrantedExactly | marketing/submit-flow.js:368-403 | throughout a run the stash in hand and every record are those the machine granted, exactly when no lookup ends after its session was resolved with another stash |
| SubmitOverride.LateLookupIsRecorded | marketing/submit-flow.js:371-379 | the failing input: a spent code's lookup outlives its session, and the code, required online and in hand, is recorded under the next customer's grant |
| SubmitOverride.RecordNamesStash | marketing/submit-flow.js:303-324 | the code recorded is the document's id, or the token hash where there is none; the value recorded is the embedded offer's face value, and nothing for any other result |
| SubmitOverride.RecordMatchesSession | marketing/submit-flow.js:346-348 | the recorded code is the session's own exactly when the stash was made for that session |
| SubmitOverride.LateResultIsRecorded | marketing/submit-flow.js:346-348 | a result for a code scanned before NEXT_CUSTOMER resolves the next customer's session, and the override is recorded for the earlier code |
| SubmitOverride.OverrideExactly | marketing/submit-flow.js:236-241 | step by step from one page: the script enqueues exactly one record, carrying the stash, the grant, the session code and the order number, or none |
| SubmitOverride.DiscriminatorIsScanTime | marketing/submit-flow.js:165-189 | the unresolved flag recorded is read off the source as it was when the stash was made: true without a source; for a named campaign, whether the mirror lacked it; else whether the source was attached and had not settled or stood in error |
| ScanJourney.ScanGranted | marketing/scanner.js:161-218 | what a scan is granted for: the soonest to expire of the live codes held for the hash, under the campaign that code names; or the value the QR's own offer claims, and no code |
| ScanJourney.HeldCodesAreGuarded | marketing/scanner.js:161-218 | resolver and page together: in every run whose results are the resolver's, a record of a code that may not be overridden was made after its second lookup failed, or when no codes row the device held had its hash, or sits under another code's grant |
| ScanJourney.ScanLands | marketing/scanner.js:155-218 | resolver and page together: a scan ends in the offer exactly while the device holds a live code for the hash; else it waits for the lookup if a held code is redeemed, ends expired if it holds dead ones only, and unknown if it holds none |
| ScanJourney.LiveCodeIsReady | marketing/scanner.js:161-178 | so a held code that is live by true time ends in its offer, at every connectivity |
| ScanJourney.NamelessExactly | marketing/submit-flow.js:303-309 | a record is queued as an attempt that names no code exactly when its session was granted for a code the replica knew and the stash in hand has no document; where no lookup ended late, exactly when its own second lookup failed |
| ScanJourney.NamelessIsQueued | marketing/scanner.js:226-248 | such an attempt passes the serialized enqueue of any device and becomes its queue's first row |
| ScanJourney.FailedLookupStrands | marketing/submit-flow.js:368-382 | the failing input, end to end: a spent code whose second lookup fails is overridden; once queued that attempt is never resolved, and in a queue worked in order nothing behind it is |
| SubmitSupport.ValidateExactly | marketing/submit-support.js:14-20 | an entry validates as v exactly when it is one to six decimal digits v with nothing but white space around them |
| CampaignPolicy.RequiresOnlineExactly | marketing/sync/replicas.js:364-370 | a named campaign is let through exactly when the replica holds it as not required online, or there is no source |
| CampaignPolicy.LatchMeaning | marketing/sync/replicas.js:329-361 | the error latch is set exactly while an error seen after attaching has had no successful pull or settling after it |
| CampaignPolicy.ReadyMeaning | marketing/sync/replicas.js:355-375 | ready means settled at some time after attaching |
| CampaignPolicy.UnresolvedExactly | marketing/sync/replicas.js:371-375 | the source calls itself unresolved exactly when it was attached and either never settled since or an error stands |
| CampaignPolicy.MirrorMeans | marketing/sync/replicas.js:315-320 | the mirror holds exactly the campaigns emitted, each with its last document's flag |
| CampaignPolicy.CampaignPolicySource.OnDocs | marketing/sync/replicas.js:315-320 | each emission replaces the mirror by the emitted documents |
| CampaignPolicy.CampaignPolicySource.OnReplica | marketing/sync/replicas.js:329-361 | errors, successful pulls and settling count only once a replica is attached |
| SubmitOverride.ResultGranted | marketing/submit-flow.js:350-403 | what a result's session is granted for: an offered code, its id and whether the policy requires its campaign online as of then; an embedded offer, its face value and no code; anything else, neither |
| SubmitFlow.FlowRun | marketing/submit-flow.js:346-404 | in every run the machine's resolved kind and flag are those of the stash it was granted for, the session code dates both stashes, and every record is true of its stash and grant |
| SubmitOverride.ResultLands | marketing/submit-flow.js:346-404 | in every run and at every connectivity a result leads its session to the offer if a code is offered, to the unknown-code card for an embedded or unknown code, to the expired card for a dead one, and for a spent one it goes on waiting; under the prompt nothing moves |
| SubmitOverride.LookupLands | marketing/submit-flow.js:368-382 | and a spent code's lookup, however it ends, leads to the offer online and to the spent card otherwise |
| SubmitFlow.FlowPage.ResultArrived | marketing/submit-flow.js:346-404 | only while resolving: starts the lookup of a spent code, or stashes any other mapped result, clears the order number and sends RESOLVED |
| SubmitFlow.FlowPage.LookupReturned | marketing/submit-flow.js:371-403 | stashes the spent code, clears the order number and sends RESOLVED, whatever session is open by then |
| SubmitFlow.FlowPage.GateScan | marketing/submit-flow.js:333-344 | SCAN only from idle, then the decoded code |
| SubmitFlow.FlowPage.OrderTyped | marketing/submit-flow.js:666-674 | records the entry and its validation, and sends ORDER_OK for a valid one in offerReady alone |
| SubmitFlow.FlowPage.DispatchOrValidate | marketing/submit-flow.js:645-657 | SUBMIT and OVERRIDE_CONFIRM are sent with a valid order number only, whose value is taken again |
| SubmitFlow.FlowPage.SendEvent | marketing/submit-flow.js:637-641 | one send drains its effects, and entering idle clears stash and order number |
| SubmitFlow.FlowPage.ProbeAnswered | marketing/submit-flow.js:201-219 | CONN_UP then RESUBSCRIBED from offline, RESUBSCRIBED alone from stale, nothing online, PROBE_TIMEOUT on failure |
| SubmitFlow.FlowPage.ChannelReported | marketing/submit-flow.js:225-231 | RESUBSCRIBED when a stale page's channel is subscribed, PROBE_TIMEOUT when the channel is down, nothing otherwise |
| SubmitFlow.FlowPage.Relayed | marketing/submit-flow.js:676-685 | the five plain buttons and the five verdicts are sent as they are, and nothing else |
| SubmitFlow.FlowPage.DoOverrideWrite | marketing/submit-flow.js:299-330 | appends one attempt: the code id or token hash, the unverified flag, the user, the unresolved flag, the order number, the business date and the embedded face value; nothing without a stash |
| ConflictMerge.ValuesEqualIsEquality | sync-rxdb/conflict-handler.js:223-242 | the structural walk is equality of JSON values |
| ConflictMerge.MergeableFields | sync-rxdb/conflict-handler.js:244-251 | the loops return the states' unreserved keys, each once, at its first appearance |
| ConflictMerge.ResolveConflict | sync-rxdb/conflict-handler.js:270-333 | the loop's document, clash list and baseline equal the per-field rule applied in order; no master is an error |
| ConflictMerge.RuleHolds | sync-rxdb/conflict-handler.js:48-57 | the decision table in full, for any field that is not reserved: one side's edit alone stands, agreement stands, of two different edits master's stands and the other is recorded with both values unless the field is provenance; without a baseline master stands and every difference is recorded; and the resolution says which of the two it was |
| ConflictMerge.DefaultsMean | sync-rxdb/conflict-handler.js:191-201 | with the shipped options the four protocol fields are always master's and never recorded, the six who-and-when fields merge but are never recorded, and no other field is exempt |
| ConflictMerge.DocumentObeys | sync-rxdb/conflict-handler.js:48-57 | every field of the result is the fork's exactly where the fork alone changed it, else master's |
| ConflictMerge.ClashesObey | sync-rxdb/conflict-handler.js:48-57 | one record, with both values, per contested field that is neither reserved nor provenance, and no other |
| ConflictMerge.SilentLossExactly | sync-rxdb/conflict-handler.js:93-102 | a fork's edit is lost without a record exactly when the field is reserved, or is provenance the fork did not win |
| ConflictMerge.NoBaseline | sync-rxdb/conflict-handler.js:71-82 | without a baseline the document is master's and every visible difference is recorded |
| ConflictMerge.ResolveAgain | sync-rxdb/conflict-handler.js:270-333 | resolving again against the result changes no field and records the same clashes |
| ConflictMerge.BooleansNeverClash | sync-rxdb/conflict-handler.js:165-168 | with a baseline a field boolean in all three states never clashes |
| ConflictMerge.SilentDelete | sync-rxdb/conflict-handler.js:112-115 | an uncontested delete and master's edit both land, with nothing recorded |
| ConflictMerge.FirstChangerWins | sync-rxdb/conflict-handler.js:48-57 | folding any list of forks leaves each field with its first editor's value |
| ConflictMerge.NoEditLost | sync-rxdb/conflict-handler.js:27-29 | each fork edit of an ordinary field is in the final document or was recorded with the value that beat it, never both |
| ConflictMerge.OrderIrrelevant | sync-rxdb/conflict-handler.js:27-29 | where forks do not edit a field differently, the order of pushes does not matter to it |
| ConflictMerge.AgreementRecordsNothing | sync-rxdb/conflict-handler.js:48-57 | and no record is made for it |
| ConflictMerge.WinnerOf | sync-rxdb/conflict-handler.js:204-208 | of answered_by, rejected_by and updated_by the first that master has of its own decides, with its own timestamp; a missing value is null, and with none both are |
| ScopeFilter.ParsesBack | sync-rxdb/client.js:1049-1064 | a printed tree, followed by anything, parses back to itself and stops there, whatever its string values hold |
| ScopeFilter.SerializeInjective | sync-rxdb/client.js:1053-1064 | different trees never print alike |
| ScopeFilter.ApplyScopeMeans | sync-rxdb/client.js:1067-1088 | the query built selects, among the rows already selected, exactly those the tree denotes; a top-level or goes through its printed form |
| ScopeIdentity.NormalizeAdmits | sync-rxdb/client.js:681-766 | an admitted scope holds only whitelisted ids and floors and a list scope is bounded; normalising again changes nothing |
| ScopeIdentity.NormalExactly | sync-rxdb/client.js:681-766 | a whitelisted scope, bounded and with a readable floor if it is a list, normalises to itself, and no other scope does |
| ScopeIdentity.NormalizeKeeps | sync-rxdb/client.js:681-766 | every field of an admitted scope is the field given; its ids are the non-empty strings given, in order |
| ScopeIdentity.RefusedFor | sync-rxdb/client.js:681-766 | each refusal names a field that really is wrong, and the fields the source looks at before it are not |
| ScopeIdentity.DateShapeExactly | sync-rxdb/client.js:587-587 | the date floor's recogniser admits exactly YYYY-MM-DD, alone or with T, hh:mm:ss, one to six decimals or none and a zone or none, position by position |
| ScopeIdentity.DateChars | sync-rxdb/client.js:587-587 | an admitted date floor holds no separator or grammar character |
| ScopeIdentity.FilterPrints | sync-rxdb/client.js:800-890 | every known collection has a filter in both modes, and it is printable; an unknown one has none |
| ScopeIdentity.FillSelects | sync-rxdb/client.js:800-835 | the fill scope's rows are exactly the checklist's own, its template, and drafts on its listed fields |
| ScopeIdentity.IdCharCodes | sync-rxdb/client.js:481-481 | an id is spelled with the letters, the digits, the underscore and the hyphen of ASCII, and nothing else |
| ScopeIdentity.ListSelects | sync-rxdb/client.js:849-890 | a list scope's rows are exactly the assigned templates, their checklists at or above the date floor, and the responses and rejections at or above it |
| ScopeIdentity.PullPassesLive | sync-rxdb/client.js:952-970 | every row in the pull scope passes the live clause when there is one |
| ScopeIdentity.LiveExactly | sync-rxdb/client.js:952-970 | the rows each live clause admits, exactly; responses have no clause in either mode, every other known collection has one |
| ScopeIdentity.FingerprintInputInjective | sync-rxdb/client.js:1127-1159 | equal fingerprint inputs mean the same mode, user, open checklist and filter |
| ScopeIdentity.ScopeKeyExact | sync-rxdb/bootstrap.js:292-297 | two scopes share a registry key if and only if they are equal up to the order of their ids |
| Text.AtMostExactly | sync-rxdb/bootstrap.js:292-297 | the order ids and chips are sorted by: a prefix first, else the first code unit that differs |
| ScopeRegistry.OneOpenPerKey | sync-rxdb/bootstrap.js:357-406 | if no handle is cancelled twice, any interleaving keeps at most one uncancelled open per key, and the registry holds the open ones |
| ScopeRegistry.StepKeepsExactly | sync-rxdb/bootstrap.js:386-404 | the only step that breaks this is a repeated cancel while the key belongs to another active handle, and it always does |
| ScopeRegistry.EvictKeeps | sync-rxdb/bootstrap.js:402-404 | a failed open removes its own entry and no other |
| ScopeRegistry.SoundThroughoutExactly | sync-rxdb/bootstrap.js:357-406 | over any run the registry holds every active open throughout if and only if no such cancel occurs in it |
| ScopeRegistry.RivalsExactly | sync-rxdb/bootstrap.js:386-389 | after a cancel the next open of the key is a rival of an active one if and only if it was such a cancel |
| ScopeRegistry.DoubleCancelRivals | sync-rxdb/bootstrap.js:386-389 | the failing input: cancelling one handle twice around a re-open, then opening again |
| ScopeRegistry.OneDatabaseEver | sync-rxdb/bootstrap.js:299-334 | at most one database is ever open or being created; a failed one is evicted, not kept |
| ScopeRegistry.RetryAfterDatabaseFails | sync-rxdb/bootstrap.js:315-334 | while a failed database promise is memoised its own eviction alone clears it, and the next open after that creates a new database |
| ScopeRegistry.RetryAfterOpenFails | sync-rxdb/bootstrap.js:395-404 | once a failed open is evicted the next open of its key starts a new one, and no other entry moves |
| ScopeRegistry.SyncScopes.OpenSyncScope | sync-rxdb/bootstrap.js:357-406 | refuses the flag, the client and a scope that does not normalise, in this order, without touching state; otherwise joins the registered handle or registers one new handle before any wait |
| ScopeRegistry.SyncScopes.DatabaseFailed | sync-rxdb/bootstrap.js:328-330 | clears the memo only if it still holds the failed promise |
| ScopeRegistry.SyncScopes.OpenFailed | sync-rxdb/bootstrap.js:402-404 | evicts only if still registered |
| ScopeRegistry.SyncScopes.Cancel | sync-rxdb/bootstrap.js:386-389 | deletes the key's entry, whoever holds it |
| Sha256.Sha256Bytes | marketing/sync/sha256.js:30-70 | for every array with length + 72 below 2^31 the output is the digest of section 6.2 of FIPS 180-4 |
| Sha256.Padded | marketing/sync/sha256.js:31-38 | the buffer is the padding of section 5.1.1 of FIPS 180-4 |
| Sha256.PadLenExactly | marketing/sync/sha256.js:32-32 | the shifts give the padded length if and only if length + 72 has no sign bit |
| Sha256.PaddingIsLeast | marketing/sync/sha256.js:32-32 | the zero run is the shortest allowed, the padded length the least multiple of 64 that holds message, marker and length |
| Sha256.PaddingUndone | marketing/sync/sha256.js:31-38 | padding can be undone |
| Sha256.Expand | marketing/sync/sha256.js:45-50 | the in-place loop fills the block's message schedule |
| Sha256.CompressBlock | marketing/sync/sha256.js:51-63 | the 64 rounds over eight variables equal the round function applied 64 times, added to the running hash |
| Sha256.RoundSum | marketing/sync/sha256.js:53-55 | the sum with two signed summands, truncated once, is the word sum, and stays below 2^53 |
| Sha256.ScheduleSum | marketing/sync/sha256.js:47-49 | the same for the schedule's sum |
| Sha256.ConstantsAreRoots | marketing/sync/sha256.js:16-25 | the round constants and initial value are the fractional bits of the cube and square roots the standard names |
| Sha256.HexIsInjective | marketing/sync/sha256.js:72-73 | two hex digits a byte: different digests never print alike |
| JsWords.JsRotrIsRotr | marketing/sync/sha256.js:27-27 | the signed result of the two shifts stands for the rotated word |
| JsWords.RotationMovesBits | marketing/sync/sha256.js:27-27 | bit i of the rotated word is bit i + n, taken around |
| JsWords.BitOfBitwise | marketing/sync/sha256.js:54-57 | the bitwise operators act on each bit |
| ConflictSheet.MemoryStore.Upsert | sync-rxdb/conflict-notice.js:758-763 | replaces the first row with the record's id where it stands, or appends the record, and changes nothing else; ids stay distinct |
| ConflictSheet.MemoryStore.Sweep | sync-rxdb/conflict-notice.js:818-829 | leaves the records whose id a record in retention carries, and returns how many rows went; with distinct ids these are the records whose stamp is unreadable or not older than the window, in order |
| ConflictSheet.SweepLeavesRetained | sync-rxdb/conflict-notice.js:410-420 | with distinct ids what a sweep leaves, what the sheet is built from, and the records with an unreadable stamp or one at or above now less the days are the same list |
| ConflictSheet.GroupByDoc | sync-rxdb/conflict-notice.js:439-444 | the loops give one group per document in order of first appearance |
| ConflictSheet.GroupsAreDocuments | sync-rxdb/conflict-notice.js:439-444 | groups have distinct documents and hold only their own records |
| ConflictSheet.TotalsMean | sync-rxdb/conflict-notice.js:488-501 | the totals counted over the rows flattened out of the sorted groups are counts of the retained records, and the checklists their documents, whatever the sorts do |
| ConflictSheet.SheetMeans | sync-rxdb/conflict-notice.js:488-501 | the totals in the records' own fields: of those in the window, answers have a discarded value and unidentified ones have none, handled are restored or kept, still the other answers, checklists the distinct document ids, else submission ids, else record ids |
| ConflictSheet.BatchesMean | sync-rxdb/conflict-notice.js:271-273 | the batches of all groups together restore the open answers whose field still exists; what is still to review exceeds that by the removed fields' open answers |
| ConflictSheet.CollapsedMeans | sync-rxdb/conflict-notice.js:510-515 | the sheet is folded exactly when its records are of several documents or more than two |
| ConflictSheet.SheetConserves | sync-rxdb/conflict-notice.js:488-511 | shown rows and hidden answers add up to the retained records, shown and hidden groups to the checklists, still and handled to the answers, answers and unidentified to the retained records |
| ConflictSheet.CapKeepsNewest | sync-rxdb/conflict-notice.js:480-511 | the cap hides no group newer than one it shows; the shown ones are drawn oldest first, and so are the rows of each |
| ConflictSheet.HeadlineStable | sync-rxdb/conflict-notice.js:488-501 | restore, keep and undo, and any re-sorting, never change the sheet's headline, its unidentified count, its checklists or still plus handled |
| ConflictSheet.ShortForms | sync-rxdb/conflict-notice.js:521-527 | an id of at most twelve characters is its own chip; a longer one loses a leading sub- or sub_, in any case, and its hyphens, and keeps six characters |
| ConflictSheet.AssignDocChips | sync-rxdb/conflict-notice.js:550-571 | each document's chip is a function of the set of documents alone, so it does not move when the sheet is re-ordered |
| ConflictSheet.ChipsDistinctExactly | sync-rxdb/conflict-notice.js:529-548 | all chips of a sheet are distinct if and only if no short id spells s, the dot and an ordinal n where at least n documents have the short id s |
| ConflictSheet.ChipsDistinct | sync-rxdb/conflict-notice.js:529-548 | so documents whose ids hold no dot get distinct chips |
| ConflictSheet.DottedIdCollides | sync-rxdb/conflict-notice.js:523-527 | the failing input: two long ids that share six characters, and the short id spelling the second one's chip |

## Left out

- RxDB, Dexie, XState, PostgREST and the network are steps or function parameters; their own code is not part of this model.
- URL and percent encoding of pull requests: the query is a tree, and a timestamp or uuid is the number it denotes.
- Sha256.Sha256Bytes: says nothing for arrays of length 2^31 - 72 or more, where the padded length turns negative; Sha256.PadLenExactly gives the boundary.
- SubmitFlow.FlowPage.DoOverrideWrite: the enqueue always succeeds; a local write that throws is shown on the page and leaves no record. The business date is a value the clock supplies, and face values are integers.
- The submit request itself and its timeout: a verdict may arrive at any time, and the machine alone decides what it changes.
- PullCompleteness.HeldInTrueWindow: says nothing of pulls made before the first capture, whose window the device clock alone decides.
- ConflictSheet.TotalsMean: the three sorts are any rearrangements, and in ConflictSheet.CapKeepsNewest any that order by a rank, because `localeCompare` is not modelled.
- makeSerializedEnqueue's promise chain is a queue of calls per code whose head alone runs, not a map of promise tails.
- The token hasher's cache and its hit counters: correctness does not depend on a hit.
- The QR payload parsing in front of the resolver.
- Which rows RxDB puts in a batch: by last write, so after a reload a row whose outcome was persisted may come later than it was inserted; `HeadOfLine` works the queue in insertion order.
- Date parsing: an unreadable date is a value of its own, and `Date.parse` on a date floor is a parameter.
- Documents are their own keys: a field named like a member of `Object.prototype` is not modelled.
- The two 32-bit hashes of the fingerprint: no claim that different inputs hash differently.
- The realtime filter registry and shim, rendering, camera, snapshot label lookup and value formatting: easy members or page code.
- Go backend, service worker, build scripts and the catch-up driver.
