# SonicBoom: verified models of the server's protocols

SonicBoom is a text-to-speech server. Its speech models are opaque, but the code around them holds
several small protocols and algorithms with hard properties. This project models those in Dafny and
proves the properties over all inputs, all runs and all interleavings. `dafny verify dfyconfig.toml`
checks everything.

| file | what it models |
|---|---|
| `Jobs.dfy` | the synthesis-job protocol: two locked tables, a byte counter, one background task per job; every lock section is one step that may take time |
| `JobInvariant.dfy` | what every step and every run of that protocol keeps |
| `JobTheorems.dfy` | life of a job, completion, cancellation, downloads, playback |
| `JobKeys.dfy` | idempotency keys, and where every answer comes from |
| `JobRequests.dfy` | from a request to its answer: what an admission promises, in the request's own terms |
| `JobTable.dfy` | the lock sections as methods that update the tables in place, each proved to be a step of `Jobs` |
| `Gate.dfy` | the inference gate: two counting semaphores whose permits move between requests, leases and blocking tasks |
| `RateLimit.dfy` | the token-bucket limiter over a bounded map that evicts full buckets |
| `VoiceCache.dfy` | the decoded-reference deque against a recency-ordered reference cache |
| `OverEviction.dfy` | what a publish evicts beyond need |
| `VoiceLookup.dfy` | the staged reference lookup, interleaved with deletion, replacement and other lookups; the world holds the reference files and every directory's manifest |
| `VoiceRuns.dfy` | what lookups answer and why they are refused, told by the manifests on disk |
| `TokenStore.dfy` | the transactional token store over a disk whose write or rename may fail |
| `EditDistance.dfy` | the rolling-row edit distance of the transcript scorer, against all edit scripts |
| `Lockout.dfy` | the login lockout tracker under interleaved logins, against a fold over one address's own calls |
| `LockoutRuns.dfy` | what locks an address, what a login answers, and how long a lock stands, over whole runs |
| `MergeJson.dfy` | the recursive configuration merge |
| `Sums.dfy`, `Common.dfy` | sums over finite maps; optional values, machine-word arithmetic |

How the imperative parts are modelled: a structure the program updates in place is a class whose methods
are proved against a transition function or relation, and the theorems are about runs of that function or
relation. A method that suspends (`InferenceGate.RunBounded`) lets every other owner act at each await, and
may be dropped there.

## What the proofs found

- **A retry finds its job already reaped only once its window has ended.** The source documents that a
  record whose job is gone is forgotten (src/api/jobs.rs:601-604). A lookup whose two sections run without
  another section in between never meets that case (`JobKeys.AtomicLookupNeverForgets`). The idempotency lock
  does not stop the reaper, though, so the case arises exactly when the job is reaped while the lookup waits for
  the entries, which needs the record's window to have ended meanwhile (`JobKeys.ForgetMeansReaped`);
  `JobKeys.ForgetIsReachable` is such a run.
- **A reference file that does not exist at either stamp reading is still served** when it exists in between,
  because two missing stamps compare equal (src/api/voices.rs:494, src/api/voices.rs:518-523). So "a stamp the
  lookup has read vouches for the answer" is false of such runs (`VoiceLookup.VanishedFileIsStillServed`); it
  holds if and only if the profile's file exists in the answering section (`VoiceLookup.StampVouchesExactly`).
  Either way the answer is the decoding of bytes the file held while the lookup was in progress
  (`VoiceLookup.Coherence`).
- **Publishing can evict references needlessly, even all of them.** The eviction loop runs before the old entry
  of the same key is removed (src/api/voices.rs:275-288), so that entry still counts. Replacing a 32 MiB
  reference drops two others of 16 MiB although all three fit (`OverEviction.NeedlessEviction`), and in general
  up to fifteen others (`OverEviction.RepublishDropsEverything`). A publish evicts exactly what the budgets need
  if and only if no run of most recent entries, starting with another key's, has room without the old entry but
  not with it (`OverEviction.EvictionIsNeededExactly`).
- **The merge is not associative** (`MergeJson.MergeIsNotAssociative`): an object patch after a scalar patch
  clears fields that the merged patches would keep. Two patches in a row act as their merge on every base
  exactly when the later one refines the earlier one: wherever it has an object, the earlier one has an object
  or nothing (`MergeJson.MergeAssociatesExactly`).
- **A slow login can lift a lock.** The login handler releases the lock between the guard and the record, so a
  failure that passed the guard may land on a locked address. Inside the window it prolongs the lock; once the
  ten-minute window is over it resets the count and the address is open again:
  `LockoutRuns.LateFailureUnlocks` is such a run of the program. Over every interleaving, `is_locked` says yes
  until the lock's time if and only if no success of that address and no failure after its window comes before
  that time (`LockoutRuns.LockHoldsExactly`). Logins of one address made in turn never disturb its lock
  (`LockoutRuns.LockLasts`).

- **A deletion that cannot be saved still takes effect in memory.** `delete` removes the profile before it writes
  the manifest and does not put it back (src/tts/voices.rs:291-300), unlike `create`. The store in memory is then
  not the manifest's, under the same stamp, until a section reads or writes a manifest again
  (`VoiceRuns.FailedDeletionIsNotUndone`). After every section that could open its manifest the two agree exactly
  except for such deletions (`VoiceRuns.SectionsSeeTheManifest`), so they are equal if and only if there is none
  (`VoiceRuns.MemoryIsManifestExactly`).
- **Five failures in ten minutes need not lock.** The window starts with the first failure and does not slide:
  failures at 500 to 900 seconds lock nothing when one at zero had opened the window that ended at 600
  (`LockoutRuns.FiveInTenMinutesMayNotLock`). Five inside the window that the first of them opens always lock
  (`LockoutRuns.FiveUnauthorizedLock`).

## Assumptions

- The monotonic clock never runs backwards in lock order; in the limiter, whose clock is read before its lock
  is taken, this is the hypothesis `Ordered`.
- A file stamp identifies the contents of a file and is never reused; reading a file is one atomic event;
  decoding is an arbitrary partial function of the bytes.
- A manifest's stamp likewise identifies its contents and is never reused. Each lock section sees one version of
  the manifest, its stamp and its contents; other processes write manifests only between sections.
- The file of a reference is determined by the store directory and the profile's identifier.
- New job identifiers, token identifiers and token hashes are fresh; identifiers, owners and hashes contain no
  separator, so composite keys are modelled as tuples.
- Configured limits do not change during a run.
- A token-store mutation completes, fails, or ends in a crash; it is not abandoned between its write and its
  swap by a process that keeps running.
- `last_sweep` is only ever locked while the bucket map is locked, so its `try_lock` succeeds.
- Request fingerprints, audio and playback identifiers are opaque values.

## Model

| member | source | states |
|---|---|---|
| JobInvariant.StepKeepsInv | src/api/jobs.rs:195-318 | every lock section, at any clock readings, keeps lifecycle, byte counter, both capacities, agreement of each job with its own task, the idempotency table and the holder of its lock |
| JobInvariant.RunKeepsInv | src/api/jobs.rs:166-318 | the same in every reachable state of every interleaving |
| JobInvariant.CompleteKeepsInv | src/api/jobs.rs:890-984 | the completion section finds its entry and keeps the invariant, whatever the execution returned and whenever the stop flag rises |
| JobInvariant.AdmitKeepsInv | src/api/jobs.rs:813-856 | inserting a job and remembering its key under both locks keeps the invariant, eviction of the oldest record included |
| JobInvariant.ReapSplitsAudio | src/api/jobs.rs:195-203 | the audio a reap keeps and the audio it drops add up to what was there |
| JobInvariant.ReapKeepsCounter | src/api/jobs.rs:195-210 | the clamp in the reaper never changes its result: exactly the freed bytes are subtracted and the counter stays the sum of resident audio |
| JobInvariant.FinishKeepsCounter | src/api/jobs.rs:223-246 | a stored or refused completion leaves the counter exact and within 64 MiB |
| JobInvariant.ReapKeepsTasks | src/api/jobs.rs:195-203 | a reap takes no job that has not finished |
| JobInvariant.ReapKeepsRecords | src/api/jobs.rs:195-203 | a record outlives its job only by lapsing first, since a job never finishes before it was recorded and both use one retention |
| JobInvariant.RememberKeepsRecords | src/api/jobs.rs:255-280 | remembering a key never lets the table exceed 1024 records |
| JobTheorems.EveryStateIsSound | src/api/jobs.rs:195-280 | at every lock release: counter = resident audio <= 64 MiB, job and non-terminal counts within their configured bounds, at most 1024 records, finished iff terminal, audio iff completed, and each record inside its window names a resident job of its owner |
| JobTheorems.EntryNeverVanishes | src/api/jobs.rs:895-917 | the branch for an entry that vanished before completion is unreachable |
| JobTheorems.StepMovesJobs | src/api/jobs.rs:195-203 | a job leaves the table only in a reap, after its retention; only its own completion ends it; a stopped control stays stopped |
| JobTheorems.StepRevivesNothing | src/api/jobs.rs:836-846 | a job that has left the table never returns |
| JobTheorems.TerminalIsForever | src/api/jobs.rs:236-242 | over any run a terminal job keeps stage, finish time and audio, and no job leaves before its retention since finishing |
| JobTheorems.UnfinishedJobsStay | src/api/jobs.rs:195-203 | a job stays, unfinished, until its own completion |
| JobTheorems.WakeReapsItsJob | src/api/jobs.rs:1019-1021 | when a job's own sleep is over, the reap that ends it has removed that job: nothing is retained for good |
| JobTheorems.CompletionIsDecided | src/api/jobs.rs:895-983 | the terminal stage for every way the stop flag may rise during the section: completed exactly when audio was produced, fits in 64 MiB and the second look finds no stop; cancelled exactly when the first look, or after a refusal the third, finds one; failed otherwise; stopped before means cancelled; audio stored iff completed; playback intent `pending` or `skipped` accordingly, and handed over exactly when pending |
| JobTheorems.StoppedJobsStaySilent | src/api/jobs.rs:236-242 | a job stopped (cancelled or past its deadline) before it ended never gains audio, never reaches playback and can only end cancelled, however late its result comes |
| JobTheorems.CancellationLinearises | src/api/jobs.rs:1038-1057 | from the very section in which `cancel` or `cancel_all` stops a non-terminal job, the same holds in every continuation |
| JobTheorems.DownloadsNeverChange | src/api/jobs.rs:1066-1090 | once served, a download is served unchanged to its owner until retention has run out, and is then unknown |
| JobTheorems.PlayedAtMostOnce | src/api/jobs.rs:985-1018 | no job is handed to playback twice in any run |
| JobTheorems.PlaybackIsOfCompletedAudio | src/api/jobs.rs:960-983 | what is handed to playback is the audio with which an earlier completion section completed that job, for a request that asked for it |
| JobRequests.JobKeepsItsRequest | src/api/jobs.rs:836-846 | from its admission to its completion a job waits with its request's owner, deadline, retention and playback wish, and its flag is up exactly if a cancellation or a dropped request has hit it |
| JobRequests.CompletionServesRequest | src/api/jobs.rs:890-984 | in the request's terms: undisturbed and before the deadline it ends completed with the audio produced, if that fits, and failed otherwise; past the deadline, cancelled or dropped it ends cancelled without audio; playback is announced exactly if asked for |
| JobRequests.CompletedOnce | src/api/jobs.rs:236-242 | no job is completed twice |
| JobRequests.InterruptionIsExact | src/api/jobs.rs:307-318 | a cancellation flags exactly the job, or all jobs, that have not ended; a dropped request flags its own in any stage; nothing else of a job changes |
| JobRequests.DeliveryIsExact | src/api/jobs.rs:1066-1090 | other principals are served nothing; the owner gets no audio before the completion, and afterwards exactly the audio completed with, or none, until retention has run out |
| JobRequests.PlaybackIsReported | src/api/jobs.rs:1013-1017 | what the playback queue answered is what the job reports from then on, while it is in the table |
| JobRequests.RejectionIsJustified | src/api/jobs.rs:823-835 | a request is refused only when, with every expired job gone, the table is full or as many jobs are unfinished as the gate can hold |
| JobRequests.CapacityIsKept | src/api/jobs.rs:823-835 | no reachable state holds more jobs, or more unfinished jobs, than configured |
| JobKeys.KeyIsHeld | src/api/jobs.rs:847-855 | from an admission on, its record stays until its retention ends or the cap evicts it |
| JobKeys.OneJobPerKey | src/api/jobs.rs:813-856 | two admissions under one principal and key: the first one's retention had ended, or the cap had evicted its record in between |
| JobKeys.EvictionNeedsFullTable | src/api/jobs.rs:263-271 | the cap evicts only from a table of 1024 records, and only one of the oldest |
| JobKeys.LookupInWindow | src/api/jobs.rs:605-621 | a lookup inside the window reports a conflict exactly when the fingerprints differ, and otherwise goes on to read the job |
| JobKeys.RetryFindsTheFirstJob | src/api/jobs.rs:622-631 | a retry that reaches the job inside the window is answered with the first job |
| JobKeys.FoundMeansAdmitted | src/api/jobs.rs:587-631 | a job returned for a key was admitted earlier for the same principal, key and fingerprint |
| JobKeys.ConflictMeansReuse | src/api/jobs.rs:616-620 | a conflict is reported only to a principal that used the key for another fingerprint |
| JobKeys.NewRequestsProceed | src/api/jobs.rs:605-615 | a request without a key, or under a key that has admitted nothing, goes straight on to its admission |
| JobKeys.ForgetMeansReaped | src/api/jobs.rs:623-630 | a lookup forgets its record exactly when the job is gone; then the window has ended, the job was there, its record inside the window, when this lookup began, and a request that came to be admitted goes on to its admission |
| JobKeys.AtomicLookupNeverForgets | src/api/jobs.rs:595-599 | a lookup whose sections are not interleaved with another step always finds the job |
| JobKeys.ForgetIsReachable | src/api/jobs.rs:623-630 | a concrete run in which an interleaved lookup forgets a record |
| JobTable.JobStore.ReapLocked | src/api/jobs.rs:195-210 | the in-place `retain` with one clock reading per job and a saturating sum is a reap of the protocol, counter included |
| JobTable.JobStore.StoreCompletedAudioLocked | src/api/jobs.rs:223-246 | stores exactly when the cap, the entry and the control allow it; new table and counter |
| JobTable.JobStore.ResolveStage | src/api/jobs.rs:895-959 | the branches up to the terminal stage yield the protocol's outcome, for every way the stop flag may rise in between |
| JobTable.JobStore.CompleteSection | src/api/jobs.rs:890-984 | the whole completion section is one protocol step and returns the audio to be played, if any |
| JobTable.JobStore.ReapIdempotencyLocked | src/api/jobs.rs:249-251 | keeps exactly the records whose own clock reading lies inside their window |
| JobTable.JobStore.RememberIdempotencyLocked | src/api/jobs.rs:255-280 | evicts an oldest record exactly when the table is full, then inserts |
| JobTable.JobStore.LookupSection | src/api/jobs.rs:593-621 | the first half of a lookup is one protocol step, on the fast path and before inserting |
| JobTable.JobStore.ReadFoundSection | src/api/jobs.rs:622-631 | the second half is one protocol step: the owner's job, or the record is forgotten |
| JobTable.JobStore.AdmitSection | src/api/jobs.rs:823-856 | the admission section is an admission or, when a capacity is reached after reaping, a rejection; `JobRequests` says what either means for the request |
| JobTable.JobStore.CancelSection | src/api/jobs.rs:1045-1054 | cancels only a job that has not ended |
| JobTable.JobStore.CancelAllSection | src/api/jobs.rs:307-318 | the loop cancels every job that has not ended and no other |
| JobTable.JobStore.ResolveSection | src/api/jobs.rs:1013-1017 | recording the playback outcome is one protocol step and tolerates a job already reaped |
| JobTable.JobStore.WakeSection | src/api/jobs.rs:1019-1021 | the final reap is one protocol step |
| Gate.SizesAreUsable | src/api/gate.rs:48-61 | any operator input gives at least one slot, no more slots than admissions, and a queue no longer than asked for |
| Gate.ApplyKeepsInv | src/api/gate.rs:88-145 | every reserve, clone, hand-over, drop and end keeps free plus held permits equal to both totals and one owner per admission |
| Gate.GateIsSafe | src/api/gate.rs:47-161 | in every reachable state permits are conserved in both semaphores, owners have distinct admissions, and with all slots taken at most `max_pending` live admissions own none |
| Gate.SlotsAndQueueAreBounded | src/api/gate.rs:70-78 | slots and admissions are never oversubscribed and each slot owner has an admission of its own |
| Gate.TaskRunsUntilItFinishes | src/api/gate.rs:120-136 | whatever requests and leases are dropped, only its own end takes a blocking task's slot |
| Gate.LeaseKeepsAdmission | src/api/jobs.rs:36-42 | a cloned lease keeps its admission taken through everything but its own drop |
| Gate.WaitingRequestsAdvance | src/api/gate.rs:105-136 | in every reachable state a waiting request can be granted a slot at once, or some other owner holds one whose release makes the grant possible |
| Gate.IdleMeansNoHandles | src/api/gate.rs:159-161 | idle exactly when no reservation, request, blocking task or lease is left |
| Gate.InferenceGate.TryReserve | src/api/gate.rs:148-158 | fails exactly when no admission is free, and then changes nothing |
| Gate.InferenceGate.WithAdmission | src/api/jobs.rs:60-78 | inside an admitted scope it leases and reserves nothing; otherwise it reserves exactly one, or fails exactly when none is free |
| Gate.InferenceGate.RunBounded | src/api/gate.rs:88-145 | terminates; the work runs exactly when its worker's first look finds the control neither cancelled nor expired, and only in a blocking task that owns its slot; nothing but a stop, a panic, a drop or saturation keeps a request from its result; a request gives up in the queue only because it found the control stopped; dropping it cancels the work and never takes the worker's slot, which is held exactly until the worker ends by itself; every other outcome has waited for that |
| RateLimit.WithBurst | src/api/rate_limit.rs:72-95 | window of at least a second, capacity and served limit equal to the burst or, if zero, to the budget, rate times window equal to the budget, 100,000 keys |
| RateLimit.RateLimiter.Check | src/api/rate_limit.rs:117-177 | the method, both sweeps included, computes the transition the theorems are about |
| RateLimit.RefillComposes | src/api/rate_limit.rs:188-195 | refilling at t1 and then t2 equals refilling once at t2 |
| RateLimit.RetainKeepsLevels | src/api/rate_limit.rs:130-133 | a sweep changes no key's level: an evicted bucket is exactly a full one |
| RateLimit.FailsClosedExactly | src/api/rate_limit.rs:136-151 | the fail-closed branch is taken exactly when `max_keys` keys are below capacity and the key is not among them, whenever sweeps ran |
| RateLimit.CheckByLevel | src/api/rate_limit.rs:117-177 | a decision is a function of the key's level alone, or the fixed answer of the fail-closed branch, and moves no other key's level |
| RateLimit.SweepsWhenDue | src/api/rate_limit.rs:122-143 | from half capacity on a sweep comes once a minute, or once a window if shorter, and at full capacity always; it leaves no full bucket but the checked key's, and without one no key is dropped |
| RateLimit.AgreeForever | src/api/rate_limit.rs:117-177 | two limiters that agree on all levels answer alike for ever, one evicting and one not |
| RateLimit.EvictionIsLossless | src/api/rate_limit.rs:117-177 | over any run with an ordered clock, every field of every decision equals that of a limiter that never evicts, fed the checks not rejected by the fail-closed branch |
| RateLimit.DisabledAllowsEverything | src/api/rate_limit.rs:106-120 | with a budget of zero, which the other theorems exclude, every check of every run is allowed, with the fixed fields of an unlimited answer, and nothing is stored |
| RateLimit.Conservation | src/api/rate_limit.rs:152-177 | tokens spent plus tokens left never exceed the start plus the refill, across evictions and re-insertions |
| RateLimit.BurstBound | src/api/rate_limit.rs:72-177 | after any past, any interval allows a key at most capacity plus rate times its length; the map never exceeds 100,000 keys |
| RateLimit.SecsUntilIsLeast | src/api/rate_limit.rs:198-203 | the least whole number of seconds that brings the balance to the target |
| RateLimit.RetryIsExact | src/api/rate_limit.rs:168-176 | whatever other keys do meanwhile, a retry after n seconds is allowed exactly when n >= `retry_after_secs` (unless the map is then full), the bucket is full exactly when n >= `reset_secs`, and the latter is never smaller |
| RateLimit.RemainingIsExact | src/api/rate_limit.rs:157-166 | after an acceptance exactly `remaining` further checks at that instant succeed, however other keys' checks interleave |
| VoiceCache.EvictsShortestPrefix | src/api/voices.rs:275-286 | the loop removes the shortest least-recently-used prefix that makes both budgets fit, or everything when nothing can |
| VoiceCache.EvictionLeavesSurvivors | src/api/voices.rs:275-286 | what is left is the largest recency-closed set of slots that leaves room |
| VoiceCache.ProbeRefines | src/api/voices.rs:259-268 | a probe answers as the recency-ordered map and leaves it in the same state |
| VoiceCache.PublishRefines | src/api/voices.rs:273-292 | a publish is a publish of that map |
| VoiceCache.PurgeLists | src/api/voices.rs:1075-1081 | a purge drops exactly the slots of one profile |
| VoiceCache.PublishKeepsBudget | src/api/voices.rs:273-292 | unique keys, at most 16 entries, at most 64 MiB; an oversized reference is not stored |
| VoiceCache.CacheIsRecencyCache | src/api/voices.rs:259-292 | after any sequence of probes, publishes, purges and clears, answers and contents are those of the recency cache, within both budgets |
| OverEviction.NeedlessEviction | src/api/voices.rs:273-292 | a concrete publish that drops two references although all three fit |
| OverEviction.RepublishDropsEverything | src/api/voices.rs:273-292 | replacing an entry of half the byte budget drops every other entry, up to fifteen that all fit |
| OverEviction.EvictionIsNeededExactly | src/api/voices.rs:275-288 | for every deque: a publish evicts only what the budgets need exactly when the old entry of its key is in the way of no run of recent entries |
| OverEviction.LastEvictedDecides | src/api/voices.rs:275-288 | the same told from the result: nothing but the old entry went, or the entry evicted last would not fit beside the survivors |
| VoiceLookup.CachedVoices.Probe | src/api/voices.rs:259-268 | the in-place probe is the transition used above |
| VoiceLookup.CachedVoices.Publish | src/api/voices.rs:273-292 | the eviction loop and insertion are the transition used above |
| VoiceLookup.CachedVoices.EnsureResidentStore | src/api/voices.rs:298-310 | a new directory or manifest stamp replaces the store and empties the cache; a failed reload changes nothing; `VoiceRuns.SectionsSeeTheManifest` says what the store then is |
| VoiceLookup.CachedVoices.AuthorizeSection | src/api/voices.rs:395-428 | the first section yields a profile only to its owner |
| VoiceLookup.CachedVoices.Stage1Section | src/api/voices.rs:438-471 | re-authorise, then probe |
| VoiceLookup.CachedVoices.Stage3Section | src/api/voices.rs:500-533 | re-authorise, compare stamps, probe again, then publish |
| VoiceLookup.StepKeepsInv | src/api/voices.rs:416-537 | every stage and every outside change keeps each cached entry and each lookup in progress coherent with the stamps they carry |
| VoiceLookup.AnswerIsCoherent | src/api/voices.rs:500-536 | the section that answers has the profile resident and, if the file exists, returns the decoding of its bytes at that moment |
| VoiceLookup.Coherence | src/api/voices.rs:416-537 | in every interleaving an answer comes from one section in which id, owner and reference hash were resident in one directory's store, and is the decoding of bytes that store's file held while the lookup was in progress, directory changes included |
| VoiceLookup.StampVouchesExactly | src/api/voices.rs:456-533 | in the answering section some stamp that the lookup has read identifies contents decoding to the answer if and only if the file of the resident profile then exists |
| VoiceLookup.AnswerBelongsToCaller | src/api/voices.rs:421-428 | a lookup answers only for the owner that asked |
| VoiceLookup.PurgeIsFinal | src/api/voices.rs:1075-1081 | after a purge, while the profile stays out of the resident store, no lookup however late puts its audio back |
| VoiceLookup.VanishedFileIsStillServed | src/api/voices.rs:494-498 | a concrete run in which no stamp vouches for the answer |
| VoiceRuns.SectionsSeeTheManifest | src/api/voices.rs:298-310 | in every run, a lock section leaves directory, stamp and profiles as its directory's manifest on disk then has them, without the profiles whose deletion stands unsaved; or it changes nothing because the manifest must be read and cannot be |
| VoiceRuns.MemoryIsManifestExactly | src/tts/voices.rs:291-300 | after a section that could open its manifest, the store in memory is the manifest's if and only if no deletion stands unsaved |
| VoiceRuns.FailedDeletionIsNotUndone | src/tts/voices.rs:291-300 | a run in which a deletion that cannot be saved leaves a registered profile out of memory |
| VoiceRuns.AnswersAreRegistered | src/api/voices.rs:316-330 | an answer is for a profile that the manifest of the answering section's directory holds at that moment, with the same owner and reference hash, and without an unsaved deletion; it decodes that directory's file if there is one |
| VoiceRuns.RefusalIsExact | src/api/voices.rs:416-537 | at each of its steps a lookup ends with an error exactly when that error's reason is there: the manifest unreadable, the profile not registered, owned or unchanged there, the file missing, over 16 MiB, undecodable, or its stamp changed |
| VoiceRuns.UndisturbedLookupAnswers | src/api/voices.rs:416-537 | a lookup whose profile stays registered to its caller and whose file stays one decodable version within 16 MiB is never refused and answers with the decoding of that file |
| VoiceRuns.HitsAreExact | src/api/voices.rs:455-471 | stage 1 answers exactly when the cache still belongs to the present manifest and holds an entry for id, owner and hash under the file's present stamp |
| VoiceRuns.AnswersAreCached | src/api/voices.rs:273-292 | whatever has been answered and fits the cache is cached under the stamp that its file has in the answering section |
| VoiceRuns.ReloadDropsEntries | src/api/voices.rs:298-310 | a section that reads the manifest anew keeps no entry; only its own lookup's may follow |
| TokenStore.LoadReadsBack | src/auth/store.rs:24-57 | a list loads as a map exactly when it enumerates it and the map is well formed, whatever the order |
| TokenStore.LoadedIsWellFormed | src/auth/store.rs:173-188 | whatever loads has valid records, unique identifiers and unique hashes |
| TokenStore.TokenStore.LoadFrom | src/auth/store.rs:24-57 | a missing file is initialised, every other failure is that error, and success is the file's own contents |
| TokenStore.TokenStore.Persist | src/auth/store.rs:139-154 | a failed write or rename leaves the file untouched; success leaves one that loads back as the map |
| TokenStore.TokenStore.Create | src/auth/store.rs:99-108 | adds the token in memory and on disk, or changes neither |
| TokenStore.TokenStore.Revoke | src/auth/store.rs:110-124 | unknown identifier, revoked on both sides, or failed and unchanged |
| TokenStore.TokenStore.Validate | src/auth/store.rs:69-84 | the full scan agrees with a keyed lookup; `TokenStore.AcceptanceIsExact` says when that accepts |
| TokenStore.StepKeepsMemoryOnDisk | src/auth/store.rs:99-154 | any mutation, failure, restart or crash leaves memory equal to what a load would read, with the change applied entirely or not at all |
| TokenStore.MemoryAlwaysEqualsDisk | src/auth/store.rs:99-154 | the same after any run, and a restart always succeeds |
| TokenStore.RevocationIsPermanent | src/auth/store.rs:110-124 | a revoked token is rejected at every time in every later state, through restarts and crashes |
| TokenStore.OtherTokensKeepTheirOutcome | src/auth/store.rs:69-84 | no mutation changes the outcome for a token it does not concern |
| TokenStore.AcceptanceIsExact | src/auth/token.rs:32-40 | after a saved creation, in every later state and through failures, restarts and crashes, the token's hash is accepted at a moment exactly when no successful revocation of its identifier has come and the token never expires or the moment is before its expiry |
| TokenStore.OnlyStoredTokensAreAccepted | src/auth/store.rs:69-84 | whatever is accepted is the hash of an unrevoked, unexpired record in the file |
| TokenStore.FirstBadRecord | src/auth/store.rs:29-46 | a list that does not load is refused at its first bad record, under its identifier: invalid, else a repeated identifier, else a repeated hash |
| TokenStore.HexDigestsLoad | src/auth/store.rs:173-188 | a record with an identifier of one to 128 plain characters loads exactly when its hash is 64 lower-case hexadecimal digits |
| EditDistance.Edits | benchmarks/tts-quality/score_asr.py:20-37 | the two rolling rows compute the last entry of the full table |
| EditDistance.Cheapest | benchmarks/tts-quality/score_asr.py:30-35 | a minimum of the three candidates; ties go to substitution, then deletion, then insertion |
| EditDistance.TableIsLowerBound | benchmarks/tts-quality/score_asr.py:26-35 | no edit script is cheaper, although a match never looks at its two other neighbours |
| EditDistance.TableIsRealised | benchmarks/tts-quality/score_asr.py:29-35 | one script has exactly the table's counts |
| EditDistance.EditsIsOptimal | benchmarks/tts-quality/score_asr.py:20-37 | the cost is the minimum over all scripts, its counts belong to a script attaining it, cost = S + D + I and I - D = difference of lengths |
| EditDistance.ReviewExactlyWhenDifferent | benchmarks/tts-quality/score_asr.py:80-80 | the word cost is positive exactly when the transcripts differ |
| Lockout.LoginAttemptTracker.IsLocked | src/admin/lockout.rs:26-48 | the answer and the lazy expiry of the address's own record |
| Lockout.LoginAttemptTracker.RecordFailure | src/admin/lockout.rs:50-78 | eviction of expired records, of one oldest record under pressure, and the new count, window and lock |
| Lockout.LoginAttemptTracker.PostLogin | src/admin/handlers.rs:44-91 | refused exactly when the guard finds a lock; a sign-in, for right credentials, records a success last and leaves the address untracked; a rejection, for wrong ones, records a failure last and leaves it tracked; calls of concurrent logins may come in between |
| Lockout.FailureKeepsBound | src/admin/lockout.rs:53-62 | at most 10,000 addresses are tracked |
| Lockout.CallsFollowHistory | src/admin/lockout.rs:26-91 | over every interleaving of the calls of concurrent logins, `is_locked` answers a fold over that address's own calls, whatever other addresses do |
| Lockout.CallsAreBounded | src/admin/lockout.rs:53-62 | at most 10,000 addresses under every interleaving |
| Lockout.GuardForgets | src/admin/lockout.rs:26-48 | a guard drops its address's record exactly when its lock or its ten minutes are over, and says yes exactly while a lock stands |
| Lockout.FailureForgets | src/admin/lockout.rs:50-62 | a failure drops exactly the records of others whose lock or window is over, and the displaced one |
| Lockout.DisplacedOnlyWhenFull | src/admin/lockout.rs:53-62 | in every run a record is displaced only by a new address while 10,000 records are live, and none of those has an older window |
| LockoutRuns.LoginsFollowHistory | src/admin/handlers.rs:55-90 | over every interleaving, each login's response is the one its address's own earlier calls and its credentials say |
| LockoutRuns.HistoryIsFold | src/admin/lockout.rs:26-48 | guards and the calls of other addresses never change what an address's successes and failures say |
| LockoutRuns.FiveFailuresLock | src/admin/lockout.rs:69-77 | failures inside one window opened by the first, with any guards and other addresses' calls in between, lock the address exactly when they reach five, until fifteen minutes after the fifth |
| LockoutRuns.FiveUnauthorizedLock | src/admin/handlers.rs:55-90 | five logins of an address answered Unauthorized inside the window that the first of them opens lock it: over every interleaving the next is answered TooManyRequests until fifteen minutes after the fifth, unless a sign-in or a failure past the window comes first; fewer lock nothing |
| LockoutRuns.SignInClears | src/admin/handlers.rs:78-84 | after a sign-in the address is let in again, whatever came before, and its next failure opens a new window |
| LockoutRuns.FirstRecordOpensWindow | src/admin/lockout.rs:63-73 | the first record an address ever makes opens its window |
| LockoutRuns.LateRecordOpensWindow | src/admin/lockout.rs:63-73 | and so does one made fifteen minutes after the last before it |
| LockoutRuns.FiveInTenMinutesMayNotLock | src/admin/lockout.rs:69-77 | a run with five failures inside 400 seconds and no lock, because an earlier failure had opened the window |
| LockoutRuns.LockIsRecent | src/admin/lockout.rs:75-77 | over every interleaving a lock ends at most fifteen minutes after the latest call |
| LockoutRuns.LockHoldsExactly | src/admin/lockout.rs:26-83 | over every interleaving, `is_locked` answers yes at every moment until a lock's time if and only if no success of the address, and no failure of it after the end of its window, comes before that time |
| LockoutRuns.LateFailureUnlocks | src/admin/lockout.rs:69-73 | a run of the program: six guards find the address open at zero, five failures lock it until 900, the sixth login fails at 700; `is_locked` says yes at 700 before that call and no after it |
| LockoutRuns.LockLasts | src/admin/handlers.rs:55-90 | if each record of an address follows its own guard directly among that address's calls, its lock is neither lifted nor prolonged: `is_locked` says yes exactly until its time |
| MergeJson.MergeInto | src/api/config_api.rs:229-241 | the in-place recursion, in any field order, computes the merge |
| MergeJson.PathLaw | src/api/config_api.rs:229-241 | a path reads the patch where the patch reaches something not mergeable, the base below a key the patch lacks, and the union where both are objects |
| MergeJson.PathLawIsTotal | src/config/effective.rs:87-97 | the three cases cover every path |
| MergeJson.MergeIsIdempotent | src/api/config_api.rs:229-241 | merging the same patch twice equals merging it once |
| MergeJson.MergeIsNotAssociative | src/api/config_api.rs:229-241 | a scalar patch and then an object patch differ from their merge |
| MergeJson.MergeAssociatesExactly | src/api/config_api.rs:229-241 | two patches in a row equal their merge on every base exactly when the later one has objects only where the earlier one has objects or nothing |

## Left out

- HTTP routing, serialization, server-sent events, tracing, command line, desktop and web front ends: plumbing without hard state.
- Model inference, audio decoding and resampling: decoding is an arbitrary function, an execution returns any result.
- Text normalization, segmentation, the fingerprint string and the playback queue itself: opaque values.
- Progress fields of a job's status (frames, timings, quality, context): they decide nothing here.
- `f64` rounding and saturating casts in the limiter: balances are exact reals, so the theorems are about the arithmetic the code means.
- RateLimit.RetryIsExact: does not say when a retry is allowed while the map is full of other busy keys, because the fail-closed branch then answers instead of the bucket; `RateLimit.FailsClosedExactly` says when that is.
- Lockout.CallsFollowHistory, LockoutRuns.LockHoldsExactly: leave out an address whose own record is dropped under capacity pressure, because the program then forgets its failures.
- JobTable.JobStore.CompleteSection: has no branch for a vanished entry, which `JobTheorems.EntryNeverVanishes` shows to be dead; `Jobs.CompleteStep` keeps it.
- Fairness of the semaphores and promptness of awaits: `Gate.WaitingRequestsAdvance` says that a slot can be had, not who gets it first, and an await may take any time.
- Replacing the gate or the limiter when configuration is reloaded (src/runtime/subsystems.rs).
- The lock file between processes (src/api/voices.rs:363-394) and its two-second limit: waiting for it may fail a lookup as any I/O error may.
- Ownership checks of `cancel` (src/api/jobs.rs:1044): any caller may cancel in the model, which only adds behaviour.
- The directory sync after a rename: a rename is durable once it has happened.
- Sessions, cross-site tokens, password comparison and hashing: credentials match or they do not, and hashes are values.
