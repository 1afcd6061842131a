# Verified models of CapybaraGram's archives, tunnel control and numeric kernels

CapybaraGram adds local, encrypted message archives and a local tunnel to Telegram clients.  This project models the
parts of it that carry state across threads, failures and process deaths, and proves what they promise.  Each module
is one component:

- `EditDistance`: the two-row edit distance, once as the Python program writes it and once as the Java program does,
  proved to be the length of a shortest script and therefore a metric.
- `SnapshotCodec`, `CatalogCodec`: the two binary formats of the Windows archive, inverse both ways.
- `ArchiveDisk`, `ArchiveBytes`, `ArchiveVault`, `ArchiveStore`, `ArchiveCrash`: the Windows archive store over a
  key/value vault.  `ArchiveStore` is the program, over a vault whose every call may fail and which remembers each disk
  it has been; `ArchiveBytes` ties what it counts to the bytes a disk really holds; `ArchiveCrash` turns the history
  into statements about interruptions at any point and over any number of sessions.
- `ArchiveWorker`, `ArchiveClearing`, `ArchiveForgetting`, `ArchiveWorkerProgram`: the worker behind the Windows archive
  as a protocol between the UI thread and one worker thread; what clearing an archive, forgetting everything, logging
  out and logging in afresh are good for under that protocol, and when an archive is kept; and the object itself, which
  keeps a ghost trace of its calls on both threads and whose trace is a run of the protocol.
- `MemoryRoute`, `ConnectionController`, `ConnectionService`: Android tunnel control.  The route is a class proved
  against functions on its state; the controller and the service are classes for their critical sections, and state
  machines over every interleaving of user commands, the native worker and foreign threads.
- `AndroidArchiveCoordinator`, `AndroidArchiveTokens`, `AndroidArchiveCleanup`: keys, databases, preferences and
  tombstones of archive generations, with memory and disk copies that part when a commit fails, and with process death
  at any step; how long a session token is good for; and what retiring a generation comes to when nothing fails.
- `AndroidArchiveStore`: the Android archive's tables, with transactions, chunked originals, quota and paging.
- `Resampler`: the decoder's mono mix and linear resampling, at exact positions.
- `Common`, `ByteSource`: shared datatypes, and a reader that delivers in arbitrary short reads and may fail.

Classes change their fields in place where the program does; the contract of each method ties the new state to a
function of the old one, and the lemmas are about those functions.  In the protocols a step is what one thread does
between two accesses to shared state, and the theorems hold at every point of every run.

## What the proofs found

- `MemoryRoute` promises that accounts follow the phase.  They do exactly unless the first saved proxy, an enabled
  one, arrives through `beforeInitialize` while another account is already initialized: only the named account is told.
  The class alone allows that order.  The host calls `beforeInitialize` ahead of `afterInitialize` for every account
  (`ci/android-connection/prepare_android_connection.py:85-89`), so there the agreement holds.
- The archive worker's README promises that failed retirement is retried before later access.  Within a session that
  holds, whatever fails, and after a clear that succeeded it holds for every later session.  An accepted clear is
  worked on if and only if nothing revokes its session before its turn, so it is dropped when the account is attached
  again before that.  A clear that was worked on but failed before the retirement was on record is lost when the
  account is attached again before it is retried.  In both cases the new session reads the generation that was to be
  retired.  With an idle worker the old generations are out of reach for good if and only if a reset is outstanding,
  the retirement is on record, or the registry no longer binds the slot to one of them.
- `AndroidArchiveCoordinator` destroys a generation as soon as memory has forgotten it.  If the commit that should
  have removed it from the preferences failed, the disk still names it, and the next process finds neither its key nor
  a tombstone.  A second way needs no failure at the end: a tombstone that only the disk still has is dropped by the
  next tombstone commit for any other generation.  Exactly these two kinds of step make an intact disk unsound.  What
  an operation is given is right in every run all the same.
- In the decoder, at exact positions, the check on the number of frames never fires, because the check on the number
  of samples fires first.  The program's doubles agree for rates that are multiples of 125; for others, 9600 for one,
  rounding can let the check on the frames fire first.  In the snapshot encoder the payload limit can never be
  exceeded.  In the service the test that the revoked route is not requested is implied by the equality of generations
  before it.

## Assumptions

- Ciphers are authenticated, bind a record to its identity and add a fixed overhead; digests are an arbitrary function.
  An original whose digest is all zeros is refused by the program's own validation, and the model refuses it too.
- Random identities are new.  They are parameters that were never used before.
- The Windows registry refuses to read a binding without an owner or with a malformed account, and binds no generation
  to two slots.
- A vault write or erase of one key is atomic.  A failed entry or chunk write or erase may or may not have happened; a
  failed catalog write has not.
- The database rolls back transactions that are not committed, cascades deletions and numbers rows one above the
  highest.  A preferences edit changes memory at once; a commit that succeeds writes all of memory to disk.
- A counter that is exhausted ends the process by its exception; the service's machine has no step there.
- The host calls the Android coordinator's account notifications one after the other, and does not clear an account's
  preferences before `onLogout` has returned.

## Model

| member | source | states |
|---|---|---|
| EditDistance.EditCount | ci/speech-vosk/worker.py:26-34 | The Python two-row program returns the length of a shortest insert/delete/substitute script between the two word lists. |
| EditDistance.DistanceIsShortest | ci/speech-vosk/worker.py:26-34 | The recurrence is a shortest-script length: some script attains it and no script is cheaper. |
| EditDistance.ShortestScript | ci/speech-vosk/worker.py:26-34 | For every pair of prefixes there is a script of exactly the table's cost. |
| EditDistance.OneEditCosts | ci/speech-vosk/worker.py:26-34 | One edit changes the distance by at most its price; `DistanceBounds` and `OneWordIsOne` say that every price is one. |
| EditDistance.NoCheaperScript | ci/speech-vosk/worker.py:26-34 | No script between two lists costs less than their distance. |
| EditDistance.TriangleInequality | ci/speech-vosk/worker.py:26-34 | The distance to a third list is at most the sum of the two distances. |
| EditDistance.ZeroExactlyOnEqual | ci/speech-vosk/worker.py:26-34 | The distance is zero if and only if the lists are equal. |
| EditDistance.DistanceBounds | ci/speech-vosk/worker.py:26-34 | The distance is at least the difference of the two lengths and at most the greater one. |
| EditDistance.OneWordIsOne | ci/speech-vosk/worker.py:26-34 | One word replaced by another, or one word more or less, makes a distance of one, wherever in the lists it is. |
| EditDistance.TableOfPrefixes | ci/speech-vosk/worker.py:26-34 | An entry of the table depends only on the prefixes it stands for, which is why two rows suffice. |
| EditDistance.DistanceSwappingRows | ci/speech-ru/RussianSpeechInstrumentation.java:69-80 | The Java program with two swapped arrays computes the same distance as the Python one. |
| EditDistance.Symmetry | ci/speech-ru/RussianSpeechInstrumentation.java:69-80 | Exchanging reference and hypothesis does not change the distance. |
| SnapshotCodec.Number | ci/windows-archive/archive_store.cpp:92-97 | Writes a value least significant byte first; `LittleEndianAt` says which digit each byte is. |
| SnapshotCodec.LittleEndianAt | ci/windows-archive/archive_store.cpp:92-97 | Byte k of a number is its digit of weight 256 to the power of k. |
| SnapshotCodec.NumberRoundTrip | ci/windows-archive/archive_store.cpp:92-115 | Reading a number's bytes gives the number back, for every width and every value that fits it. |
| SnapshotCodec.NumberReencodes | ci/windows-archive/archive_store.cpp:92-115 | Writing back a number that was read gives the bytes it was read from. |
| SnapshotCodec.Input.Number | ci/windows-archive/archive_store.cpp:107-115 | Reads and removes a number, or fails exactly when too few bytes are left. |
| SnapshotCodec.Input.Text | ci/windows-archive/archive_store.cpp:116-122 | Reads and removes a length-prefixed text, or fails exactly on a bad length. |
| SnapshotCodec.Encode | ci/windows-archive/archive_store.cpp:131-150 | Succeeds exactly on valid snapshots and produces their encoding. |
| SnapshotCodec.Layout | ci/windows-archive/archive_store.cpp:131-150 | The record byte by byte: the letters CPGAE1, every field at its fixed offset and width, the digest at 61, and from 93 on the three texts with their four-byte lengths. |
| SnapshotCodec.Decode | ci/windows-archive/archive_store.cpp:152-173 | Accepts exactly the encodings of valid snapshots and returns the snapshot. |
| SnapshotCodec.DecodeInvertsEncode | ci/windows-archive/archive_store.cpp:131-173 | Decoding an encoding returns the snapshot, for every snapshot that is accepted. |
| SnapshotCodec.EncodeInvertsDecode | ci/windows-archive/archive_store.cpp:131-173 | Encoding what was decoded returns the bytes, for every accepted input. |
| SnapshotCodec.EncodingSize | ci/windows-archive/archive_store.cpp:131-150 | Every encoding is at most 120233 bytes, so the payload limit of 131040 never refuses one. |
| CatalogCodec.Catalog | ci/windows-archive/archive_store.cpp:175-183 | Writes the lines of at most 2000 valid ids, or fails exactly otherwise. |
| CatalogCodec.CatalogLayout | ci/windows-archive/archive_store.cpp:175-183 | The catalog byte by byte: the magic line, then for each id its 32 characters and a newline; written exactly for at most 2000 ids of 32 lower-case hexadecimal digits. |
| CatalogCodec.Parse | ci/windows-archive/archive_store.cpp:185-198 | Accepts exactly the catalogs of distinct valid ids, and returns those ids. |
| CatalogCodec.ParseInvertsCatalog | ci/windows-archive/archive_store.cpp:175-198 | Parsing a catalog returns its ids if and only if no id is repeated; otherwise it is refused. |
| CatalogCodec.CatalogInvertsParse | ci/windows-archive/archive_store.cpp:175-198 | Whatever is parsed is distinct, valid, at most 2000 ids, and is written back to the same bytes. |
| CatalogCodec.CatalogInjective | ci/windows-archive/archive_store.cpp:175-183 | Two lists with the same catalog are the same list. |
| ArchiveStore.Store.Open | ci/windows-archive/archive_store.cpp:201-207 | Refuses invalid limits, and otherwise opens by recovering: without a fault it succeeds exactly on a disk that recovers within the limits; what cannot be recovered is left untouched. |
| ArchiveStore.Store.Check | ci/windows-archive/archive_store.cpp:209-213 | Succeeds exactly when the stored catalog is the cached one and no clean-up is pending. |
| ArchiveStore.Store.StoredEntry | ci/windows-archive/archive_store.cpp:215-220 | Returns the decoded entry, or fails exactly when it is missing, malformed or unreadable. |
| ArchiveStore.Store.EntryBytes | ci/windows-archive/archive_store.cpp:222-228 | The protected size of an entry and all its chunks: for a whole entry, of every record kept under its id. |
| ArchiveBytes.EntrySizeIsBytes | ci/windows-archive/archive_store.cpp:222-228 | The size worked out for an entry, record by record, is the sum over the disk of everything kept under its id. |
| ArchiveBytes.ExactIsAllBytes | ci/windows-archive/archive_store.cpp:222-267 | With nothing missing and nothing left over, the catalog and the sizes of the listed entries add up to every byte on the disk. |
| ArchiveStore.Store.Recover | ci/windows-archive/archive_store.cpp:230-267 | After recovery the catalog is the stored one, every listed id has its entry and all chunks, nothing else is left, and the weights are the actual sizes; an archive with missing records is refused before anything is erased; without faults it succeeds exactly on a disk that recovers with all its bytes within the limits. |
| ArchiveStore.Store.LoadCatalog | ci/windows-archive/archive_store.cpp:231-238 | An empty vault gets an empty catalog; unindexed records are never discarded. |
| ArchiveStore.Store.Survey | ci/windows-archive/archive_store.cpp:239-255 | Finds every record the catalog needs, with its size, or fails without changing anything. |
| ArchiveStore.Store.EraseOrphans | ci/windows-archive/archive_store.cpp:256-260 | Removes exactly what no listed id needs. |
| ArchiveStore.Store.Add | ci/windows-archive/archive_store.cpp:269-359 | An accepted add lists the old ids without the shortest prefix whose bytes on the disk make room under both limits, with the new id last; the new entry weighs all that is kept under its id, and with no clean-up pending all the bytes on the disk are the catalog's and the listed entries', within the quota. Entry and original can be read back; a refused add leaves the catalog and everything it lists in place; every disk in between is an old or a new archive. Without a fault it is refused exactly if the store is not trusted, the request or the source is not as demanded, or the whole new entry, as it was staged, alone exceeds the quota beside the catalog's reserve. |
| ArchiveStore.Store.AddMedia | ci/windows-archive/archive_store.cpp:279-359 | With a reader that delivers in arbitrary short reads: the original is stored and comes back; without a fault it is refused only if not exactly the declared bytes arrive, or the staged entry alone exceeds the quota. |
| ArchiveStore.Store.AddStaged | ci/windows-archive/archive_store.cpp:306-359 | With the chunks staged: publishes and prunes the shortest prefix whose bytes make room, or refuses for an entry that cannot be encoded or, as it was staged, alone exceeds the quota, and then undoes the staging. |
| ArchiveStore.Store.ReadChunk | ci/windows-archive/archive_store.cpp:285-291 | Fills one chunk from short reads, or fails at an early end. |
| ArchiveStore.Store.StageMedia | ci/windows-archive/archive_store.cpp:282-304 | Stages ceil(n/65536) chunks that join to the source; touches no record of another id. |
| ArchiveStore.Store.ChoosePrune | ci/windows-archive/archive_store.cpp:311-326 | Chooses the shortest prefix that fits; refuses exactly when even the new entry alone does not fit beside the catalog's reserve. |
| ArchiveBytes.ShortestPrefixYields | ci/windows-archive/archive_store.cpp:311-326 | The prefix chosen by the cached weights is the shortest whose bytes on the disk make room: any shorter one leaves too many bytes or rows. |
| ArchiveStore.Store.CommitCatalog | ci/windows-archive/archive_store.cpp:333-339 | The one write that publishes: afterwards the new ids are listed, before it the old ones. |
| ArchiveStore.Store.EraseRemoved | ci/windows-archive/archive_store.cpp:340-348 | Removes exactly the pruned entries; a failure leaves only unlisted records behind. |
| ArchiveStore.Store.Rollback | ci/windows-archive/archive_store.cpp:350-356 | Removes what was staged; if that fails the store asks for recovery. |
| ArchiveStore.Store.Page | ci/windows-archive/archive_store.cpp:361-369 | Returns the ids from the asked offset on, counted from the newest, and as many as asked or as there are. |
| ArchiveStore.Store.PageFor | ci/windows-archive/archive_store.cpp:371-387 | The same among the conversation's entries, newest first. |
| ArchiveStore.MatchingIsExact | ci/windows-archive/archive_store.cpp:378-385 | The entries paged over are exactly the listed ones with the conversation's peer type, peer and, if one is given, topic, each once. |
| ArchiveStore.MatchingInOrder | ci/windows-archive/archive_store.cpp:378-385 | And in the order of the listing. |
| ArchiveStore.Store.ReadEntry | ci/windows-archive/archive_store.cpp:389-393 | Reads exactly listed entries. |
| ArchiveStore.Store.ReadMedia | ci/windows-archive/archive_store.cpp:395-418 | Returns the original, or fails exactly when a chunk is missing or wrong or the digest differs. |
| ArchiveDisk.MediaExactly | ci/windows-archive/archive_store.cpp:395-418 | Bytes are returned if and only if the entry calls its original complete, they have its size and digest, and every chunk is there with its own piece of them. |
| ArchiveStore.Store.ProtectedBytes | ci/windows-archive/archive_store.cpp:425-428 | The size the quota compares is the sum of all records on the disk, whatever they are. |
| ArchiveStore.MediaOfAdded | ci/windows-archive/archive_store.cpp:279-304 | What is read back after an add is the source, byte for byte. |
| ArchiveDisk.CommitIsSound | ci/windows-archive/archive_store.cpp:269-359 | A published catalog lists only entries that are there with all their chunks. |
| ArchiveDisk.CommitIsWeighed | ci/windows-archive/archive_store.cpp:313-338 | The cached weights of the new list are the actual protected sizes. |
| ArchiveDisk.RestrictedIsExact | ci/windows-archive/archive_store.cpp:243-260 | Removing unlisted records leaves an archive with nothing missing and nothing left over. |
| ArchiveDisk.IntactMedia | ci/windows-archive/archive_store.cpp:395-418 | Changing records no listed id needs changes no listed original. |
| ArchiveDisk.HarmlessRecovers | ci/windows-archive/archive_store.cpp:230-267 | A recovery that is cut short anywhere leaves a disk that again recovers within the limits. |
| ArchiveCrash.InterruptedAddRecovers | ci/windows-archive/archive_store.cpp:230-359 | An add stopped before or after any vault call recovers to exactly the old archive or exactly the new one, and the recovery succeeds within the limits while the catalog file fits its reserve. |
| ArchiveCrash.EveryMomentOfAdd | ci/windows-archive/archive_store.cpp:269-349 | Every disk an accepted add passes through is one of those. |
| ArchiveCrash.EveryMomentOfRefusal | ci/windows-archive/archive_store.cpp:350-358 | So is every disk a refused add passes through. |
| ArchiveCrash.CommittedArchiveIsWithinLimits | ci/windows-archive/archive_store.cpp:315-326 | While the catalog file fits its reserve, a committed archive is within the quota recovery applies. |
| ArchiveCrash.ArchiveSurvives | ci/windows-archive/archive_store.cpp:230-359 | Over any number of recoveries and adds, each cut short anywhere, the next recovery succeeds within the limits while the catalog file fits its reserve, and an entry listed throughout keeps its snapshot and original. |
| ArchiveWorker.AdmissionIsConserved | ci/windows-archive/archive_worker.cpp:230-297 | At every moment the four counters are exactly what is queued and running, never negative, never above 4, 2000, 8 and 64 MiB, and zero once the queue has drained. |
| ArchiveWorker.DeskStepOfUi | ci/windows-archive/archive_worker.cpp:230-297 | Every call of the UI thread keeps that account. |
| ArchiveWorker.DeskStepOfWorker | ci/windows-archive/archive_worker.cpp:247-248 | Every step of the worker keeps it, including between the two releases at a job's end. |
| ArchiveWorker.DoneMeansNeverRevoked | ci/windows-archive/archive_worker.cpp:197-229 | If a result reaches its caller, nothing since its admission detached or replaced its session, cleared it, forgot everything, changed the lock or destroyed the worker, and the screen was unlocked throughout. |
| ArchiveWorker.VisibleExactly | ci/windows-archive/archive_worker.cpp:197-229 | A result in flight may be shown if and only if the screen was unlocked at its admission and nothing since has revoked it: nothing else is held back. |
| ArchiveWorker.TicketsAreHonest | ci/windows-archive/archive_worker.cpp:240-246 | A job in flight carries the revision and epoch of the call that admitted it. |
| ArchiveWorker.RevocationIsFinal | ci/windows-archive/archive_worker.cpp:171-195 | Each revoking call puts some stamp of the session out of date. |
| ArchiveWorker.StepIsLater | ci/windows-archive/archive_worker.cpp:197-206 | Nothing revives: liveness falls, revision and epoch rise, and the lock cannot change within an epoch. |
| ArchiveWorker.GoneIsInvisible | ci/windows-archive/archive_worker.cpp:197-206 | A stamp that is out of date stays so, and hides every result stamped before. |
| ArchiveWorker.StorageFollowsSessions | ci/windows-archive/archive_worker.cpp:149-184 | An admitted job and a logout always find their own session in the storage, so the stale-session error cannot occur; a drained storage has exactly the UI thread's sessions. |
| ArchiveWorker.SeatStepOfUi | ci/windows-archive/archive_worker.cpp:149-184 | Queued jobs keep that order under every call of the UI thread. |
| ArchiveWorker.SeatStepOfWorker | ci/windows-archive/archive_worker.cpp:101-115 | And under every step of the worker. |
| ArchiveWorker.EveryVaultIsItsOwn | ci/windows-archive/archive_worker.cpp:126-147 | Every vault a job ever reached was opened for that job's slot, owner and authorization. |
| ArchiveWorker.UsedKeepsVaults | ci/windows-archive/archive_worker.cpp:126-147 | An open vault is always the generation the registry has bound to its slot. |
| ArchiveWorker.JobIsWorkedOnExactly | ci/windows-archive/archive_worker.cpp:240-250 | In every run, at the turn of an admitted capture or clear: it is worked on if and only if since its admission nothing has detached or replaced its session, cleared it again, forgotten everything or destroyed the worker; a request also needs that the lock has not changed. |
| ArchiveWorker.JobsAreHonest | ci/windows-archive/archive_worker.cpp:276-296 | A job in flight was admitted by exactly one call of its kind, on a session for which that call was allowed; a capture counts the bytes of its three strings and 192. |
| ArchiveClearing.ReachedIsGuarded | ci/windows-archive/archive_worker.cpp:129-140 | Whatever fails on the way to an archive: a slot whose old generations are retired, or marked for retirement, stays so and reaches only a new generation. |
| ArchiveClearing.ClearedArchiveIsGone | ci/windows-archive/archive_worker.cpp:337-352 | Once a clear has been worked on, even one that failed, its own session never again reaches a generation there was before it. |
| ArchiveClearing.SuccessfulClearIsForever | ci/windows-archive/archive_worker.cpp:337-352 | After a clear that succeeded, no session of its slot, this one or a later one, ever reaches a generation there was before it. |
| ArchiveClearing.ClearHolds | ci/windows-archive/archive_worker.cpp:155-167 | A clear that failed holds for later sessions too, provided the old generation has been retired by the time a session is attached to the slot. |
| ArchiveClearing.OutOfReachExactly | ci/windows-archive/archive_worker.cpp:126-167 | With an idle worker, no continuation reaches a generation of the past in a slot if and only if a reset is outstanding, its retirement is on record, or the registry has bound the slot to another generation or none. |
| ArchiveClearing.DroppedClearIsLost | ci/windows-archive/archive_worker.cpp:155-183 | A clear that was accepted is lost when the same account is attached again before its turn: the new session reads the generation that was to be retired. |
| ArchiveClearing.FailedClearIsLost | ci/windows-archive/archive_worker.cpp:158-167 | So is one that was worked on but whose retirement failed before it was on record, when the account is attached again before the next use. |
| ArchiveClearing.TurnOfRevokedClear | ci/windows-archive/archive_worker.cpp:342-343 | The whole turn of a clear whose session is gone changes neither storage nor registry. |
| ArchiveForgetting.ForgettingIsForever | ci/windows-archive/archive_worker.cpp:354-370 | After the turn of a `forgetAll`, even if the registry could not be erased, no session of any slot ever reaches a generation there was before, neither one that was ever read nor one that was bound. |
| ArchiveForgetting.ForgetAllIsKept | ci/windows-archive/archive_worker.cpp:354-370 | Every call of `forgetAll` has had that effect by the time the queue is drained. |
| ArchiveForgetting.LogoutIsForever | ci/windows-archive/archive_worker.cpp:171-185 | By the time the queue is drained a logout has had its turn; if the registry then erased the account's generation or recorded its retirement, no session of the slot ever reaches a generation there was before the call. |
| ArchiveForgetting.FreshLoginReadsNothingOld | ci/windows-archive/archive_worker.cpp:137-166 | A session attached as a fresh login never reaches a generation there was before it was attached. |
| ArchiveForgetting.NoGenerationIsShared | ci/windows-archive/archive_worker.cpp:126-147 | Whoever reaches a generation or has it bound does so for the same slot and the same account, if the registry that was found binds none twice; and the one left behind again binds none twice. |
| ArchiveForgetting.ArchiveIsKept | ci/windows-archive/archive_worker.cpp:117-183 | As long as nothing is forgotten, cleared or logged out and the slot is not used by another account or a fresh login, all its sessions reach the same generation, whatever else fails. |
| ArchiveForgetting.FailedCaptureIsRepairedFirst | ci/windows-archive/archive_worker.cpp:142-146 | After a capture that failed, the slot's next job reaches the archive only after a recovery, unless a clear retires that archive. |
| ArchiveForgetting.TurnComes | ci/windows-archive/archive_worker.cpp:101-115 | Every queued attachment, detachment and forgetting has its turn before the queue is drained. |
| ArchiveWorkerProgram.Worker.CallAttach | ci/windows-archive/archive_worker.cpp:149-169 | Replaces the slot's session and queues the attachment, or refuses exactly a bad slot, owner or authorization; one step of the protocol on the object's trace. |
| ArchiveWorkerProgram.Worker.CallDetach | ci/windows-archive/archive_worker.cpp:171-185 | Revokes and queues, for the seated session only, whether it is a logout included; one step on the trace. |
| ArchiveWorkerProgram.Worker.CallSetLocked | ci/windows-archive/archive_worker.cpp:187-190 | The epoch advances exactly when the lock changes; one step on the trace. |
| ArchiveWorkerProgram.Worker.CallSetEnabled | ci/windows-archive/archive_worker.cpp:192-195 | Only a current session can be enabled or disabled; one step on the trace. |
| ArchiveWorkerProgram.Worker.CallCapture | ci/windows-archive/archive_worker.cpp:230-274 | Admits exactly an enabled session within all limits, queues the job with its stamps and counts its bytes; one step on the trace. |
| ArchiveWorkerProgram.Worker.CallRequest | ci/windows-archive/archive_worker.cpp:276-297 | Admits exactly a usable session below eight requests, and queues the job with its stamps; one step on the trace. |
| ArchiveWorkerProgram.Worker.CallClear | ci/windows-archive/archive_worker.cpp:337-352 | Advances the revision before queueing, so older jobs of the session are dead; one step on the trace. |
| ArchiveWorkerProgram.Worker.CallForgetAll | ci/windows-archive/archive_worker.cpp:354-370 | Silences every seated session and empties all seats; one step on the trace. |
| ArchiveWorkerProgram.Worker.CallDestroy | ci/windows-archive/archive_worker.cpp:76-85 | Silences everything, after which no call follows; one step on the trace. |
| ArchiveWorkerProgram.Worker.Retire | ci/windows-archive/archive_worker.cpp:129-136 | A marked generation is logged out before anything is opened. |
| ArchiveWorkerProgram.Worker.OpenVault | ci/windows-archive/archive_worker.cpp:137-140 | The fresh flag is dropped only once a vault is open. |
| ArchiveWorkerProgram.Worker.Reach | ci/windows-archive/archive_worker.cpp:126-147 | The program's way to an archive is the protocol's. |
| ArchiveWorkerProgram.Worker.UseStorage | ci/windows-archive/archive_worker.cpp:250-265 | What a job does to storage and registry, and when it asks for recovery; one step on the trace, for which the job's slot is always in range. |
| ArchiveWorkerProgram.Worker.RunOldestCallback | ci/windows-archive/archive_worker.cpp:222-227 | Delivers exactly if the screen was unlocked at the admission and nothing in the object's whole trace since then has revoked the result. |
| ArchiveWorkerProgram.Worker.TakeJob | ci/windows-archive/archive_worker.cpp:103-111 | The worker takes the oldest job; one step on the trace. |
| ArchiveWorkerProgram.Worker.CheckJob | ci/windows-archive/archive_worker.cpp:250 | A job whose session or, for a request, screen is gone is dropped; one step on the trace. |
| ArchiveWorkerProgram.Worker.PostResult | ci/windows-archive/archive_worker.cpp:218-221 | A result is posted exactly if somebody waits for it and it is still visible; one step on the trace. |
| ArchiveWorkerProgram.Worker.GiveBackBytes | ci/windows-archive/archive_worker.cpp:19-23 | A capture gives its bytes back; one step on the trace. |
| ArchiveWorkerProgram.Worker.GiveBackPlace | ci/windows-archive/archive_worker.cpp:15-18 | Then its place; one step on the trace. |
| ArchiveWorkerProgram.Worker.ManageSessions | ci/windows-archive/archive_worker.cpp:158-184 | Attachments, detachments and the end of all sessions: an attachment starts from a closed slot, a detachment closes it, a forgetting closes all slots and erases the registry or leaves the erasure pending; one step on the trace. |
| ArchiveWorkerProgram.Worker.Leave | ci/windows-archive/archive_worker.cpp:106-114 | The loop ends once stopped and drained; one step on the trace. |
| MemoryRoute.Coordinator.Apply | ci/android-connection/MemoryRoute.java:54-64 | Sends one account what the state calls for. |
| MemoryRoute.Coordinator.ApplyInitialized | ci/android-connection/MemoryRoute.java:65-67 | Sends it to every initialized account and no other. |
| MemoryRoute.Coordinator.CallBeforeInitialize | ci/android-connection/MemoryRoute.java:71-78 | The first saved proxy is kept and the account is sent what the state calls for; a missing one is an error that changes nothing. |
| MemoryRoute.Coordinator.CallAfterInitialize | ci/android-connection/MemoryRoute.java:79-83 | The account joins the initialized ones and gets the present route. |
| MemoryRoute.Coordinator.CallBegin | ci/android-connection/MemoryRoute.java:84-92 | A new generation, without an endpoint, requested as asked, with the saved proxy if none was chosen; the initialized accounts and no others are told; the generation has advanced even when the proxy is missing. |
| MemoryRoute.Coordinator.CallManualSelected | ci/android-connection/MemoryRoute.java:94-98 | A new generation on the chosen proxy, which is kept; nothing is requested, and the initialized accounts are told. |
| MemoryRoute.Coordinator.CallReady | ci/android-connection/MemoryRoute.java:99-103 | Accepts exactly the present requested generation with a valid token; then every initialized account and no other is told that endpoint; the chosen proxy stays. |
| MemoryRoute.Coordinator.CallFailed | ci/android-connection/MemoryRoute.java:104-107 | Accepts exactly the present requested generation; then every initialized account and no other is told the chosen proxy, or none. |
| MemoryRoute.RunIsCoherent | ci/android-connection/MemoryRoute.java:84-107 | After any calls: an endpoint exactly in the local-ready phase, requested exactly while starting or ready. |
| MemoryRoute.StepIsSynced | ci/android-connection/MemoryRoute.java:54-107 | A call keeps every initialized account on what its phase calls for if and only if it is not the first saved proxy, an enabled one, arriving while another account is already initialized. |
| MemoryRoute.RouteRefinesPhase | ci/android-connection/MemoryRoute.java:54-107 | In every run where an account is initialized only once a proxy is known, every initialized account was last sent the loopback endpoint when local-ready, else the manual proxy, else direct. |
| MemoryRoute.UnorderedRunLeavesAccountBehind | ci/android-connection/MemoryRoute.java:71-83 | Without that order this fails: a run of two calls, the second of which brings an enabled proxy, leaves an account on the direct route. |
| MemoryRoute.SupersededActivationIsDead | ci/android-connection/MemoryRoute.java:84-107 | Once superseded, an activation's completions are refused for ever after. |
| ConnectionController.Message.Close | ci/android-connection/ConnectionController.java:25-28 | Closing an update zeroes its endpoint buffer. |
| ConnectionController.Controller.SetEnabled | ci/android-connection/ConnectionController.java:52-61 | A new revision is pending, and a held delivery is dropped and wiped. |
| ConnectionController.Controller.Close | ci/android-connection/ConnectionController.java:155-161 | Nothing is pending or held afterwards; what was held is wiped. |
| ConnectionController.Controller.Post | ci/android-connection/ConnectionController.java:65-71 | Only the latest revision is held; what it displaces, or the update itself, is wiped. |
| ConnectionController.Controller.Deliver | ci/android-connection/ConnectionController.java:77-87 | Only a current update is shown, and its buffer is wiped in any case. |
| ConnectionController.OneTunnelAtATime | ci/android-connection/ConnectionController.java:88-146 | In every run a start is called only when every earlier handle has had a stop that returned a non-negative value; a tunnel is looked at only right after its start, and the call that follows a successful start or a look is for the same tunnel. |
| ConnectionController.SupersededTunnelIsStopped | ci/android-connection/ConnectionController.java:93-108 | A worker at rest with a superseded tunnel can move, and its move leads to a stop. |
| ConnectionController.DeliveriesAreCoalesced | ci/android-connection/ConnectionController.java:65-87 | At most one runnable is outstanding, a held delivery always has one, a pending command is the latest, and the listener sees strictly growing revisions, each the latest when accepted. |
| ConnectionController.EndpointsAreWiped | ci/android-connection/ConnectionController.java:103-134 | Every buffer is zero unless it is the worker's own, held, or being shown; after the worker has ended none is left. |
| ConnectionController.RestIsOnLatestCommand | ci/android-connection/ConnectionController.java:93-111 | An open worker at rest has acted on the latest command. |
| ConnectionController.NativeWorker.Perform | ci/android-connection/ConnectionController.java:103-133 | One command of the worker, with other threads moving in between: its native calls are a turn's script and keep to one tunnel. As long as the command is current its answer is held for delivery: ready, with the very endpoint that was looked at, exactly if the last call was a sound look at the tunnel that was opened; a tunnel that was opened has been looked at; the endpoint is wiped unless the lock holds it. |
| ConnectionController.TurnsFollowScript | ci/android-connection/ConnectionController.java:103-133 | In every run the native calls of a turn follow the same script, and its answer is explained by them: nothing started, a tunnel found sound, or a failure of a start, a look or a stop. |
| ConnectionController.ReadyExactly | ci/android-connection/ConnectionController.java:113-131 | What a turn and its answer say of each other: ready exactly after a sound look, at the tunnel that stays; a tunnel that was opened has been looked at; one not found sound was stopped and answered as failed. |
| ConnectionController.NativeWorker.Inspect | ci/android-connection/ConnectionController.java:117-122 | One look; it is sound exactly if the call succeeded, the seven numbers are in order and the endpoint is valid. |
| ConnectionController.NativeWorker.ValidEndpoint | ci/android-connection/ConnectionController.java:147-154 | Accepts exactly a non-zero port, the letters dd and 32 lower-case hexadecimal digits. |
| ConnectionController.NativeWorker.Drive | ci/android-connection/ConnectionController.java:105-131 | The native calls of the turn follow the script and explain the answer; a ready answer comes with the buffer of the tunnel that was looked at; without an answer the command is no longer current. |
| ConnectionController.NativeWorker.StopOld | ci/android-connection/ConnectionController.java:105-108 | Exactly one stop of what is live, or no call if nothing is; afterwards no tunnel is left, or its stop was the last call and failed. |
| ConnectionController.NativeWorker.StartNew | ci/android-connection/ConnectionController.java:113-115 | Exactly one start, only with nothing live; the handle it returns, if it is positive, is the only one live. |
| ConnectionController.NativeWorker.Publish | ci/android-connection/ConnectionController.java:65-76 | An update is held for delivery or wiped, also when the dispatcher fails. |
| ConnectionController.TunnelStep | ci/android-connection/ConnectionController.java:104-146 | Every step keeps the single tunnel, whatever native calls return or throw. |
| ConnectionController.AnsweredStays | ci/android-connection/ConnectionController.java:109-131 | What an answer says of the tunnel, a sound look as the last call included, stays true until a newer command or a close. |
| ConnectionService.Connection.Change | ci/android-connection/CapyConnectionService.java:36-40 | One generation of the route, one command, and the revision it returned. |
| ConnectionService.Connection.Accept | ci/android-connection/CapyConnectionService.java:41-51 | Only an answer to the latest command reaches the route, with the latest generation. |
| ConnectionService.Connection.Claim | ci/android-connection/CapyConnectionService.java:53-58 | Whatever other threads write between its reads and its compare-and-sets, the loop ends with the cell at least as high as this token. |
| ConnectionService.Connection.ScheduleCancellation | ci/android-connection/CapyConnectionService.java:61-62 | Only the thread that raises the flag queues a runnable. |
| ConnectionService.Connection.Cancel | ci/android-connection/CapyConnectionService.java:63-72 | Disables exactly for the claimed, unrequested present generation; a token claimed meanwhile is queued again. |
| ConnectionService.RouteAndTunnelAgree | ci/android-connection/CapyConnectionService.java:33-73 | In every interleaving, whenever the UI thread has nothing left to do, a requested route means that the last command was an activation of this generation, and a disabled one that it was not. |
| ConnectionService.RevocationIsTracked | ci/android-connection/CapyConnectionService.java:53-73 | From the moment a proxy revokes an activation until its cancellation, the revoked generation is on its way, and an unclaimed token has a runnable coming. |
| ConnectionService.NoActivationIsCancelled | ci/android-connection/CapyConnectionService.java:67-70 | A cancellation never reaches the controller while the route is requested. |
| ConnectionService.EqualGenerationsAreNotRequested | ci/android-connection/CapyConnectionService.java:66-68 | Equal generations already say that the route is not requested, so the second test of the cancellation is redundant. |
| ConnectionService.PhaseTellsTheTruth | ci/android-connection/CapyConnectionService.java:36-51 | With the worker at rest as well: a local-ready route has exactly its one live tunnel, which was found sound behind the very endpoint the route hands out; no activation is unanswered, and any other phase leaves no tunnel but one whose stop just failed. |
| ConnectionService.TokenStepOfOthers | ci/android-connection/CapyConnectionService.java:61-72 | A token never exceeds the route's generation, and one that equals it proves the route disabled. |
| ConnectionService.AgreeStepOfChooser | ci/android-connection/CapyConnectionService.java:53-60 | No step of a proxy choice loses the agreement. |
| ConnectionService.PostedStepOfChooser | ci/android-connection/CapyConnectionService.java:61-72 | Nor the runnable that restores it. |
| AndroidArchiveCoordinator.Coordinator.Retire | ci/archive/AndroidArchiveCoordinator.java:329-331 | Memory has the tombstone in any case, the disk if the commit succeeds. |
| AndroidArchiveCoordinator.Coordinator.constructor | ci/archive/AndroidArchiveCoordinator.java:53-68 | A process starts from what is on disk, intact exactly if the disk is, with the clean-up queued first. |
| AndroidArchiveCoordinator.Coordinator.CleanUp | ci/archive/AndroidArchiveCoordinator.java:62-67 | Every generation found retired is destroyed without a trace or stays retired; if nothing fails none is left. |
| AndroidArchiveCoordinator.Coordinator.Unlink | ci/archive/AndroidArchiveCoordinator.java:309-317 | Succeeds exactly when no commit fails, and then no account refers to the generation in memory. |
| AndroidArchiveCoordinator.Coordinator.Destroy | ci/archive/AndroidArchiveCoordinator.java:305-327 | Keys and databases go only once nothing in memory refers to them; success removes both and the tombstone, failure leaves the tombstone; it fails only if something it calls fails. |
| AndroidArchiveCoordinator.Coordinator.Open | ci/archive/AndroidArchiveCoordinator.java:234-290 | Returns the account's own generation for this owner if it has one, otherwise a new one, whole and not retired. Another owner's generation is destroyed first: with no fault its key, database, references and tombstone are gone, and in any case it is retired or gone; nothing else is touched. When nothing it calls fails it succeeds exactly for a current session on an account whose metadata is complete, not retired and, for the same owner, whole. |
| AndroidArchiveCoordinator.Coordinator.Create | ci/archive/AndroidArchiveCoordinator.java:265-289 | Succeeds exactly when nothing fails, and has then published the new generation on disk; one that cannot be published is gone again or retired. |
| AndroidArchiveCoordinator.Coordinator.OnLogout | ci/archive/AndroidArchiveCoordinator.java:211-232 | Revokes first, then retires and forgets the generation, on disk too unless a commit fails, and queues its destruction. |
| AndroidArchiveCoordinator.Viewer.PersistViewed | ci/archive/AndroidArchiveCoordinator.java:126-157 | Admits at most four; a refused offer is cleaned up at once. |
| AndroidArchiveCoordinator.Viewer.RunNext | ci/archive/AndroidArchiveCoordinator.java:138-150 | Each admitted offer is cleaned up exactly once and frees its place. |
| AndroidArchiveCoordinator.ReferencesAreWhole | ci/archive/AndroidArchiveCoordinator.java:234-327 | In every process that found an intact disk, whatever fails: a generation an account refers to is retired or has both key and database. |
| AndroidArchiveCoordinator.OperationsGetTheirOwnStore | ci/archive/AndroidArchiveCoordinator.java:98-107 | In every run, whatever fails and whenever the process dies, an operation gets only a store its account refers to, for its own owner, not retired, with key and database, and only after the start-up clean-up. |
| AndroidArchiveCoordinator.CleanStep | ci/archive/AndroidArchiveCoordinator.java:62-67 | The start-up clean-up stays ahead of every operation. |
| AndroidArchiveCoordinator.BornIsIntact | ci/archive/AndroidArchiveCoordinator.java:53-68 | A process starts with intact memory if and only if the disk it finds is intact. |
| AndroidArchiveCoordinator.RunKeepsInv | ci/archive/AndroidArchiveCoordinator.java:53-331 | The invariants of references, work, lock, sessions and clean-up hold at every moment of every run, across any process deaths. |
| AndroidArchiveCoordinator.DiskStepExactly | ci/archive/AndroidArchiveCoordinator.java:211-331 | An intact disk stays intact in a step if and only if the step neither deletes the key or database of a generation the disk names without a tombstone there, nor writes tombstones that leave out one that a generation named on disk still needs. |
| AndroidArchiveCoordinator.DiskIsIntactExactly | ci/archive/AndroidArchiveCoordinator.java:211-331 | Over every run, across failed commits and process deaths, the disk is intact at every moment if and only if no step is one of those two. |
| AndroidArchiveCoordinator.CarefulRunsAreDurable | ci/archive/AndroidArchiveCoordinator.java:211-331 | In particular, if each commit that takes a generation out of the preferences succeeds, the disk is intact at every moment, whatever else fails. |
| AndroidArchiveCoordinator.FailedRemovalStrandsAccount | ci/archive/AndroidArchiveCoordinator.java:226-231 | One failed commit at logout is enough: the generation is destroyed all the same, and the next process finds it named without key and without tombstone. |
| AndroidArchiveCoordinator.LaterLogoutStrandsAccount | ci/archive/AndroidArchiveCoordinator.java:323-331 | If the last commit of that destruction fails as well, the disk is still intact, and the logout of another account, without any failure, takes the tombstone away. |
| AndroidArchiveCoordinator.SessionStepOfHost | ci/archive/AndroidArchiveCoordinator.java:187-232 | No step of the host gives a current session the store of another owner or a retired one. |
| AndroidArchiveTokens.TokenIsCurrentExactly | ci/archive/AndroidArchiveCoordinator.java:70-91 | A token is current later in its process if and only if its account has not logged out or changed hands since, the screen has not been locked unless the token is for the background, and the host now names its owner and has the screen unlocked; nothing revives it. |
| AndroidArchiveCleanup.RetiredIsDestroyed | ci/archive/AndroidArchiveCoordinator.java:211-331 | In a process in which no removal or deletion fails: whenever the worker has nothing to do no generation is retired, and whatever an account ever referred to or a tombstone named is referred to again or has neither key nor database. |
| AndroidArchiveCleanup.UnpublishedIsDestroyed | ci/archive/AndroidArchiveCoordinator.java:265-289 | The same of a generation that was drawn and could not be published. |
| AndroidArchiveCleanup.OwnArchiveIsUsed | ci/archive/AndroidArchiveCoordinator.java:234-264 | When nothing fails, an account with a whole archive of its own works on it. |
| AndroidArchiveCleanup.NewArchiveIsUsed | ci/archive/AndroidArchiveCoordinator.java:265-283 | And an account without one works on a new one, published in its own name. |
| AndroidArchiveStore.Store.Save | ci/archive/AndroidArchiveStore.java:117-146 | Succeeds exactly on valid arguments when the snapshot is there already, or its row fits and the transaction succeeds; a known snapshot keeps its id; a new one gets an id above every id ever given, its row seals exactly this call's text, message bytes, media flag and time, never below zero, and only the lowest row makes room, with its original; a failure changes nothing. |
| AndroidArchiveStore.Store.PruneOne | ci/archive/AndroidArchiveStore.java:142 | The lowest snapshot goes with its original and parts, and the highest id stays. |
| AndroidArchiveStore.CascadedIsOk | ci/archive/AndroidArchiveStore.java:44-49 | Deleting the lowest snapshot leaves no original without snapshot and no part without original. |
| AndroidArchiveStore.CascadedDrops | ci/archive/AndroidArchiveStore.java:44-49 | Exactly what belongs to the lowest snapshot goes with it. |
| AndroidArchiveStore.Store.Fill | ci/archive/AndroidArchiveStore.java:166-171 | A chunk is filled from short reads; it fails exactly on a fault or an early end. |
| AndroidArchiveStore.Store.CopyParts | ci/archive/AndroidArchiveStore.java:163-181 | Succeeds exactly when there is no fault and exactly the declared bytes arrive, and then the parts are those of the content. |
| AndroidArchiveStore.PartsOfContent | ci/archive/AndroidArchiveStore.java:163-180 | The parts are contiguous from 2 to at most 513, each of 1 to 65536 bytes, and join to the content. |
| AndroidArchiveStore.OriginalIsBounded | ci/archive/AndroidArchiveStore.java:182-188 | A committed original stores at most 33574912 bytes, and its descriptor at most 4096. |
| AndroidArchiveStore.DescriptorIsSmall | ci/archive/AndroidArchiveStore.java:182-186 | The descriptor's ciphertext is at most 288 bytes. |
| AndroidArchiveStore.Store.SaveOriginal | ci/archive/AndroidArchiveStore.java:149-196 | All parts and their descriptor commit together or nothing does; without a fault it succeeds exactly on valid arguments for a snapshot that is there, with its original already stored or a source of exactly the declared size; what survives the quota is determined, and the new original, if it survives, has the descriptor of its content and comes back byte for byte. |
| AndroidArchiveStore.Store.EvictOverflow | ci/archive/AndroidArchiveStore.java:191-193 | Ends within the quota, having dropped only what the quota asks for. |
| AndroidArchiveStore.EvictedIsShortest | ci/archive/AndroidArchiveStore.java:191-193 | The survivors are all originals without the shortest prefix, in snapshot order, that brings the total to 128 MiB. |
| AndroidArchiveStore.SurvivesExactly | ci/archive/AndroidArchiveStore.java:191-193 | An original survives if and only if it and all originals of higher snapshots fit together. |
| AndroidArchiveStore.Store.OriginalBytes | ci/archive/AndroidArchiveStore.java:198-203 | The quota's figure is the sum of all descriptor and part ciphertexts. |
| AndroidArchiveStore.TotalIsSum | ci/archive/AndroidArchiveStore.java:198-203 | That figure is the sum of what the originals weigh, one by one. |
| AndroidArchiveStore.WeightIsBytes | ci/archive/AndroidArchiveStore.java:198-203 | An original weighs all its content, 32 bytes for each chunk of 65536, and its descriptor with 32 bytes. |
| AndroidArchiveStore.DescriptorTextLength | ci/archive/AndroidArchiveStore.java:182-186 | The descriptor's size is the length of its JSON text, with the escaped slash. |
| AndroidArchiveStore.OriginalAdded | ci/archive/AndroidArchiveStore.java:158-190 | A saved original leaves the tables consistent. |
| AndroidArchiveStore.Store.WriteOriginal | ci/archive/AndroidArchiveStore.java:233-253 | On any tables, intact or not, gives exactly the joined parts, checked in number, length and digest, or fails. |
| AndroidArchiveStore.RestoredIsChecked | ci/archive/AndroidArchiveStore.java:233-253 | Whatever the tables hold: what is restored has the descriptor's length and digest and is, chunk by chunk, the parts that opened for this row and number, all of them and no others. |
| AndroidArchiveStore.RestoredIsContent | ci/archive/AndroidArchiveStore.java:149-253 | In sound tables restoring succeeds exactly while the original is there, and returns the bytes that were saved. |
| AndroidArchiveStore.Store.List | ci/archive/AndroidArchiveStore.java:255-280 | The newest entries of the dialog below the bound, at most a page, each exactly as it was saved and with its own original. |
| AndroidArchiveStore.ListedExactly | ci/archive/AndroidArchiveStore.java:267-275 | The ids paged over are exactly those of the dialog's rows below the bound. |
| AndroidArchiveStore.NextPage | ci/archive/AndroidArchiveStore.java:267-280 | Asking again below a page's last id yields exactly what follows: nothing skipped, nothing repeated. |
| Resampler.Decoder.FormatChanged | ci/transcription/AndroidPcmDecoder.java:51-59 | A supported format is accepted, and once a frame has been heard only the same one again. |
| Resampler.Decoder.Mix | ci/transcription/AndroidPcmDecoder.java:70-74 | The mean of the one or two channels, cut off at -1 and 1, or nothing if one is not a finite number. |
| Resampler.Decoder.Emit | ci/transcription/AndroidPcmDecoder.java:75-81 | At exact positions: emits exactly the samples whose positions the frame reaches, as interpolations of what was heard; fails exactly at frame 180 times the rate, by the sample guard. |
| Resampler.InterpolatedIsLinear | ci/transcription/AndroidPcmDecoder.java:75-79 | In whole numbers: a sample on a frame is that frame, and one between two frames their mean, each weighted by its nearness. |
| Resampler.Decoder.Consume | ci/transcription/AndroidPcmDecoder.java:63-82 | At exact positions a whole buffer is accepted exactly when formatted, whole, finite and within three minutes. |
| Resampler.Decoder.Finish | ci/transcription/AndroidPcmDecoder.java:88-91 | The result is exactly the interpolation of everything heard, in range, and the buffer is cleared. |
| Resampler.EmittedIs | ci/transcription/AndroidPcmDecoder.java:75-79 | The number of samples after N frames is floor((N-1)*16000/rate)+1. |
| Resampler.ThreeMinutesFit | ci/transcription/AndroidPcmDecoder.java:76 | Up to 180 times the rate frames never exceed the sample limit. |
| Resampler.OneFrameMoreDoesNot | ci/transcription/AndroidPcmDecoder.java:76-81 | At exact positions one frame more gives exactly one sample too many, before the frame count is looked at; in doubles this is so for the rates of `StepsAreDyadic`, not for every rate. |
| Resampler.StepsAreDyadic | ci/transcription/AndroidPcmDecoder.java:75-78 | At a rate that is a multiple of 125 every position is a whole number of 128ths below 2^32, which doubles add up without rounding. |
| Resampler.InterpolatedIsInRange | ci/transcription/AndroidPcmDecoder.java:77 | Every output sample lies between -1 and 1. |

## Left out

- Cryptography, DPAPI, the keystore, SQLite and file system internals: abstract, as listed under the assumptions.
- The records of the Windows registry's journal: `ArchiveWorker` lets its open, logout and reset succeed or fail with
  any of the effects they may leave, and keeps of the journal whether a slot's retirement is on record.  The clean-up
  of other slots' retirements during an open is not modelled; it only takes away what is out of reach already.
- ArchiveClearing.OutOfReachExactly: continuations within one process.
- ArchiveCrash.ArchiveSurvives: that a protected catalog fits its reserve of 70000 bytes is a hypothesis on each disk,
  because the size is the cipher's choice.
- ArchiveVault.Vault.Write: a failed catalog write that nevertheless took effect is not modelled, because the program
  relies on the write being atomic.
- Temporary files of interrupted atomic writes: their removal succeeds or fails and has no other effect.
- Wiping of C++ strings and of JVM copies of tokens; only the endpoint buffers of the controller are followed.
- The seven numbers of a tunnel's status beyond the look at them: the update that is delivered carries the endpoint, and
  the listener does not read the numbers.
- Contents of worker results: the protocol follows whether, when and to whom a result is given, not what it holds.
- ArchiveWorkerProgram.Worker.UseStorage: each call of the object is one atomic step, in any order of the two threads;
  the memory model below that is not modelled.
- ConnectionService.Connection.Cancel: one token claimed by another thread during the runnable, not several; all
  interleavings are in the service's machine.
- Listeners that call back into the controller, exceptions of the routing target, and errors such as exhausted memory
  in the native worker.
- AndroidArchiveCoordinator.Coordinator.Open: the object's calls run alone; crashes and interleavings are in the
  machine of the same module.
- Stored generation strings that do not parse, and callbacks to the main thread after an operation.
- AndroidArchiveStore.Store.Save: the size of the body's JSON text is a parameter, because only its limit matters.
- AndroidArchiveStore.Store.SaveOriginal: the placeholder row inserted before the parts is not visible outside the
  transaction and is left out.
- The upgrade of version 1 databases.
- Resampler.Decoder.Emit: exact numbers instead of single and double precision.  Samples differ by rounding only;
  positions are the same for rates that are multiples of 125, and for others the limit of three minutes may be noticed
  by the check on the frames, or a sample earlier or later.
- The decoder's codec, buffers and deadline: a buffer is its sequence of samples.
- Word splitting and the word limit before the edit distance.
- Dialogs, settings, players, the Android vault coordinator, the capture gate and the read-receipt policies: they
  would add the same protocol again or easy members.
- Source preparation and build scripts.
