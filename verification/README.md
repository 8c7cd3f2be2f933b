# Calixio backend: media lifecycle, sessions and rooms

Calixio stores videos, transcodes them to HLS and plays them in shared rooms. Its guarantees rest on the
order of steps across stores that share no transaction: Postgres rows, S3 objects, Redis entries, a bounded
job queue and LiveKit. This project models those steps and proves what holds in every run of them.

- **Keys.** `Text` and `Paths` define the string and path functions the service uses (`strings.Split`,
  `TrimSpace`, `path.Join`, `path.Clean`, `path.Dir`, `path.Base`). `KeyLayout` builds and parses object keys
  with them and proves when building and parsing agree.
- **Stores.** `MediaTable` is the `media` table with its `deleted_at IS NULL` guards. `ObjectStore` is the
  bucket with the paginated, batched deletion and the listing of media prefixes.
- **Media protocol.** `MediaProtocol` is a state machine: uploads, completions, any number of workers,
  deletions and sweepers run as processes, and one row statement, object put, listed page, batch delete or
  queue operation is one step. `MediaSafety` proves its invariant and the properties of all runs, `ReadyMedia`
  when an object is in the bucket, `StrandedJobs` when a job is stuck, `PlayableMedia` when all that a served
  manifest refers to is there. `History` is the induction these share: what some steps bring about and others end.
- **Uploads.** `Uploads` is `InitUpload`, `CompleteUpload` and `Enqueue` as programs.
- **Orphan sweep.** `Cleanup` is `RunOnce` as a program over the two stores. `RepeatedCleanup` says exactly what
  a sweep takes when owners share a media id, and what sweeping again and again achieves.
- **Transcoder.** `TailBuffer` is the bounded suffix buffer in place on its array, `Transcoding` the retry
  loop and the candidate directories, `Jobs` the whole job as a program: row lookup, workspaces in turn,
  download, uploads with retries, ready mark, failure mark.
- **Programs and protocol.** `MediaRuns` (with `Uploads` for uploads and completions) shows that what a deletion,
  a sweep and a transcoding job leave by their contracts, faults included, a run of the protocol leaves.
- **Playback.** `Manifest` signs HLS playlists. A line counts as a segment URI when it is neither blank nor
  starts with `#`, as in section 4.1 of RFC 8216. `Playback` is lookup, cache, manifest tokens and deletion,
  `PlaybackRuns` all interleavings of them, lookups read and write in separate steps.
- **Sessions.** `Sessions` is the `sessions` table with login and refresh, `SessionRuns` all interleavings.
- **Rooms.** `Rooms` is ending rooms (by owner, by the stale sweep) and changing their media,
  `RoomPlayback` the versioned playback state in the cache.

Objects whose methods update state in the program are classes here; each method is proved against a function
of the old state, and the lemmas are about those functions. A request that reads and later writes takes the
statements of other requests in between as an argument (`others`, `between`, `Env`), so its contract covers
every interleaving at that point. Each store counts its calls, and its `faults` say how the n-th ends
(`Faults`: answered, lost without effect, or carried out with the reply lost); other I/O that may fail is an
argument. So contracts say when a request must succeed and which cause each refusal has, not only what it may
not do. `StatementSets`, `StepSets`, `KeysAre`, `CleanLaws`, `BaseIs`, `NormalizedIs` and the like state
outright what the functions compute that the contracts and lemmas speak of.

Assumptions, each visible in a definition: media ids and owner ids are single path components without outer
white space (`Component`); a new media id is not the id of an object that was in the bucket before any row
(`foreign`); refresh secrets, access-token ids and session ids are fresh; the hash is injective
(`HashToken`); the objects found in the bucket at the start are not keys that only resemble the layout
(`Canonical`); a successful transcoding run has written `index.m3u8`, which lists output files of that run
only (`Lists`).

What the proofs show that the code does not promise:

- A file name whose base is `..` collapses the upload key to the media directory, which no deletion and no
  sweep matches (`OriginalKeyRoundTrip`, `DotDotUploadIsNeverSwept`). A base name that ends in white space other
  than a blank escapes deletion too (`UploadIsDeletable`, `TabBeforeSlashStays`).
- One sweep takes, of the orphans of an id, those in the directory of the least key with that id
  (`SweepTakesExactly`). "Each sweep that meets an orphan shrinks the bucket" is therefore false
  (`SweepShrinksIff`). Sweeping always settles (`RepeatedSweepsSettle`), but an orphan outlives all sweeps exactly
  when a key that no sweep takes, of the same id, is listed before its whole directory (`OrphanOutlivesIff`);
  a `..` upload is such a key (`DirectoryKeyShields`).
- An object stored under a media id `..`, which no upload creates, would make the sweep purge a whole user
  (`DotDotMediaTakesTheUser`); hence the assumption on initial keys.
- Three faulty writes strand a job in processing, and no others: the processing mark applied with an error
  reported, and the failure marks of a rejected completion or of the worker refused (`StrandsExactly`). Only a
  later completion or a deletion ends that (`RescuesExactly`, `StrandedIff`).
- A ready row lacks its manifest, or any other output of the run that marked it, exactly when a deletion of the
  media has deleted that object and no upload has put it back since (`ReadyHasOutputs`, `ReadyHasManifest`). The
  deletion may have given up after its first batch, with the row live and ready (`GivenUpDeleteStrandsReady`).
- A ready media plays in full if the run that marked it also wrote the manifest last and no deletion took its
  objects (`ReadyPlaysInFull`). A second job of the media uploads its manifest before its segments while the row
  still says ready, and until they follow the media serves lines whose objects are not there
  (`NextJobServesMissing`, `ReadyWithAnotherJob`).
- Two refreshes that read one secret before either rotates both succeed, and the first one's new secret is
  dead at once (`OneSecretRefreshesTwice`). In general a replaced secret still works exactly for refreshes that
  had read by it before the rotation, while the session is unrevoked (`OldSecretRefreshes`).
- An access token replaced by a rotation can no longer be revoked (`RotationIsFinal`).
- A room's media may change after the room has ended (`MediaMayReachEndedRoom`), and LiveKit's refusal to
  delete a room is never retried (`LiveKitFailureIsNotRetried`).
- A late save of the playback position can lower the stored version (`LateSaveLosesTheOthers`).
- Somebody who does not own a media is served its playback exactly while an entry that the owner, or a lookup
  naming nobody, has stored is still there (`StrangerServedIff`); under the same condition a reply says ready
  after the row's status has moved on (`StaleReadyIff`).
- A cache entry outlives its row exactly when it was stored, the row was deleted, and nothing has dropped the
  entry since its store: because the deletion did not (its update reported an error although it took effect, or
  dropping the entry failed), or because a lookup that had read the row before the deletion stored its entry
  after it (`EntryWithoutRowIff`). The second happens although the deletion succeeds, and whoever asks is then
  served the deleted media (`DeletionEndsPlayback`, `LateStoreServesDeleted`).

Run `dafny verify dfyconfig.toml` to check the project.

## Model

| member | source | states |
|---|---|---|
| Paths.PathJoinPlain | internal/service/media_upload.go:176 | joining plain components is joining them with slashes: Clean changes nothing |
| Paths.DotDotCollapses | internal/service/media_upload.go:176 | a final `..` removes the component before it, so the key shrinks to its directory |
| Paths.DirUndoesJoin | internal/service/media_upload.go:451 | path.Dir takes off exactly the component path.Join added last |
| Paths.BaseShape | internal/service/media_upload.go:510-517 | a base name is never empty, and has no slash unless it is a lone one |
| Paths.BaseIs | internal/service/media_upload.go:510-517 | the base name of a path is its last component, whatever slashes follow |
| Paths.CleanLaws | internal/service/media_transcoder.go:259 | Clean drops empty components and dots anywhere, a component with the `..` after it, and `..` at the root |
| Paths.CleanNormal | internal/service/media_transcoder.go:259 | and leaves alone what none of these applies to |
| Paths.CleanRooted | internal/service/media_transcoder.go:268 | a rooted path of plain components stays as it is |
| KeyLayout.ExtractBelowPrefix | internal/service/storage.go:336-348 | every key below a media prefix, trimmed or not, parses back to that id and that prefix |
| KeyLayout.PrefixesDisjoint | internal/service/media_upload.go:400 | no key lies below the prefixes of two different (owner, id) pairs |
| KeyLayout.PrefixInjective | internal/service/media_upload.go:400 | equal prefixes mean equal owner and id |
| KeyLayout.OutputKeysRoundTrip | internal/service/media_transcoder.go:382-405 | every HLS and preview key starts with DeleteMedia's prefix and parses to its id and that prefix |
| KeyLayout.OriginalKeyRoundTrip | internal/service/media_upload.go:175-176 | every upload key parses to its id and prefix, and starts with the prefix if and only if its base name is not `..` |
| KeyLayout.ManifestKeyIsUploaded | internal/service/media_transcoder.go:224-229 | the manifest key playback reads is the key the worker uploads `index.m3u8` under |
| KeyLayout.OriginalIsNotOutput | internal/service/media_upload.go:176 | an upload never lands on a transcoder output key |
| KeyLayout.SanitizedShape | internal/service/media_upload.go:510-517 | a sanitised name is one plain component, or `..` exactly when the base name is |
| KeyLayout.BuiltKeysCanonical | internal/service/storage.go:336-348 | all keys the service builds lie in the media directory of their owner and id |
| KeyLayout.KeysAre | internal/service/media_upload.go:175-176 | every key the service builds, spelled out |
| KeyLayout.SanitizedIs | internal/service/media_upload.go:510-517 | a sanitised name is the base name with underscores for blanks, or "file" |
| KeyLayout.ExtractIff | internal/service/storage.go:336-348 | what a key of the form users/o/media/i parses to, whatever follows |
| KeyLayout.ExtractOnlyIf | internal/service/storage.go:336-348 | and no key of another form parses |
| MediaTable.StatementsEvolve | internal/repository/media.go:221-287 | over any sequence of statements rows stay, keep owner and key, and a soft-deleted row is frozen whole |
| MediaTable.StatementSets | internal/repository/media.go:221-287 | for every statement each field it sets and each it keeps, and that other rows and dead rows stay |
| MediaTable.MediaRepository.Create | internal/repository/media.go:57-106 | inserts the row unless the id is taken; reports a conflict exactly then, and an error exactly when the statement meets a fault, before or after its effect |
| MediaTable.MediaRepository.GetByID | internal/repository/media.go:153-186 | the row exactly if it is live; not-found and error exactly for their causes |
| MediaTable.MediaRepository.ListExistingIDs | internal/repository/media.go:188-219 | the ids of the list with a live row, each once; no query for the empty list |
| MediaTable.MediaRepository.Update | internal/repository/media.go:221-287 | the four guarded updates: on a live row their effect, else not-found and no change; an error exactly for a fault, before or after the effect |
| ObjectStore.StorageService.ListPage | internal/service/storage.go:256-260 | a page of any size: the next keys in order after the mark, none skipped |
| ObjectStore.StorageService.DeleteObjectsByPrefix | internal/service/storage.go:226-276 | the bucket loses exactly the trimmed forms of the keys with the prefix, in batches of 1 to 1000, although earlier keys go while later pages are listed; it fails exactly without a bucket or a prefix or when a call meets a fault, and then only part of them go |
| ObjectStore.StorageService.ListMediaPrefixes | internal/service/storage.go:278-307 | over all pages of a complete listing, each parsed id with the prefix of the first key that has it; it fails exactly without a bucket or when a page does |
| ObjectStore.LeastKeyWins | internal/service/storage.go:289-304 | the prefix recorded for an id is that of the least key that parses to it, however the pages are cut |
| ObjectStore.PageOfOriginal | internal/service/storage.go:256-273 | deleting what earlier pages listed does not disturb what later pages hold |
| ObjectStore.SubmittedOnce | internal/service/storage.go:261-272 | no key is submitted twice, when the listed keys are trimmed |
| ObjectStore.DeletionExact | internal/service/storage.go:226-276 | no key without the prefix goes, and none with it stays if and only if all of those are trimmed |
| ObjectStore.UploadIsDeletable | internal/service/media_upload.go:510-517 | a deletion by the media's prefix takes an upload if and only if its base name is not `..` and does not end in white space |
| ObjectStore.TabBeforeSlashStays | internal/service/media_upload.go:510-517 | a file name whose object every deletion leaves behind |
| ObjectStore.FirstPrefixWins | internal/service/storage.go:294-303 | an id is recorded iff some listed key parses to it, with the first such key's prefix |
| Cleanup.MediaCleanupService.constructor | internal/service/media_cleanup.go:35-51 | a batch size that is not positive becomes 1000 |
| Cleanup.MediaCleanupService.CollectIDs | internal/service/media_cleanup.go:63-70 | every non-blank id once |
| Cleanup.MediaCleanupService.ExistingIDs | internal/service/media_cleanup.go:72-86 | the chunks, all but the last full, hold the ids in order and together answer what one query would; it fails exactly when one of them does |
| Cleanup.MediaCleanupService.RunOnce | internal/service/media_cleanup.go:54-112 | scanned = live + deleted + failed; each orphan is attempted once by a deletion of its recorded prefix and counts as failed iff that reports an error; the bucket loses all that successful attempts doom and nothing that no attempt dooms; without faults it ends normally with nothing missed |
| Cleanup.MediaCleanupService.DeleteOrphans | internal/service/media_cleanup.go:88-109 | the deletions made are one per id not reported live, with its recorded prefix, and `missed` are those that reported an error, which needs a fault |
| Cleanup.Accounting | internal/service/media_cleanup.go:63-111 | scanned ids partition into live, deleted and failed |
| Cleanup.SweptStep | internal/service/media_cleanup.go:88-104 | deleting one orphan after others removes all it would have removed at the start |
| Cleanup.SweepSafe | internal/service/media_cleanup.go:54-112 | whatever fails, a removed key lies strictly below the directory of a media without a live row |
| Cleanup.OrphanIsSwept | internal/service/media_cleanup.go:54-112 | if ids determine owners, a sweep without failures removes every canonical orphan, whatever else is in the bucket |
| Cleanup.SweepComplete | internal/service/media_cleanup.go:54-112 | over canonical keys it leaves exactly the keys that should stay |
| Cleanup.DotDotMediaParses | internal/service/storage.go:336-348 | why canonical: a key with media id `..` parses to the prefix of a whole user |
| Cleanup.DotDotMediaTakesTheUser | internal/service/media_cleanup.go:88-104 | with such an object a sweep removes all trimmed objects of that user, live media included |
| Cleanup.DotDotUploadIsNeverSwept | internal/service/media_cleanup.go:54-112 | an upload under the base name `..` survives every sweep and every deletion |
| RepeatedCleanup.SweepTakesExactly | internal/service/media_cleanup.go:54-112 | over canonical keys, whoever's directories share an id, a failure-free sweep removes exactly the orphans below the prefix recorded for their id |
| RepeatedCleanup.SweepIsATurn | internal/service/storage.go:288-306 | that is: exactly the orphans in the directory of the least key of their id, whatever the pages |
| RepeatedCleanup.SweepShrinksIff | internal/service/media_cleanup.go:88-104 | over any bucket, a failure-free sweep shrinks it iff for some dead id recorded an object below the recorded prefix has its trimmed form in the bucket |
| RepeatedCleanup.RepeatedSweepsSettle | internal/service/media_cleanup.go:114-125 | over any canonical bucket, after as many sweeps as objects a further one takes nothing |
| RepeatedCleanup.OrphanOutlivesIff | internal/service/media_cleanup.go:114-125 | an orphan outlives all sweeps iff a key no sweep takes, of the same id, is listed before every key of its directory |
| RepeatedCleanup.DirectoryKeyShields | internal/service/storage.go:294-303 | the object of a `..` upload, listed first, shields all orphans of that id in another owner's directory for good |
| MediaSafety.StepKeeps | internal/service/media_upload.go:159-246 | every step of every process keeps the invariant of the media protocol |
| MediaSafety.RunKeeps | internal/service/media_transcoder.go:106-133 | the invariant and the frozen rows over all runs |
| MediaSafety.SweeperSafety | internal/service/media_cleanup.go:54-112 | under every interleaving, a key a sweep removes belongs to a media that has no live row, then or in any later state |
| ReadyMedia.RemovalHasCause | internal/service/media_upload.go:387-407 | no object disappears unless its media has no live row or the step is a batch delete by a DeleteMedia of that very media |
| ReadyMedia.ThereIff | internal/service/storage.go:226-276 | in every run a key of a live media is in the bucket iff some step put it and no deletion of the media has deleted it since |
| ReadyMedia.ReadyHasOutputs | internal/service/media_transcoder.go:213-241 | in every reachable state each output of the worker run that marked a live ready row, preview and manifest included, is missing iff a deletion of the media deleted it and nobody has put it back since |
| ReadyMedia.ReadyHasManifest | internal/service/media_upload.go:445-449 | in particular the manifest playback reads |
| ReadyMedia.GivenUpDeleteStrandsReady | internal/service/media_upload.go:400-407 | such a deletion may have ended: from every state with a ready row and its manifest, a run after which no process is left of it, the row is live and ready and the manifest gone |
| PlayableMedia.ManifestHasWriter | internal/service/media_transcoder.go:392-422 | a live media's manifest in the bucket was put last by some worker run |
| PlayableMedia.ServedLineThereIff | internal/service/media_upload.go:440-495 | every relative line served is signed for an output of the run that wrote the manifest last; its object is there iff put and not deleted since, and, if that run also marked the row ready, unless a deletion has taken it |
| PlayableMedia.ReadyPlaysInFull | internal/service/media_upload.go:440-495 | so the media plays in full when the marking run wrote the manifest last and no deletion took its objects |
| PlayableMedia.ServedPreviewThereIff | internal/service/media_upload.go:457-463 | the preview URL of a miss is signed for the key the worker put the preview under; the object is missing iff a deletion has taken it; the answer holds for exactly the time to live |
| PlayableMedia.NextJobServesMissing | internal/service/media_transcoder.go:392-422 | why that condition: a worker with another job of a media, ready or not, puts its manifest first, and a line then refers to an object that is not there |
| PlayableMedia.ReadyWithAnotherJob | internal/service/media_transcoder.go:120-133 | a worker that marks a media ready takes its second queued job with the row still ready |
| MediaSafety.NoStuckJob | internal/service/media_upload.go:230-246 | a live row in processing is queued, held by the worker or by a CompleteUpload, or was let go by one of three faulty writes |
| StrandedJobs.StrandsExactly | internal/service/media_transcoder.go:126-130 | exactly which steps strand a job: the processing mark applied with an error, or either failure mark refused, when nobody else queues or holds it |
| StrandedJobs.RescuesExactly | internal/service/media_upload.go:230-246 | exactly which steps end that: a completion's uploaded mark, its processing mark without an error, or a soft delete |
| StrandedJobs.StrandedIff | internal/service/media_upload.go:238-246 | a media is stranded at the end of a run iff one of the former steps stranded it and none of the latter came since |
| MediaSafety.QuietMeansSettled | internal/service/media_transcoder.go:120-133 | with the queue empty, no holders and no faults, no live row is left in processing |
| MediaSafety.QueueIsFifo | internal/service/media_transcoder.go:106-121 | jobs taken, then jobs queued, are the jobs accepted in order; the queue never exceeds its capacity |
| MediaSafety.SoftDeleteIsPermanent | internal/repository/media.go:273-287 | a soft-deleted row is the same in every later state |
| Uploads.NormalizedShape | internal/service/media_upload.go:502-508 | a normalised MIME type has no parameters, no outer white space and is in lower case |
| Uploads.NormalizedIs | internal/service/media_upload.go:502-508 | of a type between white space, with or without parameters, normalising leaves the type in lower case |
| Uploads.MimeParts | internal/service/media_upload.go:502-508 | every text is of that form |
| Uploads.NormalizeTwice | internal/service/media_upload.go:497-508 | normalising is idempotent |
| Uploads.TitleShape | internal/service/media_upload.go:519-526 | a title is the file name without extension and outer space, never blank |
| Uploads.MediaUploads.InitUpload | internal/service/media_upload.go:159-201 | the URL leaves iff the input is valid, the key can be signed and the row is stored without an error; it is signed for the very key the row records, and the row has owner, title, name, size and type; a lost reply may leave a row whose URL nobody gets |
| Uploads.MediaUploads.constructor | internal/service/media_upload.go:64-82 | the allowed types are the configured ones in lower case, or six for a list of blanks |
| Uploads.MediaUploads.Enqueue | internal/service/media_transcoder.go:106-118 | queues the trimmed id at the end, or refuses exactly when it is blank or the queue is full |
| Uploads.MediaUploads.MarkAndQueue | internal/service/media_upload.go:230-246 | for every combination of faults of its three status writes: how it ends, which writes have taken effect and what is queued |
| Uploads.MediaUploads.CompleteUpload | internal/service/media_upload.go:203-247 | every refusal iff its cause; without faults it succeeds iff all checks pass and the queue has room; then the row has the size and normalised type the store reports and the status of the last write, and all else is as it was |
| Uploads.CompletionIsARun | internal/service/media_upload.go:203-247 | however a completion ends by its contract, faulty writes and a full queue included, it is a run of the media protocol with the same rows and queue |
| Uploads.InitIsARun | internal/service/media_upload.go:159-201 | so is an upload that stores its row, with its URL released or not |
| Uploads.LostMarkStrands | internal/service/media_upload.go:241-244 | with a full queue and a failure mark refused by a fault, the row says processing and nobody queues or holds the job |
| TailBuffer.LastOfLast | internal/service/media_transcoder.go:503-507 | forgetting the front before a write loses nothing the write would keep |
| TailBuffer.Buffer.ShiftLeft | internal/service/media_transcoder.go:503-506 | the overlapping shift in place leaves the bytes from `from` on |
| TailBuffer.Buffer.Write | internal/service/media_transcoder.go:495-509 | the buffer is the last maxBytes bytes of all writes so far, and the whole input is reported |
| Manifest.SignManifest | internal/service/media_upload.go:472-495 | the manifest with every line signed, or nothing exactly when some relative line cannot be signed |
| Manifest.LinesSurvive | internal/service/media_upload.go:472-495 | cut into lines again: as many, in order, all but relative ones byte for byte, relative ones replaced by their signed URL |
| Manifest.NothingToSign | internal/service/media_upload.go:476-486 | a manifest without relative lines comes back unchanged |
| Manifest.SigningTwice | internal/service/media_upload.go:482-485 | signing a signed manifest changes nothing |
| Manifest.SegmentKeyIsUploadKey | internal/service/media_upload.go:487 | the key signed for an output file is the key uploadHLSOutput stored it under |
| Manifest.PlaybackFetchesUploads | internal/service/media_transcoder.go:392-421 | each relative line naming an output file becomes a URL for that very file's key |
| Transcoding.WithRetry | internal/service/media_transcoder.go:424-469 | succeeds iff one of the first maxAttempts calls does before anything ends the retries; no call after a success or once the context is over; 2^n - 1 seconds of backoff after n waits |
| Transcoding.BaseDirs | internal/service/media_transcoder.go:251-273 | the cleaned non-blank candidates, each once, where it first occurs |
| Transcoding.TempBaseDirs | internal/service/media_transcoder.go:251-273 | exactly the cleaned non-blank candidates, distinct, `/var/tmp` and the current directory among them |
| Transcoding.WorkspaceRemovedOnce | internal/service/media_transcoder.go:144-161 | each workspace made is run in once and then removed once; over distinct directories at most one each |
| Transcoding.WorkspaceRunsInside | internal/service/media_transcoder.go:144-161 | each run stands directly between the making and the removal of its workspace |
| Jobs.MediaTranscoder.Upload | internal/service/media_transcoder.go:382-387 | an upload with its retries: at most four calls, it succeeds iff one of them does, and stores that body under that key; a failure may have stored it too |
| Jobs.MediaTranscoder.UploadHLSOutput | internal/service/media_transcoder.go:392-422 | stores the files in order under their keys with their contents, all if every upload succeeds, else up to the first that cannot be uploaded |
| Jobs.MediaTranscoder.ProcessMediaInWorkspace | internal/service/media_transcoder.go:183-249 | succeeds iff every stage and the ready mark do, fails as the first failing stage does; the mark comes only after everything due is stored, and sets the URLs of manifest and preview and the duration of this run |
| Jobs.MediaTranscoder.ProcessInWorkspaces | internal/service/media_transcoder.go:141-181 | directories are tried in order, only a full disk leads on, the job ends as its last run did; a job that is done leaves its row ready for, and the bucket holding, what its last plan made |
| Jobs.MediaTranscoder.ProcessMedia | internal/service/media_transcoder.go:135-181 | the row is looked up once, missing iff it is not live or the lookup fails; over the candidate directories the loop never runs dry and tries at most four |
| Jobs.MediaTranscoder.WorkOn | internal/service/media_transcoder.go:120-133 | table and bucket after a whole turn of the worker: done means the row and objects show the last plan; else the failure mark was tried once and ended as its fault says; a plan in which all goes well succeeds unless a statement meets a fault; a bound on the store calls |
| Jobs.CallsBounded | internal/service/media_transcoder.go:424-469 | a job over n directories with at most m files a run makes at most 4n(2+m) store calls |
| MediaRuns.DeletionIsARun | internal/service/media_upload.go:387-407 | a DeleteMedia that reaches its soft delete is a run of the protocol with the same table and bucket |
| MediaRuns.FailedDeletionIsARun | internal/service/media_upload.go:400-403 | so is one that stops before, whatever it has deleted by then |
| MediaRuns.SweepIsARun | internal/service/media_cleanup.go:54-112 | so is whatever RunOnce leaves by its contract, whichever attempts failed and how far they came |
| MediaRuns.ProgramSweepIsSafe | internal/service/media_cleanup.go:54-112 | hence RunOnce, started in any reachable state, removes objects of no media that is live then or later |
| MediaRuns.JobIsARun | internal/service/media_transcoder.go:120-249 | and so is whatever a turn of the worker leaves, whichever stages and writes failed |
| Sessions.StatementsEvolve | internal/repository/tokens.go:75-126 | over any statements hashes and access-token ids stay unique, versions only grow, revoked rows are frozen |
| Sessions.RevocationTakes | internal/repository/tokens.go:105-126 | revoking a token makes it read as revoked iff some session bears it at that moment, and changes no other token |
| Sessions.SessionRepository.StoreSession | internal/repository/tokens.go:41-48 | inserts unless the id, the hash or the access-token id is taken; refused exactly then; an error exactly for a fault, before or after the effect |
| Sessions.SessionRepository.GetByRefreshTokenHash | internal/repository/tokens.go:50-73 | the session with that hash, or none exactly when there is none, or an error |
| Sessions.SessionRepository.RotateSession | internal/repository/tokens.go:75-103 | gives an unrevoked session the new secret, token, times and next version, keeps its user, and changes nothing else; else changes nothing |
| Sessions.SessionRepository.IsAccessRevoked | internal/repository/tokens.go:105-116 | whether a revoked session bears the token |
| Sessions.SessionRepository.RevokeAccess | internal/repository/tokens.go:118-126 | marks exactly the unrevoked sessions bearing the token, at that time, and changes no other field |
| Sessions.AuthService.Login | internal/service/auth.go:94-138 | rejects exactly wrong credentials; succeeds iff nothing fails or clashes; stores version 1 with the hash of the secret returned, valid for the time to live; a lost reply may leave a session whose secret nobody got |
| Sessions.AuthService.Refresh | internal/service/auth.go:140-173 | with other requests between read and rotation: it reads iff some session bears the secret, unrevoked and not expired, and then succeeds iff it is still unrevoked when it rotates and nothing fails; each refusal has its cause |
| SessionRuns.StepKeeps | internal/service/auth.go:140-173 | every step of logins, refreshes and revocations keeps the invariant |
| SessionRuns.StepSets | internal/service/auth.go:94-173 | what logins and rotations make of the table, field by field |
| SessionRuns.OtherStepsSet | internal/repository/tokens.go:50-126 | and what revocations do, and which sessions lookups accept |
| SessionRuns.CommitsIff | internal/repository/tokens.go:75-84 | a rotation commits iff its session is unrevoked at that moment, however old its read is |
| SessionRuns.RowTellsItsHistory | internal/repository/tokens.go:77-83 | in every run the version is 1 plus the committed rotations and the hash that of the last committed secret |
| SessionRuns.AnswersIncrease | internal/service/auth.go:160-171 | versions returned for one session increase strictly in commit order and never exceed the stored one |
| SessionRuns.RetiredStaysRetired | internal/repository/tokens.go:50-103 | a secret or access-token id once out of the table never comes back |
| SessionRuns.RotationIsFinal | internal/repository/tokens.go:75-126 | a rotated-out secret never matches a lookup again, and the replaced access token never reads as revoked, even if revoked later |
| SessionRuns.OneSecretRefreshesTwice | internal/service/auth.go:140-173 | two refreshes that read one secret before either rotates both succeed, one version apart, and the first one's new secret is dead |
| SessionRuns.OldSecretRefreshes | internal/service/auth.go:140-173 | in every state after a rotation, no lookup finds the replaced secret, a refresh that has read by it did so before the rotation, and it commits iff the session is still unrevoked |
| SessionRuns.RevocationIsPermanent | internal/repository/tokens.go:75-126 | a revoked session is frozen in every later state, no refresh rotates it, and its token stays revoked |
| Rooms.EndedAtMostOnce | internal/repository/rooms.go:144-158 | over any interleaved statements a room is ended at most once, exactly when it was active and is not afterwards |
| Rooms.StatementsEvolve | internal/repository/rooms.go:144-179 | status changes only from active to ended, and an end time is never overwritten |
| Rooms.ReplyIsTrue | internal/service/room.go:118-151 | a reply that the room is closed is true of the table whatever ran in between and describes the stored room but for its media |
| Rooms.LiveKitFailureIsNotRetried | internal/service/room.go:137-151 | after a LiveKit failure the room is ended in the table, and later requests succeed without asking LiveKit |
| Rooms.LiveKitAskedIff | internal/service/room.go:137-151 | LiveKit is asked iff the room was active as read, this request's own update ended it and no database error was reported |
| Rooms.SweepAsksLiveKit | internal/service/room.go:163-176 | a sweep without faults asks LiveKit once for every room it ends itself, by name, in order, and for no other |
| Rooms.SweepAccounting | internal/service/room.go:153-179 | closed + failed + vanished = stale rooms listed; none failed without faults |
| Rooms.SweepIsStatements | internal/service/room.go:153-179 | a sweep with everything between its steps is a sequence of row statements, so it ends no room twice |
| Rooms.SweepEndsEveryStaleRoom | internal/service/room.go:163-176 | without faults, whatever others do, no stale room listed is active afterwards |
| Rooms.QuietSweepIsExact | internal/service/room.go:153-179 | alone, the sweep ends exactly the stale rooms, each at its own time, and counts them all as closed |
| Rooms.RoomRepository.CreateRoom | internal/repository/rooms.go:47-63 | inserts a room without an end time unless the id is taken |
| Rooms.RoomRepository.ListActiveRooms | internal/repository/rooms.go:95-123 | exactly the active rooms, each once, oldest first |
| Rooms.RoomRepository.EndRoom | internal/repository/rooms.go:144-158 | ends an active room, else reports that none was found |
| Rooms.RoomRepository.UpdateRoomMedia | internal/repository/rooms.go:160-179 | sets the media of any room that exists, whatever its status |
| Rooms.RoomService.EndRoomById | internal/service/room.go:118-135 | EndRoom and EndRoomByOwner: each refusal iff its cause; else the room as read is ended as endRoom does |
| Rooms.RoomService.EndIfActive | internal/service/room.go:137-151 | each reply iff its cause, the row ended at its time iff still active, and LiveKit asked for that room's name exactly once iff the update went through |
| Rooms.RoomService.EndStaleActiveRooms | internal/service/room.go:153-179 | the rooms attempted are exactly the active ones of at least the age limit, or a day, each once; table, counters and LiveKit calls are those of the specified sweep; if the listing fails nothing happens |
| Rooms.RoomService.UpdateRoomState | internal/service/room.go:80-116 | each answer iff its cause, every database error included; only the media of that room changes, to the one asked for or to none |
| Rooms.MediaMayReachEndedRoom | internal/repository/rooms.go:160-166 | the new media reaches an ended room exactly when the room was ended between check and update |
| RoomPlayback.StateKeysDiffer | internal/service/room_playback.go:128-130 | rooms do not share a cache key |
| RoomPlayback.RoomPlaybackService.SaveByHost | internal/service/room_playback.go:72-126 | each refusal iff its cause; the stored state is one version above the one read, takes the fields given and keeps the others, whatever others did to the cache in between |
| RoomPlayback.SerialSaves | internal/service/room_playback.go:101-115 | serial saves raise the version by exactly one each; rate, medium and status are the last ones given, or those there were; position, host and time are the last save's |
| RoomPlayback.LateSaveLosesTheOthers | internal/service/room_playback.go:84-124 | a save that read before k others changes the stored version by 1 - k and undoes the media they named |
| RoomPlayback.StepKeeps | internal/service/room_playback.go:72-126 | every read, write and expiry keeps the invariant |
| RoomPlayback.VersionsOverRuns | internal/service/room_playback.go:72-126 | in every run each stored version is 1 or one above an earlier one, so it never exceeds the number of saves, and the rate is positive |
| Playback.CacheKeysDiffer | internal/service/media_upload.go:416-422 | the two kinds of cache keys are injective and never collide |
| Playback.MediaUploadService.BuildPlayback | internal/service/media_upload.go:440-470 | an answer iff the row as read is ready and its manifest readable and signable; signed manifest, signed preview, and expiry after the time to live |
| Playback.MediaUploadService.GetPlayback | internal/service/media_upload.go:249-355 | both lookups: each refusal iff its cause; a hit repeats the record, a miss answers for the row and stores that; what the cache holds afterwards; and they refine the specification the lemmas are about |
| Playback.MediaUploadService.ResolvePlaybackManifest | internal/service/media_upload.go:357-385 | each refusal iff its cause; a token yields the manifest of its media built anew, if that is live and ready |
| Playback.MediaUploadService.DeleteMedia | internal/service/media_upload.go:387-414 | succeeds iff it is the owner's live media and nothing meets a fault, each refusal iff its cause; then objects, row and cache entry go; on failure nothing changes, or some objects below the media's prefix go and nothing else, or the update took effect although it reported an error |
| PlaybackRuns.StepKeeps | internal/service/media_upload.go:249-414 | every step of overlapping lookups, deletions and other services keeps the cache invariant |
| PlaybackRuns.DeletionIsThreeSteps | internal/service/media_upload.go:400-411 | a deletion that nothing comes between is its purge, its soft delete and its drop |
| PlaybackRuns.MissIsThreeSteps | internal/service/media_upload.go:276-300 | a lookup that nothing comes between is its row read, its build and its store |
| PlaybackRuns.EntryIff | internal/service/media_upload.go:288-299 | in every run an entry is there iff a lookup stored it and nothing has dropped it since |
| PlaybackRuns.StoredAtByOwner | internal/service/media_upload.go:276-299 | entries are stored by the owner, or by a lookup that names nobody |
| PlaybackRuns.StrangerServedIff | internal/service/media_upload.go:254-282 | a lookup by somebody who does not own the media is served iff such an entry is there and the cache answers |
| PlaybackRuns.StaleReadyIff | internal/service/media_upload.go:254-273 | a reply says ready although the row does not under exactly the same condition |
| PlaybackRuns.EntryWithoutRowIff | internal/service/media_upload.go:405-411 | in every run an entry has no live row iff a store whose entry nothing dropped since and a deletion of the row both occurred; if the deletion came first, the lookup had read the row before |
| PlaybackRuns.DeletionEndsPlayback | internal/service/media_upload.go:387-414 | from the moment a DeleteMedia has dropped the entry, in every later state a lookup is served iff a lookup already under way then has stored an entry since; otherwise nothing is found, and by no token ever |
| PlaybackRuns.LateStoreServesDeleted | internal/service/media_upload.go:288-299 | wherever a lookup may store, a deletion that succeeds between its reads and its store leaves a playback everybody is served |
| PlaybackRuns.HitRepeatsMiss | internal/service/media_upload.go:254-273 | until expiry or deletion every lookup returns what the storing miss returned, but for a fresh manifest URL and an expiry cut to seconds |
| PlaybackRuns.BuildServesLastUpload | internal/service/media_upload.go:440-470 | over every run, what is built (for a lookup that uses no entry, or behind a token, `ServedAsBuilt`) serves the manifest uploaded last, each relative line signed for the key of the file it names |

## Left out

- HTTP handlers, routing, DTOs, validation, logging, JWT issuing and checking, webhooks: plumbing around these services.
- Registration, user lookup, password hashing, listing by owner and object URLs: results are parameters, the members would be easy.
- `StorageService.HeadObject` and presigning: a head that finds a non-empty allowed object is one step of the protocol, a presigner is a partial function from keys to URLs.
- ffmpeg and ffprobe, encoding profiles, the local file system and error texts: nondeterministic results; a full disk is a flag of a failure.
- S3 batch deletes that fail for single keys: the program discards the per-key errors of a reply, and a batch is all or nothing here.
- The worker's loop over the queue: `Jobs.MediaTranscoder.WorkOn` is one turn of it, taking jobs is a step of the protocol.
- Objects put into the bucket by anyone other than an upload or the worker.
- A crash of the server: in-memory jobs and half-done requests are lost by it, beyond the points where a request may stop with an error.
- Timers, timeouts and time-to-live: sweeps may run and cache entries may vanish at any moment.
- Several pages of one listing are one or more steps over any subset of the matching keys in the protocol, which allows more than the pager does; the pager itself is in `ObjectStore`.
- The input checks of uploads on size and MIME type are in `Uploads`, not in the steps of the protocol.
- Playback.MediaUploadService.GetPlayback: the method is one request with nothing in between; what overlapping ones do is in `PlaybackRuns`, whose three steps amount to it (`MissIsThreeSteps`). Without Redis the two lookups are those whose cache calls all fail, and a manifest token is refused.
- JSON and RFC 3339 encoding of cached records: taken to be lossless but for the cut to whole seconds.
- 32-bit and 64-bit wrap-around of versions, and floating-point rounding of the playback rate: integers and reals.
- Rows removed by deleting a user: no code of the service deletes users.
- LiveKit room creation, tokens and room names: names are not unique, so nothing maps a name to a room; deletion is a call that may fail.
- Rooms joined or listed by owner, and the media foreign key of rooms: single-branch reads.
