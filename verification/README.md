# A proved model of imgsrv

imgsrv stores disk images by content. Clients upload bytes in parts into a staging area of an S3-compatible bucket;
ingest workers hash the staged object, copy it to a key derived from its digest, record the blob and delete the staged
bytes. Operators publish image versions through a durable workflow of leased steps, and published versions are projected
as an Incus Simple Streams mirror. This project models that logic in Dafny and proves what it keeps, however calls
interleave, crash, lose their replies or are retried.

`dafny verify dfyconfig.toml` checks everything.

## How it is organised

**Uploads.** `UploadState` holds the durable state (objects, multipart uploads, sessions, ingest jobs, blobs) and one
atomic transition for every durable call. `UploadProtocol` is the service as small-step actors: a program counter keeps
the local variables a call still needs, and one move is one durable call. Any number of clients and workers interleave; a
crash can fall between any two calls; a call may answer, be refused, or take effect and lose its reply; somebody outside
may replace a staged object; the provider may expire an upload. `UploadInvariant` states what every reachable state
satisfies, what a running actor knows, and the relation no step breaks; `UploadSteps` proves one lemma for each durable
call; `UploadRuns` lifts them to every run, by `Runs`, and draws the conclusions. `UploadWorld`, `CasService` and `UploadService`
write the service calls as the source does, as methods over a shared world in which all others may act between two calls;
every execution is a run of the protocol. When the world is quiet the methods have exact outcomes, which is how recovery
after a crash is stated: any state a crash can leave is a valid starting state of the next call, if a call follows; an
ingest job that was running gets none (see below). `OnePartUpload` builds concrete runs; `UntaggedUpload` and
`StuckUploads` use them for what no later call repairs. `UploadParts` says what becomes of parts over runs, and
`UploadJourney` follows a file from the first byte sent to the bytes read back. `UploadGuards` says what single calls
refuse in any state at all, reachable or not.

**Objects.** `CompleteParts` normalises part lists, `CopyRanges` cuts an object into copy ranges, `MultipartCopy` is the
server-side copy against a bucket that others write to between its calls, driven by an arbitrary script of interference
and provider answers. `RangeRequests` follows a byte range from the client through the server to the object store,
`ContentRange` the answer back, with the ranges of `ByteRanges` and the numbers of `Decimals`.

**Publishing.** `PublishState`, `PublishProtocol`, `PublishRuns` and `PublishWorker` treat the publish workflow in the
same way as uploads. `Indexer` is the projection with its memo table, `ProductNames` the two documents built from its
rows. `PublishJourney` says what may be drafted and enqueued and follows a version to its readers, `PublishGuards` what
single transactions refuse in any state; `Patterns` are the name patterns.

**Elsewhere.** `ManagedCondition` prints and splits guarded conditions, `Literals` says which literals it reads, `Runner` is the
job loop with backoff and circuit breaker. `Text`, `Int64`, `Keys`, `Catalog`, `Memo`, `Sorting` and `Wrappers` hold what they share.

The hash is an arbitrary function from bytes to digests; where a claim needs it to be collision-free, it says so.

## Where the code and its documentation part, and where a promise has a condition

- `CopyObjectParams.IfDestinationAbsent` documents an already-exists error for an existing destination. The adapter
  reports a conflict instead when the source is at most 5 GB (`MultipartCopy.CopyObject`). The upload protocol holds for
  either answer.
- Good bytes are never failed, provided the store tags the staged object. Without a tag they are promoted if and only if
  the same bytes are already stored: `CasService.CommitStagedUpload` gives the exact condition and
  `UntaggedUpload.UntaggedGoodBytesAreFailed` a faultless run that fails them.
- An open session whose committed object has another size than declared can neither be completed nor aborted
  (`UploadService.CompleteUpload`, `UploadService.AbortUpload`), now or ever (`StuckUploads.StuckForever`). A completion
  leaves its session so if and only if the sizes the client lists do not add up to the sizes it sent
  (`StuckUploads.ListedSizesDecide`), and one lost reply is enough to get there (`StuckUploads.WrongSizesGetStuck`).
- Nothing repeats a running ingest job: the store hands out queued jobs only. A job whose worker is gone, or whose call
  ended in an error, stays running for ever (`StuckUploads.OrphanedForever`), and one crash is enough to get there
  (`StuckUploads.WorkersGoMissing`); the metrics page says so. A running job whose worker is still there and undisturbed
  ends (`CasService.CommitStagedUpload`, `CasService.StoreAndRecord`). The protocol also allows such a job to be repeated
  (`RepeatJob`), which is more than the code does, so its safety does not depend on the gap.
- `digestSHA256Hex` says lower-case and also accepts upper-case hexadecimal (`Indexer.UpperCaseDigestsPass`). A digest it
  accepts is a catalog digest if and only if it has no upper-case digit (`Indexer.LowerCaseDigestsAreValid`).
- The Range parser is not the grammar of section 14.1.2 of RFC 9110. An accepted header is grammatical if and only if it
  has no plus sign, no white space and no second dash (`RangeRequests.AcceptedIsGrammaticalIffPlain`). A grammatical
  header gets exactly the bytes it denotes if and only if its numbers fit 64 bits or it denotes none; otherwise it is
  refused (`RangeRequests.GrammaticalIsServed`, `RangeRequests.HugeBoundsAreRefused`). The grammar is taken for one range
  with the unit in lower case, the only ones the parser knows.

## Model

| member | source | states |
|---|---|---|
| `Keys.StorageKeyRoundTrip` | internal/cas/service.go:181-192 | a storage key is cas/sha256/, the first and second pair of digits, and all of them, and gives back its digest |
| `Keys.KeySpacesAreDisjoint` | internal/uploads/uploads.go:80-83 | different digests and uploads never share an object key, and no staging key is a CAS key |
| `UploadSteps.CopyOk` | internal/objectstore/objectstore.go:271-288 | a conditional copy, in one request or pinned part by part, keeps the invariant and undoes nothing |
| `UploadSteps.SucceedIngestJobOk` | internal/store/postgres/uploads/ingest.go:37-68 | recording a verified blob, readying its session and ending its job keeps the invariant |
| `UploadSteps.FailIngestJobOk` | internal/store/postgres/uploads/ingest.go:70-96 | a failure recorded for a justified reason keeps the invariant |
| `UploadSteps.ClaimIngestJobOk` | internal/store/postgres/uploads/ingest.go:14-35 | claiming an ingest job keeps the invariant |
| `UploadSteps.DeleteStagedOk` | internal/cas/service.go:769-793 | deleting the staged bytes after a recorded outcome keeps the invariant |
| `UploadSteps.CommitMultipartUploadOk` | internal/uploads/service.go:673-688 | committing the upload of a session creates its staged object and keeps the invariant |
| `UploadSteps.CompleteSessionOk` | internal/store/postgres/uploads/sessions.go:247-297 | completing a session whose upload was committed queues its one job and keeps the invariant |
| `UploadSteps.AbortSessionOk` | internal/store/postgres/uploads/sessions.go:299-335 | aborting a session whose upload is gone keeps the invariant |
| `UploadSteps.CreateSessionOk` | internal/store/postgres/uploads/sessions.go:15-103 | creating a staged or a ready session keeps the invariant |
| `UploadSteps.OverwriteOk` | internal/cas/service.go:538-565 | replacing a staged object from outside keeps everything but the claims about that object |
| `UploadInvariant.KnowledgeIsStable` | internal/cas/service.go:208-248 | what a running call knows survives every step of everybody else |
| `UploadRuns.RecoveryDecides` | internal/uploads/service.go:733-754 | recovery decides by the staged object, which is there exactly when the upload was committed and not yet decided |
| `UploadRuns.VerifyDecides` | internal/cas/service.go:250-307 | what verification finds staged justifies what the worker does next |
| `UploadRuns.RecordDecides` | internal/cas/service.go:588-630 | the trusted record leads recovery to a stat of the digest's own key; with a collision-free hash it never refuses verified bytes |
| `UploadRuns.ExistingDecides` | internal/cas/service.go:632-645 | re-verifying an unrecorded object never refuses verified bytes unless the hash collides |
| `UploadRuns.StepKeepsInv` | internal/cas/service.go:208-248 | one step of any client, worker, intruder or the provider keeps the invariant of the whole system |
| `UploadRuns.RunIsSafe` | internal/cas/service.go:208-248 | every state of every run satisfies the invariant and undoes nothing of the earlier ones |
| `UploadRuns.RecordedBlobsAreBacked` | internal/cas/service.go:208-248 | in every reachable state a recorded blob has an object at its storage key that hashes to the digest and has the recorded size |
| `UploadRuns.CasObjectsArePureAndPermanent` | internal/cas/service.go:538-565 | an object under a CAS key hashes to its digest, recorded or not, and no later step overwrites or deletes it |
| `UploadRuns.RecoveryNeverFailsVerifiedBytes` | internal/cas/service.go:309-356 | with a collision-free hash a worker goes to fail an upload only for the fact its reason names: staged bytes of another size or of another digest than declared, or a missing tag; of a staged object that was replaced meanwhile, what it saw of it |
| `UploadRuns.IngestOutcomeIsRight` | internal/cas/service.go:208-248 | a failed session had bad or untagged bytes committed, a session readied by ingest had the declared bytes |
| `UploadRuns.StagedBytesOutliveTheDecision` | internal/cas/service.go:229-240 | a queued or running ingest job still has its staged object |
| `UploadRuns.OutcomesAreFinal` | internal/cas/service.go:721-745 | however many workers run a job, its terminal outcome and a finished session never change |
| `UploadRuns.CompleteAndAbortExclude` | internal/uploads/service.go:296-463 | an aborted session's upload was discarded, a completed session's was committed |
| `UploadRuns.ReadySessionsCanBeRead` | internal/cas/service.go:395-423 | opening the digest of a ready session yields bytes of that digest and of exactly the declared size, now and in all later states |
| `UploadRuns.ExactlyRecordedBlobsOpen` | internal/cas/service.go:395-423 | a blob opens if and only if it is recorded, and what comes out has the digest asked for and the recorded size |
| `UntaggedUpload.UntaggedGoodBytesAreFailed` | internal/cas/service.go:309-330 | a run without faults in which good but untagged bytes are failed |
| `StuckUploads.ListedSizesDecide` | internal/uploads/service.go:316-363 | in every reachable state a completion that takes effect leaves its session with an object of another size than declared if and only if the listed sizes do not add up to the sizes sent |
| `StuckUploads.StuckForever` | internal/uploads/service.go:733-754 | such a session stays open with its object whatever any client, worker or the provider does, unless the staged object is replaced from outside |
| `StuckUploads.WrongSizesGetStuck` | internal/uploads/service.go:673-701 | a run with one lost reply that reaches such a session |
| `StuckUploads.OrphanedForever` | internal/store/postgres/uploads/ingest.go:98-121 | a running job that nobody works on never changes, since only queued jobs are claimed |
| `StuckUploads.WorkersGoMissing` | internal/store/postgres/uploads/ingest.go:98-121 | a run with one crash that reaches such a job although the declared bytes were committed |
| `UploadWorld.World.Call` | internal/uploads/uploads.go:44-72 | one durable call in the shared world: others act first, then the call is one move of the protocol |
| `UploadWorld.World.Begin` | internal/uploads/service.go:296-345 | the validation and first read of a request as one move of the protocol |
| `CasService.CleanUpStaging` | internal/cas/service.go:769-793 | deletes the staged object and nothing else |
| `CasService.RecordFailure` | internal/cas/service.go:721-730 | a recorded failure ends the job and the session; only an acknowledged one leads to deletion |
| `CasService.FailCommit` | internal/cas/service.go:706-748 | the failure is recorded before the staged bytes go; undisturbed, a recorded failure deletes them and an unrecorded one changes nothing |
| `CasService.ReadRecord` | internal/cas/service.go:588-605 | a record found for verified bytes describes them |
| `CasService.StatTrusted` | internal/cas/service.go:605-630 | a recorded object is accepted, a missing one is an error or fatal by the cause |
| `CasService.VerifyExisting` | internal/cas/service.go:632-645 | an unrecorded object is accepted when it re-verifies |
| `CasService.RecoverExistingCasObject` | internal/cas/service.go:588-630 | undisturbed, recovery accepts exactly when the object is there |
| `CasService.CopyToCas` | internal/cas/service.go:538-586 | the conditional copy, in one request or by parts and with either answer for an existing destination, stores the verified bytes or leaves an existing object alone |
| `CasService.EnsureCasObject` | internal/cas/service.go:538-586 | undisturbed, verified bytes end up stored unless they are untagged and unknown |
| `CasService.VerifyStagedUpload` | internal/cas/service.go:250-307 | accepts exactly a staged object of the declared size and digest |
| `CasService.RecordBlob` | internal/cas/service.go:221-240 | an acknowledged success means a ready session; a running job always succeeds once its bytes are stored |
| `CasService.RecordSuccess` | internal/cas/service.go:221-248 | deletes the staged bytes only after the success was recorded |
| `CasService.StoreAndRecord` | internal/cas/service.go:208-248 | from verified bytes to a recorded outcome |
| `CasService.CommitStagedUpload` | internal/cas/service.go:208-248 | undisturbed, with a collision-free hash: promoted if and only if the staged bytes are as declared and are tagged or already stored; failed otherwise |
| `CasService.RunOnce` | internal/jobs/promote/job.go:67-121 | undisturbed, claims the job exactly when it is queued and ends it as `CommitStagedUpload` says, or does nothing |
| `UploadService.MarkCompleted` | internal/store/postgres/uploads/sessions.go:167-187 | completing is idempotent and never reopens a session |
| `UploadService.MarkAborted` | internal/store/postgres/uploads/sessions.go:189-208 | only an open session is aborted |
| `UploadService.RecoverStaged` | internal/uploads/service.go:733-754 | follows the object store: completes on an object of the declared size, lets an abort proceed on none |
| `UploadService.CompleteMultipartOrRecover` | internal/uploads/service.go:673-701 | commits exactly the listed parts, joined in order, or recovers what an earlier call committed |
| `UploadService.AbortMultipartOrRecover` | internal/uploads/service.go:704-731 | discards the upload, or completes the session when the upload was committed after all |
| `UploadService.DecisionIsVisible` | internal/uploads/service.go:655-671 | an open session's staged object is there exactly when its upload was committed |
| `UploadService.CompleteUpload` | internal/uploads/service.go:296-396 | from every state a crash can leave, undisturbed: completes exactly when the object store holds the declared object or still holds every listed part under its tag and the session has not expired, and then the object is the parts joined in the order of their numbers; otherwise changes nothing; disturbed or not, an answer is the state of the session and its upload was committed |
| `UploadService.AbortUpload` | internal/uploads/service.go:399-463 | from every state a crash can leave, undisturbed: aborts unless the upload was committed, then completes instead; refuses every other session; disturbed or not, an answer is the state of the session and agrees with the fate of its upload |
| `UploadService.BeginStaged` | internal/uploads/service.go:181-236 | opens a storage upload without parts and a session over it, and touches nothing else, or leaves no upload behind |
| `UploadService.BeginTrusted` | internal/uploads/service.go:495-535 | a recorded blob of the declared size readies the session at once, one of another size refuses it |
| `UploadService.BeginUpload` | internal/uploads/service.go:143-236 | all outcomes of beginning an upload |
| `UploadService.PutUploadPart` | internal/uploads/service.go:239-293 | stores the part if and only if number and size are valid and session and upload are open and unexpired; every other part, every other upload and everything else but the state of the session stays as it was |
| `UploadParts.OnlyAPutChangesAPart` | internal/objectstore/objectstore.go:50-51 | one step of anybody: no stored part is lost, and a part is new or changed only by a put of its number and bytes to an active upload |
| `UploadParts.PartsStay` | internal/objectstore/objectstore.go:50-54 | over whole runs no part is lost, and the parts of an upload that is over never change |
| `UploadParts.NewUploadsAreEmpty` | internal/objectstore/objectstore.go:47-48 | a new upload is active and has no parts |
| `UploadParts.CommitsJoinTheListedParts` | internal/uploads/service.go:673-688 | every commit of every run is the listed parts joined in increasing order of their numbers, each listed with the tag it was stored under, now and ever after |
| `UploadState.JoinIsUnique` | internal/objectstore/objectstore.go:53-54 | the parts, their order and their sizes leave one object only |
| `UploadJourney.SendFile` | client/uploads.go:11-30 | undisturbed, a file sent in pieces is committed as a whole, however it was cut |
| `UploadJourney.SendAndIngestFile` | client/uploads.go:11-30 | undisturbed, with a collision-free hash: after one ingest the digest opens to exactly the bytes of the file if the client declared their digest, and the upload fails otherwise |
| `UploadGuards.SuccessNeedsItsJob` | internal/store/postgres/uploads/ingest.go:37-68 | in any state whatever, a success is recorded only for a running job of exactly that digest and size, and only if a record of the digest has that size |
| `UploadGuards.CopiesAreOfTheSource` | internal/objectstore/objectstore.go:271-288 | in any state, a copy takes effect only onto nothing and under the enforced tag, and writes the bytes of the tag and nothing else |
| `UploadGuards.OnlyCheckedObjectsAreRecorded` | internal/cas/service.go:588-668 | in any state, recovery trusts only a record of the right key and size, hashes what has no record, and takes nothing of another size |
| `UploadGuards.OpensOnlyTheRecordedSize` | internal/cas/service.go:395-423 | in any state, a digest opens if and only if it has a record whose object is there in the recorded size |
| `UploadGuards.SessionsAreInserted` | internal/store/postgres/uploads/sessions.go:15-103 | in any state, only a session of a new name is inserted, as asked for, and a ready one only if its digest has a record |
| `UploadGuards.CallsEndInEveryWay` | internal/uploads/uploads.go:44-72 | the model lets every call be answered, refused, or lose its reply, a copy as far as its conditions allow |
| `UploadGuards.OutsidersMayAct` | internal/cas/service.go:538-565 | the model lets others replace a staged object, the provider expire an upload and any call crash at any time |
| `CompleteParts.NormalizeCompleteParts` | internal/objectstore/objectstore.go:309-342 | accepts exactly the acceptable lists, stated without reference to order, and returns their strictly increasing permutation |
| `CompleteParts.NumbersAreOrdered` | internal/objectstore/objectstore.go:314-317 | on valid numbers the 64-bit difference the list is sorted by is an order |
| `CompleteParts.ScanDecidesAcceptance` | internal/objectstore/objectstore.go:318-340 | the scan over the sorted list passes exactly on acceptable lists |
| `CompleteParts.StrictArrangementIsUnique` | internal/objectstore/objectstore.go:309-342 | the strictly increasing permutation is unique |
| `CompleteParts.NormalizationIsOrderFree` | internal/objectstore/objectstore.go:309-342 | normalisation does not depend on the order of the input |
| `CompleteParts.AtMostMaxParts` | internal/objectstore/objectstore.go:350-357 | by pigeonhole a normalised list has at most 10000 parts |
| `CompleteParts.TotalIsBounded` | internal/objectstore/objectstore.go:359-369 | the total of valid sizes is bounded by the part count |
| `CompleteParts.NormalizeCompleteUploadParts` | internal/uploads/service.go:756-777 | the 64-bit running total is the exact sum |
| `CopyRanges.MultipartCopyParts` | internal/objectstore/s3/store.go:508-533 | rejects exactly the inadmissible sizes; otherwise tiles the object with ceil(size / 5 GiB) numbered ranges, without overflow |
| `CopyRanges.JoiningRangesRestores` | internal/objectstore/s3/store.go:510-533 | joining the ranges of a tiling restores the object |
| `CopyRanges.EveryByteIsCopiedOnce` | internal/objectstore/s3/store.go:510-533 | every byte lies in exactly one range |
| `MultipartCopy.InterferenceDisturbs` | internal/objectstore/objectstore.go:271-287 | no interference gives an old tag to other bytes or brings a tag back |
| `MultipartCopy.StatPins` | internal/objectstore/s3/store.go:324-340 | after the stat an enforced tag either is the tag of what was seen or has left the source for good |
| `MultipartCopy.PartAdvances` | internal/objectstore/s3/store.go:438-460 | a part copy that succeeds has read the tagged bytes |
| `MultipartCopy.CopyAllParts` | internal/objectstore/s3/store.go:438-460 | when all parts of a pinned copy succeed they assemble to exactly the tagged bytes; undisturbed, to exactly the source, tagged or not |
| `MultipartCopy.CopyThenComplete` | internal/objectstore/s3/store.go:438-489 | commits once, at the destination, onto nothing when asked so |
| `MultipartCopy.CopyObjectMultipart` | internal/objectstore/s3/store.go:394-489 | commits exactly the bytes of the enforced tag, or nothing, whatever others write meanwhile; an upload it created stays open only if its very last call was the refused abort of that upload, or the creation whose reply was lost |
| `MultipartCopy.CopyObject` | internal/objectstore/s3/store.go:324-372 | the same for both copy paths, bound to the caller's tag or else to the version the first read finds, of which an acknowledged copy reports the size; with the exact result of every undisturbed call and, in any, the answer the last refusal of the provider stands for |
| `Decimals.DecimalReadsBack` | client/blobs.go:82-110 | printed decimals read back |
| `RangeRequests.UsefulRangesArePrinted` | client/blobs.go:82-110 | the client builds exactly the ranges that name no negative position and denote a byte of some blob |
| `RangeRequests.ClientRangesAreServed` | internal/httpapi/blob_handler.go:303-386 | every client-built range on a blob of any size selects exactly the requested bytes that exist, and is refused exactly when there are none (RFC 9110, section 14.1.2) |
| `RangeRequests.SelectionIsInside` | internal/httpapi/blob_handler.go:303-386 | any accepted header selects a non-empty range inside the blob with the right length |
| `RangeRequests.WholeBlobIffNotAsked` | internal/httpapi/blob_handler.go:265-281 | a request gets the whole blob if and only if its Range is absent or blank or its If-Range does not allow |
| `RangeRequests.OtherwiseTheParserDecides` | internal/httpapi/blob_handler.go:265-281 | any other request gets what the parser makes of its header, whatever white space is around it, or the answer that nothing is selected |
| `RangeRequests.StoreReadsTheSelection` | internal/objectstore/s3/store.go:552-571 | the range sent to the store denotes exactly the selected bytes |
| `ContentRange.ContentRangeReadsBack` | internal/httpapi/blob_handler.go:388-396 | both parsers find the blob size in the printed Content-Range (RFC 9110, section 14.4) |
| `ContentRange.ResponseNames` | internal/httpapi/blob_handler.go:388-391 | before its first slash a response names the range a client would ask for with the same numbers |
| `ContentRange.NamedRangeSelectsTheSame` | internal/httpapi/blob_handler.go:388-391 | the range a response names denotes exactly the bytes it serves, and asking for it again selects the same |
| `ContentRange.SizeFollowsTheSlash` | client/blobs.go:229-251 | whatever the text, the size is the number behind its first slash |
| `ContentRange.NoSlashNoSize` | client/blobs.go:229-251 | without a slash there is no size |
| `ContentRange.ReadersAgree` | internal/objectstore/s3/store.go:574-591 | the adapter reads the same size as the client from every text, except that it refuses a negative one |
| `RangeRequests.AcceptedIsGrammaticalIffPlain` | internal/httpapi/blob_handler.go:303-386 | an accepted header is in the grammar of RFC 9110, section 14.1.2, if and only if it has no plus sign, no white space and no second dash |
| `RangeRequests.AcceptedHasAClientForm` | internal/httpapi/blob_handler.go:303-386 | whatever an accepted header selects is what a range built by the client selects |
| `RangeRequests.GrammaticalIsServed` | internal/httpapi/blob_handler.go:303-386 | every grammatical header on a blob of any size selects exactly the bytes it denotes if and only if its numbers fit 64 bits or it denotes none; one whose numbers do not fit is refused |
| `RangeRequests.HugeBoundsAreRefused` | internal/httpapi/blob_handler.go:345-372 | a last position beyond 64 bits is refused although the range denotes the whole blob |
| `RangeRequests.SignsAreAccepted` | internal/httpapi/blob_handler.go:345-372 | numbers with plus signs are accepted though not grammatical, and select what the plain numbers select |
| `RangeRequests.WhiteSpaceIsAccepted` | internal/httpapi/blob_handler.go:345-372 | so are numbers with white space around the dash |
| `Indexer.FindMetadataAttachment` | internal/materialization/incus/indexer.go:273-281 | finds the first metadata attachment, or there is none |
| `Indexer.IndexState.CombinedDiskSha256` | internal/materialization/incus/indexer.go:228-257 | the memo table gives what hashing would give; a pair in the table causes no read, and a pair that was read is in the table |
| `Indexer.IndexState.RowForArtifact` | internal/materialization/incus/indexer.go:178-226 | the row is the uncached row, or a read failed; its pair of blobs is read only if it is new to the table |
| `Indexer.FirstErrorDecides` | internal/materialization/incus/indexer.go:126-129 | the first failing artifact decides the outcome |
| `Indexer.RowsDescribeTheirArtifacts` | internal/materialization/incus/indexer.go:113-131 | rows come in manifest order, one for each selected artifact, and carry the image and version of the manifest, the operating system, architecture and variant of the artifact, its identities, digests, sizes and complete paths, and the checksum of its metadata followed by its disk |
| `Indexer.SelectedComeFrom` | internal/materialization/incus/indexer.go:111-121 | every selected pair is an artifact with one of its own attachments |
| `Indexer.IndexManifest` | internal/materialization/incus/indexer.go:107-154 | the loop with its memo table returns the rows of filter-then-map; rows and skips add up to the artifacts; the reader is asked for the blobs of each pair once, where the pair first occurs, and for nothing beyond that before an error |
| `Memo.FirstsAreDistinct` | internal/materialization/incus/indexer.go:228-235 | the pairs that are read are all different |
| `Indexer.IndexVersion` | internal/materialization/incus/indexer.go:68-154 | validation and lookup errors, otherwise the projection of the manifest |
| `Indexer.ValidDigestIsHex` | internal/materialization/incus/indexer.go:283-294 | catalog digests pass the digest check with their own digits |
| `Indexer.UpperCaseDigestsPass` | internal/materialization/incus/indexer.go:283-294 | so do upper-case digests |
| `Indexer.LowerCaseDigestsAreValid` | internal/materialization/incus/indexer.go:283-294 | a digest passes the check and has no upper-case digit if and only if the catalog accepts it |
| `Patterns.ValidatorsMatchPatterns` | internal/catalog/catalog.go:490-547 | the name validators accept exactly what the patterns of the catalog and of the database match |
| `Patterns.DigestsMatchTheirPattern` | internal/store/postgres/migrations/000001_initial_schema.sql:2-3 | digests are the prefix and 64 lower-case hexadecimal digits |
| `PublishRuns.EditDraftOk` | internal/store/postgres/migrations/000001_initial_schema.sql:217-388 | editing a draft keeps the invariant |
| `PublishRuns.EnqueueVersionOk` | internal/store/postgres/publish/store.go:75-136 | enqueueing freezes a publishable draft, creates its only job and keeps the invariant |
| `PublishRuns.ClaimStepOk` | internal/store/postgres/publish/store.go:592-640 | a claim, also of a stale step, hands out a new attempt locked at the time of the claim, and keeps the invariant |
| `PublishRuns.SucceedValidateOk` | internal/store/postgres/publish/store.go:214-244 | ending validation under a lease keeps the invariant |
| `PublishRuns.SucceedIndexOk` | internal/store/postgres/publish/store.go:247-280 | storing rows under a lease stores the projection of the frozen manifest |
| `PublishRuns.FinalizeOk` | internal/store/postgres/publish/store.go:283-322 | finalizing under a lease publishes the version and ends the job |
| `PublishRuns.FailStepOk` | internal/store/postgres/publish/store.go:325-349 | failing a step under a lease fails its job and keeps the invariant |
| `PublishRuns.RetryFindsTheFailure` | internal/store/postgres/publish/store.go:462-484 | a failed job has exactly one failed step, and everything before it succeeded |
| `PublishRuns.RetryJobOk` | internal/store/postgres/publish/store.go:158-188 | retry keeps the invariant |
| `PublishRuns.StepKeepsInv` | internal/publish/publish.go:179-204 | one step of any worker, operator or client keeps the invariant of the whole workflow |
| `PublishRuns.EvolutionIsSafe` | internal/publish/publish.go:179-204 | every later state of every run keeps the invariant and undoes nothing |
| `PublishRuns.AttemptsStayDistinct` | internal/store/postgres/publish/store.go:592-640 | no two workers ever hold the same attempt of a step, even under one worker identity |
| `PublishRuns.OnlyTheHolderChangesAStep` | internal/store/postgres/publish/store.go:657-691 | a step changes only by a claim, by the holder of its lease, or by a retry while nobody runs it |
| `PublishRuns.LeasesAreExclusive` | internal/store/postgres/publish/store.go:657-691 | at most one worker holds the lease of a step |
| `PublishRuns.LostLeasesStayLost` | internal/jobs/publishflow/job.go:110-135 | a lost lease is never held again and its worker changes nothing |
| `PublishRuns.LiveLeasesAreSafe` | internal/store/postgres/publish/store.go:592-640 | while an attempt claimed at some time runs, in any later state of any run, no claim that takes for stale only older locks touches the step |
| `PublishRuns.SuccessIsNeverTurnedIntoFailure` | internal/jobs/publishflow/job.go:110-142 | a success that was committed but reported as an error stays a success |
| `PublishRuns.StepsHappenInSequence` | internal/store/postgres/publish/store.go:592-640 | in every run a step that has left the queue has only succeeded steps before it, and those never change again |
| `PublishRuns.PublishedOnlyInSequence` | internal/store/postgres/publish/store.go:760-782 | a version is published only after its one job has run its three steps in order and all have succeeded |
| `PublishRuns.PublishedRowsAreTheFrozenProjection` | internal/jobs/publishflow/job.go:176-192 | the rows of a published version are the projection of the manifest frozen at enqueue, now and ever after |
| `PublishRuns.EnqueueFreezes` | internal/store/postgres/migrations/000001_initial_schema.sql:217-388 | an enqueued manifest never changes |
| `PublishJourney.ProperDraftsAreStored` | internal/store/postgres/migrations/000001_initial_schema.sql:113-176 | exactly proper manifests are accepted, for a new version or a draft of the same name, and stored as they are |
| `PublishJourney.BackedDraftsAreEnqueued` | internal/store/postgres/publish/store.go:529-570 | exactly drafts with an artifact and with all blobs there in the sizes they say can be enqueued, with three steps waiting |
| `PublishJourney.BlobsAreAdded` | internal/store/postgres/uploads/ingest.go:37-68 | verified blobs are added and never replaced |
| `PublishJourney.OnlyPublishedIsVisible` | internal/store/postgres/publish/store.go:760-782 | in every reachable state readers see rows of a version if and only if it is published |
| `PublishJourney.PublishedIsBacked` | internal/store/postgres/publish/store.go:529-570 | in every reachable state what was enqueued is proper and all its blobs are there in the sizes it says |
| `PublishJourney.VisibleRowsAreTrue` | internal/materialization/incus/indexer.go:206-226 | the rows readers see are valid, carry the real sizes of their blobs and the checksum of both together |
| `PublishJourney.PublishManifest` | internal/publish/publish.go:179-204 | undisturbed, a proper manifest whose blobs are there is published by one enqueue and three turns of a worker, and readers see exactly its projection |
| `PublishGuards.StrangersAreFencedOff` | internal/store/postgres/publish/store.go:657-691 | in any state whatever, a worker whose step does not run under its own name and attempt changes nothing |
| `PublishGuards.ClaimsCheck` | internal/store/postgres/publish/store.go:592-640 | in any state, a claim takes only a waiting step or one with a stale lock, of a job that is not over, after every blocking step before it |
| `PublishGuards.ClaimsLock` | internal/store/postgres/publish/store.go:592-655 | a claim locks exactly that step in the name of the worker, at the time of the claim, under the next attempt |
| `PublishGuards.ValidationChecksAgain` | internal/store/postgres/publish/store.go:214-244 | in any state, validation succeeds only if every blob of the manifest is there in the size it says |
| `PublishGuards.StoringChecksRows` | internal/store/postgres/publish/store.go:247-280 | in any state, rows are stored only for the version of the job and no two for one artifact |
| `PublishGuards.FinalizingChecksAgain` | internal/store/postgres/publish/store.go:283-322 | in any state, a version is published only while it is publishing, by its running job, after all blocking steps before the last |
| `PublishGuards.FailuresEndOpenJobs` | internal/store/postgres/publish/store.go:325-349 | in any state, a failure is recorded only under the lease of a job that is not over, and ends step and job |
| `PublishGuards.RetryRequeues` | internal/store/postgres/publish/store.go:158-188 | in any state, a retry requeues exactly the steps from the first failed one on that have not succeeded, with their attempts kept, and queues the job |
| `PublishGuards.FirstFailedIsFirst` | internal/store/postgres/publish/store.go:462-484 | the failed step a retry starts from is the first failed blocking one |
| `PublishWorker.PublishableProjects` | internal/store/postgres/publish/store.go:529-570 | a publishable manifest always has a projection, and its rows can be stored |
| `PublishWorker.ProjectVersion` | internal/jobs/publishflow/job.go:176-184 | undisturbed, the worker computes the projection of the stored manifest |
| `PublishWorker.RunIndexStep` | internal/jobs/publishflow/job.go:176-192 | undisturbed, the index step stores the projection of the frozen manifest; how it ends is reported truthfully |
| `PublishWorker.RunStep` | internal/jobs/publishflow/job.go:161-203 | undisturbed, every step succeeds; disturbed or not, a step reported done has succeeded under its own attempt, and a lease reported lost is not held |
| `PublishWorker.ReportFailure` | internal/jobs/publishflow/job.go:119-135 | without the lease a failure report changes nothing |
| `PublishWorker.RunOnce` | internal/jobs/publishflow/job.go:86-155 | undisturbed, takes the step exactly when it waits or its lock is stale and all before it have succeeded, and then achieves it and touches nothing else |
| `PublishWorker.RetryReopens` | internal/store/postgres/publish/store.go:508-527 | a failed job can always be retried; successes stay, the rest is queued with its attempts kept |
| `PublishWorker.RunUntilPublished` | internal/jobs/publishflow/job.go:86-155 | an unfinished job, however it was left, is published by at most three more undisturbed calls |
| `ProductNames.NameDecodes` | internal/materialization/incus/service.go:304-311 | a product name gives back its coordinates although versions may contain colons |
| `ProductNames.NamesAreUnique` | internal/materialization/incus/service.go:304-322 | stored rows share a name exactly when image and version coincide, the architectures are the same or two names of one, and the variants are the same or unset and default |
| `ProductNames.IncusArchitecture` | internal/materialization/incus/service.go:313-322 | x86_64 becomes amd64, aarch64 becomes arm64, all others keep their name |
| `ProductNames.DuplicatesAreCoordinates` | internal/materialization/incus/service.go:237-251 | a duplicate is reported exactly when coordinates coincide |
| `ProductNames.ColonsInImagesCollide` | internal/catalog/catalog.go:490-498 | without the image-name grammar names would be ambiguous |
| `ProductNames.SortedListIsItsSet` | internal/materialization/incus/service.go:248-250 | a sorted list without repetition is determined by its elements |
| `ProductNames.FirstDifferenceDecides` | internal/materialization/incus/service.go:248-250 | texts are ordered by the first position where they differ, a text before its continuations |
| `ProductNames.ProjectedProductNames` | internal/materialization/incus/service.go:237-251 | fails exactly on duplicate names, naming one; otherwise the sorted names of all rows |
| `ProductNames.ProductAliases` | internal/materialization/incus/service.go:324-341 | the exact version first, then the other names in order, nothing twice and nothing missing |
| `ProductNames.BuildProductFile` | internal/materialization/incus/service.go:188-303 | fails exactly on duplicates, missing aliases or paths that do not parse, naming the cause; otherwise one product for every row, made from that row; the catalog is asked for each image once, where it first occurs |
| `ProductNames.IndexListsTheProductFile` | internal/materialization/incus/service.go:135-251 | the index lists exactly the keys of the product file of the same rows, and is the only sorted list that does |
| `ManagedCondition.EscapeRoundTrip` | internal/authz/management.go:853-876 | an escaped rune reads back as that rune |
| `ManagedCondition.CutLiteralFails` | internal/authz/management.go:886-891 | a literal cut short does not unquote |
| `ManagedCondition.OnlyTheLiteralUnquotes` | internal/authz/management.go:886-891 | among the prefixes up to the closing quote exactly the whole literal unquotes |
| `ManagedCondition.SplitManagedRuleCondition` | internal/authz/management.go:879-908 | the scan returns what the first admissible stop gives |
| `ManagedCondition.SavedConditionReadsBack` | internal/authz/management.go:853-908 | printing then splitting returns the trimmed audience and the normalised condition, for all of them |
| `ManagedCondition.NonBlankPairsAreSaved` | internal/authz/management.go:853-876 | blank audiences and conditions are refused, and of the others exactly those of which the validator refuses the condition or the guarded text |
| `ManagedCondition.ResavingIsStable` | internal/authz/management.go:853-908 | saving what was read back stores the same text |
| `ManagedCondition.StoredTextsDiffer` | internal/authz/management.go:853-876 | different pairs are stored as different texts |
| `ManagedCondition.SplitTextsAreGuarded` | internal/authz/management.go:879-908 | whatever splits has the guarded form |
| `Literals.ExactlyLiteralsUnquote` | internal/authz/management.go:886-891 | a text unquotes to a value if and only if it is a literal of that value, in any of the three quotes and with any of the escapes of the language but those of a byte above 0x7f |
| `Runner.New` | internal/jobs/runner.go:93-127 | configured values are used as given, all others have their defaults, and every delay is positive |
| `Runner.NextBackoffIsDoubling` | internal/jobs/runner.go:307-314 | the wrapping doubling step is the capped power of two, also on overflow |
| `Runner.Run` | internal/jobs/runner.go:156-225 | after every attempt the loop sleeps what the closed form says of the streak that ends there, and opens the breaker exactly at the multiples of the threshold |
| `Runner.DelayInClosedForm` | internal/jobs/runner.go:174-198 | the step-by-step delay of the j-th failure, in wrapping arithmetic, is the cooldown if the threshold divides j, else min(initial * 2^((j-1) mod N), max) |
| `Runner.OneOpeningPerThreshold` | internal/jobs/runner.go:180-199 | m failures in a row, from the start or after an attempt that did not fail, open the breaker floor(m / N) times, and never when it is disabled |
| `Runner.SuccessRestarts` | internal/jobs/runner.go:213-215 | a success restarts the count |
| `Runner.DelaysStayInBounds` | internal/jobs/runner.go:289-314 | delays stay within the initial and the maximal backoff, and do not shrink without a breaker |

## Left out

- HTTP routing, JSON, problem documents, the SDK transport, configuration, logging, metrics and telemetry.
- SQL text and row scanning: each store call is one atomic transition with the guards of its statements.
- SHA-256 and the S3 client: the hash is a parameter, the object store an abstract bucket whose tags are never reused.
- Time: expiry and stale-lock cut-offs are inputs of the calls; run-after times of publish steps are not modelled.
- Identities: an ingest job is named by its upload, since the table holds at most one job for each; validation of
  the nil identity is left to the indexer.
- A crash also stands for any error after which an upload or promote call simply returns.
- The parts table of a session, which the service never reads back, appears only through the session state it moves.
- `UploadState` parts keep the text tag the client lists; object tags are blank or numbers, since only equality matters.
- Blob metadata fields, media types, failure messages and display names.
- `MultipartCopy.CopyObjectMultipart`: an abort that the provider refuses, or an upload whose identity is lost with the
  reply, is left to the bucket's own expiry, as in the source, which ignores the abort's error.
- `MultipartCopy.CopyAllParts`: while others write, claims nothing about the bytes when neither the caller nor the
  provider gives a tag; parts may then come from different versions of the source.
- `MultipartCopy.CopyObject`: says nothing about a caller's tag that was not issued before the call; callers learn tags
  from the store.
- The sorting algorithm of `slices.SortFunc` and `sort.Strings`: only the contract of sorting is used.
- Conditional requests on blobs other than the outcome of If-Range.
- The S3 client's own rendering of a ranged read: `RangeRequests.GetObjectHeader` takes it to be the header of the same span.
- `Literals.ExactlyLiteralsUnquote`: escapes that denote a single byte above 0x7f are read as errors; quoting valid text never
  writes them. The standard library's shortcut for literals without escapes is not a separate branch.
- Condition normalisation is trimming and condition validity a predicate that refuses the empty text; the expression
  language belongs to a foreign library.
- `Runner.Run`: cancellation ends the list of attempts; the attempt it interrupts is not in the list.
- Release titles, serials and the marshalling and schema validation of Simple Streams documents.
- Path escaping in projection rows: names the validators accept consist of characters that path escaping leaves alone. The
  path grammar of the document library is a parameter.
- `PublishRuns.EnqueueFreezes`: takes the guard that only drafts are edited to be atomic with the edit. The trigger reads
  the state of the version without a row lock at the default isolation, so in the database an edit that read the draft
  before an enqueue commits can still land after it. `PublishRuns.PublishedRowsAreTheFrozenProjection` rests on the same
  guard.
- Projection columns that are joined at read time: a stored row carries the image and version of its manifest.
- Token issue, roles, OIDC discovery and the rest of rule management.
