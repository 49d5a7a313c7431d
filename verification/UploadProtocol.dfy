/** Upload clients and ingest workers as small-step actors: one move per durable call, following
    internal/uploads/service.go, internal/jobs/promote/job.go and internal/cas/service.go.
    A program counter keeps exactly the local variables the rest of the call still needs. */
module UploadProtocol {
  import opened CompleteParts
  import opened Keys
  import Runs
  import opened Text
  import opened UploadState
  import opened Wrappers

  /** Which call entered the recovery of an already-completed staged object. */
  datatype Origin = AfterExpiry | AfterComplete | AfterAbort

  /** Why the CAS copy fell back to looking at what is already there. */
  datatype Cause = NoSourceETag | DestinationExists | CopyConflict

  /** Why an upload is about to be failed, with the staged object the worker read when that is the reason. */
  datatype Reason =
    | StagedMissing | WrongSize(seen: Object) | WrongDigest(seen: Object)
    | ETagRequired(seen: Object)
    | TrustedBlobMismatch | ExistingWrongSize | ExistingWrongDigest | StoredInfoMismatch

  /** The staged bytes a worker streamed, and the tag they carried. */
  datatype Verified = Verified(id: Uuid, digest: Digest, size: int, obj: Object)

  datatype Pc =
    | Idle
    // BeginUpload
    | LookingUp(id: Uuid, digest: Digest, size: int, expires: int)
    | InsertingReady(id: Uuid, digest: Digest, size: int, expires: int)
    | CreatingStaging(id: Uuid, digest: Digest, size: int, expires: int)
    | InsertingSession(id: Uuid, digest: Digest, size: int, expires: int, upload: nat)
    | UndoingStaging(upload: nat)
    // PutUploadPart
    | SendingPart(id: Uuid, upload: nat, number: int, bytes: Bytes)
    | RecordingPart(id: Uuid)
    // CompleteUpload and AbortUpload
    | CompletingStaging(id: Uuid, upload: nat, size: int, parts: seq<CompletePart>)
    | AbortingStaging(id: Uuid, upload: nat, size: int)
    | Recovering(id: Uuid, size: int, origin: Origin)
    | MarkingCompleted(id: Uuid)
    | MarkingAborted(id: Uuid)
    // promote.RunOnce and CommitStagedUpload
    | LoadingSession(id: Uuid)
    | Verifying(id: Uuid, digest: Digest, size: int)
    | Copying(v: Verified)
    | ReadingRecord(v: Verified, cause: Cause)
    | StattingTrusted(v: Verified, cause: Cause)
    | OpeningExisting(v: Verified, cause: Cause)
    | Committing(v: Verified)
    | Failing(id: Uuid, reason: Reason)
    | CleaningUp(id: Uuid)

  datatype Request =
    | BeginUpload(id: Uuid, digest: Digest, size: int, expires: int, now: int, trusted: bool)
    | PutUploadPart(id: Uuid, number: int, bytes: Bytes, now: int)
    | CompleteUpload(id: Uuid, parts: seq<CompletePart>, now: int)
    | AbortUpload(id: Uuid)
    | ClaimJob(id: Uuid)
    | RepeatJob(id: Uuid)

  /** How a durable call ends: it answers; it takes effect but reports a failure that an inner retry
      provoked; it is refused without effect; or, for a copy, it names an existing destination. */
  datatype Report = Answered | ReplyLost | Refused | AlreadyThere

  /** What the outside world decides at one move: the request an idle actor starts, a crash (which also
      stands for any error after which the call simply returns), or the outcome of a durable call
      together with the values the provider chooses. */
  datatype Choice =
    | Start(request: Request)
    | Crash
    | Reply(report: Report, etag: ETag, upload: nat, partTag: string, byParts: bool)

  /** The validation of `BeginUpload`. */
  function StartBegin(id: Uuid, digest: Digest, size: int, expires: int, now: int, trusted: bool): Pc {
    if !ValidDigest(digest) || size < 0 || expires <= now then Idle
    else if trusted then LookingUp(id, digest, size, expires)
    else CreatingStaging(id, digest, size, expires)
  }

  /** `PutUploadPart` up to its object-store call. */
  function StartPut(d: Durable, id: Uuid, number: int, bytes: Bytes, now: int): Pc {
    if !ValidNumber(number) || |bytes| > MULTIPART_MAX_PART_SIZE_BYTES || id !in d.sessions then Idle
    else
      var s := d.sessions[id];
      if !Open(s.state) || s.expires <= now || !s.storage.Multipart? then Idle
      else SendingPart(id, s.storage.upload, number, bytes)
  }

  /** `CompleteUpload` up to its first object-store call. A session that is completed, ingesting or ready
      is returned as it is; the sizes the client lists must add up to the declared size. */
  function StartComplete(d: Durable, id: Uuid, parts: seq<CompletePart>, now: int): Pc {
    if id !in d.sessions then Idle
    else
      var s := d.sessions[id];
      var normalized := Normalized(parts);
      if !Open(s.state) || !s.storage.Multipart? then Idle
      else if normalized == None || Total(normalized.value) != s.size then Idle
      else if s.expires <= now then Recovering(id, s.size, AfterExpiry)
      else CompletingStaging(id, s.storage.upload, s.size, normalized.value)
  }

  /** `AbortUpload` up to its object-store call. */
  function StartAbort(d: Durable, id: Uuid): Pc {
    if id !in d.sessions then Idle
    else
      var s := d.sessions[id];
      if !Open(s.state) || !s.storage.Multipart? then Idle
      else AbortingStaging(id, s.storage.upload, s.size)
  }

  function StartMove(d: Durable, r: Request): Option<(Durable, Pc)> {
    match r
    case BeginUpload(id, digest, size, expires, now, trusted) =>
      Some((d, StartBegin(id, digest, size, expires, now, trusted)))
    case PutUploadPart(id, number, bytes, now) => Some((d, StartPut(d, id, number, bytes, now)))
    case CompleteUpload(id, parts, now) => Some((d, StartComplete(d, id, parts, now)))
    case AbortUpload(id) => Some((d, StartAbort(d, id)))
    case ClaimJob(id) =>
      if Claimable(d, id) then Some((ClaimIngestJob(d, id), LoadingSession(id))) else Some((d, Idle))
    case RepeatJob(id) =>
      if id in d.jobs then Some((d, LoadingSession(id))) else None
  }

  /** Moves of `BeginUpload` and `PutUploadPart` after their first step. */
  function ClientMove(d: Durable, pc: Pc, c: Choice): Option<(Durable, Pc)>
    requires c.Reply?
  {
    match pc
    case LookingUp(id, digest, size, expires) =>
      if digest !in d.blobs then Some((d, CreatingStaging(id, digest, size, expires)))
      else if d.blobs[digest].size != size then Some((d, Idle))
      else Some((d, InsertingReady(id, digest, size, expires)))
    case InsertingReady(id, digest, size, expires) =>
      if id in d.sessions || digest !in d.blobs then Some((d, Idle))
      else Some((CreateSession(d, id, Session(digest, size, Ready, ReadyMarker, expires)), Idle))
    case CreatingStaging(id, digest, size, expires) =>
      if c.upload in d.uploads then None
      else Some((CreateMultipartUpload(d, c.upload, id), InsertingSession(id, digest, size, expires, c.upload)))
    case InsertingSession(id, digest, size, expires, upload) =>
      if id in d.sessions || c.report == Refused then Some((d, UndoingStaging(upload)))
      else
        var d' := CreateSession(d, id, Session(digest, size, Created, Multipart(upload), expires));
        Some((d', if c.report == ReplyLost then UndoingStaging(upload) else Idle))
    case UndoingStaging(upload) =>
      Some((if IsActive(d, upload) then DiscardMultipartUpload(d, upload) else d, Idle))
    case SendingPart(id, upload, number, bytes) =>
      if !IsActive(d, upload) || c.report == Refused then Some((d, Idle))
      else
        // a part whose tag does not arrive, or is blank, is stored but not accepted
        Some((PutUploadedPart(d, upload, number, Part(bytes, c.partTag)),
              if c.report == ReplyLost || IsBlank(c.partTag) then Idle else RecordingPart(id)))
    case RecordingPart(id) => Some((RecordPart(d, id), Idle))
    case _ => None
  }

  /** `recoverCompletedStagedObject` after its stat: an object of the declared size completes the session; an
      absent one lets an abort proceed and fails a completion. */
  function AfterStagedStat(d: Durable, id: Uuid, size: int, origin: Origin): Pc {
    if Staging(id) !in d.objects then (if origin == AfterAbort then MarkingAborted(id) else Idle)
    else if |d.objects[Staging(id)].bytes| != size then Idle
    else MarkingCompleted(id)
  }

  /** Moves of `CompleteUpload` and `AbortUpload` after their first step. */
  function FinishMove(d: Durable, pc: Pc, c: Choice): Option<(Durable, Pc)>
    requires c.Reply?
  {
    match pc
    case CompletingStaging(id, upload, size, parts) =>
      if !IsActive(d, upload) then Some((d, Recovering(id, size, AfterComplete)))
      else if !PartsPresent(d.uploads[upload].parts, parts) || c.report == Refused then Some((d, Idle))
      else if !Fresh(d, c.etag) then None
      else
        var obj := Object(Assemble(d.uploads[upload].parts, parts), c.etag);
        Some((CommitMultipartUpload(d, upload, obj),
              if c.report == ReplyLost then Recovering(id, size, AfterComplete) else MarkingCompleted(id)))
    case AbortingStaging(id, upload, size) =>
      if !IsActive(d, upload) then Some((d, Recovering(id, size, AfterAbort)))
      else if c.report == Refused then Some((d, Idle))
      else Some((DiscardMultipartUpload(d, upload),
                 if c.report == ReplyLost then Recovering(id, size, AfterAbort) else MarkingAborted(id)))
    case Recovering(id, size, origin) => Some((d, AfterStagedStat(d, id, size, origin)))
    case MarkingCompleted(id) => Some((CompleteSession(d, id), Idle))
    case MarkingAborted(id) => Some((AbortSession(d, id), Idle))
    case _ => None
  }

  /** The effect of a conditional copy is possible: nothing is at the destination, and the source carries
      the enforced tag. A multipart copy pins the tag on every part, so it may commit the tagged bytes
      although the source has moved on since the last part. */
  predicate CanCopy(d: Durable, v: Verified, byParts: bool) {
    && Cas(v.digest) !in d.objects
    && v.obj.etag.Tag?
    && v.obj.etag.n in d.issued
    && (byParts || (Staging(v.id) in d.objects && d.objects[Staging(v.id)].etag == v.obj.etag))
  }

  function Copied(d: Durable, v: Verified, etag: ETag): (o: Object)
    requires v.obj.etag.Tag? && v.obj.etag.n in d.issued
  {
    Object(d.issued[v.obj.etag.n], etag)
  }

  /** `requireCASObjectInfo` on the metadata of the object now under the storage key. */
  function AfterInfo(v: Verified, size: int): Pc {
    if size == v.size then Committing(v) else Failing(v.id, StoredInfoMismatch)
  }

  /** `verifyStagedUpload` after opening and streaming the staged object. */
  function AfterStagedOpen(H: Bytes -> Digest, d: Durable, id: Uuid, digest: Digest, size: int): Pc {
    if Staging(id) !in d.objects then Failing(id, StagedMissing)
    else
      var obj := d.objects[Staging(id)];
      if |obj.bytes| != size then Failing(id, WrongSize(obj))
      else if H(obj.bytes) != digest then Failing(id, WrongDigest(obj))
      else
        var v := Verified(id, digest, size, obj);
        if obj.etag == Blank then ReadingRecord(v, NoSourceETag) else Copying(v)
  }

  /** `recoverExistingCASObject` after reading the blob record. */
  function AfterRecord(d: Durable, v: Verified, cause: Cause): Pc {
    if v.digest !in d.blobs then OpeningExisting(v, cause)
    else if d.blobs[v.digest].key != Cas(v.digest) || d.blobs[v.digest].size != v.size then
      Failing(v.id, TrustedBlobMismatch)
    else StattingTrusted(v, cause)
  }

  /** Nothing under the storage key: fatal for an upload whose copy could not be attempted, otherwise an
      error that leaves the job running. */
  function NothingStored(v: Verified, cause: Cause): Pc {
    if cause == NoSourceETag then Failing(v.id, ETagRequired(v.obj)) else Idle
  }

  function AfterStat(d: Durable, v: Verified, cause: Cause): Pc {
    if Cas(v.digest) !in d.objects then NothingStored(v, cause)
    else AfterInfo(v, |d.objects[Cas(v.digest)].bytes|)
  }

  /** Re-verification of an object that has no record. */
  function AfterExistingOpen(H: Bytes -> Digest, d: Durable, v: Verified, cause: Cause): Pc {
    if Cas(v.digest) !in d.objects then NothingStored(v, cause)
    else
      var bytes := d.objects[Cas(v.digest)].bytes;
      if |bytes| != v.size then Failing(v.id, ExistingWrongSize)
      else if H(bytes) != v.digest then Failing(v.id, ExistingWrongDigest)
      else AfterInfo(v, |bytes|)
  }

  /** Moves of an ingest worker. */
  function WorkerMove(H: Bytes -> Digest, d: Durable, pc: Pc, c: Choice): Option<(Durable, Pc)>
    requires c.Reply?
  {
    match pc
    case LoadingSession(id) =>
      if id !in d.sessions then Some((d, Idle))
      else Some((d, Verifying(id, d.sessions[id].digest, d.sessions[id].size)))
    case Verifying(id, digest, size) => Some((d, AfterStagedOpen(H, d, id, digest, size)))
    case Copying(v) =>
      if c.report == Refused then
        // a source mismatch, a race, or an existing destination reported as a conflict
        Some((d, ReadingRecord(v, CopyConflict)))
      else if c.report == AlreadyThere then
        (if Cas(v.digest) in d.objects then Some((d, ReadingRecord(v, DestinationExists))) else None)
      else if !CanCopy(d, v, c.byParts) || !Fresh(d, c.etag) then None
      else
        var obj := Copied(d, v, c.etag);
        Some((WriteObject(d, Cas(v.digest), obj),
              if c.report == ReplyLost then ReadingRecord(v, CopyConflict) else AfterInfo(v, |obj.bytes|)))
    case ReadingRecord(v, cause) => Some((d, AfterRecord(d, v, cause)))
    case StattingTrusted(v, cause) => Some((d, AfterStat(d, v, cause)))
    case OpeningExisting(v, cause) => Some((d, AfterExistingOpen(H, d, v, cause)))
    case Committing(v) =>
      if CanSucceed(d, v.id, v.digest, v.size) then
        Some((SucceedIngestJob(d, v.id, v.digest, v.size), if c.report == ReplyLost then Idle else CleaningUp(v.id)))
      else Some((d, Idle))
    case Failing(id, reason) =>
      if JobIsRunning(d, id) then
        Some((FailIngestJob(d, id), if c.report == ReplyLost then Idle else CleaningUp(id)))
      else Some((d, Idle))
    case CleaningUp(id) => Some((DeleteObject(d, Staging(id)), Idle))
    case _ => None
  }

  predicate IsClient(pc: Pc) {
    pc.LookingUp? || pc.InsertingReady? || pc.CreatingStaging? || pc.InsertingSession? || pc.UndoingStaging?
    || pc.SendingPart? || pc.RecordingPart?
  }

  predicate IsFinish(pc: Pc) {
    pc.CompletingStaging? || pc.AbortingStaging? || pc.Recovering? || pc.MarkingCompleted? || pc.MarkingAborted?
  }

  /** One move of one actor: it sees the durable state and its own program counter, nothing else. */
  function Move(H: Bytes -> Digest, d: Durable, pc: Pc, c: Choice): Option<(Durable, Pc)> {
    if c.Crash? then Some((d, Idle))
    else if c.Start? then (if pc == Idle then StartMove(d, c.request) else None)
    else if IsClient(pc) then ClientMove(d, pc, c)
    else if IsFinish(pc) then FinishMove(d, pc, c)
    else WorkerMove(H, d, pc, c)
  }

  type ActorId = nat

  datatype System = System(d: Durable, pcs: map<ActorId, Pc>)

  /** A step of the whole system: an actor moves, somebody replaces a staged object behind the service's
      back, or the provider expires an unfinished multipart upload. */
  datatype Step =
    | By(a: ActorId, c: Choice)
    | Overwrite(id: Uuid, obj: Object)
    | Expire(upload: nat)

  function PcOf(s: System, a: ActorId): Pc {
    if a in s.pcs then s.pcs[a] else Idle
  }

  function Exec(H: Bytes -> Digest, s: System, step: Step): Option<System> {
    match step
    case By(a, c) =>
      var r := Move(H, s.d, PcOf(s, a), c);
      if r == None then None else Some(System(r.value.0, s.pcs[a := r.value.1]))
    case Overwrite(id, obj) =>
      if Staging(id) !in s.d.objects || !Fresh(s.d, obj.etag) then None
      else Some(s.(d := OverwriteStaged(s.d, id, obj)))
    case Expire(upload) =>
      if IsActive(s.d, upload) then Some(s.(d := DiscardMultipartUpload(s.d, upload))) else None
  }

  function OverwriteStaged(d: Durable, id: Uuid, obj: Object): Durable {
    WriteObject(d, Staging(id), obj).(overwritten := d.overwritten + {id})
  }

  const INIT: System := System(EMPTY, map[])

  /** One step of anybody. */
  ghost predicate Next(H: Bytes -> Digest, s: System, t: System) {
    exists step: Step :: Exec(H, s, step) == Some(t)
  }

  ghost function NextOf(H: Bytes -> Digest): (System, System) -> bool {
    (s, t) => Next(H, s, t)
  }

  ghost predicate Evolves(H: Bytes -> Digest, s: System, t: System) {
    Runs.Evolves(NextOf(H), s, t)
  }

  ghost predicate Reachable(H: Bytes -> Digest, s: System) {
    Evolves(H, INIT, s)
  }
}
