/** What every reachable durable state satisfies, what a running actor knows, and the relation that every
    durable call keeps between the state before and the state after (the rely of all other actors). */
module UploadInvariant {
  import opened CompleteParts
  import opened Keys
  import opened UploadState
  import opened UploadProtocol
  import opened Wrappers

  ghost predicate Injective(H: Bytes -> Digest) {
    forall x, y :: H(x) == H(y) ==> x == y
  }

  // ---------------------------------------------------------------- durable invariant

  /** A tag names the bytes it was issued for. */
  ghost predicate Tagged(d: Durable) {
    forall k <- d.objects :: d.objects[k].etag.Tag? ==>
      d.objects[k].etag.n in d.issued && d.issued[d.objects[k].etag.n] == d.objects[k].bytes
  }

  /** Whatever lies under a digest's key has that digest. */
  ghost predicate CasPure(H: Bytes -> Digest, d: Durable) {
    forall g :: Cas(g) in d.objects ==> ValidDigest(g) && H(d.objects[Cas(g)].bytes) == g
  }

  ghost predicate BlobBacked(d: Durable, g: Digest)
    requires g in d.blobs
  {
    Cas(g) in d.objects && d.blobs[g] == Blob(|d.objects[Cas(g)].bytes|, Cas(g))
  }

  predicate HasUpload(d: Durable, id: Uuid) {
    id in d.sessions && d.sessions[id].storage.Multipart? && d.sessions[id].storage.upload in d.uploads
  }

  /** What became of the storage upload behind session `id`. */
  function StatusOf(d: Durable, id: Uuid): UploadStatus
    requires HasUpload(d, id)
  {
    d.uploads[d.sessions[id].storage.upload].status
  }

  /** The bytes the client committed for session `id` are what the session declared. */
  ghost predicate CommittedGood(H: Bytes -> Digest, d: Durable, id: Uuid) {
    && HasUpload(d, id)
    && StatusOf(d, id).Committed?
    && H(StatusOf(d, id).obj.bytes) == d.sessions[id].digest
    && |StatusOf(d, id).obj.bytes| == d.sessions[id].size
  }

  /** The client committed something else, or the provider gave the committed object no tag. */
  ghost predicate CommittedBad(H: Bytes -> Digest, d: Durable, id: Uuid) {
    && HasUpload(d, id)
    && StatusOf(d, id).Committed?
    && var o := StatusOf(d, id).obj;
    (H(o.bytes) != d.sessions[id].digest || |o.bytes| != d.sessions[id].size || o.etag == Blank)
  }

  predicate Mirrors(job: JobState, state: SessionState) {
    match job
    case Queued => state == Completed
    case Running => state == Ingesting
    case Succeeded => state == Ready
    case JobFailed => state == Failed
  }

  ghost predicate StorageOk(d: Durable, id: Uuid)
    requires id in d.sessions
  {
    var s := d.sessions[id];
    match s.storage
    case ReadyMarker => s.state == Ready && id !in d.jobs
    case Multipart(m) =>
      && m in d.uploads
      && d.uploads[m].id == id
      && (id in d.jobs <==> PastCompletion(s.state) || s.state == Failed)
      && (id in d.jobs ==> d.uploads[m].status.Committed?)
      && (s.state == Aborted ==> d.uploads[m].status == Discarded)
      && (Open(s.state) && d.uploads[m].status.Committed? ==> Staging(id) in d.objects)
  }

  ghost predicate OutcomeOk(H: Bytes -> Digest, d: Durable, id: Uuid)
    requires id in d.sessions
  {
    var s := d.sessions[id];
    && (s.state == Ready ==> s.digest in d.blobs && d.blobs[s.digest].size == s.size)
    && (s.state == Ready && s.storage.Multipart? && id !in d.overwritten ==> CommittedGood(H, d, id))
    && (s.state == Failed && id !in d.overwritten && Injective(H) ==> CommittedBad(H, d, id))
  }

  ghost predicate SessionOk(H: Bytes -> Digest, d: Durable, id: Uuid)
    requires id in d.sessions
  {
    && ValidDigest(d.sessions[id].digest)
    && d.sessions[id].size >= 0
    && StorageOk(d, id)
    && OutcomeOk(H, d, id)
  }

  /** A job agrees with its session, and until it is decided the staged bytes are there. */
  ghost predicate JobOk(d: Durable, id: Uuid)
    requires id in d.jobs
  {
    && id in d.sessions
    && d.sessions[id].storage.Multipart?
    && Mirrors(d.jobs[id], d.sessions[id].state)
    && (!Terminal(d.jobs[id]) ==> Staging(id) in d.objects)
  }

  /** Only the upload of a session is ever committed. */
  ghost predicate UploadOk(d: Durable, m: nat)
    requires m in d.uploads
  {
    d.uploads[m].status.Committed? ==>
      d.uploads[m].id in d.sessions && d.sessions[d.uploads[m].id].storage == Multipart(m)
  }

  /** A staged object exists only because its session's upload was committed. */
  ghost predicate StagedOk(d: Durable, id: Uuid)
    requires Staging(id) in d.objects
  {
    && HasUpload(d, id)
    && StatusOf(d, id).Committed?
    && (id !in d.overwritten ==> StatusOf(d, id).obj == d.objects[Staging(id)])
  }

  ghost predicate DurableInv(H: Bytes -> Digest, d: Durable) {
    && Tagged(d)
    && CasPure(H, d)
    && (forall g {:trigger BlobBacked(d, g)} :: g in d.blobs ==> BlobBacked(d, g))
    && (forall id {:trigger SessionOk(H, d, id)} :: id in d.sessions ==> SessionOk(H, d, id))
    && (forall id {:trigger JobOk(d, id)} :: id in d.jobs ==> JobOk(d, id))
    && (forall m {:trigger UploadOk(d, m)} :: m in d.uploads ==> UploadOk(d, m))
    && (forall id {:trigger StagedOk(d, id)} :: Staging(id) in d.objects ==> StagedOk(d, id))
  }

  // ---------------------------------------------------------------- what a running actor knows

  ghost predicate OwnsUpload(d: Durable, id: Uuid, upload: nat) {
    HasUpload(d, id) && d.sessions[id].storage == Multipart(upload)
  }

  ghost predicate HasJob(d: Durable, id: Uuid) {
    id in d.sessions && id in d.jobs && d.sessions[id].storage.Multipart?
  }

  /** A worker holds bytes it has verified; unless somebody replaced the staged object, they are the
      committed ones. */
  ghost predicate Holds(H: Bytes -> Digest, d: Durable, v: Verified) {
    && HasJob(d, v.id)
    && d.sessions[v.id].digest == v.digest
    && d.sessions[v.id].size == v.size
    && ValidDigest(v.digest)
    && H(v.obj.bytes) == v.digest
    && |v.obj.bytes| == v.size
    && (v.obj.etag.Tag? ==> v.obj.etag.n in d.issued && d.issued[v.obj.etag.n] == v.obj.bytes)
    && (v.id !in d.overwritten ==> (CommittedGood(H, d, v.id) && StatusOf(d, v.id).obj == v.obj))
  }

  /** A worker read `o` under the staging key: the committed object, unless somebody replaced that one. */
  ghost predicate Saw(d: Durable, id: Uuid, o: Object) {
    && (o.etag.Tag? ==> o.etag.n in d.issued && d.issued[o.etag.n] == o.bytes)
    && (id !in d.overwritten ==> (HasUpload(d, id) && StatusOf(d, id) == Committed(o)))
  }

  /** Why a worker may be about to record a failure. */
  ghost predicate Justified(H: Bytes -> Digest, d: Durable, id: Uuid, reason: Reason) {
    && HasJob(d, id)
    && match reason
       case StagedMissing => Terminal(d.jobs[id])
       case WrongSize(o) => Saw(d, id, o) && |o.bytes| != d.sessions[id].size
       case WrongDigest(o) => Saw(d, id, o) && |o.bytes| == d.sessions[id].size && H(o.bytes) != d.sessions[id].digest
       case ETagRequired(o) =>
         Saw(d, id, o) && |o.bytes| == d.sessions[id].size && H(o.bytes) == d.sessions[id].digest && o.etag == Blank
       case _ => !Injective(H)
  }

  ghost predicate PcInv(H: Bytes -> Digest, d: Durable, pc: Pc) {
    match pc
    case LookingUp(_, digest, size, _) => ValidDigest(digest) && size >= 0
    case CreatingStaging(_, digest, size, _) => ValidDigest(digest) && size >= 0
    case InsertingReady(_, digest, size, _) =>
      ValidDigest(digest) && size >= 0 && digest in d.blobs && d.blobs[digest].size == size
    case InsertingSession(id, digest, size, _, upload) =>
      ValidDigest(digest) && size >= 0 && upload in d.uploads && d.uploads[upload].id == id
    case CompletingStaging(id, upload, size, parts) =>
      OwnsUpload(d, id, upload) && d.sessions[id].size == size && Total(parts) == size && StrictlyIncreasing(parts)
    case AbortingStaging(id, upload, size) => OwnsUpload(d, id, upload) && d.sessions[id].size == size
    case Recovering(id, size, origin) =>
      HasUpload(d, id) && d.sessions[id].size == size && (origin != AfterExpiry ==> StatusOf(d, id) != Active)
    case MarkingCompleted(id) => HasUpload(d, id) && StatusOf(d, id).Committed?
    case MarkingAborted(id) => HasUpload(d, id) && (Open(d.sessions[id].state) ==> StatusOf(d, id) == Discarded)
    case LoadingSession(id) => HasJob(d, id)
    case Verifying(id, digest, size) =>
      HasJob(d, id) && d.sessions[id].digest == digest && d.sessions[id].size == size
    case Copying(v) => Holds(H, d, v) && v.obj.etag.Tag?
    case ReadingRecord(v, cause) => Holds(H, d, v) && (v.obj.etag == Blank <==> cause == NoSourceETag)
    case StattingTrusted(v, cause) =>
      Holds(H, d, v) && v.digest in d.blobs && (v.obj.etag == Blank <==> cause == NoSourceETag)
    case OpeningExisting(v, cause) => Holds(H, d, v) && (v.obj.etag == Blank <==> cause == NoSourceETag)
    case Committing(v) =>
      Holds(H, d, v) && Cas(v.digest) in d.objects && |d.objects[Cas(v.digest)].bytes| == v.size
    case Failing(id, reason) => Justified(H, d, id, reason)
    case CleaningUp(id) => HasJob(d, id) && Terminal(d.jobs[id])
    case _ => true
  }

  ghost predicate Inv(H: Bytes -> Digest, s: System) {
    DurableInv(H, s.d) && forall a <- s.pcs :: PcInv(H, s.d, s.pcs[a])
  }

  // ---------------------------------------------------------------- what no step undoes

  /** The session states that may follow `a`. */
  predicate Leads(a: SessionState, b: SessionState) {
    a == b || match a
              case Created => true
              case Uploading => b != Created
              case Completed => b == Ingesting || b == Ready || b == Failed
              case Ingesting => b == Ready || b == Failed
              case _ => false
  }

  ghost predicate SessionKept(d: Durable, e: Durable, id: Uuid)
    requires id in d.sessions
  {
    && id in e.sessions
    && e.sessions[id] == d.sessions[id].(state := e.sessions[id].state)
    && Leads(d.sessions[id].state, e.sessions[id].state)
  }

  ghost predicate UploadKept(d: Durable, e: Durable, m: nat)
    requires m in d.uploads
  {
    && m in e.uploads
    && e.uploads[m].id == d.uploads[m].id
    && (d.uploads[m].status != Active ==> e.uploads[m] == d.uploads[m])
    // a part once stored is there for good, though a put of the same number may replace it
    && (forall n <- d.uploads[m].parts :: n in e.uploads[m].parts)
  }

  ghost predicate Rely(d: Durable, e: Durable) {
    // no object under a CAS key is overwritten or deleted
    && (forall g :: Cas(g) in d.objects ==> Cas(g) in e.objects && e.objects[Cas(g)] == d.objects[Cas(g)])
    // a staged object disappears only after its job is decided
    && (forall id :: Staging(id) in d.objects && Staging(id) !in e.objects ==> id in e.jobs && Terminal(e.jobs[id]))
    && (forall n <- d.issued :: n in e.issued && e.issued[n] == d.issued[n])
    && (forall g <- d.blobs :: g in e.blobs && e.blobs[g] == d.blobs[g])
    && (forall id {:trigger SessionKept(d, e, id)} :: id in d.sessions ==> SessionKept(d, e, id))
    && (forall m {:trigger UploadKept(d, e, m)} :: m in d.uploads ==> UploadKept(d, e, m))
    // a decided job keeps its outcome
    && (forall id <- d.jobs :: id in e.jobs && (Terminal(d.jobs[id]) ==> e.jobs[id] == d.jobs[id]))
    && d.overwritten <= e.overwritten
  }

  lemma RelyReflexive(d: Durable)
    ensures Rely(d, d)
  {
  }

  lemma RelyTransitive(d: Durable, e: Durable, f: Durable)
    requires Rely(d, e) && Rely(e, f)
    ensures Rely(d, f)
  {
    forall id <- d.sessions ensures SessionKept(d, f, id) {
      assert SessionKept(d, e, id) && SessionKept(e, f, id);
    }
    forall m <- d.uploads ensures UploadKept(d, f, m) {
      assert UploadKept(d, e, m) && UploadKept(e, f, m);
    }
  }

  lemma UploadStable(d: Durable, e: Durable, id: Uuid)
    requires Rely(d, e) && HasUpload(d, id)
    ensures HasUpload(e, id) && SessionKept(d, e, id)
    ensures StatusOf(d, id) != Active ==> StatusOf(e, id) == StatusOf(d, id)
  {
    assert SessionKept(d, e, id);
    assert UploadKept(d, e, d.sessions[id].storage.upload);
  }

  lemma HoldsStable(H: Bytes -> Digest, d: Durable, e: Durable, v: Verified)
    requires Rely(d, e) && Holds(H, d, v)
    ensures Holds(H, e, v)
  {
    assert SessionKept(d, e, v.id);
    if HasUpload(d, v.id) {
      UploadStable(d, e, v.id);
    }
  }

  lemma ClientKnowsStill(H: Bytes -> Digest, d: Durable, e: Durable, pc: Pc)
    requires IsClient(pc) && Rely(d, e) && PcInv(H, d, pc)
    ensures PcInv(H, e, pc)
  {
    if pc.InsertingSession? {
      assert UploadKept(d, e, pc.upload);
    }
  }

  lemma FinisherKnowsStill(H: Bytes -> Digest, d: Durable, e: Durable, pc: Pc)
    requires IsFinish(pc) && Rely(d, e) && PcInv(H, d, pc)
    ensures PcInv(H, e, pc)
  {
    UploadStable(d, e, pc.id);
  }

  lemma WorkerKnowsStill(H: Bytes -> Digest, d: Durable, e: Durable, pc: Pc)
    requires !IsClient(pc) && !IsFinish(pc) && Rely(d, e) && PcInv(H, d, pc)
    ensures PcInv(H, e, pc)
  {
    match pc
    case LoadingSession(id) => assert SessionKept(d, e, id);
    case Verifying(id, _, _) => assert SessionKept(d, e, id);
    case Copying(v) => HoldsStable(H, d, e, v);
    case ReadingRecord(v, _) => HoldsStable(H, d, e, v);
    case StattingTrusted(v, _) => HoldsStable(H, d, e, v);
    case OpeningExisting(v, _) => HoldsStable(H, d, e, v);
    case Committing(v) => HoldsStable(H, d, e, v);
    case Failing(id, _) =>
      assert SessionKept(d, e, id);
      if HasUpload(d, id) {
        UploadStable(d, e, id);
      }
    case CleaningUp(id) => assert SessionKept(d, e, id);
    case _ =>
  }

  /** What an actor knows survives every step of every other actor. */
  lemma KnowledgeIsStable(H: Bytes -> Digest, d: Durable, e: Durable, pc: Pc)
    requires Rely(d, e) && PcInv(H, d, pc)
    ensures PcInv(H, e, pc)
  {
    if IsClient(pc) {
      ClientKnowsStill(H, d, e, pc);
    } else if IsFinish(pc) {
      FinisherKnowsStill(H, d, e, pc);
    } else {
      WorkerKnowsStill(H, d, e, pc);
    }
  }
}
