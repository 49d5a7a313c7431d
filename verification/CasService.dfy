/** internal/cas/service.go and internal/jobs/promote/job.go as straight-line code over the shared world. */
module CasService {
  import opened CompleteParts
  import opened Keys
  import opened UploadState
  import opened UploadProtocol
  import opened UploadInvariant
  import opened UploadSteps
  import opened UploadRuns
  import opened UploadWorld
  import opened Wrappers

  datatype CommitResult = Promoted | Rejected | Errored

  /** What ingest of session `id` finds when it looks: the declared bytes, and either a tag to pin them with
      or the same bytes already in the store. */
  predicate CanPromote(H: Bytes -> Digest, d: Durable, id: Uuid)
    requires id in d.sessions
  {
    var session := d.sessions[id];
    && Staging(id) in d.objects
    && |d.objects[Staging(id)].bytes| == session.size
    && H(d.objects[Staging(id)].bytes) == session.digest
    && (d.objects[Staging(id)].etag.Tag? || Cas(session.digest) in d.objects)
  }

  /** `cleanupStagingObject`, once the outcome is recorded. */
  method CleanUpStaging(w: World, a: ActorId, id: Uuid)
    requires w.Valid() && PcOf(w.s, a) == CleaningUp(id)
    modifies w
    ensures w.Valid() && old(w.run) <= w.run && Rely(old(w.s.d), w.s.d)
    ensures w.quiet ==> w.s.d == DeleteObject(old(w.s.d), Staging(id))
  {
    var at, _ := w.Call(a);
    RelyTransitive(old(w.s.d), at, w.s.d);
  }

  /** `FailIngestJob`; a lost reply leaves the staged bytes to nobody. */
  method RecordFailure(w: World, a: ActorId, id: Uuid, reason: Reason) returns (recorded: bool, acknowledged: bool)
    requires w.Valid() && PcOf(w.s, a) == Failing(id, reason)
    modifies w
    ensures w.Valid() && old(w.run) <= w.run && Rely(old(w.s.d), w.s.d)
    ensures recorded ==> id in w.s.d.sessions && w.s.d.sessions[id].state == Failed
    ensures acknowledged ==> recorded && PcOf(w.s, a) == CleaningUp(id)
    ensures w.quiet ==> recorded == acknowledged == JobIsRunning(old(w.s.d), id)
    ensures w.quiet ==> w.s.d == if recorded then FailIngestJob(old(w.s.d), id) else old(w.s.d)
  {
    var at, c := w.Call(a);
    RelyTransitive(old(w.s.d), at, w.s.d);
    recorded := JobIsRunning(at, id);
    acknowledged := recorded && c.report != ReplyLost;
  }

  lemma FailureStays(d: Durable, e: Durable, id: Uuid)
    requires Rely(d, e) && id in d.sessions && d.sessions[id].state == Failed
    ensures id in e.sessions && e.sessions[id].state == Failed
  {
    assert SessionKept(d, e, id);
  }

  /** `failCommit`: record the failure, then delete the staged bytes; an error keeps them. */
  method FailCommit(w: World, a: ActorId, id: Uuid, reason: Reason) returns (recorded: bool)
    requires w.Valid() && PcOf(w.s, a) == Failing(id, reason)
    modifies w
    ensures w.Valid() && old(w.run) <= w.run && Rely(old(w.s.d), w.s.d)
    ensures recorded ==> id in w.s.d.sessions && w.s.d.sessions[id].state == Failed
    ensures w.quiet ==> recorded == JobIsRunning(old(w.s.d), id)
    ensures w.quiet && recorded ==> w.s.d == DeleteObject(FailIngestJob(old(w.s.d), id), Staging(id))
    ensures w.quiet && recorded ==> Staging(id) !in w.s.d.objects
    ensures w.quiet && !recorded ==> w.s.d == old(w.s.d)
  {
    var acknowledged;
    recorded, acknowledged := RecordFailure(w, a, id, reason);
    if acknowledged {
      ghost var failed := w.s.d;
      CleanUpStaging(w, a, id);
      RelyTransitive(old(w.s.d), failed, w.s.d);
      FailureStays(failed, w.s.d, id);
    }
  }

  /** How `ensureCASObject` and the check on its metadata end. */
  datatype Ensured = Stored | Refuted(reason: Reason) | Unavailable

  ghost predicate Stands(pc: Pc, v: Verified, r: Ensured) {
    match r
    case Stored => pc == Committing(v)
    case Refuted(reason) => pc == Failing(v.id, reason)
    case Unavailable => pc == Idle
  }

  function CheckInfo(v: Verified, size: int): Ensured {
    if size == v.size then Stored else Refuted(StoredInfoMismatch)
  }

  /** What a missing object means to the caller of the recovery. */
  function Missing(v: Verified, cause: Cause): Ensured {
    if cause == NoSourceETag then Refuted(ETagRequired(v.obj)) else Unavailable
  }

  /** `statTrustedCASObject` and the check on its metadata. */
  method StatTrusted(w: World, a: ActorId, v: Verified, cause: Cause) returns (r: Ensured)
    requires w.Valid() && PcOf(w.s, a) == StattingTrusted(v, cause)
    modifies w
    ensures w.Valid() && old(w.run) <= w.run && Rely(old(w.s.d), w.s.d)
    ensures Stands(PcOf(w.s, a), v, r)
    ensures w.quiet ==> w.s.d == old(w.s.d)
    ensures w.quiet && Injective(w.H) && Cas(v.digest) in w.s.d.objects ==> r == Stored
    ensures w.quiet && Cas(v.digest) !in w.s.d.objects ==> r == Missing(v, cause)
  {
    assert PcInv(w.H, w.s.d, w.s.pcs[a]);
    var at, _ := w.Call(a);
    RelyTransitive(old(w.s.d), at, w.s.d);
    if Cas(v.digest) !in at.objects {
      return Missing(v, cause);
    }
    StoredSizeAgrees(w.H, at, v);
    return CheckInfo(v, |at.objects[Cas(v.digest)].bytes|);
  }

  /** The re-verification of an existing object without a record. */
  method VerifyExisting(w: World, a: ActorId, v: Verified, cause: Cause) returns (r: Ensured)
    requires w.Valid() && PcOf(w.s, a) == OpeningExisting(v, cause)
    modifies w
    ensures w.Valid() && old(w.run) <= w.run && Rely(old(w.s.d), w.s.d)
    ensures Stands(PcOf(w.s, a), v, r)
    ensures w.quiet ==> w.s.d == old(w.s.d)
    ensures w.quiet && Injective(w.H) && Cas(v.digest) in w.s.d.objects ==> r == Stored
    ensures w.quiet && Cas(v.digest) !in w.s.d.objects ==> r == Missing(v, cause)
  {
    assert PcInv(w.H, w.s.d, w.s.pcs[a]);
    var at, _ := w.Call(a);
    RelyTransitive(old(w.s.d), at, w.s.d);
    if Cas(v.digest) !in at.objects {
      return Missing(v, cause);
    }
    StoredSizeAgrees(w.H, at, v);
    var bytes := at.objects[Cas(v.digest)].bytes;
    if |bytes| != v.size {
      return Refuted(ExistingWrongSize);
    }
    if w.H(bytes) != v.digest {
      return Refuted(ExistingWrongDigest);
    }
    return CheckInfo(v, |bytes|);
  }

  /** The blob lookup of the recovery: what the record, if there is one, leads to. */
  method ReadRecord(w: World, a: ActorId, v: Verified, cause: Cause) returns (record: Option<Blob>)
    requires w.Valid() && PcOf(w.s, a) == ReadingRecord(v, cause)
    modifies w
    ensures w.Valid() && old(w.run) <= w.run && Rely(old(w.s.d), w.s.d)
    ensures w.quiet ==> w.s.d == old(w.s.d)
    ensures record == None ==> PcOf(w.s, a) == OpeningExisting(v, cause)
    ensures record.Some? && record.value == Blob(v.size, Cas(v.digest)) ==> PcOf(w.s, a) == StattingTrusted(v, cause)
    ensures record.Some? && record.value != Blob(v.size, Cas(v.digest)) ==>
      PcOf(w.s, a) == Failing(v.id, TrustedBlobMismatch)
    ensures w.quiet && Injective(w.H) && record.Some? ==> record.value == Blob(v.size, Cas(v.digest))
    ensures w.quiet && record.Some? ==> Cas(v.digest) in w.s.d.objects
  {
    assert PcInv(w.H, w.s.d, w.s.pcs[a]);
    var at, _ := w.Call(a);
    RelyTransitive(old(w.s.d), at, w.s.d);
    if v.digest !in at.blobs {
      return None;
    }
    assert BlobBacked(at, v.digest);
    StoredSizeAgrees(w.H, at, v);
    return Some(at.blobs[v.digest]);
  }

  /** `recoverExistingCASObject`, with the caller's reading of a missing object. */
  method RecoverExistingCasObject(w: World, a: ActorId, v: Verified, cause: Cause) returns (r: Ensured)
    requires w.Valid() && PcOf(w.s, a) == ReadingRecord(v, cause)
    modifies w
    ensures w.Valid() && old(w.run) <= w.run && Rely(old(w.s.d), w.s.d)
    ensures Stands(PcOf(w.s, a), v, r)
    ensures w.quiet ==> w.s.d == old(w.s.d)
    ensures w.quiet && Injective(w.H) && Cas(v.digest) in w.s.d.objects ==> r == Stored
    ensures w.quiet && Cas(v.digest) !in w.s.d.objects ==> r == Missing(v, cause)
  {
    var record := ReadRecord(w, a, v, cause);
    ghost var looked := w.s.d;
    if record == None {
      r := VerifyExisting(w, a, v, cause);
      RelyTransitive(old(w.s.d), looked, w.s.d);
      return;
    }
    if record.value.key != Cas(v.digest) || record.value.size != v.size {
      return Refuted(TrustedBlobMismatch);
    }
    r := StatTrusted(w, a, v, cause);
    RelyTransitive(old(w.s.d), looked, w.s.d);
  }

  /** `ensureCASObject`: copy the staged object under its digest, or fall back to what is there. */
  method EnsureCasObject(w: World, a: ActorId, v: Verified) returns (r: Ensured)
    requires w.Valid()
    requires PcOf(w.s, a) == if v.obj.etag == Blank then ReadingRecord(v, NoSourceETag) else Copying(v)
    requires w.quiet ==> StagedUnchanged(w.s.d, v)
    modifies w
    ensures w.Valid() && old(w.run) <= w.run && Rely(old(w.s.d), w.s.d)
    ensures Stands(PcOf(w.s, a), v, r)
    ensures w.quiet ==> w.s.d == old(w.s.d).(objects := w.s.d.objects, issued := w.s.d.issued)
    ensures w.quiet ==> StagedUnchanged(w.s.d, v)
    ensures w.quiet && Injective(w.H) ==>
      r == if v.obj.etag.Tag? || Cas(v.digest) in old(w.s.d.objects) then Stored else Refuted(ETagRequired(v.obj))
  {
    if v.obj.etag == Blank {
      r := RecoverExistingCasObject(w, a, v, NoSourceETag);
      return;
    }
    var cause;
    r, cause := CopyToCas(w, a, v);
    if r == Unavailable {
      ghost var refused := w.s.d;
      r := RecoverExistingCasObject(w, a, v, cause);
      RelyTransitive(old(w.s.d), refused, w.s.d);
    }
  }

  /** What an answer to the pending copy says about the state and the next program point. */
  lemma CopyAnswered(H: Bytes -> Digest, d: Durable, v: Verified, c: Choice)
    requires PcInv(H, d, Copying(v)) && c.Reply? && WorkerMove(H, d, Copying(v), c).Some?
    ensures var (e, pc) := WorkerMove(H, d, Copying(v), c).value;
      if c.report == Answered then
        && Cas(v.digest) !in d.objects
        && pc == Committing(v)
        && |Copied(d, v, c.etag).bytes| == v.size
        && e == d.(objects := e.objects, issued := e.issued)
        && (StagedUnchanged(d, v) ==> StagedUnchanged(e, v))
      else
        && pc == ReadingRecord(v, if c.report == AlreadyThere then DestinationExists else CopyConflict)
        && (c.report != ReplyLost ==> e == d)
  {
  }

  /** The conditional copy; `Unavailable` stands for either conflict answer, which leads to recovery. */
  method CopyToCas(w: World, a: ActorId, v: Verified) returns (r: Ensured, cause: Cause)
    requires w.Valid() && PcOf(w.s, a) == Copying(v)
    requires w.quiet ==> StagedUnchanged(w.s.d, v)
    modifies w
    ensures w.Valid() && old(w.run) <= w.run && Rely(old(w.s.d), w.s.d)
    ensures r == Unavailable ==> PcOf(w.s, a) == ReadingRecord(v, cause) && cause != NoSourceETag
    ensures r != Unavailable ==> Stands(PcOf(w.s, a), v, r)
    ensures w.quiet ==> w.s.d == old(w.s.d).(objects := w.s.d.objects, issued := w.s.d.issued)
    ensures w.quiet ==> StagedUnchanged(w.s.d, v)
    ensures w.quiet ==> r == if Cas(v.digest) in old(w.s.d.objects) then Unavailable else Stored
    ensures w.quiet && r == Unavailable ==> w.s.d == old(w.s.d)
  {
    var at, c := w.Call(a);
    RelyTransitive(old(w.s.d), at, w.s.d);
    CopyAnswered(w.H, at, v, c);
    cause := if c.report == AlreadyThere then DestinationExists else CopyConflict;
    if c.report == Answered {
      r := CheckInfo(v, |Copied(at, v, c.etag).bytes|);
    } else {
      r := Unavailable;
    }
  }

  /** `verifyStagedUpload`: open the staged object, stream it, compare size and digest. */
  method VerifyStagedUpload(w: World, a: ActorId, id: Uuid, digest: Digest, size: int) returns (r: Result<Object, Reason>)
    requires w.Valid() && PcOf(w.s, a) == Verifying(id, digest, size)
    modifies w
    ensures w.Valid() && old(w.run) <= w.run && Rely(old(w.s.d), w.s.d)
    ensures r.Err? ==> PcOf(w.s, a) == Failing(id, r.error)
    ensures r.Ok? ==>
      && |r.value.bytes| == size
      && w.H(r.value.bytes) == digest
      && var v := Verified(id, digest, size, r.value);
      PcOf(w.s, a) == if r.value.etag == Blank then ReadingRecord(v, NoSourceETag) else Copying(v)
    ensures w.quiet ==> w.s.d == old(w.s.d)
    ensures w.quiet && r.Ok? ==> Staging(id) in w.s.d.objects && w.s.d.objects[Staging(id)] == r.value
    ensures w.quiet && r.Err? ==>
      || Staging(id) !in w.s.d.objects
      || |w.s.d.objects[Staging(id)].bytes| != size
      || w.H(w.s.d.objects[Staging(id)].bytes) != digest
  {
    var at, _ := w.Call(a);
    RelyTransitive(old(w.s.d), at, w.s.d);
    if Staging(id) !in at.objects {
      return Err(StagedMissing);
    }
    var obj := at.objects[Staging(id)];
    if |obj.bytes| != size {
      return Err(WrongSize(obj));
    }
    if w.H(obj.bytes) != digest {
      return Err(WrongDigest(obj));
    }
    return Ok(obj);
  }

  /** What verification found decides whether the upload can be promoted. */
  lemma VerdictDecides(H: Bytes -> Digest, d: Durable, id: Uuid, r: Result<Object, Reason>)
    requires id in d.sessions
    requires var session := d.sessions[id];
      if r.Ok? then
        && Staging(id) in d.objects && d.objects[Staging(id)] == r.value
        && |r.value.bytes| == session.size && H(r.value.bytes) == session.digest
      else
        || Staging(id) !in d.objects
        || |d.objects[Staging(id)].bytes| != session.size
        || H(d.objects[Staging(id)].bytes) != session.digest
    ensures CanPromote(H, d, id) <==> r.Ok? && (r.value.etag.Tag? || Cas(d.sessions[id].digest) in d.objects)
  {
  }

  /** `CommitStagedUpload` for a claimed job: verify, copy, record, clean up. With a collision-free hash and
      nobody interfering it promotes exactly the uploads that can be promoted and fails all others. */
  method CommitStagedUpload(w: World, a: ActorId, id: Uuid, digest: Digest, size: int) returns (r: CommitResult)
    requires w.Valid() && PcOf(w.s, a) == Verifying(id, digest, size)
    modifies w
    ensures w.Valid() && old(w.run) <= w.run && Rely(old(w.s.d), w.s.d)
    ensures r == Promoted ==> id in w.s.d.sessions && w.s.d.sessions[id].state == Ready
    ensures r == Rejected ==> id in w.s.d.sessions && w.s.d.sessions[id].state == Failed
    ensures w.quiet && Injective(w.H) && JobIsRunning(old(w.s.d), id) ==>
      r == if CanPromote(w.H, old(w.s.d), id) then Promoted else Rejected
    ensures w.quiet && r != Errored ==> Staging(id) !in w.s.d.objects
  {
    assert PcInv(w.H, w.s.d, w.s.pcs[a]);
    var verified := VerifyStagedUpload(w, a, id, digest, size);
    ghost var looked := w.s.d;
    if w.quiet {
      VerdictDecides(w.H, looked, id, verified);
    }
    if verified.Err? {
      var recorded := FailCommit(w, a, id, verified.error);
      r := if recorded then Rejected else Errored;
    } else {
      r := StoreAndRecord(w, a, Verified(id, digest, size, verified.value));
    }
    RelyTransitive(old(w.s.d), looked, w.s.d);
  }

  /** The second half of `CommitStagedUpload`, from the verified bytes on. */
  method StoreAndRecord(w: World, a: ActorId, v: Verified) returns (r: CommitResult)
    requires w.Valid()
    requires PcOf(w.s, a) == if v.obj.etag == Blank then ReadingRecord(v, NoSourceETag) else Copying(v)
    requires w.quiet ==> StagedUnchanged(w.s.d, v)
    modifies w
    ensures w.Valid() && old(w.run) <= w.run && Rely(old(w.s.d), w.s.d)
    ensures r == Promoted ==> v.id in w.s.d.sessions && w.s.d.sessions[v.id].state == Ready
    ensures r == Rejected ==> v.id in w.s.d.sessions && w.s.d.sessions[v.id].state == Failed
    ensures w.quiet && Injective(w.H) && JobIsRunning(old(w.s.d), v.id) ==>
      r == if v.obj.etag.Tag? || Cas(v.digest) in old(w.s.d.objects) then Promoted else Rejected
    ensures w.quiet && r != Errored ==> Staging(v.id) !in w.s.d.objects
  {
    var ensured := EnsureCasObject(w, a, v);
    ghost var stored := w.s.d;
    assert w.quiet ==> JobIsRunning(stored, v.id) == JobIsRunning(old(w.s.d), v.id);
    if ensured == Stored {
      r := RecordSuccess(w, a, v);
    } else if ensured == Unavailable {
      return Errored;
    } else {
      var recorded := FailCommit(w, a, v.id, ensured.reason);
      r := if recorded then Rejected else Errored;
    }
    RelyTransitive(old(w.s.d), stored, w.s.d);
  }

  /** `SucceedIngestJob`; a lost reply counts as an error. */
  method RecordBlob(w: World, a: ActorId, v: Verified) returns (acknowledged: bool)
    requires w.Valid() && PcOf(w.s, a) == Committing(v)
    modifies w
    ensures w.Valid() && old(w.run) <= w.run && Rely(old(w.s.d), w.s.d)
    ensures acknowledged ==>
      v.id in w.s.d.sessions && w.s.d.sessions[v.id].state == Ready && PcOf(w.s, a) == CleaningUp(v.id)
    ensures w.quiet && JobIsRunning(old(w.s.d), v.id) ==> acknowledged
  {
    var at, c := w.Call(a);
    RelyTransitive(old(w.s.d), at, w.s.d);
    RecordedSizeAgrees(w.H, at, v);
    SuccessAnswered(w.H, at, v, c);
    return CanSucceed(at, v.id, v.digest, v.size) && c.report != ReplyLost;
  }

  lemma ReadyStays(d: Durable, e: Durable, id: Uuid)
    requires Rely(d, e) && id in d.sessions && d.sessions[id].state == Ready
    ensures id in e.sessions && e.sessions[id].state == Ready
  {
    assert SessionKept(d, e, id);
  }

  /** The success path: record the blob, then delete the staged bytes. */
  method RecordSuccess(w: World, a: ActorId, v: Verified) returns (r: CommitResult)
    requires w.Valid() && PcOf(w.s, a) == Committing(v)
    modifies w
    ensures w.Valid() && old(w.run) <= w.run && Rely(old(w.s.d), w.s.d)
    ensures r == Promoted ==> v.id in w.s.d.sessions && w.s.d.sessions[v.id].state == Ready
    ensures r != Rejected
    ensures w.quiet && JobIsRunning(old(w.s.d), v.id) ==> r == Promoted
    ensures w.quiet && r == Promoted ==> Staging(v.id) !in w.s.d.objects
  {
    var acknowledged := RecordBlob(w, a, v);
    if !acknowledged {
      return Errored;
    }
    ghost var recorded := w.s.d;
    CleanUpStaging(w, a, v.id);
    RelyTransitive(old(w.s.d), recorded, w.s.d);
    ReadyStays(recorded, w.s.d, v.id);
    return Promoted;
  }

  lemma SuccessAnswered(H: Bytes -> Digest, d: Durable, v: Verified, c: Choice)
    requires PcInv(H, d, Committing(v)) && c.Reply?
    ensures WorkerMove(H, d, Committing(v), c).Some?
    ensures CanSucceed(d, v.id, v.digest, v.size) ==>
      var (e, pc) := WorkerMove(H, d, Committing(v), c).value;
      && v.id in e.sessions && e.sessions[v.id].state == Ready
      && pc == if c.report == ReplyLost then Idle else CleaningUp(v.id)
  {
  }

  /** A record for the digest, if there is one, has the verified size. */
  lemma RecordedSizeAgrees(H: Bytes -> Digest, d: Durable, v: Verified)
    requires DurableInv(H, d) && PcInv(H, d, Committing(v))
    ensures v.digest in d.blobs ==> d.blobs[v.digest].size == v.size
    ensures JobIsRunning(d, v.id) ==> CanSucceed(d, v.id, v.digest, v.size)
  {
    if v.digest in d.blobs {
      assert BlobBacked(d, v.digest);
    }
  }

  /** Claiming moves the lifecycle and nothing ingest looks at. */
  lemma ClaimKeepsWhatIngestSees(H: Bytes -> Digest, d: Durable, id: Uuid)
    requires Claimable(d, id)
    ensures var e := ClaimIngestJob(d, id);
      && JobIsRunning(e, id)
      && e.sessions[id].digest == d.sessions[id].digest
      && e.sessions[id].size == d.sessions[id].size
      && (CanPromote(H, e, id) <==> CanPromote(H, d, id))
  {
  }

  /** `GetSession` after the claim. */
  method LoadClaimed(w: World, a: ActorId, id: Uuid) returns (digest: Digest, size: int)
    requires w.Valid() && PcOf(w.s, a) == LoadingSession(id)
    modifies w
    ensures w.Valid() && old(w.run) <= w.run && Rely(old(w.s.d), w.s.d)
    ensures PcOf(w.s, a) == Verifying(id, digest, size)
    ensures w.quiet ==> w.s.d == old(w.s.d)
  {
    var loaded, _ := w.Call(a);
    RelyTransitive(old(w.s.d), loaded, w.s.d);
    return loaded.sessions[id].digest, loaded.sessions[id].size;
  }

  /** The claimed part of `RunOnce`: load the session, commit its staged upload. */
  method Promote(w: World, a: ActorId, id: Uuid) returns (r: CommitResult)
    requires w.Valid() && PcOf(w.s, a) == LoadingSession(id)
    modifies w
    ensures w.Valid() && old(w.run) <= w.run && Rely(old(w.s.d), w.s.d)
    ensures r == Promoted ==> id in w.s.d.sessions && w.s.d.sessions[id].state == Ready
    ensures r == Rejected ==> id in w.s.d.sessions && w.s.d.sessions[id].state == Failed
    ensures w.quiet && Injective(w.H) && JobIsRunning(old(w.s.d), id) ==>
      r == if CanPromote(w.H, old(w.s.d), id) then Promoted else Rejected
  {
    var digest, size := LoadClaimed(w, a, id);
    ghost var loaded := w.s.d;
    r := CommitStagedUpload(w, a, id, digest, size);
    RelyTransitive(old(w.s.d), loaded, w.s.d);
  }

  /** `promote.RunOnce` for the job of session `id`: claim it, then promote it. */
  method RunOnce(w: World, a: ActorId, id: Uuid) returns (claimed: bool, r: CommitResult)
    requires w.Valid() && PcOf(w.s, a) == Idle
    modifies w
    ensures w.Valid() && old(w.run) <= w.run && Rely(old(w.s.d), w.s.d)
    ensures w.quiet ==> (claimed <==> id in old(w.s.d.sessions) && id in old(w.s.d.jobs) && old(w.s.d.jobs[id]) == Queued)
    ensures w.quiet && !claimed ==> w.s.d == old(w.s.d)
    ensures w.quiet && claimed && Injective(w.H) ==>
      r == if CanPromote(w.H, old(w.s.d), id) then Promoted else Rejected
    ensures claimed && r == Promoted ==> id in w.s.d.sessions && w.s.d.sessions[id].state == Ready
    ensures claimed && r == Rejected ==> id in w.s.d.sessions && w.s.d.sessions[id].state == Failed
  {
    var at := w.Begin(a, ClaimJob(id));
    RelyTransitive(old(w.s.d), at, w.s.d);
    assert id in at.jobs ==> JobOk(at, id);
    claimed := Claimable(at, id);
    r := Errored;
    if claimed {
      ClaimKeepsWhatIngestSees(w.H, at, id);
      ghost var taken := w.s.d;
      r := Promote(w, a, id);
      RelyTransitive(old(w.s.d), taken, w.s.d);
    }
  }
}
