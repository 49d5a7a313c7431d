/** Every durable call keeps the invariant and the rely relation. One lemma per call. */
module UploadSteps {
  import opened CompleteParts
  import opened Keys
  import opened UploadState
  import opened UploadProtocol
  import opened UploadInvariant
  import opened Wrappers

  // ---------------------------------------------------------------- the rely side of each call

  lemma UploadTableRely(d: Durable, e: Durable, m: nat)
    requires m in e.uploads && e == d.(uploads := d.uploads[m := e.uploads[m]])
    requires m in d.uploads ==> UploadKept(d, e, m)
    ensures Rely(d, e)
  {
  }

  lemma SessionTableRely(d: Durable, e: Durable, id: Uuid)
    requires id in e.sessions && e == d.(sessions := d.sessions[id := e.sessions[id]], jobs := e.jobs, blobs := e.blobs)
    requires id in d.sessions ==> SessionKept(d, e, id)
    requires forall i | i in d.jobs :: i in e.jobs && (i != id || Terminal(d.jobs[i]) ==> e.jobs[i] == d.jobs[i])
    requires forall g | g in d.blobs :: g in e.blobs && e.blobs[g] == d.blobs[g]
    ensures Rely(d, e)
  {
  }

  /** A write of a new or staged object, or the deletion of one whose job is decided. */
  lemma ObjectTableRely(d: Durable, e: Durable)
    requires e == d.(objects := e.objects, issued := e.issued, overwritten := e.overwritten)
    requires forall g :: Cas(g) in d.objects ==> Cas(g) in e.objects && e.objects[Cas(g)] == d.objects[Cas(g)]
    requires forall id :: Staging(id) in d.objects && Staging(id) !in e.objects ==> id in d.jobs && Terminal(d.jobs[id])
    requires forall n | n in d.issued :: n in e.issued && e.issued[n] == d.issued[n]
    requires d.overwritten <= e.overwritten
    ensures Rely(d, e)
  {
  }

  // ---------------------------------------------------------------- the invariant side

  /** A session looks at its own rows, its upload, its blob, and whether its staged object is there. */
  lemma SessionFrame(H: Bytes -> Digest, d: Durable, e: Durable, i: Uuid)
    requires i in d.sessions && SessionOk(H, d, i)
    requires i in e.sessions && e.sessions[i] == d.sessions[i]
    requires i in e.jobs <==> i in d.jobs
    requires HasUpload(d, i) ==> HasUpload(e, i)
    requires HasUpload(d, i) ==> e.uploads[d.sessions[i].storage.upload] == d.uploads[d.sessions[i].storage.upload]
    requires Open(d.sessions[i].state) && Staging(i) in d.objects ==> Staging(i) in e.objects
    requires d.sessions[i].digest in d.blobs ==>
      d.sessions[i].digest in e.blobs && e.blobs[d.sessions[i].digest] == d.blobs[d.sessions[i].digest]
    requires i in d.overwritten ==> i in e.overwritten
    ensures SessionOk(H, e, i)
  {
  }

  lemma CreateMultipartUploadKeepsInv(H: Bytes -> Digest, d: Durable, m: nat, id: Uuid)
    requires DurableInv(H, d) && m !in d.uploads
    ensures var e := CreateMultipartUpload(d, m, id); DurableInv(H, e)
  {
    var e := CreateMultipartUpload(d, m, id);
    forall i | i in e.sessions ensures SessionOk(H, e, i) {
      assert SessionOk(H, d, i);
    }
    forall i | i in e.jobs ensures JobOk(e, i) {
      assert JobOk(d, i);
    }
    forall k | k in e.uploads ensures UploadOk(e, k) {
      if k != m {
        assert UploadOk(d, k);
      }
    }
    forall i | Staging(i) in e.objects ensures StagedOk(e, i) {
      assert StagedOk(d, i);
    }
    forall g | g in e.blobs ensures BlobBacked(e, g) {
      assert BlobBacked(d, g);
    }
  }

  lemma CreateMultipartUploadOk(H: Bytes -> Digest, d: Durable, m: nat, id: Uuid)
    requires DurableInv(H, d) && m !in d.uploads
    ensures var e := CreateMultipartUpload(d, m, id); DurableInv(H, e) && Rely(d, e)
  {
    CreateMultipartUploadKeepsInv(H, d, m, id);
    UploadTableRely(d, CreateMultipartUpload(d, m, id), m);
  }

  /** A storage upload that is still active may change in any way but be committed. */
  lemma ActiveUploadChangeKeepsInv(H: Bytes -> Digest, d: Durable, e: Durable, m: nat)
    requires DurableInv(H, d) && IsActive(d, m)
    requires m in e.uploads && e == d.(uploads := d.uploads[m := e.uploads[m]])
    requires e.uploads[m].id == d.uploads[m].id && !e.uploads[m].status.Committed?
    ensures DurableInv(H, e)
  {
    forall i | i in e.sessions ensures SessionOk(H, e, i) {
      assert SessionOk(H, d, i);
    }
    forall i | i in e.jobs ensures JobOk(e, i) {
      assert JobOk(d, i);
    }
    forall k | k in e.uploads ensures UploadOk(e, k) {
      assert UploadOk(d, k);
    }
    forall i | Staging(i) in e.objects ensures StagedOk(e, i) {
      assert StagedOk(d, i);
    }
    forall g | g in e.blobs ensures BlobBacked(e, g) {
      assert BlobBacked(d, g);
    }
  }

  lemma ActiveUploadChangeOk(H: Bytes -> Digest, d: Durable, e: Durable, m: nat)
    requires DurableInv(H, d) && IsActive(d, m)
    requires m in e.uploads && e == d.(uploads := d.uploads[m := e.uploads[m]])
    requires e.uploads[m].id == d.uploads[m].id && !e.uploads[m].status.Committed?
    requires forall n <- d.uploads[m].parts :: n in e.uploads[m].parts
    ensures DurableInv(H, e) && Rely(d, e)
  {
    ActiveUploadChangeKeepsInv(H, d, e, m);
    UploadTableRely(d, e, m);
  }

  lemma CommitMultipartUploadKeepsInv(H: Bytes -> Digest, d: Durable, id: Uuid, m: nat, o: Object)
    requires DurableInv(H, d) && OwnsUpload(d, id, m) && IsActive(d, m) && Fresh(d, o.etag)
    ensures var e := CommitMultipartUpload(d, m, o); DurableInv(H, e)
  {
    var e := CommitMultipartUpload(d, m, o);
    CommitFacts(H, d, id, m);
    forall i | i in e.sessions ensures SessionOk(H, e, i) {
      assert SessionOk(H, d, i);
      if i != id {
        SessionFrame(H, d, e, i);
      }
    }
    forall i | i in e.jobs ensures JobOk(e, i) {
      assert JobOk(d, i);
    }
    forall k | k in e.uploads ensures UploadOk(e, k) {
      assert UploadOk(d, k);
    }
    forall i | Staging(i) in e.objects ensures StagedOk(e, i) {
      if i != id {
        assert StagedOk(d, i) && SessionOk(H, d, i);
      }
    }
    forall g | g in e.blobs ensures BlobBacked(e, g) {
      assert BlobBacked(d, g);
    }
  }

  lemma CommitMultipartUploadOk(H: Bytes -> Digest, d: Durable, id: Uuid, m: nat, o: Object)
    requires DurableInv(H, d) && OwnsUpload(d, id, m) && IsActive(d, m) && Fresh(d, o.etag)
    ensures var e := CommitMultipartUpload(d, m, o); DurableInv(H, e) && Rely(d, e)
  {
    CommitMultipartUploadKeepsInv(H, d, id, m, o);
    CommitFacts(H, d, id, m);
    var o1 := WriteObject(d, Staging(id), o);
    ObjectTableRely(d, o1);
    UploadTableRely(o1, CommitMultipartUpload(d, m, o), m);
    RelyTransitive(d, o1, CommitMultipartUpload(d, m, o));
  }

  lemma StagedFact(d: Durable, id: Uuid)
    requires forall i {:trigger StagedOk(d, i)} :: Staging(i) in d.objects ==> StagedOk(d, i)
    ensures Staging(id) in d.objects ==> StagedOk(d, id)
  {
  }

  lemma JobFact(d: Durable, id: Uuid)
    requires forall i {:trigger JobOk(d, i)} :: i in d.jobs ==> JobOk(d, i)
    ensures id in d.jobs ==> JobOk(d, id)
  {
  }

  /** Before the commit nothing is staged, so the write creates the object. */
  lemma CommitFacts(H: Bytes -> Digest, d: Durable, id: Uuid, m: nat)
    requires DurableInv(H, d) && OwnsUpload(d, id, m) && IsActive(d, m)
    ensures d.uploads[m].id == id && Staging(id) !in d.objects && id !in d.jobs
    ensures d.sessions[id].state != Aborted && d.sessions[id].state != Ready && d.sessions[id].state != Failed
  {
    assert SessionOk(H, d, id);
    StagedFact(d, id);
  }

  lemma CreateSessionKeepsInv(H: Bytes -> Digest, d: Durable, id: Uuid, s: Session)
    requires DurableInv(H, d) && id !in d.sessions
    requires ValidDigest(s.digest) && s.size >= 0
    requires match s.storage
             case Multipart(m) => s.state == Created && m in d.uploads && d.uploads[m].id == id
             case ReadyMarker => s.state == Ready && s.digest in d.blobs && d.blobs[s.digest].size == s.size
    ensures var e := CreateSession(d, id, s); DurableInv(H, e)
  {
    var e := CreateSession(d, id, s);
    NewSessionFacts(d, id, s);
    forall i | i in e.sessions ensures SessionOk(H, e, i) {
      if i != id {
        assert SessionOk(H, d, i);
        SessionFrame(H, d, e, i);
      }
    }
    forall i | i in e.jobs ensures JobOk(e, i) {
      assert JobOk(d, i);
    }
    forall k | k in e.uploads ensures UploadOk(e, k) {
      assert UploadOk(d, k);
    }
    forall i | Staging(i) in e.objects ensures StagedOk(e, i) {
      assert StagedOk(d, i);
    }
    forall g | g in e.blobs ensures BlobBacked(e, g) {
      assert BlobBacked(d, g);
    }
  }

  lemma CreateSessionOk(H: Bytes -> Digest, d: Durable, id: Uuid, s: Session)
    requires DurableInv(H, d) && id !in d.sessions
    requires ValidDigest(s.digest) && s.size >= 0
    requires match s.storage
             case Multipart(m) => s.state == Created && m in d.uploads && d.uploads[m].id == id
             case ReadyMarker => s.state == Ready && s.digest in d.blobs && d.blobs[s.digest].size == s.size
    ensures var e := CreateSession(d, id, s); DurableInv(H, e) && Rely(d, e)
  {
    CreateSessionKeepsInv(H, d, id, s);
    NewSessionFacts(d, id, s);
    SessionTableRely(d, CreateSession(d, id, s), id);
  }

  lemma NewSessionFacts(d: Durable, id: Uuid, s: Session)
    requires id !in d.sessions
    requires forall i {:trigger JobOk(d, i)} :: i in d.jobs ==> JobOk(d, i)
    requires forall m {:trigger UploadOk(d, m)} :: m in d.uploads ==> UploadOk(d, m)
    ensures id !in d.jobs
    ensures s.storage.Multipart? && s.storage.upload in d.uploads && d.uploads[s.storage.upload].id == id
            ==> !d.uploads[s.storage.upload].status.Committed?
  {
    JobFact(d, id);
    if s.storage.Multipart? && s.storage.upload in d.uploads {
      assert UploadOk(d, s.storage.upload);
    }
  }

  /** The transitions that only move one session, and perhaps its job, along its lifecycle. */
  lemma SessionAdvanceKeepsInv(H: Bytes -> Digest, d: Durable, e: Durable, id: Uuid)
    requires DurableInv(H, d) && id in d.sessions && d.sessions[id].storage.Multipart?
    requires id in e.sessions
    requires e == SetState(d, id, e.sessions[id].state).(jobs := e.jobs, blobs := e.blobs)
    requires Leads(d.sessions[id].state, e.sessions[id].state)
    requires id in e.jobs ==> e.jobs == d.jobs[id := e.jobs[id]]
    requires id !in e.jobs ==> e.jobs == d.jobs
    requires id in d.jobs && Terminal(d.jobs[id]) ==> e.jobs == d.jobs
    requires id in e.jobs ==> JobOk(e, id)
    requires StorageOk(e, id) && OutcomeOk(H, e, id)
    requires forall g | g in d.blobs :: g in e.blobs && e.blobs[g] == d.blobs[g]
    requires forall g {:trigger BlobBacked(e, g)} :: g in e.blobs ==> BlobBacked(e, g)
    ensures DurableInv(H, e)
  {
    forall i | i in e.sessions ensures SessionOk(H, e, i) {
      assert SessionOk(H, d, i);
      if i != id {
        SessionFrame(H, d, e, i);
      }
    }
    forall i | i in e.jobs ensures JobOk(e, i) {
      if i != id {
        assert JobOk(d, i);
      }
    }
    forall k | k in e.uploads ensures UploadOk(e, k) {
      assert UploadOk(d, k);
    }
    forall i | Staging(i) in e.objects ensures StagedOk(e, i) {
      assert StagedOk(d, i);
    }
  }

  lemma SessionAdvanceOk(H: Bytes -> Digest, d: Durable, e: Durable, id: Uuid)
    requires DurableInv(H, d) && id in d.sessions && d.sessions[id].storage.Multipart?
    requires id in e.sessions
    requires e == SetState(d, id, e.sessions[id].state).(jobs := e.jobs, blobs := e.blobs)
    requires Leads(d.sessions[id].state, e.sessions[id].state)
    requires id in e.jobs ==> e.jobs == d.jobs[id := e.jobs[id]]
    requires id !in e.jobs ==> e.jobs == d.jobs
    requires id in d.jobs && Terminal(d.jobs[id]) ==> e.jobs == d.jobs
    requires id in e.jobs ==> JobOk(e, id)
    requires StorageOk(e, id) && OutcomeOk(H, e, id)
    requires forall g | g in d.blobs :: g in e.blobs && e.blobs[g] == d.blobs[g]
    requires forall g {:trigger BlobBacked(e, g)} :: g in e.blobs ==> BlobBacked(e, g)
    ensures DurableInv(H, e) && Rely(d, e)
  {
    SessionAdvanceKeepsInv(H, d, e, id);
    SessionTableRely(d, e, id);
  }

  lemma RecordPartOk(H: Bytes -> Digest, d: Durable, id: Uuid)
    requires DurableInv(H, d)
    ensures var e := RecordPart(d, id); DurableInv(H, e) && Rely(d, e)
  {
    if id in d.sessions && d.sessions[id].state == Created {
      assert SessionOk(H, d, id);
      BlobsUntouched(H, d, RecordPart(d, id));
      SessionAdvanceOk(H, d, RecordPart(d, id), id);
    }
  }

  lemma BlobsUntouched(H: Bytes -> Digest, d: Durable, e: Durable)
    requires DurableInv(H, d) && e.blobs == d.blobs && e.objects == d.objects
    ensures forall g {:trigger BlobBacked(e, g)} :: g in e.blobs ==> BlobBacked(e, g)
  {
    forall g | g in e.blobs ensures BlobBacked(e, g) {
      assert BlobBacked(d, g);
    }
  }

  lemma CompleteSessionOk(H: Bytes -> Digest, d: Durable, id: Uuid)
    requires DurableInv(H, d) && HasUpload(d, id) && StatusOf(d, id).Committed?
    ensures var e := CompleteSession(d, id); DurableInv(H, e) && Rely(d, e)
  {
    if Open(d.sessions[id].state) {
      assert SessionOk(H, d, id);
      BlobsUntouched(H, d, CompleteSession(d, id));
      SessionAdvanceOk(H, d, CompleteSession(d, id), id);
    }
  }

  lemma AbortSessionOk(H: Bytes -> Digest, d: Durable, id: Uuid)
    requires DurableInv(H, d) && PcInv(H, d, MarkingAborted(id))
    ensures var e := AbortSession(d, id); DurableInv(H, e) && Rely(d, e)
  {
    if Open(d.sessions[id].state) {
      assert SessionOk(H, d, id);
      BlobsUntouched(H, d, AbortSession(d, id));
      SessionAdvanceOk(H, d, AbortSession(d, id), id);
    }
  }

  lemma ClaimIngestJobOk(H: Bytes -> Digest, d: Durable, id: Uuid)
    requires DurableInv(H, d) && Claimable(d, id)
    ensures var e := ClaimIngestJob(d, id); DurableInv(H, e) && Rely(d, e)
  {
    assert SessionOk(H, d, id) && JobOk(d, id);
    BlobsUntouched(H, d, ClaimIngestJob(d, id));
    SessionAdvanceOk(H, d, ClaimIngestJob(d, id), id);
  }

  lemma FailIngestJobOk(H: Bytes -> Digest, d: Durable, id: Uuid, reason: Reason)
    requires DurableInv(H, d) && JobIsRunning(d, id) && Justified(H, d, id, reason)
    ensures var e := FailIngestJob(d, id); DurableInv(H, e) && Rely(d, e)
  {
    var e := FailIngestJob(d, id);
    assert SessionOk(H, d, id) && JobOk(d, id);
    BlobsUntouched(H, d, e);
    assert OutcomeOk(H, e, id) by {
      if id !in d.overwritten && Injective(H) {
        assert CommittedBad(H, d, id);
        assert CommittedBad(H, e, id);
      }
    }
    SessionAdvanceOk(H, d, e, id);
  }

  lemma SucceedIngestJobOk(H: Bytes -> Digest, d: Durable, v: Verified)
    requires DurableInv(H, d) && PcInv(H, d, Committing(v)) && CanSucceed(d, v.id, v.digest, v.size)
    ensures var e := SucceedIngestJob(d, v.id, v.digest, v.size); DurableInv(H, e) && Rely(d, e)
  {
    var id, e := v.id, SucceedIngestJob(d, v.id, v.digest, v.size);
    assert SessionOk(H, d, id) && JobOk(d, id);
    forall g | g in e.blobs ensures BlobBacked(e, g) {
      if g in d.blobs {
        assert BlobBacked(d, g);
      }
    }
    assert OutcomeOk(H, e, id) by {
      if id !in d.overwritten {
        assert CommittedGood(H, d, id);
        assert CommittedGood(H, e, id);
      }
    }
    SessionAdvanceOk(H, d, e, id);
  }

  lemma CopyKeepsInv(H: Bytes -> Digest, d: Durable, v: Verified, byParts: bool, etag: ETag)
    requires DurableInv(H, d) && PcInv(H, d, Copying(v)) && CanCopy(d, v, byParts) && Fresh(d, etag)
    ensures var e := WriteObject(d, Cas(v.digest), Copied(d, v, etag)); DurableInv(H, e)
    ensures Copied(d, v, etag).bytes == v.obj.bytes
  {
    var e := WriteObject(d, Cas(v.digest), Copied(d, v, etag));
    ObjectWriteFrame(H, d, e);
    forall g | g in e.blobs ensures BlobBacked(e, g) {
      assert BlobBacked(d, g);
    }
    forall i | Staging(i) in e.objects ensures StagedOk(e, i) {
      assert StagedOk(d, i);
    }
    assert Tagged(e) && CasPure(H, e);
  }

  lemma CopyOk(H: Bytes -> Digest, d: Durable, v: Verified, byParts: bool, etag: ETag)
    requires DurableInv(H, d) && PcInv(H, d, Copying(v)) && CanCopy(d, v, byParts) && Fresh(d, etag)
    ensures var e := WriteObject(d, Cas(v.digest), Copied(d, v, etag)); DurableInv(H, e) && Rely(d, e)
    ensures Copied(d, v, etag).bytes == v.obj.bytes
  {
    CopyKeepsInv(H, d, v, byParts, etag);
    ObjectTableRely(d, WriteObject(d, Cas(v.digest), Copied(d, v, etag)));
  }

  /** Tables do not notice a write to an object that keeps every staged object present. */
  lemma ObjectWriteFrame(H: Bytes -> Digest, d: Durable, e: Durable)
    requires DurableInv(H, d)
    requires e == d.(objects := e.objects, issued := e.issued, overwritten := e.overwritten)
    requires d.overwritten <= e.overwritten
    requires forall id :: Staging(id) in d.objects ==> Staging(id) in e.objects
    ensures forall id {:trigger SessionOk(H, e, id)} :: id in e.sessions ==> SessionOk(H, e, id)
    ensures forall id {:trigger JobOk(e, id)} :: id in e.jobs ==> JobOk(e, id)
    ensures forall m {:trigger UploadOk(e, m)} :: m in e.uploads ==> UploadOk(e, m)
  {
    forall i | i in e.sessions ensures SessionOk(H, e, i) {
      assert SessionOk(H, d, i);
    }
    forall i | i in e.jobs ensures JobOk(e, i) {
      assert JobOk(d, i);
    }
    forall k | k in e.uploads ensures UploadOk(e, k) {
      assert UploadOk(d, k);
    }
  }

  lemma OverwriteKeepsInv(H: Bytes -> Digest, d: Durable, id: Uuid, o: Object)
    requires DurableInv(H, d) && Staging(id) in d.objects && Fresh(d, o.etag)
    ensures var e := OverwriteStaged(d, id, o); DurableInv(H, e)
  {
    var e := OverwriteStaged(d, id, o);
    ObjectWriteFrame(H, d, e);
    forall g | g in e.blobs ensures BlobBacked(e, g) {
      assert BlobBacked(d, g);
    }
    forall i | Staging(i) in e.objects ensures StagedOk(e, i) {
      assert StagedOk(d, i);
    }
  }

  lemma OverwriteOk(H: Bytes -> Digest, d: Durable, id: Uuid, o: Object)
    requires DurableInv(H, d) && Staging(id) in d.objects && Fresh(d, o.etag)
    ensures var e := OverwriteStaged(d, id, o); DurableInv(H, e) && Rely(d, e)
  {
    OverwriteKeepsInv(H, d, id, o);
    ObjectTableRely(d, OverwriteStaged(d, id, o));
  }

  lemma DeleteStagedKeepsInv(H: Bytes -> Digest, d: Durable, id: Uuid)
    requires DurableInv(H, d) && HasJob(d, id) && Terminal(d.jobs[id])
    ensures var e := DeleteObject(d, Staging(id)); DurableInv(H, e)
  {
    var e := DeleteObject(d, Staging(id));
    assert JobOk(d, id);
    forall i | i in e.sessions ensures SessionOk(H, e, i) {
      assert SessionOk(H, d, i);
      SessionFrame(H, d, e, i);
    }
    forall i | i in e.jobs ensures JobOk(e, i) {
      assert JobOk(d, i);
    }
    forall k | k in e.uploads ensures UploadOk(e, k) {
      assert UploadOk(d, k);
    }
    forall i | Staging(i) in e.objects ensures StagedOk(e, i) {
      assert StagedOk(d, i);
    }
    forall g | g in e.blobs ensures BlobBacked(e, g) {
      assert BlobBacked(d, g);
    }
  }

  lemma DeleteStagedOk(H: Bytes -> Digest, d: Durable, id: Uuid)
    requires DurableInv(H, d) && HasJob(d, id) && Terminal(d.jobs[id])
    ensures var e := DeleteObject(d, Staging(id)); DurableInv(H, e) && Rely(d, e)
  {
    DeleteStagedKeepsInv(H, d, id);
    ObjectTableRely(d, DeleteObject(d, Staging(id)));
  }
}
