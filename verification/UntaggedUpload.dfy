/** Why the guarantee for good bytes needs a tag: an object store that omits entity tags leaves ingest with
    nothing to pin a copy to, so a faultless upload of bytes nobody has stored before is failed. */
module UntaggedUpload {
  import opened CompleteParts
  import opened Keys
  import opened OnePartUpload
  import opened UploadState
  import opened UploadProtocol
  import opened UploadInvariant
  import opened Wrappers

  function Staged(H: Bytes -> Digest, b: Bytes, id: Uuid, state: SessionState, jobs: map<Uuid, JobState>): Durable {
    EMPTY.(
      objects := map[Staging(id) := Object(b, Blank)],
      uploads := map[0 := MultipartUpload(id, map[1 := Part(b, "e")], Committed(Object(b, Blank)))],
      sessions := map[id := Declared(H(b), |b|, state)],
      jobs := jobs)
  }

  lemma CompletionCommits(H: Bytes -> Digest, b: Bytes, id: Uuid, part: CompletePart)
    requires part.number == 1 && part.etag == "e"
    ensures FinishMove(Uploaded(H(b), |b|, b, id), CompletingStaging(id, 0, |b|, [part]), ANSWER)
      == Some((Staged(H, b, id, Uploading, map[]), MarkingCompleted(id)))
    ensures FinishMove(Staged(H, b, id, Uploading, map[]), MarkingCompleted(id), ANSWER)
      == Some((Staged(H, b, id, Completed, map[id := Queued]), Idle))
  {
    OnePartAssembles(b, part);
    assert CommitMultipartUpload(Uploaded(H(b), |b|, b, id), 0, Object(b, Blank)) == Staged(H, b, id, Uploading, map[]);
    assert CompleteSession(Staged(H, b, id, Uploading, map[]), id) == Staged(H, b, id, Completed, map[id := Queued]);
  }

  /** The upload completed, its staged object without a tag. */
  lemma Finished(H: Bytes -> Digest, b: Bytes, id: Uuid) returns (s: System)
    requires ValidDigest(H(b)) && |b| <= MULTIPART_MAX_PART_SIZE_BYTES
    ensures Reachable(H, s) && PcOf(s, 0) == Idle && s.pcs.Keys == {0}
    ensures s.d == Staged(H, b, id, Completed, map[id := Queued])
  {
    var part := CompletePart(1, "e", |b|);
    var asked := Asked(H, H(b), |b|, b, id, part);
    CompletionCommits(H, b, id, part);
    Moved(H, asked, ANSWER);
    var committed := After(H, asked, ANSWER);
    Moved(H, committed, ANSWER);
    s := After(H, committed, ANSWER);
  }

  lemma ClaimedJob(H: Bytes -> Digest, b: Bytes, id: Uuid) returns (s: System)
    requires ValidDigest(H(b)) && |b| <= MULTIPART_MAX_PART_SIZE_BYTES
    ensures Reachable(H, s) && PcOf(s, 0) == LoadingSession(id) && s.pcs.Keys == {0}
    ensures s.d == Staged(H, b, id, Ingesting, map[id := Running])
  {
    var staged := Finished(H, b, id);
    var claim := Start(ClaimJob(id));
    Moved(H, staged, claim);
    s := After(H, staged, claim);
  }

  /** What a worker does with bytes it cannot pin and nobody has stored: four reads, then failure. */
  lemma IngestMoves(H: Bytes -> Digest, b: Bytes, d: Durable, id: Uuid)
    requires d == Staged(H, b, id, Ingesting, map[id := Running])
    ensures var v := Verified(id, H(b), |b|, Object(b, Blank));
      && WorkerMove(H, d, LoadingSession(id), ANSWER) == Some((d, Verifying(id, H(b), |b|)))
      && WorkerMove(H, d, Verifying(id, H(b), |b|), ANSWER) == Some((d, ReadingRecord(v, NoSourceETag)))
      && WorkerMove(H, d, ReadingRecord(v, NoSourceETag), ANSWER) == Some((d, OpeningExisting(v, NoSourceETag)))
      && WorkerMove(H, d, OpeningExisting(v, NoSourceETag), ANSWER) == Some((d, Failing(id, ETagRequired(Object(b, Blank)))))
      && WorkerMove(H, d, Failing(id, ETagRequired(Object(b, Blank))), ANSWER)
         == Some((Staged(H, b, id, Failed, map[id := JobFailed]), CleaningUp(id)))
  {
    assert FailIngestJob(d, id) == Staged(H, b, id, Failed, map[id := JobFailed]);
  }

  /** A run without a crash, a fault or an intruder in which the committed bytes are exactly what the session
      declared, and ingest fails it all the same. */
  lemma UntaggedGoodBytesAreFailed(H: Bytes -> Digest, b: Bytes, id: Uuid) returns (s: System)
    requires ValidDigest(H(b)) && |b| <= MULTIPART_MAX_PART_SIZE_BYTES
    ensures Reachable(H, s) && id in s.d.sessions && id !in s.d.overwritten
    ensures CommittedGood(H, s.d, id) && s.d.sessions[id].state == Failed
  {
    s := ClaimedJob(H, b, id);
    IngestMoves(H, b, s.d, id);
    Moved(H, s, ANSWER);
    s := After(H, s, ANSWER);
    Moved(H, s, ANSWER);
    s := After(H, s, ANSWER);
    Moved(H, s, ANSWER);
    s := After(H, s, ANSWER);
    Moved(H, s, ANSWER);
    s := After(H, s, ANSWER);
    assert s.pcs[0] == Failing(id, ETagRequired(Object(b, Blank)));
    Moved(H, s, ANSWER);
    s := After(H, s, ANSWER);
    assert s.d == Staged(H, b, id, Failed, map[id := JobFailed]);
    assert HasUpload(s.d, id) && StatusOf(s.d, id) == Committed(Object(b, Blank));
  }
}
