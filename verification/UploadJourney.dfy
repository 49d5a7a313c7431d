/** The whole way of a file through the service, undisturbed: begun, sent in parts, completed, ingested, and read back. */
module UploadJourney {
  import opened CasService
  import opened CompleteParts
  import opened Keys
  import opened UploadState
  import opened UploadProtocol
  import opened UploadInvariant
  import opened UploadRuns
  import Service = UploadService
  import opened UploadWorld
  import opened Wrappers

  function Concat(chunks: seq<Bytes>): Bytes {
    if chunks == [] then [] else Concat(chunks[..|chunks| - 1]) + chunks[|chunks| - 1]
  }

  /** What S3 asks of the pieces of a file. */
  predicate Sendable(chunks: seq<Bytes>) {
    && 1 <= |chunks| <= 10000
    && forall i | 0 <= i < |chunks| :: |chunks[i]| <= 5_368_709_120 && (i < |chunks| - 1 ==> 5_242_880 <= |chunks[i]|)
  }

  /** The first chunks are stored under the numbers from one on, and listed with their tags and sizes. */
  ghost predicate SentAs(stored: map<int, Part>, chunks: seq<Bytes>, listed: seq<CompletePart>) {
    && |listed| <= |chunks|
    && forall i | 0 <= i < |listed| ::
         && listed[i].number == i + 1 && listed[i].number in stored
         && stored[listed[i].number] == Part(chunks[i], listed[i].etag)
         && listed[i].size == |chunks[i]| && ValidPart(listed[i])
  }

  lemma {:induction false} SentAssemble(stored: map<int, Part>, chunks: seq<Bytes>, listed: seq<CompletePart>, i: nat)
    requires SentAs(stored, chunks, listed) && i <= |listed|
    ensures Assemble(stored, listed[..i]) == Concat(chunks[..i])
    ensures Total(listed[..i]) == |Concat(chunks[..i])|
  {
    if i > 0 {
      SentAssemble(stored, chunks, listed, i - 1);
      assert listed[..i][..i - 1] == listed[..i - 1] && chunks[..i][..i - 1] == chunks[..i - 1];
    }
  }

  lemma SentTotal(stored: map<int, Part>, chunks: seq<Bytes>, listed: seq<CompletePart>)
    requires SentAs(stored, chunks, listed) && |listed| == |chunks|
    ensures Assemble(stored, listed) == Concat(chunks) && Total(listed) == |Concat(chunks)|
  {
    SentAssemble(stored, chunks, listed, |listed|);
    assert listed[..|listed|] == listed && chunks[..|listed|] == chunks;
  }

  /** A list in order is its own normal form. */
  lemma SentIsNormal(stored: map<int, Part>, chunks: seq<Bytes>, listed: seq<CompletePart>)
    requires Sendable(chunks) && SentAs(stored, chunks, listed) && |listed| == |chunks|
    ensures Normalized(listed) == Some(listed)
    ensures Total(listed) == |Concat(chunks)|
  {
    assert Acceptable(listed);
    assert StrictlyIncreasing(listed);
    SortPermutes(listed);
    NormalizedIsStrict(listed);
    StrictArrangementIsUnique(SortByNumber(listed), listed);
    SentTotal(stored, chunks, listed);
  }

  lemma JoinedIsTheFile(stored: map<int, Part>, chunks: seq<Bytes>, listed: seq<CompletePart>, bytes: Bytes)
    requires SentAs(stored, chunks, listed) && |listed| == |chunks| && Joined(stored, listed, bytes)
    ensures bytes == Concat(chunks)
  {
    JoinIsUnique(stored, listed, bytes, |listed|);
    SentTotal(stored, chunks, listed);
    assert listed[..|listed|] == listed && bytes[..|bytes|] == bytes;
  }

  /** A session that takes parts. */
  predicate Takes(d: Durable, id: Uuid, now: int) {
    && HasUpload(d, id) && StatusOf(d, id) == Active
    && Open(d.sessions[id].state) && now < d.sessions[id].expires
  }

  /** Everything but the parts of the upload of `id` and the state of its session is as it was. */
  ghost predicate SameButParts(d: Durable, e: Durable, id: Uuid)
    requires HasUpload(d, id) && HasUpload(e, id)
  {
    && e.sessions[id] == d.sessions[id].(state := e.sessions[id].state)
    && e.objects == d.objects && e.jobs == d.jobs && e.blobs == d.blobs
  }

  method SendParts(w: World, a: ActorId, id: Uuid, chunks: seq<Bytes>, now: int) returns (listed: seq<CompletePart>)
    requires w.Valid() && w.quiet && PcOf(w.s, a) == Idle && Sendable(chunks) && Takes(w.s.d, id, now)
    modifies w
    ensures w.Valid() && PcOf(w.s, a) == Idle && Takes(w.s.d, id, now) && SameButParts(old(w.s.d), w.s.d, id)
    ensures |listed| == |chunks| && SentAs(w.s.d.uploads[w.s.d.sessions[id].storage.upload].parts, chunks, listed)
  {
    listed := [];
    ghost var m := w.s.d.sessions[id].storage.upload;
    while |listed| < |chunks|
      invariant w.Valid() && PcOf(w.s, a) == Idle && Takes(w.s.d, id, now) && SameButParts(old(w.s.d), w.s.d, id)
      invariant w.s.d.sessions[id].storage == Multipart(m)
      invariant SentAs(w.s.d.uploads[m].parts, chunks, listed)
    {
      var part := Service.PutUploadPart(w, a, id, |listed| + 1, chunks[|listed|], now);
      listed := listed + [part.value];
    }
  }

  /** A file that is sent in pieces is committed as a whole, whatever way it was cut. */
  method SendFile(w: World, a: ActorId, id: Uuid, digest: Digest, chunks: seq<Bytes>, expires: int, now: int)
    requires w.Valid() && w.quiet && PcOf(w.s, a) == Idle
    requires Sendable(chunks) && ValidDigest(digest) && id !in w.s.d.sessions && now < expires
    modifies w
    ensures w.Valid() && PcOf(w.s, a) == Idle
    ensures id in w.s.d.sessions && w.s.d.sessions[id].digest == digest && w.s.d.sessions[id].size == |Concat(chunks)|
    ensures id in w.s.d.jobs && w.s.d.jobs[id] == Queued
    ensures Staging(id) in w.s.d.objects && w.s.d.objects[Staging(id)].bytes == Concat(chunks)
    ensures w.s.d.objects[Staging(id)].etag.Tag?
  {
    var begun := Service.BeginUpload(w, a, id, digest, |Concat(chunks)|, expires, now, false);
    var listed := SendParts(w, a, id, chunks, now);
    ghost var d := w.s.d;
    ghost var stored := d.uploads[d.sessions[id].storage.upload].parts;
    SentIsNormal(stored, chunks, listed);
    var completed := Service.CompleteUpload(w, a, id, listed, now);
    JoinedIsTheFile(stored, chunks, listed, StatusOf(w.s.d, id).obj.bytes);
  }

  /** And it can be read back: after one ingest the digest opens to exactly the bytes of the file, provided the client
      declared their digest; with any other digest the upload fails. */
  method SendAndIngestFile(w: World, a: ActorId, id: Uuid, digest: Digest, chunks: seq<Bytes>, expires: int, now: int)
      returns (content: Option<Bytes>)
    requires w.Valid() && w.quiet && Injective(w.H) && PcOf(w.s, a) == Idle
    requires Sendable(chunks) && ValidDigest(digest) && id !in w.s.d.sessions && now < expires
    modifies w
    ensures w.Valid() && id in w.s.d.sessions
    ensures if w.H(Concat(chunks)) == digest then w.s.d.sessions[id].state == Ready && content == Some(Concat(chunks))
            else w.s.d.sessions[id].state == Failed
  {
    SendFile(w, a, id, digest, chunks, expires, now);
    ghost var sent := w.s.d;
    var claimed, outcome := RunOnce(w, a, id);
    content := OpenBlob(w.s.d, digest);
    assert SessionKept(sent, w.s.d, id);
    if outcome == Promoted {
      ReadyOpens(w, id);
    }
  }

  lemma ReadyOpens(w: World, id: Uuid)
    requires w.Valid() && Injective(w.H) && id in w.s.d.sessions && w.s.d.sessions[id].state == Ready
    ensures OpenBlob(w.s.d, w.s.d.sessions[id].digest).Some?
    ensures w.H(OpenBlob(w.s.d, w.s.d.sessions[id].digest).value) == w.s.d.sessions[id].digest
  {
    assert SessionOk(w.H, w.s.d, id);
    assert BlobBacked(w.s.d, w.s.d.sessions[id].digest);
  }
}
