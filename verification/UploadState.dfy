/** The durable state that upload clients and ingest workers share, and one pure transition for every
    durable call: the object store of internal/objectstore/objectstore.go and the tables behind
    internal/store/postgres/uploads. Each transition is atomic, as the store contracts promise. */
module UploadState {
  import opened CompleteParts
  import opened Keys
  import opened Wrappers

  /** An object's entity tag. A provider may omit it; otherwise every write gets a new one. */
  datatype ETag = Blank | Tag(n: nat)

  datatype Object = Object(bytes: Bytes, etag: ETag)

  datatype Part = Part(bytes: Bytes, etag: string)

  datatype UploadStatus = Active | Committed(obj: Object) | Discarded

  /** A provider-side multipart upload that writes the staging key of session `id`. */
  datatype MultipartUpload = MultipartUpload(id: Uuid, parts: map<int, Part>, status: UploadStatus)

  datatype SessionState = Created | Uploading | Completed | Ingesting | Ready | Failed | Aborted

  /** The backing storage upload; a session satisfied by a trusted blob has none. */
  datatype Storage = Multipart(upload: nat) | ReadyMarker

  datatype Session = Session(digest: Digest, size: int, state: SessionState, storage: Storage, expires: int)

  datatype JobState = Queued | Running | Succeeded | JobFailed

  datatype Blob = Blob(size: int, key: Key)

  datatype Durable = Durable(
    objects: map<Key, Object>,
    // every tag the provider has issued, with the bytes it named (history, never read by the service)
    issued: map<nat, Bytes>,
    uploads: map<nat, MultipartUpload>,
    sessions: map<Uuid, Session>,
    // the ingest job of a session; the table has at most one row per upload
    jobs: map<Uuid, JobState>,
    blobs: map<Digest, Blob>,
    // sessions whose staged object somebody other than the service replaced (history)
    overwritten: set<Uuid>)

  const EMPTY: Durable := Durable(map[], map[], map[], map[], map[], map[], {})

  predicate Open(state: SessionState) {
    state == Created || state == Uploading
  }

  predicate PastCompletion(state: SessionState) {
    state == Completed || state == Ingesting || state == Ready
  }

  predicate Terminal(job: JobState) {
    job == Succeeded || job == JobFailed
  }

  // ---------------------------------------------------------------- object store

  predicate Fresh(d: Durable, etag: ETag) {
    etag.Tag? ==> etag.n !in d.issued
  }

  function WriteObject(d: Durable, key: Key, obj: Object): Durable {
    d.(objects := d.objects[key := obj],
       issued := if obj.etag.Tag? then d.issued[obj.etag.n := obj.bytes] else d.issued)
  }

  function CreateMultipartUpload(d: Durable, upload: nat, id: Uuid): Durable {
    d.(uploads := d.uploads[upload := MultipartUpload(id, map[], Active)])
  }

  function PutUploadedPart(d: Durable, upload: nat, number: int, part: Part): Durable
    requires upload in d.uploads
  {
    var u := d.uploads[upload];
    d.(uploads := d.uploads[upload := u.(parts := u.parts[number := part])])
  }

  predicate PartsPresent(parts: map<int, Part>, chosen: seq<CompletePart>) {
    forall i | 0 <= i < |chosen| :: chosen[i].number in parts && parts[chosen[i].number].etag == chosen[i].etag
  }

  /** The bytes of the chosen parts, in the order of the list. */
  function Assemble(parts: map<int, Part>, chosen: seq<CompletePart>): Bytes {
    if chosen == [] then []
    else
      var last := chosen[|chosen| - 1].number;
      Assemble(parts, chosen[..|chosen| - 1]) + (if last in parts then parts[last].bytes else [])
  }

  /** The real sizes of the listed parts. */
  function RealTotal(parts: map<int, Part>, chosen: seq<CompletePart>): nat {
    if chosen == [] then 0
    else
      var last := chosen[|chosen| - 1].number;
      RealTotal(parts, chosen[..|chosen| - 1]) + (if last in parts then |parts[last].bytes| else 0)
  }

  /** Where the i-th listed part starts: after those listed before it. */
  function Offset(parts: map<int, Part>, chosen: seq<CompletePart>, i: nat): nat
    requires i <= |chosen|
  {
    RealTotal(parts, chosen[..i])
  }

  /** The i-th listed part stands in `bytes` at its offset. */
  predicate InPlace(parts: map<int, Part>, chosen: seq<CompletePart>, bytes: Bytes, i: nat)
    requires i < |chosen|
  {
    && chosen[i].number in parts
    && Offset(parts, chosen, i + 1) == Offset(parts, chosen, i) + |parts[chosen[i].number].bytes| <= |bytes|
    && bytes[Offset(parts, chosen, i)..Offset(parts, chosen, i + 1)] == parts[chosen[i].number].bytes
  }

  /** `bytes` is the listed parts, one after the other in the order of the list, and nothing else. */
  predicate Joined(parts: map<int, Part>, chosen: seq<CompletePart>, bytes: Bytes) {
    && |bytes| == Offset(parts, chosen, |chosen|)
    && forall i: nat {:trigger InPlace(parts, chosen, bytes, i)} | i < |chosen| :: InPlace(parts, chosen, bytes, i)
  }

  lemma {:induction false} AssembledSize(parts: map<int, Part>, chosen: seq<CompletePart>)
    ensures |Assemble(parts, chosen)| == RealTotal(parts, chosen)
  {
    if chosen != [] {
      AssembledSize(parts, chosen[..|chosen| - 1]);
    }
  }

  lemma OffsetStep(parts: map<int, Part>, chosen: seq<CompletePart>, i: nat)
    requires i < |chosen|
    ensures Offset(parts, chosen, i + 1)
         == Offset(parts, chosen, i) + if chosen[i].number in parts then |parts[chosen[i].number].bytes| else 0
  {
    assert chosen[..i + 1][..i] == chosen[..i];
  }

  lemma {:induction false} AssembledPrefix(parts: map<int, Part>, chosen: seq<CompletePart>, i: nat)
    requires i <= |chosen|
    ensures Assemble(parts, chosen[..i]) <= Assemble(parts, chosen)
    decreases |chosen|
  {
    var n := |chosen| - 1;
    if i <= n {
      AssembledPrefix(parts, chosen[..n], i);
      assert chosen[..n][..i] == chosen[..i];
    } else {
      assert chosen[..i] == chosen;
    }
  }

  lemma AssembledStep(parts: map<int, Part>, chosen: seq<CompletePart>, i: nat)
    requires i < |chosen| && chosen[i].number in parts
    ensures Assemble(parts, chosen[..i + 1]) == Assemble(parts, chosen[..i]) + parts[chosen[i].number].bytes
  {
    assert chosen[..i + 1][..i] == chosen[..i];
  }

  lemma AssembledInPlace(parts: map<int, Part>, chosen: seq<CompletePart>, i: nat)
    requires i < |chosen| && chosen[i].number in parts
    ensures InPlace(parts, chosen, Assemble(parts, chosen), i)
  {
    AssembledSize(parts, chosen[..i]);
    AssembledSize(parts, chosen[..i + 1]);
    AssembledStep(parts, chosen, i);
    AssembledPrefix(parts, chosen, i + 1);
    OffsetStep(parts, chosen, i);
  }

  lemma AssemblyIsJoined(parts: map<int, Part>, chosen: seq<CompletePart>)
    requires forall i | 0 <= i < |chosen| :: chosen[i].number in parts
    ensures Joined(parts, chosen, Assemble(parts, chosen))
  {
    var bytes := Assemble(parts, chosen);
    AssembledSize(parts, chosen);
    assert chosen[..|chosen|] == chosen;
    forall i: nat | i < |chosen| ensures InPlace(parts, chosen, bytes, i) {
      AssembledInPlace(parts, chosen, i);
    }
  }

  /** The offsets leave no choice. */
  lemma {:induction false} JoinIsUnique(parts: map<int, Part>, chosen: seq<CompletePart>, bytes: Bytes, i: nat)
    requires Joined(parts, chosen, bytes) && i <= |chosen|
    ensures Offset(parts, chosen, i) <= |bytes|
    ensures bytes[..Offset(parts, chosen, i)] == Assemble(parts, chosen[..i])
  {
    if i > 0 {
      JoinIsUnique(parts, chosen, bytes, i - 1);
      assert InPlace(parts, chosen, bytes, i - 1);
      AssembledStep(parts, chosen, i - 1);
      var a, b := Offset(parts, chosen, i - 1), Offset(parts, chosen, i);
      assert bytes[..b] == bytes[..a] + bytes[a..b];
    }
  }

  function CommitMultipartUpload(d: Durable, upload: nat, obj: Object): Durable
    requires upload in d.uploads
  {
    var u := d.uploads[upload];
    WriteObject(d, Staging(u.id), obj).(uploads := d.uploads[upload := u.(status := Committed(obj))])
  }

  function DiscardMultipartUpload(d: Durable, upload: nat): Durable
    requires upload in d.uploads
  {
    d.(uploads := d.uploads[upload := d.uploads[upload].(status := Discarded)])
  }

  predicate IsActive(d: Durable, upload: nat) {
    upload in d.uploads && d.uploads[upload].status == Active
  }

  function DeleteObject(d: Durable, key: Key): Durable {
    d.(objects := d.objects - {key})
  }

  // ---------------------------------------------------------------- upload tables

  function SetState(d: Durable, id: Uuid, state: SessionState): Durable
    requires id in d.sessions
  {
    d.(sessions := d.sessions[id := d.sessions[id].(state := state)])
  }

  function CreateSession(d: Durable, id: Uuid, session: Session): Durable {
    d.(sessions := d.sessions[id := session])
  }

  /** The row transition of `PutPart`: the first part moves a created session to uploading. */
  function RecordPart(d: Durable, id: Uuid): Durable {
    if id in d.sessions && d.sessions[id].state == Created then SetState(d, id, Uploading) else d
  }

  /** `CompleteSession`: an open session becomes completed and gets its job; any other is left alone. */
  function CompleteSession(d: Durable, id: Uuid): Durable {
    if id in d.sessions && Open(d.sessions[id].state) then
      SetState(d, id, Completed).(jobs := if id in d.jobs then d.jobs else d.jobs[id := Queued])
    else d
  }

  function AbortSession(d: Durable, id: Uuid): Durable {
    if id in d.sessions && Open(d.sessions[id].state) then SetState(d, id, Aborted) else d
  }

  predicate Claimable(d: Durable, id: Uuid) {
    id in d.jobs && d.jobs[id] == Queued && id in d.sessions && d.sessions[id].state == Completed
  }

  function ClaimIngestJob(d: Durable, id: Uuid): Durable
    requires Claimable(d, id)
  {
    SetState(d, id, Ingesting).(jobs := d.jobs[id := Running])
  }

  predicate JobIsRunning(d: Durable, id: Uuid) {
    id in d.jobs && d.jobs[id] == Running && id in d.sessions && d.sessions[id].state == Ingesting
  }

  /** The guards of `SucceedIngestJob`; when one fails the transaction rolls back. */
  predicate CanSucceed(d: Durable, id: Uuid, digest: Digest, size: int) {
    && JobIsRunning(d, id)
    && d.sessions[id].digest == digest
    && d.sessions[id].size == size
    && (digest in d.blobs ==> d.blobs[digest].size == size)
  }

  /** `SucceedIngestJob`: records the blob unless it is known, readies the session, ends the job. */
  function SucceedIngestJob(d: Durable, id: Uuid, digest: Digest, size: int): Durable
    requires CanSucceed(d, id, digest, size)
  {
    SetState(d, id, Ready).(
      jobs := d.jobs[id := Succeeded],
      blobs := if digest in d.blobs then d.blobs else d.blobs[digest := Blob(size, Cas(digest))])
  }

  function FailIngestJob(d: Durable, id: Uuid): Durable
    requires JobIsRunning(d, id)
  {
    SetState(d, id, Failed).(jobs := d.jobs[id := JobFailed])
  }

  /** `OpenBlob`: the record decides the key, and the opened object must have the recorded size. */
  function OpenBlob(d: Durable, digest: Digest): Option<Bytes> {
    if digest !in d.blobs then None
    else
      var blob := d.blobs[digest];
      if blob.key !in d.objects then None
      else if |d.objects[blob.key].bytes| != blob.size then None
      else Some(d.objects[blob.key].bytes)
  }
}
