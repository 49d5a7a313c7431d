/** internal/uploads/service.go as straight-line code over the shared world. */
module UploadService {
  import opened CompleteParts
  import opened Keys
  import opened Text
  import opened UploadState
  import opened UploadProtocol
  import opened UploadInvariant
  import opened UploadSteps
  import opened UploadRuns
  import opened UploadWorld
  import opened Wrappers

  /** A stored session comes back with its state; an error does not. */
  type Outcome = Option<SessionState>

  /** What recovery can do for a session whose storage upload is gone: nothing but follow the object store.
      `size` is what the session declared. */
  predicate StagedAsDeclared(d: Durable, id: Uuid, size: int) {
    Staging(id) in d.objects && |d.objects[Staging(id)].bytes| == size
  }

  /** The session is completed and its job queued; nothing else is touched. */
  predicate CompletedFrom(d: Durable, e: Durable, id: Uuid)
    requires id in d.sessions
  {
    e == d.(sessions := d.sessions[id := d.sessions[id].(state := Completed)], jobs := d.jobs[id := Queued])
  }

  /** The parts became the staged object `obj`, the session is completed and its job queued; nothing else is touched. */
  predicate CommittedFrom(d: Durable, e: Durable, id: Uuid, obj: Object)
    requires HasUpload(d, id)
  {
    var m := d.sessions[id].storage.upload;
    && (obj.etag.Tag? ==> obj.etag.n !in d.issued)
    && e.issued == (if obj.etag.Tag? then d.issued[obj.etag.n := obj.bytes] else d.issued)
    && e == d.(objects := d.objects[Staging(id) := obj], issued := e.issued,
               uploads := d.uploads[m := d.uploads[m].(status := Committed(obj))],
               sessions := d.sessions[id := d.sessions[id].(state := Completed)], jobs := d.jobs[id := Queued])
  }

  /** The upload is discarded, if it was not already, and the session aborted; nothing else is touched. */
  predicate AbortedFrom(d: Durable, e: Durable, id: Uuid)
    requires HasUpload(d, id)
  {
    var m := d.sessions[id].storage.upload;
    e == d.(uploads := d.uploads[m := d.uploads[m].(status := Discarded)],
            sessions := d.sessions[id := d.sessions[id].(state := Aborted)])
  }

  /** An open session has no job yet. */
  lemma OpenSessionsHaveNoJob(H: Bytes -> Digest, d: Durable, id: Uuid)
    requires DurableInv(H, d) && id in d.sessions && Open(d.sessions[id].state)
    ensures CompletedFrom(d, CompleteSession(d, id), id)
    ensures id !in d.jobs
  {
    assert id in d.jobs ==> JobOk(d, id);
  }

  lemma DiscardThenAbort(d: Durable, id: Uuid, upload: nat)
    requires OwnsUpload(d, id, upload) && Open(d.sessions[id].state)
    ensures AbortedFrom(d, AbortSession(DiscardMultipartUpload(d, upload), id), id)
    ensures StatusOf(d, id) == Discarded ==> AbortedFrom(d, AbortSession(d, id), id)
  {
    if StatusOf(d, id) == Discarded {
      assert d.uploads[upload := d.uploads[upload].(status := Discarded)] == d.uploads;
    }
  }

  lemma CommitThenComplete(d: Durable, id: Uuid, upload: nat, obj: Object)
    requires OwnsUpload(d, id, upload) && d.uploads[upload].id == id && Fresh(d, obj.etag)
    requires Open(d.sessions[id].state) && id !in d.jobs
    ensures var e := CompleteSession(CommitMultipartUpload(d, upload, obj), id);
      HasUpload(e, id) && StatusOf(e, id) == Committed(obj) && CommittedFrom(d, e, id, obj)
  {
    var e := CompleteSession(CommitMultipartUpload(d, upload, obj), id);
    assert e.objects == d.objects[Staging(id) := obj];
    assert e.uploads == d.uploads[upload := d.uploads[upload].(status := Committed(obj))];
    assert e.sessions == d.sessions[id := d.sessions[id].(state := Completed)];
    assert e.jobs == d.jobs[id := Queued];
  }

  /** An answer that is not an error tells the state of the session. */
  predicate Reported(d: Durable, id: Uuid, r: Outcome) {
    r.Some? ==> id in d.sessions && d.sessions[id].state == r.value && (r.value == Aborted || PastCompletion(r.value))
  }

  /** What an answer is worth: an aborted session's upload was discarded, a completed session's was committed. */
  ghost predicate Honoured(d: Durable, id: Uuid, r: Outcome) {
    && Reported(d, id, r)
    && (r.Some? && d.sessions[id].storage.Multipart? ==>
          HasUpload(d, id) && if r.value == Aborted then StatusOf(d, id) == Discarded else StatusOf(d, id).Committed?)
  }

  lemma ReportsAreHonoured(H: Bytes -> Digest, d: Durable, id: Uuid, r: Outcome)
    requires DurableInv(H, d) && Reported(d, id, r)
    ensures Honoured(d, id, r)
  {
    if r.Some? {
      assert SessionOk(H, d, id);
    }
  }

  /** `CompleteSession`, the last step of a completion. */
  method MarkCompleted(w: World, a: ActorId, id: Uuid) returns (r: Outcome)
    requires w.Valid() && PcOf(w.s, a) == MarkingCompleted(id)
    modifies w
    ensures w.Valid() && old(w.run) <= w.run && Rely(old(w.s.d), w.s.d) && PcOf(w.s, a) == Idle
    ensures w.quiet ==> w.s.d == CompleteSession(old(w.s.d), id)
    ensures Reported(w.s.d, id, r) && r != Some(Aborted)
    ensures w.quiet && id in old(w.s.d.sessions) && Open(old(w.s.d.sessions[id].state)) ==> r == Some(Completed)
  {
    var at, _ := w.Call(a);
    RelyTransitive(old(w.s.d), at, w.s.d);
    var state := w.s.d.sessions[id].state;
    return if PastCompletion(state) then Some(state) else None;
  }

  /** `AbortSession`, the last step of an abort. */
  method MarkAborted(w: World, a: ActorId, id: Uuid) returns (r: Outcome)
    requires w.Valid() && PcOf(w.s, a) == MarkingAborted(id)
    modifies w
    ensures w.Valid() && old(w.run) <= w.run && Rely(old(w.s.d), w.s.d) && PcOf(w.s, a) == Idle
    ensures w.quiet ==> w.s.d == AbortSession(old(w.s.d), id)
    ensures Reported(w.s.d, id, r) && (r.Some? ==> r == Some(Aborted))
    ensures w.quiet && id in old(w.s.d.sessions) && Open(old(w.s.d.sessions[id].state)) ==> r == Some(Aborted)
  {
    var at, _ := w.Call(a);
    RelyTransitive(old(w.s.d), at, w.s.d);
    return if Open(at.sessions[id].state) then Some(Aborted) else None;
  }

  /** `recoverCompletedStagedObject`, with the callers' reading of a missing object. */
  method RecoverStaged(w: World, a: ActorId, id: Uuid, size: int, origin: Origin) returns (r: Outcome)
    requires w.Valid() && PcOf(w.s, a) == Recovering(id, size, origin)
    modifies w
    ensures w.Valid() && old(w.run) <= w.run && Rely(old(w.s.d), w.s.d) && PcOf(w.s, a) == Idle
    ensures Reported(w.s.d, id, r) && (origin != AfterAbort ==> r != Some(Aborted))
    ensures w.quiet && StagedAsDeclared(old(w.s.d), id, size) ==> w.s.d == CompleteSession(old(w.s.d), id)
    ensures w.quiet && Staging(id) in old(w.s.d.objects) && !StagedAsDeclared(old(w.s.d), id, size) ==>
      w.s.d == old(w.s.d) && r == None
    ensures w.quiet && Staging(id) !in old(w.s.d.objects) ==>
      w.s.d == if origin == AfterAbort then AbortSession(old(w.s.d), id) else old(w.s.d)
    ensures w.quiet && Staging(id) !in old(w.s.d.objects) && origin != AfterAbort ==> r == None
    ensures w.quiet && id in old(w.s.d.sessions) && Open(old(w.s.d.sessions[id].state)) ==>
      (StagedAsDeclared(old(w.s.d), id, size) ==> r == Some(Completed)) &&
      (Staging(id) !in old(w.s.d.objects) && origin == AfterAbort ==> r == Some(Aborted))
  {
    var at, _ := w.Call(a);
    RelyTransitive(old(w.s.d), at, w.s.d);
    ghost var stat := w.s.d;
    if Staging(id) !in at.objects {
      if origin != AfterAbort {
        return None;
      }
      r := MarkAborted(w, a, id);
      RelyTransitive(old(w.s.d), stat, w.s.d);
      return;
    }
    if |at.objects[Staging(id)].bytes| != size {
      return None;
    }
    r := MarkCompleted(w, a, id);
    RelyTransitive(old(w.s.d), stat, w.s.d);
  }

  lemma CommitJoins(H: Bytes -> Digest, d: Durable, id: Uuid, upload: nat, parts: seq<CompletePart>, etag: ETag)
    requires DurableInv(H, d) && OwnsUpload(d, id, upload) && Fresh(d, etag)
    requires Open(d.sessions[id].state) && id !in d.jobs && PartsPresent(d.uploads[upload].parts, parts)
    ensures var obj := Object(Assemble(d.uploads[upload].parts, parts), etag);
      var e := CompleteSession(CommitMultipartUpload(d, upload, obj), id);
      && HasUpload(d, id) && HasUpload(e, id) && StatusOf(e, id) == Committed(obj) && CommittedFrom(d, e, id, obj)
      && Joined(d.uploads[upload].parts, parts, obj.bytes)
  {
    assert SessionOk(H, d, id);
    AssemblyIsJoined(d.uploads[upload].parts, parts);
    CommitThenComplete(d, id, upload, Object(Assemble(d.uploads[upload].parts, parts), etag));
  }

  /** `completeMultipartOrRecover` and the session update that follows it. */
  method CompleteMultipartOrRecover(w: World, a: ActorId, id: Uuid, upload: nat, size: int, parts: seq<CompletePart>)
      returns (r: Outcome)
    requires w.Valid() && PcOf(w.s, a) == CompletingStaging(id, upload, size, parts)
    modifies w
    ensures w.Valid() && old(w.run) <= w.run && Rely(old(w.s.d), w.s.d) && PcOf(w.s, a) == Idle
    ensures Reported(w.s.d, id, r) && r != Some(Aborted)
    ensures w.quiet && id in old(w.s.d.sessions) && Open(old(w.s.d.sessions[id].state)) ==>
      if IsActive(old(w.s.d), upload) then
        if PartsPresent(old(w.s.d.uploads[upload].parts), parts) then
          && r == Some(Completed)
          && HasUpload(old(w.s.d), id) && HasUpload(w.s.d, id)
          && StatusOf(w.s.d, id).Committed? && StatusOf(w.s.d, id).obj.etag.Tag?
          && CommittedFrom(old(w.s.d), w.s.d, id, StatusOf(w.s.d, id).obj)
          && Joined(old(w.s.d.uploads[upload].parts), parts, StatusOf(w.s.d, id).obj.bytes)
        else r == None && w.s.d == old(w.s.d)
      else if StagedAsDeclared(old(w.s.d), id, size) then
        r == Some(Completed) && CompletedFrom(old(w.s.d), w.s.d, id)
      else r == None && w.s.d == old(w.s.d)
  {
    assert PcInv(w.H, w.s.d, w.s.pcs[a]);
    if id in w.s.d.sessions && Open(w.s.d.sessions[id].state) {
      OpenSessionsHaveNoJob(w.H, w.s.d, id);
    }
    var at, c := w.Call(a);
    RelyTransitive(old(w.s.d), at, w.s.d);
    ghost var called := w.s.d;
    if !IsActive(at, upload) || (PartsPresent(at.uploads[upload].parts, parts) && c.report == ReplyLost) {
      r := RecoverStaged(w, a, id, size, AfterComplete);
      RelyTransitive(old(w.s.d), called, w.s.d);
      return;
    }
    if !PartsPresent(at.uploads[upload].parts, parts) || c.report == Refused {
      return None;
    }
    if w.quiet && id in at.sessions && Open(at.sessions[id].state) {
      CommitJoins(w.H, at, id, upload, parts, c.etag);
    }
    r := MarkCompleted(w, a, id);
    RelyTransitive(old(w.s.d), called, w.s.d);
  }

  /** `abortMultipartOrRecover` and the session update that follows it. */
  method AbortMultipartOrRecover(w: World, a: ActorId, id: Uuid, upload: nat, size: int) returns (r: Outcome)
    requires w.Valid() && PcOf(w.s, a) == AbortingStaging(id, upload, size)
    modifies w
    ensures w.Valid() && old(w.run) <= w.run && Rely(old(w.s.d), w.s.d) && PcOf(w.s, a) == Idle
    ensures Reported(w.s.d, id, r)
    ensures w.quiet && id in old(w.s.d.sessions) && Open(old(w.s.d.sessions[id].state)) ==>
      && HasUpload(old(w.s.d), id)
      && if IsActive(old(w.s.d), upload) || Staging(id) !in old(w.s.d.objects) then
           r == Some(Aborted) && AbortedFrom(old(w.s.d), w.s.d, id)
         else if StagedAsDeclared(old(w.s.d), id, size) then
           r == Some(Completed) && CompletedFrom(old(w.s.d), w.s.d, id)
         else r == None && w.s.d == old(w.s.d)
  {
    assert PcInv(w.H, w.s.d, w.s.pcs[a]);
    if id in w.s.d.sessions && Open(w.s.d.sessions[id].state) {
      OpenSessionsHaveNoJob(w.H, w.s.d, id);
      DecisionIsVisible(w.H, w.s.d, id);
      DiscardThenAbort(w.s.d, id, upload);
    }
    var at, c := w.Call(a);
    RelyTransitive(old(w.s.d), at, w.s.d);
    ghost var called := w.s.d;
    if IsActive(at, upload) && c.report != ReplyLost {
      if c.report == Refused {
        return None;
      }
      r := MarkAborted(w, a, id);
    } else {
      r := RecoverStaged(w, a, id, size, AfterAbort);
    }
    RelyTransitive(old(w.s.d), called, w.s.d);
  }

  /** What the object store has already decided about the bytes of an open session. */
  datatype Decision = Undecided | CommittedAsDeclared | CommittedOtherwise | Gone

  function Decided(d: Durable, id: Uuid): Decision
    requires HasUpload(d, id)
  {
    match StatusOf(d, id)
    case Active => Undecided
    case Discarded => Gone
    case Committed(_) => if StagedAsDeclared(d, id, d.sessions[id].size) then CommittedAsDeclared else CommittedOtherwise
  }

  /** An open session's staged object is there exactly when its upload was committed. */
  lemma DecisionIsVisible(H: Bytes -> Digest, d: Durable, id: Uuid)
    requires DurableInv(H, d) && id in d.sessions && Open(d.sessions[id].state)
    ensures HasUpload(d, id)
    ensures Staging(id) in d.objects <==> StatusOf(d, id).Committed?
  {
    assert SessionOk(H, d, id);
    if Staging(id) in d.objects {
      assert StagedOk(d, id);
    }
  }

  /** `CompleteUpload`. Undisturbed, on an open session and with an acceptable part list, it completes the
      session exactly when the object store holds the declared object already, or still holds the parts and
      the session has not expired; otherwise it changes nothing. */
  method CompleteUpload(w: World, a: ActorId, id: Uuid, parts: seq<CompletePart>, now: int) returns (r: Outcome)
    requires w.Valid() && PcOf(w.s, a) == Idle
    modifies w
    ensures w.Valid() && old(w.run) <= w.run && Rely(old(w.s.d), w.s.d) && PcOf(w.s, a) == Idle
    ensures Honoured(w.s.d, id, r) && r != Some(Aborted)
    ensures w.quiet && id !in old(w.s.d.sessions) ==> r == None && w.s.d == old(w.s.d)
    ensures w.quiet && id in old(w.s.d.sessions) && !Open(old(w.s.d.sessions[id].state)) ==>
      var state := old(w.s.d.sessions[id].state);
      r == (if state == Failed || state == Aborted then None else Some(state)) && w.s.d == old(w.s.d)
    ensures w.quiet && id in old(w.s.d.sessions) && Open(old(w.s.d.sessions[id].state)) ==>
      var d := old(w.s.d);
      var normalized := Normalized(parts);
      && HasUpload(d, id)
      && (normalized == None || Total(normalized.value) != d.sessions[id].size ==> r == None && w.s.d == d)
      && (normalized.Some? && Total(normalized.value) == d.sessions[id].size ==>
          var expired := d.sessions[id].expires <= now;
          match Decided(d, id)
          case CommittedAsDeclared => r == Some(Completed) && CompletedFrom(d, w.s.d, id)
          case CommittedOtherwise => r == None && w.s.d == d
          case Gone => r == None && w.s.d == d
          case Undecided =>
            var stored := d.uploads[d.sessions[id].storage.upload].parts;
            if expired || exists i | 0 <= i < |normalized.value| ::
                 !(normalized.value[i].number in stored && stored[normalized.value[i].number].etag == normalized.value[i].etag)
            then
              r == None && w.s.d == d
            else
              && r == Some(Completed)
              && HasUpload(w.s.d, id) && StatusOf(w.s.d, id).Committed? && StatusOf(w.s.d, id).obj.etag.Tag?
              && CommittedFrom(d, w.s.d, id, StatusOf(w.s.d, id).obj)
              && Joined(stored, normalized.value, StatusOf(w.s.d, id).obj.bytes))
  {
    var at := w.Begin(a, Request.CompleteUpload(id, parts, now));
    RelyTransitive(old(w.s.d), at, w.s.d);
    ghost var begun := w.s.d;
    if id !in at.sessions {
      return None;
    }
    var session := at.sessions[id];
    if PastCompletion(session.state) {
      ReportsAreHonoured(w.H, w.s.d, id, Some(session.state));
      return Some(session.state);
    }
    if !Open(session.state) {
      return None;
    }
    DecisionIsVisible(w.H, at, id);
    OpenSessionsHaveNoJob(w.H, at, id);
    var normalized, sizeBytes := NormalizeCompleteUploadParts(parts);
    if normalized == None {
      return None;
    }
    if sizeBytes != session.size {
      return None;
    }
    if session.expires <= now {
      r := RecoverStaged(w, a, id, session.size, AfterExpiry);
    } else {
      r := CompleteMultipartOrRecover(w, a, id, session.storage.upload, session.size, normalized.value);
    }
    RelyTransitive(old(w.s.d), begun, w.s.d);
    ReportsAreHonoured(w.H, w.s.d, id, r);
  }

  /** `AbortUpload`. Undisturbed, on an open session, it aborts unless the object store has committed the
      upload; then it completes the session instead, provided the object has the declared size. */
  method AbortUpload(w: World, a: ActorId, id: Uuid) returns (r: Outcome)
    requires w.Valid() && PcOf(w.s, a) == Idle
    modifies w
    ensures w.Valid() && old(w.run) <= w.run && Rely(old(w.s.d), w.s.d) && PcOf(w.s, a) == Idle
    ensures Honoured(w.s.d, id, r)
    ensures w.quiet && id !in old(w.s.d.sessions) ==> r == None && w.s.d == old(w.s.d)
    ensures w.quiet && id in old(w.s.d.sessions) && !Open(old(w.s.d.sessions[id].state)) ==>
      r == (if old(w.s.d.sessions[id].state) == Aborted then Some(Aborted) else None) && w.s.d == old(w.s.d)
    ensures w.quiet && id in old(w.s.d.sessions) && Open(old(w.s.d.sessions[id].state)) ==>
      var d := old(w.s.d);
      && HasUpload(d, id)
      && match Decided(d, id)
         case CommittedAsDeclared => r == Some(Completed) && CompletedFrom(d, w.s.d, id)
         case CommittedOtherwise => r == None && w.s.d == d
         case _ => r == Some(Aborted) && AbortedFrom(d, w.s.d, id)
  {
    var at := w.Begin(a, Request.AbortUpload(id));
    RelyTransitive(old(w.s.d), at, w.s.d);
    ghost var begun := w.s.d;
    if id !in at.sessions {
      return None;
    }
    var session := at.sessions[id];
    if session.state == Aborted {
      ReportsAreHonoured(w.H, w.s.d, id, Some(Aborted));
      return Some(Aborted);
    }
    if !Open(session.state) {
      return None;
    }
    DecisionIsVisible(w.H, at, id);
    r := AbortMultipartOrRecover(w, a, id, session.storage.upload, session.size);
    RelyTransitive(old(w.s.d), begun, w.s.d);
    ReportsAreHonoured(w.H, w.s.d, id, r);
  }

  /** No upload is active that was not active before. */
  predicate NoNewActiveUpload(d: Durable, e: Durable) {
    forall m | m in e.uploads :: e.uploads[m].status == Active ==> m in d.uploads && d.uploads[m].status == Active
  }

  /** A session for the digest and size was created over a new storage upload without parts; nothing else is touched. */
  ghost predicate Opened(d: Durable, e: Durable, id: Uuid, digest: Digest, size: int, expires: int) {
    exists m | m !in d.uploads ::
      e == d.(uploads := d.uploads[m := MultipartUpload(id, map[], Active)],
              sessions := d.sessions[id := Session(digest, size, Created, Multipart(m), expires)])
  }

  /** `BeginUpload` after validation when no trusted blob satisfies it: open a storage upload, record the
      session, and undo the storage upload if that fails. */
  method BeginStaged(w: World, a: ActorId, id: Uuid, digest: Digest, size: int, expires: int) returns (r: Outcome)
    requires w.Valid() && PcOf(w.s, a) == CreatingStaging(id, digest, size, expires)
    modifies w
    ensures w.Valid() && old(w.run) <= w.run && Rely(old(w.s.d), w.s.d) && PcOf(w.s, a) == Idle
    ensures w.quiet && id !in old(w.s.d.sessions) ==>
      r == Some(Created) && Opened(old(w.s.d), w.s.d, id, digest, size, expires)
    ensures w.quiet && id in old(w.s.d.sessions) ==>
      r == None && NoNewActiveUpload(old(w.s.d), w.s.d) && w.s.d.sessions == old(w.s.d.sessions)
  {
    var at, c := w.Call(a);
    RelyTransitive(old(w.s.d), at, w.s.d);
    ghost var created := w.s.d;
    r := InsertSession(w, a, id, digest, size, expires, c.upload);
    RelyTransitive(old(w.s.d), created, w.s.d);
  }

  method InsertSession(w: World, a: ActorId, id: Uuid, digest: Digest, size: int, expires: int, upload: nat)
      returns (r: Outcome)
    requires w.Valid() && PcOf(w.s, a) == InsertingSession(id, digest, size, expires, upload)
    modifies w
    ensures w.Valid() && old(w.run) <= w.run && Rely(old(w.s.d), w.s.d) && PcOf(w.s, a) == Idle
    ensures w.quiet && id !in old(w.s.d.sessions) ==>
      && r == Some(Created)
      && w.s.d == CreateSession(old(w.s.d), id, Session(digest, size, Created, Multipart(upload), expires))
    ensures w.quiet && id in old(w.s.d.sessions) ==>
      && r == None
      && w.s.d == if IsActive(old(w.s.d), upload) then DiscardMultipartUpload(old(w.s.d), upload) else old(w.s.d)
  {
    var at, c := w.Call(a);
    RelyTransitive(old(w.s.d), at, w.s.d);
    if id !in at.sessions && c.report != Refused && c.report != ReplyLost {
      return Some(Created);
    }
    ghost var refused := w.s.d;
    var undo, _ := w.Call(a);
    RelyTransitive(refused, undo, w.s.d);
    RelyTransitive(old(w.s.d), refused, w.s.d);
    return None;
  }

  /** The trusted-blob shortcut of `BeginUpload`, which falls back to a staged upload for an unknown digest. */
  method BeginTrusted(w: World, a: ActorId, id: Uuid, digest: Digest, size: int, expires: int) returns (r: Outcome)
    requires w.Valid() && PcOf(w.s, a) == LookingUp(id, digest, size, expires)
    modifies w
    ensures w.Valid() && old(w.run) <= w.run && Rely(old(w.s.d), w.s.d) && PcOf(w.s, a) == Idle
    ensures w.quiet ==>
      var d := old(w.s.d);
      if digest in d.blobs then
        if d.blobs[digest].size == size && id !in d.sessions then
          && r == Some(Ready)
          && w.s.d == d.(sessions := d.sessions[id := Session(digest, size, Ready, ReadyMarker, expires)])
        else r == None && w.s.d == d
      else if id in d.sessions then r == None && NoNewActiveUpload(d, w.s.d) && w.s.d.sessions == d.sessions
      else
        r == Some(Created) && Opened(d, w.s.d, id, digest, size, expires)
  {
    var at, _ := w.Call(a);
    RelyTransitive(old(w.s.d), at, w.s.d);
    ghost var looked := w.s.d;
    if digest !in at.blobs {
      r := BeginStaged(w, a, id, digest, size, expires);
    } else if at.blobs[digest].size != size {
      return None;
    } else {
      r := InsertReady(w, a, id, digest, size, expires);
    }
    RelyTransitive(old(w.s.d), looked, w.s.d);
  }

  /** `BeginUpload`. With `trusted`, a recorded blob of the declared size readies the session at once, and one
      of another size refuses it. */
  method BeginUpload(w: World, a: ActorId, id: Uuid, digest: Digest, size: int, expires: int, now: int, trusted: bool)
      returns (r: Outcome)
    requires w.Valid() && PcOf(w.s, a) == Idle
    modifies w
    ensures w.Valid() && old(w.run) <= w.run && Rely(old(w.s.d), w.s.d) && PcOf(w.s, a) == Idle
    ensures w.quiet ==>
      var d := old(w.s.d);
      if !ValidDigest(digest) || size < 0 || expires <= now then r == None && w.s.d == d
      else if trusted && digest in d.blobs then
        if d.blobs[digest].size == size && id !in d.sessions then
          && r == Some(Ready)
          && w.s.d == d.(sessions := d.sessions[id := Session(digest, size, Ready, ReadyMarker, expires)])
        else r == None && w.s.d == d
      else if id in d.sessions then r == None && NoNewActiveUpload(d, w.s.d) && w.s.d.sessions == d.sessions
      else
        r == Some(Created) && Opened(d, w.s.d, id, digest, size, expires)
  {
    var at := w.Begin(a, Request.BeginUpload(id, digest, size, expires, now, trusted));
    RelyTransitive(old(w.s.d), at, w.s.d);
    if !ValidDigest(digest) || size < 0 || expires <= now {
      return None;
    }
    ghost var begun := w.s.d;
    if trusted {
      r := BeginTrusted(w, a, id, digest, size, expires);
    } else {
      r := BeginStaged(w, a, id, digest, size, expires);
    }
    RelyTransitive(old(w.s.d), begun, w.s.d);
  }

  /** `CreateReadySession`, which the database refuses for a taken identity or an unknown blob. */
  method InsertReady(w: World, a: ActorId, id: Uuid, digest: Digest, size: int, expires: int) returns (r: Outcome)
    requires w.Valid() && PcOf(w.s, a) == InsertingReady(id, digest, size, expires)
    modifies w
    ensures w.Valid() && old(w.run) <= w.run && Rely(old(w.s.d), w.s.d) && PcOf(w.s, a) == Idle
    ensures w.quiet && id in old(w.s.d.sessions) ==> r == None && w.s.d == old(w.s.d)
    ensures w.quiet && id !in old(w.s.d.sessions) ==>
      && r == Some(Ready)
      && w.s.d == CreateSession(old(w.s.d), id, Session(digest, size, Ready, ReadyMarker, expires))
  {
    assert PcInv(w.H, w.s.d, w.s.pcs[a]);
    var at, _ := w.Call(a);
    RelyTransitive(old(w.s.d), at, w.s.d);
    return if id in at.sessions || digest !in at.blobs then None else Some(Ready);
  }

  /** After a put the upload holds the part under its number; every other part, every other upload and everything else
      but the state of the session is as it was. */
  ghost predicate OnlyPartPut(d: Durable, e: Durable, id: Uuid, upload: nat, number: int, part: Part)
    requires upload in d.uploads && id in d.sessions
  {
    && upload in e.uploads
    && number in e.uploads[upload].parts && e.uploads[upload].parts[number] == part
    && (forall n | n != number :: n in e.uploads[upload].parts <==> n in d.uploads[upload].parts)
    && (forall n | n != number && n in d.uploads[upload].parts ::
          e.uploads[upload].parts[n] == d.uploads[upload].parts[n])
    && e.uploads[upload].id == d.uploads[upload].id && e.uploads[upload].status == d.uploads[upload].status
    && (forall m | m != upload :: m in e.uploads <==> m in d.uploads)
    && (forall m | m != upload && m in d.uploads :: e.uploads[m] == d.uploads[m])
    && e == d.(uploads := e.uploads, sessions := d.sessions[id := d.sessions[id].(state := Uploading)])
  }

  /** `PutUploadPart`: an open, unexpired session whose storage upload is alive takes the part. */
  method PutUploadPart(w: World, a: ActorId, id: Uuid, number: int, bytes: Bytes, now: int)
      returns (r: Option<CompletePart>)
    requires w.Valid() && PcOf(w.s, a) == Idle
    modifies w
    ensures w.Valid() && old(w.run) <= w.run && Rely(old(w.s.d), w.s.d) && PcOf(w.s, a) == Idle
    ensures r.Some? ==> ValidNumber(number) && r.value.number == number && r.value.size == |bytes| && !IsBlank(r.value.etag)
    ensures w.quiet && r == None ==> w.s.d == old(w.s.d)
    ensures w.quiet && r.Some? ==>
      && HasUpload(old(w.s.d), id)
      && OnlyPartPut(old(w.s.d), w.s.d, id, old(w.s.d.sessions[id]).storage.upload, number, Part(bytes, r.value.etag))
    ensures w.quiet ==> (r.Some? <==>
      && 1 <= number <= 10000
      && |bytes| <= 5_368_709_120
      && HasUpload(old(w.s.d), id)
      && Open(old(w.s.d.sessions[id].state))
      && now < old(w.s.d.sessions[id].expires)
      && StatusOf(old(w.s.d), id) == Active)
  {
    var at := w.Begin(a, Request.PutUploadPart(id, number, bytes, now));
    RelyTransitive(old(w.s.d), at, w.s.d);
    if !ValidNumber(number) || |bytes| > MULTIPART_MAX_PART_SIZE_BYTES || id !in at.sessions {
      return None;
    }
    var session := at.sessions[id];
    if !Open(session.state) || session.expires <= now {
      return None;
    }
    assert SessionOk(w.H, at, id);
    ghost var checked := w.s.d;
    var tag := SendPart(w, a, id, session.storage.upload, number, bytes);
    RelyTransitive(old(w.s.d), checked, w.s.d);
    r := if tag == None then None else Some(CompletePart(number, tag.value, |bytes|));
  }

  lemma PutStoresOnlyThePart(d: Durable, id: Uuid, upload: nat, number: int, part: Part)
    requires upload in d.uploads && id in d.sessions && Open(d.sessions[id].state)
    ensures OnlyPartPut(d, RecordPart(PutUploadedPart(d, upload, number, part), id), id, upload, number, part)
  {
    if d.sessions[id].state == Uploading {
      assert d.sessions[id := d.sessions[id].(state := Uploading)] == d.sessions;
    }
  }

  /** The part goes to the object store, then its row to the session, if that still takes parts. */
  method SendPart(w: World, a: ActorId, id: Uuid, upload: nat, number: int, bytes: Bytes) returns (tag: Option<string>)
    requires w.Valid() && PcOf(w.s, a) == SendingPart(id, upload, number, bytes)
    modifies w
    ensures w.Valid() && old(w.run) <= w.run && Rely(old(w.s.d), w.s.d) && PcOf(w.s, a) == Idle
    ensures tag.Some? ==> !IsBlank(tag.value)
    ensures w.quiet && id in old(w.s.d.sessions) && Open(old(w.s.d.sessions[id].state)) ==>
      && (tag.Some? <==> IsActive(old(w.s.d), upload))
      && if tag == None then w.s.d == old(w.s.d)
         else OnlyPartPut(old(w.s.d), w.s.d, id, upload, number, Part(bytes, tag.value))
  {
    var at, c := w.Call(a);
    RelyTransitive(old(w.s.d), at, w.s.d);
    if !IsActive(at, upload) || c.report == Refused || c.report == ReplyLost || IsBlank(c.partTag) {
      return None;
    }
    ghost var sent := w.s.d;
    var recorded, _ := w.Call(a);
    RelyTransitive(sent, recorded, w.s.d);
    RelyTransitive(old(w.s.d), sent, w.s.d);
    if id in old(w.s.d.sessions) && Open(old(w.s.d.sessions[id].state)) && upload in old(w.s.d.uploads) {
      PutStoresOnlyThePart(old(w.s.d), id, upload, number, Part(bytes, c.partTag));
    }
    return if id in recorded.sessions && Open(recorded.sessions[id].state) then Some(c.partTag) else None;
  }
}
