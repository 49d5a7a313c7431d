/** Runs: any number of clients and workers, in any interleaving, crashing between any two calls. */
module UploadRuns {
  import opened CompleteParts
  import opened Keys
  import Runs
  import opened UploadState
  import opened UploadProtocol
  import opened UploadInvariant
  import opened UploadSteps
  import opened Wrappers

  /** A move keeps the durable invariant, tells the mover what it must know next, and harms nobody. */
  ghost predicate Safe(H: Bytes -> Digest, d: Durable, r: Option<(Durable, Pc)>) {
    r.Some? ==> DurableInv(H, r.value.0) && PcInv(H, r.value.0, r.value.1) && Rely(d, r.value.0)
  }

  lemma StartCompleteSafe(H: Bytes -> Digest, d: Durable, id: Uuid, parts: seq<CompletePart>, now: int)
    requires DurableInv(H, d)
    ensures PcInv(H, d, StartComplete(d, id, parts, now)) && PcInv(H, d, StartAbort(d, id))
  {
    NormalizedIsStrict(parts);
    if id in d.sessions {
      assert SessionOk(H, d, id);
    }
  }

  lemma StartSafe(H: Bytes -> Digest, d: Durable, r: Request)
    requires DurableInv(H, d)
    ensures Safe(H, d, StartMove(d, r))
  {
    RelyReflexive(d);
    match r
    case BeginUpload(_, _, _, _, _, _) =>
    case PutUploadPart(_, _, _, _) =>
    case CompleteUpload(id, parts, now) => StartCompleteSafe(H, d, id, parts, now);
    case AbortUpload(id) => StartCompleteSafe(H, d, id, [], 0);
    case ClaimJob(id) =>
      if Claimable(d, id) {
        ClaimIngestJobOk(H, d, id);
        assert JobOk(d, id);
      }
    case RepeatJob(id) => assert id in d.jobs ==> JobOk(d, id);
  }

  lemma ClientMoveSafe(H: Bytes -> Digest, d: Durable, pc: Pc, c: Choice)
    requires DurableInv(H, d) && PcInv(H, d, pc) && c.Reply?
    ensures Safe(H, d, ClientMove(d, pc, c))
  {
    RelyReflexive(d);
    match pc
    case InsertingReady(id, digest, size, expires) =>
      if id !in d.sessions && digest in d.blobs {
        CreateSessionOk(H, d, id, Session(digest, size, Ready, ReadyMarker, expires));
      }
    case CreatingStaging(id, _, _, _) =>
      if c.upload !in d.uploads {
        CreateMultipartUploadOk(H, d, c.upload, id);
      }
    case InsertingSession(id, digest, size, expires, upload) =>
      if id !in d.sessions {
        CreateSessionOk(H, d, id, Session(digest, size, Created, Multipart(upload), expires));
      }
    case UndoingStaging(upload) =>
      if IsActive(d, upload) {
        ActiveUploadChangeOk(H, d, DiscardMultipartUpload(d, upload), upload);
      }
    case SendingPart(id, upload, number, bytes) =>
      if IsActive(d, upload) {
        ActiveUploadChangeOk(H, d, PutUploadedPart(d, upload, number, Part(bytes, c.partTag)), upload);
      }
    case RecordingPart(id) => RecordPartOk(H, d, id);
    case _ =>
  }

  /** Recovery decides by the staged object: it is there exactly when the upload was committed and not
      yet decided, so an open session without it has lost its upload for good. */
  lemma RecoveryDecides(H: Bytes -> Digest, d: Durable, id: Uuid, size: int, origin: Origin)
    requires DurableInv(H, d) && PcInv(H, d, Recovering(id, size, origin))
    ensures PcInv(H, d, AfterStagedStat(d, id, size, origin))
  {
    assert SessionOk(H, d, id);
    if Staging(id) in d.objects {
      assert StagedOk(d, id);
    }
  }

  lemma CompletingSafe(H: Bytes -> Digest, d: Durable, pc: Pc, c: Choice)
    requires DurableInv(H, d) && PcInv(H, d, pc) && c.Reply? && pc.CompletingStaging?
    ensures Safe(H, d, FinishMove(d, pc, c))
  {
    RelyReflexive(d);
    if IsActive(d, pc.upload) && Fresh(d, c.etag) {
      CommitFacts(H, d, pc.id, pc.upload);
      CommitMultipartUploadOk(H, d, pc.id, pc.upload, Object(Assemble(d.uploads[pc.upload].parts, pc.parts), c.etag));
    }
  }

  lemma AbortingSafe(H: Bytes -> Digest, d: Durable, pc: Pc, c: Choice)
    requires DurableInv(H, d) && PcInv(H, d, pc) && c.Reply? && pc.AbortingStaging?
    ensures Safe(H, d, FinishMove(d, pc, c))
  {
    RelyReflexive(d);
    if IsActive(d, pc.upload) {
      ActiveUploadChangeOk(H, d, DiscardMultipartUpload(d, pc.upload), pc.upload);
    }
  }

  lemma FinishMoveSafe(H: Bytes -> Digest, d: Durable, pc: Pc, c: Choice)
    requires DurableInv(H, d) && PcInv(H, d, pc) && c.Reply? && IsFinish(pc)
    ensures Safe(H, d, FinishMove(d, pc, c))
  {
    if pc.CompletingStaging? {
      CompletingSafe(H, d, pc, c);
    } else if pc.AbortingStaging? {
      AbortingSafe(H, d, pc, c);
    } else if pc.Recovering? {
      RelyReflexive(d);
      RecoveryDecides(H, d, pc.id, pc.size, pc.origin);
    } else if pc.MarkingCompleted? {
      CompleteSessionOk(H, d, pc.id);
    } else {
      AbortSessionOk(H, d, pc.id);
    }
  }

  /** Opening the staged object: its absence means the job is decided; bad bytes are the client's. */
  lemma VerifyDecides(H: Bytes -> Digest, d: Durable, id: Uuid, digest: Digest, size: int)
    requires DurableInv(H, d) && PcInv(H, d, Verifying(id, digest, size))
    ensures PcInv(H, d, AfterStagedOpen(H, d, id, digest, size))
  {
    assert JobOk(d, id) && SessionOk(H, d, id);
    if Staging(id) in d.objects {
      assert StagedOk(d, id);
    }
  }

  /** The bytes under a digest's key have the verified size, unless the hash collides. */
  lemma StoredSizeAgrees(H: Bytes -> Digest, d: Durable, v: Verified)
    requires CasPure(H, d) && Holds(H, d, v) && Cas(v.digest) in d.objects
    ensures Injective(H) ==> |d.objects[Cas(v.digest)].bytes| == v.size
  {
  }

  lemma RecordDecides(H: Bytes -> Digest, d: Durable, v: Verified, cause: Cause)
    requires DurableInv(H, d) && PcInv(H, d, ReadingRecord(v, cause))
    ensures PcInv(H, d, AfterRecord(d, v, cause))
  {
    if v.digest in d.blobs {
      assert BlobBacked(d, v.digest);
      StoredSizeAgrees(H, d, v);
    }
  }

  lemma StatDecides(H: Bytes -> Digest, d: Durable, v: Verified, cause: Cause)
    requires DurableInv(H, d) && PcInv(H, d, StattingTrusted(v, cause))
    ensures PcInv(H, d, AfterStat(d, v, cause))
  {
    assert BlobBacked(d, v.digest);
    StoredSizeAgrees(H, d, v);
  }

  lemma ExistingDecides(H: Bytes -> Digest, d: Durable, v: Verified, cause: Cause)
    requires DurableInv(H, d) && PcInv(H, d, OpeningExisting(v, cause))
    ensures PcInv(H, d, AfterExistingOpen(H, d, v, cause))
  {
    if Cas(v.digest) in d.objects {
      StoredSizeAgrees(H, d, v);
    }
  }

  lemma CopySafe(H: Bytes -> Digest, d: Durable, pc: Pc, c: Choice)
    requires DurableInv(H, d) && PcInv(H, d, pc) && c.Reply? && pc.Copying?
    ensures Safe(H, d, WorkerMove(H, d, pc, c))
  {
    RelyReflexive(d);
    if CanCopy(d, pc.v, c.byParts) && Fresh(d, c.etag) {
      var e := WriteObject(d, Cas(pc.v.digest), Copied(d, pc.v, c.etag));
      CopyOk(H, d, pc.v, c.byParts, c.etag);
      HoldsStable(H, d, e, pc.v);
    }
  }

  lemma CommittingSafe(H: Bytes -> Digest, d: Durable, pc: Pc, c: Choice)
    requires DurableInv(H, d) && PcInv(H, d, pc) && c.Reply? && pc.Committing?
    ensures Safe(H, d, WorkerMove(H, d, pc, c))
  {
    RelyReflexive(d);
    if CanSucceed(d, pc.v.id, pc.v.digest, pc.v.size) {
      SucceedIngestJobOk(H, d, pc.v);
    }
  }

  lemma FailingSafe(H: Bytes -> Digest, d: Durable, pc: Pc, c: Choice)
    requires DurableInv(H, d) && PcInv(H, d, pc) && c.Reply? && pc.Failing?
    ensures Safe(H, d, WorkerMove(H, d, pc, c))
  {
    RelyReflexive(d);
    if JobIsRunning(d, pc.id) {
      FailIngestJobOk(H, d, pc.id, pc.reason);
    }
  }

  lemma WorkerMoveSafe(H: Bytes -> Digest, d: Durable, pc: Pc, c: Choice)
    requires DurableInv(H, d) && PcInv(H, d, pc) && c.Reply?
    ensures Safe(H, d, WorkerMove(H, d, pc, c))
  {
    if pc.Copying? {
      CopySafe(H, d, pc, c);
    } else if pc.Committing? {
      CommittingSafe(H, d, pc, c);
    } else if pc.Failing? {
      FailingSafe(H, d, pc, c);
    } else {
      RelyReflexive(d);
      match pc
      case CleaningUp(id) => DeleteStagedOk(H, d, id);
      case Verifying(id, digest, size) => VerifyDecides(H, d, id, digest, size);
      case ReadingRecord(v, cause) => RecordDecides(H, d, v, cause);
      case StattingTrusted(v, cause) => StatDecides(H, d, v, cause);
      case OpeningExisting(v, cause) => ExistingDecides(H, d, v, cause);
      case _ =>
    }
  }

  /** One step of anybody keeps the invariant of the whole system. */
  lemma StepKeepsInv(H: Bytes -> Digest, s: System, step: Step)
    requires Inv(H, s) && Exec(H, s, step).Some?
    ensures Inv(H, Exec(H, s, step).value) && Rely(s.d, Exec(H, s, step).value.d)
  {
    var t := Exec(H, s, step).value;
    match step
    case By(a, c) =>
      var pc := PcOf(s, a);
      if c.Crash? {
        RelyReflexive(s.d);
      } else if c.Start? {
        StartSafe(H, s.d, c.request);
      } else if IsClient(pc) {
        ClientMoveSafe(H, s.d, pc, c);
      } else if IsFinish(pc) {
        FinishMoveSafe(H, s.d, pc, c);
      } else {
        WorkerMoveSafe(H, s.d, pc, c);
      }
      OthersKeepKnowledge(H, s, t, a);
    case Overwrite(id, o) =>
      OverwriteOk(H, s.d, id, o);
      OthersKeepKnowledge(H, s, t, 0);
    case Expire(upload) =>
      ActiveUploadChangeOk(H, s.d, t.d, upload);
      OthersKeepKnowledge(H, s, t, 0);
  }

  lemma OthersKeepKnowledge(H: Bytes -> Digest, s: System, t: System, mover: ActorId)
    requires Inv(H, s) && Rely(s.d, t.d)
    ensures forall b | b in s.pcs && b != mover :: PcInv(H, t.d, s.pcs[b])
    ensures mover in s.pcs ==> PcInv(H, t.d, s.pcs[mover])
  {
    forall b | b in s.pcs ensures PcInv(H, t.d, s.pcs[b]) {
      KnowledgeIsStable(H, s.d, t.d, s.pcs[b]);
    }
  }

  ghost function InvOf(H: Bytes -> Digest): System -> bool {
    s => Inv(H, s)
  }

  ghost function KeptOf(): (System, System) -> bool {
    (s: System, t: System) => Rely(s.d, t.d)
  }

  lemma StepsKeepInv(H: Bytes -> Digest)
    ensures Runs.StepsKeep(NextOf(H), InvOf(H), KeptOf())
    ensures Runs.IsPreorder(KeptOf())
  {
    forall s: System, t: System | NextOf(H)(s, t) && InvOf(H)(s) ensures InvOf(H)(t) && KeptOf()(s, t) {
      var step: Step :| Exec(H, s, step) == Some(t);
      StepKeepsInv(H, s, step);
    }
    forall s: System ensures KeptOf()(s, s) {
      RelyReflexive(s.d);
    }
    forall s: System, t: System, u: System | KeptOf()(s, t) && KeptOf()(t, u) ensures KeptOf()(s, u) {
      RelyTransitive(s.d, t.d, u.d);
    }
  }

  /** Every run from an admissible state stays admissible and undoes nothing. */
  lemma RunIsSafe(H: Bytes -> Digest, run: seq<System>, i: nat)
    requires Runs.IsRun(NextOf(H), run) && Inv(H, run[0]) && i < |run|
    ensures Inv(H, run[i]) && Rely(run[0].d, run[i].d)
  {
    StepsKeepInv(H);
    Runs.RunsKeep(NextOf(H), InvOf(H), KeptOf(), run, i);
  }

  lemma EvolutionIsSafe(H: Bytes -> Digest, s: System, t: System)
    requires Inv(H, s) && Evolves(H, s, t)
    ensures Inv(H, t) && Rely(s.d, t.d)
  {
    var run: seq<System> :| Runs.IsRun(NextOf(H), run) && run[0] == s && run[|run| - 1] == t;
    RunIsSafe(H, run, |run| - 1);
  }

  lemma ReachableIsSafe(H: Bytes -> Digest, s: System)
    requires Reachable(H, s)
    ensures Inv(H, s)
  {
    EvolutionIsSafe(H, INIT, s);
  }

  // ---------------------------------------------------------------- what follows for every run

  /** Every recorded blob has its bytes: at the digest's own key, hashing to it, of the recorded size. */
  lemma RecordedBlobsAreBacked(H: Bytes -> Digest, s: System, g: Digest)
    requires Reachable(H, s) && g in s.d.blobs
    ensures ValidDigest(g) && s.d.blobs[g].key == Cas(g) && Cas(g) in s.d.objects
    ensures H(s.d.objects[Cas(g)].bytes) == g && |s.d.objects[Cas(g)].bytes| == s.d.blobs[g].size
  {
    ReachableIsSafe(H, s);
    assert BlobBacked(s.d, g);
  }

  /** An object under a CAS key hashes to its digest from the moment it appears, recorded or not, and no
      later step of anybody overwrites or deletes it. */
  lemma CasObjectsArePureAndPermanent(H: Bytes -> Digest, s: System, t: System, g: Digest)
    requires Reachable(H, s) && Evolves(H, s, t) && Cas(g) in s.d.objects
    ensures ValidDigest(g) && H(s.d.objects[Cas(g)].bytes) == g
    ensures Cas(g) in t.d.objects
    ensures t.d.objects[Cas(g)] == s.d.objects[Cas(g)]
  {
    ReachableIsSafe(H, s);
    EvolutionIsSafe(H, s, t);
  }

  /** With a collision-free hash, a worker decides to fail an upload only because of what it found staged: nothing,
      and then the job is over; an object of the wrong size; one of the wrong digest; or good bytes that the provider
      gave no tag. What it found is the committed object, unless somebody replaced that. No recovery branch fails a
      verified upload for any other reason. */
  lemma RecoveryNeverFailsVerifiedBytes(H: Bytes -> Digest, s: System, a: ActorId)
    requires Reachable(H, s) && Injective(H) && a in s.pcs && s.pcs[a].Failing?
    ensures var id := s.pcs[a].id;
      && id in s.d.jobs && id in s.d.sessions
      && match s.pcs[a].reason
         case StagedMissing => Terminal(s.d.jobs[id])
         case WrongSize(o) => Saw(s.d, id, o) && |o.bytes| != s.d.sessions[id].size
         case WrongDigest(o) => Saw(s.d, id, o) && H(o.bytes) != s.d.sessions[id].digest
         case ETagRequired(o) =>
           && Saw(s.d, id, o)
           && |o.bytes| == s.d.sessions[id].size && H(o.bytes) == s.d.sessions[id].digest && o.etag == Blank
         case _ => false
  {
    ReachableIsSafe(H, s);
    assert PcInv(H, s.d, s.pcs[a]);
  }

  /** The outcome of ingest is right: a failed session had bad bytes committed (or untagged ones), a session
      readied by ingest had good ones; as long as nobody replaced its staged object. */
  lemma IngestOutcomeIsRight(H: Bytes -> Digest, s: System, id: Uuid)
    requires Reachable(H, s) && Injective(H) && id in s.d.sessions && id !in s.d.overwritten
    ensures s.d.sessions[id].state == Failed ==> CommittedBad(H, s.d, id)
    ensures s.d.sessions[id].state == Ready && s.d.sessions[id].storage.Multipart? ==> CommittedGood(H, s.d, id)
  {
    ReachableIsSafe(H, s);
    assert SessionOk(H, s.d, id);
  }

  /** Staged bytes outlive the decision: an undecided job still has them. */
  lemma StagedBytesOutliveTheDecision(H: Bytes -> Digest, s: System, id: Uuid)
    requires Reachable(H, s) && id in s.d.jobs && !Terminal(s.d.jobs[id])
    ensures Staging(id) in s.d.objects
  {
    ReachableIsSafe(H, s);
    assert JobOk(s.d, id);
  }

  /** However many workers run a job, a decided job and a finished session keep their outcome. */
  lemma OutcomesAreFinal(H: Bytes -> Digest, s: System, t: System, id: Uuid)
    requires Reachable(H, s) && Evolves(H, s, t)
    ensures var e := t.d;
      && (id in s.d.jobs && Terminal(s.d.jobs[id]) ==> id in e.jobs && e.jobs[id] == s.d.jobs[id])
      && (id in s.d.sessions && s.d.sessions[id].state in {Ready, Failed, Aborted} ==>
            id in e.sessions && e.sessions[id] == s.d.sessions[id])
  {
    ReachableIsSafe(H, s);
    EvolutionIsSafe(H, s, t);
    if id in s.d.sessions {
      assert SessionKept(s.d, t.d, id);
    }
  }

  /** Completion and abort exclude each other, and agree with what became of the storage upload. */
  lemma CompleteAndAbortExclude(H: Bytes -> Digest, s: System, id: Uuid)
    requires Reachable(H, s) && id in s.d.sessions && s.d.sessions[id].storage.Multipart?
    ensures HasUpload(s.d, id)
    ensures s.d.sessions[id].state == Aborted ==> StatusOf(s.d, id) == Discarded
    ensures PastCompletion(s.d.sessions[id].state) || s.d.sessions[id].state == Failed ==> StatusOf(s.d, id).Committed?
  {
    ReachableIsSafe(H, s);
    assert SessionOk(H, s.d, id);
  }

  /** A ready session can be read: opening its digest yields bytes of that digest and of exactly the declared
      size, now and after any further steps, and always the same bytes. */
  lemma ReadySessionsCanBeRead(H: Bytes -> Digest, s: System, t: System, id: Uuid)
    requires Reachable(H, s) && Evolves(H, s, t)
    requires id in s.d.sessions && s.d.sessions[id].state == Ready
    ensures var session := s.d.sessions[id];
      var now, later := OpenBlob(s.d, session.digest), OpenBlob(t.d, session.digest);
      now.Some? && H(now.value) == session.digest && |now.value| == session.size && later == now
  {
    ReachableIsSafe(H, s);
    EvolutionIsSafe(H, s, t);
    var g := s.d.sessions[id].digest;
    assert SessionOk(H, s.d, id);
    assert BlobBacked(s.d, g);
  }

  /** Exactly the recorded blobs can be opened, and what comes out is the blob that was asked for. */
  lemma ExactlyRecordedBlobsOpen(H: Bytes -> Digest, s: System, g: Digest)
    requires Reachable(H, s)
    ensures OpenBlob(s.d, g).Some? <==> g in s.d.blobs
    ensures g in s.d.blobs ==> H(OpenBlob(s.d, g).value) == g && |OpenBlob(s.d, g).value| == s.d.blobs[g].size
  {
    if g in s.d.blobs {
      RecordedBlobsAreBacked(H, s, g);
    }
  }
}
