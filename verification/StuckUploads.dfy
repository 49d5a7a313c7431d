/** What a crash can leave that no later call repairs: a session whose client listed other sizes than it sent, and an
    ingest job whose worker is gone. */
module StuckUploads {
  import opened CompleteParts
  import opened Keys
  import opened OnePartUpload
  import Runs
  import UntaggedUpload
  import opened UploadState
  import opened UploadProtocol
  import opened UploadInvariant
  import opened UploadRuns
  import opened UploadService
  import opened UploadSteps
  import opened Wrappers

  // ---------------------------------------------------------------- sessions

  /** A completion that takes effect leaves the session with an object of another size than declared if and only if
      the sizes the client listed do not add up to the sizes it sent; whether the reply arrives makes no difference. */
  lemma ListedSizesDecide(H: Bytes -> Digest, s: System, a: ActorId, c: Choice)
    requires Reachable(H, s) && PcOf(s, a).CompletingStaging? && c.Reply?
    requires Exec(H, s, By(a, c)).Some?
    ensures var pc, t := PcOf(s, a), Exec(H, s, By(a, c)).value;
      IsActive(s.d, pc.upload) && !IsActive(t.d, pc.upload) && pc.id in s.d.sessions && Open(s.d.sessions[pc.id].state) ==>
        && HasUpload(t.d, pc.id) && Open(t.d.sessions[pc.id].state)
        && Decided(t.d, pc.id)
           == if Total(pc.parts) == RealTotal(s.d.uploads[pc.upload].parts, pc.parts) then CommittedAsDeclared
              else CommittedOtherwise
  {
    ReachableIsSafe(H, s);
    var pc := PcOf(s, a);
    assert PcInv(H, s.d, pc);
    if IsActive(s.d, pc.upload) {
      var parts, t := s.d.uploads[pc.upload].parts, Exec(H, s, By(a, c)).value;
      AssembledSize(parts, pc.parts);
      CommitFacts(H, s.d, pc.id, pc.upload);
      if !IsActive(t.d, pc.upload) {
        assert t.d == CommitMultipartUpload(s.d, pc.upload, Object(Assemble(parts, pc.parts), c.etag));
      }
    }
  }

  predicate Marks(pc: Pc, id: Uuid) {
    pc == MarkingCompleted(id) || pc == MarkingAborted(id)
  }

  /** An open session whose committed object has another size than it declared, while no call is about to mark it. */
  ghost predicate Stuck(s: System, id: Uuid) {
    && HasUpload(s.d, id)
    && Open(s.d.sessions[id].state)
    && StatusOf(s.d, id).Committed?
    && |StatusOf(s.d, id).obj.bytes| != s.d.sessions[id].size
    && forall a <- s.pcs :: !Marks(s.pcs[a], id)
  }

  lemma RecoveryRefuses(H: Bytes -> Digest, s: System, id: Uuid, size: int, origin: Origin)
    requires Inv(H, s) && Stuck(s, id) && id !in s.d.overwritten && s.d.sessions[id].size == size
    ensures AfterStagedStat(s.d, id, size, origin) == Idle
  {
    assert SessionOk(H, s.d, id);
    assert StagedOk(s.d, id);
  }

  /** Only the calls that end an upload go on to mark its session. */
  lemma OnlyFinishersMark(H: Bytes -> Digest, d: Durable, pc: Pc, c: Choice, id: Uuid)
    requires !IsFinish(pc) && Move(H, d, pc, c).Some?
    ensures !Marks(Move(H, d, pc, c).value.1, id)
  {
  }

  lemma FinishersMarkByTheStore(d: Durable, pc: Pc, c: Choice, id: Uuid)
    requires c.Reply? && FinishMove(d, pc, c).Some? && Marks(FinishMove(d, pc, c).value.1, id)
    ensures match pc
      case CompletingStaging(i, upload, _, _) => i == id && IsActive(d, upload)
      case AbortingStaging(i, upload, _) => i == id && IsActive(d, upload)
      case Recovering(i, size, origin) => i == id && AfterStagedStat(d, id, size, origin) != Idle
      case _ => false
  {
  }

  /** No move leads anybody to mark a stuck session whose staged object is still the committed one. */
  lemma NobodyMarksIt(H: Bytes -> Digest, s: System, id: Uuid, a: ActorId, c: Choice)
    requires Inv(H, s) && Stuck(s, id) && id !in s.d.overwritten && Exec(H, s, By(a, c)).Some?
    ensures !Marks(PcOf(Exec(H, s, By(a, c)).value, a), id)
  {
    var pc := PcOf(s, a);
    assert PcInv(H, s.d, pc);
    if !IsFinish(pc) {
      OnlyFinishersMark(H, s.d, pc, c, id);
    } else if c.Reply? && FinishMove(s.d, pc, c).Some? && Marks(FinishMove(s.d, pc, c).value.1, id) {
      FinishersMarkByTheStore(s.d, pc, c, id);
      if pc.Recovering? {
        RecoveryRefuses(H, s, id, pc.size, pc.origin);
      }
    }
  }

  lemma CallsLeaveItOpen(H: Bytes -> Digest, d: Durable, pc: Pc, c: Choice, id: Uuid)
    requires c.Reply? && id in d.sessions && Open(d.sessions[id].state)
    requires !Marks(pc, id)
    ensures IsClient(pc) && ClientMove(d, pc, c).Some? ==>
      id in ClientMove(d, pc, c).value.0.sessions && Open(ClientMove(d, pc, c).value.0.sessions[id].state)
    ensures IsFinish(pc) && FinishMove(d, pc, c).Some? ==>
      id in FinishMove(d, pc, c).value.0.sessions && Open(FinishMove(d, pc, c).value.0.sessions[id].state)
  {
  }

  lemma WorkersLeaveItOpen(H: Bytes -> Digest, d: Durable, pc: Pc, c: Choice, id: Uuid)
    requires c.Reply? && id in d.sessions && Open(d.sessions[id].state) && WorkerMove(H, d, pc, c).Some?
    ensures id in WorkerMove(H, d, pc, c).value.0.sessions && Open(WorkerMove(H, d, pc, c).value.0.sessions[id].state)
  {
  }

  lemma MovesLeaveItOpen(H: Bytes -> Digest, s: System, id: Uuid, a: ActorId, c: Choice)
    requires Stuck(s, id) && Exec(H, s, By(a, c)).Some?
    ensures var t := Exec(H, s, By(a, c)).value; id in t.d.sessions && Open(t.d.sessions[id].state)
  {
    var pc := PcOf(s, a);
    if c.Reply? {
      if IsClient(pc) || IsFinish(pc) {
        CallsLeaveItOpen(H, s.d, pc, c, id);
      } else {
        WorkersLeaveItOpen(H, s.d, pc, c, id);
      }
    }
  }

  lemma StepKeepsItStuck(H: Bytes -> Digest, s: System, id: Uuid, step: Step)
    requires Inv(H, s) && Stuck(s, id) && id !in s.d.overwritten && Exec(H, s, step).Some?
    ensures var t := Exec(H, s, step).value; Stuck(t, id) || id in t.d.overwritten
  {
    var t := Exec(H, s, step).value;
    StepKeepsInv(H, s, step);
    UploadStable(s.d, t.d, id);
    match step
    case By(a, c) =>
      NobodyMarksIt(H, s, id, a, c);
      MovesLeaveItOpen(H, s, id, a, c);
    case Overwrite(_, _) =>
    case Expire(_) =>
  }

  ghost function StuckOrReplaced(H: Bytes -> Digest, id: Uuid): System -> bool {
    s => Inv(H, s) && (Stuck(s, id) || id in s.d.overwritten)
  }

  /** A stuck session stays stuck whatever anybody does, unless somebody replaces its staged object. */
  lemma StuckForever(H: Bytes -> Digest, s: System, t: System, id: Uuid)
    requires Reachable(H, s) && Evolves(H, s, t) && Stuck(s, id)
    ensures id !in t.d.overwritten ==> Stuck(t, id)
  {
    ReachableIsSafe(H, s);
    StepsKeepInv(H);
    forall u: System, v: System | NextOf(H)(u, v) && StuckOrReplaced(H, id)(u)
      ensures StuckOrReplaced(H, id)(v) && KeptOf()(u, v)
    {
      var step: Step :| Exec(H, u, step) == Some(v);
      StepKeepsInv(H, u, step);
      if id !in u.d.overwritten {
        StepKeepsItStuck(H, u, id, step);
      }
    }
    var run: seq<System> :| Runs.IsRun(NextOf(H), run) && run[0] == s && run[|run| - 1] == t;
    Runs.RunsKeep(NextOf(H), StuckOrReplaced(H, id), KeptOf(), run, |run| - 1);
  }

  /** What a lost reply of the completion leaves, and how recovery refuses it. */
  lemma WrongSizeIsRefused(g: Digest, n: nat, b: Bytes, id: Uuid, part: CompletePart, lost: Choice)
    requires n != |b| && part.number == 1 && part.etag == "e" && lost == Reply(ReplyLost, Tag(0), 0, "e", false)
    ensures var d := Uploaded(g, n, b, id);
      var e := CommitMultipartUpload(d, 0, Object(b, Tag(0)));
      && FinishMove(d, CompletingStaging(id, 0, n, [part]), lost) == Some((e, Recovering(id, n, AfterComplete)))
      && FinishMove(e, Recovering(id, n, AfterComplete), ANSWER) == Some((e, Idle))
  {
    OnePartAssembles(b, part);
  }

  lemma LostAndRefused(H: Bytes -> Digest, g: Digest, n: nat, b: Bytes, id: Uuid) returns (s: System)
    requires ValidDigest(g) && n != |b|
    requires n <= MULTIPART_MAX_PART_SIZE_BYTES && |b| <= MULTIPART_MAX_PART_SIZE_BYTES
    ensures Reachable(H, s) && PcOf(s, 0) == Idle && s.pcs.Keys == {0}
    ensures s.d == CommitMultipartUpload(Uploaded(g, n, b, id), 0, Object(b, Tag(0)))
  {
    var part := CompletePart(1, "e", n);
    var lost := Reply(ReplyLost, Tag(0), 0, "e", false);
    var asked := Asked(H, g, n, b, id, part);
    WrongSizeIsRefused(g, n, b, id, part, lost);
    Moved(H, asked, lost);
    var recovering := After(H, asked, lost);
    Moved(H, recovering, ANSWER);
    s := After(H, recovering, ANSWER);
  }

  /** A client that lists its part with a wrong size, and the lost reply of one completion. */
  lemma WrongSizesGetStuck(H: Bytes -> Digest, g: Digest, n: nat, b: Bytes, id: Uuid) returns (s: System)
    requires ValidDigest(g) && n != |b|
    requires n <= MULTIPART_MAX_PART_SIZE_BYTES && |b| <= MULTIPART_MAX_PART_SIZE_BYTES
    ensures Reachable(H, s) && Stuck(s, id) && id !in s.d.overwritten && Decided(s.d, id) == CommittedOtherwise
  {
    s := LostAndRefused(H, g, n, b, id);
    assert s.d.sessions[id] == Declared(g, n, Uploading);
  }

  // ---------------------------------------------------------------- jobs

  /** An actor that still has to end the job of session `id`. */
  predicate WorksOn(pc: Pc, id: Uuid) {
    match pc
    case LoadingSession(i) => i == id
    case Verifying(i, _, _) => i == id
    case Copying(v) => v.id == id
    case ReadingRecord(v, _) => v.id == id
    case StattingTrusted(v, _) => v.id == id
    case OpeningExisting(v, _) => v.id == id
    case Committing(v) => v.id == id
    case Failing(i, _) => i == id
    case _ => false
  }

  /** A running job that nobody works on. */
  ghost predicate Orphaned(s: System, id: Uuid) {
    JobIsRunning(s.d, id) && forall a <- s.pcs :: !WorksOn(s.pcs[a], id)
  }

  predicate Repeats(step: Step, id: Uuid) {
    step.By? && step.c == Start(RepeatJob(id))
  }

  /** A move leaves the running job of `id` alone and takes no interest in it. */
  predicate LeavesAlone(d: Durable, r: Option<(Durable, Pc)>, id: Uuid)
    requires JobIsRunning(d, id)
  {
    r.Some? ==>
      && id in r.value.0.jobs && r.value.0.jobs[id] == d.jobs[id]
      && id in r.value.0.sessions && r.value.0.sessions[id] == d.sessions[id]
      && !WorksOn(r.value.1, id)
  }

  lemma StartsLeaveOrphan(d: Durable, r: Request, id: Uuid)
    requires JobIsRunning(d, id) && r != RepeatJob(id)
    ensures LeavesAlone(d, StartMove(d, r), id)
  {
  }

  lemma ClientsLeaveOrphan(d: Durable, pc: Pc, c: Choice, id: Uuid)
    requires JobIsRunning(d, id) && c.Reply?
    ensures LeavesAlone(d, ClientMove(d, pc, c), id)
  {
  }

  lemma FinishersLeaveOrphan(d: Durable, pc: Pc, c: Choice, id: Uuid)
    requires JobIsRunning(d, id) && c.Reply?
    ensures LeavesAlone(d, FinishMove(d, pc, c), id)
  {
  }

  lemma WorkersLeaveOrphan(H: Bytes -> Digest, d: Durable, pc: Pc, c: Choice, id: Uuid)
    requires JobIsRunning(d, id) && c.Reply? && !WorksOn(pc, id)
    ensures LeavesAlone(d, WorkerMove(H, d, pc, c), id)
  {
  }

  lemma StepLeavesOrphan(H: Bytes -> Digest, s: System, id: Uuid, step: Step)
    requires Orphaned(s, id) && Exec(H, s, step).Some? && !Repeats(step, id)
    ensures var t := Exec(H, s, step).value;
      Orphaned(t, id) && t.d.jobs[id] == s.d.jobs[id] && t.d.sessions[id] == s.d.sessions[id]
  {
    if step.By? {
      var pc := PcOf(s, step.a);
      assert !WorksOn(pc, id);
      match step.c
      case Start(r) => StartsLeaveOrphan(s.d, r, id);
      case Crash =>
      case Reply(_, _, _, _, _) =>
        if IsClient(pc) {
          ClientsLeaveOrphan(s.d, pc, step.c, id);
        } else if IsFinish(pc) {
          FinishersLeaveOrphan(s.d, pc, step.c, id);
        } else {
          WorkersLeaveOrphan(H, s.d, pc, step.c, id);
        }
    }
  }

  /** The steps the code can take for the job of `id`: it claims queued jobs only and repeats none. */
  ghost function WithoutRepeat(H: Bytes -> Digest, id: Uuid): (System, System) -> bool {
    (s, t) => exists step: Step :: Exec(H, s, step) == Some(t) && !Repeats(step, id)
  }

  ghost function SameJob(id: Uuid): (System, System) -> bool {
    (s: System, t: System) =>
      Orphaned(s, id) ==> Orphaned(t, id) && t.d.jobs[id] == s.d.jobs[id] && t.d.sessions[id] == s.d.sessions[id]
  }

  /** A running job whose worker is gone stays running for ever: nothing reclaims it. */
  lemma OrphanedForever(H: Bytes -> Digest, s: System, t: System, id: Uuid)
    requires Orphaned(s, id) && Runs.Evolves(WithoutRepeat(H, id), s, t)
    ensures Orphaned(t, id) && t.d.jobs[id] == s.d.jobs[id] && t.d.sessions[id] == s.d.sessions[id]
  {
    var next := WithoutRepeat(H, id);
    forall u: System, v: System | next(u, v) && Orphaned(u, id) ensures Orphaned(v, id) && SameJob(id)(u, v) {
      var step: Step :| Exec(H, u, step) == Some(v) && !Repeats(step, id);
      StepLeavesOrphan(H, u, id, step);
    }
    var run: seq<System> :| Runs.IsRun(next, run) && run[0] == s && run[|run| - 1] == t;
    Runs.RunsKeep(next, u => Orphaned(u, id), SameJob(id), run, |run| - 1);
  }

  /** A crash of the only worker orphans its job. */
  lemma CrashOrphans(H: Bytes -> Digest, s: System, a: ActorId, id: Uuid)
    requires JobIsRunning(s.d, id) && forall b <- s.pcs :: b != a ==> !WorksOn(s.pcs[b], id)
    ensures Exec(H, s, By(a, Crash)).Some? && Orphaned(Exec(H, s, By(a, Crash)).value, id)
  {
  }

  /** A run that gets there: the declared bytes were committed, and the worker is gone right after it claimed their job. */
  lemma WorkersGoMissing(H: Bytes -> Digest, b: Bytes, id: Uuid) returns (s: System)
    requires ValidDigest(H(b)) && |b| <= MULTIPART_MAX_PART_SIZE_BYTES
    ensures Reachable(H, s) && Orphaned(s, id) && CommittedGood(H, s.d, id) && id !in s.d.overwritten
  {
    var claimed := UntaggedUpload.ClaimedJob(H, b, id);
    CrashOrphans(H, claimed, 0, id);
    Moved(H, claimed, Crash);
    s := After(H, claimed, Crash);
    assert HasUpload(s.d, id) && StatusOf(s.d, id) == Committed(Object(b, Blank));
  }
}
