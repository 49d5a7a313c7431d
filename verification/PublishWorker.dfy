/** internal/jobs/publishflow/job.go as straight-line code over a shared world in which others act between any two
    of its calls. In a quiet world nobody does and every call answers. */
module PublishWorker {
  import opened Catalog
  import opened Indexer
  import opened Keys
  import opened PublishState
  import opened PublishProtocol
  import opened PublishRuns
  import Runs
  import opened Wrappers

  class World {
    const hash: Bytes -> string
    const quiet: bool
    var s: System
    ghost var run: seq<System>

    ghost predicate Valid()
      reads this
    {
      Runs.IsRun(NextOf(hash), run) && run[0] == INIT && run[|run| - 1] == s && Inv(hash, s)
    }

    constructor (h: Bytes -> string, undisturbed: bool)
      ensures Valid() && hash == h && quiet == undisturbed && s == INIT
    {
      hash := h;
      quiet := undisturbed;
      s := INIT;
      run := [INIT];
    }

    /** Whatever everybody else does between two calls of worker `a`. */
    method Pause(a: ActorId)
      requires Valid()
      modifies this
      ensures Valid() && old(run) <= run
      ensures Rely(old(s.d), s.d) && PcOf(s, a) == old(PcOf(s, a))
      ensures quiet ==> s == old(s)
    {
      RelyReflexive(s.d);
    }

    /** How the stores answer the pending call of `a`. */
    method Answer(a: ActorId) returns (report: Report)
      requires Valid()
      ensures quiet ==> report == Answered
    {
      report := Answered;
    }

    method Step(a: ActorId, c: Choice)
      requires Valid() && Move(hash, s.d, PcOf(s, a), c).Some?
      modifies this
      ensures Valid() && old(run) <= run && Rely(old(s.d), s.d)
      ensures Move(hash, old(s.d), old(PcOf(s, a)), c) == Some((s.d, PcOf(s, a)))
    {
      StepKeepsInv(hash, s, By(a, c));
      var r := Move(hash, s.d, PcOf(s, a), c);
      var t := System(r.value.0, s.pcs[a := r.value.1]);
      assert Exec(hash, s, By(a, c)) == Some(t);
      Runs.ExtendRun(NextOf(hash), run, t);
      s := t;
      run := run + [t];
    }

    /** One durable call of `a`: the others go first, then the call happens in state `at`. */
    method Call(a: ActorId) returns (at: Durable, report: Report)
      requires Valid() && PcOf(s, a) != Idle
      modifies this
      ensures Valid() && old(run) <= run
      ensures Rely(old(s.d), at) && DurableInv(hash, at) && PcInv(hash, at, old(PcOf(s, a))) && Rely(at, s.d)
      ensures Move(hash, at, old(PcOf(s, a)), Reply(report)) == Some((s.d, PcOf(s, a)))
      ensures quiet ==> at == old(s.d) && report == Answered
    {
      Pause(a);
      report := Answer(a);
      at := s.d;
      Step(a, Reply(report));
    }

    /** An operator, a catalog client or ingest acts. */
    method Act(o: Outside)
      requires Valid() && OutsideMove(s.d, o).Some?
      modifies this
      ensures Valid() && old(run) <= run && Rely(old(s.d), s.d)
      ensures s.d == OutsideMove(old(s.d), o).value && s.pcs == old(s.pcs)
    {
      StepKeepsInv(hash, s, Around(o));
      var t := s.(d := OutsideMove(s.d, o).value);
      assert Exec(hash, s, Around(o)) == Some(t);
      Runs.ExtendRun(NextOf(hash), run, t);
      s := t;
      run := run + [t];
    }

    /** `ClaimStep` of an idle worker. */
    method ClaimNext(a: ActorId, j: Uuid, i: nat, worker: string, now: int, staleBefore: int) returns (at: Durable)
      requires Valid() && PcOf(s, a) == Idle
      modifies this
      ensures Valid() && old(run) <= run
      ensures Rely(old(s.d), at) && DurableInv(hash, at) && Rely(at, s.d)
      ensures Move(hash, at, Idle, Claim(j, i, worker, now, staleBefore)) == Some((s.d, PcOf(s, a)))
      ensures quiet ==> at == old(s.d)
    {
      Pause(a);
      at := s.d;
      Step(a, Claim(j, i, worker, now, staleBefore));
    }
  }

  // ---------------------------------------------------------------- why undisturbed steps succeed

  predicate Readable(trusted: map<Digest, Bytes>, digest: Digest) {
    ValidDigest(digest) && digest in trusted
  }

  lemma {:induction false} ReadableBlobsProject(hash: Bytes -> string, blobs: map<Digest, Bytes>, manifest: Manifest,
                                                selected: seq<(Artifact, Attachment)>)
    requires forall k | 0 <= k < |selected| ::
      Readable(blobs, selected[k].0.primaryDigest) && Readable(blobs, selected[k].1.digest)
    ensures Rows(hash, blobs, manifest, selected).Ok?
  {
    if selected != [] {
      var n := |selected| - 1;
      ReadableBlobsProject(hash, blobs, manifest, selected[..n]);
      assert Readable(blobs, selected[n].0.primaryDigest) && Readable(blobs, selected[n].1.digest);
      ValidDigestIsHex(selected[n].0.primaryDigest);
      ValidDigestIsHex(selected[n].1.digest);
    }
  }

  /** A well-formed manifest whose blobs are verified has a projection, and its rows can be stored. */
  lemma PublishableProjects(hash: Bytes -> string, trusted: map<Digest, Bytes>, manifest: Manifest, v: Uuid)
    requires WellFormed(manifest, v) && Publishable(trusted, manifest)
    ensures Projection(hash, trusted, manifest).Ok?
    ensures var rows := Projection(hash, trusted, manifest).value;
      DistinctRows(rows) && forall row <- rows :: row.versionId == v
  {
    var chosen := Selected(manifest.artifacts);
    forall k | 0 <= k < |chosen| ensures Readable(trusted, chosen[k].0.primaryDigest) && Readable(trusted, chosen[k].1.digest) {
      var i := SelectedComeFrom(manifest.artifacts, k);
      assert manifest.artifacts[i] in manifest.artifacts;
    }
    ReadableBlobsProject(hash, trusted, manifest, chosen);
    var rows := Projection(hash, trusted, manifest).value;
    forall k | 0 <= k < |rows| ensures rows[k].versionId == v && rows[k].artifactId == chosen[k].0.id {
      RowsDescribeTheirArtifacts(hash, trusted, manifest, chosen, k);
    }
    forall k, m | 0 <= k < m < |rows| ensures rows[k].artifactId != rows[m].artifactId {
      SelectedAreDistinct(manifest.artifacts, k, m);
    }
  }

  // ---------------------------------------------------------------- the worker

  datatype StepEnd = Done | LeaseLost | StepError

  /** How an attempt ended is how it was, whoever else was at work: the step it reports done has succeeded under its own
      attempt, and the lease it reports lost is not held. */
  predicate Truthful(d: Durable, l: Lease, r: StepEnd) {
    match r
    case Done => HasStep(d, l.job, l.step)
                 && d.jobs[l.job].steps[l.step].state == Succeeded && d.jobs[l.job].steps[l.step].attempts == l.attempt
    case LeaseLost => !Held(d, l)
    case StepError => true
  }

  /** What an undisturbed attempt leaves behind. */
  ghost predicate Achieved(hash: Bytes -> string, before: Durable, after: Durable, l: Lease)
    requires HasStep(before, l.job, l.step)
  {
    match l.name
    case ValidateCatalog => after == EndStep(before, l.job, l.step, Succeeded)
    case IncusIndex =>
      && l.version in before.frozen
      && var rows := Projection(hash, before.trusted, before.frozen[l.version]);
      rows.Ok? && after == SucceedIndex(before, l.job, l.step, l.version, rows.value)
    case FinalizePublish => CanFinalize(before, l.job, l.step) && after == Finalize(before, l.job, l.step)
  }

  lemma HeldStepsCanEnd(hash: Bytes -> string, d: Durable, l: Lease)
    requires DurableInv(hash, d) && LeaseOk(d, l) && Held(d, l)
    ensures l.name == ValidateCatalog ==> CanSucceedValidate(d, l.job, l.step)
    ensures l.name == FinalizePublish ==> CanFinalize(d, l.job, l.step)
    ensures l.version in d.frozen && d.versions[l.version].manifest == d.frozen[l.version]
    ensures CanFail(d, l.job, l.step)
  {
    assert JobOk(hash, d, l.job);
    var steps := d.jobs[l.job].steps;
    assert AnyRunning(steps) by {
      assert steps[l.step].state == Running;
    }
    RunningIsAlone(d.jobs[l.job], l.step);
    assert VersionOk(d, l.version);
  }

  /** `GetVersionManifest` of the indexer. */
  method LoadManifest(w: World, a: ActorId, l: Lease) returns (manifest: Option<Manifest>)
    requires w.Valid() && PcOf(w.s, a) == Executing(l) && l.name == IncusIndex
    modifies w
    ensures w.Valid() && old(w.run) <= w.run && Rely(old(w.s.d), w.s.d)
    ensures PcOf(w.s, a) == if manifest == None then Failing(l) else ReadingBlobs(l, manifest.value)
    ensures w.quiet ==> w.s.d == old(w.s.d)
    ensures w.quiet && l.version in w.s.d.versions ==> manifest == Some(w.s.d.versions[l.version].manifest)
  {
    var at, report := w.Call(a);
    RelyTransitive(old(w.s.d), at, w.s.d);
    return if report != Answered || l.version !in at.versions then None else Some(at.versions[l.version].manifest);
  }

  /** The indexer over the loaded manifest. */
  method ComputeRows(w: World, a: ActorId, l: Lease, manifest: Manifest) returns (rows: Option<seq<Row>>)
    requires w.Valid() && PcOf(w.s, a) == ReadingBlobs(l, manifest)
    modifies w
    ensures w.Valid() && old(w.run) <= w.run && Rely(old(w.s.d), w.s.d)
    ensures PcOf(w.s, a) == if rows == None then Failing(l) else Storing(l, rows.value)
    ensures w.quiet ==> w.s.d == old(w.s.d)
    ensures w.quiet && Projection(w.hash, w.s.d.trusted, manifest).Ok? ==>
      rows == Some(Projection(w.hash, w.s.d.trusted, manifest).value)
  {
    var at, report := w.Call(a);
    RelyTransitive(old(w.s.d), at, w.s.d);
    var reader := new BlobReader(at.trusted, []);
    var computed, _, _ := IndexManifest(w.hash, reader, manifest);
    return if report != Answered || computed.Err? then None else Some(computed.value);
  }

  /** `SucceedIncusIndexStep` with the rows the worker computed. */
  method StoreRows(w: World, a: ActorId, l: Lease, rows: seq<Row>) returns (r: StepEnd)
    requires w.Valid() && PcOf(w.s, a) == Storing(l, rows)
    modifies w
    ensures w.Valid() && old(w.run) <= w.run && Rely(old(w.s.d), w.s.d)
    ensures PcOf(w.s, a) == if r == StepError then Failing(l) else Idle
    ensures Truthful(w.s.d, l, r)
    ensures w.quiet && Held(old(w.s.d), l) && CanSucceedIndex(old(w.s.d), l.job, l.step, l.version, rows) ==>
      r == Done && w.s.d == SucceedIndex(old(w.s.d), l.job, l.step, l.version, rows)
  {
    var at, report := w.Call(a);
    RelyTransitive(old(w.s.d), at, w.s.d);
    if !Held(at, l) {
      return LeaseLost;
    }
    if report != Answered || !CanSucceedIndex(at, l.job, l.step, l.version, rows) {
      return StepError;
    }
    return Done;
  }

  /** An undisturbed lease on the index step finds rows it can store. */
  lemma IndexStepCanSucceed(hash: Bytes -> string, d: Durable, l: Lease)
    requires DurableInv(hash, d) && LeaseOk(d, l) && Held(d, l) && l.name == IncusIndex
    ensures l.version in d.versions && l.version in d.frozen && d.versions[l.version].manifest == d.frozen[l.version]
    ensures var rows := Projection(hash, d.trusted, d.frozen[l.version]);
      rows.Ok? && CanSucceedIndex(d, l.job, l.step, l.version, rows.value)
  {
    HeldStepsCanEnd(hash, d, l);
    assert JobOk(hash, d, l.job);
    assert VersionOk(d, l.version);
    PublishableProjects(hash, d.trusted, d.frozen[l.version], l.version);
  }

  /** The call of the indexer: load the frozen manifest and project it. */
  method ProjectVersion(w: World, a: ActorId, l: Lease) returns (rows: Option<seq<Row>>)
    requires w.Valid() && PcOf(w.s, a) == Executing(l) && l.name == IncusIndex
    modifies w
    ensures w.Valid() && old(w.run) <= w.run && Rely(old(w.s.d), w.s.d)
    ensures PcOf(w.s, a) == if rows == None then Failing(l) else Storing(l, rows.value)
    ensures w.quiet ==> w.s.d == old(w.s.d)
    ensures w.quiet && l.version in w.s.d.versions ==>
      var projected := Projection(w.hash, w.s.d.trusted, w.s.d.versions[l.version].manifest);
      projected.Ok? ==> rows == Some(projected.value)
  {
    var manifest := LoadManifest(w, a, l);
    if manifest == None {
      return None;
    }
    ghost var loaded := w.s.d;
    rows := ComputeRows(w, a, l, manifest.value);
    RelyTransitive(old(w.s.d), loaded, w.s.d);
  }

  /** The index step of `runStep`: project the frozen manifest, store the rows. */
  method RunIndexStep(w: World, a: ActorId, l: Lease) returns (r: StepEnd)
    requires w.Valid() && PcOf(w.s, a) == Executing(l) && l.name == IncusIndex
    modifies w
    ensures w.Valid() && old(w.run) <= w.run && Rely(old(w.s.d), w.s.d)
    ensures PcOf(w.s, a) == if r == StepError then Failing(l) else Idle
    ensures Truthful(w.s.d, l, r)
    ensures w.quiet && Held(old(w.s.d), l) ==> r == Done && Achieved(w.hash, old(w.s.d), w.s.d, l)
  {
    ghost var start := w.s.d;
    assert PcInv(w.hash, start, Executing(l));
    if Held(start, l) {
      IndexStepCanSucceed(w.hash, start, l);
    }
    var rows := ProjectVersion(w, a, l);
    if rows == None {
      return StepError;
    }
    ghost var computed := w.s.d;
    r := StoreRows(w, a, l, rows.value);
    RelyTransitive(start, computed, w.s.d);
  }

  /** `runStep`. */
  method RunStep(w: World, a: ActorId, l: Lease) returns (r: StepEnd)
    requires w.Valid() && PcOf(w.s, a) == Executing(l)
    modifies w
    ensures w.Valid() && old(w.run) <= w.run && Rely(old(w.s.d), w.s.d)
    ensures PcOf(w.s, a) == if r == StepError then Failing(l) else Idle
    ensures Truthful(w.s.d, l, r)
    ensures w.quiet && Held(old(w.s.d), l) ==> r == Done && Achieved(w.hash, old(w.s.d), w.s.d, l)
  {
    if l.name == IncusIndex {
      r := RunIndexStep(w, a, l);
      return;
    }
    assert PcInv(w.hash, w.s.d, Executing(l));
    var at, report := w.Call(a);
    RelyTransitive(old(w.s.d), at, w.s.d);
    if !Held(at, l) {
      return LeaseLost;
    }
    HeldStepsCanEnd(w.hash, at, l);
    return if report == Answered then Done else StepError;
  }

  /** `FailStep`: without the lease it changes nothing. */
  method ReportFailure(w: World, a: ActorId, l: Lease)
    requires w.Valid() && PcOf(w.s, a) == Failing(l)
    modifies w
    ensures w.Valid() && old(w.run) <= w.run && Rely(old(w.s.d), w.s.d) && PcOf(w.s, a) == Idle
    ensures w.quiet && !Held(old(w.s.d), l) ==> w.s.d == old(w.s.d)
    ensures w.quiet && Held(old(w.s.d), l) ==>
      CanFail(old(w.s.d), l.job, l.step) && w.s.d == FailStep(old(w.s.d), l.job, l.step)
  {
    ghost var start := w.s.d;
    assert PcInv(w.hash, start, Failing(l));
    if Held(start, l) {
      HeldStepsCanEnd(w.hash, start, l);
    }
    var at, _ := w.Call(a);
    RelyTransitive(start, at, w.s.d);
  }

  /** The step waits, or its lock is stale, and all steps before it have succeeded. */
  predicate MayBeTaken(d: Durable, j: Uuid, i: nat, staleBefore: int) {
    && j in d.jobs && i < |d.jobs[j].steps|
    && d.jobs[j].state != JobSucceeded && d.jobs[j].state != JobFailed
    && (d.jobs[j].steps[i].state == Queued
        || (d.jobs[j].steps[i].state == Running && d.jobs[j].steps[i].lockedAt <= staleBefore))
    && forall k | 0 <= k < i :: d.jobs[j].steps[k].state == Succeeded
  }

  lemma ClaimableIsFree(hash: Bytes -> string, d: Durable, j: Uuid, i: nat, staleBefore: int)
    requires DurableInv(hash, d)
    ensures Claimable(d, j, i, staleBefore) <==> MayBeTaken(d, j, i, staleBefore)
  {
    if j in d.jobs && i < |d.jobs[j].steps| {
      assert JobOk(hash, d, j);
      var steps := d.jobs[j].steps;
      assert forall k | 0 <= k < 3 :: steps[k].sequence < steps[i].sequence <==> k < i;
    }
  }

  /** What one undisturbed turn leaves: its step has succeeded under a new attempt; the last step publishes the version
      and ends the job, the index step stores the projection of the frozen manifest; nothing else is touched. */
  ghost predicate Advanced(hash: Bytes -> string, d: Durable, e: Durable, j: Uuid, i: nat, now: int)
    requires HasStep(d, j, i)
  {
    var job, step := d.jobs[j], d.jobs[j].steps[i];
    var v, last := job.version, step.name == FinalizePublish;
    var done := step.(state := Succeeded, attempts := step.attempts + 1, lockedBy := None, lockedAt := now);
    && v in d.versions
    && e == d.(
         jobs := d.jobs[j := Job(v, if last then JobSucceeded else JobRunning, job.steps[i := done])],
         versions := if last then d.versions[v := Version(Published, d.versions[v].manifest)] else d.versions,
         projection := e.projection)
    && if step.name == IncusIndex then
         && v in d.frozen && Projection(hash, d.trusted, d.frozen[v]).Ok?
         && e.projection == d.projection[v := Projection(hash, d.trusted, d.frozen[v]).value]
       else e.projection == d.projection
  }

  /** Claimed and ended, a step has succeeded under a new attempt. */
  lemma ClaimThenEnd(d: Durable, j: Uuid, i: nat, worker: string, now: int)
    requires HasStep(d, j, i)
    ensures var job, step := d.jobs[j], d.jobs[j].steps[i];
      var done := step.(state := Succeeded, attempts := step.attempts + 1, lockedBy := None, lockedAt := now);
      EndStep(ClaimStep(d, j, i, worker, now), j, i, Succeeded)
      == d.(jobs := d.jobs[j := Job(job.version, JobRunning, job.steps[i := done])])
  {
    var job, step := d.jobs[j], d.jobs[j].steps[i];
    var claimed := step.(state := Running, attempts := step.attempts + 1, lockedBy := Some(worker), lockedAt := now);
    var done := claimed.(state := Succeeded, lockedBy := None);
    assert job.steps[i := claimed][i := done] == job.steps[i := done];
    var ended := Job(job.version, JobRunning, job.steps[i := done]);
    assert EndStep(ClaimStep(d, j, i, worker, now), j, i, Succeeded).jobs == d.jobs[j := ended];
  }

  lemma AchievedIsAdvanced(hash: Bytes -> string, d: Durable, e: Durable, j: Uuid, i: nat, worker: string, now: int)
    requires DurableInv(hash, d) && HasStep(d, j, i)
    requires var step := d.jobs[j].steps[i];
      Achieved(hash, ClaimStep(d, j, i, worker, now), e, Lease(j, i, step.name, d.jobs[j].version, worker, step.attempts + 1))
    ensures Advanced(hash, d, e, j, i, now)
  {
    assert JobOk(hash, d, j);
    ClaimThenEnd(d, j, i, worker, now);
    assert e.jobs == d.jobs[j := e.jobs[j]];
  }

  /** `RunOnce` for the step the store picks: a lost lease ends it quietly, any other error is recorded through
      `FailStep`, which the lease guards again. Undisturbed, the step succeeds. */
  method RunOnce(w: World, a: ActorId, j: Uuid, i: nat, worker: string, now: int, staleBefore: int) returns (worked: bool)
    requires w.Valid() && PcOf(w.s, a) == Idle
    modifies w
    ensures w.Valid() && old(w.run) <= w.run && Rely(old(w.s.d), w.s.d)
    ensures PcOf(w.s, a) == Idle
    ensures w.quiet ==> worked == MayBeTaken(old(w.s.d), j, i, staleBefore)
    ensures w.quiet && !worked ==> w.s.d == old(w.s.d)
    ensures w.quiet && worked ==> Advanced(w.hash, old(w.s.d), w.s.d, j, i, now)
  {
    var at := w.ClaimNext(a, j, i, worker, now, staleBefore);
    RelyTransitive(old(w.s.d), at, w.s.d);
    ClaimableIsFree(w.hash, at, j, i, staleBefore);
    if !Claimable(at, j, i, staleBefore) {
      return false;
    }
    var step := at.jobs[j].steps[i];
    var l := Lease(j, i, step.name, at.jobs[j].version, worker, step.attempts + 1);
    ghost var claimed := w.s.d;
    var end := RunStep(w, a, l);
    RelyTransitive(old(w.s.d), claimed, w.s.d);
    if end == StepError {
      ghost var failing := w.s.d;
      ReportFailure(w, a, l);
      RelyTransitive(old(w.s.d), failing, w.s.d);
    }
    if w.quiet {
      AchievedIsAdvanced(w.hash, at, w.s.d, j, i, worker, now);
    }
    return true;
  }

  /** A job that has neither succeeded nor failed, and whose running step, if any, may be reclaimed. */
  ghost predicate Unfinished(d: Durable, j: Uuid, staleBefore: int) {
    && j in d.jobs
    && (d.jobs[j].state == JobQueued || d.jobs[j].state == JobRunning)
    && forall k | 0 <= k < |d.jobs[j].steps| :: d.jobs[j].steps[k].state == Running ==> d.jobs[j].steps[k].lockedAt <= staleBefore
  }

  /** A failed job can always be retried: its failed step is found, what had succeeded stays, everything else is
      queued again with its attempts kept, so leases from before the retry stay void. */
  lemma RetryReopens(hash: Bytes -> string, d: Durable, j: Uuid, staleBefore: int)
    requires DurableInv(hash, d) && j in d.jobs && d.jobs[j].state == JobFailed
    ensures CanRetry(d, j) && Unfinished(RetryJob(d, j), j, staleBefore)
    ensures var before, after := d.jobs[j].steps, RetryJob(d, j).jobs[j].steps;
      |after| == |before| && forall i | 0 <= i < |before| ::
        after[i] == if before[i].state == Succeeded then before[i] else before[i].(state := Queued, lockedBy := None)
  {
    assert JobOk(hash, d, j);
    RetryFindsTheFailure(d.jobs[j].steps);
    var before := d.jobs[j].steps;
    var k :| 0 <= k < 3 && before[k].state == Failed;
    forall i | 0 <= i < 3 && before[i].state != Succeeded ensures before[i].sequence >= FirstFailed(before).value {
    }
    assert d.versions[d.jobs[j].version].state == Publishing;
    assert JobOk(hash, RetryJob(d, j), j) by {
      RetryJobOk(hash, d, j);
    }
  }

  /** In an unfinished job the first step that has not succeeded can be claimed. */
  lemma NextStepIsClaimable(hash: Bytes -> string, d: Durable, j: Uuid, i: nat, staleBefore: int)
    requires DurableInv(hash, d) && Unfinished(d, j, staleBefore) && i < 3
    requires forall k | 0 <= k < i && k < |d.jobs[j].steps| :: d.jobs[j].steps[k].state == Succeeded
    ensures HasStep(d, j, i)
    ensures d.jobs[j].steps[i].state != Succeeded ==> Claimable(d, j, i, staleBefore)
    ensures d.jobs[j].steps[i].name == [ValidateCatalog, IncusIndex, FinalizePublish][i]
  {
    assert JobOk(hash, d, j);
    var steps := d.jobs[j].steps;
    assert steps[i].state == Failed ==> AnyFailed(steps);
  }

  /** What a claimed and finished step leaves of its job. */
  lemma AdvancedStep(hash: Bytes -> string, d: Durable, e: Durable, j: Uuid, i: nat, now: int)
    requires HasStep(d, j, i) && i < 3 && |d.jobs[j].steps| == 3
    requires d.jobs[j].steps[i].name == [ValidateCatalog, IncusIndex, FinalizePublish][i]
    requires Advanced(hash, d, e, j, i, now)
    ensures j in e.jobs && |e.jobs[j].steps| == 3 && e.jobs[j].steps[i].state == Succeeded
    ensures forall k | 0 <= k < 3 && k != i :: e.jobs[j].steps[k] == d.jobs[j].steps[k]
    ensures e.jobs[j].state == if i == 2 then JobSucceeded else JobRunning
  {
  }

  /** One `RunOnce` on the first open step of an unfinished job. */
  method Advance(w: World, a: ActorId, j: Uuid, i: nat, worker: string, now: int, staleBefore: int)
    requires w.Valid() && w.quiet && PcOf(w.s, a) == Idle && i < 3 && Unfinished(w.s.d, j, staleBefore)
    requires forall k | 0 <= k < i && k < |w.s.d.jobs[j].steps| :: w.s.d.jobs[j].steps[k].state == Succeeded
    modifies w
    ensures w.Valid() && old(w.run) <= w.run && PcOf(w.s, a) == Idle && Rely(old(w.s.d), w.s.d)
    ensures HasStep(w.s.d, j, i) && forall k | 0 <= k <= i :: w.s.d.jobs[j].steps[k].state == Succeeded
    ensures i < 2 ==> Unfinished(w.s.d, j, staleBefore)
    ensures i == 2 ==> w.s.d.jobs[j].state == JobSucceeded
  {
    ghost var start := w.s.d;
    NextStepIsClaimable(w.hash, start, j, i, staleBefore);
    RelyReflexive(start);
    assert JobOk(w.hash, start, j);
    if w.s.d.jobs[j].steps[i].state != Succeeded {
      ClaimableIsFree(w.hash, start, j, i, staleBefore);
      var _ := RunOnce(w, a, j, i, worker, now, staleBefore);
      AdvancedStep(w.hash, start, w.s.d, j, i, now);
    }
  }

  /** Publishing recovers: whatever happened before, an unfinished job whose stale lease has expired is published by
      at most three more undisturbed `RunOnce` calls, with the rows of its frozen manifest. */
  method RunUntilPublished(w: World, a: ActorId, j: Uuid, worker: string, now: int, staleBefore: int)
    requires w.Valid() && w.quiet && PcOf(w.s, a) == Idle && Unfinished(w.s.d, j, staleBefore)
    modifies w
    ensures w.Valid() && old(w.run) <= w.run && Rely(old(w.s.d), w.s.d)
    ensures var v := old(w.s.d.jobs[j].version);
      && v in w.s.d.versions && w.s.d.versions[v].state == Published
      && v in w.s.d.frozen && VisibleRows(w.s.d, v).Some?
      && Projection(w.hash, w.s.d.trusted, w.s.d.frozen[v]) == Ok(VisibleRows(w.s.d, v).value)
  {
    ghost var start := w.s.d;
    RelyReflexive(start);
    for i := 0 to 3
      invariant w.Valid() && old(w.run) <= w.run && PcOf(w.s, a) == Idle && Rely(start, w.s.d)
      invariant j in w.s.d.jobs && i <= |w.s.d.jobs[j].steps|
      invariant forall k | 0 <= k < i :: w.s.d.jobs[j].steps[k].state == Succeeded
      invariant i < 3 ==> Unfinished(w.s.d, j, staleBefore)
      invariant i == 3 ==> w.s.d.jobs[j].state == JobSucceeded
    {
      ghost var before := w.s.d;
      Advance(w, a, j, i, worker, now, staleBefore);
      RelyTransitive(start, before, w.s.d);
    }
    assert JobKept(start, w.s.d, j);
    assert JobOk(w.hash, w.s.d, j);
  }
}
