/** Publish workers as small-step actors, one move per durable call, following
    internal/jobs/publishflow/job.go, with their invariant. */
module PublishProtocol {
  import opened Catalog
  import opened Indexer
  import opened Keys
  import opened PublishState
  import opened Wrappers

  /** What a worker got from its claim. */
  datatype Lease = Lease(job: Uuid, step: nat, name: StepName, version: Uuid, worker: string, attempt: nat)

  datatype Pc =
    | Idle
    | Executing(lease: Lease)
    | ReadingBlobs(lease: Lease, manifest: Manifest)
    | Storing(lease: Lease, rows: seq<Row>)
    | Failing(lease: Lease)

  /** How a store call ends: it answers; it commits but reports an error; it fails without effect. */
  datatype Report = Answered | ReplyLost | Refused

  datatype Choice =
    | Claim(job: Uuid, step: nat, worker: string, now: int, staleBefore: int)
    | Crash
    | Reply(report: Report)

  function Fails(lease: Lease, report: Report): Pc {
    if report == Answered then Idle else Failing(lease)
  }

  function Held(d: Durable, l: Lease): bool {
    HasLease(d, l.job, l.step, l.worker, l.attempt)
  }

  /** One move of one worker. `hash` is the checksum of the concatenated blobs. */
  function Move(hash: Bytes -> string, d: Durable, pc: Pc, c: Choice): Option<(Durable, Pc)> {
    match c
    case Crash => Some((d, Idle))
    case Claim(j, i, worker, now, staleBefore) =>
      if pc != Idle then None
      else if !Claimable(d, j, i, staleBefore) then Some((d, Idle))
      else
        var step := d.jobs[j].steps[i];
        Some((ClaimStep(d, j, i, worker, now),
              Executing(Lease(j, i, step.name, d.jobs[j].version, worker, step.attempts + 1))))
    case Reply(report) =>
      match pc
      case Idle => None
      case Executing(l) =>
        if l.name == IncusIndex then
          if report != Answered || l.version !in d.versions then Some((d, Failing(l)))
          else Some((d, ReadingBlobs(l, d.versions[l.version].manifest)))
        else if !Held(d, l) then Some((d, Idle))
        else if report == Refused then Some((d, Failing(l)))
        else if l.name == ValidateCatalog then
          if CanSucceedValidate(d, l.job, l.step) then Some((EndStep(d, l.job, l.step, Succeeded), Fails(l, report)))
          else Some((d, Failing(l)))
        else
          if CanFinalize(d, l.job, l.step) then Some((Finalize(d, l.job, l.step), Fails(l, report)))
          else Some((d, Failing(l)))
      case ReadingBlobs(l, manifest) =>
        var rows := Projection(hash, d.trusted, manifest);
        if report != Answered || rows.Err? then Some((d, Failing(l)))
        else Some((d, Storing(l, rows.value)))
      case Storing(l, rows) =>
        if !Held(d, l) then Some((d, Idle))
        else if report == Refused || !CanSucceedIndex(d, l.job, l.step, l.version, rows) then Some((d, Failing(l)))
        else Some((SucceedIndex(d, l.job, l.step, l.version, rows), Fails(l, report)))
      case Failing(l) =>
        if !Held(d, l) || report == Refused || !CanFail(d, l.job, l.step) then Some((d, Idle))
        else Some((FailStep(d, l.job, l.step), Idle))
  }

  /** What operators, catalog clients and ingest do. */
  datatype Outside =
    | Edit(v: Uuid, manifest: Manifest)
    | Enqueue(v: Uuid, j: Uuid)
    | Retry(j: Uuid)
    | Trust(digest: Digest, bytes: Bytes)

  function OutsideMove(d: Durable, o: Outside): Option<Durable> {
    match o
    case Edit(v, manifest) => if CanEdit(d, v, manifest) then Some(EditDraft(d, v, manifest)) else None
    case Enqueue(v, j) => if CanEnqueue(d, v, j) then Some(EnqueueVersion(d, v, j)) else None
    case Retry(j) => if CanRetry(d, j) then Some(RetryJob(d, j)) else None
    case Trust(digest, bytes) => Some(TrustBlob(d, digest, bytes))
  }

  // ---------------------------------------------------------------- invariant

  predicate Shape(steps: seq<Step>) {
    && |steps| == 3
    && steps[0].name == ValidateCatalog && steps[0].sequence == 10
    && steps[1].name == IncusIndex && steps[1].sequence == 20
    && steps[2].name == FinalizePublish && steps[2].sequence == 30
    && steps[0].blocking && steps[1].blocking && steps[2].blocking
  }

  /** Steps happen in sequence: one that has left the queue has only succeeded steps before it. */
  predicate InSequence(steps: seq<Step>) {
    forall a, b | 0 <= a < b < |steps| :: steps[b].state != Queued ==> steps[a].state == Succeeded
  }

  /** Exactly the running steps are locked. */
  predicate Locks(steps: seq<Step>) {
    forall a | 0 <= a < |steps| :: steps[a].lockedBy.Some? <==> steps[a].state == Running
  }

  predicate AnyFailed(steps: seq<Step>) {
    exists a | 0 <= a < |steps| :: steps[a].state == Failed
  }

  predicate AnyRunning(steps: seq<Step>) {
    exists a | 0 <= a < |steps| :: steps[a].state == Running
  }

  /** The index step has stored the projection of the frozen manifest. */
  predicate Projected(hash: Bytes -> string, d: Durable, v: Uuid) {
    v in d.frozen && v in d.projection && Projection(hash, d.trusted, d.frozen[v]) == Ok(d.projection[v])
  }

  ghost predicate JobOk(hash: Bytes -> string, d: Durable, j: Uuid)
    requires j in d.jobs
  {
    var job := d.jobs[j];
    && Shape(job.steps)
    && InSequence(job.steps)
    && Locks(job.steps)
    && job.version in d.versions
    && d.versions[job.version].state != Draft
    && (job.steps[1].state == Succeeded ==> Projected(hash, d, job.version))
    && (job.state == JobSucceeded <==> job.steps[2].state == Succeeded)
    && (job.state == JobSucceeded <==> d.versions[job.version].state == Published)
    && (job.state == JobFailed <==> AnyFailed(job.steps))
    && (AnyRunning(job.steps) ==> job.state == JobRunning)
  }

  predicate IsJobOf(d: Durable, j: Uuid, v: Uuid) {
    j in d.jobs && d.jobs[j].version == v
  }

  ghost predicate HasJob(d: Durable, v: Uuid) {
    exists j :: IsJobOf(d, j, v)
  }

  ghost predicate VersionOk(d: Durable, v: Uuid)
    requires v in d.versions
  {
    && WellFormed(d.versions[v].manifest, v)
    && (d.versions[v].state == Draft <==> v !in d.frozen)
    && (v in d.frozen ==> d.frozen[v] == d.versions[v].manifest && Publishable(d.trusted, d.frozen[v]))
    && (d.versions[v].state != Draft ==> HasJob(d, v))
  }

  ghost predicate VersionsOk(d: Durable) {
    && (forall v {:trigger VersionOk(d, v)} :: v in d.versions ==> VersionOk(d, v))
    && (forall v <- d.frozen :: v in d.versions)
  }

  ghost predicate JobsOk(hash: Bytes -> string, d: Durable) {
    forall j {:trigger JobOk(hash, d, j)} :: j in d.jobs ==> JobOk(hash, d, j)
  }

  ghost predicate OneJobEach(d: Durable) {
    forall j, k, v | IsJobOf(d, j, v) && IsJobOf(d, k, v) :: j == k
  }

  ghost predicate DurableInv(hash: Bytes -> string, d: Durable) {
    VersionsOk(d) && JobsOk(hash, d) && OneJobEach(d)
  }

  /** The lease names a real attempt of its step; while that attempt runs, it runs under this worker. */
  ghost predicate LeaseOk(d: Durable, l: Lease) {
    && HasStep(d, l.job, l.step)
    && d.jobs[l.job].version == l.version
    && d.jobs[l.job].steps[l.step].name == l.name
    && var step := d.jobs[l.job].steps[l.step];
    && 1 <= l.attempt <= step.attempts
    && (step.attempts == l.attempt && step.state == Running ==> step.lockedBy == Some(l.worker))
  }

  ghost predicate PcInv(hash: Bytes -> string, d: Durable, pc: Pc) {
    match pc
    case Idle => true
    case Executing(l) => LeaseOk(d, l)
    case ReadingBlobs(l, manifest) =>
      LeaseOk(d, l) && l.name == IncusIndex && l.version in d.frozen && manifest == d.frozen[l.version]
    case Storing(l, rows) =>
      LeaseOk(d, l) && l.name == IncusIndex && l.version in d.frozen
      && Projection(hash, d.trusted, d.frozen[l.version]) == Ok(rows)
    case Failing(l) => LeaseOk(d, l)
  }

  // ---------------------------------------------------------------- what no step undoes

  predicate VersionLeads(a: VersionState, b: VersionState) {
    a == b || a == Draft || b == Published
  }

  /** Attempts only grow, success stays, an attempt that is no longer running never runs again, and while it runs its
      lock stays as it was taken. */
  predicate StepKept(a: Step, b: Step) {
    && b.name == a.name && b.sequence == a.sequence && b.blocking == a.blocking
    && a.attempts <= b.attempts
    && (a.state == Succeeded ==> b == a)
    && (a.attempts == b.attempts && b.state == Running ==>
          a.state == Running && b.lockedBy == a.lockedBy && b.lockedAt == a.lockedAt)
  }

  ghost predicate JobKept(d: Durable, e: Durable, j: Uuid)
    requires j in d.jobs
  {
    && j in e.jobs
    && e.jobs[j].version == d.jobs[j].version
    && |e.jobs[j].steps| == |d.jobs[j].steps|
    && forall i {:trigger e.jobs[j].steps[i]} | 0 <= i < |d.jobs[j].steps| :: StepKept(d.jobs[j].steps[i], e.jobs[j].steps[i])
  }

  ghost predicate Rely(d: Durable, e: Durable) {
    && (forall v <- d.versions :: v in e.versions && VersionLeads(d.versions[v].state, e.versions[v].state))
    && (forall v <- d.frozen :: v in e.frozen && e.frozen[v] == d.frozen[v])
    && (forall g <- d.trusted :: g in e.trusted && e.trusted[g] == d.trusted[g])
    && (forall j {:trigger JobKept(d, e, j)} :: j in d.jobs ==> JobKept(d, e, j))
  }

  lemma RelyReflexive(d: Durable)
    ensures Rely(d, d)
  {
    forall j | j in d.jobs ensures JobKept(d, d, j) {
    }
  }

  lemma RelyTransitive(d: Durable, e: Durable, f: Durable)
    requires Rely(d, e) && Rely(e, f)
    ensures Rely(d, f)
  {
    forall j | j in d.jobs ensures JobKept(d, f, j) {
      assert JobKept(d, e, j) && JobKept(e, f, j);
    }
  }

  /** More trusted blobs do not change a projection that could be computed. */
  lemma {:induction false} ProjectionStable(hash: Bytes -> string, t: map<Digest, Bytes>, u: map<Digest, Bytes>,
                                            manifest: Manifest, selected: seq<(Artifact, Attachment)>)
    requires forall g <- t :: g in u && u[g] == t[g]
    requires Rows(hash, t, manifest, selected).Ok?
    ensures Rows(hash, u, manifest, selected) == Rows(hash, t, manifest, selected)
  {
    if selected != [] {
      ProjectionStable(hash, t, u, manifest, selected[..|selected| - 1]);
    }
  }

  lemma LeaseStable(d: Durable, e: Durable, l: Lease)
    requires Rely(d, e) && LeaseOk(d, l)
    ensures LeaseOk(e, l)
  {
    assert JobKept(d, e, l.job);
    assert StepKept(d.jobs[l.job].steps[l.step], e.jobs[l.job].steps[l.step]);
  }

  lemma KnowledgeIsStable(hash: Bytes -> string, d: Durable, e: Durable, pc: Pc)
    requires Rely(d, e) && PcInv(hash, d, pc)
    ensures PcInv(hash, e, pc)
  {
    match pc
    case Idle =>
    case Executing(l) => LeaseStable(d, e, l);
    case ReadingBlobs(l, _) => LeaseStable(d, e, l);
    case Storing(l, _) =>
      LeaseStable(d, e, l);
      ProjectionStable(hash, d.trusted, e.trusted, d.frozen[l.version], Selected(d.frozen[l.version].artifacts));
    case Failing(l) => LeaseStable(d, e, l);
  }
}
