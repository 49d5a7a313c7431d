/** The durable state of the publish workflow and one transition for every store call: the version, publish-job,
    publish-step and projection tables behind internal/publish/publish.go, as
    internal/store/postgres/publish/store.go and the migrations update them. Each transition is one transaction. */
module PublishState {
  import opened Catalog
  import opened Indexer
  import opened Keys
  import opened Wrappers

  datatype VersionState = Draft | Publishing | Published

  datatype Version = Version(state: VersionState, manifest: Manifest)

  datatype StepName = ValidateCatalog | IncusIndex | FinalizePublish

  datatype StepState = Queued | Running | Succeeded | Failed

  datatype Step = Step(
    name: StepName, sequence: int, blocking: bool, state: StepState,
    attempts: nat, lockedBy: Option<string>, lockedAt: int)

  datatype JobState = JobQueued | JobRunning | JobSucceeded | JobFailed

  datatype Job = Job(version: Uuid, state: JobState, steps: seq<Step>)

  datatype Durable = Durable(
    versions: map<Uuid, Version>,
    jobs: map<Uuid, Job>,
    projection: map<Uuid, seq<Row>>,
    // the verified blobs; upload ingest only ever adds to them
    trusted: map<Digest, Bytes>,
    // the manifest each version had when it was enqueued (history, never read by the service)
    frozen: map<Uuid, Manifest>)

  const EMPTY: Durable := Durable(map[], map[], map[], map[], map[])

  // ---------------------------------------------------------------- versions and blobs

  predicate DistinctArtifacts(manifest: Manifest) {
    forall i, j | 0 <= i < j < |manifest.artifacts| :: manifest.artifacts[i].artifact.id != manifest.artifacts[j].artifact.id
  }

  /** What the catalog tables enforce on a manifest of version `v`. */
  predicate WellFormed(manifest: Manifest, v: Uuid) {
    && manifest.versionId == v
    && ValidImageName(manifest.imageName)
    && ValidVersion(manifest.version)
    && DistinctArtifacts(manifest)
    && forall a <- manifest.artifacts ::
        && ValidToken(a.artifact.operatingSystem) && ValidToken(a.artifact.architecture)
        && (a.artifact.variant == "" || ValidToken(a.artifact.variant))
        && ValidDigest(a.artifact.primaryDigest)
        && forall t <- a.attachments :: ValidDigest(t.digest)
  }

  predicate Verified(trusted: map<Digest, Bytes>, digest: Digest, size: int) {
    digest in trusted && |trusted[digest]| == size
  }

  /** `requirePublishableVersion`: at least one artifact, and every blob the manifest names is verified. */
  predicate Publishable(trusted: map<Digest, Bytes>, manifest: Manifest) {
    && manifest.artifacts != []
    && forall a <- manifest.artifacts ::
        && Verified(trusted, a.artifact.primaryDigest, a.artifact.primarySize)
        && forall t <- a.attachments :: Verified(trusted, t.digest, t.size)
  }

  /** A draft is created or its manifest is edited; a version that is no draft refuses the write. */
  predicate CanEdit(d: Durable, v: Uuid, manifest: Manifest) {
    && WellFormed(manifest, v)
    && (v in d.versions ==>
          && d.versions[v].state == Draft
          && manifest.imageName == d.versions[v].manifest.imageName
          && manifest.version == d.versions[v].manifest.version)
  }

  function EditDraft(d: Durable, v: Uuid, manifest: Manifest): Durable {
    d.(versions := d.versions[v := Version(Draft, manifest)])
  }

  function TrustBlob(d: Durable, digest: Digest, bytes: Bytes): Durable {
    if digest in d.trusted then d else d.(trusted := d.trusted[digest := bytes])
  }

  // ---------------------------------------------------------------- jobs and steps

  function NewStep(name: StepName, sequence: int): Step {
    Step(name, sequence, true, Queued, 0, None, 0)
  }

  function NewJob(v: Uuid): Job {
    Job(v, JobQueued, [NewStep(ValidateCatalog, 10), NewStep(IncusIndex, 20), NewStep(FinalizePublish, 30)])
  }

  predicate CanEnqueue(d: Durable, v: Uuid, j: Uuid) {
    v in d.versions && d.versions[v].state == Draft && Publishable(d.trusted, d.versions[v].manifest) && j !in d.jobs
  }

  /** `EnqueueVersion`: freezes the draft and creates its job. */
  function EnqueueVersion(d: Durable, v: Uuid, j: Uuid): Durable
    requires CanEnqueue(d, v, j)
  {
    d.(versions := d.versions[v := d.versions[v].(state := Publishing)],
       jobs := d.jobs[j := NewJob(v)],
       frozen := d.frozen[v := d.versions[v].manifest])
  }

  predicate HasStep(d: Durable, j: Uuid, i: nat) {
    j in d.jobs && i < |d.jobs[j].steps|
  }

  predicate PreviousSucceeded(job: Job, i: nat)
    requires i < |job.steps|
  {
    forall k | 0 <= k < |job.steps| ::
      job.steps[k].sequence < job.steps[i].sequence && job.steps[k].blocking ==> job.steps[k].state == Succeeded
  }

  /** `claimStep`: a queued step, or a running one whose lock is stale, with nothing blocking before it. */
  predicate Claimable(d: Durable, j: Uuid, i: nat, staleBefore: int) {
    && HasStep(d, j, i)
    && (d.jobs[j].state == JobQueued || d.jobs[j].state == JobRunning)
    && (d.jobs[j].steps[i].state == Queued
        || (d.jobs[j].steps[i].state == Running && d.jobs[j].steps[i].lockedAt <= staleBefore))
    && PreviousSucceeded(d.jobs[j], i)
  }

  function SetStep(d: Durable, j: Uuid, i: nat, step: Step): Durable
    requires HasStep(d, j, i)
  {
    d.(jobs := d.jobs[j := d.jobs[j].(steps := d.jobs[j].steps[i := step])])
  }

  function SetJobState(d: Durable, j: Uuid, state: JobState): Durable
    requires j in d.jobs
  {
    d.(jobs := d.jobs[j := d.jobs[j].(state := state)])
  }

  function ClaimStep(d: Durable, j: Uuid, i: nat, worker: string, now: int): Durable
    requires HasStep(d, j, i)
  {
    var step := d.jobs[j].steps[i];
    SetJobState(
      SetStep(d, j, i, step.(state := Running, attempts := step.attempts + 1, lockedBy := Some(worker), lockedAt := now)),
      j, JobRunning)
  }

  /** `lockRunningStep`: the lease is the step running under this worker and this attempt. */
  predicate HasLease(d: Durable, j: Uuid, i: nat, worker: string, attempt: nat) {
    && HasStep(d, j, i)
    && d.jobs[j].steps[i].state == Running
    && d.jobs[j].steps[i].lockedBy == Some(worker)
    && d.jobs[j].steps[i].attempts == attempt
  }

  function EndStep(d: Durable, j: Uuid, i: nat, state: StepState): Durable
    requires HasStep(d, j, i)
  {
    SetStep(d, j, i, d.jobs[j].steps[i].(state := state, lockedBy := None))
  }

  predicate CanSucceedValidate(d: Durable, j: Uuid, i: nat) {
    && HasStep(d, j, i)
    && d.jobs[j].steps[i].name == ValidateCatalog
    && d.jobs[j].version in d.versions
    && Publishable(d.trusted, d.versions[d.jobs[j].version].manifest)
  }

  predicate DistinctRows(rows: seq<Row>) {
    forall i, j | 0 <= i < j < |rows| :: rows[i].artifactId != rows[j].artifactId
  }

  /** The guards of `SucceedIncusIndexStep` after the lease. */
  predicate CanSucceedIndex(d: Durable, j: Uuid, i: nat, v: Uuid, rows: seq<Row>) {
    && HasStep(d, j, i)
    && d.jobs[j].steps[i].name == IncusIndex
    && d.jobs[j].version == v
    && DistinctRows(rows)
    && forall row <- rows :: row.versionId == v
  }

  function SucceedIndex(d: Durable, j: Uuid, i: nat, v: Uuid, rows: seq<Row>): Durable
    requires HasStep(d, j, i)
  {
    EndStep(d, j, i, Succeeded).(projection := d.projection[v := rows])
  }

  predicate CanFinalize(d: Durable, j: Uuid, i: nat) {
    && HasStep(d, j, i)
    && d.jobs[j].steps[i].name == FinalizePublish
    && PreviousSucceeded(d.jobs[j], i)
    && d.jobs[j].version in d.versions
    && d.versions[d.jobs[j].version].state == Publishing
    && d.jobs[j].state == JobRunning
  }

  function Finalize(d: Durable, j: Uuid, i: nat): Durable
    requires CanFinalize(d, j, i)
  {
    var v := d.jobs[j].version;
    SetJobState(EndStep(d, j, i, Succeeded), j, JobSucceeded).(
      versions := d.versions[v := d.versions[v].(state := Published)])
  }

  /** `FailStep` under a lease; the job must not be over. */
  predicate CanFail(d: Durable, j: Uuid, i: nat) {
    HasStep(d, j, i) && (d.jobs[j].state == JobQueued || d.jobs[j].state == JobRunning)
  }

  function FailStep(d: Durable, j: Uuid, i: nat): Durable
    requires CanFail(d, j, i)
  {
    SetJobState(EndStep(d, j, i, Failed), j, JobFailed)
  }

  /** The sequence of the first failed blocking step, in execution order. */
  function FirstFailed(steps: seq<Step>): Option<int> {
    if steps == [] then None
    else if steps[0].state == Failed && steps[0].blocking then Some(steps[0].sequence)
    else FirstFailed(steps[1..])
  }

  predicate CanRetry(d: Durable, j: Uuid) {
    && j in d.jobs
    && d.jobs[j].state == JobFailed
    && d.jobs[j].version in d.versions
    && d.versions[d.jobs[j].version].state == Publishing
    && FirstFailed(d.jobs[j].steps).Some?
  }

  function RequeueStep(step: Step, from: int): Step {
    if step.sequence >= from && step.state != Succeeded then step.(state := Queued, lockedBy := None) else step
  }

  /** `RetryJob`: everything from the first failure on that has not succeeded is queued again; attempts stay. */
  function RetryJob(d: Durable, j: Uuid): Durable
    requires CanRetry(d, j)
  {
    var from := FirstFailed(d.jobs[j].steps).value;
    var steps := d.jobs[j].steps;
    d.(jobs := d.jobs[j :=
      d.jobs[j].(state := JobQueued, steps := seq(|steps|, i requires 0 <= i < |steps| => RequeueStep(steps[i], from)))])
  }

  /** The rows readers see: those of published versions. */
  function VisibleRows(d: Durable, v: Uuid): Option<seq<Row>> {
    if v in d.versions && d.versions[v].state == Published && v in d.projection then Some(d.projection[v]) else None
  }
}
