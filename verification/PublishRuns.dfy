/** Runs of the publish workflow: any number of workers, operators and clients, with stale reclaims, retries, lost
    replies and crashes between any two calls. */
module PublishRuns {
  import opened Catalog
  import opened Indexer
  import opened Keys
  import opened PublishState
  import opened PublishProtocol
  import Runs
  import opened Wrappers

  // ---------------------------------------------------------------- one lemma for every transition

  /** A job is untroubled by changes elsewhere. */
  lemma JobStable(hash: Bytes -> string, d: Durable, e: Durable, j: Uuid)
    requires j in d.jobs && JobOk(hash, d, j) && j in e.jobs && e.jobs[j] == d.jobs[j]
    requires var v := d.jobs[j].version;
      && v in e.versions && e.versions[v].state == d.versions[v].state
      && (v in d.frozen ==> v in e.frozen && e.frozen[v] == d.frozen[v])
      && (v in d.projection ==> v in e.projection && e.projection[v] == d.projection[v])
    requires forall g <- d.trusted :: g in e.trusted && e.trusted[g] == d.trusted[g]
    ensures JobOk(hash, e, j)
  {
    var v := d.jobs[j].version;
    if Projected(hash, d, v) {
      ProjectionStable(hash, d.trusted, e.trusted, d.frozen[v], Selected(d.frozen[v].artifacts));
    }
  }

  lemma VersionStable(d: Durable, e: Durable, v: Uuid)
    requires v in d.versions && VersionOk(d, v) && v in e.versions && e.versions[v].manifest == d.versions[v].manifest
    requires e.versions[v].state == Draft <==> d.versions[v].state == Draft
    requires v in d.frozen <==> v in e.frozen
    requires v in d.frozen ==> e.frozen[v] == d.frozen[v]
    requires forall g <- d.trusted :: g in e.trusted && e.trusted[g] == d.trusted[g]
    requires forall j <- d.jobs :: j in e.jobs && e.jobs[j].version == d.jobs[j].version
    ensures VersionOk(e, v)
  {
    if e.versions[v].state != Draft {
      var j :| IsJobOf(d, j, v);
      assert IsJobOf(e, j, v);
    }
  }

  lemma SameOwners(d: Durable, e: Durable)
    requires e.jobs.Keys == d.jobs.Keys && forall j <- d.jobs :: e.jobs[j].version == d.jobs[j].version
    requires OneJobEach(d)
    ensures OneJobEach(e)
  {
    forall j, k, v | IsJobOf(e, j, v) && IsJobOf(e, k, v) ensures j == k {
      assert IsJobOf(d, j, v) && IsJobOf(d, k, v);
    }
  }

  /** Only the row of job `j`, the projection of its version and the state of that version change. */
  predicate OnlyJob(d: Durable, e: Durable, j: Uuid) {
    && j in d.jobs && j in e.jobs
    && e.jobs[j].version == d.jobs[j].version
    && var v := d.jobs[j].version;
    && v in d.versions && v in e.versions
    && e == d.(jobs := d.jobs[j := e.jobs[j]],
               versions := d.versions[v := d.versions[v].(state := e.versions[v].state)],
               projection := e.projection)
    && (e.versions[v].state == Draft <==> d.versions[v].state == Draft)
    && forall w <- d.projection :: w in e.projection && (w != v ==> e.projection[w] == d.projection[w])
  }

  lemma OnlyJobKeepsVersions(d: Durable, e: Durable, j: Uuid)
    requires VersionsOk(d) && OnlyJob(d, e, j)
    ensures VersionsOk(e)
  {
    forall v | v in e.versions ensures VersionOk(e, v) {
      assert VersionOk(d, v);
      VersionStable(d, e, v);
    }
  }

  lemma OnlyJobKeepsJobs(hash: Bytes -> string, d: Durable, e: Durable, j: Uuid)
    requires JobsOk(hash, d) && OneJobEach(d) && OnlyJob(d, e, j) && JobOk(hash, e, j)
    ensures JobsOk(hash, e)
  {
    forall k | k in e.jobs ensures JobOk(hash, e, k) {
      if k != j {
        assert JobOk(hash, d, k);
        assert IsJobOf(d, k, d.jobs[k].version) && IsJobOf(d, j, d.jobs[j].version);
        JobStable(hash, d, e, k);
      }
    }
  }

  /** A change of one job keeps the invariant if it keeps the invariant of that job. */
  lemma JobChange(hash: Bytes -> string, d: Durable, e: Durable, j: Uuid)
    requires DurableInv(hash, d) && OnlyJob(d, e, j) && JobOk(hash, e, j)
    ensures DurableInv(hash, e)
  {
    OnlyJobKeepsVersions(d, e, j);
    OnlyJobKeepsJobs(hash, d, e, j);
    SameOwners(d, e);
  }

  lemma JobChangeKept(d: Durable, e: Durable, j: Uuid)
    requires OnlyJob(d, e, j) && JobKept(d, e, j)
    requires VersionLeads(d.versions[d.jobs[j].version].state, e.versions[d.jobs[j].version].state)
    ensures Rely(d, e)
  {
    forall k | k in d.jobs ensures JobKept(d, e, k) {
    }
  }

  /** Blobs and other versions may be added around a job without touching it. */
  predicate JobsAlone(d: Durable, e: Durable) {
    && e.projection == d.projection
    && (forall j <- d.jobs :: j in e.jobs && e.jobs[j] == d.jobs[j])
    && (forall g <- d.trusted :: g in e.trusted && e.trusted[g] == d.trusted[g])
    && (forall v <- d.frozen :: v in e.frozen && e.frozen[v] == d.frozen[v])
    && (forall v <- d.versions :: v in e.versions && (d.versions[v].state != Draft ==> e.versions[v] == d.versions[v]))
  }

  lemma OldJobsStay(hash: Bytes -> string, d: Durable, e: Durable)
    requires JobsOk(hash, d) && JobsAlone(d, e)
    ensures forall j | j in d.jobs :: JobOk(hash, e, j)
  {
    forall j | j in d.jobs ensures JobOk(hash, e, j) {
      assert JobOk(hash, d, j);
      JobStable(hash, d, e, j);
    }
  }

  lemma AloneKept(d: Durable, e: Durable)
    requires JobsAlone(d, e)
    ensures Rely(d, e)
  {
    forall j | j in d.jobs ensures JobKept(d, e, j) {
    }
  }

  lemma EditDraftOk(hash: Bytes -> string, d: Durable, v: Uuid, manifest: Manifest)
    requires DurableInv(hash, d) && CanEdit(d, v, manifest)
    ensures DurableInv(hash, EditDraft(d, v, manifest)) && Rely(d, EditDraft(d, v, manifest))
  {
    var e := EditDraft(d, v, manifest);
    assert v in d.versions ==> VersionOk(d, v);
    forall w | w in e.versions ensures VersionOk(e, w) {
      if w != v {
        assert VersionOk(d, w);
        VersionStable(d, e, w);
      }
    }
    OldJobsStay(hash, d, e);
    SameOwners(d, e);
    AloneKept(d, e);
  }

  lemma EnqueueKeepsVersions(d: Durable, v: Uuid, j: Uuid)
    requires VersionsOk(d) && CanEnqueue(d, v, j)
    ensures VersionsOk(EnqueueVersion(d, v, j))
  {
    var e := EnqueueVersion(d, v, j);
    assert VersionOk(d, v);
    forall w | w in e.versions ensures VersionOk(e, w) {
      assert VersionOk(d, w);
      if w == v {
        assert IsJobOf(e, j, v);
      } else {
        VersionStable(d, e, w);
      }
    }
  }

  lemma NewJobOk(hash: Bytes -> string, d: Durable, v: Uuid, j: Uuid)
    requires CanEnqueue(d, v, j)
    ensures JobOk(hash, EnqueueVersion(d, v, j), j)
  {
  }

  lemma EnqueueVersionOk(hash: Bytes -> string, d: Durable, v: Uuid, j: Uuid)
    requires DurableInv(hash, d) && CanEnqueue(d, v, j)
    ensures DurableInv(hash, EnqueueVersion(d, v, j)) && Rely(d, EnqueueVersion(d, v, j))
  {
    var e := EnqueueVersion(d, v, j);
    assert VersionOk(d, v);
    EnqueueKeepsVersions(d, v, j);
    OldJobsStay(hash, d, e);
    NewJobOk(hash, d, v, j);
    forall k, m, w | IsJobOf(e, k, w) && IsJobOf(e, m, w) ensures k == m {
      assert k != j ==> JobOk(hash, d, k) && IsJobOf(d, k, w);
      assert m != j ==> JobOk(hash, d, m) && IsJobOf(d, m, w);
    }
    AloneKept(d, e);
  }

  lemma TrustKeepsVersions(d: Durable, e: Durable)
    requires VersionsOk(d) && JobsAlone(d, e) && e == d.(trusted := e.trusted)
    ensures VersionsOk(e)
  {
    forall v | v in e.versions ensures VersionOk(e, v) {
      assert VersionOk(d, v);
      VersionStable(d, e, v);
    }
  }

  lemma TrustBlobOk(hash: Bytes -> string, d: Durable, digest: Digest, bytes: Bytes)
    requires DurableInv(hash, d)
    ensures DurableInv(hash, TrustBlob(d, digest, bytes)) && Rely(d, TrustBlob(d, digest, bytes))
  {
    var e := TrustBlob(d, digest, bytes);
    assert JobsAlone(d, e);
    TrustKeepsVersions(d, e);
    OldJobsStay(hash, d, e);
    SameOwners(d, e);
    AloneKept(d, e);
  }

  lemma ClaimedJobOk(hash: Bytes -> string, d: Durable, j: Uuid, i: nat, worker: string, now: int, staleBefore: int)
    requires j in d.jobs && JobOk(hash, d, j) && Claimable(d, j, i, staleBefore)
    ensures JobOk(hash, ClaimStep(d, j, i, worker, now), j)
  {
    ClaimInSequence(d.jobs[j], i);
    var steps := ClaimStep(d, j, i, worker, now).jobs[j].steps;
    assert Shape(steps) && InSequence(steps) && steps[i].state == Running;
    assert !AnyFailed(steps) && AnyRunning(steps);
  }

  lemma ClaimStepOk(hash: Bytes -> string, d: Durable, j: Uuid, i: nat, worker: string, now: int, staleBefore: int)
    requires DurableInv(hash, d) && Claimable(d, j, i, staleBefore)
    ensures var e := ClaimStep(d, j, i, worker, now);
      && DurableInv(hash, e) && Rely(d, e)
      && var step := d.jobs[j].steps[i];
      LeaseOk(e, Lease(j, i, step.name, d.jobs[j].version, worker, step.attempts + 1))
  {
    var e := ClaimStep(d, j, i, worker, now);
    assert JobOk(hash, d, j);
    ClaimedJobOk(hash, d, j, i, worker, now, staleBefore);
    JobChange(hash, d, e, j);
    JobChangeKept(d, e, j);
  }

  /** A claimable step has only succeeded steps before it and only queued ones after it. */
  lemma ClaimInSequence(job: Job, i: nat)
    requires Shape(job.steps) && InSequence(job.steps) && i < 3 && PreviousSucceeded(job, i)
    requires job.steps[i].state != Succeeded
    ensures forall k | 0 <= k < i :: job.steps[k].state == Succeeded
    ensures forall k | i < k < 3 :: job.steps[k].state == Queued
  {
    forall k | 0 <= k < i ensures job.steps[k].state == Succeeded {
      assert job.steps[k].sequence < job.steps[i].sequence;
    }
  }

  /** A running step is the only one that is neither succeeded nor queued. */
  lemma RunningIsAlone(job: Job, i: nat)
    requires Shape(job.steps) && InSequence(job.steps) && i < 3 && job.steps[i].state == Running
    ensures forall k | 0 <= k < i :: job.steps[k].state == Succeeded
    ensures forall k | i < k < 3 :: job.steps[k].state == Queued
    ensures PreviousSucceeded(job, i)
  {
  }

  lemma SucceedValidateOk(hash: Bytes -> string, d: Durable, l: Lease)
    requires DurableInv(hash, d) && Held(d, l) && CanSucceedValidate(d, l.job, l.step)
    ensures var e := EndStep(d, l.job, l.step, Succeeded);
      DurableInv(hash, e) && Rely(d, e)
  {
    var e := EndStep(d, l.job, l.step, Succeeded);
    assert JobOk(hash, d, l.job);
    RunningIsAlone(d.jobs[l.job], l.step);
    assert JobOk(hash, e, l.job);
    JobChange(hash, d, e, l.job);
    JobChangeKept(d, e, l.job);
  }

  lemma StoredJobOk(hash: Bytes -> string, d: Durable, l: Lease, rows: seq<Row>)
    requires l.job in d.jobs && JobOk(hash, d, l.job) && Held(d, l) && PcInv(hash, d, Storing(l, rows))
    requires CanSucceedIndex(d, l.job, l.step, l.version, rows)
    ensures JobOk(hash, SucceedIndex(d, l.job, l.step, l.version, rows), l.job)
  {
    RunningIsAlone(d.jobs[l.job], l.step);
    var e := SucceedIndex(d, l.job, l.step, l.version, rows);
    assert Projected(hash, e, l.version);
    var steps := e.jobs[l.job].steps;
    assert Shape(steps) && InSequence(steps) && !AnyFailed(steps) && !AnyRunning(steps);
    assert AnyRunning(d.jobs[l.job].steps);
  }

  /** The rows a worker stores are the projection of the frozen manifest, whoever computed them and when. */
  lemma SucceedIndexOk(hash: Bytes -> string, d: Durable, l: Lease, rows: seq<Row>)
    requires DurableInv(hash, d) && Held(d, l) && PcInv(hash, d, Storing(l, rows))
    requires CanSucceedIndex(d, l.job, l.step, l.version, rows)
    ensures var e := SucceedIndex(d, l.job, l.step, l.version, rows);
      DurableInv(hash, e) && Rely(d, e)
  {
    var e := SucceedIndex(d, l.job, l.step, l.version, rows);
    assert JobOk(hash, d, l.job);
    StoredJobOk(hash, d, l, rows);
    JobChange(hash, d, e, l.job);
    JobChangeKept(d, e, l.job);
  }

  lemma FinalizedJobOk(hash: Bytes -> string, d: Durable, l: Lease)
    requires l.job in d.jobs && JobOk(hash, d, l.job) && Held(d, l) && CanFinalize(d, l.job, l.step)
    ensures JobOk(hash, Finalize(d, l.job, l.step), l.job)
  {
    RunningIsAlone(d.jobs[l.job], l.step);
    var e := Finalize(d, l.job, l.step);
    var steps := e.jobs[l.job].steps;
    assert Shape(steps) && InSequence(steps) && !AnyFailed(steps) && !AnyRunning(steps);
  }

  lemma FinalizeOk(hash: Bytes -> string, d: Durable, l: Lease)
    requires DurableInv(hash, d) && Held(d, l) && CanFinalize(d, l.job, l.step)
    ensures var e := Finalize(d, l.job, l.step);
      DurableInv(hash, e) && Rely(d, e)
  {
    var e := Finalize(d, l.job, l.step);
    assert JobOk(hash, d, l.job);
    FinalizedJobOk(hash, d, l);
    JobChange(hash, d, e, l.job);
    JobChangeKept(d, e, l.job);
  }

  lemma FailStepOk(hash: Bytes -> string, d: Durable, l: Lease)
    requires DurableInv(hash, d) && Held(d, l) && CanFail(d, l.job, l.step)
    ensures var e := FailStep(d, l.job, l.step);
      DurableInv(hash, e) && Rely(d, e)
  {
    var e := FailStep(d, l.job, l.step);
    assert JobOk(hash, d, l.job);
    RunningIsAlone(d.jobs[l.job], l.step);
    assert e.jobs[l.job].steps[l.step].state == Failed;
    assert JobOk(hash, e, l.job);
    JobChange(hash, d, e, l.job);
    JobChangeKept(d, e, l.job);
  }

  /** A failed job has its failed step, so retry finds where to start; nothing runs meanwhile. */
  lemma RetryFindsTheFailure(steps: seq<Step>)
    requires Shape(steps) && InSequence(steps) && AnyFailed(steps)
    ensures FirstFailed(steps).Some?
    ensures forall i | 0 <= i < 3 :: steps[i].sequence < FirstFailed(steps).value ==> steps[i].state == Succeeded
    ensures forall i | 0 <= i < 3 :: steps[i].state == Failed ==> steps[i].sequence == FirstFailed(steps).value
  {
    assert FirstFailed(steps[1..][1..]) == if steps[2].state == Failed then Some(30) else None by {
      assert FirstFailed(steps[1..][1..][1..]) == None;
    }
    assert FirstFailed(steps[1..]) == if steps[1].state == Failed then Some(20) else FirstFailed(steps[1..][1..]);
  }

  lemma RetryJobOk(hash: Bytes -> string, d: Durable, j: Uuid)
    requires DurableInv(hash, d) && CanRetry(d, j)
    ensures DurableInv(hash, RetryJob(d, j)) && Rely(d, RetryJob(d, j))
  {
    var e := RetryJob(d, j);
    assert JobOk(hash, d, j);
    RetryFindsTheFailure(d.jobs[j].steps);
    assert JobOk(hash, e, j);
    JobChange(hash, d, e, j);
    JobChangeKept(d, e, j);
  }

  // ---------------------------------------------------------------- one move

  ghost predicate Safe(hash: Bytes -> string, d: Durable, r: Option<(Durable, Pc)>) {
    r.Some? ==> DurableInv(hash, r.value.0) && PcInv(hash, r.value.0, r.value.1) && Rely(d, r.value.0)
  }

  lemma ExecutingSafe(hash: Bytes -> string, d: Durable, l: Lease, report: Report)
    requires DurableInv(hash, d) && LeaseOk(d, l)
    ensures Safe(hash, d, Move(hash, d, Executing(l), Reply(report)))
  {
    RelyReflexive(d);
    assert JobOk(hash, d, l.job);
    assert l.version in d.versions ==> VersionOk(d, l.version);
    if Held(d, l) && l.name != IncusIndex {
      if CanSucceedValidate(d, l.job, l.step) {
        SucceedValidateOk(hash, d, l);
        LeaseStable(d, EndStep(d, l.job, l.step, Succeeded), l);
      }
      if CanFinalize(d, l.job, l.step) {
        FinalizeOk(hash, d, l);
        LeaseStable(d, Finalize(d, l.job, l.step), l);
      }
    }
  }

  lemma StoringSafe(hash: Bytes -> string, d: Durable, l: Lease, rows: seq<Row>, report: Report)
    requires DurableInv(hash, d) && PcInv(hash, d, Storing(l, rows))
    ensures Safe(hash, d, Move(hash, d, Storing(l, rows), Reply(report)))
  {
    RelyReflexive(d);
    if Held(d, l) && CanSucceedIndex(d, l.job, l.step, l.version, rows) {
      SucceedIndexOk(hash, d, l, rows);
      LeaseStable(d, SucceedIndex(d, l.job, l.step, l.version, rows), l);
    }
  }

  lemma MoveSafe(hash: Bytes -> string, d: Durable, pc: Pc, c: Choice)
    requires DurableInv(hash, d) && PcInv(hash, d, pc)
    ensures Safe(hash, d, Move(hash, d, pc, c))
  {
    RelyReflexive(d);
    match c
    case Crash =>
    case Claim(j, i, worker, now, staleBefore) =>
      if Claimable(d, j, i, staleBefore) {
        ClaimStepOk(hash, d, j, i, worker, now, staleBefore);
      }
    case Reply(report) =>
      match pc
      case Idle =>
      case Executing(l) => ExecutingSafe(hash, d, l, report);
      case ReadingBlobs(l, manifest) =>
      case Storing(l, rows) => StoringSafe(hash, d, l, rows, report);
      case Failing(l) =>
        if Held(d, l) && CanFail(d, l.job, l.step) {
          FailStepOk(hash, d, l);
        }
  }

  lemma OutsideSafe(hash: Bytes -> string, d: Durable, o: Outside)
    requires DurableInv(hash, d) && OutsideMove(d, o).Some?
    ensures DurableInv(hash, OutsideMove(d, o).value) && Rely(d, OutsideMove(d, o).value)
  {
    match o
    case Edit(v, manifest) => EditDraftOk(hash, d, v, manifest);
    case Enqueue(v, j) => EnqueueVersionOk(hash, d, v, j);
    case Retry(j) => RetryJobOk(hash, d, j);
    case Trust(digest, bytes) => TrustBlobOk(hash, d, digest, bytes);
  }

  // ---------------------------------------------------------------- the whole system

  type ActorId = nat

  datatype System = System(d: Durable, pcs: map<ActorId, Pc>)

  datatype SystemStep = By(a: ActorId, c: Choice) | Around(o: Outside)

  const INIT: System := System(EMPTY, map[])

  function PcOf(s: System, a: ActorId): Pc {
    if a in s.pcs then s.pcs[a] else Idle
  }

  function Exec(hash: Bytes -> string, s: System, step: SystemStep): Option<System> {
    match step
    case By(a, c) =>
      var r := Move(hash, s.d, PcOf(s, a), c);
      if r == None then None else Some(System(r.value.0, s.pcs[a := r.value.1]))
    case Around(o) =>
      var d := OutsideMove(s.d, o);
      if d == None then None else Some(s.(d := d.value))
  }

  /** One step of anybody. */
  ghost predicate Next(hash: Bytes -> string, s: System, t: System) {
    exists step: SystemStep :: Exec(hash, s, step) == Some(t)
  }

  ghost function NextOf(hash: Bytes -> string): (System, System) -> bool {
    (s, t) => Next(hash, s, t)
  }

  ghost predicate Evolves(hash: Bytes -> string, s: System, t: System) {
    Runs.Evolves(NextOf(hash), s, t)
  }

  ghost predicate Reachable(hash: Bytes -> string, s: System) {
    Evolves(hash, INIT, s)
  }

  predicate SameStep(l: Lease, m: Lease) {
    l.job == m.job && l.step == m.step
  }

  /** No two workers ever hold the same attempt of a step, even under one worker identity. */
  predicate DistinctAttempts(s: System) {
    forall a, b | a in s.pcs && b in s.pcs && a != b && s.pcs[a] != Idle && s.pcs[b] != Idle ::
      SameStep(s.pcs[a].lease, s.pcs[b].lease) ==> s.pcs[a].lease.attempt != s.pcs[b].lease.attempt
  }

  ghost predicate Inv(hash: Bytes -> string, s: System) {
    && DurableInv(hash, s.d)
    && (forall a <- s.pcs :: PcInv(hash, s.d, s.pcs[a]))
    && DistinctAttempts(s)
  }

  lemma OthersKeepKnowledge(hash: Bytes -> string, s: System, e: Durable)
    requires Inv(hash, s) && Rely(s.d, e)
    ensures forall a | a in s.pcs :: PcInv(hash, e, s.pcs[a])
  {
    forall a | a in s.pcs ensures PcInv(hash, e, s.pcs[a]) {
      KnowledgeIsStable(hash, s.d, e, s.pcs[a]);
    }
  }

  /** A claim hands out an attempt nobody has had before. */
  lemma AttemptsStayDistinct(hash: Bytes -> string, s: System, a: ActorId, c: Choice)
    requires Inv(hash, s) && Exec(hash, s, By(a, c)).Some?
    ensures DistinctAttempts(Exec(hash, s, By(a, c)).value)
  {
    var t := Exec(hash, s, By(a, c)).value;
    forall b | b in t.pcs && b != a && t.pcs[a] != Idle && t.pcs[b] != Idle && SameStep(t.pcs[a].lease, t.pcs[b].lease)
      ensures t.pcs[a].lease.attempt != t.pcs[b].lease.attempt
    {
      assert PcInv(hash, s.d, s.pcs[b]) && LeaseOk(s.d, s.pcs[b].lease);
      if !c.Claim? {
        assert t.pcs[a].lease == s.pcs[a].lease;
      }
    }
  }

  lemma StepKeepsInv(hash: Bytes -> string, s: System, step: SystemStep)
    requires Inv(hash, s) && Exec(hash, s, step).Some?
    ensures Inv(hash, Exec(hash, s, step).value) && Rely(s.d, Exec(hash, s, step).value.d)
  {
    var t := Exec(hash, s, step).value;
    match step
    case By(a, c) =>
      MoveSafe(hash, s.d, PcOf(s, a), c);
      OthersKeepKnowledge(hash, s, t.d);
      AttemptsStayDistinct(hash, s, a, c);
    case Around(o) =>
      OutsideSafe(hash, s.d, o);
      OthersKeepKnowledge(hash, s, t.d);
  }

  ghost function InvOf(hash: Bytes -> string): System -> bool {
    s => Inv(hash, s)
  }

  ghost function KeptOf(): (System, System) -> bool {
    (s: System, t: System) => Rely(s.d, t.d)
  }

  lemma StepsKeepInv(hash: Bytes -> string)
    ensures Runs.StepsKeep(NextOf(hash), InvOf(hash), KeptOf())
    ensures Runs.IsPreorder(KeptOf())
  {
    forall s: System, t: System | NextOf(hash)(s, t) && InvOf(hash)(s) ensures InvOf(hash)(t) && KeptOf()(s, t) {
      var step: SystemStep :| Exec(hash, s, step) == Some(t);
      StepKeepsInv(hash, s, step);
    }
    forall s: System ensures KeptOf()(s, s) {
      RelyReflexive(s.d);
    }
    forall s: System, t: System, u: System | KeptOf()(s, t) && KeptOf()(t, u) ensures KeptOf()(s, u) {
      RelyTransitive(s.d, t.d, u.d);
    }
  }

  /** Every run from an admissible state stays admissible and undoes nothing. */
  lemma EvolutionIsSafe(hash: Bytes -> string, s: System, t: System)
    requires Inv(hash, s) && Evolves(hash, s, t)
    ensures Inv(hash, t) && Rely(s.d, t.d)
  {
    var run: seq<System> :| Runs.IsRun(NextOf(hash), run) && run[0] == s && run[|run| - 1] == t;
    StepsKeepInv(hash);
    Runs.RunsKeep(NextOf(hash), InvOf(hash), KeptOf(), run, |run| - 1);
  }

  lemma ReachableIsSafe(hash: Bytes -> string, s: System)
    requires Reachable(hash, s)
    ensures Inv(hash, s)
  {
    EvolutionIsSafe(hash, INIT, s);
  }

  // ---------------------------------------------------------------- what follows for every run

  /** The step that `pc` works on, under a lease it still holds. */
  predicate Holds(d: Durable, pc: Pc, j: Uuid, i: nat) {
    pc != Idle && pc.lease.job == j && pc.lease.step == i && Held(d, pc.lease)
  }

  predicate Claims(c: Choice, j: Uuid, i: nat, before: Step, after: Step) {
    && c.Claim? && c.job == j && c.step == i
    && after.attempts == before.attempts + 1
    && after.lockedBy == Some(c.worker) && after.lockedAt == c.now
  }

  lemma MoveChangesItsOwnStep(hash: Bytes -> string, d: Durable, pc: Pc, c: Choice, j: Uuid, i: nat)
    requires Move(hash, d, pc, c).Some? && HasStep(d, j, i)
    ensures var e := Move(hash, d, pc, c).value.0;
      && HasStep(e, j, i)
      && (e.jobs[j].steps[i] == d.jobs[j].steps[i]
          || Claims(c, j, i, d.jobs[j].steps[i], e.jobs[j].steps[i])
          || Holds(d, pc, j, i))
  {
  }

  lemma OnlyRetryReachesSteps(d: Durable, o: Outside, j: Uuid, i: nat)
    requires OutsideMove(d, o).Some? && HasStep(d, j, i)
    ensures var e := OutsideMove(d, o).value;
      HasStep(e, j, i) && (e.jobs[j].steps[i] == d.jobs[j].steps[i] || (o == Retry(j) && d.jobs[j].state == JobFailed))
  {
  }

  lemma FailedJobsRest(hash: Bytes -> string, d: Durable, j: Uuid, i: nat)
    requires DurableInv(hash, d) && HasStep(d, j, i) && d.jobs[j].state == JobFailed
    ensures d.jobs[j].steps[i].state != Running
  {
    assert JobOk(hash, d, j);
    var steps := d.jobs[j].steps;
    assert steps[i].state == Running ==> AnyRunning(steps);
  }

  /** Fencing: a step changes only by a claim, which raises its attempt; by the worker that holds its lease; or by
      a retry of its failed job, while nobody runs it. */
  lemma OnlyTheHolderChangesAStep(hash: Bytes -> string, s: System, action: SystemStep, j: Uuid, i: nat)
    requires Reachable(hash, s) && Exec(hash, s, action).Some? && HasStep(s.d, j, i)
    ensures var t := Exec(hash, s, action).value;
      && HasStep(t.d, j, i)
      && var before, after := s.d.jobs[j].steps[i], t.d.jobs[j].steps[i];
      match action
      case By(a, c) => after == before || Claims(c, j, i, before, after) || Holds(s.d, PcOf(s, a), j, i)
      case Around(o) => after == before || (o == Retry(j) && before.state != Running)
  {
    match action
    case By(a, c) => MoveChangesItsOwnStep(hash, s.d, PcOf(s, a), c, j, i);
    case Around(o) =>
      OnlyRetryReachesSteps(s.d, o, j, i);
      if s.d.jobs[j].state == JobFailed {
        ReachableIsSafe(hash, s);
        FailedJobsRest(hash, s.d, j, i);
      }
  }

  /** At any moment at most one worker holds the lease of a step. */
  lemma LeasesAreExclusive(hash: Bytes -> string, s: System, a: ActorId, b: ActorId)
    requires Reachable(hash, s) && a in s.pcs && b in s.pcs && s.pcs[a] != Idle && s.pcs[b] != Idle
    requires SameStep(s.pcs[a].lease, s.pcs[b].lease) && Held(s.d, s.pcs[a].lease) && Held(s.d, s.pcs[b].lease)
    ensures a == b
  {
    ReachableIsSafe(hash, s);
  }

  /** A lease once lost, through a stale reclaim, a retry or the end of its attempt, is never held again; its
      worker changes nothing any more. */
  lemma LostLeasesStayLost(hash: Bytes -> string, s: System, t: System, a: ActorId, report: Report)
    requires Reachable(hash, s) && Evolves(hash, s, t) && a in s.pcs && s.pcs[a] != Idle
    requires !Held(s.d, s.pcs[a].lease)
    ensures !Held(t.d, s.pcs[a].lease)
    ensures PcOf(t, a) != Idle && PcOf(t, a).lease == s.pcs[a].lease ==>
      Move(hash, t.d, PcOf(t, a), Reply(report)).value.0 == t.d
  {
    ReachableIsSafe(hash, s);
    EvolutionIsSafe(hash, s, t);
    var l := s.pcs[a].lease;
    assert PcInv(hash, s.d, s.pcs[a]);
    assert JobKept(s.d, t.d, l.job);
    assert StepKept(s.d.jobs[l.job].steps[l.step], t.d.jobs[l.job].steps[l.step]);
  }

  lemma FreshLocksAreLeftAlone(hash: Bytes -> string, d: Durable, pc: Pc, c: Choice, j: Uuid, i: nat)
    requires c.Claim? && c.job == j && c.step == i && HasStep(d, j, i) && Move(hash, d, pc, c).Some?
    requires d.jobs[j].steps[i].state == Running && c.staleBefore < d.jobs[j].steps[i].lockedAt
    ensures Move(hash, d, pc, c) == Some((d, Idle))
  {
  }

  /** A claim made at `now` is safe from every worker that takes for stale only what was locked before it: while the
      attempt it handed out runs, in whatever state of whatever run, such a claim finds nothing and changes nothing. */
  lemma LiveLeasesAreSafe(hash: Bytes -> string, s: System, a: ActorId, c: Choice, u: System, t: System, b: ActorId, e: Choice)
    requires Reachable(hash, s) && c.Claim? && HasStep(s.d, c.job, c.step)
    requires Exec(hash, s, By(a, c)) == Some(u) && PcOf(u, a) != Idle
    requires Evolves(hash, u, t) && HasStep(t.d, c.job, c.step)
    requires var step := t.d.jobs[c.job].steps[c.step];
      step.state == Running && step.attempts == s.d.jobs[c.job].steps[c.step].attempts + 1
    requires e.Claim? && e.job == c.job && e.step == c.step && e.staleBefore < c.now
    ensures t.d.jobs[c.job].steps[c.step].lockedBy == Some(c.worker)
    ensures Exec(hash, t, By(b, e)).Some? ==> Exec(hash, t, By(b, e)).value.d == t.d && PcOf(Exec(hash, t, By(b, e)).value, b) == Idle
  {
    ReachableIsSafe(hash, s);
    StepKeepsInv(hash, s, By(a, c));
    EvolutionIsSafe(hash, u, t);
    MoveChangesItsOwnStep(hash, s.d, PcOf(s, a), c, c.job, c.step);
    assert JobKept(u.d, t.d, c.job);
    assert StepKept(u.d.jobs[c.job].steps[c.step], t.d.jobs[c.job].steps[c.step]);
    if Exec(hash, t, By(b, e)).Some? {
      FreshLocksAreLeftAlone(hash, t.d, PcOf(t, b), e, c.job, c.step);
    }
  }

  /** A step that succeeded stays as it is, so the failure report a worker sends after a commit whose reply was lost
      changes nothing. */
  lemma SuccessIsNeverTurnedIntoFailure(hash: Bytes -> string, s: System, t: System, j: Uuid, i: nat)
    requires Reachable(hash, s) && Evolves(hash, s, t) && HasStep(s.d, j, i) && s.d.jobs[j].steps[i].state == Succeeded
    ensures HasStep(t.d, j, i) && t.d.jobs[j].steps[i] == s.d.jobs[j].steps[i]
    ensures forall l: Lease, report: Report | l.job == j && l.step == i ::
      Move(hash, t.d, Failing(l), Reply(report)) == Some((t.d, Idle))
  {
    ReachableIsSafe(hash, s);
    EvolutionIsSafe(hash, s, t);
    assert JobKept(s.d, t.d, j);
    assert StepKept(s.d.jobs[j].steps[i], t.d.jobs[j].steps[i]);
  }

  /** In every run the three steps of a job happen one after the other: a step that has left the queue has only
      succeeded steps before it, and those never change again, through failures, retries and stale reclaims. */
  lemma StepsHappenInSequence(hash: Bytes -> string, s: System, t: System, j: Uuid)
    requires Reachable(hash, s) && Evolves(hash, s, t) && j in s.d.jobs
    ensures Shape(s.d.jobs[j].steps) && InSequence(s.d.jobs[j].steps)
    ensures j in t.d.jobs && Shape(t.d.jobs[j].steps)
    ensures forall a, b | 0 <= a < b < 3 && s.d.jobs[j].steps[b].state != Queued ::
      s.d.jobs[j].steps[a].state == Succeeded && t.d.jobs[j].steps[a] == s.d.jobs[j].steps[a]
  {
    ReachableIsSafe(hash, s);
    EvolutionIsSafe(hash, s, t);
    assert JobOk(hash, s.d, j) && JobKept(s.d, t.d, j) && JobOk(hash, t.d, j);
    forall a | 0 <= a < 3 ensures StepKept(s.d.jobs[j].steps[a], t.d.jobs[j].steps[a]) {
    }
  }

  lemma JobOfPublished(hash: Bytes -> string, d: Durable, v: Uuid) returns (j: Uuid)
    requires DurableInv(hash, d) && v in d.versions && d.versions[v].state == Published
    ensures IsJobOf(d, j, v) && JobOk(hash, d, j)
  {
    assert VersionOk(d, v);
    j :| IsJobOf(d, j, v);
  }

  lemma SucceededJobIsComplete(hash: Bytes -> string, d: Durable, j: Uuid)
    requires j in d.jobs && JobOk(hash, d, j)
    ensures d.versions[d.jobs[j].version].state == Published ==>
      d.jobs[j].state == JobSucceeded && forall i | 0 <= i < |d.jobs[j].steps| :: d.jobs[j].steps[i].state == Succeeded
  {
  }

  /** A version is published only after its one job has run the three steps in order and all have succeeded. */
  lemma PublishedOnlyInSequence(hash: Bytes -> string, s: System, v: Uuid) returns (j: Uuid)
    requires Reachable(hash, s) && v in s.d.versions && s.d.versions[v].state == Published
    ensures IsJobOf(s.d, j, v) && s.d.jobs[j].state == JobSucceeded
    ensures Shape(s.d.jobs[j].steps) && InSequence(s.d.jobs[j].steps)
    ensures forall i | 0 <= i < |s.d.jobs[j].steps| :: s.d.jobs[j].steps[i].state == Succeeded
    ensures forall k | IsJobOf(s.d, k, v) :: k == j
  {
    ReachableIsSafe(hash, s);
    j := JobOfPublished(hash, s.d, v);
    SucceededJobIsComplete(hash, s.d, j);
  }

  /** Exactly the manifest: what readers see of a published version is the projection of the manifest frozen when it
      was enqueued, now and in every later state, whatever retries and lost leases there were. */
  lemma PublishedRowsAreTheFrozenProjection(hash: Bytes -> string, s: System, t: System, v: Uuid)
    requires Reachable(hash, s) && Evolves(hash, s, t) && v in s.d.versions && s.d.versions[v].state == Published
    ensures v in s.d.frozen && VisibleRows(s.d, v).Some?
    ensures Projection(hash, s.d.trusted, s.d.frozen[v]) == Ok(VisibleRows(s.d, v).value)
    ensures VisibleRows(t.d, v) == VisibleRows(s.d, v)
  {
    ReachableIsSafe(hash, s);
    EvolutionIsSafe(hash, s, t);
    var j := PublishedOnlyInSequence(hash, s, v);
    assert JobOk(hash, s.d, j) && JobKept(s.d, t.d, j);
    assert StepKept(s.d.jobs[j].steps[1], t.d.jobs[j].steps[1]);
    assert JobOk(hash, t.d, j);
    ProjectionStable(hash, s.d.trusted, t.d.trusted, s.d.frozen[v], Selected(s.d.frozen[v].artifacts));
  }

  /** The manifest of a version never changes after it was enqueued. */
  lemma EnqueueFreezes(hash: Bytes -> string, s: System, t: System, v: Uuid)
    requires Reachable(hash, s) && Evolves(hash, s, t) && v in s.d.versions && s.d.versions[v].state != Draft
    ensures v in t.d.versions && t.d.versions[v].state != Draft
    ensures t.d.versions[v].manifest == s.d.versions[v].manifest
  {
    ReachableIsSafe(hash, s);
    EvolutionIsSafe(hash, s, t);
    assert VersionOk(s.d, v) && VersionOk(t.d, v);
  }
}
