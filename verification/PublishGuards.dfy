/** What single transactions of the publish workflow refuse or do whatever state the tables are in, reachable or not. */
module PublishGuards {
  import opened Catalog
  import opened Indexer
  import opened Keys
  import opened PublishJourney
  import opened PublishProtocol
  import opened PublishState
  import opened Wrappers

  /** The step runs under this worker and this attempt. */
  predicate RunsUnder(d: Durable, l: Lease) {
    && l.job in d.jobs && l.step < |d.jobs[l.job].steps|
    && var step := d.jobs[l.job].steps[l.step];
    step.state == Running && step.lockedBy == Some(l.worker) && step.attempts == l.attempt
  }

  /** A worker whose step does not run under its own name and attempt changes nothing, whatever it tries. */
  lemma StrangersAreFencedOff(hash: Bytes -> string, d: Durable, pc: Pc, report: Report)
    requires pc != Idle && !RunsUnder(d, pc.lease)
    ensures Move(hash, d, pc, Reply(report)).Some? && Move(hash, d, pc, Reply(report)).value.0 == d
  {
  }

  /** Validation checks again that every blob is there. */
  lemma ValidationChecksAgain(hash: Bytes -> string, d: Durable, l: Lease, report: Report)
    requires l.name == ValidateCatalog && Move(hash, d, Executing(l), Reply(report)).Some?
    ensures Move(hash, d, Executing(l), Reply(report)).value.0 != d ==>
      && RunsUnder(d, l) && d.jobs[l.job].steps[l.step].name == ValidateCatalog
      && d.jobs[l.job].version in d.versions
      && Backed(d.trusted, d.versions[d.jobs[l.job].version].manifest)
  {
    if l.job in d.jobs && d.jobs[l.job].version in d.versions {
      BackedIsPublishable(d.trusted, d.versions[d.jobs[l.job].version].manifest);
    }
  }

  /** Rows are stored only for the version of the job, and no two for one artifact. */
  lemma StoringChecksRows(hash: Bytes -> string, d: Durable, l: Lease, rows: seq<Row>, report: Report)
    requires Move(hash, d, Storing(l, rows), Reply(report)).Some?
    ensures Move(hash, d, Storing(l, rows), Reply(report)).value.0 != d ==>
      && RunsUnder(d, l) && d.jobs[l.job].version == l.version
      && (forall i | 0 <= i < |rows| :: rows[i].versionId == l.version)
      && (forall i, k | 0 <= i < k < |rows| :: rows[i].artifactId != rows[k].artifactId)
  {
    if Move(hash, d, Storing(l, rows), Reply(report)).value.0 != d {
      forall i | 0 <= i < |rows| ensures rows[i].versionId == l.version {
        assert rows[i] in rows;
      }
    }
  }

  /** A version is published only while it is publishing, by its running job, after every blocking step before the last. */
  lemma FinalizingChecksAgain(hash: Bytes -> string, d: Durable, l: Lease, report: Report)
    requires l.name == FinalizePublish && Move(hash, d, Executing(l), Reply(report)).Some?
    ensures Move(hash, d, Executing(l), Reply(report)).value.0 != d ==>
      && RunsUnder(d, l)
      && var job := d.jobs[l.job];
      && job.state == JobRunning
      && job.version in d.versions && d.versions[job.version].state == Publishing
      && forall k | 0 <= k < |job.steps| && job.steps[k].sequence < job.steps[l.step].sequence && job.steps[k].blocking ::
           job.steps[k].state == Succeeded
  {
  }

  /** A claim takes only a step that waits or whose lock is stale, of a job that is not over, after every blocking step
      before it. */
  lemma ClaimsCheck(hash: Bytes -> string, d: Durable, c: Choice)
    requires c.Claim? && Move(hash, d, Idle, c).Some? && Move(hash, d, Idle, c).value.1 != Idle
    ensures c.job in d.jobs && c.step < |d.jobs[c.job].steps|
    ensures var job, step := d.jobs[c.job], d.jobs[c.job].steps[c.step];
      && (job.state == JobQueued || job.state == JobRunning)
      && (step.state == Queued || (step.state == Running && step.lockedAt <= c.staleBefore))
      && forall k | 0 <= k < |job.steps| && job.steps[k].sequence < step.sequence && job.steps[k].blocking ::
           job.steps[k].state == Succeeded
  {
  }

  /** The first failed blocking step of a list. */
  lemma {:induction false} FirstFailedIsFirst(steps: seq<Step>, i: nat)
    requires i < |steps| && steps[i].state == Failed && steps[i].blocking
    requires forall k | 0 <= k < i :: !(steps[k].state == Failed && steps[k].blocking)
    ensures FirstFailed(steps) == Some(steps[i].sequence)
  {
    if i > 0 {
      FirstFailedIsFirst(steps[1..], i - 1);
    }
  }

  lemma {:induction false} NothingFailed(steps: seq<Step>)
    requires forall k | 0 <= k < |steps| :: !(steps[k].state == Failed && steps[k].blocking)
    ensures FirstFailed(steps) == None
  {
    if steps != [] {
      NothingFailed(steps[1..]);
    }
  }

  /** A retry queues the job of a version that is still publishing, and of its steps those from the first failure on that
      have not succeeded, with their attempts kept; nothing else is touched. */
  lemma RetryRequeues(hash: Bytes -> string, d: Durable, j: Uuid, i: nat)
    requires OutsideMove(d, Retry(j)).Some?
    requires j in d.jobs ==> i < |d.jobs[j].steps| && FailsFirst(d.jobs[j].steps, i)
    ensures j in d.jobs && d.jobs[j].state == JobFailed
    ensures var job, e := d.jobs[j], OutsideMove(d, Retry(j)).value;
      && job.version in d.versions && d.versions[job.version].state == Publishing
      && j in e.jobs && |e.jobs[j].steps| == |job.steps|
      && e == d.(jobs := d.jobs[j := Job(job.version, JobQueued, e.jobs[j].steps)])
      && forall k | 0 <= k < |job.steps| ::
           e.jobs[j].steps[k]
           == if job.steps[k].sequence < job.steps[i].sequence || job.steps[k].state == Succeeded then job.steps[k]
              else job.steps[k].(state := Queued, lockedBy := None)
  {
    FirstFailedIsFirst(d.jobs[j].steps, i);
  }

  /** The i-th step is the first failed blocking one. */
  predicate FailsFirst(steps: seq<Step>, i: nat)
    requires i < |steps|
  {
    steps[i].state == Failed && steps[i].blocking && forall k | 0 <= k < i :: !(steps[k].state == Failed && steps[k].blocking)
  }

  /** A failure is recorded only for a job that is not over, and then ends it. */
  lemma FailuresEndOpenJobs(hash: Bytes -> string, d: Durable, l: Lease, report: Report)
    ensures Move(hash, d, Failing(l), Reply(report)).Some?
    ensures var e := Move(hash, d, Failing(l), Reply(report)).value.0;
      e != d ==>
        && RunsUnder(d, l)
        && var job := d.jobs[l.job];
        && (job.state == JobQueued || job.state == JobRunning)
        && e == d.(jobs := d.jobs[l.job :=
             job.(state := JobFailed, steps := job.steps[l.step := job.steps[l.step].(state := Failed, lockedBy := None)])])
  {
    if Move(hash, d, Failing(l), Reply(report)).value.0 != d {
      var job := d.jobs[l.job];
      var steps := job.steps[l.step := job.steps[l.step].(state := Failed, lockedBy := None)];
      assert d.jobs[l.job := job.(steps := steps)][l.job := job.(state := JobFailed, steps := steps)]
          == d.jobs[l.job := job.(state := JobFailed, steps := steps)];
    }
  }

  /** Whoever claims gets the step under a new attempt, locked in its name at the time of the claim; all other steps are
      as they were. */
  lemma ClaimsLock(hash: Bytes -> string, d: Durable, c: Choice)
    requires c.Claim? && Move(hash, d, Idle, c).Some? && Move(hash, d, Idle, c).value.1 != Idle
    ensures c.job in d.jobs && c.step < |d.jobs[c.job].steps|
    ensures var (e, next) := Move(hash, d, Idle, c).value;
      var job, step := d.jobs[c.job], d.jobs[c.job].steps[c.step];
      && e == d.(jobs := d.jobs[c.job := job.(state := JobRunning, steps := job.steps[c.step :=
           Step(step.name, step.sequence, step.blocking, Running, step.attempts + 1, Some(c.worker), c.now)])])
      && next == Executing(Lease(c.job, c.step, step.name, job.version, c.worker, step.attempts + 1))
  {
    var job, step := d.jobs[c.job], d.jobs[c.job].steps[c.step];
    var locked := Step(step.name, step.sequence, step.blocking, Running, step.attempts + 1, Some(c.worker), c.now);
    var steps := job.steps[c.step := locked];
    assert d.jobs[c.job := job.(steps := steps)][c.job := job.(state := JobRunning, steps := steps)]
        == d.jobs[c.job := job.(state := JobRunning, steps := steps)];
  }
}
