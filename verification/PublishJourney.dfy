/** The whole way of a version: what may be drafted and enqueued, and that what is enqueued is published as it was
    drafted, for readers to see and not before. */
module PublishJourney {
  import opened Catalog
  import opened Indexer
  import opened Keys
  import opened ProductNames
  import opened PublishProtocol
  import opened PublishRuns
  import opened PublishState
  import opened PublishWorker
  import Runs
  import opened Wrappers

  // ---------------------------------------------------------------- drafts

  /** What the catalog promises of a manifest of version `v`. */
  predicate Proper(manifest: Manifest, v: Uuid) {
    && manifest.versionId == v && ValidImageName(manifest.imageName) && ValidVersion(manifest.version)
    && forall i | 0 <= i < |manifest.artifacts| ::
        var a := manifest.artifacts[i];
        && ValidToken(a.artifact.operatingSystem) && ValidToken(a.artifact.architecture)
        && (a.artifact.variant == "" || ValidToken(a.artifact.variant))
        && ValidDigest(a.artifact.primaryDigest)
        && (forall k | 0 <= k < |a.attachments| :: ValidDigest(a.attachments[k].digest))
        && forall j | 0 <= j < i :: manifest.artifacts[j].artifact.id != a.artifact.id
  }

  lemma ProperIsWellFormed(manifest: Manifest, v: Uuid)
    ensures Proper(manifest, v) <==> WellFormed(manifest, v)
  {
    if Proper(manifest, v) {
      forall a | a in manifest.artifacts
        ensures ValidToken(a.artifact.operatingSystem) && ValidToken(a.artifact.architecture)
        ensures a.artifact.variant == "" || ValidToken(a.artifact.variant)
        ensures ValidDigest(a.artifact.primaryDigest) && forall t <- a.attachments :: ValidDigest(t.digest)
      {
        var i :| 0 <= i < |manifest.artifacts| && manifest.artifacts[i] == a;
      }
      forall i, j | 0 <= i < j < |manifest.artifacts|
        ensures manifest.artifacts[i].artifact.id != manifest.artifacts[j].artifact.id
      {
        assert Proper(manifest, v);
      }
    }
    if WellFormed(manifest, v) {
      forall i | 0 <= i < |manifest.artifacts|
        ensures manifest.artifacts[i] in manifest.artifacts
        ensures forall k | 0 <= k < |manifest.artifacts[i].attachments| :: ValidDigest(manifest.artifacts[i].attachments[k].digest)
      {
        var a := manifest.artifacts[i];
        assert a in manifest.artifacts;
        forall k | 0 <= k < |a.attachments| ensures ValidDigest(a.attachments[k].digest) {
          assert a.attachments[k] in a.attachments;
        }
      }
    }
  }

  /** Exactly proper manifests are accepted, for a new version or for a draft of the same name; the draft then has that
      manifest, and nothing else is touched. */
  lemma ProperDraftsAreStored(hash: Bytes -> string, s: System, v: Uuid, manifest: Manifest)
    ensures var versions := s.d.versions;
      Exec(hash, s, Around(Edit(v, manifest)))
      == if Proper(manifest, v)
            && (v in versions ==>
                  && versions[v].state == Draft
                  && versions[v].manifest.imageName == manifest.imageName
                  && versions[v].manifest.version == manifest.version)
         then Some(s.(d := s.d.(versions := versions[v := Version(Draft, manifest)])))
         else None
  {
    ProperIsWellFormed(manifest, v);
  }

  /** A blob is there with exactly the size the manifest says. */
  predicate IsThere(trusted: map<Digest, Bytes>, digest: Digest, size: int) {
    digest in trusted && |trusted[digest]| == size
  }

  /** Every blob the manifest names is there, and it names at least one. */
  predicate Backed(trusted: map<Digest, Bytes>, manifest: Manifest) {
    && manifest.artifacts != []
    && forall i | 0 <= i < |manifest.artifacts| ::
        var a := manifest.artifacts[i];
        && IsThere(trusted, a.artifact.primaryDigest, a.artifact.primarySize)
        && forall k | 0 <= k < |a.attachments| :: IsThere(trusted, a.attachments[k].digest, a.attachments[k].size)
  }

  lemma BackedIsPublishable(trusted: map<Digest, Bytes>, manifest: Manifest)
    ensures Backed(trusted, manifest) <==> Publishable(trusted, manifest)
  {
    if Backed(trusted, manifest) {
      forall a | a in manifest.artifacts
        ensures Verified(trusted, a.artifact.primaryDigest, a.artifact.primarySize)
        ensures forall t <- a.attachments :: Verified(trusted, t.digest, t.size)
      {
        var i :| 0 <= i < |manifest.artifacts| && manifest.artifacts[i] == a;
        forall t | t in a.attachments ensures Verified(trusted, t.digest, t.size) {
          var k :| 0 <= k < |a.attachments| && a.attachments[k] == t;
          assert IsThere(trusted, a.attachments[k].digest, a.attachments[k].size);
        }
      }
    }
    if Publishable(trusted, manifest) {
      forall i | 0 <= i < |manifest.artifacts|
        ensures IsThere(trusted, manifest.artifacts[i].artifact.primaryDigest, manifest.artifacts[i].artifact.primarySize)
        ensures forall k | 0 <= k < |manifest.artifacts[i].attachments| ::
          IsThere(trusted, manifest.artifacts[i].attachments[k].digest, manifest.artifacts[i].attachments[k].size)
      {
        var a := manifest.artifacts[i];
        assert a in manifest.artifacts;
        forall k | 0 <= k < |a.attachments| ensures IsThere(trusted, a.attachments[k].digest, a.attachments[k].size) {
          assert a.attachments[k] in a.attachments;
        }
      }
    }
  }

  function Waiting(name: StepName, sequence: int): Step {
    Step(name, sequence, true, Queued, 0, None, 0)
  }

  /** Exactly drafts whose blobs are all there can be enqueued; the version is then frozen with three steps waiting. */
  lemma BackedDraftsAreEnqueued(hash: Bytes -> string, s: System, v: Uuid, j: Uuid)
    ensures Exec(hash, s, Around(Enqueue(v, j)))
      == if v in s.d.versions && s.d.versions[v].state == Draft && Backed(s.d.trusted, s.d.versions[v].manifest) && j !in s.d.jobs
         then
           var manifest := s.d.versions[v].manifest;
           var steps := [Waiting(ValidateCatalog, 10), Waiting(IncusIndex, 20), Waiting(FinalizePublish, 30)];
           Some(s.(d := s.d.(versions := s.d.versions[v := Version(Publishing, manifest)],
                             jobs := s.d.jobs[j := Job(v, JobQueued, steps)],
                             frozen := s.d.frozen[v := manifest])))
         else None
  {
    if v in s.d.versions {
      BackedIsPublishable(s.d.trusted, s.d.versions[v].manifest);
    }
  }

  /** Verified blobs are only ever added. */
  lemma BlobsAreAdded(hash: Bytes -> string, s: System, digest: Digest, bytes: Bytes)
    ensures Exec(hash, s, Around(Trust(digest, bytes)))
      == Some(s.(d := s.d.(trusted := if digest in s.d.trusted then s.d.trusted else s.d.trusted[digest := bytes])))
  {
    if digest in s.d.trusted {
      assert s.d.(trusted := s.d.trusted) == s.d;
    }
  }

  // ---------------------------------------------------------------- what readers see

  /** In every reachable state readers see rows of a version if and only if it is published. */
  lemma OnlyPublishedIsVisible(hash: Bytes -> string, s: System, v: Uuid)
    requires Reachable(hash, s)
    ensures VisibleRows(s.d, v).Some? <==> v in s.d.versions && s.d.versions[v].state == Published
  {
    ReachableIsSafe(hash, s);
    if v in s.d.versions && s.d.versions[v].state == Published {
      var j := PublishedOnlyInSequence(hash, s, v);
      assert JobOk(hash, s.d, j);
      assert s.d.jobs[j].steps[1].state == Succeeded;
    }
  }

  /** What is published is proper, and every blob it names is there with the size it says. */
  lemma PublishedIsBacked(hash: Bytes -> string, s: System, v: Uuid)
    requires Reachable(hash, s) && v in s.d.versions && s.d.versions[v].state != Draft
    ensures Proper(s.d.versions[v].manifest, v) && Backed(s.d.trusted, s.d.versions[v].manifest)
  {
    ReachableIsSafe(hash, s);
    assert VersionOk(s.d, v);
    ProperIsWellFormed(s.d.versions[v].manifest, v);
    BackedIsPublishable(s.d.trusted, s.d.versions[v].manifest);
  }

  /** A valid row of version `v`, with the real sizes of the blobs it names and the checksum of the two together. */
  predicate IsTrue(hash: Bytes -> string, trusted: map<Digest, Bytes>, v: Uuid, row: Row) {
    && ValidRow(row) && row.versionId == v
    && IsThere(trusted, "sha256:" + row.metadataSha256, row.metadataSize)
    && IsThere(trusted, "sha256:" + row.diskSha256, row.diskSize)
    && row.combinedSha256 == hash(trusted["sha256:" + row.metadataSha256] + trusted["sha256:" + row.diskSha256])
  }

  lemma ProjectedRowsAreTrue(hash: Bytes -> string, trusted: map<Digest, Bytes>, manifest: Manifest, v: Uuid, k: nat)
    requires WellFormed(manifest, v) && Publishable(trusted, manifest)
    requires Projection(hash, trusted, manifest).Ok? && k < |Projection(hash, trusted, manifest).value|
    ensures IsTrue(hash, trusted, v, Projection(hash, trusted, manifest).value[k])
  {
    var selected := Selected(manifest.artifacts);
    RowsDescribeTheirArtifacts(hash, trusted, manifest, selected, k);
    var i := SelectedComeFrom(manifest.artifacts, k);
    assert manifest.artifacts[i] in manifest.artifacts;
    assert ValidToken("default");
  }

  /** The rows readers see are true. */
  lemma VisibleRowsAreTrue(hash: Bytes -> string, s: System, v: Uuid, k: nat)
    requires Reachable(hash, s) && VisibleRows(s.d, v).Some? && k < |VisibleRows(s.d, v).value|
    ensures IsTrue(hash, s.d.trusted, v, VisibleRows(s.d, v).value[k])
  {
    OnlyPublishedIsVisible(hash, s, v);
    Runs.StandStill(NextOf(hash), s);
    PublishedRowsAreTheFrozenProjection(hash, s, s, v);
    ReachableIsSafe(hash, s);
    assert VersionOk(s.d, v);
    ProjectedRowsAreTrue(hash, s.d.trusted, s.d.frozen[v], v, k);
  }

  // ---------------------------------------------------------------- the whole way

  /** A proper manifest whose blobs are all there is published, undisturbed, by one enqueue and three turns of a worker;
      readers then see exactly its projection. */
  method PublishManifest(w: World, a: ActorId, v: Uuid, j: Uuid, manifest: Manifest, worker: string, now: int, staleBefore: int)
    requires w.Valid() && w.quiet && PcOf(w.s, a) == Idle
    requires v !in w.s.d.versions && j !in w.s.d.jobs
    requires Proper(manifest, v) && Backed(w.s.d.trusted, manifest)
    modifies w
    ensures w.Valid() && v in w.s.d.versions && w.s.d.versions[v] == Version(Published, manifest)
    ensures VisibleRows(w.s.d, v).Some?
    ensures Projection(w.hash, w.s.d.trusted, manifest) == Ok(VisibleRows(w.s.d, v).value)
  {
    ProperDraftsAreStored(w.hash, w.s, v, manifest);
    w.Act(Edit(v, manifest));
    BackedDraftsAreEnqueued(w.hash, w.s, v, j);
    w.Act(Enqueue(v, j));
    ghost var enqueued := w.s.d;
    RunUntilPublished(w, a, j, worker, now, staleBefore);
    assert VersionOk(w.s.d, v);
    assert w.s.d.frozen[v] == enqueued.frozen[v];
  }
}
