/** Publish-time Incus indexing (internal/materialization/incus/indexer.go): which artifacts become projection
    rows, and the memo table of combined checksums, against a reader that logs every blob it is asked for. */
module Indexer {
  import opened Catalog
  import opened Keys
  import opened Memo
  import opened Text
  import opened Wrappers

  const NIL_UUID: Uuid := "00000000-0000-0000-0000-000000000000"

  const METADATA_ITEM_NAME := "incus.tar.xz"

  /** The stored columns of a projection row. */
  datatype Row = Row(
    versionId: Uuid, artifactId: Uuid, metadataAttachmentId: Uuid,
    imageName: string, version: string, operatingSystem: string, architecture: string, variant: string,
    metadataPath: string, diskPath: string,
    metadataSha256: string, metadataSize: int, diskSha256: string, diskSize: int, combinedSha256: string)

  datatype IndexError = InvalidParams | NoManifest | BadDigest(digest: Digest) | BlobUnavailable(digest: Digest) | ReadFailed

  predicate HexChar(c: char) {
    '0' <= c <= '9' || 'a' <= c <= 'f' || 'A' <= c <= 'F'
  }

  /** `digestSHA256Hex`. The decoder it uses also takes upper-case digits, although its error text says lower-case. */
  function DigestSha256Hex(digest: Digest): Option<string> {
    if |digest| == 71 && digest[..7] == "sha256:" && forall k | 7 <= k < 71 :: HexChar(digest[k]) then Some(digest[7..])
    else None
  }

  function AttachmentPath(manifest: Manifest, artifact: Uuid, attachment: Uuid): string {
    "v1/images/" + manifest.imageName + "/versions/" + manifest.version + "/artifacts/" + artifact
    + "/attachments/" + attachment + "/download"
  }

  function ArtifactPath(manifest: Manifest, artifact: Uuid): string {
    "v1/images/" + manifest.imageName + "/versions/" + manifest.version + "/artifacts/" + artifact + "/download"
  }

  /** The first attachment that carries the Incus metadata. */
  predicate IsMetadata(attachments: seq<Attachment>, i: nat) {
    && i < |attachments|
    && attachments[i].name == METADATA_ITEM_NAME
    && forall j | 0 <= j < i :: attachments[j].name != METADATA_ITEM_NAME
  }

  method FindMetadataAttachment(attachments: seq<Attachment>) returns (r: Option<Attachment>)
    ensures r.Some? ==> exists i: nat :: IsMetadata(attachments, i) && r.value == attachments[i]
    ensures r == None <==> forall a <- attachments :: a.name != "incus.tar.xz"
    ensures r == MetadataOf(attachments)
  {
    for i := 0 to |attachments|
      invariant forall j | 0 <= j < i :: attachments[j].name != METADATA_ITEM_NAME
      invariant MetadataOf(attachments) == MetadataOf(attachments[i..])
    {
      if attachments[i].name == METADATA_ITEM_NAME {
        assert IsMetadata(attachments, i);
        return Some(attachments[i]);
      }
      assert attachments[i..][1..] == attachments[i + 1..];
    }
    return None;
  }

  function MetadataOf(attachments: seq<Attachment>): Option<Attachment> {
    if attachments == [] then None
    else if attachments[0].name == METADATA_ITEM_NAME then Some(attachments[0])
    else MetadataOf(attachments[1..])
  }

  // ---------------------------------------------------------------- the projection, without a cache

  /** The disk images that have Incus metadata, in manifest order. */
  function Selected(artifacts: seq<ManifestArtifact>): seq<(Artifact, Attachment)> {
    if artifacts == [] then []
    else
      var last := artifacts[|artifacts| - 1];
      var metadata := MetadataOf(last.attachments);
      Selected(artifacts[..|artifacts| - 1])
      + (if last.artifact.format == Qcow2 && metadata.Some? then [(last.artifact, metadata.value)] else [])
  }

  function Combined(hash: Bytes -> string, blobs: map<Digest, Bytes>, metadata: Digest, disk: Digest):
      Result<string, IndexError>
  {
    if metadata !in blobs then Err(BlobUnavailable(metadata))
    else if disk !in blobs then Err(BlobUnavailable(disk))
    else Ok(hash(blobs[metadata] + blobs[disk]))
  }

  function MakeRow(manifest: Manifest, artifact: Artifact, metadata: Attachment,
                   metadataSha256: string, diskSha256: string, combined: string): Row {
    Row(manifest.versionId, artifact.id, metadata.id,
        manifest.imageName, manifest.version,
        artifact.operatingSystem, artifact.architecture, NormalizeArtifactVariant(artifact.variant),
        AttachmentPath(manifest, artifact.id, metadata.id), ArtifactPath(manifest, artifact.id),
        metadataSha256, metadata.size, diskSha256, artifact.primarySize, combined)
  }

  function RowFor(hash: Bytes -> string, blobs: map<Digest, Bytes>, manifest: Manifest,
                  artifact: Artifact, metadata: Attachment): Result<Row, IndexError> {
    var metadataHex, diskHex := DigestSha256Hex(metadata.digest), DigestSha256Hex(artifact.primaryDigest);
    if metadataHex == None then Err(BadDigest(metadata.digest))
    else if diskHex == None then Err(BadDigest(artifact.primaryDigest))
    else
      var combined := Combined(hash, blobs, metadata.digest, artifact.primaryDigest);
      if combined.Err? then Err(combined.error)
      else Ok(MakeRow(manifest, artifact, metadata, metadataHex.value, diskHex.value, combined.value))
  }

  /** One row for each selected artifact, in order, or the error of the first that has none. */
  function Rows(hash: Bytes -> string, blobs: map<Digest, Bytes>, manifest: Manifest,
                selected: seq<(Artifact, Attachment)>): (r: Result<seq<Row>, IndexError>)
    ensures r.Ok? ==> |r.value| == |selected|
  {
    if selected == [] then Ok([])
    else
      var front := Rows(hash, blobs, manifest, selected[..|selected| - 1]);
      var (artifact, metadata) := selected[|selected| - 1];
      var last := RowFor(hash, blobs, manifest, artifact, metadata);
      if front.Err? then front
      else if last.Err? then Err(last.error)
      else Ok(front.value + [last.value])
  }

  function Projection(hash: Bytes -> string, blobs: map<Digest, Bytes>, manifest: Manifest): Result<seq<Row>, IndexError> {
    Rows(hash, blobs, manifest, Selected(manifest.artifacts))
  }

  /** Selecting from a longer list extends the selection. */
  lemma {:induction false} SelectedPrefix(artifacts: seq<ManifestArtifact>, i: nat)
    requires i <= |artifacts|
    ensures Selected(artifacts[..i]) <= Selected(artifacts)
    decreases |artifacts|
  {
    if i < |artifacts| {
      var front := artifacts[..|artifacts| - 1];
      SelectedPrefix(front, i);
      assert front[..i] == artifacts[..i];
    } else {
      assert artifacts[..i] == artifacts;
    }
  }

  /** The first failure decides the outcome. */
  lemma {:induction false} FirstErrorDecides(hash: Bytes -> string, blobs: map<Digest, Bytes>, manifest: Manifest,
                                             some: seq<(Artifact, Attachment)>, all: seq<(Artifact, Attachment)>)
    requires some <= all && Rows(hash, blobs, manifest, some).Err?
    ensures Rows(hash, blobs, manifest, all) == Rows(hash, blobs, manifest, some)
    decreases |all|
  {
    if |some| < |all| {
      FirstErrorDecides(hash, blobs, manifest, some, all[..|all| - 1]);
    } else {
      assert some == all;
    }
  }

  predicate Eligible(a: ManifestArtifact) {
    a.artifact.format == Qcow2 && MetadataOf(a.attachments).Some?
  }

  function Entry(a: ManifestArtifact): (Artifact, Attachment)
    requires Eligible(a)
  {
    (a.artifact, MetadataOf(a.attachments).value)
  }

  lemma SelectedExtends(artifacts: seq<ManifestArtifact>, i: nat)
    requires i < |artifacts| && Eligible(artifacts[i])
    ensures Selected(artifacts[..i + 1]) == Selected(artifacts[..i]) + [Entry(artifacts[i])]
  {
    assert artifacts[..i + 1][..i] == artifacts[..i];
  }

  lemma RowsExtend(hash: Bytes -> string, blobs: map<Digest, Bytes>, manifest: Manifest,
                   selected: seq<(Artifact, Attachment)>, entry: (Artifact, Attachment))
    requires Rows(hash, blobs, manifest, selected).Ok?
    ensures var row := RowFor(hash, blobs, manifest, entry.0, entry.1);
      Rows(hash, blobs, manifest, selected + [entry])
        == if row.Ok? then Ok(Rows(hash, blobs, manifest, selected).value + [row.value]) else Err(row.error)
  {
    assert (selected + [entry])[..|selected|] == selected;
  }

  /** An eligible artifact adds its row, or its error is the outcome of the whole projection. */
  lemma NextRow(hash: Bytes -> string, blobs: map<Digest, Bytes>, manifest: Manifest,
                artifacts: seq<ManifestArtifact>, i: nat, rows: seq<Row>)
    requires i < |artifacts| && Eligible(artifacts[i])
    requires Rows(hash, blobs, manifest, Selected(artifacts[..i])) == Ok(rows)
    ensures var row := RowFor(hash, blobs, manifest, artifacts[i].artifact, MetadataOf(artifacts[i].attachments).value);
      if row.Ok? then Rows(hash, blobs, manifest, Selected(artifacts[..i + 1])) == Ok(rows + [row.value])
      else Rows(hash, blobs, manifest, Selected(artifacts)) == Err(row.error)
  {
    var before := Selected(artifacts[..i]);
    SelectedExtends(artifacts, i);
    RowsExtend(hash, blobs, manifest, before, Entry(artifacts[i]));
    if Rows(hash, blobs, manifest, Selected(artifacts[..i + 1])).Err? {
      SelectedPrefix(artifacts, i + 1);
      FirstErrorDecides(hash, blobs, manifest, Selected(artifacts[..i + 1]), Selected(artifacts));
    }
  }

  function CountSkipped(artifacts: seq<ManifestArtifact>, byFormat: bool): nat {
    if artifacts == [] then 0
    else
      var last := artifacts[|artifacts| - 1];
      CountSkipped(artifacts[..|artifacts| - 1], byFormat)
      + (if !Eligible(last) && byFormat == (last.artifact.format != Qcow2) then 1 else 0)
  }

  lemma Skips(artifacts: seq<ManifestArtifact>, i: nat)
    requires i < |artifacts| && !Eligible(artifacts[i])
    ensures Selected(artifacts[..i + 1]) == Selected(artifacts[..i])
    ensures var byFormat := artifacts[i].artifact.format != Qcow2;
      && CountSkipped(artifacts[..i + 1], byFormat) == CountSkipped(artifacts[..i], byFormat) + 1
      && CountSkipped(artifacts[..i + 1], !byFormat) == CountSkipped(artifacts[..i], !byFormat)
  {
    assert artifacts[..i + 1][..i] == artifacts[..i];
  }

  lemma SkipsNothing(artifacts: seq<ManifestArtifact>, i: nat)
    requires i < |artifacts| && Eligible(artifacts[i])
    ensures CountSkipped(artifacts[..i + 1], true) == CountSkipped(artifacts[..i], true)
    ensures CountSkipped(artifacts[..i + 1], false) == CountSkipped(artifacts[..i], false)
  {
    assert artifacts[..i + 1][..i] == artifacts[..i];
  }

  lemma {:induction false} CountsAddUp(artifacts: seq<ManifestArtifact>)
    ensures |Selected(artifacts)| + CountSkipped(artifacts, true) + CountSkipped(artifacts, false) == |artifacts|
  {
    if artifacts != [] {
      CountsAddUp(artifacts[..|artifacts| - 1]);
    }
  }

  /** Every selected pair comes from one artifact of the list. */
  lemma {:induction false} SelectedComeFrom(artifacts: seq<ManifestArtifact>, k: nat) returns (i: nat)
    requires k < |Selected(artifacts)|
    ensures i < |artifacts|
    ensures Selected(artifacts)[k].0 == artifacts[i].artifact && Selected(artifacts)[k].1 in artifacts[i].attachments
  {
    var n := |artifacts| - 1;
    if k < |Selected(artifacts[..n])| {
      i := SelectedComeFrom(artifacts[..n], k);
    } else {
      i := n;
      MetadataIsAttached(artifacts[n].attachments);
    }
  }

  lemma {:induction false} SelectedAreDistinct(artifacts: seq<ManifestArtifact>, k: nat, m: nat)
    requires forall i, j | 0 <= i < j < |artifacts| :: artifacts[i].artifact.id != artifacts[j].artifact.id
    requires k < m < |Selected(artifacts)|
    ensures Selected(artifacts)[k].0.id != Selected(artifacts)[m].0.id
  {
    var n := |artifacts| - 1;
    if m < |Selected(artifacts[..n])| {
      SelectedAreDistinct(artifacts[..n], k, m);
    } else {
      var i := SelectedComeFrom(artifacts[..n], k);
    }
  }

  lemma {:induction false} MetadataIsAttached(attachments: seq<Attachment>)
    ensures MetadataOf(attachments).Some? ==> MetadataOf(attachments).value in attachments
  {
    if attachments != [] {
      MetadataIsAttached(attachments[1..]);
    }
  }

  /** A row says of its artifact what a mirror has to know: whose image and version it is, what it runs on, both digests,
      sizes and paths, and the checksum of the metadata followed by the disk. */
  ghost predicate IsAbout(row: Row, hash: Bytes -> string, blobs: map<Digest, Bytes>, manifest: Manifest,
                          artifact: Artifact, metadata: Attachment)
  {
    && row.versionId == manifest.versionId && row.artifactId == artifact.id && row.metadataAttachmentId == metadata.id
    && row.imageName == manifest.imageName && row.version == manifest.version
    && row.operatingSystem == artifact.operatingSystem && row.architecture == artifact.architecture
    && row.variant == (if artifact.variant == "" then "default" else artifact.variant)
    && "sha256:" + row.metadataSha256 == metadata.digest && row.metadataSize == metadata.size
    && "sha256:" + row.diskSha256 == artifact.primaryDigest && row.diskSize == artifact.primarySize
    && metadata.digest in blobs && artifact.primaryDigest in blobs
    && row.combinedSha256 == hash(blobs[metadata.digest] + blobs[artifact.primaryDigest])
    && var root := "v1/images/" + row.imageName + "/versions/" + row.version + "/artifacts/" + row.artifactId;
    && row.diskPath == root + "/download"
    && row.metadataPath == root + "/attachments/" + row.metadataAttachmentId + "/download"
  }

  lemma RowIsAboutItsArtifact(hash: Bytes -> string, blobs: map<Digest, Bytes>, manifest: Manifest,
                              artifact: Artifact, metadata: Attachment)
    requires RowFor(hash, blobs, manifest, artifact, metadata).Ok?
    ensures IsAbout(RowFor(hash, blobs, manifest, artifact, metadata).value, hash, blobs, manifest, artifact, metadata)
  {
    var row := RowFor(hash, blobs, manifest, artifact, metadata).value;
    assert metadata.digest == metadata.digest[..7] + metadata.digest[7..];
    assert artifact.primaryDigest == artifact.primaryDigest[..7] + artifact.primaryDigest[7..];
    var root := "v1/images/" + row.imageName + "/versions/" + row.version + "/artifacts/" + row.artifactId;
    assert row.diskPath == root + "/download";
    assert row.metadataPath == root + "/attachments/" + row.metadataAttachmentId + "/download";
  }

  /** The k-th row is the row of the k-th selected artifact, and about it. */
  lemma {:induction false} RowsDescribeTheirArtifacts(hash: Bytes -> string, blobs: map<Digest, Bytes>, manifest: Manifest,
                                                      selected: seq<(Artifact, Attachment)>, k: nat)
    requires Rows(hash, blobs, manifest, selected).Ok? && k < |selected|
    ensures var row := Rows(hash, blobs, manifest, selected).value[k];
      && Ok(row) == RowFor(hash, blobs, manifest, selected[k].0, selected[k].1)
      && IsAbout(row, hash, blobs, manifest, selected[k].0, selected[k].1)
  {
    if k < |selected| - 1 {
      RowsDescribeTheirArtifacts(hash, blobs, manifest, selected[..|selected| - 1], k);
    } else {
      RowIsAboutItsArtifact(hash, blobs, manifest, selected[k].0, selected[k].1);
    }
  }

  /** The digests the catalog accepts pass, with their own digits; so do others, in upper case. */
  lemma ValidDigestIsHex(digest: Digest)
    requires ValidDigest(digest)
    ensures DigestSha256Hex(digest) == Some(digest[7..])
  {
    assert digest[..7] == "sha256:";
    forall k | 7 <= k < 71 ensures HexChar(digest[k]) {
      assert LowerHex(digest[k]);
    }
  }

  predicate UpperHex(c: char) {
    'A' <= c <= 'F'
  }

  /** Upper-case digits are all that sets the check apart from the catalog's: a digest it accepts is a catalog digest
      if and only if it has none of them. */
  lemma LowerCaseDigestsAreValid(digest: Digest)
    ensures DigestSha256Hex(digest).Some? && (forall k | 7 <= k < |digest| :: !UpperHex(digest[k])) <==> ValidDigest(digest)
  {
    assert ValidDigest(digest) ==> digest[..7] == "sha256:";
  }

  lemma UpperCaseDigestsPass()
    ensures exists digest: Digest :: !ValidDigest(digest) && DigestSha256Hex(digest).Some?
  {
    var digest := "sha256:" + seq(64, _ => 'A');
    assert digest[..7] == "sha256:" && digest[7] == 'A';
    assert DigestSha256Hex(digest).Some? && !ValidDigest(digest);
  }

  // ---------------------------------------------------------------- the indexer

  type BlobPair = (Digest, Digest)

  /** The metadata and the disk of a selected artifact. */
  function PairOf(entry: (Artifact, Attachment)): BlobPair {
    (entry.1.digest, entry.0.primaryDigest)
  }

  /** The pairs that the rows of a manifest need, in order. */
  function PairsOf(artifacts: seq<ManifestArtifact>): seq<BlobPair> {
    var selected := Selected(artifacts);
    seq(|selected|, i requires 0 <= i < |selected| => PairOf(selected[i]))
  }

  /** The blobs that hashing every pair of a list reads, in order. */
  function ReadsOf(pairs: seq<BlobPair>): seq<Digest> {
    if pairs == [] then [] else ReadsOf(pairs[..|pairs| - 1]) + [pairs[|pairs| - 1].0, pairs[|pairs| - 1].1]
  }

  lemma {:induction false} ReadsOfPrefix(some: seq<BlobPair>, all: seq<BlobPair>)
    requires some <= all
    ensures ReadsOf(some) <= ReadsOf(all)
    decreases |all|
  {
    if |some| < |all| {
      ReadsOfPrefix(some, all[..|all| - 1]);
    } else {
      assert some == all;
    }
  }

  lemma NextPair(artifacts: seq<ManifestArtifact>, i: nat)
    requires i < |artifacts| && Eligible(artifacts[i])
    ensures PairsOf(artifacts[..i + 1]) == PairsOf(artifacts[..i]) + [PairOf(Entry(artifacts[i]))]
    ensures PairsOf(artifacts[..i]) + [PairOf(Entry(artifacts[i]))] <= PairsOf(artifacts)
  {
    SelectedExtends(artifacts, i);
    SelectedPrefix(artifacts, i + 1);
  }

  /** The reads for `pair` when those of `done` are done. */
  function NewReads(done: set<BlobPair>, pair: BlobPair): seq<Digest> {
    if pair in done then [] else [pair.0, pair.1]
  }

  lemma ReadsOneMore(pairs: seq<BlobPair>, pair: BlobPair)
    ensures ReadsOf(Firsts(pairs + [pair])) == ReadsOf(Firsts(pairs)) + NewReads(Members(pairs), pair)
  {
    FirstsOneMore(pairs, pair);
    assert (Firsts(pairs) + [pair])[..|Firsts(pairs)|] == Firsts(pairs);
  }

  /** Exactly the pairs of the list are in the table, and each was read once, where it first occurs. */
  ghost predicate ReadOnce(pairs: seq<BlobPair>, table: set<BlobPair>, was: seq<Digest>, now: seq<Digest>) {
    table == Members(pairs) && now == was + ReadsOf(Firsts(pairs))
  }

  lemma ReadOnceAdvances(pairs: seq<BlobPair>, pair: BlobPair, table: set<BlobPair>,
                         was: seq<Digest>, before: seq<Digest>, now: seq<Digest>)
    requires ReadOnce(pairs, table, was, before) && now == before + NewReads(table, pair)
    ensures ReadOnce(pairs + [pair], table + {pair}, was, now)
  {
    ReadsOneMore(pairs, pair);
    OneMoreMember(pairs, pair);
  }

  lemma PrefixLifts<T>(was: seq<T>, done: seq<T>, more: seq<T>, all: seq<T>, now: seq<T>)
    requires was + done <= now <= was + done + more && done + more <= all
    ensures was <= now <= was + all
  {
    forall i | 0 <= i < |now| ensures now[i] == (was + all)[i] {
      assert now[i] == (was + done + more)[i];
      if |was| <= i {
        assert (done + more)[i - |was|] == all[i - |was|];
      }
    }
    forall i | 0 <= i < |was| ensures now[i] == was[i] {
      assert now[i] == (was + done)[i];
    }
  }

  lemma ReadOnceStops(pairs: seq<BlobPair>, pair: BlobPair, all: seq<BlobPair>, table: set<BlobPair>,
                      was: seq<Digest>, before: seq<Digest>, now: seq<Digest>)
    requires ReadOnce(pairs, table, was, before) && before <= now <= before + NewReads(table, pair)
    requires pairs + [pair] <= all
    ensures was <= now <= was + ReadsOf(Firsts(all))
  {
    ReadsOneMore(pairs, pair);
    FirstsOfPrefix(pairs + [pair], all);
    ReadsOfPrefix(Firsts(pairs + [pair]), Firsts(all));
    PrefixLifts(was, ReadsOf(Firsts(pairs)), NewReads(table, pair), ReadsOf(Firsts(all)), now);
  }

  /** The trusted blobs. */
  class BlobReader {
    const blobs: map<Digest, Bytes>
    // which of the coming reads fail although the blob is there; when used up, none does
    var faults: seq<bool>
    // every blob that was asked for
    ghost var asked: seq<Digest>

    constructor (trusted: map<Digest, Bytes>, failures: seq<bool>)
      ensures blobs == trusted && faults == failures && asked == []
    {
      blobs, faults, asked := trusted, failures, [];
    }

    method OpenBlob(digest: Digest) returns (r: Result<Bytes, IndexError>)
      modifies this
      ensures asked == old(asked) + [digest]
      ensures r.Ok? ==> digest in blobs && r.value == blobs[digest]
      ensures old(faults) == [] ==>
        faults == [] && r == if digest in blobs then Ok(blobs[digest]) else Err(BlobUnavailable(digest))
      ensures r == Err(ReadFailed) || (digest !in blobs && r == Err(BlobUnavailable(digest))) || r.Ok?
    {
      asked := asked + [digest];
      if faults != [] {
        var failing := faults[0];
        faults := faults[1..];
        if failing {
          return Err(ReadFailed);
        }
      }
      return if digest in blobs then Ok(blobs[digest]) else Err(BlobUnavailable(digest));
    }
  }

  class IndexState {
    const hash: Bytes -> string
    const reader: BlobReader
    var combinedSha256: map<BlobPair, string>

    /** The memo table holds what hashing would give. */
    ghost predicate Valid()
      reads this
    {
      forall k <- combinedSha256 :: Combined(hash, reader.blobs, k.0, k.1) == Ok(combinedSha256[k])
    }

    constructor (h: Bytes -> string, blobReader: BlobReader)
      ensures Valid() && hash == h && reader == blobReader && combinedSha256 == map[]
    {
      hash, reader, combinedSha256 := h, blobReader, map[];
    }

    /** `combinedDiskSHA256`: what comes out is what hashing would give; a pair in the table is not read again, and a
        pair that was read is in the table. */
    method CombinedDiskSha256(metadata: Digest, disk: Digest) returns (r: Result<string, IndexError>)
      requires Valid()
      modifies this, reader
      ensures Valid()
      ensures r == Err(ReadFailed) || r == Combined(hash, reader.blobs, metadata, disk)
      ensures old(reader.faults) == [] ==> reader.faults == [] && r == Combined(hash, reader.blobs, metadata, disk)
      ensures combinedSha256 == if r.Ok? then old(combinedSha256)[(metadata, disk) := r.value] else old(combinedSha256)
      ensures (metadata, disk) in old(combinedSha256) ==> r.Ok?
      ensures var wanted := NewReads(old(combinedSha256.Keys), (metadata, disk));
        && old(reader.asked) <= reader.asked <= old(reader.asked) + wanted
        && (r.Ok? ==> reader.asked == old(reader.asked) + wanted)
    {
      var key := (metadata, disk);
      if key in combinedSha256 {
        return Ok(combinedSha256[key]);
      }
      var metadataBytes := reader.OpenBlob(metadata);
      if metadataBytes.Err? {
        return Err(metadataBytes.error);
      }
      var diskBytes := reader.OpenBlob(disk);
      if diskBytes.Err? {
        return Err(diskBytes.error);
      }
      var value := hash(metadataBytes.value + diskBytes.value);
      combinedSha256 := combinedSha256[key := value];
      return Ok(value);
    }

    method RowForArtifact(manifest: Manifest, artifact: Artifact, metadata: Attachment) returns (r: Result<Row, IndexError>)
      requires Valid()
      modifies this, reader
      ensures Valid()
      ensures r == Err(ReadFailed) || r == RowFor(hash, reader.blobs, manifest, artifact, metadata)
      ensures old(reader.faults) == [] ==>
        reader.faults == [] && r == RowFor(hash, reader.blobs, manifest, artifact, metadata)
      ensures var pair := PairOf((artifact, metadata));
        var wanted := NewReads(old(combinedSha256.Keys), pair);
        && old(reader.asked) <= reader.asked <= old(reader.asked) + wanted
        && (r.Ok? ==> reader.asked == old(reader.asked) + wanted)
        && combinedSha256 == (if r.Ok? then old(combinedSha256)[pair := r.value.combinedSha256] else old(combinedSha256))
        && combinedSha256.Keys == old(combinedSha256.Keys) + if r.Ok? then {pair} else {}
    {
      var metadataHex := DigestSha256Hex(metadata.digest);
      if metadataHex == None {
        return Err(BadDigest(metadata.digest));
      }
      var diskHex := DigestSha256Hex(artifact.primaryDigest);
      if diskHex == None {
        return Err(BadDigest(artifact.primaryDigest));
      }
      var combined := CombinedDiskSha256(metadata.digest, artifact.primaryDigest);
      if combined.Err? {
        return Err(combined.error);
      }
      return Ok(MakeRow(manifest, artifact, metadata, metadataHex.value, diskHex.value, combined.value));
    }

    /** The row of the next eligible artifact, seen from the whole manifest. */
    method NextArtifact(manifest: Manifest, i: nat, metadata: Attachment, rows: seq<Row>, ghost was: seq<Digest>)
        returns (r: Result<Row, IndexError>)
      requires Valid() && i < |manifest.artifacts|
      requires Eligible(manifest.artifacts[i]) && MetadataOf(manifest.artifacts[i].attachments) == Some(metadata)
      requires Rows(hash, reader.blobs, manifest, Selected(manifest.artifacts[..i])) == Ok(rows)
      requires ReadOnce(PairsOf(manifest.artifacts[..i]), combinedSha256.Keys, was, reader.asked)
      modifies this, reader
      ensures Valid()
      ensures r.Ok? ==>
        && Rows(hash, reader.blobs, manifest, Selected(manifest.artifacts[..i + 1])) == Ok(rows + [r.value])
        && ReadOnce(PairsOf(manifest.artifacts[..i + 1]), combinedSha256.Keys, was, reader.asked)
      ensures r.Err? ==>
        && (r.error == ReadFailed || Projection(hash, reader.blobs, manifest) == Err(r.error))
        && was <= reader.asked <= was + ReadsOf(Firsts(PairsOf(manifest.artifacts)))
      ensures old(reader.faults) == [] ==>
        reader.faults == [] && (r.Err? ==> Projection(hash, reader.blobs, manifest) == Err(r.error))
    {
      ghost var pairs, pair := PairsOf(manifest.artifacts[..i]), PairOf(Entry(manifest.artifacts[i]));
      ghost var table, before := combinedSha256.Keys, reader.asked;
      r := RowForArtifact(manifest, manifest.artifacts[i].artifact, metadata);
      NextRow(hash, reader.blobs, manifest, manifest.artifacts, i, rows);
      NextPair(manifest.artifacts, i);
      if r.Ok? {
        ReadOnceAdvances(pairs, pair, table, was, before, reader.asked);
      } else {
        ReadOnceStops(pairs, pair, PairsOf(manifest.artifacts), table, was, before, reader.asked);
      }
    }
  }

  /** `IndexVersion` over the manifest it loaded: the rows are the uncached projection, unless a read failed; every
      artifact is projected or counted as skipped; and the blobs of each pair are read once, where the pair first
      occurs, up to the first error. */
  method IndexManifest(hash: Bytes -> string, reader: BlobReader, manifest: Manifest)
      returns (r: Result<seq<Row>, IndexError>, skippedFormat: nat, skippedMetadata: nat)
    modifies reader
    ensures r == Err(ReadFailed) || r == Projection(hash, reader.blobs, manifest)
    ensures old(reader.faults) == [] ==> r == Projection(hash, reader.blobs, manifest)
    ensures r.Ok? ==> |r.value| + skippedFormat + skippedMetadata == |manifest.artifacts|
    ensures r.Ok? ==>
      && skippedFormat == CountSkipped(manifest.artifacts, true)
      && skippedMetadata == CountSkipped(manifest.artifacts, false)
    ensures old(reader.asked) <= reader.asked <= old(reader.asked) + ReadsOf(Firsts(PairsOf(manifest.artifacts)))
    ensures r.Ok? ==> reader.asked == old(reader.asked) + ReadsOf(Firsts(PairsOf(manifest.artifacts)))
  {
    var state := new IndexState(hash, reader);
    var artifacts := manifest.artifacts;
    var rows: seq<Row> := [];
    skippedFormat, skippedMetadata := 0, 0;
    for i := 0 to |artifacts|
      invariant fresh(state) && state.Valid() && state.hash == hash && state.reader == reader
      invariant old(reader.faults) == [] ==> reader.faults == []
      invariant Rows(hash, reader.blobs, manifest, Selected(artifacts[..i])) == Ok(rows)
      invariant skippedFormat == CountSkipped(artifacts[..i], true)
      invariant skippedMetadata == CountSkipped(artifacts[..i], false)
      invariant ReadOnce(PairsOf(artifacts[..i]), state.combinedSha256.Keys, old(reader.asked), reader.asked)
    {
      var artifact := artifacts[i].artifact;
      if artifact.format != Qcow2 {
        Skips(artifacts, i);
        skippedFormat := skippedFormat + 1;
        continue;
      }
      var metadata := FindMetadataAttachment(artifacts[i].attachments);
      if metadata == None {
        Skips(artifacts, i);
        skippedMetadata := skippedMetadata + 1;
        continue;
      }
      SkipsNothing(artifacts, i);
      var row := state.NextArtifact(manifest, i, metadata.value, rows, old(reader.asked));
      if row.Err? {
        return Err(row.error), skippedFormat, skippedMetadata;
      }
      rows := rows + [row.value];
    }
    assert artifacts[..|artifacts|] == artifacts;
    CountsAddUp(artifacts);
    return Ok(rows), skippedFormat, skippedMetadata;
  }

  /** `IndexVersion`: validation and the manifest lookup, then the projection. */
  method IndexVersion(hash: Bytes -> string, reader: BlobReader,
                      catalog: map<(string, string), Manifest>, imageName: string, version: string, versionId: Uuid)
      returns (r: Result<seq<Row>, IndexError>)
    modifies reader
    ensures !ValidImageName(imageName) || !ValidVersion(version) || versionId == NIL_UUID ==> r == Err(InvalidParams)
    ensures ValidImageName(imageName) && ValidVersion(version) && versionId != NIL_UUID ==>
      if (imageName, version) !in catalog then r == Err(NoManifest)
      else
        && (r == Err(ReadFailed) || r == Projection(hash, reader.blobs, catalog[(imageName, version)]))
        && (old(reader.faults) == [] ==> r == Projection(hash, reader.blobs, catalog[(imageName, version)]))
    ensures !ValidImageName(imageName) || !ValidVersion(version) || versionId == NIL_UUID || (imageName, version) !in catalog ==>
      reader.asked == old(reader.asked)
  {
    if !ValidImageName(imageName) || !ValidVersion(version) || versionId == NIL_UUID {
      return Err(InvalidParams);
    }
    if (imageName, version) !in catalog {
      return Err(NoManifest);
    }
    var rows, _, _ := IndexManifest(hash, reader, catalog[(imageName, version)]);
    return rows;
  }
}
