/** Server-side copy of internal/objectstore/s3/store.go against a bucket that others write to between any two
    of its calls. The bucket stands for an S3-compatible provider: it never reuses an entity tag, honours its
    conditional headers, and may refuse a call or lose a reply. */
module MultipartCopy {
  import opened CopyRanges
  import opened Int64
  import opened Text
  import opened Wrappers

  /** The error codes the adapter tells apart. */
  datatype Code =
    | PreconditionFailed | ConditionalRequestConflict
    | NoSuchBucket | NoSuchKey | NoSuchUpload
    | OtherCode

  datatype StoreError = Conflict | AlreadyExists | NotFound | Invalid(range: RangeError) | MissingETag | Unmapped(code: Code)

  function MapError(code: Code): StoreError {
    if code.NoSuchBucket? || code.NoSuchKey? || code.NoSuchUpload? then NotFound else Unmapped(code)
  }

  function MapSingleCopyError(code: Code): StoreError {
    if code.PreconditionFailed? || code.ConditionalRequestConflict? then Conflict else MapError(code)
  }

  function MapCopyError(code: Code, ifDestinationAbsent: bool): StoreError {
    if !ifDestinationAbsent then MapError(code)
    else if code.PreconditionFailed? then AlreadyExists
    else if code.ConditionalRequestConflict? then Conflict
    else MapError(code)
  }

  // ---------------------------------------------------------------- the bucket

  datatype Object = Object(bytes: Content, etag: string)

  datatype PartCopy = PartCopy(bytes: Bytes, etag: string)

  datatype Upload = Upload(key: string, parts: map<int, PartCopy>, active: bool)

  /** `issued` remembers the bytes every tag was given to; no code reads it. */
  datatype Bucket = Bucket(objects: map<string, Object>, uploads: seq<Upload>, issued: map<string, Content>)

  /** A tag names the bytes it was issued for. */
  ghost predicate Tagged(b: Bucket) {
    forall k <- b.objects :: b.objects[k].etag != "" ==>
      b.objects[k].etag in b.issued && b.issued[b.objects[k].etag] == b.objects[k].bytes && Tight(b.objects[k].etag)
  }

  function Write(b: Bucket, key: string, o: Object): Bucket {
    b.(objects := b.objects[key := o],
       issued := if o.etag == "" then b.issued else b.issued[o.etag := o.bytes])
  }

  predicate FreshTag(b: Bucket, etag: string) {
    Tight(etag) && etag !in b.issued
  }

  /** What anybody else may do to the objects of the bucket. */
  datatype Foreign = Put(key: string, o: Object) | Delete(key: string)

  function Apply(b: Bucket, f: Foreign): Bucket {
    match f
    case Put(key, o) => if FreshTag(b, o.etag) || o.etag == "" then Write(b, key, o) else b
    case Delete(key) => b.(objects := b.objects - {key})
  }

  function ApplyAll(b: Bucket, fs: seq<Foreign>): Bucket
    decreases |fs|
  {
    if fs == [] then b else ApplyAll(Apply(b, fs[0]), fs[1..])
  }

  /** What is left of `b` after any interference: tags keep their meaning, and a changed object is either
      untagged or carries a tag that did not exist before. */
  ghost predicate Disturbed(b: Bucket, e: Bucket) {
    && Tagged(e)
    && e.uploads == b.uploads
    && (forall t <- b.issued :: t in e.issued && e.issued[t] == b.issued[t])
    && (forall k <- e.objects ::
          || (k in b.objects && e.objects[k] == b.objects[k])
          || e.objects[k].etag == ""
          || e.objects[k].etag !in b.issued)
  }

  lemma {:induction false} InterferenceDisturbs(b: Bucket, fs: seq<Foreign>)
    requires Tagged(b)
    ensures Disturbed(b, ApplyAll(b, fs))
    decreases |fs|
  {
    if fs != [] {
      InterferenceDisturbs(Apply(b, fs[0]), fs[1..]);
    }
  }

  /** The range of an object of `size` bytes that carries `tag` can still be copied faithfully, or not at all:
      the source has moved on from the tag, and no write brings a tag back. */
  ghost predicate Pinned(b: Bucket, source: string, tag: string, size: int) {
    && tag in b.issued
    && (|b.issued[tag]| == size || (source in b.objects ==> b.objects[source].etag != tag))
  }

  lemma PinnedStays(b: Bucket, e: Bucket, source: string, tag: string, size: int)
    requires tag != "" && Disturbed(b, e) && Pinned(b, source, tag, size)
    ensures Pinned(e, source, tag, size) && e.issued[tag] == b.issued[tag]
  {
  }

  /** The ETags a completion lists agree with the parts the upload has. */
  predicate PartsMatch(parts: map<int, PartCopy>, listed: seq<(int, string)>) {
    forall i | 0 <= i < |listed| :: listed[i].0 in parts && parts[listed[i].0].etag == listed[i].1
  }

  function Assemble(parts: map<int, PartCopy>, listed: seq<(int, string)>): Bytes {
    if listed == [] then []
    else
      var last := listed[|listed| - 1].0;
      Assemble(parts, listed[..|listed| - 1]) + (if last in parts then parts[last].bytes else [])
  }

  predicate CanComplete(parts: map<int, PartCopy>, listed: seq<(int, string)>) {
    PartsMatch(parts, listed) && |Assemble(parts, listed)| <= MAX_INT64
  }

  predicate SourceMatches(b: Bucket, source: string, ifMatch: string) {
    source in b.objects && (ifMatch == "" || b.objects[source].etag == ifMatch)
  }

  /** How the provider ends a call: properly, properly but without a tag, with its reply lost after the call
      took effect, or with a refusal. */
  datatype Reply = Fine | Untagged | Lost | Refuse(code: Code)

  /** What others do before the next call, and how that call ends. */
  datatype Turn = Turn(others: seq<Foreign>, reply: Reply)

  function ReplyAt(script: seq<Turn>, i: nat): Reply {
    if i < |script| then script[i].reply else Fine
  }

  /** Every call was answered as `script` says. */
  ghost predicate Scripted(calls: seq<Call>, script: seq<Turn>) {
    calls == [] ||
    var last := |calls| - 1;
    calls[last].reply == ReplyAt(script, last) && Scripted(calls[..last], script)
  }

  lemma {:induction false} AnswersAreScripted(calls: seq<Call>, script: seq<Turn>, i: nat)
    requires Scripted(calls, script) && i < |calls|
    ensures calls[i].reply == ReplyAt(script, i)
  {
    if i < |calls| - 1 {
      AnswersAreScripted(calls[..|calls| - 1], script, i);
    }
  }

  /** The bucket as the next call finds it. */
  function Met(b: Bucket, script: seq<Turn>): Bucket {
    if script == [] then b else ApplyAll(b, script[0].others)
  }

  datatype Op = Stat | CopyInOne | Create(id: nat) | ReadPart(id: nat) | Complete(id: nat) | Abort(id: nat)

  /** A call that was made, and how the provider answered it. */
  datatype Call = Call(op: Op, reply: Reply)

  /** The only calls after which an upload of one's own stays open for good: its abort was refused, or its name was lost
      with the reply that created it. */
  predicate LeavesOpen(c: Call, id: nat) {
    (c.op == Abort(id) && c.reply.Refuse?) || (c.op == Create(id) && c.reply.Lost?)
  }

  /** What the adapter has to answer when the provider refuses a call: a conflict where the caller may recover by
      looking at what is there, an existing object only from a completion that asked for none. */
  predicate Tells<T(==)>(c: Call, ifDestinationAbsent: bool, r: Result<T, StoreError>) {
    c.reply.Refuse? && !c.op.Abort? ==>
      var code := c.reply.code;
      r == Err(
        if code == PreconditionFailed || code == ConditionalRequestConflict then
          if c.op.CopyInOne? || c.op.ReadPart? then Conflict
          else if c.op.Complete? && ifDestinationAbsent then
            (if code == PreconditionFailed then AlreadyExists else Conflict)
          else Unmapped(code)
        else if code == OtherCode then Unmapped(code)
        else NotFound)
  }

  /** The answer follows the last call but for the abort. */
  predicate ToldBy(made: nat, calls: seq<Call>, ifDestinationAbsent: bool, r: Result<Info, StoreError>) {
    made < |calls| ==>
      var last := |calls| - 1;
      if calls[last].op.Abort? then made < last && Tells(calls[last - 1], ifDestinationAbsent, r)
      else Tells(calls[last], ifDestinationAbsent, r)
  }

  /** A write to the bucket made by the copy itself. */
  datatype Commit = Commit(key: string, bytes: Bytes, replaced: bool)

  datatype Info = Info(size: int64, etag: string)

  datatype CopyParams = CopyParams(source: string, ifSourceETag: string, destination: string, ifDestinationAbsent: bool)

  /** The tag every read of the source is bound to: the caller's, or the one just observed. */
  function SourceMatchETag(params: CopyParams, info: Info): string {
    if Trim(params.ifSourceETag) != "" then Trim(params.ifSourceETag) else Trim(info.etag)
  }

  method NewTag(issued: map<string, Content>) returns (tag: string)
    ensures tag != "" && Tight(tag) && tag !in issued
  {
    var rest := issued.Keys;
    tag := "e";
    while rest != {}
      invariant rest <= issued.Keys
      invariant tag != "" && Tight(tag)
      invariant forall t | t in issued && t !in rest :: |t| < |tag|
      decreases rest
    {
      var t :| t in rest;
      rest := rest - {t};
      if |tag| <= |t| {
        tag := seq(|t| + 1, _ => 'e');
      }
    }
  }

  class Store {
    var bucket: Bucket
    // the future: what others do and how the provider answers; once it is used up, nobody interferes
    var script: seq<Turn>
    // the past: every call, and what this store has written
    ghost const future: seq<Turn>
    ghost var calls: seq<Call>
    ghost var commits: seq<Commit>

    /** The provider has answered as it was going to. */
    ghost predicate Valid()
      reads this
    {
      && Tagged(bucket)
      && script == (if |calls| < |future| then future[|calls|..] else [])
      && Scripted(calls, future)
    }

    constructor (initial: Bucket, turns: seq<Turn>)
      requires Tagged(initial)
      ensures Valid() && bucket == initial && script == future == turns && calls == [] && commits == []
    {
      bucket, script, future, calls, commits := initial, turns, turns, [], [];
    }

    method NextTurn(ghost op: Op) returns (reply: Reply)
      requires Valid()
      modifies `bucket, `script, `calls
      ensures Valid() && Disturbed(old(bucket), bucket) && bucket == Met(old(bucket), old(script))
      ensures calls == old(calls) + [Call(op, reply)]
      ensures old(script) == [] ==> script == [] && bucket == old(bucket) && reply == Fine
    {
      assert (calls + [Call(op, ReplyAt(script, 0))])[..|calls|] == calls;
      calls := calls + [Call(op, ReplyAt(script, 0))];
      InterferenceDisturbs(bucket, []);
      if script == [] {
        return Fine;
      }
      InterferenceDisturbs(bucket, script[0].others);
      bucket := ApplyAll(bucket, script[0].others);
      reply := script[0].reply;
      script := script[1..];
    }

    method StatObject(key: string) returns (r: Result<Info, Code>)
      requires Valid()
      modifies `bucket, `script, `calls
      ensures Valid() && Disturbed(old(bucket), bucket) && bucket == Met(old(bucket), old(script))
      ensures |calls| == |old(calls)| + 1 && calls[..|old(calls)|] == old(calls) && calls[|old(calls)|].op == Stat
      ensures calls[|old(calls)|].reply.Refuse? ==> r == Err(calls[|old(calls)|].reply.code)
      ensures r.Ok? ==> key in bucket.objects && r.value == Info(|bucket.objects[key].bytes|, bucket.objects[key].etag)
      ensures old(script) == [] ==>
        && script == [] && bucket == old(bucket)
        && (if key in bucket.objects then r.Ok? else r == Err(NoSuchKey))
    {
      var reply := NextTurn(Stat);
      if reply.Refuse? {
        return Err(reply.code);
      }
      if key !in bucket.objects {
        return Err(NoSuchKey);
      }
      return Ok(Info(|bucket.objects[key].bytes|, bucket.objects[key].etag));
    }

    method NewMultipartUpload(key: string) returns (r: Result<nat, Code>)
      requires Valid()
      modifies `bucket, `script, `calls
      ensures Valid() && Disturbed(old(bucket), bucket.(uploads := old(bucket.uploads)))
      ensures |calls| == |old(calls)| + 1 && calls[..|old(calls)|] == old(calls) && calls[|old(calls)|].op == Create(|old(bucket.uploads)|)
      ensures calls[|old(calls)|].reply.Refuse? ==> r == Err(calls[|old(calls)|].reply.code)
      ensures bucket.uploads ==
        if calls[|old(calls)|].reply.Refuse? then old(bucket.uploads) else old(bucket.uploads) + [Upload(key, map[], true)]
      ensures r.Ok? ==> r.value == |old(bucket.uploads)|
      ensures r.Err? <==> calls[|old(calls)|].reply.Refuse? || calls[|old(calls)|].reply.Lost?
      ensures old(script) == [] ==> r.Ok? && script == [] && bucket.objects == old(bucket.objects)
    {
      var reply := NextTurn(Create(|bucket.uploads|));
      if reply.Refuse? {
        return Err(reply.code);
      }
      var id := |bucket.uploads|;
      bucket := bucket.(uploads := bucket.uploads + [Upload(key, map[], true)]);
      r := if reply.Lost? then Err(OtherCode) else Ok(id);
    }

    /** `UploadPartCopy` of one range of the source, bound to a source tag when `ifMatch` is not empty. */
    method CopyObjectPart(source: string, id: nat, part: CopyPart, ifMatch: string) returns (r: Result<string, Code>)
      requires Valid() && id < |bucket.uploads| && bucket.uploads[id].active && 0 <= part.start && 0 <= part.size
      modifies `bucket, `script, `calls
      ensures Valid() && Disturbed(old(bucket), bucket.(uploads := old(bucket.uploads)))
      ensures |calls| == |old(calls)| + 1 && calls[..|old(calls)|] == old(calls) && calls[|old(calls)|].op == ReadPart(id)
      ensures calls[|old(calls)|].reply.Refuse? ==> r == Err(calls[|old(calls)|].reply.code)
      ensures |bucket.uploads| == |old(bucket.uploads)|
      ensures bucket.uploads == old(bucket.uploads)[id := old(bucket.uploads[id]).(parts := bucket.uploads[id].parts)]
      ensures r.Ok? ==>
        && SourceMatches(bucket, source, ifMatch)
        && part.start + part.size <= |bucket.objects[source].bytes|
        && bucket.uploads[id].parts == old(bucket.uploads[id].parts)[part.number :=
             PartCopy(bucket.objects[source].bytes[part.start..part.start + part.size], r.value)]
      ensures old(script) == [] ==>
        && script == [] && bucket.objects == old(bucket.objects) && bucket.issued == old(bucket.issued)
        && (SourceMatches(bucket, source, ifMatch) && part.start + part.size <= |bucket.objects[source].bytes| ==>
              r.Ok? && !IsBlank(r.value))
        && (source in bucket.objects && !SourceMatches(bucket, source, ifMatch) ==> r == Err(PreconditionFailed))
    {
      var reply := NextTurn(ReadPart(id));
      if reply.Refuse? {
        return Err(reply.code);
      }
      if source !in bucket.objects {
        return Err(NoSuchKey);
      }
      if !SourceMatches(bucket, source, ifMatch) {
        return Err(PreconditionFailed);
      }
      var bytes := bucket.objects[source].bytes;
      if |bytes| < part.start + part.size {
        return Err(OtherCode);
      }
      var etag := if reply.Untagged? then "" else "part";
      var upload := bucket.uploads[id];
      var parts := upload.parts[part.number := PartCopy(bytes[part.start..part.start + part.size], etag)];
      bucket := bucket.(uploads := bucket.uploads[id := upload.(parts := parts)]);
      r := if reply.Lost? then Err(OtherCode) else Ok(etag);
    }

    /** Puts `bytes` at `key` in one conditional write. */
    method WriteObject(key: string, bytes: Content, ifAbsent: bool, untagged: bool) returns (etag: string)
      requires Valid() && (ifAbsent ==> key !in bucket.objects)
      modifies `bucket, `commits
      ensures Valid()
      ensures bucket == Write(old(bucket), key, Object(bytes, etag)) && (etag == "" || FreshTag(old(bucket), etag))
      ensures commits == old(commits) + [Commit(key, bytes, key in old(bucket.objects))]
      ensures !untagged ==> etag != ""
    {
      etag := NewTag(bucket.issued);
      if untagged {
        etag := "";
      }
      commits := commits + [Commit(key, bytes, key in bucket.objects)];
      bucket := Write(bucket, key, Object(bytes, etag));
    }

    /** A completion either writes the assembled parts to the key of the upload, which is then over, or leaves
        the bucket alone. */
    method CompleteMultipartUpload(id: nat, listed: seq<(int, string)>, ifAbsent: bool) returns (r: Result<string, Code>)
      requires Valid() && id < |bucket.uploads| && bucket.uploads[id].active
      modifies this
      ensures Valid()
      ensures |calls| == |old(calls)| + 1 && calls[..|old(calls)|] == old(calls) && calls[|old(calls)|].op == Complete(id)
      ensures calls[|old(calls)|].reply.Refuse? ==> r == Err(calls[|old(calls)|].reply.code)
      ensures forall t <- old(bucket.issued) :: t in bucket.issued && bucket.issued[t] == old(bucket.issued[t])
      ensures var upload := old(bucket.uploads[id]);
        if commits != old(commits) then
          && (forall i | 0 <= i < |listed| :: listed[i].0 in upload.parts && upload.parts[listed[i].0].etag == listed[i].1)
          && |commits| == |old(commits)| + 1 && old(commits) <= commits
          && commits[|commits| - 1].key == upload.key
          && commits[|commits| - 1].bytes == Assemble(upload.parts, listed)
          && (ifAbsent ==> !commits[|commits| - 1].replaced)
          && bucket.uploads == old(bucket.uploads)[id := upload.(active := false)]
        else bucket.uploads == old(bucket.uploads)
      ensures r.Ok? ==> commits != old(commits)
      ensures old(script) == [] ==> script == [] && (r.Ok? <==> commits != old(commits))
      ensures old(script) == [] && CanComplete(old(bucket.uploads[id].parts), listed) ==>
        var upload := old(bucket.uploads[id]);
        if ifAbsent && upload.key in old(bucket.objects) then
          r == Err(PreconditionFailed) && bucket == old(bucket)
        else
          && r.Ok?
          && bucket.objects == old(bucket.objects)[upload.key := Object(Assemble(upload.parts, listed), r.value)]
    {
      var reply := NextTurn(Complete(id));
      if reply.Refuse? {
        return Err(reply.code);
      }
      var upload := bucket.uploads[id];
      if ifAbsent && upload.key in bucket.objects {
        return Err(PreconditionFailed);
      }
      var bytes := Assemble(upload.parts, listed);
      if !CanComplete(upload.parts, listed) {
        return Err(OtherCode);
      }
      var etag := WriteObject(upload.key, bytes, ifAbsent, reply.Untagged?);
      bucket := bucket.(uploads := bucket.uploads[id := upload.(active := false)]);
      r := if reply.Lost? then Err(OtherCode) else Ok(etag);
    }

    /** Its answer is of no interest to the caller. */
    method AbortMultipartUpload(id: nat)
      requires Valid() && id < |bucket.uploads|
      modifies `bucket, `script, `calls
      ensures Valid() && Disturbed(old(bucket), bucket.(uploads := old(bucket.uploads)))
      ensures |calls| == |old(calls)| + 1 && calls[..|old(calls)|] == old(calls) && calls[|old(calls)|].op == Abort(id)
      ensures bucket.uploads ==
        if calls[|old(calls)|].reply.Refuse? then old(bucket.uploads)
        else old(bucket.uploads)[id := old(bucket.uploads[id]).(active := false)]
      ensures old(script) == [] ==>
        script == [] && calls[|old(calls)|].reply == Fine && bucket.objects == old(bucket.objects)
    {
      var reply := NextTurn(Abort(id));
      if !reply.Refuse? {
        bucket := bucket.(uploads := bucket.uploads[id := bucket.uploads[id].(active := false)]);
      }
    }

    /** The provider's one-shot copy, atomic in its conditions and its effect. */
    method CopyWhole(source: string, destination: string, ifMatch: string, ifAbsent: bool) returns (r: Result<string, Code>)
      requires Valid()
      modifies this
      ensures Valid() && bucket.uploads == old(bucket.uploads)
      ensures |calls| == |old(calls)| + 1 && calls[..|old(calls)|] == old(calls) && calls[|old(calls)|].op == CopyInOne
      ensures calls[|old(calls)|].reply.Refuse? ==> r == Err(calls[|old(calls)|].reply.code)
      ensures commits != old(commits) ==>
        && |commits| == |old(commits)| + 1 && old(commits) <= commits
        && var c := commits[|commits| - 1];
        && c.key == destination
        && (ifAbsent ==> !c.replaced)
        && (ifMatch != "" && ifMatch in old(bucket.issued) ==> c.bytes == old(bucket.issued)[ifMatch])
      ensures commits != old(commits) && ifMatch != "" ==>
        forall size | Pinned(old(bucket), source, ifMatch, size) :: |old(bucket.issued)[ifMatch]| == size
      ensures r.Ok? ==> commits != old(commits)
      ensures old(script) == [] ==> script == [] && (r.Ok? <==> commits != old(commits))
      ensures r.Ok? && old(script) == [] ==> source in old(bucket.objects)
      ensures old(script) == [] && source in old(bucket.objects) ==>
        if SourceMatches(old(bucket), source, ifMatch) && !(ifAbsent && destination in old(bucket.objects)) then
          && r.Ok? && !IsBlank(r.value)
          && bucket.objects == old(bucket.objects)[destination := Object(old(bucket.objects[source]).bytes, r.value)]
        else r == Err(PreconditionFailed) && bucket == old(bucket)
    {
      var reply := NextTurn(CopyInOne);
      if reply.Refuse? {
        return Err(reply.code);
      }
      if source !in bucket.objects {
        return Err(NoSuchKey);
      }
      if !SourceMatches(bucket, source, ifMatch) || (ifAbsent && destination in bucket.objects) {
        return Err(PreconditionFailed);
      }
      var etag := WriteObject(destination, bucket.objects[source].bytes, ifAbsent, reply.Untagged?);
      r := if reply.Lost? then Err(OtherCode) else Ok(etag);
    }
  }

  // ---------------------------------------------------------------- the adapter

  /** A listed part of the upload holds the bytes that `range` cuts out of `content`. */
  ghost predicate IsCopy(parts: map<int, PartCopy>, range: CopyPart, entry: (int, string), content: Bytes) {
    && entry.0 == range.number
    && entry.0 in parts
    && 0 <= range.start <= range.start + range.size <= |content|
    && parts[entry.0] == PartCopy(content[range.start..range.start + range.size], entry.1)
  }

  ghost predicate CopiedFrom(parts: map<int, PartCopy>, ranges: seq<CopyPart>, listed: seq<(int, string)>, content: Bytes) {
    && |listed| <= |ranges|
    && forall i: nat {:trigger IsCopy(parts, ranges[i], listed[i], content)} | i < |listed| ::
        IsCopy(parts, ranges[i], listed[i], content)
  }

  lemma Glue<T>(s: seq<T>, i: nat, j: nat)
    requires i <= j <= |s|
    ensures s[..i] + s[i..j] == s[..j]
  {
  }

  lemma AssembleOneMore(parts: map<int, PartCopy>, listed: seq<(int, string)>, k: nat)
    requires k < |listed| && listed[k].0 in parts
    ensures Assemble(parts, listed[..k + 1]) == Assemble(parts, listed[..k]) + parts[listed[k].0].bytes
  {
    assert listed[..k + 1][..k] == listed[..k];
  }

  /** Completing the copies of the first `k` ranges of an object yields the object up to there. */
  lemma {:induction false} CopiesAssemble(parts: map<int, PartCopy>, ranges: seq<CopyPart>, listed: seq<(int, string)>,
                                          content: Bytes, size: int, k: nat)
    requires Tiles(ranges, size) && k <= |listed| && CopiedFrom(parts, ranges, listed, content)
    ensures k > 0 ==> 0 <= ranges[k - 1].start && ranges[k - 1].start + ranges[k - 1].size <= |content|
    ensures Assemble(parts, listed[..k]) == content[..if k == 0 then 0 else ranges[k - 1].start + ranges[k - 1].size]
    decreases k
  {
    if k > 0 {
      var range := ranges[k - 1];
      CopiesAssemble(parts, ranges, listed, content, size, k - 1);
      assert IsCopy(parts, range, listed[k - 1], content);
      assert Abuts(ranges, k - 1);
      Glue(content, range.start, range.start + range.size);
      AssembleOneMore(parts, listed, k - 1);
    }
  }

  /** The new commit of a call, if there is one: at the destination, and onto nothing when that was asked for. */
  ghost predicate CommitsOnce(before: seq<Commit>, after: seq<Commit>, params: CopyParams) {
    after == before ||
    (&& |after| == |before| + 1
     && before <= after
     && after[|before|].key == params.destination
     && (params.ifDestinationAbsent ==> !after[|before|].replaced))
  }

  lemma OneMorePart(parts: map<int, PartCopy>, ranges: seq<CopyPart>, listed: seq<(int, string)>, content: Bytes, etag: string)
    requires CopiedFrom(parts, ranges, listed, content) && |listed| < |ranges|
    requires forall i | 0 <= i < |ranges| :: ranges[i].number == i + 1
    requires var range := ranges[|listed|];
      0 <= range.start <= range.start + range.size <= |content|
    ensures var range := ranges[|listed|];
      CopiedFrom(parts[range.number := PartCopy(content[range.start..range.start + range.size], etag)], ranges,
                 listed + [(range.number, etag)], content)
  {
    var range := ranges[|listed|];
    var more := parts[range.number := PartCopy(content[range.start..range.start + range.size], etag)];
    var longer := listed + [(range.number, etag)];
    forall i: nat | i < |longer| ensures IsCopy(more, ranges[i], longer[i], content) {
      assert i < |listed| ==> IsCopy(parts, ranges[i], listed[i], content);
    }
  }

  lemma CopiesMatch(parts: map<int, PartCopy>, ranges: seq<CopyPart>, listed: seq<(int, string)>, content: Bytes)
    requires CopiedFrom(parts, ranges, listed, content)
    ensures PartsMatch(parts, listed)
  {
    forall i: nat | i < |listed| ensures listed[i].0 in parts && parts[listed[i].0].etag == listed[i].1 {
      assert IsCopy(parts, ranges[i], listed[i], content);
    }
  }

  /** While the copy runs, only its own upload gains parts. */
  ghost predicate OnlyPartsOf(id: nat, was: Bucket, now: Bucket)
    requires id < |was.uploads|
  {
    && |now.uploads| == |was.uploads|
    && now.uploads == was.uploads[id := was.uploads[id].(parts := now.uploads[id].parts)]
    && Disturbed(was, now.(uploads := was.uploads))
  }

  lemma OnlyPartsOfTransitive(id: nat, a: Bucket, b: Bucket, c: Bucket)
    requires id < |a.uploads| && OnlyPartsOf(id, a, b) && OnlyPartsOf(id, b, c)
    ensures OnlyPartsOf(id, a, c)
  {
  }

  /** What the loop of a pinned copy has achieved: the listed parts are the tagged bytes. */
  ghost predicate Progress(was: Bucket, now: Bucket, id: nat, source: string, tag: string, size: int,
                           ranges: seq<CopyPart>, listed: seq<(int, string)>)
    requires id < |now.uploads|
  {
    tag != "" && Pinned(was, source, tag, size) ==>
      && Pinned(now, source, tag, size)
      && now.issued[tag] == was.issued[tag]
      && CopiedFrom(now.uploads[id].parts, ranges, listed, was.issued[tag])
      && (listed != [] ==> |was.issued[tag]| == size)
  }

  /** A successful part copy read the tagged bytes, for the source still carried the tag. */
  lemma PartAdvances(was: Bucket, before: Bucket, after: Bucket, id: nat, source: string, tag: string, size: int,
                     ranges: seq<CopyPart>, listed: seq<(int, string)>, etag: string)
    requires id < |before.uploads| && OnlyPartsOf(id, before, after)
    requires Tiles(ranges, size) && size > 0 && |listed| < |ranges|
    requires Progress(was, before, id, source, tag, size, ranges, listed)
    requires SourceMatches(after, source, tag)
    requires var range := ranges[|listed|];
      && 0 <= range.start <= range.start + range.size <= |after.objects[source].bytes|
      && after.uploads[id].parts == before.uploads[id].parts[range.number :=
           PartCopy(after.objects[source].bytes[range.start..range.start + range.size], etag)]
    ensures Progress(was, after, id, source, tag, size, ranges, listed + [(ranges[|listed|].number, etag)])
  {
    if tag != "" && Pinned(was, source, tag, size) {
      PinnedStays(before, after.(uploads := before.uploads), source, tag, size);
      OneMorePart(before.uploads[id].parts, ranges, listed, was.issued[tag], etag);
    }
  }

  lemma AllCopied(was: Bucket, now: Bucket, id: nat, source: string, tag: string, size: int,
                  ranges: seq<CopyPart>, listed: seq<(int, string)>)
    requires id < |now.uploads| && Tiles(ranges, size) && size > 0 && |listed| == |ranges|
    requires Progress(was, now, id, source, tag, size, ranges, listed)
    requires tag != "" && Pinned(was, source, tag, size)
    ensures |was.issued[tag]| == size
    ensures CanComplete(now.uploads[id].parts, listed)
    ensures Assemble(now.uploads[id].parts, listed) == was.issued[tag]
  {
    AllCopiesAssemble(now.uploads[id].parts, ranges, listed, was.issued[tag]);
  }

  /** What the loop has achieved while nobody interferes, with or without a tag: the listed parts are the source. */
  ghost predicate QuietProgress(was: Bucket, now: Bucket, id: nat, source: string, size: int,
                                ranges: seq<CopyPart>, listed: seq<(int, string)>)
    requires id < |now.uploads|
  {
    source in was.objects && |was.objects[source].bytes| == size ==>
      CopiedFrom(now.uploads[id].parts, ranges, listed, was.objects[source].bytes)
  }

  lemma QuietPartAdvances(was: Bucket, before: Bucket, after: Bucket, id: nat, source: string, size: int,
                          ranges: seq<CopyPart>, listed: seq<(int, string)>, etag: string)
    requires id < |before.uploads| && OnlyPartsOf(id, before, after)
    requires Tiles(ranges, size) && |listed| < |ranges|
    requires QuietProgress(was, before, id, source, size, ranges, listed)
    requires source in was.objects && after.objects == was.objects
    requires var range := ranges[|listed|];
      && 0 <= range.start <= range.start + range.size <= |after.objects[source].bytes|
      && after.uploads[id].parts == before.uploads[id].parts[range.number :=
           PartCopy(after.objects[source].bytes[range.start..range.start + range.size], etag)]
    ensures QuietProgress(was, after, id, source, size, ranges, listed + [(ranges[|listed|].number, etag)])
  {
    if |was.objects[source].bytes| == size {
      OneMorePart(before.uploads[id].parts, ranges, listed, was.objects[source].bytes, etag);
    }
  }

  lemma AllCopiesAssemble(parts: map<int, PartCopy>, ranges: seq<CopyPart>, listed: seq<(int, string)>, content: Content)
    requires Tiles(ranges, |content|) && |content| > 0 && |listed| == |ranges|
    requires CopiedFrom(parts, ranges, listed, content)
    ensures CanComplete(parts, listed) && Assemble(parts, listed) == content
  {
    CopiesAssemble(parts, ranges, listed, content, |content|, |listed|);
    CopiesMatch(parts, ranges, listed, content);
    assert content[..|content|] == content && listed[..|listed|] == listed;
  }

  lemma {:induction false} RangesFit(ranges: seq<CopyPart>, size: int)
    requires Tiles(ranges, size)
    ensures forall i | 0 <= i < |ranges| :: 0 <= ranges[i].start && ranges[i].start + ranges[i].size <= size
    ensures size > 0 ==> ranges != []
    decreases |ranges|
  {
    if ranges != [] {
      PrefixTiles(ranges, size);
      RangesFit(ranges[..|ranges| - 1], ranges[|ranges| - 1].start);
    }
  }

  lemma RangeFits(ranges: seq<CopyPart>, size: int, i: nat)
    requires Tiles(ranges, size) && i < |ranges|
    ensures 0 <= ranges[i].start <= ranges[i].start + ranges[i].size <= size
  {
    RangesFit(ranges, size);
  }

  /** One turn of the loop of `copyObjectMultipart`. */
  method CopyNextPart(st: Store, source: string, id: nat, ranges: seq<CopyPart>, tag: string, size: int64,
                      listed: seq<(int, string)>, ghost was: Bucket)
      returns (r: Result<(int, string), StoreError>)
    requires st.Valid() && id < |st.bucket.uploads| && st.bucket.uploads[id].active
    requires Tiles(ranges, size) && size > 0 && |listed| < |ranges|
    requires |was.uploads| == |st.bucket.uploads| && Progress(was, st.bucket, id, source, tag, size, ranges, listed)
    modifies st`bucket, st`script, st`calls
    ensures st.Valid() && OnlyPartsOf(id, old(st.bucket), st.bucket) && |st.calls| == |old(st.calls)| + 1
    ensures Tells(st.calls[|st.calls| - 1], false, r) && !st.calls[|st.calls| - 1].op.Complete? && !st.calls[|st.calls| - 1].op.Abort?
    ensures r.Ok? ==> Progress(was, st.bucket, id, source, tag, size, ranges, listed + [r.value])
    ensures old(st.script) == [] ==> st.script == [] && st.bucket.objects == old(st.bucket.objects)
    ensures (&& old(st.script) == [] && r.Ok? && source in was.objects && was.objects == old(st.bucket.objects)
             && QuietProgress(was, old(st.bucket), id, source, size, ranges, listed)) ==>
        QuietProgress(was, st.bucket, id, source, size, ranges, listed + [r.value])
    ensures old(st.script) == [] && source in st.bucket.objects ==>
      (SourceMatches(st.bucket, source, tag) && size <= |st.bucket.objects[source].bytes| ==> r.Ok?) &&
      (!SourceMatches(st.bucket, source, tag) ==> r == Err(Conflict))
  {
    ghost var before := st.bucket;
    var range := ranges[|listed|];
    RangeFits(ranges, size, |listed|);
    var copied := st.CopyObjectPart(source, id, range, tag);
    if copied.Err? {
      return Err(MapSingleCopyError(copied.error));
    }
    if IsBlank(copied.value) {
      return Err(MissingETag);
    }
    PartAdvances(was, before, st.bucket, id, source, tag, size, ranges, listed, copied.value);
    if source in was.objects && st.bucket.objects == was.objects
       && QuietProgress(was, before, id, source, size, ranges, listed) {
      QuietPartAdvances(was, before, st.bucket, id, source, size, ranges, listed, copied.value);
    }
    return Ok((range.number, copied.value));
  }

  /** An error that is passed on still tells of its call. */
  lemma StillTold<T, U>(c: Call, ifDestinationAbsent: bool, told: Result<T, StoreError>, r: Result<U, StoreError>)
    requires told.Err? && r == Err(told.error) && Tells(c, false, told) && !c.op.Complete?
    ensures Tells(c, ifDestinationAbsent, r)
  {
  }

  /** The loop of `copyObjectMultipart` over the ranges of the source. */
  method CopyAllParts(st: Store, source: string, id: nat, ranges: seq<CopyPart>, tag: string, size: int64)
      returns (r: Result<seq<(int, string)>, StoreError>)
    requires st.Valid() && id < |st.bucket.uploads| && st.bucket.uploads[id].active
    requires Tiles(ranges, size) && size > 0
    modifies st`bucket, st`script, st`calls
    ensures st.Valid() && OnlyPartsOf(id, old(st.bucket), st.bucket)
    ensures |old(st.calls)| < |st.calls|
    ensures Tells(st.calls[|st.calls| - 1], false, r) && !st.calls[|st.calls| - 1].op.Complete? && !st.calls[|st.calls| - 1].op.Abort?
    ensures r.Ok? && tag != "" && Pinned(old(st.bucket), source, tag, size) ==>
      && |old(st.bucket.issued)[tag]| == size
      && CanComplete(st.bucket.uploads[id].parts, r.value)
      && Assemble(st.bucket.uploads[id].parts, r.value) == old(st.bucket.issued)[tag]
    ensures old(st.script) == [] ==> st.script == [] && st.bucket.objects == old(st.bucket.objects)
    ensures old(st.script) == [] && source in st.bucket.objects ==>
      (SourceMatches(st.bucket, source, tag) && size <= |st.bucket.objects[source].bytes| ==> r.Ok?) &&
      (!SourceMatches(st.bucket, source, tag) ==> r == Err(Conflict))
    ensures old(st.script) == [] && r.Ok? && source in st.bucket.objects && |st.bucket.objects[source].bytes| == size ==>
      && CanComplete(st.bucket.uploads[id].parts, r.value)
      && Assemble(st.bucket.uploads[id].parts, r.value) == st.bucket.objects[source].bytes
  {
    var listed: seq<(int, string)> := [];
    ghost var was := st.bucket;
    RangesFit(ranges, size);
    while |listed| < |ranges|
      invariant |listed| <= |ranges|
      invariant st.Valid() && OnlyPartsOf(id, was, st.bucket)
      invariant |old(st.calls)| <= |st.calls| && (listed != [] ==> |old(st.calls)| < |st.calls|)
      invariant listed != [] ==>
        !st.calls[|st.calls| - 1].reply.Refuse? && !st.calls[|st.calls| - 1].op.Complete? && !st.calls[|st.calls| - 1].op.Abort?
      invariant Progress(was, st.bucket, id, source, tag, size, ranges, listed)
      invariant old(st.script) == [] ==> st.script == [] && st.bucket.objects == was.objects
      invariant old(st.script) == [] ==> QuietProgress(was, st.bucket, id, source, size, ranges, listed)
      invariant old(st.script) == [] && source in was.objects && !SourceMatches(was, source, tag) ==> listed == []
    {
      ghost var before := st.bucket;
      var copied := CopyNextPart(st, source, id, ranges, tag, size, listed, was);
      OnlyPartsOfTransitive(id, was, before, st.bucket);
      if copied.Err? {
        r := Err(copied.error);
        StillTold(st.calls[|st.calls| - 1], false, copied, r);
        return;
      }
      listed := listed + [copied.value];
    }
    if tag != "" && Pinned(was, source, tag, size) {
      AllCopied(was, st.bucket, id, source, tag, size, ranges, listed);
    }
    if old(st.script) == [] && source in was.objects && |was.objects[source].bytes| == size {
      AllCopiesAssemble(st.bucket.uploads[id].parts, ranges, listed, was.objects[source].bytes);
    }
    return Ok(listed);
  }

  predicate Delivered(b: Bucket, e: Bucket, params: CopyParams, etag: string)
    requires params.source in b.objects
  {
    e.objects == b.objects[params.destination := Object(b.objects[params.source].bytes, etag)]
  }

  /** A copy that commits under a tag that pins the source commits exactly the bytes of the tag, and their size was known. */
  ghost predicate Faithful(was: Bucket, params: CopyParams, tag: string, info: Info, before: seq<Commit>, after: seq<Commit>) {
    before < after && tag != "" && Pinned(was, params.source, tag, info.size) ==>
      after[|before|].bytes == was.issued[tag] && |was.issued[tag]| == info.size
  }

  /** What an undisturbed copy of a source of the size it expects comes to; `ifTaken` is how it reports an existing
      destination it must not replace. */
  ghost predicate QuietOutcome(was: Bucket, now: Bucket, params: CopyParams, tag: string, info: Info, ifTaken: StoreError,
                               r: Result<Info, StoreError>)
  {
    params.source in was.objects ==>
      var source := was.objects[params.source];
      && (tag != "" && source.etag != tag ==> r == Err(Conflict) && now.objects == was.objects)
      && ((tag == "" || source.etag == tag) && |source.bytes| == info.size ==>
            if params.ifDestinationAbsent && params.destination in was.objects then
              r == Err(ifTaken) && now.objects == was.objects
            else r.Ok? && Delivered(was, now, params, r.value.etag))
  }

  lemma CompletionIsTold(c: Call, ifDestinationAbsent: bool, done: Result<string, Code>, r: Result<Info, StoreError>)
    requires c.op.Complete? && (c.reply.Refuse? ==> done == Err(c.reply.code))
    requires done.Err? ==> r == Err(MapCopyError(done.error, ifDestinationAbsent))
    ensures Tells(c, ifDestinationAbsent, r)
  {
  }

  /** The listed parts are what was to be copied: the bytes of a tag that pinned the source and, as long as nobody
      interfered, the source itself. */
  ghost predicate AllThere(was: Bucket, now: Bucket, quiet: bool, params: CopyParams, tag: string, info: Info, id: nat,
                           listed: seq<(int, string)>)
    requires id < |now.uploads|
  {
    var parts := now.uploads[id].parts;
    && (tag != "" && Pinned(was, params.source, tag, info.size) ==>
          && |was.issued[tag]| == info.size
          && CanComplete(parts, listed) && Assemble(parts, listed) == was.issued[tag])
    && (quiet ==> now.objects == was.objects)
    && (quiet && params.source in was.objects ==>
          && (tag == "" || was.objects[params.source].etag == tag)
          && (|was.objects[params.source].bytes| == info.size ==>
                CanComplete(parts, listed) && Assemble(parts, listed) == was.objects[params.source].bytes))
  }

  /** The completion of a copy. */
  method CompleteCopy(st: Store, params: CopyParams, tag: string, info: Info, id: nat, listed: seq<(int, string)>,
                      ghost was: Bucket, ghost quiet: bool)
      returns (r: Result<Info, StoreError>)
    requires st.Valid() && id < |st.bucket.uploads|
    requires st.bucket.uploads[id].active && st.bucket.uploads[id].key == params.destination
    requires (quiet ==> st.script == []) && AllThere(was, st.bucket, quiet, params, tag, info, id, listed)
    modifies st
    ensures st.Valid() && |st.bucket.uploads| == |old(st.bucket.uploads)|
    ensures |old(st.calls)| < |st.calls| && !st.calls[|st.calls| - 1].op.Abort?
    ensures Tells(st.calls[|st.calls| - 1], params.ifDestinationAbsent, r)
    ensures st.bucket.uploads == old(st.bucket.uploads)[id := st.bucket.uploads[id]]
    ensures CommitsOnce(old(st.commits), st.commits, params)
    ensures r.Ok? ==> st.commits != old(st.commits) && !st.bucket.uploads[id].active && r.value.size == info.size
    ensures Faithful(was, params, tag, info, old(st.commits), st.commits)
    ensures quiet ==> st.script == [] && (r.Ok? <==> st.commits != old(st.commits))
    ensures quiet ==> QuietOutcome(was, st.bucket, params, tag, info, AlreadyExists, r)
  {
    var done := st.CompleteMultipartUpload(id, listed, params.ifDestinationAbsent);
    r := if done.Err? then Err(MapCopyError(done.error, params.ifDestinationAbsent)) else Ok(Info(info.size, done.value));
    CompletionIsTold(st.calls[|st.calls| - 1], params.ifDestinationAbsent, done, r);
  }

  /** Undisturbed, the parts of a source of the expected size are missing only when it has another tag. */
  lemma PartsFailed(was: Bucket, now: Bucket, params: CopyParams, tag: string, info: Info, e: StoreError, r: Result<Info, StoreError>)
    requires now.objects == was.objects && r == Err(e)
    requires params.source in was.objects ==>
      var matches := SourceMatches(was, params.source, tag);
      && (!matches ==> e == Conflict)
      && (matches ==> |was.objects[params.source].bytes| < info.size)
    ensures QuietOutcome(was, now, params, tag, info, AlreadyExists, r)
  {
  }

  /** From the first part to the completion; `completed` stays false whenever the adapter cannot know that the
      upload was completed. */
  method CopyThenComplete(st: Store, params: CopyParams, tag: string, info: Info, id: nat, ranges: seq<CopyPart>)
      returns (r: Result<Info, StoreError>, completed: bool)
    requires st.Valid() && id < |st.bucket.uploads| && st.bucket.uploads[id] == Upload(params.destination, map[], true)
    requires Tiles(ranges, info.size) && info.size > 0
    modifies st
    ensures st.Valid() && |st.bucket.uploads| == |old(st.bucket.uploads)|
    ensures |old(st.calls)| < |st.calls| && !st.calls[|st.calls| - 1].op.Abort?
    ensures Tells(st.calls[|st.calls| - 1], params.ifDestinationAbsent, r)
    ensures st.bucket.uploads == old(st.bucket.uploads)[id := st.bucket.uploads[id]]
    ensures CommitsOnce(old(st.commits), st.commits, params)
    ensures completed == r.Ok?
    ensures completed ==> st.commits != old(st.commits) && !st.bucket.uploads[id].active && r.value.size == info.size
    ensures Faithful(old(st.bucket), params, tag, info, old(st.commits), st.commits)
    ensures old(st.script) == [] ==> st.script == [] && (r.Ok? <==> st.commits != old(st.commits))
    ensures old(st.script) == [] ==> QuietOutcome(old(st.bucket), st.bucket, params, tag, info, AlreadyExists, r)
  {
    var copied := CopyAllParts(st, params.source, id, ranges, tag, info.size);
    if copied.Err? {
      r, completed := Err(copied.error), false;
      StillTold(st.calls[|st.calls| - 1], params.ifDestinationAbsent, copied, r);
      if old(st.script) == [] {
        PartsFailed(old(st.bucket), st.bucket, params, tag, info, copied.error, r);
      }
      return;
    }
    r := CompleteCopy(st, params, tag, info, id, copied.value, old(st.bucket), old(st.script) == []);
    completed := r.Ok?;
  }

  /** An abort leaves its upload open only if it was refused, and touches no object. */
  lemma DiscardEnds(was: Bucket, now: Bucket, after: Bucket, id: nat, calls: seq<Call>, quiet: bool,
                    params: CopyParams, tag: string, info: Info, r: Result<Info, StoreError>)
    requires id < |was.uploads| == |now.uploads| && now.uploads == was.uploads[id := now.uploads[id]]
    requires calls != [] && calls[|calls| - 1].op == Abort(id)
    requires after.uploads == if calls[|calls| - 1].reply.Refuse? then now.uploads
                              else now.uploads[id := now.uploads[id].(active := false)]
    requires quiet ==> calls[|calls| - 1].reply == Fine && after.objects == now.objects
    requires quiet ==> QuietOutcome(was, now, params, tag, info, AlreadyExists, r)
    ensures |after.uploads| == |was.uploads| && after.uploads == was.uploads[id := after.uploads[id]]
    ensures after.uploads[id].active ==> LeavesOpen(calls[|calls| - 1], id)
    ensures quiet ==> !after.uploads[id].active && QuietOutcome(was, after, params, tag, info, AlreadyExists, r)
  {
  }

  /** Whether or not an abort follows, the answer follows the call before it. */
  lemma AbortsTellNothing(made: nat, calls: seq<Call>, after: seq<Call>, ifDestinationAbsent: bool, r: Result<Info, StoreError>)
    requires made < |calls| && !calls[|calls| - 1].op.Abort? && Tells(calls[|calls| - 1], ifDestinationAbsent, r)
    requires after == calls || (|after| == |calls| + 1 && after[..|calls|] == calls && after[|calls|].op.Abort?)
    ensures ToldBy(made, after, ifDestinationAbsent, r)
  {
    if after != calls {
      assert after[|calls| - 1] == after[..|calls|][|calls| - 1];
    }
  }

  /** The copy into a fresh upload, with the deferred abort: unless the upload was completed the last call asks to
      discard it. */
  method CopyOrDiscard(st: Store, params: CopyParams, tag: string, info: Info, id: nat, ranges: seq<CopyPart>)
      returns (r: Result<Info, StoreError>)
    requires st.Valid() && id < |st.bucket.uploads| && st.bucket.uploads[id] == Upload(params.destination, map[], true)
    requires Tiles(ranges, info.size) && info.size > 0
    modifies st
    ensures st.Valid() && |st.bucket.uploads| == |old(st.bucket.uploads)|
    ensures st.bucket.uploads == old(st.bucket.uploads)[id := st.bucket.uploads[id]]
    ensures |old(st.calls)| < |st.calls|
    ensures ToldBy(|old(st.calls)|, st.calls, params.ifDestinationAbsent, r)
    ensures st.bucket.uploads[id].active ==> |old(st.calls)| < |st.calls| && LeavesOpen(st.calls[|st.calls| - 1], id)
    ensures CommitsOnce(old(st.commits), st.commits, params)
    ensures r.Ok? ==> st.commits != old(st.commits) && r.value.size == info.size
    ensures Faithful(old(st.bucket), params, tag, info, old(st.commits), st.commits)
    ensures old(st.script) == [] ==> (r.Ok? <==> st.commits != old(st.commits)) && !st.bucket.uploads[id].active
    ensures old(st.script) == [] ==> QuietOutcome(old(st.bucket), st.bucket, params, tag, info, AlreadyExists, r)
  {
    var completed;
    r, completed := CopyThenComplete(st, params, tag, info, id, ranges);
    if completed {
      return;
    }
    ghost var calls, copied := st.calls, st.bucket;
    st.AbortMultipartUpload(id);
    AbortsTellNothing(|old(st.calls)|, calls, st.calls, params.ifDestinationAbsent, r);
    DiscardEnds(old(st.bucket), copied, st.bucket, id, st.calls, old(st.script) == [], params, tag, info, r);
  }

  /** At most one upload was added, and if it is still open the very last of the calls after the first `made` left it so. */
  ghost predicate LeavesNothing(was: Bucket, now: Bucket, made: nat, calls: seq<Call>) {
    now.uploads == was.uploads ||
    (&& |now.uploads| == |was.uploads| + 1
     && now.uploads[..|was.uploads|] == was.uploads
     && (now.uploads[|was.uploads|].active ==> made < |calls| && LeavesOpen(calls[|calls| - 1], |was.uploads|)))
  }

  /** The multipart upload of a copy, from its creation to its end. */
  method CopyThroughUpload(st: Store, params: CopyParams, tag: string, info: Info, ranges: seq<CopyPart>)
      returns (r: Result<Info, StoreError>)
    requires st.Valid() && Tiles(ranges, info.size) && info.size > 0
    modifies st
    ensures st.Valid() && LeavesNothing(old(st.bucket), st.bucket, |old(st.calls)|, st.calls)
    ensures |old(st.calls)| < |st.calls| && ToldBy(|old(st.calls)|, st.calls, params.ifDestinationAbsent, r)
    ensures CommitsOnce(old(st.commits), st.commits, params)
    ensures r.Ok? ==> st.commits != old(st.commits) && r.value.size == info.size
    ensures Faithful(old(st.bucket), params, tag, info, old(st.commits), st.commits)
    ensures old(st.script) == [] ==>
      && QuietOutcome(old(st.bucket), st.bucket, params, tag, info, AlreadyExists, r)
      && (r.Err? ==> st.commits == old(st.commits))
      && (st.bucket.uploads != old(st.bucket.uploads) ==> !st.bucket.uploads[|old(st.bucket.uploads)|].active)
  {
    var created := st.NewMultipartUpload(params.destination);
    if created.Err? {
      return Err(MapError(created.error));
    }
    ghost var before := st.bucket;
    if tag != "" && Pinned(old(st.bucket), params.source, tag, info.size) {
      PinnedStays(old(st.bucket), before.(uploads := old(st.bucket.uploads)), params.source, tag, info.size);
    }
    r := CopyOrDiscard(st, params, tag, info, created.value, ranges);
    assert st.bucket.uploads[..created.value] == before.uploads[..created.value];
  }

  /** `copyObjectMultipart`. Whatever others do to the bucket meanwhile, what it commits under an enforced tag is
      exactly the bytes that carried the tag; and unless it completes its own upload its last call asks to discard it,
      so the upload stays open only when the provider refuses that or has lost the reply that names the upload. */
  method CopyObjectMultipart(st: Store, params: CopyParams, info: Info) returns (r: Result<Info, StoreError>)
    requires st.Valid()
    modifies st
    ensures st.Valid() && LeavesNothing(old(st.bucket), st.bucket, |old(st.calls)|, st.calls)
    ensures |old(st.calls)| <= |st.calls| && ToldBy(|old(st.calls)|, st.calls, params.ifDestinationAbsent, r)
    ensures |st.calls| == |old(st.calls)| ==> st.calls == old(st.calls)
    ensures CommitsOnce(old(st.commits), st.commits, params)
    ensures r.Ok? ==> st.commits != old(st.commits) && r.value.size == info.size
    ensures Faithful(old(st.bucket), params, SourceMatchETag(params, info), info, old(st.commits), st.commits)
    ensures old(st.script) == [] ==>
      && (info.size > MAX_COPY_PART_SIZE_BYTES * MAX_COPY_PART_COUNT ==> r == Err(Invalid(TooLarge)))
      && (0 < info.size <= MAX_COPY_PART_SIZE_BYTES * MAX_COPY_PART_COUNT ==>
            QuietOutcome(old(st.bucket), st.bucket, params, SourceMatchETag(params, info), info, AlreadyExists, r))
      && (r.Err? ==> st.commits == old(st.commits))
      && (st.bucket.uploads != old(st.bucket.uploads) ==> !st.bucket.uploads[|old(st.bucket.uploads)|].active)
  {
    var ranges := MultipartCopyParts(info.size);
    if ranges.Err? {
      return Err(Invalid(ranges.error));
    }
    r := CopyThroughUpload(st, params, SourceMatchETag(params, info), info, ranges.value);
  }

  /** The end of `CopyObject` for a source of at most 5 GB. */
  method CopyInOneRequest(st: Store, params: CopyParams, info: Info) returns (r: Result<Info, StoreError>)
    requires st.Valid()
    modifies st
    ensures st.Valid() && st.bucket.uploads == old(st.bucket.uploads) && |old(st.calls)| < |st.calls|
    ensures ToldBy(|old(st.calls)|, st.calls, params.ifDestinationAbsent, r) && !st.calls[|st.calls| - 1].op.Abort?
    ensures CommitsOnce(old(st.commits), st.commits, params)
    ensures r.Ok? ==> st.commits != old(st.commits) && r.value.size == info.size
    ensures Faithful(old(st.bucket), params, SourceMatchETag(params, info), info, old(st.commits), st.commits)
    ensures old(st.script) == [] ==> (r.Ok? <==> st.commits != old(st.commits))
    ensures old(st.script) == [] ==> QuietOutcome(old(st.bucket), st.bucket, params, SourceMatchETag(params, info), info, Conflict, r)
  {
    var copied := st.CopyWhole(params.source, params.destination, SourceMatchETag(params, info), params.ifDestinationAbsent);
    if copied.Err? {
      return Err(MapSingleCopyError(copied.error));
    }
    if IsBlank(copied.value) {
      return Err(MissingETag);
    }
    return Ok(Info(info.size, copied.value));
  }

  /** The stat that opens a copy pins it: a tag the caller already holds either is the tag of what the stat saw,
      or has left the source for good. */
  lemma StatPins(was: Bucket, b: Bucket, params: CopyParams, info: Info)
    requires Tagged(was) && Disturbed(was, b) && params.source in b.objects
    requires info == Info(|b.objects[params.source].bytes|, b.objects[params.source].etag)
    requires SourceMatchETag(params, info) != ""
    requires Trim(params.ifSourceETag) == "" || Trim(params.ifSourceETag) in was.issued
    ensures Pinned(b, params.source, SourceMatchETag(params, info), info.size)
  {
  }

  /** `CopyObject`. A copy bound to a tag the caller holds commits exactly the bytes of that tag; a copy without one
      commits exactly the version its first read finds, as long as the provider tagged it; and an acknowledged copy
      reports the size of what it committed. With nobody around, the adapter reports an existing destination as a
      conflict or as already existing, by the size of the source. */
  method CopyObject(st: Store, params: CopyParams) returns (r: Result<Info, StoreError>)
    requires st.Valid()
    modifies st
    ensures st.Valid() && LeavesNothing(old(st.bucket), st.bucket, |old(st.calls)|, st.calls)
    ensures |old(st.calls)| <= |st.calls| && ToldBy(|old(st.calls)|, st.calls, params.ifDestinationAbsent, r)
    ensures CommitsOnce(old(st.commits), st.commits, params)
    ensures r.Ok? ==> st.commits != old(st.commits)
    ensures var held := Trim(params.ifSourceETag);
      st.commits != old(st.commits) && held != "" && held in old(st.bucket.issued) ==>
        && st.commits[|old(st.commits)|].bytes == old(st.bucket.issued)[held]
        && (r.Ok? ==> r.value.size == |old(st.bucket.issued)[held]|)
    ensures var found := Met(old(st.bucket), old(st.script)).objects;
      st.commits != old(st.commits) ==>
        && params.source in found
        && (r.Ok? ==> r.value.size == |found[params.source].bytes|)
        && (Trim(params.ifSourceETag) == "" && found[params.source].etag != "" ==>
              st.commits[|old(st.commits)|].bytes == found[params.source].bytes)
    ensures old(st.script) == [] && params.source !in old(st.bucket.objects) ==> r == Err(NotFound)
    ensures old(st.script) == [] && params.source in old(st.bucket.objects) ==>
      var source := old(st.bucket.objects)[params.source];
      var wanted := if Trim(params.ifSourceETag) != "" then Trim(params.ifSourceETag) else source.etag;
      var size := |source.bytes|;
      var taken := params.ifDestinationAbsent && params.destination in old(st.bucket.objects);
      && (r.Err? ==> st.commits == old(st.commits))
      && (size > 53_687_091_200_000 ==> r == Err(Invalid(TooLarge)))
      && (size <= 53_687_091_200_000 ==>
            if wanted != source.etag then r == Err(Conflict)
            else if taken then r == Err(if size > 5_000_000_000 then AlreadyExists else Conflict)
            else r.Ok? && Delivered(old(st.bucket), st.bucket, params, r.value.etag))
  {
    var stat := st.StatObject(params.source);
    if stat.Err? {
      return Err(MapError(stat.error));
    }
    var info := stat.value;
    if SourceMatchETag(params, info) != "" && (Trim(params.ifSourceETag) == "" || Trim(params.ifSourceETag) in old(st.bucket.issued)) {
      StatPins(old(st.bucket), st.bucket, params, info);
    }
    if RequiresMultipartCopy(info.size) {
      r := CopyObjectMultipart(st, params, info);
      return;
    }
    r := CopyInOneRequest(st, params, info);
  }
}
