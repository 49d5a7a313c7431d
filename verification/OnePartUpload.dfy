/** The shortest upload as a run of actor 0: the client declares a digest and a size, sends one part and asks for
    completion, listing its part with the declared size. */
module OnePartUpload {
  import opened CompleteParts
  import opened Keys
  import Runs
  import Sorting
  import opened UploadState
  import opened UploadProtocol
  import opened UploadInvariant
  import opened Wrappers

  const ANSWER: Choice := Reply(Answered, Blank, 0, "e", false)

  /** The state after one move of actor 0. */
  function After(H: Bytes -> Digest, s: System, c: Choice): System {
    var r := Move(H, s.d, PcOf(s, 0), c);
    if r.Some? then System(r.value.0, s.pcs[0 := r.value.1]) else s
  }

  lemma Moved(H: Bytes -> Digest, s: System, c: Choice)
    requires Reachable(H, s)
    ensures Reachable(H, After(H, s, c))
  {
    if Move(H, s.d, PcOf(s, 0), c).Some? {
      assert Exec(H, s, By(0, c)) == Some(After(H, s, c));
      Runs.EvolveOnce(NextOf(H), INIT, s, After(H, s, c));
    }
  }

  /** What a session of `n` bytes with digest `g` looks like on the way to its one part `b`. */
  function Declared(g: Digest, n: int, state: SessionState): Session {
    Session(g, n, state, Multipart(0), 1)
  }

  function Uploaded(g: Digest, n: int, b: Bytes, id: Uuid): Durable {
    EMPTY.(
      uploads := map[0 := MultipartUpload(id, map[1 := Part(b, "e")], Active)],
      sessions := map[id := Declared(g, n, Uploading)])
  }

  lemma Begun(H: Bytes -> Digest, g: Digest, n: int, id: Uuid) returns (s: System)
    requires ValidDigest(g) && n >= 0
    ensures Reachable(H, s) && PcOf(s, 0) == Idle && s.pcs.Keys == {0}
    ensures s.d == EMPTY.(
      uploads := map[0 := MultipartUpload(id, map[], Active)],
      sessions := map[id := Declared(g, n, Created)])
  {
    Runs.StandStill(NextOf(H), INIT);
    s := INIT;
    var begin := Start(Request.BeginUpload(id, g, n, 1, 0, false));
    Moved(H, s, begin);
    s := After(H, s, begin);
    Moved(H, s, ANSWER);
    s := After(H, s, ANSWER);
    Moved(H, s, ANSWER);
    s := After(H, s, ANSWER);
  }

  lemma Sent(H: Bytes -> Digest, g: Digest, n: int, b: Bytes, id: Uuid) returns (s: System)
    requires ValidDigest(g) && n >= 0 && |b| <= MULTIPART_MAX_PART_SIZE_BYTES
    ensures Reachable(H, s) && PcOf(s, 0) == Idle && s.pcs.Keys == {0}
    ensures s.d == Uploaded(g, n, b, id)
  {
    s := Begun(H, g, n, id);
    var put := Start(Request.PutUploadPart(id, 1, b, 0));
    Moved(H, s, put);
    s := After(H, s, put);
    Moved(H, s, ANSWER);
    s := After(H, s, ANSWER);
    Moved(H, s, ANSWER);
    s := After(H, s, ANSWER);
  }

  lemma OnePartIsNormal(p: CompletePart)
    requires ValidPart(p)
    ensures Normalized([p]) == Some([p]) && Total([p]) == p.size
  {
    assert [p][1..] == [] && Sorting.Sort(BY_NUMBER, [p][1..]) == [];
    assert SortByNumber([p]) == [p];
    assert [p][..0] == [];
  }

  lemma CompletionStarts(d: Durable, g: Digest, n: int, id: Uuid, part: CompletePart)
    requires id in d.sessions && d.sessions[id] == Declared(g, n, Uploading)
    requires ValidPart(part) && part.size == n
    ensures StartComplete(d, id, [part], 0) == CompletingStaging(id, 0, n, [part])
  {
    OnePartIsNormal(part);
  }

  lemma OnePartAssembles(b: Bytes, part: CompletePart)
    requires part.number == 1
    ensures Assemble(map[1 := Part(b, "e")], [part]) == b
  {
    assert [part][..0] == [];
    assert Assemble(map[1 := Part(b, "e")], [part][..0]) == [];
  }

  /** The completion is under way: the next call commits the upload. */
  lemma Asked(H: Bytes -> Digest, g: Digest, n: int, b: Bytes, id: Uuid, part: CompletePart) returns (s: System)
    requires ValidDigest(g) && |b| <= MULTIPART_MAX_PART_SIZE_BYTES
    requires part == CompletePart(1, "e", part.size) && part.size == n && ValidPart(part)
    ensures Reachable(H, s) && PcOf(s, 0) == CompletingStaging(id, 0, n, [part]) && s.pcs.Keys == {0}
    ensures s.d == Uploaded(g, n, b, id)
  {
    var sent := Sent(H, g, n, b, id);
    var complete := Start(Request.CompleteUpload(id, [part], 0));
    CompletionStarts(sent.d, g, n, id, part);
    Moved(H, sent, complete);
    s := After(H, sent, complete);
  }
}
