/** What single calls refuse or do whatever state the tables and the object store are in, reachable or not: the guards
    that the transactions keep for themselves, and what outsiders and faults may do at any time. */
module UploadGuards {
  import opened CompleteParts
  import opened Keys
  import opened UploadState
  import opened UploadProtocol
  import opened Wrappers

  /** The success transaction rolls back unless a running job of exactly this digest and size asks for it and the record
      of the digest, if there is one, has that size. */
  lemma SuccessNeedsItsJob(H: Bytes -> Digest, d: Durable, v: Verified, c: Choice)
    requires c.Reply?
    ensures Move(H, d, Committing(v), c).Some?
    ensures Move(H, d, Committing(v), c).value.0 != d ==>
      && v.id in d.jobs && d.jobs[v.id] == Running
      && v.id in d.sessions && d.sessions[v.id].state == Ingesting
      && d.sessions[v.id].digest == v.digest && d.sessions[v.id].size == v.size
      && (v.digest in d.blobs ==> d.blobs[v.digest].size == v.size)
  {
  }

  /** A copy in one request takes effect only onto nothing and only while the staged object carries the enforced tag; part
      by part it may be late, but then it stores the bytes the tag was issued for. */
  lemma CopiesAreOfTheSource(H: Bytes -> Digest, d: Durable, v: Verified, c: Choice)
    requires c.Reply? && Move(H, d, Copying(v), c).Some?
    ensures var e := Move(H, d, Copying(v), c).value.0;
      e != d ==>
        && Cas(v.digest) !in d.objects && v.obj.etag.Tag? && v.obj.etag.n in d.issued
        && (!c.byParts ==> Staging(v.id) in d.objects && d.objects[Staging(v.id)].etag == v.obj.etag)
        && e.objects == d.objects[Cas(v.digest) := Object(d.issued[v.obj.etag.n], c.etag)]
        && e == d.(objects := e.objects, issued := e.issued)
  {
  }

  /** Opening a digest yields the object under its recorded key, and only in its recorded size. */
  lemma OpensOnlyTheRecordedSize(d: Durable, g: Digest)
    ensures OpenBlob(d, g).Some? <==>
      g in d.blobs && d.blobs[g].key in d.objects && |d.objects[d.blobs[g].key].bytes| == d.blobs[g].size
    ensures OpenBlob(d, g).Some? ==> OpenBlob(d, g).value == d.objects[d.blobs[g].key].bytes
  {
  }

  /** At any time somebody may replace a staged object, the provider may expire an unfinished upload, and any call may be
      cut off by a crash. */
  lemma OutsidersMayAct(H: Bytes -> Digest, s: System, id: Uuid, obj: Object, upload: nat, a: ActorId)
    ensures Staging(id) in s.d.objects && (obj.etag.Tag? ==> obj.etag.n !in s.d.issued) ==>
      var t := Exec(H, s, Overwrite(id, obj));
      && t.Some? && t.value.pcs == s.pcs
      && t.value.d.objects == s.d.objects[Staging(id) := obj] && id in t.value.d.overwritten
    ensures upload in s.d.uploads && s.d.uploads[upload].status == Active ==>
      var t := Exec(H, s, Expire(upload));
      t == Some(s.(d := s.d.(uploads := s.d.uploads[upload := s.d.uploads[upload].(status := Discarded)])))
    ensures Exec(H, s, By(a, Crash)) == Some(s.(pcs := s.pcs[a := Idle]))
  {
  }

  /** Every call can end in every way: answered, with its reply lost, or refused; a copy only as far as the provider can
      carry it out. */
  lemma CallsEndInEveryWay(H: Bytes -> Digest, d: Durable, pc: Pc, c: Choice)
    requires pc != Idle && c.Reply? && (c.etag.Tag? ==> c.etag.n !in d.issued) && c.upload !in d.uploads
    requires c.report == AlreadyThere ==> pc.Copying? && Cas(pc.v.digest) in d.objects
    requires pc.Copying? && (c.report == Answered || c.report == ReplyLost) ==>
      && Cas(pc.v.digest) !in d.objects && pc.v.obj.etag.Tag? && pc.v.obj.etag.n in d.issued
      && (c.byParts || (Staging(pc.v.id) in d.objects && d.objects[Staging(pc.v.id)].etag == pc.v.obj.etag))
    ensures Move(H, d, pc, c).Some?
  {
  }

  /** A refused call of a client leaves the object store and the tables alone. */
  lemma RefusalsChangeNothing(H: Bytes -> Digest, d: Durable, pc: Pc, c: Choice)
    requires c.Reply? && c.report == Refused && Move(H, d, pc, c).Some?
    requires pc.SendingPart? || pc.CompletingStaging? || pc.AbortingStaging? || pc.InsertingSession? || pc.Copying?
    ensures Move(H, d, pc, c).value.0 == d
  {
  }

  /** Recovery trusts a record only if it names the key of the digest and the verified size, and takes an object without
      a record only after hashing it again; whatever it takes, or has just copied, has the verified size. */
  lemma OnlyCheckedObjectsAreRecorded(H: Bytes -> Digest, d: Durable, pc: Pc, c: Choice)
    requires c.Reply? && Move(H, d, pc, c).Some?
    requires pc.Copying? || pc.ReadingRecord? || pc.StattingTrusted? || pc.OpeningExisting?
    ensures var (e, next) := Move(H, d, pc, c).value;
      var (g, there) := (pc.v.digest, Cas(pc.v.digest) in e.objects);
      && (next.Committing? ==> next.v == pc.v && there && |e.objects[Cas(g)].bytes| == pc.v.size)
      && (pc.ReadingRecord? && g in d.blobs ==>
            next == if d.blobs[g] == Blob(pc.v.size, Cas(g)) then StattingTrusted(pc.v, pc.cause)
                    else Failing(pc.v.id, TrustedBlobMismatch))
      && (pc.ReadingRecord? && g !in d.blobs ==> next == OpeningExisting(pc.v, pc.cause))
      && (pc.OpeningExisting? && there ==>
            next == if |e.objects[Cas(g)].bytes| != pc.v.size then Failing(pc.v.id, ExistingWrongSize)
                    else if H(e.objects[Cas(g)].bytes) != g then Failing(pc.v.id, ExistingWrongDigest)
                    else Committing(pc.v))
      && (pc.StattingTrusted? && there && |e.objects[Cas(g)].bytes| != pc.v.size ==>
            next == Failing(pc.v.id, StoredInfoMismatch))
  {
  }

  /** The tables take a session only under a new name, and a ready one only with the record of its digest. */
  lemma SessionsAreInserted(H: Bytes -> Digest, d: Durable, pc: Pc, c: Choice)
    requires c.Reply? && (pc.InsertingReady? || pc.InsertingSession?)
    ensures Move(H, d, pc, c).Some?
    ensures var e := Move(H, d, pc, c).value.0;
      e != d ==>
        && pc.id !in d.sessions
        && (pc.InsertingReady? ==> pc.digest in d.blobs)
        && e == d.(sessions := d.sessions[pc.id :=
             if pc.InsertingReady? then Session(pc.digest, pc.size, Ready, ReadyMarker, pc.expires)
             else Session(pc.digest, pc.size, Created, Multipart(pc.upload), pc.expires)])
  {
  }
}
