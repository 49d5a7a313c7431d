/** A shared world for the service calls as the source writes them. Between any two durable calls of an
    actor the others may do anything the protocol lets them do; each call is a move of the protocol, so
    every execution of the service code is a run of it, and a crash cuts it off after any call. In a quiet
    world nobody interferes and the provider answers, so calls have exact outcomes. */
module UploadWorld {
  import opened CompleteParts
  import opened Keys
  import Runs
  import opened Text
  import opened UploadState
  import opened UploadProtocol
  import opened UploadInvariant
  import opened UploadSteps
  import opened UploadRuns
  import opened Wrappers

  predicate StagedUnchanged(d: Durable, v: Verified) {
    Staging(v.id) in d.objects && d.objects[Staging(v.id)] == v.obj
  }

  /** An answer of a provider that neither loses replies nor refuses what it could do. A copy may go in one request
      or part by part, and an existing destination may be reported as a conflict or as already existing. */
  predicate FaultFree(d: Durable, pc: Pc, c: Choice) {
    && c.Reply?
    && c.etag.Tag?
    && Fresh(d, c.etag)
    && !IsBlank(c.partTag)
    && if pc.Copying? && Cas(pc.v.digest) in d.objects then c.report == Refused || c.report == AlreadyThere
       else c.report == Answered
  }

  /** With fresh names every pending call can answer; only a copy can also be impossible, and is then refused. */
  lemma PendingCallsCanAnswer(H: Bytes -> Digest, d: Durable, pc: Pc, tag: nat, upload: nat, refused: bool)
    requires pc != Idle && tag !in d.issued && upload !in d.uploads
    requires refused <==> pc.Copying? && !CanCopy(d, pc.v, false)
    ensures Move(H, d, pc, Reply(if refused then Refused else Answered, Tag(tag), upload, "e", false)).Some?
  {
  }

  class World {
    const H: Bytes -> Digest
    const quiet: bool
    var s: System
    ghost var run: seq<System>

    /** The world is where its run has led, so everything proved about runs holds of it. */
    ghost predicate Valid()
      reads this
    {
      Runs.IsRun(NextOf(H), run) && run[0] == INIT && run[|run| - 1] == s && Inv(H, s)
    }

    constructor (hash: Bytes -> Digest, undisturbed: bool)
      ensures Valid() && H == hash && quiet == undisturbed && s == INIT
    {
      H := hash;
      quiet := undisturbed;
      s := INIT;
      run := [INIT];
    }

    /** Whatever everybody else does between two calls of actor `a`. */
    method Pause(a: ActorId)
      requires Valid()
      modifies this
      ensures Valid() && old(run) <= run
      ensures Rely(old(s.d), s.d) && PcOf(s, a) == old(PcOf(s, a))
      ensures quiet ==> s == old(s)
    {
      RelyReflexive(s.d);
    }

    /** How the stores answer the pending call of `a`. */
    method Answer(a: ActorId) returns (c: Choice)
      requires Valid() && PcOf(s, a) != Idle
      requires PcOf(s, a).Copying? && quiet ==> StagedUnchanged(s.d, PcOf(s, a).v)
      ensures c.Reply? && Move(H, s.d, PcOf(s, a), c).Some?
      ensures quiet ==> FaultFree(s.d, PcOf(s, a), c)
    {
      var tag := NewName(s.d.issued.Keys);
      var upload := NewName(s.d.uploads.Keys);
      var pc := PcOf(s, a);
      var refused := pc.Copying? && !CanCopy(s.d, pc.v, false);
      PendingCallsCanAnswer(H, s.d, pc, tag, upload, refused);
      c := Reply(if refused then Refused else Answered, Tag(tag), upload, "e", false);
      if quiet && pc.Copying? {
        assert PcInv(H, s.d, s.pcs[a]);
      }
    }

    /** One durable call of `a`: the others go first, then the call happens in state `at`. */
    method Call(a: ActorId) returns (at: Durable, c: Choice)
      requires Valid() && PcOf(s, a) != Idle
      requires PcOf(s, a).Copying? && quiet ==> StagedUnchanged(s.d, PcOf(s, a).v)
      modifies this
      ensures Valid() && old(run) <= run
      ensures Rely(old(s.d), at) && DurableInv(H, at) && PcInv(H, at, old(PcOf(s, a))) && Rely(at, s.d)
      ensures c.Reply? && Move(H, at, old(PcOf(s, a)), c) == Some((s.d, PcOf(s, a)))
      ensures quiet ==> at == old(s.d) && FaultFree(at, old(PcOf(s, a)), c)
    {
      Pause(a);
      c := Answer(a);
      at := s.d;
      Step(a, c);
    }

    /** An idle actor starts a request; `at` is the state its first read or claim sees. */
    method Begin(a: ActorId, request: Request) returns (at: Durable)
      requires Valid() && PcOf(s, a) == Idle && !request.RepeatJob?
      modifies this
      ensures Valid() && old(run) <= run
      ensures Rely(old(s.d), at) && DurableInv(H, at) && Rely(at, s.d)
      ensures StartMove(at, request) == Some((s.d, PcOf(s, a)))
      ensures quiet ==> at == old(s.d)
    {
      Pause(a);
      at := s.d;
      Step(a, Start(request));
    }

    method Step(a: ActorId, c: Choice)
      requires Valid() && Move(H, s.d, PcOf(s, a), c).Some?
      modifies this
      ensures Valid() && old(run) <= run && Rely(old(s.d), s.d)
      ensures Move(H, old(s.d), old(PcOf(s, a)), c) == Some((s.d, PcOf(s, a)))
    {
      StepKeepsInv(H, s, By(a, c));
      var r := Move(H, s.d, PcOf(s, a), c);
      var t := System(r.value.0, s.pcs[a := r.value.1]);
      assert Exec(H, s, By(a, c)) == Some(t);
      Runs.ExtendRun(NextOf(H), run, t);
      s := t;
      run := run + [t];
    }
  }
}
