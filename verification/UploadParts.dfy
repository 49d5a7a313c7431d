/** What becomes of the parts of an upload over whole runs: a part once stored stays until it is replaced under its own
    number, and a committed object is the listed parts in the order of their numbers. */
module UploadParts {
  import opened CompleteParts
  import opened Keys
  import opened UploadState
  import opened UploadProtocol
  import opened UploadInvariant
  import opened UploadRuns
  import opened Wrappers

  /** The call that stores `bytes` as part `n` of upload `m`. */
  predicate Puts(pc: Pc, m: nat, n: int, bytes: Bytes) {
    pc.SendingPart? && pc.upload == m && pc.number == n && pc.bytes == bytes
  }

  lemma MovesPutOneByOne(H: Bytes -> Digest, d: Durable, pc: Pc, c: Choice, m: nat, n: int)
    requires m in d.uploads && Move(H, d, pc, c).Some?
    ensures var e := Move(H, d, pc, c).value.0;
      && m in e.uploads
      && (n in d.uploads[m].parts ==> n in e.uploads[m].parts)
      && (n in e.uploads[m].parts ==>
            || (n in d.uploads[m].parts && e.uploads[m].parts[n] == d.uploads[m].parts[n])
            || (IsActive(d, m) && Puts(pc, m, n, e.uploads[m].parts[n].bytes)))
  {
    if c.Reply? {
      if IsClient(pc) {
        ClientPuts(d, pc, c, m, n);
      } else if IsFinish(pc) {
        FinishersPutNothing(d, pc, c, m);
      } else {
        WorkersPutNothing(H, d, pc, c);
      }
    }
  }

  lemma ClientPuts(d: Durable, pc: Pc, c: Choice, m: nat, n: int)
    requires m in d.uploads && c.Reply? && ClientMove(d, pc, c).Some?
    ensures var e := ClientMove(d, pc, c).value.0;
      && m in e.uploads
      && (n in d.uploads[m].parts ==> n in e.uploads[m].parts)
      && (n in e.uploads[m].parts ==>
            || (n in d.uploads[m].parts && e.uploads[m].parts[n] == d.uploads[m].parts[n])
            || (IsActive(d, m) && Puts(pc, m, n, e.uploads[m].parts[n].bytes)))
  {
  }

  lemma FinishersPutNothing(d: Durable, pc: Pc, c: Choice, m: nat)
    requires m in d.uploads && c.Reply? && FinishMove(d, pc, c).Some?
    ensures var e := FinishMove(d, pc, c).value.0; m in e.uploads && e.uploads[m].parts == d.uploads[m].parts
  {
  }

  lemma WorkersPutNothing(H: Bytes -> Digest, d: Durable, pc: Pc, c: Choice)
    requires c.Reply? && WorkerMove(H, d, pc, c).Some?
    ensures WorkerMove(H, d, pc, c).value.0.uploads == d.uploads
  {
  }

  /** One step of anybody: no stored part is lost, and a part is new or changed only because a put of exactly its number
      and bytes reached an upload that was still active. */
  lemma OnlyAPutChangesAPart(H: Bytes -> Digest, s: System, step: Step, m: nat, n: int)
    requires m in s.d.uploads && Exec(H, s, step).Some?
    ensures var t := Exec(H, s, step).value;
      && m in t.d.uploads
      && (n in s.d.uploads[m].parts ==> n in t.d.uploads[m].parts)
      && (n in t.d.uploads[m].parts ==>
            || (n in s.d.uploads[m].parts && t.d.uploads[m].parts[n] == s.d.uploads[m].parts[n])
            || (step.By? && IsActive(s.d, m) && Puts(PcOf(s, step.a), m, n, t.d.uploads[m].parts[n].bytes)))
  {
    if step.By? {
      MovesPutOneByOne(H, s.d, PcOf(s, step.a), step.c, m, n);
    }
  }

  /** Over whole runs: no part is ever lost, and those of an upload that is over never change. */
  lemma PartsStay(H: Bytes -> Digest, s: System, t: System, m: nat)
    requires Reachable(H, s) && Evolves(H, s, t) && m in s.d.uploads
    ensures m in t.d.uploads && forall n <- s.d.uploads[m].parts :: n in t.d.uploads[m].parts
    ensures s.d.uploads[m].status != Active ==> t.d.uploads[m] == s.d.uploads[m]
  {
    ReachableIsSafe(H, s);
    EvolutionIsSafe(H, s, t);
    assert UploadKept(s.d, t.d, m);
  }

  lemma ClientsStartEmpty(d: Durable, pc: Pc, c: Choice, m: nat)
    requires c.Reply? && ClientMove(d, pc, c).Some? && m !in d.uploads
    ensures var e := ClientMove(d, pc, c).value.0; m in e.uploads ==> e.uploads[m].parts == map[] && IsActive(e, m)
  {
  }

  /** A new upload starts without parts. */
  lemma NewUploadsAreEmpty(H: Bytes -> Digest, s: System, step: Step, t: System, m: nat)
    requires Exec(H, s, step) == Some(t) && m !in s.d.uploads && m in t.d.uploads
    requires Inv(H, s)
    ensures t.d.uploads[m].parts == map[] && IsActive(t.d, m)
  {
    if step.By? && step.c.Reply? {
      var pc := PcOf(s, step.a);
      if IsClient(pc) {
        ClientsStartEmpty(s.d, pc, step.c, m);
      } else if IsFinish(pc) {
        FinishersAddNothing(H, s.d, pc, step.c, m);
      } else {
        WorkersPutNothing(H, s.d, pc, step.c);
      }
    }
  }

  lemma FinishersAddNothing(H: Bytes -> Digest, d: Durable, pc: Pc, c: Choice, m: nat)
    requires c.Reply? && FinishMove(d, pc, c).Some? && PcInv(H, d, pc)
    ensures m in FinishMove(d, pc, c).value.0.uploads ==> m in d.uploads
  {
  }

  predicate CommittedIn(d: Durable, m: nat) {
    m in d.uploads && d.uploads[m].status.Committed?
  }

  lemma ClientsCommitNothing(d: Durable, pc: Pc, c: Choice, m: nat)
    requires m in d.uploads && c.Reply? && ClientMove(d, pc, c).Some?
    ensures CommittedIn(ClientMove(d, pc, c).value.0, m) ==> CommittedIn(d, m)
  {
  }

  lemma FinishersCommitTheirOwn(d: Durable, pc: Pc, c: Choice, m: nat)
    requires m in d.uploads && c.Reply? && FinishMove(d, pc, c).Some? && !CommittedIn(d, m)
    ensures CommittedIn(FinishMove(d, pc, c).value.0, m) ==>
      && pc.CompletingStaging? && pc.upload == m && IsActive(d, m) && PartsPresent(d.uploads[m].parts, pc.parts)
      && FinishMove(d, pc, c).value.0.uploads[m]
         == d.uploads[m].(status := Committed(Object(Assemble(d.uploads[m].parts, pc.parts), c.etag)))
  {
  }

  /** Only a completion commits, and only its own upload. */
  lemma CommitsAreCompletions(H: Bytes -> Digest, s: System, step: Step, t: System, m: nat)
    requires Exec(H, s, step) == Some(t) && m in s.d.uploads && !CommittedIn(s.d, m) && CommittedIn(t.d, m)
    ensures step.By? && PcOf(s, step.a).CompletingStaging?
    ensures var pc := PcOf(s, step.a);
      && PartsPresent(s.d.uploads[m].parts, pc.parts)
      && t.d.uploads[m].parts == s.d.uploads[m].parts
      && t.d.uploads[m].status.obj.bytes == Assemble(s.d.uploads[m].parts, pc.parts)
  {
    if step.By? && step.c.Reply? {
      var pc := PcOf(s, step.a);
      if IsClient(pc) {
        ClientsCommitNothing(s.d, pc, step.c, m);
      } else if IsFinish(pc) {
        FinishersCommitTheirOwn(s.d, pc, step.c, m);
      } else {
        WorkersPutNothing(H, s.d, pc, step.c);
      }
    }
  }

  /** Every commit of every run: the object is exactly the listed parts joined in increasing order of their numbers, each
      listed with the tag it was stored under; and it stays that way. */
  lemma CommitsJoinTheListedParts(H: Bytes -> Digest, s: System, step: Step, t: System, u: System, m: nat)
    requires Reachable(H, s) && Exec(H, s, step) == Some(t) && Evolves(H, t, u)
    requires m in s.d.uploads && !CommittedIn(s.d, m) && CommittedIn(t.d, m)
    ensures step.By? && PcOf(s, step.a).CompletingStaging? && CommittedIn(u.d, m)
    ensures var listed, stored := PcOf(s, step.a).parts, s.d.uploads[m].parts;
      && StrictlyIncreasing(listed)
      && (forall i | 0 <= i < |listed| :: listed[i].number in stored && stored[listed[i].number].etag == listed[i].etag)
      && u.d.uploads[m].parts == stored
      && Joined(stored, listed, u.d.uploads[m].status.obj.bytes)
  {
    ReachableIsSafe(H, s);
    StepKeepsInv(H, s, step);
    CommitsAreCompletions(H, s, step, t, m);
    EvolutionIsSafe(H, t, u);
    assert UploadKept(t.d, u.d, m);
    assert PcInv(H, s.d, PcOf(s, step.a));
    AssemblyIsJoined(s.d.uploads[m].parts, PcOf(s, step.a).parts);
  }
}
