/** Runs of a transition system, and what an invariant that every step keeps means for them. */
module Runs {
  ghost predicate Hop<S(!new)>(next: (S, S) -> bool, run: seq<S>, i: nat)
    requires i + 1 < |run|
  {
    next(run[i], run[i + 1])
  }

  /** Each state follows from the one before it by one step. */
  ghost predicate IsRun<S(!new)>(next: (S, S) -> bool, run: seq<S>) {
    run != [] && forall i: nat {:trigger Hop(next, run, i)} :: i + 1 < |run| ==> Hop(next, run, i)
  }

  ghost predicate Evolves<S(!new)>(next: (S, S) -> bool, s: S, t: S) {
    exists run: seq<S> :: IsRun(next, run) && run[0] == s && run[|run| - 1] == t
  }

  lemma ExtendRun<S(!new)>(next: (S, S) -> bool, run: seq<S>, t: S)
    requires IsRun(next, run) && next(run[|run| - 1], t)
    ensures IsRun(next, run + [t])
  {
    var longer := run + [t];
    forall i: nat | i + 1 < |longer| ensures Hop(next, longer, i) {
      if i + 1 < |run| {
        assert Hop(next, run, i);
      }
    }
  }

  lemma StandStill<S(!new)>(next: (S, S) -> bool, s: S)
    ensures Evolves(next, s, s)
  {
    assert IsRun(next, [s]);
  }

  lemma EvolveOnce<S(!new)>(next: (S, S) -> bool, s: S, t: S, u: S)
    requires Evolves(next, s, t) && next(t, u)
    ensures Evolves(next, s, u)
  {
    var run: seq<S> :| IsRun(next, run) && run[0] == s && run[|run| - 1] == t;
    ExtendRun(next, run, u);
    var longer := run + [u];
    assert longer[0] == s && longer[|longer| - 1] == u;
  }

  /** `kept` relates states across any number of steps. */
  ghost predicate IsPreorder<S(!new)>(kept: (S, S) -> bool) {
    && (forall s :: kept(s, s))
    && (forall s, t, u :: kept(s, t) && kept(t, u) ==> kept(s, u))
  }

  ghost predicate StepsKeep<S(!new)>(next: (S, S) -> bool, inv: S -> bool, kept: (S, S) -> bool) {
    forall s, t :: next(s, t) && inv(s) ==> inv(t) && kept(s, t)
  }

  /** What every step keeps, every run keeps. */
  lemma {:induction false} RunsKeep<S(!new)>(next: (S, S) -> bool, inv: S -> bool, kept: (S, S) -> bool,
                                            run: seq<S>, i: nat)
    requires IsRun(next, run) && inv(run[0]) && i < |run|
    requires IsPreorder(kept) && StepsKeep(next, inv, kept)
    ensures inv(run[i]) && kept(run[0], run[i])
  {
    if i > 0 {
      RunsKeep(next, inv, kept, run, i - 1);
      assert Hop(next, run, i - 1);
    }
  }
}
