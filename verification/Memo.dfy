/** What a memo table saves: of a list of questions, each one is worked out only where it first occurs. */
module Memo {
  /** The first occurrences, in order. */
  function Firsts<T(==)>(s: seq<T>): seq<T> {
    if s == [] then []
    else
      var front, last := Firsts(s[..|s| - 1]), s[|s| - 1];
      if last in front then front else front + [last]
  }

  function Members<T(==)>(s: seq<T>): set<T> {
    set x | x in s
  }

  lemma OneMoreMember<T>(s: seq<T>, x: T)
    ensures Members(s + [x]) == Members(s) + {x}
  {
  }

  lemma {:induction false} FirstsAreMembers<T>(s: seq<T>, x: T)
    ensures x in Firsts(s) <==> x in s
  {
    if s != [] {
      FirstsAreMembers(s[..|s| - 1], x);
      assert s == s[..|s| - 1] + [s[|s| - 1]];
    }
  }

  /** Nothing is worked out twice. */
  lemma {:induction false} FirstsAreDistinct<T>(s: seq<T>)
    ensures forall i, j | 0 <= i < j < |Firsts(s)| :: Firsts(s)[i] != Firsts(s)[j]
  {
    if s != [] {
      FirstsAreDistinct(s[..|s| - 1]);
    }
  }

  lemma FirstsOneMore<T>(s: seq<T>, x: T)
    ensures Firsts(s + [x]) == if x in s then Firsts(s) else Firsts(s) + [x]
  {
    FirstsAreMembers(s, x);
    assert (s + [x])[..|s|] == s;
  }

  lemma {:induction false} FirstsOfPrefix<T>(some: seq<T>, all: seq<T>)
    requires some <= all
    ensures Firsts(some) <= Firsts(all)
    decreases |all|
  {
    if |some| < |all| {
      FirstsOfPrefix(some, all[..|all| - 1]);
    } else {
      assert some == all;
    }
  }
}
