/** What callers of a sorting routine may rely on, with one implementation that meets it. */
module Sorting {
  /** `leq` is a total, transitive order on the elements of `s`. */
  ghost predicate Orders<T(!new)>(leq: (T, T) -> bool, s: seq<T>) {
    && (forall a, b | a in s && b in s :: leq(a, b) || leq(b, a))
    && (forall a, b, c | a in s && b in s && c in s && leq(a, b) && leq(b, c) :: leq(a, c))
  }

  predicate Sorted<T>(leq: (T, T) -> bool, s: seq<T>) {
    forall i, j | 0 <= i < j < |s| :: leq(s[i], s[j])
  }

  function Insert<T>(leq: (T, T) -> bool, x: T, s: seq<T>): seq<T> {
    if s == [] || leq(x, s[0]) then [x] + s else [s[0]] + Insert(leq, x, s[1..])
  }

  function Sort<T>(leq: (T, T) -> bool, s: seq<T>): seq<T> {
    if s == [] then [] else Insert(leq, s[0], Sort(leq, s[1..]))
  }

  lemma {:induction false} InsertPermutes<T>(leq: (T, T) -> bool, x: T, s: seq<T>)
    ensures multiset(Insert(leq, x, s)) == multiset{x} + multiset(s)
  {
    if s != [] {
      InsertPermutes(leq, x, s[1..]);
      assert s == [s[0]] + s[1..];
    }
  }

  lemma {:induction false} SortPermutes<T>(leq: (T, T) -> bool, s: seq<T>)
    ensures multiset(Sort(leq, s)) == multiset(s)
  {
    if s != [] {
      SortPermutes(leq, s[1..]);
      InsertPermutes(leq, s[0], Sort(leq, s[1..]));
      assert s == [s[0]] + s[1..];
    }
  }

  /** Permutations have the same length and the same members. */
  lemma PermutationMembers<T>(a: seq<T>, b: seq<T>)
    requires multiset(a) == multiset(b)
    ensures |a| == |b|
    ensures forall p :: p in a <==> p in b
  {
    assert |multiset(a)| == |multiset(b)|;
    forall p ensures p in a <==> p in b {
      assert p in a <==> p in multiset(a);
      assert p in b <==> p in multiset(b);
    }
  }

  lemma RemoveOne<T>(s: seq<T>, i: nat)
    requires i < |s|
    ensures multiset(s[..i] + s[i + 1..]) == multiset(s) - multiset{s[i]}
  {
    assert s == s[..i] + [s[i]] + s[i + 1..];
  }

  lemma RemoveHead<T>(s: seq<T>)
    requires s != []
    ensures multiset(s[1..]) == multiset(s) - multiset{s[0]}
  {
    RemoveOne(s, 0);
    assert s[..0] + s[1..] == s[1..];
  }

  lemma SameTail<T>(a: seq<T>, b: seq<T>)
    requires a != [] && b != [] && a[0] == b[0] && multiset(a) == multiset(b)
    ensures multiset(a[1..]) == multiset(b[1..])
  {
    RemoveHead(a);
    RemoveHead(b);
  }

  lemma {:induction false} InsertKeepsBound<T>(leq: (T, T) -> bool, y: T, x: T, s: seq<T>)
    requires leq(y, x) && forall j | 0 <= j < |s| :: leq(y, s[j])
    ensures forall j | 0 <= j < |s| + 1 :: j < |Insert(leq, x, s)| && leq(y, Insert(leq, x, s)[j])
    ensures |Insert(leq, x, s)| == |s| + 1
  {
    if s != [] {
      InsertKeepsBound(leq, y, x, s[1..]);
    }
  }

  lemma {:induction false} InsertSorts<T(!new)>(leq: (T, T) -> bool, x: T, s: seq<T>)
    requires Sorted(leq, s) && Orders(leq, [x] + s)
    ensures Sorted(leq, Insert(leq, x, s))
  {
    if s != [] {
      var all := [x] + s;
      assert all[0] == x && all[1] == s[0];
      if leq(x, s[0]) {
        forall j | 0 <= j < |s| ensures leq(x, s[j]) {
          assert all[j + 1] == s[j];
          assert j > 0 ==> leq(s[0], s[j]);
        }
      } else {
        assert leq(s[0], x);
        forall a | a in [x] + s[1..] ensures a in all {
        }
        InsertSorts(leq, x, s[1..]);
        InsertKeepsBound(leq, s[0], x, s[1..]);
      }
    }
  }

  lemma {:induction false} SortSorts<T(!new)>(leq: (T, T) -> bool, s: seq<T>)
    requires Orders(leq, s)
    ensures Sorted(leq, Sort(leq, s))
  {
    if s != [] {
      SortSorts(leq, s[1..]);
      SortPermutes(leq, s[1..]);
      PermutationMembers(Sort(leq, s[1..]), s[1..]);
      forall a | a in [s[0]] + Sort(leq, s[1..]) ensures a in s {
      }
      InsertSorts(leq, s[0], Sort(leq, s[1..]));
    }
  }

  /** `slices.SortFunc` and `sort.Strings`: a permutation, which is sorted when the comparator is an order. */
  method SortFunc<T(!new)>(leq: (T, T) -> bool, s: seq<T>) returns (t: seq<T>)
    ensures multiset(t) == multiset(s)
    ensures Orders(leq, s) ==> Sorted(leq, t)
  {
    t := Sort(leq, s);
    SortPermutes(leq, s);
    if Orders(leq, s) {
      SortSorts(leq, s);
    }
  }
}
