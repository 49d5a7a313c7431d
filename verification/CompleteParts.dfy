/** Normalisation of the part list a client hands to multipart completion
    (internal/objectstore/objectstore.go and internal/uploads/service.go). */
module CompleteParts {
  import opened Int64
  import Sorting
  import opened Text
  import opened Wrappers

  const MULTIPART_MIN_PART_SIZE_BYTES := 5 * 1024 * 1024
  const MULTIPART_MAX_PART_SIZE_BYTES := 5 * 1024 * 1024 * 1024
  const MULTIPART_MAX_PART_NUMBER := 10000

  datatype CompletePart = CompletePart(number: int64, etag: string, size: int64)

  predicate ValidNumber(n: int) {
    1 <= n <= MULTIPART_MAX_PART_NUMBER
  }

  /** A part that passes the validators which look at one part only. */
  predicate ValidPart(p: CompletePart) {
    1 <= p.number <= 10000 && !IsBlank(p.etag) && 0 <= p.size <= 5_368_709_120
  }

  predicate AllValid(parts: seq<CompletePart>) {
    forall i | 0 <= i < |parts| :: ValidPart(parts[i])
  }

  /** Every part but the highest-numbered has at least 5 MiB. */
  predicate NonFinalAreLarge(parts: seq<CompletePart>) {
    forall i, j | 0 <= i < |parts| && 0 <= j < |parts| ::
      parts[i].number < parts[j].number ==> parts[i].size >= 5_242_880
  }

  /** The part lists S3 can complete, said without reference to any order of the list. */
  predicate Acceptable(parts: seq<CompletePart>) {
    parts != [] && AllValid(parts) && DistinctNumbers(parts) && NonFinalAreLarge(parts)
  }

  predicate Ordered(parts: seq<CompletePart>) {
    forall i, j | 0 <= i < j < |parts| :: parts[i].number <= parts[j].number
  }

  predicate StrictlyIncreasing(parts: seq<CompletePart>) {
    forall i, j | 0 <= i < j < |parts| :: parts[i].number < parts[j].number
  }

  /** The comparator of the source: a 64-bit difference, which wraps for far-apart numbers. */
  function CompareNumbers(left: CompletePart, right: CompletePart): int64 {
    Wrap(left.number - right.number)
  }

  const BY_NUMBER: (CompletePart, CompletePart) -> bool := (left, right) => CompareNumbers(left, right) <= 0

  predicate AllNumbersValid(parts: seq<CompletePart>) {
    forall i | 0 <= i < |parts| :: ValidNumber(parts[i].number)
  }

  /** As long as no difference wraps, the comparator is an order. */
  lemma NumbersAreOrdered(parts: seq<CompletePart>)
    requires AllNumbersValid(parts)
    ensures Sorting.Orders(BY_NUMBER, parts)
    ensures Sorting.Sorted(BY_NUMBER, parts) ==> Ordered(parts)
  {
    forall i, j | 0 <= i < |parts| && 0 <= j < |parts|
      ensures BY_NUMBER(parts[i], parts[j]) <==> parts[i].number <= parts[j].number
    {
    }
  }

  function SortByNumber(parts: seq<CompletePart>): seq<CompletePart> {
    Sorting.Sort(BY_NUMBER, parts)
  }

  lemma SortPermutes(parts: seq<CompletePart>)
    ensures multiset(SortByNumber(parts)) == multiset(parts)
  {
    Sorting.SortPermutes(BY_NUMBER, parts);
  }

  /** Any sorted permutation of valid numbers is ordered by them. */
  lemma SortedIsOrdered(parts: seq<CompletePart>, sorted: seq<CompletePart>)
    requires AllNumbersValid(parts) && multiset(sorted) == multiset(parts)
    requires Sorting.Orders(BY_NUMBER, parts) ==> Sorting.Sorted(BY_NUMBER, sorted)
    ensures Ordered(sorted) && AllNumbersValid(sorted)
  {
    Sorting.PermutationMembers(sorted, parts);
    forall i | 0 <= i < |sorted| ensures ValidNumber(sorted[i].number) {
      assert sorted[i] in parts;
    }
    NumbersAreOrdered(parts);
    NumbersAreOrdered(sorted);
  }

  lemma SortOrders(parts: seq<CompletePart>)
    requires AllNumbersValid(parts)
    ensures Ordered(SortByNumber(parts)) && AllNumbersValid(SortByNumber(parts))
  {
    SortPermutes(parts);
    NumbersAreOrdered(parts);
    Sorting.SortSorts(BY_NUMBER, parts);
    SortedIsOrdered(parts, SortByNumber(parts));
  }

  /** The specification of normalisation. */
  function Normalized(parts: seq<CompletePart>): Option<seq<CompletePart>> {
    if Acceptable(parts) then Some(SortByNumber(parts)) else None
  }

  predicate DistinctNumbers(parts: seq<CompletePart>) {
    forall i, j | 0 <= i < j < |parts| :: parts[i].number != parts[j].number
  }

  /** The number of parts that carry number `n`. */
  function Count(parts: seq<CompletePart>, n: int): nat {
    if parts == [] then 0 else (if parts[0].number == n then 1 else 0) + Count(parts[1..], n)
  }

  lemma {:induction false} CountRemove(parts: seq<CompletePart>, i: nat, n: int)
    requires i < |parts|
    ensures Count(parts, n) == Count(parts[..i] + parts[i + 1..], n) + (if parts[i].number == n then 1 else 0)
  {
    if i == 0 {
      assert parts[..0] + parts[1..] == parts[1..];
    } else {
      CountRemove(parts[1..], i - 1, n);
      var r := parts[..i] + parts[i + 1..];
      assert r[0] == parts[0];
      assert r[1..] == parts[1..][..i - 1] + parts[1..][i..];
    }
  }

  /** Counting looks at the multiset only. */
  lemma {:induction false} CountPermutation(a: seq<CompletePart>, b: seq<CompletePart>, n: int)
    requires multiset(a) == multiset(b)
    ensures Count(a, n) == Count(b, n)
    decreases |a|
  {
    Sorting.PermutationMembers(a, b);
    if a != [] {
      assert a[0] in b;
      var i :| 0 <= i < |b| && b[i] == a[0];
      CountRemove(b, i, n);
      Sorting.RemoveOne(b, i);
      Sorting.RemoveHead(a);
      CountPermutation(a[1..], b[..i] + b[i + 1..], n);
    }
  }

  lemma {:induction false} CountPositive(parts: seq<CompletePart>, n: int)
    ensures Count(parts, n) > 0 <==> exists i | 0 <= i < |parts| :: parts[i].number == n
  {
    if parts != [] {
      CountPositive(parts[1..], n);
      if i :| 0 < i < |parts| && parts[i].number == n {
        assert parts[1..][i - 1].number == n;
      }
    }
  }

  ghost predicate AtMostOnce(parts: seq<CompletePart>) {
    forall n :: Count(parts, n) <= 1
  }

  lemma {:induction false} DistinctByCounts(parts: seq<CompletePart>)
    ensures DistinctNumbers(parts) <==> AtMostOnce(parts)
  {
    if parts != [] {
      var rest, n := parts[1..], parts[0].number;
      DistinctByCounts(rest);
      CountPositive(rest, n);
      if Count(rest, n) > 0 {
        var i :| 0 <= i < |rest| && rest[i].number == n;
        assert parts[0].number == parts[i + 1].number;
        assert !AtMostOnce(parts) by { assert Count(parts, n) > 1; }
      } else if DistinctNumbers(rest) {
        assert forall k | 1 <= k < |parts| :: parts[k] == rest[k - 1];
        forall m ensures Count(parts, m) <= 1 {
          assert Count(rest, m) <= 1;
        }
      } else {
        var m :| Count(rest, m) > 1;
        assert Count(parts, m) > 1;
        var i, j :| 0 <= i < j < |rest| && rest[i].number == rest[j].number;
        assert parts[i + 1].number == parts[j + 1].number;
      }
    }
  }

  lemma SameHead(a: seq<CompletePart>, b: seq<CompletePart>)
    requires a != [] && multiset(a) == multiset(b) && StrictlyIncreasing(a) && StrictlyIncreasing(b)
    ensures b != [] && a[0] == b[0]
  {
    Sorting.PermutationMembers(a, b);
    assert a[0] in b && b[0] in a;
  }

  /** Two strictly increasing arrangements of one multiset of parts are the same list, so the result of
      normalisation depends neither on the order of the input nor on the sorting algorithm. */
  lemma {:induction false} StrictArrangementIsUnique(a: seq<CompletePart>, b: seq<CompletePart>)
    requires multiset(a) == multiset(b) && StrictlyIncreasing(a) && StrictlyIncreasing(b)
    ensures a == b
    decreases |a|
  {
    Sorting.PermutationMembers(a, b);
    if a != [] {
      SameHead(a, b);
      Sorting.SameTail(a, b);
      StrictArrangementIsUnique(a[1..], b[1..]);
    }
  }

  /** An ordered arrangement is strictly increasing exactly when the input had no duplicate number. */
  lemma StrictWhenDistinct(parts: seq<CompletePart>, sorted: seq<CompletePart>)
    requires multiset(sorted) == multiset(parts) && Ordered(sorted)
    ensures StrictlyIncreasing(sorted) <==> DistinctNumbers(parts)
  {
    forall n ensures Count(parts, n) == Count(sorted, n) {
      CountPermutation(parts, sorted, n);
    }
    DistinctByCounts(parts);
    DistinctByCounts(sorted);
    assert AtMostOnce(parts) <==> AtMostOnce(sorted);
    assert DistinctNumbers(parts) <==> DistinctNumbers(sorted);
    if DistinctNumbers(sorted) {
      forall i, j | 0 <= i < j < |sorted| ensures sorted[i].number < sorted[j].number {
        assert sorted[i].number != sorted[j].number;
      }
    }
  }

  /** What the scan over the sorted copy checks at one index. */
  predicate ScanAccepts(sorted: seq<CompletePart>, i: nat)
    requires i < |sorted|
  {
    && ValidPart(sorted[i])
    && (i < |sorted| - 1 ==> sorted[i].size >= MULTIPART_MIN_PART_SIZE_BYTES)
    && (i > 0 ==> sorted[i - 1].number != sorted[i].number)
  }

  predicate ScanPasses(sorted: seq<CompletePart>) {
    forall i | 0 <= i < |sorted| :: ScanAccepts(sorted, i)
  }

  predicate AllButLastAreLarge(sorted: seq<CompletePart>) {
    forall i | 0 <= i < |sorted| - 1 :: sorted[i].size >= MULTIPART_MIN_PART_SIZE_BYTES
  }

  predicate NeighboursDiffer(sorted: seq<CompletePart>) {
    forall i | 0 < i < |sorted| :: sorted[i - 1].number != sorted[i].number
  }

  lemma ScanChecks(sorted: seq<CompletePart>)
    ensures ScanPasses(sorted) <==> AllValid(sorted) && AllButLastAreLarge(sorted) && NeighboursDiffer(sorted)
  {
    if ScanPasses(sorted) {
      forall i | 0 <= i < |sorted|
        ensures ValidPart(sorted[i])
        ensures i < |sorted| - 1 ==> sorted[i].size >= MULTIPART_MIN_PART_SIZE_BYTES
        ensures i > 0 ==> sorted[i - 1].number != sorted[i].number
      {
        assert ScanAccepts(sorted, i);
      }
    }
  }

  lemma ValidityIsOrderFree(parts: seq<CompletePart>, sorted: seq<CompletePart>)
    requires multiset(sorted) == multiset(parts)
    ensures AllValid(parts) <==> AllValid(sorted)
  {
    Sorting.PermutationMembers(parts, sorted);
    forall i | 0 <= i < |parts| ensures parts[i] in sorted {
      assert parts[i] in parts;
    }
    forall i | 0 <= i < |sorted| ensures sorted[i] in parts {
      assert sorted[i] in sorted;
    }
  }

  lemma BigEnoughIsOrderFree(parts: seq<CompletePart>, sorted: seq<CompletePart>)
    requires parts != [] && multiset(sorted) == multiset(parts) && StrictlyIncreasing(sorted)
    ensures AllButLastAreLarge(sorted) <==> NonFinalAreLarge(parts)
  {
    Sorting.PermutationMembers(parts, sorted);
    forall i | 0 <= i < |parts| ensures parts[i] in sorted {
      assert parts[i] in parts;
    }
    forall i | 0 <= i < |sorted| ensures sorted[i] in parts {
      assert sorted[i] in sorted;
    }
    var last := sorted[|sorted| - 1];
    assert last in parts;
    var l :| 0 <= l < |parts| && parts[l] == last;
    if NonFinalAreLarge(parts) {
      forall k | 0 <= k < |sorted| - 1 ensures sorted[k].size >= MULTIPART_MIN_PART_SIZE_BYTES {
        var i :| 0 <= i < |parts| && parts[i] == sorted[k];
        assert parts[i].number < parts[l].number;
      }
    }
  }

  /** In an ordered list duplicates are neighbours, so comparing neighbours is enough. */
  lemma NeighboursDecideStrictness(sorted: seq<CompletePart>)
    requires Ordered(sorted)
    ensures StrictlyIncreasing(sorted) <==> NeighboursDiffer(sorted)
  {
    if NeighboursDiffer(sorted) {
      forall i, j | 0 <= i < j < |sorted| ensures sorted[i].number < sorted[j].number {
        assert sorted[j - 1].number != sorted[j].number;
      }
    }
  }

  /** The scan accepts every index of the sorted copy exactly when the input list is acceptable. */
  lemma ScanDecidesAcceptance(parts: seq<CompletePart>, sorted: seq<CompletePart>)
    requires parts != [] && multiset(sorted) == multiset(parts)
    requires AllNumbersValid(parts) ==> Ordered(sorted)
    ensures ScanPasses(sorted) <==> Acceptable(parts)
    ensures Acceptable(parts) ==> StrictlyIncreasing(sorted)
  {
    ScanChecks(sorted);
    ValidityIsOrderFree(parts, sorted);
    if AllValid(parts) {
      assert AllNumbersValid(parts);
      StrictWhenDistinct(parts, sorted);
      NeighboursDecideStrictness(sorted);
      if StrictlyIncreasing(sorted) {
        BigEnoughIsOrderFree(parts, sorted);
      }
    }
  }

  /** `NormalizeCompleteParts`: sort a copy, then scan it. It succeeds on exactly the acceptable lists. */
  method NormalizeCompleteParts(parts: seq<CompletePart>) returns (r: Option<seq<CompletePart>>)
    ensures r.Some? <==> Acceptable(parts)
    ensures r.Some? ==> StrictlyIncreasing(r.value) && multiset(r.value) == multiset(parts)
    ensures r == Normalized(parts)
  {
    if |parts| == 0 {
      return None;
    }
    var normalized := Sorting.SortFunc(BY_NUMBER, parts);
    if AllNumbersValid(parts) {
      SortedIsOrdered(parts, normalized);
    }
    ScanDecidesAcceptance(parts, normalized);
    var index := 0;
    while index < |normalized|
      invariant 0 <= index <= |normalized|
      invariant forall k | 0 <= k < index :: ScanAccepts(normalized, k)
    {
      var part := normalized[index];
      if !ValidNumber(part.number) {
        assert !ScanAccepts(normalized, index);
        return None;
      }
      if IsBlank(part.etag) {
        assert !ScanAccepts(normalized, index);
        return None;
      }
      if part.size < 0 || part.size > MULTIPART_MAX_PART_SIZE_BYTES {
        assert !ScanAccepts(normalized, index);
        return None;
      }
      if index < |normalized| - 1 && part.size < MULTIPART_MIN_PART_SIZE_BYTES {
        assert !ScanAccepts(normalized, index);
        return None;
      }
      if index > 0 && normalized[index - 1].number == part.number {
        assert !ScanAccepts(normalized, index);
        return None;
      }
      index := index + 1;
    }
    SortPermutes(parts);
    SortOrders(parts);
    ScanDecidesAcceptance(parts, SortByNumber(parts));
    StrictArrangementIsUnique(normalized, SortByNumber(parts));
    return Some(normalized);
  }

  lemma NormalizedIsStrict(parts: seq<CompletePart>)
    ensures Normalized(parts).Some? ==> StrictlyIncreasing(Normalized(parts).value)
  {
    if Acceptable(parts) {
      SortPermutes(parts);
      SortOrders(parts);
      ScanDecidesAcceptance(parts, SortByNumber(parts));
    }
  }

  /** Normalisation forgets the order of the list it was given. */
  lemma NormalizationIsOrderFree(a: seq<CompletePart>, b: seq<CompletePart>)
    requires multiset(a) == multiset(b)
    ensures Normalized(a) == Normalized(b)
  {
    Sorting.PermutationMembers(a, b);
    if a != [] {
      var x, y := SortByNumber(a), SortByNumber(b);
      SortPermutes(a);
      SortPermutes(b);
      if AllNumbersValid(a) || AllNumbersValid(b) {
        forall i | 0 <= i < |a| ensures a[i] in b {
          assert a[i] in a;
        }
        forall i | 0 <= i < |b| ensures b[i] in a {
          assert b[i] in b;
        }
        SortOrders(a);
        SortOrders(b);
      }
      ScanDecidesAcceptance(a, x);
      ScanDecidesAcceptance(b, x);
      ScanDecidesAcceptance(b, y);
      if Acceptable(a) {
        StrictArrangementIsUnique(x, y);
      }
    }
  }

  /** The exact sum of the accepted sizes. */
  function Total(parts: seq<CompletePart>): int {
    if parts == [] then 0 else Total(parts[..|parts| - 1]) + parts[|parts| - 1].size
  }

  /** Pigeonhole: distinct part numbers between 1 and 10000 leave room for at most 10000 parts. */
  lemma {:induction false} AtMostMaxParts(sorted: seq<CompletePart>)
    requires StrictlyIncreasing(sorted) && AllValid(sorted)
    ensures sorted != [] ==> |sorted| <= sorted[|sorted| - 1].number
    ensures |sorted| <= MULTIPART_MAX_PART_NUMBER
  {
    if |sorted| > 1 {
      AtMostMaxParts(sorted[..|sorted| - 1]);
    }
  }

  lemma MulStep(n: int, m: int)
    ensures (n + 1) * m == n * m + m
  {
  }

  lemma {:induction false} TotalAtMost(parts: seq<CompletePart>, m: int)
    requires forall i | 0 <= i < |parts| :: 0 <= parts[i].size <= m
    ensures 0 <= Total(parts) <= |parts| * m
  {
    if parts != [] {
      var n := |parts| - 1;
      TotalAtMost(parts[..n], m);
      MulStep(n, m);
    }
  }

  lemma TotalIsBounded(parts: seq<CompletePart>)
    requires AllValid(parts)
    ensures 0 <= Total(parts) <= |parts| * MULTIPART_MAX_PART_SIZE_BYTES
  {
    TotalAtMost(parts, MULTIPART_MAX_PART_SIZE_BYTES);
  }

  lemma TotalStep(parts: seq<CompletePart>, i: nat)
    requires i < |parts| <= MULTIPART_MAX_PART_NUMBER
    requires AllValid(parts)
    ensures Total(parts[..i + 1]) == Total(parts[..i]) + parts[i].size
    ensures 0 <= Total(parts[..i]) + parts[i].size <= MAX_INT64
  {
    TotalIsBounded(parts[..i + 1]);
    assert parts[..i + 1][..i] == parts[..i];
  }

  /** `normalizeCompleteUploadParts`: the 64-bit running total never wraps, so it is the exact size. */
  method NormalizeCompleteUploadParts(parts: seq<CompletePart>)
      returns (r: Option<seq<CompletePart>>, sizeBytes: int64)
    ensures r == Normalized(parts)
    ensures r.Some? ==> |r.value| <= MULTIPART_MAX_PART_NUMBER && sizeBytes == Total(r.value)
  {
    sizeBytes := 0;
    r := NormalizeCompleteParts(parts);
    if r == None {
      return;
    }
    var normalized := r.value;
    ValidityIsOrderFree(parts, normalized);
    AtMostMaxParts(normalized);
    var index := 0;
    while index < |normalized|
      invariant 0 <= index <= |normalized|
      invariant sizeBytes == Total(normalized[..index])
    {
      TotalStep(normalized, index);
      sizeBytes := Wrap(sizeBytes + normalized[index].size);
      index := index + 1;
    }
    assert normalized[..|normalized|] == normalized;
  }
}
