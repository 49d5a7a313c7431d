/** How a server-side multipart copy cuts an object into ranges (internal/objectstore/s3/store.go). */
module CopyRanges {
  import opened Int64
  import opened Wrappers

  const MAX_SINGLE_COPY_SIZE_BYTES := 5 * 1000 * 1000 * 1000
  const MAX_COPY_PART_SIZE_BYTES := 5 * 1024 * 1024 * 1024
  const MAX_COPY_PART_COUNT := 10000

  datatype CopyPart = CopyPart(number: int64, start: int64, size: int64)

  datatype RangeError = NegativeSize | TooLarge | EmptyObject

  predicate RequiresMultipartCopy(size: int64) {
    size > MAX_SINGLE_COPY_SIZE_BYTES
  }

  /** A part starts where the one before it ends. */
  predicate Abuts(parts: seq<CopyPart>, i: nat)
    requires i < |parts|
  {
    parts[i].start == if i == 0 then 0 else parts[i - 1].start + parts[i - 1].size
  }

  /** The parts are numbered from one and follow each other without a gap, none of them empty or too long. */
  predicate Tiles(parts: seq<CopyPart>, size: int) {
    && (forall i | 0 <= i < |parts| :: parts[i].number == i + 1 && 1 <= parts[i].size <= MAX_COPY_PART_SIZE_BYTES)
    && (forall i: nat {:trigger Abuts(parts, i)} | i < |parts| :: Abuts(parts, i))
    && size == if parts == [] then 0 else parts[|parts| - 1].start + parts[|parts| - 1].size
  }

  predicate AllButLastFull(parts: seq<CopyPart>) {
    forall i | 0 <= i < |parts| - 1 :: parts[i].size == MAX_COPY_PART_SIZE_BYTES
  }

  function CeilDiv(a: nat, b: nat): (q: nat)
    requires b > 0
    ensures (q as int - 1) * b < a <= q * b || (a == 0 && q == 0)
  {
    (a + b - 1) / b
  }

  /** `multipartCopyParts`: the ranges tile the object, with as few parts as the part limit allows. No 64-bit
      operation of the loop overflows. */
  method MultipartCopyParts(size: int64) returns (r: Result<seq<CopyPart>, RangeError>)
    ensures r == Err(NegativeSize) <==> size < 0
    ensures r == Err(TooLarge) <==> size > 53_687_091_200_000
    ensures r == Err(EmptyObject) <==> size == 0
    ensures r.Ok? <==> 0 < size <= 53_687_091_200_000
    ensures r.Ok? ==>
      && Tiles(r.value, size)
      && AllButLastFull(r.value)
      && (|r.value| - 1) * 5_368_709_120 < size <= |r.value| * 5_368_709_120
      && 1 <= |r.value| <= 10000
  {
    if size < 0 {
      return Err(NegativeSize);
    }
    if size > MAX_COPY_PART_SIZE_BYTES * MAX_COPY_PART_COUNT {
      return Err(TooLarge);
    }
    if size == 0 {
      return Err(EmptyObject);
    }
    var parts: seq<CopyPart> := [];
    var start: int64 := 0;
    while start < size
      invariant start == |parts| * MAX_COPY_PART_SIZE_BYTES
      invariant start < size + MAX_COPY_PART_SIZE_BYTES
      invariant Tiles(parts, if start < size then start else size)
      invariant AllButLastFull(parts)
      invariant start < size && parts != [] ==> parts[|parts| - 1].size == MAX_COPY_PART_SIZE_BYTES
    {
      var partSize: int64 := if MAX_COPY_PART_SIZE_BYTES < size - start then MAX_COPY_PART_SIZE_BYTES else size - start;
      var longer := parts + [CopyPart(|parts| + 1, start, partSize)];
      forall i: nat | i < |longer| ensures Abuts(longer, i) {
        assert i < |parts| ==> Abuts(parts, i);
      }
      parts := longer;
      start := start + MAX_COPY_PART_SIZE_BYTES;
    }
    return Ok(parts);
  }

  /** The bytes of an object that the ranges cut out, joined in order. */
  function Joined<T>(bytes: seq<T>, parts: seq<CopyPart>, size: int): seq<T>
    requires Tiles(parts, size) && size <= |bytes|
    decreases |parts|
  {
    if parts == [] then []
    else
      var last := parts[|parts| - 1];
      PrefixTiles(parts, size);
      Joined(bytes, parts[..|parts| - 1], last.start) + bytes[last.start..last.start + last.size]
  }

  lemma PrefixTiles(parts: seq<CopyPart>, size: int)
    requires Tiles(parts, size) && parts != []
    ensures Tiles(parts[..|parts| - 1], parts[|parts| - 1].start)
    ensures 0 <= parts[|parts| - 1].start < size
    decreases |parts|
  {
    var front := parts[..|parts| - 1];
    assert Abuts(parts, |parts| - 1);
    forall i: nat | i < |front| ensures Abuts(front, i) {
      assert Abuts(parts, i);
    }
    if front != [] {
      PrefixTiles(front, parts[|parts| - 1].start);
    }
  }

  /** Copying every range of a tiling copies the whole object. */
  lemma {:induction false} JoiningRangesRestores<T>(bytes: seq<T>, parts: seq<CopyPart>, size: int)
    requires Tiles(parts, size) && 0 <= size <= |bytes|
    ensures Joined(bytes, parts, size) == bytes[..size]
    decreases |parts|
  {
    if parts != [] {
      var last := parts[|parts| - 1];
      PrefixTiles(parts, size);
      JoiningRangesRestores(bytes, parts[..|parts| - 1], last.start);
      assert bytes[..size] == bytes[..last.start] + bytes[last.start..size];
    } else {
      assert bytes[..0] == [];
    }
  }

  /** Every byte of the object is in exactly one range. */
  lemma {:induction false} EveryByteIsCopiedOnce(parts: seq<CopyPart>, size: int, x: int) returns (i: nat)
    requires Tiles(parts, size) && 0 <= x < size
    ensures i < |parts| && parts[i].start <= x < parts[i].start + parts[i].size
    ensures forall j | 0 <= j < |parts| && parts[j].start <= x < parts[j].start + parts[j].size :: j == i
    decreases |parts|
  {
    var last := parts[|parts| - 1];
    var front := parts[..|parts| - 1];
    PrefixTiles(parts, size);
    EndsAreBelow(parts, size);
    if x >= last.start {
      i := |parts| - 1;
    } else {
      i := EveryByteIsCopiedOnce(front, last.start, x);
      assert forall j | 0 <= j < |front| :: front[j] == parts[j];
    }
  }

  lemma {:induction false} EndsAreBelow(parts: seq<CopyPart>, size: int)
    requires Tiles(parts, size) && parts != []
    ensures forall j | 0 <= j < |parts| - 1 :: parts[j].start + parts[j].size <= parts[|parts| - 1].start
    decreases |parts|
  {
    if |parts| > 1 {
      var front := parts[..|parts| - 1];
      PrefixTiles(parts, size);
      EndsAreBelow(front, parts[|parts| - 1].start);
      forall j | 0 <= j < |parts| - 1 ensures parts[j].start + parts[j].size <= parts[|parts| - 1].start {
        assert front[j] == parts[j];
      }
    }
  }
}
