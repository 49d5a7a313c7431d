/** Content-Range headers: the server prints them, the client and the object-store adapter read the blob size back
    (internal/httpapi/blob_handler.go, client/blobs.go, internal/objectstore/s3/store.go; section 14.4 of RFC 9110). */
module ContentRange {
  import opened ByteRanges
  import opened Decimals
  import opened Int64
  import opened RangeRequests
  import opened Text
  import opened Wrappers

  function FormatContentRange(start: nat, end: nat, size: nat): string {
    "bytes " + Decimal(start) + "-" + Decimal(end) + "/" + Decimal(size)
  }

  function UnsatisfiedBlobRange(size: nat): string {
    "bytes */" + Decimal(size)
  }

  /** `sizeFromContentRange` of the client. */
  function SizeFromContentRange(contentRange: string): Option<int64> {
    var cut := Cut(contentRange, '/');
    if cut == None || Trim(cut.value.1) == "" then None else ParseInt(Trim(cut.value.1))
  }

  /** `objectSizeFromContentRange` of the adapter, which also refuses an unknown or a negative size. */
  function ObjectSizeFromContentRange(contentRange: string): Option<int64> {
    var cut := Cut(contentRange, '/');
    if cut == None || Trim(cut.value.1) == "" || Trim(cut.value.1) == "*" then None
    else
      var size := ParseInt(Trim(cut.value.1));
      if size == None || size.value < 0 then None else size
  }

  lemma SizeAfterSlash(before: string, size: nat)
    requires size <= MAX_INT64 && '/' !in before
    ensures SizeFromContentRange(before + "/" + Decimal(size)) == Some(size)
    ensures ObjectSizeFromContentRange(before + "/" + Decimal(size)) == Some(size)
  {
    ParseDecimal(size);
    CutAtSeparator(before, '/', Decimal(size));
    assert before + ['/'] + Decimal(size) == before + "/" + Decimal(size);
    assert Decimal(size) != "*";
  }

  lemma SelectedRangeReadsBack(start: nat, end: nat, size: nat)
    requires start <= MAX_INT64 && end <= MAX_INT64 && size <= MAX_INT64
    ensures SizeFromContentRange(FormatContentRange(start, end, size)) == Some(size)
    ensures ObjectSizeFromContentRange(FormatContentRange(start, end, size)) == Some(size)
  {
    ParseDecimal(start);
    ParseDecimal(end);
    SizeAfterSlash("bytes " + Decimal(start) + "-" + Decimal(end), size);
  }

  /** Both readers of a Content-Range find the blob size in what the server prints, for a served range and for a
      refused one. */
  lemma ContentRangeReadsBack(header: string, size: int64)
    requires size >= 0
    ensures SizeFromContentRange(UnsatisfiedBlobRange(size)) == Some(size)
    ensures ParseBlobRangeHeader(header, size).Some? ==>
      var s := ParseBlobRangeHeader(header, size).value;
      && 0 <= s.start && 0 <= s.end
      && SizeFromContentRange(FormatContentRange(s.start, s.end, size)) == Some(size)
      && ObjectSizeFromContentRange(FormatContentRange(s.start, s.end, size)) == Some(size)
  {
    SizeAfterSlash("bytes *", size);
    assert "bytes *" + "/" + Decimal(size) == UnsatisfiedBlobRange(size);
    if ParseBlobRangeHeader(header, size).Some? {
      SelectionIsInside(header, size);
      var s := ParseBlobRangeHeader(header, size).value;
      SelectedRangeReadsBack(s.start, s.end, size);
    }
  }

  /** A response names, before the size, the range that the client would ask for with the same numbers. */
  lemma ResponseNames(start: int64, end: int64, size: nat)
    requires 0 <= start <= end
    ensures Header(Span(start, end)) == Some("bytes=" + Decimal(start) + "-" + Decimal(end))
    ensures Cut(FormatContentRange(start, end, size), '/') == Some(("bytes " + Decimal(start) + "-" + Decimal(end), Decimal(size)))
  {
    ParseDecimal(start);
    ParseDecimal(end);
    var before := "bytes " + Decimal(start) + "-" + Decimal(end);
    CutAtSeparator(before, '/', Decimal(size));
    assert before + ['/'] + Decimal(size) == FormatContentRange(start, end, size);
  }

  /** The range that a response names is the range it serves: it denotes the selected bytes, and asking again for just
      that range selects the same. */
  lemma NamedRangeSelectsTheSame(header: string, size: int64, s: Selected, named: Spec)
    requires size >= 0 && ParseBlobRangeHeader(header, size) == Some(s) && named == Span(s.start, s.end)
    ensures forall x :: Denotes(named, size, x) <==> s.start <= x <= s.end
    ensures Header(named).Some? && Faithful(named, size, ParseBlobRangeHeader(Header(named).value, size))
  {
    SelectionIsInside(header, size);
    SpanIsPrinted(named);
    ClientRangesAreServed(named, size);
  }

  lemma SpanIsPrinted(named: Spec)
    requires named.Span? && 0 <= named.first <= named.last
    ensures Header(named).Some?
  {
  }

  /** The adapter reads from any text what the client reads, unless that is negative, which no size is. */
  lemma ReadersAgree(contentRange: string)
    ensures var size := SizeFromContentRange(contentRange);
      ObjectSizeFromContentRange(contentRange) == if size.Some? && size.value < 0 then None else size
  {
  }

  /** A size is the number behind the first slash, whatever white space is around it. */
  lemma SizeFollowsTheSlash(before: string, after: string)
    requires '/' !in before
    ensures SizeFromContentRange(before + "/" + after) == ParseInt(Trim(after))
  {
    CutAtSeparator(before, '/', after);
    assert before + ['/'] + after == before + "/" + after;
  }

  lemma {:induction false} NoSlashNoSize(contentRange: string)
    requires '/' !in contentRange
    ensures SizeFromContentRange(contentRange) == None
  {
    if Cut(contentRange, '/').Some? {
      CutSplits(contentRange, '/');
    }
  }
}
