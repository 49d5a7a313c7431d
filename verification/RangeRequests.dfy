/** Byte-range reads of a blob: the client prints a Range header, the server selects bytes, and the object-store adapter
    asks for them (client/blobs.go, internal/httpapi/blob_handler.go, internal/objectstore/s3/store.go). The reference
    is section 14.1.2 of RFC 9110, which says which bytes a range denotes. */
module RangeRequests {
  import opened ByteRanges
  import opened Decimals
  import opened Int64
  import opened Text
  import opened Wrappers

  // ---------------------------------------------------------------- the client

  /** `BlobRangeSpan`, `BlobRangeFrom` and `BlobRangeSuffix`. */
  function Header(spec: Spec): Option<string> {
    match spec
    case Span(first, last) =>
      if first < 0 || last < first then None else Some("bytes=" + Decimal(first) + "-" + Decimal(last))
    case From(first) => if first < 0 then None else Some("bytes=" + Decimal(first) + "-")
    case Suffix(length) => if length <= 0 then None else Some("bytes=-" + Decimal(length))
  }

  /** The range names no negative position, and on some blob it denotes some byte. */
  ghost predicate IsUseful(spec: Spec) {
    && (spec.Span? ==> spec.first >= 0 && spec.last >= 0)
    && (spec.From? ==> spec.first >= 0)
    && exists size, x :: Denotes(spec, size, x)
  }

  /** The client builds exactly the useful ranges. */
  lemma UsefulRangesArePrinted(spec: Spec)
    ensures Header(spec).Some? <==> IsUseful(spec)
  {
    if spec.Span? && 0 <= spec.first <= spec.last {
      assert Denotes(spec, spec.last + 1, spec.first);
    } else if spec.From? && spec.first >= 0 {
      assert Denotes(spec, spec.first + 1, spec.first);
    } else if spec.Suffix? && spec.length > 0 {
      assert Denotes(spec, 1, 0);
    }
  }

  // ---------------------------------------------------------------- the server

  /** The object-store range: `end` is ignored when the range is open-ended. */
  datatype ByteRange = ByteRange(start: int64, end: int64, openEnded: bool)

  datatype Selected = Selected(start: int64, end: int64, length: int64, open: ByteRange)

  /** The last `length` bytes, or all of a shorter blob. */
  function LastBytes(length: int64, size: int64): Option<Selected>
    requires size > 0
  {
    if length <= 0 then None
    else
      var clamped: int64 := if length > size then size else length;
      var start, end := size - clamped, size - 1;
      Some(Selected(start, end, clamped, ByteRange(start, end, false)))
  }

  /** The bytes from `start` to `end`, or to the end of the blob. */
  function BytesBetween(start: int64, end: Option<int64>, size: int64): Option<Selected>
    requires size > 0
  {
    if start < 0 || start >= size then None
    else if end == None then Some(Selected(start, size - 1, size - start, ByteRange(start, 0, true)))
    else if end.value < 0 || end.value < start then None
    else
      var last: int64 := if end.value >= size then size - 1 else end.value;
      Some(Selected(start, last, last - start + 1, ByteRange(start, last, false)))
  }

  function SelectSuffix(suffixText: string, size: int64): Option<Selected>
    requires size > 0
  {
    var length := ParseInt(suffixText);
    if length == None then None else LastBytes(length.value, size)
  }

  function SelectFromStart(startText: string, endText: string, size: int64): Option<Selected>
    requires size > 0
  {
    var start, end := ParseInt(Trim(startText)), ParseInt(Trim(endText));
    if start == None then None
    else if Trim(endText) == "" then BytesBetween(start.value, None, size)
    else if end == None then None
    else BytesBetween(start.value, end, size)
  }

  /** The range set of a header, trimmed. */
  function ParseSpec(spec: string, size: int64): Option<Selected>
    requires size >= 0
  {
    if spec == "" || ',' in spec || size == 0 then None
    else if HasPrefix(spec, "-") then SelectSuffix(spec[1..], size)
    else
      var cut := Cut(spec, '-');
      if cut == None then None else SelectFromStart(cut.value.0, cut.value.1, size)
  }

  /** `parseBlobRangeHeader`. No step leaves the 64-bit range. */
  function ParseBlobRangeHeader(header: string, size: int64): Option<Selected>
    requires size >= 0
  {
    if HasPrefix(header, "bytes=") then ParseSpec(Trim(header[6..]), size) else None
  }

  /** A selection lies inside the blob, is not empty, has the length it says, and opens the same bytes. */
  predicate Inside(s: Selected, size: int64) {
    && 0 <= s.start <= s.end < size
    && s.length == s.end - s.start + 1
    && s.open.start == s.start
    && (s.open.openEnded ==> s.end == size - 1)
    && (!s.open.openEnded ==> s.open.end == s.end)
  }

  lemma NumbersSelectInside(start: int64, end: Option<int64>, length: int64, size: int64)
    requires size > 0
    ensures BytesBetween(start, end, size).Some? ==> Inside(BytesBetween(start, end, size).value, size)
    ensures LastBytes(length, size).Some? ==> Inside(LastBytes(length, size).value, size)
  {
  }

  /** Any header whatever: what is selected is a non-empty range inside the blob, and its length is right. */
  lemma SelectionIsInside(header: string, size: int64)
    requires size >= 0 && ParseBlobRangeHeader(header, size).Some?
    ensures Inside(ParseBlobRangeHeader(header, size).value, size)
  {
    var spec := Trim(header[6..]);
    if HasPrefix(spec, "-") {
      NumbersSelectInside(0, None, ParseInt(spec[1..]).value, size);
    } else {
      var (startText, endText) := Cut(spec, '-').value;
      NumbersSelectInside(ParseInt(Trim(startText)).value, if Trim(endText) == "" then None else ParseInt(Trim(endText)), 0, size);
    }
  }

  /** The selection is exactly the bytes the range denotes, and there is none exactly when it denotes none. */
  ghost predicate Faithful(spec: Range, size: int64, r: Option<Selected>) {
    match r
    case Some(s) => s.start <= s.end && forall x :: Denotes(spec, size, x) <==> s.start <= x <= s.end
    case None => forall x :: !Denotes(spec, size, x)
  }

  /** A start text and an end text without white space around them reach the selection as they are. */
  lemma SpecIsCut(a: string, b: string, size: int64)
    requires size > 0 && a != "" && !IsSpace(a[0]) && (b == "" || !IsSpace(b[|b| - 1]))
    requires '-' !in a && ',' !in a && ',' !in b
    ensures ParseBlobRangeHeader("bytes=" + a + "-" + b, size) == SelectFromStart(a, b, size)
  {
    var text := a + "-" + b;
    var header := "bytes=" + a + "-" + b;
    assert header == "bytes=" + text;
    assert HasPrefix(header, "bytes=") && header[6..] == text;
    assert Tight(text) by {
      assert text[0] == a[0];
      assert text[|text| - 1] == if b == "" then '-' else b[|b| - 1];
    }
    assert Trim(text) == text && ',' !in text;
    assert a[0] != '-' && !HasPrefix(text, "-") by {
      assert a[0] in a && text[0] == a[0];
    }
    CutAtSeparator(a, '-', b);
  }

  lemma SpanIsFaithful(spec: Spec, size: int64)
    requires size >= 0 && spec.Span? && Header(spec).Some?
    ensures Faithful(spec, size, ParseBlobRangeHeader(Header(spec).value, size))
  {
    ParseDecimal(spec.first);
    ParseDecimal(spec.last);
    if size > 0 {
      SpecIsCut(Decimal(spec.first), Decimal(spec.last), size);
      IntegersSelect(Decimal(spec.first), Decimal(spec.last), spec.first, spec.last, size);
      SpanSelects(spec.first, spec.last, size);
    }
  }

  /** Two integer texts select the bytes between them. */
  lemma IntegersSelect(a: string, b: string, first: int64, last: int64, size: int64)
    requires size > 0 && Tight(a) && Tight(b) && b != ""
    requires ParseInt(a) == Some(first) && ParseInt(b) == Some(last)
    ensures SelectFromStart(a, b, size) == BytesBetween(first, Some(last), size)
  {
    assert Trim(a) == a && Trim(b) == b;
  }

  lemma SpanSelects(first: int64, last: int64, size: int64)
    requires size > 0 && 0 <= first && 0 <= last
    ensures Faithful(Span(first, last), size, BytesBetween(first, Some(last), size))
  {
    assert first < size && first <= last ==> Denotes(Span(first, last), size, first);
  }

  lemma FromIsFaithful(spec: Spec, size: int64)
    requires size >= 0 && spec.From? && Header(spec).Some?
    ensures Faithful(spec, size, ParseBlobRangeHeader(Header(spec).value, size))
  {
    ParseDecimal(spec.first);
    if size > 0 {
      SpecIsCut(Decimal(spec.first), "", size);
      assert Header(spec).value + "" == Header(spec).value;
      FromSelects(spec.first, size);
    }
  }

  lemma FromSelects(first: int64, size: int64)
    requires size > 0 && 0 <= first
    ensures Faithful(From(first), size, BytesBetween(first, None, size))
  {
    assert first < size ==> Denotes(From(first), size, first);
  }

  lemma SuffixSelects(length: int64, size: int64)
    requires size > 0 && length >= 0
    ensures Faithful(Suffix(length), size, LastBytes(length, size))
  {
    assert length > 0 ==> Denotes(Suffix(length), size, size - 1);
  }

  lemma SuffixSpecIsCut(t: string, size: int64)
    requires size > 0 && t != "" && !IsSpace(t[|t| - 1]) && ',' !in t
    ensures ParseBlobRangeHeader("bytes=-" + t, size) == SelectSuffix(t, size)
  {
    var text := "-" + t;
    var header := "bytes=-" + t;
    assert HasPrefix(header, "bytes=") && header[6..] == text;
    assert Tight(text) by {
      assert text[|text| - 1] == t[|t| - 1];
    }
    assert Trim(text) == text && ',' !in text && text[1..] == t;
  }

  lemma SuffixIsFaithful(spec: Spec, size: int64)
    requires size >= 0 && spec.Suffix? && Header(spec).Some?
    ensures Faithful(spec, size, ParseBlobRangeHeader(Header(spec).value, size))
  {
    ParseDecimal(spec.length);
    if size > 0 {
      SuffixSpecIsCut(Decimal(spec.length), size);
      SuffixSelects(spec.length, size);
    }
  }

  /** Every range the client can build, on a blob of any size, selects exactly the requested bytes that exist, and is
      refused exactly when there are none. */
  lemma ClientRangesAreServed(spec: Spec, size: int64)
    requires size >= 0 && Header(spec).Some?
    ensures Faithful(spec, size, ParseBlobRangeHeader(Header(spec).value, size))
  {
    match spec
    case Span(_, _) => SpanIsFaithful(spec, size);
    case From(_) => FromIsFaithful(spec, size);
    case Suffix(_) => SuffixIsFaithful(spec, size);
  }

  /** `selectBlobRange` for a request whose If-Range, if any, allows ranges: an absent Range selects nothing. */
  datatype Selection = WholeBlob | Partial(selected: Selected) | Unsatisfiable

  function SelectBlobRange(rangeHeader: string, ifRangeAllows: bool, size: int64): Selection
    requires size >= 0
  {
    var text := Trim(rangeHeader);
    if text == "" || !ifRangeAllows then WholeBlob
    else
      var r := ParseBlobRangeHeader(text, size);
      if r == None then Unsatisfiable else Partial(r.value)
  }

  /** Trimming the header does not touch what the client printed. */
  lemma ClientRequestsSurviveTrimming(spec: Spec, size: int64)
    requires size >= 0 && Header(spec).Some?
    ensures var r := ParseBlobRangeHeader(Header(spec).value, size);
      SelectBlobRange(Header(spec).value, true, size) == if r == None then Unsatisfiable else Partial(r.value)
  {
    TightHeader(spec);
  }

  /** A request gets the whole blob if and only if its Range header is absent or blank, or its If-Range does not allow
      ranges. */
  lemma WholeBlobIffNotAsked(rangeHeader: string, ifRangeAllows: bool, size: int64)
    requires size >= 0
    ensures SelectBlobRange(rangeHeader, ifRangeAllows, size) == WholeBlob <==> AllSpace(rangeHeader) || !ifRangeAllows
  {
  }

  /** Any other request gets what the parser makes of its header, whatever white space is around it: the selected bytes,
      or the answer that there are none. */
  lemma OtherwiseTheParserDecides(left: string, header: string, right: string, size: int64)
    requires size >= 0 && AllSpace(left) && AllSpace(right) && Tight(header) && header != ""
    ensures SelectBlobRange(left + header + right, true, size)
         == match ParseBlobRangeHeader(header, size) case Some(s) => Partial(s) case None => Unsatisfiable
  {
    TrimTakesTheSpace(left, header, right);
  }

  lemma TightHeader(spec: Spec)
    requires Header(spec).Some?
    ensures Tight(Header(spec).value) && Header(spec).value != ""
  {
    var header := Header(spec).value;
    match spec
    case Span(_, last) =>
      ParseDecimal(last);
      assert header[|header| - 1] == Decimal(last)[|Decimal(last)| - 1];
    case From(_) => assert header[|header| - 1] == '-';
    case Suffix(length) =>
      ParseDecimal(length);
      assert header[|header| - 1] == Decimal(length)[|Decimal(length)| - 1];
    assert header[0] == 'b';
  }

  // ---------------------------------------------------------------- the object store

  /** `getObjectOptions`: the Range header sent to the provider, or none for a whole-object read. */
  function GetObjectHeader(r: ByteRange): Option<Spec> {
    if r.openEnded && r.start == 0 then None
    else if r.openEnded then Some(From(r.start))
    else Some(Span(r.start, r.end))
  }

  predicate HasEffectiveRange(r: ByteRange) {
    !r.openEnded || r.start != 0
  }

  /** What the provider is asked for is the selection, byte for byte, in a header the client itself could have
      printed; and the adapter expects a partial response exactly when it sent one. */
  lemma StoreReadsTheSelection(header: string, size: int64)
    requires size >= 0 && ParseBlobRangeHeader(header, size).Some?
    ensures var s := ParseBlobRangeHeader(header, size).value;
      var asked := GetObjectHeader(s.open);
      && (HasEffectiveRange(s.open) <==> asked.Some?)
      && (asked.Some? ==> Header(asked.value).Some?)
      && forall x | 0 <= x < size ::
        (asked == None || Denotes(asked.value, size, x)) <==> s.start <= x <= s.end
  {
    SelectionIsInside(header, size);
  }

  // ---------------------------------------------------------------- the grammar

  function IntRange(first: string, last: string): string {
    "bytes=" + first + "-" + last
  }

  function SuffixRange(length: string): string {
    "bytes=-" + length
  }

  /** `header` is a spelling of `r` in the grammar of section 14.1.2, with the unit in lower case: a number, a dash and
      perhaps a number, or a dash and a number. */
  ghost predicate Spells(header: string, r: Range) {
    match r
    case Span(first, last) =>
      exists a, b :: header == IntRange(a, b) && IsNumber(a) && IsNumber(b) && DecimalValue(a) == first && DecimalValue(b) == last
    case From(first) => exists a :: header == IntRange(a, "") && IsNumber(a) && DecimalValue(a) == first
    case Suffix(length) => exists t :: header == SuffixRange(t) && IsNumber(t) && DecimalValue(t) == length
  }

  ghost predicate Grammatical(header: string) {
    exists r :: Spells(header, r)
  }

  /** No plus sign, no white space, and no dash besides the one that makes the range. */
  predicate Plain(spec: string) {
    && '+' !in spec
    && (forall i | 0 <= i < |spec| :: !IsSpace(spec[i]))
    && (forall i, j | 0 <= i < j < |spec| :: spec[i] == '-' ==> spec[j] != '-')
  }

  lemma PlainPieces(a: string, b: string)
    requires IsNumber(a) || a == ""
    requires IsNumber(b) || b == ""
    ensures Plain(a + "-" + b)
  {
    var s := a + "-" + b;
    forall i | 0 <= i < |s| ensures s[i] == '-' <==> i == |a| {
      assert s[i] == if i < |a| then a[i] else if i == |a| then '-' else b[i - |a| - 1];
    }
    forall i | 0 <= i < |s| ensures !IsSpace(s[i]) && s[i] != '+' {
      assert s[i] == if i < |a| then a[i] else if i == |a| then '-' else b[i - |a| - 1];
    }
  }

  lemma PlainHeader(header: string, a: string, b: string)
    requires header == IntRange(a, b)
    requires IsNumber(a) || a == ""
    requires IsNumber(b) || b == ""
    ensures HasPrefix(header, "bytes=") && Plain(header[6..])
  {
    PlainPieces(a, b);
    assert header == "bytes=" + (a + "-" + b);
    assert header[6..] == a + "-" + b;
  }

  lemma GrammaticalIsPlain(header: string)
    requires Grammatical(header)
    ensures HasPrefix(header, "bytes=") && Plain(header[6..])
  {
    var r :| Spells(header, r);
    match r
    case Span(first, last) =>
      var a, b :| header == IntRange(a, b) && IsNumber(a) && IsNumber(b);
      PlainHeader(header, a, b);
    case From(first) =>
      var a :| header == IntRange(a, "") && IsNumber(a);
      PlainHeader(header, a, "");
    case Suffix(length) =>
      var t :| header == SuffixRange(t) && IsNumber(t);
      assert header == IntRange("", t);
      PlainHeader(header, "", t);
  }

  /** Of a plain text that was cut at its dash, neither piece has a sign or white space. */
  lemma CutPlain(spec: string, a: string, b: string)
    requires Plain(spec) && spec == a + "-" + b
    ensures '+' !in a && '-' !in a && Trim(a) == a
    ensures '+' !in b && '-' !in b && Trim(b) == b
  {
    assert spec[|a|] == '-';
    forall i | 0 <= i < |a| ensures a[i] != '-' && a[i] != '+' && !IsSpace(a[i]) {
      assert spec[i] == a[i] && spec[i] in spec;
    }
    forall i | 0 <= i < |b| ensures b[i] != '-' && b[i] != '+' && !IsSpace(b[i]) {
      assert spec[|a| + 1 + i] == b[i] && spec[|a| + 1 + i] in spec;
    }
    assert Tight(a) && Tight(b);
  }

  lemma PlainSuffixIsGrammatical(spec: string, size: int64)
    requires size > 0 && Plain(spec) && HasPrefix(spec, "-") && SelectSuffix(spec[1..], size).Some?
    ensures Grammatical("bytes=" + spec)
  {
    var t := spec[1..];
    assert spec == "" + "-" + t;
    CutPlain(spec, "", t);
    UnsignedIsNumber(t);
    assert "bytes=" + spec == SuffixRange(t);
    assert Spells("bytes=" + spec, Suffix(DecimalValue(t)));
  }

  lemma PlainIntRangeIsGrammatical(spec: string, a: string, b: string, size: int64)
    requires size > 0 && Plain(spec) && spec == a + "-" + b && SelectFromStart(a, b, size).Some?
    ensures Grammatical("bytes=" + spec)
  {
    CutPlain(spec, a, b);
    UnsignedIsNumber(a);
    assert "bytes=" + spec == IntRange(a, b);
    if b == "" {
      assert Spells("bytes=" + spec, From(DecimalValue(a)));
    } else {
      UnsignedIsNumber(b);
      assert Spells("bytes=" + spec, Span(DecimalValue(a), DecimalValue(b)));
    }
  }

  lemma AcceptedPlainIsGrammatical(header: string, size: int64)
    requires size >= 0 && ParseBlobRangeHeader(header, size).Some? && Plain(header[6..])
    ensures Grammatical(header)
  {
    var spec := header[6..];
    assert header == "bytes=" + spec;
    assert Tight(spec);
    assert Trim(spec) == spec && ParseSpec(spec, size).Some?;
    if HasPrefix(spec, "-") {
      PlainSuffixIsGrammatical(spec, size);
    } else {
      CutSplits(spec, '-');
      var (a, b) := Cut(spec, '-').value;
      PlainIntRangeIsGrammatical(spec, a, b, size);
    }
  }

  /** Where the server is laxer than the grammar: an accepted header is grammatical if and only if it has no sign and
      no white space around its numbers. */
  lemma AcceptedIsGrammaticalIffPlain(header: string, size: int64)
    requires size >= 0 && ParseBlobRangeHeader(header, size).Some?
    ensures Grammatical(header) <==> Plain(header[6..])
  {
    if Grammatical(header) {
      GrammaticalIsPlain(header);
    } else if Plain(header[6..]) {
      AcceptedPlainIsGrammatical(header, size);
    }
  }

  lemma LengthHasAClientForm(length: int64, size: int64)
    requires size > 0 && LastBytes(length, size).Some?
    ensures Header(Suffix(length)).Some?
    ensures ParseBlobRangeHeader(Header(Suffix(length)).value, size) == LastBytes(length, size)
  {
    ParseDecimal(length);
    SuffixSpecIsCut(Decimal(length), size);
  }

  lemma BoundsHaveAClientForm(first: int64, last: int64, size: int64)
    requires size > 0 && BytesBetween(first, Some(last), size).Some?
    ensures Header(Span(first, last)).Some?
    ensures ParseBlobRangeHeader(Header(Span(first, last)).value, size) == BytesBetween(first, Some(last), size)
  {
    ParseDecimal(first);
    ParseDecimal(last);
    SpecIsCut(Decimal(first), Decimal(last), size);
    IntegersSelect(Decimal(first), Decimal(last), first, last, size);
  }

  lemma StartHasAClientForm(first: int64, size: int64)
    requires size > 0 && BytesBetween(first, None, size).Some?
    ensures Header(From(first)).Some?
    ensures ParseBlobRangeHeader(Header(From(first)).value, size) == BytesBetween(first, None, size)
  {
    ParseDecimal(first);
    SpecIsCut(Decimal(first), "", size);
    assert Header(From(first)).value + "" == Header(From(first)).value;
  }

  /** What a lax header selects is what a range of the client selects. */
  lemma AcceptedHasAClientForm(header: string, size: int64) returns (spec: Spec)
    requires size >= 0 && ParseBlobRangeHeader(header, size).Some?
    ensures Header(spec).Some?
    ensures ParseBlobRangeHeader(Header(spec).value, size) == ParseBlobRangeHeader(header, size)
  {
    spec := SpecHasAClientForm(Trim(header[6..]), size);
  }

  lemma SpecHasAClientForm(text: string, size: int64) returns (spec: Spec)
    requires size >= 0 && ParseSpec(text, size).Some?
    ensures Header(spec).Some?
    ensures ParseBlobRangeHeader(Header(spec).value, size) == ParseSpec(text, size)
  {
    if HasPrefix(text, "-") {
      spec := Suffix(ParseInt(text[1..]).value);
      LengthHasAClientForm(spec.length, size);
    } else {
      var (a, b) := Cut(text, '-').value;
      if Trim(b) == "" {
        spec := From(ParseInt(Trim(a)).value);
        StartHasAClientForm(spec.first, size);
      } else {
        spec := Span(ParseInt(Trim(a)).value, ParseInt(Trim(b)).value);
        BoundsHaveAClientForm(spec.first, spec.last, size);
      }
    }
  }

  /** The range lies behind the end, or is empty. */
  predicate DenotesNothing(r: Range, size: int) {
    size <= 0 ||
    match r
    case Span(first, last) => size <= first || last < first || last < 0
    case From(first) => size <= first
    case Suffix(length) => length <= 0
  }

  lemma NothingDenoted(r: Range, size: int)
    ensures DenotesNothing(r, size) <==> forall x :: !Denotes(r, size, x)
  {
    if !DenotesNothing(r, size) {
      match r
      case Span(first, last) => assert Denotes(r, size, if first < 0 then 0 else first);
      case From(first) => assert Denotes(r, size, if first < 0 then 0 else first);
      case Suffix(_) => assert Denotes(r, size, size - 1);
    }
  }

  lemma SpelledIntRange(a: string, b: string, size: int64)
    requires size > 0 && IsNumber(a) && (b == "" || IsNumber(b))
    ensures ParseBlobRangeHeader(IntRange(a, b), size) == SelectFromStart(a, b, size)
    ensures Trim(a) == a && Trim(b) == b
  {
    ParseNumber(a);
    if b != "" {
      ParseNumber(b);
    }
    SpecIsCut(a, b, size);
  }

  lemma SpanIsServed(a: string, b: string, size: int64)
    requires size > 0 && IsNumber(a) && IsNumber(b)
    ensures var r := Span(DecimalValue(a), DecimalValue(b));
      var served := ParseBlobRangeHeader(IntRange(a, b), size);
      if Fits(r) then Faithful(r, size, served) else served == None
  {
    SpelledIntRange(a, b, size);
    ParseNumber(a);
    ParseNumber(b);
    if Fits(Span(DecimalValue(a), DecimalValue(b))) {
      SpanSelects(DecimalValue(a), DecimalValue(b), size);
    }
  }

  lemma FromIsServed(a: string, size: int64)
    requires size > 0 && IsNumber(a)
    ensures var r := From(DecimalValue(a));
      var served := ParseBlobRangeHeader(IntRange(a, ""), size);
      if Fits(r) then Faithful(r, size, served) else served == None
  {
    SpelledIntRange(a, "", size);
    ParseNumber(a);
    if Fits(From(DecimalValue(a))) {
      FromSelects(DecimalValue(a), size);
    }
  }

  lemma SuffixIsServed(t: string, size: int64)
    requires size > 0 && IsNumber(t)
    ensures var r := Suffix(DecimalValue(t));
      var served := ParseBlobRangeHeader(SuffixRange(t), size);
      if Fits(r) then Faithful(r, size, served) else served == None
  {
    ParseNumber(t);
    SuffixSpecIsCut(t, size);
    if Fits(Suffix(DecimalValue(t))) {
      SuffixSelects(DecimalValue(t), size);
    }
  }

  /** Every grammatical header, on a blob of any size, selects exactly the bytes its range denotes if and only if its
      numbers fit 64 bits or it denotes none; a range whose numbers do not fit is refused. */
  lemma GrammaticalIsServed(header: string, r: Range, size: int64)
    requires size >= 0 && Spells(header, r)
    ensures Faithful(r, size, ParseBlobRangeHeader(header, size)) <==> Fits(r) || DenotesNothing(r, size)
    ensures !Fits(r) ==> ParseBlobRangeHeader(header, size) == None
  {
    NothingDenoted(r, size);
    if size > 0 {
      match r
      case Span(first, last) =>
        var a, b :| header == IntRange(a, b) && IsNumber(a) && IsNumber(b) && DecimalValue(a) == first && DecimalValue(b) == last;
        SpanIsServed(a, b, size);
      case From(first) =>
        var a :| header == IntRange(a, "") && IsNumber(a) && DecimalValue(a) == first;
        FromIsServed(a, size);
      case Suffix(length) =>
        var t :| header == SuffixRange(t) && IsNumber(t) && DecimalValue(t) == length;
        SuffixIsServed(t, size);
    }
  }

  /** A text that parses to the same as the number `s`, although it may not be one. */
  predicate Lax(x: string, s: string) {
    && Trim(x) != "" && ParseInt(Trim(x)) == ParseInt(s)
    && '-' !in x && ',' !in x
  }

  lemma SignedIsLax(s: string)
    requires IsNumber(s)
    ensures Lax("+" + s, s) && Tight("+" + s)
  {
    ParseNumber(s);
    var x := "+" + s;
    assert x[1..] == s && Tight(x);
    assert Trim(x) == x && ParseInt(x) == ParseInt(s);
  }

  lemma SpacedIsLax(s: string)
    requires IsNumber(s)
    ensures Lax(s + " ", s) && Lax(" " + s, s)
  {
    ParseNumber(s);
    assert (" " + s)[1..] == s && (s + " ")[..|s|] == s;
    assert TrimRight(s) == s;
    assert Trim(s + " ") == s && Trim(" " + s) == s;
  }

  /** Texts that parse to the numbers `a` and `b` select what these select. */
  lemma LaxSpelling(x: string, y: string, a: string, b: string, size: int64)
    requires IsNumber(a) && IsNumber(b) && size > 0
    requires Lax(x, a) && x != "" && !IsSpace(x[0])
    requires Lax(y, b) && y != "" && !IsSpace(y[|y| - 1])
    ensures ParseBlobRangeHeader(IntRange(x, y), size) == ParseBlobRangeHeader(IntRange(a, b), size)
  {
    SpecIsCut(x, y, size);
    SpelledIntRange(a, b, size);
  }

  lemma OnlyPlainIsGrammatical(x: string, y: string, i: nat)
    requires i < |x| && (x[i] == '+' || IsSpace(x[i]))
    ensures !Grammatical(IntRange(x, y))
  {
    var header := IntRange(x, y);
    assert header[6..] == x + "-" + y;
    assert header[6..][i] == x[i];
    assert x[i] in header[6..];
    if Grammatical(header) {
      GrammaticalIsPlain(header);
    }
  }

  /** Signed numbers are among the headers that are accepted without being grammatical: they select what the same
      numbers select without their signs. */
  lemma SignsAreAccepted(a: string, b: string, size: int64)
    requires IsNumber(a) && IsNumber(b) && size > 0
    ensures ParseBlobRangeHeader(IntRange("+" + a, "+" + b), size) == ParseBlobRangeHeader(IntRange(a, b), size)
    ensures !Grammatical(IntRange("+" + a, "+" + b))
  {
    SignedIsLax(a);
    SignedIsLax(b);
    LaxSpelling("+" + a, "+" + b, a, b, size);
    OnlyPlainIsGrammatical("+" + a, "+" + b, 0);
  }

  /** So are numbers with white space around the dash. */
  lemma WhiteSpaceIsAccepted(a: string, b: string, size: int64)
    requires IsNumber(a) && IsNumber(b) && size > 0
    ensures ParseBlobRangeHeader(IntRange(a + " ", " " + b), size) == ParseBlobRangeHeader(IntRange(a, b), size)
    ensures !Grammatical(IntRange(a + " ", " " + b))
  {
    SpacedIsLax(a);
    SpacedIsLax(b);
    LaxSpelling(a + " ", " " + b, a, b, size);
    OnlyPlainIsGrammatical(a + " ", " " + b, |a|);
  }

  /** Where the server is stricter: a bound too large for 64 bits is refused, although the range denotes all bytes. */
  lemma HugeBoundsAreRefused(n: nat, size: int64)
    requires n > MAX_INT64 && size > 0
    ensures Spells(IntRange("0", Decimal(n)), Span(0, n)) && ParseBlobRangeHeader(IntRange("0", Decimal(n)), size) == None
    ensures forall x | 0 <= x < size :: Denotes(Span(0, n), size, x)
  {
    DecimalReadsBack(n);
    assert "0"[..0] == "" && DecimalValue("0") == 0;
    GrammaticalIsServed(IntRange("0", Decimal(n)), Span(0, n), size);
  }
}
