/** Byte ranges as section 14.1.2 of RFC 9110 defines them, and those whose numbers a client can hold. */
module ByteRanges {
  import opened Int64

  /** The ranges of section 14.1.2. */
  datatype Range = Span(first: int, last: int) | From(first: int) | Suffix(length: int)

  predicate FitsInt64(x: int) {
    MIN_INT64 <= x <= MAX_INT64
  }

  /** The numbers of the range are 64-bit integers. */
  predicate Fits(r: Range) {
    match r
    case Span(first, last) => FitsInt64(first) && FitsInt64(last)
    case From(first) => FitsInt64(first)
    case Suffix(length) => FitsInt64(length)
  }

  /** Section 14.1.2: the bytes of a representation of `size` bytes that a range denotes. */
  predicate Denotes(r: Range, size: int, x: int) {
    && 0 <= x < size
    && match r
       case Span(first, last) => first <= x <= last
       case From(first) => first <= x
       case Suffix(length) => size - length <= x
  }

  /** The ranges the client can ask for. */
  type Spec = r: Range | Fits(r) witness From(0)
}
