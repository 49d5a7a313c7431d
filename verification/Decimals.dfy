/** Decimal integers in header text, as the Go standard library prints, parses and cuts them. */
module Decimals {
  import opened Int64
  import opened Text
  import opened Wrappers

  function Digit(n: nat): char
    requires n < 10
  {
    '0' + n as char
  }

  /** `%d` of a number that is not negative. */
  function Decimal(n: nat): (s: string)
    ensures s != ""
  {
    if n < 10 then [Digit(n)] else Decimal(n / 10) + [Digit(n % 10)]
  }

  predicate AllDigits(s: string) {
    forall i | 0 <= i < |s| :: '0' <= s[i] <= '9'
  }

  function DecimalValue(s: string): nat
    requires AllDigits(s)
  {
    if s == "" then 0 else DecimalValue(s[..|s| - 1]) * 10 + (s[|s| - 1] as int - '0' as int)
  }

  /** `strconv.ParseInt(s, 10, 64)`: an optional sign, at least one digit, and a value that fits. */
  function ParseInt(s: string): Option<int64> {
    var signed := s != "" && (s[0] == '+' || s[0] == '-');
    var digits := if signed then s[1..] else s;
    if digits == "" || !AllDigits(digits) then None
    else
      var magnitude: int := DecimalValue(digits);
      var value := if signed && s[0] == '-' then -magnitude else magnitude;
      if MIN_INT64 <= value <= MAX_INT64 then Some(value) else None
  }

  lemma {:induction false} DecimalReadsBack(n: nat)
    ensures AllDigits(Decimal(n)) && DecimalValue(Decimal(n)) == n
  {
    var s := Decimal(n);
    if n >= 10 {
      DecimalReadsBack(n / 10);
      assert s[..|s| - 1] == Decimal(n / 10);
    } else {
      assert s[..0] == "";
    }
  }

  lemma ParseDecimal(n: nat)
    requires n <= MAX_INT64
    ensures ParseInt(Decimal(n)) == Some(n)
    ensures Tight(Decimal(n)) && '-' !in Decimal(n) && ',' !in Decimal(n) && '/' !in Decimal(n)
    ensures '0' <= Decimal(n)[0] <= '9'
  {
    DecimalReadsBack(n);
  }

  /** A number as section 14.1.2 of RFC 9110 writes it: one or more digits. */
  predicate IsNumber(s: string) {
    s != "" && AllDigits(s)
  }

  /** Unsigned digits parse to their value, if it fits. */
  lemma ParseNumber(s: string)
    requires IsNumber(s)
    ensures ParseInt(s) == if DecimalValue(s) <= MAX_INT64 then Some(DecimalValue(s)) else None
    ensures Tight(s) && '-' !in s && '+' !in s && ',' !in s && !IsSpace(s[0]) && !IsSpace(s[|s| - 1])
  {
    assert '0' <= s[0] <= '9' && '0' <= s[|s| - 1] <= '9';
  }

  /** Whatever parses without a sign is a number. */
  lemma UnsignedIsNumber(s: string)
    requires ParseInt(s).Some? && '-' !in s && '+' !in s
    ensures IsNumber(s)
  {
    if s != "" {
      assert s[0] in s;
    }
  }

  /** `strings.Cut` at the first `separator`. */
  function Cut(s: string, separator: char): Option<(string, string)> {
    if s == "" then None
    else if s[0] == separator then Some(("", s[1..]))
    else
      var r := Cut(s[1..], separator);
      if r == None then None else Some(([s[0]] + r.value.0, r.value.1))
  }

  lemma {:induction false} CutAtSeparator(before: string, separator: char, after: string)
    requires separator !in before
    ensures Cut(before + [separator] + after, separator) == Some((before, after))
  {
    var s := before + [separator] + after;
    if before == "" {
      assert s[1..] == after;
    } else {
      assert s[1..] == before[1..] + [separator] + after;
      CutAtSeparator(before[1..], separator, after);
      assert [before[0]] + before[1..] == before;
    }
  }

  lemma {:induction false} CutSplits(s: string, separator: char)
    requires Cut(s, separator).Some?
    ensures var (before, after) := Cut(s, separator).value;
      s == before + [separator] + after && separator !in before
  {
    if s[0] != separator {
      CutSplits(s[1..], separator);
      assert s == [s[0]] + s[1..];
    }
  }
}
