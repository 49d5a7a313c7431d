/** Guarded provisioning conditions (internal/authz/management.go): an audience is printed as a quoted literal in
    front of the operator's condition, and read back by unquoting ever longer prefixes. */
module ManagedCondition {
  import opened Text
  import opened Wrappers

  const PREFIX := "hasAny(claims.aud, ["
  const MIDDLE := "]) && ("
  const SUFFIX := ")"

  // ---------------------------------------------------------------- strconv

  function HexDigit(n: nat): char
    requires n < 16
  {
    "0123456789abcdef"[n]
  }

  function Unhex(c: char): Option<nat> {
    if '0' <= c <= '9' then Some(c as int - '0' as int)
    else if 'a' <= c <= 'f' then Some(c as int - 'a' as int + 10)
    else if 'A' <= c <= 'F' then Some(c as int - 'A' as int + 10)
    else None
  }

  /** The last `width` hexadecimal digits of `n`. */
  function Hex(n: nat, width: nat): (s: string)
    ensures |s| == width
  {
    if width == 0 then "" else Hex(n / 16, width - 1) + [HexDigit(n % 16)]
  }

  function HexValue(s: string): Option<nat> {
    if s == "" then Some(0)
    else
      var front, last := HexValue(s[..|s| - 1]), Unhex(s[|s| - 1]);
      if front == None || last == None then None else Some(front.value * 16 + last.value)
  }

  function Power16(width: nat): nat {
    if width == 0 then 1 else 16 * Power16(width - 1)
  }

  lemma HexDigitRoundTrip(n: nat)
    requires n < 16
    ensures Unhex(HexDigit(n)) == Some(n)
  {
    var digits := "0123456789abcdef";
    assert n < 10 ==> digits[n] as int == '0' as int + n;
    assert n >= 10 ==> digits[n] as int == 'a' as int + n - 10;
  }

  lemma {:induction false} HexRoundTrip(n: nat, width: nat)
    requires n < Power16(width)
    ensures HexValue(Hex(n, width)) == Some(n)
  {
    if width > 0 {
      HexRoundTrip(n / 16, width - 1);
      HexDigitRoundTrip(n % 16);
      var s := Hex(n, width);
      assert s[..|s| - 1] == Hex(n / 16, width - 1);
    }
  }

  /** The letters of the short escapes. */
  function ShortEscape(c: char): Option<char> {
    match c as int
    case 7 => Some('a')
    case 8 => Some('b')
    case 12 => Some('f')
    case 10 => Some('n')
    case 13 => Some('r')
    case 9 => Some('t')
    case 11 => Some('v')
    case _ => None
  }

  function ShortUnescape(c: char): Option<char> {
    match c
    case 'a' => Some('\U{7}')
    case 'b' => Some('\U{8}')
    case 'f' => Some('\U{c}')
    case 'n' => Some('\n')
    case 'r' => Some('\r')
    case 't' => Some('\t')
    case 'v' => Some('\U{b}')
    case _ => None
  }

  /** A table of printable runes; the source's is fixed on ASCII and may be anything beyond. */
  ghost predicate PrintTable(printable: char -> bool) {
    forall c: char | c < '\U{80}' :: printable(c) <==> ' ' <= c <= '~'
  }

  /** How `strconv.Quote` writes one rune. */
  function Escape(printable: char -> bool, c: char): (s: string)
    ensures s != ""
  {
    if c == '"' || c == '\\' then ['\\', c]
    else if printable(c) then [c]
    else if ShortEscape(c).Some? then ['\\', ShortEscape(c).value]
    else if c < ' ' || c == '\U{7f}' then "\\x" + Hex(c as int, 2)
    else if c as int < 0x10000 then "\\u" + Hex(c as int, 4)
    else "\\U" + Hex(c as int, 8)
  }

  function EscapeAll(printable: char -> bool, s: string): string {
    if s == "" then "" else Escape(printable, s[0]) + EscapeAll(printable, s[1..])
  }

  function Quote(printable: char -> bool, s: string): string {
    "\"" + EscapeAll(printable, s) + "\""
  }

  predicate ValidRune(n: nat) {
    n < 0xd800 || 0xe000 <= n < 0x110000
  }

  /** A numeric escape of `width` digits. Escapes that denote a single byte above 0x7f are not modelled. */
  function UnquoteNumber(digits: string, width: nat, limit: nat): Option<(char, string)> {
    if |digits| < width then None
    else
      var value := HexValue(digits[..width]);
      if value == None || value.value >= limit || !ValidRune(value.value) then None
      else Some((value.value as char, digits[width..]))
  }

  function Octal(c: char): Option<nat> {
    if '0' <= c <= '7' then Some(c as int - '0' as int) else None
  }

  /** `strconv.UnquoteChar` after a backslash. */
  function UnquoteEscape(s: string, quote: char): Option<(char, string)> {
    if s == "" then None
    else if ShortUnescape(s[0]).Some? then Some((ShortUnescape(s[0]).value, s[1..]))
    else if s[0] == 'x' then UnquoteNumber(s[1..], 2, 0x80)
    else if s[0] == 'u' then UnquoteNumber(s[1..], 4, 0x110000)
    else if s[0] == 'U' then UnquoteNumber(s[1..], 8, 0x110000)
    else if Octal(s[0]).Some? then
      if |s| < 3 || Octal(s[1]) == None || Octal(s[2]) == None then None
      else
        var value := 64 * Octal(s[0]).value + 8 * Octal(s[1]).value + Octal(s[2]).value;
        if value >= 0x80 then None else Some((value as char, s[3..]))
    else if s[0] == '\\' then Some(('\\', s[1..]))
    else if (s[0] == '"' || s[0] == '\'') && s[0] == quote then Some((s[0], s[1..]))
    else None
  }

  function UnquoteChar(s: string, quote: char): (r: Option<(char, string)>)
    requires s != "" && s[0] != quote
    ensures r.Some? ==> |r.value.1| < |s|
  {
    if s[0] == '\\' then UnquoteEscape(s[1..], quote) else Some((s[0], s[1..]))
  }

  /** The runes up to the closing quote, and what follows it. */
  function UnquoteBody(s: string, quote: char): Option<(string, string)>
    decreases |s|
  {
    if s == "" then None
    else if s[0] == quote then Some(("", s[1..]))
    else
      var first := UnquoteChar(s, quote);
      if s[0] == '\n' || first == None then None
      else
        var rest := UnquoteBody(first.value.1, quote);
        if rest == None then None else Some(([first.value.0] + rest.value.0, rest.value.1))
  }

  function IndexOf(s: string, c: char): Option<nat> {
    if s == "" then None
    else if s[0] == c then Some(0)
    else var i := IndexOf(s[1..], c); if i == None then None else Some(i.value + 1)
  }

  function DropReturns(s: string): string {
    if s == "" then "" else (if s[0] == '\r' then "" else [s[0]]) + DropReturns(s[1..])
  }

  /** `strconv.Unquote`: the whole text must be one literal, in double, back or single quotes. */
  function Unquote(s: string): Option<string> {
    if |s| < 2 then None
    else if s[0] == '`' then
      if IndexOf(s[1..], '`') == Some(|s| - 2) then Some(DropReturns(s[1..|s| - 1])) else None
    else if s[0] == '"' || s[0] == '\'' then
      var r := UnquoteBody(s[1..], s[0]);
      if r == None || r.value.1 != "" || (s[0] == '\'' && |r.value.0| > 1) then None else Some(r.value.0)
    else None
  }

  // ---------------------------------------------------------------- quoting undone

  lemma Powers()
    ensures Power16(2) == 0x100 && Power16(4) == 0x10000 && Power16(8) == 0x1_0000_0000
  {
    assert Power16(4) == 16 * 16 * Power16(2);
    assert Power16(6) == 16 * 16 * Power16(4);
  }

  lemma NumberRoundTrip(c: char, width: nat, limit: nat, tail: string)
    requires c as nat < Power16(width) && c as nat < limit
    ensures UnquoteNumber(Hex(c as nat, width) + tail, width, limit) == Some((c, tail))
  {
    HexRoundTrip(c as nat, width);
    var s := Hex(c as nat, width) + tail;
    assert s[..width] == Hex(c as nat, width) && s[width..] == tail;
  }

  lemma NumericEscapeRoundTrip(c: char, kind: char, width: nat, tail: string)
    requires (kind == 'x' && width == 2 && c < '\U{80}') || (kind == 'u' && width == 4) || (kind == 'U' && width == 8)
    requires c as nat < Power16(width)
    ensures UnquoteEscape([kind] + Hex(c as nat, width) + tail, '"') == Some((c, tail))
  {
    var s := [kind] + Hex(c as nat, width) + tail;
    assert s[1..] == Hex(c as nat, width) + tail;
    NumberRoundTrip(c, width, if kind == 'x' then 0x80 else 0x110000, tail);
  }

  lemma LetterEscapeRoundTrip(e: char, c: char, tail: string)
    requires ShortEscape(c) == Some(e) || (e == c && (c == '"' || c == '\\'))
    ensures UnquoteEscape([e] + tail, '"') == Some((c, tail))
  {
    assert ([e] + tail)[1..] == tail;
  }

  /** An escaped rune is read back as that rune, whatever follows. */
  lemma EscapeRoundTrip(printable: char -> bool, c: char, tail: string)
    requires PrintTable(printable)
    ensures var s := Escape(printable, c) + tail;
      s[0] != '"' && s[0] != '\n' && UnquoteChar(s, '"') == Some((c, tail))
  {
    var e := Escape(printable, c);
    var s := e + tail;
    if e[0] == '\\' {
      assert s[1..] == e[1..] + tail;
      if |e| > 2 {
        Powers();
        NumericEscapeRoundTrip(c, e[1], |e| - 2, tail);
        assert e[1..] == [e[1]] + Hex(c as nat, |e| - 2);
      } else {
        LetterEscapeRoundTrip(e[1], c, tail);
        assert e[1..] == [e[1]];
      }
    } else {
      assert s[1..] == tail;
    }
  }

  /** Part of an escape is not an escape. */
  lemma PartialEscapeFails(printable: char -> bool, c: char, k: nat)
    requires PrintTable(printable) && 0 < k < |Escape(printable, c)|
    ensures var p := Escape(printable, c)[..k]; p[0] == '\\' && UnquoteChar(p, '"') == None
  {
    var e := Escape(printable, c);
    var p := e[..k];
    if k > 1 {
      assert p[1] == e[1];
      assert |p[1..][1..]| == k - 2;
    }
  }

  /** The literal of `Quote` is closed by its last quote. */
  lemma {:induction false} LiteralReadsBack(printable: char -> bool, s: string, tail: string)
    requires PrintTable(printable)
    ensures UnquoteBody(EscapeAll(printable, s) + "\"" + tail, '"') == Some((s, tail))
  {
    var whole := EscapeAll(printable, s) + "\"" + tail;
    if s == "" {
      assert whole[1..] == tail;
    } else {
      var rest := EscapeAll(printable, s[1..]) + "\"" + tail;
      assert whole == Escape(printable, s[0]) + rest;
      EscapeRoundTrip(printable, s[0], rest);
      LiteralReadsBack(printable, s[1..], tail);
      assert [s[0]] + s[1..] == s;
    }
  }

  /** No earlier quote closes it: what is cut off before the last quote does not unquote. */
  lemma {:induction false} CutLiteralFails(printable: char -> bool, s: string, k: nat)
    requires PrintTable(printable) && k <= |EscapeAll(printable, s)|
    ensures UnquoteBody(EscapeAll(printable, s)[..k], '"') == None
  {
    if s != "" && k > 0 {
      var e, p := Escape(printable, s[0]), EscapeAll(printable, s)[..k];
      EscapeRoundTrip(printable, s[0], "");
      assert e + "" == e;
      if k < |e| {
        assert p == e[..k];
        PartialEscapeFails(printable, s[0], k);
      } else {
        var rest := EscapeAll(printable, s[1..])[..k - |e|];
        assert p == e + rest;
        EscapeRoundTrip(printable, s[0], rest);
        CutLiteralFails(printable, s[1..], k - |e|);
      }
    }
  }

  /** Among the prefixes of a text that begins with a quoted literal, up to the end of the literal, exactly the
      literal unquotes. */
  lemma OnlyTheLiteralUnquotes(printable: char -> bool, s: string, tail: string, end: nat)
    requires PrintTable(printable) && 1 <= end <= |Quote(printable, s)|
    ensures Unquote((Quote(printable, s) + tail)[..end]) == if end == |Quote(printable, s)| then Some(s) else None
  {
    var literal := Quote(printable, s);
    var p := (literal + tail)[..end];
    assert p == literal[..end];
    var body := EscapeAll(printable, s);
    if end == |literal| {
      assert p[1..] == body + "\"" + "";
      LiteralReadsBack(printable, s, "");
    } else if end >= 2 {
      assert p[1..] == body[..end - 1];
      CutLiteralFails(printable, s, end - 1);
    }
  }

  // ---------------------------------------------------------------- guarded conditions

  /** `managedRuleCondition`, with condition normalisation as trimming and condition validity as a parameter. */
  function ManagedRuleCondition(printable: char -> bool, valid: string -> bool, audience: string, condition: string):
      Option<string>
  {
    var a, c := Trim(audience), Trim(condition);
    if a == "" || !valid(c) then None
    else
      var guarded := PREFIX + Quote(printable, a) + MIDDLE + c + SUFFIX;
      if valid(guarded) then Some(guarded) else None
  }

  /** The scan may stop at `end`: the prefix is a non-empty literal and the fixed middle follows. */
  predicate Stops(rest: string, end: nat) {
    && end <= |rest|
    && Unquote(rest[..end]).Some?
    && Unquote(rest[..end]) != Some("")
    && HasPrefix(rest[end..], MIDDLE)
  }

  /** What the scan returns where it stops. */
  function Parsed(rest: string, end: nat): Option<(string, string)>
    requires Stops(rest, end)
  {
    var operatorCondition := rest[end + |MIDDLE|..];
    if !HasSuffix(operatorCondition, SUFFIX) || |operatorCondition| == |SUFFIX| then None
    else Some((Unquote(rest[..end]).value, operatorCondition[..|operatorCondition| - |SUFFIX|]))
  }

  /** The scan from `end` on. */
  function Scan(rest: string, end: nat): Option<(string, string)>
    decreases |rest| - end
  {
    if end > |rest| then None
    else if Stops(rest, end) then Parsed(rest, end)
    else Scan(rest, end + 1)
  }

  function Split(condition: string): Option<(string, string)> {
    var text := Trim(condition);
    if HasPrefix(text, PREFIX) then Scan(text[|PREFIX|..], 1) else None
  }

  /** `splitManagedRuleCondition`. */
  method SplitManagedRuleCondition(condition: string) returns (r: Option<(string, string)>)
    ensures r == Split(condition)
  {
    var text := Trim(condition);
    if !HasPrefix(text, PREFIX) {
      return None;
    }
    var rest := text[|PREFIX|..];
    var end := 1;
    while end <= |rest|
      invariant 1 <= end <= |rest| + 1
      invariant Scan(rest, 1) == Scan(rest, end)
    {
      var audience := Unquote(rest[..end]);
      if audience == None || audience == Some("") {
        assert !Stops(rest, end);
        end := end + 1;
        continue;
      }
      if !HasPrefix(rest[end..], MIDDLE) {
        assert !Stops(rest, end);
        end := end + 1;
        continue;
      }
      assert Stops(rest, end) && Scan(rest, end) == Parsed(rest, end);
      var operatorCondition := rest[end + |MIDDLE|..];
      if !HasSuffix(operatorCondition, SUFFIX) {
        return None;
      }
      operatorCondition := operatorCondition[..|operatorCondition| - |SUFFIX|];
      if operatorCondition == "" {
        return None;
      }
      return Some((audience.value, operatorCondition));
    }
    return None;
  }

  lemma {:induction false} ScanStopsFirst(rest: string, from: nat, end: nat)
    requires from <= end && Stops(rest, end)
    requires forall k | from <= k < end :: !Stops(rest, k)
    ensures Scan(rest, from) == Parsed(rest, end)
    decreases end - from
  {
    if from < end {
      ScanStopsFirst(rest, from + 1, end);
    }
  }

  /** The guarded text in pieces. */
  lemma GuardedText(literal: string, c: string)
    requires Tight(c) && literal != ""
    ensures var text := PREFIX + literal + MIDDLE + c + SUFFIX;
      && Tight(text)
      && HasPrefix(text, PREFIX)
      && text[|PREFIX|..] == literal + (MIDDLE + c + SUFFIX)
  {
  }

  /** After its literal, the guarded text parses to the condition. */
  lemma TailParses(literal: string, a: string, c: string)
    requires Unquote(literal) == Some(a) && a != "" && c != ""
    ensures var rest := literal + (MIDDLE + c + SUFFIX);
      Stops(rest, |literal|) && Parsed(rest, |literal|) == Some((a, c))
  {
    var tail := MIDDLE + c + SUFFIX;
    var rest := literal + tail;
    assert rest[..|literal|] == literal && rest[|literal|..] == tail;
    assert HasPrefix(tail, MIDDLE);
    assert rest[|literal| + |MIDDLE|..] == c + SUFFIX;
    assert (c + SUFFIX)[..|c|] == c;
  }

  lemma NoEarlierStop(printable: char -> bool, a: string, tail: string, k: nat)
    requires PrintTable(printable) && 1 <= k < |Quote(printable, a)|
    ensures !Stops(Quote(printable, a) + tail, k)
  {
    OnlyTheLiteralUnquotes(printable, a, tail, k);
  }

  /** What was saved is what is read back: the trimmed audience and the normalised condition, whatever quotes,
      backslashes or delimiter text either of them contains. */
  lemma SavedConditionReadsBack(printable: char -> bool, valid: string -> bool, audience: string, condition: string)
    requires PrintTable(printable) && !valid("")
    requires ManagedRuleCondition(printable, valid, audience, condition).Some?
    ensures Split(ManagedRuleCondition(printable, valid, audience, condition).value)
         == Some((Trim(audience), Trim(condition)))
  {
    var a, c := Trim(audience), Trim(condition);
    var literal := Quote(printable, a);
    var tail := MIDDLE + c + SUFFIX;
    GuardedText(literal, c);
    OnlyTheLiteralUnquotes(printable, a, tail, |literal|);
    assert (literal + tail)[..|literal|] == literal;
    TailParses(literal, a, c);
    forall k: nat | 1 <= k < |literal| ensures !Stops(literal + tail, k) {
      NoEarlierStop(printable, a, tail, k);
    }
    ScanStopsFirst(literal + tail, 1, |literal|);
    assert PREFIX + literal + MIDDLE + c + SUFFIX == PREFIX + literal + tail;
  }

  /** Whatever the validator refuses besides the empty text, a pair that is not blank is saved unless one of the two
      texts it makes is refused, and a blank one never is. So under a validator that refuses nothing else exactly the
      pairs that are not blank are saved. */
  lemma NonBlankPairsAreSaved(printable: char -> bool, valid: string -> bool, audience: string, condition: string)
    requires !valid("")
    ensures var saved := ManagedRuleCondition(printable, valid, audience, condition).Some?;
      var guarded := PREFIX + Quote(printable, Trim(audience)) + MIDDLE + Trim(condition) + SUFFIX;
      && (saved <==> !IsBlank(audience) && !IsBlank(condition) && valid(Trim(condition)) && valid(guarded))
      && ((forall text | text != "" :: valid(text)) ==> (saved <==> !IsBlank(audience) && !IsBlank(condition)))
  {
    GuardedText(Quote(printable, Trim(audience)), Trim(condition));
  }

  /** Saving again what was read back stores the same text. */
  lemma ResavingIsStable(printable: char -> bool, valid: string -> bool, audience: string, condition: string)
    requires PrintTable(printable) && !valid("")
    requires ManagedRuleCondition(printable, valid, audience, condition).Some?
    ensures var text := ManagedRuleCondition(printable, valid, audience, condition).value;
      && Split(text).Some?
      && ManagedRuleCondition(printable, valid, Split(text).value.0, Split(text).value.1) == Some(text)
  {
    SavedConditionReadsBack(printable, valid, audience, condition);
  }

  /** Distinct pairs are stored as distinct texts. */
  lemma StoredTextsDiffer(printable: char -> bool, valid: string -> bool, a: string, c: string, b: string, e: string)
    requires PrintTable(printable) && !valid("")
    requires ManagedRuleCondition(printable, valid, a, c).Some?
    requires ManagedRuleCondition(printable, valid, a, c) == ManagedRuleCondition(printable, valid, b, e)
    ensures Trim(a) == Trim(b) && Trim(c) == Trim(e)
  {
    SavedConditionReadsBack(printable, valid, a, c);
    SavedConditionReadsBack(printable, valid, b, e);
  }

  /** Whatever splits is the prefix, a literal of the audience, the middle, a condition and the suffix. */
  lemma {:induction false} SplitTextsAreGuarded(rest: string, from: nat)
    requires Scan(rest, from).Some?
    ensures Scan(rest, from).value.0 != "" && Scan(rest, from).value.1 != ""
    ensures exists end :: (
      && from <= end <= |rest|
      && Unquote(rest[..end]) == Some(Scan(rest, from).value.0)
      && rest == rest[..end] + MIDDLE + Scan(rest, from).value.1 + SUFFIX)
    decreases |rest| - from
  {
    if Stops(rest, from) {
      var operatorCondition := rest[from + |MIDDLE|..];
      assert rest == rest[..from] + rest[from..];
      assert rest[from..] == MIDDLE + operatorCondition;
      assert operatorCondition == operatorCondition[..|operatorCondition| - 1] + SUFFIX;
      assert Unquote(rest[..from]) == Some(Scan(rest, from).value.0);
    } else {
      SplitTextsAreGuarded(rest, from + 1);
    }
  }
}
