/** The string and rune literals of Go, as the language specification writes them ("Rune literals" and "String literals"),
    against the reader that splits guarded conditions. */
module Literals {
  import opened ManagedCondition
  import opened Wrappers

  /** `c` is how the digit `n` is written, in either case. */
  predicate IsDigit(c: char, n: nat) {
    n < 16 && (c == "0123456789abcdef"[n] || c == "0123456789ABCDEF"[n])
  }

  function Numeral(digits: seq<nat>, base: nat): nat {
    if digits == [] then 0 else Numeral(digits[..|digits| - 1], base) * base + digits[|digits| - 1]
  }

  predicate Spells(s: string, digits: seq<nat>, base: nat) {
    |s| == |digits| && forall i | 0 <= i < |s| :: digits[i] < base && IsDigit(s[i], digits[i])
  }

  /** A piece of a literal, and what it stands for. */
  datatype Piece = Piece(text: string, value: string)

  const LETTERS: set<Piece> := {
    Piece("\\a", "\U{7}"), Piece("\\b", "\U{8}"), Piece("\\f", "\U{c}"), Piece("\\n", "\U{a}"),
    Piece("\\r", "\U{d}"), Piece("\\t", "\U{9}"), Piece("\\v", "\U{b}"), Piece("\\\\", "\\")
  }

  /** An escape of `width` digits that stands for the rune of that number below `limit`. */
  ghost predicate IsNumeric(p: Piece, lead: string, width: nat, base: nat, limit: nat) {
    exists digits: string, numbers: seq<nat> ::
      && |digits| == width && Spells(digits, numbers, base)
      && p.text == lead + digits
      && |p.value| == 1 && p.value[0] as nat == Numeral(numbers, base) < limit
  }

  /** What may stand between double or single quotes. */
  ghost predicate IsInterpreted(p: Piece, quote: char) {
    || (|p.text| == 1 && p.value == p.text && p.text[0] != quote && p.text[0] != '\\' && p.text[0] != '\n')
    || p in LETTERS
    || p == Piece(['\\', quote], [quote])
    || IsNumeric(p, "\\", 3, 8, 0x80)
    || IsNumeric(p, "\\x", 2, 16, 0x80)
    || IsNumeric(p, "\\u", 4, 16, 0x110000)
    || IsNumeric(p, "\\U", 8, 16, 0x110000)
  }

  /** What may stand between back quotes: anything but a back quote, with carriage returns left out. */
  predicate IsRaw(p: Piece) {
    || (|p.text| == 1 && p.value == p.text && p.text[0] != '`' && p.text[0] != '\r')
    || p == Piece("\r", "")
  }

  ghost predicate IsPiece(p: Piece, quote: char) {
    if quote == '`' then IsRaw(p) else IsInterpreted(p, quote)
  }

  function Texts(pieces: seq<Piece>): string {
    if pieces == [] then "" else pieces[0].text + Texts(pieces[1..])
  }

  function Values(pieces: seq<Piece>): string {
    if pieces == [] then "" else pieces[0].value + Values(pieces[1..])
  }

  /** `s` is the literal of these pieces; between single quotes there is at most one. */
  ghost predicate IsLiteral(s: string, quote: char, pieces: seq<Piece>) {
    && (quote == '"' || quote == '\'' || quote == '`')
    && s == [quote] + Texts(pieces) + [quote]
    && (forall p <- pieces :: IsPiece(p, quote))
    && (quote == '\'' ==> |pieces| <= 1)
  }

  // ---------------------------------------------------------------- numbers

  lemma DigitsAgree(c: char, n: nat)
    ensures IsDigit(c, n) <==> Unhex(c) == Some(n)
    ensures IsDigit(c, n) && n < 8 <==> Octal(c) == Some(n)
  {
    var lower, upper := "0123456789abcdef", "0123456789ABCDEF";
    if n < 10 {
      assert lower[n] as int == '0' as int + n && upper[n] as int == '0' as int + n;
    } else if n < 16 {
      assert lower[n] as int == 'a' as int + n - 10 && upper[n] as int == 'A' as int + n - 10;
    }
  }

  lemma {:induction false} HexReads(s: string, digits: seq<nat>)
    requires Spells(s, digits, 16)
    ensures HexValue(s) == Some(Numeral(digits, 16))
  {
    if s != "" {
      HexReads(s[..|s| - 1], digits[..|s| - 1]);
      DigitsAgree(s[|s| - 1], digits[|s| - 1]);
    }
  }

  lemma {:induction false} HexIsSpelled(s: string) returns (digits: seq<nat>)
    requires HexValue(s).Some?
    ensures Spells(s, digits, 16) && Numeral(digits, 16) == HexValue(s).value
  {
    digits := [];
    if s != "" {
      var front := HexIsSpelled(s[..|s| - 1]);
      var last := Unhex(s[|s| - 1]).value;
      DigitsAgree(s[|s| - 1], last);
      digits := front + [last];
      assert digits[..|s| - 1] == front;
    }
  }

  lemma OctalReads(s: string, digits: seq<nat>)
    requires |s| == 3 && Spells(s, digits, 8)
    ensures Octal(s[0]) == Some(digits[0]) && Octal(s[1]) == Some(digits[1]) && Octal(s[2]) == Some(digits[2])
    ensures Numeral(digits, 8) == 64 * digits[0] + 8 * digits[1] + digits[2]
  {
    DigitsAgree(s[0], digits[0]);
    DigitsAgree(s[1], digits[1]);
    DigitsAgree(s[2], digits[2]);
    OctalNumeral(digits);
  }

  lemma OctalNumeral(digits: seq<nat>)
    requires |digits| == 3
    ensures Numeral(digits, 8) == 64 * digits[0] + 8 * digits[1] + digits[2]
  {
    assert digits[..2][..1] == digits[..1];
    assert Numeral(digits[..1], 8) == digits[0];
    assert Numeral(digits[..2], 8) == 8 * digits[0] + digits[1];
  }

  // ---------------------------------------------------------------- one piece

  lemma NumberReads(digits: string, numbers: seq<nat>, c: char, limit: nat, tail: string)
    requires Spells(digits, numbers, 16) && c as nat == Numeral(numbers, 16) < limit
    ensures UnquoteNumber(digits + tail, |digits|, limit) == Some((c, tail))
  {
    HexReads(digits, numbers);
    assert (digits + tail)[..|digits|] == digits && (digits + tail)[|digits|..] == tail;
  }

  lemma NumericReads(p: Piece, kind: char, width: nat, limit: nat, tail: string)
    requires IsNumeric(p, ['\\', kind], width, 16, limit)
    ensures p.text[1..] != "" && p.text[1] == kind && |p.value| == 1
    ensures UnquoteNumber((p.text[1..] + tail)[1..], width, limit) == Some((p.value[0], tail))
  {
    var digits, numbers :| |digits| == width && Spells(digits, numbers, 16) && p.text == ['\\', kind] + digits
      && p.value[0] as nat == Numeral(numbers, 16) < limit;
    NumberReads(digits, numbers, p.value[0], limit, tail);
    assert (p.text[1..] + tail)[1..] == digits + tail;
  }

  lemma OctalDigitsRead(digits: string, numbers: seq<nat>, c: char, quote: char, tail: string)
    requires |digits| == 3 && Spells(digits, numbers, 8) && c as nat == Numeral(numbers, 8) < 0x80
    ensures UnquoteEscape(digits + tail, quote) == Some((c, tail))
  {
    OctalReads(digits, numbers);
    assert (digits + tail)[3..] == tail;
  }

  lemma OctalPieceReads(p: Piece, quote: char, tail: string)
    requires IsNumeric(p, "\\", 3, 8, 0x80)
    ensures UnquoteEscape(p.text[1..] + tail, quote) == Some((p.value[0], tail))
  {
    var digits, numbers :| |digits| == 3 && Spells(digits, numbers, 8) && p.text == "\\" + digits
      && p.value[0] as nat == Numeral(numbers, 8) < 0x80;
    OctalDigitsRead(digits, numbers, p.value[0], quote, tail);
    assert p.text[1..] == digits;
  }

  lemma ShortReads(p: Piece, quote: char, tail: string)
    requires quote == '"' || quote == '\''
    requires p in LETTERS || p == Piece(['\\', quote], [quote])
    ensures |p.value| == 1 && |p.text| == 2 && p.text[0] == '\\'
    ensures UnquoteEscape([p.text[1]] + tail, quote) == Some((p.value[0], tail))
  {
    assert ([p.text[1]] + tail)[1..] == tail;
  }

  lemma HexEscape(s: string, width: nat, limit: nat, quote: char)
    requires s != ""
    requires (s[0] == 'x' && width == 2 && limit == 0x80)
          || (s[0] == 'u' && width == 4 && limit == 0x110000) || (s[0] == 'U' && width == 8 && limit == 0x110000)
    ensures UnquoteEscape(s, quote) == UnquoteNumber(s[1..], width, limit)
  {
  }

  lemma HexPieceReads(p: Piece, kind: char, width: nat, limit: nat, quote: char, tail: string)
    requires (kind == 'x' && width == 2 && limit == 0x80)
          || (kind == 'u' && width == 4 && limit == 0x110000) || (kind == 'U' && width == 8 && limit == 0x110000)
    requires IsNumeric(p, ['\\', kind], width, 16, limit)
    ensures |p.value| == 1 && UnquoteEscape(p.text[1..] + tail, quote) == Some((p.value[0], tail))
  {
    NumericReads(p, kind, width, limit, tail);
    HexEscape(p.text[1..] + tail, width, limit, quote);
  }

  lemma PieceReads(p: Piece, quote: char, tail: string)
    requires (quote == '"' || quote == '\'') && IsInterpreted(p, quote)
    ensures |p.value| == 1 && p.text != "" && p.text[0] != quote && p.text[0] != '\n'
    ensures UnquoteChar(p.text + tail, quote) == Some((p.value[0], tail))
  {
    assert (p.text + tail)[1..] == p.text[1..] + tail;
    if |p.text| == 1 && p.text[0] != '\\' {
      assert p.text[1..] + tail == tail;
    } else if p in LETTERS || p == Piece(['\\', quote], [quote]) {
      ShortReads(p, quote, tail);
      assert p.text[1..] == [p.text[1]];
    } else if IsNumeric(p, "\\", 3, 8, 0x80) {
      OctalPieceReads(p, quote, tail);
    } else if IsNumeric(p, "\\x", 2, 16, 0x80) {
      HexPieceReads(p, 'x', 2, 0x80, quote, tail);
    } else if IsNumeric(p, "\\u", 4, 16, 0x110000) {
      HexPieceReads(p, 'u', 4, 0x110000, quote, tail);
    } else {
      HexPieceReads(p, 'U', 8, 0x110000, quote, tail);
    }
  }

  lemma NumberIsNumeric(s: string, lead: string, width: nat, limit: nat) returns (p: Piece)
    requires UnquoteNumber(s, width, limit).Some? && limit <= 0x110000
    ensures IsNumeric(p, lead, width, 16, limit) && p.text + UnquoteNumber(s, width, limit).value.1 == lead + s
    ensures p.value == [UnquoteNumber(s, width, limit).value.0]
  {
    var numbers := HexIsSpelled(s[..width]);
    p := Piece(lead + s[..width], [UnquoteNumber(s, width, limit).value.0]);
    assert s == s[..width] + s[width..];
  }

  lemma OctalIsNumeric(s: string, quote: char) returns (p: Piece)
    requires s != "" && Octal(s[0]).Some? && UnquoteEscape(s, quote).Some?
    ensures IsNumeric(p, "\\", 3, 8, 0x80) && p.text + UnquoteEscape(s, quote).value.1 == "\\" + s
    ensures p.value == [UnquoteEscape(s, quote).value.0]
  {
    var numbers := [Octal(s[0]).value, Octal(s[1]).value, Octal(s[2]).value];
    DigitsAgree(s[0], numbers[0]);
    DigitsAgree(s[1], numbers[1]);
    DigitsAgree(s[2], numbers[2]);
    OctalNumeral(numbers);
    assert Spells(s[..3], numbers, 8);
    p := Piece("\\" + s[..3], [UnquoteEscape(s, quote).value.0]);
    assert s == s[..3] + s[3..];
  }

  lemma ShortIsPiece(s: string, quote: char) returns (p: Piece)
    requires (quote == '"' || quote == '\'') && UnquoteEscape(s, quote).Some?
    requires s[0] !in "xuU" && Octal(s[0]) == None
    ensures IsInterpreted(p, quote) && p.text + UnquoteEscape(s, quote).value.1 == "\\" + s
    ensures p.value == [UnquoteEscape(s, quote).value.0]
  {
    p := Piece(['\\', s[0]], [UnquoteEscape(s, quote).value.0]);
    assert s == [s[0]] + s[1..];
  }

  lemma HexIsPiece(s: string, quote: char, width: nat, limit: nat) returns (p: Piece)
    requires s != "" && UnquoteNumber(s[1..], width, limit).Some?
    requires (s[0] == 'x' && width == 2 && limit == 0x80)
          || (s[0] == 'u' && width == 4 && limit == 0x110000) || (s[0] == 'U' && width == 8 && limit == 0x110000)
    ensures IsInterpreted(p, quote) && p.text + UnquoteNumber(s[1..], width, limit).value.1 == "\\" + s
    ensures p.value == [UnquoteNumber(s[1..], width, limit).value.0]
  {
    var lead := ['\\', s[0]];
    p := NumberIsNumeric(s[1..], lead, width, limit);
    assert lead + s[1..] == "\\" + s;
    assert lead == if s[0] == 'x' then "\\x" else if s[0] == 'u' then "\\u" else "\\U";
  }

  lemma EscapeIsPiece(s: string, quote: char) returns (p: Piece)
    requires (quote == '"' || quote == '\'') && UnquoteEscape(s, quote).Some?
    ensures IsInterpreted(p, quote) && p.text + UnquoteEscape(s, quote).value.1 == "\\" + s
    ensures p.value == [UnquoteEscape(s, quote).value.0]
  {
    if s[0] == 'x' {
      p := HexIsPiece(s, quote, 2, 0x80);
    } else if s[0] == 'u' {
      p := HexIsPiece(s, quote, 4, 0x110000);
    } else if s[0] == 'U' {
      p := HexIsPiece(s, quote, 8, 0x110000);
    } else if Octal(s[0]).Some? {
      p := OctalIsNumeric(s, quote);
    } else {
      p := ShortIsPiece(s, quote);
    }
  }

  lemma ReadIsPiece(s: string, quote: char) returns (p: Piece)
    requires (quote == '"' || quote == '\'') && s != "" && s[0] != quote && s[0] != '\n' && UnquoteChar(s, quote).Some?
    ensures IsInterpreted(p, quote) && p.text + UnquoteChar(s, quote).value.1 == s
    ensures p.value == [UnquoteChar(s, quote).value.0]
  {
    assert s == [s[0]] + s[1..];
    if s[0] == '\\' {
      p := EscapeIsPiece(s[1..], quote);
    } else {
      p := Piece([s[0]], [s[0]]);
    }
  }

  // ---------------------------------------------------------------- whole literals

  lemma {:induction false} BodyReads(pieces: seq<Piece>, quote: char, tail: string)
    requires (quote == '"' || quote == '\'') && forall p <- pieces :: IsInterpreted(p, quote)
    ensures UnquoteBody(Texts(pieces) + [quote] + tail, quote) == Some((Values(pieces), tail))
    ensures |Values(pieces)| == |pieces|
  {
    var s := Texts(pieces) + [quote] + tail;
    if pieces == [] {
      assert s[1..] == tail;
    } else {
      var rest := Texts(pieces[1..]) + [quote] + tail;
      assert s == pieces[0].text + rest;
      PieceReads(pieces[0], quote, rest);
      BodyReads(pieces[1..], quote, tail);
      assert [pieces[0].value[0]] == pieces[0].value;
    }
  }

  lemma OneMorePiece(first: Piece, rest: seq<Piece>, quote: char, after: string)
    requires IsInterpreted(first, quote) && forall p <- rest :: IsInterpreted(p, quote)
    ensures forall p <- [first] + rest :: IsInterpreted(p, quote)
    ensures Texts([first] + rest) + [quote] + after == first.text + (Texts(rest) + [quote] + after)
    ensures Values([first] + rest) == first.value + Values(rest)
  {
    assert ([first] + rest)[1..] == rest;
  }

  lemma BodyStep(s: string, quote: char)
    requires s != "" && s[0] != quote && UnquoteBody(s, quote).Some?
    ensures s[0] != '\n' && UnquoteChar(s, quote).Some?
    ensures var (c, left) := UnquoteChar(s, quote).value;
      && UnquoteBody(left, quote).Some?
      && UnquoteBody(s, quote).value == ([c] + UnquoteBody(left, quote).value.0, UnquoteBody(left, quote).value.1)
  {
  }

  lemma {:induction false} BodyIsPieces(s: string, quote: char) returns (pieces: seq<Piece>)
    requires (quote == '"' || quote == '\'') && UnquoteBody(s, quote).Some?
    ensures forall p <- pieces :: IsInterpreted(p, quote)
    ensures s == Texts(pieces) + [quote] + UnquoteBody(s, quote).value.1
    ensures Values(pieces) == UnquoteBody(s, quote).value.0
    decreases |s|
  {
    if s[0] == quote {
      pieces := [];
      assert s == [s[0]] + s[1..];
    } else {
      BodyStep(s, quote);
      var first := ReadIsPiece(s, quote);
      var rest := BodyIsPieces(UnquoteChar(s, quote).value.1, quote);
      OneMorePiece(first, rest, quote, UnquoteBody(s, quote).value.1);
      pieces := [first] + rest;
    }
  }

  lemma {:induction false} FirstIndex(s: string, c: char)
    ensures match IndexOf(s, c) case Some(i) => i < |s| && s[i] == c && c !in s[..i] case None => c !in s
  {
    if s != "" && s[0] != c {
      FirstIndex(s[1..], c);
      if IndexOf(s, c).Some? {
        var i := IndexOf(s, c).value;
        assert s[..i] == [s[0]] + s[1..][..i - 1];
      }
    }
  }

  lemma IndexIsFirst(s: string, c: char, i: nat)
    requires i < |s| && s[i] == c && c !in s[..i]
    ensures IndexOf(s, c) == Some(i)
  {
    FirstIndex(s, c);
    assert s[i] in s && forall j | 0 <= j < i :: s[j] == s[..i][j];
    assert forall j | i < j <= |s| :: s[..j][i] == c;
  }

  lemma RawStep(p: Piece, rest: string)
    requires IsRaw(p) && '`' !in rest
    ensures '`' !in p.text + rest && DropReturns(p.text + rest) == p.value + DropReturns(rest)
  {
    assert (p.text + rest)[1..] == rest;
  }

  lemma {:induction false} RawReads(pieces: seq<Piece>)
    requires forall p <- pieces :: IsRaw(p)
    ensures '`' !in Texts(pieces) && DropReturns(Texts(pieces)) == Values(pieces)
  {
    if pieces != [] {
      RawReads(pieces[1..]);
      RawStep(pieces[0], Texts(pieces[1..]));
    }
  }

  lemma {:induction false} RawIsPieces(s: string) returns (pieces: seq<Piece>)
    requires '`' !in s
    ensures forall p <- pieces :: IsRaw(p)
    ensures s == Texts(pieces) && DropReturns(s) == Values(pieces)
  {
    pieces := [];
    if s != "" {
      var rest := RawIsPieces(s[1..]);
      assert s[0] in s;
      var first := Piece([s[0]], if s[0] == '\r' then "" else [s[0]]);
      pieces := [first] + rest;
      assert pieces[1..] == rest && s == [s[0]] + s[1..];
    }
  }

  lemma LiteralReads(s: string, quote: char, pieces: seq<Piece>)
    requires IsLiteral(s, quote, pieces)
    ensures Unquote(s) == Some(Values(pieces))
  {
    var body := Texts(pieces);
    assert s[1..] == body + [quote];
    if quote == '`' {
      RawReads(pieces);
      assert s[1..][..|s| - 2] == body && s[1..|s| - 1] == body;
      IndexIsFirst(s[1..], '`', |s| - 2);
    } else {
      assert s[1..] == body + [quote] + "";
      BodyReads(pieces, quote, "");
    }
  }

  lemma ReadIsLiteral(s: string) returns (pieces: seq<Piece>)
    requires Unquote(s).Some?
    ensures s != "" && IsLiteral(s, s[0], pieces) && Values(pieces) == Unquote(s).value
  {
    assert s == [s[0]] + s[1..];
    if s[0] == '`' {
      FirstIndex(s[1..], '`');
      var body := s[1..|s| - 1];
      assert body == s[1..][..|s| - 2] && s[1..] == body + "`";
      pieces := RawIsPieces(body);
    } else {
      pieces := BodyIsPieces(s[1..], s[0]);
      BodyReads(pieces, s[0], "");
    }
  }

  /** Whatever way a literal is written, in whichever quotes and with whichever escapes, it unquotes to what it stands
      for; and nothing else unquotes. */
  lemma ExactlyLiteralsUnquote(s: string, value: string)
    ensures Unquote(s) == Some(value) <==>
      exists quote: char, pieces: seq<Piece> :: IsLiteral(s, quote, pieces) && Values(pieces) == value
  {
    if Unquote(s) == Some(value) {
      var pieces := ReadIsLiteral(s);
      assert IsLiteral(s, s[0], pieces);
    }
    if quote, pieces :| IsLiteral(s, quote, pieces) && Values(pieces) == value {
      LiteralReads(s, quote, pieces);
    }
  }
}
