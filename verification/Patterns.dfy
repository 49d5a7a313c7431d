/** The patterns that the catalog and its database check names against, as data: a first character from one class, then
    up to a number of characters from another (internal/catalog/catalog.go, internal/store/postgres/migrations). */
module Patterns {
  import opened Catalog
  import opened Keys

  /** A class of characters, as the ranges between its brackets. */
  type Class = seq<(char, char)>

  datatype Pattern = Pattern(first: Class, rest: Class, atMost: nat)

  predicate InClass(c: char, class_: Class) {
    exists r <- class_ :: r.0 <= c <= r.1
  }

  predicate Matches(p: Pattern, s: string) {
    && s != ""
    && InClass(s[0], p.first)
    && |s| <= 1 + p.atMost
    && forall k | 1 <= k < |s| :: InClass(s[k], p.rest)
  }

  const LOWER: Class := [('a', 'z'), ('0', '9')]
  const ALNUM: Class := [('A', 'Z'), ('a', 'z'), ('0', '9')]

  // ^[a-z0-9][a-z0-9._-]{0,127}$
  const IMAGE_NAME := Pattern(LOWER, LOWER + [('.', '.'), ('_', '_'), ('-', '-')], 127)
  // ^[A-Za-z0-9][A-Za-z0-9._+:-]{0,127}$
  const VERSION := Pattern(ALNUM, ALNUM + [('.', '.'), ('_', '_'), ('+', '+'), (':', ':'), ('-', '-')], 127)
  // ^[A-Za-z0-9][A-Za-z0-9._+-]{0,63}$
  const TOKEN := Pattern(ALNUM, ALNUM + [('.', '.'), ('_', '_'), ('+', '+'), ('-', '-')], 63)
  // [0-9a-f]
  const LOWER_HEX: Class := [('0', '9'), ('a', 'f')]

  lemma LowerClass(c: char)
    ensures InClass(c, LOWER) <==> 'a' <= c <= 'z' || '0' <= c <= '9'
    ensures InClass(c, ALNUM) <==> Alnum(c)
    ensures InClass(c, LOWER_HEX) <==> LowerHex(c)
  {
    assert LOWER[0] in LOWER && LOWER[1] in LOWER;
    assert ALNUM[0] in ALNUM && ALNUM[1] in ALNUM && ALNUM[2] in ALNUM;
    assert LOWER_HEX[0] in LOWER_HEX && LOWER_HEX[1] in LOWER_HEX;
  }

  lemma Extended(c: char, class_: Class, more: Class)
    ensures InClass(c, class_ + more) <==> InClass(c, class_) || InClass(c, more)
  {
  }

  lemma Singles(c: char)
    ensures InClass(c, [('.', '.'), ('_', '_'), ('-', '-')]) <==> c in "._-"
    ensures InClass(c, [('.', '.'), ('_', '_'), ('+', '+'), (':', ':'), ('-', '-')]) <==> c in "._+:-"
    ensures InClass(c, [('.', '.'), ('_', '_'), ('+', '+'), ('-', '-')]) <==> c in "._+-"
  {
    var a, b, d := [('.', '.'), ('_', '_'), ('-', '-')], [('.', '.'), ('_', '_'), ('+', '+'), (':', ':'), ('-', '-')],
                   [('.', '.'), ('_', '_'), ('+', '+'), ('-', '-')];
    assert a[0] in a && a[1] in a && a[2] in a;
    assert b[0] in b && b[1] in b && b[2] in b && b[3] in b && b[4] in b;
    assert d[0] in d && d[1] in d && d[2] in d && d[3] in d;
  }

  lemma RestClass(c: char)
    ensures InClass(c, IMAGE_NAME.rest) <==> 'a' <= c <= 'z' || '0' <= c <= '9' || c in "._-"
    ensures InClass(c, VERSION.rest) <==> Alnum(c) || c in "._+:-"
    ensures InClass(c, TOKEN.rest) <==> Alnum(c) || c in "._+-"
  {
    LowerClass(c);
    Singles(c);
    Extended(c, LOWER, [('.', '.'), ('_', '_'), ('-', '-')]);
    Extended(c, ALNUM, [('.', '.'), ('_', '_'), ('+', '+'), (':', ':'), ('-', '-')]);
    Extended(c, ALNUM, [('.', '.'), ('_', '_'), ('+', '+'), ('-', '-')]);
  }

  /** The validators accept exactly what the patterns match. */
  lemma ValidatorsMatchPatterns(s: string)
    ensures ValidImageName(s) <==> Matches(IMAGE_NAME, s)
    ensures ValidVersion(s) <==> Matches(VERSION, s)
    ensures ValidToken(s) <==> Matches(TOKEN, s)
  {
    if s != "" {
      LowerClass(s[0]);
    }
    forall k | 0 <= k < |s|
      ensures InClass(s[k], IMAGE_NAME.rest) <==> 'a' <= s[k] <= 'z' || '0' <= s[k] <= '9' || s[k] in "._-"
      ensures InClass(s[k], VERSION.rest) <==> Alnum(s[k]) || s[k] in "._+:-"
      ensures InClass(s[k], TOKEN.rest) <==> Alnum(s[k]) || s[k] in "._+-"
    {
      RestClass(s[k]);
    }
  }

  /** Digests are the prefix and 64 characters of the hexadecimal class. */
  lemma DigestsMatchTheirPattern(d: Digest)
    ensures ValidDigest(d) <==> exists hex: string :: d == "sha256:" + hex && |hex| == 64 && forall k | 0 <= k < 64 :: InClass(hex[k], LOWER_HEX)
  {
    if ValidDigest(d) {
      var hex := d[7..];
      assert d == "sha256:" + hex;
      forall k | 0 <= k < 64 ensures InClass(hex[k], LOWER_HEX) {
        LowerClass(hex[k]);
        assert hex[k] == d[k + 7];
      }
    } else if hex: string :| d == "sha256:" + hex && |hex| == 64 && forall k | 0 <= k < 64 :: InClass(hex[k], LOWER_HEX) {
      forall k | 7 <= k < 71 ensures LowerHex(d[k]) {
        LowerClass(hex[k - 7]);
        assert d[k] == hex[k - 7];
      }
    }
  }
}
