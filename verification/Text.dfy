/** Text helpers of the Go standard library that the service's validators and parsers lean on.
    A Go string is modelled as the sequence of its Unicode scalar values. */
module Text {
  /** The runes `unicode.IsSpace` accepts. */
  predicate IsSpace(c: char) {
    || '\t' <= c <= '\r'
    || c == ' '
    || c == '\U{85}'
    || c == '\U{a0}'
    || c == '\U{1680}'
    || '\U{2000}' <= c <= '\U{200a}'
    || c == '\U{2028}'
    || c == '\U{2029}'
    || c == '\U{202f}'
    || c == '\U{205f}'
    || c == '\U{3000}'
  }

  /** They are the 25 characters with the property White_Space of the Unicode standard. */
  lemma SpacesAreWhiteSpace(c: char)
    ensures IsSpace(c) <==> c as int in {
      0x9, 0xa, 0xb, 0xc, 0xd, 0x20, 0x85, 0xa0, 0x1680,
      0x2000, 0x2001, 0x2002, 0x2003, 0x2004, 0x2005, 0x2006, 0x2007, 0x2008, 0x2009, 0x200a,
      0x2028, 0x2029, 0x202f, 0x205f, 0x3000}
  {
  }

  /** No white space at either end. */
  predicate Tight(s: string) {
    s == "" || (!IsSpace(s[0]) && !IsSpace(s[|s| - 1]))
  }

  function TrimRight(s: string): (t: string)
    ensures t <= s
    ensures t == "" || !IsSpace(t[|t| - 1])
    ensures forall k | |t| <= k < |s| :: IsSpace(s[k])
  {
    if s != "" && IsSpace(s[|s| - 1]) then TrimRight(s[..|s| - 1]) else s
  }

  /** `strings.TrimSpace`. */
  function Trim(s: string): (t: string)
    ensures Tight(t)
    ensures Tight(s) ==> t == s
    ensures t == "" <==> forall k | 0 <= k < |s| :: IsSpace(s[k])
  {
    if s != "" && IsSpace(s[0]) then Trim(s[1..]) else TrimRight(s)
  }

  predicate AllSpace(s: string) {
    forall k | 0 <= k < |s| :: IsSpace(s[k])
  }

  /** Trimming takes the white space off both ends and nothing else. */
  lemma {:induction false} TrimTakesTheSpace(left: string, s: string, right: string)
    requires AllSpace(left) && AllSpace(right) && Tight(s) && s != ""
    ensures Trim(left + s + right) == s
  {
    var text := left + s + right;
    if left == "" {
      assert text == s + right;
      TrimRightTakesTheSpace(s, right);
    } else {
      assert text[1..] == left[1..] + s + right;
      TrimTakesTheSpace(left[1..], s, right);
    }
  }

  lemma {:induction false} TrimRightTakesTheSpace(s: string, right: string)
    requires AllSpace(right) && Tight(s)
    ensures TrimRight(s + right) == s
  {
    if right != "" {
      assert (s + right)[..|s + right| - 1] == s + right[..|right| - 1];
      TrimRightTakesTheSpace(s, right[..|right| - 1]);
    } else {
      assert s + right == s;
    }
  }

  /** Text that `ValidateRequiredText` rejects. */
  predicate IsBlank(s: string) {
    Trim(s) == ""
  }

  predicate HasPrefix(s: string, prefix: string) {
    prefix <= s
  }

  predicate HasSuffix(s: string, suffix: string) {
    |suffix| <= |s| && s[|s| - |suffix|..] == suffix
  }
}
