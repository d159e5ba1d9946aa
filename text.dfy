/** String primitives of the chat widget: JavaScript's `trim`, the `\s` and `\d`
    regex classes, `toLowerCase`/`toUpperCase` (approximated on Latin-1),
    `includes` and the UTF-16 `length` of a string. */
module Text {

  /** JavaScript WhiteSpace and LineTerminator code points: the set that both
      `String.prototype.trim` and the regex class `\s` use. */
  predicate IsWhitespace(c: char) {
    c == '\t' || c == '\n' || c == '\U{000B}' || c == '\U{000C}' || c == '\r' || c == ' '
    || c == '\U{00A0}' || c == '\U{1680}' || ('\U{2000}' <= c <= '\U{200A}')
    || c == '\U{2028}' || c == '\U{2029}' || c == '\U{202F}' || c == '\U{205F}'
    || c == '\U{3000}' || c == '\U{FEFF}'
  }

  /** Neither end of `s` is whitespace. */
  predicate IsTrimmed(s: string) {
    s == [] || (!IsWhitespace(s[0]) && !IsWhitespace(s[|s| - 1]))
  }

  predicate AllWhitespace(s: string) {
    forall i :: 0 <= i < |s| ==> IsWhitespace(s[i])
  }

  /** `s` with its leading whitespace removed. */
  function TrimStart(s: string): (r: string)
    ensures |r| <= |s| && r == s[|s| - |r|..]
    ensures r == [] || !IsWhitespace(r[0])
    ensures AllWhitespace(s[..|s| - |r|])
  {
    if s != [] && IsWhitespace(s[0]) then TrimStart(s[1..]) else s
  }

  /** `s` with its trailing whitespace removed. */
  function TrimEnd(s: string): (r: string)
    ensures |r| <= |s| && r == s[..|r|]
    ensures r == [] || !IsWhitespace(r[|r| - 1])
    ensures AllWhitespace(s[|r|..])
  {
    if s != [] && IsWhitespace(s[|s| - 1]) then TrimEnd(s[..|s| - 1]) else s
  }

  /** `r` is `s` with the whitespace-only prefix `s[..a]` and a
      whitespace-only suffix cut off. */
  predicate CutAt(s: string, a: int, r: string) {
    0 <= a <= |s| - |r| && r == s[a..a + |r|] && AllWhitespace(s[..a]) && AllWhitespace(s[a + |r|..])
  }

  /** Cutting a whitespace prefix of `s` to get `t` and then a whitespace
      suffix of `t` to get `r` cuts both from `s` at once. */
  lemma CutOfTrims(s: string, t: string, r: string)
    requires |t| <= |s| && t == s[|s| - |t|..] && AllWhitespace(s[..|s| - |t|])
    requires |r| <= |t| && r == t[..|r|] && AllWhitespace(t[|r|..])
    ensures CutAt(s, |s| - |t|, r)
  {
    var a := |s| - |t|;
    assert r == s[a..a + |r|];
    assert s[a + |r|..] == t[|r|..];
  }

  /** `String.prototype.trim`: the longest infix of `s` that starts and ends
      with a non-whitespace character, or "" when `s` is all whitespace. */
  function Trim(s: string): (r: string)
    ensures IsTrimmed(r) && |r| <= |s|
    ensures forall c :: c in r ==> c in s
    ensures r == [] <==> AllWhitespace(s)
    ensures IsTrimmed(s) ==> r == s
    ensures exists a :: CutAt(s, a, r)
  {
    var t := TrimStart(s);
    var r := TrimEnd(t);
    CutOfTrims(s, t, r);
    assert r == [] ==> AllWhitespace(s) by {
      if r == [] {
        assert t == [];
        assert s[..|s| - |t|] == s;
      }
    }
    r
  }

  /** `toLowerCase` on one character: ASCII A-Z and the Latin-1 capitals
      U+00C0..U+00DE (except the multiplication sign U+00D7) move to their
      small letters; every other character is left as it is. */
  function LowerChar(c: char): char {
    if 'A' <= c <= 'Z' || ('\U{00C0}' <= c <= '\U{00DE}' && c != '\U{00D7}') then (c as int + 32) as char
    else c
  }

  /** `toUpperCase` on one character, the inverse approximation: ASCII a-z and
      the Latin-1 small letters U+00E0..U+00FE (except the division sign U+00F7). */
  function UpperChar(c: char): char {
    if 'a' <= c <= 'z' || ('\U{00E0}' <= c <= '\U{00FE}' && c != '\U{00F7}') then (c as int - 32) as char
    else c
  }

  function ToLower(s: string): (r: string)
    ensures |r| == |s|
  {
    seq(|s|, i requires 0 <= i < |s| => LowerChar(s[i]))
  }

  lemma CaseMappingFacts(c: char)
    ensures LowerChar(LowerChar(c)) == LowerChar(c)
    ensures UpperChar(UpperChar(c)) == UpperChar(c)
    ensures LowerChar(c) == ' ' <==> c == ' '
    ensures UpperChar(c) == ' ' <==> c == ' '
    ensures IsWhitespace(LowerChar(c)) <==> IsWhitespace(c)
    ensures IsWhitespace(UpperChar(c)) <==> IsWhitespace(c)
  {
  }

  /** Lower-casing twice is lower-casing once. */
  lemma ToLowerIdempotent(s: string)
    ensures ToLower(ToLower(s)) == ToLower(s)
  {
    forall i | 0 <= i < |s| ensures ToLower(ToLower(s))[i] == ToLower(s)[i] {
      CaseMappingFacts(s[i]);
    }
  }

  /** `k` occurs in `s` starting at index `i`. */
  predicate OccursAt(s: string, k: string, i: nat) {
    i + |k| <= |s| && s[i..i + |k|] == k
  }

  /** `String.prototype.includes`. */
  predicate Contains(s: string, k: string) {
    exists i: nat | i <= |s| :: OccursAt(s, k, i)
  }

  /** A keyword holding a character that `s` lacks does not occur in `s`. */
  lemma NotContainsByChar(s: string, k: string, c: char)
    requires c in k && c !in s
    ensures !Contains(s, k)
  {
  }

  /** The `length` property: UTF-16 code units, two for a character outside
      the Basic Multilingual Plane. */
  function Utf16Length(s: string): (n: nat)
    ensures |s| <= n <= 2 * |s|
  {
    if s == [] then 0 else (if s[0] as int >= 0x1_0000 then 2 else 1) + Utf16Length(s[1..])
  }

  predicate InBmp(s: string) {
    forall i :: 0 <= i < |s| ==> s[i] as int < 0x1_0000
  }

  lemma {:induction false} Utf16LengthOfBmp(s: string)
    ensures Utf16Length(s) == |s| <==> InBmp(s)
  {
    if s != [] {
      Utf16LengthOfBmp(s[1..]);
      assert InBmp(s) <==> s[0] as int < 0x1_0000 && InBmp(s[1..]) by {
        if InBmp(s) { forall i | 0 <= i < |s| - 1 ensures s[1..][i] as int < 0x1_0000 { assert s[1..][i] == s[i + 1]; } }
        if s[0] as int < 0x1_0000 && InBmp(s[1..]) { forall i | 1 <= i < |s| ensures s[i] as int < 0x1_0000 { assert s[i] == s[1..][i - 1]; } }
      }
    }
  }

  /** The regex `/\d/` finds a match: some ASCII digit occurs. */
  predicate HasDigit(s: string) {
    exists i :: 0 <= i < |s| && '0' <= s[i] <= '9'
  }
}
