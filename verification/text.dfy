/**
 * The two string normalisations the logger applies before matching an
 * option: `strings.TrimSpace` and `strings.ToLower`.
 */
module Text {

  /** Go's `unicode.IsSpace`: the ASCII spaces plus NEL, NBSP and the Unicode space separators. */
  predicate IsSpace(c: char) {
    || c == ' '
    || '\t' <= c <= '\r'
    || c == '\U{0085}'
    || c == '\U{00A0}'
    || c == '\U{1680}'
    || '\U{2000}' <= c <= '\U{200A}'
    || c == '\U{2028}'
    || c == '\U{2029}'
    || c == '\U{202F}'
    || c == '\U{205F}'
    || c == '\U{3000}'
  }

  predicate AllSpace(s: string) {
    forall i :: 0 <= i < |s| ==> IsSpace(s[i])
  }

  /** Neither end of `s` is white space. */
  predicate Trimmed(s: string) {
    |s| == 0 || (!IsSpace(s[0]) && !IsSpace(s[|s| - 1]))
  }

  /** How many white-space runes `s` starts with. */
  function LeadingSpace(s: string): (n: nat)
    ensures n <= |s|
    ensures forall i :: 0 <= i < n ==> IsSpace(s[i])
    ensures n < |s| ==> !IsSpace(s[n])
  {
    if |s| > 0 && IsSpace(s[0]) then 1 + LeadingSpace(s[1..]) else 0
  }

  /** The length of `s` once the white-space runes it ends with are dropped. */
  function KeptLength(s: string): (n: nat)
    ensures n <= |s|
    ensures forall i :: n <= i < |s| ==> IsSpace(s[i])
    ensures n > 0 ==> !IsSpace(s[n - 1])
  {
    if |s| > 0 && IsSpace(s[|s| - 1]) then KeptLength(s[..|s| - 1]) else |s|
  }

  /** Only the first non-space position meets `LeadingSpace`'s contract. */
  lemma LeadingSpaceUnique(s: string, n: nat)
    requires n <= |s|
    requires forall i :: 0 <= i < n ==> IsSpace(s[i])
    requires n < |s| ==> !IsSpace(s[n])
    ensures LeadingSpace(s) == n
  {
  }

  /** Only the end of the last non-space rune meets `KeptLength`'s contract. */
  lemma KeptLengthUnique(s: string, n: nat)
    requires n <= |s|
    requires forall i :: n <= i < |s| ==> IsSpace(s[i])
    requires n > 0 ==> !IsSpace(s[n - 1])
    ensures KeptLength(s) == n
  {
  }

  /** `s` without its leading white space. */
  function TrimLeft(s: string): string
  {
    s[LeadingSpace(s)..]
  }

  /** `s` without its trailing white space. */
  function TrimRight(s: string): string
  {
    s[..KeptLength(s)]
  }

  /** `strings.TrimSpace`. */
  function TrimSpace(s: string): (r: string)
    ensures Trimmed(r)
    ensures |r| <= |s|
  {
    var l := TrimLeft(s);
    var r := TrimRight(l);
    assert |r| > 0 ==> r[0] == l[0];
    r
  }

  /** `TrimSpace` keeps a contiguous part of `s` and removes only white space on either side of it. */
  lemma TrimSpaceRemovesOnlySpace(s: string)
    ensures var r := TrimSpace(s);
      var k := |s| - |TrimLeft(s)|;
      && r == s[k..k + |r|]
      && AllSpace(s[..k])
      && AllSpace(s[k + |r|..])
  {
    var k := LeadingSpace(s);
    var l := s[k..];
    var n := KeptLength(l);
    assert TrimSpace(s) == l[..n] == s[k..k + n];
    assert AllSpace(s[k + n..]) by {
      assert s[k + n..] == l[n..];
    }
  }

  /**
   * Go's `unicode.ToLower` for the runes that lower-case to ASCII: the
   * letters `A`-`Z`, the dotted capital I (U+0130) and the Kelvin sign
   * (U+212A).  Every other rune is left as it is.
   */
  function LowerChar(c: char): (d: char)
    ensures 'A' <= c <= 'Z' ==> d as int == c as int + 32
    ensures c == '\U{0130}' ==> d == 'i'
    ensures c == '\U{212A}' ==> d == 'k'
    ensures !('A' <= c <= 'Z') && c != '\U{0130}' && c != '\U{212A}' ==> d == c
  {
    if 'A' <= c <= 'Z' then ((c as int) + 32) as char
    else if c == '\U{0130}' then 'i'
    else if c == '\U{212A}' then 'k'
    else c
  }

  /** `strings.ToLower`, rune by rune. */
  function ToLower(s: string): (r: string)
    ensures |r| == |s|
    ensures forall i :: 0 <= i < |s| ==> r[i] == LowerChar(s[i])
  {
    seq(|s|, i requires 0 <= i < |s| => LowerChar(s[i]))
  }

  /** On ASCII, `ToLower` lowers exactly the capitals `A`-`Z` and keeps every other rune. */
  lemma ToLowerAscii(s: string)
    ensures forall i :: 0 <= i < |s| && 'A' <= s[i] <= 'Z' ==> ToLower(s)[i] as int == s[i] as int + 32
    ensures forall i :: 0 <= i < |s| && (s[i] as int) < 0x80 && !('A' <= s[i] <= 'Z') ==> ToLower(s)[i] == s[i]
  {
  }

  /** The number of bytes UTF-8 uses for the code point `c`. */
  function Utf8Width(c: char): (w: nat)
    ensures 1 <= w <= 4
    ensures w == 1 <==> (c as int) < 0x80
  {
    if (c as int) < 0x80 then 1
    else if (c as int) < 0x800 then 2
    else if (c as int) < 0x1_0000 then 3
    else 4
  }

  /** The length in bytes of the UTF-8 encoding of `s`, as Go's `len` counts a string. */
  function Utf8Length(s: string): (n: nat)
    ensures |s| <= n <= 4 * |s|
  {
    if |s| == 0 then 0 else Utf8Width(s[0]) + Utf8Length(s[1..])
  }

  /** For ASCII text, bytes and code points coincide. */
  lemma {:induction false} AsciiLength(s: string)
    requires forall i :: 0 <= i < |s| ==> (s[i] as int) < 0x80
    ensures Utf8Length(s) == |s|
  {
    if |s| > 0 {
      AsciiLength(s[1..]);
    }
  }

  /** The position of the first `c` in `s`, or `|s|` when there is none. */
  function IndexOf(s: string, c: char): (i: nat)
    ensures i <= |s|
    ensures i < |s| ==> s[i] == c
    ensures forall j :: 0 <= j < i ==> s[j] != c
  {
    if |s| == 0 || s[0] == c then 0 else 1 + IndexOf(s[1..], c)
  }

  /** The form in which the logger compares an option: trimmed, then lower-cased. */
  function Canonical(s: string): string {
    ToLower(TrimSpace(s))
  }

  lemma LowerCharKeepsSpace(c: char)
    ensures IsSpace(LowerChar(c)) <==> IsSpace(c)
    ensures LowerChar(LowerChar(c)) == LowerChar(c)
  {
  }

  lemma ToLowerIdempotent(s: string)
    ensures ToLower(ToLower(s)) == ToLower(s)
  {
    forall i | 0 <= i < |s|
      ensures ToLower(ToLower(s))[i] == ToLower(s)[i]
    {
      LowerCharKeepsSpace(s[i]);
    }
  }

  lemma TrimmedIsFixed(s: string)
    requires Trimmed(s)
    ensures TrimSpace(s) == s
  {
    LeadingSpaceUnique(s, 0);
    assert TrimLeft(s) == s;
    KeptLengthUnique(s, |s|);
  }

  /** A trimmed, already lower-case string is its own normal form. */
  lemma PlainIsCanonical(s: string)
    requires Trimmed(s) && ToLower(s) == s
    ensures Canonical(s) == s
  {
    TrimmedIsFixed(s);
  }

  /** A word written in capitals, like `DEBUG`, normalises to its lower-case spelling. */
  lemma UpperCaseWord(s: string, t: string)
    requires |s| == |t| > 0
    requires forall i :: 0 <= i < |s| ==> 'A' <= s[i] <= 'Z' && t[i] as int == s[i] as int + 32
    ensures Canonical(s) == t
  {
    TrimmedIsFixed(s);
  }

  lemma TrimSpaceIdempotent(s: string)
    ensures TrimSpace(TrimSpace(s)) == TrimSpace(s)
  {
    TrimmedIsFixed(TrimSpace(s));
  }

  /** Lower-casing neither creates nor removes white space, rune by rune. */
  lemma LowerKeepsSpaces(s: string)
    ensures forall i :: 0 <= i < |s| ==> (IsSpace(ToLower(s)[i]) <==> IsSpace(s[i]))
  {
    forall i | 0 <= i < |s|
      ensures IsSpace(ToLower(s)[i]) <==> IsSpace(s[i])
    {
      LowerCharKeepsSpace(s[i]);
    }
  }

  lemma LowerCommutesWithTrimLeft(s: string)
    ensures ToLower(TrimLeft(s)) == TrimLeft(ToLower(s))
  {
    var k := LeadingSpace(s);
    LowerKeepsSpaces(s);
    LeadingSpaceUnique(ToLower(s), k);
    assert ToLower(s[k..]) == ToLower(s)[k..];
  }

  lemma LowerCommutesWithTrimRight(s: string)
    ensures ToLower(TrimRight(s)) == TrimRight(ToLower(s))
  {
    var n := KeptLength(s);
    LowerKeepsSpaces(s);
    KeptLengthUnique(ToLower(s), n);
    assert ToLower(s[..n]) == ToLower(s)[..n];
  }

  /** Lower-casing and trimming can be done in either order. */
  lemma LowerCommutesWithTrim(s: string)
    ensures ToLower(TrimSpace(s)) == TrimSpace(ToLower(s))
  {
    LowerCommutesWithTrimLeft(s);
    LowerCommutesWithTrimRight(TrimLeft(s));
  }

  /** Normalising twice is normalising once. */
  lemma CanonicalIdempotent(s: string)
    ensures Canonical(Canonical(s)) == Canonical(s)
  {
    LowerCommutesWithTrim(TrimSpace(s));
    TrimSpaceIdempotent(s);
    ToLowerIdempotent(TrimSpace(s));
  }

  /** Two strings that lower-case alike normalise alike: case never matters. */
  lemma CanonicalIgnoresCase(s: string, t: string)
    requires ToLower(s) == ToLower(t)
    ensures Canonical(s) == Canonical(t)
  {
    LowerCommutesWithTrim(s);
    LowerCommutesWithTrim(t);
  }

  lemma TrimLeftSkipsSpaces(pre: string, s: string)
    requires AllSpace(pre)
    ensures TrimLeft(pre + s) == TrimLeft(s)
  {
    var k := LeadingSpace(s);
    var t := pre + s;
    assert forall i :: |pre| <= i < |t| ==> t[i] == s[i - |pre|];
    LeadingSpaceUnique(t, |pre| + k);
    assert t[|pre| + k..] == s[k..];
  }

  lemma TrimRightSkipsSpaces(s: string, post: string)
    requires AllSpace(post)
    ensures TrimRight(s + post) == TrimRight(s)
  {
    var n := KeptLength(s);
    var t := s + post;
    assert forall i :: |s| <= i < |t| ==> t[i] == post[i - |s|];
    KeptLengthUnique(t, n);
    assert t[..n] == s[..n];
  }

  lemma TrimLeftKeepsTail(s: string, t: string)
    requires !AllSpace(s)
    ensures TrimLeft(s + t) == TrimLeft(s) + t
  {
    var k := LeadingSpace(s);
    LeadingSpaceUnique(s + t, k);
    assert (s + t)[k..] == s[k..] + t;
  }

  lemma AllSpaceTrimsToEmpty(s: string)
    requires AllSpace(s)
    ensures TrimLeft(s) == ""
  {
    LeadingSpaceUnique(s, |s|);
  }

  /** White space added around a string is ignored by `TrimSpace`. */
  lemma TrimSpaceIgnoresPadding(pre: string, s: string, post: string)
    requires AllSpace(pre) && AllSpace(post)
    ensures TrimSpace(pre + s + post) == TrimSpace(s)
  {
    TrimSpaceTrimsBothEnds(pre + s + post);
    TrimSpaceTrimsBothEnds(s);
    TrimLeftSkipsPadding(pre, s, post);
    if AllSpace(s) {
      BlankTrimsToEmpty(s, post);
    } else {
      TrimRightSkipsPadding(s, post);
    }
  }

  lemma TrimLeftSkipsPadding(pre: string, s: string, post: string)
    requires AllSpace(pre)
    ensures TrimLeft(pre + s + post) == TrimLeft(s + post)
  {
    var rest := s + post;
    TrimLeftSkipsSpaces(pre, rest);
    assert pre + s + post == pre + rest;
  }

  lemma BlankTrimsToEmpty(s: string, post: string)
    requires AllSpace(s) && AllSpace(post)
    ensures TrimLeft(s + post) == "" && TrimLeft(s) == ""
  {
    assert AllSpace(s + post);
    AllSpaceTrimsToEmpty(s + post);
    AllSpaceTrimsToEmpty(s);
  }

  lemma TrimRightSkipsPadding(s: string, post: string)
    requires !AllSpace(s) && AllSpace(post)
    ensures TrimRight(TrimLeft(s + post)) == TrimRight(TrimLeft(s))
  {
    TrimLeftKeepsTail(s, post);
    TrimRightSkipsSpaces(TrimLeft(s), post);
  }

  lemma TrimSpaceTrimsBothEnds(s: string)
    ensures TrimSpace(s) == TrimRight(TrimLeft(s))
  {
  }
}
