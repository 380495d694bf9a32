/**
 * The string operations the services use, written out as explicit searches:
 * substring search, first-occurrence replacement (`String.prototype.replace` with a
 * string pattern, Go's `strings.Replace(s, old, new, 1)`), JavaScript's `trim`, the
 * `^\/+` strip, `split('/').pop()`, ASCII lower-casing, and decimal rendering and
 * parsing of integers (template literals, `%d`, `strconv.Atoi`).
 */
module Text {
  import opened Wrappers

  predicate StartsWith(s: string, prefix: string) {
    |prefix| <= |s| && s[..|prefix|] == prefix
  }

  /** `pat` occurs in `s` starting at index `i`. */
  predicate OccursAt(s: string, pat: string, i: nat) {
    i + |pat| <= |s| && s[i..i + |pat|] == pat
  }

  /** The first index at or after `i` where `pat` occurs, if any. */
  function FindFrom(s: string, pat: string, i: nat): (r: Option<nat>)
    ensures r.Some? ==> i <= r.value && OccursAt(s, pat, r.value)
    ensures r.Some? ==> forall k :: i <= k < r.value ==> !OccursAt(s, pat, k)
    ensures r.None? ==> forall k :: i <= k ==> !OccursAt(s, pat, k)
    decreases |s| - i
  {
    if i + |pat| > |s| then None
    else if OccursAt(s, pat, i) then Some(i)
    else FindFrom(s, pat, i + 1)
  }

  /** Replaces the first occurrence of `pat` by `rep`; `s` itself when `pat` does not occur. */
  function ReplaceFirst(s: string, pat: string, rep: string): (r: string)
    ensures (forall k: nat :: !OccursAt(s, pat, k)) ==> r == s
    ensures forall k: nat {:trigger OccursAt(s, pat, k)} ::
      OccursAt(s, pat, k) && (forall j: nat :: j < k ==> !OccursAt(s, pat, j)) ==>
        r == s[..k] + rep + s[k + |pat|..]
  {
    match FindFrom(s, pat, 0)
    case None => s
    case Some(k) => s[..k] + rep + s[k + |pat|..]
  }

  /** A character the pattern does not contain cannot complete an occurrence of it. */
  lemma OccursAtAppend(s: string, pat: string, c: char, k: nat)
    requires pat != [] && c !in pat
    ensures OccursAt(s + [c], pat, k) <==> OccursAt(s, pat, k)
  {
    var t := s + [c];
    if k + |pat| <= |s| {
      assert t[k..k + |pat|] == s[k..k + |pat|];
    } else if k + |pat| == |t| {
      assert t[k..k + |pat|][|pat| - 1] == c;
      assert t[k..k + |pat|] != pat;
    }
  }

  lemma {:induction false} FindFromAppend(s: string, pat: string, c: char, i: nat)
    requires pat != [] && c !in pat
    ensures FindFrom(s + [c], pat, i) == FindFrom(s, pat, i)
    decreases |s| + 1 - i
  {
    OccursAtAppend(s, pat, c, i);
    if i + |pat| <= |s| + 1 && !OccursAt(s, pat, i) {
      FindFromAppend(s, pat, c, i + 1);
    }
  }

  /** Appending a character the pattern does not contain commutes with replacing its first occurrence. */
  lemma ReplaceFirstAppend(s: string, pat: string, rep: string, c: char)
    requires pat != [] && c !in pat
    ensures ReplaceFirst(s + [c], pat, rep) == ReplaceFirst(s, pat, rep) + [c]
  {
    FindFromAppend(s, pat, c, 0);
    match FindFrom(s, pat, 0)
    case None =>
    case Some(k) =>
      assert (s + [c])[..k] == s[..k];
      assert (s + [c])[k + |pat|..] == s[k + |pat|..] + [c];
  }

  /** Removes the longest prefix whose characters all satisfy `drop`. */
  function DropLeading(s: string, drop: char -> bool): (r: string)
    ensures |r| <= |s| && r == s[|s| - |r|..]
    ensures forall k :: 0 <= k < |s| - |r| ==> drop(s[k])
    ensures r == [] || !drop(r[0])
  {
    if s == [] || !drop(s[0]) then s else DropLeading(s[1..], drop)
  }

  /** Removes the longest suffix whose characters all satisfy `drop`. */
  function DropTrailing(s: string, drop: char -> bool): (r: string)
    ensures |r| <= |s| && r == s[..|r|]
    ensures forall k :: |r| <= k < |s| ==> drop(s[k])
    ensures r == [] || !drop(r[|r| - 1])
  {
    if s == [] || !drop(s[|s| - 1]) then s else DropTrailing(s[..|s| - 1], drop)
  }

  /** The characters `String.prototype.trim` removes: white space and line terminators. */
  predicate IsJsSpace(c: char) {
    c == ' ' || c == '\t' || c == '\n' || c == '\r' || c == '\U{B}' || c == '\U{C}'
    || c == '\U{A0}' || c == '\U{1680}' || ('\U{2000}' <= c <= '\U{200A}')
    || c == '\U{2028}' || c == '\U{2029}' || c == '\U{202F}' || c == '\U{205F}'
    || c == '\U{3000}' || c == '\U{FEFF}'
  }

  /** `String.prototype.trimStart`. */
  function TrimStart(s: string): (r: string)
    ensures |r| <= |s|
    ensures forall k :: 0 <= k < |s| - |r| ==> IsJsSpace(s[k])
    ensures r == [] || !IsJsSpace(r[0])
    ensures r != [] ==> r[|r| - 1] == s[|s| - 1]
    ensures s == [] || !IsJsSpace(s[0]) ==> r == s
  {
    if s != [] && IsJsSpace(s[0]) then TrimStart(s[1..]) else s
  }

  /** `String.prototype.trimEnd`. */
  function TrimEnd(s: string): (r: string)
    ensures |r| <= |s|
    ensures forall k :: |r| <= k < |s| ==> IsJsSpace(s[k])
    ensures r == [] || !IsJsSpace(r[|r| - 1])
    ensures r != [] ==> r[0] == s[0]
    ensures s == [] || !IsJsSpace(s[|s| - 1]) ==> r == s
  {
    if s != [] && IsJsSpace(s[|s| - 1]) then TrimEnd(s[..|s| - 1]) else s
  }

  /** The number of white-space characters `s` starts with. */
  function LeadingSpaces(s: string): (n: nat)
    ensures n <= |s|
    ensures forall k :: 0 <= k < n ==> IsJsSpace(s[k])
    ensures n < |s| ==> !IsJsSpace(s[n])
  {
    if s != [] && IsJsSpace(s[0]) then 1 + LeadingSpaces(s[1..]) else 0
  }

  /**
   * `String.prototype.trim`: what lies between the leading white space and a white-space
   * suffix, ending with a character that is not white space (or empty).
   */
  function Trim(s: string): (r: string)
    ensures |r| <= |s| - LeadingSpaces(s)
    ensures r == s[LeadingSpaces(s)..LeadingSpaces(s) + |r|]
    ensures forall k :: LeadingSpaces(s) + |r| <= k < |s| ==> IsJsSpace(s[k])
    ensures r == [] || (!IsJsSpace(r[0]) && !IsJsSpace(r[|r| - 1]))
    ensures (s == [] || (!IsJsSpace(s[0]) && !IsJsSpace(s[|s| - 1]))) ==> r == s
  {
    TrimWithin(s);
    TrimEnd(TrimStart(s))
  }

  lemma TrimWithin(s: string)
    ensures var t := TrimEnd(TrimStart(s)); var i := LeadingSpaces(s);
      i + |t| <= |s| && t == s[i..i + |t|] && forall k :: i + |t| <= k < |s| ==> IsJsSpace(s[k])
  {
    TrimStartDropsLeading(s);
    TrimEndKeepsPrefix(TrimStart(s));
    PrefixOfSuffix(s, LeadingSpaces(s), TrimStart(s), TrimEnd(TrimStart(s)));
  }

  /** A prefix `r` of the suffix `t` of `s` from `i`: where it lies in `s`, and what follows it. */
  lemma PrefixOfSuffix(s: string, i: nat, t: string, r: string)
    requires i <= |s| && t == s[i..] && |r| <= |t| && r == t[..|r|]
    requires forall k :: |r| <= k < |t| ==> IsJsSpace(t[k])
    ensures i + |r| <= |s| && r == s[i..i + |r|]
    ensures forall k :: i + |r| <= k < |s| ==> IsJsSpace(s[k])
  {
    forall k | i + |r| <= k < |s|
      ensures IsJsSpace(s[k])
    {
      assert s[k] == t[k - i];
    }
  }

  /** `trimStart` drops exactly the leading white space. */
  lemma {:induction false} TrimStartDropsLeading(s: string)
    ensures TrimStart(s) == s[LeadingSpaces(s)..]
  {
    if s != [] && IsJsSpace(s[0]) {
      TrimStartDropsLeading(s[1..]);
      assert s[1..][LeadingSpaces(s[1..])..] == s[LeadingSpaces(s)..];
    }
  }

  /** `trimEnd` keeps a prefix of its input. */
  lemma {:induction false} TrimEndKeepsPrefix(s: string)
    ensures TrimEnd(s) == s[..|TrimEnd(s)|]
  {
    if s != [] && IsJsSpace(s[|s| - 1]) {
      TrimEndKeepsPrefix(s[..|s| - 1]);
    }
  }

  /** `s.replace(/^\/+/, '')`: every leading slash removed. */
  function StripLeadingSlashes(s: string): (r: string)
    ensures r == [] || r[0] != '/'
    ensures |r| <= |s| && s == seq(|s| - |r|, _ => '/') + r
  {
    var r := DropLeading(s, c => c == '/');
    assert s == s[..|s| - |r|] + r;
    r
  }

  /** `s.split('/').pop()`: the text after the last slash, all of `s` when it has none. */
  function LastSegment(s: string): (r: string)
    ensures '/' !in r
    ensures |r| <= |s|
  {
    if s == [] || s[|s| - 1] == '/' then [] else LastSegment(s[..|s| - 1]) + [s[|s| - 1]]
  }

  /** The last segment is a suffix of `s`, preceded by a slash unless it is all of `s`. */
  lemma {:induction false} LastSegmentSuffix(s: string)
    ensures var r := LastSegment(s);
      r == s[|s| - |r|..] && (|r| < |s| ==> s[|s| - |r| - 1] == '/')
  {
    if s != [] && s[|s| - 1] != '/' {
      var init := s[..|s| - 1];
      LastSegmentSuffix(init);
      var r := LastSegment(init);
      assert s[|s| - |r| - 1..] == init[|init| - |r|..] + [s[|s| - 1]];
      if |r| < |init| {
        assert s[|s| - |r| - 2] == init[|init| - |r| - 1];
      }
    }
  }

  /** The last segment of `a/b` is `b` when `b` has no slash. */
  lemma {:induction false} LastSegmentAfterSlash(a: string, b: string)
    requires '/' !in b
    ensures LastSegment(a + "/" + b) == b
    decreases |b|
  {
    var s := a + "/" + b;
    if b != [] {
      assert s[..|s| - 1] == a + "/" + b[..|b| - 1];
      LastSegmentAfterSlash(a, b[..|b| - 1]);
    }
  }

  function AsciiLowerChar(c: char): char {
    if 'A' <= c <= 'Z' then (c as int - 'A' as int + 'a' as int) as char else c
  }

  /** Lower-casing of the ASCII letters (Go's `strings.ToLower` restricted to ASCII). */
  function AsciiLower(s: string): (r: string)
    ensures |r| == |s|
    ensures forall k :: 0 <= k < |s| ==> r[k] == AsciiLowerChar(s[k])
  {
    seq(|s|, k requires 0 <= k < |s| => AsciiLowerChar(s[k]))
  }

  function DigitChar(d: nat): char
    requires d < 10
  {
    ('0' as int + d) as char
  }

  predicate IsDigit(c: char) {
    '0' <= c <= '9'
  }

  function DigitValue(c: char): nat
    requires IsDigit(c)
  {
    c as int - '0' as int
  }

  /** Decimal rendering of a natural number, most significant digit first. */
  function NatToString(n: nat): (r: string)
    ensures |r| >= 1 && forall k :: 0 <= k < |r| ==> IsDigit(r[k])
    ensures (|r| == 1) == (n < 10)
  {
    if n < 10 then [DigitChar(n)] else NatToString(n / 10) + [DigitChar(n % 10)]
  }

  /** Decimal rendering of an integer, as `${n}` and `%d` produce it. */
  function IntToString(i: int): (r: string)
    ensures |r| >= 1
    ensures (r[0] == '-') == (i < 0)
  {
    if i < 0 then "-" + NatToString(-i) else NatToString(i)
  }

  /** The value of a non-empty run of decimal digits. */
  function ParseDigits(s: string): (n: nat)
    requires forall k :: 0 <= k < |s| ==> IsDigit(s[k])
  {
    if s == [] then 0 else ParseDigits(s[..|s| - 1]) * 10 + DigitValue(s[|s| - 1])
  }

  lemma {:induction false} ParseDigitsOfNatToString(n: nat)
    ensures ParseDigits(NatToString(n)) == n
  {
    if n >= 10 {
      var s := NatToString(n);
      assert s[..|s| - 1] == NatToString(n / 10);
      ParseDigitsOfNatToString(n / 10);
    }
  }

  /** Two different numbers never render to the same decimal string. */
  lemma NatToStringInjective(a: nat, b: nat)
    ensures NatToString(a) == NatToString(b) <==> a == b
  {
    if NatToString(a) == NatToString(b) {
      ParseDigitsOfNatToString(a);
      ParseDigitsOfNatToString(b);
    }
  }

  lemma IntToStringInjective(a: int, b: int)
    ensures IntToString(a) == IntToString(b) <==> a == b
  {
    if IntToString(a) == IntToString(b) {
      if a < 0 && b < 0 {
        assert NatToString(-a) == IntToString(a)[1..];
        assert NatToString(-b) == IntToString(b)[1..];
        NatToStringInjective(-a, -b);
      } else if a >= 0 && b >= 0 {
        NatToStringInjective(a, b);
      }
    }
  }
}
