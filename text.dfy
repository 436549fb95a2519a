/**
 * The few Python string operations the integration relies on: `in` on strings,
 * `str.lower()`, `str.strip()`, `str(n)` and the `02d` format specification.
 */
module Text {

  /** The characters for which Python's `str.isspace()` holds: what `str.strip()` removes. */
  predicate IsSpace(c: char) {
    || '\t' <= c <= '\r'
    || '\U{1c}' <= c <= ' '
    || c == '\U{85}' || c == '\U{a0}' || c == '\U{1680}'
    || '\U{2000}' <= c <= '\U{200a}'
    || c == '\U{2028}' || c == '\U{2029}' || c == '\U{202f}' || c == '\U{205f}' || c == '\U{3000}'
  }

  predicate IsDigit(c: char) {
    '0' <= c <= '9'
  }

  predicate AllDigits(s: string) {
    forall i :: 0 <= i < |s| ==> IsDigit(s[i])
  }

  // ---------------------------------------------------------------------------
  // Substring test

  /** `sub` sits in `s` at offset `i`. */
  predicate OccursAt(s: string, sub: string, i: nat) {
    i + |sub| <= |s| && s[i..i + |sub|] == sub
  }

  /**
   * Python's `sub in s`, checked offset by offset from the front; it holds exactly when
   * `sub` occurs in `s` at some offset (the empty string always does).
   */
  predicate Contains(s: string, sub: string)
    ensures Contains(s, sub) <==> exists i: nat :: OccursAt(s, sub, i)
    decreases |s|
  {
    if |sub| > |s| then false
    else if s[..|sub|] == sub then assert OccursAt(s, sub, 0); true
    else OccursShift(s, sub); Contains(s[1..], sub)
  }

  /** When `sub` is not at the front of `s`, it occurs in `s` exactly when it occurs in `s` without its first character. */
  lemma OccursShift(s: string, sub: string)
    requires |sub| <= |s| && s[..|sub|] != sub
    ensures (exists i: nat :: OccursAt(s, sub, i)) <==> (exists i: nat :: OccursAt(s[1..], sub, i))
  {
    if i: nat :| OccursAt(s, sub, i) {
      assert s[0..|sub|] == s[..|sub|];
      assert s[1..][i - 1..i - 1 + |sub|] == s[i..i + |sub|];
      assert OccursAt(s[1..], sub, i - 1);
    }
    if j: nat :| OccursAt(s[1..], sub, j) {
      assert s[1..][j..j + |sub|] == s[j + 1..j + 1 + |sub|];
      assert OccursAt(s, sub, j + 1);
    }
  }

  /** An occurrence at any offset makes the substring test succeed. */
  lemma ContainsAt(s: string, sub: string, i: nat)
    requires i + |sub| <= |s| && s[i..i + |sub|] == sub
    ensures Contains(s, sub)
  {
    assert OccursAt(s, sub, i);
  }

  // ---------------------------------------------------------------------------
  // Case mapping (ASCII letters only)

  function LowerChar(c: char): char {
    if 'A' <= c <= 'Z' then (c as int + 32) as char else c
  }

  /** `str.lower()` on the ASCII letters: every character is mapped on its own, in place. */
  function ToLower(s: string): (r: string)
    ensures |r| == |s|
    ensures forall i :: 0 <= i < |s| ==> r[i] == LowerChar(s[i])
  {
    if s == [] then [] else [LowerChar(s[0])] + ToLower(s[1..])
  }

  /** A word placed anywhere in a text is found, ignoring case, in the lower-cased text. */
  lemma ContainsLowered(prefix: string, word: string, suffix: string)
    ensures Contains(ToLower(prefix + word + suffix), ToLower(word))
  {
    var m := prefix + word + suffix;
    assert forall k :: 0 <= k < |word| ==> m[|prefix| + k] == word[k];
    assert ToLower(m)[|prefix|..|prefix| + |word|] == ToLower(word);
    ContainsAt(ToLower(m), ToLower(word), |prefix|);
  }

  // ---------------------------------------------------------------------------
  // Decimal rendering and parsing

  function DigitChar(d: int): (c: char)
    requires 0 <= d < 10
    ensures IsDigit(c)
  {
    ('0' as int + d) as char
  }

  function DigitValue(c: char): (d: nat)
    requires IsDigit(c)
    ensures d < 10
  {
    c as int - '0' as int
  }

  /** `str(n)` for `n >= 0`: the decimal digits of `n`, with no leading zero unless `n == 0`. */
  function NatToString(n: nat): (r: string)
    ensures |r| >= 1 && AllDigits(r)
    ensures |r| == 1 <==> n < 10
    ensures |r| > 1 ==> r[0] != '0'
    decreases n
  {
    if n < 10 then [DigitChar(n)] else NatToString(n / 10) + [DigitChar(n % 10)]
  }

  /** `str(n)` for any integer: a minus sign in front of the digits of a negative number. */
  function IntToString(n: int): (r: string)
    ensures n >= 0 ==> r == NatToString(n)
    ensures n < 0 ==> |r| >= 2 && r[0] == '-' && r[1..] == NatToString(-n)
  {
    if n < 0 then "-" + NatToString(-n) else NatToString(n)
  }

  /** The value of a string of decimal digits (`int(s)` on such a string; leading zeros allowed). */
  function ParseDigits(s: string): (n: nat)
    requires AllDigits(s)
  {
    if s == [] then 0 else ParseDigits(s[..|s| - 1]) * 10 + DigitValue(s[|s| - 1])
  }

  /** Parsing undoes rendering. */
  lemma {:induction false} ParseNatToString(n: nat)
    ensures ParseDigits(NatToString(n)) == n
    decreases n
  {
    if n >= 10 {
      var s := NatToString(n);
      assert s[..|s| - 1] == NatToString(n / 10);
      ParseNatToString(n / 10);
    }
  }

  /** A leading zero does not change a parsed value. */
  lemma {:induction false} ParseLeadingZero(s: string)
    requires AllDigits(s)
    ensures AllDigits("0" + s) && ParseDigits("0" + s) == ParseDigits(s)
    decreases |s|
  {
    if s != [] {
      assert ("0" + s)[..|"0" + s| - 1] == "0" + s[..|s| - 1];
      ParseLeadingZero(s[..|s| - 1]);
    }
  }

  /** Python's `f"{n:02d}"`: zero-padded to at least two characters, a sign counting as one. */
  function Pad2(n: int): (r: string)
    ensures 0 <= n < 10 ==> r == "0" + NatToString(n)
    ensures (n < 0 || n >= 10) ==> r == IntToString(n)
    ensures |r| >= 2
  {
    if 0 <= n < 10 then "0" + NatToString(n) else IntToString(n)
  }

  /** For a natural number the padded form is all digits and parses back to the number. */
  lemma Pad2RoundTrip(n: nat)
    ensures AllDigits(Pad2(n)) && ParseDigits(Pad2(n)) == n
  {
    ParseNatToString(n);
    if n < 10 {
      ParseLeadingZero(NatToString(n));
    }
  }

  // ---------------------------------------------------------------------------
  // Stripping

  /** `s` with its leading whitespace removed. */
  function StripLeading(s: string): (r: string)
    ensures |r| <= |s| && r == s[|s| - |r|..]
    ensures forall i :: 0 <= i < |s| - |r| ==> IsSpace(s[i])
    ensures r != [] ==> !IsSpace(r[0])
  {
    if s != [] && IsSpace(s[0]) then StripLeading(s[1..]) else s
  }

  /** `s` with its trailing whitespace removed. */
  function StripTrailing(s: string): (r: string)
    ensures |r| <= |s| && r == s[..|r|]
    ensures forall i :: |r| <= i < |s| ==> IsSpace(s[i])
    ensures r != [] ==> !IsSpace(r[|r| - 1])
  {
    if s != [] && IsSpace(s[|s| - 1]) then StripTrailing(s[..|s| - 1]) else s
  }

  /** `r` is the block of `s` starting at offset `i`, and everything of `s` outside it is whitespace. */
  ghost predicate StrippedAt(s: string, r: string, i: int) {
    && 0 <= i <= |s| - |r| && r == s[i..i + |r|]
    && (forall k :: 0 <= k < i ==> IsSpace(s[k]))
    && (forall k :: i + |r| <= k < |s| ==> IsSpace(s[k]))
  }

  /** `r` is `s` with a whitespace prefix and a whitespace suffix cut off, and starts and ends with a non-space. */
  ghost predicate IsStripped(s: string, r: string) {
    && (r != [] ==> !IsSpace(r[0]) && !IsSpace(r[|r| - 1]))
    && exists i :: StrippedAt(s, r, i)
  }

  /**
   * A prefix `r` of the suffix `left` of `s` starting at `i` is a block of `s` with only
   * whitespace outside it, when `s` has only whitespace before `i` and `left` only after `r`.
   */
  lemma BlockOfSuffix(s: string, left: string, r: string, i: nat)
    requires i <= |s| && left == s[i..] && |r| <= |left| && r == left[..|r|]
    requires forall k :: 0 <= k < i ==> IsSpace(s[k])
    requires forall k :: |r| <= k < |left| ==> IsSpace(left[k])
    ensures StrippedAt(s, r, i)
  {
    forall k | i + |r| <= k < |s|
      ensures IsSpace(s[k])
    {
      assert s[k] == left[k - i];
    }
  }

  /** Stripping from the left, then from the right, leaves a block of `s` with only whitespace outside it. */
  lemma StrippedBlock(s: string)
    ensures StrippedAt(s, StripTrailing(StripLeading(s)), |s| - |StripLeading(s)|)
  {
    var left := StripLeading(s);
    BlockOfSuffix(s, left, StripTrailing(left), |s| - |left|);
  }

  /** Python's `str.strip()` with no argument. */
  function Strip(s: string): (r: string)
    ensures IsStripped(s, r)
  {
    StrippedBlock(s);
    StripTrailing(StripLeading(s))
  }

  /** Stripping a string that neither starts nor ends with whitespace leaves it as it is. */
  lemma StripUnpadded(s: string)
    requires s != [] ==> !IsSpace(s[0]) && !IsSpace(s[|s| - 1])
    ensures Strip(s) == s
  {
  }

  /** Whitespace added at the end of a string is removed again by stripping. */
  lemma {:induction false} StripTrailingSpace(s: string, t: string)
    requires forall k :: 0 <= k < |t| ==> IsSpace(t[k])
    ensures StripTrailing(s + t) == StripTrailing(s)
    decreases |t|
  {
    if t != [] {
      assert (s + t)[..|s + t| - 1] == s + t[..|t| - 1];
      StripTrailingSpace(s, t[..|t| - 1]);
    } else {
      assert s + t == s;
    }
  }

  /** Whitespace added at the start of a string is removed again by stripping. */
  lemma {:induction false} StripLeadingSpace(t: string, s: string)
    requires forall k :: 0 <= k < |t| ==> IsSpace(t[k])
    ensures StripLeading(t + s) == StripLeading(s)
    decreases |t|
  {
    if t != [] {
      assert (t + s)[1..] == t[1..] + s;
      StripLeadingSpace(t[1..], s);
    } else {
      assert t + s == s;
    }
  }
}
