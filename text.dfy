/**
 * Small pieces of Python's string behaviour that the launcher scripts rely on:
 * `str(i)` for the menu keys, the list `[str(i) for i in range(lo, hi)]`, and
 * `str.strip()` applied to every line typed at a prompt.
 */
module Text {

  /** The character of the decimal digit `k`. */
  function DigitChar(k: nat): char
    requires k < 10
  {
    (k + '0' as int) as char
  }

  /** Python's `str(n)` for a natural number: decimal digits, no leading zero. */
  function DecimalString(n: nat): (r: string)
    ensures |r| >= 1
    ensures forall i :: 0 <= i < |r| ==> '0' <= r[i] <= '9'
    ensures r[0] != '0' || n == 0
  {
    if n < 10 then [DigitChar(n)] else DecimalString(n / 10) + [DigitChar(n % 10)]
  }

  /** `int(s)` for a string of decimal digits. */
  function DecimalValue(s: string): nat
    requires forall i :: 0 <= i < |s| ==> '0' <= s[i] <= '9'
  {
    if s == [] then 0
    else DecimalValue(s[..|s| - 1]) * 10 + (s[|s| - 1] as int - '0' as int)
  }

  /** `int(str(n)) == n`, so different numbers never give the same key. */
  lemma {:induction false} DecimalRoundTrip(n: nat, m: nat)
    ensures DecimalValue(DecimalString(n)) == n
    ensures DecimalString(n) == DecimalString(m) ==> n == m
  {
    DecimalValueOfString(n);
    DecimalValueOfString(m);
  }

  lemma {:induction false} DecimalValueOfString(n: nat)
    ensures DecimalValue(DecimalString(n)) == n
  {
    var r := DecimalString(n);
    if n >= 10 {
      DecimalValueOfString(n / 10);
      assert r[..|r| - 1] == DecimalString(n / 10);
    }
  }

  /** The list `[str(i) for i in range(lo, hi)]`. */
  function KeyRange(lo: nat, hi: nat): (keys: seq<string>)
    ensures |keys| == if lo < hi then hi - lo else 0
  {
    seq(if lo < hi then hi - lo else 0, i requires 0 <= i => DecimalString(lo + i))
  }

  /** The numerals "1" .. "20", written out. */
  const SmallNumerals: seq<string> :=
    ["1", "2", "3", "4", "5", "6", "7", "8", "9", "10",
     "11", "12", "13", "14", "15", "16", "17", "18", "19", "20"]

  /** `str(n)` for 1 <= n <= 20. */
  lemma SmallNumeral(n: nat)
    requires 1 <= n <= 20
    ensures DecimalString(n) == SmallNumerals[n - 1]
  {
    if n >= 10 {
      assert DecimalString(n) == DecimalString(n / 10) + [DigitChar(n % 10)];
      assert DecimalString(n / 10) == [DigitChar(n / 10)];
    }
  }

  /** The menu keys "1" .. "20" of the products script, listed out. */
  lemma KeysUpTo20()
    ensures KeyRange(1, 21) == ["1", "2", "3", "4", "5", "6", "7", "8", "9", "10",
     "11", "12", "13", "14", "15", "16", "17", "18", "19", "20"]
  {
    forall i | 0 <= i < 20
      ensures KeyRange(1, 21)[i] == SmallNumerals[i]
    {
      SmallNumeral(i + 1);
    }
  }

  /** Dropping keys from the top of a range keeps its lower part. */
  lemma KeyRangePrefix(lo: nat, mid: nat, hi: nat)
    requires lo <= mid <= hi
    ensures KeyRange(lo, mid) == KeyRange(lo, hi)[..mid - lo]
  {
  }

  /** Python's `str.isspace()` for one character: the ASCII separators and the Unicode spaces. */
  predicate IsSpace(c: char)
    ensures c == ' ' || c == '\t' || c == '\n' || c == '\r' ==> IsSpace(c)
    ensures IsSpace(c) ==> !('0' <= c <= '9') && !('a' <= c <= 'z') && !('A' <= c <= 'Z') && c != '-' && c != '_'
  {
    || c == ' '
    || ('\t' <= c <= '\r')
    || ('\U{1C}' <= c <= '\U{1F}')
    || c == '\U{85}' || c == '\U{A0}' || c == '\U{1680}'
    || ('\U{2000}' <= c <= '\U{200A}')
    || c == '\U{2028}' || c == '\U{2029}' || c == '\U{202F}' || c == '\U{205F}' || c == '\U{3000}'
  }

  /** Drops the leading white space: the result is a suffix of `s` that does not start with a space. */
  function StripLeading(s: string): (r: string)
    ensures |r| <= |s| && r == s[|s| - |r|..]
    ensures forall i :: 0 <= i < |s| - |r| ==> IsSpace(s[i])
    ensures r == [] || !IsSpace(r[0])
  {
    if s != [] && IsSpace(s[0]) then StripLeading(s[1..]) else s
  }

  /** Drops the trailing white space: the result is a prefix of `s` that does not end with a space. */
  function StripTrailing(s: string): (r: string)
    ensures |r| <= |s| && r == s[..|r|]
    ensures forall i :: |r| <= i < |s| ==> IsSpace(s[i])
    ensures r == [] || !IsSpace(r[|r| - 1])
  {
    if s != [] && IsSpace(s[|s| - 1]) then StripTrailing(s[..|s| - 1]) else s
  }

  /**
   * Python's `s.strip()`: the slice of `s` that is left once the white space at
   * both ends is dropped; it neither starts nor ends with white space.
   */
  function Strip(s: string): (r: string)
    ensures var k := |s| - |StripLeading(s)|;
      && k + |r| <= |s| && r == s[k..k + |r|]
      && (forall i :: 0 <= i < k ==> IsSpace(s[i]))
      && (forall i :: k + |r| <= i < |s| ==> IsSpace(s[i]))
    ensures r == [] || (!IsSpace(r[0]) && !IsSpace(r[|r| - 1]))
  {
    var lead := StripLeading(s);
    var r := StripTrailing(lead);
    StripShape(s, lead, r);
    r
  }

  /**
   * Dropping white space from the front of `s` (giving `lead`) and then from the
   * back of `lead` (giving `r`) leaves a slice of `s` with white space on both sides.
   */
  lemma StripShape(s: string, lead: string, r: string)
    requires |lead| <= |s| && lead == s[|s| - |lead|..]
    requires forall i :: 0 <= i < |s| - |lead| ==> IsSpace(s[i])
    requires lead == [] || !IsSpace(lead[0])
    requires |r| <= |lead| && r == lead[..|r|]
    requires forall i :: |r| <= i < |lead| ==> IsSpace(lead[i])
    requires r == [] || !IsSpace(r[|r| - 1])
    ensures var k := |s| - |lead|;
      && k + |r| <= |s| && r == s[k..k + |r|]
      && (forall i :: 0 <= i < k ==> IsSpace(s[i]))
      && (forall i :: k + |r| <= i < |s| ==> IsSpace(s[i]))
    ensures r == [] || (!IsSpace(r[0]) && !IsSpace(r[|r| - 1]))
  {
    var k := |s| - |lead|;
    forall i | k + |r| <= i < |s|
      ensures IsSpace(s[i])
    {
      assert s[i] == lead[i - k];
    }
    assert r == [] || r[0] == lead[0];
  }

  /** Leading white space is all there is exactly when nothing is left after dropping it. */
  lemma StripLeadingEmpty(s: string)
    ensures StripLeading(s) == [] <==> forall i :: 0 <= i < |s| ==> IsSpace(s[i])
  {
    var lead := StripLeading(s);
    assert lead == [] || lead[0] == s[|s| - |lead|];
  }

  /** Trailing white space is all there is exactly when nothing is left after dropping it. */
  lemma StripTrailingEmpty(s: string)
    ensures StripTrailing(s) == [] <==> forall i :: 0 <= i < |s| ==> IsSpace(s[i])
  {
    var trail := StripTrailing(s);
    assert trail == [] || trail[|trail| - 1] == s[|trail| - 1];
  }

  /** A prompt's answer counts as empty exactly when everything typed was white space. */
  lemma StripEmpty(s: string)
    ensures Strip(s) == "" <==> forall i :: 0 <= i < |s| ==> IsSpace(s[i])
  {
    var lead := StripLeading(s);
    StripLeadingEmpty(s);
    StripTrailingEmpty(lead);
    assert lead == [] || !IsSpace(lead[0]);
  }

  /** Stripping an answer a second time changes nothing. */
  lemma StripIdempotent(s: string)
    ensures Strip(Strip(s)) == Strip(s)
  {
    var r := Strip(s);
    assert StripLeading(r) == r;
  }
}
