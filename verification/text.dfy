/**
 * The string primitives of PHP that the logging code relies on, over `seq<char>`:
 * ASCII `strtolower`, `str_contains`, `stripos`, `trim`, `str_replace` of one character,
 * and the conversions between numbers and decimal text (`(string)` of a float with at
 * most two decimals, and the `(float)` cast of such a text).
 */
module Text {

  /** `strtolower` on one character: ASCII only, as PHP 8 does. */
  function Lower(c: char): (r: char)
    ensures 'A' <= c <= 'Z' ==> r as int == c as int + 32
    ensures !('A' <= c <= 'Z') ==> r == c
    ensures 'a' <= r <= 'z' ==> ('a' <= c <= 'z' || 'A' <= c <= 'Z')
  {
    if 'A' <= c <= 'Z' then (c as int + 32) as char else c
  }

  function LowerStr(s: string): (r: string)
    ensures |r| == |s|
    ensures forall i :: 0 <= i < |s| ==> r[i] == Lower(s[i])
  {
    seq(|s|, i requires 0 <= i < |s| => Lower(s[i]))
  }

  /** `t` occurs in `s` starting at index `i`. */
  predicate OccursAt(s: string, t: string, i: int)
  {
    0 <= i && i + |t| <= |s| && s[i..i + |t|] == t
  }

  /** `str_contains($s, $t)`. */
  predicate Contains(s: string, t: string)
  {
    exists i | 0 <= i <= |s| - |t| :: OccursAt(s, t, i)
  }

  /** `stripos($s, $t) !== false`: a case-insensitive occurrence. */
  predicate ContainsIgnoringCase(s: string, t: string)
  {
    Contains(LowerStr(s), LowerStr(t))
  }

  lemma ContainsWitness(s: string, t: string, i: int)
    requires OccursAt(s, t, i)
    ensures Contains(s, t)
  {
  }

  /** The characters PHP's `trim` strips by default. */
  predicate IsTrimmed(c: char)
  {
    c == ' ' || c == '\t' || c == '\n' || c == '\r' || c == '\0' || c as int == 11
  }

  function TrimStart(s: string): (r: string)
    ensures |r| <= |s| && r == s[|s| - |r|..]
    ensures r != [] ==> !IsTrimmed(r[0])
    ensures forall i :: 0 <= i < |s| - |r| ==> IsTrimmed(s[i])
  {
    if s != [] && IsTrimmed(s[0]) then TrimStart(s[1..]) else s
  }

  function TrimEnd(s: string): (r: string)
    ensures |r| <= |s| && r == s[..|r|]
    ensures r != [] ==> !IsTrimmed(r[|r| - 1])
    ensures forall i :: |r| <= i < |s| ==> IsTrimmed(s[i])
  {
    if s != [] && IsTrimmed(s[|s| - 1]) then TrimEnd(s[..|s| - 1]) else s
  }

  /** `r` is the slice of `s` at `a`, and everything around it is blank. */
  ghost predicate CutFrom(s: string, r: string, a: int)
  {
    0 <= a <= |s| - |r| && r == s[a..a + |r|]
    && (forall i :: 0 <= i < a ==> IsTrimmed(s[i]))
    && (forall i :: a + |r| <= i < |s| ==> IsTrimmed(s[i]))
  }

  /** `trim($s)`: `s` with its leading and trailing blanks removed, and nothing else. */
  function Trim(s: string): (r: string)
    ensures exists a :: CutFrom(s, r, a)
    ensures r != [] ==> !IsTrimmed(r[0]) && !IsTrimmed(r[|r| - 1])
  {
    var t := TrimStart(s);
    var r := TrimEnd(t);
    assert r == s[|s| - |t|..][..|r|];
    assert CutFrom(s, r, |s| - |t|);
    r
  }

  /** `str_replace($c, '', $s)` for a one-character needle. */
  function Without(s: string, c: char): (r: string)
    ensures c !in r
    ensures forall x :: x in r <==> x in s && x != c
  {
    if s == [] then [] else (if s[0] == c then [] else [s[0]]) + Without(s[1..], c)
  }

  // ---------------------------------------------------------------------------
  // Decimal text

  predicate IsDigit(c: char) { '0' <= c <= '9' }

  predicate AllDigits(s: string) { forall i :: 0 <= i < |s| ==> IsDigit(s[i]) }

  function DigitChar(d: nat): (c: char)
    requires d < 10
    ensures IsDigit(c) && c as int - '0' as int == d
  {
    ('0' as int + d) as char
  }

  /** The value of a run of decimal digits. */
  function DigitsValue(s: string): nat
    requires AllDigits(s)
  {
    if s == [] then 0 else DigitsValue(s[..|s| - 1]) * 10 + (s[|s| - 1] as int - '0' as int)
  }

  /** PHP's decimal rendering of a non-negative integer: no leading zeros. */
  function NatToString(n: nat): (s: string)
    ensures s != [] && AllDigits(s)
    ensures |s| > 1 ==> s[0] != '0'
  {
    if n < 10 then [DigitChar(n)] else NatToString(n / 10) + [DigitChar(n % 10)]
  }

  lemma {:induction false} NatToStringRoundTrip(n: nat)
    ensures DigitsValue(NatToString(n)) == n
  {
    if n >= 10 {
      var s := NatToString(n);
      assert s[..|s| - 1] == NatToString(n / 10);
      NatToStringRoundTrip(n / 10);
    }
  }

  /**
   * A quantity kept in hundredths (a value rounded to two decimals) as PHP writes the
   * float: the integer part, then the shortest fraction (none, one or two digits).
   */
  function HundredthsToString(k: nat): (s: string)
  {
    var cents := k % 100;
    NatToString(k / 100) +
      (if cents == 0 then ""
       else if cents % 10 == 0 then "." + [DigitChar(cents / 10)]
       else "." + [DigitChar(cents / 10), DigitChar(cents % 10)])
  }

  /** The length of the run of digits `s` starts with. */
  function LeadingDigits(s: string): (n: nat)
    ensures n <= |s| && AllDigits(s[..n])
    ensures n < |s| ==> !IsDigit(s[n])
  {
    if s == [] || !IsDigit(s[0]) then 0
    else
      var n := 1 + LeadingDigits(s[1..]);
      assert s[..n] == [s[0]] + s[1..][..n - 1];
      n
  }

  /** The integer part of `(float)$s` for a text made of digits, a point and digits. */
  function WholePart(s: string): nat
  {
    var n := LeadingDigits(s);
    DigitsValue(s[..n])
  }

  /** Whether `(float)$s` has a non-zero fractional part. */
  predicate HasFraction(s: string)
  {
    var n := LeadingDigits(s);
    n < |s| && s[n] == '.' &&
    var digits := s[n + 1..][..LeadingDigits(s[n + 1..])];
    exists i | 0 <= i < |digits| :: digits[i] != '0'
  }

  /** `(float)$s > $t` for a whole threshold `t`, read exactly off the decimal text. */
  predicate ExceedsWhole(s: string, t: nat)
  {
    WholePart(s) > t || (WholePart(s) == t && HasFraction(s))
  }

  lemma {:induction false} LeadingDigitsOfConcat(d: string, r: string)
    requires AllDigits(d)
    ensures LeadingDigits(d + r) == |d| + LeadingDigits(r)
  {
    if d != [] {
      assert (d + r)[1..] == d[1..] + r;
      LeadingDigitsOfConcat(d[1..], r);
    } else {
      assert d + r == r;
    }
  }

  /** Reading back what `HundredthsToString` wrote: the text exceeds `t` iff `k` exceeds `t` units. */
  lemma {:induction false} HundredthsExceed(k: nat, t: nat)
    ensures ExceedsWhole(HundredthsToString(k), t) <==> k > 100 * t
  {
    var w := NatToString(k / 100);
    var cents := k % 100;
    var frac := if cents == 0 then ""
                else if cents % 10 == 0 then "." + [DigitChar(cents / 10)]
                else "." + [DigitChar(cents / 10), DigitChar(cents % 10)];
    var s := HundredthsToString(k);
    assert s == w + frac;
    LeadingDigitsOfConcat(w, frac);
    assert LeadingDigits(frac) == 0;
    var n := LeadingDigits(s);
    assert n == |w|;
    assert s[..n] == w;
    NatToStringRoundTrip(k / 100);
    assert WholePart(s) == k / 100;
    if cents == 0 {
      assert !HasFraction(s);
    } else {
      assert s[n] == '.';
      var tail := s[n + 1..];
      if cents % 10 == 0 {
        assert tail == [DigitChar(cents / 10)];
        assert tail[..LeadingDigits(tail)] == tail;
        assert tail[0] != '0';
      } else {
        assert tail == [DigitChar(cents / 10), DigitChar(cents % 10)];
        assert LeadingDigits(tail[1..]) == 1;
        assert tail[..LeadingDigits(tail)] == tail;
        assert tail[1] != '0';
      }
      assert HasFraction(s);
    }
  }
}
