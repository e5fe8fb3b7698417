/** The string handling the pricing code relies on: `code.strip().upper()`
    for promotion and referral codes, and `f"{n:06d}"` for generated
    referral codes. */
module Text {

  /** Python's `str.isspace`, character by character. */
  predicate IsSpace(c: char)
  {
    var n := c as int;
    (0x09 <= n <= 0x0D) || (0x1C <= n <= 0x20) || n == 0x85 || n == 0xA0 || n == 0x1680
    || (0x2000 <= n <= 0x200A) || n == 0x2028 || n == 0x2029 || n == 0x202F || n == 0x205F
    || n == 0x3000
  }

  predicate IsLower(c: char)
  {
    'a' <= c <= 'z'
  }

  function UpperChar(c: char): (u: char)
    ensures !IsLower(u)
    ensures IsSpace(u) <==> IsSpace(c)
    ensures !IsLower(c) ==> u == c
  {
    if IsLower(c) then (c as int - 32) as char else c
  }

  /** `s.upper()` */
  function Upper(s: string): (r: string)
    ensures |r| == |s|
    ensures forall i | 0 <= i < |s| :: r[i] == UpperChar(s[i])
  {
    seq(|s|, i requires 0 <= i < |s| => UpperChar(s[i]))
  }

  /** `s.lstrip()`: the suffix left once the leading whitespace is dropped. */
  function StripLeft(s: string): (r: string)
    ensures |r| <= |s| && r == s[|s| - |r|..]
    ensures forall i | 0 <= i < |s| - |r| :: IsSpace(s[i])
    ensures |r| > 0 ==> !IsSpace(r[0])
  {
    if |s| > 0 && IsSpace(s[0]) then StripLeft(s[1..]) else s
  }

  /** `s.rstrip()`: the prefix left once the trailing whitespace is dropped. */
  function StripRight(s: string): (r: string)
    ensures |r| <= |s| && r == s[..|r|]
    ensures forall i | |r| <= i < |s| :: IsSpace(s[i])
    ensures |r| > 0 ==> !IsSpace(r[|r| - 1])
  {
    if |s| > 0 && IsSpace(s[|s| - 1]) then StripRight(s[..|s| - 1]) else s
  }

  function Strip(s: string): string
  {
    StripRight(StripLeft(s))
  }

  /** A code as it is stored: no surrounding whitespace, no lower-case letter. */
  predicate IsNormalized(s: string)
  {
    && (|s| > 0 ==> !IsSpace(s[0]) && !IsSpace(s[|s| - 1]))
    && forall i | 0 <= i < |s| :: !IsLower(s[i])
  }

  /** `s.strip().upper()` */
  function Normalize(s: string): (r: string)
    ensures IsNormalized(r)
    ensures |r| <= |s|
  {
    var t := Strip(s);
    assert |t| > 0 ==> !IsSpace(t[0]) by {
      if |t| > 0 {
        var l := StripLeft(s);
        assert t == l[..|t|];
      }
    }
    Upper(t)
  }

  lemma StripKeepsStripped(s: string)
    requires |s| == 0 || (!IsSpace(s[0]) && !IsSpace(s[|s| - 1]))
    ensures Strip(s) == s
  {
  }

  /** A stored code normalizes to itself. */
  lemma NormalizeFixesNormalized(s: string)
    requires IsNormalized(s)
    ensures Normalize(s) == s
  {
    StripKeepsStripped(s);
    assert Upper(s) == s;
  }

  /** Normalizing twice is normalizing once. */
  lemma NormalizeIdempotent(s: string)
    ensures Normalize(Normalize(s)) == Normalize(s)
  {
    NormalizeFixesNormalized(Normalize(s));
  }

  /** Where the stripped part of `s` begins and ends. */
  lemma StripBounds(s: string) returns (i: nat, j: nat)
    ensures i <= j <= |s|
    ensures forall k | 0 <= k < i :: IsSpace(s[k])
    ensures forall k | j <= k < |s| :: IsSpace(s[k])
    ensures Strip(s) == s[i..j]
  {
    var l := StripLeft(s);
    i := |s| - |l|;
    assert l == s[i..];
    var t := StripRight(l);
    j := i + |t|;
    assert t == l[..|t|];
    assert s[i..j] == t;
    forall k | j <= k < |s| ensures IsSpace(s[k]) {
      assert s[k] == l[k - i];
    }
  }

  /** Normalization only ever removes whitespace at the ends and maps
      lower-case letters to upper-case ones. */
  lemma NormalizeCharacterized(s: string)
    ensures exists i, j | 0 <= i <= j <= |s| ::
      && (forall k | 0 <= k < i :: IsSpace(s[k]))
      && (forall k | j <= k < |s| :: IsSpace(s[k]))
      && Normalize(s) == Upper(s[i..j])
  {
    var i, j := StripBounds(s);
    assert Normalize(s) == Upper(s[i..j]);
  }

  // ---- decimal digits ----

  function DigitChar(d: nat): (c: char)
    requires d < 10
    ensures '0' <= c <= '9'
  {
    ('0' as int + d) as char
  }

  predicate IsDigit(c: char)
  {
    '0' <= c <= '9'
  }

  function DigitValue(c: char): (d: nat)
    requires IsDigit(c)
    ensures d < 10
  {
    c as int - '0' as int
  }

  /** `str(n)` for a natural number. */
  function DecimalDigits(n: nat): (s: string)
    ensures |s| >= 1
    ensures forall i | 0 <= i < |s| :: IsDigit(s[i])
  {
    if n < 10 then [DigitChar(n)] else DecimalDigits(n / 10) + [DigitChar(n % 10)]
  }

  /** The number a string of decimal digits denotes. */
  function DigitsValue(s: string): nat
    requires forall i | 0 <= i < |s| :: IsDigit(s[i])
  {
    if |s| == 0 then 0 else 10 * DigitsValue(s[..|s| - 1]) + DigitValue(s[|s| - 1])
  }

  lemma {:induction false} DigitsRoundTrip(n: nat)
    ensures DigitsValue(DecimalDigits(n)) == n
  {
    var s := DecimalDigits(n);
    if n >= 10 {
      DigitsRoundTrip(n / 10);
      assert s[..|s| - 1] == DecimalDigits(n / 10);
    }
  }

  function Zeros(k: nat): (z: string)
    ensures |z| == k
    ensures forall i | 0 <= i < k :: z[i] == '0'
  {
    seq(k, _ => '0')
  }

  /** `f"{n:0wd}"` for a natural number: zero-padded on the left to width w. */
  function ZeroPadded(n: nat, w: nat): (s: string)
    ensures forall i | 0 <= i < |s| :: IsDigit(s[i])
    ensures |s| >= w
  {
    var d := DecimalDigits(n);
    (if |d| < w then Zeros(w - |d|) else []) + d
  }

  lemma {:induction false} LeadingZerosIgnored(z: string, s: string)
    requires forall i | 0 <= i < |z| :: z[i] == '0'
    requires forall i | 0 <= i < |s| :: IsDigit(s[i])
    ensures forall i | 0 <= i < |z + s| :: IsDigit((z + s)[i])
    ensures DigitsValue(z + s) == DigitsValue(s)
    decreases |s|
  {
    var zs := z + s;
    if |s| == 0 {
      assert zs == z;
      LeadingZerosOnly(z);
    } else {
      var s' := s[..|s| - 1];
      assert zs[..|zs| - 1] == z + s';
      LeadingZerosIgnored(z, s');
    }
  }

  lemma {:induction false} LeadingZerosOnly(z: string)
    requires forall i | 0 <= i < |z| :: z[i] == '0'
    ensures DigitsValue(z) == 0
    decreases |z|
  {
    if |z| > 0 {
      LeadingZerosOnly(z[..|z| - 1]);
    }
  }

  lemma ZeroPaddedValue(n: nat, w: nat)
    ensures DigitsValue(ZeroPadded(n, w)) == n
  {
    var d := DecimalDigits(n);
    var z: string := if |d| < w then Zeros(w - |d|) else [];
    LeadingZerosIgnored(z, d);
    DigitsRoundTrip(n);
  }
}
