/**
 * The state names `normalize_states` manufactures: `q` followed by a
 * decimal number, `temp:` prefixes that park a state temporarily, and the
 * last `:`-separated segment that strips them again.
 */
module Names {

  function DigitChar(d: nat): (c: char)
    requires d < 10
    ensures '0' <= c <= '9'
  {
    "0123456789"[d]
  }

  function DigitValue(c: char): (d: nat)
    requires '0' <= c <= '9'
    ensures d < 10
  {
    (c as int - '0' as int) as nat
  }

  lemma DigitRoundTrip(d: nat)
    requires d < 10
    ensures DigitValue(DigitChar(d)) == d
  {
    assert "0123456789"[d] as int == '0' as int + d;
  }

  predicate IsDigits(s: string) {
    forall i :: 0 <= i < |s| ==> '0' <= s[i] <= '9'
  }

  /** The decimal representation of `n`, as Python's `str` of an int. */
  function NatToString(n: nat): (s: string)
    ensures |s| >= 1 && IsDigits(s)
    decreases n
  {
    if n < 10 then [DigitChar(n)] else NatToString(n / 10) + [DigitChar(n % 10)]
  }

  /** The value of a string of decimal digits. */
  function ParseNat(s: string): nat
    requires IsDigits(s)
    decreases |s|
  {
    if s == [] then 0 else ParseNat(s[..|s| - 1]) * 10 + DigitValue(s[|s| - 1])
  }

  lemma {:induction false} ParseNatToString(n: nat)
    ensures ParseNat(NatToString(n)) == n
    decreases n
  {
    if n < 10 {
      DigitRoundTrip(n);
      assert NatToString(n)[..0] == [];
    } else {
      var s := NatToString(n);
      assert s[..|s| - 1] == NatToString(n / 10);
      ParseNatToString(n / 10);
      DigitRoundTrip(n % 10);
    }
  }

  /** Distinct numbers have distinct decimal representations. */
  lemma NatToStringInjective(i: nat, j: nat)
    requires NatToString(i) == NatToString(j)
    ensures i == j
  {
    ParseNatToString(i);
    ParseNatToString(j);
  }

  /** The canonical name `q<n>`. */
  function QName(n: nat): (s: string)
    ensures |s| >= 2 && s[0] == 'q' && s[1..] == NatToString(n)
    ensures ':' !in s
  {
    "q" + NatToString(n)
  }

  lemma QNameInjective(i: nat, j: nat)
    requires QName(i) == QName(j)
    ensures i == j
  {
    assert QName(i)[1..] == QName(j)[1..];
    NatToStringInjective(i, j);
  }

  /** The prefix that marks a temporary name. */
  const TempPrefix: string := "temp:"

  predicate StartsWith(s: string, prefix: string) {
    |prefix| <= |s| && s[..|prefix|] == prefix
  }

  lemma QNameIsNotTemp(n: nat)
    ensures !StartsWith(QName(n), TempPrefix)
  {
    assert QName(n)[0] != TempPrefix[0];
  }

  /** `x` is `base` behind zero or more temporary prefixes. */
  predicate TempOf(x: string, base: string)
    decreases |x|
  {
    x == base || (StartsWith(x, TempPrefix) && TempOf(x[|TempPrefix|..], base))
  }

  lemma TempStep(x: string, base: string)
    requires TempOf(x, base)
    ensures TempOf(TempPrefix + x, base)
  {
    assert (TempPrefix + x)[|TempPrefix|..] == x;
  }

  /** The text after the last `:`, i.e. the last item of `split(":")`. */
  function LastSegment(s: string): (r: string)
    ensures ':' !in r
    ensures |r| <= |s| && r == s[|s| - |r|..]
    ensures |r| < |s| ==> s[|s| - |r| - 1] == ':'
    decreases |s|
  {
    if s == [] then []
    else if s[|s| - 1] == ':' then []
    else
      var init := s[..|s| - 1];
      var r0 := LastSegment(init);
      assert s[|s| - |r0| - 1..] == init[|init| - |r0|..] + [s[|s| - 1]];
      r0 + [s[|s| - 1]]
  }

  lemma {:induction false} LastSegmentOfColonFree(s: string)
    requires ':' !in s
    ensures LastSegment(s) == s
    decreases |s|
  {
    if s != [] {
      LastSegmentOfColonFree(s[..|s| - 1]);
      assert s[..|s| - 1] + [s[|s| - 1]] == s;
    }
  }

  /** Adding a prefix that ends in `:` does not change the last segment. */
  lemma {:induction false} LastSegmentAfterColon(p: string, s: string)
    requires p != [] && p[|p| - 1] == ':'
    ensures LastSegment(p + s) == LastSegment(s)
    decreases |s|
  {
    if s == [] {
      assert p + s == p;
    } else {
      assert (p + s)[..|p + s| - 1] == p + s[..|s| - 1];
      LastSegmentAfterColon(p, s[..|s| - 1]);
    }
  }

  /** Stripping a temporary name gives back its base, when the base has no `:`. */
  lemma {:induction false} LastSegmentOfTemp(x: string, base: string)
    requires TempOf(x, base) && ':' !in base
    ensures LastSegment(x) == base
    decreases |x|
  {
    if x == base {
      LastSegmentOfColonFree(base);
    } else {
      var rest := x[|TempPrefix|..];
      LastSegmentOfTemp(rest, base);
      assert x == TempPrefix + rest;
      LastSegmentAfterColon(TempPrefix, rest);
    }
  }

  /** A name that is not temporary is its own base. */
  lemma TempOfNonTemp(x: string, base: string)
    requires TempOf(x, base) && !StartsWith(x, TempPrefix)
    ensures x == base
  {
  }
}
