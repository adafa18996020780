/**
 * The version scans both CUDA scripts run over a tool's output: the
 * leftmost place where a tag is followed by whitespace and a
 * `digits.digits` number (the pattern `<tag>\s+(\d+\.\d+)`), and the
 * fact that whatever such a scan returns survives `int(float(...))`.
 * Digits are the ASCII ones.
 */
module VersionText {
  import opened Wrappers
  import opened PyText

  predicate IsAsciiDigit(c: char) {
    '0' <= c <= '9'
  }

  predicate AllDigits(s: string) {
    forall k :: 0 <= k < |s| ==> IsAsciiDigit(s[k])
  }

  /** A non-empty run of digits, a dot, and a non-empty run of digits. */
  predicate IsDottedNumber(v: string) {
    exists k :: 0 < k < |v| - 1 && v[k] == '.' && AllDigits(v[..k]) && AllDigits(v[k + 1..])
  }

  /** The length of the digit run that starts at i. */
  function DigitRun(s: string, i: nat): (n: nat)
    requires i <= |s|
    ensures i + n <= |s| && forall k :: i <= k < i + n ==> IsAsciiDigit(s[k])
    ensures i + n < |s| ==> !IsAsciiDigit(s[i + n])
    decreases |s| - i
  {
    if i < |s| && IsAsciiDigit(s[i]) then 1 + DigitRun(s, i + 1) else 0
  }

  /** The length of the whitespace run that starts at i. */
  function SpaceRun(s: string, i: nat): (n: nat)
    requires i <= |s|
    ensures i + n <= |s|
    decreases |s| - i
  {
    if i < |s| && IsSpace(s[i]) then 1 + SpaceRun(s, i + 1) else 0
  }

  /** The tag begins at position q. */
  predicate TagAt(s: string, tag: string, q: nat) {
    q + |tag| <= |s| && s[q..q + |tag|] == tag
  }

  /**
   * The pattern tried at position i. The two digit runs and the
   * whitespace run are greedy; since digits, spaces and the dot are
   * disjoint, giving characters back never lets a failed match succeed.
   */
  function VersionAt(s: string, tag: string, i: nat): (r: Option<string>)
    requires i <= |s|
    ensures r.Some? ==> TagAt(s, tag, i) && IsDottedNumber(r.value)
  {
    if TagAt(s, tag, i) then
      var j := i + |tag|;
      var ns := SpaceRun(s, j);
      var k := j + ns;
      var n1 := DigitRun(s, k);
      if ns == 0 || n1 == 0 || k + n1 >= |s| || s[k + n1] != '.' then None
      else
        var m := k + n1 + 1;
        var n2 := DigitRun(s, m);
        if n2 == 0 then None
        else
          var v := s[k..m + n2];
          assert v[n1] == '.' && AllDigits(v[..n1]) && AllDigits(v[n1 + 1..]);
          Some(v)
    else None
  }

  /** Where re.search finds the pattern from position i on: the leftmost position where it matches. */
  function MatchPos(s: string, tag: string, i: nat): (r: Option<nat>)
    requires i <= |s|
    ensures r.Some? ==> i <= r.value <= |s| && VersionAt(s, tag, r.value).Some?
    ensures r.Some? ==> forall q :: i <= q < r.value ==> VersionAt(s, tag, q).None?
    ensures r.None? ==> forall q :: i <= q <= |s| ==> VersionAt(s, tag, q).None?
    decreases |s| - i
  {
    if VersionAt(s, tag, i).Some? then Some(i)
    else if i == |s| then None
    else MatchPos(s, tag, i + 1)
  }

  /** re.search(tag + r'\s+(\d+\.\d+)', s).group(1), or None when nothing matches. */
  function FindVersion(s: string, tag: string): (r: Option<string>)
    ensures r.Some? ==> IsDottedNumber(r.value)
    ensures r.None? <==> forall q :: 0 <= q <= |s| ==> VersionAt(s, tag, q).None?
  {
    match MatchPos(s, tag, 0)
    case Some(p) => VersionAt(s, tag, p)
    case None => None
  }

  /** A digit run of length n starting at i, ended by the string's end or a non-digit, is what DigitRun measures. */
  lemma {:induction false} DigitRunIs(s: string, i: nat, n: nat)
    requires i + n <= |s| && forall k :: i <= k < i + n ==> IsAsciiDigit(s[k])
    requires i + n == |s| || !IsAsciiDigit(s[i + n])
    ensures DigitRun(s, i) == n
    decreases n
  {
    if n > 0 {
      DigitRunIs(s, i + 1, n - 1);
    }
  }

  /** Likewise for a whitespace run ended by a digit. */
  lemma {:induction false} SpaceRunIs(s: string, i: nat, n: nat)
    requires i + n < |s| && forall k :: i <= k < i + n ==> IsSpace(s[k])
    requires IsAsciiDigit(s[i + n])
    ensures SpaceRun(s, i) == n
    decreases n
  {
    if n > 0 {
      SpaceRunIs(s, i + 1, n - 1);
    }
  }

  /**
   * Completeness of the scan at one position: the tag at i, then ns
   * spaces, n1 digits, a dot and n2 digits not followed by a digit, are
   * matched, and the two runs with the dot between are captured.
   */
  lemma VersionAfterTag(s: string, tag: string, i: nat, ns: nat, n1: nat, n2: nat)
    requires TagAt(s, tag, i) && ns > 0 && n1 > 0 && n2 > 0
    requires i + |tag| + ns + n1 + 1 + n2 <= |s|
    requires forall q :: i + |tag| <= q < i + |tag| + ns ==> IsSpace(s[q])
    requires forall q :: i + |tag| + ns <= q < i + |tag| + ns + n1 ==> IsAsciiDigit(s[q])
    requires s[i + |tag| + ns + n1] == '.'
    requires forall q :: i + |tag| + ns + n1 + 1 <= q < i + |tag| + ns + n1 + 1 + n2 ==> IsAsciiDigit(s[q])
    requires i + |tag| + ns + n1 + 1 + n2 == |s| || !IsAsciiDigit(s[i + |tag| + ns + n1 + 1 + n2])
    ensures VersionAt(s, tag, i) == Some(s[i + |tag| + ns..i + |tag| + ns + n1 + 1 + n2])
  {
    var j := i + |tag|;
    var k := j + ns;
    var m := k + n1 + 1;
    SpaceRunIs(s, j, ns);
    DigitRunIs(s, k, n1);
    DigitRunIs(s, m, n2);
    VersionFromRuns(s, tag, i, ns, n1, n2);
  }

  /** The scan at i, stated on the run lengths the pattern measures. */
  lemma VersionFromRuns(s: string, tag: string, i: nat, ns: nat, n1: nat, n2: nat)
    requires TagAt(s, tag, i) && ns > 0 && n1 > 0 && n2 > 0
    requires i + |tag| + ns + n1 + 1 + n2 <= |s|
    requires SpaceRun(s, i + |tag|) == ns && DigitRun(s, i + |tag| + ns) == n1
    requires s[i + |tag| + ns + n1] == '.' && DigitRun(s, i + |tag| + ns + n1 + 1) == n2
    ensures VersionAt(s, tag, i) == Some(s[i + |tag| + ns..i + |tag| + ns + n1 + 1 + n2])
  {
  }

  /** When the tag begins nowhere before i, the scan returns what the pattern captures at i. */
  lemma FindVersionFirstTag(s: string, tag: string, i: nat)
    requires i <= |s| && VersionAt(s, tag, i).Some?
    requires forall q :: 0 <= q < i ==> !TagAt(s, tag, q)
    ensures FindVersion(s, tag) == VersionAt(s, tag, i)
  {
    var p := MatchPos(s, tag, 0);
    assert p.Some? && p.value <= i;
    assert TagAt(s, tag, p.value);
  }

  /** A digit run is worth less than ten to the power of its length. */
  lemma {:induction false} DigitsBelowPow(d: string)
    requires AllDigits(d)
    ensures forall k :: 0 <= k < |d| ==> IsDigitIn(d[k], 10)
    ensures RunValue(d, 10) < Pow10(DigitCount(d))
    ensures DigitCount(d) == |d|
  {
    if d != [] {
      var init := d[..|d| - 1];
      assert AllDigits(init);
      DigitsBelowPow(init);
      var dv := DigitValue(d[|d| - 1], 10).value;
      assert RunValue(d, 10) == RunValue(init, 10) * 10 + dv;
      assert RunValue(init, 10) + 1 <= Pow10(DigitCount(init));
      assert RunValue(init, 10) * 10 + 10 <= Pow10(DigitCount(init)) * 10;
    }
  }

  /** int(float("<d1>.<d2>")) is the number the first digit run spells. */
  lemma MajorOfDotted(d1: string, d2: string)
    requires |d1| > 0 && |d2| > 0 && AllDigits(d1) && AllDigits(d2)
    ensures MajorOf(d1 + "." + d2) == Some(RunValue(d1, 10) as int)
  {
    var v := d1 + "." + d2;
    assert v[0] == d1[0] && v[|v| - 1] == d2[|d2| - 1];
    DigitsBelowPow(d1);
    DigitsBelowPow(d2);
    DottedParts(d1, d2);
    MajorOfParts(v, d1, d2);
  }

  /** int(float(v)) for an unsigned mantissa with no exponent and no surrounding whitespace. */
  lemma MajorOfParts(v: string, d1: string, d2: string)
    requires forall k :: 0 <= k < |d1| ==> IsDigitIn(d1[k], 10)
    requires forall k :: 0 <= k < |d2| ==> IsDigitIn(d2[k], 10)
    requires d1 != [] && d2 != [] && RunValue(d2, 10) < Pow10(DigitCount(d2))
    requires |v| > 0 && IsAsciiDigit(v[0]) && IsAsciiDigit(v[|v| - 1])
    requires SplitSign(v) == (false, v) && ExponentSplit(v) == (v, None) && SplitMantissa(v) == Some((d1, d2))
    ensures MajorOf(v) == Some(RunValue(d1, 10) as int)
  {
    var scale := Pow10(DigitCount(d2));
    var x := (RunValue(d1, 10) * scale + RunValue(d2, 10)) as real / scale as real;
    assert ParseFloat(v) == Some(x) by {
      UnpaddedFloat(v);
      BareFloatOfParts(v, d1, d2);
    }
    TruncOfFraction(RunValue(d1, 10), RunValue(d2, 10), scale);
  }

  /** float(v) skips no whitespace when v starts and ends with a digit. */
  lemma UnpaddedFloat(v: string)
    requires |v| > 0 && IsAsciiDigit(v[0]) && IsAsciiDigit(v[|v| - 1])
    ensures ParseFloat(v) == ParseBareFloat(v)
  {
    assert !IsSpace(v[0]) && !IsSpace(v[|v| - 1]);
  }

  /** The value of an unsigned mantissa with no exponent. */
  lemma BareFloatOfParts(v: string, d1: string, d2: string)
    requires d1 != [] && d2 != []
    requires SplitSign(v) == (false, v) && ExponentSplit(v) == (v, None) && SplitMantissa(v) == Some((d1, d2))
    ensures var scale := Pow10(DigitCount(d2));
      ParseBareFloat(v) == Some((RunValue(d1, 10) * scale + RunValue(d2, 10)) as real / scale as real)
  {
  }

  /** "<d1>.<d2>" has no sign, no exponent, and the two runs as its mantissa. */
  lemma DottedParts(d1: string, d2: string)
    requires |d1| > 0 && |d2| > 0 && AllDigits(d1) && AllDigits(d2)
    ensures var v := d1 + "." + d2;
      SplitSign(v) == (false, v) && ExponentSplit(v) == (v, None) && SplitMantissa(v) == Some((d1, d2))
  {
    var v := d1 + "." + d2;
    DigitsBelowPow(d1);
    DigitsBelowPow(d2);
    DigitsAreValidRun(d1);
    DigitsAreValidRun(d2);
    assert v[0] == d1[0];
    assert 'e' !in v && 'E' !in v by {
      forall k | 0 <= k < |v| ensures v[k] != 'e' && v[k] != 'E' {
        if k < |d1| {
          assert v[k] == d1[k];
        } else if k > |d1| {
          assert v[k] == d2[k - |d1| - 1];
        }
      }
    }
    assert '.' !in d1 by {
      forall k | 0 <= k < |d1| ensures d1[k] != '.' {
        assert IsAsciiDigit(d1[k]);
      }
    }
    DotIndex(d1, d2);
    assert v[..|d1|] == d1 && v[|d1| + 1..] == d2;
  }

  /** The integer part of iv + fv/scale, for a fraction below one, is iv. */
  lemma TruncOfFraction(iv: nat, fv: nat, scale: nat)
    requires fv < scale
    ensures TruncToInt((iv * scale + fv) as real / scale as real) == iv
  {
    MulToReal(iv, scale);
    TruncOfRatio((iv * scale + fv) as real, iv as real, fv as real, scale as real, iv);
  }

  lemma TruncOfRatio(num: real, iv: real, fv: real, sc: real, n: nat)
    requires num == iv * sc + fv && 0.0 <= fv < sc && iv == n as real
    ensures TruncToInt(num / sc) == n
  {
    FractionBounds(iv, fv, sc);
    FloorUnique(num / sc, TruncToInt(num / sc), n);
  }

  lemma MulToReal(a: int, b: int)
    ensures (a * b) as real == a as real * b as real
  {
  }

  lemma FractionBounds(iv: real, fv: real, sc: real)
    requires 0.0 <= fv < sc
    ensures iv <= (iv * sc + fv) / sc < iv + 1.0
  {
    var x := (iv * sc + fv) / sc;
    assert x * sc == iv * sc + fv;
    assert (x - iv) * sc == fv;
    assert (iv + 1.0 - x) * sc == sc - fv;
    PositiveFactor(x - iv, sc);
    PositiveFactor(iv + 1.0 - x, sc);
  }

  lemma PositiveFactor(a: real, b: real)
    requires b > 0.0
    ensures a * b >= 0.0 ==> a >= 0.0
    ensures a * b > 0.0 ==> a > 0.0
  {
    if a < 0.0 {
      assert a * b < 0.0;
    }
    if a == 0.0 {
      assert a * b == 0.0;
    }
  }

  lemma FloorUnique(x: real, a: int, b: int)
    requires a as real <= x < a as real + 1.0
    requires b as real <= x < b as real + 1.0
    ensures a == b
  {
  }

  lemma DotIndex(d1: string, d2: string)
    requires '.' !in d1
    ensures IndexOf(d1 + "." + d2, '.') == |d1|
  {
    assert (d1 + "." + d2)[|d1|] == '.';
  }

  /** Two digit runs joined by a dot form a dotted number. */
  lemma DottedOfRuns(d1: string, d2: string)
    requires |d1| > 0 && |d2| > 0 && AllDigits(d1) && AllDigits(d2)
    ensures IsDottedNumber(d1 + "." + d2)
  {
    var v := d1 + "." + d2;
    assert v[|d1|] == '.' && v[..|d1|] == d1 && v[|d1| + 1..] == d2;
  }

  /** Whatever a version scan finds can be read by int(float(...)) without raising. */
  lemma DottedNumberParses(v: string)
    requires IsDottedNumber(v)
    ensures MajorOf(v).Some? && MajorOf(v).value >= 0
  {
    var k :| 0 < k < |v| - 1 && v[k] == '.' && AllDigits(v[..k]) && AllDigits(v[k + 1..]);
    assert v == v[..k] + "." + v[k + 1..];
    MajorOfDotted(v[..k], v[k + 1..]);
  }
}
