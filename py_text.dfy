/**
 * The pieces of Python's string handling that the core relies on:
 * whitespace (str.isspace, str.strip, regex \s), ASCII lower-casing,
 * substring search, str.replace(kw, ''), and the number parsers behind
 * int(s), int(s, 16), float(s) and int(float(s)).
 */
module PyText {
  import opened Wrappers

  /** The characters for which Python's str.isspace() holds; `\s` on str patterns and str.strip() use the same set. */
  predicate IsSpace(c: char) {
    if c <= ' ' then c == ' ' || ('\t' <= c <= '\r') || ('\U{001C}' <= c <= '\U{001F}')
    else if c < '\U{0085}' then false
    else (c == '\U{0085}' || c == '\U{00A0}' || c == '\U{1680}' || ('\U{2000}' <= c <= '\U{200A}')
          || c == '\U{2028}' || c == '\U{2029}' || c == '\U{202F}' || c == '\U{205F}' || c == '\U{3000}')
  }

  /** str.lstrip() */
  function LStrip(s: string): (r: string)
    ensures |r| <= |s| && r == s[|s| - |r|..]
    ensures r == [] || !IsSpace(r[0])
    ensures forall i :: 0 <= i < |s| - |r| ==> IsSpace(s[i])
  {
    if |s| > 0 && IsSpace(s[0]) then LStrip(s[1..]) else s
  }

  /** str.rstrip() */
  function RStrip(s: string): (r: string)
    ensures |r| <= |s| && r == s[..|r|]
    ensures r == [] || !IsSpace(r[|r| - 1])
    ensures forall i :: |r| <= i < |s| ==> IsSpace(s[i])
  {
    if |s| > 0 && IsSpace(s[|s| - 1]) then RStrip(s[..|s| - 1]) else s
  }

  /** str.strip(): no whitespace at either end, and a contiguous piece of the input. */
  function Strip(s: string): (r: string)
    ensures |r| <= |s|
    ensures r == [] || (!IsSpace(r[0]) && !IsSpace(r[|r| - 1]))
    ensures forall c :: c in r ==> c in s
  {
    var l := LStrip(s);
    var r := RStrip(l);
    assert r == s[|s| - |l|..|s| - |l| + |r|];
    r
  }

  function LowerChar(c: char): char {
    if 'A' <= c <= 'Z' then (c as int + 32) as char else c
  }

  /** str.lower() restricted to ASCII letters. */
  function Lower(s: string): (r: string)
    ensures |r| == |s| && forall i :: 0 <= i < |s| ==> r[i] == LowerChar(s[i])
  {
    seq(|s|, i requires 0 <= i < |s| => LowerChar(s[i]))
  }

  /** Lower-casing twice is lower-casing once. */
  lemma LowerTwice(s: string)
    ensures Lower(Lower(s)) == Lower(s)
  {
  }

  predicate StartsWith(s: string, p: string) {
    |p| <= |s| && s[..|p|] == p
  }

  /** Python's `sub in s`. */
  predicate Contains(s: string, sub: string)
    decreases |s|
  {
    StartsWith(s, sub) || (|s| > 0 && Contains(s[1..], sub))
  }

  /** Python's `c in s` for a single character. */
  lemma {:induction false} ContainsChar(s: string, c: char)
    ensures Contains(s, [c]) <==> c in s
  {
    if |s| > 0 {
      ContainsChar(s[1..], c);
      assert s == [s[0]] + s[1..];
    }
  }

  /** s.replace(kw, ''): every non-overlapping occurrence of kw, scanning left to right, is deleted. */
  function RemoveAll(s: string, kw: string): (r: string)
    requires |kw| > 0
    ensures |r| <= |s|
    ensures forall c :: c in r ==> c in s
    decreases |s|
  {
    if |s| == 0 then s
    else if StartsWith(s, kw) then RemoveAll(s[|kw|..], kw)
    else [s[0]] + RemoveAll(s[1..], kw)
  }

  /** Removing a one-character keyword removes that character everywhere. */
  lemma {:induction false} RemoveAllChar(s: string, c: char)
    ensures c !in RemoveAll(s, [c])
    decreases |s|
  {
    if |s| > 0 {
      RemoveAllChar(s[1..], c);
      if !StartsWith(s, [c]) {
        assert s[0] != c;
      }
    }
  }

  // ---------------------------------------------------------------- numbers

  function DigitChar(d: nat): char
    requires d < 10
  {
    ('0' as int + d) as char
  }

  function NatToString(n: nat): (r: string)
    ensures |r| > 0 && '0' <= r[0] <= '9'
  {
    if n < 10 then [DigitChar(n)] else NatToString(n / 10) + [DigitChar(n % 10)]
  }

  /** str(i) for a Python int. */
  function IntToString(i: int): (r: string)
    ensures |r| > 0
    ensures (i < 0) <==> r[0] == '-'
  {
    if i < 0 then "-" + NatToString(-i) else NatToString(i)
  }

  /** The value of an ASCII digit in base 10 or 16 (both cases of a-f), if it is one. */
  function DigitValue(c: char, base: nat): Option<nat>
  {
    if '0' <= c <= '9' && (c as int - '0' as int) < base then Some(c as int - '0' as int)
    else if base == 16 && 'a' <= c <= 'f' then Some(c as int - 'a' as int + 10)
    else if base == 16 && 'A' <= c <= 'F' then Some(c as int - 'A' as int + 10)
    else None
  }

  predicate IsDigitIn(c: char, base: nat) {
    DigitValue(c, base).Some?
  }

  /** Digits with single underscores between them, as int() and float() accept. */
  predicate ValidDigitRun(s: string, base: nat) {
    && |s| > 0 && s[0] != '_' && s[|s| - 1] != '_'
    && (forall i :: 0 <= i < |s| ==> s[i] == '_' || IsDigitIn(s[i], base))
    && (forall i :: 0 <= i < |s| - 1 ==> !(s[i] == '_' && s[i + 1] == '_'))
  }

  /** The number spelled by a digit run, underscores ignored. */
  function RunValue(s: string, base: nat): nat
    requires forall i :: 0 <= i < |s| ==> s[i] == '_' || IsDigitIn(s[i], base)
  {
    if s == [] then 0
    else
      var last := s[|s| - 1];
      assert last == '_' || IsDigitIn(last, base);
      if last == '_' then RunValue(s[..|s| - 1], base)
      else RunValue(s[..|s| - 1], base) * base + DigitValue(last, base).value
  }

  /** The number of digits (not underscores) in a run. */
  function DigitCount(s: string): nat {
    if s == [] then 0 else DigitCount(s[..|s| - 1]) + if s[|s| - 1] == '_' then 0 else 1
  }

  function SplitSign(t: string): (bool, string) {
    if |t| > 0 && (t[0] == '+' || t[0] == '-') then (t[0] == '-', t[1..]) else (false, t)
  }

  /** The digits of int(s, 16) once the sign is gone: an optional 0x/0X prefix, which may be followed by one underscore. */
  function HexBody(u: string): string {
    if |u| >= 2 && u[0] == '0' && (u[1] == 'x' || u[1] == 'X') then
      (var b := u[2..]; if |b| > 0 && b[0] == '_' then b[1..] else b)
    else u
  }

  /** int(t, base) for base 10 or 16 on ASCII digits, t carrying no surrounding whitespace; None where Python raises ValueError. */
  function ParseBareInt(t: string, base: nat): Option<int>
    requires base == 10 || base == 16
  {
    var (neg, u) := SplitSign(t);
    var body := if base == 16 then HexBody(u) else u;
    if !ValidDigitRun(body, base) then None
    else
      var v: int := RunValue(body, base);
      Some(if neg then -v else v)
  }

  /** Python's int(s, base): whitespace at either end is skipped, one character at a time. */
  function ParseInt(s: string, base: nat): Option<int>
    requires base == 10 || base == 16
    decreases |s|
  {
    if |s| > 0 && IsSpace(s[0]) then ParseInt(s[1..], base)
    else if |s| > 0 && IsSpace(s[|s| - 1]) then ParseInt(s[..|s| - 1], base)
    else ParseBareInt(s, base)
  }

  /** Skipping the whitespace one character at a time is parsing the str.strip() of the text. */
  lemma {:induction false} ParseIntIsStripped(s: string, base: nat)
    requires base == 10 || base == 16
    ensures ParseInt(s, base) == ParseBareInt(Strip(s), base)
    decreases |s|, 1
  {
    if |s| > 0 && IsSpace(s[0]) {
      LeadingSpaceSkipped(s, base);
    } else if |s| > 0 && IsSpace(s[|s| - 1]) {
      TrailingSpaceSkipped(s, base);
    } else {
      StripNothing(s);
    }
  }

  lemma {:induction false} LeadingSpaceSkipped(s: string, base: nat)
    requires base == 10 || base == 16
    requires |s| > 0 && IsSpace(s[0])
    ensures ParseInt(s, base) == ParseBareInt(Strip(s), base)
    decreases |s|, 0
  {
    StripLeadingSpace(s);
    ParseIntIsStripped(s[1..], base);
  }

  lemma {:induction false} TrailingSpaceSkipped(s: string, base: nat)
    requires base == 10 || base == 16
    requires |s| > 0 && !IsSpace(s[0]) && IsSpace(s[|s| - 1])
    ensures ParseInt(s, base) == ParseBareInt(Strip(s), base)
    decreases |s|, 0
  {
    StripTrailingSpace(s);
    ParseIntIsStripped(s[..|s| - 1], base);
  }

  lemma StripLeadingSpace(s: string)
    requires |s| > 0 && IsSpace(s[0])
    ensures Strip(s) == Strip(s[1..])
  {
    assert LStrip(s) == LStrip(s[1..]);
  }

  lemma StripTrailingSpace(s: string)
    requires |s| > 0 && !IsSpace(s[0]) && IsSpace(s[|s| - 1])
    ensures Strip(s) == Strip(s[..|s| - 1])
  {
    var t := s[..|s| - 1];
    assert LStrip(s) == s;
    assert |t| > 0 && t[0] == s[0];
    assert LStrip(t) == t;
    assert RStrip(s) == RStrip(t);
  }

  lemma StripNothing(s: string)
    requires |s| > 0 ==> !IsSpace(s[0]) && !IsSpace(s[|s| - 1])
    ensures Strip(s) == s
  {
    assert LStrip(s) == s;
    assert RStrip(s) == s;
  }

  /** Two hex digits always give the byte they spell, so int(s, 16) of such a pair lies in [0, 255]. */
  lemma HexPairByte(a: char, b: char)
    requires IsDigitIn(a, 16) && IsDigitIn(b, 16)
    ensures ParseInt([a, b], 16) == Some(DigitValue(a, 16).value * 16 + DigitValue(b, 16).value)
    ensures 0 <= DigitValue(a, 16).value * 16 + DigitValue(b, 16).value <= 255
  {
    var s := [a, b];
    assert !IsSpace(a) && !IsSpace(b);
    assert SplitSign(s) == (false, s);
    assert HexBody(s) == s;
    assert ValidDigitRun(s, 16);
    assert s[..1] == [a];
    assert [a][..0] == [];
    assert RunValue([a], 16) == DigitValue(a, 16).value;
  }

  function Pow10(n: nat): (r: nat)
    ensures r >= 1
  {
    if n == 0 then 1 else 10 * Pow10(n - 1)
  }

  /** The mantissa of a float literal: digits, optionally with a fraction. Returns (integer digits, fraction digits). */
  function SplitMantissa(m: string): Option<(string, string)> {
    if '.' in m then
      var i := IndexOf(m, '.');
      var ip := m[..i];
      var fp := m[i + 1..];
      if (ip == [] || ValidDigitRun(ip, 10)) && (fp == [] || ValidDigitRun(fp, 10)) && (ip != [] || fp != [])
      then Some((ip, fp)) else None
    else if ValidDigitRun(m, 10) then Some((m, []))
    else None
  }

  function IndexOf(s: string, c: char): (i: nat)
    requires c in s
    ensures i < |s| && s[i] == c && c !in s[..i]
  {
    if s[0] == c then 0 else 1 + IndexOf(s[1..], c)
  }

  function ExponentSplit(t: string): (string, Option<string>) {
    if 'e' in t then (t[..IndexOf(t, 'e')], Some(t[IndexOf(t, 'e') + 1..]))
    else if 'E' in t then (t[..IndexOf(t, 'E')], Some(t[IndexOf(t, 'E') + 1..]))
    else (t, None)
  }

  /**
   * Python's float(s) for finite decimal spellings (sign, digits with
   * underscores, fraction, exponent), t carrying no surrounding
   * whitespace; None where Python raises. The spellings inf, infinity
   * and nan are treated as failures.
   */
  function ParseBareFloat(t: string): Option<real> {
    var (neg, u) := SplitSign(t);
    var (m, e) := ExponentSplit(u);
    match SplitMantissa(m)
    case None => None
    case Some((ip, fp)) =>
      var iv := if ip == [] then 0 else RunValue(ip, 10);
      var fv := if fp == [] then 0 else RunValue(fp, 10);
      var scale := Pow10(DigitCount(fp));
      var mant := (iv * scale + fv) as real / scale as real;
      var magnitude :=
        match e
        case None => Some(mant)
        case Some(es) =>
          var (eneg, ed) := SplitSign(es);
          if !ValidDigitRun(ed, 10) then None
          else if eneg then Some(mant / Pow10(RunValue(ed, 10)) as real)
          else Some(mant * Pow10(RunValue(ed, 10)) as real);
      match magnitude
      case None => None
      case Some(x) => Some(if neg then -x else x)
  }

  /** Python's float(s): whitespace at either end is skipped, one character at a time. */
  function ParseFloat(s: string): Option<real>
    decreases |s|
  {
    if |s| > 0 && IsSpace(s[0]) then ParseFloat(s[1..])
    else if |s| > 0 && IsSpace(s[|s| - 1]) then ParseFloat(s[..|s| - 1])
    else ParseBareFloat(s)
  }

  /** int(x) for a float: truncation toward zero. */
  function TruncToInt(x: real): (r: int)
    ensures x >= 0.0 ==> r as real <= x < r as real + 1.0
    ensures x < 0.0 ==> r as real - 1.0 < x <= r as real
  {
    if x >= 0.0 then x.Floor else -((-x).Floor)
  }

  /** int(float(s)): the integer part of a version-like string, or None where Python raises. */
  function MajorOf(s: string): Option<int> {
    match ParseFloat(s)
    case None => None
    case Some(x) => Some(TruncToInt(x))
  }

  // ------------------------------------------------------------- round trips

  lemma {:induction false} NatToStringDigits(n: nat)
    ensures forall k :: 0 <= k < |NatToString(n)| ==> '0' <= NatToString(n)[k] <= '9'
  {
    if n >= 10 {
      NatToStringDigits(n / 10);
    }
  }

  /** The digits str() writes for a natural number read back as that number. */
  lemma {:induction false} NatToStringValue(n: nat)
    ensures forall k :: 0 <= k < |NatToString(n)| ==> IsDigitIn(NatToString(n)[k], 10)
    ensures RunValue(NatToString(n), 10) == n
  {
    NatToStringDigits(n);
    var s := NatToString(n);
    if n >= 10 {
      NatToStringValue(n / 10);
      assert s[..|s| - 1] == NatToString(n / 10);
    }
  }

  /** int(str(i)) == i */
  lemma IntToStringRoundTrip(i: int)
    ensures ParseInt(IntToString(i), 10) == Some(i)
  {
    var s := IntToString(i);
    var n: nat := if i < 0 then -i else i;
    NatToStringDigits(n);
    assert s == (if i < 0 then "-" else "") + NatToString(n);
    assert s[|s| - 1] == NatToString(n)[|NatToString(n)| - 1];
    assert !IsSpace(s[0]) && !IsSpace(s[|s| - 1]);
    BareRoundTrip(i);
  }

  lemma BareRoundTrip(i: int)
    ensures ParseBareInt(IntToString(i), 10) == Some(i)
  {
    var n: nat := if i < 0 then -i else i;
    var d := NatToString(n);
    NatToStringValue(n);
    DigitsAreValidRun(d);
    var s := IntToString(i);
    assert s == (if i < 0 then "-" else "") + d;
    assert SplitSign(s) == (i < 0, d) by {
      if i < 0 {
        assert s[1..] == d;
      }
    }
  }

  lemma DigitsAreValidRun(d: string)
    requires |d| > 0 && forall k :: 0 <= k < |d| ==> IsDigitIn(d[k], 10)
    ensures ValidDigitRun(d, 10)
  {
    assert forall k :: 0 <= k < |d| ==> d[k] != '_';
  }

  /** A string of digits, minus signs and commas is its own strip. */
  lemma NumeralStrip(s: string)
    requires forall k :: 0 <= k < |s| ==> '0' <= s[k] <= '9' || s[k] == '-' || s[k] == ','
    ensures Strip(s) == s
  {
  }

  /** s.split(c) */
  function Split(s: string, c: char): (parts: seq<string>)
    ensures |parts| >= 1
    decreases |s|
  {
    if s == [] then [[]]
    else
      var rest := Split(s[1..], c);
      if s[0] == c then [[]] + rest
      else [[s[0]] + rest[0]] + rest[1..]
  }

  /** c.join(parts) */
  function JoinOn(parts: seq<string>, c: char): string
    requires |parts| >= 1
  {
    if |parts| == 1 then parts[0] else parts[0] + [c] + JoinOn(parts[1..], c)
  }

  lemma {:induction false} SplitPiece(x: string, c: char, rest: string)
    requires c !in x
    ensures Split(x + [c] + rest, c) == [x] + Split(rest, c)
    ensures Split(x, c) == [x]
    decreases |x|
  {
    if x != [] {
      assert (x + [c] + rest)[1..] == x[1..] + [c] + rest;
      SplitPiece(x[1..], c, rest);
      assert [x[0]] + x[1..] == x;
    } else {
      assert x + [c] + rest == [c] + rest;
      assert ([c] + rest)[1..] == rest;
    }
  }

  /** Splitting what was joined gives back the pieces, when none holds the separator. */
  lemma {:induction false} SplitJoinOn(parts: seq<string>, c: char)
    requires |parts| >= 1 && forall k :: 0 <= k < |parts| ==> c !in parts[k]
    ensures Split(JoinOn(parts, c), c) == parts
  {
    if |parts| == 1 {
      SplitPiece(parts[0], c, []);
    } else {
      SplitJoinOn(parts[1..], c);
      SplitPiece(parts[0], c, JoinOn(parts[1..], c));
      assert parts == [parts[0]] + parts[1..];
    }
  }

  /** Joining the pieces of a split gives back the string. */
  lemma {:induction false} JoinSplit(s: string, c: char)
    ensures JoinOn(Split(s, c), c) == s
    decreases |s|
  {
    if s != [] {
      JoinSplit(s[1..], c);
      var rest := Split(s[1..], c);
      if s[0] == c {
        assert ([[]] + rest)[1..] == rest;
        assert s == [c] + s[1..];
      } else if |rest| == 1 {
        assert s == [s[0]] + s[1..];
      } else {
        assert ([[s[0]] + rest[0]] + rest[1..])[1..] == rest[1..];
        assert JoinOn(rest, c) == rest[0] + [c] + JoinOn(rest[1..], c);
        assert s == [s[0]] + s[1..];
      }
    }
  }

  // ----------------------------------------------------------------- round

  /** Python 3 round(x) to an int: the nearest integer, ties to the even one. */
  function RoundHalfEven(x: real): (r: int)
    ensures x - 0.5 <= r as real <= x + 0.5
    ensures (r as real - x == 0.5 || x - r as real == 0.5) ==> r % 2 == 0
  {
    var f := x.Floor;
    var d := x - f as real;
    if d < 0.5 then f
    else if d > 0.5 then f + 1
    else if f % 2 == 0 then f else f + 1
  }

  /** Off a tie, round() gives the one integer closer than 0.5. */
  lemma RoundIsNearest(x: real, n: int)
    requires n as real - 0.5 < x < n as real + 0.5
    ensures RoundHalfEven(x) == n
  {
  }
}
