/**
 * `TextFilter.filter`: removes URLs and watermark words from OCR text,
 * collapses whitespace, drops runs of separator characters and strips the
 * ends. The three URL patterns are matched by hand-written scanners that
 * follow the regular expressions (case-insensitive on ASCII letters); a
 * substitution scans left to right and deletes each match, as re.sub does.
 */
module TextFilter {
  import opened PyText

  // ---------------------------------------------------------- URL patterns

  /** The three URL patterns: https?://\S+, www\.\S+ and <label>.<tld>\S*. */
  datatype UrlPattern = HttpUrl | WwwUrl | DomainUrl

  const UrlPatterns: seq<UrlPattern> := [HttpUrl, WwwUrl, DomainUrl]

  const Tlds: seq<string> := ["com", "cn", "net", "org", "cc", "tv", "info", "top", "xyz", "vip"]

  const WatermarkKeywords: seq<string> :=
    ["微信", "wechat", "WeChat", "抖音", "douyin", "tiktok", "TikTok", "快手", "kuaishou",
     "小红书", "xiaohongshu", "水印", "原创", "版权", "@", "#"]

  /** No watermark keyword is empty, so each str.replace removes something or nothing. */
  lemma KeywordsNonEmpty()
    ensures forall k :: 0 <= k < |WatermarkKeywords| ==> |WatermarkKeywords[k]| > 0
  {
  }

  /** The length of the longest prefix of s without whitespace (what \S+ and [^\s]* consume). */
  function NonSpaceRun(s: string): (n: nat)
    ensures n <= |s|
    ensures forall k :: 0 <= k < n ==> !IsSpace(s[k])
    ensures n < |s| ==> IsSpace(s[n])
  {
    if s == [] || IsSpace(s[0]) then 0 else 1 + NonSpaceRun(s[1..])
  }

  predicate IsLabelChar(c: char) {
    ('a' <= c <= 'z') || ('A' <= c <= 'Z') || ('0' <= c <= '9') || c == '-'
  }

  /** The length of the longest prefix of s in [a-zA-Z0-9-]. */
  function LabelRun(s: string): (n: nat)
    ensures n <= |s|
    ensures forall k :: 0 <= k < n ==> IsLabelChar(s[k])
    ensures n < |s| ==> !IsLabelChar(s[n])
  {
    if s == [] || !IsLabelChar(s[0]) then 0 else 1 + LabelRun(s[1..])
  }

  /** Case-insensitive (ASCII) prefix test against a lower-case word. */
  predicate StartsWithNoCase(s: string, w: string) {
    |w| <= |s| && Lower(s[..|w|]) == w
  }

  /** The first top-level domain of the alternation that s starts with, as the regex tries them in order. */
  function TldAt(s: string, k: nat): (r: nat)
    requires k <= |Tlds|
    ensures r > 0 ==> r <= |s|
    decreases |Tlds| - k
  {
    if k == |Tlds| then 0
    else if StartsWithNoCase(s, Tlds[k]) then |Tlds[k]|
    else TldAt(s, k + 1)
  }

  /** The length of the match of a pattern at the start of s; 0 when it does not match there (no pattern matches the empty string). */
  function MatchLen(p: UrlPattern, s: string): (n: nat)
    ensures n <= |s|
  {
    match p
    case HttpUrl => HttpLen(s)
    case WwwUrl => WwwLen(s)
    case DomainUrl => DomainLen(s)
  }

  /** https?://[^\s]+ at the start of s. */
  function HttpLen(s: string): (n: nat)
    ensures n <= |s|
  {
    var k := SchemeLen(s);
    if k > 0 && k + 3 <= |s| && s[k..k + 3] == "://" && NonSpaceRun(s[k + 3..]) > 0 then k + 3 + NonSpaceRun(s[k + 3..])
    else 0
  }

  /** The length of "http" or "https" at the start of s (the greedy s? takes the 's'), 0 when neither is there. */
  function SchemeLen(s: string): (k: nat)
    ensures k == 0 || k == 4 || k == 5
  {
    if StartsWithNoCase(s, "http") then (if |s| > 4 && LowerChar(s[4]) == 's' then 5 else 4) else 0
  }

  /** www\.[^\s]+ at the start of s. */
  function WwwLen(s: string): (n: nat)
    ensures n <= |s|
  {
    if StartsWithNoCase(s, "www.") && NonSpaceRun(s[4..]) > 0 then 4 + NonSpaceRun(s[4..]) else 0
  }

  /** [a-zA-Z0-9-]+\.(com|cn|...)[^\s]* at the start of s. */
  function DomainLen(s: string): (n: nat)
    ensures n <= |s|
  {
    var l := LabelRun(s);
    if l > 0 && l < |s| && s[l] == '.' && TldAt(s[l + 1..], 0) > 0 then
      var t := l + 1 + TldAt(s[l + 1..], 0);
      t + NonSpaceRun(s[t..])
    else 0
  }

  /** re.sub(pattern, '', s): delete each match, scanning left to right. */
  function SubAll(p: UrlPattern, s: string): (r: string)
    ensures |r| <= |s|
    ensures forall c :: c in r ==> c in s
    decreases |s|
  {
    if s == [] then []
    else
      var n := MatchLen(p, s);
      if n > 0 then SubAll(p, s[n..]) else [s[0]] + SubAll(p, s[1..])
  }

  /** The URL patterns applied in order. */
  function RemoveUrls(s: string, ps: seq<UrlPattern>): (r: string)
    ensures |r| <= |s|
    ensures forall c :: c in r ==> c in s
  {
    if ps == [] then s else SubAll(ps[|ps| - 1], RemoveUrls(s, ps[..|ps| - 1]))
  }

  /** The watermark keywords removed in order, each by str.replace(kw, ''). */
  function RemoveKeywords(s: string, kws: seq<string>): (r: string)
    requires forall k :: 0 <= k < |kws| ==> |kws[k]| > 0
    ensures |r| <= |s|
    ensures forall c :: c in r ==> c in s
  {
    if kws == [] then s else RemoveAll(RemoveKeywords(s, kws[..|kws| - 1]), kws[|kws| - 1])
  }

  // ---------------------------------------------------- whitespace, separators

  /** The length of the longest whitespace prefix of s. */
  function SpaceRun(s: string): (n: nat)
    ensures n <= |s|
    ensures s != [] && IsSpace(s[0]) ==> n > 0
  {
    if s == [] || !IsSpace(s[0]) then 0 else 1 + SpaceRun(s[1..])
  }

  /** re.sub(r'\s+', ' ', s): each whitespace run becomes one space. */
  function CollapseSpaces(s: string): (r: string)
    ensures |r| <= |s|
    ensures forall c :: c in r ==> c in s || c == ' '
    ensures forall c :: c in r && IsSpace(c) ==> c == ' '
    decreases |s|
  {
    if s == [] then []
    else if IsSpace(s[0]) then [' '] + CollapseSpaces(s[SpaceRun(s)..])
    else [s[0]] + CollapseSpaces(s[1..])
  }

  predicate IsSep(c: char) {
    c == '_' || c == '-' || c == '|'
  }

  /** The length of the longest prefix of s made of '_', '-' and '|'. */
  function SepRun(s: string): (n: nat)
    ensures n <= |s|
    ensures forall k :: 0 <= k < n ==> IsSep(s[k])
    ensures n < |s| ==> !IsSep(s[n])
  {
    if s == [] || !IsSep(s[0]) then 0 else 1 + SepRun(s[1..])
  }

  /** re.sub(r'[\_\-\|]{3,}', '', s): every maximal separator run of three or more goes. */
  function DropSepRuns(s: string): (r: string)
    ensures |r| <= |s|
    ensures forall c :: c in r ==> c in s
    decreases |s|
  {
    if s == [] then []
    else
      var n := SepRun(s);
      if n >= 3 then DropSepRuns(s[n..]) else [s[0]] + DropSepRuns(s[1..])
  }

  /** Three separator characters in a row at position i. */
  predicate SepTriple(s: string, i: int) {
    0 <= i && i + 2 < |s| && IsSep(s[i]) && IsSep(s[i + 1]) && IsSep(s[i + 2])
  }

  // ------------------------------------------------------------ the filter

  /** The whole filter: '' for falsy input, else URLs, keywords, whitespace, separators, strip. */
  function FilterSpec(text: string): (r: string)
    ensures forall c :: c in r ==> c in text || c == ' '
  {
    if text == [] then []
    else
      KeywordsNonEmpty();
      Strip(DropSepRuns(CollapseSpaces(RemoveKeywords(RemoveUrls(text, UrlPatterns), WatermarkKeywords))))
  }

  class TextFilter {
    const urlPatterns: seq<UrlPattern>
    const watermarkKeywords: seq<string>

    constructor ()
      ensures urlPatterns == UrlPatterns && watermarkKeywords == WatermarkKeywords
    {
      urlPatterns := UrlPatterns;
      watermarkKeywords := WatermarkKeywords;
    }

    /** `filter`: the text reassigned step by step, pattern by pattern and keyword by keyword. */
    method Filter(text: string) returns (r: string)
      requires urlPatterns == UrlPatterns && watermarkKeywords == WatermarkKeywords
      ensures r == FilterSpec(text)
    {
      if text == [] {
        return [];
      }
      var t := SubEach(text, urlPatterns);
      KeywordsNonEmpty();
      t := RemoveEach(t, watermarkKeywords);
      t := CollapseSpaces(t);
      t := DropSepRuns(t);
      r := Strip(t);
    }
  }

  /** The loop over the URL patterns: each re.sub applied in turn. */
  method SubEach(text: string, ps: seq<UrlPattern>) returns (t: string)
    ensures t == RemoveUrls(text, ps)
  {
    t := text;
    var i := 0;
    while i < |ps|
      invariant 0 <= i <= |ps|
      invariant t == RemoveUrls(text, ps[..i])
    {
      assert ps[..i + 1][..i] == ps[..i];
      t := SubAll(ps[i], t);
      i := i + 1;
    }
    assert ps[..i] == ps;
  }

  /** The loop over the watermark keywords: each str.replace(kw, '') in turn. */
  method RemoveEach(text: string, kws: seq<string>) returns (t: string)
    requires forall k :: 0 <= k < |kws| ==> |kws[k]| > 0
    ensures t == RemoveKeywords(text, kws)
  {
    t := text;
    var j := 0;
    while j < |kws|
      invariant 0 <= j <= |kws|
      invariant t == RemoveKeywords(text, kws[..j])
    {
      assert kws[..j + 1][..j] == kws[..j];
      t := RemoveAll(t, kws[j]);
      j := j + 1;
    }
    assert kws[..j] == kws;
  }

  // ------------------------------------------------------------ properties

  /** Falsy input gives ''. */
  lemma FilterEmpty()
    ensures FilterSpec("") == ""
  {
  }

  /** The filter never lengthens its input. */
  lemma FilterShortens(text: string)
    ensures |FilterSpec(text)| <= |text|
  {
  }

  /** The output has no whitespace at either end. */
  lemma FilterStripped(text: string)
    ensures var r := FilterSpec(text); r == [] || (!IsSpace(r[0]) && !IsSpace(r[|r| - 1]))
  {
  }

  /** The keyword pass leaves neither '@' nor '#', and the later passes add neither. */
  lemma FilterDropsAtAndHash(text: string)
    ensures '@' !in FilterSpec(text) && '#' !in FilterSpec(text)
  {
    if text != [] {
      var u := RemoveUrls(text, UrlPatterns);
      var kws := WatermarkKeywords;
      assert kws[..15][..14] == kws[..14];
      assert kws[..16][..15] == kws[..15];
      assert kws[..16] == kws;
      RemoveAllChar(RemoveKeywords(u, kws[..14]), '@');
      RemoveAllChar(RemoveKeywords(u, kws[..15]), '#');
    }
  }

  /** Every whitespace character left in the output is a plain space. */
  lemma FilterSpacesArePlain(text: string)
    ensures forall c :: c in FilterSpec(text) && IsSpace(c) ==> c == ' '
  {
  }

  lemma {:induction false} DropSepRunsNoTriple(s: string)
    ensures forall i :: !SepTriple(DropSepRuns(s), i)
    decreases |s|
  {
    if s != [] {
      var n := SepRun(s);
      if n >= 3 {
        DropSepRunsNoTriple(s[n..]);
        DropSepRunsHead(s[n..]);
      } else {
        DropSepRunsNoTriple(s[1..]);
        var rest := DropSepRuns(s[1..]);
        var r := [s[0]] + rest;
        if IsSep(s[0]) {
          DropSepRunsPrefix(s[1..], n - 1);
        }
        forall i ensures !SepTriple(r, i) {
          if i >= 1 {
            assert !SepTriple(rest, i - 1);
          }
        }
      }
    }
  }

  /** After a run is dropped the text resumes at a non-separator, so it cannot start a new run. */
  lemma DropSepRunsHead(s: string)
    requires s == [] || !IsSep(s[0])
    ensures DropSepRuns(s) == [] || !IsSep(DropSepRuns(s)[0])
  {
  }

  /** A short separator run at the start of s survives as is, followed by a non-separator. */
  lemma {:induction false} DropSepRunsPrefix(s: string, n: nat)
    requires n == SepRun(s) && n < 2
    ensures var r := DropSepRuns(s);
            |r| >= n && (forall k :: 0 <= k < n ==> r[k] == s[k]) && (|r| > n ==> !IsSep(r[n]))
  {
    if n == 1 {
      assert SepRun(s[1..]) == 0;
      DropSepRunsHead(s[1..]);
    } else {
      DropSepRunsHead(s);
    }
  }

  /** Strip returns a contiguous piece of its input. */
  lemma StripIsSlice(s: string)
    ensures exists a, b :: 0 <= a <= b <= |s| && Strip(s) == s[a..b]
  {
    var l := LStrip(s);
    var a := |s| - |l|;
    assert Strip(s) == s[a..a + |Strip(s)|];
  }

  /** Strip only cuts whitespace off the ends, so it cannot create a separator run. */
  lemma StripKeepsNoTriple(d: string)
    requires forall i :: !SepTriple(d, i)
    ensures forall i :: !SepTriple(Strip(d), i)
  {
    StripIsSlice(d);
    var a, b :| 0 <= a <= b <= |d| && Strip(d) == d[a..b];
    forall i ensures !SepTriple(Strip(d), i) {
      assert !SepTriple(d, a + i);
    }
  }

  /** No run of three or more of '_', '-', '|' survives the filter. */
  lemma FilterNoSeparatorRuns(text: string)
    ensures forall i :: !SepTriple(FilterSpec(text), i)
  {
    if text != [] {
      var c := CollapseSpaces(RemoveKeywords(RemoveUrls(text, UrlPatterns), WatermarkKeywords));
      DropSepRunsNoTriple(c);
      StripKeepsNoTriple(DropSepRuns(c));
    }
  }

  // ------------------------------------------------------ re.IGNORECASE

  /** Lower-casing commutes with dropping a prefix and with taking one. */
  lemma LowerSlice(s: string, i: nat)
    requires i <= |s|
    ensures Lower(s)[i..] == Lower(s[i..])
    ensures Lower(s)[..i] == Lower(s[..i])
  {
  }

  lemma {:induction false} NonSpaceRunIgnoresCase(s: string)
    ensures NonSpaceRun(Lower(s)) == NonSpaceRun(s)
    decreases |s|
  {
    if s != [] {
      LowerSlice(s, 1);
      NonSpaceRunIgnoresCase(s[1..]);
    }
  }

  lemma {:induction false} LabelRunIgnoresCase(s: string)
    ensures LabelRun(Lower(s)) == LabelRun(s)
    decreases |s|
  {
    if s != [] {
      LowerSlice(s, 1);
      LabelRunIgnoresCase(s[1..]);
    }
  }

  lemma StartsWithNoCaseIgnoresCase(s: string, w: string)
    ensures StartsWithNoCase(Lower(s), w) == StartsWithNoCase(s, w)
  {
    if |w| <= |s| {
      LowerSlice(s, |w|);
      LowerTwice(s[..|w|]);
    }
  }

  lemma {:induction false} TldAtIgnoresCase(s: string, k: nat)
    requires k <= |Tlds|
    ensures TldAt(Lower(s), k) == TldAt(s, k)
    decreases |Tlds| - k
  {
    if k < |Tlds| {
      StartsWithNoCaseIgnoresCase(s, Tlds[k]);
      TldAtIgnoresCase(s, k + 1);
    }
  }

  /** The patterns are compiled with re.IGNORECASE: a text and its lower-cased form match alike. */
  lemma MatchLenIgnoresCase(p: UrlPattern, s: string)
    ensures MatchLen(p, Lower(s)) == MatchLen(p, s)
  {
    match p
    case HttpUrl => HttpIgnoresCase(s);
    case WwwUrl => WwwIgnoresCase(s);
    case DomainUrl => DomainIgnoresCase(s);
  }

  lemma HttpIgnoresCase(s: string)
    ensures HttpLen(Lower(s)) == HttpLen(s)
  {
    SchemeIgnoresCase(s);
    var k := SchemeLen(s);
    if k > 0 && k + 3 <= |s| {
      LowerSlice(s, k + 3);
      NonSpaceRunIgnoresCase(s[k + 3..]);
      SeparatorIgnoresCase(s, k);
    }
  }

  lemma SchemeIgnoresCase(s: string)
    ensures SchemeLen(Lower(s)) == SchemeLen(s)
  {
    StartsWithNoCaseIgnoresCase(s, "http");
  }

  /** "://" holds no letter, so lower-casing cannot make or break it. */
  lemma SeparatorIgnoresCase(s: string, k: nat)
    requires k + 3 <= |s|
    ensures Lower(s)[k..k + 3] == "://" <==> s[k..k + 3] == "://"
  {
    var t := Lower(s);
    assert forall j :: k <= j < k + 3 ==> (t[j] == ':' <==> s[j] == ':') && (t[j] == '/' <==> s[j] == '/');
  }

  lemma WwwIgnoresCase(s: string)
    ensures WwwLen(Lower(s)) == WwwLen(s)
  {
    StartsWithNoCaseIgnoresCase(s, "www.");
    if |s| >= 4 {
      LowerSlice(s, 4);
      NonSpaceRunIgnoresCase(s[4..]);
    }
  }

  lemma DomainIgnoresCase(s: string)
    ensures DomainLen(Lower(s)) == DomainLen(s)
  {
    var t := Lower(s);
    LabelRunIgnoresCase(s);
    var l := LabelRun(s);
    if l > 0 && l < |s| {
      assert t[l] == '.' <==> s[l] == '.';
      LowerSlice(s, l + 1);
      TldAtIgnoresCase(s[l + 1..], 0);
      if s[l] == '.' && TldAt(s[l + 1..], 0) > 0 {
        var u := l + 1 + TldAt(s[l + 1..], 0);
        LowerSlice(s, u);
        NonSpaceRunIgnoresCase(s[u..]);
      }
    }
  }

  /** So re.sub removes the same stretches from a text and from its lower-cased form. */
  lemma {:induction false} SubAllIgnoresCase(p: UrlPattern, s: string)
    ensures SubAll(p, Lower(s)) == Lower(SubAll(p, s))
    decreases |s|
  {
    if s != [] {
      var n := MatchLen(p, s);
      LowerSubStep(p, s);
      SubLowerStep(p, s);
      if n > 0 {
        SubAllIgnoresCase(p, s[n..]);
      } else {
        SubAllIgnoresCase(p, s[1..]);
      }
    }
  }

  /** One step of re.sub on the lower-cased text, in terms of the original's match. */
  lemma LowerSubStep(p: UrlPattern, s: string)
    requires s != []
    ensures var n := MatchLen(p, s);
      SubAll(p, Lower(s)) == if n > 0 then SubAll(p, Lower(s[n..])) else [LowerChar(s[0])] + SubAll(p, Lower(s[1..]))
  {
    MatchLenIgnoresCase(p, s);
    LowerSlice(s, MatchLen(p, s));
    LowerSlice(s, 1);
  }

  /** One step of re.sub, lower-cased afterwards. */
  lemma SubLowerStep(p: UrlPattern, s: string)
    requires s != []
    ensures var n := MatchLen(p, s);
      Lower(SubAll(p, s)) == if n > 0 then Lower(SubAll(p, s[n..])) else [LowerChar(s[0])] + Lower(SubAll(p, s[1..]))
  {
    if MatchLen(p, s) == 0 {
      LowerCons(s[0], SubAll(p, s[1..]));
    }
  }

  lemma LowerCons(c: char, t: string)
    ensures Lower([c] + t) == [LowerChar(c)] + Lower(t)
  {
  }

  /** An http(s) URL goes with its trailing non-space text, whatever the case of the scheme. */
  lemma HttpUrlExample()
    ensures SubAll(HttpUrl, "HTTPS://x b") == " b"
  {
    var u := "HTTPS://x b";
    assert u[..4] == "HTTP" && Lower("HTTP") == "http";
    assert LowerChar(u[4]) == 's';
    assert u[5..8] == "://" && u[8..] == "x b";
    assert NonSpaceRun("x b") == 1;
    assert MatchLen(HttpUrl, u) == 9;
    assert "HTTPS://x b"[9..] == " b";
    assert MatchLen(HttpUrl, " b") == 0;
    assert MatchLen(HttpUrl, "b") == 0;
  }

  /** A domain with a listed top-level domain goes; the label must be directly before the dot. */
  lemma DomainUrlExample()
    ensures SubAll(DomainUrl, "a.COM b") == " b"
  {
    assert LabelRun("a.COM b") == 1;
    assert StartsWithNoCase("COM b", "com");
    assert TldAt("COM b", 0) == 3;
    assert MatchLen(DomainUrl, "a.COM b") == 5;
    assert "a.COM b"[5..] == " b";
    assert MatchLen(DomainUrl, " b") == 0;
    assert MatchLen(DomainUrl, "b") == 0;
  }
}
