/**
 * The command-line tool `ocr_cli.py`: the pad colour option
 * (`_parse_color`) and the main loop over the images, which pads each
 * image, runs `ocr_single` (the same fallbacks and normaliser as the
 * processor), moves the items back and keeps going when one image fails.
 * Padding and remapping are the shared arithmetic of the Geometry
 * module.
 */
module OcrCli {
  import opened Wrappers
  import opened PyText
  import opened PyValue
  import opened ResultNormalizer
  import opened Geometry
  import opened OcrProcessor

  // ----------------------------------------------------------- _parse_color

  datatype Rgb = Rgb(r: int, g: int, b: int)

  const Black := Rgb(0, 0, 0)

  /** [int(x, base) for x in parts], stopping at the first failure. */
  function IntsOf(parts: seq<string>, base: nat): (r: Option<seq<int>>)
    requires base == 10 || base == 16
    ensures r.Some? ==> |r.value| == |parts|
  {
    if parts == [] then Some([])
    else
      var head := ParseInt(parts[0], base);
      var tail := IntsOf(parts[1..], base);
      if head.Some? && tail.Some? then Some([head.value] + tail.value) else None
  }

  /** (s or "").strip() */
  function ColorText(s: Option<string>): string {
    Strip(if s.Some? then s.value else [])
  }

  /** The digit groups of a '#' form: "#rgb" doubles each digit, "#rrggbb" has three pairs. */
  function HexGroups(t: string): (g: (string, string, string))
    requires |t| == 4 || |t| == 7
    ensures |g.0| == 2 && |g.1| == 2 && |g.2| == 2
  {
    if |t| == 4 then ([t[1], t[1]], [t[2], t[2]], [t[3], t[3]]) else (t[1..3], t[3..5], t[5..7])
  }

  /** int(x, 16) for each group; the first that does not parse raises ValueError. */
  function HexColor(rs: string, gs: string, bs: string): (r: Result<Rgb, PyError>)
    ensures r.Err? ==> r.error == ValueError
  {
    var r, g, b := ParseInt(rs, 16), ParseInt(gs, 16), ParseInt(bs, 16);
    if r.Some? && g.Some? && b.Some? then Ok(Rgb(r.value, g.value, b.value)) else Err(ValueError)
  }

  /** The comma form: exactly three ints, taken as they are; anything else is black. */
  function CommaColor(t: string): Rgb {
    match IntsOf(Split(t, ','), 10)
    case Some(vs) => if |vs| == 3 then Rgb(vs[0], vs[1], vs[2]) else Black
    case None => Black
  }

  /**
   * `_parse_color`: after stripping, a '#' form of length 4 or 7 is read
   * as hex and may raise; a string with a comma goes to the comma form;
   * anything else is black.
   */
  function ParseColor(s: Option<string>): (r: Result<Rgb, PyError>)
    ensures r.Err? ==> r.error == ValueError
    ensures r.Err? ==> (|ColorText(s)| == 4 || |ColorText(s)| == 7) && ColorText(s)[0] == '#'
  {
    var t := ColorText(s);
    if StartsWith(t, "#") && (|t| == 4 || |t| == 7) then
      var (rs, gs, bs) := HexGroups(t);
      HexColor(rs, gs, bs)
    else if ',' in t then Ok(CommaColor(t))
    else Ok(Black)
  }

  predicate IsHex(c: char) {
    IsDigitIn(c, 16)
  }

  /** The value of a hex digit (0 for any other character). */
  function Hex(c: char): nat {
    match DigitValue(c, 16)
    case Some(v) => v
    case None => 0
  }

  /** A hex digit is not whitespace. */
  lemma HexNotSpace(c: char)
    requires IsHex(c)
    ensures !IsSpace(c)
  {
  }

  /** A '#' form ending in a hex digit has nothing to strip and is read by the hex rule. */
  lemma HexFormIsHexColor(t: string)
    requires (|t| == 4 || |t| == 7) && t[0] == '#' && IsHex(t[|t| - 1])
    ensures ParseColor(Some(t)) == HexColor(HexGroups(t).0, HexGroups(t).1, HexGroups(t).2)
  {
    HexNotSpace(t[|t| - 1]);
    StripNothing(t);
    assert ColorText(Some(t)) == t;
    assert StartsWith(t, "#");
  }

  /** "#rgb" doubles each digit: "#abc" is (0xaa, 0xbb, 0xcc). */
  lemma ShortHexDoubles(t: string)
    requires |t| == 4 && t[0] == '#' && IsHex(t[1]) && IsHex(t[2]) && IsHex(t[3])
    ensures ParseColor(Some(t)) == Ok(Rgb(17 * Hex(t[1]), 17 * Hex(t[2]), 17 * Hex(t[3])))
  {
    HexFormIsHexColor(t);
    HexPairsColor(t[1], t[1], t[2], t[2], t[3], t[3]);
  }

  /** "#rrggbb" reads three hex pairs, each a byte. */
  lemma LongHexPairs(t: string)
    requires |t| == 7 && t[0] == '#' && forall k :: 1 <= k < 7 ==> IsHex(t[k])
    ensures ParseColor(Some(t)) == Ok(Rgb(16 * Hex(t[1]) + Hex(t[2]), 16 * Hex(t[3]) + Hex(t[4]), 16 * Hex(t[5]) + Hex(t[6])))
    ensures 16 * Hex(t[1]) + Hex(t[2]) <= 255 && 16 * Hex(t[3]) + Hex(t[4]) <= 255 && 16 * Hex(t[5]) + Hex(t[6]) <= 255
  {
    HexFormIsHexColor(t);
    LongHexGroups(t);
  }

  lemma LongHexGroups(t: string)
    requires |t| == 7 && forall k :: 1 <= k < 7 ==> IsHex(t[k])
    ensures var (rs, gs, bs) := HexGroups(t);
      HexColor(rs, gs, bs) == Ok(Rgb(16 * Hex(t[1]) + Hex(t[2]), 16 * Hex(t[3]) + Hex(t[4]), 16 * Hex(t[5]) + Hex(t[6])))
    ensures 16 * Hex(t[1]) + Hex(t[2]) <= 255 && 16 * Hex(t[3]) + Hex(t[4]) <= 255 && 16 * Hex(t[5]) + Hex(t[6]) <= 255
  {
    assert t[1..3] == [t[1], t[2]] && t[3..5] == [t[3], t[4]] && t[5..7] == [t[5], t[6]];
    HexPairsColor(t[1], t[2], t[3], t[4], t[5], t[6]);
  }

  /** Three pairs of hex digits read as three bytes. */
  lemma HexPairsColor(r1: char, r2: char, g1: char, g2: char, b1: char, b2: char)
    requires IsHex(r1) && IsHex(r2) && IsHex(g1) && IsHex(g2) && IsHex(b1) && IsHex(b2)
    ensures HexColor([r1, r2], [g1, g2], [b1, b2]) == Ok(Rgb(16 * Hex(r1) + Hex(r2), 16 * Hex(g1) + Hex(g2), 16 * Hex(b1) + Hex(b2)))
    ensures 0 <= 16 * Hex(r1) + Hex(r2) <= 255 && 0 <= 16 * Hex(g1) + Hex(g2) <= 255 && 0 <= 16 * Hex(b1) + Hex(b2) <= 255
  {
    HexPairByte(r1, r2);
    HexPairByte(g1, g2);
    HexPairByte(b1, b2);
  }

  /** A short '#' form with a non-hex digit raises instead of falling back to black. */
  lemma BadShortHexRaises()
    ensures ParseColor(Some("#ggg")) == Err(ValueError)
  {
    var t := "#ggg";
    assert ColorText(Some(t)) == t by {
      assert forall k :: 0 <= k < |t| ==> !IsSpace(t[k]);
    }
    assert StartsWith(t, "#");
    assert ParseInt("gg", 16).None? by {
      assert Strip("gg") == "gg";
      assert !ValidDigitRun("gg", 16);
    }
  }

  /** Three comma-separated ints give that colour unchecked, even outside 0..255. */
  lemma CommaTriple(r: int, g: int, b: int)
    ensures ParseColor(Some(IntToString(r) + "," + IntToString(g) + "," + IntToString(b))) == Ok(Rgb(r, g, b))
  {
    var ir, ig, ib := IntToString(r), IntToString(g), IntToString(b);
    var t := ir + "," + ig + "," + ib;
    TripleText(r, g, b);
    IntToStringRoundTrip(r);
    IntToStringRoundTrip(g);
    IntToStringRoundTrip(b);
    IntsOfThree(ir, ig, ib, 10);
    CommaColorOf(t, [r, g, b]);
  }

  /** The three numerals joined by commas need no stripping, do not open with '#', and split back into the numerals. */
  lemma TripleText(r: int, g: int, b: int)
    ensures var t := IntToString(r) + "," + IntToString(g) + "," + IntToString(b);
      && Strip(t) == t && t != [] && t[0] != '#' && ',' in t
      && Split(t, ',') == [IntToString(r), IntToString(g), IntToString(b)]
  {
    var ir, ig, ib := IntToString(r), IntToString(g), IntToString(b);
    var parts := [ir, ig, ib];
    var t := ir + "," + ig + "," + ib;
    NumeralsHaveNoComma(r);
    NumeralsHaveNoComma(g);
    NumeralsHaveNoComma(b);
    assert JoinOn(parts, ',') == t by {
      assert [ig, ib][1..] == [ib];
      assert JoinOn([ig, ib], ',') == ig + [','] + ib;
      assert parts[1..] == [ig, ib];
      assert t == ir + [','] + (ig + [','] + ib);
    }
    SplitJoinOn(parts, ',');
    NumeralChars(t, r, g, b);
    NumeralStrip(t);
    assert t[|ir|] == ',';
  }

  /** A comma text whose split parses as exactly three ints is that colour. */
  lemma CommaColorOf(t: string, vs: seq<int>)
    requires Strip(t) == t && t != [] && t[0] != '#' && ',' in t
    requires IntsOf(Split(t, ','), 10) == Some(vs) && |vs| == 3
    ensures ParseColor(Some(t)) == Ok(Rgb(vs[0], vs[1], vs[2]))
  {
    CommaFormIsCommaColor(t);
  }

  /** A text with nothing to strip, not opening with '#', and holding a comma is read by the comma rule. */
  lemma CommaFormIsCommaColor(t: string)
    requires Strip(t) == t && t != [] && t[0] != '#' && ',' in t
    ensures ParseColor(Some(t)) == Ok(CommaColor(t))
  {
    assert ColorText(Some(t)) == t;
    assert !StartsWith(t, "#");
  }

  /** [int(a, base), int(b, base), int(c, base)], when all three parse. */
  lemma IntsOfThree(a: string, b: string, c: string, base: nat)
    requires base == 10 || base == 16
    requires ParseInt(a, base).Some? && ParseInt(b, base).Some? && ParseInt(c, base).Some?
    ensures IntsOf([a, b, c], base) == Some([ParseInt(a, base).value, ParseInt(b, base).value, ParseInt(c, base).value])
  {
    var va, vb, vc := ParseInt(a, base).value, ParseInt(b, base).value, ParseInt(c, base).value;
    IntsOfCons(c, [], base);
    assert [c] + [] == [c] && [vc] + [] == [vc];
    IntsOfCons(b, [c], base);
    assert [b] + [c] == [b, c] && [vb] + [vc] == [vb, vc];
    IntsOfCons(a, [b, c], base);
    assert [a] + [b, c] == [a, b, c] && [va] + [vb, vc] == [va, vb, vc];
  }

  lemma IntsOfCons(x: string, rest: seq<string>, base: nat)
    requires base == 10 || base == 16
    requires ParseInt(x, base).Some? && IntsOf(rest, base).Some?
    ensures IntsOf([x] + rest, base) == Some([ParseInt(x, base).value] + IntsOf(rest, base).value)
  {
    assert ([x] + rest)[1..] == rest;
    assert ([x] + rest)[0] == x;
  }

  lemma NumeralsHaveNoComma(i: int)
    ensures ',' !in IntToString(i) && '#' !in IntToString(i)
    ensures forall k :: 0 <= k < |IntToString(i)| ==> '0' <= IntToString(i)[k] <= '9' || IntToString(i)[k] == '-'
  {
    var n: nat := if i < 0 then -i else i;
    NatToStringDigits(n);
    if i < 0 {
      assert IntToString(i) == "-" + NatToString(n);
    }
  }

  lemma NumeralChars(t: string, r: int, g: int, b: int)
    requires t == IntToString(r) + "," + IntToString(g) + "," + IntToString(b)
    ensures forall k :: 0 <= k < |t| ==> '0' <= t[k] <= '9' || t[k] == '-' || t[k] == ','
  {
    NumeralsHaveNoComma(r);
    NumeralsHaveNoComma(g);
    NumeralsHaveNoComma(b);
  }

  /** A comma string that does not split into exactly three ints gives black. */
  lemma CommaOtherwiseBlack(t: string)
    requires !StartsWith(Strip(t), "#") && ',' in Strip(t)
    requires IntsOf(Split(Strip(t), ','), 10).None? || |Split(Strip(t), ',')| != 3
    ensures ColorText(Some(t)) == Strip(t)
    ensures ParseColor(Some(t)) == Ok(Black)
  {
  }

  /** No option, the empty string and blanks give black. */
  lemma MissingColorBlack(s: Option<string>)
    requires s.None? || Strip(s.value) == []
    ensures ParseColor(s) == Ok(Black)
  {
    var t := ColorText(s);
    assert t == [];
    assert !StartsWith(t, "#") && ',' !in t;
  }

  // ------------------------------------------------------------ main loop

  /** One input image: its path, its size (None: it cannot be opened) and how the engine behaves on it. */
  datatype CliImage = CliImage(path: string, size: Option<(nat, nat)>, calls: EngineCalls)

  /** How a run ends: no images (exit status 1), aborted by an exception outside the per-image try, or the collected results. */
  datatype CliOutcome = NoImages | Aborted(error: PyError) | Done(results: seq<SingleResult>)

  /** The body of the per-image try: OCR on the padded copy, items moved back, the original path reported. */
  function OcrOne(img: CliImage, ratio: real): (r: Result<SingleResult, PyError>)
    requires img.size.Some?
    ensures r.Ok? ==> r.value.image == img.path
  {
    var (w, h) := img.size.value;
    var p := PadPlan(w, h, ratio);
    match OcrSingle("padded", img.calls)
    case Err(e) => Err(e)
    case Ok(s) =>
      match ShiftItems(s.items, p.px, p.py, Some((w, h)))
      case Err(e) => Err(e)
      case Ok(items) => Ok(SingleResult(img.path, items))
  }

  /**
   * The loop over a prefix of the images. `pad` is what `_parse_color`
   * makes of the option; the loop parses it afresh for every image, with
   * the same outcome each time. Parsing the colour and making the padded
   * copy sit before the try, so their errors end the run; an error inside
   * the try drops that image only.
   */
  function RunImages(imgs: seq<CliImage>, ratio: real, pad: Result<Rgb, PyError>): (r: Result<seq<SingleResult>, PyError>)
    ensures r.Ok? ==> |r.value| <= |imgs|
  {
    if imgs == [] then Ok([])
    else
      match RunImages(imgs[..|imgs| - 1], ratio, pad)
      case Err(e) => Err(e)
      case Ok(done) =>
        var img := imgs[|imgs| - 1];
        if pad.Err? then Err(pad.error)
        else if img.size.None? then Err(Raised("cannot open image"))
        else
          match OcrOne(img, ratio)
          case Ok(one) => Ok(done + [one])
          case Err(_) => Ok(done)
  }

  /** `main` from the collected image list: none is exit status 1, and a positive limit keeps that many. */
  function RunCliSpec(imgs: seq<CliImage>, limit: int, ratio: real, color: Option<string>): (r: CliOutcome)
    ensures r.NoImages? <==> imgs == []
    ensures r.Done? ==> |r.results| <= |imgs| && (limit > 0 ==> |r.results| <= limit)
  {
    if imgs == [] then NoImages
    else
      var kept := if limit > 0 && limit < |imgs| then imgs[..limit] else imgs;
      match RunImages(kept, ratio, ParseColor(color))
      case Err(e) => Aborted(e)
      case Ok(rs) => Done(rs)
  }

  /** The paths of the images whose OCR succeeds, in order. */
  function KeptPaths(imgs: seq<CliImage>, ratio: real): seq<string> {
    if imgs == [] then []
    else
      var img := imgs[|imgs| - 1];
      KeptPaths(imgs[..|imgs| - 1], ratio) + (if img.size.Some? && OcrOne(img, ratio).Ok? then [img.path] else [])
  }

  function ResultPaths(rs: seq<SingleResult>): (ps: seq<string>)
    ensures |ps| == |rs| && forall k :: 0 <= k < |rs| ==> ps[k] == rs[k].image
  {
    seq(|rs|, k requires 0 <= k < |rs| => rs[k].image)
  }

  /** A finished run reports exactly the images whose OCR succeeded, in input order, under their original paths. */
  lemma {:induction false} ResultsFollowImages(imgs: seq<CliImage>, ratio: real, pad: Result<Rgb, PyError>)
    requires RunImages(imgs, ratio, pad).Ok?
    ensures ResultPaths(RunImages(imgs, ratio, pad).value) == KeptPaths(imgs, ratio)
  {
    if imgs != [] {
      var init := imgs[..|imgs| - 1];
      ResultsFollowImages(init, ratio, pad);
    }
  }

  /** An image whose OCR fails is skipped and the loop goes on with the next one. */
  lemma FailedImageSkipped(imgs: seq<CliImage>, img: CliImage, ratio: real, pad: Result<Rgb, PyError>)
    requires RunImages(imgs, ratio, pad).Ok? && pad.Ok?
    requires img.size.Some? && OcrOne(img, ratio).Err?
    ensures RunImages(imgs + [img], ratio, pad) == RunImages(imgs, ratio, pad)
  {
    assert (imgs + [img])[..|imgs|] == imgs;
  }

  /** A bad '#' colour ends the run at its first image, before any OCR. */
  lemma BadColorAborts(imgs: seq<CliImage>, limit: int, ratio: real, color: Option<string>)
    requires imgs != [] && ParseColor(color).Err?
    ensures RunCliSpec(imgs, limit, ratio, color) == Aborted(ValueError)
  {
    var kept := if limit > 0 && limit < |imgs| then imgs[..limit] else imgs;
    BadColorFails(kept, ratio, ParseColor(color));
  }

  lemma {:induction false} BadColorFails(imgs: seq<CliImage>, ratio: real, pad: Result<Rgb, PyError>)
    requires imgs != [] && pad.Err?
    ensures RunImages(imgs, ratio, pad) == Err(pad.error)
  {
    if |imgs| > 1 {
      BadColorFails(imgs[..|imgs| - 1], ratio, pad);
    }
  }

  /**
   * `main` from the collected images. The colour option is parsed again
   * for every image; parsing is pure, so it is done here once and handed
   * to the loop, which fails at its first image when the parse fails.
   */
  method RunCli(imgs: seq<CliImage>, limit: int, ratio: real, color: Option<string>, tmp: TempSpace)
    returns (r: CliOutcome)
    modifies tmp
    ensures tmp.live == old(tmp.live)
    ensures r == RunCliSpec(imgs, limit, ratio, color)
  {
    if imgs == [] {
      return NoImages;
    }
    var kept := if limit > 0 && limit < |imgs| then imgs[..limit] else imgs;
    var done := RunLoop(kept, ratio, ParseColor(color), tmp);
    r := if done.Err? then Aborted(done.error) else Done(done.value);
  }

  /**
   * `main`'s loop, image by image. Each padded copy is released in the
   * finally clause; an image that cannot be opened raises before its
   * copy exists, so nothing is left behind either way.
   */
  method RunLoop(kept: seq<CliImage>, ratio: real, pad: Result<Rgb, PyError>, tmp: TempSpace)
    returns (r: Result<seq<SingleResult>, PyError>)
    modifies tmp
    ensures tmp.live == old(tmp.live)
    ensures r == RunImages(kept, ratio, pad)
  {
    var all: seq<SingleResult> := [];
    var i := 0;
    while i < |kept|
      invariant 0 <= i <= |kept|
      invariant tmp.live == old(tmp.live)
      invariant RunImages(kept[..i], ratio, pad) == Ok(all)
    {
      var img := kept[i];
      if pad.Err? {
        BadColorFails(kept, ratio, pad);
        return Err(pad.error);
      }
      if img.size.None? {
        UnopenedAborts(kept, i, ratio, pad);
        return Err(Raised("cannot open image"));
      }
      var one := OcrImage(img, ratio, tmp);
      RunImagesStep(kept, i, ratio, pad);
      if one.Ok? {
        all := all + [one.value];
      }
      i := i + 1;
    }
    assert kept[..i] == kept;
    return Ok(all);
  }

  /** An image that cannot be opened ends the run with that error. */
  lemma UnopenedAborts(imgs: seq<CliImage>, i: nat, ratio: real, pad: Result<Rgb, PyError>)
    requires i < |imgs| && RunImages(imgs[..i], ratio, pad).Ok? && pad.Ok? && imgs[i].size.None?
    ensures RunImages(imgs, ratio, pad) == Err(Raised("cannot open image"))
  {
    assert imgs[..i + 1][..i] == imgs[..i];
    AbortSticks(imgs, i + 1, ratio, pad);
  }

  /** One more image that opens, with a colour that parses: its result is appended when its OCR succeeds. */
  lemma RunImagesStep(imgs: seq<CliImage>, i: nat, ratio: real, pad: Result<Rgb, PyError>)
    requires i < |imgs| && RunImages(imgs[..i], ratio, pad).Ok? && pad.Ok? && imgs[i].size.Some?
    ensures RunImages(imgs[..i + 1], ratio, pad) ==
      match OcrOne(imgs[i], ratio)
      case Ok(one) => Ok(RunImages(imgs[..i], ratio, pad).value + [one])
      case Err(_) => RunImages(imgs[..i], ratio, pad)
  {
    assert imgs[..i + 1][..i] == imgs[..i];
  }

  /** The per-image try with its finally clause: the padded copy is released whether OCR succeeds or raises. */
  method OcrImage(img: CliImage, ratio: real, tmp: TempSpace) returns (r: Result<SingleResult, PyError>)
    requires img.size.Some?
    modifies tmp
    ensures tmp.live == old(tmp.live)
    ensures r == OcrOne(img, ratio)
  {
    var (w, h) := img.size.value;
    var p := PadPlan(w, h, ratio);
    if p.padded {
      tmp.Acquire();
    }
    var single := OcrSingle("padded", img.calls);
    if single.Err? {
      r := Err(single.error);
    } else {
      var shifted := ShiftItemsToOriginal(single.value.items, p.px, p.py, Some((w, h)));
      r := if shifted.Ok? then Ok(SingleResult(img.path, shifted.value)) else Err(shifted.error);
    }
    if p.padded {
      tmp.Cleanup();
    }
  }

  /** Once a prefix of the run has failed, the whole run has. */
  lemma {:induction false} AbortSticks(imgs: seq<CliImage>, n: nat, ratio: real, pad: Result<Rgb, PyError>)
    requires n <= |imgs| && RunImages(imgs[..n], ratio, pad).Err?
    ensures RunImages(imgs, ratio, pad) == RunImages(imgs[..n], ratio, pad)
    decreases |imgs| - n
  {
    if n < |imgs| {
      assert imgs[..n + 1][..n] == imgs[..n];
      AbortSticks(imgs, n + 1, ratio, pad);
    } else {
      assert imgs[..n] == imgs;
    }
  }
}
