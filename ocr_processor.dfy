/**
 * `OCRProcessor` (the PaddleOCR pipeline): one OCR call with its fallbacks
 * (`_ocr_single`, shared verbatim with the command-line tool's
 * `ocr_single`), the padded OCR that releases its temporary directory on
 * every exit (`_ocr_with_padding`), the joined text (`_extract_text`), the
 * Senta verdict with its keyword fallback, and `process_image`, which
 * turns any failure into the 未分类 defaults.
 *
 * The engine's answers are inputs: what `predict` returned or raised for
 * the path and for the one-element list, and what `ocr` returned or
 * raised; likewise Senta's answer for the filtered text.
 */
module OcrProcessor {
  import opened Wrappers
  import opened PyText
  import opened PyValue
  import opened ResultNormalizer
  import opened Geometry
  import opened TextFilter
  import opened EmotionAnalyzer

  /** What one call into the engine did. */
  datatype Call = Answered(v: Val) | Threw(e: PyError)

  /** The engine's behaviour for one image: predict(path), predict([path]) and ocr(path). */
  datatype EngineCalls = EngineCalls(byPath: Call, byList: Call, legacy: Call)

  /** {"image": path, "items": items} */
  datatype SingleResult = SingleResult(image: string, items: seq<Item>)

  // ----------------------------------------------------------- _ocr_single

  /**
   * The result of the predict step: a TypeError on the path form retries
   * with a one-element list and unwraps a one-element list or tuple
   * answer; any other exception, also from the retry, gives None.
   */
  function PredictResult(c: EngineCalls): (res: Val)
    ensures c.byPath.Answered? ==> res == c.byPath.v
    ensures c.byPath.Threw? && c.byPath.e != TypeError ==> res == VNone
  {
    match c.byPath
    case Answered(v) => v
    case Threw(e) =>
      if e != TypeError then VNone
      else
        match c.byList
        case Answered(tmp) => if IsSeq(tmp) && |tmp.elems| == 1 then tmp.elems[0] else tmp
        case Threw(_) => VNone
  }

  /** The raw result: predict's when truthy, else ocr's, None when ocr raises. */
  function RawResult(c: EngineCalls): (res: Val)
    ensures Truthy(PredictResult(c)) ==> res == PredictResult(c)
    ensures !Truthy(PredictResult(c)) && c.legacy.Answered? ==> res == c.legacy.v
  {
    var res := PredictResult(c);
    if Truthy(res) then res
    else
      match c.legacy
      case Answered(v) => v
      case Threw(_) => VNone
  }

  /**
   * `_ocr_single`: a falsy raw result gives no items; otherwise the items
   * are the normaliser's, whose error propagates.
   */
  function OcrSingle(image: string, c: EngineCalls): (r: Result<SingleResult, PyError>)
    ensures r.Ok? ==> r.value.image == image
    ensures !Truthy(RawResult(c)) ==> r == Ok(SingleResult(image, []))
    ensures Truthy(RawResult(c)) ==>
      (r.Ok? <==> Normalize(RawResult(c)).Ok?) &&
      (r.Ok? ==> r.value.items == Normalize(RawResult(c)).value)
  {
    var res := RawResult(c);
    if !Truthy(res) then Ok(SingleResult(image, []))
    else
      match Normalize(res)
      case Ok(items) => Ok(SingleResult(image, items))
      case Err(e) => Err(e)
  }

  /** When both predict and ocr raise or answer something falsy, the image has no items. */
  lemma NothingRecognised(image: string, c: EngineCalls)
    requires c.byPath.Threw? || !Truthy(c.byPath.v)
    requires c.byPath == Threw(TypeError) ==> c.byList.Threw? || !Truthy(PredictResult(c))
    requires c.legacy.Threw? || !Truthy(c.legacy.v)
    ensures OcrSingle(image, c) == Ok(SingleResult(image, []))
  {
  }

  /** A truthy answer from predict is used as is: ocr is not consulted. */
  lemma PredictWins(image: string, c: EngineCalls, d: Call)
    requires c.byPath.Answered? && Truthy(c.byPath.v)
    ensures OcrSingle(image, c) == OcrSingle(image, c.(legacy := d))
  {
  }

  // ------------------------------------------------------ _ocr_with_padding

  /**
   * `_ocr_with_padding` for an image of the given size (None: it cannot be
   * opened, which raises before any temporary directory exists): OCR on
   * the padded copy, items moved back onto the original.
   */
  function OcrWithPaddingSpec(size: Option<(nat, nat)>, ratio: real, c: EngineCalls): (r: Result<seq<Item>, PyError>)
    ensures size.None? ==> r.Err?
    ensures r.Ok? ==> OcrSingle("padded", c).Ok?
    ensures r.Ok? ==>
      var found := OcrSingle("padded", c).value.items;
      |r.value| == |found| && forall k :: 0 <= k < |found| ==> r.value[k].text == found[k].text && r.value[k].score == found[k].score
  {
    match size
    case None => Err(Raised("cannot open image"))
    case Some(wh) =>
      var p := PadPlan(wh.0, wh.1, ratio);
      match OcrSingle("padded", c)
      case Err(e) => Err(e)
      case Ok(s) =>
        var moved := ShiftItems(s.items, p.px, p.py, Some((wh.0, wh.1)));
        if moved.Ok? then
          ShiftKeepsDetections(s.items, p.px, p.py, Some((wh.0, wh.1)));
          moved
        else moved
  }

  // ---------------------------------------------------------- _extract_text

  /** The texts of the items whose text is truthy, in item order. */
  function Texts(items: seq<Item>): (ts: seq<string>)
    ensures |ts| <= |items|
    ensures forall k :: 0 <= k < |ts| ==> ts[k] != []
  {
    if items == [] then []
    else Texts(items[..|items| - 1]) + (if items[|items| - 1].text != [] then [items[|items| - 1].text] else [])
  }

  /** ' '.join(ts) */
  function JoinSpace(ts: seq<string>): (r: string)
    ensures ts == [] ==> r == []
  {
    if ts == [] then []
    else if |ts| == 1 then ts[0]
    else ts[0] + " " + JoinSpace(ts[1..])
  }

  /** `_extract_text`: the truthy texts joined by single spaces. */
  function ExtractText(items: seq<Item>): (r: string)
    ensures items == [] ==> r == []
  {
    JoinSpace(Texts(items))
  }

  /** The length of the longest prefix of s without a space. */
  function WordLen(s: string): (n: nat)
    ensures n <= |s|
    ensures forall k :: 0 <= k < n ==> s[k] != ' '
    ensures n < |s| ==> s[n] == ' '
  {
    if s == [] || s[0] == ' ' then 0 else 1 + WordLen(s[1..])
  }

  /** s.split(' ') without the empty pieces: the words of s. */
  function Words(s: string): (ws: seq<string>)
    decreases |s|
  {
    if s == [] then []
    else if s[0] == ' ' then Words(s[1..])
    else
      var n := WordLen(s);
      [s[..n]] + Words(s[n..])
  }

  lemma {:induction false} WordLenOfWord(x: string, rest: string)
    requires ' ' !in x
    requires rest == [] || rest[0] == ' '
    ensures WordLen(x + rest) == |x|
    decreases |x|
  {
    if x != [] {
      assert (x + rest)[1..] == x[1..] + rest;
      WordLenOfWord(x[1..], rest);
    }
  }

  /** Joining space-free words and splitting again gives the words back. */
  lemma {:induction false} WordsOfJoin(ts: seq<string>)
    requires forall k :: 0 <= k < |ts| ==> ts[k] != [] && ' ' !in ts[k]
    ensures Words(JoinSpace(ts)) == ts
  {
    if ts != [] {
      var x := ts[0];
      if |ts| == 1 {
        WordLenOfWord(x, []);
        assert x[..|x|] == x && x[|x|..] == [];
      } else {
        var rest := JoinSpace(ts[1..]);
        var s := x + " " + rest;
        WordLenOfWord(x, " " + rest);
        assert s == x + (" " + rest);
        assert s[..|x|] == x;
        assert s[|x|..] == " " + rest;
        assert (" " + rest)[1..] == rest;
        WordsOfJoin(ts[1..]);
        assert Words(s) == [x] + Words(" " + rest);
        assert ts == [x] + ts[1..];
      }
    }
  }

  /** When no OCR text holds a space, the extracted text splits back into exactly the truthy texts, in order. */
  lemma ExtractTextSplits(items: seq<Item>)
    requires forall k :: 0 <= k < |items| ==> ' ' !in items[k].text
    ensures Words(ExtractText(items)) == Texts(items)
  {
    TextsWithoutSpaces(items);
    WordsOfJoin(Texts(items));
  }

  /** The kept texts are item texts, so they hold a space only if some item text does. */
  lemma {:induction false} TextsWithoutSpaces(items: seq<Item>)
    requires forall k :: 0 <= k < |items| ==> ' ' !in items[k].text
    ensures forall k :: 0 <= k < |Texts(items)| ==> ' ' !in Texts(items)[k]
  {
    if items != [] {
      var init := items[..|items| - 1];
      var last := items[|items| - 1];
      TextsWithoutSpaces(init);
      assert Texts(items) == Texts(init) + (if last.text != [] then [last.text] else []);
    }
  }

  // ------------------------------------------------------------------ Senta

  const NeutralVerdict := Verdict(Neutral, 0.5, 0.5)

  /** min(0.99, max(0.5, score)) */
  function SentaStrength(score: real): (p: real)
    ensures 0.5 <= p <= 0.99
    ensures 0.5 <= score <= 0.99 ==> p == score
  {
    var m := if 0.5 < score then score else 0.5;
    if 0.99 < m then 0.99 else m
  }

  /** The label of the answer's item: the first element of a list, else the answer itself; None when it is not a dict with a str label. */
  function SentaLabel(res: Val): Option<string> {
    var item := if res.VList? && res.elems != [] then res.elems[0] else res;
    match item
    case VDict(es) =>
      var lbl := if HasKey(es, "label") then Get(es, "label") else VStr("");
      if lbl.VStr? then Some(Lower(lbl.s)) else None
    case _ => None
  }

  /**
   * `_senta_analyze` given Senta's answer for the text (Err: it raised,
   * and None comes back). A falsy answer or an item that is not a dict is
   * neutral; a label holding "pos" (or "1") is positive and one holding
   * "neg" (or "0") negative, with the score clamped into [0.5, 0.99].
   */
  function SentaVerdict(text: string, answer: Result<Val, PyError>): (r: Option<Verdict>)
    ensures Strip(text) == [] ==> r == Some(UnclassifiedVerdict)
    ensures Strip(text) != [] && answer.Err? ==> r.None?
    ensures Strip(text) != [] && r.Some? ==> r.value.emotion != Unclassified
    ensures r.Some? && r.value.emotion == Positive ==>
      answer.Ok? && SentaLabel(answer.value).Some? &&
      (Contains(SentaLabel(answer.value).value, "pos") || SentaLabel(answer.value).value == "1") &&
      0.5 - 0.00005 <= r.value.pos <= 0.99 + 0.00005
    ensures r.Some? && r.value.emotion == Negative ==>
      answer.Ok? && SentaLabel(answer.value).Some? &&
      (Contains(SentaLabel(answer.value).value, "neg") || SentaLabel(answer.value).value == "0") &&
      0.5 - 0.00005 <= r.value.neg <= 0.99 + 0.00005
  {
    if text == [] || |Strip(text)| == 0 then Some(UnclassifiedVerdict)
    else
      match answer
      case Err(_) => None
      case Ok(res) => AnswerVerdict(res)
  }

  /** What `_senta_analyze` makes of an answer Senta gave for a non-blank text. */
  function AnswerVerdict(res: Val): (r: Option<Verdict>)
    ensures r.Some? ==> r.value.emotion != Unclassified
    ensures r.Some? && r.value.emotion == Positive ==>
      SentaLabel(res).Some? && (Contains(SentaLabel(res).value, "pos") || SentaLabel(res).value == "1") &&
      0.5 - 0.00005 <= r.value.pos <= 0.99 + 0.00005
    ensures r.Some? && r.value.emotion == Negative ==>
      SentaLabel(res).Some? && (Contains(SentaLabel(res).value, "neg") || SentaLabel(res).value == "0") &&
      0.5 - 0.00005 <= r.value.neg <= 0.99 + 0.00005
  {
    if !Truthy(res) then Some(NeutralVerdict)
    else
      var item := if res.VList? then res.elems[0] else res;
      match item
      case VDict(es) =>
        var score := if HasKey(es, "score") then Get(es, "score") else VFloat(0.0);
        (match SentaLabel(res)
         case None => None
         case Some(l) =>
           (match ToFloat(score)
            case Err(_) => None
            case Ok(s) => Some(LabelVerdict(l, s))))
      case _ => Some(NeutralVerdict)
  }

  /** The verdict for a lower-cased label and its score. */
  function LabelVerdict(l: string, s: real): (v: Verdict)
    ensures v.emotion != Unclassified
    ensures v.emotion == Positive <==> Contains(l, "pos") || l == "1"
    ensures v.emotion == Negative ==> Contains(l, "neg") || l == "0"
    ensures v.emotion == Positive ==> 0.5 - 0.00005 <= v.pos <= 0.99 + 0.00005
    ensures v.emotion == Negative ==> 0.5 - 0.00005 <= v.neg <= 0.99 + 0.00005
  {
    if Contains(l, "pos") || l == "1" then
      var p := SentaStrength(s);
      Verdict(Positive, Round4(p), Round4(1.0 - p))
    else if Contains(l, "neg") || l == "0" then
      var n := SentaStrength(s);
      Verdict(Negative, Round4(1.0 - n), Round4(n))
    else NeutralVerdict
  }

  /** `analyze_emotion`: Senta's verdict when it is enabled and answers, else the keyword verdict. */
  function AnalyzeEmotion(useSenta: bool, text: string, answer: Result<Val, PyError>): (v: Verdict)
    ensures !useSenta ==> v == KeywordVerdict(PositiveKeywords, NegativeKeywords, text)
    ensures Strip(text) != [] && answer.Err? ==> v == KeywordVerdict(PositiveKeywords, NegativeKeywords, text)
    ensures useSenta && SentaVerdict(text, answer).Some? ==> v == SentaVerdict(text, answer).value
    ensures useSenta && Strip(text) == [] ==> v == UnclassifiedVerdict
  {
    if useSenta then
      match SentaVerdict(text, answer)
      case Some(v) => v
      case None => KeywordVerdict(PositiveKeywords, NegativeKeywords, text)
    else KeywordVerdict(PositiveKeywords, NegativeKeywords, text)
  }

  // ---------------------------------------------------------- process_image

  /** The dict `process_image` returns. */
  datatype Processed = Processed(ocrText: string, filteredText: string, emotion: Emotion, pos: real, neg: real)

  const FailedImage := Processed([], [], Unclassified, 0.0, 0.0)

  /** The pipeline on recognised items: extract, filter, analyse. */
  function ProcessItems(items: seq<Item>, useSenta: bool, sentaAnswer: Result<Val, PyError>): (r: Processed)
    ensures r.ocrText == ExtractText(items) && r.filteredText == FilterSpec(r.ocrText)
    ensures |r.filteredText| <= |r.ocrText|
  {
    var t := ExtractText(items);
    FilterShortens(t);
    var f := FilterSpec(t);
    var v := AnalyzeEmotion(useSenta, f, sentaAnswer);
    Processed(t, f, v.emotion, v.pos, v.neg)
  }

  function ProcessImageSpec(useSenta: bool, size: Option<(nat, nat)>, ratio: real, c: EngineCalls,
                            sentaAnswer: Result<Val, PyError>): (r: Processed)
    ensures r.filteredText == FilterSpec(r.ocrText) && |r.filteredText| <= |r.ocrText|
  {
    match OcrWithPaddingSpec(size, ratio, c)
    case Err(_) => FailedImage
    case Ok(items) => ProcessItems(items, useSenta, sentaAnswer)
  }

  /** `process_image` never raises: a failing OCR step gives the 未分类 defaults, and nothing is classified without text. */
  lemma ProcessImageDowngrades(useSenta: bool, size: Option<(nat, nat)>, ratio: real, c: EngineCalls,
                               sentaAnswer: Result<Val, PyError>)
    ensures OcrWithPaddingSpec(size, ratio, c).Err? ==> ProcessImageSpec(useSenta, size, ratio, c, sentaAnswer) == FailedImage
    ensures size.None? ==> ProcessImageSpec(useSenta, size, ratio, c, sentaAnswer) == FailedImage
    ensures size.Some? && !Truthy(RawResult(c)) ==>
      ProcessImageSpec(useSenta, size, ratio, c, sentaAnswer).ocrText == [] &&
      ProcessImageSpec(useSenta, size, ratio, c, sentaAnswer).emotion == Unclassified
  {
    if size.Some? && !Truthy(RawResult(c)) {
      var p := PadPlan(size.value.0, size.value.1, ratio);
      assert ShiftItems([], p.px, p.py, Some((size.value.0, size.value.1))) == Ok([]);
      assert FilterSpec([]) == [];
      assert Strip([]) == [];
    }
  }

  class OCRProcessor {
    var useSenta: bool

    /** `_init_senta`: Senta is used only when asked for and its Taskflow loads. */
    constructor (wantSenta: bool, sentaLoads: bool)
      ensures useSenta == (wantSenta && sentaLoads)
    {
      useSenta := wantSenta && sentaLoads;
    }

    /** `_ocr_with_padding`: the temporary directory, when one was made, is released on every exit path. */
    method OcrWithPadding(tmp: TempSpace, size: Option<(nat, nat)>, ratio: real, c: EngineCalls)
      returns (r: Result<seq<Item>, PyError>)
      modifies tmp
      ensures tmp.live == old(tmp.live)
      ensures r == OcrWithPaddingSpec(size, ratio, c)
    {
      if size.None? {
        return Err(Raised("cannot open image"));
      }
      var (w, h) := size.value;
      var p := PadPlan(w, h, ratio);
      if p.padded {
        tmp.Acquire();
      }
      var single := OcrSingle("padded", c);
      if single.Err? {
        r := Err(single.error);
      } else {
        r := ShiftItemsToOriginal(single.value.items, p.px, p.py, Some((w, h)));
      }
      if p.padded {
        tmp.Cleanup();
      }
    }

    /** `process_image`: OCR, extract, filter, analyse; any failure gives the defaults. */
    method ProcessImage(tmp: TempSpace, size: Option<(nat, nat)>, ratio: real, c: EngineCalls,
                        sentaAnswer: Result<Val, PyError>) returns (r: Processed)
      modifies tmp
      ensures tmp.live == old(tmp.live)
      ensures r == ProcessImageSpec(useSenta, size, ratio, c, sentaAnswer)
    {
      var items := OcrWithPadding(tmp, size, ratio, c);
      if items.Err? {
        return FailedImage;
      }
      r := ProcessItems(items.value, useSenta, sentaAnswer);
    }
  }
}
