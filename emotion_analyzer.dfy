/**
 * `EmotionAnalyzer`: labels a text 正向 (positive), 负向 (negative),
 * 中性 (neutral) or 未分类 (unclassified) with a positive and a negative
 * score. A sentiment library (SnowNLP, else TextBlob) is used when one
 * loaded; its score for the text is an input here, None standing for a
 * library call that raised. Otherwise, or when the library fails, a
 * keyword count decides. Scores are exact reals.
 */
module EmotionAnalyzer {
  import opened Wrappers
  import opened PyText

  datatype Emotion = Positive | Negative | Neutral | Unclassified

  /** (emotion, pos_score, neg_score) */
  datatype Verdict = Verdict(emotion: Emotion, pos: real, neg: real)

  const UnclassifiedVerdict := Verdict(Unclassified, 0.0, 0.0)

  /** The sentiment library that loaded. */
  datatype Engine = SnowNLP | TextBlob

  const PositiveKeywords: seq<string> :=
    ["开心", "快乐", "高兴", "喜欢", "爱", "好", "棒", "赞", "哈哈", "笑",
     "牛", "强", "优秀", "完美", "美好", "幸福", "温暖", "可爱"]

  const NegativeKeywords: seq<string> :=
    ["难过", "伤心", "生气", "讨厌", "恨", "差", "烂", "哭", "呜呜",
     "痛", "累", "烦", "糟", "坏", "丑", "悲伤", "失望"]

  // ------------------------------------------------------------ keywords

  /** sum(1 for kw in kws if kw in t) */
  function CountPresent(kws: seq<string>, t: string): (n: nat)
    ensures n <= |kws|
  {
    if kws == [] then 0
    else CountPresent(kws[..|kws| - 1], t) + (if Contains(t, kws[|kws| - 1]) then 1 else 0)
  }

  /** The positions of the lexicon entries that occur in t. */
  function PresentEntries(kws: seq<string>, t: string): set<nat> {
    set k: nat | k < |kws| && Contains(t, kws[k])
  }

  /** The count is the number of lexicon entries that occur, however often each occurs. */
  lemma {:induction false} CountIsEntriesPresent(kws: seq<string>, t: string)
    ensures CountPresent(kws, t) == |PresentEntries(kws, t)|
  {
    if kws != [] {
      var n := |kws| - 1;
      var init := kws[..n];
      CountIsEntriesPresent(init, t);
      var extra: set<nat> := if Contains(t, kws[n]) then {n} else {};
      assert PresentEntries(kws, t) == PresentEntries(init, t) + extra by {
        forall k: nat | k < n ensures init[k] == kws[k] { }
      }
      assert n !in PresentEntries(init, t);
    }
  }

  /** min(0.9, 0.5 + count * 0.1) */
  function Strength(count: nat): (p: real)
    ensures 0.5 <= p <= 0.9
    ensures count >= 1 ==> 0.6 <= p
    ensures count <= 4 ==> p == 0.5 + count as real * 0.1
  {
    var x := 0.5 + count as real * 0.1;
    if 0.9 <= x then 0.9 else x
  }

  /**
   * `_analyze_with_keywords`: too short once stripped gives 未分类; more
   * positive than negative entries gives 正向, the converse 负向, a tie
   * (also 0-0) 中性. The two scores of a classified text add up to one.
   */
  function KeywordVerdict(pos: seq<string>, neg: seq<string>, text: string): (v: Verdict)
    ensures |Strip(text)| < 2 ==> v == UnclassifiedVerdict
    ensures |Strip(text)| >= 2 ==>
      var pc := CountPresent(pos, Lower(text));
      var nc := CountPresent(neg, Lower(text));
      (v.emotion == Positive <==> pc > nc) && (v.emotion == Negative <==> nc > pc) &&
      (v.emotion == Neutral <==> pc == nc) && v.pos + v.neg == 1.0
    ensures v.emotion == Positive ==> 0.6 <= v.pos <= 0.9 && v.neg < v.pos
    ensures v.emotion == Negative ==> 0.6 <= v.neg <= 0.9 && v.pos < v.neg
    ensures v.emotion == Neutral ==> v.pos == 0.5 && v.neg == 0.5
  {
    if text == [] || |Strip(text)| < 2 then UnclassifiedVerdict
    else
      var lowered := Lower(text);
      var pc := CountPresent(pos, lowered);
      var nc := CountPresent(neg, lowered);
      if pc > nc && pc > 0 then
        Verdict(Positive, Strength(pc), 1.0 - Strength(pc))
      else if nc > pc && nc > 0 then
        Verdict(Negative, 1.0 - Strength(nc), Strength(nc))
      else Verdict(Neutral, 0.5, 0.5)
  }

  /** Repeating a positive word does not raise its weight: "哈哈哈哈" counts one entry. */
  lemma RepeatedWordCountsOnce()
    ensures CountPresent(PositiveKeywords, "哈哈哈哈") == 1
  {
    var t := "哈哈哈哈";
    assert Contains(t, "哈哈") by { assert StartsWith(t, "哈哈"); }
    var ps := PositiveKeywords;
    forall k | 0 <= k < |ps| && k != 8 ensures !Contains(t, ps[k]) {
      NotContainsOther(t, ps[k]);
    }
    assert PresentEntries(ps, t) == {8};
    CountIsEntriesPresent(ps, t);
  }

  /** A word whose first character never occurs in t does not occur in t. */
  lemma {:induction false} NotContainsOther(t: string, w: string)
    requires |w| > 0 && forall j :: 0 <= j < |t| ==> t[j] != w[0]
    ensures !Contains(t, w)
    decreases |t|
  {
    if |t| > 0 {
      assert |w| <= |t| ==> t[..|w|][0] != w[0];
      NotContainsOther(t[1..], w);
    }
  }

  // ------------------------------------------------------- library scores

  /** round(x, 4) on an exact real, ties to even. */
  function Round4(x: real): (r: real)
    ensures x - 0.00005 <= r <= x + 0.00005
  {
    RoundHalfEven(x * 10000.0) as real / 10000.0
  }

  /**
   * `_analyze_with_model` for the library that loaded, given what the
   * library answers for this text (None: it raised, and None comes back).
   * SnowNLP's score s in [0, 1] gives 正向 above 0.6 and 负向 below 0.4;
   * TextBlob's polarity p in [-1, 1] is mapped to (p + 1) / 2, with 正向
   * above 0.2 and 负向 below -0.2. Blank text is 未分类 before the library
   * is consulted.
   */
  function ModelVerdict(engine: Engine, text: string, answer: Option<real>): (r: Option<Verdict>)
    ensures Strip(text) == [] ==> r == Some(UnclassifiedVerdict)
    ensures Strip(text) != [] ==> (r.None? <==> answer.None?)
    ensures Strip(text) != [] && r.Some? ==>
      var v := r.value;
      var x := answer.value;
      var norm := if engine == SnowNLP then x else (x + 1.0) / 2.0;
      var hi := if engine == SnowNLP then 0.6 else 0.2;
      var lo := if engine == SnowNLP then 0.4 else -0.2;
      (v.emotion == Positive <==> x > hi) && (v.emotion == Negative <==> x < lo) &&
      (v.emotion == Neutral <==> lo <= x <= hi) &&
      norm - 0.00005 <= v.pos <= norm + 0.00005 &&
      1.0 - norm - 0.00005 <= v.neg <= 1.0 - norm + 0.00005
  {
    if text == [] || |Strip(text)| == 0 then Some(UnclassifiedVerdict)
    else
      match answer
      case None => None
      case Some(x) =>
        match engine
        case SnowNLP =>
          var emotion := if x > 0.6 then Positive else if x < 0.4 then Negative else Neutral;
          Some(Verdict(emotion, Round4(x), Round4(1.0 - x)))
        case TextBlob =>
          var normalized := (x + 1.0) / 2.0;
          var emotion := if x > 0.2 then Positive else if x < -0.2 then Negative else Neutral;
          Some(Verdict(emotion, Round4(normalized), Round4(1.0 - normalized)))
  }

  // ------------------------------------------------------------ analyzer

  class EmotionAnalyzer {
    var senta: Option<Engine>
    var useSenta: bool
    const positiveKeywords: seq<string>
    const negativeKeywords: seq<string>

    /**
     * With `use_senta` the libraries are tried in order, SnowNLP first;
     * `snowNlpLoads` and `textBlobLoads` say whether each one imports and
     * answers its test sentence.
     */
    constructor (wantSenta: bool, snowNlpLoads: bool, textBlobLoads: bool)
      ensures positiveKeywords == PositiveKeywords && negativeKeywords == NegativeKeywords
      ensures senta == (if !wantSenta then None
                        else if snowNlpLoads then Some(SnowNLP)
                        else if textBlobLoads then Some(TextBlob)
                        else None)
      ensures useSenta <==> senta.Some?
    {
      positiveKeywords := PositiveKeywords;
      negativeKeywords := NegativeKeywords;
      senta := None;
      useSenta := false;
      new;
      if wantSenta {
        InitSenta(snowNlpLoads, textBlobLoads);
      }
    }

    /** `_init_senta`: the first library that loads is kept; if none does, the keyword method stays. */
    method InitSenta(snowNlpLoads: bool, textBlobLoads: bool)
      modifies this
      ensures senta == (if snowNlpLoads then Some(SnowNLP)
                        else if textBlobLoads then Some(TextBlob)
                        else None)
      ensures useSenta <==> senta.Some?
    {
      var ok := TryInit(SnowNLP, snowNlpLoads);
      if ok {
        return;
      }
      ok := TryInit(TextBlob, textBlobLoads);
      if ok {
        return;
      }
      senta := None;
      useSenta := false;
    }

    /** `_try_init_snownlp` / `_try_init_textblob`: on success the library is selected; on failure nothing changes. */
    method TryInit(engine: Engine, loads: bool) returns (ok: bool)
      modifies this
      ensures ok == loads
      ensures ok ==> senta == Some(engine) && useSenta
      ensures !ok ==> senta == old(senta) && useSenta == old(useSenta)
    {
      if loads {
        senta := Some(engine);
        useSenta := true;
        return true;
      }
      return false;
    }

    /**
     * `analyze`: the library's verdict when a library is selected and it
     * answered; the keyword verdict otherwise.
     */
    function Analyze(text: string, answer: Option<real>): (v: Verdict)
      reads this
      ensures !useSenta || senta.None? ==> v == KeywordVerdict(positiveKeywords, negativeKeywords, text)
      ensures answer.None? && Strip(text) != [] ==> v == KeywordVerdict(positiveKeywords, negativeKeywords, text)
      ensures useSenta && senta.Some? && Strip(text) == [] ==> v == UnclassifiedVerdict
      ensures useSenta && senta.Some? && ModelVerdict(senta.value, text, answer).Some? ==>
        v == ModelVerdict(senta.value, text, answer).value
      ensures useSenta && senta.Some? && answer.Some? ==> v == ModelVerdict(senta.value, text, answer).value
    {
      if useSenta && senta.Some? then
        match ModelVerdict(senta.value, text, answer)
        case Some(r) => r
        case None => KeywordVerdict(positiveKeywords, negativeKeywords, text)
      else KeywordVerdict(positiveKeywords, negativeKeywords, text)
    }
  }

  /** Whichever path answers, a blank or one-character text is never given a positive or negative label. */
  lemma ShortTextNeverPolar(a: EmotionAnalyzer, text: string, answer: Option<real>)
    requires |Strip(text)| < 2
    ensures a.Analyze(text, answer).emotion != Positive || (a.useSenta && a.senta.Some? && answer.Some?)
    ensures Strip(text) == [] ==> a.Analyze(text, answer) == UnclassifiedVerdict
  {
  }
}
