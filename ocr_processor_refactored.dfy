/**
 * The RapidOCR pipeline (`OCRProcessor` in the refactored module): the
 * constructor resolves the GPU choice and wraps an engine failure, and
 * `process_image` counts its calls, runs garbage collection every tenth
 * call and a memory check every fifth, and turns any failure into the
 * 未分类 defaults. Garbage collection and the memory check are counted,
 * not performed.
 */
module OcrProcessorRefactored {
  import opened Wrappers
  import opened PyValue
  import opened ResultNormalizer
  import opened Geometry
  import opened GpuDetector
  import OcrEngine
  import TextFilter
  import EmotionAnalyzer
  import OcrProcessor

  const GcInterval: nat := 10
  const MemoryCheckInterval: nat := 5

  /** The models folder under the project root, used when no directory is given. */
  const DefaultModelDir := "models"

  /** `use_gpu=None` is settled by `should_use_gpu()`; an explicit choice stands. */
  function ResolveGpu(useGpu: Option<bool>, env: Option<string>, sig: GpuSignals): (r: bool)
    ensures useGpu.Some? ==> r == useGpu.value
    ensures useGpu.None? && EnvOn(env) ==> r
    ensures useGpu.None? && EnvOff(env) ==> !r
    ensures useGpu.None? && !EnvOn(env) && !EnvOff(env) ==> r == DetectGpu(env, sig).hasGpu
  {
    match useGpu
    case Some(b) => b
    case None => ShouldUseGpu(env, sig)
  }

  /** The constructor re-raises an engine failure as "OCR 引擎初始化失败: <cause>". */
  datatype CreateError = EngineInitFailed(cause: OcrEngine.InitError)

  /** What the engine's padded recognition and the later steps make of one image. */
  function ProcessSpec(analyzer: EmotionAnalyzer.EmotionAnalyzer, size: Option<(nat, nat)>, ratio: real,
                       answer: Result<Val, PyError>, modelAnswer: Option<real>): (r: OcrProcessor.Processed)
    reads analyzer
    ensures size.None? ==> r == OcrProcessor.FailedImage
    ensures r != OcrProcessor.FailedImage ==> r.filteredText == TextFilter.FilterSpec(r.ocrText)
  {
    match size
    case None => OcrProcessor.FailedImage
    case Some(wh) =>
      match OcrEngine.RecognizeWithPaddingSpec(wh.0, wh.1, ratio, answer)
      case Err(_) => OcrProcessor.FailedImage
      case Ok(items) => Describe(analyzer, items, modelAnswer)
  }

  /** Steps 2 to 4 of `process_image`: the text of the detections, filtered, then classified. */
  function Describe(analyzer: EmotionAnalyzer.EmotionAnalyzer, items: seq<Item>, modelAnswer: Option<real>): (r: OcrProcessor.Processed)
    reads analyzer
    ensures r.ocrText == OcrProcessor.ExtractText(items) && r.filteredText == TextFilter.FilterSpec(r.ocrText)
  {
    var t := OcrProcessor.ExtractText(items);
    var f := TextFilter.FilterSpec(t);
    var v := analyzer.Analyze(f, modelAnswer);
    OcrProcessor.Processed(t, f, v.emotion, v.pos, v.neg)
  }

  class Processor {
    var processCount: nat
    var gcRuns: nat
    var memoryChecks: nat
    const modelDir: string
    const engine: OcrEngine.OCREngine
    const textFilter: TextFilter.TextFilter
    const analyzer: EmotionAnalyzer.EmotionAnalyzer

    /** The counters agree with the call count, and the filter holds its fixed lists. */
    predicate Valid()
      reads this
    {
      && gcRuns == processCount / GcInterval
      && memoryChecks == processCount / MemoryCheckInterval
      && textFilter.urlPatterns == TextFilter.UrlPatterns
      && textFilter.watermarkKeywords == TextFilter.WatermarkKeywords
    }

    constructor (modelDir: string, engine: OcrEngine.OCREngine, textFilter: TextFilter.TextFilter,
                 analyzer: EmotionAnalyzer.EmotionAnalyzer)
      requires textFilter.urlPatterns == TextFilter.UrlPatterns
      requires textFilter.watermarkKeywords == TextFilter.WatermarkKeywords
      ensures Valid() && processCount == 0
      ensures this.modelDir == modelDir && this.engine == engine && this.analyzer == analyzer
    {
      processCount := 0;
      gcRuns := 0;
      memoryChecks := 0;
      this.modelDir := modelDir;
      this.engine := engine;
      this.textFilter := textFilter;
      this.analyzer := analyzer;
    }

    /**
     * `process_image`: the call is counted first, inside the try, so a
     * failing image counts too; garbage collection runs when the count
     * is a multiple of 10 and a memory check when it is a multiple of 5.
     * An image that cannot be opened, or any failure on the way, gives
     * the defaults; the temporary copy is always released.
     */
    method ProcessImage(tmp: TempSpace, size: Option<(nat, nat)>, ratio: real,
                        answer: Result<Val, PyError>, modelAnswer: Option<real>)
      returns (r: OcrProcessor.Processed)
      requires Valid()
      modifies this, tmp
      ensures Valid()
      ensures processCount == old(processCount) + 1
      ensures gcRuns == old(gcRuns) + (if processCount % GcInterval == 0 then 1 else 0)
      ensures memoryChecks == old(memoryChecks) + (if processCount % MemoryCheckInterval == 0 then 1 else 0)
      ensures tmp.live == old(tmp.live)
      ensures r == ProcessSpec(analyzer, size, ratio, answer, modelAnswer)
    {
      processCount := processCount + 1;
      if processCount % GcInterval == 0 {
        gcRuns := gcRuns + 1;
      }
      if processCount % MemoryCheckInterval == 0 {
        memoryChecks := memoryChecks + 1;
      }
      if size.None? {
        return OcrProcessor.FailedImage;
      }
      var (w, h) := size.value;
      var items := engine.RecognizeWithPadding(tmp, w, h, ratio, answer);
      if items.Err? {
        return OcrProcessor.FailedImage;
      }
      r := DescribeItems(items.value, modelAnswer);
    }

    /** Steps 2 to 4, run: extract, filter with this processor's filter, classify. */
    method DescribeItems(items: seq<Item>, modelAnswer: Option<real>) returns (r: OcrProcessor.Processed)
      requires Valid()
      ensures r == Describe(analyzer, items, modelAnswer)
    {
      var ocrText := OcrProcessor.ExtractText(items);
      var filtered := textFilter.Filter(ocrText);
      var v := analyzer.Analyze(filtered, modelAnswer);
      r := OcrProcessor.Processed(ocrText, filtered, v.emotion, v.pos, v.neg);
    }
  }

  /**
   * The constructor: the model directory defaults to the project's models
   * folder, the GPU choice is resolved, and an engine that fails to
   * initialise is reported wrapped; otherwise the processor starts with
   * no image counted.
   */
  method Create(useGpu: Option<bool>, env: Option<string>, sig: GpuSignals, modelDir: Option<string>,
                files: set<string>, probe: OcrEngine.Probe, first: OcrEngine.Build, retry: OcrEngine.Build,
                wantSenta: bool, snowNlpLoads: bool, textBlobLoads: bool)
    returns (r: Result<Processor, CreateError>)
    ensures var dir := if modelDir.Some? then modelDir.value else DefaultModelDir;
            var o := OcrEngine.InitSpec(ResolveGpu(useGpu, env, sig), Some(dir), files, probe, first, retry);
            && (o.result.Err? <==> r.Err?)
            && (r.Err? ==> r.error == EngineInitFailed(o.result.error))
            && (r.Ok? ==> fresh(r.value) && r.value.Valid() && r.value.processCount == 0 &&
                          r.value.modelDir == dir && r.value.engine.useGpu == o.useGpu)
  {
    var dir := if modelDir.Some? then modelDir.value else DefaultModelDir;
    var gpu := ResolveGpu(useGpu, env, sig);
    var o := OcrEngine.InitSpec(gpu, Some(dir), files, probe, first, retry);
    if o.result.Err? {
      return Err(EngineInitFailed(o.result.error));
    }
    var engine := new OcrEngine.OCREngine(gpu, Some(dir), files, probe, first, retry);
    var textFilter := new TextFilter.TextFilter();
    var analyzer := new EmotionAnalyzer.EmotionAnalyzer(wantSenta, snowNlpLoads, textBlobLoads);
    var p := new Processor(dir, engine, textFilter, analyzer);
    return Ok(p);
  }

  /**
   * The two cadences interlock: a call collects garbage exactly when it
   * also checks memory and that check is an even-numbered one.
   */
  lemma GcOnEverySecondCheck(n: nat)
    ensures n % GcInterval == 0 <==> n % MemoryCheckInterval == 0 && (n / MemoryCheckInterval) % 2 == 0
  {
    var q, r := n / 10, n % 10;
    assert n == 10 * q + r && 0 <= r < 10;
    var q5, r5 := r / 5, r % 5;
    assert r == 5 * q5 + r5 && 0 <= q5 < 2;
    assert n / 5 == 2 * q + q5 && n % 5 == r5;
  }

  /** So a processor in any reachable state has collected garbage once for every two memory checks. */
  lemma GcRunsHalfChecks(p: Processor)
    requires p.Valid()
    ensures p.gcRuns == p.memoryChecks / 2
  {
    var n := p.processCount;
    var q, r := n / 10, n % 10;
    assert n == 10 * q + r && 0 <= r < 10;
    var q5, r5 := r / 5, r % 5;
    assert r == 5 * q5 + r5 && 0 <= q5 < 2;
    assert n / 5 == 2 * q + q5;
    assert (2 * q + q5) / 2 == q;
  }
}
