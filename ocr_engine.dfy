/**
 * The RapidOCR wrapper (`OCREngine`): model-file lookup, the GPU-to-CPU
 * fallback performed while constructing the engine, the device report,
 * the conversion of RapidOCR's answer into detections, and recognition on
 * a padded copy. The file system, the onnxruntime provider query and the
 * RapidOCR constructor and call are not modelled; their answers are
 * parameters.
 */
module OcrEngine {
  import opened Wrappers
  import opened PyValue
  import opened ResultNormalizer
  import opened Geometry

  // ------------------------------------------------------- model paths

  const DetModel := "ch_PP-OCRv4_det_infer.onnx"
  const RecModel := "ch_PP-OCRv4_rec_infer.onnx"
  const ClsModelV20 := "ch_ppocr_mobile_v2.0_cls_infer.onnx"
  const ClsModelOld := "ch_ppocr_mobile_v2_cls_infer.onnx"

  function Join(dir: string, name: string): string {
    dir + "/" + name
  }

  /** The three model files. */
  datatype ModelPaths = ModelPaths(det: string, rec: string, cls: string)

  /** Why construction failed. */
  datatype InitError =
    | NoModelDir                                 // ValueError: no model directory
    | ModelsMissing(paths: seq<string>)          // FileNotFoundError, listing the missing files
    | BuildFailed(msg: string)                   // the construction error, re-raised
    | GpuAndCpuFailed(gpuMsg: string, cpuMsg: string)  // both attempts failed

  /**
   * `_get_model_paths`: no directory is a ValueError; the classifier is
   * the v2.0 file if present, else the older name if present, else the
   * v2.0 name.
   */
  function GetModelPaths(modelDir: Option<string>, files: set<string>): (r: Result<ModelPaths, InitError>)
    ensures modelDir.None? <==> r == Err(NoModelDir)
    ensures r.Ok? ==> r.value.det == Join(modelDir.value, DetModel) && r.value.rec == Join(modelDir.value, RecModel)
    ensures r.Ok? ==> (r.value.cls == Join(modelDir.value, ClsModelOld)
                       <==> Join(modelDir.value, ClsModelV20) !in files && Join(modelDir.value, ClsModelOld) in files)
    ensures r.Ok? ==> r.value.cls in {Join(modelDir.value, ClsModelV20), Join(modelDir.value, ClsModelOld)}
  {
    match modelDir
    case None => Err(NoModelDir)
    case Some(dir) =>
      var v2 := Join(dir, ClsModelV20);
      var older := Join(dir, ClsModelOld);
      assert v2 != older by { assert v2[|dir| + 24] != older[|dir| + 24]; }
      var cls := if v2 in files then v2 else if older in files then older else v2;
      Ok(ModelPaths(Join(dir, DetModel), Join(dir, RecModel), cls))
  }

  /**
   * The paths of the model files that do not exist, in det, rec, cls
   * order; the FileNotFoundError message shows each one's base name.
   */
  function MissingModels(p: ModelPaths, files: set<string>): (r: seq<string>)
    ensures r == [] <==> p.det in files && p.rec in files && p.cls in files
    ensures |r| <= 3
  {
    (if p.det in files then [] else [p.det])
    + (if p.rec in files then [] else [p.rec])
    + (if p.cls in files then [] else [p.cls])
  }

  // ------------------------------------------------- device selection

  /** The keyword arguments handed to RapidOCR(...): the three CUDA switches (the paths are fixed). */
  datatype Kwargs = Kwargs(detCuda: bool, clsCuda: bool, recCuda: bool)

  function AllCuda(on: bool): Kwargs {
    Kwargs(on, on, on)
  }

  /** The onnxruntime provider query: the list it returns, or it raised. */
  datatype Probe = ProbeRaised | Providers(names: seq<string>)

  /** One call of RapidOCR(**kwargs): an engine, None, or an exception. */
  datatype Build = Built(engine: nat) | BuiltNone | BuildRaised(msg: string)

  /** The message of a failed construction; a None engine raises "RapidOCR 初始化返回 None". */
  function BuildError(b: Build): string {
    match b
    case BuildRaised(m) => m
    case _ => "RapidOCR 初始化返回 None"
  }

  /** Everything `_initialize_ocr` decides: the outcome, the constructor calls made, and the final fields. */
  datatype InitOutcome = InitOutcome(result: Result<nat, InitError>, calls: seq<Kwargs>, useGpu: bool)

  /**
   * The GPU flag in force for the first construction: a GPU request is
   * dropped only when the provider list comes back without
   * CUDAExecutionProvider; a probe that raises leaves it on.
   */
  function GpuAfterProbe(useGpu: bool, probe: Probe): bool {
    useGpu && !(probe.Providers? && "CUDAExecutionProvider" !in probe.names)
  }

  /**
   * `_initialize_ocr` as a function of its inputs: the directory, the
   * files that exist, the probe, and the answers of the first and (if
   * made) the second constructor call.
   */
  function InitSpec(useGpu: bool, modelDir: Option<string>, files: set<string>, probe: Probe, first: Build, retry: Build): (o: InitOutcome)
    ensures |o.calls| <= 2
    ensures o.result.Ok? ==> o.calls != []
    ensures o.useGpu ==> useGpu
  {
    match GetModelPaths(modelDir, files)
    case Err(e) => InitOutcome(Err(e), [], useGpu)
    case Ok(paths) =>
      if MissingModels(paths, files) != [] then InitOutcome(Err(ModelsMissing(MissingModels(paths, files))), [], useGpu)
      else
        var gpu := GpuAfterProbe(useGpu, probe);
        if first.Built? then InitOutcome(Ok(first.engine), [AllCuda(gpu)], gpu)
        else if useGpu && gpu then
          if retry.Built? then InitOutcome(Ok(retry.engine), [AllCuda(true), AllCuda(false)], false)
          else InitOutcome(Err(GpuAndCpuFailed(BuildError(first), BuildError(retry))), [AllCuda(true), AllCuda(false)], false)
        else InitOutcome(Err(BuildFailed(BuildError(first))), [AllCuda(gpu)], gpu)
  }

  /** A missing model file stops initialisation before any construction. */
  lemma MissingModelsBuildNothing(useGpu: bool, dir: string, files: set<string>, probe: Probe, first: Build, retry: Build)
    requires MissingModels(GetModelPaths(Some(dir), files).value, files) != []
    ensures var o := InitSpec(useGpu, Some(dir), files, probe, first, retry);
            o.result.Err? && o.result.error.ModelsMissing? && o.calls == []
  {
  }

  /**
   * A GPU request meeting a provider list without CUDA is switched to
   * CPU before the first construction; a probe that raises leaves GPU on.
   */
  lemma ProbeDowngrade(dir: string, files: set<string>, probe: Probe, first: Build, retry: Build)
    requires GetModelPaths(Some(dir), files).Ok? && MissingModels(GetModelPaths(Some(dir), files).value, files) == []
    ensures var o := InitSpec(true, Some(dir), files, probe, first, retry);
            && (probe.Providers? && "CUDAExecutionProvider" !in probe.names ==> o.calls[0] == AllCuda(false) && !o.useGpu)
            && (probe.ProbeRaised? ==> o.calls[0] == AllCuda(true))
  {
  }

  /**
   * A failure while GPU is still selected is retried exactly once with
   * every CUDA switch off; the engine then runs on CPU, or both errors are
   * reported together.
   */
  lemma GpuFailureRetriesOnCpu(dir: string, files: set<string>, probe: Probe, first: Build, retry: Build)
    requires GetModelPaths(Some(dir), files).Ok? && MissingModels(GetModelPaths(Some(dir), files).value, files) == []
    requires GpuAfterProbe(true, probe) && !first.Built?
    ensures var o := InitSpec(true, Some(dir), files, probe, first, retry);
            && o.calls == [AllCuda(true), AllCuda(false)]
            && !o.useGpu
            && (retry.Built? ==> o.result == Ok(retry.engine))
            && (!retry.Built? ==> o.result == Err(GpuAndCpuFailed(BuildError(first), BuildError(retry))))
  {
  }

  /** A failure with GPU never selected, or dropped by the probe, is re-raised after one call. */
  lemma CpuFailureIsFinal(useGpu: bool, dir: string, files: set<string>, probe: Probe, first: Build, retry: Build)
    requires GetModelPaths(Some(dir), files).Ok? && MissingModels(GetModelPaths(Some(dir), files).value, files) == []
    requires !GpuAfterProbe(useGpu, probe) && !first.Built?
    ensures var o := InitSpec(useGpu, Some(dir), files, probe, first, retry);
            o.result == Err(BuildFailed(BuildError(first))) && |o.calls| == 1 && !o.calls[0].detCuda
  {
  }

  /**
   * The engine ends on GPU only when GPU was asked for, the probe did not
   * rule it out and the first construction succeeded; every constructor
   * call's CUDA switches agree with each other.
   */
  lemma GpuOnlyWhenFirstBuildSucceeds(useGpu: bool, modelDir: Option<string>, files: set<string>, probe: Probe, first: Build, retry: Build)
    ensures var o := InitSpec(useGpu, modelDir, files, probe, first, retry);
            && (o.result.Ok? && o.useGpu ==> useGpu && GpuAfterProbe(useGpu, probe) && first.Built?)
            && |o.calls| <= 2
            && (forall k :: 0 <= k < |o.calls| ==> o.calls[k].detCuda == o.calls[k].clsCuda == o.calls[k].recCuda)
            && (|o.calls| == 2 ==> o.calls[1] == AllCuda(false))
  {
  }

  /** `_get_actual_device`: the session's providers when they can be read, else the configured flag. */
  function ActualDevice(useGpu: bool, providers: Option<seq<string>>): (r: string)
    ensures providers.Some? && "CUDAExecutionProvider" in providers.value ==> r == "GPU (CUDA)"
    ensures providers.Some? && "CUDAExecutionProvider" !in providers.value && "DmlExecutionProvider" in providers.value
            ==> r == "GPU (DirectML)"
    ensures providers.Some? && "CUDAExecutionProvider" !in providers.value && "DmlExecutionProvider" !in providers.value
            ==> r == "CPU"
    ensures providers.None? ==> r == (if useGpu then "GPU" else "CPU")
  {
    match providers
    case Some(ps) =>
      if "CUDAExecutionProvider" in ps then "GPU (CUDA)"
      else if "DmlExecutionProvider" in ps then "GPU (DirectML)"
      else "CPU"
    case None => if useGpu then "GPU" else "CPU"
  }

  // -------------------------------------------------------- recognize

  /**
   * Unpacks a 2-tuple (result_list, elapse). Formatting a non-list elapse
   * with ".2f" raises for anything but a number (ValueError for a str,
   * TypeError otherwise).
   */
  function ResultList(result: Val): Result<Val, PyError> {
    if result.VTuple? && |result.elems| == 2 then
      var elapse := result.elems[1];
      if IsSeq(elapse) || IsNum(elapse) then Ok(result.elems[0])
      else if elapse.VStr? then Err(ValueError)
      else Err(TypeError)
    else Ok(result)
  }

  /** One RapidOCR entry [box, text, score?]: fewer than two fields are skipped; a missing score is 1.0. */
  function Convert(item: Val): Result<Option<Item>, PyError> {
    match Len(item)
    case Err(e) => Err(e)
    case Ok(n) =>
      if n < 2 then Ok(None)
      else
        match Index(item, 0)
        case Err(e) => Err(e)
        case Ok(box) =>
          match Index(item, 1)
          case Err(e) => Err(e)
          case Ok(text) =>
            match (if n > 2 then Index(item, 2) else Ok(VFloat(1.0)))
            case Err(e) => Err(e)
            case Ok(score) =>
              match ToFloat(score)
              case Err(e) => Err(e)
              case Ok(f) => Ok(Some(Item(box, StrOf(text), f)))
  }

  function ConvertAll(xs: seq<Val>): (r: Result<seq<Item>, PyError>)
    ensures r.Ok? ==> |r.value| <= |xs|
  {
    if xs == [] then Ok([])
    else
      match ConvertAll(xs[..|xs| - 1])
      case Err(e) => Err(e)
      case Ok(items) =>
        match Convert(xs[|xs| - 1])
        case Err(e) => Err(e)
        case Ok(o) => Ok(items + OptSeq(o))
  }

  /** `recognize`: the detections of RapidOCR's answer; None, a falsy list or any exception gives none. */
  function RecognizeSpec(answer: Result<Val, PyError>): (r: seq<Item>)
    ensures r != [] ==> answer.Ok? && answer.value != VNone
  {
    match answer
    case Err(_) => []
    case Ok(result) =>
      if result == VNone then []
      else
        match ResultList(result)
        case Err(_) => []
        case Ok(rl) =>
          if !Truthy(rl) then []
          else
            match ListOf(rl)
            case Err(_) => []
            case Ok(xs) =>
              match ConvertAll(xs)
              case Err(_) => []
              case Ok(items) => items
  }

  /** A well-formed entry: a list or tuple of two or three fields whose score, if present, is a number. */
  predicate WellFormedEntry(v: Val) {
    IsSeq(v) && (|v.elems| == 2 || (|v.elems| == 3 && IsNum(v.elems[2])))
  }

  function EntryItem(v: Val): Item
    requires WellFormedEntry(v)
  {
    Item(v.elems[0], StrOf(v.elems[1]), if |v.elems| == 3 then NumValue(v.elems[2]) else 1.0)
  }

  lemma {:induction false} ConvertWellFormed(xs: seq<Val>)
    requires forall k :: 0 <= k < |xs| ==> WellFormedEntry(xs[k])
    ensures ConvertAll(xs).Ok?
    ensures |ConvertAll(xs).value| == |xs|
    ensures forall k :: 0 <= k < |xs| ==> ConvertAll(xs).value[k] == EntryItem(xs[k])
  {
    if xs != [] {
      ConvertWellFormed(xs[..|xs| - 1]);
      var v := xs[|xs| - 1];
      assert Convert(v) == Ok(Some(EntryItem(v)));
    }
  }

  /**
   * On RapidOCR's usual answer, a tuple (entries, elapse) with a numeric
   * elapse and well-formed entries, every entry becomes one detection in
   * order, and an entry without a score scores 1.0.
   */
  lemma RecognizeWellFormed(entries: seq<Val>, elapse: real)
    requires forall k :: 0 <= k < |entries| ==> WellFormedEntry(entries[k])
    ensures var items := RecognizeSpec(Ok(VTuple([VList(entries), VFloat(elapse)])));
            && |items| == |entries|
            && forall k :: 0 <= k < |entries| ==> items[k] == EntryItem(entries[k])
  {
    ConvertWellFormed(entries);
  }

  /** An entry with fewer than two fields contributes nothing. */
  lemma ShortEntrySkipped(v: Val)
    requires IsSeq(v) && |v.elems| < 2
    ensures Convert(v) == Ok(None)
  {
  }

  /** The recognize loop, with its early exits on exceptions. */
  method Recognize(answer: Result<Val, PyError>) returns (items: seq<Item>)
    ensures items == RecognizeSpec(answer)
  {
    if answer.Err? || answer.value == VNone {
      return [];
    }
    var rl := ResultList(answer.value);
    if rl.Err? || !Truthy(rl.value) {
      return [];
    }
    var xs := ListOf(rl.value);
    if xs.Err? {
      return [];
    }
    items := [];
    var i := 0;
    while i < |xs.value|
      invariant 0 <= i <= |xs.value|
      invariant ConvertAll(xs.value[..i]) == Ok(items)
    {
      assert xs.value[..i + 1][..i] == xs.value[..i];
      var c := Convert(xs.value[i]);
      if c.Err? {
        ConvertErrorSticks(xs.value, i + 1);
        return [];
      }
      items := items + OptSeq(c.value);
      i := i + 1;
    }
    assert xs.value[..i] == xs.value;
  }

  lemma {:induction false} ConvertErrorSticks(xs: seq<Val>, k: nat)
    requires 0 < k <= |xs|
    requires ConvertAll(xs[..k]).Err?
    ensures ConvertAll(xs).Err?
    decreases |xs| - k
  {
    if k < |xs| {
      assert xs[..k + 1][..k] == xs[..k];
      ConvertErrorSticks(xs, k + 1);
    } else {
      assert xs[..k] == xs;
    }
  }

  // --------------------------------------------------------- the class

  /** `recognize_with_padding` on an image of w x h: RapidOCR's detections moved back onto the original. */
  function RecognizeWithPaddingSpec(w: nat, h: nat, ratio: real, answer: Result<Val, PyError>): Result<seq<Item>, PyError> {
    var p := PadPlan(w, h, ratio);
    ShiftItems(RecognizeSpec(answer), p.px, p.py, Some((w, h)))
  }

  class OCREngine {
    var useGpu: bool
    var modelDir: Option<string>
    var ocr: Option<nat>

    /**
     * Construction runs `_initialize_ocr` and leaves the fields as the
     * initialisation specification does. The constructor itself cannot
     * fail here: the error `__init__` raises when the initialisation fails
     * is modelled by OcrProcessorRefactored.Create, which checks the
     * outcome before constructing.
     */
    constructor (useGpu: bool, modelDir: Option<string>, files: set<string>, probe: Probe, first: Build, retry: Build)
      ensures this.modelDir == modelDir
      ensures var o := InitSpec(useGpu, modelDir, files, probe, first, retry);
              this.useGpu == o.useGpu && (o.result.Ok? ==> ocr == Some(o.result.value))
    {
      this.useGpu := useGpu;
      this.modelDir := modelDir;
      this.ocr := None;
      new;
      var r, calls := InitializeOcr(files, probe, first, retry);
    }

    /** `_initialize_ocr`, step by step over the fields. */
    method InitializeOcr(files: set<string>, probe: Probe, first: Build, retry: Build)
      returns (r: Result<nat, InitError>, calls: seq<Kwargs>)
      modifies this
      ensures modelDir == old(modelDir)
      ensures var o := InitSpec(old(useGpu), old(modelDir), files, probe, first, retry);
              r == o.result && calls == o.calls && useGpu == o.useGpu
      ensures r.Ok? ==> ocr == Some(r.value)
    {
      var paths := GetModelPaths(modelDir, files);
      if paths.Err? {
        return Err(paths.error), [];
      }
      var missing := MissingModels(paths.value, files);
      if missing != [] {
        return Err(ModelsMissing(missing)), [];
      }
      var kwargs := AllCuda(useGpu);
      var originalUseGpu := useGpu;
      if useGpu {
        if probe.Providers? && "CUDAExecutionProvider" !in probe.names {
          useGpu := false;
          kwargs := AllCuda(false);
        }
      }
      calls := [kwargs];
      if first.Built? {
        ocr := Some(first.engine);
        return Ok(first.engine), calls;
      }
      ocr := None;
      if originalUseGpu && useGpu {
        kwargs := AllCuda(false);
        useGpu := false;
        calls := calls + [kwargs];
        if retry.Built? {
          ocr := Some(retry.engine);
          return Ok(retry.engine), calls;
        }
        ocr := None;
        return Err(GpuAndCpuFailed(BuildError(first), BuildError(retry))), calls;
      }
      return Err(BuildFailed(BuildError(first))), calls;
    }

    /** `recognize_with_padding`: the temporary copy is released on every exit, including an exception while remapping. */
    method RecognizeWithPadding(tmp: TempSpace, w: nat, h: nat, ratio: real, answer: Result<Val, PyError>)
      returns (r: Result<seq<Item>, PyError>)
      modifies tmp
      ensures tmp.live == old(tmp.live)
      ensures r == RecognizeWithPaddingSpec(w, h, ratio, answer)
    {
      var p := PadPlan(w, h, ratio);
      if p.padded {
        tmp.Acquire();
      }
      var items := Recognize(answer);
      r := ShiftItemsToOriginal(items, p.px, p.py, Some((w, h)));
      if p.padded {
        tmp.Cleanup();
      }
    }
  }
}
