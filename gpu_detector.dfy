/**
 * GPU detection (`detect_gpu`, `should_use_gpu`). The outside world is an
 * input: the MEMEFINDER_USE_GPU environment value (None when unset), the
 * onnxruntime provider list (None when onnxruntime cannot be imported or
 * the query raises), and the two nvidia-smi runs (None when the run
 * raises, for instance on a timeout or a missing binary).
 */
module GpuDetector {
  import opened Wrappers
  import opened PyText

  datatype GpuSignals = GpuSignals(
    providers: Option<seq<string>>,
    smiQuery: Option<(int, string)>,  // nvidia-smi --query-gpu: exit code and stdout
    smiVersion: Option<int>)          // nvidia-smi --version: exit code

  /** (has_gpu, device_info) */
  datatype Detection = Detection(hasGpu: bool, info: Option<string>)

  const DriverOnly := "检测到NVIDIA驱动，但ONNX Runtime可能未安装GPU版本"

  /** os.environ.get(name, '').lower() */
  function EnvValue(env: Option<string>): string {
    match env
    case None => []
    case Some(s) => Lower(s)
  }

  /** The value switches the GPU on: 1, true, yes or on, in any case. */
  predicate EnvOn(env: Option<string>) {
    EnvValue(env) in {"1", "true", "yes", "on"}
  }

  /** The value switches the GPU off: 0, false, no or off, in any case. */
  predicate EnvOff(env: Option<string>) {
    EnvValue(env) in {"0", "false", "no", "off"}
  }

  /** s.split('\n')[0] */
  function FirstLine(s: string): (r: string)
    ensures |r| <= |s| && '\n' !in r
    ensures r == s[..|r|]
  {
    if s == [] || s[0] == '\n' then [] else [s[0]] + FirstLine(s[1..])
  }

  /** The accelerator the provider list offers, by priority: CUDA, then TensorRT, then DirectML. */
  function ProviderDetection(ps: seq<string>, smiQuery: Option<(int, string)>): (r: Option<Detection>)
    ensures r.Some? <==> "CUDAExecutionProvider" in ps || "TensorrtExecutionProvider" in ps || "DmlExecutionProvider" in ps
    ensures r.Some? ==> r.value.hasGpu && r.value.info.Some?
  {
    if "CUDAExecutionProvider" in ps then
      match smiQuery
      case Some((code, out)) =>
        if code == 0 then Some(Detection(true, Some("CUDA GPU: " + FirstLine(Strip(out)))))
        else Some(Detection(true, Some("CUDA GPU (可用)")))
      case None => Some(Detection(true, Some("CUDA GPU (可用)")))
    else if "TensorrtExecutionProvider" in ps then Some(Detection(true, Some("TensorRT GPU")))
    else if "DmlExecutionProvider" in ps then Some(Detection(true, Some("DirectML GPU (Windows)")))
    else None
  }

  /**
   * `detect_gpu` as written. `import logging` sits inside the provider
   * branch, which makes `logging` a local name of the whole function:
   * when the provider query never got that far, the driver-only branch
   * hits an unbound name, the bare except swallows it and (False, None)
   * comes back instead of the driver message.
   */
  function DetectGpuAsWritten(env: Option<string>, sig: GpuSignals): (r: Detection)
    ensures r.hasGpu <==> (sig.providers.Some? && ProviderDetection(sig.providers.value, sig.smiQuery).Some?) || EnvOn(env)
    ensures !r.hasGpu && r.info.Some? ==> sig.providers.Some? && r.info.value == DriverOnly
  {
    var viaProviders := if sig.providers.Some? then ProviderDetection(sig.providers.value, sig.smiQuery) else None;
    if viaProviders.Some? then viaProviders.value
    else if EnvOn(env) then Detection(true, Some("环境变量指定使用GPU"))
    else if sig.smiVersion == Some(0) then
      var loggingBound := sig.providers.Some?;
      if loggingBound then Detection(false, Some(DriverOnly)) else Detection(false, None)
    else Detection(false, None)
  }

  /** `detect_gpu` with the driver message reported whatever the provider query did. */
  function DetectGpu(env: Option<string>, sig: GpuSignals): (r: Detection)
    ensures r.hasGpu <==> (sig.providers.Some? && ProviderDetection(sig.providers.value, sig.smiQuery).Some?) || EnvOn(env)
    ensures !r.hasGpu ==> (r.info.Some? <==> sig.smiVersion == Some(0))
    ensures !r.hasGpu && r.info.Some? ==> r.info.value == DriverOnly
    ensures r.hasGpu ==> r.info.Some?
  {
    var viaProviders := if sig.providers.Some? then ProviderDetection(sig.providers.value, sig.smiQuery) else None;
    if viaProviders.Some? then viaProviders.value
    else if EnvOn(env) then Detection(true, Some("环境变量指定使用GPU"))
    else if sig.smiVersion == Some(0) then Detection(false, Some(DriverOnly))
    else Detection(false, None)
  }

  /** Without onnxruntime, an unset variable and a working nvidia-smi, the code as written loses the driver message. */
  lemma DriverMessageLost()
    ensures DetectGpuAsWritten(None, GpuSignals(None, None, Some(0))) == Detection(false, None)
    ensures DetectGpu(None, GpuSignals(None, None, Some(0))) == Detection(false, Some(DriverOnly))
  {
  }

  /** The two differ only in that message: the has-GPU answer, which is all `should_use_gpu` reads, is the same. */
  lemma DetectGpuAnswerUnchanged(env: Option<string>, sig: GpuSignals)
    ensures DetectGpuAsWritten(env, sig).hasGpu == DetectGpu(env, sig).hasGpu
    ensures DetectGpuAsWritten(env, sig) != DetectGpu(env, sig) ==>
      sig.providers.None? && !EnvOn(env) && sig.smiVersion == Some(0)
  {
  }

  /** A CUDA provider wins over TensorRT and DirectML, whatever else is listed. */
  lemma CudaFirst(env: Option<string>, sig: GpuSignals)
    requires sig.providers.Some? && "CUDAExecutionProvider" in sig.providers.value
    ensures DetectGpu(env, sig).hasGpu
    ensures DetectGpu(env, sig).info.value[..8] == "CUDA GPU"
  {
    var r := DetectGpu(env, sig);
    match sig.smiQuery
    case Some((code, out)) =>
      if code == 0 {
        assert r.info.value == "CUDA GPU: " + FirstLine(Strip(out));
      }
    case None =>
  }

  /**
   * `should_use_gpu`: an on-value of the variable gives True, an off-value
   * False, and anything else (unset and '' too) what detection says.
   */
  function ShouldUseGpu(env: Option<string>, sig: GpuSignals): (r: bool)
    ensures EnvOn(env) ==> r
    ensures EnvOff(env) ==> !r
    ensures !EnvOn(env) && !EnvOff(env) ==> r == DetectGpu(env, sig).hasGpu
  {
    var v := EnvValue(env);
    if v in {"1", "true", "yes", "on"} then true
    else if v in {"0", "false", "no", "off"} then false
    else DetectGpu(env, sig).hasGpu
  }

  /** With the variable unset, only an accelerator provider turns the GPU on. */
  lemma UnsetDefersToProviders(sig: GpuSignals)
    ensures ShouldUseGpu(None, sig) <==> sig.providers.Some? && ProviderDetection(sig.providers.value, sig.smiQuery).Some?
  {
    assert EnvValue(None) == [];
  }
}
