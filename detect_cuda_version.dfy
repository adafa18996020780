/**
 * The diagnostic script `detect_cuda_version.py`: it reads the CUDA
 * version the driver reports (nvidia-smi's csv line, or failing that the
 * toolkit's `nvcc --version`), the CUDA version the bundled onnxruntime
 * was built for (from the name of its `cudart64_*.dll`), compares their
 * integer majors, prints advice and ends with exit code 2 (no CUDA), 1
 * (not compatible) or 0. What the two tools print and what the
 * onnxruntime probe finds are inputs; the printing itself is left out.
 */
module DetectCudaVersion {
  import opened Wrappers
  import opened PyText
  import opened PyValue
  import opened VersionText

  /** Python truthiness of an optional string: None and "" are false. */
  predicate Given(v: Option<string>) {
    v.Some? && v.value != ""
  }

  /** How running an external tool ends: it is missing, something else raises, or it exits. */
  datatype ProcOutcome = NotFound | Failed(msg: string) | Ran(code: int, stdout: string)

  // ------------------------------------------------------------- nvidia-smi

  /**
   * `get_nvidia_smi_cuda_version`: on exit code 0 the stripped output is
   * split at commas; with at least two fields the result is (second field,
   * first field), both stripped. Anything else gives no version and a
   * message.
   */
  function SmiCudaVersion(o: ProcOutcome): (r: (Option<string>, string))
    ensures r.0.Some? <==> o.Ran? && o.code == 0 && Strip(o.stdout) != [] && |Split(Strip(o.stdout), ',')| >= 2
    ensures r.0.Some? ==> r.0.value == Strip(Split(Strip(o.stdout), ',')[1]) && r.1 == Strip(Split(Strip(o.stdout), ',')[0])
    ensures o.NotFound? ==> r.1 == "nvidia-smi 未找到（可能未安装 NVIDIA 驱动）"
  {
    match o
    case NotFound => (None, "nvidia-smi 未找到（可能未安装 NVIDIA 驱动）")
    case Failed(e) => (None, "检测失败: " + e)
    case Ran(code, stdout) =>
      var output := Strip(stdout);
      if code == 0 && output != [] then
        var parts := Split(output, ',');
        if |parts| >= 2 then (Some(Strip(parts[1])), Strip(parts[0]))
        else (None, "无法获取版本信息")
      else (None, "无法获取版本信息")
  }

  /** A field with no comma and no whitespace at either end. */
  predicate CsvField(x: string) {
    |x| > 0 && ',' !in x && !IsSpace(x[0]) && !IsSpace(x[|x| - 1])
  }

  /** The line `<driver>, <cuda>` that the csv query prints gives back both fields. */
  lemma SmiReadsCsvLine(driver: string, cuda: string)
    requires CsvField(driver) && CsvField(cuda)
    ensures SmiCudaVersion(Ran(0, driver + ", " + cuda + "\n")) == (Some(cuda), driver)
  {
    var line := driver + ", " + cuda;
    var s := line + "\n";
    assert driver + ", " + cuda + "\n" == s;
    assert s[0] == driver[0] && s[..|s| - 1] == line;
    StripTrailingSpace(s);
    assert line[0] == driver[0] && line[|line| - 1] == cuda[|cuda| - 1];
    StripNothing(line);
    var tail := " " + cuda;
    assert line == driver + [','] + tail;
    SplitPiece(driver, ',', tail);
    assert ',' !in tail;
    SplitPiece(tail, ',', []);
    assert Split(line, ',') == [driver, tail];
    StripNothing(driver);
    StripLeadingSpace(tail);
    assert tail[1..] == cuda;
    StripNothing(cuda);
  }

  // ------------------------------------------------------------------- nvcc

  /** `get_nvcc_version`: the number after "release" when nvcc exits with 0. */
  function NvccVersion(o: ProcOutcome): (r: Option<string>)
    ensures r.Some? ==> o.Ran? && o.code == 0 && IsDottedNumber(r.value)
    ensures o.Ran? && o.code == 0 ==> r == FindVersion(o.stdout, "release")
  {
    if o.Ran? && o.code == 0 then FindVersion(o.stdout, "release") else None
  }

  // ------------------------------------------------------------ onnxruntime

  /** What the probe of the installed onnxruntime finds. */
  datatype OrtProbe =
    | NotInstalled                                        // the import fails
    | ProbeFailed(msg: string)                            // anything else raises before the inner probe
    | Found(cudaProvider: bool, version: string, inner: InnerProbe)

  /** The inner probe: it raises, or lists the names of the `cudart64_*.dll` files found, in walk order. */
  datatype InnerProbe = InnerFailed(msg: string) | DllNames(names: seq<string>)

  const DllPrefix := "cudart64_"
  const DllSuffix := ".dll"

  /** The pattern `cudart64_(\d+)\.dll` tried at position i; the digit run is greedy and cannot be shortened to reach ".dll". */
  function DllCodeAt(name: string, i: nat): (r: Option<string>)
    requires i <= |name|
    ensures r.Some? ==> |r.value| > 0 && AllDigits(r.value)
  {
    if TagAt(name, DllPrefix, i) then
      var n := DigitRun(name, i + |DllPrefix|);
      if n > 0 && TagAt(name, DllSuffix, i + |DllPrefix| + n) then Some(name[i + |DllPrefix|..i + |DllPrefix| + n])
      else None
    else None
  }

  /** re.search for that pattern from position i on: the leftmost match. */
  function DllCodeFrom(name: string, i: nat): (r: Option<string>)
    requires i <= |name|
    ensures r.Some? ==> |r.value| > 0 && AllDigits(r.value)
    ensures r.None? <==> forall q :: i <= q <= |name| ==> DllCodeAt(name, q).None?
    decreases |name| - i
  {
    if DllCodeAt(name, i).Some? then DllCodeAt(name, i)
    else if i == |name| then None
    else DllCodeFrom(name, i + 1)
  }

  /** The file name `cudart64_<code>.dll` yields its code. */
  lemma DllNameReadsCode(code: string)
    requires |code| > 0 && AllDigits(code)
    ensures DllCodeFrom(DllPrefix + code + DllSuffix, 0) == Some(code)
  {
    var name := DllPrefix + code + DllSuffix;
    var n := |DllPrefix|;
    assert name[..n] == DllPrefix;
    assert forall q :: n <= q < n + |code| ==> name[q] == code[q - n];
    assert name[n + |code|] == '.';
    DigitRunIs(name, n, |code|);
    var head := DllPrefix + code;
    assert name == head + DllSuffix && |name| == |head| + |DllSuffix|;
    assert name[|head|..|head| + |DllSuffix|] == name[|head|..] == DllSuffix;
    assert name[n..n + |code|] == code;
  }

  /** With the CUDA provider, a first DLL named `cudart64_<code>.dll` gives the decoded code as the version. */
  lemma OrtVersionFromDll(version: string, code: string, others: seq<string>)
    requires |code| > 0 && AllDigits(code)
    ensures OrtCudaVersion(Found(true, version, DllNames([DllPrefix + code + DllSuffix] + others))) ==
      (Some(DecodeDll(code)), "onnxruntime " + version)
  {
    DllNameReadsCode(code);
  }

  /**
   * The version read off a DLL code: the code without its last digit
   * (only its first digit when the code is at most two long), a dot, and
   * the last digit.
   */
  function DecodeDll(code: string): (r: string)
    requires |code| > 0
    ensures |code| >= 2 ==> r == code[..|code| - 1] + "." + code[|code| - 1..]
    ensures |code| == 1 ==> r == code + "." + code
  {
    var major := if |code| > 2 then code[..|code| - 1] else [code[0]];
    var minor := [code[|code| - 1]];
    major + "." + minor
  }

  /** A decoded DLL code is a dotted number, so its major is always readable. */
  lemma DecodedIsDotted(code: string)
    requires |code| > 0 && AllDigits(code)
    ensures IsDottedNumber(DecodeDll(code))
  {
    var r := DecodeDll(code);
    var major, minor := if |code| >= 2 then code[..|code| - 1] else code, if |code| >= 2 then code[|code| - 1..] else code;
    assert r == major + "." + minor;
    DottedOfRuns(major, minor);
  }

  /** The major that int(float(...)) reads from a decoded code of two or more digits is the code without its last digit. */
  lemma MajorOfDecoded(code: string)
    requires |code| >= 2 && AllDigits(code)
    ensures forall k :: 0 <= k < |code| - 1 ==> IsDigitIn(code[k], 10)
    ensures MajorOf(DecodeDll(code)) == Some(RunValue(code[..|code| - 1], 10) as int)
  {
    var major := code[..|code| - 1];
    assert AllDigits(major) && AllDigits(code[|code| - 1..]);
    DigitsBelowPow(major);
    MajorOfDotted(major, code[|code| - 1..]);
  }

  /** "110" reads as 11.0; a two-digit code such as CUDA 12's "12" reads as 1.2. */
  lemma DecodeExamples()
    ensures DecodeDll("110") == "11.0" && DecodeDll("118") == "11.8" && DecodeDll("12") == "1.2"
  {
    assert "110"[..2] == "11";
    assert "118"[..2] == "11";
  }

  /**
   * `get_onnxruntime_cuda_version`: without the CUDA provider there is no
   * version; with it, the first DLL's code is decoded, and a probe that
   * finds no usable DLL name or raises gives the placeholder "未知".
   */
  function OrtCudaVersion(p: OrtProbe): (r: (Option<string>, string))
    ensures r.0.None? <==> !p.Found? || !p.cudaProvider
    ensures r.0.Some? ==> r.0.value == "未知" || IsDottedNumber(r.0.value)
  {
    match p
    case NotInstalled => (None, "onnxruntime 未安装")
    case ProbeFailed(e) => (None, "检测失败: " + e)
    case Found(cuda, version, inner) =>
      if !cuda then (None, "onnxruntime-gpu 未安装或不支持 CUDA")
      else match inner
        case InnerFailed(e) => (Some("未知"), "onnxruntime " + version + " (测试失败: " + e + ")")
        case DllNames(names) =>
          var code := if names != [] then DllCodeFrom(names[0], 0) else None;
          if code.Some? then
            DecodedIsDotted(code.value);
            (Some(DecodeDll(code.value)), "onnxruntime " + version)
          else (Some("未知"), "onnxruntime " + version + " (有 CUDA 支持)")
  }

  // ---------------------------------------------------------- compatibility

  /**
   * `check_cuda_compatibility`: missing versions, then unreadable ones,
   * then a comparison of the integer majors; a system major at least the
   * onnxruntime major is compatible.
   */
  function CheckCompatibility(system: Option<string>, ort: Option<string>): (r: (bool, string))
    ensures !Given(system) || !Given(ort) ==> r == (false, "版本信息不完整")
    ensures Given(system) && Given(ort) && (MajorOf(system.value).None? || MajorOf(ort.value).None?) ==>
      r == (false, "版本格式无法解析")
    ensures r.0 <==> (Given(system) && Given(ort) && MajorOf(system.value).Some? && MajorOf(ort.value).Some? &&
                      MajorOf(system.value).value >= MajorOf(ort.value).value)
  {
    if !Given(system) || !Given(ort) then (false, "版本信息不完整")
    else
      match (MajorOf(system.value), MajorOf(ort.value))
      case (Some(s), Some(o)) =>
        if s == o then (true, "版本完全匹配 ✓")
        else if s > o then (true, "系统 CUDA " + IntToString(s) + ".x 向后兼容 onnxruntime CUDA " + IntToString(o) + ".x ✓")
        else (false, "系统 CUDA " + IntToString(s) + ".x 可能不兼容 onnxruntime CUDA " + IntToString(o) + ".x ✗")
      case _ => (false, "版本格式无法解析")
  }

  /** For two dotted versions, compatibility is the order of the digits before the dots. */
  lemma CompatibleDotted(s1: string, s2: string, o1: string, o2: string)
    requires |s1| > 0 && |s2| > 0 && AllDigits(s1) && AllDigits(s2)
    requires |o1| > 0 && |o2| > 0 && AllDigits(o1) && AllDigits(o2)
    ensures forall k :: 0 <= k < |s1| ==> IsDigitIn(s1[k], 10)
    ensures forall k :: 0 <= k < |o1| ==> IsDigitIn(o1[k], 10)
    ensures CheckCompatibility(Some(s1 + "." + s2), Some(o1 + "." + o2)).0 <==> RunValue(s1, 10) >= RunValue(o1, 10)
  {
    DigitsBelowPow(s1);
    DigitsBelowPow(o1);
    MajorOfDotted(s1, s2);
    MajorOfDotted(o1, o2);
    assert (s1 + "." + s2)[0] == s1[0];
    assert (o1 + "." + o2)[0] == o1[0];
  }

  /** The placeholder "未知" never reads as a number, so it is never compatible. */
  lemma UnknownNeverCompatible(system: Option<string>)
    ensures MajorOf("未知").None?
    ensures !CheckCompatibility(system, Some("未知")).0
  {
    assert !IsSpace("未知"[0]) && !IsSpace("未知"[1]);
    assert '.' !in "未知";
    assert !ValidDigitRun("未知", 10);
  }

  // --------------------------------------------------------- recommendation

  /**
   * `get_recommendation`: the advice lines, built by appending. It raises
   * ValueError where it reads the major of a system version that is not
   * a number (when onnxruntime is missing or the versions are judged
   * incompatible).
   */
  method GetRecommendation(system: Option<string>, ort: Option<string>, compatible: bool)
    returns (r: Result<seq<string>, PyError>)
    ensures !Given(system) ==> r == Ok(["❌ 未检测到 NVIDIA GPU 或驱动", "   建议：使用 CPU 版本"])
    ensures Given(system) && Given(ort) && compatible ==> r == Ok(["✅ CUDA 版本兼容", "   可以使用 GPU 版本"])
    ensures Given(system) && (!Given(ort) || !compatible) ==>
      (r.Err? <==> MajorOf(system.value).None?) && (r.Err? ==> r.error == ValueError)
    ensures Given(system) && !Given(ort) && MajorOf(system.value).Some? ==>
      r == Ok(["❌ onnxruntime-gpu 未正确安装", "   建议：", "   1. 使用 CPU 版本（最稳定）",
               if MajorOf(system.value).value >= 12 then "   2. 安装 CUDA 12.x 版本: pip install onnxruntime-gpu"
               else "   2. 安装 CUDA 11.x 版本: pip install onnxruntime-gpu==1.15.1"])
    ensures Given(system) && Given(ort) && !compatible && MajorOf(system.value).Some? ==>
      r == Ok(["⚠️  CUDA 版本可能不兼容", "   建议：", "   1. 使用 CPU 版本（推荐，避免问题）",
               "   2. 或下载与系统匹配的 GPU 版本（CUDA " + IntToString(MajorOf(system.value).value) + ".x）"])
  {
    var recs: seq<string> := [];
    if !Given(system) {
      recs := recs + ["❌ 未检测到 NVIDIA GPU 或驱动"];
      recs := recs + ["   建议：使用 CPU 版本"];
      assert recs == ["❌ 未检测到 NVIDIA GPU 或驱动", "   建议：使用 CPU 版本"];
      return Ok(recs);
    }
    if !Given(ort) {
      recs := recs + ["❌ onnxruntime-gpu 未正确安装"];
      recs := recs + ["   建议："];
      recs := recs + ["   1. 使用 CPU 版本（最稳定）"];
      var major := MajorOf(system.value);
      if major.None? {
        return Err(ValueError);
      }
      var choice;
      if major.value >= 12 {
        choice := "   2. 安装 CUDA 12.x 版本: pip install onnxruntime-gpu";
      } else {
        choice := "   2. 安装 CUDA 11.x 版本: pip install onnxruntime-gpu==1.15.1";
      }
      recs := recs + [choice];
      assert recs == ["❌ onnxruntime-gpu 未正确安装", "   建议：", "   1. 使用 CPU 版本（最稳定）", choice];
      return Ok(recs);
    }
    if compatible {
      recs := recs + ["✅ CUDA 版本兼容"];
      recs := recs + ["   可以使用 GPU 版本"];
      assert recs == ["✅ CUDA 版本兼容", "   可以使用 GPU 版本"];
    } else {
      recs := recs + ["⚠️  CUDA 版本可能不兼容"];
      recs := recs + ["   建议："];
      recs := recs + ["   1. 使用 CPU 版本（推荐，避免问题）"];
      var major := MajorOf(system.value);
      if major.None? {
        return Err(ValueError);
      }
      var line := "   2. 或下载与系统匹配的 GPU 版本（CUDA " + IntToString(major.value) + ".x）";
      recs := recs + [line];
      assert recs == ["⚠️  CUDA 版本可能不兼容", "   建议：", "   1. 使用 CPU 版本（推荐，避免问题）", line];
    }
    return Ok(recs);
  }

  // ------------------------------------------------------------------- main

  /** `cuda_version or nvcc_version`: the driver's CUDA version when it is non-empty, else the toolkit's. */
  function SystemCuda(smi: ProcOutcome, nvcc: ProcOutcome): (r: Option<string>)
    ensures Given(SmiCudaVersion(smi).0) ==> r == SmiCudaVersion(smi).0
    ensures !Given(SmiCudaVersion(smi).0) ==> r == NvccVersion(nvcc)
  {
    var cuda := SmiCudaVersion(smi).0;
    if Given(cuda) then cuda else NvccVersion(nvcc)
  }

  /** A system version that came from nvcc always has a readable major. */
  lemma NvccSystemReadable(smi: ProcOutcome, nvcc: ProcOutcome)
    requires !Given(SmiCudaVersion(smi).0) && SystemCuda(smi, nvcc).Some?
    ensures MajorOf(SystemCuda(smi, nvcc).value).Some?
  {
    DottedNumberParses(NvccVersion(nvcc).value);
  }

  /** The exit status once the recommendations are printed. */
  function ExitCode(system: Option<string>, compatible: bool): (code: int)
    ensures code in {0, 1, 2}
    ensures code == 0 <==> Given(system) && compatible
  {
    if !Given(system) then 2 else if !compatible then 1 else 0
  }

  /** Prints the recommendations; the error they raise, if any. */
  method RecommendationFailure(system: Option<string>, ort: Option<string>, compatible: bool) returns (e: Option<PyError>)
    ensures e.Some? <==> Given(system) && (!Given(ort) || !compatible) && MajorOf(system.value).None?
  {
    var recommendations := GetRecommendation(system, ort, compatible);
    e := if recommendations.Err? then Some(recommendations.error) else None;
  }

  /**
   * `main`: the exit code is 2 without a system CUDA version, 1 when the
   * versions are missing on the onnxruntime side or judged incompatible,
   * and 0 otherwise. The script dies with ValueError exactly when the
   * system version it settled on has no readable major.
   */
  method RunDetection(smi: ProcOutcome, nvcc: ProcOutcome, ort: OrtProbe) returns (r: Result<int, PyError>)
    ensures var system := SystemCuda(smi, nvcc);
      r.Err? <==> Given(system) && MajorOf(system.value).None?
    ensures var system := SystemCuda(smi, nvcc);
      var ortVersion := OrtCudaVersion(ort).0;
      r.Ok? ==>
        && (r.value == 2 <==> !Given(system))
        && (r.value == 0 <==> Given(system) && Given(ortVersion) && CheckCompatibility(system, ortVersion).0)
        && (r.value == 1 || r.value == 2 || r.value == 0)
  {
    var (cudaVersion, _) := SmiCudaVersion(smi);
    var nvccVersion := NvccVersion(nvcc);
    var systemCuda := if Given(cudaVersion) then cudaVersion else nvccVersion;
    var (ortCuda, _) := OrtCudaVersion(ort);
    var compatible := false;
    if Given(systemCuda) && Given(ortCuda) {
      var (c, _) := CheckCompatibility(systemCuda, ortCuda);
      compatible := c;
    }
    var failure := RecommendationFailure(systemCuda, ortCuda, compatible);
    if failure.Some? {
      r := Err(failure.value);
    } else {
      r := Ok(ExitCode(systemCuda, compatible));
    }
  }
}
