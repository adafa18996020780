/**
 * The helper script `recommend_version.py`: a recommender object that
 * runs nvidia-smi once, remembers whether a GPU answered and which CUDA
 * and driver versions its banner shows, and from the CUDA major picks the
 * package to download. How nvidia-smi ends is an input; the printed
 * explanations and the prompt are left out, and of the guide file only
 * the recommended and fallback packages are modelled.
 */
module RecommendVersion {
  import opened Wrappers
  import opened PyText
  import opened PyValue
  import opened VersionText
  import opened DetectCudaVersion

  /** How the `nvidia-smi` call ends. Only a timeout and a missing binary are caught. */
  datatype SmiRun = Missing | TimedOut | OtherError(msg: string) | Exited(code: int, stdout: string)

  const CudaTag := "CUDA Version:"
  const DriverTag := "Driver Version:"

  class VersionRecommender {
    var hasNvidia: bool
    var cudaVersion: Option<string>
    var driverVersion: Option<string>

    /** Versions are only ever recorded from a run that found a GPU, and always as dotted numbers. */
    predicate Valid()
      reads this
    {
      && (cudaVersion.Some? || driverVersion.Some? ==> hasNvidia)
      && (cudaVersion.Some? ==> IsDottedNumber(cudaVersion.value))
      && (driverVersion.Some? ==> IsDottedNumber(driverVersion.value))
    }

    constructor ()
      ensures Valid()
      ensures !hasNvidia && cudaVersion.None? && driverVersion.None?
    {
      hasNvidia := false;
      cudaVersion := None;
      driverVersion := None;
    }

    /**
     * `detect_nvidia_gpu`: exit code 0 marks a GPU and records each
     * version the banner shows (a version that is not shown leaves the old
     * value); a non-zero exit, a timeout or a missing binary answer False
     * and change nothing; any other error propagates.
     */
    method DetectNvidiaGpu(run: SmiRun) returns (r: Result<bool, PyError>)
      requires Valid()
      modifies this
      ensures Valid()
      ensures r.Err? <==> run.OtherError?
      ensures run.OtherError? ==> r == Err(Raised(run.msg))
      ensures r == Ok(true) <==> run.Exited? && run.code == 0
      ensures !(run.Exited? && run.code == 0) ==>
        hasNvidia == old(hasNvidia) && cudaVersion == old(cudaVersion) && driverVersion == old(driverVersion)
      ensures run.Exited? && run.code == 0 ==>
        && hasNvidia
        && cudaVersion == (if FindVersion(run.stdout, CudaTag).Some? then FindVersion(run.stdout, CudaTag) else old(cudaVersion))
        && driverVersion == (if FindVersion(run.stdout, DriverTag).Some? then FindVersion(run.stdout, DriverTag) else old(driverVersion))
    {
      if run.OtherError? {
        r := Err(Raised(run.msg));
      } else if run.Exited? && run.code == 0 {
        var cudaMatch := FindVersion(run.stdout, CudaTag);
        var driverMatch := FindVersion(run.stdout, DriverTag);
        RecordBanner(cudaMatch, driverMatch);
        r := Ok(true);
      } else {
        r := Ok(false);
      }
    }

    /** A GPU answered: record each version its banner shows, keeping the old value of one it does not show. */
    method RecordBanner(cudaMatch: Option<string>, driverMatch: Option<string>)
      requires Valid()
      requires cudaMatch.Some? ==> IsDottedNumber(cudaMatch.value)
      requires driverMatch.Some? ==> IsDottedNumber(driverMatch.value)
      modifies this
      ensures Valid() && hasNvidia
      ensures cudaVersion == (if cudaMatch.Some? then cudaMatch else old(cudaVersion))
      ensures driverVersion == (if driverMatch.Some? then driverMatch else old(driverVersion))
    {
      hasNvidia := true;
      if cudaMatch.Some? {
        cudaVersion := cudaMatch;
      }
      if driverMatch.Some? {
        driverVersion := driverMatch;
      }
    }

    /**
     * `get_cuda_major_version`: the integer part of the recorded CUDA
     * version, or None when none was recorded. Since only dotted numbers
     * are recorded, int(float(...)) cannot raise here.
     */
    function CudaMajor(): (r: Option<int>)
      requires Valid()
      reads this
      ensures r.Some? <==> cudaVersion.Some?
      ensures r.Some? ==> r.value >= 0 && MajorOf(cudaVersion.value) == r
    {
      if Given(cudaVersion) then
        DottedNumberParses(cudaVersion.value);
        MajorOf(cudaVersion.value)
      else None
    }

    /**
     * `recommend_version`: detect, then advise. The result is the pair
     * the source returns with the advice shown on screen; the recorded
     * state is what the detection leaves, so a run that exits with 0 and
     * shows a CUDA version decides the advice by that version's major.
     */
    method Recommend(run: SmiRun) returns (r: Result<(bool, Option<string>, Advice), PyError>)
      requires Valid()
      modifies this
      ensures Valid()
      ensures r.Err? <==> run.OtherError?
      ensures r.Ok? ==> r.value == (hasNvidia, cudaVersion, ScreenAdvice(hasNvidia, CudaMajor()))
      ensures !(run.Exited? && run.code == 0) ==>
        hasNvidia == old(hasNvidia) && cudaVersion == old(cudaVersion) && driverVersion == old(driverVersion)
      ensures run.Exited? && run.code == 0 ==>
        && hasNvidia
        && cudaVersion == (if FindVersion(run.stdout, CudaTag).Some? then FindVersion(run.stdout, CudaTag) else old(cudaVersion))
        && driverVersion == (if FindVersion(run.stdout, DriverTag).Some? then FindVersion(run.stdout, DriverTag) else old(driverVersion))
    {
      var detected := DetectNvidiaGpu(run);
      if detected.Err? {
        return Err(detected.error);
      }
      var major := if hasNvidia then CudaMajor() else None;
      r := Ok((hasNvidia, cudaVersion, ScreenAdvice(hasNvidia, major)));
    }

    /** `create_download_guide`: the packages the guide file names. */
    function Guide(): (g: Download)
      requires Valid()
      reads this
      ensures g.recommended == CpuPackage <==> !hasNvidia || CudaMajor().None? || CudaMajor().value < 11
      ensures g.fallback.Some? <==> g.recommended != CpuPackage
    {
      GuideDownload(hasNvidia, if hasNvidia then CudaMajor() else None)
    }
  }

  /** The advice printed on screen. */
  datatype Advice =
    | CpuNoGpu          // no NVIDIA GPU answered
    | CpuUnknownCuda    // a GPU, but no CUDA version in its banner
    | GpuCuda12         // CUDA 12 or later
    | GpuCuda11
    | CpuOldCuda        // CUDA older than 11

  /** The branches of `recommend_version` on the GPU flag and the CUDA major. */
  function ScreenAdvice(hasNvidia: bool, major: Option<int>): (a: Advice)
    ensures a == GpuCuda12 <==> hasNvidia && major.Some? && major.value >= 12
    ensures a == GpuCuda11 <==> hasNvidia && major == Some(11)
    ensures a == CpuOldCuda <==> hasNvidia && major.Some? && major.value < 11
  {
    if !hasNvidia then CpuNoGpu
    else if major.None? then CpuUnknownCuda
    else if major.value >= 12 then GpuCuda12
    else if major.value == 11 then GpuCuda11
    else CpuOldCuda
  }

  const CpuPackage := "MEMEFinder_cpu.zip"
  const Cuda12Package := "MEMEFinder_gpu-cuda12.zip"
  const Cuda11Package := "MEMEFinder_gpu-cuda11.zip"

  /** What the guide file recommends, and the fallback it names. */
  datatype Download = Download(recommended: string, fallback: Option<string>)

  /**
   * The branches of `create_download_guide`. They test `cuda_major and
   * ...`, so a major of 0 counts as unknown.
   */
  function GuideDownload(hasNvidia: bool, major: Option<int>): (d: Download)
    ensures d.recommended in {CpuPackage, Cuda12Package, Cuda11Package}
  {
    if !hasNvidia then Download(CpuPackage, None)
    else if major.Some? && major.value != 0 && major.value >= 12 then Download(Cuda12Package, Some(CpuPackage))
    else if major.Some? && major.value != 0 && major.value == 11 then Download(Cuda11Package, Some(CpuPackage))
    else Download(CpuPackage, None)
  }

  /**
   * The guide file and the screen agree: the file names a GPU package,
   * with the CPU package as fallback, exactly when the screen recommends
   * that GPU build, and the CPU package alone in every CPU case.
   */
  lemma GuideAgreesWithScreen(hasNvidia: bool, major: Option<int>)
    ensures ScreenAdvice(hasNvidia, major) == GpuCuda12 <==> GuideDownload(hasNvidia, major) == Download(Cuda12Package, Some(CpuPackage))
    ensures ScreenAdvice(hasNvidia, major) == GpuCuda11 <==> GuideDownload(hasNvidia, major) == Download(Cuda11Package, Some(CpuPackage))
    ensures ScreenAdvice(hasNvidia, major) !in {GpuCuda12, GpuCuda11} <==> GuideDownload(hasNvidia, major) == Download(CpuPackage, None)
  {
  }
}
