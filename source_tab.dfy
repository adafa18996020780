/**
 * The image-source tab: the check that refuses a folder already covered
 * by a registered source, the enable/disable toggle read back from the
 * displayed status, and the scan of all enabled sources. Paths are taken
 * already made absolute, as a drive and a list of components; the dialog,
 * the database and the file system are inputs.
 */
module SourceTab {
  import opened Wrappers
  import opened PyText
  import opened Scanner

  /** An absolute, normalised path: its drive (empty on POSIX) and its components. */
  datatype AbsPath = AbsPath(drive: string, parts: seq<string>)

  /** A registered source as the database lists it; a missing or empty folder is None. */
  datatype SourceRow = SourceRow(id: int, folder: Option<AbsPath>, enabled: bool)

  /** What `add_source` ends with. */
  datatype AddOutcome =
    | Cancelled                      // the dialog returned nothing
    | Covered(source: AbsPath)       // a registered source is the folder or one of its ancestors
    | Added(folder: AbsPath)
    | AlreadyListed                  // the database refused the insert

  /** The longest common prefix of two component lists. */
  function CommonParts(a: seq<string>, b: seq<string>): (r: seq<string>)
    ensures |r| <= |a| && |r| <= |b| && r == a[..|r|] && r == b[..|r|]
    ensures |r| < |a| && |r| < |b| ==> a[|r|] != b[|r|]
  {
    if a == [] || b == [] || a[0] != b[0] then []
    else [a[0]] + CommonParts(a[1..], b[1..])
  }

  /** os.path.commonpath of two absolute paths; paths on different drives raise. */
  function CommonPath(a: AbsPath, b: AbsPath): (r: Option<AbsPath>)
    ensures r.None? <==> a.drive != b.drive
  {
    if a.drive != b.drive then None else Some(AbsPath(a.drive, CommonParts(a.parts, b.parts)))
  }

  /** `src` is `folder` or one of its ancestors. */
  predicate IsAncestorOrSelf(src: AbsPath, folder: AbsPath) {
    src.drive == folder.drive && |src.parts| <= |folder.parts| && folder.parts[..|src.parts|] == src.parts
  }

  /** The source test: equal paths, or a common path equal to the source. */
  predicate Covers(src: AbsPath, folder: AbsPath) {
    src == folder || CommonPath(src, folder) == Some(src)
  }

  /** The test holds exactly when the source is the folder or an ancestor of it. */
  lemma CoversIsAncestry(src: AbsPath, folder: AbsPath)
    ensures Covers(src, folder) <==> IsAncestorOrSelf(src, folder)
  {
    if IsAncestorOrSelf(src, folder) {
      CommonPrefix(src.parts, folder.parts);
    }
  }

  lemma {:induction false} CommonPrefix(a: seq<string>, b: seq<string>)
    requires |a| <= |b| && b[..|a|] == a
    ensures CommonParts(a, b) == a
  {
    if a != [] {
      assert b[1..][..|a| - 1] == a[1..];
      CommonPrefix(a[1..], b[1..]);
    }
  }

  /** os.path.abspath(folder_path or ''): an empty folder stands for the working directory. */
  function SourcePath(s: SourceRow, cwd: AbsPath): AbsPath {
    match s.folder
    case Some(p) => p
    case None => cwd
  }

  /** The first source, in database order, that covers the folder. */
  function FirstCover(sources: seq<SourceRow>, folder: AbsPath, cwd: AbsPath): (r: Option<AbsPath>)
    ensures r.Some? ==> IsAncestorOrSelf(r.value, folder)
    ensures r.None? <==> forall k :: 0 <= k < |sources| ==> !IsAncestorOrSelf(SourcePath(sources[k], cwd), folder)
    decreases |sources|
  {
    if sources == [] then None
    else
      var src := SourcePath(sources[0], cwd);
      CoversIsAncestry(src, folder);
      var rest := FirstCover(sources[1..], folder, cwd);
      assert forall k :: 1 <= k < |sources| ==> sources[k] == sources[1..][k - 1];
      if Covers(src, folder) then Some(src) else rest
  }

  /**
   * `add_source`: the chosen folder (None when the dialog is cancelled)
   * is refused when a registered source covers it; a source on another
   * drive, for which commonpath raises, is passed over. A failing source
   * query counts as no sources. Otherwise the database decides whether
   * the folder was new.
   */
  method AddSource(chosen: Option<AbsPath>, sources: Option<seq<SourceRow>>, cwd: AbsPath, dbAccepts: bool)
    returns (r: AddOutcome)
    ensures chosen.None? ==> r == Cancelled
    ensures chosen.Some? ==>
      var listed := if sources.Some? then sources.value else [];
      match FirstCover(listed, chosen.value, cwd)
      case Some(src) => r == Covered(src)
      case None => r == (if dbAccepts then Added(chosen.value) else AlreadyListed)
  {
    if chosen.None? {
      return Cancelled;
    }
    var folder := chosen.value;
    var listed := if sources.Some? then sources.value else [];
    var i := 0;
    while i < |listed|
      invariant 0 <= i <= |listed|
      invariant FirstCover(listed, folder, cwd) == FirstCover(listed[i..], folder, cwd)
    {
      var src := SourcePath(listed[i], cwd);
      assert listed[i..][1..] == listed[i + 1..];
      if src == folder {
        return Covered(src);
      }
      var common := CommonPath(src, folder);
      if common.Some? && common.value == src {
        return Covered(src);
      }
      i := i + 1;
    }
    return if dbAccepts then Added(folder) else AlreadyListed;
  }

  /** A registered folder strictly inside the new one does not stop it from being added. */
  lemma DescendantDoesNotBlock(inner: AbsPath, folder: AbsPath)
    requires inner.drive == folder.drive && |inner.parts| > |folder.parts|
    requires inner.parts[..|folder.parts|] == folder.parts
    ensures !Covers(inner, folder)
  {
    CoversIsAncestry(inner, folder);
  }

  /** The status column of the source list. */
  function StatusText(enabled: bool): string {
    if enabled then "✓ 启用" else "✗ 禁用"
  }

  /** `toggle_source`: the new flag is whether the shown status carries the cross. */
  function ToggledFlag(status: string): bool {
    Contains(status, "✗")
  }

  /** Toggling a source always flips what the list shows. */
  lemma ToggleFlips(enabled: bool)
    ensures ToggledFlag(StatusText(enabled)) == !enabled
  {
    ContainsChar(StatusText(enabled), '✗');
    if enabled {
      assert StatusText(enabled) == ['✓', ' ', '启', '用'];
    } else {
      assert StatusText(enabled)[0] == '✗';
    }
  }

  /**
   * What one source's scan meets: whether its folder exists, the hash set
   * `get_image_hashes` returns just before its search, what os.walk lists,
   * and how many rows the batch insert reports.
   */
  datatype ScanInput = ScanInput(folderExists: bool, dbHashes: set<string>, walked: seq<FileEntry>, inserted: nat)

  /** What happens to one source: passed over, or searched with the new (path, hash) pairs found and the rows the insert reports. */
  datatype SourceResult = Skipped | Searched(found: seq<(Path, string)>, added: nat)

  /**
   * One turn of the source loop: an enabled source whose folder exists is
   * searched for images whose hash is not in the table the database just
   * returned; the insert's count is taken only when something was found.
   */
  function ScanOne(s: SourceRow, inp: ScanInput): (r: SourceResult)
    ensures r.Searched? <==> s.enabled && inp.folderExists
    ensures r.Searched? && r.found == [] ==> r.added == 0
  {
    if !s.enabled || !inp.folderExists then Skipped
    else
      var found := NewFrom(ScanFolderSpec(true, inp.walked), inp.dbHashes);
      Searched(found, if found != [] then inp.inserted else 0)
  }

  /**
   * A searched source reports only hashes the table it read lacks, each
   * once, and together with that table they make up every scanned hash.
   */
  lemma ScanOneReportsNewHashes(s: SourceRow, inp: ScanInput)
    requires s.enabled && inp.folderExists
    ensures var found := ScanOne(s, inp).found;
      (forall k :: 0 <= k < |found| ==> found[k].1 !in inp.dbHashes) &&
      DistinctHashes(found) &&
      inp.dbHashes + HashesOf(found) == inp.dbHashes + ScanHashes(ScanFolderSpec(true, inp.walked))
  {
    var scan := ScanFolderSpec(true, inp.walked);
    NewFromFresh(scan, inp.dbHashes);
    NewFromDistinct(scan, inp.dbHashes);
    NewFromCovers(scan, inp.dbHashes);
  }

  /** The rows a source adds to the count. */
  function AddedOf(r: SourceResult): nat {
    if r.Searched? then r.added else 0
  }

  /** `total_new`: the inserted rows summed over the sources, in order. */
  function TotalAdded(rs: seq<SourceResult>): (t: nat)
    ensures (forall k :: 0 <= k < |rs| ==> AddedOf(rs[k]) == 0) ==> t == 0
    decreases |rs|
  {
    if rs == [] then 0 else TotalAdded(rs[..|rs| - 1]) + AddedOf(rs[|rs| - 1])
  }

  lemma TotalAddedSnoc(rs: seq<SourceResult>, one: SourceResult)
    ensures TotalAdded(rs + [one]) == TotalAdded(rs) + AddedOf(one)
  {
    assert (rs + [one])[..|rs|] == rs;
  }

  /** What `scan_sources` ends with. */
  datatype ScanOutcome = NoEnabledSource | Scanned(totalNew: nat, switchToProcessing: bool)

  /**
   * `scan_sources`: with no enabled source it only warns. Otherwise each
   * enabled source whose folder exists reads the database's hash table
   * afresh, is searched for images whose hash that table lacks, and sends
   * the pairs found to the batch insert; the inserted rows are summed, and
   * the view moves to the processing tab only when that sum is positive.
   * `results` gives, source by source, what the loop did.
   */
  method ScanSources(sources: seq<SourceRow>, inputs: seq<ScanInput>)
    returns (r: ScanOutcome, results: seq<SourceResult>)
    requires |inputs| == |sources|
    ensures (forall k :: 0 <= k < |sources| ==> !sources[k].enabled) ==> r == NoEnabledSource && results == []
    ensures (exists k :: 0 <= k < |sources| && sources[k].enabled) ==>
      |results| == |sources| &&
      (forall k :: 0 <= k < |sources| ==> results[k] == ScanOne(sources[k], inputs[k])) &&
      r == Scanned(TotalAdded(results), TotalAdded(results) > 0)
  {
    var anyEnabled := AnyEnabled(sources);
    if !anyEnabled {
      return NoEnabledSource, [];
    }
    var totalNew;
    results, totalNew := ScanLoop(sources, inputs);
    r := Scanned(totalNew, totalNew > 0);
  }

  /** The `for source in enabled_sources` loop: one turn per source, the counts summed. */
  method ScanLoop(sources: seq<SourceRow>, inputs: seq<ScanInput>) returns (results: seq<SourceResult>, totalNew: nat)
    requires |inputs| == |sources|
    ensures |results| == |sources|
    ensures forall k :: 0 <= k < |sources| ==> results[k] == ScanOne(sources[k], inputs[k])
    ensures totalNew == TotalAdded(results)
  {
    results := [];
    totalNew := 0;
    var i := 0;
    while i < |sources|
      invariant 0 <= i <= |sources|
      invariant |results| == i
      invariant forall k :: 0 <= k < i ==> results[k] == ScanOne(sources[k], inputs[k])
      invariant totalNew == TotalAdded(results)
    {
      var one := SearchSource(sources[i], inputs[i]);
      TotalAddedSnoc(results, one);
      results := results + [one];
      totalNew := totalNew + AddedOf(one);
      i := i + 1;
    }
  }

  /** One turn of the loop, run: a fresh copy of the table is searched in place. */
  method SearchSource(s: SourceRow, inp: ScanInput) returns (one: SourceResult)
    ensures one == ScanOne(s, inp)
  {
    if !s.enabled || !inp.folderExists {
      return Skipped;
    }
    var existing := new HashSet(inp.dbHashes);
    var found := FindNewImages(true, inp.walked, existing);
    one := Searched(found, if found != [] then inp.inserted else 0);
  }

  /** Whether any source is enabled. */
  method AnyEnabled(sources: seq<SourceRow>) returns (b: bool)
    ensures b <==> exists k :: 0 <= k < |sources| && sources[k].enabled
  {
    b := false;
    var j := 0;
    while j < |sources|
      invariant 0 <= j <= |sources|
      invariant b <==> exists k :: 0 <= k < j && sources[k].enabled
    {
      b := b || sources[j].enabled;
      j := j + 1;
    }
  }

  /** Disabled sources and sources whose folder is gone are never searched, so they add nothing. */
  lemma SkippedSourcesChangeNothing(sources: seq<SourceRow>, inputs: seq<ScanInput>, results: seq<SourceResult>)
    requires |inputs| == |sources| == |results|
    requires forall k :: 0 <= k < |sources| ==> !sources[k].enabled || !inputs[k].folderExists
    requires forall k :: 0 <= k < |sources| ==> results[k] == ScanOne(sources[k], inputs[k])
    ensures (forall k :: 0 <= k < |results| ==> results[k] == Skipped) && TotalAdded(results) == 0
  {
  }

  /** The database's hash table after a source's turn, when its insert records every pair found. */
  function HashesAfter(s: SourceRow, inp: ScanInput): (h: set<string>)
    ensures inp.dbHashes <= h
    ensures s.enabled && inp.folderExists ==> ScanHashes(ScanFolderSpec(true, inp.walked)) <= h
  {
    if s.enabled && inp.folderExists then
      ScanOneReportsNewHashes(s, inp);
      inp.dbHashes + HashesOf(ScanOne(s, inp).found)
    else inp.dbHashes
  }

  /**
   * Every insert is accepted and nothing else writes to the table: each
   * source reads the table the previous source's insert left behind.
   */
  predicate EveryInsertAccepted(items: seq<(SourceRow, ScanInput)>) {
    forall k :: 0 <= k < |items| - 1 ==> items[k + 1].1.dbHashes == HashesAfter(items[k].0, items[k].1)
  }

  lemma {:induction false} HashesAfterGrow(items: seq<(SourceRow, ScanInput)>, i: nat, j: nat)
    requires EveryInsertAccepted(items) && i <= j < |items|
    ensures HashesAfter(items[i].0, items[i].1) <= HashesAfter(items[j].0, items[j].1)
    decreases j - i
  {
    if i < j {
      HashesAfterGrow(items, i + 1, j);
      assert items[i + 1].1.dbHashes <= HashesAfter(items[i + 1].0, items[i + 1].1);
    }
  }

  /**
   * When every insert is accepted, the table left after the last source
   * holds every hash of every image in every searched folder.
   */
  lemma ScanRecordsAllHashes(items: seq<(SourceRow, ScanInput)>)
    requires |items| > 0 && EveryInsertAccepted(items)
    ensures var last := items[|items| - 1];
      forall k :: 0 <= k < |items| && items[k].0.enabled && items[k].1.folderExists ==>
        ScanHashes(ScanFolderSpec(true, items[k].1.walked)) <= HashesAfter(last.0, last.1)
  {
    forall k | 0 <= k < |items| && items[k].0.enabled && items[k].1.folderExists
      ensures ScanHashes(ScanFolderSpec(true, items[k].1.walked)) <= HashesAfter(items[|items| - 1].0, items[|items| - 1].1)
    {
      HashesAfterGrow(items, k, |items| - 1);
    }
  }

  /**
   * A searched source reports every scanned image whose hash the table it
   * read lacks; so an image whose earlier insert the database refused
   * (its path already listed) is reported again by any later source that
   * meets a file with its hash.
   */
  lemma UnknownHashReported(s: SourceRow, inp: ScanInput, f: FileEntry)
    requires s.enabled && inp.folderExists
    requires f in ScanFolderSpec(true, inp.walked) && FileHash(f) !in inp.dbHashes
    ensures exists k :: 0 <= k < |ScanOne(s, inp).found| && ScanOne(s, inp).found[k].1 == FileHash(f)
  {
    var scan := ScanFolderSpec(true, inp.walked);
    ScanOneReportsNewHashes(s, inp);
    InScanHashes(scan, f);
    HashesOfHas(ScanOne(s, inp).found, FileHash(f));
  }

  lemma {:induction false} InScanHashes(scan: seq<FileEntry>, f: FileEntry)
    requires f in scan
    ensures FileHash(f) in ScanHashes(scan)
    decreases |scan|
  {
    if scan[0] != f {
      InScanHashes(scan[1..], f);
    }
  }

  lemma {:induction false} HashesOfHas(ps: seq<(Path, string)>, h: string)
    requires h in HashesOf(ps)
    ensures exists k :: 0 <= k < |ps| && ps[k].1 == h
    decreases |ps|
  {
    if ps[0].1 != h {
      HashesOfHas(ps[1..], h);
      var k :| 0 <= k < |ps[1..]| && ps[1..][k].1 == h;
      assert ps[k + 1].1 == h;
    }
  }
}
