/**
 * `ImageScanner`: which files count as images, the sorted scan of a
 * folder, the file hash with its error fallback, and the search for
 * images whose hash is not yet known, which records the new hashes in
 * the caller's set. The file system is an input: whether the folder
 * exists, and the files os.walk lists, each with its path split into
 * parts, whether it is a regular file, and its MD5 digest (None when the
 * file cannot be read).
 */
module Scanner {
  import opened Wrappers
  import opened PyText

  /** A path as the sequence of its parts, the way pathlib compares paths. */
  type Path = seq<string>

  datatype FileEntry = FileEntry(path: Path, isFile: bool, digest: Option<string>)

  const ImgExtensions: set<string> := {".jpg", ".jpeg", ".png", ".bmp", ".webp", ".gif", ".tiff"}

  /** Path.name: the last part. */
  function Name(p: Path): string {
    if p == [] then [] else p[|p| - 1]
  }

  /** The index of the last occurrence of c in s (str.rfind), if any. */
  function LastIndex(s: string, c: char): (r: Option<nat>)
    ensures r.Some? ==> r.value < |s| && s[r.value] == c && c !in s[r.value + 1..]
    ensures r.None? ==> c !in s
  {
    if s == [] then None
    else if s[|s| - 1] == c then Some(|s| - 1)
    else
      var r := LastIndex(s[..|s| - 1], c);
      assert s == s[..|s| - 1] + [s[|s| - 1]];
      r
  }

  /** Path.suffix: from the last dot, unless that dot opens or ends the name. */
  function Suffix(name: string): (r: string)
    ensures r == [] || (r[0] == '.' && 2 <= |r| < |name| && r == name[|name| - |r|..] && '.' !in r[1..])
  {
    match LastIndex(name, '.')
    case Some(i) =>
      if 0 < i < |name| - 1 then
        assert name[i..][1..] == name[i + 1..];
        name[i..]
      else []
    case None => []
  }

  /** `is_image_file`: a regular file whose lower-cased suffix is one of the seven extensions. */
  predicate IsImageFile(f: FileEntry)
    ensures IsImageFile(f) ==> f.isFile && |Name(f.path)| >= 5
  {
    f.isFile && Lower(Suffix(Name(f.path))) in ImgExtensions
  }

  /** A stem followed by one of the extensions, in any case, names an image. */
  lemma {:induction false} ExtensionAccepted(stem: string, ext: string)
    requires |stem| > 0 && Lower(ext) in ImgExtensions
    ensures Suffix(stem + ext) == ext
  {
    var name := stem + ext;
    assert ext[0] == '.' && '.' !in ext[1..] && |ext| >= 4 by {
      var l := Lower(ext);
      assert l[0] == '.' && |l| >= 4;
      forall k | 1 <= k < |ext| ensures ext[k] != '.' {
        assert l[k] != '.';
      }
    }
    assert name[|stem|..] == ext;
    assert '.' !in name[|stem| + 1..] by {
      assert name[|stem| + 1..] == ext[1..];
    }
    LastIndexIsLastDot(name, |stem|);
  }

  lemma LastIndexIsLastDot(s: string, i: nat)
    requires i < |s| && s[i] == '.' && '.' !in s[i + 1..]
    ensures LastIndex(s, '.') == Some(i)
  {
    assert s[i] in s;
  }

  /** Lower-casing a name does not move its dots, so the test ignores case. */
  lemma SuffixOfLower(name: string)
    ensures Suffix(Lower(name)) == Lower(Suffix(name))
  {
    LastIndexOfLower(name);
    match LastIndex(name, '.')
    case Some(i) =>
      if 0 < i < |name| - 1 {
        assert Lower(name)[i..] == Lower(name[i..]);
      }
    case None =>
  }

  lemma {:induction false} LastIndexOfLower(s: string)
    ensures LastIndex(Lower(s), '.') == LastIndex(s, '.')
  {
    if s != [] {
      var t := s[..|s| - 1];
      assert Lower(s)[..|s| - 1] == Lower(t);
      LastIndexOfLower(t);
    }
  }

  /** A dot file such as ".png" has no suffix, so it is not an image whatever it holds. */
  lemma DotFileNotImage(f: FileEntry)
    requires Name(f.path) == ".png"
    ensures !IsImageFile(f)
  {
    assert ".png"[0] == '.' && '.' !in ".png"[1..];
    LastIndexIsLastDot(".png", 0);
  }

  /** `is_image_file` answers the same for a name and its lower-cased form. */
  lemma ImageFileIgnoresCase(f: FileEntry)
    requires f.path != []
    ensures IsImageFile(f) <==> IsImageFile(f.(path := f.path[..|f.path| - 1] + [Lower(Name(f.path))]))
  {
    var g := f.(path := f.path[..|f.path| - 1] + [Lower(Name(f.path))]);
    assert Name(g.path) == Lower(Name(f.path));
    SuffixOfLower(Name(f.path));
    LowerTwice(Suffix(Name(f.path)));
  }

  // ------------------------------------------------------------ path order

  /** Python's < on str: code point by code point, a proper prefix first. */
  predicate StrLess(a: string, b: string)
    decreases |a|
  {
    if a == [] then b != []
    else if b == [] then false
    else if a[0] != b[0] then a[0] < b[0]
    else StrLess(a[1..], b[1..])
  }

  /** Path comparison: the parts compared in turn as strings, case-sensitively (POSIX paths). */
  predicate PathLess(p: Path, q: Path)
    decreases |p|
  {
    if p == [] then q != []
    else if q == [] then false
    else if p[0] != q[0] then StrLess(p[0], q[0])
    else PathLess(p[1..], q[1..])
  }

  lemma {:induction false} StrLessIrreflexive(a: string)
    ensures !StrLess(a, a)
    decreases |a|
  {
    if a != [] {
      StrLessIrreflexive(a[1..]);
    }
  }

  lemma {:induction false} StrLessTransitive(a: string, b: string, c: string)
    requires StrLess(a, b) && StrLess(b, c)
    ensures StrLess(a, c)
    decreases |a|
  {
    if a != [] && a[0] == b[0] && b[0] == c[0] {
      StrLessTransitive(a[1..], b[1..], c[1..]);
    }
  }

  lemma {:induction false} PathLessIrreflexive(p: Path)
    ensures !PathLess(p, p)
    decreases |p|
  {
    if p != [] {
      PathLessIrreflexive(p[1..]);
    }
  }

  lemma {:induction false} PathLessTransitive(p: Path, q: Path, r: Path)
    requires PathLess(p, q) && PathLess(q, r)
    ensures PathLess(p, r)
    decreases |p|
  {
    if p != [] && q != [] && r != [] {
      if p[0] == q[0] && q[0] == r[0] {
        PathLessTransitive(p[1..], q[1..], r[1..]);
      } else if p[0] != q[0] && q[0] != r[0] && p[0] != r[0] {
        StrLessTransitive(p[0], q[0], r[0]);
      } else if p[0] != q[0] && q[0] != r[0] {
        StrLessTransitive(p[0], q[0], r[0]);
        StrLessIrreflexive(p[0]);
      }
    }
  }

  // ------------------------------------------------------------- sorted()

  predicate Sorted(s: seq<FileEntry>) {
    forall i, j :: 0 <= i < j < |s| ==> !PathLess(s[j].path, s[i].path)
  }

  /** Insert x after every entry whose path is not greater: stable, as sorted() is. */
  function Insert(x: FileEntry, s: seq<FileEntry>): (r: seq<FileEntry>)
    ensures multiset(r) == multiset(s) + multiset{x}
    ensures |r| == |s| + 1
  {
    if s == [] then [x]
    else if !PathLess(x.path, s[0].path) then
      assert s == [s[0]] + s[1..];
      [s[0]] + Insert(x, s[1..])
    else [x] + s
  }

  /** sorted(images) */
  function SortPaths(s: seq<FileEntry>): (r: seq<FileEntry>)
    ensures multiset(r) == multiset(s)
  {
    if s == [] then []
    else
      assert s == s[..|s| - 1] + [s[|s| - 1]];
      Insert(s[|s| - 1], SortPaths(s[..|s| - 1]))
  }

  lemma {:induction false} InsertSorted(x: FileEntry, s: seq<FileEntry>)
    requires Sorted(s)
    ensures Sorted(Insert(x, s))
  {
    if s != [] {
      if !PathLess(x.path, s[0].path) {
        InsertSorted(x, s[1..]);
        var r := Insert(x, s);
        var tail := Insert(x, s[1..]);
        assert r == [s[0]] + tail;
        forall j | 0 < j < |r| ensures !PathLess(r[j].path, s[0].path) {
          assert r[j] in multiset(tail);
          assert r[j] in multiset(s[1..]) + multiset{x};
          if r[j] != x {
            assert r[j] in s[1..];
          }
        }
      } else {
        var r := [x] + s;
        forall j | 0 < j < |r| ensures !PathLess(r[j].path, x.path) {
          if PathLess(r[j].path, x.path) {
            PathLessTransitive(r[j].path, x.path, s[0].path);
            if j == 1 {
              PathLessIrreflexive(s[0].path);
            }
          }
        }
      }
    }
  }

  /** sorted() gives a sorted permutation of its input. */
  lemma {:induction false} SortPathsSorted(s: seq<FileEntry>)
    ensures Sorted(SortPaths(s))
  {
    if s != [] {
      SortPathsSorted(s[..|s| - 1]);
      InsertSorted(s[|s| - 1], SortPaths(s[..|s| - 1]));
    }
  }

  // ---------------------------------------------------------- scan_folder

  /** The image files among the walked ones, in walk order. */
  function ImagesIn(walked: seq<FileEntry>): (r: seq<FileEntry>)
    ensures forall f :: f in r ==> f in walked && IsImageFile(f)
    ensures forall f :: f in walked && IsImageFile(f) ==> f in r
  {
    if walked == [] then []
    else
      var last := walked[|walked| - 1];
      var init := ImagesIn(walked[..|walked| - 1]);
      assert walked == walked[..|walked| - 1] + [last];
      init + (if IsImageFile(last) then [last] else [])
  }

  /** `scan_folder`: nothing for a missing folder; otherwise its image files in path order. */
  function ScanFolderSpec(folderExists: bool, walked: seq<FileEntry>): (r: seq<FileEntry>)
    ensures !folderExists ==> r == []
    ensures forall f :: f in r ==> f in walked && IsImageFile(f)
  {
    if !folderExists then []
    else
      var r := SortPaths(ImagesIn(walked));
      assert forall f :: f in r ==> f in multiset(ImagesIn(walked));
      r
  }

  /** The scan of an existing folder is sorted and holds exactly its image files. */
  lemma ScanFolderSortedImages(folderExists: bool, walked: seq<FileEntry>)
    ensures !folderExists ==> ScanFolderSpec(folderExists, walked) == []
    ensures Sorted(ScanFolderSpec(folderExists, walked))
    ensures folderExists ==> multiset(ScanFolderSpec(folderExists, walked)) == multiset(ImagesIn(walked))
    ensures forall f :: f in ScanFolderSpec(folderExists, walked) <==> folderExists && f in walked && IsImageFile(f)
  {
    if folderExists {
      SortPathsSorted(ImagesIn(walked));
      forall f ensures f in ScanFolderSpec(folderExists, walked) <==> f in ImagesIn(walked) {
        assert f in ScanFolderSpec(folderExists, walked) <==> f in multiset(ScanFolderSpec(folderExists, walked));
      }
    }
  }

  /** `scan_folder`: the walk appends each image file, then the list is sorted. */
  method ScanFolder(folderExists: bool, walked: seq<FileEntry>) returns (images: seq<FileEntry>)
    ensures images == ScanFolderSpec(folderExists, walked)
  {
    if !folderExists {
      return [];
    }
    var found: seq<FileEntry> := [];
    var i := 0;
    while i < |walked|
      invariant 0 <= i <= |walked|
      invariant found == ImagesIn(walked[..i])
    {
      assert walked[..i + 1][..i] == walked[..i];
      if IsImageFile(walked[i]) {
        found := found + [walked[i]];
      }
      i := i + 1;
    }
    assert walked[..i] == walked;
    images := SortPaths(found);
  }

  // ------------------------------------------------------------ hashing

  /** `calculate_file_hash`: the MD5 digest, or "error_<name>" when the file cannot be read. */
  function FileHash(f: FileEntry): (h: string)
    ensures f.digest.None? ==> h == "error_" + Name(f.path)
    ensures f.digest.Some? ==> h == f.digest.value
  {
    match f.digest
    case Some(d) => d
    case None => "error_" + Name(f.path)
  }

  // ------------------------------------------------------ find_new_images

  /** The caller's set of known hashes, which the search adds to in place. */
  class HashSet {
    var elems: set<string>

    constructor (init: set<string>)
      ensures elems == init
    {
      elems := init;
    }

    method Add(h: string)
      modifies this
      ensures elems == old(elems) + {h}
    {
      elems := elems + {h};
    }
  }

  /** The (path, hash) pairs the loop keeps from `scan` on, given the hashes seen so far. */
  function NewFrom(scan: seq<FileEntry>, seen: set<string>): (r: seq<(Path, string)>)
    ensures |r| <= |scan|
    decreases |scan|
  {
    if scan == [] then []
    else
      var h := FileHash(scan[0]);
      if h in seen then NewFrom(scan[1..], seen)
      else [(scan[0].path, h)] + NewFrom(scan[1..], seen + {h})
  }

  /** The hashes of a list of (path, hash) pairs. */
  function HashesOf(ps: seq<(Path, string)>): set<string> {
    if ps == [] then {} else {ps[0].1} + HashesOf(ps[1..])
  }

  /** The hashes of the scanned files. */
  function ScanHashes(scan: seq<FileEntry>): set<string> {
    if scan == [] then {} else {FileHash(scan[0])} + ScanHashes(scan[1..])
  }

  lemma {:induction false} HashesOfAppend(a: seq<(Path, string)>, b: seq<(Path, string)>)
    ensures HashesOf(a + b) == HashesOf(a) + HashesOf(b)
  {
    if a == [] {
      assert a + b == b;
    } else {
      assert (a + b)[1..] == a[1..] + b;
      HashesOfAppend(a[1..], b);
    }
  }

  function Pair(f: FileEntry): (Path, string) {
    (f.path, FileHash(f))
  }

  /** a is b with some elements left out, order kept. */
  predicate IsSubsequence<T(==)>(a: seq<T>, b: seq<T>)
    decreases |b|
  {
    if a == [] then true
    else if b == [] then false
    else (a[0] == b[0] && IsSubsequence(a[1..], b[1..])) || IsSubsequence(a, b[1..])
  }

  function Pairs(scan: seq<FileEntry>): (r: seq<(Path, string)>)
    ensures |r| == |scan| && forall k :: 0 <= k < |scan| ==> r[k] == Pair(scan[k])
  {
    seq(|scan|, k requires 0 <= k < |scan| => Pair(scan[k]))
  }

  /** The search reports no hash that was known before it started. */
  lemma {:induction false} NewFromFresh(scan: seq<FileEntry>, seen: set<string>)
    ensures forall k :: 0 <= k < |NewFrom(scan, seen)| ==> NewFrom(scan, seen)[k].1 !in seen
    decreases |scan|
  {
    if scan != [] {
      var h := FileHash(scan[0]);
      if h in seen {
        NewFromFresh(scan[1..], seen);
      } else {
        NewFromFresh(scan[1..], seen + {h});
      }
    }
  }

  predicate DistinctHashes(r: seq<(Path, string)>) {
    forall i, j :: 0 <= i < j < |r| ==> r[i].1 != r[j].1
  }

  /** The search reports each hash at most once. */
  lemma {:induction false} NewFromDistinct(scan: seq<FileEntry>, seen: set<string>)
    ensures DistinctHashes(NewFrom(scan, seen))
    decreases |scan|
  {
    if scan != [] {
      var h := FileHash(scan[0]);
      if h in seen {
        NewFromDistinct(scan[1..], seen);
        assert NewFrom(scan, seen) == NewFrom(scan[1..], seen);
      } else {
        var r := NewFrom(scan, seen);
        var tail := NewFrom(scan[1..], seen + {h});
        NewFromDistinct(scan[1..], seen + {h});
        NewFromFresh(scan[1..], seen + {h});
        assert r[1..] == tail;
        forall i, j | 0 <= i < j < |r| ensures r[i].1 != r[j].1 {
          assert r[j].1 == tail[j - 1].1;
          if i == 0 {
            assert r[0].1 == h && r[j].1 !in seen + {h};
          } else {
            assert r[i].1 == tail[i - 1].1;
          }
        }
      }
    }
  }

  /** Known hashes together with the reported ones are the known ones plus every scanned hash. */
  lemma {:induction false} NewFromCovers(scan: seq<FileEntry>, seen: set<string>)
    ensures seen + HashesOf(NewFrom(scan, seen)) == seen + ScanHashes(scan)
    decreases |scan|
  {
    if scan != [] {
      var h := FileHash(scan[0]);
      if h in seen {
        NewFromCovers(scan[1..], seen);
      } else {
        NewFromCovers(scan[1..], seen + {h});
        assert NewFrom(scan, seen)[1..] == NewFrom(scan[1..], seen + {h});
      }
    }
  }

  /** The reported pairs are (path, hash) pairs of the scan, in scan order. */
  lemma {:induction false} NewFromInScanOrder(scan: seq<FileEntry>, seen: set<string>)
    ensures IsSubsequence(NewFrom(scan, seen), Pairs(scan))
    decreases |scan|
  {
    if scan != [] {
      var h := FileHash(scan[0]);
      assert Pairs(scan)[1..] == Pairs(scan[1..]);
      if h in seen {
        NewFromInScanOrder(scan[1..], seen);
        if NewFrom(scan, seen) != [] {
          assert IsSubsequence(NewFrom(scan, seen), Pairs(scan)[1..]);
        }
      } else {
        NewFromInScanOrder(scan[1..], seen + {h});
        var r := NewFrom(scan, seen);
        assert r[0] == Pairs(scan)[0];
        assert r[1..] == NewFrom(scan[1..], seen + {h});
      }
    }
  }

  /** One step of the search: the next file is kept exactly when its hash is not yet seen. */
  lemma NewFromSkip(done: seq<(Path, string)>, all: seq<FileEntry>, i: nat, seen: set<string>)
    requires i < |all| && FileHash(all[i]) in seen
    ensures done + NewFrom(all[i..], seen) == done + NewFrom(all[i + 1..], seen)
  {
    assert all[i..][1..] == all[i + 1..];
  }

  lemma NewFromKeep(done: seq<(Path, string)>, all: seq<FileEntry>, i: nat, seen: set<string>)
    requires i < |all| && FileHash(all[i]) !in seen
    ensures var p := (all[i].path, FileHash(all[i]));
      && done + NewFrom(all[i..], seen) == (done + [p]) + NewFrom(all[i + 1..], seen + {p.1})
      && HashesOf(done + [p]) == HashesOf(done) + {p.1}
  {
    var p := (all[i].path, FileHash(all[i]));
    assert all[i..][1..] == all[i + 1..];
    HashesOfAppend(done, [p]);
    assert HashesOf([p]) == {p.1} + HashesOf([p][1..]);
  }

  /** The loop of `find_new_images` over the scanned images. */
  method RecordNew(all: seq<FileEntry>, existing: HashSet) returns (newImages: seq<(Path, string)>)
    modifies existing
    ensures newImages == NewFrom(all, old(existing.elems))
    ensures existing.elems == old(existing.elems) + HashesOf(newImages)
  {
    ghost var seen0 := existing.elems;
    newImages := [];
    var i := 0;
    while i < |all|
      invariant 0 <= i <= |all|
      invariant existing.elems == seen0 + HashesOf(newImages)
      invariant newImages + NewFrom(all[i..], existing.elems) == NewFrom(all, seen0)
    {
      var h := FileHash(all[i]);
      if h !in existing.elems {
        NewFromKeep(newImages, all, i, existing.elems);
        newImages := newImages + [(all[i].path, h)];
        existing.Add(h);
      } else {
        NewFromSkip(newImages, all, i, existing.elems);
      }
      i := i + 1;
    }
    assert all[i..] == [];
    assert newImages + [] == newImages;
  }

  /**
   * `find_new_images`: each scanned image is hashed; a hash not yet in the
   * caller's set is reported with its path and added to the set at once,
   * so a later file with the same content or the same error name is
   * skipped.
   */
  method FindNewImages(folderExists: bool, walked: seq<FileEntry>, existing: HashSet)
    returns (newImages: seq<(Path, string)>)
    modifies existing
    ensures newImages == NewFrom(ScanFolderSpec(folderExists, walked), old(existing.elems))
    ensures existing.elems == old(existing.elems) + HashesOf(newImages)
  {
    var all := ScanFolder(folderExists, walked);
    newImages := RecordNew(all, existing);
  }

  /** Two unreadable files with the same name in one scan: only the first is reported. */
  lemma SameErrorNameReportedOnce(a: FileEntry, b: FileEntry)
    requires a.digest.None? && b.digest.None? && Name(a.path) == Name(b.path)
    ensures NewFrom([a, b], {}) == [(a.path, FileHash(a))]
  {
    var h := FileHash(a);
    assert [a, b][1..] == [b];
    assert {} + {h} == {h};
    assert NewFrom([b], {h}) == [];
    assert NewFrom([a, b], {}) == [(a.path, h)] + NewFrom([b], {h});
  }
}
