/** Benchmark Layout Validator: the checks of a benchmark dataset folder before
    use, and the generation of the UADFV held-out test split by copying the
    listed test videos into test/real/ and test/fake/. */
module BenchmarkLayout {
  import opened Common
  import opened FileSystem
  import opened Folders

  /** The number of UADFV test videos the layout check expects. */
  const UadfvTestVideos: nat := 28

  /** The split decides class by name length: a fake video's name is longer than 8 characters. */
  predicate IsFakeName(v: string)
  {
    |v| > 8
  }

  /** The folder a listed test video is copied from. */
  function SourceDir(path: string, v: string): string
  {
    if IsFakeName(v) then FakeDir(path) else RealDir(path)
  }

  /** The test folder it is copied to. */
  function TargetDir(path: string, v: string): string
  {
    if IsFakeName(v) then TestFakeDir(path) else TestRealDir(path)
  }

  predicate NothingUnderTest(fs: Fs, path: string)
  {
    forall k :: k in fs.dirs ==> !(TestDir(path) <= k)
  }

  /** A path that ends in fake_videos.zip does not end in fake_videos. */
  lemma ZipIsNotFolder(s: string)
    requires EndsWith(s, "fake_videos.zip")
    ensures !EndsWith(s, "fake_videos")
  {
    assert s[|s| - 1] == "fake_videos.zip"[14];
  }

  /** When structure_uadfv_files runs to the end: the dataset folder exists,
      test/ does not, and every listed video is in its source folder. */
  predicate CanStructure(fs: Fs, path: string, csv: seq<string>)
  {
    && Root(path) in fs.dirs
    && "test" !in fs.dirs[Root(path)].files
    && TestDir(path) !in fs.dirs && TestFakeDir(path) !in fs.dirs && TestRealDir(path) !in fs.dirs
    && forall v :: v in csv ==> IsFile(fs, SourceDir(path, v), v)
  }

  /** The generated split: test/ holds just the folders fake/ and real/, and each
      of those holds every listed video of its class exactly once and nothing else. */
  ghost predicate TestLayout(fs: Fs, path: string, csv: seq<string>)
  {
    && TestDir(path) in fs.dirs
    && fs.dirs[TestDir(path)] == Dir(["fake", "real"], [])
    && TestFakeDir(path) in fs.dirs
    && fs.dirs[TestFakeDir(path)].subdirs == []
    && NoDuplicates(fs.dirs[TestFakeDir(path)].files)
    && (forall v :: v in fs.dirs[TestFakeDir(path)].files <==> v in csv && IsFakeName(v))
    && TestRealDir(path) in fs.dirs
    && fs.dirs[TestRealDir(path)].subdirs == []
    && NoDuplicates(fs.dirs[TestRealDir(path)].files)
    && (forall v :: v in fs.dirs[TestRealDir(path)].files <==> v in csv && !IsFakeName(v))
  }

  /** Outside test/ nothing appears or disappears, every directory but the
      dataset folder keeps its entries, and the dataset folder keeps its files. */
  ghost predicate SameOutsideTest(fs: Fs, out: Fs, path: string)
  {
    && (forall k :: !(TestDir(path) <= k) ==> (k in out.dirs <==> k in fs.dirs))
    && (forall k :: k in fs.dirs && !(TestDir(path) <= k) && k != Root(path) ==> out.dirs[k] == fs.dirs[k])
    && (Root(path) in fs.dirs ==> Root(path) in out.dirs && out.dirs[Root(path)].files == fs.dirs[Root(path)].files)
  }

  /** The three os.mkdir calls leave an empty split and change nothing else
      but the dataset folder's list of sub-directories. */
  lemma MkdirsMakeEmptySplit(fs: Fs, s1: Fs, s2: Fs, s3: Fs, path: string)
    requires Mkdir(fs, Root(path), "test") == Ok(s1)
    requires Mkdir(s1, TestDir(path), "fake") == Ok(s2)
    requires Mkdir(s2, TestDir(path), "real") == Ok(s3)
    ensures TestLayout(s3, path, [])
    ensures SameOutsideTest(fs, s3, path)
    ensures s3.dirs[Root(path)].subdirs == fs.dirs[Root(path)].subdirs + ["test"]
  {
    MkdirTargets(path);
    Separate(path);
  }

  /** Copying the next listed video extends the split by that video and
      changes nothing outside test/. */
  lemma CopyExtendsSplit(fs: Fs, out: Fs, next: Fs, path: string, done: seq<string>, v: string)
    requires TestLayout(out, path, done)
    requires SameOutsideTest(fs, out, path)
    requires Root(path) in out.dirs
    requires CopyInto(out, SourceDir(path, v), v, TargetDir(path, v)) == Ok(next)
    ensures TestLayout(next, path, done + [v])
    ensures SameOutsideTest(fs, next, path)
    ensures Root(path) in next.dirs && next.dirs[Root(path)] == out.dirs[Root(path)]
  {
    Separate(path);
  }

  lemma SameOutsideTestTransitive(a: Fs, b: Fs, c: Fs, path: string)
    requires SameOutsideTest(a, b, path) && SameOutsideTest(b, c, path)
    ensures SameOutsideTest(a, c, path)
  {
  }

  /** The source folders lie outside test/, so a change confined to test/
      leaves every source video where it was. */
  lemma SourcesKept(fs: Fs, out: Fs, path: string, v: string)
    requires SameOutsideTest(fs, out, path)
    ensures IsFile(out, SourceDir(path, v), v) <==> IsFile(fs, SourceDir(path, v), v)
  {
    Separate(path);
  }

  /** The loop of structure_uadfv_files: copy each listed video into its test
      folder, stopping at the first video whose source is missing. */
  method CopyTestVideos(start: Fs, path: string, csv: seq<string>) returns (out: Fs, err: Option<Error>)
    requires TestLayout(start, path, [])
    requires Root(path) in start.dirs
    ensures err.None? <==> forall v :: v in csv ==> IsFile(start, SourceDir(path, v), v)
    ensures err.None? ==> TestLayout(out, path, csv) && SameOutsideTest(start, out, path)
    ensures err.None? ==> Root(path) in out.dirs && out.dirs[Root(path)] == start.dirs[Root(path)]
  {
    out := start;
    assert csv[..0] == [];
    var i := 0;
    while i < |csv|
      invariant 0 <= i <= |csv|
      invariant forall j :: 0 <= j < i ==> IsFile(start, SourceDir(path, csv[j]), csv[j])
      invariant TestLayout(out, path, csv[..i])
      invariant SameOutsideTest(start, out, path)
      invariant Root(path) in out.dirs && out.dirs[Root(path)] == start.dirs[Root(path)]
    {
      var v := csv[i];
      var copied := CopyInto(out, SourceDir(path, v), v, TargetDir(path, v));
      SourcesKept(start, out, path, v);
      if copied.Err? {
        assert v in csv && !IsFile(start, SourceDir(path, v), v);
        return out, Some(copied.error);
      }
      CopyExtendsSplit(start, out, copied.value, path, csv[..i], v);
      out := copied.value;
      assert csv[..i + 1] == csv[..i] + [v];
      i := i + 1;
    }
    assert csv[..i] == csv;
    assert forall v :: v in csv ==> IsFile(start, SourceDir(path, v), v) by {
      forall v | v in csv ensures IsFile(start, SourceDir(path, v), v) {
        var j :| 0 <= j < |csv| && csv[j] == v;
      }
    }
    return out, None;
  }

  /** structure_uadfv_files: create test/, test/fake/ and test/real/, then copy
      every video of the test list from fake/ or real/, by name length. The
      first failing os.mkdir or shutil.copy ends the run; what was done stays. */
  method StructureUadfvFiles(fs: Fs, path: string, csv: seq<string>) returns (out: Fs, err: Option<Error>)
    ensures err.None? <==> CanStructure(fs, path, csv)
    ensures err.None? ==> TestLayout(out, path, csv) && SameOutsideTest(fs, out, path)
    ensures err.None? ==> out.dirs[Root(path)].subdirs == fs.dirs[Root(path)].subdirs + ["test"]
  {
    MkdirTargets(path);
    Separate(path);
    var s1 := Mkdir(fs, Root(path), "test");
    if s1.Err? {
      return fs, Some(s1.error);
    }
    var s2 := Mkdir(s1.value, TestDir(path), "fake");
    if s2.Err? {
      return s1.value, Some(s2.error);
    }
    var s3 := Mkdir(s2.value, TestDir(path), "real");
    if s3.Err? {
      return s2.value, Some(s3.error);
    }
    MkdirsMakeEmptySplit(fs, s1.value, s2.value, s3.value, path);
    out, err := CopyTestVideos(s3.value, path, csv);
    forall v | v in csv
      ensures IsFile(s3.value, SourceDir(path, v), v) <==> IsFile(fs, SourceDir(path, v), v)
    {
      SourcesKept(fs, s3.value, path, v);
    }
    if err.None? {
      SameOutsideTestTransitive(fs, s3.value, out, path);
    }
  }

  /** `len(names)` of `[f for f in names if os.path.isfile(dir + f)]`. */
  function CountFilesIn(fs: Fs, names: seq<string>, dir: string): (n: nat)
    ensures n <= |names|
  {
    if names == [] then 0
    else (if IsFile(fs, dir, names[0]) then 1 else 0) + CountFilesIn(fs, names[1..], dir)
  }

  /** The completeness count as the code computes it: the ENTRIES OF test/
      that are files inside test/real/, plus those that are files inside test/fake/. */
  function ListedTestFiles(fs: Fs, path: string): nat
  {
    CountFilesIn(fs, ListDir(fs, TestDir(path)), TestRealDir(path))
      + CountFilesIn(fs, ListDir(fs, TestDir(path)), TestFakeDir(path))
  }

  /** When setup_uadfv_benchmark regenerates test/: it is missing, or the count is not 28. */
  predicate NeedsRebuild(fs: Fs, path: string)
  {
    TestDir(path) !in fs.dirs || ListedTestFiles(fs, path) != UadfvTestVideos
  }

  /** The disk just before structure_uadfv_files runs: test/ removed if it was there. */
  function Cleared(fs: Fs, path: string): (r: Fs)
    ensures TestDir(path) in fs.dirs ==> NothingUnderTest(r, path)
    ensures SameOutsideTest(fs, r, path)
    ensures Root(path) in r.dirs ==>
               r.dirs[Root(path)].subdirs ==
               (if TestDir(path) in fs.dirs then Without(fs.dirs[Root(path)].subdirs, "test") else fs.dirs[Root(path)].subdirs)
  {
    MkdirTargets(path);
    Separate(path);
    if TestDir(path) in fs.dirs then Rmtree(fs, Root(path), "test") else fs
  }

  /** setup_uadfv_benchmark: reject a missing path, a path to the zip archive
      and any path not ending in fake_videos; otherwise build test/ when it is
      missing and rebuild it when the count is not 28. */
  method SetupUadfvBenchmark(fs: Fs, dataPath: Option<string>, csv: seq<string>) returns (out: Fs, err: Option<Error>)
    ensures dataPath.None? ==> out == fs && err == Some(UadfvDownload)
    ensures dataPath.Some? && EndsWith(dataPath.value, "fake_videos.zip") ==> out == fs && err == Some(UadfvZipped)
    ensures dataPath.Some? && !EndsWith(dataPath.value, "fake_videos.zip") && !EndsWith(dataPath.value, "fake_videos") ==>
              out == fs && err == Some(UadfvLayout)
    ensures dataPath.Some? && EndsWith(dataPath.value, "fake_videos") && !NeedsRebuild(fs, dataPath.value) ==>
              out == fs && err == None
    ensures dataPath.Some? && EndsWith(dataPath.value, "fake_videos") && NeedsRebuild(fs, dataPath.value) ==>
              (err.None? <==> CanStructure(Cleared(fs, dataPath.value), dataPath.value, csv))
    ensures dataPath.Some? && EndsWith(dataPath.value, "fake_videos") && NeedsRebuild(fs, dataPath.value) && err.None? ==>
              TestLayout(out, dataPath.value, csv) && SameOutsideTest(fs, out, dataPath.value)
    ensures dataPath.Some? && err.None? && NeedsRebuild(fs, dataPath.value) && "fake" !in csv && "real" !in csv ==>
              NeedsRebuild(out, dataPath.value)
  {
    if dataPath.None? {
      return fs, Some(UadfvDownload);
    }
    var path := dataPath.value;
    if EndsWith(path, "fake_videos.zip") {
      ZipIsNotFolder(path);
      return fs, Some(UadfvZipped);
    }
    if EndsWith(path, "fake_videos") {
      if TestDir(path) !in fs.dirs {
        out, err := StructureUadfvFiles(fs, path, csv);
      } else {
        var numFiles := CountFilesIn(fs, ListDir(fs, TestDir(path)), TestRealDir(path));
        numFiles := numFiles + CountFilesIn(fs, ListDir(fs, TestDir(path)), TestFakeDir(path));
        if numFiles != UadfvTestVideos {
          out, err := StructureUadfvFiles(Cleared(fs, path), path, csv);
        } else {
          out, err := fs, None;
        }
      }
      if err.None? && NeedsRebuild(fs, path) && "fake" !in csv && "real" !in csv {
        RebuiltLayoutIsRebuiltAgain(out, path, csv);
      }
    } else {
      out, err := fs, Some(UadfvLayout);
    }
  }

  /** The count as written is 0 right after test/ was generated (test/ lists
      only the folders fake/ and real/, which are no files of test/real/ or
      test/fake/), so every later call deletes and regenerates test/. */
  lemma {:induction false} RebuiltLayoutIsRebuiltAgain(fs: Fs, path: string, csv: seq<string>)
    requires TestLayout(fs, path, csv)
    requires "fake" !in csv && "real" !in csv
    ensures ListedTestFiles(fs, path) == 0
    ensures NeedsRebuild(fs, path)
  {
    var entries := ListDir(fs, TestDir(path));
    assert entries == ["fake", "real"];
    var rest := entries[1..];
    assert rest == ["real"] && rest[1..] == [];
    assert !IsFile(fs, TestRealDir(path), "fake") && !IsFile(fs, TestRealDir(path), "real");
    assert !IsFile(fs, TestFakeDir(path), "fake") && !IsFile(fs, TestFakeDir(path), "real");
    assert CountFilesIn(fs, rest, TestRealDir(path)) == 0;
    assert CountFilesIn(fs, rest, TestFakeDir(path)) == 0;
  }

  /** The count the check evidently means: the files in test/real/ and test/fake/. */
  function IntendedTestFiles(fs: Fs, path: string): nat
  {
    |Walk(fs, TestRealDir(path))| + |Walk(fs, TestFakeDir(path))|
  }

  predicate NeedsRebuildIntended(fs: Fs, path: string)
  {
    TestDir(path) !in fs.dirs || IntendedTestFiles(fs, path) != UadfvTestVideos
  }

  /** With the intended count, a freshly generated split from a list of
      distinct names counts exactly those names, so a 28-video split is kept. */
  lemma IntendedCountAfterRebuild(fs: Fs, path: string, csv: seq<string>)
    requires TestLayout(fs, path, csv)
    requires NoDuplicates(csv)
    ensures IntendedTestFiles(fs, path) == |csv|
    ensures |csv| == UadfvTestVideos ==> !NeedsRebuildIntended(fs, path)
  {
    var fakes := fs.dirs[TestFakeDir(path)].files;
    var reals := fs.dirs[TestRealDir(path)].files;
    DistinctCardinality(fakes);
    DistinctCardinality(reals);
    DistinctCardinality(csv);
    var fakeSet := set x | x in fakes;
    var realSet := set x | x in reals;
    assert (set x | x in csv) == fakeSet + realSet;
    assert fakeSet * realSet == {};
  }

  /** setup_uadfv_benchmark with the intended completeness count: the same
      checks, but test/ is rebuilt only when it is missing or its two class
      folders do not hold 28 files between them. Once it has built a split of 28
      distinct names, a second call leaves the disk as it is. */
  method SetupUadfvBenchmarkIntended(fs: Fs, dataPath: Option<string>, csv: seq<string>) returns (out: Fs, err: Option<Error>)
    ensures dataPath.None? ==> out == fs && err == Some(UadfvDownload)
    ensures dataPath.Some? && EndsWith(dataPath.value, "fake_videos.zip") ==> out == fs && err == Some(UadfvZipped)
    ensures dataPath.Some? && !EndsWith(dataPath.value, "fake_videos.zip") && !EndsWith(dataPath.value, "fake_videos") ==>
              out == fs && err == Some(UadfvLayout)
    ensures dataPath.Some? && EndsWith(dataPath.value, "fake_videos") && !NeedsRebuildIntended(fs, dataPath.value) ==>
              out == fs && err == None
    ensures dataPath.Some? && EndsWith(dataPath.value, "fake_videos") && NeedsRebuildIntended(fs, dataPath.value) ==>
              (err.None? <==> CanStructure(Cleared(fs, dataPath.value), dataPath.value, csv))
    ensures dataPath.Some? && EndsWith(dataPath.value, "fake_videos") && NeedsRebuildIntended(fs, dataPath.value) && err.None? ==>
              TestLayout(out, dataPath.value, csv) && SameOutsideTest(fs, out, dataPath.value)
    ensures dataPath.Some? && err.None? && NoDuplicates(csv) && |csv| == UadfvTestVideos ==>
              !NeedsRebuildIntended(out, dataPath.value)
  {
    if dataPath.None? {
      return fs, Some(UadfvDownload);
    }
    var path := dataPath.value;
    if EndsWith(path, "fake_videos.zip") {
      ZipIsNotFolder(path);
      return fs, Some(UadfvZipped);
    }
    if !EndsWith(path, "fake_videos") {
      return fs, Some(UadfvLayout);
    }
    if TestDir(path) !in fs.dirs {
      out, err := StructureUadfvFiles(fs, path, csv);
    } else if |Walk(fs, TestRealDir(path))| + |Walk(fs, TestFakeDir(path))| != UadfvTestVideos {
      out, err := StructureUadfvFiles(Cleared(fs, path), path, csv);
    } else {
      out, err := fs, None;
    }
    if err.None? && NeedsRebuildIntended(fs, path) && NoDuplicates(csv) && |csv| == UadfvTestVideos {
      IntendedCountAfterRebuild(out, path, csv);
      assert TestDir(path) in out.dirs;
    }
  }

  /** setup_celebdf_benchmark as written: a missing path and a path not ending
      in celebdf are rejected, and for every other path the banner's f-string
      evaluates `Celeb-DF` as an expression, which raises NameError. */
  function SetupCelebdfBenchmark(dataPath: Option<string>): (err: Option<Error>)
    ensures dataPath.None? ==> err == Some(CelebdfDownload)
    ensures dataPath.Some? && !EndsWith(dataPath.value, "celebdf") ==> err == Some(CelebdfLayout)
    ensures dataPath.Some? && EndsWith(dataPath.value, "celebdf") ==> err == Some(UndefinedName("Celeb"))
    ensures err.Some?
  {
    if dataPath.None? then Some(CelebdfDownload)
    else if EndsWith(dataPath.value, "celebdf") then Some(UndefinedName("Celeb"))
    else Some(CelebdfLayout)
  }

  /** setup_celebdf_benchmark as evidently intended: a path ending in celebdf passes. */
  function SetupCelebdfBenchmarkIntended(dataPath: Option<string>): (err: Option<Error>)
    ensures err.None? <==> dataPath.Some? && EndsWith(dataPath.value, "celebdf")
    ensures dataPath.None? ==> err == Some(CelebdfDownload)
    ensures err.Some? && dataPath.Some? ==> err == Some(CelebdfLayout)
  {
    if dataPath.None? then Some(CelebdfDownload)
    else if EndsWith(dataPath.value, "celebdf") then None
    else Some(CelebdfLayout)
  }
}
