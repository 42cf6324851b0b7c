/** DFDetector: the checks and the dispatch of benchmark, and the choice of
    where train_method saves the face crops of every training video. The
    network inference, the ensemble metrics and the face detector the two
    methods hand their data to are outside the model; what the model keeps is
    what reaches them. */
module Detector {
  import opened Common
  import opened FileSystem
  import opened Folders
  import opened BenchmarkLayout
  import opened MethodResolver
  import opened Labeler

  /** The seven methods benchmark accepts. */
  const BenchmarkMethods: set<string> :=
    {"xception", "efficientnetb7", "mesonet", "resnetlstm", "efficientnetb1_lstm", "dfdcrank90", "five_methods_ensemble"}

  /** What benchmark hands on for evaluation: a single network with its test rows
      and input format, or the test rows for the DFDC rank-90 ensemble. */
  datatype Evaluation =
    | Inference(model: Model, rows: seq<Row>, imgSize: nat, normalization: Normalization)
    | DfdcRank90(rows: seq<Row>)

  /** The methods for which benchmark reaches an evaluation. */
  const EvaluatedMethods: set<string> := {"xception", "efficientnetb7", "dfdcrank90"}

  /** The part of benchmark after the dataset folder is set up: label the test
      data, then prepare the method. Only xception and efficientnetb7 bind the
      `model` that inference reads, so the other single-network methods and the
      five-method ensemble end in UnboundLocalError. */
  method Evaluate(fs: Fs, dataset: string, path: string, name: string,
                  csv: seq<string>, testList: Option<seq<(int, string)>>)
    returns (r: Result<Evaluation>)
    requires name in BenchmarkMethods
    requires dataset == "uadfv" || dataset == "celebdf"
    ensures r.Ok? <==> name in EvaluatedMethods && (dataset == "celebdf" ==> CelebTestRows(path, testList).Ok?)
    ensures dataset == "celebdf" && CelebTestRows(path, testList).Err? ==> r == Err(CelebTestRows(path, testList).error)
    ensures (dataset == "uadfv" || CelebTestRows(path, testList).Ok?) && name !in EvaluatedMethods ==>
              r == Err(Unbound("model"))
    ensures r.Ok? ==> (r.value.DfdcRank90? <==> name == "dfdcrank90")
    ensures r.Ok? && r.value.Inference? ==>
              r.value.model == Pretrained(WeightFile(name, dataset)) &&
              r.value.imgSize == MethodTable[name].0 && r.value.normalization == MethodTable[name].1
    ensures r.Ok? && dataset == "uadfv" ==> r.value.rows == UadfvTestRows(fs, path)
    ensures r.Ok? && dataset == "celebdf" ==> CelebTestRows(path, testList) == Ok(r.value.rows)
  {
    var df := LabelData(fs, Some(path), dataset, "xception", false, true, csv, testList);
    if df.Err? {
      return Err(df.error);
    }
    if name == "xception" || name == "efficientnetb7" {
      // test mode loads both networks, so the unpacking succeeds
      var prepared := Unpack(PrepareMethod(name, dataset, "test"));
      var p := prepared.value;
      r := Ok(Inference(p.model, df.value, p.imgSize, p.normalization));
    } else if name == "dfdcrank90" {
      r := Ok(DfdcRank90(df.value));
    } else {
      r := Err(Unbound("model"));
    }
  }

  /** DFDetector.benchmark(dataset, data_path, method). The method is checked
      against the whitelist before anything else happens; then the dataset's
      folder is set up by the setup functions as written. So every Celeb-DF
      benchmark ends in the setup's error, and a UADFV split that was just built
      counts as incomplete on the next call. `csv` and `testList` are the
      bundled UADFV test list and Celeb-DF's parsed test list. */
  method Benchmark(fs: Fs, dataset: string, dataPath: Option<string>, name: string,
                   csv: seq<string>, testList: Option<seq<(int, string)>>)
    returns (out: Fs, r: Result<Evaluation>)
    ensures name !in BenchmarkMethods ==> out == fs && r == Err(NotBenchmarkable(name))
    ensures name in BenchmarkMethods && dataset != "uadfv" && dataset != "celebdf" ==>
              out == fs && r == Err(UnknownDataset(dataset))
    ensures dataset != "uadfv" ==> out == fs
    ensures name in BenchmarkMethods && dataset == "celebdf" ==> r == Err(SetupCelebdfBenchmark(dataPath).value)
    ensures name in BenchmarkMethods && dataset == "uadfv" && dataPath.None? ==> r == Err(UadfvDownload)
    ensures name in BenchmarkMethods && dataset == "uadfv" && dataPath.Some? && EndsWith(dataPath.value, "fake_videos.zip") ==>
              out == fs && r == Err(UadfvZipped)
    ensures name in BenchmarkMethods && dataset == "uadfv" && dataPath.Some? &&
            !EndsWith(dataPath.value, "fake_videos.zip") && !EndsWith(dataPath.value, "fake_videos") ==>
              out == fs && r == Err(UadfvLayout)
    ensures name in BenchmarkMethods && dataset == "uadfv" && dataPath.Some? && EndsWith(dataPath.value, "fake_videos") ==>
              (r.Ok? <==> name in EvaluatedMethods &&
                          (!NeedsRebuild(fs, dataPath.value) || CanStructure(Cleared(fs, dataPath.value), dataPath.value, csv)))
    ensures dataPath.Some? && dataset == "uadfv" && !NeedsRebuild(fs, dataPath.value) ==> out == fs
    ensures r.Ok? && NeedsRebuild(fs, dataPath.value) ==>
              TestLayout(out, dataPath.value, csv) && SameOutsideTest(fs, out, dataPath.value)
    ensures r.Ok? && NeedsRebuild(fs, dataPath.value) && "fake" !in csv && "real" !in csv ==> NeedsRebuild(out, dataPath.value)
    ensures r.Ok? ==> dataset == "uadfv" && dataPath.Some? && name in EvaluatedMethods
    ensures r.Ok? ==> (r.value.DfdcRank90? <==> name == "dfdcrank90")
    ensures r.Ok? && r.value.Inference? ==>
              r.value.model == Pretrained(WeightFile(name, dataset)) &&
              r.value.imgSize == MethodTable[name].0 && r.value.normalization == MethodTable[name].1
    ensures r.Ok? ==> r.value.rows == UadfvTestRows(out, dataPath.value)
  {
    out := fs;
    if name !in BenchmarkMethods {
      return out, Err(NotBenchmarkable(name));
    }
    if dataset == "uadfv" {
      var setupErr;
      out, setupErr := SetupUadfvBenchmark(fs, dataPath, csv);
      if setupErr.Some? {
        return out, Err(setupErr.value);
      }
    } else if dataset == "celebdf" {
      var setupErr := SetupCelebdfBenchmark(dataPath);
      return out, Err(setupErr.value);
    } else {
      return out, Err(UnknownDataset(dataset));
    }
    r := Evaluate(out, dataset, dataPath.value, name, csv, testList);
  }

  /** benchmark with the two setup functions as evidently intended: a Celeb-DF
      path ending in celebdf passes its check, and a complete UADFV split is
      kept. Once a split of the 28 distinct listed videos exists, a successful
      call leaves it for the next one. */
  method BenchmarkIntended(fs: Fs, dataset: string, dataPath: Option<string>, name: string,
                           csv: seq<string>, testList: Option<seq<(int, string)>>)
    returns (out: Fs, r: Result<Evaluation>)
    ensures name !in BenchmarkMethods ==> out == fs && r == Err(NotBenchmarkable(name))
    ensures name in BenchmarkMethods && dataset != "uadfv" && dataset != "celebdf" ==>
              out == fs && r == Err(UnknownDataset(dataset))
    ensures dataset != "uadfv" ==> out == fs
    ensures name in BenchmarkMethods && dataset == "celebdf" && SetupCelebdfBenchmarkIntended(dataPath).Some? ==>
              r == Err(SetupCelebdfBenchmarkIntended(dataPath).value)
    ensures name in BenchmarkMethods && dataset == "celebdf" && dataPath.Some? && EndsWith(dataPath.value, "celebdf") ==>
              (r.Ok? <==> name in EvaluatedMethods && CelebTestRows(dataPath.value, testList).Ok?)
    ensures name in BenchmarkMethods && dataset == "uadfv" && dataPath.None? ==> r == Err(UadfvDownload)
    ensures name in BenchmarkMethods && dataset == "uadfv" && dataPath.Some? && EndsWith(dataPath.value, "fake_videos.zip") ==>
              out == fs && r == Err(UadfvZipped)
    ensures name in BenchmarkMethods && dataset == "uadfv" && dataPath.Some? &&
            !EndsWith(dataPath.value, "fake_videos.zip") && !EndsWith(dataPath.value, "fake_videos") ==>
              out == fs && r == Err(UadfvLayout)
    ensures name in BenchmarkMethods && dataset == "uadfv" && dataPath.Some? && EndsWith(dataPath.value, "fake_videos") ==>
              (r.Ok? <==> name in EvaluatedMethods &&
                          (!NeedsRebuildIntended(fs, dataPath.value) || CanStructure(Cleared(fs, dataPath.value), dataPath.value, csv)))
    ensures dataPath.Some? && dataset == "uadfv" && !NeedsRebuildIntended(fs, dataPath.value) ==> out == fs
    ensures r.Ok? && dataset == "uadfv" && NeedsRebuildIntended(fs, dataPath.value) ==>
              TestLayout(out, dataPath.value, csv) && SameOutsideTest(fs, out, dataPath.value)
    ensures r.Ok? && dataset == "uadfv" && NoDuplicates(csv) && |csv| == UadfvTestVideos ==>
              !NeedsRebuildIntended(out, dataPath.value)
    ensures r.Ok? ==> dataPath.Some? && name in EvaluatedMethods
    ensures r.Ok? ==> (r.value.DfdcRank90? <==> name == "dfdcrank90")
    ensures r.Ok? && r.value.Inference? ==>
              r.value.model == Pretrained(WeightFile(name, dataset)) &&
              r.value.imgSize == MethodTable[name].0 && r.value.normalization == MethodTable[name].1
    ensures r.Ok? && dataset == "uadfv" ==> r.value.rows == UadfvTestRows(out, dataPath.value)
    ensures r.Ok? && dataset == "celebdf" ==> CelebTestRows(dataPath.value, testList) == Ok(r.value.rows)
  {
    out := fs;
    if name !in BenchmarkMethods {
      return out, Err(NotBenchmarkable(name));
    }
    if dataset == "uadfv" {
      var setupErr;
      out, setupErr := SetupUadfvBenchmarkIntended(fs, dataPath, csv);
      if setupErr.Some? {
        return out, Err(setupErr.value);
      }
    } else if dataset == "celebdf" {
      var setupErr := SetupCelebdfBenchmarkIntended(dataPath);
      if setupErr.Some? {
        return out, Err(setupErr.value);
      }
    } else {
      return out, Err(UnknownDataset(dataset));
    }
    r := Evaluate(out, dataset, dataPath.value, name, csv, testList);
  }

  /** After structure_uadfv_files, benchmark's test rows are exactly the test
      list: a name longer than 8 characters as a fake under test/fake/, any other
      name as a real video under test/real/. */
  lemma TestRowsFollowSplit(fs: Fs, path: string, csv: seq<string>, row: Row)
    requires TestLayout(fs, path, csv)
    ensures row in UadfvTestRows(fs, path) <==>
              exists v :: v in csv &&
                (if IsFakeName(v) then row == Video(1, TestFakeDir(path) + v) else row == Video(0, TestRealDir(path) + v))
  {
  }

  // ---------------------------------------------------------------------------
  // train_method: where the face crops of a training video go
  // ---------------------------------------------------------------------------

  /** One face-extraction job: the video to read, the name its crops are saved
      under and the folder they are saved to. */
  datatype Extraction = Extraction(source: string, name: string, saveDir: string)

  /** The job train_method runs for one training row. Every row's video column
      is read first; then on UADFV a fake video keeps the last 14 characters of
      its path and a real one the last 9, and on Celeb-DF the crops keep the
      bare file name from the video_name column. On another dataset `save_dir`
      is never assigned. */
  function ExtractionTarget(dataset: string, imgSavePath: string, row: Row): (r: Result<Extraction>)
    ensures row.Sequence? ==> r == Err(MissingColumn("video"))
    ensures dataset == "uadfv" && !row.Sequence? ==>
              r.Ok? && r.value.source == row.video &&
              (r.value.saveDir == TrainImgsFakeDir(imgSavePath) <==> row.cls == 1) &&
              (row.cls == 1 ==> r.value.name == Tail(row.video, 14)) &&
              (row.cls != 1 ==> r.value.name == Tail(row.video, 9) && r.value.saveDir == TrainImgsRealDir(imgSavePath))
    ensures dataset == "celebdf" ==> (r.Ok? <==> row.NamedVideo?)
    ensures dataset == "celebdf" && row.Video? ==> r == Err(MissingColumn("video_name"))
    ensures dataset == "celebdf" && row.NamedVideo? ==>
              r.value.source == row.video && r.value.name == row.videoName &&
              r.value.saveDir == (if row.cls == 1 then FaceCropsFakeDir(imgSavePath) else FaceCropsRealDir(imgSavePath))
    ensures dataset != "uadfv" && dataset != "celebdf" && !row.Sequence? ==> r == Err(Unbound("save_dir"))
  {
    if row.Sequence? then Err(MissingColumn("video"))
    else if dataset == "uadfv" then
      if row.cls == 1 then Ok(Extraction(row.video, Tail(row.video, 14), TrainImgsFakeDir(imgSavePath)))
      else
        TrainFoldersDiffer(imgSavePath);
        Ok(Extraction(row.video, Tail(row.video, 9), TrainImgsRealDir(imgSavePath)))
    else if dataset == "celebdf" then
      if !row.NamedVideo? then Err(MissingColumn("video_name"))
      else if row.cls == 1 then Ok(Extraction(row.video, row.videoName, FaceCropsFakeDir(imgSavePath)))
      else Ok(Extraction(row.video, row.videoName, FaceCropsRealDir(imgSavePath)))
    else
      Err(Unbound("save_dir"))
  }

  lemma TrainFoldersDiffer(path: string)
    ensures TrainImgsRealDir(path) != TrainImgsFakeDir(path)
  {
    assert TrainImgsRealDir(path)[|path| + 12] == 'r';
    assert TrainImgsFakeDir(path)[|path| + 12] == 'f';
  }

  /** The per-row loop of train_method (without the face detection it calls):
      the save path is required before anything else, and the first row the
      branch cannot handle stops the loop. */
  method PlanExtraction(dataset: string, imgSavePath: Option<string>, rows: seq<Row>)
    returns (r: Result<seq<Extraction>>)
    ensures imgSavePath.None? ==> r == Err(NoSavePath)
    ensures r.Ok? <==> imgSavePath.Some? && forall row :: row in rows ==> ExtractionTarget(dataset, imgSavePath.value, row).Ok?
    ensures r.Ok? ==> |r.value| == |rows|
    ensures r.Ok? ==> forall i :: 0 <= i < |rows| ==> Ok(r.value[i]) == ExtractionTarget(dataset, imgSavePath.value, rows[i])
    ensures r.Err? && imgSavePath.Some? ==>
              exists i :: 0 <= i < |rows| && ExtractionTarget(dataset, imgSavePath.value, rows[i]) == Err(r.error) &&
                          forall j :: 0 <= j < i ==> ExtractionTarget(dataset, imgSavePath.value, rows[j]).Ok?
  {
    if imgSavePath.None? {
      return Err(NoSavePath);
    }
    var save := imgSavePath.value;
    var jobs: seq<Extraction> := [];
    var i := 0;
    while i < |rows|
      invariant 0 <= i <= |rows|
      invariant |jobs| == i
      invariant forall j :: 0 <= j < i ==> Ok(jobs[j]) == ExtractionTarget(dataset, save, rows[j])
    {
      var target := ExtractionTarget(dataset, save, rows[i]);
      if target.Err? {
        return Err(target.error);
      }
      jobs := jobs + [target.value];
      i := i + 1;
    }
    r := Ok(jobs);
  }

  /** A UADFV training video named as the dataset names them (8 characters for a
      real video, 13 for a fake one) is saved under its own name behind a '/',
      into the train_imgs folder of its class under the save path. label_data
      reads the crops of that class from the train_imgs folder under the data
      path, which is the same folder exactly when the two paths are equal. */
  lemma UadfvCropsLandWhereTheyAreRead(path: string, imgSavePath: string, v: string)
    ensures |v| == 13 ==>
              ExtractionTarget("uadfv", imgSavePath, Video(1, FakeDir(path) + v)) ==
              Ok(Extraction(FakeDir(path) + v, "/" + v, TrainImgsFakeDir(imgSavePath)))
    ensures |v| == 8 ==>
              ExtractionTarget("uadfv", imgSavePath, Video(0, RealDir(path) + v)) ==
              Ok(Extraction(RealDir(path) + v, "/" + v, TrainImgsRealDir(imgSavePath)))
    ensures TrainImgsFakeDir(imgSavePath) == TrainImgsFakeDir(path) <==> imgSavePath == path
    ensures TrainImgsRealDir(imgSavePath) == TrainImgsRealDir(path) <==> imgSavePath == path
  {
    if |v| == 13 {
      var video := FakeDir(path) + v;
      assert video[|video| - 14..] == "/" + v;
    }
    if |v| == 8 {
      var video := RealDir(path) + v;
      assert video[|video| - 9..] == "/" + v;
    }
    if TrainImgsFakeDir(imgSavePath) == TrainImgsFakeDir(path) {
      assert imgSavePath == TrainImgsFakeDir(imgSavePath)[..|imgSavePath|];
      assert path == TrainImgsFakeDir(path)[..|path|];
    }
    if TrainImgsRealDir(imgSavePath) == TrainImgsRealDir(path) {
      assert imgSavePath == TrainImgsRealDir(imgSavePath)[..|imgSavePath|];
      assert path == TrainImgsRealDir(path)[..|path|];
    }
  }
}
