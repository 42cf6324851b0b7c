/** label_data and switch_one_zero: turning the class folders of a dataset (and
    its list of held-out test videos) into labelled rows, with label 1 for a
    fake and 0 for a real video. A folder's listing is what os.walk yields for
    it; the bundled uadfv_test.csv and Celeb-DF's List_of_testing_videos.txt are
    passed in as their parsed contents. */
module Labeler {
  import opened Common
  import opened FileSystem
  import opened Folders
  import SequenceGrouper

  /** One row of the DataFrame label_data returns; which columns it has depends on
      the branch that built it. */
  datatype Row =
    | Video(cls: int, video: string)                           // columns label, video
    | NamedVideo(cls: int, video: string, videoName: string)   // label, video, video_name
    | Sequence(cls: int, original: string)                     // label, original

  /** switch_one_zero: Celeb-DF marks real videos with 1; the detector wants 1 for fakes. */
  function SwitchOneZero(num: int): (r: int)
    ensures r == 0 || r == 1
    ensures r == 0 <==> num == 1
  {
    if num == 1 then 0 else 1
  }

  /** On the labels 0 and 1 the switch undoes itself. */
  lemma SwitchOneZeroInvolution(num: int)
    requires num == 0 || num == 1
    ensures SwitchOneZero(SwitchOneZero(num)) == num
  {
  }

  // ---------------------------------------------------------------------------
  // Rows built from a folder listing
  // ---------------------------------------------------------------------------

  /** One row per listed file, all with the same label and path prefix. */
  function Labelled(cls: int, dir: string, videos: seq<string>): (r: seq<Row>)
    ensures |r| == |videos|
    ensures forall row :: row in r <==> exists v :: v in videos && row == Video(cls, dir + v)
  {
    if videos == [] then []
    else [Video(cls, dir + videos[0])] + Labelled(cls, dir, videos[1..])
  }

  lemma {:induction false} LabelledSnoc(cls: int, dir: string, videos: seq<string>, v: string)
    ensures Labelled(cls, dir, videos + [v]) == Labelled(cls, dir, videos) + [Video(cls, dir + v)]
  {
    if videos != [] {
      assert (videos + [v])[1..] == videos[1..] + [v];
      LabelledSnoc(cls, dir, videos[1..], v);
    }
  }

  /** `for video in videos: data_list.append({'label': cls, 'video': dir + video})`. */
  method AppendLabelled(rows: seq<Row>, cls: int, dir: string, videos: seq<string>) returns (out: seq<Row>)
    ensures out == rows + Labelled(cls, dir, videos)
  {
    out := rows;
    var i := 0;
    while i < |videos|
      invariant 0 <= i <= |videos|
      invariant out == rows + Labelled(cls, dir, videos[..i])
    {
      LabelledSnoc(cls, dir, videos[..i], videos[i]);
      assert videos[..i + 1] == videos[..i] + [videos[i]];
      out := out + [Video(cls, dir + videos[i])];
      i := i + 1;
    }
    assert videos[..i] == videos;
  }

  /** The rows of the listed files that are also in `keep`. */
  function Kept(cls: int, dir: string, videos: seq<string>, keep: seq<string>): (r: seq<Row>)
    ensures |r| <= |videos|
    ensures forall row :: row in r <==> exists v :: v in videos && v in keep && row == Video(cls, dir + v)
  {
    if videos == [] then []
    else if videos[0] in keep then [Video(cls, dir + videos[0])] + Kept(cls, dir, videos[1..], keep)
    else Kept(cls, dir, videos[1..], keep)
  }

  lemma {:induction false} KeptSnoc(cls: int, dir: string, videos: seq<string>, keep: seq<string>, v: string)
    ensures Kept(cls, dir, videos + [v], keep) ==
              Kept(cls, dir, videos, keep) + (if v in keep then [Video(cls, dir + v)] else [])
  {
    if videos != [] {
      assert (videos + [v])[1..] == videos[1..] + [v];
      KeptSnoc(cls, dir, videos[1..], keep, v);
    }
  }

  /** `for video in videos: if video in keep: data_list.append(...)`. */
  method AppendKept(rows: seq<Row>, cls: int, dir: string, videos: seq<string>, keep: seq<string>)
    returns (out: seq<Row>)
    ensures out == rows + Kept(cls, dir, videos, keep)
  {
    out := rows;
    var i := 0;
    while i < |videos|
      invariant 0 <= i <= |videos|
      invariant out == rows + Kept(cls, dir, videos[..i], keep)
    {
      KeptSnoc(cls, dir, videos[..i], keep, videos[i]);
      assert videos[..i + 1] == videos[..i] + [videos[i]];
      if videos[i] in keep {
        out := out + [Video(cls, dir + videos[i])];
      }
      i := i + 1;
    }
    assert videos[..i] == videos;
  }

  /** `[entry for entry in full if entry not in excluded]`. */
  function Exclude(full: seq<string>, excluded: seq<string>): (r: seq<string>)
    ensures forall e :: e in r <==> e in full && e !in excluded
  {
    if full == [] then []
    else if full[0] !in excluded then [full[0]] + Exclude(full[1..], excluded)
    else Exclude(full[1..], excluded)
  }

  // ---------------------------------------------------------------------------
  // UADFV
  // ---------------------------------------------------------------------------

  /** A training row of UADFV: a listed file of real/ (label 0) or fake/ (label 1)
      with its folder's path, provided its name is not in the test list. */
  ghost predicate UadfvTrainRow(fs: Fs, path: string, csv: seq<string>, row: Row)
  {
    (exists v :: v in Walk(fs, RealDir(path)) && v !in csv && row == Video(0, RealDir(path) + v)) ||
    (exists v :: v in Walk(fs, FakeDir(path)) && v !in csv && row == Video(1, FakeDir(path) + v))
  }

  /** The training branch of UADFV without face crops: every video of real/ and
      fake/ that the test list does not name, real ones first. */
  method LabelUadfvTrain(fs: Fs, path: string, csv: seq<string>) returns (rows: seq<Row>)
    ensures forall row :: row in rows <==> UadfvTrainRow(fs, path, csv, row)
    ensures |rows| <= |Walk(fs, RealDir(path))| + |Walk(fs, FakeDir(path))|
  {
    var reals := Walk(fs, RealDir(path));
    var fakes := Walk(fs, FakeDir(path));
    var newList := Exclude(reals + fakes, csv);
    assert forall v :: v in reals ==> (v in newList <==> v !in csv);
    assert forall v :: v in fakes ==> (v in newList <==> v !in csv);
    rows := AppendKept([], 0, RealDir(path), reals, newList);
    rows := AppendKept(rows, 1, FakeDir(path), fakes, newList);
  }

  /** The face-crop rows of UADFV for frame models: every crop of
      train_imgs/real/ (label 0) and train_imgs/fake/ (label 1) with its path. */
  function UadfvCropRows(fs: Fs, path: string): (r: seq<Row>)
    ensures |r| == |Walk(fs, TrainImgsRealDir(path))| + |Walk(fs, TrainImgsFakeDir(path))|
    ensures forall row :: row in r <==>
              (exists v :: v in Walk(fs, TrainImgsRealDir(path)) && row == Video(0, TrainImgsRealDir(path) + v)) ||
              (exists v :: v in Walk(fs, TrainImgsFakeDir(path)) && row == Video(1, TrainImgsFakeDir(path) + v))
  {
    Labelled(0, TrainImgsRealDir(path), Walk(fs, TrainImgsRealDir(path))) +
    Labelled(1, TrainImgsFakeDir(path), Walk(fs, TrainImgsFakeDir(path)))
  }

  /** The test rows of UADFV: every video of test/real/ (label 0) and
      test/fake/ (label 1) with its path. */
  function UadfvTestRows(fs: Fs, path: string): (r: seq<Row>)
    ensures |r| == |Walk(fs, TestRealDir(path))| + |Walk(fs, TestFakeDir(path))|
    ensures forall row :: row in r <==>
              (exists v :: v in Walk(fs, TestRealDir(path)) && row == Video(0, TestRealDir(path) + v)) ||
              (exists v :: v in Walk(fs, TestFakeDir(path)) && row == Video(1, TestFakeDir(path) + v))
  {
    Labelled(0, TestRealDir(path), Walk(fs, TestRealDir(path))) +
    Labelled(1, TestFakeDir(path), Walk(fs, TestFakeDir(path)))
  }

  /** The listing loops of a class-folder pair, in the order the code runs them. */
  method LabelFolders(fs: Fs, realDir: string, fakeDir: string) returns (rows: seq<Row>)
    ensures rows == Labelled(0, realDir, Walk(fs, realDir)) + Labelled(1, fakeDir, Walk(fs, fakeDir))
  {
    rows := AppendLabelled([], 0, realDir, Walk(fs, realDir));
    rows := AppendLabelled(rows, 1, fakeDir, Walk(fs, fakeDir));
  }

  /** The crops of train_imgs/ as frames for the sequence grouper. */
  function CropFrames(cls: int, videos: seq<string>): (r: seq<SequenceGrouper.Frame>)
    ensures |r| == |videos|
    ensures forall i :: 0 <= i < |videos| ==> r[i] == SequenceGrouper.Frame(cls, videos[i])
  {
    seq(|videos|, i requires 0 <= i < |videos| => SequenceGrouper.Frame(cls, videos[i]))
  }

  /** The folder a sequence row's parent id is prefixed with: train_imgs/real/ for
      label 0, train_imgs/fake/ for label 1, nothing for any other label. */
  function SequencePrefix(path: string, cls: int): string
  {
    if cls == 0 then TrainImgsRealDir(path) else if cls == 1 then TrainImgsFakeDir(path) else ""
  }

  /** The sequence rows of UADFV: the grouper's (label, parent) rows with the
      parent id turned into a path under the crop folder of its label. */
  method LabelUadfvSequences(fs: Fs, path: string, dataset: string) returns (r: Result<seq<Row>>)
    ensures var frames := CropFrames(0, Walk(fs, TrainImgsRealDir(path))) + CropFrames(1, Walk(fs, TrainImgsFakeDir(path)));
            (r.Err? <==> frames == []) &&
            (r.Err? ==> r.error == MissingColumn("video")) &&
            (r.Ok? ==> forall row :: row in r.value <==>
               exists f :: f in frames && SequenceGrouper.Complete(dataset, frames, f) &&
                           row == Sequence(f.cls, SequencePrefix(path, f.cls) + SequenceGrouper.ParentId(dataset, f)))
  {
    var frames := CropFrames(0, Walk(fs, TrainImgsRealDir(path))) + CropFrames(1, Walk(fs, TrainImgsFakeDir(path)));
    var grouped := SequenceGrouper.PrepareSequenceData(dataset, frames);
    if grouped.Err? {
      return Err(grouped.error);
    }
    var groups := grouped.value;
    var rows: seq<Row> := [];
    var i := 0;
    while i < |groups|
      invariant 0 <= i <= |groups|
      invariant |rows| == i
      invariant forall j :: 0 <= j < i ==>
                  rows[j] == Sequence(groups[j].cls, SequencePrefix(path, groups[j].cls) + groups[j].original)
    {
      var g := groups[i];
      if g.cls == 0 {
        rows := rows + [Sequence(g.cls, TrainImgsRealDir(path) + g.original)];
      } else if g.cls == 1 {
        rows := rows + [Sequence(g.cls, TrainImgsFakeDir(path) + g.original)];
      } else {
        rows := rows + [Sequence(g.cls, g.original)];
      }
      i := i + 1;
    }
    forall row | row in rows
      ensures exists f :: f in frames && SequenceGrouper.Complete(dataset, frames, f) &&
                          row == Sequence(f.cls, SequencePrefix(path, f.cls) + SequenceGrouper.ParentId(dataset, f))
    {
      var j :| 0 <= j < |rows| && rows[j] == row;
      assert groups[j] in groups;
    }
    forall f | f in frames && SequenceGrouper.Complete(dataset, frames, f)
      ensures Sequence(f.cls, SequencePrefix(path, f.cls) + SequenceGrouper.ParentId(dataset, f)) in rows
    {
      var g := SequenceGrouper.Group(f.cls, SequenceGrouper.ParentId(dataset, f));
      assert g in groups;
      var j :| 0 <= j < |groups| && groups[j] == g;
      assert rows[j] == Sequence(f.cls, SequencePrefix(path, f.cls) + SequenceGrouper.ParentId(dataset, f));
    }
    r := Ok(rows);
  }

  // ---------------------------------------------------------------------------
  // Celeb-DF
  // ---------------------------------------------------------------------------

  /** The file Celeb-DF lists its test videos in, one `<label> <relative path>` per line. */
  function TestListFile(path: string): string
  {
    path + "/List_of_testing_videos.txt"
  }

  /** df_test: the test list with its labels switched to 1 = fake and its paths
      made absolute. A missing file raises FileNotFoundError and an empty one
      pandas' EmptyDataError. */
  function CelebTestRows(path: string, list: Option<seq<(int, string)>>): (r: Result<seq<Row>>)
    ensures list.None? ==> r == Err(FileNotFound(TestListFile(path)))
    ensures list == Some([]) ==> r == Err(EmptyData(TestListFile(path)))
    ensures r.Ok? <==> list.Some? && list.value != []
    ensures r.Ok? ==> |r.value| == |list.value|
    ensures r.Ok? ==> forall i :: 0 <= i < |list.value| ==>
              (r.value[i].Video? && r.value[i].video == path + "/" + list.value[i].1 &&
               (r.value[i].cls == 1 <==> list.value[i].0 != 1) && (r.value[i].cls == 0 || r.value[i].cls == 1))
  {
    match list
    case None => Err(FileNotFound(TestListFile(path)))
    case Some(l) =>
      if l == [] then Err(EmptyData(TestListFile(path)))
      else Ok(seq(|l|, i requires 0 <= i < |l| => Video(SwitchOneZero(l[i].0), path + "/" + l[i].1)))
  }

  /** The video column of a sequence of rows. */
  function Videos(rows: seq<Row>): (r: seq<string>)
    requires forall row :: row in rows ==> !row.Sequence?
    ensures |r| == |rows|
    ensures forall i :: 0 <= i < |rows| ==> r[i] == rows[i].video
  {
    seq(|rows|, i requires 0 <= i < |rows| => rows[i].video)
  }

  /** `df['video_name'] = df['video']; df['video'] = dir + df['video']`. */
  function AddPath(rows: seq<Row>, dir: string): (r: seq<Row>)
    requires forall row :: row in rows ==> row.Video?
    ensures |r| == |rows|
    ensures forall i :: 0 <= i < |rows| ==>
              r[i] == NamedVideo(rows[i].cls, dir + rows[i].video, rows[i].video)
  {
    seq(|rows|, i requires 0 <= i < |rows| => NamedVideo(rows[i].cls, dir + rows[i].video, rows[i].video))
  }

  /** `df[~df['video'].isin(excluded)]`. */
  function WithoutVideos(rows: seq<Row>, excluded: seq<string>): (r: seq<Row>)
    requires forall row :: row in rows ==> !row.Sequence?
    ensures |r| <= |rows|
    ensures forall row :: row in r <==> row in rows && row.video !in excluded
    ensures multiset(r) <= multiset(rows)
  {
    if rows == [] then []
    else
      assert rows == [rows[0]] + rows[1..];
      var rest := WithoutVideos(rows[1..], excluded);
      if rows[0].video in excluded then rest else [rows[0]] + rest
  }

  /** The Celeb-DF training candidates of one class: every listed video of the
      folder, named and with its path, unless the test list names that path. */
  function CelebCandidates(fs: Fs, dir: string, cls: int, testing: seq<string>): (r: seq<Row>)
    ensures forall row :: row in r <==>
              exists v :: v in Walk(fs, dir) && dir + v !in testing && row == NamedVideo(cls, dir + v, v)
  {
    var named := AddPath(Labelled(cls, "", Walk(fs, dir)), dir);
    assert forall row :: row in named <==> exists v :: v in Walk(fs, dir) && row == NamedVideo(cls, dir + v, v) by {
      var plain := Labelled(cls, "", Walk(fs, dir));
      forall row | row in named ensures exists v :: v in Walk(fs, dir) && row == NamedVideo(cls, dir + v, v) {
        var i :| 0 <= i < |named| && named[i] == row;
        assert plain[i] in plain;
        var v :| v in Walk(fs, dir) && plain[i] == Video(cls, "" + v);
        assert "" + v == v;
      }
      forall v | v in Walk(fs, dir) ensures NamedVideo(cls, dir + v, v) in named {
        assert "" + v == v;
        assert Video(cls, "" + v) in plain;
        var i :| 0 <= i < |plain| && plain[i] == Video(cls, v);
        assert named[i] == NamedVideo(cls, dir + v, v);
      }
    }
    WithoutVideos(named, testing)
  }

  /** `df_fake.sample(n=n)`: n distinct rows of the pool, chosen at random;
      pandas refuses an n larger than the pool when sampling without
      replacement. Which rows are chosen is left open. */
  method Sample(pool: seq<Row>, n: nat) returns (r: Result<seq<Row>>)
    ensures r.Err? <==> n > |pool|
    ensures r.Err? ==> r.error == SampleTooLarge(n, |pool|)
    ensures r.Ok? ==> |r.value| == n && multiset(r.value) <= multiset(pool)
  {
    if n > |pool| {
      return Err(SampleTooLarge(n, |pool|));
    }
    assert pool == pool[..n] + pool[n..];
    assert multiset(pool[..n]) <= multiset(pool);
    var picked: seq<Row> :| |picked| == n && multiset(picked) <= multiset(pool);
    r := Ok(picked);
  }

  /** The outcome of Celeb-DF's training branch without face crops: the real
      candidates, then as many fake candidates drawn without replacement. An
      empty folder leaves its DataFrame without a 'video' column. */
  ghost predicate CelebTrainOutcome(fs: Fs, path: string, testing: seq<string>, r: Result<seq<Row>>)
  {
    var reals := CelebCandidates(fs, CelebRealDir(path), 0, testing);
    var fakes := CelebCandidates(fs, CelebFakeDir(path), 1, testing);
    (Walk(fs, CelebRealDir(path)) == [] ==> r == Err(MissingColumn("video"))) &&
    (Walk(fs, CelebRealDir(path)) != [] && Walk(fs, CelebFakeDir(path)) == [] ==> r == Err(MissingColumn("video"))) &&
    (Walk(fs, CelebRealDir(path)) != [] && Walk(fs, CelebFakeDir(path)) != [] && |reals| > |fakes| ==>
       r == Err(SampleTooLarge(|reals|, |fakes|))) &&
    (r.Ok? <==> Walk(fs, CelebRealDir(path)) != [] && Walk(fs, CelebFakeDir(path)) != [] && |reals| <= |fakes|) &&
    (r.Ok? ==> |r.value| == 2 * |reals| && r.value[..|reals|] == reals &&
               multiset(r.value[|reals|..]) <= multiset(fakes))
  }

  /** The undersampling step: all real rows, then as many fake rows drawn
      without replacement, so that both classes are equally large. */
  method Undersample(dfReal: seq<Row>, dfFake: seq<Row>) returns (r: Result<seq<Row>>)
    ensures r.Err? <==> |dfReal| > |dfFake|
    ensures r.Err? ==> r.error == SampleTooLarge(|dfReal|, |dfFake|)
    ensures r.Ok? ==> |r.value| == 2 * |dfReal| && r.value[..|dfReal|] == dfReal &&
                      multiset(r.value[|dfReal|..]) <= multiset(dfFake)
  {
    var sample := Sample(dfFake, |dfReal|);
    if sample.Err? {
      return Err(sample.error);
    }
    r := Ok(dfReal + sample.value);
    assert r.value[..|dfReal|] == dfReal;
    assert r.value[|dfReal|..] == sample.value;
  }

  /** The training branch of Celeb-DF without face crops. */
  method LabelCelebTrain(fs: Fs, path: string, testRows: seq<Row>) returns (r: Result<seq<Row>>)
    requires forall row :: row in testRows ==> row.Video?
    ensures CelebTrainOutcome(fs, path, Videos(testRows), r)
  {
    var realList := AppendLabelled([], 0, "", Walk(fs, CelebRealDir(path)));
    var fakeList := AppendLabelled([], 1, "", Walk(fs, CelebFakeDir(path)));
    assert realList == Labelled(0, "", Walk(fs, CelebRealDir(path)));
    assert fakeList == Labelled(1, "", Walk(fs, CelebFakeDir(path)));
    if realList == [] || fakeList == [] {
      return Err(MissingColumn("video"));
    }
    var testing := Videos(testRows);
    var dfReal := WithoutVideos(AddPath(realList, CelebRealDir(path)), testing);
    var dfFake := WithoutVideos(AddPath(fakeList, CelebFakeDir(path)), testing);
    assert dfReal == CelebCandidates(fs, CelebRealDir(path), 0, testing);
    assert dfFake == CelebCandidates(fs, CelebFakeDir(path), 1, testing);
    r := Undersample(dfReal, dfFake);
  }

  /** A successful Celeb-DF training set is balanced: its first half are real
      videos of Celeb-real/, its second half as many fakes of Celeb-synthesis/,
      each row carrying its folder's path and its bare name, and no row is a
      video the test list names. */
  lemma CelebTrainBalanced(fs: Fs, path: string, testing: seq<string>, r: Result<seq<Row>>)
    requires CelebTrainOutcome(fs, path, testing, r) && r.Ok?
    ensures |r.value| % 2 == 0
    ensures forall i :: 0 <= i < |r.value| ==> (r.value[i].cls == 0 <==> i < |r.value| / 2)
    ensures forall i :: 0 <= i < |r.value| ==> r.value[i].NamedVideo? && r.value[i].video !in testing
    ensures forall i :: 0 <= i < |r.value| / 2 ==>
              r.value[i].videoName in Walk(fs, CelebRealDir(path)) &&
              r.value[i].video == CelebRealDir(path) + r.value[i].videoName
    ensures forall i :: |r.value| / 2 <= i < |r.value| ==>
              r.value[i].videoName in Walk(fs, CelebFakeDir(path)) &&
              r.value[i].video == CelebFakeDir(path) + r.value[i].videoName
  {
    var reals := CelebCandidates(fs, CelebRealDir(path), 0, testing);
    var fakes := CelebCandidates(fs, CelebFakeDir(path), 1, testing);
    var rows := r.value;
    var half := |reals|;
    HalvesDrawnFrom(rows, reals, fakes);
    forall i | 0 <= i < |rows|
      ensures (rows[i].cls == 0 <==> i < half) && rows[i].NamedVideo? && rows[i].video !in testing
      ensures i < half ==> rows[i].videoName in Walk(fs, CelebRealDir(path)) &&
                           rows[i].video == CelebRealDir(path) + rows[i].videoName
      ensures half <= i ==> rows[i].videoName in Walk(fs, CelebFakeDir(path)) &&
                            rows[i].video == CelebFakeDir(path) + rows[i].videoName
    {
      if i < half {
        CandidateFacts(fs, CelebRealDir(path), 0, testing, rows[i]);
      } else {
        CandidateFacts(fs, CelebFakeDir(path), 1, testing, rows[i]);
      }
    }
  }

  /** The rows of the first half are reals, those of the second half fakes. */
  lemma HalvesDrawnFrom(rows: seq<Row>, reals: seq<Row>, fakes: seq<Row>)
    requires |rows| == 2 * |reals| && rows[..|reals|] == reals
    requires multiset(rows[|reals|..]) <= multiset(fakes)
    ensures forall i :: 0 <= i < |reals| ==> rows[i] in reals
    ensures forall i :: |reals| <= i < |rows| ==> rows[i] in fakes
  {
    forall i | |reals| <= i < |rows| ensures rows[i] in fakes {
      assert rows[i] == rows[|reals|..][i - |reals|];
      assert rows[i] in multiset(rows[|reals|..]);
    }
  }

  lemma CandidateFacts(fs: Fs, dir: string, cls: int, testing: seq<string>, row: Row)
    requires row in CelebCandidates(fs, dir, cls, testing)
    ensures row.NamedVideo? && row.cls == cls && row.video !in testing
    ensures row.videoName in Walk(fs, dir) && row.video == dir + row.videoName
  {
  }

  /** The face-crop rows of Celeb-DF: every crop of facecrops/real/ (label 0) and
      facecrops/fake/ (label 1) with its path. */
  function CelebCropRows(fs: Fs, path: string): (r: seq<Row>)
    ensures |r| == |Walk(fs, FaceCropsRealDir(path))| + |Walk(fs, FaceCropsFakeDir(path))|
    ensures forall row :: row in r <==>
              (exists v :: v in Walk(fs, FaceCropsRealDir(path)) && row == Video(0, FaceCropsRealDir(path) + v)) ||
              (exists v :: v in Walk(fs, FaceCropsFakeDir(path)) && row == Video(1, FaceCropsFakeDir(path) + v))
  {
    Labelled(0, FaceCropsRealDir(path), Walk(fs, FaceCropsRealDir(path))) +
    Labelled(1, FaceCropsFakeDir(path), Walk(fs, FaceCropsFakeDir(path)))
  }

  // ---------------------------------------------------------------------------
  // label_data
  // ---------------------------------------------------------------------------

  /** The methods whose training data are sequences of crops. */
  predicate IsSequenceMethod(name: string)
  {
    name == "resnetlstm" || name == "efficientnetb1_lstm"
  }

  /** label_data(dataset_path, dataset, method, face_crops, test_data). `csv` is
      the bundled list of UADFV test videos and `testList` the parsed Celeb-DF
      test list (None when the file is missing). An unknown dataset reaches a
      variable no branch assigned: `data_list` when building test data, `df`
      otherwise. */
  method LabelData(fs: Fs, datasetPath: Option<string>, dataset: string, name: string, faceCrops: bool,
                   testData: bool, csv: seq<string>, testList: Option<seq<(int, string)>>)
    returns (r: Result<seq<Row>>)
    ensures datasetPath.None? ==> r == Err(NoDatasetPath)
    ensures datasetPath.Some? && dataset != "uadfv" && dataset != "celebdf" ==>
              r == Err(Unbound(if testData then "data_list" else "df"))
    ensures datasetPath.Some? && testData && dataset == "uadfv" ==>
              r == Ok(UadfvTestRows(fs, datasetPath.value))
    ensures datasetPath.Some? && testData && dataset == "celebdf" ==>
              r == CelebTestRows(datasetPath.value, testList)
    ensures datasetPath.Some? && !testData && dataset == "uadfv" && !faceCrops ==>
              r.Ok? && forall row :: row in r.value <==> UadfvTrainRow(fs, datasetPath.value, csv, row)
    ensures datasetPath.Some? && !testData && dataset == "uadfv" && faceCrops && !IsSequenceMethod(name) ==>
              r == Ok(UadfvCropRows(fs, datasetPath.value))
    ensures datasetPath.Some? && !testData && dataset == "uadfv" && faceCrops && IsSequenceMethod(name) ==>
              var path := datasetPath.value;
              var frames := CropFrames(0, Walk(fs, TrainImgsRealDir(path))) + CropFrames(1, Walk(fs, TrainImgsFakeDir(path)));
              (r.Err? <==> frames == []) &&
              (r.Ok? ==> forall row :: row in r.value <==>
                 exists f :: f in frames && SequenceGrouper.Complete(dataset, frames, f) &&
                             row == Sequence(f.cls, SequencePrefix(path, f.cls) + SequenceGrouper.ParentId(dataset, f)))
    ensures datasetPath.Some? && !testData && dataset == "celebdf" && CelebTestRows(datasetPath.value, testList).Err? ==>
              r == Err(CelebTestRows(datasetPath.value, testList).error)
    ensures datasetPath.Some? && !testData && dataset == "celebdf" && CelebTestRows(datasetPath.value, testList).Ok? ==>
              if faceCrops then
                r == (if CelebCropRows(fs, datasetPath.value) == [] then Err(NoFaces) else Ok(CelebCropRows(fs, datasetPath.value)))
              else
                CelebTrainOutcome(fs, datasetPath.value, Videos(CelebTestRows(datasetPath.value, testList).value), r)
  {
    if datasetPath.None? {
      return Err(NoDatasetPath);
    }
    var path := datasetPath.value;
    if !testData {
      if dataset == "uadfv" {
        if !faceCrops {
          var rows := LabelUadfvTrain(fs, path, csv);
          r := Ok(rows);
        } else if IsSequenceMethod(name) {
          r := LabelUadfvSequences(fs, path, dataset);
        } else {
          var rows := LabelFolders(fs, TrainImgsRealDir(path), TrainImgsFakeDir(path));
          r := Ok(rows);
        }
      } else if dataset == "celebdf" {
        var dfTest := CelebTestRows(path, testList);
        if dfTest.Err? {
          return Err(dfTest.error);
        }
        if !faceCrops {
          r := LabelCelebTrain(fs, path, dfTest.value);
        } else {
          var rows := LabelFolders(fs, FaceCropsRealDir(path), FaceCropsFakeDir(path));
          if |rows| == 0 {
            return Err(NoFaces);
          }
          r := Ok(rows);
        }
      } else {
        r := Err(Unbound("df"));
      }
    } else {
      if dataset == "uadfv" {
        var rows := LabelFolders(fs, TestRealDir(path), TestFakeDir(path));
        r := Ok(rows);
      } else if dataset == "celebdf" {
        r := CelebTestRows(path, testList);
      } else {
        r := Err(Unbound("data_list"));
      }
    }
  }
}
