# Deepfake detector: dataset bookkeeping, verified

This project models the bookkeeping around the networks in
`deepfake_detector/dfdetector.py`. It covers:

- how `DFDetector.benchmark` checks its arguments and dispatches;
- how the UADFV test split is laid out on disk (`setup_uadfv_benchmark`,
  `structure_uadfv_files`) and how the Celeb-DF folder is checked
  (`setup_celebdf_benchmark`);
- how `label_data` turns class folders and held-out test lists into labelled
  rows, including the Celeb-DF undersampling and the label switch
  `switch_one_zero`;
- how `prepare_sequence_data` groups face crops into 20-frame sequences;
- the `prepare_method` table of image sizes and normalisations, and the
  `df_augmentations` dispatch;
- where `train_method` saves the face crops of each training video.

The disk is a value, `FileSystem.Fs`: a map from every directory path
(written as the code writes it, ending in `/`) to its sub-directory and file
names. `os.walk`, `os.listdir`, `os.path.isfile`, `os.mkdir`, `shutil.copy` and
`shutil.rmtree` are functions on that value. Operations that change the disk
take an `Fs` and return the new one.

The outcome of a call is a `Result`: either a value, or the exception the
Python code raises. This includes the exceptions it raises by accident:

- `UnboundLocalError` for variables no branch assigned;
- the pandas `KeyError` on a DataFrame built from an empty list;
- the `NameError` in a format string.

The random `df_fake.sample` is a nondeterministic choice.

Modules:

- `Common` (common.dfy): outcomes and errors; Python slicing, `endswith` and
  string order.
- `FileSystem` (filesystem.dfy): the disk and the filesystem calls.
- `Folders` (folders.dfy): the folder paths built from a dataset path.
- `BenchmarkLayout` (benchmark_layout.dfy): the UADFV test split and the
  benchmark setup checks.
- `MethodResolver` (method_resolver.dfy): `prepare_method` and
  `df_augmentations`.
- `SequenceGrouper` (sequence_grouper.dfy): `prepare_sequence_data`.
- `Labeler` (labeler.dfy): `label_data` and `switch_one_zero`.
- `Detector` (detector.dfy): `DFDetector.benchmark` and the extraction targets
  of `DFDetector.train_method`.

## Model

| member | source | states |
|---|---|---|
| `Common.Head` | deepfake_detector/dfdetector.py:706-710 | `s[:n]` is a prefix of `s` of length min(n, len(s)) |
| `Common.Tail` | deepfake_detector/dfdetector.py:184-191 | `s[-n:]` is the suffix of `s` of length min(n, len(s)) for n > 0, and all of `s` for n = 0 |
| `Common.StrLeTotal` | deepfake_detector/dfdetector.py:702 | any two file names are ordered one way or the other by Python's string comparison |
| `Common.StrLeTransitive` | deepfake_detector/dfdetector.py:702 | Python's string order is transitive, so sorting by name is well defined |
| `Common.StrLeAntisymmetric` | deepfake_detector/dfdetector.py:702 | two names that are each `<=` the other are equal |
| `FileSystem.Mkdir` | deepfake_detector/dfdetector.py:660-662 | `os.mkdir` succeeds exactly when the parent exists and no entry of that name does; it adds one empty directory listed under its parent and changes nothing else |
| `FileSystem.CopyInto` | deepfake_detector/dfdetector.py:667-673 | `shutil.copy` fails when the source file or the target directory is missing; otherwise only the target gains the file name, once |
| `FileSystem.Rmtree` | deepfake_detector/dfdetector.py:755 | `shutil.rmtree` removes exactly the directories under the target, and the parent stops listing it |
| `BenchmarkLayout.MkdirsMakeEmptySplit` | deepfake_detector/dfdetector.py:660-662 | after the three `mkdir` calls, test/ holds empty fake/ and real/ folders, and nothing outside test/ changed except the listing of the dataset folder |
| `BenchmarkLayout.CopyExtendsSplit` | deepfake_detector/dfdetector.py:666-673 | copying one listed video adds it to test/fake/ when its name is longer than 8 characters, and to test/real/ otherwise |
| `BenchmarkLayout.CopyTestVideos` | deepfake_detector/dfdetector.py:665-673 | the copy loop succeeds exactly when every listed video exists in fake/ or real/ as its name's length dictates; test/fake/ then holds exactly the long names and test/real/ the others, and nothing outside test/ changes |
| `BenchmarkLayout.StructureUadfvFiles` | deepfake_detector/dfdetector.py:658-673 | `structure_uadfv_files` succeeds exactly when test/ and its sub-folders can be created and every listed video exists; the result is the split of the test list by name length |
| `BenchmarkLayout.CountFilesIn` | deepfake_detector/dfdetector.py:747-750 | defines the length of the comprehension: how many of the listed entries are files in the given folder (at most the number of entries); what the count is on a built split is `RebuiltLayoutIsRebuiltAgain` |
| `BenchmarkLayout.Cleared` | deepfake_detector/dfdetector.py:753-756 | removing test/ leaves nothing under it and everything outside it unchanged |
| `BenchmarkLayout.SetupUadfvBenchmark` | deepfake_detector/dfdetector.py:724-761 | as written: rejects a missing path, the zip path and a path not ending in fake_videos; rebuilds test/ when it is missing or the computed count is not 28; after a rebuild the count says "rebuild" again |
| `BenchmarkLayout.RebuiltLayoutIsRebuiltAgain` | deepfake_detector/dfdetector.py:747-752 | on a freshly built split, the count as written is 0, so the split is always rebuilt |
| `BenchmarkLayout.IntendedCountAfterRebuild` | deepfake_detector/dfdetector.py:747-752 | counting the files of test/real/ and test/fake/ gives the size of a list of distinct names, so a 28-video split is kept |
| `BenchmarkLayout.SetupUadfvBenchmarkIntended` | deepfake_detector/dfdetector.py:724-761 | the same checks with the intended count; once it has built a split of 28 distinct names, a second call leaves the disk unchanged |
| `BenchmarkLayout.SetupCelebdfBenchmark` | deepfake_detector/dfdetector.py:764-788 | as written: a missing path and a path not ending in celebdf are rejected; every other path raises NameError |
| `BenchmarkLayout.SetupCelebdfBenchmarkIntended` | deepfake_detector/dfdetector.py:764-788 | the check passes exactly for a path ending in celebdf |
| `MethodResolver.PrepareMethod` | deepfake_detector/dfdetector.py:223-296 | fails with "not available" exactly for names outside the five-method table; any triple it returns carries the table's size and normalisation; train mode returns no model; only test mode loads one, from that method's and dataset's weight file |
| `MethodResolver.TestModeOutcomes` | deepfake_detector/dfdetector.py:226-288 | in test mode only xception and efficientnetb7 return a model; mesonet raises on its unbound `model`; resnetlstm and efficientnetb1_lstm return None |
| `MethodResolver.Unpack` | deepfake_detector/dfdetector.py:81-86 | unpacking the returned triple passes errors through and fails on None |
| `MethodResolver.DfAugmentations` | deepfake_detector/dfdetector.py:614-655 | only "weak" and "strong" are accepted; both pipelines flip first and end by resizing to the input size |
| `MethodResolver.AugmentationsResizeToMethodSize` | deepfake_detector/dfdetector.py:131-213 | the augmentations that training builds always resize to the size the table assigns to the method |
| `SequenceGrouper.InsertByVideo` | deepfake_detector/dfdetector.py:702 | inserting a crop into a name-sorted sequence keeps it sorted and adds exactly that crop |
| `SequenceGrouper.SortByVideo` | deepfake_detector/dfdetector.py:702 | `sort_values(by=['video'])` returns the same crops, sorted by file name |
| `SequenceGrouper.ParentId` | deepfake_detector/dfdetector.py:703-710 | on uadfv the parent id is the first 4 characters of a real crop's name and the first 9 of a fake one's; it is "" for any other label or dataset |
| `SequenceGrouper.ParentsPermutation` | deepfake_detector/dfdetector.py:711-712 | reordering the crops does not change how many belong to each parent |
| `SequenceGrouper.AssignOriginals` | deepfake_detector/dfdetector.py:704-710 | the row loop fills the original column of every row with its parent id |
| `SequenceGrouper.KeepComplete` | deepfake_detector/dfdetector.py:711-716 | a row is kept exactly when its parent has 20 rows in the whole frame |
| `SequenceGrouper.InsertGroup` | deepfake_detector/dfdetector.py:718 | adding a group keeps the groups strictly ordered and adds exactly that group |
| `SequenceGrouper.Collapse` | deepfake_detector/dfdetector.py:717-719 | the groupby yields each (label, original) pair of the rows once, in ascending order |
| `SequenceGrouper.StrictlySortedDistinct` | deepfake_detector/dfdetector.py:718 | strictly ordered groups contain no pair twice |
| `SequenceGrouper.KeptIsComplete` | deepfake_detector/dfdetector.py:711-719 | every output pair comes from a crop whose parent has exactly 20 crops |
| `SequenceGrouper.CompleteIsKept` | deepfake_detector/dfdetector.py:711-719 | every crop whose parent has exactly 20 crops is represented in the output |
| `SequenceGrouper.PrepareSequenceData` | deepfake_detector/dfdetector.py:697-721 | raises the missing-column error exactly for no crops; otherwise returns, once each and in ascending order, exactly the (label, parent) pairs of crops whose parent has 20 crops |
| `Labeler.SwitchOneZero` | deepfake_detector/dfdetector.py:686-694 | the result is 0 or 1, and 0 exactly when the input is 1 |
| `Labeler.SwitchOneZeroInvolution` | deepfake_detector/dfdetector.py:686-694 | on labels 0 and 1, switching twice gives the label back |
| `Labeler.Labelled` | deepfake_detector/dfdetector.py:488-498 | one row per listed file, each with the folder's label and path |
| `Labeler.AppendLabelled` | deepfake_detector/dfdetector.py:578-588 | the append loop adds exactly those rows, in listing order |
| `Labeler.Kept` | deepfake_detector/dfdetector.py:423-439 | a row per listed file that the training list contains, and no other |
| `Labeler.AppendKept` | deepfake_detector/dfdetector.py:423-439 | the filtered append loop adds exactly those rows |
| `Labeler.Exclude` | deepfake_detector/dfdetector.py:419-420 | the comprehension keeps exactly the entries not in the test list |
| `Labeler.LabelUadfvTrain` | deepfake_detector/dfdetector.py:397-442 | the UADFV training rows are exactly the videos of real/ (label 0, path real/+name) and fake/ (label 1, path fake/+name) that the test csv does not name |
| `Labeler.UadfvCropRows` | deepfake_detector/dfdetector.py:478-501 | every crop of train_imgs/real/ gets label 0 and every crop of train_imgs/fake/ label 1, each with its folder's path |
| `Labeler.UadfvTestRows` | deepfake_detector/dfdetector.py:574-588 | every video of test/real/ gets label 0 and every video of test/fake/ label 1, each with its folder's path |
| `Labeler.LabelFolders` | deepfake_detector/dfdetector.py:487-501 | the two listing loops produce the real rows, then the fake rows |
| `Labeler.LabelUadfvSequences` | deepfake_detector/dfdetector.py:446-476 | the sequence rows are exactly the complete parents of the crops, each prefixed with the crop folder of its label; no crops raises the missing-column error |
| `Labeler.CelebTestRows` | deepfake_detector/dfdetector.py:506-511 | a missing test list raises FileNotFoundError and an empty one EmptyDataError; otherwise each entry's label is switched to 1 for fake, and its path is prefixed with the dataset path and "/" |
| `Labeler.AddPath` | deepfake_detector/dfdetector.py:533-536 | video_name takes the bare name, and video the folder path plus that name |
| `Labeler.WithoutVideos` | deepfake_detector/dfdetector.py:538-541 | the `isin` filter keeps exactly the rows whose path is not in the test list, and draws them from the original rows |
| `Labeler.CelebCandidates` | deepfake_detector/dfdetector.py:514-541 | a class's candidates are exactly the folder's videos, named and with their path, that the test list does not name |
| `Labeler.Sample` | deepfake_detector/dfdetector.py:543-544 | sampling n rows without replacement fails exactly when n exceeds the pool; otherwise it returns n rows of the pool, none used twice |
| `Labeler.Undersample` | deepfake_detector/dfdetector.py:542-546 | the training rows are all real rows followed by as many fake rows drawn without replacement |
| `Labeler.LabelCelebTrain` | deepfake_detector/dfdetector.py:513-546 | an empty real or fake folder raises the missing-column error (real first); more real than fake candidates makes sampling fail; otherwise the result is the real candidates followed by an equal number of fake candidates |
| `Labeler.CelebTrainBalanced` | deepfake_detector/dfdetector.py:538-546 | a Celeb-DF training set has equal class counts: the first half are real and the second half fake, each from its own folder, and no row is a test video |
| `Labeler.HalvesDrawnFrom` | deepfake_detector/dfdetector.py:546 | the concatenation's halves come from the real rows and the fake sample |
| `Labeler.CandidateFacts` | deepfake_detector/dfdetector.py:514-541 | a candidate carries its folder's label, path and bare name, and is not a test video |
| `Labeler.CelebCropRows` | deepfake_detector/dfdetector.py:547-567 | every crop of facecrops/real/ gets label 0 and every crop of facecrops/fake/ label 1, each with its path |
| `Labeler.LabelData` | deepfake_detector/dfdetector.py:383-611 | no dataset path raises; an unknown dataset ends in an unbound variable; each branch yields the rows its member above describes; Celeb-DF face crops with no crops raise "no faces" |
| `Detector.Evaluate` | deepfake_detector/dfdetector.py:77-105 | after the setup, the call succeeds exactly for xception, efficientnetb7 and dfdcrank90 (on Celeb-DF only when its test list parses); the test-list error comes first, and every other method fails on the unbound `model`; the result carries the dataset's test rows and, for a single network, the table's size, normalisation and weight file |
| `Detector.Benchmark` | deepfake_detector/dfdetector.py:51-105 | a method outside the seven-name list is rejected before the disk is touched, and an unknown dataset after that; the setups run as written, so every Celeb-DF call fails with the setup's error, and UADFV's download, zip and layout errors pass through unchanged; a UADFV call succeeds exactly for the three evaluated methods when the split is kept or can be rebuilt; after a rebuild the disk holds the split of the test list, nothing outside test/ changed, and the next call rebuilds again; the rows are the UADFV test rows of the new disk |
| `Detector.BenchmarkIntended` | deepfake_detector/dfdetector.py:51-105 | the same dispatch with the corrected setups: a Celeb-DF path ending in celebdf succeeds exactly for the three evaluated methods when the test list parses, with those rows; once a UADFV split of the 28 distinct listed videos exists, it is kept for the next call |
| `Detector.TestRowsFollowSplit` | deepfake_detector/dfdetector.py:574-588 | after the split is built, the test rows are exactly the test list: names longer than 8 characters as fakes under test/fake/, the rest as reals under test/real/ |
| `Detector.ExtractionTarget` | deepfake_detector/dfdetector.py:179-201 | on UADFV a label-1 video keeps the last 14 characters of its path and goes to train_imgs/fake/, any other the last 9 and train_imgs/real/; on Celeb-DF the crops keep the bare name and go to facecrops/fake/ or facecrops/real/ |
| `Detector.PlanExtraction` | deepfake_detector/dfdetector.py:111-201 | a missing save path raises first; the loop succeeds exactly when every row has an extraction target, and then yields each row's target in order; otherwise it returns the error of the first row that has none |
| `Detector.UadfvCropsLandWhereTheyAreRead` | deepfake_detector/dfdetector.py:183-211 | a 13-character fake name and an 8-character real name are saved as "/" + name into the train_imgs folder of their class under the save path; that is the folder label_data reads the class's crops from exactly when the save path equals the data path |

## Left out

- Network loading and inference (`torch.load`, `timm`, `xception`,
  `test.inference`) are foreign calls. A loaded network is represented only by
  the name of its weight file.
- The metrics of `prepare_dfdc_rank90`, `test.inference` and `train.train` are
  left out. They are floating-point numerics and sklearn/torch calls; benchmark
  and training are modelled up to the data they hand over.
- Face detection and frame extraction (`df_retinaface`) are external and
  GPU-bound. The model computes each video's extraction job (source, name,
  save folder) but not the crops it produces.
- `train_method`'s preparation of the save folders is left out: creating
  train_imgs/ or facecrops/, the Celeb-DF folder checks and the rmtree of old
  crops. So is its overall sequence of prepare_method, label_data and train.
  Only the save-path check and the per-row save folder and name are modelled.
- `reproducibility_seed` and the random state are left out. The Celeb-DF
  sample is any choice of distinct fake rows, not the one seed 24 gives.
- `detect_single` returns an undefined name and is left out. Printing, tqdm,
  timing and the attributes stored on `DFDetector` are left out too.
- Reading the CSV files is replaced by their parsed contents, passed in as
  parameters. The bundled uadfv_test.csv is assumed to parse (it lists 28
  videos), so pandas' error for an empty file is modelled only for Celeb-DF's
  test list.
- `os.walk` is modelled as the file names directly inside the class folder.
  Files in nested sub-folders, which `os.walk` would also yield, are not.
- `train_method` saves crops under `img_save_path` but reads them back through
  `label_data` under `data_path` (lines 186-201 and 210-211). Nothing checks
  that the two paths agree. `Detector.UadfvCropsLandWhereTheyAreRead` proves
  the folders coincide exactly when the paths are equal; the second
  `label_data` call itself is not modelled.
- `os.getcwd()` is not modelled. Weight and data files are named by their
  path under the working directory.
- `SortByVideo`: which of two crops with the same file name comes first is
  unspecified in pandas. The model fixes one order; nothing after the sort
  depends on it.
- `TestModeOutcomes`: mesonet's `torch.load` of the weight file runs before the
  unbound `model` is used. A missing weight file would raise FileNotFoundError
  first; the model reports only the unbound variable.
- `MethodResolver.DfAugmentations` keeps each albumentations step's kind and
  order. The probabilities and parameters of the steps are not modelled.

## Findings

| source | as written | input that shows it | evidently intended | confidence | as-written member | corrected member |
|---|---|---|---|---|---|---|
| deepfake_detector/dfdetector.py:747-752 | The completeness count takes the entries of test/ and asks whether each is a file inside test/real/ or test/fake/. Those entries are the folders `fake` and `real`, so the count is 0 and test/ is deleted and rebuilt on every benchmark call. | A dataset folder whose test/ was just built from the 28-name list: the count is 0, not 28. | Count the files in test/real/ and test/fake/ and keep a complete split. | high (not executed) | `BenchmarkLayout.RebuiltLayoutIsRebuiltAgain` | `BenchmarkLayout.SetupUadfvBenchmarkIntended` |
| deepfake_detector/dfdetector.py:780-781 | The banner's f-string contains `{Celeb-DF}`, which Python evaluates as the expression `Celeb - DF` and which raises NameError. So every valid Celeb-DF path fails before benchmarking starts. | data_path = "/data/celebdf" | Print the dataset name as text and continue with the benchmark. | high (not executed) | `BenchmarkLayout.SetupCelebdfBenchmark` | `BenchmarkLayout.SetupCelebdfBenchmarkIntended` |

`Detector.Benchmark` runs the two setups as written; `Detector.BenchmarkIntended` runs the corrected members.
