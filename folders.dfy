/** The folder paths the detector builds from a dataset path, written exactly
    as the code concatenates them, and the facts about them the proofs need. */
module Folders {

  // UADFV: <data_path>/real/, /fake/, the generated /test/{real,fake}/ and the
  // face crops under /train_imgs/{real,fake}/
  function Root(path: string): string { path + "/" }
  function RealDir(path: string): string { path + "/real/" }
  function FakeDir(path: string): string { path + "/fake/" }
  function TestDir(path: string): string { path + "/test/" }
  function TestRealDir(path: string): string { path + "/test/real/" }
  function TestFakeDir(path: string): string { path + "/test/fake/" }
  function TrainImgsRealDir(path: string): string { path + "/train_imgs/real/" }
  function TrainImgsFakeDir(path: string): string { path + "/train_imgs/fake/" }

  // Celeb-DF: <data_path>/Celeb-real/, /Celeb-synthesis/ and /facecrops/{real,fake}/
  function CelebRealDir(path: string): string { path + "/Celeb-real/" }
  function CelebFakeDir(path: string): string { path + "/Celeb-synthesis/" }
  function FaceCropsRealDir(path: string): string { path + "/facecrops/real/" }
  function FaceCropsFakeDir(path: string): string { path + "/facecrops/fake/" }

  /** The paths os.mkdir builds from a parent and a name are the ones the code names. */
  lemma MkdirTargets(path: string)
    ensures Root(path) + "test" + "/" == TestDir(path)
    ensures TestDir(path) + "fake" + "/" == TestFakeDir(path)
    ensures TestDir(path) + "real" + "/" == TestRealDir(path)
  {
  }

  /** The source folders and the parent lie outside test/, and the three test
      folders are distinct. */
  lemma Separate(path: string)
    ensures !(TestDir(path) <= Root(path))
    ensures !(TestDir(path) <= RealDir(path)) && !(TestDir(path) <= FakeDir(path))
    ensures TestDir(path) <= TestRealDir(path) && TestDir(path) <= TestFakeDir(path)
    ensures TestRealDir(path) != TestFakeDir(path)
    ensures TestDir(path) != TestRealDir(path) && TestDir(path) != TestFakeDir(path)
    ensures RealDir(path) != FakeDir(path)
  {
    var n := |path|;
    assert TestDir(path)[n + 1] == 't' && RealDir(path)[n + 1] == 'r' && FakeDir(path)[n + 1] == 'f';
    assert TestRealDir(path)[n + 6] == 'r' && TestFakeDir(path)[n + 6] == 'f';
    assert TestRealDir(path)[..n + 6] == TestDir(path);
    assert TestFakeDir(path)[..n + 6] == TestDir(path);
  }
}
