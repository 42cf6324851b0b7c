/** The part of the disk the detector reads and changes, as a value: every
    existing directory with the entries os.listdir reports for it. The code
    always names a directory by a path ending in '/' (data_path + '/test/real/'),
    so directories are keyed by exactly those strings. The filesystem calls the
    code makes (os.walk, os.listdir, os.path.isfile, os.path.exists, os.mkdir,
    shutil.copy, shutil.rmtree) are functions on this value. */
module FileSystem {
  import opened Common

  /** One directory: its sub-directory names and its file names, in listing order. */
  datatype Dir = Dir(subdirs: seq<string>, files: seq<string>)

  datatype Fs = Fs(dirs: map<string, Dir>)

  /** The file names os.walk yields for a class folder (none when it does not exist). */
  function Walk(fs: Fs, dir: string): seq<string>
  {
    if dir in fs.dirs then fs.dirs[dir].files else []
  }

  /** os.listdir: sub-directories and files alike. */
  function ListDir(fs: Fs, dir: string): seq<string>
  {
    if dir in fs.dirs then fs.dirs[dir].subdirs + fs.dirs[dir].files else []
  }

  /** os.path.isfile(dir + name). */
  predicate IsFile(fs: Fs, dir: string, name: string)
  {
    dir in fs.dirs && name in fs.dirs[dir].files
  }

  /** os.mkdir(parent + name + '/'): fails when the entry exists or the parent does not. */
  function Mkdir(fs: Fs, parent: string, name: string): (r: Result<Fs>)
    ensures r.Ok? <==> parent in fs.dirs && parent + name + "/" !in fs.dirs && name !in fs.dirs[parent].files
    ensures r.Ok? ==> r.value.dirs.Keys == fs.dirs.Keys + {parent + name + "/"}
    ensures r.Ok? ==> r.value.dirs[parent + name + "/"] == Dir([], [])
    ensures r.Ok? ==> r.value.dirs[parent] == Dir(fs.dirs[parent].subdirs + [name], fs.dirs[parent].files)
    ensures r.Ok? ==> forall k :: k in fs.dirs && k != parent ==> r.value.dirs[k] == fs.dirs[k]
  {
    var target := parent + name + "/";
    if target in fs.dirs || (parent in fs.dirs && name in fs.dirs[parent].files) then
      Err(FileExists(target))
    else if parent !in fs.dirs then
      Err(FileNotFound(target))
    else
      Ok(Fs(fs.dirs[parent := Dir(fs.dirs[parent].subdirs + [name], fs.dirs[parent].files)][target := Dir([], [])]))
  }

  /** shutil.copy(srcDir + name, dstDir): the copy keeps its name and replaces
      a file of that name already in dstDir. */
  function CopyInto(fs: Fs, srcDir: string, name: string, dstDir: string): (r: Result<Fs>)
    ensures r.Ok? <==> IsFile(fs, srcDir, name) && dstDir in fs.dirs
    ensures r.Ok? ==> r.value.dirs.Keys == fs.dirs.Keys
    ensures r.Ok? ==> forall k :: k in fs.dirs && k != dstDir ==> r.value.dirs[k] == fs.dirs[k]
    ensures r.Ok? ==> r.value.dirs[dstDir].subdirs == fs.dirs[dstDir].subdirs
    ensures r.Ok? ==> r.value.dirs[dstDir].files ==
                        (if name in fs.dirs[dstDir].files then fs.dirs[dstDir].files else fs.dirs[dstDir].files + [name])
  {
    if !IsFile(fs, srcDir, name) then
      Err(FileNotFound(srcDir + name))
    else if dstDir !in fs.dirs then
      Err(FileNotFound(dstDir))
    else if name in fs.dirs[dstDir].files then
      Ok(fs)
    else
      Ok(Fs(fs.dirs[dstDir := Dir(fs.dirs[dstDir].subdirs, fs.dirs[dstDir].files + [name])]))
  }

  /** The sequence s without any occurrence of x. */
  function Without(s: seq<string>, x: string): (r: seq<string>)
    ensures forall y :: y in r <==> y in s && y != x
  {
    if s == [] then []
    else if s[0] == x then Without(s[1..], x)
    else [s[0]] + Without(s[1..], x)
  }

  /** shutil.rmtree(parent + name + '/'): the directory and everything below it
      disappear, and the parent stops listing it. */
  function Rmtree(fs: Fs, parent: string, name: string): (r: Fs)
    requires parent + name + "/" in fs.dirs
    ensures forall k :: k in r.dirs <==> k in fs.dirs && !(parent + name + "/" <= k)
    ensures forall k :: k in r.dirs && k != parent ==> r.dirs[k] == fs.dirs[k]
    ensures parent in r.dirs ==>
               r.dirs[parent] == Dir(Without(fs.dirs[parent].subdirs, name), fs.dirs[parent].files)
  {
    var target := parent + name + "/";
    var kept := map k | k in fs.dirs && !(target <= k) :: fs.dirs[k];
    if parent in kept then
      Fs(kept[parent := Dir(Without(kept[parent].subdirs, name), kept[parent].files)])
    else
      Fs(kept)
  }
}
