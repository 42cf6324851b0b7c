/** Values shared by every component: the outcome types that stand for Python's
    return-or-raise, the exceptions the detector raises, and the few pieces of
    Python string semantics (slicing, endswith, ordering) the pipeline relies on. */
module Common {

  datatype Option<+T> = None | Some(value: T)

  /** A call that either returns a value or raises one of the errors below. */
  datatype Result<+T> = Ok(value: T) | Err(error: Error)

  /** Every exception the modelled code can raise, named after its cause. */
  datatype Error =
    | NoDatasetPath                          // label_data: "Please specify a dataset path."
    | NotBenchmarkable(name: string)         // benchmark: method outside its whitelist
    | UnknownDataset(dataset: string)        // benchmark: "<dataset> does not exist."
    | UnknownMethod(name: string)            // prepare_method: "<method> is not available."
    | UnknownAugmentation(strength: string)  // df_augmentations: neither weak nor strong
    | NoFaces                                // label_data: Celeb-DF face-crop folders are empty
    | NoSavePath                             // train_method: img_save_path is None
    | UadfvDownload                          // setup_uadfv_benchmark: data_path is None
    | UadfvZipped                            // setup_uadfv_benchmark: path ends in fake_videos.zip
    | UadfvLayout                            // setup_uadfv_benchmark: path does not end in fake_videos
    | CelebdfDownload                        // setup_celebdf_benchmark: data_path is None
    | CelebdfLayout                          // setup_celebdf_benchmark: path does not end in celebdf
    | SampleTooLarge(n: nat, population: nat) // pandas sample without replacement, n > population
    | MissingColumn(column: string)          // pandas KeyError on a DataFrame without that column
    | Unbound(variable: string)              // Python UnboundLocalError
    | UndefinedName(name: string)            // Python NameError
    | FileNotFound(path: string)             // FileNotFoundError from the filesystem
    | FileExists(path: string)               // FileExistsError from os.mkdir
    | NoneNotUnpackable                      // TypeError: unpacking the None a function returned
    | EmptyData(path: string)                // pandas EmptyDataError: a CSV file with nothing to parse

  function Min(a: nat, b: nat): nat { if a <= b then a else b }

  /** Python's `s[:n]` for n >= 0: the first n characters, or all of s when it is shorter. */
  function Head(s: string, n: nat): (r: string)
    ensures r <= s
    ensures |r| == Min(n, |s|)
  {
    if |s| <= n then s else s[..n]
  }

  /** Python's `s[-n:]`: the last n characters, or all of s when it is shorter
      (and, as in Python, all of s when n is 0, since -0 is 0). */
  function Tail(s: string, n: nat): (r: string)
    ensures n > 0 ==> |r| == Min(n, |s|)
    ensures n == 0 ==> r == s
    ensures s[|s| - |r|..] == r
  {
    if n == 0 || |s| <= n then s else s[|s| - n..]
  }

  /** Python's `s.endswith(suffix)`. */
  predicate EndsWith(s: string, suffix: string)
  {
    |suffix| <= |s| && s[|s| - |suffix|..] == suffix
  }

  /** Python's `a <= b` on str: lexicographic by code point, a proper prefix first. */
  predicate StrLe(a: string, b: string)
  {
    |a| == 0 || (|b| > 0 && (a[0] < b[0] || (a[0] == b[0] && StrLe(a[1..], b[1..]))))
  }

  /** Python's `a < b` on str. */
  predicate StrLt(a: string, b: string)
  {
    StrLe(a, b) && a != b
  }

  lemma {:induction false} StrLeTotal(a: string, b: string)
    ensures StrLe(a, b) || StrLe(b, a)
  {
    if |a| > 0 && |b| > 0 && a[0] == b[0] {
      StrLeTotal(a[1..], b[1..]);
    }
  }

  lemma {:induction false} StrLeTransitive(a: string, b: string, c: string)
    requires StrLe(a, b) && StrLe(b, c)
    ensures StrLe(a, c)
  {
    if |a| > 0 && a[0] == b[0] && b[0] == c[0] {
      StrLeTransitive(a[1..], b[1..], c[1..]);
    }
  }

  lemma {:induction false} StrLeAntisymmetric(a: string, b: string)
    requires StrLe(a, b) && StrLe(b, a)
    ensures a == b
  {
    if |a| > 0 {
      StrLeAntisymmetric(a[1..], b[1..]);
      assert a == [a[0]] + a[1..] && b == [b[0]] + b[1..];
    }
  }

  /** No element occurs twice. */
  predicate NoDuplicates<T(==)>(s: seq<T>)
  {
    forall i, j :: 0 <= i < j < |s| ==> s[i] != s[j]
  }

  lemma {:induction false} DistinctCardinality<T>(s: seq<T>)
    requires NoDuplicates(s)
    ensures |set x | x in s| == |s|
  {
    if s != [] {
      var rest := s[1..];
      assert NoDuplicates(rest) by {
        forall i, j | 0 <= i < j < |rest| ensures rest[i] != rest[j] {
          assert rest[i] == s[i + 1] && rest[j] == s[j + 1];
        }
      }
      DistinctCardinality(rest);
      assert (set x | x in s) == (set x | x in rest) + {s[0]};
    }
  }
}
