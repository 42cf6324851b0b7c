/** prepare_sequence_data: turn the face crops of sequence models into one row
    per source video. Crops are sorted by file name, each crop is tagged with the
    id of the video it was cut from (a label-dependent prefix of its name), the
    crops of videos that do not have exactly 20 crops are dropped, and what is
    left collapses to distinct (label, original) rows in groupby order. */
module SequenceGrouper {
  import opened Common

  /** A face crop: its class label and its file name. */
  datatype Frame = Frame(cls: int, video: string)

  /** A face crop together with the id of its parent video (the 'original' column). */
  datatype Tagged = Tagged(cls: int, video: string, original: string)

  /** One output row: a parent video with its label. */
  datatype Group = Group(cls: int, original: string)

  /** The number of crops the sequence models take from every video. */
  const FramesPerVideo: nat := 20

  // ---------------------------------------------------------------------------
  // Sorting by file name
  // ---------------------------------------------------------------------------

  predicate SortedByVideo(s: seq<Frame>)
  {
    forall i, j :: 0 <= i < j < |s| ==> StrLe(s[i].video, s[j].video)
  }

  /** Insert x into a sequence sorted by file name. */
  function InsertByVideo(x: Frame, s: seq<Frame>): (r: seq<Frame>)
    requires SortedByVideo(s)
    ensures SortedByVideo(r)
    ensures multiset(r) == multiset(s) + multiset{x}
  {
    if s == [] then [x]
    else if StrLe(x.video, s[0].video) then
      assert forall j :: 0 <= j < |s| ==> StrLe(x.video, s[j].video) by {
        forall j | 0 <= j < |s| ensures StrLe(x.video, s[j].video) {
          if j > 0 { StrLeTransitive(x.video, s[0].video, s[j].video); }
        }
      }
      [x] + s
    else
      var rest := InsertByVideo(x, s[1..]);
      assert multiset(s) == multiset{s[0]} + multiset(s[1..]) by {
        assert s == [s[0]] + s[1..];
      }
      StrLeTotal(x.video, s[0].video);
      assert forall y :: y in rest ==> StrLe(s[0].video, y.video) by {
        forall y | y in rest ensures StrLe(s[0].video, y.video) {
          assert y in multiset(rest);
          if y != x {
            assert y in multiset(s[1..]);
            var k :| 0 <= k < |s[1..]| && s[1..][k] == y;
            assert s[k + 1] == y;
          }
        }
      }
      [s[0]] + rest
  }

  /** df.sort_values(by=['video']): the crops reordered by file name. Which of two
      crops with the same name comes first is not fixed by pandas and does not
      matter to anything after it. */
  function SortByVideo(frames: seq<Frame>): (r: seq<Frame>)
    ensures SortedByVideo(r)
    ensures multiset(r) == multiset(frames)
  {
    if frames == [] then []
    else
      assert frames == [frames[0]] + frames[1..];
      InsertByVideo(frames[0], SortByVideo(frames[1..]))
  }

  // ---------------------------------------------------------------------------
  // Parent-video ids
  // ---------------------------------------------------------------------------

  /** The parent-video id of a crop: on UADFV the first 4 characters of a real
      crop's name and the first 9 of a fake one's; "" for any other label and on
      every other dataset. */
  function ParentId(dataset: string, f: Frame): (o: string)
    ensures dataset == "uadfv" && f.cls == 0 ==> o == f.video[..Min(4, |f.video|)]
    ensures dataset == "uadfv" && f.cls == 1 ==> o == f.video[..Min(9, |f.video|)]
    ensures dataset != "uadfv" || (f.cls != 0 && f.cls != 1) ==> o == ""
  {
    if dataset != "uadfv" then ""
    else if f.cls == 0 then Head(f.video, 4)
    else if f.cls == 1 then Head(f.video, 9)
    else ""
  }

  /** The parent ids of a sequence of crops, in order. */
  function Parents(dataset: string, frames: seq<Frame>): (r: seq<string>)
    ensures |r| == |frames|
    ensures forall i :: 0 <= i < |frames| ==> r[i] == ParentId(dataset, frames[i])
  {
    seq(|frames|, i requires 0 <= i < |frames| => ParentId(dataset, frames[i]))
  }

  /** How many of the crops belong to the parent video o. */
  function CountParent(dataset: string, frames: seq<Frame>, o: string): nat
  {
    multiset(Parents(dataset, frames))[o]
  }

  lemma ParentsAppend(dataset: string, a: seq<Frame>, b: seq<Frame>)
    ensures Parents(dataset, a + b) == Parents(dataset, a) + Parents(dataset, b)
  {
  }

  /** Reordering the crops does not change how many belong to each parent. */
  lemma {:induction false} ParentsPermutation(dataset: string, a: seq<Frame>, b: seq<Frame>)
    requires multiset(a) == multiset(b)
    ensures multiset(Parents(dataset, a)) == multiset(Parents(dataset, b))
    decreases |a|
  {
    if a == [] {
      assert b == [];
    } else {
      var x := a[0];
      assert x in multiset(b);
      var k :| 0 <= k < |b| && b[k] == x;
      var b' := b[..k] + b[k + 1..];
      assert b == b[..k] + [x] + b[k + 1..];
      assert a == [x] + a[1..];
      assert multiset(a) == multiset{x} + multiset(a[1..]);
      assert multiset(b) == multiset(b[..k]) + multiset{x} + multiset(b[k + 1..]);
      assert multiset(b') == multiset(b[..k]) + multiset(b[k + 1..]);
      assert multiset(a[1..]) == multiset(a) - multiset{x};
      assert multiset(b') == multiset(b) - multiset{x};
      ParentsPermutation(dataset, a[1..], b');
      ParentsAppend(dataset, [x], a[1..]);
      ParentsAppend(dataset, b[..k], [x]);
      ParentsAppend(dataset, b[..k] + [x], b[k + 1..]);
      ParentsAppend(dataset, b[..k], b[k + 1..]);
    }
  }

  // ---------------------------------------------------------------------------
  // Tagging (the loop over the rows)
  // ---------------------------------------------------------------------------

  /** The crops with their 'original' column filled in. */
  function Tag(dataset: string, frames: seq<Frame>): (r: seq<Tagged>)
    ensures |r| == |frames|
    ensures forall i :: 0 <= i < |frames| ==>
              r[i] == Tagged(frames[i].cls, frames[i].video, ParentId(dataset, frames[i]))
  {
    seq(|frames|, i requires 0 <= i < |frames| =>
      Tagged(frames[i].cls, frames[i].video, ParentId(dataset, frames[i])))
  }

  /** The column is first set to "" for every row; on UADFV each row of label 0
      or 1 is then rewritten with its name's prefix. */
  method AssignOriginals(dataset: string, frames: seq<Frame>) returns (tagged: seq<Tagged>)
    ensures tagged == Tag(dataset, frames)
  {
    tagged := seq(|frames|, i requires 0 <= i < |frames| => Tagged(frames[i].cls, frames[i].video, ""));
    if dataset == "uadfv" {
      var i := 0;
      while i < |frames|
        invariant 0 <= i <= |frames|
        invariant |tagged| == |frames|
        invariant forall j :: 0 <= j < i ==>
                    tagged[j] == Tagged(frames[j].cls, frames[j].video, ParentId(dataset, frames[j]))
        invariant forall j :: i <= j < |frames| ==> tagged[j] == Tagged(frames[j].cls, frames[j].video, "")
      {
        if frames[i].cls == 0 {
          tagged := tagged[i := tagged[i].(original := Head(frames[i].video, 4))];
        } else if frames[i].cls == 1 {
          tagged := tagged[i := tagged[i].(original := Head(frames[i].video, 9))];
        }
        i := i + 1;
      }
    }
  }

  // ---------------------------------------------------------------------------
  // Counting, filtering and collapsing
  // ---------------------------------------------------------------------------

  /** The 'original' column of the tagged crops. */
  function Originals(tagged: seq<Tagged>): (r: seq<string>)
    ensures |r| == |tagged|
    ensures forall i :: 0 <= i < |tagged| ==> r[i] == tagged[i].original
  {
    seq(|tagged|, i requires 0 <= i < |tagged| => tagged[i].original)
  }

  /** The rows of `rest` whose parent has exactly 20 crops among `all` (the
      groupby size merged back onto every row, then df[df['count'] == 20]). */
  function KeepComplete(all: seq<Tagged>, rest: seq<Tagged>): (r: seq<Tagged>)
    ensures forall t :: t in r <==> t in rest && multiset(Originals(all))[t.original] == FramesPerVideo
  {
    if rest == [] then []
    else if multiset(Originals(all))[rest[0].original] == FramesPerVideo then
      [rest[0]] + KeepComplete(all, rest[1..])
    else
      KeepComplete(all, rest[1..])
  }

  /** The order groupby(['label', 'original']) lists its groups in. */
  predicate GroupLt(a: Group, b: Group)
  {
    a.cls < b.cls || (a.cls == b.cls && StrLt(a.original, b.original))
  }

  lemma GroupLtTotal(a: Group, b: Group)
    ensures a == b || GroupLt(a, b) || GroupLt(b, a)
  {
    StrLeTotal(a.original, b.original);
  }

  lemma GroupLtTransitive(a: Group, b: Group, c: Group)
    requires GroupLt(a, b) && GroupLt(b, c)
    ensures GroupLt(a, c)
  {
    if a.cls == b.cls == c.cls {
      StrLeTransitive(a.original, b.original, c.original);
      if a.original == c.original {
        StrLeAntisymmetric(a.original, b.original);
      }
    }
  }

  predicate StrictlySorted(s: seq<Group>)
  {
    forall i, j :: 0 <= i < j < |s| ==> GroupLt(s[i], s[j])
  }

  lemma StrictlySortedDistinct(s: seq<Group>)
    requires StrictlySorted(s)
    ensures NoDuplicates(s)
  {
  }

  /** Add a group to a strictly sorted sequence of groups, unless it is there already. */
  function InsertGroup(g: Group, s: seq<Group>): (r: seq<Group>)
    requires StrictlySorted(s)
    ensures StrictlySorted(r)
    ensures forall h :: h in r <==> h in s || h == g
  {
    if s == [] then [g]
    else if g == s[0] then s
    else if GroupLt(g, s[0]) then
      assert forall j :: 0 <= j < |s| ==> GroupLt(g, s[j]) by {
        forall j | 0 <= j < |s| ensures GroupLt(g, s[j]) {
          if j > 0 { GroupLtTransitive(g, s[0], s[j]); }
        }
      }
      [g] + s
    else
      GroupLtTotal(g, s[0]);
      var rest := InsertGroup(g, s[1..]);
      assert forall h :: h in rest ==> GroupLt(s[0], h) by {
        forall h | h in rest ensures GroupLt(s[0], h) {
          if h != g {
            var k :| 0 <= k < |s[1..]| && s[1..][k] == h;
            assert s[k + 1] == h;
          }
        }
      }
      [s[0]] + rest
  }

  /** df.groupby(['label', 'original']).size() keeping only the keys: each
      (label, original) pair of the rows once, in ascending order. */
  function Collapse(ts: seq<Tagged>): (r: seq<Group>)
    ensures StrictlySorted(r)
    ensures forall g :: g in r <==> exists t :: t in ts && g == Group(t.cls, t.original)
  {
    if ts == [] then []
    else
      var rest := Collapse(ts[1..]);
      assert forall t :: t in ts <==> t == ts[0] || t in ts[1..] by {
        assert ts == [ts[0]] + ts[1..];
      }
      InsertGroup(Group(ts[0].cls, ts[0].original), rest)
  }

  /** A crop whose parent video has exactly 20 crops among `frames`. */
  predicate Complete(dataset: string, frames: seq<Frame>, f: Frame)
  {
    CountParent(dataset, frames, ParentId(dataset, f)) == FramesPerVideo
  }

  /** Counting the tagged rows of the sorted crops counts the crops per parent. */
  lemma TaggedCounts(dataset: string, frames: seq<Frame>, sorted: seq<Frame>)
    requires multiset(sorted) == multiset(frames)
    ensures multiset(Originals(Tag(dataset, sorted))) == multiset(Parents(dataset, frames))
  {
    assert Originals(Tag(dataset, sorted)) == Parents(dataset, sorted);
    ParentsPermutation(dataset, sorted, frames);
  }

  lemma KeptIsComplete(dataset: string, frames: seq<Frame>, sorted: seq<Frame>, g: Group)
    requires multiset(sorted) == multiset(frames)
    requires g in Collapse(KeepComplete(Tag(dataset, sorted), Tag(dataset, sorted)))
    ensures exists f :: f in frames && g == Group(f.cls, ParentId(dataset, f)) && Complete(dataset, frames, f)
  {
    var tagged := Tag(dataset, sorted);
    TaggedCounts(dataset, frames, sorted);
    var t :| t in KeepComplete(tagged, tagged) && g == Group(t.cls, t.original);
    var i :| 0 <= i < |tagged| && tagged[i] == t;
    var f := sorted[i];
    assert f in multiset(frames);
    assert Complete(dataset, frames, f);
  }

  lemma CompleteIsKept(dataset: string, frames: seq<Frame>, sorted: seq<Frame>, f: Frame)
    requires multiset(sorted) == multiset(frames)
    requires f in frames && Complete(dataset, frames, f)
    ensures Group(f.cls, ParentId(dataset, f)) in Collapse(KeepComplete(Tag(dataset, sorted), Tag(dataset, sorted)))
  {
    var tagged := Tag(dataset, sorted);
    TaggedCounts(dataset, frames, sorted);
    assert f in multiset(sorted);
    var i :| 0 <= i < |sorted| && sorted[i] == f;
    assert tagged[i] in KeepComplete(tagged, tagged);
  }

  /** prepare_sequence_data(dataset, df). A DataFrame built from no crops has no
      'video' column, so sorting it raises a KeyError. Otherwise the result holds
      exactly the (label, parent) pairs of the crops whose parent has exactly 20
      crops, each once and in ascending order. */
  method PrepareSequenceData(dataset: string, frames: seq<Frame>) returns (r: Result<seq<Group>>)
    ensures r.Err? <==> frames == []
    ensures r.Err? ==> r.error == MissingColumn("video")
    ensures r.Ok? ==> StrictlySorted(r.value) && NoDuplicates(r.value)
    ensures r.Ok? ==> forall g :: g in r.value <==>
              exists f :: f in frames && g == Group(f.cls, ParentId(dataset, f)) && Complete(dataset, frames, f)
  {
    if frames == [] {
      return Err(MissingColumn("video"));
    }
    var sorted := SortByVideo(frames);
    var tagged := AssignOriginals(dataset, sorted);
    var groups := Collapse(KeepComplete(tagged, tagged));
    forall g | g in groups
      ensures exists f :: f in frames && g == Group(f.cls, ParentId(dataset, f)) && Complete(dataset, frames, f)
    {
      KeptIsComplete(dataset, frames, sorted, g);
    }
    forall f | f in frames && Complete(dataset, frames, f)
      ensures Group(f.cls, ParentId(dataset, f)) in groups
    {
      CompleteIsKept(dataset, frames, sorted, f);
    }
    StrictlySortedDistinct(groups);
    r := Ok(groups);
  }
}
