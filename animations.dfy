/**
 * `getFrames` of electron/src/animations.ts: the frames of an animation are
 * the `.png` names of its folder's listing, in listing order, each turned
 * into a path under `../images/`. Reading the directory is replaced by its
 * result, `None` standing for a read that throws.
 */
module Animations {
  import opened Wrappers

  /** `file.endsWith(".png")`: the name is some stem followed by `.png`. */
  predicate IsPng(file: string)
    ensures IsPng(file) <==> exists stem: string :: file == stem + ".png"
  {
    var ok := |file| >= 4 && file[|file| - 4..] == ".png";
    assert ok ==> file == file[..|file| - 4] + ".png";
    ok
  }

  /** `` `../images/${folder}/${file}` ``: the file name is the last part of the path. */
  function FramePath(folder: string, file: string): (path: string)
    ensures |path| == |"../images/"| + |folder| + 1 + |file|
    ensures path[|path| - |file|..] == file
    ensures path[|path| - |file| - 1] == '/'
  {
    "../images/" + folder + "/" + file
  }

  /** `files.filter(file => file.endsWith(".png")).map(file => FramePath(folder, file))`. */
  function PngFrames(folder: string, files: seq<string>): (frames: seq<string>)
    ensures |frames| <= |files|
  {
    if files == [] then []
    else if IsPng(files[0]) then [FramePath(folder, files[0])] + PngFrames(folder, files[1..])
    else PngFrames(folder, files[1..])
  }

  /** `getFrames(folder)`, given what `readdirSync` returned or `None` if it threw. */
  function GetFrames(folder: string, listing: Option<seq<string>>): (r: seq<string>)
    ensures listing.None? ==> r == []
  {
    match listing
    case None => []
    case Some(files) => PngFrames(folder, files)
  }

  /** The positions of the `.png` names of `files` from `from` on, ascending. */
  function PngIndicesFrom(files: seq<string>, from: nat): (idx: seq<nat>)
    requires from <= |files|
    ensures forall k | 0 <= k < |idx| :: from <= idx[k] < |files|
    decreases |files| - from
  {
    if from == |files| then []
    else if IsPng(files[from]) then [from] + PngIndicesFrom(files, from + 1)
    else PngIndicesFrom(files, from + 1)
  }

  /** Every position listed holds a `.png` name. */
  lemma {:induction false} PngIndicesArePngs(files: seq<string>, from: nat)
    requires from <= |files|
    ensures forall k | 0 <= k < |PngIndicesFrom(files, from)| :: IsPng(files[PngIndicesFrom(files, from)[k]])
    decreases |files| - from
  {
    if from < |files| {
      PngIndicesArePngs(files, from + 1);
    }
  }

  /** The positions are listed in ascending order, so each at most once. */
  lemma {:induction false} PngIndicesAscending(files: seq<string>, from: nat)
    requires from <= |files|
    ensures forall k, l | 0 <= k < l < |PngIndicesFrom(files, from)| ::
      PngIndicesFrom(files, from)[k] < PngIndicesFrom(files, from)[l]
    decreases |files| - from
  {
    if from < |files| {
      PngIndicesAscending(files, from + 1);
    }
  }

  /** No `.png` name is missed. */
  lemma {:induction false} PngIndicesComplete(files: seq<string>, from: nat)
    requires from <= |files|
    ensures forall i | from <= i < |files| && IsPng(files[i]) :: i in PngIndicesFrom(files, from)
    decreases |files| - from
  {
    if from < |files| {
      PngIndicesComplete(files, from + 1);
    }
  }

  /**
   * The frames are the `.png` names of the listing, in listing order and no
   * others: frame `k` comes from the `k`-th `.png` name.
   */
  lemma PngFramesSelect(folder: string, files: seq<string>)
    ensures var r := PngFrames(folder, files);
      var idx := PngIndicesFrom(files, 0);
      |r| == |idx| &&
      forall k | 0 <= k < |r| :: r[k] == FramePath(folder, files[idx[k]])
  {
    PngFramesSelectFrom(folder, files, 0);
    assert files[0..] == files;
  }

  lemma {:induction false} PngFramesSelectFrom(folder: string, files: seq<string>, from: nat)
    requires from <= |files|
    ensures var r := PngFrames(folder, files[from..]);
      var idx := PngIndicesFrom(files, from);
      |r| == |idx| &&
      forall k | 0 <= k < |r| :: r[k] == FramePath(folder, files[idx[k]])
    decreases |files| - from
  {
    if from < |files| {
      PngFramesSelectFrom(folder, files, from + 1);
      var here := files[from..];
      assert here[0] == files[from] && here[1..] == files[from + 1..];
      var r, rest := PngFrames(folder, here), PngFrames(folder, files[from + 1..]);
      var idx, idxRest := PngIndicesFrom(files, from), PngIndicesFrom(files, from + 1);
      if IsPng(files[from]) {
        assert r == [FramePath(folder, files[from])] + rest;
        assert idx == [from] + idxRest;
        forall k | 0 <= k < |r| ensures r[k] == FramePath(folder, files[idx[k]]) {
          if k > 0 {
            assert r[k] == rest[k - 1] && idx[k] == idxRest[k - 1];
          }
        }
      } else {
        assert r == rest && idx == idxRest;
      }
    }
  }

  /** Listing order is kept: the frames of two listings in a row are their frames in a row. */
  lemma {:induction false} PngFramesAppend(folder: string, a: seq<string>, b: seq<string>)
    ensures PngFrames(folder, a + b) == PngFrames(folder, a) + PngFrames(folder, b)
    decreases |a|
  {
    if a != [] {
      assert (a + b)[0] == a[0] && (a + b)[1..] == a[1..] + b;
      PngFramesAppend(folder, a[1..], b);
    } else {
      assert a + b == b;
    }
  }

  /** A path is a frame exactly when it is built from a `.png` name of the listing. */
  lemma {:induction false} PngFramesMembers(folder: string, files: seq<string>, x: string)
    ensures x in PngFrames(folder, files) <==>
      exists i | 0 <= i < |files| :: IsPng(files[i]) && x == FramePath(folder, files[i])
    decreases |files|
  {
    if files != [] {
      PngFramesMembers(folder, files[1..], x);
      if exists i | 0 <= i < |files| :: IsPng(files[i]) && x == FramePath(folder, files[i]) {
        var i :| 0 <= i < |files| && IsPng(files[i]) && x == FramePath(folder, files[i]);
        if i > 0 {
          assert files[1..][i - 1] == files[i];
        }
      }
      if exists i | 0 <= i < |files[1..]| :: IsPng(files[1..][i]) && x == FramePath(folder, files[1..][i]) {
        var i :| 0 <= i < |files[1..]| && IsPng(files[1..][i]) && x == FramePath(folder, files[1..][i]);
        assert files[i + 1] == files[1..][i];
      }
    }
  }

  /** No more frames than names, and as many exactly when every name is a `.png`. */
  lemma {:induction false} PngFramesCount(folder: string, files: seq<string>)
    ensures |PngFrames(folder, files)| <= |files|
    ensures |PngFrames(folder, files)| == |files| <==> forall i | 0 <= i < |files| :: IsPng(files[i])
    decreases |files|
  {
    if files != [] {
      PngFramesCount(folder, files[1..]);
      assert forall i | 1 <= i < |files| :: files[i] == files[1..][i - 1];
    }
  }

  /** A stray non-`.png` file between two frames is dropped and the frames keep their order. */
  lemma StrayFileDropped(folder: string, first: string, stray: string, last: string)
    requires IsPng(first) && !IsPng(stray) && IsPng(last)
    ensures GetFrames(folder, Some([first, stray, last])) == [FramePath(folder, first), FramePath(folder, last)]
  {
    var files := [first, stray, last];
    assert files[1..] == [stray, last] && files[1..][1..] == [last] && files[1..][1..][1..] == [];
    assert PngFrames(folder, [last]) == [FramePath(folder, last)];
    assert PngFrames(folder, [stray, last]) == [FramePath(folder, last)];
  }
}
