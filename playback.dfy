/**
 * The frame player `AnimationThread` of python/deskpet.py.
 *
 * The thread is modelled without the thread: each pass through the body of
 * the `while self.running` loop is one call of `Tick`, and `Run(budget)` is
 * the whole of `run()` cut off after `budget` passes (the point where some
 * other caller stops the player). `glob` is replaced by its result, the list
 * of matching paths, which the player sorts as the source does. The pixmap
 * decoding, the signal and the 100 ms sleep are left out: emitting a frame
 * is returning its path.
 */
module Playback {
  import opened PathSort
  import opened CursorArith

  /** What one pass of the loop does. */
  datatype Outcome =
    | Emitted(frame: string)  // the frame at the cursor went out
    | Idle                    // `running` was already false: the loop is over
    | IndexError              // the cursor was past the list: Python raises

  /** The fields of the thread that playback reads and writes. */
  datatype Player = Player(paths: seq<string>, cursor: nat, running: bool, loop: bool)

  datatype Stepped = Stepped(next: Player, out: Outcome)

  /** The frames of `k` passes of the loop and the state after them. */
  datatype Played = Played(final: Player, frames: seq<string>, faulted: bool)

  /** The invariant the player keeps: a running player with frames has its cursor on one. */
  predicate Consistent(p: Player) {
    p.cursor <= |p.paths| && (p.running && p.paths != [] ==> p.cursor < |p.paths|)
  }

  /** One pass of the loop body (python/deskpet.py:46-55). */
  function Step(p: Player): (r: Stepped)
    ensures r.next.paths == p.paths && r.next.loop == p.loop
    ensures r.out.IndexError? <==> p.running && p.cursor >= |p.paths|
    ensures r.out.Idle? <==> !p.running
    ensures r.out.Emitted? ==> p.cursor < |p.paths| && r.out.frame == p.paths[p.cursor]
    ensures Consistent(p) ==> Consistent(r.next)
  {
    if !p.running then Stepped(p, Idle)
    else if p.cursor >= |p.paths| then Stepped(p, IndexError)
    else
      var frame := p.paths[p.cursor];
      var next := p.cursor + 1;
      if next >= |p.paths| then
        if p.loop then Stepped(p.(cursor := 0), Emitted(frame))
        else Stepped(p.(cursor := next, running := false), Emitted(frame))
      else Stepped(p.(cursor := next), Emitted(frame))
  }

  /** Up to `k` passes of the loop, ending early when `running` is cleared or an index fails. */
  function Play(p: Player, k: nat): (r: Played)
    ensures |r.frames| <= k
    ensures |r.frames| < k ==> r.faulted || !r.final.running
    decreases k
  {
    if k == 0 || !p.running then Played(p, [], false)
    else
      var s := Step(p);
      if s.out.Emitted? then
        var rest := Play(s.next, k - 1);
        Played(rest.final, [s.out.frame] + rest.frames, rest.faulted)
      else Played(s.next, [], true)
  }

  /** The first of `k` passes, then the rest. */
  lemma PlayFirstPass(p: Player, k: nat)
    requires k > 0 && p.running
    ensures var s := Step(p);
      Play(p, k) == if s.out.Emitted? then
        var rest := Play(s.next, k - 1);
        Played(rest.final, [s.out.frame] + rest.frames, rest.faulted)
      else Played(s.next, [], true)
  {
  }

  /** A run that has emitted `done` and has `b` passes left, one pass later. */
  lemma ContinuePlay(whole: Played, before: Player, b: nat, done: seq<string>)
    requires b > 0 && before.running && before.cursor < |before.paths|
    requires var rest := Play(before, b);
      whole == Played(rest.final, done + rest.frames, rest.faulted)
    ensures Step(before).out.Emitted?
    ensures var s := Step(before);
      var rest := Play(s.next, b - 1);
      whole == Played(rest.final, (done + [s.out.frame]) + rest.frames, rest.faulted)
  {
    PlayFirstPass(before, b);
    var s := Step(before);
    var rest := Play(s.next, b - 1);
    assert done + ([s.out.frame] + rest.frames) == (done + [s.out.frame]) + rest.frames;
  }

  /**
   * Loop mode: from cursor `c`, `k` passes emit the frames at `c`, `c + 1`,
   * ... modulo the length, and leave the cursor at `(c + k) mod n`.
   */
  lemma {:induction false} LoopPlay(p: Player, k: nat)
    requires p.running && p.loop && p.cursor < |p.paths|
    ensures var r := Play(p, k);
      !r.faulted && |r.frames| == k &&
      r.final == p.(cursor := (p.cursor + k) % |p.paths|) &&
      forall j | 0 <= j < k :: r.frames[j] == p.paths[(p.cursor + j) % |p.paths|]
    decreases k
  {
    var n := |p.paths|;
    if k == 0 {
      ModUnique(p.cursor, n, 0, p.cursor);
    } else {
      StepIsModulo(p.cursor, n);
      var q := p.(cursor := (p.cursor + 1) % n);
      assert Step(p) == Stepped(q, Emitted(p.paths[p.cursor]));
      LoopPlay(q, k - 1);
      var rest := Play(q, k - 1);
      ModAddLeft(p.cursor + 1, k - 1, n);
      assert rest.final == p.(cursor := (p.cursor + k) % n);
      FirstThenShifted(p.paths, p.cursor, rest.frames);
    }
  }

  /**
   * One-shot mode: from cursor `c`, `k` passes emit the frames from `c` on,
   * in index order, at most once each; once the last frame has gone out,
   * `running` is false and the cursor sits at the end.
   */
  lemma {:induction false} OneShotPlay(p: Player, k: nat)
    requires p.running && !p.loop && p.cursor < |p.paths|
    ensures var n := |p.paths|;
      var m := if k < n - p.cursor then k else n - p.cursor;
      var r := Play(p, k);
      !r.faulted && r.frames == p.paths[p.cursor..p.cursor + m] &&
      r.final == p.(cursor := p.cursor + m, running := p.cursor + m < n)
    decreases k
  {
    var n, c := |p.paths|, p.cursor;
    if k == 0 {
      assert p.paths[c..c] == [];
    } else if c + 1 == n {
      OneShotLastPass(p, k);
      assert p.paths[c..c + 1] == [p.paths[c]];
    } else {
      var q := p.(cursor := c + 1);
      OneShotInnerPass(p, k);
      OneShotPlay(q, k - 1);
      SliceFirst(p.paths, c, if k < n - c then k else n - c);
    }
  }

  /** A non-empty slice is its first element followed by the rest. */
  lemma SliceFirst(s: seq<string>, c: nat, m: nat)
    requires 0 < m && c + m <= |s|
    ensures s[c..c + m] == [s[c]] + s[c + 1..c + m]
  {
  }

  /** The pass that emits the last frame of a one-shot player also ends it. */
  lemma OneShotLastPass(p: Player, k: nat)
    requires p.running && !p.loop && p.cursor + 1 == |p.paths| && k > 0
    ensures Play(p, k) == Played(p.(cursor := |p.paths|, running := false), [p.paths[p.cursor]], false)
  {
    var q := p.(cursor := |p.paths|, running := false);
    assert Step(p) == Stepped(q, Emitted(p.paths[p.cursor]));
    assert Play(q, k - 1) == Played(q, [], false);
  }

  /** A pass before the last frame emits the frame at the cursor and moves on by one. */
  lemma OneShotInnerPass(p: Player, k: nat)
    requires p.running && !p.loop && p.cursor + 1 < |p.paths| && k > 0
    ensures var rest := Play(p.(cursor := p.cursor + 1), k - 1);
      Play(p, k) == Played(rest.final, [p.paths[p.cursor]] + rest.frames, rest.faulted)
  {
    assert Step(p) == Stepped(p.(cursor := p.cursor + 1), Emitted(p.paths[p.cursor]));
  }

  /**
   * A one-shot player started at the first frame of a non-empty folder emits
   * every frame exactly once, in sorted path order, and then stops.
   */
  lemma OneShotEmitsSortedListing(listing: seq<string>, k: nat)
    requires listing != [] && k >= |listing|
    ensures var p := Player(SortPaths(listing), 0, true, false);
      var r := Play(p, k);
      r.frames == SortPaths(listing) && !r.faulted &&
      IsSorted(r.frames) && multiset(r.frames) == multiset(listing) &&
      !r.final.running
  {
    var p := Player(SortPaths(listing), 0, true, false);
    OneShotPlay(p, k);
    var m := if k < |p.paths| - 0 then k else |p.paths| - 0;
    assert m == |p.paths|;
    assert p.paths[0..0 + m] == p.paths;
  }

  /** `AnimationThread`: one player of frames from one folder. */
  class AnimationThread {
    var imageFolder: string
    var imagePaths: seq<string>
    var currentFrame: nat
    var running: bool
    var loop: bool

    function State(): Player
      reads this
    {
      Player(imagePaths, currentFrame, running, loop)
    }

    /** The paths are in sorted order and a running player has its cursor on a frame. */
    ghost predicate Valid()
      reads this
    {
      IsSorted(imagePaths) && Consistent(State())
    }

    /** `AnimationThread(image_folder, loop)`, `listing` being what the glob matched. */
    constructor (imageFolder: string, listing: seq<string>, loop: bool)
      ensures Valid()
      ensures this.imageFolder == imageFolder
      ensures State() == Player(SortPaths(listing), 0, true, loop)
    {
      this.imageFolder := imageFolder;
      imagePaths := SortPaths(listing);
      currentFrame := 0;
      running := true;
      this.loop := loop;
    }

    /** One pass of the loop in `run`: emit the frame at the cursor and advance. */
    method Tick() returns (out: Outcome)
      requires Valid()
      modifies this
      ensures Valid()
      ensures Stepped(State(), out) == Step(old(State()))
      ensures imageFolder == old(imageFolder)
    {
      if !running {
        return Idle;
      }
      if currentFrame >= |imagePaths| {
        return IndexError;
      }
      out := Emitted(imagePaths[currentFrame]);
      currentFrame := currentFrame + 1;
      if currentFrame >= |imagePaths| {
        if loop {
          currentFrame := 0;
        } else {
          running := false;
        }
      }
    }

    /**
     * One whole `run()` from its start, cut off after `budget` passes of the
     * loop. An empty folder is refused before the loop, so nothing is emitted
     * and nothing changes. The guard belongs to the start of `run()`: a loop
     * that goes on after `SetImageFolder` has retargeted the player is
     * modelled by further calls of `Tick`, not by a second `Run`.
     */
    method Run(budget: nat) returns (emitted: seq<string>)
      requires Valid()
      modifies this
      ensures Valid()
      ensures old(imagePaths) == [] ==> emitted == [] && State() == old(State())
      ensures old(imagePaths) != [] ==> Play(old(State()), budget) == Played(State(), emitted, false)
      ensures !old(running) ==> emitted == [] && State() == old(State())
      ensures imageFolder == old(imageFolder)
    {
      if imagePaths == [] {
        return [];
      }
      emitted := [];
      var ticks := 0;
      while running && ticks < budget
        invariant Valid() && ticks <= budget
        invariant imagePaths == old(imagePaths) && imageFolder == old(imageFolder)
        invariant var rest := Play(State(), budget - ticks);
          Play(old(State()), budget) == Played(rest.final, emitted + rest.frames, rest.faulted)
        decreases budget - ticks
      {
        ghost var before := State();
        assert before.cursor < |before.paths|;
        ContinuePlay(Play(old(State()), budget), before, budget - ticks, emitted);
        var out := Tick();
        emitted := emitted + [out.frame];
        ticks := ticks + 1;
      }
    }

    /** `stop()`: clear `running`; the thread's `quit` and `wait` are left out. */
    method Stop()
      requires Valid()
      modifies this
      ensures Valid()
      ensures State() == old(State()).(running := false)
      ensures imageFolder == old(imageFolder)
    {
      running := false;
    }

    /** `set_image_folder`: new frames, cursor back to the first, new mode; `running` is kept. */
    method SetImageFolder(newFolder: string, listing: seq<string>, loop: bool)
      requires Valid()
      modifies this
      ensures Valid()
      ensures imageFolder == newFolder
      ensures State() == Player(SortPaths(listing), 0, old(running), loop)
    {
      imageFolder := newFolder;
      imagePaths := SortPaths(listing);
      currentFrame := 0;
      this.loop := loop;
    }
  }

  /** After `stop`, `run` emits nothing more. */
  method StopThenRun(t: AnimationThread, budget: nat) returns (emitted: seq<string>)
    requires t.Valid()
    modifies t
    ensures emitted == [] && !t.running
  {
    t.Stop();
    emitted := t.Run(budget);
  }
}
