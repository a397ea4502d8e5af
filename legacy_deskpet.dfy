/**
 * The earlier pet of deskpet.py (at the repository root): a player that
 * always loops, with the cursor stepped modulo the number of frames, and two
 * windows that share a lock flag.
 *
 * As in the python/ version, ticks are calls of `Tick`, `Run(budget)` is
 * `run()` cut off after `budget` passes, `glob` is replaced by the paths it
 * matched and emitting a frame is returning its path. This player has no
 * guard for an empty folder: its first pass indexes the empty list, which
 * Python answers with an `IndexError` that ends `run()`.
 *
 * The outcome, result and `Play` definitions mirror those of `Playback` on
 * purpose: the two players live in separate source files with their own
 * fields (this one has no `loop` flag) and their own step rules, so each
 * module keeps its own `Player` and the passes built on it.
 */
module LegacyDeskPet {
  import opened PathSort
  import opened CursorArith

  datatype Outcome =
    | Emitted(frame: string)  // the frame at the cursor went out
    | Idle                    // `running` was already false: the loop is over
    | IndexError              // the frame list was empty: Python raises

  datatype Player = Player(paths: seq<string>, cursor: nat, running: bool)

  datatype Stepped = Stepped(next: Player, out: Outcome)

  datatype Played = Played(final: Player, frames: seq<string>, faulted: bool)

  /** The cursor is on a frame, or at 0 when there are none. */
  predicate CursorInRange(p: Player) {
    if p.paths == [] then p.cursor == 0 else p.cursor < |p.paths|
  }

  /** One pass of the loop body (deskpet.py:36-40). */
  function Step(p: Player): (r: Stepped)
    ensures r.next.paths == p.paths
    ensures r.out.IndexError? <==> p.running && p.cursor >= |p.paths|
    ensures r.out.Idle? <==> !p.running
    ensures r.out.Emitted? ==> p.cursor < |p.paths| && r.out.frame == p.paths[p.cursor]
  {
    if !p.running then Stepped(p, Idle)
    else if p.cursor >= |p.paths| then Stepped(p, IndexError)
    else Stepped(p.(cursor := (p.cursor + 1) % |p.paths|), Emitted(p.paths[p.cursor]))
  }

  /** Up to `k` passes of the loop; an `IndexError` ends `run()`. */
  function Play(p: Player, k: nat): (r: Played)
    ensures |r.frames| <= k
    ensures |r.frames| < k ==> r.faulted || !r.final.running
    decreases k
  {
    if k == 0 || !p.running then Played(p, [], false)
    else
      var s := Step(p);
      if s.out.Emitted? then
        var rest := Play(s.next, k - 1);
        Played(rest.final, [s.out.frame] + rest.frames, rest.faulted)
      else Played(s.next, [], true)
  }

  /** The first of `k` passes, then the rest. */
  lemma PlayFirstPass(p: Player, k: nat)
    requires k > 0 && p.running
    ensures var s := Step(p);
      Play(p, k) == if s.out.Emitted? then
        var rest := Play(s.next, k - 1);
        Played(rest.final, [s.out.frame] + rest.frames, rest.faulted)
      else Played(s.next, [], true)
  {
  }

  /**
   * With frames, `k` passes from cursor `c` emit the frames at `c`, `c + 1`,
   * ... modulo the length, keep running, and leave the cursor at
   * `(c + k) mod n`.
   */
  lemma {:induction false} PlayCycles(p: Player, k: nat)
    requires p.running && p.cursor < |p.paths|
    ensures var r := Play(p, k);
      !r.faulted && |r.frames| == k &&
      r.final == p.(cursor := (p.cursor + k) % |p.paths|) &&
      forall j | 0 <= j < k :: r.frames[j] == p.paths[(p.cursor + j) % |p.paths|]
    decreases k
  {
    var n := |p.paths|;
    if k == 0 {
      ModUnique(p.cursor, n, 0, p.cursor);
    } else {
      var q := p.(cursor := (p.cursor + 1) % n);
      assert Step(p) == Stepped(q, Emitted(p.paths[p.cursor]));
      PlayCycles(q, k - 1);
      var rest := Play(q, k - 1);
      ModAddLeft(p.cursor + 1, k - 1, n);
      assert rest.final == p.(cursor := (p.cursor + k) % n);
      FirstThenShifted(p.paths, p.cursor, rest.frames);
    }
  }

  /** From a fresh player, after `k` ticks the cursor is `k mod n` and tick `j` showed frame `j mod n`. */
  lemma FreshPlayerCycles(listing: seq<string>, k: nat)
    requires listing != []
    ensures var paths := SortPaths(listing);
      var r := Play(Player(paths, 0, true), k);
      |paths| == |listing| && r.final.cursor == k % |listing| && |r.frames| == k &&
      forall j | 0 <= j < k :: r.frames[j] == paths[j % |listing|]
  {
    var paths := SortPaths(listing);
    var p := Player(paths, 0, true);
    PlayCycles(p, k);
    var r := Play(p, k);
    assert r.final.cursor == (0 + k) % |paths|;
    assert forall j | 0 <= j < k :: r.frames[j] == paths[(0 + j) % |paths|];
  }

  /** A running player with no frames fails on its first pass and emits nothing. */
  lemma EmptyFolderFaults(k: nat)
    requires k > 0
    ensures Play(Player([], 0, true), k) == Played(Player([], 0, true), [], true)
  {
  }

  /** `AnimationThread` of deskpet.py. */
  class AnimationThread {
    var imagePaths: seq<string>
    var currentFrame: nat
    var running: bool

    function State(): Player
      reads this
    {
      Player(imagePaths, currentFrame, running)
    }

    ghost predicate Valid()
      reads this
    {
      IsSorted(imagePaths) && CursorInRange(State())
    }

    /** `AnimationThread(image_folder)`, `listing` being what the glob matched. */
    constructor (listing: seq<string>)
      ensures Valid()
      ensures State() == Player(SortPaths(listing), 0, true)
    {
      imagePaths := SortPaths(listing);
      currentFrame := 0;
      running := true;
    }

    /** One pass of the loop in `run`. */
    method Tick() returns (out: Outcome)
      requires Valid()
      modifies this
      ensures Valid()
      ensures Stepped(State(), out) == Step(old(State()))
    {
      if !running {
        return Idle;
      }
      if currentFrame >= |imagePaths| {
        return IndexError;
      }
      out := Emitted(imagePaths[currentFrame]);
      currentFrame := (currentFrame + 1) % |imagePaths|;
    }

    /** `run()` up to `budget` passes; `faulted` is the `IndexError` of an empty folder. */
    method Run(budget: nat) returns (emitted: seq<string>, faulted: bool)
      requires Valid()
      modifies this
      ensures Valid()
      ensures Play(old(State()), budget) == Played(State(), emitted, faulted)
    {
      emitted, faulted := [], false;
      var ticks := 0;
      while running && ticks < budget
        invariant Valid() && ticks <= budget
        invariant !faulted
        invariant var rest := Play(State(), budget - ticks);
          Play(old(State()), budget) == Played(rest.final, emitted + rest.frames, rest.faulted)
        decreases budget - ticks
      {
        PlayFirstPass(State(), budget - ticks);
        var out := Tick();
        if !out.Emitted? {
          return emitted, true;
        }
        emitted := emitted + [out.frame];
        ticks := ticks + 1;
      }
    }

    /** `stop()`: clear `running`; the thread's `quit` and `wait` are left out. */
    method Stop()
      requires Valid()
      modifies this
      ensures Valid()
      ensures State() == old(State()).(running := false)
    {
      running := false;
    }
  }

  /** The pet window: its lock flag and its link to the chat window. */
  class DeskPet {
    var animationThread: AnimationThread
    var chatWindow: ChatWindow?
    var locked: bool

    /** The window starts unlocked and plays its folder's `listing` in a loop. */
    constructor (listing: seq<string>)
      ensures fresh(animationThread) && animationThread.Valid()
      ensures animationThread.State() == Player(SortPaths(listing), 0, true)
      ensures chatWindow == null && !locked
    {
      animationThread := new AnimationThread(listing);
      chatWindow := null;
      locked := false;
    }

    method SetChatWindow(chatWindow: ChatWindow)
      modifies this
      ensures this.chatWindow == chatWindow
      ensures locked == old(locked) && animationThread == old(animationThread)
    {
      this.chatWindow := chatWindow;
    }

    method ToggleLock()
      modifies this
      ensures locked == !old(locked)
      ensures chatWindow == old(chatWindow) && animationThread == old(animationThread)
    {
      locked := !locked;
    }
  }

  /** The chat window: its lock flag follows the pet window's. */
  class ChatWindow {
    const petWindow: DeskPet
    var locked: bool

    constructor (petWindow: DeskPet)
      ensures this.petWindow == petWindow && !locked
    {
      this.petWindow := petWindow;
      locked := false;
    }

    /** `toggle_lock`: flips this window's lock and the pet window's together. */
    method ToggleLock()
      modifies this, petWindow
      ensures locked == !old(locked)
      ensures petWindow.locked == !old(petWindow.locked)
      ensures old(locked) == old(petWindow.locked) ==> locked == petWindow.locked
      ensures petWindow.chatWindow == old(petWindow.chatWindow)
      ensures petWindow.animationThread == old(petWindow.animationThread)
    {
      locked := !locked;
      petWindow.ToggleLock();
    }
  }

  /** The start-up of deskpet.py: both windows unlocked and linked. */
  method Launch(listing: seq<string>) returns (pet: DeskPet, chat: ChatWindow)
    ensures fresh(pet) && fresh(chat)
    ensures pet.chatWindow == chat && chat.petWindow == pet
    ensures !pet.locked && !chat.locked
    ensures fresh(pet.animationThread)
    ensures pet.animationThread.Valid() && pet.animationThread.State() == Player(SortPaths(listing), 0, true)
  {
    pet := new DeskPet(listing);
    chat := new ChatWindow(pet);
    pet.SetChatWindow(chat);
  }
}
