# AI desktop pet: mood engine, frame players and interaction state

This project models in Dafny the logic of a desktop pet made of an animated
sprite window and a chat window, and proves properties of that model.

- **Mood engine** (`PetAI`, python/pet_ai.py). `DeskPetAI` keeps a mood score,
  81 at start, and a pet-mode flag. `adjust_mood` finds the first tag of the
  form `(`, sign, digits, `)` in a model answer. It adds the tag's value to the
  score and clamps the result to 0..100. `chat_with_ai` applies the whole answer
  to the mood and returns the text before its first `(`. The model's answer is
  an input string.
- **Frame player** (`Playback`, python/deskpet.py). `AnimationThread` holds the
  sorted frame paths of a folder, a cursor, a `running` flag and a `loop` flag.
  Each pass of its loop emits the frame at the cursor and moves on. At the end
  it wraps (loop mode) or clears `running` (one-shot). An empty folder plays
  nothing. `set_image_folder` retargets the player and `stop` ends it. A pass is
  one call of `Tick`; `Run(budget)` is the loop cut off after `budget` passes.
- **Windows** (`DeskPetWindows`, python/deskpet.py). The pet window picks an
  animation folder from the drag flag, speaking or idle, and the mood band:
  above 80, above 40, or the rest. With no chat window the mood is 80. The
  play-mode, drag and head-touch flags change on mouse events. The chat window
  flips its lock flag and the pet's together.
- **Earlier version** (`LegacyDeskPet`, deskpet.py). Its player always loops,
  stepping the cursor modulo the number of frames. It has no guard for an
  empty folder, so its first pass raises `IndexError`. Its two windows share a
  lock flag in the same way.
- **Electron frame list** (`Animations`, electron/src/animations.ts).
  `getFrames` keeps the `.png` names of a directory listing, in listing order,
  each as `../images/<folder>/<file>`. A failed read gives the empty list.
- Shared helpers: `PathSort` is Python's `sorted()` on path strings (code-point
  order); `CursorArith` holds the modular arithmetic of the cursor; `Wrappers`
  holds `Option`.

## Model

| member | source | states |
|---|---|---|
| `PetAI.TagAt` | python/pet_ai.py:32-34 | a tag reported at `i` starts with `(`, a sign and a digit; `PetAI.TagAtMatchesRegex` proves it reports exactly the pattern's matches, with `int()`'s value |
| `PetAI.DigitRunEnd` | python/pet_ai.py:32 | the greedy `\d+` of the tag pattern takes every digit from its start and stops at the first non-digit or the end |
| `PetAI.TagAtMatchesRegex` | python/pet_ai.py:32-34 | a tag begins at `i` exactly when some substring from `i` is `(`, sign, one or more digits, `)`; the value found is `int()` of the sign and digits |
| `PetAI.FirstTagFrom` | python/pet_ai.py:32 | the index found is where a tag begins and no tag begins before it (leftmost match, as `re.search`); no index means no tag anywhere |
| `PetAI.MoodChange` | python/pet_ai.py:32-34 | there is no change exactly when no tag begins anywhere in the answer; otherwise the change is the value of a tag before which no tag begins (the leftmost match of `re.search`) |
| `PetAI.Clamp` | python/pet_ai.py:35 | the result is in 0..100; it is the input when the input is in range, else 0 below and 100 above |
| `PetAI.AdjustedMood` | python/pet_ai.py:31-38 | with no tag the mood is unchanged; with a tag the new mood is in 0..100 whatever the delta (numerals of any length, see "## Left out") |
| `PetAI.TextBeforeParen` | python/pet_ai.py:29 | the reply is a prefix of the answer with no `(`; it is the whole answer when the answer has no `(`, otherwise it stops right at the first `(` |
| `PetAI.NoTagKeepsMood` | python/pet_ai.py:31-38 | a text with no tag anywhere leaves any mood unchanged |
| `PetAI.FirstTagWins` | python/pet_ai.py:32-35 | the leftmost tag alone decides the new mood: old mood plus its value, clamped |
| `PetAI.AppendingKeepsMoodChange` | python/pet_ai.py:32-34 | text appended after a tagged answer never changes the change it carries (later tags are ignored) |
| `PetAI.TaggedAnswer` | python/pet_ai.py:24-29 | an answer in the prompted format, text without `(` then `(±digits)`, changes the mood by that signed value and replies with the text |
| `PetAI.SignIsRequired` | python/pet_ai.py:32-35 | `(7)` and `( +7)` leave 81 unchanged while `(+7)` takes it to 88 |
| `PetAI.RiseSaturates` | python/pet_ai.py:35 | `(+15)` takes 81 to 96 and 90 to 100 |
| `PetAI.FallSaturates` | python/pet_ai.py:35 | `(-200)` takes any mood in 0..100 to 0 |
| `PetAI.DeskPetAI.constructor` | python/pet_ai.py:13-15 | a new engine has mood 81 and pet mode off |
| `PetAI.DeskPetAI.TogglePetMode` | python/pet_ai.py:17-18 | pet mode flips and the mood stays |
| `PetAI.DeskPetAI.AdjustMood` | python/pet_ai.py:31-38 | the new mood is `AdjustedMood` of the old one and the answer; the mood stays in 0..100 |
| `PetAI.DeskPetAI.ChatWithAI` | python/pet_ai.py:20-29 | the mood follows the whole answer exactly as `adjust_mood` would; the reply is the text before the first `(` |
| `PetAI.FreshPetFirstChat` | python/pet_ai.py:13-35 | a fresh engine answered with `Nice (+7)` is at 88 and replies `Nice ` |
| `PetAI.TogglePetModeTwice` | python/pet_ai.py:17-18 | toggling pet mode twice restores it |
| `PathSort.SortPaths` | python/deskpet.py:33 | the frame paths come out in ascending string order and are a permutation of the glob result |
| `PathSort.SortedPermutationUnique` | python/deskpet.py:33 | two sorted permutations of the same paths are equal, so the sorted order is the only one `sorted()` can produce |
| `PathSort.SortPathsOfSorted` | deskpet.py:30 | sorting an already sorted listing returns it unchanged |
| `Playback.Step` | python/deskpet.py:46-55 | one pass keeps the paths and the mode; it is idle exactly when `running` is false and raises `IndexError` exactly when running with the cursor past the list; an emitted frame is the one at the cursor; the invariant `Consistent` (cursor within the list, and on a frame while running with frames) is kept |
| `Playback.Play` | python/deskpet.py:46-55 | `k` passes emit at most `k` frames, and fewer only when `running` was cleared or a pass raised |
| `Playback.LoopPlay` | python/deskpet.py:46-55 | in loop mode `k` passes from cursor `c` emit `paths[(c+j) mod n]` for `j < k` and leave the cursor at `(c+k) mod n`, still running |
| `Playback.OneShotPlay` | python/deskpet.py:45-55 | in one-shot mode passes emit the frames from the cursor on in index order, each at most once; after the last one `running` is false and the cursor is at the end |
| `Playback.OneShotEmitsSortedListing` | python/deskpet.py:33-55 | a fresh one-shot player of a non-empty folder emits exactly its `n` frames once each in sorted order and then stops |
| `Playback.AnimationThread.constructor` | python/deskpet.py:30-36 | the paths are the sorted glob result, cursor 0, running, with the given mode |
| `Playback.AnimationThread.Tick` | python/deskpet.py:46-56 | one pass emits the frame at the cursor and advances, wrapping or stopping at the end; a cursor past the list raises instead |
| `Playback.AnimationThread.Run` | python/deskpet.py:38-56 | an empty folder emits nothing and changes nothing; otherwise the frames and the final state are those of `budget` passes |
| `Playback.AnimationThread.Stop` | python/deskpet.py:58-61 | only `running` changes, to false |
| `Playback.AnimationThread.SetImageFolder` | python/deskpet.py:63-67 | new sorted paths, cursor 0 and new mode; `running` is left as it was |
| `Playback.StopThenRun` | python/deskpet.py:46-59 | after `stop` the loop emits no further frames |
| `DeskPetWindows.BandOf` | python/deskpet.py:131-143 | above 80 is upbeat, 41..80 neutral, 40 and below downbeat (strict `> 80` and `> 40`) |
| `DeskPetWindows.SelectFolder` | python/deskpet.py:128-143 | being dragged gives the raised animation over everything; otherwise the mood band's speaking or idle folder |
| `DeskPetWindows.FolderDeterminesBand` | python/deskpet.py:130-143 | for speaking and for idle, two moods give the same folder exactly when they are in the same band |
| `DeskPetWindows.BandBoundaries` | python/deskpet.py:126-143 | 81 upbeat, 60 neutral, 10 downbeat, 80 neutral, 40 downbeat; the no-chat mood 80 picks the neutral folders |
| `DeskPetWindows.DeskPet.Mood` | python/deskpet.py:126 | 80 with no chat window; with one, its engine's score, which lies in 0..100 |
| `DeskPetWindows.DeskPet.constructor` | python/deskpet.py:95-105 | all flags start false, no chat window, and the start-up animation plays once |
| `DeskPetWindows.DeskPet.SetAnimationByMood` | python/deskpet.py:124-147 | the old player is stopped and a fresh looping player of the chosen folder starts at frame 0; no flag changes |
| `DeskPetWindows.DeskPet.SwitchToDefaultAnimation` | python/deskpet.py:120-121 | the idle folder of the current mood band (or raised) starts looping |
| `DeskPetWindows.DeskPet.SetChatWindow` | python/deskpet.py:149-150 | links the chat window and changes nothing else |
| `DeskPetWindows.DeskPet.ToggleLock` | python/deskpet.py:152-153 | flips the lock flag only |
| `DeskPetWindows.DeskPet.TogglePlayMode` | python/deskpet.py:155-157 | flips the play-mode flag only |
| `DeskPetWindows.DeskPet.MousePressEvent` | python/deskpet.py:163-169 | in play mode or for another button nothing changes; otherwise the drag starts and the raised animation loops |
| `DeskPetWindows.DeskPet.MouseMoveEvent` | python/deskpet.py:171-177 | head touching becomes true only in play mode, above a third of the height, when it was false; then the touch-start folder is retargeted once |
| `DeskPetWindows.DeskPet.StartHeadTouchLoop` | python/deskpet.py:185-186 | retargets the player to the looping touch folder |
| `DeskPetWindows.DeskPet.MouseReleaseEvent` | python/deskpet.py:188-196 | a play-mode release during a touch clears it and plays the touch end once; any other release ends the drag and loops the idle mood folder |
| `DeskPetWindows.ChatWindow.constructor` | python/deskpet.py:203-211 | unlocked, with a fresh mood engine at 81 |
| `DeskPetWindows.ChatWindow.ToggleLock` | python/deskpet.py:251-254 | both windows' lock flags flip, so equal flags stay equal; nothing else of the pet changes |
| `DeskPetWindows.ChatWindow.TogglePetMode` | python/deskpet.py:256-260 | pet mode flips, the mood stays |
| `DeskPetWindows.Launch` | python/deskpet.py:314-319 | both windows start unlocked and linked; the pet is not dragged, not in play mode and not touched, plays the start-up folder once from frame 0 and reads mood 81, whose idle folder is the upbeat one; the engine starts out of pet mode |
| `LegacyDeskPet.Step` | deskpet.py:36-40 | one pass keeps the paths; it is idle exactly when `running` is false and raises `IndexError` exactly when running with the cursor past the list (always so for no frames); an emitted frame is the one at the cursor |
| `LegacyDeskPet.Play` | deskpet.py:34-40 | `k` passes emit at most `k` frames, and fewer only when `running` was cleared or a pass raised |
| `LegacyDeskPet.PlayCycles` | deskpet.py:36-40 | with frames, `k` passes from cursor `c` emit `paths[(c+j) mod n]` and leave the cursor at `(c+k) mod n`, always in range |
| `LegacyDeskPet.FreshPlayerCycles` | deskpet.py:28-40 | from a fresh player, after `k` passes the cursor is `k mod n` and pass `j` showed sorted frame `j mod n` |
| `LegacyDeskPet.EmptyFolderFaults` | deskpet.py:30-37 | with no frames the first pass raises `IndexError` and nothing is emitted |
| `LegacyDeskPet.AnimationThread.constructor` | deskpet.py:28-32 | sorted glob result, cursor 0, running |
| `LegacyDeskPet.AnimationThread.Tick` | deskpet.py:36-40 | one pass emits the frame at the cursor and moves it to `(cursor+1) mod n`; an empty list raises |
| `LegacyDeskPet.AnimationThread.Run` | deskpet.py:34-40 | the frames, the final state and the fault are those of `budget` passes |
| `LegacyDeskPet.AnimationThread.Stop` | deskpet.py:42-46 | only `running` changes, to false |
| `LegacyDeskPet.DeskPet.constructor` | deskpet.py:66-75 | the lock flag starts false, no chat window, the folder loops from frame 0 |
| `LegacyDeskPet.DeskPet.SetChatWindow` | deskpet.py:87-89 | links the chat window only |
| `LegacyDeskPet.DeskPet.ToggleLock` | deskpet.py:91-93 | flips the lock flag only |
| `LegacyDeskPet.ChatWindow.constructor` | deskpet.py:124-131 | the lock flag starts false |
| `LegacyDeskPet.ChatWindow.ToggleLock` | deskpet.py:153-157 | both lock flags flip, so equal flags stay equal |
| `LegacyDeskPet.Launch` | deskpet.py:202-207 | both windows start unlocked and linked, and the pet's player loops the sorted frames from frame 0 |
| `Animations.IsPng` | electron/src/animations.ts:12 | a name passes the filter exactly when it is some stem followed by `.png` |
| `Animations.FramePath` | electron/src/animations.ts:13 | the path is `../images/`, the folder, `/` and the file name: it ends in `/` and the file name, with the lengths adding up |
| `Animations.PngFrames` | electron/src/animations.ts:11-13 | the filter and map never give more frames than names (its contents are stated by `Animations.PngFramesSelect`) |
| `Animations.GetFrames` | electron/src/animations.ts:8-17 | a failed directory read gives the empty list |
| `Animations.PngIndicesArePngs` | electron/src/animations.ts:12 | every position the filter keeps holds a name ending in `.png` |
| `Animations.PngIndicesAscending` | electron/src/animations.ts:12 | the kept positions are strictly ascending, so listing order is kept and no name is taken twice |
| `Animations.PngIndicesComplete` | electron/src/animations.ts:12 | every name ending in `.png` is kept; none is dropped |
| `Animations.PngFramesSelect` | electron/src/animations.ts:11-13 | there are as many frames as `.png` names and frame `k` is `../images/<folder>/<file>` of the `k`-th one, in listing order |
| `Animations.PngFramesAppend` | electron/src/animations.ts:11-13 | the frames of two listings in a row are their frames in a row: listing order is kept, nothing is sorted |
| `Animations.PngFramesMembers` | electron/src/animations.ts:11-13 | a path is a frame exactly when it is built from some `.png` name of the listing |
| `Animations.PngFramesCount` | electron/src/animations.ts:11-12 | there are at most as many frames as names, and as many exactly when every name ends in `.png` |
| `Animations.StrayFileDropped` | electron/src/animations.ts:11-13 | a non-`.png` file between two frames is dropped and the frames keep their order |

## Left out

- Window plumbing: window flags, geometry, translucency, `showEvent`, `ensure_top`, minimize and restore following in `changeEvent`, pixmap scaling in `update_frame`, button texts and the chat display.
- Drag-to-move: `old_pos` and the window moves in the `mouseMoveEvent` handlers (of both windows in deskpet.py, of the pet window in python/deskpet.py). Only the flags are modelled; mouse events are reduced to the button, `y` and the window height.
- Threads and timing: `QThread.start`, `quit`, `wait`, `msleep(100)`, the signal hand-off of frames and the `finished` signal. Callers invoke the slots (`SwitchToDefaultAnimation`) and `Tick` directly. The race between `set_image_folder` and a running loop is modelled only as calls taken one after another.
- Playback.AnimationThread.Run: stops after `budget` passes. The loop-mode `run()` never ends by itself; `budget` stands for the point where another thread stops it. `Run` is one whole `run()` from its start, so its empty-folder guard is checked once per call; a loop that goes on after `set_image_folder` is modelled by further `Tick` calls, which raise `IndexError` on an empty folder as the source does.
- LegacyDeskPet.AnimationThread.Run: same bound; an `IndexError` ends the model's run with `faulted` set, as the exception ends `run()`. What the uncaught exception does beyond `run()` is not modelled: with PyQt5's default exception hook it aborts the whole application.
- `QTimer.singleShot` delays in the head-touch handlers, and the typewriter reveal `show_response_step_by_step` and `add_next_character`. `start_head_touch_loop` is modelled as a method a caller invokes.
- `send_message` of both chat windows. In python/deskpet.py it also switches the pet to its speaking animation before asking for an answer, changes the mood only in pet mode (outside pet mode the plain model call leaves `mood_score` as it was), and its typewriter reveal ends by choosing the idle animation again. The model has the pieces (`DeskPetWindows.DeskPet.SetAnimationByMood` with either flag, `PetAI.DeskPetAI.ChatWithAI`) but not this sequence, the input-box check or the display.
- `update_mood_bar`: it only sets the mood progress bar to `mood_score`, a display concern.
- `simple_chat` and the module-level `chat_with_ai` functions: they send text to the remote model and return its answer.
- The remote model: the Gemini calls and the prompt text. The answer is a parameter.
- The filesystem: `glob` and `readdirSync` are replaced by their results. The `BASE_DIR` joins, the root version's hard-coded folder path and the `animations` constant of electron/src/animations.ts are not modelled.
- Diagnostics: `print` and `console.error` output.
- PetAI.AdjustedMood: `int()` of a numeral longer than the interpreter's digit limit (4300 digits by default in CPython 3.11 and later, and in the 3.10.7 and 3.9.14 security releases) raises `ValueError`, so `adjust_mood` and `chat_with_ai` raise and the mood stays. The model reads numerals of any length; `PetAI.MoodChange` and `PetAI.DeskPetAI.ChatWithAI` share this.
- PetAI: `\d` is narrowed to the ASCII digits 0-9. Python's `\d` also matches other Unicode decimal digits, which `int()` accepts.
- The unused `frames_played` counter in python/deskpet.py.
