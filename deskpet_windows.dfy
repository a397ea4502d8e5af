/**
 * The pet window `DeskPet` and the chat window `ChatWindow` of
 * python/deskpet.py, reduced to the state that decides what plays: the mood
 * band, the drag, play-mode and head-touch flags, and the lock flags.
 *
 * The animation folders are the eleven `*_animation` and `head_touch_*`
 * attributes; the model names them by `Animation` and keeps the part of each
 * path below the application's base directory. What `glob` finds in each
 * folder is the `disk` listing a window is created with. Window geometry,
 * button texts, timers and the chat display are left out.
 */
module DeskPetWindows {
  import opened Wrappers
  import opened PathSort
  import opened PetAI
  import opened Playback

  datatype Animation =
    | Default | Speaking | Startup | Raised
    | HeadTouchStart | HeadTouchLoop | HeadTouchEnd
    | Normal | Sad | SpeakingNormal | SpeakingSad

  /** The folder of each animation, relative to the base directory. */
  function Folder(a: Animation): string {
    match a
    case Default => "images/Default/Happy/1"
    case Speaking => "images/Say/Shining/B_2"
    case Startup => "images/StartUP/Nomal"
    case Raised => "images/Raise/Raised_Dynamic/Happy"
    case HeadTouchStart => "images/Touch_Head/A_Nomal"
    case HeadTouchLoop => "images/Touch_Head/B_Nomal"
    case HeadTouchEnd => "images/Touch_Head/C_Nomal"
    case Normal => "images/Default/Nomal/2"
    case Sad => "images/Default/PoorCondition/2"
    case SpeakingNormal => "images/Say/Serious/B"
    case SpeakingSad => "images/Say/Self/B_3"
  }

  /** The mood the pet window reads: the chat window's, or 80 with no chat window. */
  const MoodWithoutChat := 80

  /** The folder `set_animation_by_mood` picks (python/deskpet.py:128-143). */
  function SelectFolder(beingDragged: bool, speaking: bool, mood: int): (a: Animation)
    ensures beingDragged ==> a == Raised
    ensures !beingDragged && speaking ==> a == SpeakingAnimation(BandOf(mood))
    ensures !beingDragged && !speaking ==> a == IdleAnimation(BandOf(mood))
  {
    if beingDragged then Raised
    else if speaking then
      if mood > 80 then Speaking
      else if mood > 40 then SpeakingNormal
      else SpeakingSad
    else
      if mood > 80 then Default
      else if mood > 40 then Normal
      else Sad
  }

  /** The three mood bands: upbeat above 80, neutral above 40, downbeat below. */
  datatype Band = Upbeat | Neutral | Downbeat

  function BandOf(mood: int): (b: Band)
    ensures b == Upbeat <==> mood > 80
    ensures b == Neutral <==> 40 < mood <= 80
    ensures b == Downbeat <==> mood <= 40
  {
    if mood > 80 then Upbeat else if mood > 40 then Neutral else Downbeat
  }

  function IdleAnimation(b: Band): Animation {
    match b
    case Upbeat => Default
    case Neutral => Normal
    case Downbeat => Sad
  }

  function SpeakingAnimation(b: Band): Animation {
    match b
    case Upbeat => Speaking
    case Neutral => SpeakingNormal
    case Downbeat => SpeakingSad
  }

  /** Two moods pick the same folder exactly when they are in the same band. */
  lemma FolderDeterminesBand(speaking: bool, m1: int, m2: int)
    ensures SelectFolder(false, speaking, m1) == SelectFolder(false, speaking, m2) <==> BandOf(m1) == BandOf(m2)
  {
  }

  /** The boundaries: 80 is still neutral and 40 already downbeat. */
  lemma BandBoundaries()
    ensures BandOf(81) == Upbeat && BandOf(60) == Neutral && BandOf(10) == Downbeat
    ensures BandOf(80) == Neutral && BandOf(40) == Downbeat
    ensures SelectFolder(false, false, MoodWithoutChat) == Normal
    ensures SelectFolder(false, true, MoodWithoutChat) == SpeakingNormal
  {
  }

  class DeskPet {
    /** What the glob of each animation folder finds. */
    const disk: Animation -> seq<string>
    var beingDragged: bool
    var chatWindow: ChatWindow?
    var locked: bool
    var playMode: bool
    var headTouching: bool
    var animationThread: AnimationThread

    ghost predicate Valid()
      reads this, animationThread
    {
      animationThread.Valid()
    }

    /** `self.chat_window.ai.mood_score if self.chat_window else 80`. */
    function Mood(): (m: int)
      reads this, chatWindow
      reads if chatWindow != null then {chatWindow.ai} else {}
      ensures chatWindow == null ==> m == MoodWithoutChat
      ensures chatWindow != null && chatWindow.ai.Valid() ==> MinMood <= m <= MaxMood
    {
      if chatWindow != null then chatWindow.ai.moodScore else MoodWithoutChat
    }

    /** Is the thread a fresh player of `a` from its first frame? */
    ghost predicate Plays(a: Animation, loop: bool)
      reads this, animationThread
    {
      animationThread.imageFolder == Folder(a) &&
      animationThread.State() == Player(SortPaths(disk(a)), 0, true, loop)
    }

    /** The window starts unlocked, out of play mode, with the start-up animation once. */
    constructor (disk: Animation -> seq<string>)
      ensures Valid()
      ensures this.disk == disk && chatWindow == null
      ensures !beingDragged && !locked && !playMode && !headTouching
      ensures fresh(animationThread) && Plays(Startup, false)
    {
      this.disk := disk;
      beingDragged := false;
      chatWindow := null;
      locked := false;
      playMode := false;
      headTouching := false;
      animationThread := new AnimationThread(Folder(Startup), disk(Startup), false);
    }

    /**
     * `set_animation_by_mood`: stop the current player and start a looping
     * one on the folder chosen from the drag flag, `speaking` and the mood.
     */
    method SetAnimationByMood(speaking: bool)
      requires Valid()
      modifies this, animationThread
      ensures Valid()
      ensures !old(animationThread).running
      ensures fresh(animationThread)
      ensures Plays(SelectFolder(beingDragged, speaking, Mood()), true)
      ensures Mood() == old(Mood())
      ensures beingDragged == old(beingDragged) && chatWindow == old(chatWindow)
      ensures locked == old(locked) && playMode == old(playMode) && headTouching == old(headTouching)
    {
      animationThread.Stop();
      var mood := Mood();
      var folder := SelectFolder(beingDragged, speaking, mood);
      animationThread := new AnimationThread(Folder(folder), disk(folder), true);
    }

    /** `switch_to_default_animation`, run when the start-up animation finishes. */
    method SwitchToDefaultAnimation()
      requires Valid()
      modifies this, animationThread
      ensures Valid()
      ensures !old(animationThread).running
      ensures fresh(animationThread)
      ensures Plays(SelectFolder(beingDragged, false, Mood()), true)
      ensures beingDragged == old(beingDragged) && chatWindow == old(chatWindow)
      ensures locked == old(locked) && playMode == old(playMode) && headTouching == old(headTouching)
    {
      SetAnimationByMood(false);
    }

    method SetChatWindow(chatWindow: ChatWindow)
      modifies this
      ensures this.chatWindow == chatWindow
      ensures beingDragged == old(beingDragged) && locked == old(locked)
      ensures playMode == old(playMode) && headTouching == old(headTouching)
      ensures animationThread == old(animationThread)
    {
      this.chatWindow := chatWindow;
    }

    method ToggleLock()
      modifies this
      ensures locked == !old(locked)
      ensures beingDragged == old(beingDragged) && chatWindow == old(chatWindow)
      ensures playMode == old(playMode) && headTouching == old(headTouching)
      ensures animationThread == old(animationThread)
    {
      locked := !locked;
    }

    method TogglePlayMode()
      modifies this
      ensures playMode == !old(playMode)
      ensures beingDragged == old(beingDragged) && chatWindow == old(chatWindow)
      ensures locked == old(locked) && headTouching == old(headTouching)
      ensures animationThread == old(animationThread)
    {
      playMode := !playMode;
    }

    /**
     * `mousePressEvent`: outside play mode a left press starts a drag and
     * shows the raised animation; in play mode nothing happens.
     */
    method MousePressEvent(leftButton: bool)
      requires Valid()
      modifies this, animationThread
      ensures Valid()
      ensures old(playMode) || !leftButton ==>
        beingDragged == old(beingDragged) && animationThread == old(animationThread) &&
        unchanged(animationThread)
      ensures !old(playMode) && leftButton ==>
        beingDragged && fresh(animationThread) && !old(animationThread).running &&
        Plays(Raised, true)
      ensures chatWindow == old(chatWindow) && locked == old(locked)
      ensures playMode == old(playMode) && headTouching == old(headTouching)
    {
      if playMode {
        return;
      }
      if leftButton {
        beingDragged := true;
        SetAnimationByMood(false);
      }
    }

    /**
     * The play-mode half of `mouseMoveEvent`: a move over the top third of
     * the window starts a head touch, once. The drag half only moves windows.
     */
    method MouseMoveEvent(y: int, height: nat)
      requires Valid()
      modifies this, animationThread
      ensures Valid()
      ensures animationThread == old(animationThread)
      ensures var touch := old(playMode) && y < height / 3 && !old(headTouching);
        headTouching == (old(headTouching) || touch) &&
        (touch ==> animationThread.imageFolder == Folder(HeadTouchStart) &&
                   animationThread.State() == Player(SortPaths(disk(HeadTouchStart)), 0, old(animationThread.running), false)) &&
        (!touch ==> unchanged(animationThread))
      ensures beingDragged == old(beingDragged) && chatWindow == old(chatWindow)
      ensures locked == old(locked) && playMode == old(playMode)
    {
      if playMode {
        if y < height / 3 && !headTouching {
          headTouching := true;
          animationThread.SetImageFolder(Folder(HeadTouchStart), disk(HeadTouchStart), false);
        }
        return;
      }
    }

    /** `start_head_touch_loop`: the middle of a head touch, looping. */
    method StartHeadTouchLoop()
      requires Valid()
      modifies animationThread
      ensures Valid()
      ensures animationThread.imageFolder == Folder(HeadTouchLoop)
      ensures animationThread.State() == Player(SortPaths(disk(HeadTouchLoop)), 0, old(animationThread.running), true)
    {
      animationThread.SetImageFolder(Folder(HeadTouchLoop), disk(HeadTouchLoop), true);
    }

    /**
     * `mouseReleaseEvent`: in play mode during a head touch, end the touch
     * with its closing animation once; otherwise end any drag and pick the
     * idle animation by mood.
     */
    method MouseReleaseEvent()
      requires Valid()
      modifies this, animationThread
      ensures Valid()
      ensures old(playMode) && old(headTouching) ==>
        !headTouching && beingDragged == old(beingDragged) &&
        animationThread == old(animationThread) &&
        animationThread.imageFolder == Folder(HeadTouchEnd) &&
        animationThread.State() == Player(SortPaths(disk(HeadTouchEnd)), 0, old(animationThread.running), false)
      ensures !(old(playMode) && old(headTouching)) ==>
        !beingDragged && headTouching == old(headTouching) &&
        fresh(animationThread) && !old(animationThread).running &&
        Plays(SelectFolder(false, false, Mood()), true)
      ensures chatWindow == old(chatWindow) && locked == old(locked) && playMode == old(playMode)
    {
      if playMode && headTouching {
        headTouching := false;
        animationThread.SetImageFolder(Folder(HeadTouchEnd), disk(HeadTouchEnd), false);
        return;
      }
      beingDragged := false;
      SetAnimationByMood(false);
    }
  }

  class ChatWindow {
    const petWindow: DeskPet
    const ai: DeskPetAI
    var locked: bool

    constructor (petWindow: DeskPet)
      ensures this.petWindow == petWindow && !locked
      ensures fresh(ai) && ai.Valid() && ai.moodScore == InitialMood && !ai.petMode
    {
      this.petWindow := petWindow;
      ai := new DeskPetAI();
      locked := false;
    }

    /** `toggle_lock`: flips this window's lock and the pet window's together. */
    method ToggleLock()
      modifies this, petWindow
      ensures locked == !old(locked)
      ensures petWindow.locked == !old(petWindow.locked)
      ensures old(locked) == old(petWindow.locked) ==> locked == petWindow.locked
      ensures petWindow.beingDragged == old(petWindow.beingDragged)
      ensures petWindow.playMode == old(petWindow.playMode)
      ensures petWindow.headTouching == old(petWindow.headTouching)
      ensures petWindow.chatWindow == old(petWindow.chatWindow)
      ensures petWindow.animationThread == old(petWindow.animationThread)
    {
      locked := !locked;
      petWindow.ToggleLock();
    }

    /** `toggle_pet_mode`: the chat display message is left out. */
    method TogglePetMode()
      modifies ai
      ensures ai.petMode == !old(ai.petMode) && ai.moodScore == old(ai.moodScore)
    {
      ai.TogglePetMode();
    }
  }

  /**
   * The start-up of python/deskpet.py: a pet window, a chat window on it,
   * linked. Both start unlocked and the pet reads the fresh mood of 81.
   */
  method Launch(disk: Animation -> seq<string>) returns (pet: DeskPet, chat: ChatWindow)
    ensures fresh(pet) && fresh(chat) && pet.Valid()
    ensures pet.chatWindow == chat && chat.petWindow == pet
    ensures !pet.locked && !chat.locked
    ensures pet.Mood() == 81 && SelectFolder(false, false, pet.Mood()) == Default
    ensures fresh(pet.animationThread) && fresh(chat.ai) && chat.ai.Valid()
    ensures pet.disk == disk && !pet.beingDragged && !pet.playMode && !pet.headTouching
    ensures pet.Plays(Startup, false) && !chat.ai.petMode
  {
    pet := new DeskPet(disk);
    chat := new ChatWindow(pet);
    pet.SetChatWindow(chat);
  }
}
