/** src/App.tsx: the playback controller behind the category, play/stop and volume
    buttons, driving an embedded video widget. */
module App {
  import opened Wrappers
  import Videos

  /** `YouTube.PlayerState.PLAYING` */
  const PlayingState := 1
  const InitialVolume := 50
  const VolumeStep := 10
  const MaxVolume := 100

  /** A call made on the widget. */
  datatype Command = PlayVideo | StopVideo | SetVolume(level: int)

  /** `Math.max(0, volume - 10)`: one step down, stopping at 0. */
  function VolumeDown(v: int): (r: int)
    ensures r >= 0 && (v >= 0 ==> r <= v)
    ensures r == 0 <==> v <= VolumeStep
    ensures r != 0 ==> r == v - VolumeStep
  {
    if v - VolumeStep > 0 then v - VolumeStep else 0
  }

  /** `Math.min(100, volume + 10)`: one step up, stopping at 100. */
  function VolumeUp(v: int): (r: int)
    ensures r <= MaxVolume && (v <= MaxVolume ==> r >= v)
    ensures r == MaxVolume <==> v >= MaxVolume - VolumeStep
    ensures r != MaxVolume ==> r == v + VolumeStep
  {
    if v + VolumeStep < MaxVolume then v + VolumeStep else MaxVolume
  }

  /** The two volume buttons. */
  datatype Press = Down | Up

  function Pressed(v: int, p: Press): int
  {
    match p
    case Down => VolumeDown(v)
    case Up => VolumeUp(v)
  }

  /** The volume after a sequence of presses, in order. */
  function AfterPresses(v: int, presses: seq<Press>): int
    decreases |presses|
  {
    if presses == [] then v else AfterPresses(Pressed(v, presses[0]), presses[1..])
  }

  /** The levels the volume can take: 0, 10, ..., 100. */
  predicate Level(v: int)
  {
    0 <= v <= MaxVolume && v % VolumeStep == 0
  }

  /** Starting from any level, in particular from 50, every sequence of presses leaves
      the volume on a level, so within [0, 100]. */
  lemma {:induction false} PressesKeepLevel(v: int, presses: seq<Press>)
    requires Level(v)
    ensures Level(AfterPresses(v, presses))
    decreases |presses|
  {
    if presses != [] {
      PressesKeepLevel(Pressed(v, presses[0]), presses[1..]);
    }
  }

  /** `n` presses of the same button. */
  function Repeat(p: Press, n: nat): (r: seq<Press>)
    ensures |r| == n && forall k :: 0 <= k < n ==> r[k] == p
  {
    if n == 0 then [] else [p] + Repeat(p, n - 1)
  }

  lemma {:induction false} RepeatUp(v: int, n: nat)
    requires v + n * VolumeStep <= MaxVolume
    ensures AfterPresses(v, Repeat(Up, n)) == v + n * VolumeStep
    decreases n
  {
    if n > 0 {
      assert Repeat(Up, n)[1..] == Repeat(Up, n - 1);
      RepeatUp(v + VolumeStep, n - 1);
    }
  }

  lemma {:induction false} RepeatDown(v: int, n: nat)
    requires v - n * VolumeStep >= 0
    ensures AfterPresses(v, Repeat(Down, n)) == v - n * VolumeStep
    decreases n
  {
    if n > 0 {
      assert Repeat(Down, n)[1..] == Repeat(Down, n - 1);
      RepeatDown(VolumeDown(v), n - 1);
    }
  }

  /** Conversely, every level is reached from the initial 50 by some presses. */
  lemma EveryLevelReachable(v: int)
    requires Level(v)
    ensures exists presses :: AfterPresses(InitialVolume, presses) == v
  {
    if v >= InitialVolume {
      RepeatUp(InitialVolume, (v - InitialVolume) / VolumeStep);
      assert AfterPresses(InitialVolume, Repeat(Up, (v - InitialVolume) / VolumeStep)) == v;
    } else {
      RepeatDown(InitialVolume, (InitialVolume - v) / VolumeStep);
      assert AfterPresses(InitialVolume, Repeat(Down, (InitialVolume - v) / VolumeStep)) == v;
    }
  }

  /** The widget calls a handler makes for command `c`: the command is forwarded only
      when a player handle is attached. */
  function Forwarded(attached: bool, c: Command): (r: seq<Command>)
    ensures attached ==> r == [c]
    ensures !attached ==> r == []
  {
    if attached then [c] else []
  }

  /** The component's state. The widget is reduced to whether its handle has been
      recorded (`playerInstanceRef.current` is set) and the log of calls made on it. */
  class Player {
    var selectedCategory: Option<Videos.Category>
    var currentVideoId: Option<string>
    var isPlaying: bool
    var volume: int
    var attached: bool
    var commands: seq<Command>

    /** The volume is on a level; a video id is chosen exactly when a category is, and
        from that category's table; the widget, and so its handle, exists only once a
        video id is chosen; no call reaches the widget before it is attached, and every
        volume sent to it is within [0, 100]. */
    ghost predicate Valid()
      reads this
    {
      && Level(volume)
      && (currentVideoId.Some? <==> selectedCategory.Some?)
      && (selectedCategory.Some? ==> currentVideoId.value in Videos.VideoIds(selectedCategory.value))
      && (attached ==> currentVideoId.Some?)
      && (!attached ==> commands == [])
      && forall k :: 0 <= k < |commands| && commands[k].SetVolume? ==> 0 <= commands[k].level <= MaxVolume
    }

    /** The initial state: nothing selected, not playing, volume 50, no widget. */
    constructor ()
      ensures Valid()
      ensures selectedCategory == None && currentVideoId == None && !isPlaying
      ensures volume == InitialVolume && !attached && commands == []
    {
      selectedCategory := None;
      currentVideoId := None;
      isPlaying := false;
      volume := InitialVolume;
      attached := false;
      commands := [];
    }

    /** `onReady`: records the handle and pushes the stored volume to it. The widget is
        rendered only while a video id is set, so it can only fire then. */
    method OnReady()
      requires Valid() && currentVideoId.Some?
      modifies this`attached, this`commands
      ensures Valid()
      ensures attached && commands == old(commands) + [SetVolume(volume)]
      ensures volume == old(volume) && isPlaying == old(isPlaying)
      ensures selectedCategory == old(selectedCategory) && currentVideoId == old(currentVideoId)
    {
      attached := true;
      commands := commands + [SetVolume(volume)];
    }

    /** `onStateChange`: only the PLAYING state counts as playing. */
    method OnStateChange(state: int)
      requires Valid()
      modifies this`isPlaying
      ensures Valid()
      ensures isPlaying <==> state == PlayingState
    {
      if state == PlayingState {
        isPlaying := true;
      } else {
        isPlaying := false;
      }
    }

    /** `play`: `playVideo()` on the widget, when there is one. */
    method Play()
      requires Valid()
      modifies this`commands
      ensures Valid()
      ensures commands == old(commands) + Forwarded(attached, PlayVideo)
    {
      if attached {
        commands := commands + [PlayVideo];
      }
    }

    /** `stop`: `stopVideo()` on the widget, when there is one. */
    method Stop()
      requires Valid()
      modifies this`commands
      ensures Valid()
      ensures commands == old(commands) + Forwarded(attached, StopVideo)
    {
      if attached {
        commands := commands + [StopVideo];
      }
    }

    /** `handlePlayStop`, behind a button that is disabled while no category is
        selected: stop when playing, play otherwise. Whether the player is playing is
        changed only by the widget's own state callback. */
    method HandlePlayStop()
      requires Valid()
      modifies this`commands
      ensures Valid()
      ensures selectedCategory.None? ==> commands == old(commands)
      ensures selectedCategory.Some? && isPlaying ==> commands == old(commands) + Forwarded(attached, StopVideo)
      ensures selectedCategory.Some? && !isPlaying ==> commands == old(commands) + Forwarded(attached, PlayVideo)
    {
      if selectedCategory.None? {
        return;
      }
      if isPlaying {
        Stop();
      } else {
        Play();
      }
    }

    /** `handleVolumeMin`: one step down; the new volume is always stored, and sent to
        the widget only when there is one. */
    method HandleVolumeMin()
      requires Valid()
      modifies this`volume, this`commands
      ensures Valid()
      ensures volume == VolumeDown(old(volume))
      ensures commands == old(commands) + Forwarded(attached, SetVolume(volume))
    {
      var newVolume := VolumeDown(volume);
      PressesKeepLevel(volume, [Down]);
      volume := newVolume;
      if attached {
        commands := commands + [SetVolume(newVolume)];
      }
    }

    /** `handleVolumeMax`: one step up, stored always, forwarded only to an attached widget. */
    method HandleVolumeMax()
      requires Valid()
      modifies this`volume, this`commands
      ensures Valid()
      ensures volume == VolumeUp(old(volume))
      ensures commands == old(commands) + Forwarded(attached, SetVolume(volume))
    {
      var newVolume := VolumeUp(volume);
      PressesKeepLevel(volume, [Up]);
      volume := newVolume;
      if attached {
        commands := commands + [SetVolume(newVolume)];
      }
    }

    /** `selectCategory(key)`: not playing, the category selected, and a video id drawn
        from its table; the volume, the widget handle and the calls are untouched. */
    method SelectCategory(key: Videos.Category)
      requires Valid()
      modifies this`isPlaying, this`selectedCategory, this`currentVideoId
      ensures Valid()
      ensures !isPlaying && selectedCategory == Some(key)
      ensures currentVideoId.Some? && currentVideoId.value in Videos.VideoIds(key)
    {
      var randomVideoId := Videos.RandomVideoId(key);
      isPlaying := false;
      selectedCategory := Some(key);
      currentVideoId := Some(randomVideoId);
    }
  }

  /** A session: a category is picked, its widget becomes ready, and the volume buttons
      are pressed. Whatever the presses, the stored volume and every volume sent to the
      widget stay within [0, 100], and the last volume sent is the stored one. */
  method VolumeSession(category: Videos.Category, presses: seq<Press>) returns (p: Player)
    ensures p.Valid() && p.attached && p.selectedCategory == Some(category)
    ensures p.volume == AfterPresses(InitialVolume, presses)
    ensures 0 <= p.volume <= MaxVolume
    ensures p.commands != [] && p.commands[|p.commands| - 1] == SetVolume(p.volume)
  {
    p := new Player();
    p.SelectCategory(category);
    p.OnReady();
    var i := 0;
    while i < |presses|
      invariant 0 <= i <= |presses|
      invariant p.Valid() && p.volume == AfterPresses(InitialVolume, presses[..i])
      invariant p.attached && p.selectedCategory == Some(category)
      invariant p.commands != [] && p.commands[|p.commands| - 1] == SetVolume(p.volume)
      invariant fresh(p)
    {
      AfterPressesSnoc(InitialVolume, presses[..i], presses[i]);
      assert presses[..i + 1] == presses[..i] + [presses[i]];
      if presses[i] == Down {
        p.HandleVolumeMin();
      } else {
        p.HandleVolumeMax();
      }
      i := i + 1;
    }
    assert presses[..i] == presses;
  }

  lemma {:induction false} AfterPressesSnoc(v: int, presses: seq<Press>, last: Press)
    ensures AfterPresses(v, presses + [last]) == Pressed(AfterPresses(v, presses), last)
    decreases |presses|
  {
    if presses != [] {
      assert (presses + [last])[1..] == presses[1..] + [last];
      AfterPressesSnoc(Pressed(v, presses[0]), presses[1..], last);
    }
  }
}
