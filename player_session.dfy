/**
 * `PlayerViewModel`: the session holder with the optimistic current song, the
 * progress tick and the sleep timer. It keeps the last queue and a map from
 * media id to song, and drives an optional controller.
 */
module PlayerSession {
  import opened Wrappers
  import opened Numbers
  import opened Media
  import opened Playback

  const FadeSteps: nat := 100
  const StepDelayMs: nat := 3000
  const FadeWindowSeconds: int := 300
  const FullVolume: int := 100

  /** Delays a sleep-timer job waits through when nothing cancels it: the lead-in and one per step. */
  const JobDelays: nat := FadeSteps + 2

  /** A launched sleep-timer job and whether it has been cancelled. */
  datatype SleepJob = SleepJob(minutes: int, cancelled: bool)

  // ---------------------------------------------------------------------
  // The queue and the sleep-timer schedule

  /** The start index `playSong` passes: the song's first position, or 0 when it is not listed. */
  function StartIndex(song: Song, allSongs: seq<Song>): (r: int)
    ensures 0 <= r && (allSongs != [] ==> r < |allSongs|)
    ensures (exists i :: 0 <= i < |allSongs| && allSongs[i].id == song.id) ==>
              allSongs[r].id == song.id && forall j :: 0 <= j < r ==> allSongs[j].id != song.id
    ensures (forall i :: 0 <= i < |allSongs| ==> allSongs[i].id != song.id) ==> r == 0
  {
    var startIndex := IndexOfFirst(allSongs, song.id);
    if startIndex != -1 then startIndex else 0
  }

  /** What `playSong` tells a connected controller. */
  function QueueCommands(song: Song, allSongs: seq<Song>): (cs: seq<Command>)
    ensures |cs| == 3 && cs[1] == Prepare && cs[2] == Play
    ensures cs[0].SetMediaItems? && cs[0].items == MediaItemsOf(allSongs) && cs[0].startPositionMs == 0
    ensures 0 <= cs[0].startIndex && (allSongs != [] ==> cs[0].startIndex < |allSongs|)
    ensures (exists i :: 0 <= i < |allSongs| && allSongs[i].id == song.id) ==>
              allSongs[cs[0].startIndex].id == song.id &&
              forall j :: 0 <= j < cs[0].startIndex ==> allSongs[j].id != song.id
    ensures (forall i :: 0 <= i < |allSongs| ==> allSongs[i].id != song.id) ==> cs[0].startIndex == 0
  {
    [SetMediaItems(MediaItemsOf(allSongs), StartIndex(song, allSongs), 0), Prepare, Play]
  }

  /**
   * The song shown after a transition to `mediaId`: the mapped song when the id
   * is a key, and the song shown before otherwise (null item or unknown id).
   */
  function SongAfterTransition(songMap: map<string, Song>, mediaId: Option<string>, current: Option<Song>): (r: Option<Song>)
    ensures r.Some? ==> r == current || r.value in songMap.Values
    ensures mediaId.None? || mediaId.value !in songMap ==> r == current
    ensures mediaId.Some? && mediaId.value in songMap ==> r == Some(songMap[mediaId.value])
  {
    if mediaId.Some? && mediaId.value in songMap then Some(songMap[mediaId.value]) else current
  }

  /**
   * `(minutes * 60 - 300).coerceAtLeast(0)` in 32-bit `Int` arithmetic: the
   * seconds before the fade begins.
   */
  function FadeStartSeconds(minutes: int): (s: int)
    requires IsInt(minutes)
    ensures 0 <= s <= INT_MAX
    ensures s == var d := WrapInt(minutes * 60 - FadeWindowSeconds); if d < 0 then 0 else d
    ensures IsInt(minutes * 60 - FadeWindowSeconds) ==>
              s == if minutes * 60 > FadeWindowSeconds then minutes * 60 - FadeWindowSeconds else 0
  {
    var totalSeconds := WrapInt(minutes * 60);
    WrapIntCongruent(totalSeconds - FadeWindowSeconds, minutes * 60 - FadeWindowSeconds);
    var fadeStartSeconds := WrapInt(totalSeconds - FadeWindowSeconds);
    if fadeStartSeconds < 0 then 0 else fadeStartSeconds
  }

  /**
   * Three timers past the `Int` range of `minutes * 60`: for 35791395 minutes
   * subtracting 300 wraps back, so the lead-in is exact; for 35791400 minutes
   * the result is negative and clamped to 0; for 71582800 minutes it wraps
   * past zero to a lead-in of 404 s.
   */
  lemma FadeStartOverflow()
    ensures FadeStartSeconds(35791395) == 35791395 * 60 - 300
    ensures FadeStartSeconds(35791400) == 0
    ensures FadeStartSeconds(71582800) == 404
  {
  }

  /** The volume commands of the first `k` fade steps: 100 %, 99 %, and so on. */
  function VolumeCommands(k: nat): (cs: seq<Command>)
    requires k <= FadeSteps + 1
    ensures |cs| == k
    ensures forall j :: 0 <= j < k ==> cs[j] == SetVolume(FullVolume - j)
  {
    if k == 0 then [] else VolumeCommands(k - 1) + [SetVolume(FullVolume - (k - 1))]
  }

  /**
   * What the job body tells the controller when its first `completed` delays
   * run to the end and the next one is cancelled (or, past the last delay,
   * when it runs to the end).
   */
  function SleepCommands(completed: nat): (cs: seq<Command>)
    ensures |cs| == (if completed < JobDelays then completed else JobDelays + 1)
    ensures Pause in cs <==> completed >= JobDelays
  {
    if completed == 0 then []
    else if completed < JobDelays then VolumeCommands(completed)
    else VolumeCommands(FadeSteps + 1) + [Pause, SetVolume(FullVolume)]
  }

  /** Run to the end, the job lowers the volume from 100 % to 0 % in 101 steps, then pauses and restores it. */
  lemma FullFade()
    ensures var cs := SleepCommands(JobDelays);
            |cs| == 103 && cs[0] == SetVolume(100) && cs[100] == SetVolume(0) &&
            (forall j :: 0 < j <= 100 ==> cs[j].SetVolume? && cs[j].percent == cs[j - 1].percent - 1) &&
            cs[101] == Pause && cs[102] == SetVolume(100)
  {
  }

  /** A job cancelled before its last delay ends never pauses, and only ever lowers the volume. */
  lemma CancelledJobNeverPauses(completed: nat)
    requires completed < JobDelays
    ensures Pause !in SleepCommands(completed)
    ensures forall j :: 0 <= j < |SleepCommands(completed)| ==>
              SleepCommands(completed)[j].SetVolume? && 0 <= SleepCommands(completed)[j].percent <= FullVolume
    ensures forall i, j :: 0 <= i < j < |SleepCommands(completed)| ==>
              SleepCommands(completed)[j].percent < SleepCommands(completed)[i].percent
  {
  }

  /** When the `d`-th delay of the job (counting from 1) ends, in milliseconds after the job starts. */
  function DelayEndMs(minutes: int, d: nat): (t: int)
    requires IsInt(minutes) && 1 <= d <= JobDelays
    ensures t >= FadeStartSeconds(minutes) * 1000
  {
    FadeStartSeconds(minutes) * 1000 + StepDelayMs * (d - 1)
  }

  /**
   * The schedule: step `k` sets the volume when the `k+1`-th delay ends, so the
   * last step (0 %) comes 300 s after the fade starts and the pause 303 s after
   * it; for a timer of five minutes or more that is 3 s after the requested time.
   */
  lemma SleepSchedule(minutes: int)
    requires IsInt(minutes)
    ensures forall k :: 0 <= k <= FadeSteps ==>
              DelayEndMs(minutes, k + 1) == FadeStartSeconds(minutes) * 1000 + 3000 * k
    ensures DelayEndMs(minutes, FadeSteps + 1) == FadeStartSeconds(minutes) * 1000 + 300000
    ensures DelayEndMs(minutes, JobDelays) == FadeStartSeconds(minutes) * 1000 + 303000
    ensures 5 <= minutes <= INT_MAX / 60 ==> DelayEndMs(minutes, JobDelays) == minutes * 60000 + 3000
    ensures minutes <= 5 && IsInt(minutes * 60 - FadeWindowSeconds) ==> DelayEndMs(minutes, JobDelays) == 303000
  {
  }

  /** The `controller?.let` block of `playSong`: queue from the song's first position, prepare, play. */
  method SubmitQueue(ctrl: Engine, song: Song, allSongs: seq<Song>)
    modifies ctrl
    ensures ctrl.commands == old(ctrl.commands) + QueueCommands(song, allSongs)
    ensures ctrl.items == MediaItemsOf(allSongs) && ctrl.startIndex == StartIndex(song, allSongs)
    ensures ctrl.volume == old(ctrl.volume) && ctrl.Status() == old(ctrl.Status())
  {
    var startIndex := IndexOfFirst(allSongs, song.id);
    var mediaItems := MediaItemsOf(allSongs);
    ctrl.SetQueue(mediaItems, if startIndex != -1 then startIndex else 0, 0);
    ctrl.Send(Prepare);
    ctrl.Send(Play);
  }

  /**
   * The controller calls of the sleep-timer job, given how many of its delays
   * end before it is cancelled: after the lead-in, for each volume from 100 %
   * down to 0 % a volume change and a 3 s delay, then pause and full volume.
   */
  method FadeOut(ctrl: Engine, completed: nat)
    modifies ctrl
    ensures ctrl.commands == old(ctrl.commands) + SleepCommands(completed)
    ensures ctrl.volume == (if completed == 0 then old(ctrl.volume)
                            else if completed < JobDelays then FullVolume - (completed - 1)
                            else FullVolume)
    ensures ctrl.items == old(ctrl.items) && ctrl.startIndex == old(ctrl.startIndex)
    ensures ctrl.Status() == old(ctrl.Status())
  {
    if completed == 0 {
      return;
    }
    for i := FadeSteps + 1 downto 0
      invariant 102 - i <= completed
      invariant ctrl.commands == old(ctrl.commands) + VolumeCommands(FadeSteps + 1 - i)
      invariant ctrl.volume == (if i == FadeSteps + 1 then old(ctrl.volume) else i)
      invariant ctrl.items == old(ctrl.items) && ctrl.startIndex == old(ctrl.startIndex)
      invariant ctrl.Status() == old(ctrl.Status())
    {
      ctrl.SetVolumePercent(i);
      assert VolumeCommands(FadeSteps + 1 - i) == VolumeCommands(FadeSteps - i) + [SetVolume(i)];
      if completed == 101 - i {
        return;
      }
    }
    ctrl.Send(Pause);
    ctrl.SetVolumePercent(FullVolume);
  }

  // ---------------------------------------------------------------------
  // The view model

  class PlayerViewModel {
    var isPlaying: bool
    var currentSong: Option<Song>
    var position: int
    var duration: int
    var isControllerReady: bool
    var controller: Option<Engine>
    var songMap: map<string, Song>
    var orderedSongs: seq<Song>
    var sleepTimerJob: Option<SleepJob>
    var sleepTimerActive: bool

    /** The position is never negative, the map is the one built from the queue, and an active timer has a live job. */
    predicate Valid()
      reads this
    {
      position >= 0 &&
      songMap == SongMapOf(orderedSongs) &&
      (sleepTimerActive ==> sleepTimerJob.Some? && !sleepTimerJob.value.cancelled)
    }

    constructor ()
      ensures Valid()
      ensures !isPlaying && currentSong.None? && position == 0 && duration == 0
      ensures !isControllerReady && controller.None? && orderedSongs == [] && songMap == map[]
      ensures sleepTimerJob.None? && !sleepTimerActive
    {
      isPlaying := false;
      currentSong := None;
      position := 0;
      duration := 0;
      isControllerReady := false;
      controller := None;
      songMap := map[];
      orderedSongs := [];
      sleepTimerJob := None;
      sleepTimerActive := false;
    }

    /** The controller future completes: the controller is set and reported ready. */
    method Connect(engine: Engine)
      requires Valid()
      modifies this
      ensures Valid()
      ensures controller == Some(engine) && isControllerReady
      ensures isPlaying == old(isPlaying) && currentSong == old(currentSong)
      ensures position == old(position) && duration == old(duration)
      ensures songMap == old(songMap) && orderedSongs == old(orderedSongs)
      ensures sleepTimerJob == old(sleepTimerJob) && sleepTimerActive == old(sleepTimerActive)
    {
      controller := Some(engine);
      isControllerReady := true;
    }

    /** `onIsPlayingChanged`. */
    method OnIsPlayingChanged(playing: bool)
      requires Valid()
      modifies this
      ensures Valid()
      ensures isPlaying == playing
      ensures currentSong == old(currentSong) && position == old(position) && duration == old(duration)
      ensures controller == old(controller) && isControllerReady == old(isControllerReady)
      ensures songMap == old(songMap) && orderedSongs == old(orderedSongs)
      ensures sleepTimerJob == old(sleepTimerJob) && sleepTimerActive == old(sleepTimerActive)
    {
      isPlaying := playing;
    }

    /**
     * `onMediaItemTransition`: a known media id selects its song from the map;
     * a null item or an unknown id leaves the current song as it was.
     */
    method OnMediaItemTransition(mediaId: Option<string>)
      requires Valid()
      modifies this
      ensures Valid()
      ensures currentSong == SongAfterTransition(songMap, mediaId, old(currentSong))
      ensures isPlaying == old(isPlaying) && position == old(position) && duration == old(duration)
      ensures controller == old(controller) && isControllerReady == old(isControllerReady)
      ensures songMap == old(songMap) && orderedSongs == old(orderedSongs)
      ensures sleepTimerJob == old(sleepTimerJob) && sleepTimerActive == old(sleepTimerActive)
    {
      if mediaId.Some? {
        if mediaId.value in songMap {
          currentSong := Some(songMap[mediaId.value]);
        }
      }
    }

    /** `onPlaybackStateChanged`: on READY the duration is copied from the controller, unchecked. */
    method OnPlaybackStateChanged(state: PlaybackState)
      requires Valid()
      modifies this
      ensures Valid()
      ensures state == Ready ==> duration == (if controller.Some? then controller.value.duration else 0)
      ensures state != Ready ==> duration == old(duration)
      ensures isPlaying == old(isPlaying) && currentSong == old(currentSong) && position == old(position)
      ensures controller == old(controller) && isControllerReady == old(isControllerReady)
      ensures songMap == old(songMap) && orderedSongs == old(orderedSongs)
      ensures sleepTimerJob == old(sleepTimerJob) && sleepTimerActive == old(sleepTimerActive)
    {
      if state == Ready {
        duration := if controller.Some? then controller.value.duration else 0;
      }
    }

    /**
     * One pass of the progress loop: while the player plays or is ready, the
     * position follows it (never below 0) and only a positive duration is taken.
     */
    method ProgressTick()
      requires Valid()
      modifies this
      ensures Valid()
      ensures controller.Some? && (controller.value.isPlaying || controller.value.playbackState == Ready) ==>
                position == (if controller.value.currentPosition < 0 then 0 else controller.value.currentPosition) &&
                duration == (if controller.value.duration > 0 then controller.value.duration else old(duration))
      ensures !(controller.Some? && (controller.value.isPlaying || controller.value.playbackState == Ready)) ==>
                position == old(position) && duration == old(duration)
      ensures isPlaying == old(isPlaying) && currentSong == old(currentSong)
      ensures controller == old(controller) && isControllerReady == old(isControllerReady)
      ensures songMap == old(songMap) && orderedSongs == old(orderedSongs)
      ensures sleepTimerJob == old(sleepTimerJob) && sleepTimerActive == old(sleepTimerActive)
    {
      if controller.Some? {
        var it := controller.value;
        if it.isPlaying || it.playbackState == Ready {
          position := if it.currentPosition < 0 then 0 else it.currentPosition;
          var dur := it.duration;
          if dur > 0 {
            duration := dur;
          }
        }
      }
    }

    /**
     * `playSong`: the song is shown at once, the queue and its map are
     * replaced, and a connected controller gets the queue, prepare and play.
     */
    method PlaySong(song: Song, allSongs: seq<Song>)
      requires Valid()
      modifies this, Frame(controller)
      ensures Valid()
      ensures currentSong == Some(song)
      ensures orderedSongs == allSongs && songMap == SongMapOf(allSongs)
      ensures controller == old(controller)
      ensures controller.Some? ==>
                controller.value.commands == old(controller.value.commands) + QueueCommands(song, allSongs) &&
                controller.value.items == MediaItemsOf(allSongs) &&
                controller.value.startIndex == StartIndex(song, allSongs) &&
                controller.value.volume == old(controller.value.volume) &&
                controller.value.Status() == old(controller.value.Status())
      ensures isPlaying == old(isPlaying) && position == old(position) && duration == old(duration)
      ensures isControllerReady == old(isControllerReady)
      ensures sleepTimerJob == old(sleepTimerJob) && sleepTimerActive == old(sleepTimerActive)
    {
      currentSong := Some(song);
      orderedSongs := allSongs;
      songMap := SongMapOf(allSongs);
      if controller.Some? {
        SubmitQueue(controller.value, song, allSongs);
      }
    }

    /** `togglePlayPause`: pause when the controller plays, play otherwise; nothing without a controller. */
    method TogglePlayPause()
      modifies Frame(controller)
      ensures controller.Some? ==>
                controller.value.commands == old(controller.value.commands) + [if old(controller.value.isPlaying) then Pause else Play] &&
                controller.value.items == old(controller.value.items) &&
                controller.value.startIndex == old(controller.value.startIndex) &&
                controller.value.volume == old(controller.value.volume) &&
                controller.value.Status() == old(controller.value.Status())
    {
      if controller.Some? {
        var it := controller.value;
        if it.isPlaying {
          it.Send(Pause);
        } else {
          it.Send(Play);
        }
      }
    }

    /** `skipNext`: seek only when there is a next item. */
    method SkipNext()
      modifies Frame(controller)
      ensures controller.Some? ==>
                controller.value.commands == old(controller.value.commands) + (if old(controller.value.hasNext) then [SeekToNext] else []) &&
                controller.value.items == old(controller.value.items) &&
                controller.value.startIndex == old(controller.value.startIndex) &&
                controller.value.volume == old(controller.value.volume) &&
                controller.value.Status() == old(controller.value.Status())
    {
      if controller.Some? {
        var it := controller.value;
        if it.hasNext {
          it.Send(SeekToNext);
        }
      }
    }

    /** `skipPrevious`: seek only when there is a previous item. */
    method SkipPrevious()
      modifies Frame(controller)
      ensures controller.Some? ==>
                controller.value.commands == old(controller.value.commands) + (if old(controller.value.hasPrevious) then [SeekToPrevious] else []) &&
                controller.value.items == old(controller.value.items) &&
                controller.value.startIndex == old(controller.value.startIndex) &&
                controller.value.volume == old(controller.value.volume) &&
                controller.value.Status() == old(controller.value.Status())
    {
      if controller.Some? {
        var it := controller.value;
        if it.hasPrevious {
          it.Send(SeekToPrevious);
        }
      }
    }

    /** `seekTo`: passed through as given. */
    method SeekTo(pos: int)
      modifies Frame(controller)
      ensures controller.Some? ==>
                controller.value.commands == old(controller.value.commands) + [Command.SeekTo(pos)] &&
                controller.value.items == old(controller.value.items) &&
                controller.value.startIndex == old(controller.value.startIndex) &&
                controller.value.volume == old(controller.value.volume) &&
                controller.value.Status() == old(controller.value.Status())
    {
      if controller.Some? {
        controller.value.Send(Command.SeekTo(pos));
      }
    }

    /** `startSleepTimer`: any earlier job is cancelled and a new one launched; the timer shows active. */
    method StartSleepTimer(minutes: int)
      requires Valid() && IsInt(minutes)
      modifies this
      ensures Valid()
      ensures sleepTimerJob == Some(SleepJob(minutes, false)) && sleepTimerActive
      ensures isPlaying == old(isPlaying) && currentSong == old(currentSong)
      ensures position == old(position) && duration == old(duration)
      ensures controller == old(controller) && isControllerReady == old(isControllerReady)
      ensures songMap == old(songMap) && orderedSongs == old(orderedSongs)
    {
      sleepTimerActive := true;
      sleepTimerJob := Some(SleepJob(minutes, false));
    }

    /**
     * The launched job's body, given how many of its delays end before it is
     * cancelled: the fade on a connected controller, then the timer goes
     * inactive once every delay has ended.
     */
    method RunSleepTimerJob(completed: nat)
      requires Valid() && sleepTimerJob.Some? && !sleepTimerJob.value.cancelled
      modifies this, Frame(controller)
      ensures Valid()
      ensures controller == old(controller)
      ensures controller.Some? ==>
                controller.value.commands == old(controller.value.commands) + SleepCommands(completed) &&
                controller.value.volume == (if completed == 0 then old(controller.value.volume)
                                            else if completed < JobDelays then FullVolume - (completed - 1)
                                            else FullVolume) &&
                controller.value.items == old(controller.value.items) &&
                controller.value.startIndex == old(controller.value.startIndex) &&
                controller.value.Status() == old(controller.value.Status())
      ensures sleepTimerActive == (old(sleepTimerActive) && completed < JobDelays)
      ensures isPlaying == old(isPlaying) && currentSong == old(currentSong)
      ensures position == old(position) && duration == old(duration)
      ensures isControllerReady == old(isControllerReady)
      ensures songMap == old(songMap) && orderedSongs == old(orderedSongs) && sleepTimerJob == old(sleepTimerJob)
    {
      if controller.Some? {
        FadeOut(controller.value, completed);
      }
      if completed >= JobDelays {
        sleepTimerActive := false;
      }
    }

    /** `stopSleepTimer`: the job is cancelled, the volume restored and the timer inactive. */
    method StopSleepTimer()
      requires Valid()
      modifies this, Frame(controller)
      ensures Valid()
      ensures controller == old(controller)
      ensures sleepTimerJob == (if old(sleepTimerJob).Some? then Some(old(sleepTimerJob).value.(cancelled := true)) else None)
      ensures !sleepTimerActive
      ensures controller.Some? ==>
                controller.value.commands == old(controller.value.commands) + [SetVolume(FullVolume)] &&
                controller.value.volume == FullVolume &&
                controller.value.items == old(controller.value.items) &&
                controller.value.startIndex == old(controller.value.startIndex) &&
                controller.value.Status() == old(controller.value.Status())
      ensures isPlaying == old(isPlaying) && currentSong == old(currentSong)
      ensures position == old(position) && duration == old(duration)
      ensures isControllerReady == old(isControllerReady)
      ensures songMap == old(songMap) && orderedSongs == old(orderedSongs)
    {
      if sleepTimerJob.Some? {
        sleepTimerJob := Some(sleepTimerJob.value.(cancelled := true));
      }
      if controller.Some? {
        controller.value.SetVolumePercent(FullVolume);
      }
      sleepTimerActive := false;
    }
  }
}
