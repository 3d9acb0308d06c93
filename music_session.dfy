/**
 * `MusicViewModel`: the session holder the screens use. It keeps the queue as
 * a list and looks songs up by linear search, sets the current song to null
 * on an unknown media id, forwards skips unguarded, and loads the library by
 * scanning the chosen folder.
 */
module MusicSession {
  import opened Wrappers
  import opened Media
  import opened Playback
  import opened Scanner
  import PlayerSession

  /** What `playSong` tells a connected controller: the queue starting at `indexOfFirst` raised to 0. */
  function MusicQueueCommands(song: Song, list: seq<Song>): (cs: seq<Command>)
    ensures |cs| == 3 && cs[0].SetMediaItems? && cs[0].startIndex >= 0 && cs[1] == Prepare && cs[2] == Play
  {
    var index := IndexOfFirst(list, song.id);
    [SetMediaItems(MediaItemsOf(list), if index < 0 then 0 else index, 0), Prepare, Play]
  }

  /** Both session holders hand the controller exactly the same queue for the same request. */
  lemma SessionsSubmitSameQueue(song: Song, list: seq<Song>)
    ensures MusicQueueCommands(song, list) == PlayerSession.QueueCommands(song, list)
  {
  }

  /**
   * After the same `playSong`, a transition to a listed id shows the same song
   * in both holders when ids are distinct; to an unlisted id, this holder shows
   * nothing while the other keeps its song.
   */
  lemma TransitionsCompared(list: seq<Song>, mediaId: string, shown: Option<Song>)
    requires DistinctIds(list)
    ensures FindById(list, Some(mediaId)).Some? ==>
              PlayerSession.SongAfterTransition(SongMapOf(list), Some(mediaId), shown) == FindById(list, Some(mediaId))
    ensures FindById(list, Some(mediaId)).None? ==>
              PlayerSession.SongAfterTransition(SongMapOf(list), Some(mediaId), shown) == shown
  {
    MapAgreesWithFind(list, mediaId);
  }

  /** The `controller?.apply` block of `playSong`: queue from `indexOfFirst` raised to 0, prepare, play. */
  method SubmitQueue(c: Engine, song: Song, list: seq<Song>)
    modifies c
    ensures c.commands == old(c.commands) + MusicQueueCommands(song, list)
    ensures c.items == MediaItemsOf(list) && c.startIndex == PlayerSession.StartIndex(song, list)
    ensures c.volume == old(c.volume) && c.Status() == old(c.Status())
  {
    var mediaItems := MediaItemsOf(list);
    var index := IndexOfFirst(list, song.id);
    c.SetQueue(mediaItems, if index < 0 then 0 else index, 0);
    c.Send(Prepare);
    c.Send(Play);
  }

  class MusicViewModel {
    var isPlaying: bool
    var currentSong: Option<Song>
    var librarySongs: seq<Song>
    var isScanning: bool
    var controller: Option<Engine>
    var songList: seq<Song>

    constructor ()
      ensures !isPlaying && currentSong.None? && librarySongs == [] && !isScanning
      ensures controller.None? && songList == []
    {
      isPlaying := false;
      currentSong := None;
      librarySongs := [];
      isScanning := false;
      controller := None;
      songList := [];
    }

    /** The controller future completes. */
    method Connect(engine: Engine)
      modifies this
      ensures controller == Some(engine)
      ensures isPlaying == old(isPlaying) && currentSong == old(currentSong) && songList == old(songList)
      ensures librarySongs == old(librarySongs) && isScanning == old(isScanning)
    {
      controller := Some(engine);
    }

    /** `onIsPlayingChanged`. */
    method OnIsPlayingChanged(playing: bool)
      modifies this
      ensures isPlaying == playing
      ensures currentSong == old(currentSong) && songList == old(songList) && controller == old(controller)
      ensures librarySongs == old(librarySongs) && isScanning == old(isScanning)
    {
      isPlaying := playing;
    }

    /** `onMediaItemTransition`: the first listed song with the media id, or null. */
    method OnMediaItemTransition(mediaId: Option<string>)
      modifies this
      ensures currentSong == FindById(songList, mediaId)
      ensures isPlaying == old(isPlaying) && songList == old(songList) && controller == old(controller)
      ensures librarySongs == old(librarySongs) && isScanning == old(isScanning)
    {
      currentSong := FindById(songList, mediaId);
    }

    /** `playSong`: the list is kept and a connected controller gets it; the current song waits for the transition. */
    method PlaySong(song: Song, list: seq<Song>)
      modifies this, Frame(controller)
      ensures songList == list && currentSong == old(currentSong) && controller == old(controller)
      ensures controller.Some? ==>
                controller.value.commands == old(controller.value.commands) + MusicQueueCommands(song, list) &&
                controller.value.items == MediaItemsOf(list) &&
                controller.value.startIndex == PlayerSession.StartIndex(song, list) &&
                controller.value.volume == old(controller.value.volume) &&
                controller.value.Status() == old(controller.value.Status())
      ensures isPlaying == old(isPlaying) && librarySongs == old(librarySongs) && isScanning == old(isScanning)
    {
      songList := list;
      if controller.Some? {
        SubmitQueue(controller.value, song, list);
      }
    }

    /** `togglePlayPause`: pause when the controller reports playing, play otherwise. */
    method TogglePlayPause()
      modifies Frame(controller)
      ensures controller.Some? ==>
                controller.value.commands == old(controller.value.commands) + [if old(controller.value.isPlaying) then Pause else Play] &&
                controller.value.items == old(controller.value.items) &&
                controller.value.startIndex == old(controller.value.startIndex) &&
                controller.value.volume == old(controller.value.volume) &&
                controller.value.Status() == old(controller.value.Status())
    {
      if controller.Some? && controller.value.isPlaying {
        controller.value.Send(Pause);
      } else if controller.Some? {
        controller.value.Send(Play);
      }
    }

    /** `skipNext`, forwarded whether or not there is a next item. */
    method SkipNext()
      modifies Frame(controller)
      ensures controller.Some? ==>
                controller.value.commands == old(controller.value.commands) + [SeekToNext] &&
                controller.value.items == old(controller.value.items) &&
                controller.value.startIndex == old(controller.value.startIndex) &&
                controller.value.volume == old(controller.value.volume) &&
                controller.value.Status() == old(controller.value.Status())
    {
      if controller.Some? {
        controller.value.Send(SeekToNext);
      }
    }

    /** `skipPrevious`, forwarded whether or not there is a previous item. */
    method SkipPrevious()
      modifies Frame(controller)
      ensures controller.Some? ==>
                controller.value.commands == old(controller.value.commands) + [SeekToPrevious] &&
                controller.value.items == old(controller.value.items) &&
                controller.value.startIndex == old(controller.value.startIndex) &&
                controller.value.volume == old(controller.value.volume) &&
                controller.value.Status() == old(controller.value.Status())
    {
      if controller.Some? {
        controller.value.Send(SeekToPrevious);
      }
    }

    /** `seekTo`. */
    method SeekTo(pos: int)
      modifies Frame(controller)
      ensures controller.Some? ==>
                controller.value.commands == old(controller.value.commands) + [Command.SeekTo(pos)] &&
                controller.value.items == old(controller.value.items) &&
                controller.value.startIndex == old(controller.value.startIndex) &&
                controller.value.volume == old(controller.value.volume) &&
                controller.value.Status() == old(controller.value.Status())
    {
      if controller.Some? {
        controller.value.Send(Command.SeekTo(pos));
      }
    }

    /** The first half of the scan coroutine: the flag goes up before the scanner runs. */
    method BeginScan()
      modifies this
      ensures isScanning
      ensures librarySongs == old(librarySongs) && currentSong == old(currentSong) && isPlaying == old(isPlaying)
      ensures songList == old(songList) && controller == old(controller)
    {
      isScanning := true;
    }

    /**
     * The second half: the result replaces the library, an exception empties
     * it (`None`), and the flag comes down on both paths.
     */
    method CompleteScan(outcome: Option<seq<Song>>)
      modifies this
      ensures !isScanning
      ensures librarySongs == (if outcome.Some? then outcome.value else [])
      ensures currentSong == old(currentSong) && isPlaying == old(isPlaying)
      ensures songList == old(songList) && controller == old(controller)
    {
      if outcome.Some? {
        librarySongs := outcome.value;
      } else {
        librarySongs := [];
      }
      isScanning := false;
    }

    /**
     * `scanAndLoadLibrary`. The scanner itself never fails; `cancelled` says
     * whether the coroutine is cancelled while it runs, which surfaces as an
     * exception on return and empties the library.
     */
    method ScanAndLoadLibrary(folderUri: string, tree: map<string, Entry>, powerSave: bool, md: Metadata, cancelled: bool)
      modifies this
      ensures !isScanning
      ensures librarySongs == if cancelled then [] else ScanResult(folderUri, tree, powerSave, md)
      ensures currentSong == old(currentSong) && isPlaying == old(isPlaying)
      ensures songList == old(songList) && controller == old(controller)
    {
      BeginScan();
      var songs := ScanMusicFolder(folderUri, tree, powerSave, md);
      if cancelled {
        CompleteScan(None);
      } else {
        CompleteScan(Some(songs));
      }
    }

    /** A stored folder URI, on start-up or on refresh: a scan runs only for a non-null URI. */
    method OnMusicFolderUri(uri: Option<string>, tree: map<string, Entry>, powerSave: bool, md: Metadata, cancelled: bool)
      modifies this
      ensures uri.Some? ==> !isScanning && librarySongs == if cancelled then [] else ScanResult(uri.value, tree, powerSave, md)
      ensures uri.None? ==> librarySongs == old(librarySongs) && isScanning == old(isScanning)
      ensures currentSong == old(currentSong) && isPlaying == old(isPlaying)
      ensures songList == old(songList) && controller == old(controller)
    {
      if uri.Some? {
        ScanAndLoadLibrary(uri.value, tree, powerSave, md, cancelled);
      }
    }
  }
}
