/**
 * The media controller both session holders drive, and the song/queue
 * correspondences they build: media items keyed by the id's decimal string,
 * the start index of a queue, the `associateBy` map and the `find` lookup.
 */
module Playback {
  import opened Wrappers
  import opened Numbers
  import opened Media

  /** `C.TIME_UNSET`, the duration a player reports before it knows one. */
  const TimeUnset: int := LONG_MIN + 1

  /** A queue entry: the media id and the URI to play. */
  datatype MediaItem = MediaItem(mediaId: string, uri: Uri)

  /** The `Player.STATE_*` values. */
  datatype PlaybackState = Idle | Buffering | Ready | Ended

  /** What the session holders ask of the controller; volume is in whole percent. */
  datatype Command =
    | SetMediaItems(items: seq<MediaItem>, startIndex: int, startPositionMs: int)
    | Prepare
    | Play
    | Pause
    | SeekToNext
    | SeekToPrevious
    | SeekTo(positionMs: int)
    | SetVolume(percent: int)

  /**
   * A connected `MediaController`. The status fields are what the player
   * reports; the remaining fields record what it was told, the whole history
   * in `commands`.
   */
  class Engine {
    var isPlaying: bool
    var playbackState: PlaybackState
    var hasNext: bool
    var hasPrevious: bool
    var currentPosition: int
    var duration: int

    var items: seq<MediaItem>
    var startIndex: int
    var volume: int
    var commands: seq<Command>

    constructor ()
      ensures !isPlaying && playbackState == Idle && !hasNext && !hasPrevious
      ensures currentPosition == 0 && duration == TimeUnset
      ensures items == [] && startIndex == 0 && volume == 100 && commands == []
    {
      isPlaying := false;
      playbackState := Idle;
      hasNext := false;
      hasPrevious := false;
      currentPosition := 0;
      duration := TimeUnset;
      items := [];
      startIndex := 0;
      volume := 100;
      commands := [];
    }

    /** The player's own progress, as the environment changes it. */
    method Report(playing: bool, state: PlaybackState, next: bool, previous: bool, position: int, dur: int)
      modifies this
      ensures isPlaying == playing && playbackState == state && hasNext == next && hasPrevious == previous
      ensures currentPosition == position && duration == dur
      ensures items == old(items) && startIndex == old(startIndex) && volume == old(volume) && commands == old(commands)
    {
      isPlaying, playbackState, hasNext, hasPrevious := playing, state, next, previous;
      currentPosition, duration := position, dur;
    }

    method SetQueue(newItems: seq<MediaItem>, start: int, positionMs: int)
      modifies this
      ensures items == newItems && startIndex == start
      ensures commands == old(commands) + [SetMediaItems(newItems, start, positionMs)]
      ensures volume == old(volume) && Status() == old(Status())
    {
      items, startIndex := newItems, start;
      commands := commands + [SetMediaItems(newItems, start, positionMs)];
    }

    /** A transport command that only goes into the record. */
    method Send(c: Command)
      requires !c.SetMediaItems? && !c.SetVolume?
      modifies this
      ensures commands == old(commands) + [c]
      ensures items == old(items) && startIndex == old(startIndex)
      ensures volume == old(volume) && Status() == old(Status())
    {
      commands := commands + [c];
    }

    /** `controller.volume = percent / 100f`. */
    method SetVolumePercent(percent: int)
      modifies this
      ensures volume == percent
      ensures commands == old(commands) + [SetVolume(percent)]
      ensures items == old(items) && startIndex == old(startIndex) && Status() == old(Status())
    {
      volume := percent;
      commands := commands + [SetVolume(percent)];
    }

    /** What the player reports about itself; commands do not change it directly. */
    function Status(): (bool, PlaybackState, bool, bool, int, int)
      reads this
    {
      (isPlaying, playbackState, hasNext, hasPrevious, currentPosition, duration)
    }
  }

  /** The controller reference, which stays null until the connection completes. */
  function Frame(controller: Option<Engine>): set<object> {
    if controller.Some? then {controller.value} else {}
  }

  /** The commands a controller has received, or none without one. */
  function CommandsOf(controller: Option<Engine>): seq<Command>
    reads Frame(controller)
  {
    if controller.Some? then controller.value.commands else []
  }

  /** The media id of a song: `id.toString()`. */
  function MediaIdOf(s: Song): string {
    IntToString(s.id)
  }

  /** `list.map { MediaItem(id.toString(), uri) }`. */
  function MediaItemsOf(songs: seq<Song>): (items: seq<MediaItem>)
    ensures |items| == |songs|
    ensures forall i :: 0 <= i < |songs| ==> items[i].uri == songs[i].uri
    ensures forall i :: 0 <= i < |songs| ==> items[i].mediaId == MediaIdOf(songs[i])
  {
    if songs == [] then [] else MediaItemsOf(songs[..|songs| - 1]) + [MediaItem(MediaIdOf(songs[|songs| - 1]), songs[|songs| - 1].uri)]
  }

  /** Two queue entries have the same media id exactly when their songs have the same id. */
  lemma MediaIdsMatchSongIds(songs: seq<Song>, i: int, j: int)
    requires 0 <= i < |songs| && 0 <= j < |songs|
    ensures MediaItemsOf(songs)[i].mediaId == MediaItemsOf(songs)[j].mediaId <==> songs[i].id == songs[j].id
  {
    IntToStringInjective(songs[i].id, songs[j].id);
  }

  /** `indexOfFirst { it.id == id }`: the first position holding the id, or -1. */
  function IndexOfFirst(songs: seq<Song>, id: int): (r: int)
    ensures -1 <= r < |songs|
    ensures r >= 0 ==> songs[r].id == id && forall j :: 0 <= j < r ==> songs[j].id != id
    ensures r == -1 <==> forall j :: 0 <= j < |songs| ==> songs[j].id != id
  {
    if songs == [] then -1
    else if songs[0].id == id then 0
    else
      var r := IndexOfFirst(songs[1..], id);
      if r == -1 then -1 else r + 1
  }

  /** Every song's ids are pairwise distinct. */
  predicate DistinctIds(songs: seq<Song>) {
    forall i, j :: 0 <= i < j < |songs| ==> songs[i].id != songs[j].id
  }

  /** With distinct ids, the position of a listed song is found. */
  lemma IndexOfFirstFindsSong(songs: seq<Song>, i: int)
    requires DistinctIds(songs) && 0 <= i < |songs|
    ensures IndexOfFirst(songs, songs[i].id) == i
  {
  }

  /** `songs[i]` is the last song whose media id is `k`. */
  predicate LastWithId(songs: seq<Song>, i: int, k: string) {
    0 <= i < |songs| && MediaIdOf(songs[i]) == k && forall j :: i < j < |songs| ==> MediaIdOf(songs[j]) != k
  }

  /** `associateBy { it.id.toString() }`, entered song by song so that later songs overwrite earlier ones. */
  function SongMapOf(songs: seq<Song>): (m: map<string, Song>)
    ensures |m| <= |songs|
  {
    if songs == [] then map[]
    else SongMapOf(songs[..|songs| - 1])[MediaIdOf(songs[|songs| - 1]) := songs[|songs| - 1]]
  }

  /** Every entry maps a media id to a listed song with that media id. */
  lemma {:induction false} SongMapValues(songs: seq<Song>, k: string)
    requires k in SongMapOf(songs)
    ensures SongMapOf(songs)[k] in songs && MediaIdOf(SongMapOf(songs)[k]) == k
    decreases |songs|
  {
    var init := songs[..|songs| - 1];
    if k != MediaIdOf(songs[|songs| - 1]) {
      SongMapValues(init, k);
      assert SongMapOf(init)[k] in init;
    }
  }

  /** The keys of the map are exactly the songs' media ids. */
  lemma {:induction false} SongMapKeys(songs: seq<Song>, k: string)
    ensures k in SongMapOf(songs) <==> exists i :: 0 <= i < |songs| && MediaIdOf(songs[i]) == k
    decreases |songs|
  {
    if songs != [] {
      var init := songs[..|songs| - 1];
      SongMapKeys(init, k);
      if k in SongMapOf(init) {
        var i :| 0 <= i < |init| && MediaIdOf(init[i]) == k;
        assert songs[i] == init[i];
      }
      if i :| 0 <= i < |songs| && MediaIdOf(songs[i]) == k {
        if i < |init| {
          assert songs[i] == init[i];
        }
      }
    }
  }

  /** Later songs overwrite earlier ones: a key maps to the last song that has it. */
  lemma {:induction false} SongMapKeepsLast(songs: seq<Song>, k: string)
    requires k in SongMapOf(songs)
    ensures exists i :: LastWithId(songs, i, k) && SongMapOf(songs)[k] == songs[i]
    decreases |songs|
  {
    var init := songs[..|songs| - 1];
    var last := songs[|songs| - 1];
    if MediaIdOf(last) == k {
      assert LastWithId(songs, |songs| - 1, k);
    } else {
      assert k in SongMapOf(init) && SongMapOf(songs)[k] == SongMapOf(init)[k];
      SongMapKeepsLast(init, k);
      var i :| LastWithId(init, i, k) && SongMapOf(init)[k] == init[i];
      assert songs[i] == init[i];
      forall j | i < j < |songs|
        ensures MediaIdOf(songs[j]) != k
      {
        if j < |init| {
          assert songs[j] == init[j] && MediaIdOf(init[j]) != k;
        } else {
          assert songs[j] == last;
        }
      }
      assert LastWithId(songs, i, k);
    }
  }

  /**
   * `find { it.id.toString() == mediaId }`: the first song whose media id is
   * `mediaId`, or `None`; a null media id matches nothing.
   */
  function FindById(songs: seq<Song>, mediaId: Option<string>): (r: Option<Song>)
    ensures r.Some? ==> mediaId.Some? &&
                        (exists i :: 0 <= i < |songs| && songs[i] == r.value && MediaIdOf(songs[i]) == mediaId.value &&
                                     forall j :: 0 <= j < i ==> MediaIdOf(songs[j]) != mediaId.value)
    ensures r.None? <==> mediaId.None? || forall i :: 0 <= i < |songs| ==> MediaIdOf(songs[i]) != mediaId.value
  {
    if mediaId.None? || songs == [] then None
    else if MediaIdOf(songs[0]) == mediaId.value then Some(songs[0])
    else
      var r := FindById(songs[1..], mediaId);
      assert forall i :: 0 < i < |songs| ==> songs[i] == songs[1..][i - 1];
      r
  }

  /**
   * With distinct ids the map and the linear search agree: a media id is a key
   * exactly when `find` succeeds, and then both give the same song.
   */
  lemma MapAgreesWithFind(songs: seq<Song>, mediaId: string)
    requires DistinctIds(songs)
    ensures mediaId in SongMapOf(songs) <==> FindById(songs, Some(mediaId)).Some?
    ensures mediaId in SongMapOf(songs) ==> SongMapOf(songs)[mediaId] == FindById(songs, Some(mediaId)).value
  {
    var m := SongMapOf(songs);
    var f := FindById(songs, Some(mediaId));
    SongMapKeys(songs, mediaId);
    if mediaId in m {
      SongMapKeepsLast(songs, mediaId);
      var i :| LastWithId(songs, i, mediaId) && m[mediaId] == songs[i];
      var j :| 0 <= j < |songs| && songs[j] == f.value && MediaIdOf(songs[j]) == mediaId;
      IntToStringInjective(songs[i].id, songs[j].id);
      assert i == j;
    }
  }

  /**
   * With a repeated id they disagree: the map keeps the later song, the search
   * the earlier one.
   */
  lemma MapAndFindDifferOnDuplicates(a: Song, b: Song)
    requires a.id == b.id && a != b
    ensures SongMapOf([a, b])[MediaIdOf(a)] == b
    ensures FindById([a, b], Some(MediaIdOf(a))) == Some(a)
  {
    assert [a, b][..1] == [a];
  }
}
