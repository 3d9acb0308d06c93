/**
 * The catalog's value types and the system media index reader
 * (`MediaLibraryHelper`): `Song`, `Album`, the cursor loop of `getAllSongs`
 * and the `groupBy` of `getAllAlbums`.
 */
module Media {
  import opened Wrappers
  import opened Numbers
  import opened Seqs

  /** A content locator: its string form and the decoded path the platform reports (`Uri.getPath()`, may be null). */
  datatype Uri = Uri(text: string, path: Option<string>)

  /**
   * A catalog entry. The declared data class has eight fields; the scanner
   * and the now-playing sheet also use `bpm` and `mood`, so they are fields here.
   */
  datatype Song = Song(
    id: int,
    title: string,
    artist: string,
    album: string,
    albumId: int,
    duration: int,
    uri: Uri,
    albumArtUri: Uri,
    bpm: int,
    mood: string)

  datatype Album = Album(id: int, name: string, artist: string, albumArtUri: Uri, numberOfSongs: int)

  /** The values a song gets for `bpm` and `mood` when the eight-argument constructor is used. */
  const DefaultBpm: int := 120
  const DefaultMood: string := "Neutral"

  /** `MediaStore.Audio.Media.EXTERNAL_CONTENT_URI` (equal to `getContentUri(VOLUME_EXTERNAL)`). */
  const AudioCollection: Uri := Uri("content://media/external/audio/media", Some("/external/audio/media"))

  /** `Uri.parse("content://media/external/audio/albumart")`. */
  const AlbumArtBase: Uri := Uri("content://media/external/audio/albumart", Some("/external/audio/albumart"))

  /** `ContentUris.withAppendedId(base, id)`: the id's decimal form appended as a path segment. */
  function WithAppendedId(base: Uri, id: int): Uri {
    Uri(base.text + "/" + IntToString(id), Some(base.path.GetOr("") + "/" + IntToString(id)))
  }

  /** One row of the system media index; the string columns may be null. */
  datatype IndexRow = IndexRow(
    id: int,
    title: Option<string>,
    artist: Option<string>,
    album: Option<string>,
    albumId: int,
    duration: int)

  /** What `contentResolver.query` gives: no cursor, an exception, or a cursor over rows. */
  datatype Query = NullCursor | QueryThrows | Cursor(rows: seq<IndexRow>)

  /**
   * The song `getAllSongs` builds from one row. A null string column makes the
   * `Song` constructor throw (`None`).
   */
  function SongOfRow(row: IndexRow): (r: Option<Song>)
    ensures r.Some? <==> row.title.Some? && row.artist.Some? && row.album.Some?
    ensures r.Some? ==> r.value.id == row.id && r.value.albumId == row.albumId && r.value.duration == row.duration
  {
    if row.title.None? || row.artist.None? || row.album.None? then None
    else Some(Song(row.id, row.title.value, row.artist.value, row.album.value, row.albumId, row.duration,
                   WithAppendedId(AudioCollection, row.id), WithAppendedId(AlbumArtBase, row.albumId),
                   DefaultBpm, DefaultMood))
  }

  /**
   * The songs converted from `rows` in order, up to the first row that fails
   * to convert (all of them when none fails).
   */
  function ConvertedPrefix(rows: seq<IndexRow>): (songs: seq<Song>)
    ensures |songs| <= |rows|
    decreases |rows|
  {
    if rows == [] then []
    else match SongOfRow(rows[0])
      case None => []
      case Some(s) => [s] + ConvertedPrefix(rows[1..])
  }

  /** Each song of the prefix is its row converted, and the row after the prefix fails to convert. */
  lemma {:induction false} ConvertedPrefixReads(rows: seq<IndexRow>)
    ensures forall j :: 0 <= j < |ConvertedPrefix(rows)| ==> SongOfRow(rows[j]) == Some(ConvertedPrefix(rows)[j])
    ensures |ConvertedPrefix(rows)| < |rows| ==> SongOfRow(rows[|ConvertedPrefix(rows)|]).None?
    decreases |rows|
  {
    if rows != [] {
      var r := SongOfRow(rows[0]);
      if r.Some? {
        var rest := ConvertedPrefix(rows[1..]);
        ConvertedPrefixReads(rows[1..]);
        var c := [r.value] + rest;
        assert ConvertedPrefix(rows) == c;
        forall j | 1 <= j < |c|
          ensures SongOfRow(rows[j]) == Some(c[j])
        {
          assert rows[j] == rows[1..][j - 1] && c[j] == rest[j - 1];
        }
        if |c| < |rows| {
          assert rows[|c|] == rows[1..][|rest|];
        }
      }
    }
  }

  /** Those two facts and the length bound determine the converted prefix: nothing else satisfies them. */
  lemma ConvertedPrefixUnique(rows: seq<IndexRow>, songs: seq<Song>)
    requires |songs| <= |rows|
    requires forall j :: 0 <= j < |songs| ==> SongOfRow(rows[j]) == Some(songs[j])
    requires |songs| < |rows| ==> SongOfRow(rows[|songs|]).None?
    ensures songs == ConvertedPrefix(rows)
  {
    ConvertedPrefixReads(rows);
    var c := ConvertedPrefix(rows);
    if |songs| < |c| {
      assert false;
    }
  }

  /** What `getAllSongs` reads from a query: the converted prefix of a cursor's rows, nothing otherwise. */
  function SongsRead(query: Query): (songs: seq<Song>)
    ensures !query.Cursor? ==> songs == []
    ensures query.Cursor? ==> songs == ConvertedPrefix(query.rows)
  {
    if query.Cursor? then ConvertedPrefix(query.rows) else []
  }

  /**
   * `getAllSongs`: walk the cursor, appending one song per row. A row that
   * throws ends the loop; the exception is caught and the songs read so far
   * are returned.
   */
  method GetAllSongs(query: Query) returns (songs: seq<Song>)
    ensures !query.Cursor? ==> songs == []
    ensures query.Cursor? ==> |songs| <= |query.rows|
    ensures query.Cursor? ==> forall j :: 0 <= j < |songs| ==> SongOfRow(query.rows[j]) == Some(songs[j])
    ensures query.Cursor? && |songs| < |query.rows| ==> SongOfRow(query.rows[|songs|]).None?
    ensures songs == SongsRead(query)
  {
    songs := [];
    if query.Cursor? {
      var rows := query.rows;
      var i := 0;
      while i < |rows|
        invariant 0 <= i <= |rows| && |songs| == i
        invariant forall j :: 0 <= j < i ==> SongOfRow(rows[j]) == Some(songs[j])
      {
        var song := SongOfRow(rows[i]);
        if song.None? {
          ConvertedPrefixUnique(rows, songs);
          return;
        }
        songs := songs + [song.value];
        i := i + 1;
      }
      ConvertedPrefixUnique(rows, songs);
    }
  }

  // ---------------------------------------------------------------------
  // getAllAlbums: songs.groupBy { it.albumId }.map { ... }

  /** Some song of `songs` belongs to album `k`. */
  predicate HasAlbum(songs: seq<Song>, k: int) {
    exists i :: 0 <= i < |songs| && songs[i].albumId == k
  }

  /** The keys of `groupBy`: album ids in order of first occurrence, each once. */
  function AlbumIds(songs: seq<Song>): (ids: seq<int>)
    ensures forall i, j :: 0 <= i < j < |ids| ==> ids[i] != ids[j]
    ensures forall k :: k in ids <==> HasAlbum(songs, k)
  {
    if songs == [] then []
    else
      var init := songs[..|songs| - 1];
      var ids := AlbumIds(init);
      var last := songs[|songs| - 1].albumId;
      assert forall k :: HasAlbum(songs, k) <==> HasAlbum(init, k) || k == last by {
        forall k | HasAlbum(init, k) ensures HasAlbum(songs, k) {
          var i :| 0 <= i < |init| && init[i].albumId == k;
          assert songs[i].albumId == k;
        }
        forall k | HasAlbum(songs, k) && k != last ensures HasAlbum(init, k) {
          var i :| 0 <= i < |songs| && songs[i].albumId == k;
          assert init[i].albumId == k;
        }
      }
      if last in ids then ids else ids + [last]
  }

  /** The group `groupBy` collects for album `k`: its songs, in catalog order. */
  function SongsOfAlbum(songs: seq<Song>, k: int): (g: seq<Song>)
    ensures |g| <= |songs|
    ensures forall s :: s in g ==> s in songs && s.albumId == k
    ensures HasAlbum(songs, k) <==> |g| > 0
  {
    if songs == [] then []
    else
      var init := songs[..|songs| - 1];
      var last := songs[|songs| - 1];
      var g := SongsOfAlbum(init, k);
      assert HasAlbum(songs, k) <==> HasAlbum(init, k) || last.albumId == k by {
        if HasAlbum(init, k) {
          var i :| 0 <= i < |init| && init[i].albumId == k;
          assert songs[i].albumId == k;
        }
        if HasAlbum(songs, k) && last.albumId != k {
          var i :| 0 <= i < |songs| && songs[i].albumId == k;
          assert init[i].albumId == k;
        }
      }
      if last.albumId == k then g + [last] else g
  }

  /** An album's group is Kotlin's `filter { it.albumId == k }` over the catalog. */
  lemma {:induction false} SongsOfAlbumIsFilter(songs: seq<Song>, k: int)
    ensures SongsOfAlbum(songs, k) == Filter(songs, (s: Song) => s.albumId == k)
    decreases |songs|
  {
    if songs != [] {
      var init := songs[..|songs| - 1];
      SongsOfAlbumIsFilter(init, k);
      FilterAppend(init, songs[|songs| - 1], (s: Song) => s.albumId == k);
      assert init + [songs[|songs| - 1]] == songs;
    }
  }

  /** The index of the first song of album `k`. */
  function FirstIndexOfAlbum(songs: seq<Song>, k: int): (i: nat)
    requires HasAlbum(songs, k)
    ensures i < |songs| && songs[i].albumId == k
    ensures forall j :: 0 <= j < i ==> songs[j].albumId != k
  {
    if songs[0].albumId == k then 0
    else
      assert HasAlbum(songs[1..], k) by {
        var i :| 0 <= i < |songs| && songs[i].albumId == k;
        assert songs[1..][i - 1].albumId == k;
      }
      1 + FirstIndexOfAlbum(songs[1..], k)
  }

  /** The album `getAllAlbums` makes of one group: its first song names it. */
  function AlbumOfGroup(k: int, group: seq<Song>): Album
    requires |group| > 0
  {
    Album(k, group[0].album, group[0].artist, group[0].albumArtUri, |group|)
  }

  /**
   * `getAllAlbums` over a list of songs: one album per distinct album id, in
   * order of first occurrence, each counting the songs of its group and named
   * after the group's first song.
   */
  function AlbumsOf(songs: seq<Song>): (albums: seq<Album>)
    ensures |albums| == |AlbumIds(songs)|
    ensures forall i :: 0 <= i < |albums| ==> albums[i].id == AlbumIds(songs)[i]
    ensures forall i, j :: 0 <= i < j < |albums| ==> albums[i].id != albums[j].id
    ensures forall i :: 0 <= i < |albums| ==>
              albums[i].numberOfSongs == |SongsOfAlbum(songs, albums[i].id)| >= 1
    ensures forall i :: 0 <= i < |songs| ==> exists j :: 0 <= j < |albums| && albums[j].id == songs[i].albumId
  {
    var ids := AlbumIds(songs);
    var albums := seq(|ids|, i requires 0 <= i < |ids| => AlbumOfGroup(ids[i], SongsOfAlbum(songs, ids[i])));
    assert forall i :: 0 <= i < |songs| ==> songs[i].albumId in ids by {
      forall i | 0 <= i < |songs| ensures songs[i].albumId in ids {
        assert HasAlbum(songs, songs[i].albumId);
      }
    }
    albums
  }

  /** The first song of an album's group is the album's first song in the catalog. */
  lemma {:induction false} GroupStartsAtFirstSong(songs: seq<Song>, k: int)
    requires HasAlbum(songs, k)
    ensures SongsOfAlbum(songs, k)[0] == songs[FirstIndexOfAlbum(songs, k)]
  {
    var init := songs[..|songs| - 1];
    var f := FirstIndexOfAlbum(songs, k);
    if f < |songs| - 1 {
      assert init[f].albumId == k;
      assert HasAlbum(init, k);
      GroupStartsAtFirstSong(init, k);
      FirstIndexPrefix(init, songs, k);
    } else {
      assert !HasAlbum(init, k);
    }
  }

  /** Extending a list past an album's first song keeps that first index. */
  lemma FirstIndexPrefix(init: seq<Song>, songs: seq<Song>, k: int)
    requires HasAlbum(init, k) && |init| <= |songs| && songs[..|init|] == init
    ensures HasAlbum(songs, k) && FirstIndexOfAlbum(songs, k) == FirstIndexOfAlbum(init, k)
  {
    var f := FirstIndexOfAlbum(init, k);
    assert songs[f] == init[f];
    assert HasAlbum(songs, k);
    var g := FirstIndexOfAlbum(songs, k);
    assert forall j :: 0 <= j < f ==> songs[j] == init[j];
  }

  /** Each album takes its name, artist and art from the first song of that album in the catalog. */
  lemma AlbumNamedByFirstSong(songs: seq<Song>, i: int)
    requires 0 <= i < |AlbumsOf(songs)|
    ensures var a := AlbumsOf(songs)[i];
            HasAlbum(songs, a.id) &&
            var first := songs[FirstIndexOfAlbum(songs, a.id)];
            a.name == first.album && a.artist == first.artist && a.albumArtUri == first.albumArtUri
  {
    var k := AlbumIds(songs)[i];
    GroupStartsAtFirstSong(songs, k);
  }

  /** Albums come in the order in which their ids first occur in the catalog. */
  lemma {:induction false} AlbumsInFirstOccurrenceOrder(songs: seq<Song>, i: int, j: int)
    requires 0 <= i < j < |AlbumIds(songs)|
    ensures var ids := AlbumIds(songs);
            HasAlbum(songs, ids[i]) && HasAlbum(songs, ids[j]) &&
            FirstIndexOfAlbum(songs, ids[i]) < FirstIndexOfAlbum(songs, ids[j])
  {
    var ids := AlbumIds(songs);
    var init := songs[..|songs| - 1];
    var initIds := AlbumIds(init);
    if j < |initIds| {
      AlbumsInFirstOccurrenceOrder(init, i, j);
      FirstIndexPrefix(init, songs, ids[i]);
      FirstIndexPrefix(init, songs, ids[j]);
    } else {
      // ids[j] is the last song's album, seen for the first time at the end
      assert ids[i] in initIds;
      FirstIndexPrefix(init, songs, ids[i]);
      assert !HasAlbum(init, ids[j]);
      assert FirstIndexOfAlbum(songs, ids[j]) == |songs| - 1;
    }
  }

  /** The sum of the group sizes over a list of album ids. */
  function SumOfGroups(songs: seq<Song>, ids: seq<int>): nat {
    if ids == [] then 0
    else SumOfGroups(songs, ids[..|ids| - 1]) + |SongsOfAlbum(songs, ids[|ids| - 1])|
  }

  /** The total of `numberOfSongs` over a list of albums. */
  function TotalSongs(albums: seq<Album>): int {
    if albums == [] then 0 else TotalSongs(albums[..|albums| - 1]) + albums[|albums| - 1].numberOfSongs
  }

  /** Appending one song grows each group sum by one if its album is among the ids. */
  lemma {:induction false} SumOfGroupsAppend(songs: seq<Song>, x: Song, ids: seq<int>)
    requires forall i, j :: 0 <= i < j < |ids| ==> ids[i] != ids[j]
    ensures SumOfGroups(songs + [x], ids) == SumOfGroups(songs, ids) + (if x.albumId in ids then 1 else 0)
  {
    if ids != [] {
      var init := ids[..|ids| - 1];
      SumOfGroupsAppend(songs, x, init);
      assert (songs + [x])[..|songs|] == songs;
      assert x.albumId in ids <==> x.albumId in init || x.albumId == ids[|ids| - 1];
    }
  }

  /** Every song is counted in exactly one group. */
  lemma {:induction false} GroupsPartitionSongs(songs: seq<Song>)
    ensures SumOfGroups(songs, AlbumIds(songs)) == |songs|
  {
    if songs != [] {
      var init := songs[..|songs| - 1];
      var x := songs[|songs| - 1];
      var ids := AlbumIds(init);
      assert songs == init + [x];
      GroupsPartitionSongs(init);
      SumOfGroupsAppend(init, x, ids);
      if x.albumId !in ids {
        assert !HasAlbum(init, x.albumId);
        assert |SongsOfAlbum(init, x.albumId)| == 0;
        assert (ids + [x.albumId])[..|ids|] == ids;
      }
    }
  }

  /** The albums' `numberOfSongs` add up to the number of songs. */
  lemma AlbumCountsSumToSongs(songs: seq<Song>)
    ensures TotalSongs(AlbumsOf(songs)) == |songs|
  {
    var ids := AlbumIds(songs);
    var albums := AlbumsOf(songs);
    forall n | 0 <= n <= |ids|
      ensures TotalSongs(albums[..n]) == SumOfGroups(songs, ids[..n])
    {
      TotalOfPrefix(songs, ids, albums, n);
    }
    assert albums[..|ids|] == albums && ids[..|ids|] == ids;
    GroupsPartitionSongs(songs);
  }

  lemma {:induction false} TotalOfPrefix(songs: seq<Song>, ids: seq<int>, albums: seq<Album>, n: nat)
    requires |albums| == |ids| && n <= |ids|
    requires forall i :: 0 <= i < |ids| ==> albums[i].numberOfSongs == |SongsOfAlbum(songs, ids[i])|
    ensures TotalSongs(albums[..n]) == SumOfGroups(songs, ids[..n])
  {
    if n > 0 {
      TotalOfPrefix(songs, ids, albums, n - 1);
      assert albums[..n][..n - 1] == albums[..n - 1];
      assert ids[..n][..n - 1] == ids[..n - 1];
    }
  }

  /** `getAllAlbums`: the grouping applied to what `getAllSongs` reads. */
  method GetAllAlbums(query: Query) returns (albums: seq<Album>)
    ensures albums == AlbumsOf(SongsRead(query))
    ensures TotalSongs(albums) == |SongsRead(query)|
  {
    var songs := GetAllSongs(query);
    albums := AlbumsOf(songs);
    AlbumCountsSumToSongs(songs);
  }
}
