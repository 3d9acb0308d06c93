/**
 * The library scanner (`MusicScanner`): walk the granted folder tree depth
 * first, keep the audio-typed files, and turn each into exactly one `Song`,
 * taken from the media index when it has a row for the file and derived from
 * the file name otherwise. In power-save mode only the first 20
 * subdirectories of each directory are descended into.
 *
 * The platform's tree accessor, media index, power state and random numbers
 * are inputs: a map from folder URI to tree, a `MediaIndex`, a flag, and a
 * function drawing a base tempo per file.
 */
module Scanner {
  import opened Wrappers
  import opened Numbers
  import opened Strings
  import opened Seqs
  import opened Media

  /** The content types accepted outright (compared ignoring case). */
  const AudioMimeTypes: seq<string> :=
    ["audio/mpeg", "audio/mp4", "audio/wav", "audio/flac", "audio/ogg", "audio/x-matroska"]

  /** The top-level type of RFC 2046 section 4.3, compared case-sensitively. */
  const AudioPrefix: string := "audio/"

  const UnknownName: string := "Unknown"
  const UnknownArtist: string := "Unknown Artist"
  const UnknownAlbum: string := "Unknown Album"
  const FallbackBpm: int := 120
  const RemixBonus: int := 20
  const CalmThresholdMs: int := 300000

  /** Directories descended per level in power-save mode. */
  const PowerSaveMaxDirs: nat := 20

  /** `Uri.parse("")`: empty text and empty path. */
  const EmptyUri: Uri := Uri("", Some(""))

  /** A node of the document tree: a directory whose listing may throw, or a document. */
  datatype Entry =
    | Directory(name: Option<string>, children: seq<Entry>, listingFails: bool)
    | Document(name: Option<string>, isFile: bool, mimeType: Option<string>, uri: Option<Uri>)

  /** The media index as queried by file URI: no cursor, a query that throws, or the rows by path. */
  datatype MediaIndex = IndexUnavailable | IndexFails | Indexed(rows: map<string, IndexRow>)

  /** A value of `(70..130).random()`. */
  type BaseBpm = x: int | 70 <= x <= 130 witness 70

  /** What the scan consults besides the tree: the media index and the tempo draws. */
  datatype Metadata = Metadata(index: MediaIndex, drawBpm: string -> BaseBpm)

  datatype Policy = Normal | PowerSave

  // ---------------------------------------------------------------------
  // Classifying and converting one file

  /** `isAudioFile`: a non-null type equal to a listed type ignoring case, or starting with `audio/`. */
  predicate IsAudioFile(mimeType: Option<string>)
    ensures IsAudioFile(mimeType) ==> mimeType.Some? && |mimeType.value| >= 6
  {
    mimeType.Some? &&
    exists i | 0 <= i < |AudioMimeTypes| ::
      EqualsIgnoreCase(mimeType.value, AudioMimeTypes[i]) || StartsWith(mimeType.value, AudioPrefix)
  }

  /** The two ways a type is accepted, with the list's `any` unfolded. */
  lemma AudioFileIff(mimeType: Option<string>)
    ensures IsAudioFile(mimeType) <==>
              mimeType.Some? &&
              (StartsWith(mimeType.value, AudioPrefix) ||
               exists i | 0 <= i < |AudioMimeTypes| :: EqualsIgnoreCase(mimeType.value, AudioMimeTypes[i]))
  {
    if mimeType.Some? && StartsWith(mimeType.value, AudioPrefix) {
      assert EqualsIgnoreCase(mimeType.value, AudioMimeTypes[0]) || StartsWith(mimeType.value, AudioPrefix);
    }
  }

  /** Case matters for the prefix but not for the listed types. */
  lemma AudioFileExamples()
    ensures IsAudioFile(Some("AUDIO/MPEG"))
    ensures IsAudioFile(Some("audio/aac"))
    ensures !IsAudioFile(Some("AUDIO/AAC"))
    ensures !IsAudioFile(Some("text/plain"))
    ensures !IsAudioFile(None)
  {
    assert EqualsIgnoreCase("AUDIO/MPEG", AudioMimeTypes[0]);
    assert StartsWith("audio/aac", AudioPrefix);
    assert !StartsWith("AUDIO/AAC", AudioPrefix) by {
      assert "AUDIO/AAC"[0] != AudioPrefix[0];
    }
    assert !StartsWith("text/plain", AudioPrefix) by {
      assert "text/plain"[0] != AudioPrefix[0];
    }
    forall i | 0 <= i < |AudioMimeTypes|
      ensures !EqualsIgnoreCase("AUDIO/AAC", AudioMimeTypes[i])
      ensures !EqualsIgnoreCase("text/plain", AudioMimeTypes[i])
    {
      assert "text/plain"[0] == 't' && AudioMimeTypes[i][0] == 'a';
      if |AudioMimeTypes[i]| == 9 {
        assert i == 1 || i == 2 || i == 4;
        assert !CharEqualsIgnoreCase("AUDIO/AAC"[6], AudioMimeTypes[i][6]);
      }
    }
  }

  /** `String.hashCode()`: `31 * h + c` over the characters, wrapping in 32 bits. */
  function StringHashCode(s: string): (h: int)
    ensures IsInt(h)
  {
    if s == [] then 0 else WrapInt(31 * StringHashCode(s[..|s| - 1]) + s[|s| - 1] as int)
  }

  /** `uri.hashCode().toLong()`: the URI's hash is the hash of its string form. */
  function UriHashCode(uri: Uri): (h: int)
    ensures IsInt(h)
  {
    StringHashCode(uri.text)
  }

  /** `createFallbackSong`: everything but the title and id is a fixed placeholder. */
  function FallbackSong(uri: Uri, fileName: string): (s: Song)
    ensures s.title == SubstringBeforeLast(fileName, '.')
    ensures s.id == UriHashCode(uri) && s.uri == uri
    ensures s.artist == UnknownArtist && s.album == UnknownAlbum
    ensures s.albumId == 0 && s.duration == 0 && s.bpm == FallbackBpm && s.mood == "Neutral"
  {
    Song(UriHashCode(uri), SubstringBeforeLast(fileName, '.'), UnknownArtist, UnknownAlbum, 0, 0,
         uri, EmptyUri, FallbackBpm, "Neutral")
  }

  /** A fallback song's identity depends on the URI alone, so rescanning an unindexed file is stable. */
  lemma FallbackIdStable(uri: Uri, name1: string, name2: string)
    ensures FallbackSong(uri, name1).id == FallbackSong(uri, name2).id
    ensures FallbackSong(uri, name1).(title := "") == FallbackSong(uri, name2).(title := "")
  {
  }

  /** The fallback title drops the last extension and nothing else. */
  lemma FallbackTitleDropsExtension(uri: Uri, fileName: string)
    ensures var t := FallbackSong(uri, fileName).title;
            ('.' !in fileName ==> t == fileName) &&
            ('.' in fileName ==> fileName == t + "." + fileName[|t| + 1..] && '.' !in fileName[|t| + 1..])
  {
    var t := FallbackSong(uri, fileName).title;
    if '.' in fileName {
      assert fileName == fileName[..|t|] + [fileName[|t|]] + fileName[|t| + 1..];
    }
  }

  /**
   * The song the index branch of `createSongFromUri` builds from a row. A null string column throws
   * (`None`); the caller then falls back.
   */
  function SongOfIndexRow(row: IndexRow, uri: Uri, base: BaseBpm): (r: Option<Song>)
    ensures r.Some? <==> row.title.Some? && row.artist.Some? && row.album.Some?
  {
    if row.title.None? || row.artist.None? || row.album.None? then None
    else
      var title := row.title.value;
      var bpm := if ContainsIgnoreCase(title, "remix") then base + RemixBonus else base;
      var mood := if row.duration > CalmThresholdMs then "Calm" else "Neutral";
      Some(Song(row.id, title,
                if row.artist.value == "" then UnknownArtist else row.artist.value,
                if row.album.value == "" then UnknownAlbum else row.album.value,
                row.albumId, row.duration, uri, WithAppendedId(AlbumArtBase, row.albumId), bpm, mood))
  }

  /** What an index hit promises: defaults for empty names, the mood rule and the tempo range. */
  lemma IndexHitProperties(row: IndexRow, uri: Uri, base: BaseBpm)
    requires row.title.Some? && row.artist.Some? && row.album.Some?
    ensures var s := SongOfIndexRow(row, uri, base).value;
            && s.id == row.id && s.title == row.title.value && s.uri == uri
            && s.artist == (if row.artist.value == "" then UnknownArtist else row.artist.value)
            && s.album == (if row.album.value == "" then UnknownAlbum else row.album.value)
            && (s.mood == "Calm" <==> row.duration > CalmThresholdMs)
            && (s.mood == "Calm" || s.mood == "Neutral")
            && (ContainsIgnoreCase(row.title.value, "remix") ==> 90 <= s.bpm <= 150)
            && (!ContainsIgnoreCase(row.title.value, "remix") ==> 70 <= s.bpm <= 130)
  {
  }

  /** The properties every song the scanner makes has. */
  predicate WellFormedScanned(s: Song) {
    s.artist != "" && s.album != "" && 70 <= s.bpm <= 150 && (s.mood == "Calm" || s.mood == "Neutral")
  }

  /**
   * `createSongFromUri`: the index row for the file's URI if the query gives
   * one and it converts; the fallback song on every other path (no cursor,
   * no row, an exception).
   */
  function CreateSongFromUri(md: Metadata, uri: Uri, fileName: string): (r: Option<Song>)
    ensures r.Some? && r.value.uri == uri && WellFormedScanned(r.value)
    ensures !(md.index.Indexed? && uri.text in md.index.rows) ==> r == Some(FallbackSong(uri, fileName))
    ensures md.index.Indexed? && uri.text in md.index.rows ==>
              r == (var c := SongOfIndexRow(md.index.rows[uri.text], uri, md.drawBpm(uri.text));
                    if c.Some? then c else Some(FallbackSong(uri, fileName)))
  {
    match md.index
    case IndexUnavailable => Some(FallbackSong(uri, fileName))
    case IndexFails => Some(FallbackSong(uri, fileName))
    case Indexed(rows) =>
      if uri.text in rows then
        match SongOfIndexRow(rows[uri.text], uri, md.drawBpm(uri.text))
        case Some(s) => Some(s)
        case None => Some(FallbackSong(uri, fileName))
      else Some(FallbackSong(uri, fileName))
  }

  // ---------------------------------------------------------------------
  // The walk, as a specification

  /** A document the scan turns into a song: a file with an audio type and a URI. */
  predicate IsScannedFile(e: Entry) {
    e.Document? && e.isFile && IsAudioFile(e.mimeType) && e.uri.Some?
  }

  /** The songs one document child adds to the list (zero or one). */
  function FileSongs(e: Entry, md: Metadata): (r: seq<Song>)
    requires e.Document?
    ensures |r| == (if IsScannedFile(e) then 1 else 0)
    ensures IsScannedFile(e) ==> r[0].uri == e.uri.value
  {
    if IsScannedFile(e) then
      match CreateSongFromUri(md, e.uri.value, e.name.GetOr(UnknownName))
      case Some(s) => [s]
      case None => []
    else []
  }

  /** The number of directories among some children. */
  function DirCount(cs: seq<Entry>): nat {
    if cs == [] then 0 else DirCount(cs[..|cs| - 1]) + (if cs[|cs| - 1].Directory? then 1 else 0)
  }

  /** Whether a directory child, coming after `before`, is descended into. */
  predicate Descends(before: seq<Entry>, p: Policy) {
    p == Normal || DirCount(before) < PowerSaveMaxDirs
  }

  /** The songs a walk adds, and whether it finished without an exception. */
  datatype Walk = Walk(songs: seq<Song>, completed: bool)

  /** `scanDirectoryRecursive` / `scanDirectoryOptimized` on one node. */
  function WalkEntry(e: Entry, p: Policy, md: Metadata): (w: Walk)
    ensures |w.songs| <= |AudioFileUris(e)|
    decreases e
  {
    if !e.Directory? then Walk([], true)
    else if e.listingFails then Walk([], false)
    else WalkChildren(e.children, p, md)
  }

  /** The loop over a directory's children, up to and including the last of `cs`. */
  function WalkChildren(cs: seq<Entry>, p: Policy, md: Metadata): (w: Walk)
    ensures |w.songs| <= |AudioFileUrisIn(cs)|
    decreases cs
  {
    if cs == [] then Walk([], true)
    else
      var before := cs[..|cs| - 1];
      var w := WalkChildren(before, p, md);
      var c := cs[|cs| - 1];
      if !w.completed then w
      else if c.Directory? then
        if Descends(before, p) then
          var d := WalkEntry(c, p, md);
          Walk(w.songs + d.songs, d.completed)
        else w
      else Walk(w.songs + FileSongs(c, md), true)
  }

  /** `scanMusicFolder`: the songs of the folder's tree, or none when the folder does not resolve. */
  function ScanResult(folderUri: string, tree: map<string, Entry>, powerSave: bool, md: Metadata): (r: seq<Song>)
    ensures folderUri !in tree ==> r == []
    ensures folderUri in tree ==> |r| <= |AudioFileUris(tree[folderUri])|
  {
    if folderUri in tree then WalkEntry(tree[folderUri], if powerSave then PowerSave else Normal, md).songs
    else []
  }

  // ---------------------------------------------------------------------
  // The walk, as the source runs it

  /** The shared `MutableList<Song>` the walk appends to. */
  class SongList {
    var items: seq<Song>

    constructor ()
      ensures items == []
    {
      items := [];
    }

    method Add(s: Song)
      modifies this
      ensures items == old(items) + [s]
    {
      items := items + [s];
    }
  }

  /** The walk of some children followed by one more child. */
  lemma WalkAppend(cs: seq<Entry>, c: Entry, p: Policy, md: Metadata)
    ensures WalkChildren(cs + [c], p, md) ==
            var w := WalkChildren(cs, p, md);
            if !w.completed then w
            else if !c.Directory? then Walk(w.songs + FileSongs(c, md), true)
            else if Descends(cs, p) then Walk(w.songs + WalkEntry(c, p, md).songs, WalkEntry(c, p, md).completed)
            else w
  {
    assert (cs + [c])[..|cs|] == cs;
  }

  /** The number of directories among `before` that power-save mode has descended into. */
  function CappedCount(before: seq<Entry>): (n: nat)
    ensures n < PowerSaveMaxDirs <==> Descends(before, PowerSave)
  {
    if DirCount(before) < PowerSaveMaxDirs then DirCount(before) else PowerSaveMaxDirs
  }

  /** Appending to the list in two steps is appending the two pieces at once. */
  lemma AppendAssociates(a: seq<Song>, b: seq<Song>, c: seq<Song>)
    ensures (a + b) + c == a + (b + c)
  {
  }

  /** A step of the loop over a directory's children that descends into a directory. */
  lemma StepIntoDirectory(cs: seq<Entry>, i: nat, p: Policy, md: Metadata)
    requires i < |cs| && WalkChildren(cs[..i], p, md).completed
    requires cs[i].Directory? && Descends(cs[..i], p)
    ensures WalkChildren(cs[..i + 1], p, md) ==
            Walk(WalkChildren(cs[..i], p, md).songs + WalkEntry(cs[i], p, md).songs, WalkEntry(cs[i], p, md).completed)
    ensures DirCount(cs[..i + 1]) == DirCount(cs[..i]) + 1
  {
    assert cs[..i + 1][..i] == cs[..i];
  }

  /** A step that passes over a directory (power-save mode, after the 20th). */
  lemma StepPastDirectory(cs: seq<Entry>, i: nat, p: Policy, md: Metadata)
    requires i < |cs| && WalkChildren(cs[..i], p, md).completed
    requires cs[i].Directory? && !Descends(cs[..i], p)
    ensures WalkChildren(cs[..i + 1], p, md) == WalkChildren(cs[..i], p, md)
    ensures DirCount(cs[..i + 1]) == DirCount(cs[..i]) + 1
  {
    assert cs[..i + 1][..i] == cs[..i];
  }

  /** A step over a document: it adds its file's songs. */
  lemma StepOverDocument(cs: seq<Entry>, i: nat, p: Policy, md: Metadata)
    requires i < |cs| && WalkChildren(cs[..i], p, md).completed
    requires cs[i].Document?
    ensures WalkChildren(cs[..i + 1], p, md) == Walk(WalkChildren(cs[..i], p, md).songs + FileSongs(cs[i], md), true)
    ensures DirCount(cs[..i + 1]) == DirCount(cs[..i])
  {
    assert cs[..i + 1][..i] == cs[..i];
  }

  /** Once a walk of some children has stopped on an exception, the later children change nothing. */
  lemma {:induction false} FailureIsFinal(cs: seq<Entry>, k: nat, p: Policy, md: Metadata)
    requires k <= |cs| && !WalkChildren(cs[..k], p, md).completed
    ensures WalkChildren(cs, p, md) == WalkChildren(cs[..k], p, md)
    decreases |cs|
  {
    if k < |cs| {
      var init := cs[..|cs| - 1];
      assert init[..k] == cs[..k];
      FailureIsFinal(init, k, p, md);
    } else {
      assert cs[..k] == cs;
    }
  }

  /**
   * The branch both walks take for a child that is not a directory: an audio
   * file with a URI is converted and the song, if any, appended.
   */
  method ScanFile(child: Entry, songs: SongList, md: Metadata)
    requires child.Document?
    modifies songs
    ensures songs.items == old(songs.items) + FileSongs(child, md)
  {
    if child.isFile && IsAudioFile(child.mimeType) {
      if child.uri.Some? {
        var song := CreateSongFromUri(md, child.uri.value, child.name.GetOr(UnknownName));
        if song.Some? {
          songs.Add(song.value);
        }
      }
    }
  }

  /**
   * `scanDirectoryRecursive`. The result is false when the walk stopped on an
   * exception, which the source propagates to `scanMusicFolder`.
   */
  method ScanDirectoryRecursive(dir: Entry, songs: SongList, md: Metadata) returns (completed: bool)
    modifies songs
    ensures songs.items == old(songs.items) + WalkEntry(dir, Normal, md).songs
    ensures completed == WalkEntry(dir, Normal, md).completed
    decreases dir
  {
    if !dir.Directory? {
      return true;
    }
    if dir.listingFails {
      return false;
    }
    var children := dir.children;
    ghost var start := songs.items;
    for i := 0 to |children|
      invariant songs.items == start + WalkChildren(children[..i], Normal, md).songs
      invariant WalkChildren(children[..i], Normal, md).completed
    {
      var child := children[i];
      if child.Directory? {
        StepIntoDirectory(children, i, Normal, md);
        AppendAssociates(start, WalkChildren(children[..i], Normal, md).songs, WalkEntry(child, Normal, md).songs);
        completed := ScanDirectoryRecursive(child, songs, md);
        if !completed {
          FailureIsFinal(children, i + 1, Normal, md);
          return;
        }
      } else {
        StepOverDocument(children, i, Normal, md);
        AppendAssociates(start, WalkChildren(children[..i], Normal, md).songs, FileSongs(child, md));
        ScanFile(child, songs, md);
      }
    }
    assert children[..|children|] == children;
    return true;
  }

  /** `scanDirectoryOptimized`: as above, but only the first 20 subdirectories are descended into. */
  method ScanDirectoryOptimized(dir: Entry, songs: SongList, md: Metadata) returns (completed: bool)
    modifies songs
    ensures songs.items == old(songs.items) + WalkEntry(dir, PowerSave, md).songs
    ensures completed == WalkEntry(dir, PowerSave, md).completed
    decreases dir
  {
    if !dir.Directory? {
      return true;
    }
    if dir.listingFails {
      return false;
    }
    var children := dir.children;
    var processedCount := 0;
    ghost var start := songs.items;
    for i := 0 to |children|
      invariant processedCount == CappedCount(children[..i])
      invariant songs.items == start + WalkChildren(children[..i], PowerSave, md).songs
      invariant WalkChildren(children[..i], PowerSave, md).completed
    {
      var child := children[i];
      if child.Directory? && processedCount < PowerSaveMaxDirs {
        StepIntoDirectory(children, i, PowerSave, md);
        AppendAssociates(start, WalkChildren(children[..i], PowerSave, md).songs, WalkEntry(child, PowerSave, md).songs);
        completed := ScanDirectoryOptimized(child, songs, md);
        if !completed {
          FailureIsFinal(children, i + 1, PowerSave, md);
          return;
        }
        processedCount := processedCount + 1;
      } else if child.Directory? {
        StepPastDirectory(children, i, PowerSave, md);
      } else {
        StepOverDocument(children, i, PowerSave, md);
        AppendAssociates(start, WalkChildren(children[..i], PowerSave, md).songs, FileSongs(child, md));
        ScanFile(child, songs, md);
      }
    }
    assert children[..|children|] == children;
    return true;
  }

  /**
   * `scanMusicFolder`: resolve the folder, pick the policy from the power
   * state, walk, and return what was collected. It never fails: an unresolved
   * folder gives no songs and an exception mid-walk keeps the songs found so far.
   */
  method ScanMusicFolder(folderUri: string, tree: map<string, Entry>, powerSave: bool, md: Metadata)
    returns (songs: seq<Song>)
    ensures songs == ScanResult(folderUri, tree, powerSave, md)
    ensures folderUri !in tree ==> songs == []
  {
    var list := new SongList();
    if folderUri in tree {
      var root := tree[folderUri];
      var completed;
      if powerSave {
        completed := ScanDirectoryOptimized(root, list, md);
      } else {
        completed := ScanDirectoryRecursive(root, list, md);
      }
    }
    songs := list.items;
  }

  // ---------------------------------------------------------------------
  // Properties of the walk

  /** No directory reachable from `e` throws when listed. */
  predicate NoFailures(e: Entry)
    decreases e
  {
    e.Directory? ==> !e.listingFails && NoFailuresIn(e.children)
  }

  predicate NoFailuresIn(cs: seq<Entry>)
    decreases cs
  {
    cs != [] ==> NoFailuresIn(cs[..|cs| - 1]) && NoFailures(cs[|cs| - 1])
  }

  /** The URIs of the audio files at any depth below the directory `e`, in depth-first order. */
  function AudioFileUris(e: Entry): seq<Uri>
    decreases e
  {
    if e.Directory? then AudioFileUrisIn(e.children) else []
  }

  function AudioFileUrisIn(cs: seq<Entry>): seq<Uri>
    decreases cs
  {
    if cs == [] then []
    else
      var c := cs[|cs| - 1];
      AudioFileUrisIn(cs[..|cs| - 1]) + (if c.Directory? then AudioFileUris(c) else if IsScannedFile(c) then [c.uri.value] else [])
  }

  /** The URIs of some songs, in their order. */
  function SongUris(songs: seq<Song>): (us: seq<Uri>)
    ensures |us| == |songs| && forall i :: 0 <= i < |songs| ==> us[i] == songs[i].uri
  {
    seq(|songs|, i requires 0 <= i < |songs| => songs[i].uri)
  }

  /**
   * Without exceptions, the normal scan finishes, and its songs' URIs are the
   * audio files' URIs in depth-first order: one song per audio file at every
   * depth, none dropped, none repeated.
   */
  lemma {:induction false} NormalScanKeepsEveryAudioFile(e: Entry, md: Metadata)
    requires NoFailures(e)
    ensures WalkEntry(e, Normal, md).completed
    ensures SongUris(WalkEntry(e, Normal, md).songs) == AudioFileUris(e)
    ensures |WalkEntry(e, Normal, md).songs| == |AudioFileUris(e)|
    ensures forall u :: u in AudioFileUris(e) ==> exists s :: s in WalkEntry(e, Normal, md).songs && s.uri == u
    decreases e
  {
    var songs := WalkEntry(e, Normal, md).songs;
    if e.Directory? {
      NormalScanKeepsEveryAudioFileIn(e.children, md);
    }
    forall u | u in AudioFileUris(e)
      ensures exists s :: s in songs && s.uri == u
    {
      var i :| 0 <= i < |AudioFileUris(e)| && AudioFileUris(e)[i] == u;
      assert songs[i] in songs && songs[i].uri == u;
    }
  }

  lemma {:induction false} NormalScanKeepsEveryAudioFileIn(cs: seq<Entry>, md: Metadata)
    requires NoFailuresIn(cs)
    ensures WalkChildren(cs, Normal, md).completed
    ensures SongUris(WalkChildren(cs, Normal, md).songs) == AudioFileUrisIn(cs)
    decreases cs
  {
    if cs != [] {
      var before := cs[..|cs| - 1];
      var c := cs[|cs| - 1];
      NormalScanKeepsEveryAudioFileIn(before, md);
      var w := WalkChildren(before, Normal, md);
      var added := if c.Directory? then WalkEntry(c, Normal, md).songs else FileSongs(c, md);
      if c.Directory? {
        NormalScanKeepsEveryAudioFile(c, md);
      }
      assert WalkChildren(cs, Normal, md).songs == w.songs + added;
      assert SongUris(added) == (if c.Directory? then AudioFileUris(c) else if IsScannedFile(c) then [c.uri.value] else []);
      SongUrisAppend(w.songs, added);
    }
  }

  /** The URIs of two lists of songs, one after the other. */
  lemma SongUrisAppend(a: seq<Song>, b: seq<Song>)
    ensures SongUris(a + b) == SongUris(a) + SongUris(b)
  {
  }

  /**
   * Under either policy, every song comes from an audio file of the tree and
   * carries the scanner's guarantees (placeholder names, tempo range, mood).
   */
  lemma {:induction false} ScannedSongsComeFromAudioFiles(e: Entry, p: Policy, md: Metadata)
    ensures forall s :: s in WalkEntry(e, p, md).songs ==> s.uri in AudioFileUris(e) && WellFormedScanned(s)
    decreases e
  {
    if e.Directory? && !e.listingFails {
      ScannedSongsComeFromAudioFilesIn(e.children, p, md);
    }
  }

  lemma {:induction false} ScannedSongsComeFromAudioFilesIn(cs: seq<Entry>, p: Policy, md: Metadata)
    ensures forall s :: s in WalkChildren(cs, p, md).songs ==> s.uri in AudioFileUrisIn(cs) && WellFormedScanned(s)
    decreases cs
  {
    if cs != [] {
      var before := cs[..|cs| - 1];
      var c := cs[|cs| - 1];
      ScannedSongsComeFromAudioFilesIn(before, p, md);
      ScannedSongsComeFromAudioFiles(c, p, md);
    }
  }

  /**
   * Depth-first order: without exceptions, the songs of two runs of children
   * are the songs of the first run followed by those of the second.
   */
  lemma {:induction false} NormalScanInChildOrder(cs1: seq<Entry>, cs2: seq<Entry>, md: Metadata)
    requires WalkChildren(cs1, Normal, md).completed
    ensures WalkChildren(cs1 + cs2, Normal, md) ==
            Walk(WalkChildren(cs1, Normal, md).songs + WalkChildren(cs2, Normal, md).songs,
                 WalkChildren(cs2, Normal, md).completed)
    decreases |cs2|
  {
    var s1 := WalkChildren(cs1, Normal, md).songs;
    if cs2 == [] {
      assert cs1 + cs2 == cs1;
      assert s1 + [] == s1;
    } else {
      var init := cs2[..|cs2| - 1];
      var c := cs2[|cs2| - 1];
      assert cs2 == init + [c];
      assert cs1 + cs2 == (cs1 + init) + [c];
      NormalScanInChildOrder(cs1, init, md);
      WalkAppend(cs1 + init, c, Normal, md);
      WalkAppend(init, c, Normal, md);
      var w := WalkChildren(init, Normal, md);
      if w.completed {
        var added := if c.Directory? then WalkEntry(c, Normal, md).songs else FileSongs(c, md);
        AppendAssociates(s1, w.songs, added);
      }
    }
  }

  /**
   * An exception stops the scan where it happens: the songs of the children
   * before a directory whose listing throws are kept, nothing after it is
   * scanned, and the walk reports the failure.
   */
  lemma {:induction false} FailureKeepsEarlierSongs(cs1: seq<Entry>, d: Entry, cs2: seq<Entry>, p: Policy, md: Metadata)
    requires d.Directory? && d.listingFails
    requires WalkChildren(cs1, p, md).completed && Descends(cs1, p)
    ensures WalkChildren(cs1 + [d] + cs2, p, md) == Walk(WalkChildren(cs1, p, md).songs, false)
    decreases |cs2|
  {
    if cs2 == [] {
      WalkAppend(cs1, d, p, md);
      assert cs1 + [d] + cs2 == cs1 + [d];
    } else {
      var init := cs2[..|cs2| - 1];
      FailureKeepsEarlierSongs(cs1, d, init, p, md);
      WalkAppend(cs1 + [d] + init, cs2[|cs2| - 1], p, md);
      assert cs1 + [d] + init + [cs2[|cs2| - 1]] == cs1 + [d] + cs2;
    }
  }

  /** In power-save mode a directory after the 20th is skipped entirely. */
  lemma PowerSaveSkipsLaterDirectory(cs: seq<Entry>, d: Entry, md: Metadata)
    requires d.Directory? && DirCount(cs) >= PowerSaveMaxDirs
    ensures WalkChildren(cs + [d], PowerSave, md) == WalkChildren(cs, PowerSave, md)
  {
    assert (cs + [d])[..|cs|] == cs;
  }

  /** ... while the files at that level are still scanned. */
  lemma PowerSaveKeepsFiles(cs: seq<Entry>, f: Entry, md: Metadata)
    requires f.Document? && WalkChildren(cs, PowerSave, md).completed
    ensures WalkChildren(cs + [f], PowerSave, md).songs == WalkChildren(cs, PowerSave, md).songs + FileSongs(f, md)
  {
    assert (cs + [f])[..|cs|] == cs;
  }

  /** Without exceptions, the power-save catalog is an ordered sublist of the normal one. */
  lemma {:induction false} PowerSaveIsSublistOfNormal(e: Entry, md: Metadata)
    requires NoFailures(e)
    ensures IsSubsequence(WalkEntry(e, PowerSave, md).songs, WalkEntry(e, Normal, md).songs)
    decreases e
  {
    if e.Directory? {
      PowerSaveIsSublistOfNormalIn(e.children, md);
    } else {
      EmptySubsequence(WalkEntry(e, Normal, md).songs);
    }
  }

  lemma {:induction false} PowerSaveIsSublistOfNormalIn(cs: seq<Entry>, md: Metadata)
    requires NoFailuresIn(cs)
    ensures WalkChildren(cs, PowerSave, md).completed
    ensures IsSubsequence(WalkChildren(cs, PowerSave, md).songs, WalkChildren(cs, Normal, md).songs)
    decreases cs
  {
    if cs == [] {
      EmptySubsequence<Song>([]);
    } else {
      var before := cs[..|cs| - 1];
      var c := cs[|cs| - 1];
      PowerSaveIsSublistOfNormalIn(before, md);
      NormalScanKeepsEveryAudioFileIn(before, md);
      var ps := WalkChildren(before, PowerSave, md).songs;
      var ns := WalkChildren(before, Normal, md).songs;
      if c.Directory? {
        PowerSaveCompletes(c, md);
        NormalScanKeepsEveryAudioFile(c, md);
        if Descends(before, PowerSave) {
          PowerSaveIsSublistOfNormal(c, md);
          SubsequenceConcat(ps, ns, WalkEntry(c, PowerSave, md).songs, WalkEntry(c, Normal, md).songs);
        } else {
          SubsequenceExtend(ps, ns, WalkEntry(c, Normal, md).songs);
        }
      } else {
        SubsequenceReflexive(FileSongs(c, md));
        SubsequenceConcat(ps, ns, FileSongs(c, md), FileSongs(c, md));
      }
    }
  }

  /** Without exceptions, the power-save walk finishes too. */
  lemma {:induction false} PowerSaveCompletes(e: Entry, md: Metadata)
    requires NoFailures(e)
    ensures WalkEntry(e, PowerSave, md).completed
    decreases e
  {
    if e.Directory? {
      PowerSaveIsSublistOfNormalIn(e.children, md);
    }
  }

  /** Every directory at any depth has at most 20 subdirectories. */
  predicate FewSubdirectories(e: Entry)
    decreases e
  {
    e.Directory? ==> DirCount(e.children) <= PowerSaveMaxDirs && FewSubdirectoriesIn(e.children)
  }

  predicate FewSubdirectoriesIn(cs: seq<Entry>)
    decreases cs
  {
    cs != [] ==> FewSubdirectoriesIn(cs[..|cs| - 1]) && FewSubdirectories(cs[|cs| - 1])
  }

  /** With at most 20 subdirectories per level, power-save mode finds exactly what the normal scan finds. */
  lemma {:induction false} PowerSaveMatchesNormalOnSmallTrees(e: Entry, md: Metadata)
    requires FewSubdirectories(e)
    ensures WalkEntry(e, PowerSave, md) == WalkEntry(e, Normal, md)
    decreases e
  {
    if e.Directory? {
      PowerSaveMatchesNormalIn(e.children, md);
    }
  }

  lemma {:induction false} PowerSaveMatchesNormalIn(cs: seq<Entry>, md: Metadata)
    requires DirCount(cs) <= PowerSaveMaxDirs && FewSubdirectoriesIn(cs)
    ensures WalkChildren(cs, PowerSave, md) == WalkChildren(cs, Normal, md)
    decreases cs
  {
    if cs != [] {
      var before := cs[..|cs| - 1];
      PowerSaveMatchesNormalIn(before, md);
      PowerSaveMatchesNormalOnSmallTrees(cs[|cs| - 1], md);
    }
  }

  // A folder with an indexed `a.mp3`, an unindexed `s/b.flac` and an `n.txt`.
  const ExampleUriA: Uri := Uri("m/a.mp3", Some("/m/a.mp3"))
  const ExampleUriB: Uri := Uri("m/s/b.flac", Some("/m/s/b.flac"))
  const ExampleFileA: Entry := Document(Some("a.mp3"), true, Some("audio/mpeg"), Some(ExampleUriA))
  const ExampleFileB: Entry := Document(Some("b.flac"), true, Some("audio/flac"), Some(ExampleUriB))
  const ExampleNotes: Entry := Document(Some("n.txt"), true, Some("text/plain"), Some(Uri("m/n.txt", Some("/m/n.txt"))))
  const ExampleRow: IndexRow := IndexRow(1, Some("A"), Some("X"), Some("Y"), 7, 200000)
  const ExampleMetadata: Metadata := Metadata(Indexed(map[ExampleUriA.text := ExampleRow]), _ => 100)
  const ExampleChildren: seq<Entry> := [ExampleFileA, Directory(Some("s"), [ExampleFileB], false), ExampleNotes]

  /** The indexed file takes the row's metadata and the drawn tempo. */
  lemma ExampleIndexedFile()
    ensures FileSongs(ExampleFileA, ExampleMetadata) ==
            [Song(1, "A", "X", "Y", 7, 200000, ExampleUriA, WithAppendedId(AlbumArtBase, 7), 100, "Neutral")]
  {
    var song := Song(1, "A", "X", "Y", 7, 200000, ExampleUriA, WithAppendedId(AlbumArtBase, 7), 100, "Neutral");
    assert IsAudioFile(Some("audio/mpeg")) by {
      assert EqualsIgnoreCase("audio/mpeg", AudioMimeTypes[0]);
    }
    assert IsScannedFile(ExampleFileA);
    assert !ContainsIgnoreCase("A", "remix");
    assert SongOfIndexRow(ExampleRow, ExampleUriA, 100) == Some(song);
    assert CreateSongFromUri(ExampleMetadata, ExampleUriA, "a.mp3") == Some(song);
  }

  /** The unindexed file falls back to its name without the extension. */
  lemma ExampleUnindexedFile()
    ensures FileSongs(ExampleFileB, ExampleMetadata) == [FallbackSong(ExampleUriB, "b.flac")]
    ensures FallbackSong(ExampleUriB, "b.flac").title == "b"
  {
    assert IsAudioFile(Some("audio/flac")) by {
      assert EqualsIgnoreCase("audio/flac", AudioMimeTypes[3]);
    }
    assert |ExampleUriB.text| != |ExampleUriA.text|;
    assert LastIndexOf("b.flac", '.') == 1;
  }

  /** A text file adds nothing. */
  lemma ExampleTextFile()
    ensures FileSongs(ExampleNotes, ExampleMetadata) == []
  {
    AudioFileExamples();
  }

  /** The example's subfolder walks to the fallback song of `b.flac`. */
  lemma ExampleSubfolder()
    ensures WalkEntry(Directory(Some("s"), [ExampleFileB], false), Normal, ExampleMetadata) ==
            Walk([FallbackSong(ExampleUriB, "b.flac")], true)
  {
    ExampleUnindexedFile();
    assert [ExampleFileB] == [] + [ExampleFileB];
    WalkAppend([], ExampleFileB, Normal, ExampleMetadata);
  }

  /** The example folder's children walk to the indexed song, then the fallback song. */
  lemma ExampleChildrenWalk()
    ensures WalkChildren(ExampleChildren, Normal, ExampleMetadata) ==
            Walk(FileSongs(ExampleFileA, ExampleMetadata) + [FallbackSong(ExampleUriB, "b.flac")], true)
  {
    ExampleTextFile();
    ExampleSubfolder();
    var md := ExampleMetadata;
    var sub := Directory(Some("s"), [ExampleFileB], false);
    var songsA := FileSongs(ExampleFileA, md);
    assert [ExampleFileA] == [] + [ExampleFileA];
    WalkAppend([], ExampleFileA, Normal, md);
    assert WalkChildren([ExampleFileA], Normal, md) == Walk(songsA, true);
    WalkAppend([ExampleFileA], sub, Normal, md);
    assert [ExampleFileA] + [sub] == [ExampleFileA, sub];
    assert WalkChildren([ExampleFileA, sub], Normal, md) == Walk(songsA + [FallbackSong(ExampleUriB, "b.flac")], true);
    WalkAppend([ExampleFileA, sub], ExampleNotes, Normal, md);
    assert [ExampleFileA, sub] + [ExampleNotes] == ExampleChildren;
  }

  /**
   * The example scans to two songs in folder order: the indexed metadata for
   * `a.mp3`, then the file name and placeholders for `s/b.flac`.
   */
  lemma ScanExample()
    ensures var songs := ScanResult("m", map["m" := Directory(Some("m"), ExampleChildren, false)], false, ExampleMetadata);
            |songs| == 2 &&
            songs[0].title == "A" && songs[0].artist == "X" && songs[0].duration == 200000 &&
            songs[0].mood == "Neutral" && songs[0].bpm == 100 &&
            songs[1].title == "b" && songs[1].artist == UnknownArtist && songs[1].duration == 0 && songs[1].bpm == 120
  {
    ExampleIndexedFile();
    ExampleUnindexedFile();
    ExampleChildrenWalk();
  }
}
