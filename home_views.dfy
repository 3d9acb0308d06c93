/**
 * The list and string computations of the home screens: the library's
 * block-list filter, the search filter, the three-song mix, a folder's display
 * name and the folder switch that edits the block list.
 */
module HomeViews {
  import opened Wrappers
  import opened Strings
  import opened Seqs
  import opened Media
  import opened Settings

  /** `song.uri.path ?: ""`. */
  function SongPath(s: Song): string {
    s.uri.path.GetOr("")
  }

  /** Some blocked string occurs in the path (`blockedFolders.any { songPath.contains(it) }`). */
  predicate IsBlocked(path: string, blocked: set<string>) {
    exists b | b in blocked :: Contains(path, b)
  }

  /** The library screen's list: the songs whose path contains no blocked string, in library order. */
  function BlockFilter(songs: seq<Song>, blocked: set<string>): (r: seq<Song>)
    ensures IsSubsequence(r, songs)
    ensures |r| == CountWhere(songs, s => !IsBlocked(SongPath(s), blocked))
    ensures forall s :: s in r <==> s in songs && !IsBlocked(SongPath(s), blocked)
  {
    var keep := s => !IsBlocked(SongPath(s), blocked);
    FilterIsSublist(songs, keep);
    forall s ensures s in Filter(songs, keep) <==> s in songs && keep(s) {
      FilterMembership(songs, keep, s);
    }
    Filter(songs, keep)
  }

  /** Filtering the filtered list again changes nothing. */
  lemma BlockFilterIdempotent(songs: seq<Song>, blocked: set<string>)
    ensures BlockFilter(BlockFilter(songs, blocked), blocked) == BlockFilter(songs, blocked)
  {
    FilterIdempotent(songs, s => !IsBlocked(SongPath(s), blocked));
  }

  /** With nothing blocked, the whole library is listed. */
  lemma NothingBlockedKeepsAll(songs: seq<Song>)
    ensures BlockFilter(songs, {}) == songs
  {
    FilterKeepsAll(songs, s => !IsBlocked(SongPath(s), {}));
  }

  /** The empty string is contained in every path, so blocking it hides every song. */
  lemma BlockingEmptyStringHidesAll(songs: seq<Song>, blocked: set<string>)
    requires "" in blocked
    ensures BlockFilter(songs, blocked) == []
  {
    forall i | 0 <= i < |songs|
      ensures IsBlocked(SongPath(songs[i]), blocked)
    {
      ContainsEmpty(SongPath(songs[i]));
    }
    FilterDropsAll(songs, s => !IsBlocked(SongPath(s), blocked));
  }

  /** A song without a path is hidden only by the empty string. */
  lemma PathlessSongHiddenOnlyByEmpty(s: Song, blocked: set<string>)
    requires s.uri.path.None?
    ensures IsBlocked(SongPath(s), blocked) <==> "" in blocked
  {
    if "" in blocked {
      ContainsEmpty("");
    }
  }

  /** A song matches a query when its title or its artist contains the query, ignoring case. */
  predicate MatchesQuery(s: Song, query: string) {
    ContainsIgnoreCase(s.title, query) || ContainsIgnoreCase(s.artist, query)
  }

  /** The search screen's list: nothing for an empty query, otherwise the matching songs in library order. */
  function SearchResults(songs: seq<Song>, query: string): (r: seq<Song>)
    ensures query == "" ==> r == []
    ensures query != "" ==> IsSubsequence(r, songs)
    ensures query != "" ==> |r| == CountWhere(songs, s => MatchesQuery(s, query))
    ensures query != "" ==> forall s :: s in r <==> s in songs && MatchesQuery(s, query)
  {
    if query == "" then []
    else
      var keep := s => MatchesQuery(s, query);
      FilterIsSublist(songs, keep);
      forall s ensures s in Filter(songs, keep) <==> s in songs && keep(s) {
        FilterMembership(songs, keep, s);
      }
      Filter(songs, keep)
  }

  /** A song whose title contains the query exactly is found whatever the case. */
  lemma SearchFindsExactTitle(songs: seq<Song>, query: string, i: int)
    requires query != "" && 0 <= i < |songs| && Contains(songs[i].title, query)
    ensures songs[i] in SearchResults(songs, query)
  {
    ContainsIgnoresCase(songs[i].title, query);
  }

  /** An example: the query "rAIN" finds the title "Rain". */
  lemma SearchIgnoresCaseExample(s: Song)
    requires s.title == "Rain"
    ensures s in SearchResults([s], "rAIN")
  {
    assert RegionMatchesIgnoreCase(s.title, 0, "rAIN");
  }

  /** Queries that are equal ignoring ASCII case find the same songs, in the same order. */
  lemma SearchIgnoresQueryCase(songs: seq<Song>, q1: string, q2: string)
    requires EqualsIgnoreCase(q1, q2)
    ensures SearchResults(songs, q1) == SearchResults(songs, q2)
  {
    if q1 != "" {
      forall i | 0 <= i < |songs|
        ensures MatchesQuery(songs[i], q1) == MatchesQuery(songs[i], q2)
      {
        ContainsIgnoreCaseOfEqualSubs(songs[i].title, q1, q2);
        ContainsIgnoreCaseOfEqualSubs(songs[i].artist, q1, q2);
      }
      FilterCongruent(songs, s => MatchesQuery(s, q1), s => MatchesQuery(s, q2));
    }
  }

  /** Two songs whose titles and artists are equal ignoring ASCII case match the same queries. */
  lemma MatchIgnoresSongCase(s1: Song, s2: Song, query: string)
    requires EqualsIgnoreCase(s1.title, s2.title) && EqualsIgnoreCase(s1.artist, s2.artist)
    ensures MatchesQuery(s1, query) <==> MatchesQuery(s2, query)
  {
    ContainsIgnoreCaseOfEqualStrings(s1.title, s2.title, query);
    ContainsIgnoreCaseOfEqualStrings(s1.artist, s2.artist, query);
  }

  const MixSize: nat := 3

  /**
   * The home screen's mix: the first three songs of a shuffle of the library
   * (`shuffled().take(3)`). The shuffle is supplied: any rearrangement of the
   * library.
   */
  function Mix(songs: seq<Song>, shuffled: seq<Song>): (r: seq<Song>)
    requires multiset(shuffled) == multiset(songs)
    ensures |r| == if |songs| < MixSize then |songs| else MixSize
    ensures multiset(r) <= multiset(songs)
    ensures forall s :: s in r ==> s in songs
  {
    assert |shuffled| == |multiset(shuffled)| == |songs|;
    var k := if |shuffled| < MixSize then |shuffled| else MixSize;
    assert shuffled == shuffled[..k] + shuffled[k..];
    assert multiset(shuffled) == multiset(shuffled[..k]) + multiset(shuffled[k..]);
    forall s | s in shuffled[..k] ensures s in songs {
      assert s in multiset(shuffled);
    }
    shuffled[..k]
  }

  /** With at most three songs, the mix holds the whole library, in shuffled order. */
  lemma SmallLibraryMixIsWholeLibrary(songs: seq<Song>, shuffled: seq<Song>)
    requires multiset(shuffled) == multiset(songs) && |songs| <= MixSize
    ensures multiset(Mix(songs, shuffled)) == multiset(songs)
  {
    assert |shuffled| == |multiset(shuffled)| == |songs|;
    assert shuffled[..|shuffled|] == shuffled;
  }

  /** The label of a folder row: the text after the last `/`, or the whole path without one. */
  function FolderDisplayName(folder: string): (name: string)
    ensures '/' !in name
    ensures |name| <= |folder| && folder == folder[..|folder| - |name|] + name
    ensures '/' !in folder ==> name == folder
    ensures '/' in folder ==> folder[|folder| - |name| - 1] == '/'
  {
    var name := SubstringAfterLast(folder, '/');
    assert folder == folder[..|folder| - |name|] + folder[|folder| - |name|..];
    name
  }

  /** Three concrete paths, including one with a trailing slash, which shows an empty label. */
  lemma FolderDisplayNameExamples()
    ensures FolderDisplayName("/a/Jazz") == "Jazz"
    ensures FolderDisplayName("Jazz/") == ""
    ensures FolderDisplayName("Jazz") == "Jazz"
  {
    var s := "/a/Jazz";
    assert s[2] == '/' && s[3] != '/' && s[4] != '/' && s[5] != '/' && s[6] != '/';
    assert LastIndexOf(s, '/') == 2;
    assert "Jazz/"[4] == '/';
    assert '/' !in "Jazz" by {
      assert forall j :: 0 <= j < 4 ==> "Jazz"[j] != '/';
    }
  }

  /** Whether a folder row's switch shows the folder as scanned (`checked = !isBlocked`). */
  predicate IsSwitchOn(blocked: set<string>, folder: string) {
    folder !in blocked
  }

  /** The folder row's `onToggle`: allowing a folder unblocks it, disallowing blocks it. */
  function Toggle(p: Preferences, folder: string, allowed: bool): (q: Preferences)
    ensures allowed ==> q == WithFolderRemoved(p, folder)
    ensures !allowed ==> q == WithFolderAdded(p, folder)
  {
    if allowed then WithFolderRemoved(p, folder) else WithFolderAdded(p, folder)
  }

  /**
   * After a toggle the switch shows what was chosen, every other folder's
   * switch is as it was, and the theme is untouched.
   */
  lemma ToggleShowsChoice(p: Preferences, folder: string, allowed: bool, other: string)
    requires other != folder
    ensures IsSwitchOn(BlockedFoldersOf(Toggle(p, folder, allowed)), folder) == allowed
    ensures IsSwitchOn(BlockedFoldersOf(Toggle(p, folder, allowed)), other) == IsSwitchOn(BlockedFoldersOf(p), other)
    ensures ThemeOf(Toggle(p, folder, allowed)) == ThemeOf(p)
  {
  }

  /** Switching a folder off and on again restores the blocked set when it was on to begin with. */
  lemma ToggleOffThenOn(p: Preferences, folder: string)
    requires IsSwitchOn(BlockedFoldersOf(p), folder)
    ensures BlockedFoldersOf(Toggle(Toggle(p, folder, false), folder, true)) == BlockedFoldersOf(p)
  {
    RemoveUndoesAdd(p, folder);
  }
}
