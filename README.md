# calmplayer core, modelled in Dafny

calmplayer is an Android music player. This project models the logic around its song library and playback session, and proves properties of that model:

- **The library scanner** (`MusicScanner`). It walks a granted folder tree depth first and keeps the files whose MIME type is audio. It turns each kept file into one `Song`. The song comes from the system media index when the index has a row for the file. Otherwise it is derived from the file name. In power-save mode only the first 20 subdirectories of each directory are descended into.
- **The media-index reader** (`MediaLibraryHelper`): the `Song` and `Album` types, the cursor loop of `getAllSongs`, and the `groupBy` that makes albums.
- **Two session holders.**
  - `PlayerViewModel` shows the chosen song at once and keeps a map from media id to song. It owns the progress tick and the sleep timer.
  - `MusicViewModel` looks songs up by linear search and forwards skips unguarded. It loads the library by scanning the chosen folder.
  - Both drive an optional media controller.
- **The settings store** (`SettingsStore`): the theme and the set of blocked folders.
- **The home-screen computations**: the block-list filter, the search filter, the three-song mix, a folder's display name and the folder switch.
- **`formatTime`** of the now-playing sheet.
- **The build script's version counter** (`getAutoVersionInfo`).

Kotlin's numeric semantics are written out where they matter, in `numbers.dfy`:

- 32-bit `Int` wrap-around (`WrapInt`);
- JVM truncating division and remainder;
- `toString` and `toInt`.

`strings.dfy` holds the string operations: ASCII case-insensitive matching, `lastIndexOf`, `substringBeforeLast` and `substringAfterLast`.

The platform is replaced by inputs:

| Platform part | Modelled as |
|---|---|
| Document tree | A map from folder URI to an `Entry` tree. A directory may throw when listed. |
| Media index | `MediaIndex`: no cursor, a query that throws, or rows keyed by URI. |
| Power state | A flag. |
| `(70..130).random()` | A function from the file's URI to a value in 70..130. |
| `shuffled()` | A supplied rearrangement of the library. |
| `MediaController` | `Playback.Engine`. Its status fields are what the player reports (`Report`). `commands` records everything it was told. |

The sleep-timer coroutine is a method. It takes the number of its delays that end before it is cancelled. Cancelling a library scan is a flag.

Where the code says one thing in a comment or a declaration and does another, the model follows what the code does:

- **A cancelled scan empties the library.** `scanAndLoadLibrary` (`domain/MusicViewModel.kt:90-103`) catches every `Exception` at lines 96-98, under the comment "Handle scanning error". That includes the coroutine's cancellation.
- **The pause comes 303 s after the fade starts.** The comment at `domain/PlayerViewModel.kt:150` promises a fade "over final 5 minutes". The loop at lines 164-168 waits one more 3 s step after setting the volume to 0, and the pause at line 170 comes after it.
- **The fade always lasts 300 s.** The lead-in at `domain/PlayerViewModel.kt:156` is clamped to 0, but the loop still runs all 101 steps. So a timer shorter than five minutes ends later than requested.
- **`Song` has `bpm` and `mood` fields.** The data class at `data/MediaLibraryHelper.kt:11-20` declares eight fields. The scanner builds songs with both extra fields (`data/MusicScanner.kt:157-168` and 182-193), so the model's `Song` has them. The eight-argument construction at `data/MediaLibraryHelper.kt:91` gets the values 120 and "Neutral".
- **No stored folder URI.** `domain/MusicViewModel.kt:50` and 107 read `settingsStore.musicFolderUriFlow`, but `data/SettingsStore.kt` does not define it. So the folder URI is a parameter of the scan trigger.

(Paths in this list are relative to `app/src/main/java/com/mohamed/calmplayer/`.)

## Model

| member | source | states |
|---|---|---|
| Numbers.WrapInt | app/build.gradle.kts:25-26 | The kept `Int` is in range, congruent to the exact result modulo 2^32, and equal to it when there is no overflow |
| Numbers.WrapIntCongruent | app/src/main/java/com/mohamed/calmplayer/domain/PlayerViewModel.kt:155-156 | Values congruent modulo 2^32 wrap to the same `Int`, so an overflow in `minutes * 60` washes out when subtracting 300 brings it back in range |
| Numbers.TruncDiv | app/src/main/java/com/mohamed/calmplayer/ui/components/PlayerUI.kt:250-251 | JVM division rounds toward zero for both signs of the dividend |
| Numbers.TruncRem | app/src/main/java/com/mohamed/calmplayer/ui/components/PlayerUI.kt:252 | The remainder completes the division identity, is smaller than the divisor in magnitude and takes the dividend's sign |
| Numbers.NatToString | app/src/main/java/com/mohamed/calmplayer/ui/components/PlayerUI.kt:253 | A number's decimal text is non-empty, all digits, and has no leading zero except for 0 itself |
| Numbers.IntToString | app/src/main/java/com/mohamed/calmplayer/domain/PlayerViewModel.kt:114 | `toString` is the digits of the magnitude, preceded by a minus sign exactly for negative values |
| Numbers.ParseDigitsAccepts | app/build.gradle.kts:19-20 | The digit parser behind `toInt` succeeds exactly on strings made only of decimal digits |
| Numbers.ToInt | app/build.gradle.kts:19-20 | An accepted counter always fits an `Int` |
| Numbers.ToIntAccepts | app/build.gradle.kts:19-20 | `toInt` accepts only numerals: an optional `+` or `-` and one or more ASCII digits. It accepts every numeral of at most nine digits |
| Numbers.NatToStringRoundTrip | app/build.gradle.kts:19-28 | Parsing the digits written for a number gives the number back |
| Numbers.NatToStringInjective | app/src/main/java/com/mohamed/calmplayer/domain/PlayerViewModel.kt:108 | Two numbers have the same decimal text if and only if they are equal |
| Numbers.IntToStringRoundTrip | app/build.gradle.kts:19-28 | `toInt` reads back every `Int` that `toString` writes, negative ones included |
| Numbers.IntToStringInjective | app/src/main/java/com/mohamed/calmplayer/domain/PlayerViewModel.kt:108 | Ids have equal strings if and only if they are equal, so keying songs by `id.toString()` loses nothing |
| Strings.ContainsEmpty | app/src/main/java/com/mohamed/calmplayer/ui/screens/HomeScreens.kt:82 | Every string contains the empty string |
| Strings.UpperAscii | app/src/main/java/com/mohamed/calmplayer/ui/screens/HomeScreens.kt:424-425 | Lower-case ASCII letters map to their upper case; every other character is left as it is |
| Strings.ContainsIgnoresCase | app/src/main/java/com/mohamed/calmplayer/ui/screens/HomeScreens.kt:424-425 | An exact occurrence is also an occurrence ignoring case |
| Strings.ContainsIgnoreCaseOfEqualSubs | app/src/main/java/com/mohamed/calmplayer/ui/screens/HomeScreens.kt:424-425 | Two looked-for strings that are equal ignoring case occur in the same strings |
| Strings.ContainsIgnoreCaseOfEqualStrings | app/src/main/java/com/mohamed/calmplayer/ui/screens/HomeScreens.kt:424-425 | Two strings that are equal ignoring case contain the same strings ignoring case |
| Strings.LastIndexOf | app/src/main/java/com/mohamed/calmplayer/data/MusicScanner.kt:181 | The result holds the character with none after it, and is -1 exactly when the character is absent |
| Strings.SubstringBeforeLast | app/src/main/java/com/mohamed/calmplayer/data/MusicScanner.kt:181 | The result is a prefix ending just before the last occurrence of the character, or the whole string without one |
| Strings.SubstringAfterLast | app/src/main/java/com/mohamed/calmplayer/ui/screens/HomeScreens.kt:836 | The result is the suffix after the last occurrence and does not contain the character; it is the whole string when the character is absent |
| Seqs.Filter | app/src/main/java/com/mohamed/calmplayer/ui/screens/HomeScreens.kt:79-84 | `filter` returns no more elements than it was given, and each of them passes the test |
| Seqs.FilterIsSublist | app/src/main/java/com/mohamed/calmplayer/ui/screens/HomeScreens.kt:79-84 | `filter` keeps an order-preserving sublist of its input, one element per passing input element |
| Seqs.FilterMembership | app/src/main/java/com/mohamed/calmplayer/ui/screens/HomeScreens.kt:79-84 | An element is in the filtered list if and only if it is in the input and passes |
| Seqs.FilterIdempotent | app/src/main/java/com/mohamed/calmplayer/ui/screens/HomeScreens.kt:79-84 | Filtering twice with the same test is filtering once |
| Seqs.FilterKeepsAll | app/src/main/java/com/mohamed/calmplayer/ui/screens/HomeScreens.kt:79-84 | When everything passes, the filter returns its input |
| Seqs.FilterDropsAll | app/src/main/java/com/mohamed/calmplayer/ui/screens/HomeScreens.kt:79-84 | When nothing passes, the filter returns nothing |
| Seqs.FilterAppend | app/src/main/java/com/mohamed/calmplayer/data/MediaLibraryHelper.kt:105 | Filtering a list with one more element at the end adds that element exactly when it passes |
| Seqs.FilterCongruent | app/src/main/java/com/mohamed/calmplayer/ui/screens/HomeScreens.kt:419-428 | Two tests that agree on every element filter the list alike |
| Media.SongOfRow | app/src/main/java/com/mohamed/calmplayer/data/MediaLibraryHelper.kt:77-91 | A row yields a song exactly when its title, artist and album are non-null, and the song keeps the row's id, album id and duration |
| Media.ConvertedPrefix | app/src/main/java/com/mohamed/calmplayer/data/MediaLibraryHelper.kt:76-93 | The songs read before the first failing row are never more than the rows |
| Media.ConvertedPrefixReads | app/src/main/java/com/mohamed/calmplayer/data/MediaLibraryHelper.kt:76-93 | Each song read is its row converted, and the row after the last one read fails to convert |
| Media.ConvertedPrefixUnique | app/src/main/java/com/mohamed/calmplayer/data/MediaLibraryHelper.kt:76-97 | Those facts and the length bound pin the songs read down: any list satisfying them is the converted prefix |
| Media.SongsRead | app/src/main/java/com/mohamed/calmplayer/data/MediaLibraryHelper.kt:59-98 | A query without a cursor reads nothing; a cursor reads the converted prefix of its rows |
| Media.GetAllSongs | app/src/main/java/com/mohamed/calmplayer/data/MediaLibraryHelper.kt:39-99 | No cursor or a failing query gives no songs. Otherwise the songs are the converted rows in cursor order, up to the first row that throws, which ends the list. The result is `SongsRead` of the query |
| Media.AlbumIds | app/src/main/java/com/mohamed/calmplayer/data/MediaLibraryHelper.kt:105 | The group keys are pairwise distinct and are exactly the album ids that occur |
| Media.SongsOfAlbum | app/src/main/java/com/mohamed/calmplayer/data/MediaLibraryHelper.kt:105 | A group holds only songs of the catalog with that album id, and is non-empty exactly when the id occurs |
| Media.SongsOfAlbumIsFilter | app/src/main/java/com/mohamed/calmplayer/data/MediaLibraryHelper.kt:105 | An album's group is the catalog filtered on that album id, in catalog order |
| Media.FirstIndexOfAlbum | app/src/main/java/com/mohamed/calmplayer/data/MediaLibraryHelper.kt:105 | The index of the first song with the album id: it has the id and no earlier song does |
| Media.AlbumsOf | app/src/main/java/com/mohamed/calmplayer/data/MediaLibraryHelper.kt:104-113 | There is one album per distinct album id, and the ids are pairwise distinct. Each album counts the songs of its group, at least one. Every song's album is listed |
| Media.GroupStartsAtFirstSong | app/src/main/java/com/mohamed/calmplayer/data/MediaLibraryHelper.kt:105-108 | A group's first song is the album's first song in the catalog |
| Media.FirstIndexPrefix | app/src/main/java/com/mohamed/calmplayer/data/MediaLibraryHelper.kt:105 | Extending the catalog after an album's first song does not move that first song |
| Media.AlbumNamedByFirstSong | app/src/main/java/com/mohamed/calmplayer/data/MediaLibraryHelper.kt:108-110 | Each album's name, artist and art come from the first song of that album in the catalog |
| Media.AlbumsInFirstOccurrenceOrder | app/src/main/java/com/mohamed/calmplayer/data/MediaLibraryHelper.kt:105 | Albums appear in the order in which their ids first occur among the songs |
| Media.SumOfGroupsAppend | app/src/main/java/com/mohamed/calmplayer/data/MediaLibraryHelper.kt:105 | One more song grows the group sizes by one when its album id is among the keys, and by nothing otherwise |
| Media.GroupsPartitionSongs | app/src/main/java/com/mohamed/calmplayer/data/MediaLibraryHelper.kt:105 | Every song falls into exactly one group: the group sizes add up to the number of songs |
| Media.AlbumCountsSumToSongs | app/src/main/java/com/mohamed/calmplayer/data/MediaLibraryHelper.kt:104-113 | The albums' `numberOfSongs` add up to the number of songs |
| Media.TotalOfPrefix | app/src/main/java/com/mohamed/calmplayer/data/MediaLibraryHelper.kt:111 | Over any prefix of the albums, the song counts add up to the group sizes of their ids |
| Media.GetAllAlbums | app/src/main/java/com/mohamed/calmplayer/data/MediaLibraryHelper.kt:101-114 | The albums are the grouping of exactly the songs `getAllSongs` reads from the query, and their counts add up to the number of those songs |
| Playback.Engine.SetQueue | app/src/main/java/com/mohamed/calmplayer/domain/PlayerViewModel.kt:118 | The controller holds the new queue and start index, records the call, and its volume and reported status are unchanged |
| Playback.Engine.Send | app/src/main/java/com/mohamed/calmplayer/domain/PlayerViewModel.kt:119-120 | A transport command is recorded, and the queue, volume and reported status are unchanged |
| Playback.Engine.SetVolumePercent | app/src/main/java/com/mohamed/calmplayer/domain/PlayerViewModel.kt:166 | The volume becomes the given percent and is recorded; the queue and status are unchanged |
| Playback.MediaItemsOf | app/src/main/java/com/mohamed/calmplayer/domain/PlayerViewModel.kt:112-117 | There is one media item per song, in order, with the song's URI and its id string as media id |
| Playback.MediaIdsMatchSongIds | app/src/main/java/com/mohamed/calmplayer/domain/PlayerViewModel.kt:114 | Two queue entries share a media id if and only if their songs share an id |
| Playback.SongMapOf | app/src/main/java/com/mohamed/calmplayer/domain/PlayerViewModel.kt:108 | `associateBy` has no more entries than there are songs |
| Playback.SongMapValues | app/src/main/java/com/mohamed/calmplayer/domain/PlayerViewModel.kt:108 | Every entry maps a media id to a listed song with that media id |
| Playback.IndexOfFirst | app/src/main/java/com/mohamed/calmplayer/domain/PlayerViewModel.kt:111 | The result is the first position holding the id, or -1 exactly when no song has it |
| Playback.IndexOfFirstFindsSong | app/src/main/java/com/mohamed/calmplayer/domain/PlayerViewModel.kt:111 | With distinct ids, `indexOfFirst` finds each song at its own position |
| Playback.SongMapKeys | app/src/main/java/com/mohamed/calmplayer/domain/PlayerViewModel.kt:108 | The map's keys are exactly the songs' media ids |
| Playback.SongMapKeepsLast | app/src/main/java/com/mohamed/calmplayer/domain/PlayerViewModel.kt:108 | `associateBy` maps each key to the last song with that media id |
| Playback.FindById | app/src/main/java/com/mohamed/calmplayer/domain/MusicViewModel.kt:61-64 | A found song is the first whose media id matches. Nothing is found exactly when the media id is null or no song matches |
| Playback.MapAgreesWithFind | app/src/main/java/com/mohamed/calmplayer/domain/MusicViewModel.kt:63 | With distinct ids, the map and `find` agree on which media ids are known and on the song they give |
| Playback.MapAndFindDifferOnDuplicates | app/src/main/java/com/mohamed/calmplayer/domain/MusicViewModel.kt:63 | With a repeated id, the map gives the later song and `find` the earlier one |
| PlayerSession.QueueCommands | app/src/main/java/com/mohamed/calmplayer/domain/PlayerViewModel.kt:110-121 | `playSong` sends set-items, prepare and play. The items are the list's, starting at position 0. The start index is the song's first position, or 0 when it is absent |
| PlayerSession.SongAfterTransition | app/src/main/java/com/mohamed/calmplayer/domain/PlayerViewModel.kt:71-78 | A known media id selects the mapped song. A null or unknown id keeps the song shown before |
| PlayerSession.StartIndex | app/src/main/java/com/mohamed/calmplayer/domain/PlayerViewModel.kt:111-118 | The start index is a valid position of a non-empty list. It is the song's first position when the song is listed, and 0 otherwise |
| PlayerSession.FadeStartSeconds | app/src/main/java/com/mohamed/calmplayer/domain/PlayerViewModel.kt:155-156 | The lead-in is the 32-bit result of `minutes * 60 - 300` raised to 0. Without overflow it is `max(minutes * 60 - 300, 0)` |
| PlayerSession.FadeStartOverflow | app/src/main/java/com/mohamed/calmplayer/domain/PlayerViewModel.kt:155-156 | Three overflowing timers: 35791395 minutes gives the exact lead-in because subtracting 300 wraps back; 35791400 minutes wraps negative and is clamped to 0; 71582800 minutes wraps past zero to a lead-in of 404 s |
| PlayerSession.VolumeCommands | app/src/main/java/com/mohamed/calmplayer/domain/PlayerViewModel.kt:164-166 | The first k fade steps set the volume to 100, 99, ... percent, one percent lower per step |
| PlayerSession.SleepCommands | app/src/main/java/com/mohamed/calmplayer/domain/PlayerViewModel.kt:158-172 | A job cancelled after k < 102 delays sends k commands and no pause. A job that runs out sends 103 commands, and only then a pause |
| PlayerSession.FullFade | app/src/main/java/com/mohamed/calmplayer/domain/PlayerViewModel.kt:164-172 | A job that runs to the end lowers the volume from 100 to 0 in 101 one-percent steps, then pauses and restores 100 |
| PlayerSession.CancelledJobNeverPauses | app/src/main/java/com/mohamed/calmplayer/domain/PlayerViewModel.kt:164-172 | A job cancelled before its last delay ends never pauses. It only sets volumes between 0 and 100, each lower than the one before |
| PlayerSession.DelayEndMs | app/src/main/java/com/mohamed/calmplayer/domain/PlayerViewModel.kt:158-167 | No delay of the job ends before the lead-in |
| PlayerSession.SleepSchedule | app/src/main/java/com/mohamed/calmplayer/domain/PlayerViewModel.kt:155-170 | Step k lands 3000·k ms after the fade starts. The volume reaches 0 after 300 s and the pause comes after 303 s. For five minutes or more that is 3 s after the requested time; for less it is 303 s after the start |
| PlayerSession.SubmitQueue | app/src/main/java/com/mohamed/calmplayer/domain/PlayerViewModel.kt:110-121 | The controller gets exactly the queue commands of `playSong`, and holds the list's media items and the song's start index. Its volume and reported status are unchanged |
| PlayerSession.FadeOut | app/src/main/java/com/mohamed/calmplayer/domain/PlayerViewModel.kt:158-172 | The controller gets exactly the fade commands of the completed delays. Its volume ends at the last step set, or 100 after the pause. Its queue, start index and status are unchanged |
| PlayerSession.PlayerViewModel.constructor | app/src/main/java/com/mohamed/calmplayer/domain/PlayerViewModel.kt:23-47 | The initial state: not playing, no song, position and duration 0, no controller, empty queue and map, no timer |
| PlayerSession.PlayerViewModel.Connect | app/src/main/java/com/mohamed/calmplayer/domain/PlayerViewModel.kt:52-56 | On connection the controller is set and reported ready; nothing else changes |
| PlayerSession.PlayerViewModel.OnIsPlayingChanged | app/src/main/java/com/mohamed/calmplayer/domain/PlayerViewModel.kt:67-69 | The playing flag follows the player; nothing else changes |
| PlayerSession.PlayerViewModel.OnMediaItemTransition | app/src/main/java/com/mohamed/calmplayer/domain/PlayerViewModel.kt:71-78 | The current song is the mapped song for a known media id, and otherwise stays as it was; nothing else changes |
| PlayerSession.PlayerViewModel.OnPlaybackStateChanged | app/src/main/java/com/mohamed/calmplayer/domain/PlayerViewModel.kt:80-84 | On READY the duration is copied from the controller, or set to 0 without one. Other states change nothing |
| PlayerSession.PlayerViewModel.ProgressTick | app/src/main/java/com/mohamed/calmplayer/domain/PlayerViewModel.kt:91-96 | Updates happen only while the player plays or is ready. The position then follows it, raised to 0. The duration is replaced only by a positive value. The position never becomes negative |
| PlayerSession.PlayerViewModel.PlaySong | app/src/main/java/com/mohamed/calmplayer/domain/PlayerViewModel.kt:103-122 | The song is shown at once, even without a controller. The queue is replaced, and the map is rebuilt from it. A connected controller gets the queue commands, the media items and the start index; its volume and status are unchanged |
| PlayerSession.PlayerViewModel.TogglePlayPause | app/src/main/java/com/mohamed/calmplayer/domain/PlayerViewModel.kt:124-128 | Pause is sent when the controller plays, play otherwise; nothing without a controller. The controller's queue, start index, volume and status are unchanged |
| PlayerSession.PlayerViewModel.SkipNext | app/src/main/java/com/mohamed/calmplayer/domain/PlayerViewModel.kt:130-136 | Seek-to-next is sent only when the controller has a next item. The controller's queue, start index, volume and status are unchanged |
| PlayerSession.PlayerViewModel.SkipPrevious | app/src/main/java/com/mohamed/calmplayer/domain/PlayerViewModel.kt:138-144 | Seek-to-previous is sent only when the controller has a previous item. The controller's queue, start index, volume and status are unchanged |
| PlayerSession.PlayerViewModel.SeekTo | app/src/main/java/com/mohamed/calmplayer/domain/PlayerViewModel.kt:146-148 | The position is passed to the controller as given. The controller's queue, start index, volume and status are unchanged |
| PlayerSession.PlayerViewModel.StartSleepTimer | app/src/main/java/com/mohamed/calmplayer/domain/PlayerViewModel.kt:151-154 | Any earlier job is replaced by a fresh job for the given minutes, and the timer shows active |
| PlayerSession.PlayerViewModel.RunSleepTimerJob | app/src/main/java/com/mohamed/calmplayer/domain/PlayerViewModel.kt:153-173 | A job that has not been cancelled sends exactly the fade commands of its completed delays. The volume ends at the last step set, or 100 after the pause. The controller's queue, start index and status are unchanged. The timer goes inactive only when every delay ran out |
| PlayerSession.PlayerViewModel.StopSleepTimer | app/src/main/java/com/mohamed/calmplayer/domain/PlayerViewModel.kt:176-180 | The job is cancelled, full volume is restored and the timer shows inactive. The controller's queue, start index and status are unchanged |
| MusicSession.MusicQueueCommands | app/src/main/java/com/mohamed/calmplayer/domain/MusicViewModel.kt:68-80 | `playSong` sends set-items with a non-negative start index, then prepare, then play |
| MusicSession.SessionsSubmitSameQueue | app/src/main/java/com/mohamed/calmplayer/domain/MusicViewModel.kt:73-79 | `indexOfFirst` raised to 0 equals the other holder's "-1 becomes 0", so both holders send the same queue |
| MusicSession.TransitionsCompared | app/src/main/java/com/mohamed/calmplayer/domain/MusicViewModel.kt:61-64 | With distinct ids both holders show the same song for a listed media id. For an unlisted one, the other holder keeps its song |
| MusicSession.SubmitQueue | app/src/main/java/com/mohamed/calmplayer/domain/MusicViewModel.kt:73-79 | The controller gets the queue commands, and holds the list's media items and the same start index as the other holder. Its volume and status are unchanged |
| MusicSession.MusicViewModel.constructor | app/src/main/java/com/mohamed/calmplayer/domain/MusicViewModel.kt:22-35 | The initial state: not playing, no song, empty library, not scanning, no controller, empty list |
| MusicSession.MusicViewModel.Connect | app/src/main/java/com/mohamed/calmplayer/domain/MusicViewModel.kt:43-45 | On connection the controller is set; nothing else changes |
| MusicSession.MusicViewModel.OnIsPlayingChanged | app/src/main/java/com/mohamed/calmplayer/domain/MusicViewModel.kt:58-60 | The playing flag follows the player; nothing else changes |
| MusicSession.MusicViewModel.OnMediaItemTransition | app/src/main/java/com/mohamed/calmplayer/domain/MusicViewModel.kt:61-64 | The current song becomes the first listed song with the media id, or null; nothing else changes |
| MusicSession.MusicViewModel.PlaySong | app/src/main/java/com/mohamed/calmplayer/domain/MusicViewModel.kt:68-80 | The list is stored and the current song is left alone. A connected controller gets the queue commands, the media items and the song's start index; its volume and status are unchanged |
| MusicSession.MusicViewModel.TogglePlayPause | app/src/main/java/com/mohamed/calmplayer/domain/MusicViewModel.kt:82-84 | Pause is sent when the controller reports playing, play otherwise. The controller's queue, start index, volume and status are unchanged |
| MusicSession.MusicViewModel.SkipNext | app/src/main/java/com/mohamed/calmplayer/domain/MusicViewModel.kt:86 | Seek-to-next is sent unguarded whenever there is a controller. The controller's queue, start index, volume and status are unchanged |
| MusicSession.MusicViewModel.SkipPrevious | app/src/main/java/com/mohamed/calmplayer/domain/MusicViewModel.kt:87 | Seek-to-previous is sent unguarded whenever there is a controller. The controller's queue, start index, volume and status are unchanged |
| MusicSession.MusicViewModel.SeekTo | app/src/main/java/com/mohamed/calmplayer/domain/MusicViewModel.kt:88 | The position is passed to the controller as given. The controller's queue, start index, volume and status are unchanged |
| MusicSession.MusicViewModel.BeginScan | app/src/main/java/com/mohamed/calmplayer/domain/MusicViewModel.kt:93 | The scanning flag goes up before the scan; nothing else changes |
| MusicSession.MusicViewModel.CompleteScan | app/src/main/java/com/mohamed/calmplayer/domain/MusicViewModel.kt:95-101 | The result replaces the library, or an exception empties it. The flag comes down on both paths |
| MusicSession.MusicViewModel.ScanAndLoadLibrary | app/src/main/java/com/mohamed/calmplayer/domain/MusicViewModel.kt:90-103 | The library becomes the scan result of the folder, or empty when the coroutine is cancelled. Scanning is over afterwards |
| MusicSession.MusicViewModel.OnMusicFolderUri | app/src/main/java/com/mohamed/calmplayer/domain/MusicViewModel.kt:49-53 | A scan runs only for a non-null folder URI; a null one changes nothing |
| Scanner.IsAudioFile | app/src/main/java/com/mohamed/calmplayer/data/MusicScanner.kt:111-116 | A null type is never audio, and an accepted type has at least the six characters of `audio/` or of a listed type |
| Scanner.AudioFileIff | app/src/main/java/com/mohamed/calmplayer/data/MusicScanner.kt:111-116 | A file is audio if and only if its type is non-null and either starts with `audio/`, case-sensitively, or equals one of the six listed types ignoring case |
| Scanner.AudioFileExamples | app/src/main/java/com/mohamed/calmplayer/data/MusicScanner.kt:19-26 | A listed type matches in any case, but the `audio/` prefix does not; other types and a null type are rejected |
| Scanner.StringHashCode | app/src/main/java/com/mohamed/calmplayer/data/MusicScanner.kt:183 | The string hash is always an `Int` |
| Scanner.UriHashCode | app/src/main/java/com/mohamed/calmplayer/data/MusicScanner.kt:183 | A URI's hash is an `Int` |
| Scanner.FallbackSong | app/src/main/java/com/mohamed/calmplayer/data/MusicScanner.kt:180-194 | The title is the name before its last dot and the id the URI's hash. Artist, album, album id, duration, tempo and mood are the fixed placeholders |
| Scanner.FallbackIdStable | app/src/main/java/com/mohamed/calmplayer/data/MusicScanner.kt:183 | A fallback song's id and every field but the title depend on the URI alone |
| Scanner.FallbackTitleDropsExtension | app/src/main/java/com/mohamed/calmplayer/data/MusicScanner.kt:181 | The fallback title is the whole name without a dot. Otherwise the name is the title, a dot, and a last extension containing no dot |
| Scanner.SongOfIndexRow | app/src/main/java/com/mohamed/calmplayer/data/MusicScanner.kt:137-168 | An index row yields a song exactly when its title, artist and album are non-null |
| Scanner.IndexHitProperties | app/src/main/java/com/mohamed/calmplayer/data/MusicScanner.kt:151-161 | Empty artist or album become "Unknown …". The mood is "Calm" if and only if the duration exceeds 300000 ms. The tempo is 70..130, plus 20 when the title contains "remix" in any case |
| Scanner.CreateSongFromUri | app/src/main/java/com/mohamed/calmplayer/data/MusicScanner.kt:118-178 | Every path yields a song for the file's URI with the scanner's guarantees. With an index row for the URI it is the row's song, or the fallback song when the row does not convert; without one it is the fallback song |
| Scanner.FileSongs | app/src/main/java/com/mohamed/calmplayer/data/MusicScanner.kt:69-75 | A file child gives one song, for its URI, exactly when it is an audio file with a URI, and none otherwise |
| Scanner.WalkEntry | app/src/main/java/com/mohamed/calmplayer/data/MusicScanner.kt:60-109 | The walk of one node under either policy never yields more songs than there are audio files below it |
| Scanner.WalkChildren | app/src/main/java/com/mohamed/calmplayer/data/MusicScanner.kt:65-108 | The same bound, for a run of children |
| Scanner.ScanResult | app/src/main/java/com/mohamed/calmplayer/data/MusicScanner.kt:29-58 | An unresolved folder gives no songs; a resolved one gives at most one per audio file in its tree |
| Scanner.SongList.constructor | app/src/main/java/com/mohamed/calmplayer/data/MusicScanner.kt:30 | The shared list starts empty |
| Scanner.SongList.Add | app/src/main/java/com/mohamed/calmplayer/data/MusicScanner.kt:73 | `add` appends one song at the end |
| Scanner.WalkAppend | app/src/main/java/com/mohamed/calmplayer/data/MusicScanner.kt:65-76 | One more child either stops nothing after a failure, adds a file's songs, descends into a directory, or skips it |
| Scanner.CappedCount | app/src/main/java/com/mohamed/calmplayer/data/MusicScanner.kt:90-95 | `processedCount` is below 20 exactly when the next directory is descended into |
| Scanner.FailureIsFinal | app/src/main/java/com/mohamed/calmplayer/data/MusicScanner.kt:53-55 | Once the walk has stopped on an exception, later children change nothing |
| Scanner.ScanFile | app/src/main/java/com/mohamed/calmplayer/data/MusicScanner.kt:69-75 | A file child appends exactly its songs: one for an audio file with a URI, none otherwise |
| Scanner.ScanDirectoryRecursive | app/src/main/java/com/mohamed/calmplayer/data/MusicScanner.kt:60-83 | The list grows by exactly the normal walk's songs of the node. The method reports whether the walk finished |
| Scanner.ScanDirectoryOptimized | app/src/main/java/com/mohamed/calmplayer/data/MusicScanner.kt:85-109 | The list grows by exactly the power-save walk's songs, which descends at most 20 subdirectories per level. The method reports whether the walk finished |
| Scanner.ScanMusicFolder | app/src/main/java/com/mohamed/calmplayer/data/MusicScanner.kt:29-58 | The result is the walk of the folder under the power policy. An unresolved folder gives no songs |
| Scanner.NormalScanKeepsEveryAudioFile | app/src/main/java/com/mohamed/calmplayer/data/MusicScanner.kt:60-76 | Without exceptions, the normal walk finishes, and its songs' URIs are the audio files' URIs in depth-first order: one song per audio file at any depth, so every audio file's URI is among the songs |
| Scanner.NormalScanKeepsEveryAudioFileIn | app/src/main/java/com/mohamed/calmplayer/data/MusicScanner.kt:65-76 | The same, for a run of children: the walk finishes and its song URIs are the children's audio-file URIs in order |
| Scanner.SongUris | app/src/main/java/com/mohamed/calmplayer/data/MusicScanner.kt:73 | One URI per song, each the song's own, in order |
| Scanner.ScannedSongsComeFromAudioFiles | app/src/main/java/com/mohamed/calmplayer/data/MusicScanner.kt:60-102 | Under either policy every song comes from an audio file of the tree, with the scanner's guarantees |
| Scanner.ScannedSongsComeFromAudioFilesIn | app/src/main/java/com/mohamed/calmplayer/data/MusicScanner.kt:65-76 | The same, for a run of children |
| Scanner.NormalScanInChildOrder | app/src/main/java/com/mohamed/calmplayer/data/MusicScanner.kt:65-76 | Depth-first order: the songs of two runs of children are those of the first followed by those of the second |
| Scanner.FailureKeepsEarlierSongs | app/src/main/java/com/mohamed/calmplayer/data/MusicScanner.kt:53-57 | A directory whose listing throws stops the walk. The songs found before it are kept, and nothing after it is scanned |
| Scanner.PowerSaveSkipsLaterDirectory | app/src/main/java/com/mohamed/calmplayer/data/MusicScanner.kt:93-95 | In power-save mode a directory after the 20th is skipped entirely |
| Scanner.PowerSaveKeepsFiles | app/src/main/java/com/mohamed/calmplayer/data/MusicScanner.kt:96-102 | In power-save mode files are still scanned at every level |
| Scanner.PowerSaveIsSublistOfNormal | app/src/main/java/com/mohamed/calmplayer/data/MusicScanner.kt:85-109 | Without exceptions, the power-save result is an ordered sublist of the normal one |
| Scanner.PowerSaveIsSublistOfNormalIn | app/src/main/java/com/mohamed/calmplayer/data/MusicScanner.kt:92-108 | The same, for a run of children, whose power-save walk also finishes |
| Scanner.PowerSaveCompletes | app/src/main/java/com/mohamed/calmplayer/data/MusicScanner.kt:85-109 | Without exceptions, the power-save walk finishes |
| Scanner.PowerSaveMatchesNormalOnSmallTrees | app/src/main/java/com/mohamed/calmplayer/data/MusicScanner.kt:93-95 | With at most 20 subdirectories per level, both policies yield the same songs |
| Scanner.PowerSaveMatchesNormalIn | app/src/main/java/com/mohamed/calmplayer/data/MusicScanner.kt:92-108 | The same, for a run of children |
| Scanner.ExampleIndexedFile | app/src/main/java/com/mohamed/calmplayer/data/MusicScanner.kt:136-168 | An indexed file takes the row's metadata, the drawn tempo and the neutral mood |
| Scanner.ExampleUnindexedFile | app/src/main/java/com/mohamed/calmplayer/data/MusicScanner.kt:169-173 | An unindexed `b.flac` becomes the fallback song titled `b` |
| Scanner.ExampleTextFile | app/src/main/java/com/mohamed/calmplayer/data/MusicScanner.kt:69 | A text file adds nothing |
| Scanner.ExampleSubfolder | app/src/main/java/com/mohamed/calmplayer/data/MusicScanner.kt:60-76 | The example's subfolder walks to the fallback song of its one file |
| Scanner.ExampleChildrenWalk | app/src/main/java/com/mohamed/calmplayer/data/MusicScanner.kt:65-76 | The example folder's children walk to the indexed song and then the fallback song, and the walk finishes |
| Scanner.ScanExample | app/src/main/java/com/mohamed/calmplayer/data/MusicScanner.kt:29-58 | A folder with an indexed file, a subfolder with an unindexed file and a text file scans to two songs, in folder order |
| Settings.ThemeValueOf | app/src/main/java/com/mohamed/calmplayer/data/SettingsStore.kt:27 | `valueOf` succeeds exactly on the three constant names and returns the constant with that name |
| Settings.ThemeNameRoundTrip | app/src/main/java/com/mohamed/calmplayer/data/SettingsStore.kt:25-38 | `valueOf` reads back every name `setTheme` writes |
| Settings.ThemeOf | app/src/main/java/com/mohamed/calmplayer/data/SettingsStore.kt:25-28 | With no stored theme the theme is SYSTEM. A stored name reads successfully exactly when it is a constant's name, and then gives that constant |
| Settings.BlockedFoldersOf | app/src/main/java/com/mohamed/calmplayer/data/SettingsStore.kt:30-32 | The blocked set is the stored set, or empty when none is stored |
| Settings.WithTheme | app/src/main/java/com/mohamed/calmplayer/data/SettingsStore.kt:34-38 | After `setTheme` the theme reads back as written. The blocked folders and every other key are untouched |
| Settings.WithFolderAdded | app/src/main/java/com/mohamed/calmplayer/data/SettingsStore.kt:40-45 | Adding is set union, so the path is blocked afterwards. The theme and every other key are untouched |
| Settings.WithFolderRemoved | app/src/main/java/com/mohamed/calmplayer/data/SettingsStore.kt:47-52 | Removing is set difference, so the path is not blocked afterwards. The theme and every other key are untouched |
| Settings.DefaultSettings | app/src/main/java/com/mohamed/calmplayer/data/SettingsStore.kt:25-32 | With nothing stored the theme is SYSTEM and nothing is blocked |
| Settings.ThemeRoundTrip | app/src/main/java/com/mohamed/calmplayer/data/SettingsStore.kt:25-38 | A written theme is read back whatever was stored before, and the last write wins |
| Settings.UnknownThemeFails | app/src/main/java/com/mohamed/calmplayer/data/SettingsStore.kt:27 | A stored name other than the three constants' names makes the read fail |
| Settings.AddIdempotent | app/src/main/java/com/mohamed/calmplayer/data/SettingsStore.kt:43 | Adding a folder twice is adding it once |
| Settings.RemoveAbsentChangesNothing | app/src/main/java/com/mohamed/calmplayer/data/SettingsStore.kt:50 | Removing a folder that is not blocked leaves the blocked set as it was |
| Settings.RemoveUndoesAdd | app/src/main/java/com/mohamed/calmplayer/data/SettingsStore.kt:40-52 | Removing a path undoes adding it when it was not blocked before |
| Settings.FolderEditsCommute | app/src/main/java/com/mohamed/calmplayer/data/SettingsStore.kt:40-52 | Adding one folder and removing another can be done in either order |
| Settings.SettingsStore.constructor | app/src/main/java/com/mohamed/calmplayer/data/SettingsStore.kt:19 | The store starts on the preferences already saved |
| Settings.SettingsStore.SetTheme | app/src/main/java/com/mohamed/calmplayer/data/SettingsStore.kt:34-38 | The stored preferences become the `setTheme` edit. The theme reads back as written and the blocked folders are unchanged |
| Settings.SettingsStore.AddBlockedFolder | app/src/main/java/com/mohamed/calmplayer/data/SettingsStore.kt:40-45 | The blocked set gains the path and the theme is unchanged |
| Settings.SettingsStore.RemoveBlockedFolder | app/src/main/java/com/mohamed/calmplayer/data/SettingsStore.kt:47-52 | The blocked set loses the path and the theme is unchanged |
| HomeViews.BlockFilter | app/src/main/java/com/mohamed/calmplayer/ui/screens/HomeScreens.kt:78-85 | The library list is an ordered sublist of the songs. It keeps a song exactly when no blocked string occurs in its path, a null path counting as "" |
| HomeViews.BlockFilterIdempotent | app/src/main/java/com/mohamed/calmplayer/ui/screens/HomeScreens.kt:79-84 | Filtering the filtered list again changes nothing |
| HomeViews.NothingBlockedKeepsAll | app/src/main/java/com/mohamed/calmplayer/ui/screens/HomeScreens.kt:81-83 | With nothing blocked, every song is listed |
| HomeViews.BlockingEmptyStringHidesAll | app/src/main/java/com/mohamed/calmplayer/ui/screens/HomeScreens.kt:81-83 | Blocking the empty string hides every song |
| HomeViews.PathlessSongHiddenOnlyByEmpty | app/src/main/java/com/mohamed/calmplayer/ui/screens/HomeScreens.kt:80-82 | A song without a path is hidden if and only if the empty string is blocked |
| HomeViews.SearchResults | app/src/main/java/com/mohamed/calmplayer/ui/screens/HomeScreens.kt:419-428 | An empty query finds nothing. Otherwise the results are, in library order, exactly the songs whose title or artist contains the query ignoring case |
| HomeViews.SearchFindsExactTitle | app/src/main/java/com/mohamed/calmplayer/ui/screens/HomeScreens.kt:423-426 | A song whose title contains the query exactly is always found |
| HomeViews.SearchIgnoresCaseExample | app/src/main/java/com/mohamed/calmplayer/ui/screens/HomeScreens.kt:424 | An example: the query `rAIN` finds the title `Rain` |
| HomeViews.SearchIgnoresQueryCase | app/src/main/java/com/mohamed/calmplayer/ui/screens/HomeScreens.kt:419-428 | Two queries equal ignoring ASCII case give the same results, in the same order |
| HomeViews.MatchIgnoresSongCase | app/src/main/java/com/mohamed/calmplayer/ui/screens/HomeScreens.kt:424-425 | Two songs whose titles and artists are equal ignoring ASCII case match the same queries |
| HomeViews.Mix | app/src/main/java/com/mohamed/calmplayer/ui/screens/HomeScreens.kt:267-269 | The mix holds min(3, library size) songs, all from the library, none more often than there |
| HomeViews.SmallLibraryMixIsWholeLibrary | app/src/main/java/com/mohamed/calmplayer/ui/screens/HomeScreens.kt:268 | A library of at most three songs is mixed whole |
| HomeViews.FolderDisplayName | app/src/main/java/com/mohamed/calmplayer/ui/screens/HomeScreens.kt:836 | The label is the part of the path after its last `/`, with no `/` in it, or the whole path when there is no `/` |
| HomeViews.FolderDisplayNameExamples | app/src/main/java/com/mohamed/calmplayer/ui/screens/HomeScreens.kt:836 | `/a/Jazz` shows `Jazz`, `Jazz` shows `Jazz`, and a trailing slash shows an empty label |
| HomeViews.Toggle | app/src/main/java/com/mohamed/calmplayer/ui/screens/HomeScreens.kt:698-701 | Allowing a folder removes it from the block list; disallowing adds it |
| HomeViews.ToggleShowsChoice | app/src/main/java/com/mohamed/calmplayer/ui/screens/HomeScreens.kt:693-703 | After a toggle the folder's switch shows the choice, every other switch is as it was, and the theme is untouched |
| HomeViews.ToggleOffThenOn | app/src/main/java/com/mohamed/calmplayer/ui/screens/HomeScreens.kt:698-701 | Switching an allowed folder off and on restores the block list |
| TimeFormat.TwoDigits | app/src/main/java/com/mohamed/calmplayer/ui/components/PlayerUI.kt:253 | `%02d` of a seconds value 0..59 is two digits, the first at most 5, denoting the value |
| TimeFormat.FormatTime | app/src/main/java/com/mohamed/calmplayer/ui/components/PlayerUI.kt:249-254 | The text is at least four characters. For a non-negative position it ends in a colon and two digits |
| TimeFormat.FormatTimeShape | app/src/main/java/com/mohamed/calmplayer/ui/components/PlayerUI.kt:249-254 | For a non-negative position the text is the minutes, a colon and two digits 00..59. Minutes·60 plus seconds is the position's whole seconds |
| TimeFormat.SubSecondDropped | app/src/main/java/com/mohamed/calmplayer/ui/components/PlayerUI.kt:250 | A position and its whole seconds show the same text |
| TimeFormat.HourShowsAsSixtyMinutes | app/src/main/java/com/mohamed/calmplayer/ui/components/PlayerUI.kt:251-253 | Minutes are not carried into hours: 3600000 ms shows as `60:00` |
| TimeFormat.NegativePosition | app/src/main/java/com/mohamed/calmplayer/ui/components/PlayerUI.kt:250-253 | An example: -61000 ms shows as `-1:-1`, a minus sign on each field, because JVM division truncates toward zero |
| TimeFormat.NegativeSecondsOnly | app/src/main/java/com/mohamed/calmplayer/ui/components/PlayerUI.kt:250-253 | An example: -1000 ms shows as `0:-1`; the minutes truncate to zero and show no sign |
| TimeFormat.NegativeMinutesOnly | app/src/main/java/com/mohamed/calmplayer/ui/components/PlayerUI.kt:250-253 | An example: -60000 ms shows as `-1:00`; the seconds are zero and show no sign |
| Versioning.IsReleaseBuild | app/build.gradle.kts:22 | A build is a release build exactly when one of its task names contains `Release` ignoring case |
| Versioning.AutoVersion | app/build.gradle.kts:10-33 | The build fails with a number-format error exactly when a counter does not parse. Otherwise a non-release build returns the stored counters, and a release build returns each plus one with `Int` wrap-around. The name is `1.0.<patch>-alpha` |
| Versioning.FileAfter | app/build.gradle.kts:24-30 | A build never deletes the file, and only a release build changes it |
| Versioning.ReleaseWritesCounters | app/build.gradle.kts:24-30 | Only a successful release build changes the file, and it stores both incremented counters as decimal strings |
| Versioning.VersionFile.constructor | app/build.gradle.kts:12-16 | The file holds what is on disk, or nothing when it does not exist |
| Versioning.ReleaseOutcome | app/build.gradle.kts:24-32 | For a release build with readable counters, states the exact result and the exact file written |
| Versioning.ComputeAutoVersion | app/build.gradle.kts:10-33 | The steps of `getAutoVersionInfo` compute its result. The properties they write, if any, are the file after the build |
| Versioning.GetAutoVersionInfo | app/build.gradle.kts:10-33 | The result is the version computed from the old file, and the file becomes the file after the build |
| Versioning.ReleaseKeepsOtherEntries | app/build.gradle.kts:27-29 | A release build rewrites only the two counters and keeps every other stored entry |
| Versioning.DefaultVersions | app/build.gradle.kts:18-32 | Without a file, a debug build is version 4 (`1.0.4-alpha`) and writes nothing. A release build is version 5 and writes both counters as "5" |
| Versioning.WrittenCountersReadBack | app/build.gradle.kts:19-28 | Counters written as decimal strings are read back as the same numbers |
| Versioning.ConsecutiveBuilds | app/build.gradle.kts:19-32 | After a release build, a second release build counts one further and a debug build reports the same version |
| Versioning.MalformedCounterFails | app/build.gradle.kts:19-20 | A stored counter that is not a numeral (an optional sign and one or more digits) fails the build and leaves the file alone |
| Versioning.MalformedCounterExample | app/build.gradle.kts:19-20 | An example: a stored patch of `5a` fails the build and leaves the file alone |
| Versioning.ReleaseTaskExamples | app/build.gradle.kts:22 | `assembleRelease` and `bundlerelease` make release builds |
| Versioning.DebugTaskExample | app/build.gradle.kts:22 | `assembleDebug` alone is not a release build |

## Left out

- I/O and platform calls are not modelled: `DocumentFile`, `ContentResolver` queries, `PowerManager`, `Properties.load`/`store`, `Log` and `printStackTrace`. They are the inputs described above. The properties file is a map; its text format and escaping are not modelled.
- The scanner's pacing delays (`songs.size % 50` and `% 25`) and all coroutine dispatching are not modelled: they change timing, not the result.
- Concurrency is not modelled. The sleep-timer job runs as one method, given how many of its delays end before it is cancelled. The scan runs to completion, with a flag for cancellation. Interleavings of callbacks with these coroutines are not modelled.
- PlayerSession.PlayerViewModel.ProgressTick: models one pass of the `while (true)` loop; the 250 ms delay and the repetition are not modelled.
- Volume is an integer percent instead of the `Float` `i / 100f`; rounding of the float is not modelled.
- The `Engine` constructor and `Engine.Report` stand for the player's side of the `MediaController`. They are not part of the source.
- Scanner.StringHashCode: hashes each `char` as one code unit. Characters outside the Basic Multilingual Plane, which the JVM stores as two UTF-16 units, are not modelled. `Uri.hashCode` is taken to be the hash of the URI's string form.
- Case-insensitive comparison folds ASCII letters only; the rest of Unicode case folding is not modelled.
- Numbers.ToInt: accepts ASCII digits only, where Kotlin's `toInt` also accepts other Unicode decimal digits.
- Numbers.ToIntAccepts: states acceptance for every numeral of at most nine digits. Longer numerals are accepted exactly when their value fits an `Int`; that case is in `ToInt`'s definition and the round trip `IntToStringRoundTrip`, not in this lemma.
- TimeFormat.FormatTime: `String.format` uses the default locale, which can print non-ASCII digits. The model prints ASCII digits only.
- PlayerSession.PlayerViewModel.RunSleepTimerJob: covers a job that has not been cancelled. `cancel()` in `stopSleepTimer` and `startSleepTimer` stops a job at its next delay, and every step of the job is behind a delay, so a cancelled job does nothing more. The number of completed delays stands for that.
- Scanner.WalkEntry and Scanner.WalkChildren: their contracts give only the bound on the number of songs. They are the specification of the walk; its other properties are the lemmas about them.
- The `Artist` data class is not used by any modelled operation and is not modelled.
- `PlaybackService`, `MusicService`, `NavGraph`, `SettingsViewModel`, `MainActivity` and the Compose UI are not modelled, apart from the home-screen computations.
- `musicFolderUriFlow` and `setMusicFolderUri` are not defined by `SettingsStore`, so the folder URI is passed to `OnMusicFolderUri` as a parameter, and `refreshLibrary` is the same call.
- `(70..130).random()` and `shuffled()` are parameters; their distributions are not modelled.
- HomeViews.Mix: states the size and that the songs come from the library; which songs are picked depends on the supplied shuffle.
- PlayerSession.PlayerViewModel.OnPlaybackStateChanged: copies the controller's duration unchecked, so it can become `TIME_UNSET`, as the code does. The contract states that value and no bound on it.
- TimeFormat.TwoDigits: states the digits for non-negative seconds only. Negative seconds (a negative position) are shown by the example in `NegativePosition`.
- The operations are split into smaller members, each still modelling only source code:
  - `SubmitQueue` is the controller block of each `playSong`;
  - `FadeOut` is the controller calls of the sleep-timer job;
  - `ScanFile` is the file branch shared by both walks;
  - `BeginScan` and `CompleteScan` are the two halves of the scan coroutine;
  - `ComputeAutoVersion` is the body of `getAutoVersionInfo` before the file is written.
