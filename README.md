# Soundwave in Dafny

A model of the core of Soundwave, a browser music player written in React
and TypeScript. Songs, playlists and a play queue live in three JSON
documents in the browser's key-value storage. A playback controller drives
one audio element. A handful of pages read and change that state.

The model follows the source file by file:

| file | module | form |
|---|---|---|
| `base.dfy` | `Base` | `Option`, `Result`, a generic order-keeping `Filter` and lemmas about composing filters |
| `text.dfy` | `Text` | ASCII lower-casing, substring search, decimal printing and parsing, the `M:SS` clock text |
| `types.dfy` | `Types` | `Song`, `Playlist` and the entries a stored queue can hold |
| `audio_service.dfy` | `AudioService` | the storage service: a `Store` class with one field per stored document, plus the pure search, upload admission and storage accounting |
| `player_context.dfy` | `PlayerContext` | the playback controller as a `Player` class whose methods update its fields and the store |
| `playlist_view.dfy` | `PlaylistView` | resolving a playlist's song ids, and "play all" |
| `search.dfy` | `Search` | the search page: field filter, comparator, and an insertion sort proved against it |
| `storage_management.dfy` | `StorageManagement` | the storage page: a `StoragePage` class with selection toggling, bulk delete and the usage colour |
| `song_list.dfy` | `SongList` | the track table's row predicates and click dispatch |
| `player_bar.dfy` | `PlayerBar` | the player bar's `formatTime` and its render guard |

Things from outside the program become parameters:
- the browser's storage estimate;
- the data URL the file reader produces;
- the duration the audio element reports;
- whether an asynchronous `play()` request succeeds;
- the fresh id and the clock.

The audio element's `canplay`, `error` and `ended` events are methods the
environment calls: `OnCanPlay`, `OnLoadError` and `OnEnded`.

Two behaviours of the code are recorded as written, each with a lemma that
exhibits it.

**The controller's stored queue is never pruned.** The controller persists
the queue as bare song ids (`Soundwave/src/context/PlayerContext.tsx:180`,
`:186`, `:195`). `deleteSong` filters the stored queue by each entry's
`.id` (`Soundwave/src/services/audioService.ts:134-136`), and a bare id has
no such field. So a delete never removes anything from a queue the
controller wrote: `PlayerContext.DeleteNeverPrunesPersistedQueue`. When the
page is loaded again, that stored list holds no song records:
`PlayerContext.PersistedQueueRestoresNoSongs`. A stored entry is therefore
either a song record or a bare id (`Types.QueueEntry`).

**playNext from outside the queue starts at the head.** When the current
song is not in the queue, `findIndex` gives -1, so `playNext` selects entry
0 (`Soundwave/src/context/PlayerContext.tsx:205-209`):
`PlayerContext.NextFromOutsideIsHead`. `Player.PlayNext` states the same
through `PlayerContext.FindIndex`.

Where the code's names and comments suggest other behaviour, the model
follows the code:
- The code does not take a deleted song out of a queue the controller
  wrote; see above.
- There is no repeat mode. `playNext` after the last entry only clears
  `isPlaying`; the audio element is not paused.
- `playPrevious` also does nothing when the current song is not in the
  queue, not only at the head.

## Model

| member | source | states |
|---|---|---|
| AudioService.Read | Soundwave/src/services/audioService.ts:99-107 | a stored list reads back as its items; a missing or unparsable document reads as the empty list |
| AudioService.WithoutSong | Soundwave/src/services/audioService.ts:121-122 | exactly the songs with another id stay, as a subsequence, each with its full multiplicity |
| AudioService.WithoutSongId | Soundwave/src/services/audioService.ts:129 | exactly the other ids stay, as a subsequence |
| AudioService.PruneFromPlaylists | Soundwave/src/services/audioService.ts:126-130 | every playlist keeps its other fields and position, its id list loses the deleted id, and no playlist names it afterwards |
| AudioService.PruneQueue | Soundwave/src/services/audioService.ts:134-135 | song records with the id leave the stored queue; every other record and every bare id stays, in order |
| AudioService.SearchSongs | Soundwave/src/services/audioService.ts:243-251 | exactly the songs whose lower-cased title, artist or album contains the lower-cased query, in stored order, every copy kept |
| AudioService.SearchEmptyQueryReturnsAll | Soundwave/src/services/audioService.ts:243-251 | the empty query returns the whole song list |
| AudioService.FormatDuration | Soundwave/src/services/audioService.ts:84-88 | the text reads back as minutes and a two-digit seconds field below 60; minutes is floor(s/60), unbounded, and minutes*60+seconds is floor(s); the minutes field has no leading zero |
| AudioService.CompressAudioData | Soundwave/src/services/audioService.ts:90-97 | a WAV data URL is relabelled as MPEG with the payload kept; any other input is unchanged; the result never starts with the WAV prefix |
| AudioService.CompressIsIdempotent | Soundwave/src/services/audioService.ts:90-97 | compressing twice gives the same as compressing once |
| AudioService.StripExtension | Soundwave/src/services/audioService.ts:189 | with an extension, the title is the name up to the last dot, and after that dot come only non-dot, non-slash characters; otherwise the name is unchanged |
| AudioService.Percentage | Soundwave/src/services/audioService.ts:32 | 0 for a zero total; otherwise the nearest whole percentage, halves rounded up; at most 100 when used does not exceed total |
| AudioService.RoundedShareBounds | Soundwave/src/services/audioService.ts:32 | Math.round(used/total*100) brackets 100*used/total within half a percent, and stays at or below 100 when used does not exceed total |
| AudioService.GetStorageInfo | Soundwave/src/services/audioService.ts:16-33 | the browser estimate when offered (missing figures count as 0), else the 5 MiB fallback with the locally counted usage; the percentage is derived from those two |
| AudioService.AvailableStorage | Soundwave/src/services/audioService.ts:55-58 | total minus used, clamped at 0 |
| AudioService.GetStorageUsage | Soundwave/src/services/audioService.ts:40-53 | two bytes per code unit of every stored value |
| AudioService.AdmitUpload | Soundwave/src/services/audioService.ts:145-186 | the checks run in source order, each failing with its own error: type, then the 10 MiB cap, then an empty read, then twice the compressed length plus 500 KiB against the free space, then metadata; an admitted upload carries the compressed payload and the reported seconds |
| AudioService.Store.SetQueue | Soundwave/src/services/audioService.ts:71-78 | reading the queue back gives the written entries in the same order; songs and playlists are untouched |
| AudioService.Store.DeleteSong | Soundwave/src/services/audioService.ts:119-143 | the three documents become their forms with the id deleted: the song gone, no playlist naming it, song records with it out of the queue; all three are rewritten |
| AudioService.Store.CreatePlaylist | Soundwave/src/services/audioService.ts:223-241 | one playlist with the given name, the default cover and no songs is appended; nothing else changes |
| AudioService.Store.UploadAudio | Soundwave/src/services/audioService.ts:145-221 | nothing is stored exactly when admission fails; otherwise one song is appended, carrying the fresh id, the stripped title, the compressed payload, the reported duration as `M:SS`, "Unknown Artist", "Unknown Album", the default cover, no like flag and the upload time |
| Text.ToLower | Soundwave/src/services/audioService.ts:245 | same length; each character is lowered and no upper-case letter remains |
| Text.ToLowerIdempotent | Soundwave/src/services/audioService.ts:245 | lowering twice is lowering once |
| Text.Includes | Soundwave/src/services/audioService.ts:248-250 | true exactly when the needle occurs at some position of the haystack |
| Text.NatToString | Soundwave/src/services/audioService.ts:87 | a non-empty string of digits, a single digit exactly below 10, with no leading zero unless the number is 0 |
| Text.ParseNatToString | Soundwave/src/services/audioService.ts:87 | the printed number parses back to itself |
| Text.PadStart2 | Soundwave/src/services/audioService.ts:87 | a string of length 2 or more is unchanged; a shorter one is left-padded with '0' to length 2 |
| Text.TwoDigitsParse | Soundwave/src/services/audioService.ts:87 | a number below 100, printed and padded, is two characters that parse back to it |
| Text.ClockText | Soundwave/src/services/audioService.ts:85-87 | for whole seconds t, the text parses as minutes t/60 and seconds below 60 that add up to t; the minutes field has no leading zero |
| Text.ClockFieldsParse | Soundwave/src/services/audioService.ts:87 | a minutes field, a colon and a padded seconds field below 100 parse back to those two numbers |
| Text.ClockOfFields | Soundwave/src/services/audioService.ts:87 | two fields that parse, joined by a colon with a two-character seconds field, parse as that clock |
| Text.FloorDiv60 | Soundwave/src/services/audioService.ts:85 | for a non-negative time, floor(t/60) is floor(t) divided by 60 |
| PlayerContext.IdEntries | Soundwave/src/context/PlayerContext.tsx:180 | the persisted queue is the id of each song, in order |
| PlayerContext.SongsOf | Soundwave/src/context/PlayerContext.tsx:46-49 | exactly the song records of the stored queue are restored |
| PlayerContext.SongsOfCounts | Soundwave/src/context/PlayerContext.tsx:46-49 | each song record is restored as many times as it is stored |
| PlayerContext.SongsOfInOrder | Soundwave/src/context/PlayerContext.tsx:46-49 | the restored records keep their stored order |
| PlayerContext.FindIndex | Soundwave/src/context/PlayerContext.tsx:205 | the first position with the current song's id, or -1 when there is no current song or no such position |
| PlayerContext.NextFromOutsideIsHead | Soundwave/src/context/PlayerContext.tsx:205-209 | when the current song is not in the queue, playNext's next index is 0, the head |
| PlayerContext.DeleteNeverPrunesPersistedQueue | Soundwave/src/services/audioService.ts:134-136 | deleting any id leaves a queue the controller persisted unchanged |
| PlayerContext.PersistedQueueRestoresNoSongs | Soundwave/src/context/PlayerContext.tsx:46-49 | restoring a queue the controller persisted yields no songs |
| PlayerContext.Player.constructor | Soundwave/src/context/PlayerContext.tsx:29-49 | nothing selected, paused, volume 0.5, the queue restored from the store |
| PlayerContext.Player.SetCurrentSong | Soundwave/src/context/PlayerContext.tsx:63-107 | a song with audio starts loading with the error cleared and listeners attached; a song without audio changes only the selection and detaches the old listeners |
| PlayerContext.Player.HandlePlayError | Soundwave/src/context/PlayerContext.tsx:127-132 | playback stops with "Error playing audio" |
| PlayerContext.Player.OnCanPlay | Soundwave/src/context/PlayerContext.tsx:66-73 | loading ends, the error clears, the duration is taken; playback continues only if play succeeds, and a failed play sets the play error |
| PlayerContext.Player.OnLoadError | Soundwave/src/context/PlayerContext.tsx:75-80 | loading ends, playback stops, "Error loading audio file" |
| PlayerContext.Player.TogglePlay | Soundwave/src/context/PlayerContext.tsx:134-148 | ignored without a song or while loading; pausing always succeeds; starting either plays or sets the play error |
| PlayerContext.Player.SeekTo | Soundwave/src/context/PlayerContext.tsx:150-162 | ignored while loading; otherwise the position is set and the error cleared |
| PlayerContext.Player.SetVolume | Soundwave/src/context/PlayerContext.tsx:164-176 | the volume is set and the error cleared; nothing else changes |
| PlayerContext.Player.SetPlaylist | Soundwave/src/context/PlayerContext.tsx:178-181 | the queue becomes the list, and the store holds its ids in order |
| PlayerContext.Player.AddToQueue | Soundwave/src/context/PlayerContext.tsx:183-190 | the song is appended, and the store holds the new queue's ids |
| PlayerContext.Player.RemoveFromQueue | Soundwave/src/context/PlayerContext.tsx:192-199 | every queue entry with the id is removed, and the store holds the new queue's ids |
| PlayerContext.Player.PlayNext | Soundwave/src/context/PlayerContext.tsx:201-220 | no-op on an empty queue or while loading; selects the entry after the current song's first position and plays it; after the last entry only stops playback |
| PlayerContext.Player.PlayPrevious | Soundwave/src/context/PlayerContext.tsx:222-239 | no-op on an empty queue, while loading, at the head or outside the queue; otherwise selects the previous entry and plays it |
| PlayerContext.Player.OnEnded | Soundwave/src/context/PlayerContext.tsx:82-84 | with listeners attached, the end of the track acts as playNext: the entry after the current song's first position plays, the head when the song is outside the queue, and after the last entry only isPlaying clears; without listeners nothing happens; volume, position and duration stay |
| PlayerContext.Player.Retry | Soundwave/src/context/PlayerContext.tsx:241-246 | the error clears and the current song is selected again, which reloads it when it has audio |
| PlaylistView.Find | Soundwave/src/pages/PlaylistView.tsx:13-16 | none exactly when no element has the id; otherwise the element at the first position with that id |
| PlaylistView.ResolveSongs | Soundwave/src/pages/PlaylistView.tsx:15-17 | at most one song per listed id; each is a stored song, the first one with its id |
| PlaylistView.ResolveFollowsIdOrder | Soundwave/src/pages/PlaylistView.tsx:15-17 | the resolved songs' ids are exactly the resolvable listed ids, in list order: dangling ids drop out |
| PlaylistView.ResolveAllKnown | Soundwave/src/pages/PlaylistView.tsx:15-17 | when every id resolves, song i carries id i |
| PlaylistView.ViewPlaylist | Soundwave/src/pages/PlaylistView.tsx:13-25 | "not found" exactly when no playlist has the id; otherwise the first playlist with the id, with its resolved songs |
| PlaylistView.PlayAll | Soundwave/src/pages/PlaylistView.tsx:27-32 | nothing changes for an empty list; otherwise the list becomes the queue, its ids are stored, and its first song is selected and starts loading when it has audio; isPlaying, volume, position and duration stay |
| Search.LexCompare | Soundwave/src/pages/Search.tsx:42 | -1, 0 or 1, and 0 exactly for equal strings |
| Search.LexAntisymmetric | Soundwave/src/pages/Search.tsx:42-44 | swapping the operands negates the comparison |
| Search.LexTransitive | Soundwave/src/pages/Search.tsx:42-44 | the string order is transitive |
| Search.CompareAntisymmetric | Soundwave/src/pages/Search.tsx:38-50 | the comparator is antisymmetric for every key and order |
| Search.CompareTransitive | Soundwave/src/pages/Search.tsx:38-50 | the comparator is transitive for every key and order |
| Search.DescendingReversesAscending | Soundwave/src/pages/Search.tsx:39 | descending compares a with b as ascending compares b with a |
| Search.AscendingDatePutsNewerFirst | Soundwave/src/pages/Search.tsx:46 | "ascending" by upload date puts the newer song first |
| Search.Insert | Soundwave/src/pages/Search.tsx:38-50 | the result holds the list's songs plus the new one |
| Search.InsertKeepsSorted | Soundwave/src/pages/Search.tsx:38-50 | inserting into a sorted list keeps it sorted |
| Search.SortResults | Soundwave/src/pages/Search.tsx:38-50 | a permutation of the input, sorted by the comparator |
| Search.ByType | Soundwave/src/pages/Search.tsx:22-35 | exactly the results whose chosen field contains the query, as a subsequence with multiplicities; type "all" keeps everything |
| Search.FieldMatchIsSearchMatch | Soundwave/src/pages/Search.tsx:22-35 | a field match is also a match of the service search |
| Search.RunSearch | Soundwave/src/pages/Search.tsx:16-56 | no query gives no results; otherwise the results are the field-filtered service matches, permuted into comparator order, none lost |
| StorageManagement.StorageColorOf | Soundwave/src/pages/StorageManagement.tsx:83-87 | red from 90 %, yellow from 70 % up to 89 %, green below 70 % |
| StorageManagement.ColorIsMonotone | Soundwave/src/pages/StorageManagement.tsx:83-87 | more usage never shows a milder colour |
| StorageManagement.NinetyPercentIsRed | Soundwave/src/pages/StorageManagement.tsx:83-87 | 4 500 000 of 5 000 000 bytes is 90 % and shows red |
| StorageManagement.Toggled | Soundwave/src/pages/StorageManagement.tsx:41-48 | an absent id is appended and a present one removed, the others kept in insertion order; no other id changes and no id repeats |
| StorageManagement.ToggleTwiceRestores | Soundwave/src/pages/StorageManagement.tsx:41-48 | toggling twice restores membership of every id; the exact list comes back exactly when the id was absent or was the last one added |
| StorageManagement.ConfirmMessage | Soundwave/src/pages/StorageManagement.tsx:62-64 | the singular text exactly for one song; otherwise the head, the count printed without leading zeros (which parses back) and the " songs?" tail |
| StorageManagement.WithoutSongs | Soundwave/src/pages/StorageManagement.tsx:72 | exactly the songs whose id is not selected remain, in order, each as often as before |
| StorageManagement.WithoutSongIds | Soundwave/src/pages/StorageManagement.tsx:72 | exactly the ids that are not selected remain, in order, each as often as before |
| StorageManagement.PruneAllFromPlaylists | Soundwave/src/pages/StorageManagement.tsx:72 | each playlist loses every selected id and keeps its other fields |
| StorageManagement.PruneAllFromQueue | Soundwave/src/pages/StorageManagement.tsx:72 | song records with a selected id leave the stored queue; bare ids and other records stay, in order, each as often as before |
| StorageManagement.NothingDeletedYet | Soundwave/src/pages/StorageManagement.tsx:72 | deleting no ids leaves all three documents as they are |
| StorageManagement.OneMoreDeleted | Soundwave/src/pages/StorageManagement.tsx:72 | one more deleteSong deletes one more id from all three documents |
| StorageManagement.DeletedInTurnStep | Soundwave/src/pages/StorageManagement.tsx:72 | one more selected id is one more deleteSong on the documents |
| StorageManagement.InTurnIsAtOnce | Soundwave/src/pages/StorageManagement.tsx:72 | one deleteSong per id, in list order, leaves the documents with every listed id deleted at once |
| StorageManagement.StoragePage.constructor | Soundwave/src/pages/StorageManagement.tsx:17-30 | the page opens with the stored songs and an empty selection |
| StorageManagement.StoragePage.ToggleSelect | Soundwave/src/pages/StorageManagement.tsx:41-48 | the selection becomes its toggled form |
| StorageManagement.StoragePage.HandleDelete | Soundwave/src/pages/StorageManagement.tsx:59-81 | nothing happens with no selection or a declined confirmation; otherwise every selected id is deleted from all three documents, the selection is emptied and the list reloaded |
| StorageManagement.StoragePage.DeleteEach | Soundwave/src/pages/StorageManagement.tsx:72 | after one deleteSong per selected id the store's documents have every selected id deleted |
| StorageManagement.StoragePage.DeleteRow | Soundwave/src/pages/StorageManagement.tsx:143-145 | the store's documents lose the one id, but the page's list and selection stay as they were |
| SongList.Marker | Soundwave/src/components/SongList.tsx:48-55 | the playing dot exactly on the current row while playing; otherwise the 1-based row number |
| SongList.AtMostOneCurrentRow | Soundwave/src/components/SongList.tsx:39-41 | with distinct ids at most one row is highlighted |
| SongList.ClickedRowIsLocated | Soundwave/src/components/SongList.tsx:13-19 | the controller locates a clicked song at its row, or at an earlier row sharing its id |
| SongList.HandlePlay | Soundwave/src/components/SongList.tsx:13-20 | the current song's row only toggles playback, with togglePlay's outcomes and the rest kept; any other row makes the list the queue, selects the song with setCurrentSong's loading outcome and leaves it at its row index; volume, position and duration stay |
| PlayerBar.RemainderOf60 | Soundwave/src/components/Player.tsx:24 | time % 60 lies in [0, 60) |
| PlayerBar.FloorOfRemainder | Soundwave/src/components/Player.tsx:23-24 | floor(time % 60) and floor(time / 60) are the remainder and the quotient of floor(time) by 60 |
| PlayerBar.FormatTime | Soundwave/src/components/Player.tsx:22-26 | `M:SS` whose seconds are below 60 and add up with the unbounded minutes to floor(time); the minutes field has no leading zero |
| PlayerBar.FormatTimeMatchesFormatDuration | Soundwave/src/components/Player.tsx:22-26 | the bar and the upload path print a duration identically |
| PlayerBar.Render | Soundwave/src/components/Player.tsx:28-98 | nothing without a current song; otherwise its labels, both clocks printed by formatTime with seconds below 60 and reading back to the whole seconds, and the pause icon exactly while playing |

## Left out

- Browser storage I/O is the `Store` fields. A write that throws (a quota exception) is not modelled, and neither are the `catch` paths that turn failures into toasts, console output or a rethrow.
- JSON parsing is not modelled. A document that does not parse is the `Corrupt` state, which reads as the empty list.
- `generateUniqueId` (`Date.now` and `Math.random`) and `new Date()` are parameters of the methods that need them.
- Upload dates are millisecond timestamps rather than ISO strings. A missing date counts as 0, as in the search comparator.
- AudioService.Percentage: the product is rounded as an exact rational, not as a double. For used 23 and total 40 the double product is 57.49999999999999, which `Math.round` takes to 57, while the model gives 58.
- Floating point is modelled with reals. NaN and infinite durations are not modelled: `FormatTime` and `FormatDuration` require a non-negative time.
- `formatSize` (logarithms and `toFixed`) is not modelled, for the same reason.
- The seek and volume fractions and the progress-bar widths are not modelled. They are layout arithmetic.
- The controller's `catch` branches are not modelled. A seek or volume write that the audio element rejects (a volume outside [0, 1] throws) would set "Error seeking in track" or "Error adjusting volume" and leave the rest of the state; `SeekTo` and `SetVolume` always take the value.
- The audio element's own paused state is not modelled. Only the controller's `isPlaying` flag is. So the model cannot show that `playNext` after the last entry clears the flag while the track keeps sounding: only `togglePlay` and the unmount cleanup call `pause()`.
- The one-second progress timer is not modelled. It polls the audio element.
- Stale closures in the listeners are not modelled. `canplay` reads the current `isPlaying`, and `ended` runs `playNext` on the current state.
- React's object identity is not modelled. Selecting a song equal to the current one reloads it, as `retry` intends.
- Case folding covers ASCII letters only. `localeCompare` is code-unit order. Unicode case mappings and locale collation are not modelled.
- Awaited steps are single atomic steps: `togglePlay`'s `await play()` (its outcome is a parameter), the file reader and metadata promises in `uploadAudio` (their results are parameters), and the bulk delete followed by the reload. Nothing else runs between an `await` and the code after it.
- The storage page's storage figures are not a field of `StoragePage`. The reload in `loadData` after a delete is covered by `AudioService.GetStorageInfo` over the store's new contents.
- `Search.SortResults`: stability of the sort is not stated.
- Shuffle and repeat are not modelled. The player bar reads them, but the controller never supplies them.
- `Promise.all` in the bulk delete runs one `deleteSong` after another, and so does the source: `deleteSong` contains no `await`, so each call finishes before `map` starts the next. The model's sequential order is the source's own behaviour.
- `AudioService.Store.DeleteSong`: the returned `true` and the rethrown error are not modelled.
- `PlayerContext.Player.constructor`: bare ids in the stored queue are dropped. The source puts them into the queue state as they are, where they are strings rather than songs.
- Adding songs to a playlist is not modelled. The storage service has no such operation.
- The thin pages are not modelled: playlist creation, recently played and liked songs. Layout components are not modelled either.
- The second, older copy of the sources outside `Soundwave/` is not part of this model.
