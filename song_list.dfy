/** The track table (Soundwave/src/components/SongList.tsx): each row shows
    whether it is the current song and whether it is playing, and a click
    either toggles playback or makes the displayed list the queue. */
module SongList {
  import opened Base
  import opened Types
  import opened PlayerContext

  /** The row is highlighted: its id is the current song's id. */
  predicate IsCurrentRow(current: Option<Song>, song: Song) {
    current.Some? && current.value.id == song.id
  }

  /** What the row's button shows: the pulsing dot, or the 1-based row
      number. */
  datatype RowMarker = PlayingDot | RowNumber(n: nat)

  function Marker(current: Option<Song>, isPlaying: bool, song: Song, index: nat): (m: RowMarker)
    ensures m.PlayingDot? <==> IsCurrentRow(current, song) && isPlaying
    ensures m.RowNumber? ==> m.n == index + 1 && m.n >= 1
  {
    if IsCurrentRow(current, song) && isPlaying then PlayingDot else RowNumber(index + 1)
  }

  /** No two songs of the list share an id. */
  predicate DistinctIds(songs: seq<Song>) {
    forall i, j :: 0 <= i < j < |songs| ==> songs[i].id != songs[j].id
  }

  /** With distinct ids at most one row is highlighted, so at most one row
      shows the playing dot. */
  lemma AtMostOneCurrentRow(songs: seq<Song>, current: Option<Song>, isPlaying: bool, i: nat, j: nat)
    requires DistinctIds(songs)
    requires i < |songs| && j < |songs|
    requires IsCurrentRow(current, songs[i]) && IsCurrentRow(current, songs[j])
    ensures i == j
    ensures Marker(current, isPlaying, songs[i], i) == Marker(current, isPlaying, songs[j], j)
  {
  }

  /** Once a row has been clicked, the controller locates the current song
      at that row (or at an earlier row sharing its id), which is where
      playNext and playPrevious step from. */
  lemma ClickedRowIsLocated(songs: seq<Song>, index: nat)
    requires index < |songs|
    ensures 0 <= FindIndex(songs, Some(songs[index])) <= index
    ensures DistinctIds(songs) ==> FindIndex(songs, Some(songs[index])) == index
  {
  }

  /** handlePlay(song, index): on the current song's row only togglePlay
      runs; on any other row the displayed list replaces the queue and the
      clicked song is selected. */
  method HandlePlay(player: Player, songs: seq<Song>, index: nat, playSucceeds: bool)
    requires player.Valid()
    requires index < |songs|
    modifies player, player.store
    ensures player.Valid()
    ensures IsCurrentRow(old(player.current), songs[index]) ==>
      && player.current == old(player.current) && player.queue == old(player.queue)
      && player.store.queue == old(player.store.queue)
      && player.isLoading == old(player.isLoading) && player.attached == old(player.attached)
    ensures IsCurrentRow(old(player.current), songs[index]) && old(player.isLoading) ==>
      player.isPlaying == old(player.isPlaying) && player.error == old(player.error)
    ensures IsCurrentRow(old(player.current), songs[index]) && !old(player.isLoading) && (old(player.isPlaying) || playSucceeds) ==>
      player.isPlaying == !old(player.isPlaying) && player.error == None
    ensures IsCurrentRow(old(player.current), songs[index]) && !old(player.isLoading) && !old(player.isPlaying) && !playSucceeds ==>
      !player.isPlaying && player.error == Some(PlayErrorText)
    ensures !IsCurrentRow(old(player.current), songs[index]) ==>
      && player.queue == songs && player.current == Some(songs[index])
      && player.queue[index] == songs[index]
      && player.store.GetQueue() == IdEntries(songs)
      && player.isPlaying == old(player.isPlaying)
      && 0 <= FindIndex(player.queue, player.current) <= index
      && (DistinctIds(songs) ==> FindIndex(player.queue, player.current) == index)
      && player.attached == HasAudio(songs[index])
    ensures !IsCurrentRow(old(player.current), songs[index]) && HasAudio(songs[index]) ==>
      player.isLoading && player.error == None
    ensures !IsCurrentRow(old(player.current), songs[index]) && !HasAudio(songs[index]) ==>
      player.isLoading == old(player.isLoading) && player.error == old(player.error)
    ensures player.volume == old(player.volume) && player.progress == old(player.progress)
    ensures player.duration == old(player.duration)
    ensures player.store.songs == old(player.store.songs)
    ensures player.store.playlists == old(player.store.playlists)
  {
    var song := songs[index];
    if player.current.Some? && player.current.value.id == song.id {
      player.TogglePlay(playSucceeds);
    } else {
      player.SetPlaylist(songs);
      player.SetCurrentSong(song);
      ClickedRowIsLocated(songs, index);
    }
  }
}
