/** The playlist page (Soundwave/src/pages/PlaylistView.tsx): a playlist's
    id list is resolved against the song collection, dangling ids being
    dropped silently, and "play all" hands the result to the controller. */
module PlaylistView {
  import opened Base
  import opened Types
  import PlayerContext

  /** Array.prototype.find on the id: the first element whose key is id,
      or none when no element has it. */
  function Find<T>(xs: seq<T>, key: T -> string, id: string): (r: Option<T>)
    ensures r.None? <==> forall i :: 0 <= i < |xs| ==> key(xs[i]) != id
    ensures r.Some? ==> exists k :: 0 <= k < |xs| && xs[k] == r.value && key(xs[k]) == id && IdAbsentBefore(xs, key, id, k)
  {
    if xs == [] then None
    else if key(xs[0]) == id then
      assert IdAbsentBefore(xs, key, id, 0);
      Some(xs[0])
    else
      var r := Find(xs[1..], key, id);
      assert r.Some? ==> exists k :: 0 <= k < |xs| && xs[k] == r.value && key(xs[k]) == id && IdAbsentBefore(xs, key, id, k) by {
        if r.Some? {
          var k :| 0 <= k < |xs| - 1 && xs[1..][k] == r.value && key(xs[1..][k]) == id && IdAbsentBefore(xs[1..], key, id, k);
          assert IdAbsentBefore(xs, key, id, k + 1);
        }
      }
      r
  }

  /** No element before position k has the key id. */
  predicate IdAbsentBefore<T>(xs: seq<T>, key: T -> string, id: string, k: nat)
    requires k <= |xs|
  {
    forall i :: 0 <= i < k ==> key(xs[i]) != id
  }

  function PlaylistId(p: Playlist): string { p.id }
  function SongId(s: Song): string { s.id }

  /** getPlaylists().find(p => p.id === id) */
  function FindPlaylist(ps: seq<Playlist>, id: string): Option<Playlist> {
    Find(ps, PlaylistId, id)
  }

  /** allSongs.find(s => s.id === songId) */
  function FindSong(songs: seq<Song>, id: string): Option<Song> {
    Find(songs, SongId, id)
  }

  /** The ids of the list that name a stored song, in list order. */
  function KnownIds(ids: seq<string>, songs: seq<Song>): seq<string> {
    Filter(ids, (x: string) => FindSong(songs, x).Some?)
  }

  function IdsOf(songs: seq<Song>): (r: seq<string>)
    ensures |r| == |songs| && forall i :: 0 <= i < |songs| ==> r[i] == songs[i].id
  {
    seq(|songs|, i requires 0 <= i < |songs| => songs[i].id)
  }

  /** playlist.songs.map(find).filter(defined): at most one song per id,
      each the collection's first song with an id of the list. */
  function ResolveSongs(ids: seq<string>, songs: seq<Song>): (r: seq<Song>)
    ensures |r| <= |ids|
    ensures forall s :: s in r ==> s in songs && s.id in ids && FindSong(songs, s.id) == Some(s)
  {
    if ids == [] then []
    else
      var head := match FindSong(songs, ids[0]) case Some(s) => [s] case None => [];
      head + ResolveSongs(ids[1..], songs)
  }

  /** The resolved songs carry exactly the resolvable ids, in id-list order:
      a repeated id gives its song again and a dangling id is dropped. */
  lemma {:induction false} ResolveFollowsIdOrder(ids: seq<string>, songs: seq<Song>)
    ensures IdsOf(ResolveSongs(ids, songs)) == KnownIds(ids, songs)
  {
    if ids != [] {
      ResolveFollowsIdOrder(ids[1..], songs);
      var rest := ResolveSongs(ids[1..], songs);
      match FindSong(songs, ids[0])
      case Some(s) =>
        assert ResolveSongs(ids, songs) == [s] + rest;
        IdsOfPrepend(s, rest);
      case None =>
        assert ResolveSongs(ids, songs) == rest;
    }
  }

  lemma IdsOfPrepend(s: Song, rest: seq<Song>)
    ensures IdsOf([s] + rest) == [s.id] + IdsOf(rest)
  {
  }

  /** When every id resolves, the page shows exactly one song per id, at the
      id's position. */
  lemma {:induction false} ResolveAllKnown(ids: seq<string>, songs: seq<Song>)
    requires forall i :: 0 <= i < |ids| ==> FindSong(songs, ids[i]).Some?
    ensures |ResolveSongs(ids, songs)| == |ids|
    ensures forall i :: 0 <= i < |ids| ==> ResolveSongs(ids, songs)[i].id == ids[i]
  {
    FilterKeepsAll(ids, (x: string) => FindSong(songs, x).Some?);
    ResolveFollowsIdOrder(ids, songs);
    assert IdsOf(ResolveSongs(ids, songs)) == ids;
  }

  datatype PlaylistPage = NotFound | Showing(playlist: Playlist, songs: seq<Song>)

  /** The page for playlist `id`: "Playlist not found" exactly when no
      playlist has that id, otherwise the playlist and its resolved songs. */
  function ViewPlaylist(playlists: seq<Playlist>, allSongs: seq<Song>, id: string): (r: PlaylistPage)
    ensures r.NotFound? <==> forall i :: 0 <= i < |playlists| ==> playlists[i].id != id
    ensures r.Showing? ==> r.playlist.id == id
    ensures r.Showing? ==> exists k :: (0 <= k < |playlists| && playlists[k] == r.playlist
                                        && forall i :: 0 <= i < k ==> playlists[i].id != id)
    ensures r.Showing? ==> r.songs == ResolveSongs(r.playlist.songs, allSongs)
  {
    match FindPlaylist(playlists, id)
    case None => NotFound
    case Some(p) => Showing(p, ResolveSongs(p.songs, allSongs))
  }

  /** handlePlayAll: nothing happens for an empty list; otherwise the list
      becomes the queue and its first song is selected, which starts loading
      it when it has audio. The transport flags, volume and position stay. */
  method PlayAll(player: PlayerContext.Player, playlistSongs: seq<Song>)
    requires player.Valid()
    modifies player, player.store
    ensures player.Valid()
    ensures playlistSongs == [] ==> player.queue == old(player.queue) && player.current == old(player.current)
    ensures playlistSongs == [] ==> player.store.queue == old(player.store.queue)
    ensures playlistSongs == [] ==> player.isLoading == old(player.isLoading) && player.error == old(player.error)
    ensures playlistSongs == [] ==> player.attached == old(player.attached)
    ensures playlistSongs != [] ==> player.queue == playlistSongs && player.current == Some(playlistSongs[0])
    ensures playlistSongs != [] ==> player.store.GetQueue() == PlayerContext.IdEntries(playlistSongs)
    ensures playlistSongs != [] ==> player.attached == PlayerContext.HasAudio(playlistSongs[0])
    ensures playlistSongs != [] && PlayerContext.HasAudio(playlistSongs[0]) ==> player.isLoading && player.error == None
    ensures playlistSongs != [] && !PlayerContext.HasAudio(playlistSongs[0]) ==>
      player.isLoading == old(player.isLoading) && player.error == old(player.error)
    ensures player.isPlaying == old(player.isPlaying) && player.volume == old(player.volume)
    ensures player.progress == old(player.progress) && player.duration == old(player.duration)
    ensures player.store.songs == old(player.store.songs)
    ensures player.store.playlists == old(player.store.playlists)
  {
    if |playlistSongs| > 0 {
      player.SetPlaylist(playlistSongs);
      player.SetCurrentSong(playlistSongs[0]);
    }
  }
}
