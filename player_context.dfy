/** The playback controller (Soundwave/src/context/PlayerContext.tsx): the
    current song, transport flags, volume, position and an in-memory queue
    that is mirrored to the store as a list of song ids. The audio element's
    readiness, failure and end of track, and the outcome of its asynchronous
    play request, arrive as explicit calls and arguments. */
module PlayerContext {
  import opened Base
  import opened Types
  import AudioService

  const LoadErrorText: string := "Error loading audio file"
  const PlayErrorText: string := "Error playing audio"

  /** The effect that loads a song only runs when it has a non-empty audio
      payload (`!currentSong?.audioData` returns early). */
  predicate HasAudio(s: Song) {
    s.audioData.Some? && s.audioData.value != []
  }

  /** setQueue(songs.map(s => s.id)): the controller persists bare ids. */
  function IdEntries(songs: seq<Song>): (r: seq<QueueEntry>)
    ensures |r| == |songs|
    ensures forall i :: 0 <= i < |songs| ==> r[i] == IdEntry(songs[i].id)
  {
    seq(|songs|, i requires 0 <= i < |songs| => IdEntry(songs[i].id))
  }

  /** The song records of a stored queue; bare ids are not songs. */
  function SongsOf(entries: seq<QueueEntry>): (r: seq<Song>)
    ensures |r| <= |entries|
    ensures forall s :: s in r <==> SongEntry(s) in entries
  {
    if entries == [] then []
    else
      (if entries[0].SongEntry? then [entries[0].song] else []) + SongsOf(entries[1..])
  }

  /** Every stored song record is restored as often as it is stored. */
  lemma {:induction false} SongsOfCounts(entries: seq<QueueEntry>, s: Song)
    ensures multiset(SongsOf(entries))[s] == multiset(entries)[SongEntry(s)]
  {
    if entries != [] {
      SongsOfCounts(entries[1..], s);
      var head := if entries[0].SongEntry? then [entries[0].song] else [];
      assert entries == [entries[0]] + entries[1..];
      assert multiset(SongsOf(entries)) == multiset(head) + multiset(SongsOf(entries[1..]));
    }
  }

  /** The restored records keep their stored order. */
  lemma {:induction false} SongsOfInOrder(entries: seq<QueueEntry>)
    ensures IsSubseq(AsEntries(SongsOf(entries)), entries)
  {
    if entries != [] {
      var tail := entries[1..];
      SongsOfInOrder(tail);
      var rest := SongsOf(tail);
      if entries[0].SongEntry? {
        assert SongsOf(entries) == [entries[0].song] + rest;
        AsEntriesPrepend(entries[0].song, rest);
        SubseqStep(entries[0], AsEntries(rest), tail);
        assert entries == [entries[0]] + tail;
      } else {
        assert SongsOf(entries) == rest;
        SubseqSkip(entries[0], AsEntries(rest), tail);
        assert entries == [entries[0]] + tail;
      }
    }
  }

  lemma AsEntriesPrepend(s: Song, rest: seq<Song>)
    ensures AsEntries([s] + rest) == [SongEntry(s)] + AsEntries(rest)
  {
  }

  /** A common head extends a subsequence. */
  lemma SubseqStep<T>(x: T, r: seq<T>, s: seq<T>)
    requires IsSubseq(r, s)
    ensures IsSubseq([x] + r, [x] + s)
  {
    assert ([x] + r)[1..] == r && ([x] + s)[1..] == s;
  }

  /** A bare id at the head is skipped by a list of song records. */
  lemma SubseqSkip(x: QueueEntry, r: seq<QueueEntry>, s: seq<QueueEntry>)
    requires x.IdEntry? && forall i :: 0 <= i < |r| ==> r[i].SongEntry?
    requires IsSubseq(r, s)
    ensures IsSubseq(r, [x] + s)
  {
    assert ([x] + s)[1..] == s;
  }

  /** The songs as stored queue records. */
  function AsEntries(songs: seq<Song>): (r: seq<QueueEntry>)
    ensures |r| == |songs| && forall i :: 0 <= i < |songs| ==> r[i] == SongEntry(songs[i])
  {
    seq(|songs|, i requires 0 <= i < |songs| => SongEntry(songs[i]))
  }

  /** queue.findIndex(s => s.id === currentSong?.id): the first position
      holding the current song's id, or -1 when there is none (also when no
      song is current). */
  function FindIndex(queue: seq<Song>, current: Option<Song>): (r: int)
    ensures -1 <= r < |queue|
    ensures r == -1 <==> current.None? || forall i :: 0 <= i < |queue| ==> queue[i].id != current.value.id
    ensures 0 <= r ==> current.Some? && queue[r].id == current.value.id
    ensures 0 <= r ==> forall i :: 0 <= i < r ==> queue[i].id != current.value.id
  {
    if current.None? then -1 else IndexOfId(queue, current.value.id)
  }

  function IndexOfId(queue: seq<Song>, id: string): (r: int)
    ensures -1 <= r < |queue|
    ensures r == -1 <==> forall i :: 0 <= i < |queue| ==> queue[i].id != id
    ensures 0 <= r ==> queue[r].id == id && forall i :: 0 <= i < r ==> queue[i].id != id
  {
    if queue == [] then -1
    else if queue[0].id == id then 0
    else
      var k := IndexOfId(queue[1..], id);
      if k == -1 then -1 else k + 1
  }

  /** playNext when the current song is not in the queue: findIndex gives
      -1, so the entry selected is the head. */
  lemma NextFromOutsideIsHead(queue: seq<Song>, current: Option<Song>)
    requires current.Some? && forall i :: 0 <= i < |queue| ==> queue[i].id != current.value.id
    ensures FindIndex(queue, current) + 1 == 0
  {
  }

  /** A queue written by the controller holds only bare ids, and deleteSong
      prunes only song records: a delete never shortens it. */
  lemma {:induction false} DeleteNeverPrunesPersistedQueue(songs: seq<Song>, id: string)
    ensures AudioService.PruneQueue(IdEntries(songs), id) == IdEntries(songs)
  {
    Base.FilterKeepsAll(IdEntries(songs), (e: QueueEntry) => AudioService.EntryId(e) != Some(id));
  }

  /** Restoring the queue the controller itself persisted yields no songs. */
  lemma {:induction false} PersistedQueueRestoresNoSongs(songs: seq<Song>)
    ensures SongsOf(IdEntries(songs)) == []
  {
    if songs != [] {
      assert IdEntries(songs)[1..] == IdEntries(songs[1..]);
      PersistedQueueRestoresNoSongs(songs[1..]);
    }
  }

  class Player {
    var current: Option<Song>
    var isPlaying: bool
    var isLoading: bool
    var error: Option<string>
    var volume: real
    var progress: real
    var duration: real
    var queue: seq<Song>
    /** The canplay / error / ended listeners are attached for the current
        song; they are detached whenever another song is selected. */
    var attached: bool
    const store: AudioService.Store

    /** An error always leaves playback paused, and loading or listening
        implies a current song. */
    ghost predicate Valid()
      reads this
    {
      && (error.Some? ==> !isPlaying)
      && (isLoading ==> current.Some?)
      && (attached ==> current.Some? && HasAudio(current.value))
    }

    /** PlayerProvider's initial state: volume 0.5, nothing selected, and the
        queue restored from the store when it holds song records. */
    constructor (store: AudioService.Store)
      ensures Valid() && this.store == store
      ensures current == None && !isPlaying && !isLoading && error == None && !attached
      ensures volume == 0.5 && progress == 0.0 && duration == 0.0
      ensures queue == SongsOf(store.GetQueue())
    {
      this.store := store;
      current := None;
      isPlaying := false;
      isLoading := false;
      error := None;
      volume := 0.5;
      progress := 0.0;
      duration := 0.0;
      queue := SongsOf(store.GetQueue());
      attached := false;
    }

    /** setCurrentSong together with the effect it triggers: a song with
        audio starts loading with the error cleared; one without leaves the
        transport flags as they were and no listeners attached. */
    method SetCurrentSong(song: Song)
      requires Valid()
      modifies this
      ensures Valid()
      ensures current == Some(song) && attached == HasAudio(song)
      ensures HasAudio(song) ==> isLoading && error == None
      ensures !HasAudio(song) ==> isLoading == old(isLoading) && error == old(error)
      ensures isPlaying == old(isPlaying) && queue == old(queue)
      ensures volume == old(volume) && progress == old(progress) && duration == old(duration)
    {
      current := Some(song);
      attached := HasAudio(song);
      if attached {
        isLoading := true;
        error := None;
      }
    }

    /** handlePlayError: playback stops with an error. */
    method HandlePlayError()
      requires Valid()
      modifies this
      ensures Valid()
      ensures !isPlaying && error == Some(PlayErrorText)
      ensures current == old(current) && isLoading == old(isLoading) && attached == old(attached)
      ensures queue == old(queue) && volume == old(volume)
      ensures progress == old(progress) && duration == old(duration)
    {
      isPlaying := false;
      error := Some(PlayErrorText);
    }

    /** handleCanPlay: loading ends, the error clears and the duration is
        recorded; if playback was requested, the play request's outcome
        `playSucceeds` decides whether it fails. */
    method OnCanPlay(readyDuration: real, playSucceeds: bool)
      requires Valid()
      modifies this
      ensures Valid()
      ensures !old(attached) ==> isLoading == old(isLoading) && error == old(error) && duration == old(duration)
      ensures old(attached) ==> !isLoading && duration == readyDuration
      ensures old(attached) && (!old(isPlaying) || playSucceeds) ==> error == None && isPlaying == old(isPlaying)
      ensures old(attached) && old(isPlaying) && !playSucceeds ==> error == Some(PlayErrorText) && !isPlaying
      ensures !old(attached) ==> isPlaying == old(isPlaying)
      ensures current == old(current) && attached == old(attached) && queue == old(queue)
      ensures volume == old(volume) && progress == old(progress)
    {
      if !attached {
        return;
      }
      isLoading := false;
      error := None;
      duration := readyDuration;
      if isPlaying && !playSucceeds {
        HandlePlayError();
      }
    }

    /** handleError: loading and playback stop with an error. */
    method OnLoadError()
      requires Valid()
      modifies this
      ensures Valid()
      ensures old(attached) ==> !isLoading && !isPlaying && error == Some(LoadErrorText)
      ensures !old(attached) ==> isLoading == old(isLoading) && isPlaying == old(isPlaying) && error == old(error)
      ensures current == old(current) && attached == old(attached) && queue == old(queue)
      ensures volume == old(volume) && progress == old(progress) && duration == old(duration)
    {
      if !attached {
        return;
      }
      isLoading := false;
      isPlaying := false;
      error := Some(LoadErrorText);
    }

    /** togglePlay: ignored with no song or while loading; pausing always
        succeeds; starting succeeds or fails as the play request does. */
    method TogglePlay(playSucceeds: bool)
      requires Valid()
      modifies this
      ensures Valid()
      ensures old(current).None? || old(isLoading) ==> isPlaying == old(isPlaying) && error == old(error)
      ensures old(current).Some? && !old(isLoading) && (old(isPlaying) || playSucceeds) ==>
        isPlaying == !old(isPlaying) && error == None
      ensures old(current).Some? && !old(isLoading) && !old(isPlaying) && !playSucceeds ==>
        !isPlaying && error == Some(PlayErrorText)
      ensures current == old(current) && isLoading == old(isLoading) && attached == old(attached)
      ensures queue == old(queue) && volume == old(volume)
      ensures progress == old(progress) && duration == old(duration)
    {
      if current.None? || isLoading {
        return;
      }
      if isPlaying {
        isPlaying := false;
        error := None;
      } else if playSucceeds {
        isPlaying := true;
        error := None;
      } else {
        HandlePlayError();
      }
    }

    /** seekTo: ignored while loading; otherwise the position is taken as
        given and the error clears. */
    method SeekTo(position: real)
      requires Valid()
      modifies this
      ensures Valid()
      ensures old(isLoading) ==> progress == old(progress) && error == old(error)
      ensures !old(isLoading) ==> progress == position && error == None
      ensures current == old(current) && isPlaying == old(isPlaying) && isLoading == old(isLoading)
      ensures attached == old(attached) && queue == old(queue)
      ensures volume == old(volume) && duration == old(duration)
    {
      if isLoading {
        return;
      }
      progress := position;
      error := None;
    }

    /** handleSetVolume: the level is stored as given, without clamping. */
    method SetVolume(level: real)
      requires Valid()
      modifies this
      ensures Valid()
      ensures volume == level && error == None
      ensures current == old(current) && isPlaying == old(isPlaying) && isLoading == old(isLoading)
      ensures attached == old(attached) && queue == old(queue)
      ensures progress == old(progress) && duration == old(duration)
    {
      volume := level;
      error := None;
    }

    /** setPlaylist: the queue is replaced and its ids persisted in order. */
    method SetPlaylist(songs: seq<Song>)
      requires Valid()
      modifies this, store
      ensures Valid()
      ensures queue == songs
      ensures store.GetQueue() == IdEntries(songs)
      ensures store.songs == old(store.songs) && store.playlists == old(store.playlists)
      ensures current == old(current) && isPlaying == old(isPlaying) && isLoading == old(isLoading)
      ensures error == old(error) && attached == old(attached) && volume == old(volume)
      ensures progress == old(progress) && duration == old(duration)
    {
      queue := songs;
      store.SetQueue(IdEntries(songs));
    }

    /** addToQueue: the song goes to the end. */
    method AddToQueue(song: Song)
      requires Valid()
      modifies this, store
      ensures Valid()
      ensures queue == old(queue) + [song]
      ensures store.GetQueue() == IdEntries(queue)
      ensures store.songs == old(store.songs) && store.playlists == old(store.playlists)
      ensures current == old(current) && isPlaying == old(isPlaying) && isLoading == old(isLoading)
      ensures error == old(error) && attached == old(attached) && volume == old(volume)
      ensures progress == old(progress) && duration == old(duration)
    {
      queue := queue + [song];
      store.SetQueue(IdEntries(queue));
    }

    /** removeFromQueue: every entry with the id goes; the rest keep their
        order. */
    method RemoveFromQueue(songId: string)
      requires Valid()
      modifies this, store
      ensures Valid()
      ensures queue == AudioService.WithoutSong(old(queue), songId)
      ensures store.GetQueue() == IdEntries(queue)
      ensures store.songs == old(store.songs) && store.playlists == old(store.playlists)
      ensures current == old(current) && isPlaying == old(isPlaying) && isLoading == old(isLoading)
      ensures error == old(error) && attached == old(attached) && volume == old(volume)
      ensures progress == old(progress) && duration == old(duration)
    {
      queue := AudioService.WithoutSong(queue, songId);
      store.SetQueue(IdEntries(queue));
    }

    /** playNext: ignored on an empty queue or while loading. The entry after
        the current song's first position is selected and playback requested
        (the head when the current song is not in the queue); after the last
        entry only isPlaying is cleared. */
    method PlayNext()
      requires Valid()
      modifies this
      ensures Valid()
      ensures |old(queue)| == 0 || old(isLoading) ==>
        current == old(current) && isPlaying == old(isPlaying) && error == old(error) && attached == old(attached)
      ensures |old(queue)| > 0 && !old(isLoading) && FindIndex(old(queue), old(current)) + 1 < |old(queue)| ==>
        && current == Some(old(queue)[FindIndex(old(queue), old(current)) + 1]) && isPlaying && error == None
        && isLoading == HasAudio(current.value) && attached == isLoading
      ensures |old(queue)| > 0 && !old(isLoading) && FindIndex(old(queue), old(current)) + 1 == |old(queue)| ==>
        && current == old(current) && !isPlaying && error == old(error) && attached == old(attached)
        && isLoading == old(isLoading)
      ensures |old(queue)| == 0 || old(isLoading) ==> isLoading == old(isLoading)
      ensures queue == old(queue) && volume == old(volume)
      ensures progress == old(progress) && duration == old(duration)
    {
      if |queue| == 0 || isLoading {
        return;
      }
      var nextIndex := FindIndex(queue, current) + 1;
      if nextIndex < |queue| {
        SetCurrentSong(queue[nextIndex]);
        isPlaying := true;
        error := None;
      } else {
        isPlaying := false;
      }
    }

    /** playPrevious: ignored on an empty queue or while loading; selects the
        entry before the current song's position and requests playback, and
        does nothing at the head or when the current song is absent. */
    method PlayPrevious()
      requires Valid()
      modifies this
      ensures Valid()
      ensures |old(queue)| == 0 || old(isLoading) || FindIndex(old(queue), old(current)) < 1 ==>
        current == old(current) && isPlaying == old(isPlaying) && error == old(error) && attached == old(attached)
      ensures |old(queue)| > 0 && !old(isLoading) && FindIndex(old(queue), old(current)) >= 1 ==>
        && current == Some(old(queue)[FindIndex(old(queue), old(current)) - 1]) && isPlaying && error == None
        && isLoading == HasAudio(current.value) && attached == isLoading
      ensures |old(queue)| == 0 || old(isLoading) || FindIndex(old(queue), old(current)) < 1 ==>
        isLoading == old(isLoading)
      ensures queue == old(queue) && volume == old(volume)
      ensures progress == old(progress) && duration == old(duration)
    {
      if |queue| == 0 || isLoading {
        return;
      }
      var prevIndex := FindIndex(queue, current) - 1;
      if prevIndex >= 0 {
        SetCurrentSong(queue[prevIndex]);
        isPlaying := true;
        error := None;
      }
    }

    /** handleEnded: the end of the track advances as playNext does; with
        no listener attached nothing happens. */
    method OnEnded()
      requires Valid()
      modifies this
      ensures Valid()
      ensures !old(attached) || |old(queue)| == 0 || old(isLoading) ==>
        && current == old(current) && isPlaying == old(isPlaying) && error == old(error)
        && attached == old(attached) && isLoading == old(isLoading)
      ensures old(attached) && |old(queue)| > 0 && !old(isLoading) && FindIndex(old(queue), old(current)) + 1 < |old(queue)| ==>
        && current == Some(old(queue)[FindIndex(old(queue), old(current)) + 1]) && isPlaying && error == None
        && isLoading == HasAudio(current.value) && attached == isLoading
      ensures old(attached) && |old(queue)| > 0 && !old(isLoading) && FindIndex(old(queue), old(current)) + 1 == |old(queue)| ==>
        && current == old(current) && !isPlaying && error == old(error) && attached == old(attached)
        && isLoading == old(isLoading)
      ensures queue == old(queue) && volume == old(volume)
      ensures progress == old(progress) && duration == old(duration)
    {
      if !attached {
        return;
      }
      PlayNext();
    }

    /** retry: the error clears and the current song, if any, is selected
        again, which reloads it. */
    method Retry()
      requires Valid()
      modifies this
      ensures Valid()
      ensures current == old(current)
      ensures old(current).Some? && HasAudio(old(current).value) ==> isLoading && error == None && attached
      ensures old(current).Some? && !HasAudio(old(current).value) ==> error == None && isLoading == old(isLoading) && !attached
      ensures old(current).None? ==> error == None && isLoading == old(isLoading) && attached == old(attached)
      ensures isPlaying == old(isPlaying) && queue == old(queue) && volume == old(volume)
      ensures progress == old(progress) && duration == old(duration)
    {
      error := None;
      if current.Some? {
        SetCurrentSong(current.value);
      }
    }
  }
}
