/** The storage service (Soundwave/src/services/audioService.ts): three
    documents kept in the browser's key-value storage (songs, playlists,
    queue), each rewritten whole on every change, plus the upload admission
    rules, the storage accounting and the search over the song list. */
module AudioService {
  import opened Base
  import opened Text
  import opened Types

  const MaxFileSize: nat := 10 * 1024 * 1024
  const AllowedAudioTypes: seq<string> := ["audio/mpeg", "audio/wav", "audio/mp3"]
  const MinStorageBuffer: nat := 500 * 1024
  /** Quota assumed when the browser offers no storage estimate. */
  const FallbackQuota: nat := 5 * 1024 * 1024
  const DefaultCover: string := "https://images.unsplash.com/photo-1611339555312-e607c8352fd7"
  const WavPrefix: string := "data:audio/wav"
  const MpegPrefix: string := "data:audio/mpeg"

  // ------------------------------------------------------------ documents

  /** What one storage key holds: nothing, text that does not parse, or a
      parsed list. */
  datatype Stored<T> = Absent | Corrupt | Present(items: seq<T>)

  /** A missing or unreadable document reads as the empty list. */
  function Read<T>(d: Stored<T>): (r: seq<T>)
    ensures d.Present? ==> r == d.items
    ensures !d.Present? ==> r == []
  {
    if d.Present? then d.items else []
  }

  /** songs.filter(song => song.id !== songId) */
  function WithoutSong(songs: seq<Song>, id: string): (r: seq<Song>)
    ensures forall s :: s in r <==> s in songs && s.id != id
    ensures IsSubseq(r, songs)
    ensures forall s: Song :: s.id != id ==> multiset(r)[s] == multiset(songs)[s]
  {
    var keep := (s: Song) => s.id != id;
    FilterIsSubseq(songs, keep);
    FilterCounts(songs, keep);
    Filter(songs, keep)
  }

  /** playlist.songs.filter(x => x !== songId) */
  function WithoutSongId(ids: seq<string>, id: string): (r: seq<string>)
    ensures id !in r
    ensures forall x :: x in r <==> x in ids && x != id
    ensures IsSubseq(r, ids)
    ensures forall x :: x != id ==> multiset(r)[x] == multiset(ids)[x]
  {
    var keep := (x: string) => x != id;
    FilterIsSubseq(ids, keep);
    FilterCounts(ids, keep);
    Filter(ids, keep)
  }

  /** Every playlist, in the same order and with the same id, name,
      description and cover, loses every reference to the song. */
  function PruneFromPlaylists(ps: seq<Playlist>, id: string): (r: seq<Playlist>)
    ensures |r| == |ps|
    ensures forall i :: 0 <= i < |ps| ==>
      && r[i].id == ps[i].id && r[i].name == ps[i].name
      && r[i].description == ps[i].description && r[i].coverUrl == ps[i].coverUrl
      && r[i].songs == WithoutSongId(ps[i].songs, id)
    ensures forall i :: 0 <= i < |ps| ==> id !in r[i].songs
  {
    seq(|ps|, i requires 0 <= i < |ps| => ps[i].(songs := WithoutSongId(ps[i].songs, id)))
  }

  /** The `.id` the service reads from a queue element: a song record's id;
      a bare id string has no such property. */
  function EntryId(e: QueueEntry): Option<string> {
    match e
    case SongEntry(s) => Some(s.id)
    case IdEntry(_) => None
  }

  /** queue.filter(song => song.id !== songId): drops the song records with
      that id and keeps every bare id string. */
  function PruneQueue(q: seq<QueueEntry>, id: string): (r: seq<QueueEntry>)
    ensures forall e :: e in r <==> e in q && EntryId(e) != Some(id)
    ensures forall e :: e in q && e.IdEntry? ==> e in r
    ensures IsSubseq(r, q)
    ensures forall e :: EntryId(e) != Some(id) ==> multiset(r)[e] == multiset(q)[e]
  {
    var keep := (e: QueueEntry) => EntryId(e) != Some(id);
    FilterIsSubseq(q, keep);
    FilterCounts(q, keep);
    Filter(q, keep)
  }

  // --------------------------------------------------------------- search

  /** The song's title, artist or album, lower-cased, contains the
      (lower-cased) query. */
  predicate MatchesQuery(s: Song, lowerQuery: string) {
    || Includes(ToLower(s.title), lowerQuery)
    || Includes(ToLower(s.artist), lowerQuery)
    || Includes(ToLower(s.album), lowerQuery)
  }

  /** searchSongs over the stored song list: exactly the matching songs,
      every copy of each, in stored order. */
  function SearchSongs(songs: seq<Song>, query: string): (r: seq<Song>)
    ensures forall s :: s in r <==> s in songs && MatchesQuery(s, ToLower(query))
    ensures IsSubseq(r, songs)
    ensures forall s :: multiset(r)[s] == if MatchesQuery(s, ToLower(query)) then multiset(songs)[s] else 0
  {
    var lq := ToLower(query);
    var keep := (s: Song) => MatchesQuery(s, lq);
    FilterIsSubseq(songs, keep);
    FilterCounts(songs, keep);
    Filter(songs, keep)
  }

  /** The empty query is contained in every field, so it returns every song. */
  lemma SearchEmptyQueryReturnsAll(songs: seq<Song>)
    ensures SearchSongs(songs, "") == songs
  {
    var keep := (s: Song) => MatchesQuery(s, ToLower(""));
    forall s | s in songs ensures keep(s) {
      assert OccursAt(ToLower(s.title), "", 0);
    }
    FilterKeepsAll(songs, keep);
  }

  // --------------------------------------------------------- small helpers

  /** formatDuration for a non-negative (possibly fractional) number of
      seconds: "M:SS" with minutes = floor(s / 60) unbounded and a two-digit
      seconds field below 60 that adds up with the minutes to floor(s). */
  function FormatDuration(seconds: real): (r: string)
    requires 0.0 <= seconds
    ensures ParseClock(r).Some?
    ensures ParseClock(r).value.seconds < 60
    ensures ParseClock(r).value.minutes * 60 + ParseClock(r).value.seconds == seconds.Floor
    ensures ParseClock(r).value.minutes == (seconds / 60.0).Floor
    ensures |r| >= 4 && r[|r| - 3] == ':'
    ensures r[0] == '0' ==> r[1] == ':'
  {
    FloorDiv60(seconds);
    ClockText(seconds.Floor)
  }

  /** compressAudioData: a WAV data URL is relabelled as MPEG (the first
      occurrence of the prefix is the prefix itself); anything else is kept.
      The result never carries the WAV prefix. */
  function CompressAudioData(data: string): (r: string)
    ensures !StartsWith(r, WavPrefix)
    ensures StartsWith(data, WavPrefix) ==> StartsWith(r, MpegPrefix) && r[|MpegPrefix|..] == data[|WavPrefix|..]
    ensures !StartsWith(data, WavPrefix) ==> r == data
    ensures |r| <= |data| + 1
  {
    if StartsWith(data, WavPrefix) then
      var r := MpegPrefix + data[|WavPrefix|..];
      assert r[11] == MpegPrefix[11] != WavPrefix[11];
      r
    else data
  }

  lemma CompressIsIdempotent(data: string)
    ensures CompressAudioData(CompressAudioData(data)) == CompressAudioData(data)
  {
  }

  /** The character may appear in a file extension: /\.[^/.]+$/ */
  predicate ExtensionChar(c: char) { c != '.' && c != '/' }

  predicate IsExtension(ext: string) {
    |ext| > 0 && forall i :: 0 <= i < |ext| ==> ExtensionChar(ext[i])
  }

  /** The name ends in a dot followed by a non-empty extension. */
  predicate HasExtension(name: string) {
    exists k :: 0 <= k < |name| && name[k] == '.' && IsExtension(name[k + 1..])
  }

  /** Length of the longest suffix made only of extension characters. */
  function ExtensionRun(s: string): (n: nat)
    ensures n <= |s|
    ensures forall i :: |s| - n <= i < |s| ==> ExtensionChar(s[i])
    ensures n < |s| ==> !ExtensionChar(s[|s| - 1 - n])
    decreases |s|
  {
    if s == [] || !ExtensionChar(s[|s| - 1]) then 0
    else 1 + ExtensionRun(s[..|s| - 1])
  }

  /** file.name.replace(/\.[^/.]+$/, ""): removes the last dot and the
      extension after it, when there is one, and nothing else. */
  function StripExtension(name: string): (r: string)
    ensures HasExtension(name) ==>
      |r| < |name| && name[..|r|] == r && name[|r|] == '.' && IsExtension(name[|r| + 1..])
    ensures !HasExtension(name) ==> r == name
  {
    var n := ExtensionRun(name);
    if 0 < n < |name| && name[|name| - 1 - n] == '.' then
      var k := |name| - 1 - n;
      assert IsExtension(name[k + 1..]);
      name[..k]
    else
      name
  }

  // ------------------------------------------------------------ accounting

  /** Math.round((used / total) * 100), or 0 when total is 0: the nearest
      whole percentage, halves rounded up. */
  function Percentage(used: nat, total: nat): (r: nat)
    ensures total == 0 ==> r == 0
    ensures total > 0 ==> 2 * r * total <= 200 * used + total < 2 * r * total + 2 * total
    ensures used <= total ==> r <= 100
  {
    if total > 0 then
      var r := (200 * used + total) / (2 * total);
      RoundedShareBounds(used, total, r);
      r
    else 0
  }

  lemma RoundedShareBounds(used: nat, total: nat, r: nat)
    requires total > 0 && r == (200 * used + total) / (2 * total)
    ensures 2 * r * total <= 200 * used + total < 2 * r * total + 2 * total
    ensures used <= total ==> r <= 100
  {
    var d, n := 2 * total, 200 * used + total;
    DivisionBounds(n, d);
    assert 2 * r * total == d * r;
    if used <= total {
      assert n < d * 101;
      ProductOrder(d, r, 101);
    }
  }

  /** Euclidean division brackets n between two consecutive multiples of d. */
  lemma DivisionBounds(n: nat, d: nat)
    requires d > 0
    ensures d * (n / d) <= n < d * (n / d) + d
  {
  }

  /** Multiplying by a positive factor keeps a strict order, read backwards. */
  lemma ProductOrder(d: nat, a: nat, b: nat)
    requires d > 0 && d * a < d * b
    ensures a < b
  {
  }

  datatype Estimate = Estimate(quota: Option<nat>, usage: Option<nat>)
  datatype StorageInfo = StorageInfo(total: nat, used: nat, percentage: nat)

  /** getStorageInfo: the browser's estimate when it offers one (a missing
      figure counts as 0), otherwise the fallback quota and the usage
      counted over local storage; the percentage follows Percentage. */
  function GetStorageInfo(estimate: Option<Estimate>, localUsage: nat): (r: StorageInfo)
    ensures estimate.None? ==> r.total == FallbackQuota && r.used == localUsage
    ensures estimate.Some? ==> r.total == estimate.value.quota.GetOr(0) && r.used == estimate.value.usage.GetOr(0)
    ensures r.percentage == Percentage(r.used, r.total)
    ensures r.total == 0 ==> r.percentage == 0
    ensures r.used <= r.total ==> r.percentage <= 100
  {
    var (total, used) :=
      if estimate.Some? then (estimate.value.quota.GetOr(0), estimate.value.usage.GetOr(0))
      else (FallbackQuota, localUsage);
    StorageInfo(total, used, Percentage(used, total))
  }

  /** getAvailableStorage: Math.max(0, total - used). */
  function AvailableStorage(info: StorageInfo): (r: nat)
    ensures info.used <= info.total ==> r + info.used == info.total
    ensures info.used >= info.total ==> r == 0
  {
    if info.used <= info.total then info.total - info.used else 0
  }

  function Sum(s: seq<nat>): nat {
    if s == [] then 0 else Sum(s[..|s| - 1]) + s[|s| - 1]
  }

  /** getStorageUsage: two bytes per UTF-16 code unit of every stored value,
      given the lengths of the values under each key. */
  method GetStorageUsage(valueLengths: seq<nat>) returns (total: nat)
    ensures total == 2 * Sum(valueLengths)
  {
    total := 0;
    var i := 0;
    while i < |valueLengths|
      invariant 0 <= i <= |valueLengths|
      invariant total == 2 * Sum(valueLengths[..i])
    {
      assert valueLengths[..i + 1][..i] == valueLengths[..i];
      total := total + valueLengths[i] * 2;
      i := i + 1;
    }
    assert valueLengths[..i] == valueLengths;
  }

  // ---------------------------------------------------------------- upload

  datatype AudioFile = AudioFile(name: string, mimeType: string, size: nat)

  datatype UploadError =
    | UnsupportedType       // "Please upload MP3 or WAV files only"
    | TooLarge              // "File is too large (maximum 10MB)"
    | ReadFailed            // the file reader produced nothing
    | InsufficientStorage   // "Not enough storage space available..."
    | InvalidAudio          // the audio element could not read the metadata

  /** The audio payload and its length in seconds, once every check passed. */
  datatype Admitted = Admitted(audioData: string, seconds: real)

  /** The checks of uploadAudio in the order the source makes them: the MIME
      allow-list, the 10 MiB cap (inclusive), a non-empty read, room for
      twice the payload plus the 500 KiB buffer, and readable metadata.
      `dataUrl` is what the file reader produced and `metadataSeconds` the
      duration the audio element reported, if it loaded. */
  function AdmitUpload(file: AudioFile, dataUrl: Option<string>, info: StorageInfo,
                       metadataSeconds: Option<real>): (r: Result<Admitted, UploadError>)
    ensures file.mimeType !in AllowedAudioTypes ==> r == Err(UnsupportedType)
    ensures file.mimeType in AllowedAudioTypes && file.size > MaxFileSize ==> r == Err(TooLarge)
    ensures r.Ok? <==>
      && file.mimeType in AllowedAudioTypes
      && file.size <= MaxFileSize
      && dataUrl.Some? && dataUrl.value != []
      && 2 * |CompressAudioData(dataUrl.value)| + MinStorageBuffer <= AvailableStorage(info)
      && metadataSeconds.Some?
    ensures file.mimeType in AllowedAudioTypes && file.size <= MaxFileSize && (dataUrl.None? || dataUrl.value == []) ==>
      r == Err(ReadFailed)
    ensures (&& file.mimeType in AllowedAudioTypes && file.size <= MaxFileSize && dataUrl.Some? && dataUrl.value != []
             && 2 * |CompressAudioData(dataUrl.value)| + MinStorageBuffer > AvailableStorage(info)) ==>
      r == Err(InsufficientStorage)
    ensures (&& file.mimeType in AllowedAudioTypes && file.size <= MaxFileSize && dataUrl.Some? && dataUrl.value != []
             && 2 * |CompressAudioData(dataUrl.value)| + MinStorageBuffer <= AvailableStorage(info)
             && metadataSeconds.None?) ==>
      r == Err(InvalidAudio)
    ensures r.Ok? ==> r.value.audioData == CompressAudioData(dataUrl.value)
    ensures r.Ok? ==> r.value.seconds == metadataSeconds.value
    ensures r.Ok? ==> 2 * |r.value.audioData| + MinStorageBuffer <= AvailableStorage(info)
  {
    if file.mimeType !in AllowedAudioTypes then Err(UnsupportedType)
    else if file.size > MaxFileSize then Err(TooLarge)
    else if dataUrl.None? || dataUrl.value == [] then Err(ReadFailed)
    else
      var audioData := CompressAudioData(dataUrl.value);
      if 2 * |audioData| + MinStorageBuffer > AvailableStorage(info) then Err(InsufficientStorage)
      else if metadataSeconds.None? then Err(InvalidAudio)
      else Ok(Admitted(audioData, metadataSeconds.value))
  }

  /** The record uploadAudio stores for an admitted file. */
  function NewSong(id: string, file: AudioFile, a: Admitted, now: int): Song
    requires 0.0 <= a.seconds
  {
    Song(id, StripExtension(file.name), "Unknown Artist", "Unknown Album",
         FormatDuration(a.seconds), DefaultCover, None, Some(now), Some(a.audioData))
  }

  // ----------------------------------------------------------------- store

  /** The three stored documents, as read back. */
  datatype Documents = Documents(songs: seq<Song>, playlists: seq<Playlist>, queue: seq<QueueEntry>)

  /** What one deleteSong leaves: the song list without the id, every
      playlist without it, and the queue without song records carrying it. */
  function AfterDelete(d: Documents, id: string): Documents {
    Documents(WithoutSong(d.songs, id), PruneFromPlaylists(d.playlists, id), PruneQueue(d.queue, id))
  }

  /** The three documents of browser storage. */
  class Store {
    var songs: Stored<Song>
    var playlists: Stored<Playlist>
    var queue: Stored<QueueEntry>

    constructor (songs: Stored<Song>, playlists: Stored<Playlist>, queue: Stored<QueueEntry>)
      ensures this.songs == songs && this.playlists == playlists && this.queue == queue
    {
      this.songs := songs;
      this.playlists := playlists;
      this.queue := queue;
    }

    function GetAllSongs(): seq<Song> reads this { Read(songs) }
    function GetPlaylists(): seq<Playlist> reads this { Read(playlists) }
    function GetQueue(): seq<QueueEntry> reads this { Read(queue) }
    function Contents(): Documents reads this {
      Documents(GetAllSongs(), GetPlaylists(), GetQueue())
    }

    /** setQueue: the queue document is overwritten; reading it back gives
        the same entries in the same order. */
    method SetQueue(entries: seq<QueueEntry>)
      modifies this
      ensures queue == Present(entries) && GetQueue() == entries
      ensures songs == old(songs) && playlists == old(playlists)
    {
      queue := Present(entries);
    }

    /** deleteSong: three whole-document writes, songs then playlists then
        queue. */
    method DeleteSong(id: string)
      modifies this
      ensures Contents() == AfterDelete(old(Contents()), id)
      ensures songs.Present? && playlists.Present? && queue.Present?
    {
      songs := Present(WithoutSong(GetAllSongs(), id));
      playlists := Present(PruneFromPlaylists(GetPlaylists(), id));
      SetQueue(PruneQueue(GetQueue(), id));
    }

    /** createPlaylist: appends one playlist with no songs. */
    method CreatePlaylist(name: string, description: string, newId: string) returns (p: Playlist)
      modifies this
      ensures p == Playlist(newId, name, description, DefaultCover, [])
      ensures GetPlaylists() == old(GetPlaylists()) + [p]
      ensures songs == old(songs) && queue == old(queue)
    {
      p := Playlist(newId, name, description, DefaultCover, []);
      playlists := Present(GetPlaylists() + [p]);
    }

    /** uploadAudio: a rejected file leaves storage untouched and yields None;
        an admitted one is appended to the song list and returned. */
    method UploadAudio(file: AudioFile, dataUrl: Option<string>, info: StorageInfo,
                       metadataSeconds: Option<real>, newId: string, now: int)
      returns (r: Option<Song>)
      requires metadataSeconds.Some? ==> 0.0 <= metadataSeconds.value
      modifies this
      ensures r.None? <==> AdmitUpload(file, dataUrl, info, metadataSeconds).Err?
      ensures r.None? ==> songs == old(songs)
      ensures r.Some? ==> GetAllSongs() == old(GetAllSongs()) + [r.value]
      ensures r.Some? ==> r.value.id == newId && r.value.title == StripExtension(file.name)
      ensures r.Some? ==> r.value.audioData == Some(CompressAudioData(dataUrl.value))
      ensures r.Some? ==> r.value.duration == FormatDuration(metadataSeconds.value)
      ensures r.Some? ==> r.value.artist == "Unknown Artist" && r.value.album == "Unknown Album"
      ensures r.Some? ==> r.value.coverUrl == DefaultCover && r.value.liked == None && r.value.uploadDate == Some(now)
      ensures playlists == old(playlists) && queue == old(queue)
    {
      var admission := AdmitUpload(file, dataUrl, info, metadataSeconds);
      if admission.Err? {
        return None;
      }
      var song := NewSong(newId, file, admission.value, now);
      songs := Present(GetAllSongs() + [song]);
      r := Some(song);
    }
  }
}
