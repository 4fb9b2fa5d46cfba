/** The records the application stores and passes around
    (Soundwave/src/types.ts). */
module Types {
  import opened Base

  /** An uploaded song. The upload date is kept as the time it denotes, in
      milliseconds since the epoch; the audio payload is the file's data URL. */
  datatype Song = Song(
    id: string,
    title: string,
    artist: string,
    album: string,
    duration: string,
    coverUrl: string,
    liked: Option<bool>,
    uploadDate: Option<int>,
    audioData: Option<string>)

  /** A playlist refers to its songs by id. */
  datatype Playlist = Playlist(
    id: string,
    name: string,
    description: string,
    coverUrl: string,
    songs: seq<string>)

  /** One element of the persisted queue document. The service reads the
      queue as full song records, but the playback controller writes bare
      song ids, so both shapes occur in storage. */
  datatype QueueEntry = SongEntry(song: Song) | IdEntry(songId: string)
}
