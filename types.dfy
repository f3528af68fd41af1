/** Values shared by the playlist manager and the audio stand-in. */
module Types {

  datatype Option<T> = None | Some(value: T)

  /** A lookup that either yields a value or fails with one of the manager's errors. */
  datatype Result<T> = Success(value: T) | Failure(error: Error)

  /** A track. `path` is the key the manager uses to find and remove songs. */
  datatype Song = Song(title: string, artist: string, album: string, path: string)

  /** The manager's error values, plus the failure of the audio library to open a file.
      `SongNotFound` is declared by the manager but no operation returns it. */
  datatype Error =
    | PlaylistEmpty
    | SongNotFound
    | InvalidIndex
    | PlayerNotReady
    | InvalidPlayMode
    | PlaybackFailed(path: string)

  /** The `error` result of an operation: nil (`Ok`) or an error. */
  datatype Status = Ok | Fail(error: Error)

  /** Notifications the manager hands to its observers: the list changed, a song started,
      a song finished. */
  datatype Event = ListChanged(playlist: seq<Song>) | Played(song: Song) | Completed(song: Song)

  const Normal: string := "normal"
  const Repeat: string := "repeat"
  const Shuffle: string := "shuffle"
}
