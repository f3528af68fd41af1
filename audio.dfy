/** What the playlist manager sees of the playback session: which started file still has its
    end-of-stream callback pending, and which song the completion handler is bound to.
    Decoding and output belong to the audio library. */
module Audio {
  import opened Types

  /** `rejects` stands for the files the audio library cannot open or decode. `stream` is the
      file started by the last successful Play while its one-shot end-of-stream callback has
      not yet fired; it is None before any Play, after a failed one, and once the callback
      has run (the library itself keeps the exhausted file loaded until the next Play). */
  datatype Player = Player(rejects: set<string>, stream: Option<string>, onComplete: Option<Song>)

  /** Starting a file: any open stream is closed first, then the file is opened.
      Returns the new session state and the status. */
  function Play(p: Player, path: string): (r: (Player, Status))
    ensures r.1 == Ok <==> path !in p.rejects
    ensures r.1 == Ok ==> r.0.stream == Some(path)
    ensures r.1 != Ok ==> r.1 == Fail(PlaybackFailed(path)) && r.0.stream == None
    ensures r.0.rejects == p.rejects && r.0.onComplete == p.onComplete
  {
    if path in p.rejects then (p.(stream := None), Fail(PlaybackFailed(path)))
    else (p.(stream := Some(path)), Ok)
  }

  /** Installing the completion handler; only the song it is bound to is recorded. */
  function SetOnComplete(p: Player, song: Song): (r: Player)
    ensures r.onComplete == Some(song) && r.stream == p.stream && r.rejects == p.rejects
  {
    p.(onComplete := Some(song))
  }
}
