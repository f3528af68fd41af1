/** Client code: three playlist scenarios (wraparound in normal mode, repeat mode, refusals
    that change nothing), each derived from the manager's contracts alone. */
module Scenarios {
  import opened Types
  import opened Navigation
  import opened Playback

  /** [A, B, C] in normal mode from the first song: next gives B, then C, then A again. */
  method NormalModeWrapsAround(a: Song, b: Song, c: Song)
  {
    var pm := new PlayManager({});
    pm.SetSongs([a, b, c]);
    var r := pm.PlayNext();
    var current := pm.GetCurrentSong();
    assert current == Success(b);
    r := pm.PlayNext();
    current := pm.GetCurrentSong();
    assert current == Success(c);
    r := pm.PlayNext();
    current := pm.GetCurrentSong();
    assert current == Success(a);
    assert r == Ok;
  }

  /** [A, B, C] in repeat mode on B: next and previous both stay on B. */
  method RepeatModeStays(a: Song, b: Song, c: Song)
  {
    var pm := new PlayManager({});
    pm.SetSongs([a, b, c]);
    var r := pm.SetPlayMode(Repeat);
    r := pm.PlaySongByIndex(1);
    r := pm.PlayNext();
    var current := pm.GetCurrentSong();
    assert current == Success(b);
    r := pm.PlayPrevious();
    current := pm.GetCurrentSong();
    assert current == Success(b);
  }

  /** An unknown mode is refused and leaves mode and cursor as they were; removing at the
      list length is ignored; an empty list reports PlaylistEmpty and InvalidIndex. */
  method RefusalsChangeNothing(a: Song, b: Song, c: Song)
  {
    var pm := new PlayManager({});
    var r := pm.PlayNext();
    assert r == Fail(PlaylistEmpty);
    var current := pm.GetCurrentSong();
    assert current == Failure(InvalidIndex);
    pm.SetSongs([a, b, c]);
    r := pm.SetPlayMode("bogus");
    assert r == Fail(InvalidPlayMode) && pm.playMode == Normal && pm.currentIndex == 0;
    pm.RemoveSongByIndex(3);
    assert pm.playlist == [a, b, c] && pm.currentIndex == 0;
  }
}
