/** The playlist / play-mode manager: an ordered song list, a cursor, a lazily regenerated
    shuffle order and a play mode, driving one playback session. */
module Playback {
  import opened Types
  import opened Permutation
  import opened Navigation
  import Audio

  /** Fisher-Yates over an index array: for i from the last index down to 1, swap entry i
      with an entry j drawn from [0, i]. Any draw is allowed; whatever the draws, the array
      ends up a rearrangement of what it held. */
  method ShuffleInPlace(a: array<int>)
    modifies a
    ensures multiset(a[..]) == multiset(old(a[..]))
  {
    var i := a.Length - 1;
    while i > 0
      invariant -1 <= i < a.Length
      invariant multiset(a[..]) == multiset(old(a[..]))
    {
      var j :| 0 <= j <= i;
      a[i], a[j] := a[j], a[i];
      i := i - 1;
    }
  }

  /** The list read through an index order into a new sequence: entry i is list[order[i]]. */
  method ReadThrough(list: seq<Song>, order: array<int>) returns (view: seq<Song>)
    requires InRange(order[..], |list|)
    ensures |view| == order.Length
    ensures forall i :: 0 <= i < order.Length ==> view[i] == list[order[i]]
  {
    var shuffled := new Song[order.Length];
    for i := 0 to order.Length
      invariant forall k :: 0 <= k < i ==> shuffled[k] == list[order[k]]
    {
      shuffled[i] := list[order[i]];
    }
    view := shuffled[..];
  }

  class PlayManager {
    var playlist: seq<Song>
    /** Indexes the list in normal and repeat mode, the shuffle order in shuffle mode. */
    var currentIndex: int
    var shuffleList: array<int>
    var playMode: string
    var autoPlay: bool
    /** The playback session; None when no player is attached. */
    var player: Option<Audio.Player>
    /** Notifications fired so far, oldest first. */
    var events: seq<Event>

    ghost predicate Valid()
      reads this, shuffleList
    {
      && IsPermutation(shuffleList[..], shuffleList.Length)
      && currentIndex >= -1
      && IsMode(playMode)
    }

    /** A new manager: empty list, cursor 0, normal mode, an idle player. */
    constructor (rejects: set<string>)
      ensures Valid()
      ensures playlist == [] && currentIndex == 0 && playMode == Normal && !autoPlay
      ensures player == Some(Audio.Player(rejects, None, None)) && events == []
      ensures shuffleList.Length == 0
    {
      playlist := [];
      currentIndex := 0;
      shuffleList := new int[0];
      playMode := Normal;
      autoPlay := false;
      player := Some(Audio.Player(rejects, None, None));
      events := [];
    }

    /** Replaces the list wholesale; cursor, mode and shuffle order are left as they were. */
    method SetSongs(songs: seq<Song>)
      requires Valid()
      modifies this
      ensures Valid()
      ensures playlist == songs && events == old(events) + [ListChanged(songs)]
      ensures currentIndex == old(currentIndex) && playMode == old(playMode) && shuffleList == old(shuffleList)
      ensures player == old(player) && autoPlay == old(autoPlay)
    {
      playlist := songs;
      events := events + [ListChanged(playlist)];
    }

    /** Appends songs; the old list stays a prefix. */
    method AddSongs(songs: seq<Song>)
      requires Valid()
      modifies this
      ensures Valid()
      ensures playlist == old(playlist) + songs
      // the prefix promise, spelled out
      ensures playlist[..|old(playlist)|] == old(playlist)
      ensures events == old(events) + [ListChanged(playlist)]
      ensures currentIndex == old(currentIndex) && playMode == old(playMode) && shuffleList == old(shuffleList)
      ensures player == old(player) && autoPlay == old(autoPlay)
    {
      playlist := playlist + songs;
      events := events + [ListChanged(playlist)];
    }

    /** Removes the first song with the same path, moving the cursor down when it was at or
        after it; without a match list and cursor stay. Observers are notified either way. */
    method RemoveSong(song: Song)
      requires Valid()
      modifies this
      ensures Valid()
      ensures var i := FirstMatch(old(playlist), song.path);
        if i < 0 then playlist == old(playlist) && currentIndex == old(currentIndex)
        else playlist == RemoveAt(old(playlist), i) && currentIndex == CursorAfterRemoval(old(currentIndex), i)
      ensures events == old(events) + [ListChanged(playlist)]
      ensures playMode == old(playMode) && shuffleList == old(shuffleList)
      ensures player == old(player) && autoPlay == old(autoPlay)
    {
      var i := 0;
      while i < |playlist|
        invariant 0 <= i <= |playlist|
        invariant playlist == old(playlist) && currentIndex == old(currentIndex)
        invariant forall k :: 0 <= k < i ==> playlist[k].path != song.path
      {
        if playlist[i].path == song.path {
          playlist := playlist[..i] + playlist[i+1..];
          if currentIndex >= i {
            currentIndex := currentIndex - 1;
          }
          break;
        }
        i := i + 1;
      }
      events := events + [ListChanged(playlist)];
    }

    /** Removes entry `index`, moving the cursor down when it was at or after it. An index
        off the list is ignored silently: no error, no notification. */
    method RemoveSongByIndex(index: int)
      requires Valid()
      modifies this
      ensures Valid()
      ensures !(0 <= index < |old(playlist)|) ==> unchanged(this)
      ensures 0 <= index < |old(playlist)| ==>
        && playlist == RemoveAt(old(playlist), index)
        && currentIndex == CursorAfterRemoval(old(currentIndex), index)
        && events == old(events) + [ListChanged(playlist)]
      ensures playMode == old(playMode) && shuffleList == old(shuffleList)
      ensures player == old(player) && autoPlay == old(autoPlay)
    {
      if index < 0 || index >= |playlist| {
        return;
      }
      playlist := playlist[..index] + playlist[index+1..];
      if currentIndex >= index {
        currentIndex := currentIndex - 1;
      }
      events := events + [ListChanged(playlist)];
    }

    /** Shuffle mode, the cursor on the list, and an order of the wrong length: the next
        lookup of the current song regenerates the order first. */
    predicate OrderStale()
      reads this
    {
      0 <= currentIndex < |playlist| && playMode == Shuffle && shuffleList.Length != |playlist|
    }

    /** A fresh shuffle order for the current list length: the identity order, shuffled. */
    method InitShuffleList()
      modifies this
      ensures fresh(shuffleList) && shuffleList.Length == |playlist|
      ensures IsPermutation(shuffleList[..], |playlist|)
      ensures playlist == old(playlist) && currentIndex == old(currentIndex) && playMode == old(playMode)
      ensures player == old(player) && events == old(events) && autoPlay == old(autoPlay)
    {
      var order := new int[|playlist|];
      var i := 0;
      while i < order.Length
        modifies order
        invariant 0 <= i <= order.Length
        invariant forall k :: 0 <= k < i ==> order[k] == k
      {
        order[i] := i;
        i := i + 1;
      }
      assert order[..] == Iota(order.Length);
      ShuffleInPlace(order);
      shuffleList := order;
    }

    /** The song under the cursor (through the shuffle order in shuffle mode), or
        InvalidIndex when the cursor is off the list. */
    method GetCurrentSong() returns (r: Result<Song>)
      requires Valid()
      modifies this
      ensures Valid()
      ensures playlist == old(playlist) && currentIndex == old(currentIndex) && playMode == old(playMode)
      ensures player == old(player) && events == old(events) && autoPlay == old(autoPlay)
      ensures old(OrderStale()) ==> fresh(shuffleList) && shuffleList.Length == |playlist|
      ensures !old(OrderStale()) ==> shuffleList == old(shuffleList)
      ensures r == CurrentSong(playlist, shuffleList[..], currentIndex, playMode)
    {
      if currentIndex < 0 || currentIndex >= |playlist| {
        return Failure(InvalidIndex);
      }
      if playMode == Shuffle {
        if shuffleList.Length != |playlist| {
          InitShuffleList();
        }
        PermutationBounds(shuffleList[..], |playlist|);
        return Success(playlist[shuffleList[currentIndex]]);
      }
      return Success(playlist[currentIndex]);
    }

    /** The state after starting `song` from player state `p0` and event log `ev0`: the
        player opens the file; on success observers hear of it and the completion handler
        is bound to that song. */
    ghost predicate Started(song: Song, p0: Audio.Player, ev0: seq<Event>, r: Status)
      reads this
    {
      var (p, status) := Audio.Play(p0, song.path);
      && r == status
      && if status == Ok then
           player == Some(Audio.SetOnComplete(p, song)) && events == ev0 + [Played(song)]
         else
           player == Some(p) && events == ev0
    }

    method Play(song: Song) returns (r: Status)
      requires Valid() && player.Some?
      modifies this
      ensures Valid()
      ensures Started(song, old(player).value, old(events), r)
      ensures playlist == old(playlist) && currentIndex == old(currentIndex) && playMode == old(playMode)
      ensures shuffleList == old(shuffleList) && autoPlay == old(autoPlay)
    {
      var (p, status) := Audio.Play(player.value, song.path);
      player := Some(p);
      if status != Ok {
        return status;
      }
      events := events + [Played(song)];
      player := Some(Audio.SetOnComplete(p, song));
      return Ok;
    }

    /** What PlayCurrent does, relative to the state before it and the player `p0` and event
        log `ev0` it started from: with no player it fails; otherwise it looks up the current
        song (regenerating a stale shuffle order) and starts it, or reports the lookup error. */
    twostate predicate PlayedCurrent(r: Status, p0: Option<Audio.Player>, ev0: seq<Event>)
      reads this, shuffleList
    {
      && playlist == old(playlist) && playMode == old(playMode)
      && IsPermutation(shuffleList[..], shuffleList.Length)
      && if p0.None? then
           r == Fail(PlayerNotReady) && player == p0 && events == ev0
           && shuffleList == old(shuffleList)
         else
           && (if 0 <= currentIndex < |playlist| && playMode == Shuffle && old(shuffleList).Length != |playlist|
               then fresh(shuffleList) && shuffleList.Length == |playlist|
               else shuffleList == old(shuffleList))
           && match CurrentSong(playlist, shuffleList[..], currentIndex, playMode)
              case Failure(e) => r == Fail(e) && player == p0 && events == ev0
              case Success(song) => Started(song, p0.value, ev0, r)
    }

    method PlayCurrent() returns (r: Status)
      requires Valid()
      modifies this
      ensures Valid()
      ensures currentIndex == old(currentIndex) && autoPlay == old(autoPlay)
      ensures PlayedCurrent(r, old(player), old(events))
    {
      if player.None? {
        return Fail(PlayerNotReady);
      }
      var current := GetCurrentSong();
      if current.Failure? {
        return Fail(current.error);
      }
      r := Play(current.value);
    }

    /** Fails with PlaylistEmpty on an empty list and changes nothing; otherwise moves the
        cursor one step forward (not in repeat mode) and plays the current song. */
    method PlayNext() returns (r: Status)
      requires Valid()
      modifies this
      ensures Valid()
      ensures autoPlay == old(autoPlay)
      ensures |old(playlist)| == 0 ==> r == Fail(PlaylistEmpty) && unchanged(this)
      ensures |old(playlist)| > 0 ==>
        && currentIndex == NextCursor(old(currentIndex), |old(playlist)|, old(playMode))
        && PlayedCurrent(r, old(player), old(events))
    {
      if |playlist| == 0 {
        return Fail(PlaylistEmpty);
      }
      if Steps(playMode) {
        currentIndex := currentIndex + 1;
        if currentIndex >= |playlist| {
          currentIndex := 0;
        }
      }
      r := PlayCurrent();
    }

    /** Fails with PlaylistEmpty on an empty list and changes nothing; otherwise moves the
        cursor one step back (not in repeat mode) and plays the current song. */
    method PlayPrevious() returns (r: Status)
      requires Valid()
      modifies this
      ensures Valid()
      ensures autoPlay == old(autoPlay)
      ensures |old(playlist)| == 0 ==> r == Fail(PlaylistEmpty) && unchanged(this)
      ensures |old(playlist)| > 0 ==>
        && currentIndex == PrevCursor(old(currentIndex), |old(playlist)|, old(playMode))
        && PlayedCurrent(r, old(player), old(events))
    {
      if |playlist| == 0 {
        return Fail(PlaylistEmpty);
      }
      if Steps(playMode) {
        currentIndex := currentIndex - 1;
        if currentIndex < 0 {
          currentIndex := |playlist| - 1;
        }
      }
      r := PlayCurrent();
    }

    /** Plays the given song. The cursor moves to the first entry with the same path only
        when that entry is past index 0; the song is started whether or not it is listed. */
    method PlaySong(song: Song) returns (r: Status)
      requires Valid()
      modifies this
      ensures Valid()
      ensures old(player).None? ==> r == Fail(PlayerNotReady) && unchanged(this)
      ensures old(player).Some? ==>
        && currentIndex == (if FirstMatch(playlist, song.path) > 0 then FirstMatch(playlist, song.path)
                            else old(currentIndex))
        && Started(song, old(player).value, old(events), r)
      ensures old(player).Some? && playMode != Shuffle && FirstMatch(playlist, song.path) > 0 ==>
        var current := CurrentSong(playlist, shuffleList[..], currentIndex, playMode);
        current.Success? && current.value.path == song.path
      ensures playlist == old(playlist) && playMode == old(playMode)
      ensures shuffleList == old(shuffleList) && autoPlay == old(autoPlay)
    {
      if player.None? {
        return Fail(PlayerNotReady);
      }
      var found := -1;
      var i := 0;
      while i < |playlist|
        invariant 0 <= i <= |playlist|
        invariant found == -1
        invariant forall k :: 0 <= k < i ==> playlist[k].path != song.path
      {
        if playlist[i].path == song.path {
          found := i;
          break;
        }
        i := i + 1;
      }
      if found > 0 {
        currentIndex := found;
      }
      r := Play(song);
    }

    /** Fails with InvalidIndex off the list and changes nothing; otherwise puts the cursor
        on `index` and plays the current song. */
    method PlaySongByIndex(index: int) returns (r: Status)
      requires Valid()
      modifies this
      ensures Valid()
      ensures autoPlay == old(autoPlay)
      ensures !(0 <= index < |old(playlist)|) ==> r == Fail(InvalidIndex) && unchanged(this)
      ensures 0 <= index < |old(playlist)| ==> currentIndex == index && PlayedCurrent(r, old(player), old(events))
    {
      if index < 0 || index >= |playlist| {
        return Fail(InvalidIndex);
      }
      currentIndex := index;
      r := PlayCurrent();
    }

    /** Switching mode. The current mode is a no-op; normal (or "") resets the cursor;
        repeat keeps it; shuffle regenerates the order and resets the cursor; anything else
        fails and changes nothing. */
    method SetPlayMode(mode: string) returns (r: Status)
      requires Valid()
      modifies this
      ensures Valid()
      ensures playlist == old(playlist) && player == old(player) && events == old(events)
      ensures autoPlay == old(autoPlay)
      ensures mode == old(playMode) ==> r == Ok && unchanged(this)
      ensures mode != old(playMode) && !IsMode(mode) ==> r == Fail(InvalidPlayMode) && unchanged(this)
      ensures mode != old(playMode) && IsMode(mode) ==> r == Ok && playMode == mode
      ensures mode != old(playMode) && (mode == Normal || mode == "") ==>
        currentIndex == 0 && shuffleList == old(shuffleList)
      ensures mode != old(playMode) && mode == Repeat ==>
        currentIndex == old(currentIndex) && shuffleList == old(shuffleList)
      ensures mode != old(playMode) && mode == Shuffle ==>
        currentIndex == 0 && fresh(shuffleList) && IsPermutation(shuffleList[..], |playlist|)
    {
      if mode == playMode {
        return Ok;
      }
      if mode == Normal || mode == "" {
        currentIndex := 0;
        playMode := mode;
        return Ok;
      } else if mode == Repeat {
        playMode := mode;
        return Ok;
      } else if mode == Shuffle {
        playMode := mode;
        InitShuffleList();
        currentIndex := 0;
        return Ok;
      }
      return Fail(InvalidPlayMode);
    }

    /** In shuffle mode: a new order and the cursor back to 0. In other modes: nothing. */
    method ResetShuffleList()
      requires Valid()
      modifies this
      ensures Valid()
      ensures old(playMode) != Shuffle ==> unchanged(this)
      ensures old(playMode) == Shuffle ==>
        currentIndex == 0 && fresh(shuffleList) && IsPermutation(shuffleList[..], |playlist|)
      ensures playlist == old(playlist) && playMode == old(playMode) && player == old(player)
      ensures events == old(events) && autoPlay == old(autoPlay)
    {
      if playMode != Shuffle {
        return;
      }
      InitShuffleList();
      currentIndex := 0;
    }

    /** The list as viewed: in shuffle mode a new sequence read through the shuffle order
        (regenerated first when its length is stale), otherwise the list itself. Either way
        it holds exactly the songs of the list. */
    method PlayList() returns (view: seq<Song>)
      requires Valid()
      modifies this
      ensures Valid()
      ensures playlist == old(playlist) && currentIndex == old(currentIndex) && playMode == old(playMode)
      ensures player == old(player) && events == old(events) && autoPlay == old(autoPlay)
      ensures playMode == Shuffle && old(shuffleList).Length != |playlist| ==>
        fresh(shuffleList) && shuffleList.Length == |playlist|
      ensures !(playMode == Shuffle && old(shuffleList).Length != |playlist|) ==> shuffleList == old(shuffleList)
      ensures playMode == Shuffle ==> IsPermutation(shuffleList[..], |playlist|)
      ensures view == ViewOf(playlist, shuffleList[..], playMode)
      ensures |view| == |playlist| && multiset(view) == multiset(playlist)
    {
      if playMode == Shuffle {
        if shuffleList.Length != |playlist| {
          InitShuffleList();
        }
        PermutationBounds(shuffleList[..], |playlist|);
        view := ReadThrough(playlist, shuffleList);
        return;
      }
      return playlist;
    }

    /** The completion handler bound by Play, run when the started file reaches its end: the
        one-shot callback is used up, observers hear that the bound song finished and, with
        auto-play on, the manager moves on as PlayNext does. `r` is what that PlayNext
        reports (the handler itself discards it). It only fires while a callback is pending,
        so at most once per successful Play and never after a failed one. */
    method CompleteStream() returns (r: Status)
      requires Valid()
      requires player.Some? ==> player.value.stream.Some?
      modifies this
      ensures Valid()
      ensures autoPlay == old(autoPlay)
      ensures old(player).None? || old(player).value.onComplete.None? ==> r == Ok && unchanged(this)
      ensures old(player).Some? && old(player).value.onComplete.Some? && (!autoPlay || |old(playlist)| == 0) ==>
        && events == old(events) + [Completed(old(player).value.onComplete.value)]
        && player == Some(old(player).value.(stream := None))
        && r == (if autoPlay then Fail(PlaylistEmpty) else Ok)
        && playlist == old(playlist) && currentIndex == old(currentIndex) && playMode == old(playMode)
        && shuffleList == old(shuffleList)
      ensures old(player).Some? && old(player).value.onComplete.Some? && autoPlay && |old(playlist)| > 0 ==>
        && currentIndex == NextCursor(old(currentIndex), |old(playlist)|, old(playMode))
        && PlayedCurrent(r, Some(old(player).value.(stream := None)),
                         old(events) + [Completed(old(player).value.onComplete.value)])
    {
      if player.None? || player.value.onComplete.None? {
        return Ok;
      }
      player := Some(player.value.(stream := None));
      events := events + [Completed(player.value.onComplete.value)];
      r := Ok;
      if autoPlay {
        r := PlayNext();
      }
    }
  }
}
