# Playlist and play-mode manager, modelled in Dafny

This project models the playlist / play-mode manager of a terminal music player
(`internal/play_manager/play_manager.go`). The manager keeps four pieces of state:

- an ordered list of songs, each identified by its file path;
- a cursor (`currentIndex`);
- a shuffle order, regenerated lazily whenever its length no longer matches the list;
- a play mode: `"normal"`, `""` (treated as normal), `"repeat"` or `"shuffle"`.

It decides which song plays when the user asks for next, previous, a song, or an index. It
hands the chosen file to a playback session.

Layout:

- `types.dfy` (`Types`): songs, the error values, the `error` result (`Status`), the
  notifications, and the mode names.
- `audio.dfy` (`Audio`): the playback session as the manager sees it. That is which started
  file still has its end-of-stream callback pending (`stream`) and which song the completion
  handler is bound to. The set `rejects` stands for the
  files the audio library cannot open or decode, so `Play` may fail.
- `permutation.dfy` (`Permutation`): the identity order, what it means to be a permutation
  of `[0, n)`, and the view of a list through an index order. The main lemma: viewing a
  list through a permutation keeps its multiset of songs.
- `navigation.dfy` (`Navigation`): pure specifications of the manager's arithmetic and
  lookups. These are next and previous with wraparound, splicing an entry out, the cursor
  adjustment on removal, the first path match, the current-song lookup and the playlist
  view. It also holds lemmas about them: one lap of "next" visits every position once and
  returns to the start; outside shuffle mode a removal elsewhere keeps the cursor on the
  same song; the current song is the view's entry at the cursor.
- `play_manager.dfy` (`Playback`): the `PlayManager` class. Its fields are the list, the
  cursor, the shuffle order (an `array<int>`), the mode, the auto-play flag, the player and
  the log of notifications fired. The methods that move the cursor, splice the list or look
  songs up are proved against the functions of `Navigation`; the others state the new value
  of every field directly. The class invariant `Valid()` says three things. The shuffle order is a
  permutation of its own index range. The cursor is at least -1. The mode is one of the four
  accepted strings. Every method preserves it. The Fisher-Yates shuffle is an in-place loop
  over the index array.
- `scenarios.dfy` (`Scenarios`): client code that derives three playlist scenarios
  (wraparound, repeat, refusals) from the contracts alone. With `[A, B, C]` in normal mode, next, next, next plays B, C, A. In repeat
  mode next and previous stay on B. An unknown mode is refused without a change, and so is a
  removal at the list length. An empty list reports `PlaylistEmpty` and `InvalidIndex`.

Behaviour kept as the code has it:

- `PlaySong` moves the cursor to the first path match only when that index is greater than
  0. A match at index 0 leaves the cursor where it was.
- In shuffle mode `PlaySong` stores a canonical list index into a cursor that indexes the
  shuffle order. The song it starts may therefore differ from the current song afterwards.
  `PlaySong`'s contract promises the current song only outside shuffle mode.
- `SetSongs` resets neither cursor nor mode. So the cursor can end up past the end of the
  list. From such a cursor `NextCursor` resets to 0, while `PrevCursor` only decrements it,
  so the cursor stays past the end until it reaches the last song (both stated in their
  contracts).
- From a cursor of -1, left by removing the song at index 0, "previous" goes to the last
  song, `len - 1`, and not to `(cursor - 1) mod len`, which would be `len - 2`.
- Outside shuffle mode, removing the song under the cursor moves the cursor to the song
  before it, or to -1 (`Navigation.RemovalKeepsCurrent`).
- In shuffle mode the cursor indexes the shuffle order, but removal compares it with a list
  position. So removing a song that is not current can move the cursor (even to -1, after
  which the lookup fails), and removing the current song can leave the cursor where it was
  (`Navigation.ShuffleRemovalMovesByListPosition`).
- The completion callback is chained once after the decoded stream
  (`internal/player/player.go:69-73`), and `Close` pauses the stream
  (`internal/player/player.go:211-213`). So the handler fires at most once per successful
  `Play` and never after a failed one. The model records this by clearing `stream` when the
  handler runs (`Playback.PlayManager.CompleteStream`); the library itself keeps the
  exhausted file loaded until the next `Play` or `Close`.

## Model

| member | source | states |
|---|---|---|
| `Navigation.NextCursor` | internal/play_manager/play_manager.go:172-180 | In normal, `""` and shuffle mode a cursor in [-1, len) becomes (cursor + 1) mod len, a cursor at or past len resets to 0, a cursor below -1 only increments, so from any cursor >= -1 it lands in [0, len); repeat mode leaves it unchanged |
| `Navigation.PrevCursor` | internal/play_manager/play_manager.go:190-198 | In stepping modes an in-range cursor becomes (cursor - 1) mod len, a negative cursor goes to len - 1, a cursor at or past len is only decremented, so from any cursor <= len it lands in [0, len); repeat mode leaves it unchanged |
| `Navigation.NextPrevInverse` | internal/play_manager/play_manager.go:172-198 | On an in-range cursor, next then previous (and previous then next) returns to the same cursor, in every mode |
| `Navigation.AdvanceWraps` | internal/play_manager/play_manager.go:174-177 | k <= len consecutive next steps from an in-range cursor land on cursor + k, wrapped once past the end |
| `Navigation.AdvanceLap` | internal/play_manager/play_manager.go:174-177 | len consecutive next steps return the cursor to where it started |
| `Navigation.AdvanceVisitsEachOnce` | internal/play_manager/play_manager.go:174-177 | Within one lap of len next steps every position of [0, len) is visited and no position twice |
| `Navigation.RemoveAt` | internal/play_manager/play_manager.go:97 | Splicing out entry i shortens the list by one, keeps the entries before i in place, shifts the later ones down by one, and removes exactly one occurrence of the removed song from the multiset |
| `Navigation.CursorAfterRemoval` | internal/play_manager/play_manager.go:98-100 | The cursor moves down by one exactly when it was at or after the removed index, and otherwise stays; a cursor >= -1 stays >= -1 |
| `Navigation.RemovalKeepsCurrent` | internal/play_manager/play_manager.go:80-83 | Outside shuffle mode, where the cursor indexes the list: removing a song other than the current one leaves the cursor in range on the same song; removing the current song moves the cursor to the previous index |
| `Navigation.ShuffleRemovalMovesByListPosition` | internal/play_manager/play_manager.go:97-100 | In shuffle mode the removal rule follows list positions, not the current song: on [A, B, C] with order [1, 2, 0] and cursor 0 (current B), removing A sends the cursor to -1 and the lookup then fails with InvalidIndex, while removing B keeps the cursor at 0 |
| `Navigation.FirstMatch` | internal/play_manager/play_manager.go:78-79 | The result is -1 exactly when no song has the path, and otherwise the smallest index whose song has the path |
| `Navigation.CurrentSong` | internal/play_manager/play_manager.go:107-120 | Fails with InvalidIndex exactly when the cursor is outside [0, len), the empty list included; otherwise yields a song of the list, namely list[cursor] outside shuffle mode |
| `Navigation.ViewOf` | internal/play_manager/play_manager.go:287-300 | The view has the list's length and exactly its songs (same multiset); outside shuffle mode it is the list itself |
| `Navigation.CurrentIsViewEntry` | internal/play_manager/play_manager.go:107-120 | For an in-range cursor the current song is the view's entry at the cursor, in every mode |
| `Navigation.ShuffleLapPlaysEverySong` | internal/play_manager/play_manager.go:112-116 | In shuffle mode the songs at cursors 0..len-1 form a rearrangement of the list: one lap plays each listed song exactly as often as it is listed |
| `Permutation.Iota` | internal/play_manager/play_manager.go:263-266 | The filled index sequence has length n and holds i at position i |
| `Permutation.IotaMultiplicity` | internal/play_manager/play_manager.go:263-266 | Each index in [0, n) occurs exactly once in the identity order, and no other value occurs |
| `Permutation.PermutationBounds` | internal/play_manager/play_manager.go:116 | A permutation of [0, n) has length n and only entries in [0, n), so the shuffled lookup never leaves the list |
| `Permutation.PermutationDistinct` | internal/play_manager/play_manager.go:262-277 | A permutation of [0, n) has no duplicate entries |
| `Permutation.Permute` | internal/play_manager/play_manager.go:292-295 | The list read through an index order has the order's length and holds list[order[i]] at position i |
| `Permutation.PermuteSameMultiset` | internal/play_manager/play_manager.go:293-295 | Reading a list through two orders holding the same indices yields the same multiset of songs |
| `Permutation.PermuteMultiset` | internal/play_manager/play_manager.go:292-296 | Reading a list through a permutation of its indices yields a sequence of the same length with the same multiset of songs |
| `Audio.Play` | internal/player/player.go:52-79 | Starting a file closes any open stream; it succeeds exactly when the library accepts the file, leaving that file open, and otherwise fails with no stream open |
| `Audio.SetOnComplete` | internal/player/player.go:45-48 | Installing the completion handler binds it to the given song and leaves the open stream and the rejected files unchanged |
| `Playback.ShuffleInPlace` | internal/play_manager/play_manager.go:271-277 | Fisher-Yates with any draws j in [0, i] leaves the array a rearrangement of its input (same multiset) |
| `Playback.ReadThrough` | internal/play_manager/play_manager.go:292-295 | The new sequence has the order's length and holds list[order[i]] at position i |
| `Playback.PlayManager.constructor` | internal/play_manager/play_manager.go:47-59 | A new manager has an empty list, cursor 0, normal mode, auto-play off, an idle player and an empty shuffle order (nil in the source), and satisfies the invariant |
| `Playback.PlayManager.SetSongs` | internal/play_manager/play_manager.go:61-67 | The list is replaced wholesale and a list-changed notification fires; cursor, mode and shuffle order are left as they were |
| `Playback.PlayManager.AddSongs` | internal/play_manager/play_manager.go:69-75 | The songs are appended, the old list stays a prefix, and a list-changed notification fires |
| `Playback.PlayManager.RemoveSong` | internal/play_manager/play_manager.go:77-91 | Only the first song with an equal path is removed (the rest keep their order) and the cursor is adjusted as `CursorAfterRemoval`; with no match, list and cursor are unchanged; the notification fires in both cases |
| `Playback.PlayManager.RemoveSongByIndex` | internal/play_manager/play_manager.go:93-105 | An index outside [0, len) changes nothing, fires nothing and raises no error; otherwise exactly that entry is removed and the cursor adjusted as `CursorAfterRemoval` |
| `Playback.PlayManager.GetCurrentSong` | internal/play_manager/play_manager.go:107-120 | Returns `CurrentSong` of the state, after regenerating the shuffle order exactly when the cursor is in range, the mode is shuffle and the order's length is stale; nothing else changes |
| `Playback.PlayManager.InitShuffleList` | internal/play_manager/play_manager.go:262-269 | The new shuffle order is a fresh array of the list's length holding a permutation of [0, len) |
| `Playback.PlayManager.Play` | internal/play_manager/play_manager.go:135-148 | Asks the player to start the song; on success a play notification fires and the completion handler is bound to that song; on failure the player's error is returned and nothing is notified |
| `Playback.PlayManager.PlayCurrent` | internal/play_manager/play_manager.go:150-165 | Fails with PlayerNotReady when there is no player; otherwise looks up the current song (regenerating a stale order) and returns its lookup error or starts it; the cursor never moves |
| `Playback.PlayManager.PlayNext` | internal/play_manager/play_manager.go:167-183 | An empty list gives PlaylistEmpty and changes nothing; otherwise the cursor becomes `NextCursor` (unchanged in repeat mode) and the current song is played as by PlayCurrent |
| `Playback.PlayManager.PlayPrevious` | internal/play_manager/play_manager.go:185-201 | An empty list gives PlaylistEmpty and changes nothing; otherwise the cursor becomes `PrevCursor` (unchanged in repeat mode) and the current song is played as by PlayCurrent |
| `Playback.PlayManager.PlaySong` | internal/play_manager/play_manager.go:203-225 | No player gives PlayerNotReady and changes nothing; otherwise the cursor moves to the first path match only when it is > 0, and the given song is started whether or not it is listed; outside shuffle mode a match past 0 becomes the current song |
| `Playback.PlayManager.PlaySongByIndex` | internal/play_manager/play_manager.go:227-233 | An index outside [0, len) gives InvalidIndex and changes nothing; otherwise the cursor is set to the index and the current song is played |
| `Playback.PlayManager.SetPlayMode` | internal/play_manager/play_manager.go:239-260 | The current mode is a no-op success; normal or `""` resets the cursor to 0; repeat keeps it; shuffle regenerates a permutation and resets the cursor; any other string fails with InvalidPlayMode and changes nothing |
| `Playback.PlayManager.ResetShuffleList` | internal/play_manager/play_manager.go:279-285 | Outside shuffle mode nothing changes; in shuffle mode a fresh permutation of [0, len) replaces the order and the cursor returns to 0 |
| `Playback.PlayManager.PlayList` | internal/play_manager/play_manager.go:287-300 | Returns `ViewOf` the state: in shuffle mode a new sequence read through the (regenerated if stale) order, otherwise the list; in every mode it has the list's length and exactly its songs |
| `Playback.PlayManager.CompleteStream` | internal/play_manager/play_manager.go:122-133 | Fires only while the started file's callback is pending, and uses it up; a completed notification fires for the bound song, and with auto-play on the manager then behaves as PlayNext; with no handler bound nothing happens |

## Left out

- Randomness: `rand.Intn(i + 1)` is an arbitrary choice of j in [0, i]. The contracts hold
  for every choice; the uniformity of the shuffle is not modelled.
- Audio: decoding, resampling, volume, speed, seeking, pausing and the speaker belong to the
  audio library. `internal/player/player.go` is not part of this model beyond whether
  `Play` succeeds for a file, whether a started file's end-of-stream callback is
  still pending (which gates the completion handler), and which song the completion handler is bound to. Whether a file opens is a
  fixed function of its path (the set `rejects`), so a file that failed once always fails;
  in the source a file can fail once and open later, or the reverse, for example when it
  is deleted or becomes unreadable during the session.
- Songs are values, never nil. In the source they are pointers, and a nil song passed to
  `RemoveSong` or `PlaySong`, or a nil entry of the list that gets played, panics when its
  path is read. The model does not capture those panics.
- Callbacks: `OnCompleted`, `OnPlay` and `OnListChanged` are recorded as entries of the
  `events` log. Whether an observer is attached, and what it does, is not modelled. A
  notification is logged wherever the source would call the observer if one were set.
- Playback.PlayManager.CompleteStream: the completion handler really runs on its own
  goroutine, concurrently with the control thread. The model runs it as one sequential
  step, and it returns PlayNext's status, which the handler itself discards. After it the
  model's `stream` is None, whereas the library still holds the exhausted file, so its
  `Info` and `Replay` (not part of this model) would still see that file.
- Aliasing: `SetSongs` stores the caller's slice, `PlayList` returns the internal slice
  outside shuffle mode, and the removal splice reuses the slice's storage. All of these are
  value sequences here. So changes made through an aliased slice, by the caller or by the
  manager, are not captured.
- The player is a value (`Option<Audio.Player>`) rather than a shared pointer. A player
  replaced or set to nil while an old handler is still installed is not captured.
- `PlayMode()`, a plain getter, is the field `playMode` itself.
- The front ends in `cmd/` and `internal/tui/` are not part of this model.
