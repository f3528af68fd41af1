/** The cursor arithmetic, list surgery and lookups the play manager performs, stated as
    functions of its state so that the manager's methods can be proved against them. */
module Navigation {
  import opened Types
  import opened Permutation

  /** Modes in which next/previous move the cursor (the empty string counts as normal). */
  predicate Steps(mode: string) {
    mode == Normal || mode == "" || mode == Shuffle
  }

  /** The modes the manager accepts. */
  predicate IsMode(mode: string) {
    Steps(mode) || mode == Repeat
  }

  /** The cursor after "next" on a list of `len` songs: one step forward, back to 0 past
      the end; repeat mode stays. */
  function NextCursor(cursor: int, len: nat, mode: string): (r: int)
    requires len > 0
    ensures !Steps(mode) ==> r == cursor
    ensures Steps(mode) && -1 <= cursor < len ==> r == (cursor + 1) % len
    ensures Steps(mode) && cursor >= len ==> r == 0
    ensures Steps(mode) && cursor < -1 ==> r == cursor + 1
    ensures Steps(mode) && -1 <= cursor ==> 0 <= r < len
  {
    if Steps(mode) then
      if cursor + 1 >= len then 0 else cursor + 1
    else cursor
  }

  /** The cursor after "previous": one step back, to the last song from 0 or below; repeat
      mode stays. A cursor at or past the end is only decremented, so from past the end it
      stays out of range. */
  function PrevCursor(cursor: int, len: nat, mode: string): (r: int)
    requires len > 0
    ensures !Steps(mode) ==> r == cursor
    ensures Steps(mode) && 0 <= cursor < len ==> r == (cursor + len - 1) % len
    ensures Steps(mode) && cursor < 0 ==> r == len - 1
    ensures Steps(mode) && cursor >= len ==> r == cursor - 1 >= len - 1
    ensures Steps(mode) && cursor <= len ==> 0 <= r < len
  {
    if Steps(mode) then
      if cursor - 1 < 0 then len - 1 else cursor - 1
    else cursor
  }

  /** Next and previous undo each other on an in-range cursor. */
  lemma NextPrevInverse(cursor: int, len: nat, mode: string)
    requires len > 0 && 0 <= cursor < len
    ensures PrevCursor(NextCursor(cursor, len, mode), len, mode) == cursor
    ensures NextCursor(PrevCursor(cursor, len, mode), len, mode) == cursor
  {
  }

  /** The cursor after `k` consecutive "next" steps. */
  function Advance(cursor: int, len: nat, mode: string, k: nat): int
    requires len > 0
  {
    if k == 0 then cursor else NextCursor(Advance(cursor, len, mode, k - 1), len, mode)
  }

  /** Up to one lap, `k` steps from `cursor` land on cursor + k, wrapped once. */
  lemma {:induction false} AdvanceWraps(cursor: int, len: nat, mode: string, k: nat)
    requires len > 0 && Steps(mode) && 0 <= cursor < len && k <= len
    ensures Advance(cursor, len, mode, k) == if cursor + k < len then cursor + k else cursor + k - len
  {
    if k > 0 {
      AdvanceWraps(cursor, len, mode, k - 1);
    }
  }

  /** `len` steps forward return to the starting song. */
  lemma AdvanceLap(cursor: int, len: nat, mode: string)
    requires len > 0 && Steps(mode) && 0 <= cursor < len
    ensures Advance(cursor, len, mode, len) == cursor
  {
    AdvanceWraps(cursor, len, mode, len);
  }

  /** The positions the cursor takes during `len` consecutive "next" steps. */
  function Lap(cursor: int, len: nat, mode: string): set<int>
    requires len > 0
  {
    set k | 0 <= k < len :: Advance(cursor, len, mode, k)
  }

  /** Within one lap every position is visited, and none twice. */
  lemma AdvanceVisitsEachOnce(cursor: int, len: nat, mode: string)
    requires len > 0 && Steps(mode) && 0 <= cursor < len
    ensures forall t :: t in Lap(cursor, len, mode) <==> 0 <= t < len
    ensures forall k1, k2 :: 0 <= k1 < k2 < len ==> Advance(cursor, len, mode, k1) != Advance(cursor, len, mode, k2)
  {
    var visited := Lap(cursor, len, mode);
    forall t | 0 <= t < len ensures t in visited {
      var k := if t >= cursor then t - cursor else t - cursor + len;
      AdvanceWraps(cursor, len, mode, k);
    }
    forall k | 0 <= k < len ensures 0 <= Advance(cursor, len, mode, k) < len {
      AdvanceWraps(cursor, len, mode, k);
    }
    forall k1, k2 | 0 <= k1 < k2 < len
      ensures Advance(cursor, len, mode, k1) != Advance(cursor, len, mode, k2)
    {
      AdvanceWraps(cursor, len, mode, k1);
      AdvanceWraps(cursor, len, mode, k2);
    }
  }

  /** The list with entry `i` spliced out; the others keep their order. */
  function RemoveAt<T>(s: seq<T>, i: int): (r: seq<T>)
    requires 0 <= i < |s|
    ensures |r| == |s| - 1
    ensures forall k :: 0 <= k < i ==> r[k] == s[k]
    ensures forall k :: i <= k < |r| ==> r[k] == s[k + 1]
    ensures multiset(r) + multiset{s[i]} == multiset(s)
  {
    assert s == s[..i] + [s[i]] + s[i+1..];
    s[..i] + s[i+1..]
  }

  /** The cursor after removing entry `index`: it moves down one when it was at or after it. */
  function CursorAfterRemoval(cursor: int, index: int): (r: int)
    ensures index >= 0 && cursor >= -1 ==> r >= -1
    ensures r == cursor || r == cursor - 1
    ensures r < cursor <==> cursor >= index
  {
    if cursor >= index then cursor - 1 else cursor
  }

  /** Outside shuffle mode, where the cursor indexes the list: a removal other than at the
      cursor keeps the cursor on the same song; removing the song under the cursor moves it
      to the song before (or to -1). */
  lemma RemovalKeepsCurrent<T>(s: seq<T>, index: int, cursor: int)
    requires 0 <= index < |s| && 0 <= cursor < |s|
    ensures cursor != index ==>
      0 <= CursorAfterRemoval(cursor, index) < |s| - 1
      && RemoveAt(s, index)[CursorAfterRemoval(cursor, index)] == s[cursor]
    ensures cursor == index ==> CursorAfterRemoval(cursor, index) == index - 1
  {
  }

  /** In shuffle mode the cursor indexes the shuffle order, yet removal compares it with a
      list position. On [A, B, C] with order [1, 2, 0] and cursor 0 the current song is B;
      removing A (not current) sends the cursor to -1, so the lookup then fails, while
      removing B (current) leaves the cursor at 0. */
  lemma ShuffleRemovalMovesByListPosition(a: Song, b: Song, c: Song)
    ensures CurrentSong([a, b, c], [1, 2, 0], 0, Shuffle) == Success(b)
    ensures CursorAfterRemoval(0, 0) == -1
    ensures CurrentSong(RemoveAt([a, b, c], 0), [1, 2, 0], -1, Shuffle) == Failure(InvalidIndex)
    ensures CursorAfterRemoval(0, 1) == 0
  {
    RotationIsPermutation();
  }

  /** The order used above is a permutation of [0, 3). */
  lemma RotationIsPermutation()
    ensures IsPermutation([1, 2, 0], 3)
  {
    calc {
      Iota(3);
      Iota(2) + [2];
      Iota(1) + [1] + [2];
      [0] + [1] + [2];
    }
    calc {
      multiset([1, 2, 0]);
      multiset([1]) + multiset([2]) + multiset([0]);
      multiset([0]) + multiset([1]) + multiset([2]);
      multiset(Iota(3));
    }
  }

  /** The index of the first song with the given path, or -1 when there is none. */
  function FirstMatch(list: seq<Song>, path: string): (r: int)
    ensures -1 <= r < |list|
    ensures r >= 0 ==> list[r].path == path
    ensures forall k :: 0 <= k < |list| && (r < 0 || k < r) ==> list[k].path != path
  {
    if list == [] then -1
    else if list[0].path == path then 0
    else
      var r := FirstMatch(list[1..], path);
      if r < 0 then -1 else r + 1
  }

  /** The song under the cursor: the cursor indexes the list directly, or the shuffle order
      in shuffle mode. Fails with InvalidIndex off the list, the empty list included. */
  function CurrentSong(list: seq<Song>, order: seq<int>, cursor: int, mode: string): (r: Result<Song>)
    requires mode == Shuffle && 0 <= cursor < |list| ==> IsPermutation(order, |list|)
    ensures r.Failure? <==> !(0 <= cursor < |list|)
    ensures r.Failure? ==> r.error == InvalidIndex
    ensures r.Success? ==> r.value in list
    ensures r.Success? && mode != Shuffle ==> r.value == list[cursor]
  {
    if cursor < 0 || cursor >= |list| then Failure(InvalidIndex)
    else if mode == Shuffle then
      PermutationBounds(order, |list|);
      Success(list[order[cursor]])
    else Success(list[cursor])
  }

  /** The playlist as the user sees it: through the shuffle order in shuffle mode, the list
      itself otherwise. Either way it holds the same songs as the list. */
  function ViewOf(list: seq<Song>, order: seq<int>, mode: string): (r: seq<Song>)
    requires mode == Shuffle ==> IsPermutation(order, |list|)
    ensures |r| == |list|
    ensures multiset(r) == multiset(list)
    ensures mode != Shuffle ==> r == list
  {
    if mode == Shuffle then
      PermuteMultiset(list, order);
      Permute(list, order)
    else list
  }

  /** The current song is the entry of the view at the cursor, in every mode. */
  lemma CurrentIsViewEntry(list: seq<Song>, order: seq<int>, cursor: int, mode: string)
    requires mode == Shuffle ==> IsPermutation(order, |list|)
    requires 0 <= cursor < |list|
    ensures CurrentSong(list, order, cursor, mode) == Success(ViewOf(list, order, mode)[cursor])
  {
    if mode == Shuffle {
      PermutationBounds(order, |list|);
    }
  }

  /** In shuffle mode one lap of "next" plays every song of the list exactly as often as it
      occurs there: the songs at cursors 0..len-1 are the view, a rearrangement of the list. */
  lemma ShuffleLapPlaysEverySong(list: seq<Song>, order: seq<int>)
    requires IsPermutation(order, |list|)
    ensures multiset(seq(|list|, k requires 0 <= k < |list| => CurrentSong(list, order, k, Shuffle).value))
         == multiset(list)
  {
    var lap := seq(|list|, k requires 0 <= k < |list| => CurrentSong(list, order, k, Shuffle).value);
    forall k | 0 <= k < |list| ensures lap[k] == ViewOf(list, order, Shuffle)[k] {
      CurrentIsViewEntry(list, order, k, Shuffle);
    }
    assert lap == ViewOf(list, order, Shuffle);
  }
}
