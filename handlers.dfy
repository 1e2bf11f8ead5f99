/**
 * What the delete and edit handlers do to the shared song array once the
 * store has answered with success (app.js:148-156 and app.js:254-255).
 *
 * The delete click looks the song up by id and keeps that object; only when
 * the DELETE request comes back does it splice out `indexOf(currentSong)`.
 * The edit apply looks up the index of the store's updated record by id and
 * overwrites that slot.
 */
module Handlers {
  import opened Wrappers
  import opened Songs
  import opened Collection

  /**
   * `songs.splice(songs.indexOf(currentSong), 1)` (app.js:156), as written.
   * While `current` is still in the array, exactly its first occurrence
   * goes and the rest keep their order.  Once it is no longer there (an
   * edit has replaced its slot meanwhile), `indexOf` gives -1 and the last
   * song goes instead.
   */
  method DeleteConfirmed(songs: SongList, current: Song)
    modifies songs
    ensures current in old(songs.items) ==>
      var i := Position(old(songs.items), current);
      songs.items == old(songs.items)[..i] + old(songs.items)[i + 1..]
    ensures current !in old(songs.items) && old(songs.items) != [] ==>
      songs.items == old(songs.items)[..|old(songs.items)| - 1]
    ensures old(songs.items) == [] ==> songs.items == []
  {
    var i := songs.IndexOf(current);
    songs.Splice(i);
  }

  /**
   * The as-written splice against a stale target: with [x, y] in the array
   * and a target object that is neither, y is removed although its id was
   * never deleted.
   */
  lemma StaleDeleteDropsLast(x: Song, y: Song, stale: Song)
    requires stale != x && stale != y
    ensures RemoveOne([x, y], Position([x, y], stale)) == [x]
  {
    assert stale !in [x, y];
  }

  /**
   * The first song carrying `id` removed, the others kept in order: the
   * length falls by one and the multiset loses exactly that song; with no
   * such song, nothing changes.
   */
  function RemoveFirstWithId(s: seq<Song>, id: int): (r: seq<Song>)
    ensures IdIndex(s, id) == -1 ==> r == s
    ensures 0 <= IdIndex(s, id) ==> r == RemoveOne(s, IdIndex(s, id))
    ensures 0 <= IdIndex(s, id) ==> |r| == |s| - 1
    ensures 0 <= IdIndex(s, id) ==> multiset(r) + multiset{s[IdIndex(s, id)]} == multiset(s)
  {
    var i := IdIndex(s, id);
    if i < 0 then s
    else
      assert s == s[..i] + [s[i]] + s[i + 1..];
      assert multiset(s) == multiset(s[..i]) + multiset{s[i]} + multiset(s[i + 1..]);
      s[..i] + s[i + 1..]
  }

  /**
   * The corrected success path: remove the song with the deleted id,
   * found afresh when the store answers, and nothing when it is gone.
   */
  method DeleteConfirmedById(songs: SongList, current: Song)
    modifies songs
    ensures songs.items == RemoveFirstWithId(old(songs.items), current.id)
  {
    var i := songs.FindIndex(current.id);
    if i >= 0 {
      songs.Splice(i);
    }
  }

  /**
   * While the song found at click time is still in the array, the
   * as-written delete and the corrected one agree: both remove the first
   * song carrying the clicked id.
   */
  lemma FoundSongIsFirstWithId(s: seq<Song>, id: int)
    requires IdIndex(s, id) >= 0
    ensures Position(s, s[IdIndex(s, id)]) == IdIndex(s, id)
    ensures RemoveOne(s, Position(s, s[IdIndex(s, id)])) == RemoveFirstWithId(s, id)
  {
  }

  /**
   * `songs[songs.findIndex(song => song.id === updated.id)] = updated`
   * (app.js:254-255): the first slot with the updated record's id now holds
   * it, every other slot and the length stay; with no such slot nothing
   * changes.
   */
  method EditConfirmed(songs: SongList, updated: Song)
    modifies songs
    ensures |songs.items| == |old(songs.items)|
    ensures var i := IdIndex(old(songs.items), updated.id);
      0 <= i ==> songs.items == old(songs.items)[i := updated]
    ensures (forall k :: 0 <= k < |old(songs.items)| ==> old(songs.items)[k].id != updated.id) ==>
      songs.items == old(songs.items)
  {
    var i := songs.FindIndex(updated.id);
    songs.SetAt(i, updated);
  }

  /** The ids of the songs, in order. */
  function Ids(s: seq<Song>): (r: seq<int>)
    ensures |r| == |s| && forall k :: 0 <= k < |s| ==> r[k] == s[k].id
  {
    if s == [] then [] else [s[0].id] + Ids(s[1..])
  }

  /** An edit changes the record in one slot but keeps every slot's id. */
  lemma EditKeepsIds(s: seq<Song>, updated: Song)
    requires IdIndex(s, updated.id) >= 0
    ensures Ids(s[IdIndex(s, updated.id) := updated]) == Ids(s)
  {
    var t := s[IdIndex(s, updated.id) := updated];
    assert |Ids(t)| == |Ids(s)|;
    forall k | 0 <= k < |s|
      ensures Ids(t)[k] == Ids(s)[k]
    {
    }
  }
}
