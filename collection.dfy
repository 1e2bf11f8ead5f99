/**
 * The global array `songs` (app.js:38).  It is one mutable object that the
 * chart (`new MusicTop(songs)`), the delete handler and the edit handler all
 * share, so it is modelled as a class whose `items` every one of them
 * updates.  The methods are the JavaScript array operations the chart code uses.
 */
module Collection {
  import opened Wrappers
  import opened Songs

  /** `findIndex(song => song.id === id)`: the first index carrying `id`, or -1. */
  function IdIndex(s: seq<Song>, id: int): (i: int)
    ensures -1 <= i < |s|
    ensures i == -1 <==> forall k :: 0 <= k < |s| ==> s[k].id != id
    ensures 0 <= i ==> s[i].id == id && forall k :: 0 <= k < i ==> s[k].id != id
  {
    if s == [] then -1
    else if s[0].id == id then 0
    else
      var j := IdIndex(s[1..], id);
      if j == -1 then -1 else j + 1
  }

  /** `indexOf(x)`: the first index holding the very object `x`, or -1. */
  function Position(s: seq<Song>, x: Song): (i: int)
    ensures -1 <= i < |s|
    ensures i == -1 <==> x !in s
    ensures 0 <= i ==> s[i] == x && forall k :: 0 <= k < i ==> s[k] != x
  {
    if s == [] then -1
    else if s[0] == x then 0
    else
      var j := Position(s[1..], x);
      if j == -1 then -1 else j + 1
  }

  /** Where `splice(start, 1)` starts: a negative start counts from the end. */
  function SpliceStart(len: nat, start: int): (k: nat)
    ensures k <= len
    ensures k < len <==> 0 < len && start < len
    ensures 0 <= start < len ==> k == start
    ensures start < 0 && 0 <= len + start ==> k == len + start
  {
    if start < 0 then (if len + start < 0 then 0 else len + start)
    else if start <= len then start else len
  }

  /**
   * The array left by `splice(start, 1)`: when the normalised start is in
   * range, the element there is gone and the others keep their order;
   * otherwise nothing changes.
   */
  function RemoveOne(s: seq<Song>, start: int): (r: seq<Song>)
    ensures var k := SpliceStart(|s|, start);
      k < |s| ==>
        |r| == |s| - 1 &&
        (forall i :: 0 <= i < k ==> r[i] == s[i]) &&
        (forall i :: k <= i < |r| ==> r[i] == s[i + 1]) &&
        multiset(r) + multiset{s[k]} == multiset(s)
    ensures SpliceStart(|s|, start) == |s| ==> r == s
  {
    var k := SpliceStart(|s|, start);
    if k < |s| then
      assert s == s[..k] + [s[k]] + s[k + 1..];
      assert multiset(s) == multiset(s[..k]) + multiset{s[k]} + multiset(s[k + 1..]);
      s[..k] + s[k + 1..]
    else s
  }

  class SongList {
    var items: seq<Song>

    /** `const songs = []`. */
    constructor ()
      ensures items == []
    {
      items := [];
    }

    /** `push(s)`. */
    method Push(s: Song)
      modifies this
      ensures items == old(items) + [s]
    {
      items := items + [s];
    }

    /** `find(song => song.id == id)`: the first song carrying `id`, if any. */
    method Find(id: int) returns (found: Option<Song>)
      ensures found.None? <==> forall k :: 0 <= k < |items| ==> items[k].id != id
      ensures found.Some? ==> found.value in items && found.value.id == id
      ensures found.Some? ==> found.value == items[IdIndex(items, id)]
    {
      var i := 0;
      while i < |items|
        invariant 0 <= i <= |items|
        invariant forall k :: 0 <= k < i ==> items[k].id != id
      {
        if items[i].id == id {
          return Some(items[i]);
        }
        i := i + 1;
      }
      return None;
    }

    /** `findIndex(song => song.id === id)`. */
    method FindIndex(id: int) returns (i: int)
      ensures i == IdIndex(items, id)
    {
      i := 0;
      while i < |items|
        invariant 0 <= i <= |items|
        invariant forall k :: 0 <= k < i ==> items[k].id != id
      {
        if items[i].id == id {
          return;
        }
        i := i + 1;
      }
      i := -1;
    }

    /** `indexOf(x)`: compares object identity. */
    method IndexOf(x: Song) returns (i: int)
      ensures i == Position(items, x)
    {
      i := 0;
      while i < |items|
        invariant 0 <= i <= |items|
        invariant forall k :: 0 <= k < i ==> items[k] != x
      {
        if items[i] == x {
          return;
        }
        i := i + 1;
      }
      i := -1;
    }

    /** `splice(start, 1)`. */
    method Splice(start: int)
      modifies this
      ensures items == RemoveOne(old(items), start)
    {
      var k := SpliceStart(|items|, start);
      if k < |items| {
        items := items[..k] + items[k + 1..];
      }
    }

    /**
     * `songs[index] = s`.  A negative index makes a named property and
     * leaves the elements as they were.
     */
    method SetAt(index: int, s: Song)
      requires index < |items|
      modifies this
      ensures 0 <= index ==> items == old(items)[index := s]
      ensures index < 0 ==> items == old(items)
    {
      if 0 <= index {
        items := items[index := s];
      }
    }
  }
}
