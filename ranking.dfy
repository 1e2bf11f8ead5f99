/**
 * The chart (class `MusicTop`, app.js:110-129): it wraps the shared song
 * array, appends to it, and on `getTop()` sorts that very array in place,
 * most votes first and, among equal votes, latest entry first, then hands
 * back the first ten.
 */
module Ranking {
  import opened Songs
  import opened Collection

  /** `slice(0, 10)` in `getTop`. */
  const TopSize: nat := 10

  /** The comparator given to `sort` (app.js:121-126): negative puts `a` first. */
  function Compare(a: Song, b: Song): (r: int)
    reads a, b
    ensures r < 0 <==> a.votes > b.votes || (a.votes == b.votes && a.entryTopDate > b.entryTopDate)
    ensures r == 0 <==> a.votes == b.votes && a.entryTopDate == b.entryTopDate
    ensures r > 0 <==> b.votes > a.votes || (a.votes == b.votes && b.entryTopDate > a.entryTopDate)
  {
    if a.votes == b.votes then b.entryTopDate - a.entryTopDate else b.votes - a.votes
  }

  /** `a` may stand before `b` in the sorted array. */
  predicate Precedes(a: Song, b: Song)
    reads a, b
  {
    Compare(a, b) <= 0
  }

  /** `a` must stand before `b`: the comparator never lets them swap. */
  predicate Outranks(a: Song, b: Song)
    reads a, b
  {
    Compare(a, b) < 0
  }

  /** Every pair is in comparator order. */
  predicate Ranked(s: seq<Song>)
    reads s
  {
    forall i, j :: 0 <= i < j < |s| ==> Precedes(s[i], s[j])
  }

  /** No two positions tie under the comparator. */
  predicate StrictlyRanked(s: seq<Song>)
    reads s
  {
    forall i, j :: 0 <= i < j < |s| ==> Outranks(s[i], s[j])
  }

  /** The comparator in words: more votes first, then the later entry date. */
  lemma PrecedesMeaning(a: Song, b: Song)
    ensures Precedes(a, b) <==>
      a.votes > b.votes || (a.votes == b.votes && a.entryTopDate >= b.entryTopDate)
    ensures Outranks(a, b) <==>
      a.votes > b.votes || (a.votes == b.votes && a.entryTopDate > b.entryTopDate)
    ensures Precedes(a, b) || Precedes(b, a)
    ensures Outranks(a, b) <==> !Precedes(b, a)
  {
  }

  lemma PrecedesTransitive(a: Song, b: Song, c: Song)
    requires Precedes(a, b) && Precedes(b, c)
    ensures Precedes(a, c)
  {
  }

  /** Puts `x` into the ranked `r` after every song that may precede it. */
  method Insert(r: seq<Song>, x: Song) returns (t: seq<Song>)
    requires Ranked(r)
    ensures Ranked(t)
    ensures multiset(t) == multiset(r) + multiset{x}
  {
    var j := 0;
    while j < |r| && Precedes(r[j], x)
      invariant 0 <= j <= |r|
      invariant forall k :: 0 <= k < j ==> Precedes(r[k], x)
    {
      j := j + 1;
    }
    forall k | j <= k < |r|
      ensures Precedes(x, r[k])
    {
      PrecedesMeaning(r[j], x);
      if k > j {
        PrecedesTransitive(x, r[j], r[k]);
      }
    }
    t := r[..j] + [x] + r[j..];
    assert r == r[..j] + r[j..];
    forall p, q | 0 <= p < q < |t|
      ensures Precedes(t[p], t[q])
    {
      if q < j || p > j {
        assert Precedes(r[if p < j then p else p - 1], r[if q < j then q else q - 1]);
      }
    }
  }

  /** The effect of `sort` with the chart's comparator: a ranked permutation. */
  method Sort(s: seq<Song>) returns (r: seq<Song>)
    ensures Ranked(r)
    ensures multiset(r) == multiset(s)
  {
    r := [];
    var i := 0;
    while i < |s|
      invariant 0 <= i <= |s|
      invariant Ranked(r)
      invariant multiset(r) == multiset(s[..i])
    {
      r := Insert(r, s[i]);
      assert s[..i + 1] == s[..i] + [s[i]];
      i := i + 1;
    }
    assert s[..i] == s;
  }

  /**
   * A strictly ranked array has no other ranked order: every ranked
   * permutation of it is it.
   */
  lemma {:induction false} RankedPermutationUnique(a: seq<Song>, b: seq<Song>)
    requires Ranked(a) && StrictlyRanked(b)
    requires multiset(a) == multiset(b)
    ensures a == b
    decreases |a|
  {
    assert |a| == |multiset(a)| == |multiset(b)| == |b|;
    if a != [] {
      HeadsAgree(a, b);
      assert a == [a[0]] + a[1..] && b == [b[0]] + b[1..];
      assert multiset(a) == multiset{a[0]} + multiset(a[1..]);
      assert multiset(b) == multiset{b[0]} + multiset(b[1..]);
      assert multiset(a[1..]) == multiset(a) - multiset{a[0]} == multiset(b) - multiset{b[0]} == multiset(b[1..]);
      RankedTail(a, b);
      RankedPermutationUnique(a[1..], b[1..]);
    }
  }

  /** Both orders start with the same song. */
  lemma HeadsAgree(a: seq<Song>, b: seq<Song>)
    requires Ranked(a) && StrictlyRanked(b)
    requires multiset(a) == multiset(b) && a != [] && b != []
    ensures a[0] == b[0]
  {
    assert b[0] in multiset(a);
    var k :| 0 <= k < |a| && a[k] == b[0];
    assert a[0] in multiset(b);
    var m :| 0 <= m < |b| && b[m] == a[0];
    if m > 0 {
      assert Outranks(b[0], a[0]);
      assert Precedes(a[0], b[0]) by { if k > 0 { assert Precedes(a[0], a[k]); } }
      PrecedesMeaning(b[0], a[0]);
      assert false;
    }
  }

  lemma RankedTail(a: seq<Song>, b: seq<Song>)
    requires Ranked(a) && StrictlyRanked(b) && a != [] && b != []
    ensures Ranked(a[1..]) && StrictlyRanked(b[1..])
  {
    forall i, j | 0 <= i < j < |a| - 1
      ensures Precedes(a[1..][i], a[1..][j])
    {
      assert Precedes(a[i + 1], a[j + 1]);
    }
    forall i, j | 0 <= i < j < |b| - 1
      ensures Outranks(b[1..][i], b[1..][j])
    {
      assert Outranks(b[i + 1], b[j + 1]);
    }
  }

  /**
   * Songs X (3 votes, entered at 10), Y (3, 20) and Z (5, 5): however they
   * start out, the sorted array is Z, Y, X.
   */
  lemma ScenarioOrder(x: Song, y: Song, z: Song, r: seq<Song>)
    requires x.votes == 3 && x.entryTopDate == 10
    requires y.votes == 3 && y.entryTopDate == 20
    requires z.votes == 5 && z.entryTopDate == 5
    requires Ranked(r) && multiset(r) == multiset{x, y, z}
    ensures r == [z, y, x]
  {
    assert StrictlyRanked([z, y, x]);
    assert multiset([z, y, x]) == multiset{x, y, z};
    RankedPermutationUnique(r, [z, y, x]);
  }

  /** The elements `getTop` returns: a song in the first `n` precedes every song after them. */
  lemma TopBeatsRest(s: seq<Song>, n: nat, x: Song, y: Song)
    requires Ranked(s) && n <= |s|
    requires x in s[..n] && y in s[n..]
    ensures Precedes(x, y)
  {
    var i :| 0 <= i < n && s[..n][i] == x;
    var j :| 0 <= j < |s| - n && s[n..][j] == y;
    assert s[i] == x && s[n + j] == y;
  }

  /**
   * A song that at least `TopSize` other songs outrank is not in the first
   * `TopSize` of a ranked array: a song just added with no votes is not
   * shown when ten songs have votes.
   */
  lemma {:induction false} OutrankedSongNotInTop(s: seq<Song>, x: Song, better: set<Song>)
    requires Ranked(s) && x in s
    requires |better| >= TopSize
    requires forall y | y in better :: y in s && Outranks(y, x)
    ensures x !in s[..if |s| < TopSize then |s| else TopSize]
  {
    var n := if |s| < TopSize then |s| else TopSize;
    if x in s[..n] {
      var p :| 0 <= p < n && s[..n][p] == x;
      assert s[p] == x;
      forall y | y in better
        ensures y in s[..p]
      {
        var q :| 0 <= q < |s| && s[q] == y;
        if q >= p {
          if q > p {
            assert Precedes(s[p], s[q]);
          }
          PrecedesMeaning(y, x);
        }
        assert s[..p][q] == y;
      }
      SetOfPrefixIsSmall(s[..p]);
      assert better <= set z | z in s[..p];
      SubsetIsSmaller(better, set z | z in s[..p]);
      assert false;
    }
  }

  /** A sequence has at most as many distinct elements as it has positions. */
  lemma {:induction false} SetOfPrefixIsSmall(s: seq<Song>)
    ensures |set z | z in s| <= |s|
  {
    if s != [] {
      SetOfPrefixIsSmall(s[1..]);
      assert (set z | z in s) == (set z | z in s[1..]) + {s[0]};
    }
  }

  lemma SubsetIsSmaller(a: set<Song>, b: set<Song>)
    requires a <= b
    ensures |a| <= |b|
  {
    assert b == a + (b - a);
  }

  class MusicTop {
    const songs: SongList

    /** `new MusicTop(songs)`: holds the array itself, not a copy. */
    constructor (songs: SongList)
      ensures this.songs == songs
    {
      this.songs := songs;
    }

    /** `addSong(song)`: appends to the shared array. */
    method AddSong(s: Song)
      modifies songs
      ensures songs.items == old(songs.items) + [s]
    {
      songs.Push(s);
    }

    /**
     * `getTop()`: sorts the shared array in place and returns its first
     * `TopSize` songs, or all of them when there are fewer.
     */
    method GetTop() returns (top: seq<Song>)
      modifies songs
      ensures multiset(songs.items) == multiset(old(songs.items))
      ensures Ranked(songs.items)
      ensures |top| == if |songs.items| < TopSize then |songs.items| else TopSize
      ensures top == songs.items[..|top|]
    {
      var sorted := Sort(songs.items);
      songs.items := sorted;
      top := sorted[..if |sorted| < TopSize then |sorted| else TopSize];
    }
  }
}
