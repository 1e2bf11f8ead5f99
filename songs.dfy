/**
 * One votable song of the chart (class `Song`, app.js:5-36).
 *
 * The source keeps the vote count in the private field `#votes` and also
 * bumps the public `initialVotes` on every vote, so that a copy built from
 * the public fields (as the renderer does with `new HtmlSong(song)`) shows
 * the current count.  Dafny has no private fields: `votes` below stands for
 * `#votes`, and only `Vote` changes it.
 */
module Songs {
  import opened Wrappers

  class Song {
    const name: string
    const artist: string
    var initialVotes: int
    var votes: int
    const album: Option<string>
    const id: int
    const entryTopDate: int

    /** The public counter and the private one move together. */
    ghost predicate Valid()
      reads this
    {
      votes == initialVotes
    }

    /**
     * `new Song({name, artist, initialVotes, album, id})`.  An absent vote
     * count reads as 0 (`initialVotes || 0`); an absent or zero id is
     * replaced by `generatedId`, the value `getUniqueId()` would draw; the
     * entry date is the clock reading `now`.
     */
    constructor (name: string, artist: string, initialVotes: Option<int>,
                 album: Option<string>, id: Option<int>, generatedId: int, now: int)
      ensures Valid()
      ensures this.name == name && this.artist == artist && this.album == album
      ensures initialVotes.Some? ==> this.initialVotes == initialVotes.value
      ensures initialVotes.None? ==> this.initialVotes == 0
      ensures votes == this.initialVotes
      ensures id.Some? && id.value != 0 ==> this.id == id.value
      ensures id.None? || id.value == 0 ==> this.id == generatedId
      ensures entryTopDate == now
    {
      this.name := name;
      this.artist := artist;
      this.initialVotes := if initialVotes.Some? then initialVotes.value else 0;
      this.votes := this.initialVotes;
      this.album := album;
      this.id := if id.Some? && id.value != 0 then id.value else generatedId;
      this.entryTopDate := now;
    }

    /** `vote()`: one more vote, on both counters, and nothing else. */
    method Vote()
      modifies this
      ensures votes == old(votes) + 1
      ensures initialVotes == old(initialVotes) + 1
      ensures Valid() <==> old(Valid())
    {
      votes := votes + 1;
      initialVotes := initialVotes + 1;
    }
  }

  /** k vote clicks on one song: each adds exactly one to both counters. */
  method VoteTimes(x: Song, k: nat)
    requires x.Valid()
    modifies x
    ensures x.votes == old(x.votes) + k
    ensures x.initialVotes == old(x.initialVotes) + k
    ensures x.Valid()
  {
    var i := 0;
    while i < k
      invariant 0 <= i <= k
      invariant x.votes == old(x.votes) + i
      invariant x.initialVotes == old(x.initialVotes) + i
      invariant x.Valid()
    {
      x.Vote();
      i := i + 1;
    }
  }
}
