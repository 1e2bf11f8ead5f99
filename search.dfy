/**
 * The query URL of the search button (app.js:199-210): the store's base
 * URL, then, when either field is filled in, `?` and one `artist_like=` or
 * `name_like=` filter per filled-in field, joined by `&`.  The values go in
 * as typed: nothing is percent-encoded.
 */
module Search {
  const SearchBase: string := "https://mysongsserver.herokuapp.com/songs"

  /** The filters that apply, artist first, then song name. */
  function Filters(artist: string, song: string): seq<string>
  {
    (if artist != "" then ["artist_like=" + artist] else []) +
    (if song != "" then ["name_like=" + song] else [])
  }

  /** The parameters with one `&` between each two. */
  function Join(ps: seq<string>): string
  {
    if |ps| <= 1 then (if ps == [] then "" else ps[0])
    else ps[0] + "&" + Join(ps[1..])
  }

  /** Reference definition of the search URL, in terms of `Join`. */
  function SearchUrl(base: string, artist: string, song: string): string
  {
    var ps := Filters(artist, song);
    if ps == [] then base else base + "?" + Join(ps)
  }

  /**
   * The URL case by case: the base alone when both fields are empty;
   * otherwise `?` and the filled-in filters, artist first, `&` between.
   */
  lemma SearchUrlShape(base: string, artist: string, song: string)
    ensures artist == "" && song == "" ==> SearchUrl(base, artist, song) == base
    ensures artist != "" && song == "" ==>
      SearchUrl(base, artist, song) == base + "?" + ("artist_like=" + artist)
    ensures artist == "" && song != "" ==>
      SearchUrl(base, artist, song) == base + "?" + ("name_like=" + song)
    ensures artist != "" && song != "" ==>
      SearchUrl(base, artist, song) == base + "?" + ("artist_like=" + artist) + "&" + ("name_like=" + song)
  {
    var ps := Filters(artist, song);
    if artist != "" && song != "" {
      assert ps == ["artist_like=" + artist, "name_like=" + song];
      assert Join(ps) == ps[0] + "&" + ps[1];
    }
  }

  /** Dropping the last character undoes appending one. */
  lemma DropLast(w: string, c: char)
    ensures (w + [c])[..|w|] == w
  {
  }

  /**
   * The handler's own construction, from the base URL it starts with
   * (`SearchBase`): `+=` of `?` and of each filter with a trailing `&`,
   * then `slice(0, -1)` to drop the last `&`.
   */
  method BuildSearchUrl(base: string, nameValue: string, songValue: string) returns (url: string)
    ensures url == SearchUrl(base, nameValue, songValue)
  {
    url := base;
    if nameValue != "" || songValue != "" {
      url := url + "?";
      ghost var head := url;
      if nameValue != "" {
        url := url + ("artist_like=" + nameValue + "&");
      }
      if songValue != "" {
        url := url + ("name_like=" + songValue + "&");
      }
      ghost var ps := Filters(nameValue, songValue);
      if nameValue != "" && songValue != "" {
        assert ps == ["artist_like=" + nameValue, "name_like=" + songValue];
        assert Join(ps) == ps[0] + "&" + ps[1];
        assert url == head + Join(ps) + "&";
      } else if nameValue != "" {
        assert ps == ["artist_like=" + nameValue];
        assert url == head + Join(ps) + "&";
      } else {
        assert ps == ["name_like=" + songValue];
        assert url == head + Join(ps) + "&";
      }
      DropLast(head + Join(ps), '&');
      url := url[..|url| - 1];
    }
  }

  /** The pieces of `s` between the occurrences of `sep`. */
  function Split(s: string, sep: char): (r: seq<string>)
    ensures |r| >= 1
  {
    if s == [] then [""]
    else if s[0] == sep then [""] + Split(s[1..], sep)
    else
      var rest := Split(s[1..], sep);
      [[s[0]] + rest[0]] + rest[1..]
  }

  lemma {:induction false} SplitNoSep(p: string, sep: char)
    requires sep !in p
    ensures Split(p, sep) == [p]
  {
    if p != [] {
      SplitNoSep(p[1..], sep);
      assert [p[0]] + p[1..] == p;
    }
  }

  lemma {:induction false} SplitAfterPiece(p: string, sep: char, q: string)
    requires sep !in p
    ensures Split(p + [sep] + q, sep) == [p] + Split(q, sep)
  {
    if p == [] {
      assert p + [sep] + q == [sep] + q;
      assert ([sep] + q)[1..] == q;
    } else {
      var w := p + [sep] + q;
      assert w[0] == p[0] && w[1..] == p[1..] + [sep] + q;
      SplitAfterPiece(p[1..], sep, q);
      assert [p[0]] + p[1..] == p;
    }
  }

  /**
   * Splitting the joined parameters at `&` gives back exactly the
   * parameters, provided none of them contains `&` itself.
   */
  lemma {:induction false} JoinSplit(ps: seq<string>)
    requires ps != []
    requires forall i :: 0 <= i < |ps| ==> '&' !in ps[i]
    ensures Split(Join(ps), '&') == ps
  {
    if |ps| == 1 {
      SplitNoSep(ps[0], '&');
    } else {
      JoinSplit(ps[1..]);
      assert Join(ps) == ps[0] + ['&'] + Join(ps[1..]);
      SplitAfterPiece(ps[0], '&', Join(ps[1..]));
      assert [ps[0]] + ps[1..] == ps;
    }
  }

  /**
   * The query string the handler builds carries exactly the filled-in
   * filters when the typed values hold no `&`.  A value with `&` in it,
   * say artist `a&name_like=b`, turns into a second filter instead.
   */
  lemma QueryCarriesFilters(artist: string, song: string)
    requires '&' !in artist && '&' !in song
    requires artist != "" || song != ""
    ensures SearchUrl(SearchBase, artist, song) == SearchBase + "?" + Join(Filters(artist, song))
    ensures Split(Join(Filters(artist, song)), '&') == Filters(artist, song)
  {
    var ps := Filters(artist, song);
    forall i | 0 <= i < |ps|
      ensures '&' !in ps[i]
    {
      assert '&' !in "artist_like=" && '&' !in "name_like=";
    }
    JoinSplit(ps);
  }

  /**
   * The injection: with an artist typed as `a&b`, the built query splits
   * into `artist_like=a`, then `b`, then the song filter when that field is
   * filled in; with `b` = `name_like=x` that is a song-name filter the user
   * never typed into the song field.
   */
  lemma AmpersandInjectsFilter(a: string, b: string, song: string)
    requires '&' !in a && '&' !in b && '&' !in song
    ensures Split(Join(Filters(a + "&" + b, song)), '&') ==
      ["artist_like=" + a, b] + (if song != "" then ["name_like=" + song] else [])
  {
    var p := "artist_like=" + a;
    var q := "name_like=" + song;
    var artist := a + "&" + b;
    assert '&' !in "artist_like=" && '&' !in "name_like=";
    assert |artist| > 0;
    assert "artist_like=" + artist == p + ['&'] + b;
    if song == "" {
      assert Filters(artist, song) == [p + ['&'] + b];
      SplitAfterPiece(p, '&', b);
      SplitNoSep(b, '&');
    } else {
      assert Filters(artist, song) == [p + ['&'] + b, q];
      assert Join(Filters(artist, song)) == p + ['&'] + (b + ['&'] + q);
      SplitAfterPiece(p, '&', b + ['&'] + q);
      SplitAfterPiece(b, '&', q);
      SplitNoSep(q, '&');
    }
  }
}
