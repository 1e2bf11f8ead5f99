# Song chart: a Dafny model

The repository is a browser page for a song chart. It loads songs from a JSON store and lets the
user vote for songs, add them, delete them, edit them and search for them. It shows the ten
best-ranked songs. This project models the in-memory part of `app.js`:

- the `Song` record and its vote counter (module `Songs`);
- the shared global array `songs` and the few JavaScript array operations the chart code uses
  (`push`, `find`, `findIndex`, `indexOf`, `splice`, indexed assignment), as the class
  `Collection.SongList` (module `Collection`);
- the chart `MusicTop`. Its comparator orders songs by votes, most first, then by entry date,
  latest first. `getTop` sorts the shared array in place and returns the first ten songs
  (module `Ranking`);
- the query URL that the search button builds (module `Search`);
- what the delete and edit handlers do to the array once the store reports success
  (module `Handlers`).

The source shares one array object between the global `songs`, every `MusicTop` built on it,
and the delete and edit handlers, so the array is a class. `MusicTop` holds a reference to it,
and sorting it is visible to everyone. `Song` is a class because `vote()` updates its fields in
place. The comparator is a pure function. The sort is written as an insertion sort over the
array's contents and then stored back into the shared array. Its contract does not commit to an
order between songs that tie on both keys.

Time, the random id generator and the store's answers are parameters. The constructor takes the
clock reading `now` and the id `generatedId` that `getUniqueId()` would have drawn. The edit
handler receives the store's updated record as an argument.

Facts about `app.js` that the model keeps:

- `getTop` takes no size and always slices the first ten songs (`Ranking.TopSize`).
- A newly added song starts with 0 votes, so `getTop` leaves it out whenever ten other songs
  outrank it (`Ranking.OutrankedSongNotInTop`).
- Edit overwrites the first slot whose id matches the store's record. When no slot matches,
  `songs[-1] = ...` writes a named property `-1` and leaves the elements alone.
- `Array.prototype.sort` is stable (required since ECMAScript 2019), and the comparator is
  consistent on `Song`s, so songs that tie on both votes and date keep their input order. The
  model proves the comparator order and the permutation and chooses not to promise the order
  among such full ties.

## Model

| member | source | states |
|---|---|---|
| `Songs.Song.constructor` | app.js:6-14 | The song keeps the name, artist and album it is given. Its vote count and public `initialVotes` both equal the supplied count, or 0 when that is absent. The id is the supplied one, or the generated one when the supplied id is absent or 0. The entry date is the clock reading. The two counters start equal. |
| `Songs.Song.Vote` | app.js:20-23 | Both the private count and the public `initialVotes` grow by exactly 1. Whether the two counters are equal is unchanged by the call. |
| `Songs.VoteTimes` | app.js:20-23 | k calls of `vote()` on one song add exactly k to both the private count and `initialVotes`, and the two stay equal. |
| `Collection.SongList.constructor` | app.js:38 | The global song array starts empty. |
| `Collection.SongList.Push` | app.js:116 | The array becomes the old array with the song appended. |
| `Collection.IdIndex` | app.js:254 | Gives -1 exactly when no song carries the id. Otherwise it gives an index in range whose song has the id, and no earlier song has it (the first match). |
| `Collection.Position` | app.js:156 | Gives -1 exactly when the object is not in the array. Otherwise it gives an index holding that very object, and the object does not occur earlier. |
| `Collection.SongList.Find` | app.js:148-150 | Finds nothing exactly when no song carries the id. Otherwise it returns a song of the array with that id, and it is the first one. |
| `Collection.SongList.FindIndex` | app.js:254 | Returns the first index with the id, or -1 (as `IdIndex`). |
| `Collection.SongList.IndexOf` | app.js:156 | Returns the first index of the object, or -1 (as `Position`). |
| `Collection.SpliceStart` | app.js:156 | The start of `splice(start, 1)`, as ECMAScript normalises it: it lies inside the array exactly when the array is non-empty and `start < length`; a start in range is kept, a negative one counts back from the end, and one below `-length` clamps to 0, so the first element goes. |
| `Collection.RemoveOne` | app.js:156 | When the normalised start is in range, the result is one shorter, keeps the elements before it and shifts the ones after it down by one, and its multiset lacks exactly that element; a start at the end changes nothing. |
| `Collection.SongList.Splice` | app.js:156 | `splice(start, 1)` removes the one element at the normalised start. A negative start counts back from the end. It removes nothing when the start is past the end. |
| `Collection.SongList.SetAt` | app.js:255 | `songs[index] = s` replaces exactly that slot when the index is non-negative. When the index is negative, the elements are unchanged. |
| `Ranking.Compare` | app.js:121-126 | The comparator's sign: negative (a goes first) exactly when a has more votes, or equal votes and a later date; zero exactly when both votes and dates are equal; positive in the mirror case. |
| `Ranking.PrecedesMeaning` | app.js:121-126 | The comparator puts `a` no later than `b` exactly when `a` has more votes, or equal votes and a later or equal entry date. It forces `a` strictly first exactly when the date is strictly later on equal votes, or the votes are more. Any two songs are comparable. |
| `Ranking.Insert` | app.js:120-126 | Inserting a song into a ranked sequence gives a ranked sequence with the same songs plus that one. |
| `Ranking.Sort` | app.js:120-126 | The result is in comparator order for every pair, and it is a permutation of the input. |
| `Ranking.RankedPermutationUnique` | app.js:121-126 | When no two songs tie on the comparator, the ranked order of a collection is unique. Any ranked permutation equals it. |
| `Ranking.ScenarioOrder` | app.js:119-128 | X (3 votes, date 10), Y (3, 20) and Z (5, 5) sort to exactly [Z, Y, X], whatever order they start in. |
| `Ranking.TopBeatsRest` | app.js:119-128 | Every song in the first n of a sorted array is ranked no later than every song after them. |
| `Ranking.OutrankedSongNotInTop` | app.js:119-128 | A song that at least ten other songs strictly outrank is not in the top slice. |
| `Ranking.MusicTop.constructor` | app.js:111-113 | The chart holds the given array object itself, not a copy. |
| `Ranking.MusicTop.AddSong` | app.js:115-117 | The shared array becomes the old array with the song appended, and every earlier element is unchanged. |
| `Ranking.MusicTop.GetTop` | app.js:119-128 | The shared array itself is left sorted in comparator order and is a permutation of what it held. The result has min(10, length) songs and is the prefix of the sorted array. |
| `Search.BuildSearchUrl` | app.js:199-210 | Appending `?` and each filter with a trailing `&`, then dropping the last character, gives the reference URL: the base, then `?` and the filters joined by `&` when any field is filled in. |
| `Search.SearchUrlShape` | app.js:199-210 | Case by case: both fields empty give the base unchanged. One filled-in field gives `?artist_like=v` or `?name_like=v`. Both give `?artist_like=a&name_like=s`, in that order, with no trailing `&`. |
| `Search.JoinSplit` | app.js:200-209 | Splitting the `&`-joined filters at `&` gives back exactly the filters, provided none contains `&`. |
| `Search.QueryCarriesFilters` | app.js:199-212 | When a field is filled in and the typed values hold no `&`, the query string the handler builds splits at `&` into exactly the filled-in filters. |
| `Search.AmpersandInjectsFilter` | app.js:203-206 | The values are not encoded. For an artist typed as `a&b` and any song value (no other `&` in `a`, `b` or the song), the built query splits into `artist_like=a`, then `b`, then `name_like=<song>` when the song field is filled in; so `b = name_like=x` adds a song-name filter. |
| `Handlers.DeleteConfirmed` | app.js:148-156 | While the song found at click time is still in the array, exactly its first occurrence is removed and the others keep their order. When it is gone, the last song is removed. An empty array stays empty. |
| `Handlers.StaleDeleteDropsLast` | app.js:156 | With [x, y] in the array and a stale target that is neither, the as-written splice leaves [x]. |
| `Handlers.FoundSongIsFirstWithId` | app.js:148-156 | `indexOf` of the song that `find` returned is the first index carrying the id. So the as-written splice and removal by id agree while that song is in the array. |
| `Handlers.RemoveFirstWithId` | app.js:148-156 | Removing by id (the corrected delete) is `splice` at the first index with the id, so the others keep their order: the length falls by 1 and the multiset loses exactly that song. When no song has the id, nothing changes. |
| `Handlers.DeleteConfirmedById` | app.js:148-156 | The corrected success path removes the first song with the deleted id, and removes nothing when there is none. |
| `Handlers.EditConfirmed` | app.js:254-255 | The length is unchanged. The first slot whose id equals the updated record's id now holds that record, and every other slot is unchanged. With no matching slot, the array is unchanged. |
| `Handlers.EditKeepsIds` | app.js:254-255 | After an edit, the sequence of ids, slot by slot, is what it was. |

## Left out

- Every `fetch` call and its promise chain: the store's GET, POST, PATCH and DELETE, `response.ok`, and JSON parsing (app.js:41-102, 151-160, 175-188, 212-225, 251-262). This is network I/O. Only the change to the array on the success path is modelled.
- DOM access, event wiring, rendering with `innerHTML`/`insertAdjacentHTML`, form reads and resets, `alert` and `console.log`. This is presentation glue. The same goes for the sequencing inside the initial load, the vote click handler (`find`, then `vote()`, then re-render) and the submit handler (construct, `addSong`, `getTop`, post). Their steps are the modelled operations.
- `HtmlSong.getHtml` is string templating with no behaviour beyond interpolation.
- `getUniqueId` uses `Math.random()` and `Date.now()`. Its value is the constructor parameter `generatedId`.
- `new Date()` is the integer parameter `now` (milliseconds). The comparator's date subtraction is exact integer subtraction.
- JavaScript numbers are doubles. Vote counts and dates are unbounded integers here, so precision loss beyond 2^53 is not modelled.
- `initialVotes || 0`: falsy values other than the number 0 (`null`, `""`, `NaN`, `false`) are represented only by an absent count (`None`). A count of 0 gives 0 either way.
- Private fields: `#votes` is the ordinary field `votes`. Dafny cannot make it private, so the only thing the model enforces is that no modelled operation except `Vote` writes it.
- Ranking.Sort: the engine's sort algorithm is not modelled, and the contract does not promise the stable (input) order that ECMAScript 2019 requires among songs tied on both votes and date. It states the comparator order and the permutation only.
- Loose (`==`) versus strict (`===`) id comparison: ids are integers compared with one equality.
- Handlers.EditConfirmed: the source stores the store's raw JSON record, not a `Song`. That record has no `vote` method, no private counter and no entry date. The model stores a `Song` built from it, so it does not capture what follows in the source: a later vote click on that song (app.js:66-69) throws a TypeError, and its `votes` is undefined, so the comparator returns NaN for it, which `sort` treats as 0. `Ranking.MusicTop.GetTop`'s ranked guarantee therefore holds only while every element of the array is a `Song`.
- Collection.SongList.SetAt: an index at or past the end, which would grow the array, is excluded by its precondition. `findIndex` never produces one.
- Handlers.DeleteConfirmed models line 156 only. The handler then calls `new MusicTop(songs).getTop()` (app.js:157), which sorts the shared array in place again, as `Ranking.MusicTop.GetTop` states.
- The delete click when no song has the clicked id: `currentSong.id` then throws before any request is sent, and the array is untouched. No member models that throw.
- Search: the search results display in the store's order, without ranking. That is rendering and is not modelled. Neither is the store's own pattern matching of `_like` filters, nor the percent-decoding of the query. A `#` in a typed value starts the URL fragment, which `fetch` (app.js:212) does not send, so the store receives the query only up to that `#`; the search lemmas are about the string the handler builds.

## Findings

| source | as written | input that shows it | evidently intended | confidence | as-written member | corrected member |
|---|---|---|---|---|---|---|
| app.js:156 | `songs.splice(songs.indexOf(currentSong), 1)` uses the object the click handler found, and does so only when the DELETE request returns. | Songs [x, y]. The user clicks Edit and Apply on x, then clicks Delete on x before the PATCH answer arrives, so `find` still returns the old object x. The PATCH answer then arrives first and replaces x's slot with the updated record. When the DELETE answer arrives, `indexOf(x)` is -1, and `splice(-1, 1)` removes y, which was never deleted. | Remove the song carrying the deleted id, and remove nothing if there is none. | medium, not executed | `Handlers.DeleteConfirmed`, `Handlers.StaleDeleteDropsLast` | `Handlers.DeleteConfirmedById`, `Handlers.RemoveFirstWithId` |
