# Spotify music API routers in Dafny

This project models the request-handling logic of a small read-only music API: Express routers over a Supabase (PostgreSQL) store. The repository has five router files, and this model covers four of them. `spotify-server.js` as written mounts only the fifth, the genres router, under `/api/genres` (spotify-server.js:6-8), so the four modelled routers are not reachable through that server file. The four are:

- **mood**: four ranked song lists. "dancing" and "happy" are ranked by the store. "coffee" and "studying" are ranked in memory.
- **artists**: the artist list, one artist by id, and the per-artist averages of ten song attributes.
- **songs**: the song list, sorting by a named field, title search, filters by year, artist and genre, and one song by id.
- **playlists**: one playlist's songs, flattened into one record per row.

Every handler that accepts its parameter builds one query, hands it to the store, and maps the outcome. A NaN id or an unknown sort key builds no query and gives 400. For list routes (`Store.Respond`), a store error gives 500, absent or empty data gives 404 with a route-specific message, and anything else gives 200 with JSON. For the two `.single()` routes (`Store.RespondSingle`: one song, one artist), a store error and a missing row both give the same 404, and a row gives 200.

The store is a parameter of every handler, `db: Query -> Fetch<...>`. So each handler is a function of its path parameter and of what the store answers. A route that rejects its parameter answers 400 whatever the store holds.

Modules:

- `Wrappers`: `Option` and `Min`.
- `JsNumber`: the ECMAScript built-ins the handlers use.
  - `parseInt` follows section 19.2.5 of ECMA-262. It skips leading white space, takes an optional sign, reads `0x`/`0X` as radix 16 and reads the longest digit prefix. No digits gives NaN, modelled as `None`.
  - The decimal rendering of an integer, as a template literal writes it.
  - `parseFloat(x.toFixed(2))` follows section 21.1.3.3 of ECMA-262, over `real`.
- `Store`:
  - The rows of each select list, and the query a handler builds (table, select list, filters, order, limit, `.single()`).
  - The `{ data, error }` a query yields and the reply a handler sends.
  - The two outcome mappings: `Respond` for list routes and `RespondSingle` for `.single()` routes.
- `StableSort`: the stable sort of `Array.prototype.sort`, stable since ES2019, under a comparator `key(a) - key(b)`.
  - `SortBy` defines the result as a specification.
  - `SortInPlace` computes the same result in place on an array.
  - `TopBy` is sort-then-slice.
- `MoodRouter`, `ArtistsRouter`, `SongsRouter`, `PlaylistsRouter`: one module per router file.

## Model

| member | source | states |
|---|---|---|
| JsNumber.TrimStart | scripts/mood-router.js:14 | `parseInt` starts reading after the longest prefix of white space: everything skipped is white space and what remains does not start with it |
| JsNumber.DigitPrefixLength | scripts/mood-router.js:14 | the number of digits `parseInt` reads is the length of the longest digit prefix: all of them are digits and the next character is not |
| JsNumber.NatToDigits | scripts/artists-router.js:50 | the decimal rendering of an id in an error message is a non-empty string of digits with no leading zero (0 is written "0"); with `ValueOfDigits`, whose value is the id, this fixes the rendering |
| JsNumber.ParseIntOfDecimal | scripts/songs-router.js:127 | `parseInt` reads back the decimal rendering of any integer, followed by any text that does not continue the number ("7abc" is 7); the one exception is a 0 followed by `x`/`X` |
| JsNumber.ParseIntWithoutDigits | scripts/songs-router.js:127-132 | a parameter with no decimal digit in it parses as NaN, so the route answers 400 |
| JsNumber.ParseIntSkipsWhiteSpace | scripts/songs-router.js:127 | leading white space never changes the parsed id |
| JsNumber.ToFixed2 | scripts/artists-router.js:57-59 | rounding an average to two decimals moves it by at most 0.005 and keeps its sign |
| JsNumber.ToFixed2IsCents | scripts/artists-router.js:58-59 | below 10^21 the rounded average is a whole number of hundredths |
| JsNumber.ToFixed2OfCents | scripts/artists-router.js:58-59 | a value with at most two decimals is not changed by rounding, so rounding twice is rounding once |
| JsNumber.ToFixed2Odd | scripts/artists-router.js:58-59 | rounding is symmetric about zero |
| JsNumber.ToFixed2HalfRoundsAway | scripts/artists-router.js:58-59 | a value exactly halfway between two hundredths rounds to the one of larger magnitude, for both signs |
| Store.Respond | scripts/songs-router.js:21-24 | a store error is 500 with its message; absent or empty data is 404 with the route's message; the reply is 200 exactly when there is no error and the data is non-empty, with the rows unchanged |
| Store.RespondSingle | scripts/songs-router.js:206-210 | a store error and a missing row are the same 404; the reply is 200 exactly when a row came back, and it is that row |
| StableSort.SortByPermutes | scripts/mood-router.js:82-83 | the sort is a permutation of the fetched rows |
| StableSort.SortByOrdered | scripts/mood-router.js:82-83 | the sort orders the rows by the comparator's key, non-decreasing |
| StableSort.SortByStable | scripts/mood-router.js:82-83 | the sort is stable: rows with equal keys keep their fetched order |
| StableSort.TopByRanked | scripts/mood-router.js:82-84 | sort-then-slice gives `min(limit, n)` rows, ordered, a sub-multiset of the input; no row left out has a smaller key than one kept; equal keys keep their input order |
| StableSort.InsertInPlace | scripts/mood-router.js:83 | one insertion step in place: the part before `i` is untouched and the rest is the old element inserted into the old tail |
| StableSort.SortInPlace | scripts/mood-router.js:83 | sorting the array in place leaves exactly the stable sort of its old contents in it |
| MoodRouter.ParseLimit | scripts/mood-router.js:13-17 | the limit is always in 1..20; it is 20 when the parameter is absent or empty, parses as NaN, or parses to a number outside 1..20; a parsed number in 1..20 is returned unchanged, whatever the spelling ("+5", " 5", "05", "0x5") |
| MoodRouter.ParseLimitKeepsInRange | scripts/mood-router.js:14-16 | a decimal limit in 1..20, with any non-digit text after it, is taken as written ("5" is 5, "7abc" is 7) |
| MoodRouter.ParseLimitClampsOutOfRange | scripts/mood-router.js:15 | a decimal limit below 1 ("0", "-3") or above 20 gives 20 |
| MoodRouter.ParseLimitWithoutDigits | scripts/mood-router.js:15 | a limit with no digit in it gives 20 |
| MoodRouter.TopQuery | scripts/mood-router.js:23-27 | the dancing/happy query reads the song select list from the songs table, unfiltered and not `.single()`, ordered by the mood's column descending, with limit `ParseLimit(ref)` |
| MoodRouter.StoreRankedWithinLimit | scripts/mood-router.js:20-50 | if the store honours the limit, a 200 from dancing or happy carries between 1 and `ParseLimit(ref)` rows |
| MoodRouter.KeepAcoustic | scripts/mood-router.js:64 | every row the filter keeps has positive acousticness |
| MoodRouter.KeepAcousticCounts | scripts/mood-router.js:64 | the filter keeps each fetched row with positive acousticness as often as it was fetched, and no other row |
| MoodRouter.KeepAcousticOne | scripts/mood-router.js:64 | one row is kept exactly when its acousticness is positive |
| MoodRouter.KeepAcousticAppend | scripts/mood-router.js:64 | filtering a concatenation is the concatenation of the filtered parts, so the kept rows stay in fetched order |
| MoodRouter.KeepAcousticSubMultiset | scripts/mood-router.js:64 | the filtered rows are a sub-multiset of the fetched rows |
| MoodRouter.CoffeeRanked | scripts/mood-router.js:63-66 | every coffee row has positive acousticness, so no ratio divides by zero; ratios are non-increasing; the length is `min(limit, #rows with positive acousticness)`; the rows are a sub-multiset of the fetch |
| MoodRouter.CoffeeTopAndStable | scripts/mood-router.js:63-66 | no filtered row left out has a higher ratio than one kept; rows with equal ratios keep their order in the filtered rows, which is the fetched order (`KeepAcousticAppend`) |
| MoodRouter.StudyingRanked | scripts/mood-router.js:82-84 | studying rows are ordered by energy×speechiness, non-decreasing; length `min(limit, n)`; a sub-multiset of the fetch; none left out has a lower product than one kept; equal products keep their fetched order |
| MoodRouter.CoffeeEmptyCheckBeforeFilter | scripts/mood-router.js:61-68 | the empty check is on the unfiltered rows: a non-empty fetch with no positive acousticness gives 200 with an empty list, not 404 |
| MoodRouter.Coffee | scripts/mood-router.js:53-69 | copying the filtered rows into an array, sorting it in place and slicing gives exactly the coffee reply, including 500 on error and 404 on an empty fetch |
| MoodRouter.Studying | scripts/mood-router.js:72-87 | sorting the fetched array in place and slicing gives exactly the studying reply, including 500 and 404 |
| SongsRouter.ToLowerAscii | scripts/songs-router.js:29 | lower-casing keeps the length, lowers each letter in place and leaves no upper-case letter |
| SongsRouter.ToLowerAsciiIdempotent | scripts/songs-router.js:29 | lower-casing twice is lower-casing once |
| SongsRouter.ResolveSortFieldIsTable | scripts/songs-router.js:32-65 | the `switch` is the static table id→`song_id`, title→`title`, artist→`artist_name`, genre→`genre_name`, year→`year`, duration→`duration`; any other key resolves to nothing; a joined table is named exactly for artist and genre |
| SongsRouter.ResolveSortFieldIgnoresCase | scripts/songs-router.js:29-34 | "TITLE", "Title" and "title" resolve alike |
| SongsRouter.SortSongs | scripts/songs-router.js:28-87 | an unknown key is 400 with the list of valid keys, whatever the store holds; a known key orders ascending on its table entry's column and joined table, under the uniform outcome mapping |
| SongsRouter.BeginPattern | scripts/songs-router.js:96 | the prefix-search pattern is the substring followed by one `%` |
| SongsRouter.AnyPattern | scripts/songs-router.js:114 | the substring-search pattern is the substring between two `%` |
| SongsRouter.FilterRoute | scripts/songs-router.js:126-190 | in the year, artist and genre routes, NaN gives 400 with that route's message and is the only cause of 400; otherwise the parsed integer is the value of the equality filter, ordered by title, under the uniform outcome mapping |
| SongsRouter.FilterRouteOfDecimal | scripts/songs-router.js:127-137 | a reference written as a decimal integer filters on exactly that integer ("2017abc" asks for 2017) |
| SongsRouter.SongById | scripts/songs-router.js:193-211 | NaN gives 400 and is the only cause of 400; otherwise a `.single()` query on `song_id` with the parsed id, and a store error or missing row gives 404 naming the id |
| SongsRouter.SongByIdNotFound | scripts/songs-router.js:206-208 | a song id the store has no row for gives 404 `No song found with ID <id>.` naming the id as written |
| ArtistsRouter.ReduceIsTotal | scripts/artists-router.js:58-59 | the `reduce` fold, with null read as 0, adds up exactly the attribute's total over all rows |
| ArtistsRouter.TotalBounds | scripts/artists-router.js:58-59 | values within [lo, hi] give a total within [n·lo, n·hi] |
| ArtistsRouter.MeanBounds | scripts/artists-router.js:57-59 | the exact mean lies between the smallest and the largest value |
| ArtistsRouter.SummarizeIsRoundedMean | scripts/artists-router.js:54-74 | `artist_id` is the parsed id; `song_count` is the number of rows; each average is the exact mean (null as 0) rounded by `toFixed(2)`, within 0.005 of it |
| ArtistsRouter.ArtistAverages | scripts/artists-router.js:30-77 | NaN gives 400 `Invalid artist ID. Must be a number.` whatever the store holds; a store error gives 500; no rows gives 404 `No songs found for artist ID <id>.`; NaN is the only cause of 400; an error-free, non-empty fetch gives 200 with `Summarize` of the rows, and only that gives 200 |
| ArtistsRouter.ArtistAveragesMeans | scripts/artists-router.js:54-76 | a parsed id whose fetch succeeds with rows gets a 200 carrying that id, the row count and, per attribute, a value within 0.005 of the mean of the fetched rows |
| ArtistsRouter.ArtistById | scripts/artists-router.js:80-100 | NaN gives 400 and is the only cause of 400; otherwise a `.single()` query on `artist_id`, and a store error or missing row gives 404 `No artist found with ID <id>.` |
| PlaylistsRouter.FlattenPointwise | scripts/playlists-router.js:36-43 | one record per row, in row order; each has `playlist` from the row's `playlist_id`, `song_id`, `title` and `year` from its song, `artist_name` from the song's artist and `genre_name` from its genre |
| PlaylistsRouter.FlattenAppend | scripts/playlists-router.js:36 | flattening commutes with concatenation, so the records follow the row order |
| PlaylistsRouter.PlaylistById | scripts/playlists-router.js:6-46 | NaN gives 400 `Invalid playlist ID. Must be a number.` and is the only cause of 400; a store error gives 500; no rows gives 404 `No playlist found with ID <id>.`; an error-free, non-empty fetch gives 200 with the flattened rows, and only that gives 200 |

Three behaviours of the code worth knowing:

- **Rounding of averages.** `toFixed(2)` rounds the magnitude half up and keeps the sign, so a negative average rounds half away from zero (`ToFixed2HalfRoundsAway`).
- **Record key.** The flattened playlist record's key is `playlist`, taken from the row's `playlist_id`.
- **Coffee empty check.** The coffee route tests the unfiltered fetch for emptiness. A fetch with no positive-acousticness song is answered 200 with `[]`, not 404 (`CoffeeEmptyCheckBeforeFilter`).

## Left out

- Express routing, `res.status().json()` and async/await are left out. The store is the handler's `db` parameter, and the reply is a `Reply` value. `scripts/supabase-client.js` is environment reading and client construction. `spotify-server.js` is app wiring: it mounts the genres router only, adds a catch-all 404 `Route not found`, and calls `listen`.
- What the store does with a query is left out: server-side ordering and `.limit`, `ilike` matching, `!inner` join exclusion and `.single()`. The query is built and handed over unchanged, and the store's answer is an arbitrary `Fetch`. `StoreRankedWithinLimit` takes the limit as an assumption about the store.
- MoodRouter.Dancing, MoodRouter.Happy, SongsRouter.ListSongs, SongsRouter.SongsByYear, SongsRouter.SongsByArtist, SongsRouter.SongsByGenre, SongsRouter.SearchBegin, SongsRouter.SearchAny and ArtistsRouter.ListArtists carry no contract of their own. Each is one query under `Respond`, and what the rows mean depends on the store's ordering and matching. The year, artist and genre routes are `SongsRouter.FilterRoute` applied to their column and messages; their one-line bodies fix those.
- `scripts/genres-router.js` is not part of this model. It is one query under the same outcome mapping as `Store.Respond`.
- Ratios, products, sums and means are over `real`, not IEEE-754 doubles. Floating-point rounding of each addition, of the division and of the ratio is not modelled.
- JsNumber.ToFixed2: models the rounding of the exact mean, not the digit generation of `toFixed` on the binary double or the `parseFloat` of its string. From 10^21 on, the value is kept as is; `toFixed` does the same there, through an exponent string.
- JsNumber.IntToString: writes every integer as plain decimal digits. A JavaScript template literal writes a number of magnitude 10^21 or more in exponent form ("1e+21"), and a digit string too long for a double as "Infinity". So for such ids the 404 messages that name the id differ from the model's.
- JsNumber.ParseInt: gives an unbounded integer. It does not model the loss of precision beyond 2^53, nor `-0` for "-0", which renders as "0" anyway.
- SongsRouter.ToLowerAscii: lowers only A–Z. Full Unicode `toLowerCase` maps two more code points onto ASCII letters: U+212A KELVIN SIGN gives "k", and U+0130 gives "i" followed by a combining dot. Neither can spell one of the six sort keys: none of the keys contains "k", and U+0130 adds a second code point. So the resolved field is the same.
- The search routes put the substring into the `ilike` pattern without escaping `%` or `_`, so those characters act as wildcards. The model keeps the pattern as the code builds it and does not model matching.
- Null attribute values in the mood comparators are not modelled. `Song` attributes are numbers there. In the averages, null or missing values are modelled, and they read as 0.
- The mood routes take their parameter as `Option<string>`. In practice Express always supplies a non-empty segment, so the absent and empty cases are never reached there.
