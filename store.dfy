/**
  What the routers see of the external database: the rows each select list
  returns, the query a handler builds, what a query yields (an error message
  and/or data), and the HTTP reply a handler sends. Executing a query is the
  environment's business: every handler takes the store as a function
  `db: Query -> Fetch<...>` and is otherwise pure.
*/
module Store {
  import opened Wrappers

  /** `artists!inner (artist_id, artist_name)` nested in a song row. */
  datatype ArtistRef = ArtistRef(artistId: int, artistName: string)

  /** `genres!inner (genre_id, genre_name)` nested in a song row. */
  datatype GenreRef = GenreRef(genreId: int, genreName: string)

  /** A row of the shared song select list: the song's own columns, its artist and its genre. */
  datatype Song = Song(
    songId: int, title: string, year: int,
    bpm: real, energy: real, danceability: real, loudness: real, liveness: real,
    valence: real, duration: real, acousticness: real, speechiness: real, popularity: real,
    artists: ArtistRef, genres: GenreRef)

  /** A row of the artist select list (`types (type_name)` is a nested, possibly absent, record). */
  datatype Artist = Artist(
    artistId: int, artistName: string, typeName: Option<string>,
    artistImageUrl: string, spotifyUrl: string, spotifyDesc: string)

  datatype Table = Artists | Songs | Genres | Playlists

  /** The select lists the handlers use. */
  datatype Columns = ArtistColumns | SongColumns | AudioFeatureColumns | PlaylistColumns

  /** `.eq(column, value)` and `.ilike(column, pattern)`. */
  datatype Filter = Eq(column: string, value: int) | ILike(column: string, pattern: string)

  /** `.order(column, { ascending, referencedTable })`. */
  datatype Order = Order(column: string, ascending: bool, referencedTable: Option<string>)

  /** A query as the handlers build it with the client's builder chain. */
  datatype Query = Query(
    table: Table, columns: Columns, filters: seq<Filter>,
    order: Option<Order>, limit: Option<nat>, single: bool)

  /** `{ data, error }`: the error's message, if any, and the data, which may be null. */
  datatype Fetch<D> = Fetch(error: Option<string>, data: Option<D>)

  /** A JSON reply: a 200 body, or a status with the body `{ "error": message }`. */
  datatype Reply<T> = Json(body: T) | Fail(status: nat, error: string) {
    function Status(): nat {
      if Json? then 200 else status
    }
  }

  /**
    The outcome mapping of every list-shaped route: a store error is a 500
    with the store's message, null or empty data is a 404 with the route's
    message, and anything else is a 200 with the rows unchanged.
  */
  function Respond<T>(fetch: Fetch<seq<T>>, notFound: string): (r: Reply<seq<T>>)
    ensures fetch.error.Some? ==> r == Fail(500, fetch.error.value)
    ensures fetch.error.None? && (fetch.data.None? || fetch.data.value == []) ==> r == Fail(404, notFound)
    ensures r.Json? <==> fetch.error.None? && fetch.data.Some? && fetch.data.value != []
    ensures r.Json? ==> r.body == fetch.data.value && |r.body| > 0
    ensures r.Status() in {200, 404, 500}
  {
    if fetch.error.Some? then Fail(500, fetch.error.value)
    else if fetch.data.None? || |fetch.data.value| == 0 then Fail(404, notFound)
    else Json(fetch.data.value)
  }

  /**
    The outcome mapping of the `.single()` routes: a store error and a
    missing row are the same 404; a row is a 200.
  */
  function RespondSingle<T>(fetch: Fetch<T>, notFound: string): (r: Reply<T>)
    ensures fetch.error.Some? || fetch.data.None? ==> r == Fail(404, notFound)
    ensures r.Json? <==> fetch.error.None? && fetch.data.Some?
    ensures r.Json? ==> r.body == fetch.data.value
  {
    if fetch.error.Some? || fetch.data.None? then Fail(404, notFound) else Json(fetch.data.value)
  }
}
