/**
  The song routes: list, sort by a named field, title search, filters by
  year, artist and genre, and a single song by id. Each numeric parameter is
  read with `parseInt` and a NaN is answered with 400 before the store is
  asked anything.
*/
module SongsRouter {
  import opened Wrappers
  import opened JsNumber
  import opened Store

  const NoSongs := "No songs found."
  const InvalidSortField := "Invalid sort field. Valid options: id, title, artist, genre, year, duration."

  /** Every song query orders by title ascending unless the route names another order. */
  const ByTitle := Order("title", true, None)

  function SongQuery(filters: seq<Filter>, order: Order): Query {
    Query(Songs, SongColumns, filters, Some(order), None, false)
  }

  /** GET / : every song, by title. */
  function ListSongs(db: Query -> Fetch<seq<Song>>): Reply<seq<Song>> {
    Respond(db(SongQuery([], ByTitle)), NoSongs)
  }

  function LowerChar(c: char): char {
    if 'A' <= c <= 'Z' then (c as int - 'A' as int + 'a' as int) as char else c
  }

  /** `toLowerCase` on the letters that can spell a sort key. */
  function ToLowerAscii(s: string): (r: string)
    ensures |r| == |s|
    ensures forall i :: 0 <= i < |s| ==> r[i] == LowerChar(s[i]) && !('A' <= r[i] <= 'Z')
  {
    if s == [] then [] else [LowerChar(s[0])] + ToLowerAscii(s[1..])
  }

  /** The column to order by and, when it lives on a joined table, that table. */
  datatype SortField = SortField(column: string, referencedTable: Option<string>)

  /** The `switch` over the lower-cased sort key; any other key is refused. */
  function ResolveSortField(order: string): Option<SortField> {
    match ToLowerAscii(order)
    case "id" => Some(SortField("song_id", None))
    case "title" => Some(SortField("title", None))
    case "artist" => Some(SortField("artist_name", Some("artists")))
    case "genre" => Some(SortField("genre_name", Some("genres")))
    case "year" => Some(SortField("year", None))
    case "duration" => Some(SortField("duration", None))
    case _ => None
  }

  /** The same mapping as a static lookup table, keyed by the six valid sort keys. */
  const SortTable: map<string, SortField> := map[
    "id" := SortField("song_id", None),
    "title" := SortField("title", None),
    "artist" := SortField("artist_name", Some("artists")),
    "genre" := SortField("genre_name", Some("genres")),
    "year" := SortField("year", None),
    "duration" := SortField("duration", None)]

  /** Lower-casing twice is lower-casing once. */
  lemma ToLowerAsciiIdempotent(s: string)
    ensures ToLowerAscii(ToLowerAscii(s)) == ToLowerAscii(s)
  {
    var t := ToLowerAscii(s);
    assert forall i :: 0 <= i < |t| ==> LowerChar(t[i]) == t[i];
  }

  /**
    The resolver is the lookup table, read with the lower-cased key: a known
    key gives its table entry, any other key gives nothing; and only the
    artist and genre keys order on a joined table.
  */
  lemma ResolveSortFieldIsTable(order: string)
    ensures var key := ToLowerAscii(order);
      ResolveSortField(order) == if key in SortTable then Some(SortTable[key]) else None
    ensures var key := ToLowerAscii(order);
      ResolveSortField(order).Some? && ResolveSortField(order).value.referencedTable.Some?
      <==> key == "artist" || key == "genre"
  {
  }

  /** The sort key is case-insensitive: "TITLE", "Title" and "title" resolve alike. */
  lemma ResolveSortFieldIgnoresCase(order: string)
    ensures ResolveSortField(order) == ResolveSortField(ToLowerAscii(order))
  {
    ToLowerAsciiIdempotent(order);
  }

  /** GET /sort/:order */
  function SortSongs(order: string, db: Query -> Fetch<seq<Song>>): (r: Reply<seq<Song>>)
    ensures ToLowerAscii(order) !in SortTable ==> r == Fail(400, InvalidSortField)
    ensures ToLowerAscii(order) in SortTable ==>
      var f := SortTable[ToLowerAscii(order)];
      r == Respond(db(SongQuery([], Order(f.column, true, f.referencedTable))), NoSongs)
  {
    ResolveSortFieldIsTable(order);
    match ResolveSortField(order)
    case None => Fail(400, InvalidSortField)
    case Some(f) => Respond(db(SongQuery([], Order(f.column, true, f.referencedTable))), NoSongs)
  }

  /** The `ilike` pattern of the prefix search: the text, then a `%` wildcard. */
  function BeginPattern(substring: string): (p: string)
    ensures |p| == |substring| + 1 && p[..|substring|] == substring && p[|substring|] == '%'
  {
    substring + "%"
  }

  /** The `ilike` pattern of the substring search: the text between two `%` wildcards. */
  function AnyPattern(substring: string): (p: string)
    ensures |p| == |substring| + 2 && p[0] == '%' && p[1..|p| - 1] == substring && p[|p| - 1] == '%'
  {
    "%" + substring + "%"
  }

  /** GET /search/begin/:substring */
  function SearchBegin(substring: string, db: Query -> Fetch<seq<Song>>): Reply<seq<Song>> {
    Respond(db(SongQuery([ILike("title", BeginPattern(substring))], ByTitle)),
      "No songs found with title beginning with \"" + substring + "\".")
  }

  /** GET /search/any/:substring */
  function SearchAny(substring: string, db: Query -> Fetch<seq<Song>>): Reply<seq<Song>> {
    Respond(db(SongQuery([ILike("title", AnyPattern(substring))], ByTitle)),
      "No songs found containing \"" + substring + "\" in title.")
  }

  /**
    The shape of the four routes that filter on one numeric column: NaN is a
    400 with the route's message; otherwise the parsed integer is the value
    the store filters `column` on, and the reply is the uniform outcome.
  */
  function FilterRoute(ref: string, invalid: string, column: string, notFound: string,
                       db: Query -> Fetch<seq<Song>>): (r: Reply<seq<Song>>)
    ensures r.Status() == 400 <==> ParseInt(ref).None?
    ensures ParseInt(ref).None? ==> r == Fail(400, invalid)
    ensures ParseInt(ref).Some? ==>
      r == Respond(db(SongQuery([Eq(column, ParseInt(ref).value)], ByTitle)),
                   notFound + IntToString(ParseInt(ref).value) + ".")
  {
    match ParseInt(ref)
    case None => Fail(400, invalid)
    case Some(n) => Respond(db(SongQuery([Eq(column, n)], ByTitle)), notFound + IntToString(n) + ".")
  }

  /**
    A reference written as a decimal integer, whatever non-digit text follows
    it, filters the store on exactly that integer ("2017abc" asks for 2017).
  */
  lemma FilterRouteOfDecimal(n: int, rest: string, invalid: string, column: string, notFound: string,
                             db: Query -> Fetch<seq<Song>>)
    requires rest == [] || !IsDecimalDigit(rest[0])
    requires n == 0 ==> rest == [] || (rest[0] != 'x' && rest[0] != 'X')
    ensures FilterRoute(IntToString(n) + rest, invalid, column, notFound, db)
      == Respond(db(SongQuery([Eq(column, n)], ByTitle)), notFound + IntToString(n) + ".")
  {
    ParseIntOfDecimal(n, rest);
  }

  /** GET /search/year/:year */
  function SongsByYear(ref: string, db: Query -> Fetch<seq<Song>>): Reply<seq<Song>> {
    FilterRoute(ref, "Invalid year. Must be a number.", "year", "No songs found for year ", db)
  }

  /** GET /artist/:ref */
  function SongsByArtist(ref: string, db: Query -> Fetch<seq<Song>>): Reply<seq<Song>> {
    FilterRoute(ref, "Invalid artist ID. Must be a number.", "artist_id", "No songs found for artist ID ", db)
  }

  /** GET /genre/:ref */
  function SongsByGenre(ref: string, db: Query -> Fetch<seq<Song>>): Reply<seq<Song>> {
    FilterRoute(ref, "Invalid genre ID. Must be a number.", "genre_id", "No songs found for genre ID ", db)
  }

  /**
    GET /:ref : one song by id. NaN is a 400; a store error and a missing row
    are the same 404; a row is a 200.
  */
  function SongById(ref: string, db: Query -> Fetch<Song>): (r: Reply<Song>)
    ensures r.Status() == 400 <==> ParseInt(ref).None?
    ensures ParseInt(ref).None? ==> r == Fail(400, "Invalid song ID. Must be a number.")
    ensures ParseInt(ref).Some? ==>
      var id := ParseInt(ref).value;
      var fetch := db(Query(Songs, SongColumns, [Eq("song_id", id)], None, None, true));
      r == RespondSingle(fetch, "No song found with ID " + IntToString(id) + ".")
  {
    match ParseInt(ref)
    case None => Fail(400, "Invalid song ID. Must be a number.")
    case Some(id) =>
      var fetch := db(Query(Songs, SongColumns, [Eq("song_id", id)], None, None, true));
      RespondSingle(fetch, "No song found with ID " + IntToString(id) + ".")
  }

  /**
    A song id the store holds no row for (or fails on) is a 404 whose message
    names the id as it was written, e.g. "No song found with ID 999999.".
  */
  lemma SongByIdNotFound(id: int, db: Query -> Fetch<Song>)
    requires var q := Query(Songs, SongColumns, [Eq("song_id", id)], None, None, true);
      db(q).error.Some? || db(q).data.None?
    ensures SongById(IntToString(id), db) == Fail(404, "No song found with ID " + IntToString(id) + ".")
  {
    ParseIntOfDecimal(id, "");
    assert IntToString(id) + "" == IntToString(id);
  }
}
