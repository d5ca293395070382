/**
  The artist routes: the list by name, one artist by id, and the averages
  of an artist's ten numeric song attributes. The averages are a left fold
  over the fetched rows (a missing or null value counts as 0), divided by
  the row count, then rounded with `toFixed(2)`.
*/
module ArtistsRouter {
  import opened Wrappers
  import opened JsNumber
  import opened Store

  const InvalidArtistId := "Invalid artist ID. Must be a number."

  /** The ten numeric song attributes the averages route selects. */
  datatype Feature =
    Bpm | Energy | Danceability | Loudness | Liveness | Valence | Duration | Acousticness | Speechiness | Popularity

  /** A row of the averages query: each attribute may be null. */
  datatype AudioRow = AudioRow(
    bpm: Option<real>, energy: Option<real>, danceability: Option<real>, loudness: Option<real>,
    liveness: Option<real>, valence: Option<real>, duration: Option<real>, acousticness: Option<real>,
    speechiness: Option<real>, popularity: Option<real>)
  {
    /** `row[field] || 0`: a null attribute reads as 0. */
    function Value(f: Feature): real {
      var v := match f
        case Bpm => bpm
        case Energy => energy
        case Danceability => danceability
        case Loudness => loudness
        case Liveness => liveness
        case Valence => valence
        case Duration => duration
        case Acousticness => acousticness
        case Speechiness => speechiness
        case Popularity => popularity;
      v.GetOr(0.0)
    }
  }

  /** The averages object of the reply. */
  datatype Averages = Averages(
    artistId: int, songCount: nat,
    bpm: real, energy: real, danceability: real, loudness: real, liveness: real,
    valence: real, duration: real, acousticness: real, speechiness: real, popularity: real)
  {
    function Get(f: Feature): real {
      match f
      case Bpm => bpm
      case Energy => energy
      case Danceability => danceability
      case Loudness => loudness
      case Liveness => liveness
      case Valence => valence
      case Duration => duration
      case Acousticness => acousticness
      case Speechiness => speechiness
      case Popularity => popularity
    }
  }

  /** GET / : every artist, by name. */
  function ListArtists(db: Query -> Fetch<seq<Artist>>): Reply<seq<Artist>> {
    Respond(db(Query(Artists, ArtistColumns, [], Some(Order("artist_name", true, None)), None, false)),
      "No artists found.")
  }

  /** `rows.reduce((sum, row) => sum + (row[f] || 0), acc)`: a left fold, first row first. */
  function Reduce(rows: seq<AudioRow>, f: Feature, acc: real): real {
    if rows == [] then acc else Reduce(rows[1..], f, acc + rows[0].Value(f))
  }

  /** The sum of attribute `f` over the rows, a null counting as 0. */
  function Total(rows: seq<AudioRow>, f: Feature): real {
    if rows == [] then 0.0 else Total(rows[..|rows| - 1], f) + rows[|rows| - 1].Value(f)
  }

  /** The exact mean of attribute `f`. */
  function Mean(rows: seq<AudioRow>, f: Feature): real
    requires rows != []
  {
    Total(rows, f) / |rows| as real
  }

  /** `avg(field)`: the folded sum over the count, rounded to two decimals. */
  function Avg(rows: seq<AudioRow>, f: Feature): real
    requires rows != []
  {
    ToFixed2(Reduce(rows, f, 0.0) / |rows| as real)
  }

  /** The averages object for artist `id` and its rows. */
  function Summarize(id: int, rows: seq<AudioRow>): Averages
    requires rows != []
  {
    Averages(id, |rows|,
      Avg(rows, Bpm), Avg(rows, Energy), Avg(rows, Danceability), Avg(rows, Loudness), Avg(rows, Liveness),
      Avg(rows, Valence), Avg(rows, Duration), Avg(rows, Acousticness), Avg(rows, Speechiness), Avg(rows, Popularity))
  }

  /** Total over a sequence grown at the front. */
  lemma {:induction false} TotalOfCons(row: AudioRow, rows: seq<AudioRow>, f: Feature)
    ensures Total([row] + rows, f) == row.Value(f) + Total(rows, f)
    decreases |rows|
  {
    if rows != [] {
      assert ([row] + rows)[..|rows|] == [row] + rows[..|rows| - 1];
      TotalOfCons(row, rows[..|rows| - 1], f);
    }
  }

  /** The left fold of `reduce` adds up exactly the attribute's total. */
  lemma {:induction false} ReduceIsTotal(rows: seq<AudioRow>, f: Feature, acc: real)
    ensures Reduce(rows, f, acc) == acc + Total(rows, f)
  {
    if rows != [] {
      ReduceIsTotal(rows[1..], f, acc + rows[0].Value(f));
      TotalOfCons(rows[0], rows[1..], f);
      assert [rows[0]] + rows[1..] == rows;
    }
  }

  /** Attribute values within [lo, hi] give a total within [n * lo, n * hi]. */
  lemma {:induction false} TotalBounds(rows: seq<AudioRow>, f: Feature, lo: real, hi: real)
    requires forall i :: 0 <= i < |rows| ==> lo <= rows[i].Value(f) <= hi
    ensures |rows| as real * lo <= Total(rows, f) <= |rows| as real * hi
  {
    if rows != [] {
      TotalBounds(rows[..|rows| - 1], f, lo, hi);
    }
  }

  /** The mean lies between the smallest and the largest value of the attribute. */
  lemma MeanBounds(rows: seq<AudioRow>, f: Feature, lo: real, hi: real)
    requires rows != []
    requires forall i :: 0 <= i < |rows| ==> lo <= rows[i].Value(f) <= hi
    ensures lo <= Mean(rows, f) <= hi
  {
    TotalBounds(rows, f, lo, hi);
    var n := |rows| as real;
    assert Mean(rows, f) * n == Total(rows, f);
  }

  /**
    Each average is the exact mean (nulls counted as 0) rounded to two
    decimals, within 0.005 of it; the count is the number of rows and the
    id is the one asked for.
  */
  lemma SummarizeIsRoundedMean(id: int, rows: seq<AudioRow>, f: Feature)
    requires rows != []
    ensures Summarize(id, rows).artistId == id && Summarize(id, rows).songCount == |rows|
    ensures Summarize(id, rows).Get(f) == ToFixed2(Mean(rows, f))
    ensures -0.005 <= Summarize(id, rows).Get(f) - Mean(rows, f) <= 0.005
  {
    ReduceIsTotal(rows, f, 0.0);
  }

  /**
    GET /averages/:ref. NaN is a 400 and no query is made; a store error is
    a 500; no rows is a 404 naming the id and no average is computed;
    otherwise the averages of the fetched rows.
  */
  function ArtistAverages(ref: string, db: Query -> Fetch<seq<AudioRow>>): (r: Reply<Averages>)
    ensures ParseInt(ref).None? ==> r == Fail(400, InvalidArtistId)
    ensures ParseInt(ref).Some? ==>
      var id := ParseInt(ref).value;
      var fetch := db(Query(Songs, AudioFeatureColumns, [Eq("artist_id", id)], None, None, false));
      && (fetch.error.Some? ==> r == Fail(500, fetch.error.value))
      && (fetch.error.None? && (fetch.data.None? || fetch.data.value == []) ==>
            r == Fail(404, "No songs found for artist ID " + IntToString(id) + "."))
      && (fetch.error.None? && fetch.data.Some? && fetch.data.value != [] ==>
            r == Json(Summarize(id, fetch.data.value)))
      && (r.Json? ==> fetch.data.Some? && fetch.data.value != [] && r.body == Summarize(id, fetch.data.value))
    ensures r.Status() == 400 <==> ParseInt(ref).None?
    ensures r.Status() in {200, 400, 404, 500}
  {
    match ParseInt(ref)
    case None => Fail(400, InvalidArtistId)
    case Some(id) =>
      var fetch := db(Query(Songs, AudioFeatureColumns, [Eq("artist_id", id)], None, None, false));
      match Respond(fetch, "No songs found for artist ID " + IntToString(id) + ".")
      case Fail(status, message) => Fail(status, message)
      case Json(rows) => Json(Summarize(id, rows))
  }

  /**
    A parsed id whose fetch succeeds with rows is a 200 carrying that id, the
    number of rows and, for every attribute, the mean of the fetched rows
    rounded within 0.005.
  */
  lemma ArtistAveragesMeans(ref: string, db: Query -> Fetch<seq<AudioRow>>, f: Feature)
    requires ParseInt(ref).Some?
    requires var fetch := db(Query(Songs, AudioFeatureColumns, [Eq("artist_id", ParseInt(ref).value)], None, None, false));
      fetch.error.None? && fetch.data.Some? && fetch.data.value != []
    ensures var id := ParseInt(ref).value;
      var rows := db(Query(Songs, AudioFeatureColumns, [Eq("artist_id", id)], None, None, false)).data.value;
      var r := ArtistAverages(ref, db);
      && r.Json?
      && r.body.artistId == id && r.body.songCount == |rows|
      && -0.005 <= r.body.Get(f) - Mean(rows, f) <= 0.005
  {
    var id := ParseInt(ref).value;
    var rows := db(Query(Songs, AudioFeatureColumns, [Eq("artist_id", id)], None, None, false)).data.value;
    SummarizeIsRoundedMean(id, rows, f);
  }

  /**
    GET /:ref : one artist by id. NaN is a 400; a store error and a missing
    row are the same 404 naming the id.
  */
  function ArtistById(ref: string, db: Query -> Fetch<Artist>): (r: Reply<Artist>)
    ensures r.Status() == 400 <==> ParseInt(ref).None?
    ensures ParseInt(ref).None? ==> r == Fail(400, InvalidArtistId)
    ensures ParseInt(ref).Some? ==>
      var id := ParseInt(ref).value;
      var fetch := db(Query(Artists, ArtistColumns, [Eq("artist_id", id)], None, None, true));
      r == RespondSingle(fetch, "No artist found with ID " + IntToString(id) + ".")
  {
    match ParseInt(ref)
    case None => Fail(400, InvalidArtistId)
    case Some(id) =>
      var fetch := db(Query(Artists, ArtistColumns, [Eq("artist_id", id)], None, None, true));
      RespondSingle(fetch, "No artist found with ID " + IntToString(id) + ".")
  }
}
