/**
  The mood routes. "dancing" and "happy" let the store order and limit the
  rows; "coffee" and "studying" fetch every song and rank them in memory,
  keeping the first `limit` rows. Every route reads its limit with
  `ParseLimit`, which never fails.
*/
module MoodRouter {
  import opened Wrappers
  import opened JsNumber
  import opened Store
  import opened StableSort

  const NoSongs := "No songs found."

  /**
    `parseLimit(ref)`: the parsed integer when it lies in 1..20; 20 when the
    parameter is absent or empty, when `parseInt` gives NaN, and when the
    number lies outside 1..20.
  */
  function ParseLimit(ref: Option<string>): (limit: nat)
    ensures 1 <= limit <= 20
    ensures ref.None? || ref.value == [] || ParseInt(ref.value).None? ==> limit == 20
    ensures ref.Some? && ParseInt(ref.value).Some? ==>
      var n := ParseInt(ref.value).value;
      (1 <= n <= 20 ==> limit == n) && (n < 1 || n > 20 ==> limit == 20)
  {
    if ref.None? || ref.value == [] then 20
    else match ParseInt(ref.value)
      case None => 20
      case Some(n) => if n < 1 || n > 20 then 20 else n
  }

  /** A decimal limit in 1..20, whatever non-digit text follows it, is taken as it is ("5" is 5, "7abc" is 7). */
  lemma ParseLimitKeepsInRange(n: int, rest: string)
    requires 1 <= n <= 20
    requires rest == [] || !IsDecimalDigit(rest[0])
    ensures ParseLimit(Some(IntToString(n) + rest)) == n
  {
    ParseIntOfDecimal(n, rest);
  }

  /** A decimal limit below 1 (such as "0" or "-3") or above 20 falls back to 20. */
  lemma ParseLimitClampsOutOfRange(n: int, rest: string)
    requires n < 1 || n > 20
    requires rest == [] || !IsDecimalDigit(rest[0])
    requires n == 0 ==> rest == [] || (rest[0] != 'x' && rest[0] != 'X')
    ensures ParseLimit(Some(IntToString(n) + rest)) == 20
  {
    ParseIntOfDecimal(n, rest);
  }

  /** A limit with no decimal digit in it falls back to 20. */
  lemma ParseLimitWithoutDigits(ref: string)
    requires forall i :: 0 <= i < |ref| ==> !IsDecimalDigit(ref[i])
    ensures ParseLimit(Some(ref)) == 20
  {
    ParseIntWithoutDigits(ref);
  }

  /**
    The query of a mood the store ranks itself: every song, by `column`
    descending, at most as many rows as the limit parameter allows.
  */
  function TopQuery(column: string, ref: Option<string>): (q: Query)
    ensures q.order == Some(Order(column, false, None))
    ensures q.limit == Some(ParseLimit(ref)) && 1 <= q.limit.value <= 20
    ensures q.table == Songs && q.columns == SongColumns && q.filters == [] && !q.single
  {
    Query(Songs, SongColumns, [], Some(Order(column, false, None)), Some(ParseLimit(ref)), false)
  }

  /** GET /dancing/:ref: the store's rows, unchanged, under the uniform outcome mapping. */
  function Dancing(ref: Option<string>, db: Query -> Fetch<seq<Song>>): Reply<seq<Song>> {
    Respond(db(TopQuery("danceability", ref)), NoSongs)
  }

  /** GET /happy/:ref */
  function Happy(ref: Option<string>, db: Query -> Fetch<seq<Song>>): Reply<seq<Song>> {
    Respond(db(TopQuery("valence", ref)), NoSongs)
  }

  /** A store that returns no more rows than a query's limit allows. */
  predicate HonoursLimit(db: Query -> Fetch<seq<Song>>, q: Query) {
    q.limit.Some? && db(q).data.Some? ==> |db(q).data.value| <= q.limit.value
  }

  /**
    When the store honours the limit, a 200 from the dancing or happy route
    carries between 1 and `ParseLimit(ref)` rows, so never more than 20.
  */
  lemma StoreRankedWithinLimit(ref: Option<string>, db: Query -> Fetch<seq<Song>>)
    requires HonoursLimit(db, TopQuery("danceability", ref)) && HonoursLimit(db, TopQuery("valence", ref))
    ensures Dancing(ref, db).Json? ==> 1 <= |Dancing(ref, db).body| <= ParseLimit(ref) <= 20
    ensures Happy(ref, db).Json? ==> 1 <= |Happy(ref, db).body| <= ParseLimit(ref) <= 20
  {
  }

  /** Every song the coffee and studying routes fetch: no filter, no order, no limit. */
  const AllSongs := Query(Songs, SongColumns, [], None, None, false)

  /** A song whose liveness/acousticness ratio can be computed. */
  type AcousticSong = s: Song | s.acousticness > 0.0
    witness Song(0, "", 0, 0.0, 0.0, 0.0, 0.0, 0.0, 0.0, 0.0, 1.0, 0.0, 0.0, ArtistRef(0, ""), GenreRef(0, ""))

  function Ratio(s: Song): real
    requires s.acousticness > 0.0
  {
    s.liveness / s.acousticness
  }

  /** Sorting ascending by this key puts the highest liveness/acousticness ratio first. */
  function CoffeeKey(s: AcousticSong): real {
    -Ratio(s)
  }

  /** `s.energy * s.speechiness`, sorted ascending. */
  function StudyingKey(s: Song): real {
    s.energy * s.speechiness
  }

  /** `.filter(s => s.acousticness > 0)`. */
  function KeepAcoustic(rows: seq<Song>): (kept: seq<Song>)
    ensures forall i :: 0 <= i < |kept| ==> kept[i].acousticness > 0.0
  {
    if rows == [] then []
    else (if rows[0].acousticness > 0.0 then [rows[0]] else []) + KeepAcoustic(rows[1..])
  }

  /** The filter keeps each fetched row with positive acousticness as often as it was fetched, and no other row. */
  lemma {:induction false} KeepAcousticCounts(rows: seq<Song>)
    ensures forall x :: multiset(KeepAcoustic(rows))[x] == if x.acousticness > 0.0 then multiset(rows)[x] else 0
  {
    if rows != [] {
      KeepAcousticCounts(rows[1..]);
      assert rows == [rows[0]] + rows[1..];
    }
  }

  /** The coffee ranking of the fetched rows: filter, sort, keep the first `limit`. */
  function CoffeeRanking(rows: seq<Song>, limit: nat): seq<Song> {
    var kept: seq<AcousticSong> := KeepAcoustic(rows);
    TopBy(kept, CoffeeKey, limit)
  }

  /** The studying ranking of the fetched rows: sort, keep the first `limit`. */
  function StudyingRanking(rows: seq<Song>, limit: nat): seq<Song> {
    TopBy(rows, StudyingKey, limit)
  }

  /** What GET /coffee/:ref replies: the empty check is made on the fetched rows, before filtering. */
  function CoffeeReply(ref: Option<string>, fetch: Fetch<seq<Song>>): Reply<seq<Song>> {
    match Respond(fetch, NoSongs)
    case Json(rows) => Json(CoffeeRanking(rows, ParseLimit(ref)))
    case Fail(status, message) => Fail(status, message)
  }

  /** What GET /studying/:ref replies. */
  function StudyingReply(ref: Option<string>, fetch: Fetch<seq<Song>>): Reply<seq<Song>> {
    match Respond(fetch, NoSongs)
    case Json(rows) => Json(StudyingRanking(rows, ParseLimit(ref)))
    case Fail(status, message) => Fail(status, message)
  }

  /** Filtering keeps only rows of the fetch, so the filtered rows are a sub-multiset of it. */
  lemma KeepAcousticSubMultiset(rows: seq<Song>)
    ensures multiset(KeepAcoustic(rows)) <= multiset(rows)
  {
    var kept := KeepAcoustic(rows);
    KeepAcousticCounts(rows);
    forall x ensures multiset(kept)[x] <= multiset(rows)[x] { }
  }

  /** One row is kept exactly when its acousticness is positive. */
  lemma KeepAcousticOne(s: Song)
    ensures KeepAcoustic([s]) == if s.acousticness > 0.0 then [s] else []
  {
    assert [s][1..] == [];
  }

  /**
    `.filter` keeps the fetched order: filtering a concatenation is the
    concatenation of the filtered parts.
  */
  lemma {:induction false} KeepAcousticAppend(a: seq<Song>, b: seq<Song>)
    ensures KeepAcoustic(a + b) == KeepAcoustic(a) + KeepAcoustic(b)
  {
    if a == [] {
      assert a + b == b;
    } else {
      var ab := a + b;
      assert ab[0] == a[0] && ab[1..] == a[1..] + b;
      var head := if a[0].acousticness > 0.0 then [a[0]] else [];
      assert KeepAcoustic(ab) == head + KeepAcoustic(a[1..] + b);
      KeepAcousticAppend(a[1..], b);
      assert KeepAcoustic(a) == head + KeepAcoustic(a[1..]);
    }
  }

  /**
    The coffee ranking: only songs with positive acousticness, by ratio from
    highest to lowest, as many as the limit and the filter allow, each taken
    from the fetched rows.
  */
  lemma CoffeeRanked(rows: seq<Song>, limit: nat)
    ensures var r := CoffeeRanking(rows, limit);
      && (forall i :: 0 <= i < |r| ==> r[i].acousticness > 0.0)
      && (forall i, j :: 0 <= i < j < |r| ==> Ratio(r[i]) >= Ratio(r[j]))
      && |r| == Min(limit, |KeepAcoustic(rows)|)
      && multiset(r) <= multiset(rows)
  {
    var kept: seq<AcousticSong> := KeepAcoustic(rows);
    TopByRanked(kept, CoffeeKey, limit);
    var r: seq<AcousticSong> := TopBy(kept, CoffeeKey, limit);
    assert forall i, j :: 0 <= i < j < |r| ==> CoffeeKey(r[i]) <= CoffeeKey(r[j]);
    var rs: seq<Song> := r;
    var ks: seq<Song> := kept;
    assert multiset(rs) <= multiset(ks);
    KeepAcousticSubMultiset(rows);
  }

  /**
    The coffee ranking keeps the highest ratios: of the filtered songs left
    out none has a higher ratio than one kept, and songs with equal ratios
    keep their fetched order.
  */
  lemma CoffeeTopAndStable(rows: seq<Song>, limit: nat)
    ensures var r: seq<AcousticSong> := CoffeeRanking(rows, limit);
      var kept: seq<AcousticSong> := KeepAcoustic(rows);
      && (forall x, y :: x in multiset(r) && y in multiset(kept) - multiset(r) ==> Ratio(x) >= Ratio(y))
      && (forall v :: Ties(r, CoffeeKey, v) <= Ties(kept, CoffeeKey, v))
  {
    var kept: seq<AcousticSong> := KeepAcoustic(rows);
    var r: seq<AcousticSong> := TopBy(kept, CoffeeKey, limit);
    TopByRanked(kept, CoffeeKey, limit);
    forall x: AcousticSong, y: AcousticSong | x in multiset(r) && y in multiset(kept) - multiset(r)
      ensures Ratio(x) >= Ratio(y)
    {
      assert CoffeeKey(x) <= CoffeeKey(y);
    }
  }

  /**
    The studying ranking: by energy times speechiness from lowest to highest,
    as many as the limit allows, a sub-multiset of the fetched rows; of the
    songs left out none has a lower product than one kept; songs with equal
    products keep their fetched order.
  */
  lemma StudyingRanked(rows: seq<Song>, limit: nat)
    ensures var r := StudyingRanking(rows, limit);
      && (forall i, j :: 0 <= i < j < |r| ==> StudyingKey(r[i]) <= StudyingKey(r[j]))
      && |r| == Min(limit, |rows|)
      && multiset(r) <= multiset(rows)
      && (forall x, y :: x in multiset(r) && y in multiset(rows) - multiset(r) ==> StudyingKey(x) <= StudyingKey(y))
      && (forall v :: Ties(r, StudyingKey, v) <= Ties(rows, StudyingKey, v))
  {
    TopByRanked(rows, StudyingKey, limit);
  }

  /**
    The coffee route answers 404 only when the fetch itself is empty; when
    no fetched song has positive acousticness it answers 200 with no rows.
  */
  lemma CoffeeEmptyCheckBeforeFilter(ref: Option<string>, rows: seq<Song>)
    requires rows != []
    requires forall i :: 0 <= i < |rows| ==> rows[i].acousticness <= 0.0
    ensures CoffeeReply(ref, Fetch(None, Some(rows))) == Json([])
  {
    var kept: seq<AcousticSong> := KeepAcoustic(rows);
    KeepAcousticCounts(rows);
    SortByPermutes(kept, CoffeeKey);
  }

  /** GET /coffee/:ref, with the in-place sort of the filtered array. */
  method Coffee(ref: Option<string>, fetch: Fetch<seq<Song>>) returns (reply: Reply<seq<Song>>)
    ensures reply == CoffeeReply(ref, fetch)
  {
    var limit := ParseLimit(ref);
    if fetch.error.Some? {
      return Fail(500, fetch.error.value);
    }
    if fetch.data.None? || |fetch.data.value| == 0 {
      return Fail(404, NoSongs);
    }
    var kept: seq<AcousticSong> := KeepAcoustic(fetch.data.value);
    var sorted := new AcousticSong[|kept|](i requires 0 <= i < |kept| => kept[i]);
    assert sorted[..] == kept;
    SortInPlace(sorted, CoffeeKey);
    reply := Json(sorted[..Min(limit, sorted.Length)]);
  }

  /** GET /studying/:ref, sorting the fetched array itself in place. */
  method Studying(ref: Option<string>, fetch: Fetch<seq<Song>>) returns (reply: Reply<seq<Song>>)
    ensures reply == StudyingReply(ref, fetch)
  {
    var limit := ParseLimit(ref);
    if fetch.error.Some? {
      return Fail(500, fetch.error.value);
    }
    if fetch.data.None? || |fetch.data.value| == 0 {
      return Fail(404, NoSongs);
    }
    var rows := fetch.data.value;
    var data := new Song[|rows|](i requires 0 <= i < |rows| => rows[i]);
    assert data[..] == rows;
    SortInPlace(data, StudyingKey);
    reply := Json(data[..Min(limit, data.Length)]);
  }
}
