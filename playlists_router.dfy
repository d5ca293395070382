/**
  The playlist route: the playlist's rows joined to their song, the song's
  artist and its genre, flattened into one record per row.
*/
module PlaylistsRouter {
  import opened Wrappers
  import opened JsNumber
  import opened Store

  /** `songs!inner (song_id, title, year, artists!inner (artist_name), genres!inner (genre_name))`. */
  datatype PlaylistSong = PlaylistSong(songId: int, title: string, year: int, artistName: string, genreName: string)

  /** A row of the playlist query: the playlist id and the nested song. */
  datatype PlaylistRow = PlaylistRow(playlistId: int, songs: PlaylistSong)

  /** A flattened record; its playlist id is under the key `playlist`. */
  datatype FlatEntry = FlatEntry(playlist: int, songId: int, title: string, artistName: string, genreName: string, year: int)

  /** The projection `data.map` applies to one row. */
  function Project(row: PlaylistRow): FlatEntry {
    FlatEntry(row.playlistId, row.songs.songId, row.songs.title,
      row.songs.artistName, row.songs.genreName, row.songs.year)
  }

  /** `data.map(row => ({ ... }))`. */
  function Flatten(rows: seq<PlaylistRow>): seq<FlatEntry> {
    if rows == [] then [] else [Project(rows[0])] + Flatten(rows[1..])
  }

  /**
    One record per row, in the same order, each carrying the row's playlist
    id, its song's id, title and year, and its artist's and genre's names.
  */
  lemma {:induction false} FlattenPointwise(rows: seq<PlaylistRow>)
    ensures |Flatten(rows)| == |rows|
    ensures forall i :: 0 <= i < |rows| ==>
      var e, row := Flatten(rows)[i], rows[i];
      && e.playlist == row.playlistId
      && e.songId == row.songs.songId && e.title == row.songs.title && e.year == row.songs.year
      && e.artistName == row.songs.artistName && e.genreName == row.songs.genreName
  {
    if rows != [] {
      FlattenPointwise(rows[1..]);
      forall i | 0 < i < |rows| ensures Flatten(rows)[i] == Flatten(rows[1..])[i - 1] && rows[i] == rows[1..][i - 1] { }
    }
  }

  /** Flattening commutes with concatenation, so the record order is the row order. */
  lemma {:induction false} FlattenAppend(a: seq<PlaylistRow>, b: seq<PlaylistRow>)
    ensures Flatten(a + b) == Flatten(a) + Flatten(b)
  {
    if a != [] {
      FlattenAppend(a[1..], b);
      assert (a + b)[1..] == a[1..] + b;
    } else {
      assert a + b == b;
    }
  }

  /**
    GET /:ref . NaN is a 400; a store error is a 500; no rows is a 404
    naming the id; otherwise the flattened rows.
  */
  function PlaylistById(ref: string, db: Query -> Fetch<seq<PlaylistRow>>): (r: Reply<seq<FlatEntry>>)
    ensures ParseInt(ref).None? ==> r == Fail(400, "Invalid playlist ID. Must be a number.")
    ensures ParseInt(ref).Some? ==>
      var id := ParseInt(ref).value;
      var fetch := db(Query(Playlists, PlaylistColumns, [Eq("playlist_id", id)], None, None, false));
      && (fetch.error.Some? ==> r == Fail(500, fetch.error.value))
      && (fetch.error.None? && (fetch.data.None? || fetch.data.value == []) ==>
            r == Fail(404, "No playlist found with ID " + IntToString(id) + "."))
      && (fetch.error.None? && fetch.data.Some? && fetch.data.value != [] ==>
            r == Json(Flatten(fetch.data.value)))
      && (r.Json? ==> fetch.data.Some? && fetch.data.value != [] && r.body == Flatten(fetch.data.value))
    ensures r.Status() == 400 <==> ParseInt(ref).None?
    ensures r.Status() in {200, 400, 404, 500}
  {
    match ParseInt(ref)
    case None => Fail(400, "Invalid playlist ID. Must be a number.")
    case Some(id) =>
      var fetch := db(Query(Playlists, PlaylistColumns, [Eq("playlist_id", id)], None, None, false));
      match Respond(fetch, "No playlist found with ID " + IntToString(id) + ".")
      case Fail(status, message) => Fail(status, message)
      case Json(rows) => Json(Flatten(rows))
  }
}
