/** Looking up each CSV row in the catalog and keeping the hits
    (import_spotify.py, lines 62-82). */
module TrackResolver {
  import opened Wrappers
  import opened Spotify

  /** One CSV row: the `Artist` and `Track` columns. */
  datatype Row = Row(artist: string, track: string)

  /** `get_song_uri`: one search for `artist:<artist> track:<track>` asking for a
      single track; the first item's uri, or nothing when the answer has no
      `tracks`, no `items`, or an empty item list. */
  function SongUri(catalog: SearchRequest -> SearchResult, artist: string, track: string): (u: Option<Uri>)
    ensures var res := catalog(SearchRequest("artist:" + artist + " track:" + track, "track", 1));
            && (u.Some? <==> res.tracks.Some? && res.tracks.value.items.Some? && res.tracks.value.items.value != [])
            && (u.Some? ==> u.value == res.tracks.value.items.value[0].uri)
  {
    var query := "artist:" + artist + " track:" + track;
    var result := catalog(SearchRequest(query, "track", 1));
    var items :=
      match result.tracks
      case None => []
      case Some(page) => match page.items case None => [] case Some(xs) => xs;
    if items != [] then Some(items[0].uri) else None
  }

  /** Python's `if uri:` on what `get_song_uri` returned. */
  function IsHit(u: Option<Uri>): (hit: bool)
    ensures u.None? ==> !hit
    ensures u == Some("") ==> !hit
    ensures u.Some? && u.value != "" ==> hit
  {
    u.Some? && u.value != ""
  }

  /** The uris kept for `rows` (the list `track_uris`), in row order. */
  function Resolved(rows: seq<Row>, catalog: SearchRequest -> SearchResult): (uris: seq<Uri>)
    ensures |uris| <= |rows|
    ensures forall j :: 0 <= j < |uris| ==> uris[j] != ""
  {
    if rows == [] then []
    else
      var last := rows[|rows| - 1];
      var u := SongUri(catalog, last.artist, last.track);
      Resolved(rows[..|rows| - 1], catalog) + (if IsHit(u) then [u.value] else [])
  }

  /** The "Track not found" lines printed for `rows`, in row order. */
  function MissLog(rows: seq<Row>, catalog: SearchRequest -> SearchResult): (lines: seq<Message>)
    ensures |lines| <= |rows|
    ensures forall j :: 0 <= j < |lines| ==> lines[j].TrackNotFound?
  {
    if rows == [] then []
    else
      var last := rows[|rows| - 1];
      MissLog(rows[..|rows| - 1], catalog)
        + (if IsHit(SongUri(catalog, last.artist, last.track)) then [] else [TrackNotFound(last.artist, last.track)])
  }

  /** Lines 74-82: resolve the rows in order, keeping each hit and reporting each miss. */
  method CollectUris(rows: seq<Row>, catalog: SearchRequest -> SearchResult)
    returns (uris: seq<Uri>, notFound: seq<Message>)
    ensures uris == Resolved(rows, catalog)
    ensures notFound == MissLog(rows, catalog)
  {
    uris, notFound := [], [];
    for k := 0 to |rows|
      invariant uris == Resolved(rows[..k], catalog)
      invariant notFound == MissLog(rows[..k], catalog)
    {
      var row := rows[k];
      var uri := SongUri(catalog, row.artist, row.track);
      assert rows[..k + 1][..k] == rows[..k];
      if IsHit(uri) {
        uris := uris + [uri.value];
      } else {
        notFound := notFound + [TrackNotFound(row.artist, row.track)];
      }
    }
    assert rows[..|rows|] == rows;
  }

  /** A single row contributes its uri when it is a hit and exactly one
      "Track not found" line otherwise. */
  lemma RowOutcome(row: Row, catalog: SearchRequest -> SearchResult)
    ensures var u := SongUri(catalog, row.artist, row.track);
      IsHit(u) ==> Resolved([row], catalog) == [u.value] && MissLog([row], catalog) == []
    ensures !IsHit(SongUri(catalog, row.artist, row.track)) ==>
      Resolved([row], catalog) == [] && MissLog([row], catalog) == [TrackNotFound(row.artist, row.track)]
  {
  }

  /** Resolving is row by row: the rows of `a` are handled before those of `b`,
      and neither affects the other. */
  lemma {:induction false} ResolvedAppend(a: seq<Row>, b: seq<Row>, catalog: SearchRequest -> SearchResult)
    ensures Resolved(a + b, catalog) == Resolved(a, catalog) + Resolved(b, catalog)
    ensures MissLog(a + b, catalog) == MissLog(a, catalog) + MissLog(b, catalog)
    decreases |b|
  {
    if b == [] {
      assert a + b == a;
    } else {
      var b' := b[..|b| - 1];
      assert (a + b)[..|a + b| - 1] == a + b';
      assert (a + b)[|a + b| - 1] == b[|b| - 1];
      ResolvedAppend(a, b', catalog);
    }
  }

  /** Every row is either kept or reported, never both. */
  lemma {:induction false} ResolvedAccounting(rows: seq<Row>, catalog: SearchRequest -> SearchResult)
    ensures |Resolved(rows, catalog)| + |MissLog(rows, catalog)| == |rows|
    ensures forall j :: 0 <= j < |Resolved(rows, catalog)| ==> Resolved(rows, catalog)[j] != ""
    ensures forall j :: 0 <= j < |MissLog(rows, catalog)| ==> MissLog(rows, catalog)[j].TrackNotFound?
  {
    if rows != [] {
      ResolvedAccounting(rows[..|rows| - 1], catalog);
    }
  }
}
