# Playlist import: reconciliation and batched add

This project models the part of `import_spotify.py` that runs after authentication.
It finds the target playlist among the current user's playlists, page by page, and
clears it. If no playlist has that name, it creates a public one. It then looks up
every CSV row (artist, track) in the catalog and keeps the hits. Finally it submits
the kept track uris to the playlist in slices of 100, and a failing slice does not
stop the loop.

The streaming-service client is replaced by data (`Spotify.Service`):

- the pages of the current user's playlists, as `seq<seq<PlaylistEntry>>`; page k has a `next` link exactly when it is not the last page;
- the catalog, a function from a search request (query, type, limit) to a search answer whose `tracks` and `items` may be missing;
- the user id and the id the service gives a newly created playlist;
- which add requests raise, as a predicate on the 0-based number of the add request.

`Spotify.Client` is the session. Its ghost `trace` records every playlist-changing
request in order: `Replace(id, uris)`, `Create(user, name, public, id)` and
`Add(id, batch, ok)`. Its `console` records every printed line, and `adds` counts
the add requests made so far. `Spotify.ContentsAfter` replays a trace to give the
contents of a playlist. This is how the model states what the playlist holds after
a run.

Files:

- `wrappers.dfy`: `Option`.
- `spotify.dfy`: the service data, requests, printed lines and the client.
- `playlist_resolver.dfy`: the page scan and the clear-or-create branch (lines 37-57).
- `track_resolver.dfy`: `get_song_uri` and the row filter (lines 62-82).
- `batch_importer.dfy`: slicing into batches and the add loop (lines 84-93).
- `workflow.dfy`: `add_songs_to_playlist` and the whole run, with lemmas about its trace and console.

About the script's inputs and the playlists it scans:

- The script takes no command-line flags and does not check its environment variables. It hard-codes the playlist name and the CSV path. The repository's tests call `parse_arguments()` and `main()`, which the script does not define. In the model, the playlist name and the rows are parameters.
- `current_user_playlists()` lists every playlist the user owns or follows. The scan does no owner check, and neither does the model.

## Model

| member | source | states |
|---|---|---|
| `PlaylistResolver.FirstInPage` | import_spotify.py:40-43 | the index found in one page holds the name, and no earlier item does; no index is found only when no item of the page has the name |
| `PlaylistResolver.FirstMatch` | import_spotify.py:39-46 | the position found is the first playlist with exactly that name, in page order and then item order; nothing is found only when no playlist on any page has the name |
| `PlaylistResolver.FirstMatchExact` | import_spotify.py:39-46 | `FirstMatch` returns a position exactly when that position is the first match, and returns nothing exactly when no playlist has the name (both directions) |
| `PlaylistResolver.ScanPlaylists` | import_spotify.py:37-46 | the scan loop finds a playlist exactly when one has the name, and then it finds the first one; when it finds one on page p it has made exactly p `next` requests; otherwise it has read every page, making `LastPage(pages)` `next` requests |
| `PlaylistResolver.TargetId` | import_spotify.py:48-57 | the id every later request uses: the created playlist's id when no playlist has the name, otherwise the id of the first playlist with the name |
| `PlaylistResolver.ResolveCall` | import_spotify.py:48-57 | the resolver's request is a replace exactly when some playlist has the name; a replace empties the target playlist; otherwise it is a create of a public playlist with that name for the current user, and the created id is the target id |
| `PlaylistResolver.ResolveLog` | import_spotify.py:49-55 | the resolver prints "found existing" and "cleared" when some playlist has the name, and "creating" otherwise |
| `PlaylistResolver.ResolvePlaylist` | import_spotify.py:48-57 | makes exactly one playlist-changing request (the listing and `next` requests of the scan are not traced): it replaces the found playlist's items with the empty list, or it creates a public playlist with the target name for the current user; it returns the found id or the created id, and prints the matching lines |
| `Spotify.Client.ReplaceItems` | import_spotify.py:52 | records one replace request with the given id and items; nothing else changes |
| `Spotify.Client.CreatePlaylist` | import_spotify.py:56-57 | records one create request and returns the id the service assigns |
| `Spotify.Client.Print` | import_spotify.py:49-94 | appends the given lines to the console, in order; no request is made |
| `Spotify.Client.AddItems` | import_spotify.py:90 | records one add request with its batch; it fails exactly when the service fails that request; the add counter goes up by one |
| `TrackResolver.SongUri` | import_spotify.py:62-68 | searches with the query `artist:<artist> track:<track>`, type `track`, limit 1; returns the first item's uri when `tracks` and `items` are both present and `items` is non-empty, and nothing otherwise |
| `TrackResolver.IsHit` | import_spotify.py:79 | a lookup counts as a hit exactly when it gave a non-empty uri: no uri and the empty string are both misses |
| `TrackResolver.Resolved` | import_spotify.py:74-81 | the list of kept uris is no longer than the rows, and every uri in it is non-empty |
| `TrackResolver.MissLog` | import_spotify.py:74-82 | there are at most as many miss lines as rows, and every one is a "Track not found" line |
| `TrackResolver.CollectUris` | import_spotify.py:74-82 | the row loop keeps the uris of the hits and emits one "not found" line per miss, both in row order |
| `TrackResolver.RowOutcome` | import_spotify.py:78-82 | a row whose lookup gives a non-empty uri contributes that uri and no line; a row whose lookup gives nothing or the empty string contributes exactly one "Track not found" line with its artist and track |
| `TrackResolver.ResolvedAppend` | import_spotify.py:75-82 | resolution goes row by row: the result for `a + b` is the result for `a` followed by the result for `b`, for both the kept uris and the miss lines |
| `TrackResolver.ResolvedAccounting` | import_spotify.py:79-82 | the kept uris and the miss lines together number exactly the rows; every kept uri is non-empty; every miss line is a "Track not found" line |
| `BatchImporter.Batches` | import_spotify.py:86-88 | there are ceil(M/100) batches for M uris, and each holds between 1 and 100 uris |
| `BatchImporter.BatchesFlatten` | import_spotify.py:86-88 | the batches joined in order give back the resolved list |
| `BatchImporter.BatchAt` | import_spotify.py:87-88 | there are ceil(M/100) batches; batch k exists exactly when 100·k < M, and it is the clipped slice starting at 100·k |
| `BatchImporter.BatchesShape` | import_spotify.py:86-88 | every batch is non-empty and has at most 100 uris; every batch except the last has exactly 100 |
| `BatchImporter.TwoHundredFiftyUris` | import_spotify.py:86-88 | 250 uris give three batches of sizes 100, 100 and 50 |
| `BatchImporter.SubmittedAddCalls` | import_spotify.py:87-93 | every batch is submitted, in order, whichever requests fail |
| `BatchImporter.ContentsAfterAdds` | import_spotify.py:89-91 | after the add requests, the playlist holds its earlier contents followed by the batches whose request succeeded |
| `BatchImporter.DeliveredAll` | import_spotify.py:89-91 | when no request fails, the batches delivered are all the batches, joined in order |
| `BatchImporter.ImportBatches` | import_spotify.py:85-93 | makes one add request per batch, in order; prints the batch size after each success and the batch number `i // 100 + 1` after each failure, then continues; the add counter goes up by the number of batches |
| `Workflow.AddSongsToPlaylist` | import_spotify.py:71-94 | submits exactly the batches of the resolved list and prints the miss lines; it prints the batch lines and the closing line only when the resolved list is non-empty |
| `Workflow.Run` | import_spotify.py:37-97 | the requests of a whole run are the resolver's one request followed by the add requests for the resolved batches, all sent to the returned playlist id; the printed lines are the resolver's, then the misses, then the batch lines |
| `Workflow.ExistingPlaylistClearedFirst` | import_spotify.py:48-53 | when a playlist has the name, the first such playlist's items are replaced with the empty list exactly once, before any add; there is no create request; every later request adds to that playlist |
| `Workflow.MissingPlaylistCreatedOnce` | import_spotify.py:54-57 | when no playlist has the name, the first request creates a public playlist with that name for the user, and it is the only create; every later request adds to the new playlist's id |
| `Workflow.RunSubmitsEveryBatch` | import_spotify.py:84-93 | for M resolved uris a run makes ceil(M/100) add requests whatever fails, and their batches joined in order equal the resolved uris |
| `Workflow.RunFillsPlaylist` | import_spotify.py:48-93 | after a run, the target playlist holds exactly the successful batches in order, whatever it held before; when none of the run's own add requests fails, it holds exactly the resolved uris in row order |
| `Workflow.NothingResolvedNothingAdded` | import_spotify.py:85-94 | when no row resolves, no add request is made and the closing line is not printed |
| `Workflow.BatchOutcomeReported` | import_spotify.py:89-93 | the request for batch k is sent whatever happened to earlier batches; its line gives the batch size on success and the number k + 1 on failure |

## Left out

- Authorization (lines 14-30): the printed URL, the `input()` read of the code and the token exchange. This is interactive I/O inside a library that is not part of this model.
- Environment variables (lines 7-8): they are read and passed on, never checked.
- Opening the CSV file and parsing it with `csv.DictReader` (lines 72-73): the rows are given as a sequence of (artist, track) pairs.
- The hard-coded playlist name and CSV path (lines 34 and 60): they are parameters.
- The network behaviour of the client library (HTTP, rate limits, exception types): the pages, the search answers, the created id and the failing add requests are given as data.
- Unhandled exceptions: a failing `current_user`, playlist listing, `next`, replace, create or search call aborts the script. The model's service always answers these calls, so those abort paths are not modelled. Only add requests can fail, as in the source's only `try`.
- A search item without a `uri` key (a `KeyError`): every item in the model has a uri.
- The error text `str(e)` in the failed-batch line: only the batch number is kept.
- `ScanPlaylists`: the `next` requests are returned as a count, not recorded in the trace. The search requests are not traced either, because a lookup changes nothing.
- `CollectUris`: it returns the "Track not found" lines and the caller prints them together after the loop. The source prints each one inside the loop. Nothing else is printed in between, so the console is the same.
- `RunFillsPlaylist`, `ContentsAfterAdds`: what the playlist holds is computed by replaying the trace, which assumes four things of the service. A raising add request leaves the playlist unchanged. A successful add appends its batch at the end. A new playlist starts empty. Nothing else changes the playlist during the run. The script itself promises none of this: a `playlist_add_items` call that raises (line 90) may still have been applied on the server, for example after a time-out or a retried request.
- The add counter is the client's own field; no invariant ties it to the number of add requests in the ghost trace.
- The argument-parsing and environment-check behaviour that the test files exercise (`parse_arguments()`, `main()`): these functions do not exist in `import_spotify.py`, so there is no behaviour to model.
