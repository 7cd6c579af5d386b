/** The streaming-service client as the import script sees it.

    The service's answers are given as data (`Service`): the pages of the current
    user's playlists, the catalog's answer to each search request, the id a newly
    created playlist gets, and which add requests fail. Every request that changes
    a playlist is recorded, in order, in the client's ghost `trace`; every line the
    script prints is appended to its `console`. */
module Spotify {
  import opened Wrappers

  type UserId = string
  type PlaylistId = string
  type Uri = string

  /** An item of a playlist page, reduced to the two fields the script reads. */
  datatype PlaylistEntry = PlaylistEntry(name: string, id: PlaylistId)

  /** The current user's playlists as the service pages them. Page k carries a
      `next` link exactly when k + 1 < |pages|; an empty sequence stands for a
      falsy first answer. */
  type Pages = seq<seq<PlaylistEntry>>

  /** The arguments of one `search` call. */
  datatype SearchRequest = SearchRequest(q: string, kind: string, limit: nat)

  /** A search answer: `tracks` and its `items` may each be missing. */
  datatype TrackItem = TrackItem(uri: Uri)
  datatype TrackPage = TrackPage(items: Option<seq<TrackItem>>)
  datatype SearchResult = SearchResult(tracks: Option<TrackPage>)

  /** Everything the service answers during one run. */
  datatype Service = Service(
    user: UserId,
    pages: Pages,
    catalog: SearchRequest -> SearchResult,
    createdId: PlaylistId,
    addFails: nat -> bool)   // does the n-th add request (0-based) raise?

  /** The requests that change playlists. */
  datatype Call =
    | Replace(playlist: PlaylistId, uris: seq<Uri>)
    | Create(user: UserId, name: string, public: bool, created: PlaylistId)
    | Add(playlist: PlaylistId, batch: seq<Uri>, ok: bool)

  /** The lines the script prints (the error text of a failed batch is not kept). */
  datatype Message =
    | FoundExisting(name: string)
    | ClearedTracks
    | CreatingPlaylist(name: string)
    | TrackNotFound(artist: string, track: string)
    | AddedBatch(size: nat)
    | BatchError(index: nat)
    | FinishedAdding

  /** The batches of the add requests in a trace, in order. */
  function Submitted(calls: seq<Call>): seq<seq<Uri>>
  {
    if calls == [] then []
    else (if calls[0].Add? then [calls[0].batch] else []) + Submitted(calls[1..])
  }

  /** The effect of one request on the contents of playlist `id`. */
  function Step(contents: seq<Uri>, id: PlaylistId, call: Call): seq<Uri>
  {
    match call
    case Replace(p, uris) => if p == id then uris else contents
    case Create(_, _, _, p) => if p == id then [] else contents
    case Add(p, batch, ok) => if p == id && ok then contents + batch else contents
  }

  /** The contents of playlist `id` after `calls`, starting from `initial`. */
  function ContentsAfter(initial: seq<Uri>, id: PlaylistId, calls: seq<Call>): seq<Uri>
    decreases |calls|
  {
    if calls == [] then initial else ContentsAfter(Step(initial, id, calls[0]), id, calls[1..])
  }

  lemma {:induction false} ContentsAfterAppend(initial: seq<Uri>, id: PlaylistId, a: seq<Call>, b: seq<Call>)
    ensures ContentsAfter(initial, id, a + b) == ContentsAfter(ContentsAfter(initial, id, a), id, b)
    decreases |a|
  {
    if a != [] {
      assert (a + b)[0] == a[0];
      assert (a + b)[1..] == a[1..] + b;
      ContentsAfterAppend(Step(initial, id, a[0]), id, a[1..], b);
    } else {
      assert a + b == b;
    }
  }

  /** A session with the service: the answers it will give, the requests made so
      far and what has been printed. */
  class Client {
    const service: Service
    ghost var trace: seq<Call>
    var adds: nat            // add requests made so far; decides the next one's outcome
    var console: seq<Message>

    constructor (service: Service)
      ensures this.service == service
      ensures trace == [] && console == [] && adds == 0
    {
      this.service := service;
      trace := [];
      adds := 0;
      console := [];
    }

    /** `playlist_replace_items(id, uris)`. */
    method ReplaceItems(id: PlaylistId, uris: seq<Uri>)
      modifies this
      ensures trace == old(trace) + [Replace(id, uris)]
      ensures adds == old(adds) && console == old(console)
    {
      trace := trace + [Replace(id, uris)];
    }

    /** `user_playlist_create(user, name, public)`; answers the new playlist's id. */
    method CreatePlaylist(user: UserId, name: string, public: bool) returns (id: PlaylistId)
      modifies this
      ensures id == service.createdId
      ensures trace == old(trace) + [Create(user, name, public, id)]
      ensures adds == old(adds) && console == old(console)
    {
      id := service.createdId;
      trace := trace + [Create(user, name, public, id)];
    }

    /** `playlist_add_items(id, batch)`; `ok` is false when the request raises. */
    method AddItems(id: PlaylistId, batch: seq<Uri>) returns (ok: bool)
      modifies this
      ensures ok == !service.addFails(old(adds))
      ensures trace == old(trace) + [Add(id, batch, ok)]
      ensures adds == old(adds) + 1 && console == old(console)
    {
      ok := !service.addFails(adds);
      trace := trace + [Add(id, batch, ok)];
      adds := adds + 1;
    }

    /** Prints the given lines, in order. */
    method Print(lines: seq<Message>)
      modifies this
      ensures console == old(console) + lines
      ensures trace == old(trace) && adds == old(adds)
    {
      console := console + lines;
    }
  }
}
