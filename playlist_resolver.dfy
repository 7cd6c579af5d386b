/** Finding the target playlist among the user's pages, then clearing it or
    creating it (import_spotify.py, lines 37-57). */
module PlaylistResolver {
  import opened Wrappers
  import opened Spotify

  /** Position of a playlist: page number, then index within the page. */
  datatype Hit = Hit(page: nat, index: nat)

  /** No playlist on any page is called `name`. */
  ghost predicate NoMatch(pages: Pages, name: string)
  {
    forall p, i :: 0 <= p < |pages| && 0 <= i < |pages[p]| ==> pages[p][i].name != name
  }

  /** `h` is the first playlist called `name`, in page order then item order. */
  ghost predicate IsFirstMatch(pages: Pages, name: string, h: Hit)
  {
    && h.page < |pages| && h.index < |pages[h.page]|
    && pages[h.page][h.index].name == name
    && (forall p, i :: 0 <= p < h.page && 0 <= i < |pages[p]| ==> pages[p][i].name != name)
    && (forall i :: 0 <= i < h.index ==> pages[h.page][i].name != name)
  }

  /** Index of the first item of one page called `name`. */
  function FirstInPage(items: seq<PlaylistEntry>, name: string): (r: Option<nat>)
    ensures r.Some? ==> r.value < |items| && items[r.value].name == name
    ensures r.Some? ==> forall i :: 0 <= i < r.value ==> items[i].name != name
    ensures r.None? ==> forall i :: 0 <= i < |items| ==> items[i].name != name
  {
    if items == [] then None
    else if items[0].name == name then Some(0)
    else match FirstInPage(items[1..], name)
      case Some(i) => Some(i + 1)
      case None => None
  }

  /** The first playlist called `name` over all pages, if any. */
  function FirstMatch(pages: Pages, name: string): (r: Option<Hit>)
    ensures r.Some? ==> IsFirstMatch(pages, name, r.value)
    ensures r.None? ==> NoMatch(pages, name)
  {
    if pages == [] then None
    else match FirstInPage(pages[0], name)
      case Some(i) => Some(Hit(0, i))
      case None =>
        match FirstMatch(pages[1..], name)
        case Some(h) => Some(Hit(h.page + 1, h.index))
        case None => None
  }

  /** `FirstMatch` finds a playlist exactly when some playlist has that name, and
      then the one that comes first. */
  lemma FirstMatchExact(pages: Pages, name: string, h: Hit)
    ensures FirstMatch(pages, name) == Some(h) <==> IsFirstMatch(pages, name, h)
    ensures FirstMatch(pages, name).None? <==> NoMatch(pages, name)
  {
  }

  /** The page number of the last page (0 when there is none). */
  function LastPage(pages: Pages): nat
  {
    if |pages| == 0 then 0 else |pages| - 1
  }

  /** The scan of lines 37-46: reads page after page, following `next`, until a
      page holds a playlist called `name` or has no `next`. Answers the playlist
      found and how many `next` requests were made. */
  method ScanPlaylists(pages: Pages, name: string) returns (existing: Option<PlaylistEntry>, nextCalls: nat)
    ensures existing.Some? <==> !NoMatch(pages, name)
    ensures existing.Some? ==> exists h :: IsFirstMatch(pages, name, h)
                                          && existing.value == pages[h.page][h.index]
                                          && nextCalls == h.page
    ensures existing.None? ==> nextCalls == LastPage(pages)
  {
    existing := None;
    var k := 0;   // the page in hand; also the number of `next` requests so far
    while k < |pages|
      invariant k <= LastPage(pages)
      invariant existing == None
      invariant forall p, i :: 0 <= p < k && 0 <= i < |pages[p]| ==> pages[p][i].name != name
    {
      var j := 0;
      while j < |pages[k]|
        invariant j <= |pages[k]|
        invariant existing == None
        invariant forall i :: 0 <= i < j ==> pages[k][i].name != name
      {
        if pages[k][j].name == name {
          existing := Some(pages[k][j]);
          assert IsFirstMatch(pages, name, Hit(k, j));
          break;
        }
        j := j + 1;
      }
      if existing.Some? || k + 1 >= |pages| {
        break;
      }
      k := k + 1;
    }
    nextCalls := k;
  }

  /** The id every later request uses: the found playlist's, or the new one's. */
  function TargetId(s: Service, name: string): (id: PlaylistId)
    ensures NoMatch(s.pages, name) ==> id == s.createdId
    ensures !NoMatch(s.pages, name) ==>
      exists h :: IsFirstMatch(s.pages, name, h) && id == s.pages[h.page][h.index].id
  {
    match FirstMatch(s.pages, name)
    case Some(h) => s.pages[h.page][h.index].id
    case None => s.createdId
  }

  /** The one playlist-changing request the resolver makes. */
  function ResolveCall(s: Service, name: string): (call: Call)
    ensures call.Replace? <==> !NoMatch(s.pages, name)
    ensures call.Replace? ==> call == Replace(TargetId(s, name), [])
    ensures call.Create? ==> call == Create(s.user, name, true, s.createdId) && call.created == TargetId(s, name)
  {
    match FirstMatch(s.pages, name)
    case Some(h) => Replace(s.pages[h.page][h.index].id, [])
    case None => Create(s.user, name, true, s.createdId)
  }

  /** What the resolver prints. */
  function ResolveLog(s: Service, name: string): (lines: seq<Message>)
    ensures !NoMatch(s.pages, name) ==> lines == [FoundExisting(name), ClearedTracks]
    ensures NoMatch(s.pages, name) ==> lines == [CreatingPlaylist(name)]
  {
    if FirstMatch(s.pages, name).Some? then [FoundExisting(name), ClearedTracks]
    else [CreatingPlaylist(name)]
  }

  /** Lines 37-57: clear the existing playlist, or create a public one. */
  method ResolvePlaylist(c: Client, name: string) returns (id: PlaylistId)
    modifies c
    ensures id == TargetId(c.service, name)
    ensures c.trace == old(c.trace) + [ResolveCall(c.service, name)]
    ensures c.console == old(c.console) + ResolveLog(c.service, name)
    ensures c.adds == old(c.adds)
  {
    var existing, _ := ScanPlaylists(c.service.pages, name);
    if existing.Some? {
      ghost var h :| IsFirstMatch(c.service.pages, name, h) && existing.value == c.service.pages[h.page][h.index];
      FirstMatchExact(c.service.pages, name, h);
      c.Print([FoundExisting(name)]);
      id := existing.value.id;
      c.ReplaceItems(id, []);
      c.Print([ClearedTracks]);
    } else {
      c.Print([CreatingPlaylist(name)]);
      id := c.CreatePlaylist(c.service.user, name, true);
    }
  }
}
