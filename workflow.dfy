/** The script after authentication: resolve the playlist (lines 37-57), then
    `add_songs_to_playlist` (lines 71-94) as called on line 97. */
module Workflow {
  import opened Spotify
  import opened PlaylistResolver
  import opened TrackResolver
  import opened BatchImporter

  /** What the batch loop prints: one line per batch and a closing line, or
      nothing at all when no uri was resolved. */
  function ImportLog(uris: seq<Uri>, start: nat, fails: nat -> bool): seq<Message>
  {
    if uris == [] then [] else BatchLog(Batches(uris), start, fails) + [FinishedAdding]
  }

  /** Lines 71-94: resolve the rows, then submit the hits in batches. */
  method AddSongsToPlaylist(c: Client, rows: seq<Row>, id: PlaylistId)
    modifies c
    ensures c.trace == old(c.trace)
      + AddCalls(id, Batches(Resolved(rows, c.service.catalog)), old(c.adds), c.service.addFails)
    ensures c.console == old(c.console) + MissLog(rows, c.service.catalog)
      + ImportLog(Resolved(rows, c.service.catalog), old(c.adds), c.service.addFails)
    ensures c.adds == old(c.adds) + |Batches(Resolved(rows, c.service.catalog))|
  {
    var uris, notFound := CollectUris(rows, c.service.catalog);
    c.Print(notFound);
    if uris != [] {
      ImportBatches(c, id, uris);
      c.Print([FinishedAdding]);
    } else {
      assert AddCalls(id, Batches(uris), old(c.adds), c.service.addFails) == [];
    }
  }

  /** Every playlist-changing request of a run, in order. */
  function RunTrace(s: Service, name: string, rows: seq<Row>, start: nat): seq<Call>
  {
    [ResolveCall(s, name)] + AddCalls(TargetId(s, name), Batches(Resolved(rows, s.catalog)), start, s.addFails)
  }

  /** Every line a run prints, in order. */
  function RunLog(s: Service, name: string, rows: seq<Row>, start: nat): seq<Message>
  {
    ResolveLog(s, name) + MissLog(rows, s.catalog) + ImportLog(Resolved(rows, s.catalog), start, s.addFails)
  }

  /** Lines 37-57 and 97: find or create the playlist, then fill it. */
  method Run(c: Client, name: string, rows: seq<Row>) returns (id: PlaylistId)
    modifies c
    ensures id == TargetId(c.service, name)
    ensures c.trace == old(c.trace) + RunTrace(c.service, name, rows, old(c.adds))
    ensures c.console == old(c.console) + RunLog(c.service, name, rows, old(c.adds))
    ensures c.adds == old(c.adds) + |Batches(Resolved(rows, c.service.catalog))|
  {
    ghost var s, adds0 := c.service, c.adds;
    ghost var trace0, console0 := c.trace, c.console;
    id := ResolvePlaylist(c, name);
    ghost var trace1, console1 := c.trace, c.console;
    AddSongsToPlaylist(c, rows, id);
    RunTraceSplit(s, name, rows, adds0, trace0, trace1, c.trace);
    RunLogSplit(s, name, rows, adds0, console0, console1, c.console);
  }

  /** The two halves of a run's requests, put together. */
  lemma RunTraceSplit(s: Service, name: string, rows: seq<Row>, start: nat, t0: seq<Call>, t1: seq<Call>, t2: seq<Call>)
    requires t1 == t0 + [ResolveCall(s, name)]
    requires t2 == t1 + AddCalls(TargetId(s, name), Batches(Resolved(rows, s.catalog)), start, s.addFails)
    ensures t2 == t0 + RunTrace(s, name, rows, start)
  {
  }

  /** The two halves of a run's printed lines, put together. */
  lemma RunLogSplit(s: Service, name: string, rows: seq<Row>, start: nat, l0: seq<Message>, l1: seq<Message>, l2: seq<Message>)
    requires l1 == l0 + ResolveLog(s, name)
    requires l2 == l1 + MissLog(rows, s.catalog) + ImportLog(Resolved(rows, s.catalog), start, s.addFails)
    ensures l2 == l0 + RunLog(s, name, rows, start)
  {
  }

  /** With a playlist of that name, the first one is cleared exactly once, nothing
      is created, and every later request adds to that same playlist. */
  lemma ExistingPlaylistClearedFirst(s: Service, name: string, rows: seq<Row>, start: nat)
    requires !NoMatch(s.pages, name)
    ensures var t := RunTrace(s, name, rows, start);
      exists h :: IsFirstMatch(s.pages, name, h)
        && t[0] == Replace(s.pages[h.page][h.index].id, [])
        && forall j :: 0 < j < |t| ==> t[j].Add? && t[j].playlist == s.pages[h.page][h.index].id
  {
    var h := FirstMatch(s.pages, name).value;
    FirstMatchExact(s.pages, name, h);
    var t := RunTrace(s, name, rows, start);
    forall j | 0 < j < |t|
      ensures t[j].Add? && t[j].playlist == s.pages[h.page][h.index].id
    {
      assert t[j] == AddCalls(TargetId(s, name), Batches(Resolved(rows, s.catalog)), start, s.addFails)[j - 1];
    }
  }

  /** With no playlist of that name on any page, one public playlist of that name
      is created, and every later request adds to it. */
  lemma MissingPlaylistCreatedOnce(s: Service, name: string, rows: seq<Row>, start: nat)
    requires NoMatch(s.pages, name)
    ensures var t := RunTrace(s, name, rows, start);
      && t[0] == Create(s.user, name, true, s.createdId)
      && forall j :: 0 < j < |t| ==> t[j].Add? && t[j].playlist == s.createdId
  {
  }

  /** For M resolved uris a run makes ceil(M / 100) add requests whatever fails;
      their batches, joined in order, are the resolved uris. */
  lemma {:induction false} RunSubmitsEveryBatch(s: Service, name: string, rows: seq<Row>, start: nat)
    ensures var uris := Resolved(rows, s.catalog);
      && Submitted(RunTrace(s, name, rows, start)) == Batches(uris)
      && |Submitted(RunTrace(s, name, rows, start))| == (|uris| + BatchSize - 1) / BatchSize
      && Flatten(Submitted(RunTrace(s, name, rows, start))) == uris
  {
    var uris := Resolved(rows, s.catalog);
    var t := RunTrace(s, name, rows, start);
    var adds := AddCalls(TargetId(s, name), Batches(uris), start, s.addFails);
    assert t[0] == ResolveCall(s, name) && t[1..] == adds;
    assert !t[0].Add? by {
      match FirstMatch(s.pages, name)
      case Some(h) =>
      case None =>
    }
    SubmittedAddCalls(TargetId(s, name), Batches(uris), start, s.addFails);
    BatchAt(uris, 0);
    BatchesFlatten(uris);
  }

  /** After a run the target playlist holds exactly the batches whose request
      succeeded, in order, whatever it held before; when no request fails, it
      holds exactly the resolved uris in row order. */
  lemma {:induction false} RunFillsPlaylist(s: Service, name: string, rows: seq<Row>, start: nat, initial: seq<Uri>)
    ensures var uris := Resolved(rows, s.catalog);
      ContentsAfter(initial, TargetId(s, name), RunTrace(s, name, rows, start))
        == Delivered(Batches(uris), start, s.addFails)
    ensures (forall n :: start <= n < start + |Batches(Resolved(rows, s.catalog))| ==> !s.addFails(n)) ==>
      ContentsAfter(initial, TargetId(s, name), RunTrace(s, name, rows, start)) == Resolved(rows, s.catalog)
  {
    var uris := Resolved(rows, s.catalog);
    var id := TargetId(s, name);
    var adds := AddCalls(id, Batches(uris), start, s.addFails);
    var first := ResolveCall(s, name);
    assert Step(initial, id, first) == [] by {
      match FirstMatch(s.pages, name)
      case Some(h) =>
      case None =>
    }
    ContentsAfterAppend(initial, id, [first], adds);
    assert ContentsAfter(initial, id, [first]) == [] by {
      assert [first][1..] == [];
    }
    ContentsAfterAdds([], id, Batches(uris), start, s.addFails);
    if forall n :: start <= n < start + |Batches(uris)| ==> !s.addFails(n) {
      DeliveredAll(Batches(uris), start, s.addFails);
      BatchesFlatten(uris);
    }
  }

  /** When no row resolves, no add request is made and no closing line is printed. */
  lemma NothingResolvedNothingAdded(s: Service, name: string, rows: seq<Row>, start: nat)
    requires Resolved(rows, s.catalog) == []
    ensures RunTrace(s, name, rows, start) == [ResolveCall(s, name)]
    ensures FinishedAdding !in RunLog(s, name, rows, start)
  {
  }

  /** The request for batch k goes out whether or not earlier ones failed, and
      the line printed for it names its 1-based number when it fails. */
  lemma BatchOutcomeReported(s: Service, name: string, rows: seq<Row>, start: nat, k: nat)
    requires k < |Batches(Resolved(rows, s.catalog))|
    ensures var bs := Batches(Resolved(rows, s.catalog));
      var t := RunTrace(s, name, rows, start);
      var log := RunLog(s, name, rows, start);
      var at := |ResolveLog(s, name)| + |MissLog(rows, s.catalog)| + k;
      && t[1 + k] == Add(TargetId(s, name), bs[k], !s.addFails(start + k))
      && at < |log|
      && log[at] == (if s.addFails(start + k) then BatchError(k + 1) else AddedBatch(|bs[k]|))
  {
    var bs := Batches(Resolved(rows, s.catalog));
    AddCallAt(ResolveCall(s, name), TargetId(s, name), bs, start, s.addFails, k);
    BatchLineAt(ResolveLog(s, name) + MissLog(rows, s.catalog), bs, start, s.addFails, k);
  }

  /** Request k of a batch loop sits right after the calls that precede it. */
  lemma AddCallAt(first: Call, id: PlaylistId, bs: seq<seq<Uri>>, start: nat, fails: nat -> bool, k: nat)
    requires k < |bs|
    ensures ([first] + AddCalls(id, bs, start, fails))[1 + k] == Add(id, bs[k], !fails(start + k))
  {
  }

  /** Line k of a batch loop sits right after the lines printed before it. */
  lemma BatchLineAt(head: seq<Message>, bs: seq<seq<Uri>>, start: nat, fails: nat -> bool, k: nat)
    requires k < |bs|
    ensures |head| + k < |head + BatchLog(bs, start, fails) + [FinishedAdding]|
    ensures (head + BatchLog(bs, start, fails) + [FinishedAdding])[|head| + k]
      == if fails(start + k) then BatchError(k + 1) else AddedBatch(|bs[k]|)
  {
  }
}
