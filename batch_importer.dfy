/** Submitting the resolved uris in slices of 100 (import_spotify.py, lines 84-94). */
module BatchImporter {
  import opened Spotify

  /** The most uris one add request takes. */
  const BatchSize := 100

  function Min(a: int, b: int): int
  {
    if a < b then a else b
  }

  /** `uris` cut into consecutive slices of `BatchSize`, the last one possibly shorter. */
  function Batches(uris: seq<Uri>): (bs: seq<seq<Uri>>)
    ensures |bs| == (|uris| + BatchSize - 1) / BatchSize
    ensures forall k :: 0 <= k < |bs| ==> 0 < |bs[k]| <= BatchSize
    decreases |uris|
  {
    if uris == [] then []
    else if |uris| <= BatchSize then [uris]
    else [uris[..BatchSize]] + Batches(uris[BatchSize..])
  }

  /** The batches joined back together, in order. */
  function Flatten(bs: seq<seq<Uri>>): seq<Uri>
  {
    if bs == [] then [] else bs[0] + Flatten(bs[1..])
  }

  /** Joining the batches gives back the uris, in order. */
  lemma {:induction false} BatchesFlatten(uris: seq<Uri>)
    ensures Flatten(Batches(uris)) == uris
    decreases |uris|
  {
    if |uris| > BatchSize {
      var bs := Batches(uris);
      assert bs[0] == uris[..BatchSize] && bs[1..] == Batches(uris[BatchSize..]);
      BatchesFlatten(uris[BatchSize..]);
      assert uris[..BatchSize] + uris[BatchSize..] == uris;
    } else if uris != [] {
      assert Batches(uris)[1..] == [];
    }
  }

  /** There are ceil(|uris| / 100) batches, and batch k is the slice
      `uris[100 * k : 100 * k + 100]` as Python clips it. The offsets are written
      `100 * k` rather than `BatchSize * k`: a named constant times a variable is
      nonlinear arithmetic to the solver, a literal factor is not. */
  lemma {:induction false} BatchAt(uris: seq<Uri>, k: nat)
    ensures |Batches(uris)| == (|uris| + BatchSize - 1) / BatchSize
    ensures k < |Batches(uris)| <==> 100 * k < |uris|
    ensures k < |Batches(uris)| ==>
      Batches(uris)[k] == uris[100 * k .. Min(100 * k + BatchSize, |uris|)]
    decreases |uris|
  {
    if |uris| > BatchSize {
      var rest := uris[BatchSize..];
      if k == 0 {
        BatchAt(rest, 0);
      } else {
        BatchAt(rest, k - 1);
        if k < |Batches(uris)| {
          var lo := 100 * (k - 1);
          var hi := Min(lo + BatchSize, |rest|);
          assert rest[lo..hi] == uris[BatchSize + lo .. BatchSize + hi];
        }
      }
    }
  }

  /** Every batch is non-empty and at most 100 long; all but the last are exactly 100. */
  lemma BatchesShape(uris: seq<Uri>)
    ensures forall k :: 0 <= k < |Batches(uris)| ==>
      0 < |Batches(uris)[k]| <= BatchSize
      && (k < |Batches(uris)| - 1 ==> |Batches(uris)[k]| == BatchSize)
  {
  }

  /** 250 uris go out as three requests of 100, 100 and 50. */
  lemma TwoHundredFiftyUris(uris: seq<Uri>)
    requires |uris| == 250
    ensures |Batches(uris)| == 3
    ensures |Batches(uris)[0]| == 100 && |Batches(uris)[1]| == 100 && |Batches(uris)[2]| == 50
  {
    BatchAt(uris, 0);
    BatchAt(uris, 1);
    BatchAt(uris, 2);
  }

  /** The add requests for `bs`, the first of them being add request number `start`. */
  function AddCalls(id: PlaylistId, bs: seq<seq<Uri>>, start: nat, fails: nat -> bool): seq<Call>
  {
    seq(|bs|, k requires 0 <= k < |bs| => Add(id, bs[k], !fails(start + k)))
  }

  /** What is printed for each batch: its size, or its 1-based number when it failed. */
  function BatchLog(bs: seq<seq<Uri>>, start: nat, fails: nat -> bool): seq<Message>
  {
    seq(|bs|, k requires 0 <= k < |bs| => if fails(start + k) then BatchError(k + 1) else AddedBatch(|bs[k]|))
  }

  /** The uris of the batches whose request succeeded, in order. */
  function Delivered(bs: seq<seq<Uri>>, start: nat, fails: nat -> bool): seq<Uri>
    decreases |bs|
  {
    if bs == [] then []
    else (if fails(start) then [] else bs[0]) + Delivered(bs[1..], start + 1, fails)
  }

  /** After the add requests, the playlist holds what it held before followed by
      the successful batches. */
  lemma {:induction false} ContentsAfterAdds(initial: seq<Uri>, id: PlaylistId, bs: seq<seq<Uri>>, start: nat, fails: nat -> bool)
    ensures ContentsAfter(initial, id, AddCalls(id, bs, start, fails)) == initial + Delivered(bs, start, fails)
    decreases |bs|
  {
    var calls := AddCalls(id, bs, start, fails);
    if bs != [] {
      assert calls[0] == Add(id, bs[0], !fails(start));
      assert calls[1..] == AddCalls(id, bs[1..], start + 1, fails);
      ContentsAfterAdds(Step(initial, id, calls[0]), id, bs[1..], start + 1, fails);
    }
  }

  /** When no request fails, everything is delivered. */
  lemma {:induction false} DeliveredAll(bs: seq<seq<Uri>>, start: nat, fails: nat -> bool)
    requires forall k :: start <= k < start + |bs| ==> !fails(k)
    ensures Delivered(bs, start, fails) == Flatten(bs)
    decreases |bs|
  {
    if bs != [] {
      DeliveredAll(bs[1..], start + 1, fails);
    }
  }

  /** Every batch is submitted, in order, whichever requests fail. */
  lemma {:induction false} SubmittedAddCalls(id: PlaylistId, bs: seq<seq<Uri>>, start: nat, fails: nat -> bool)
    ensures Submitted(AddCalls(id, bs, start, fails)) == bs
    decreases |bs|
  {
    var calls := AddCalls(id, bs, start, fails);
    if bs != [] {
      assert calls[0].batch == bs[0];
      assert calls[1..] == AddCalls(id, bs[1..], start + 1, fails);
      SubmittedAddCalls(id, bs[1..], start + 1, fails);
    }
  }

  /** One more batch adds one more request at the end. */
  lemma AddCallsSnoc(id: PlaylistId, bs: seq<seq<Uri>>, k: nat, start: nat, fails: nat -> bool)
    requires k < |bs|
    ensures AddCalls(id, bs[..k + 1], start, fails)
         == AddCalls(id, bs[..k], start, fails) + [Add(id, bs[k], !fails(start + k))]
  {
  }

  /** One more batch prints one more line at the end. */
  lemma BatchLogSnoc(bs: seq<seq<Uri>>, k: nat, start: nat, fails: nat -> bool)
    requires k < |bs|
    ensures BatchLog(bs[..k + 1], start, fails)
         == BatchLog(bs[..k], start, fails) + [if fails(start + k) then BatchError(k + 1) else AddedBatch(|bs[k]|)]
  {
  }

  /** Lines 85-93 without the final message: one add request per batch, in order;
      a failed request is reported with its batch number and the loop goes on. */
  method ImportBatches(c: Client, id: PlaylistId, uris: seq<Uri>)
    modifies c
    ensures c.trace == old(c.trace) + AddCalls(id, Batches(uris), old(c.adds), c.service.addFails)
    ensures c.console == old(c.console) + BatchLog(Batches(uris), old(c.adds), c.service.addFails)
    ensures c.adds == old(c.adds) + |Batches(uris)|
  {
    ghost var bs := Batches(uris);
    ghost var fails := c.service.addFails;
    ghost var k := 0;   // batches submitted so far
    BatchAt(uris, 0);
    var i := 0;
    while i < |uris|
      invariant i == 100 * k && k <= |bs|   // literal factor: see BatchAt
      invariant k < |bs| <==> i < |uris|
      invariant c.adds == old(c.adds) + k
      invariant c.trace == old(c.trace) + AddCalls(id, bs[..k], old(c.adds), fails)
      invariant c.console == old(c.console) + BatchLog(bs[..k], old(c.adds), fails)
    {
      var batch := uris[i..Min(i + BatchSize, |uris|)];
      BatchAt(uris, k);
      assert batch == bs[k] && i / BatchSize == k;
      var ok := c.AddItems(id, batch);
      if ok {
        c.Print([AddedBatch(|batch|)]);
      } else {
        c.Print([BatchError(i / BatchSize + 1)]);
      }
      AddCallsSnoc(id, bs, k, old(c.adds), fails);
      BatchLogSnoc(bs, k, old(c.adds), fails);
      i := i + BatchSize;
      k := k + 1;
      BatchAt(uris, k);
    }
    assert bs[..k] == bs;
  }
}
