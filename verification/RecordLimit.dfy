// Exactly when a shard can be harvested whatever the chunking of its response.
module RecordLimit {
  import opened Base
  import opened Wire
  import opened Lines
  import opened Packing
  import opened BulkShard

  // Every line of the shard has at most `boundaryMax` bytes before its newline.
  ghost predicate WithinLimit(obj: seq<Octet>, s: nat, e: nat, boundaryMax: nat) {
    forall p :: s <= p < e && IsLineStart(obj, p) ==> Newline(obj, p) - p <= boundaryMax
  }

  // No point of the stream, and not its end, is a reason to give up.
  ghost predicate NeverGivesUp(obj: seq<Octet>, s: nat, e: nat, boundaryMax: nat, last: nat) {
    && !CutShort(obj, s, e, last)
    && forall seen :: RequestStart(s) < seen <= last + 1 ==> !Exposed(obj, s, e, boundaryMax, seen)
  }

  // When the server returns the whole requested range, no chunking makes the
  // run fail over a record's length if and only if every line of the shard is
  // within the limit.
  lemma LimitIsExact(obj: seq<Octet>, s: nat, e: nat, boundaryMax: nat, last: nat)
    requires s < e <= |obj| && last == RequestEnd(e, boundaryMax, |obj|)
    ensures NeverGivesUp(obj, s, e, boundaryMax, last) <==> WithinLimit(obj, s, e, boundaryMax)
  {
    forall p | s <= p < e && IsLineStart(obj, p) && Newline(obj, p) - p > boundaryMax
      ensures !NeverGivesUp(obj, s, e, boundaryMax, last)
    {
      assert Exposes(obj, boundaryMax, p + boundaryMax + 1, p);
      assert Exposed(obj, s, e, boundaryMax, p + boundaryMax + 1);
    }
  }

  // A response delivered byte by byte shows every point of the stream, so for
  // every overlong line there is a chunking on which the run gives up.
  lemma {:induction false} BytewiseShowsAll(chunks: seq<Chunk>, requestStart: nat, seen: nat)
    requires forall i :: 0 <= i < |chunks| ==> |chunks[i].data| == 1
    requires requestStart < seen <= requestStart + |Received(chunks)|
    ensures exists j :: 0 <= j < |chunks| && SeenAfter(chunks, requestStart, j) == seen
  {
    var n := |chunks| - 1;
    assert chunks[..n + 1] == chunks;
    if seen == requestStart + |Received(chunks)| {
      assert SeenAfter(chunks, requestStart, n) == seen;
    } else {
      BytewiseShowsAll(chunks[..n], requestStart, seen);
      var j :| 0 <= j < n && SeenAfter(chunks[..n], requestStart, j) == seen;
      assert chunks[..n][..j + 1] == chunks[..j + 1];
      assert SeenAfter(chunks, requestStart, j) == seen;
    }
  }

  // Hence, for one-byte chunks, what a finished run shows decides the limit.
  lemma BytewiseDecides(obj: seq<Octet>, s: nat, e: nat, cfg: Config, r: Response)
    requires s < e <= |obj| && r.range.Some? && r.range.value.last == RequestEnd(e, cfg.boundaryMax, |obj|)
    requires forall i :: 0 <= i < |r.chunks| ==> |r.chunks[i].data| == 1
    requires RequestStart(s) + |Received(r.chunks)| == r.range.value.last + 1
    requires Explains(obj, s, e, cfg, r, None)
    ensures WithinLimit(obj, s, e, cfg.boundaryMax)
  {
    var last := r.range.value.last;
    forall seen | RequestStart(s) < seen <= last + 1 ensures !Exposed(obj, s, e, cfg.boundaryMax, seen) {
      BytewiseShowsAll(r.chunks, RequestStart(s), seen);
      var j :| 0 <= j < |r.chunks| && SeenAfter(r.chunks, RequestStart(s), j) == seen;
    }
    LimitIsExact(obj, s, e, cfg.boundaryMax, last);
  }

  // And within the limit no run, on any chunking, ends over a record's length.
  lemma WithinLimitNeverRaises(obj: seq<Octet>, s: nat, e: nat, cfg: Config, r: Response, error: HarvestError)
    requires s < e <= |obj| && r.range.Some? && r.range.value.last == RequestEnd(e, cfg.boundaryMax, |obj|)
    requires r.range.value.first == RequestStart(s) && Received(r.chunks) == obj[RequestStart(s)..r.range.value.last + 1]
    requires WithinLimit(obj, s, e, cfg.boundaryMax)
    requires Explains(obj, s, e, cfg, r, Some(error))
    ensures error == LeaseLost
  {
  }

  // For one given chunking: unless the lease is lost, the run ends normally
  // exactly when no chunk leaves more than the limit of an unfinished line.
  lemma {:induction false} ChunkingDecides(obj: seq<Octet>, s: nat, e: nat, cfg: Config, r: Response, error: Option<HarvestError>)
    requires s < e <= |obj| && r.range.Some? && r.range.value.last == RequestEnd(e, cfg.boundaryMax, |obj|)
    requires RequestStart(s) + |Received(r.chunks)| == r.range.value.last + 1
    requires Explains(obj, s, e, cfg, r, error) && error != Some(LeaseLost)
    ensures error.None? <==> QuietUntil(obj, s, e, cfg.boundaryMax, r.chunks, RequestStart(s), |r.chunks|)
  {
    var n, last := |r.chunks|, r.range.value.last;
    if error == Some(EndsInsideRecord) {
      var p :| s <= p < e && IsLineStart(obj, p) && Newline(obj, p) > last;
      assert Exposes(obj, cfg.boundaryMax, last + 1, p);
      assert r.chunks[..n - 1 + 1] == r.chunks;
      assert SeenAfter(r.chunks, RequestStart(s), n - 1) == last + 1;
    }
  }

  // The program asks for chunks of this size: all but the last are full.
  const READ_SIZE := 65536

  predicate Regrouped(chunks: seq<Chunk>) {
    forall i :: 0 <= i < |chunks| ==> |chunks[i].data| <= READ_SIZE && (i < |chunks| - 1 ==> |chunks[i].data| == READ_SIZE)
  }

  // How far the object has been seen after the k-th full read.
  function SeenAtRead(s: nat, last: nat, k: nat): nat {
    var full := RequestStart(s) + READ_SIZE * (k + 1);
    if full < last + 1 then full else last + 1
  }

  // At no read more than the limit of an unfinished line of the shard is there.
  ghost predicate FitsReads(obj: seq<Octet>, s: nat, e: nat, boundaryMax: nat, last: nat) {
    forall k: nat :: !Exposed(obj, s, e, boundaryMax, SeenAtRead(s, last, k))
  }

  lemma {:induction false} FullReads(chunks: seq<Chunk>, k: nat)
    requires Regrouped(chunks) && k <= |chunks|
    ensures k < |chunks| ==> |Received(chunks[..k])| == READ_SIZE * k
    ensures |Received(chunks[..k])| <= READ_SIZE * k
  {
    if k > 0 {
      FullReads(chunks, k - 1);
      assert chunks[..k][..k - 1] == chunks[..k - 1];
    }
  }

  lemma {:induction false} ReadsAreChunks(s: nat, last: nat, chunks: seq<Chunk>, k: nat)
    requires Regrouped(chunks) && k < |chunks| && RequestStart(s) + |Received(chunks)| == last + 1
    ensures SeenAfter(chunks, RequestStart(s), k) == SeenAtRead(s, last, k)
  {
    FullReads(chunks, k + 1);
    assert k + 1 == |chunks| ==> chunks[..k + 1] == chunks;
    if k + 1 < |chunks| {
      ReceivedPrefix(chunks, k + 1);
    }
  }

  lemma {:induction false} ReadsDecide(obj: seq<Octet>, s: nat, e: nat, boundaryMax: nat, last: nat, chunks: seq<Chunk>)
    requires Regrouped(chunks) && chunks != [] && RequestStart(s) + |Received(chunks)| == last + 1
    ensures QuietUntil(obj, s, e, boundaryMax, chunks, RequestStart(s), |chunks|) <==> FitsReads(obj, s, e, boundaryMax, last)
  {
    var n := |chunks|;
    forall k: nat | k < n ensures SeenAfter(chunks, RequestStart(s), k) == SeenAtRead(s, last, k) {
      ReadsAreChunks(s, last, chunks, k);
    }
    FullReads(chunks, n);
    assert chunks[..n] == chunks;
    forall k: nat | k >= n ensures SeenAtRead(s, last, k) == SeenAtRead(s, last, n - 1) {
    }
  }

  // What the program reads: with the whole range returned and the lease kept,
  // the run ends normally exactly when the shard fits its reads.
  lemma {:induction false} RegroupedRunExactly(obj: seq<Octet>, s: nat, e: nat, cfg: Config, r: Response, error: Option<HarvestError>)
    requires s < e <= |obj| && r.range.Some? && r.range.value.last == RequestEnd(e, cfg.boundaryMax, |obj|)
    requires RequestStart(s) + |Received(r.chunks)| == r.range.value.last + 1 && Regrouped(r.chunks)
    requires Explains(obj, s, e, cfg, r, error) && error != Some(LeaseLost)
    ensures error.None? <==> FitsReads(obj, s, e, cfg.boundaryMax, r.range.value.last)
  {
    ChunkingDecides(obj, s, e, cfg, r, error);
    ReadsDecide(obj, s, e, cfg.boundaryMax, r.range.value.last, r.chunks);
  }
}
