// The streaming harvester: it reads an arbitrarily chunked byte range, splits it
// into lines, reduces them to host groups and yields result batches.
module BulkShard {
  import opened Base
  import opened Wire
  import opened Lines
  import opened HostYear
  import opened Packing

  const MIN_TARGET := 1024
  const MAX_TARGET := 8 * 1024 * 1024

  // A piece of the response body, and whether the lease is still owned when
  // it arrives.
  datatype Chunk = Chunk(data: seq<Octet>, owned: bool)

  datatype ContentRange = ContentRange(first: nat, last: nat, total: nat)

  datatype Response = Response(status: nat, range: Option<ContentRange>, sameObject: bool, chunks: seq<Chunk>)

  datatype HarvestError =
    | BadTarget
    | ObjectChanged
    | NotPartial
    | NoContentRange
    | StartMismatch
    | BoundsMismatch
    | LeaseLost
    | RecordTooLong
    | EndsInsideRecord

  function Received(chunks: seq<Chunk>): seq<Octet> {
    if chunks == [] then [] else Received(chunks[..|chunks| - 1]) + chunks[|chunks| - 1].data
  }

  // The server sends exactly the bytes its Content-Range names, and a response
  // that verifies the object's identity comes from that object (sections 14.1.2
  // and 14.4 of RFC 9110).
  ghost predicate Honest(r: Response, obj: seq<Octet>, size: nat) {
    r.sameObject && r.range.Some? ==>
      var c := r.range.value;
      && c.total == size == |obj| && c.first <= c.last < c.total
      && Received(r.chunks) == obj[c.first..c.last + 1]
  }

  function StartOf(cursor: Option<Cursor>, byteStart: nat): nat {
    match cursor
    case Some(Byte(n)) => n
    case _ => byteStart
  }

  function RequestStart(s: nat): nat { if s > 0 then s - 1 else s }

  function RequestEnd(e: nat, boundaryMax: nat, size: nat): int {
    if e - 1 + boundaryMax < size - 1 then e - 1 + boundaryMax else size - 1
  }

  // ----- yielded batches

  function Items(groups: seq<Group>): seq<Item> {
    seq(|groups|, i requires 0 <= i < |groups| => WitnessGroup(groups[i]))
  }

  function CursorText(cursor: Option<nat>): Option<Cursor> {
    match cursor
    case None => None
    case Some(n) => Some(Byte(n))
  }

  // `b` is number `n` of the lease's task and carries the parcel; the final
  // batch closes with a summary.
  predicate Carried(b: ResultBatch, task: Id, generation: nat, n: nat, parcel: Parcel) {
    && b.task == task && b.generation == generation && b.seqNo == n
    && b.cursorAfter == CursorText(parcel.cursor) && b.final == parcel.final
    && |b.results| == |parcel.groups| + (if parcel.final then 1 else 0)
    && b.results[..|parcel.groups|] == Items(parcel.groups)
    && (parcel.final ==> b.results[|parcel.groups|].Summary?)
  }

  predicate Carry(bs: seq<ResultBatch>, lease: Lease, first: nat, parcels: seq<Parcel>) {
    && |bs| == |parcels|
    && forall i :: 0 <= i < |bs| ==> Carried(bs[i], lease.task, lease.generation, first + i, parcels[i])
  }

  lemma CarryAppend(a: seq<ResultBatch>, b: seq<ResultBatch>, lease: Lease, first: nat, pa: seq<Parcel>, pb: seq<Parcel>)
    requires Carry(a, lease, first, pa) && Carry(b, lease, first + |a|, pb)
    ensures Carry(a + b, lease, first, pa + pb)
  {
  }

  // The local variables of the packing code, and the number of records parsed.
  datatype Batcher = Batcher(pending: seq<Group>, bytes: nat, after: Option<nat>, sequence: nat, yielded: seq<ResultBatch>, records: nat)
  {
    function Pack(reducer: Reduction): Packing.Pack {
      Packing.Pack(reducer, pending, bytes, after)
    }
  }

  // What has been yielded is a front part of what an uninterrupted run yields,
  // the packer is about to yield the rest from position `cursor`, and the lines
  // before it gave the records counted.
  ghost predicate OnTrack(cfg: Config, obj: seq<Octet>, s: nat, e: nat, lease: Lease, b: Batcher, reducer: Reduction, cursor: nat) {
    && s <= |obj| && cursor <= |obj|
    && |b.yielded| <= |Parcels(cfg, obj, s, e)|
    && Carry(b.yielded, lease, lease.nextSeq, Parcels(cfg, obj, s, e)[..|b.yielded|])
    && b.sequence == lease.nextSeq + |b.yielded|
    && Parcels(cfg, obj, s, e)[|b.yielded|..] == Rest(cfg, b.Pack(reducer), LinesFrom(obj, cursor, e))
    && b.records + |Records(cfg, LinesFrom(obj, cursor, e))| == |Records(cfg, ShardLines(obj, s, e))|
  }

  method YieldPending(lease: Lease, b: Batcher) returns (b': Batcher)
    requires b.pending != []
    ensures b'.pending == [] && b'.bytes == 0 && b'.after == None && b'.sequence == b.sequence + 1 && b'.records == b.records
    ensures |b'.yielded| == |b.yielded| + 1 && b'.yielded[..|b.yielded|] == b.yielded
    ensures Carried(b'.yielded[|b.yielded|], lease.task, lease.generation, b.sequence, Parcel(b.pending, b.after, false))
  {
    var batch := ResultBatch(lease.task, lease.generation, b.sequence, Items(b.pending), "", CursorText(b.after), false);
    b' := b.(pending := [], bytes := 0, after := None, sequence := b.sequence + 1, yielded := b.yielded + [batch]);
  }

  method AddGroup(cfg: Config, lease: Lease, b: Batcher, item: Group, at: nat, capped: bool, ghost reducer: Reduction)
    returns (b': Batcher)
    ensures var (q, out) := Offer(cfg, b.Pack(reducer), item, at, capped);
            && b'.Pack(reducer) == q && b'.sequence == b.sequence + |out| && b'.records == b.records
            && |b'.yielded| == |b.yielded| + |out| && b'.yielded[..|b.yielded|] == b.yielded
            && Carry(b'.yielded[|b.yielded|..], lease, b.sequence, out)
  {
    b' := b;
    var itemBytes := cfg.size(item);
    if b'.pending != [] && b'.bytes + itemBytes > cfg.target {
      b' := YieldPending(lease, b');
    }
    b' := b'.(pending := b'.pending + [item], bytes := b'.bytes + itemBytes, after := Some(at));
    if capped && |b'.pending| >= cfg.groupLimit {
      b' := YieldPending(lease, b');
    }
  }

  method ParseLine(cfg: Config, lease: Lease, reducer: WitnessReducer, b: Batcher, raw: seq<Octet>, lineStart: nat, capped: bool)
    returns (b': Batcher)
    requires capped == Terminated(Line(lineStart, raw))
    modifies reducer
    ensures b'.records == b.records + if cfg.parse(raw, lineStart).Some? then 1 else 0
    ensures var (q, out) := TakeLine(cfg, b.Pack(old(reducer.State())), Line(lineStart, raw));
            && b'.Pack(reducer.State()) == q && b'.sequence == b.sequence + |out|
            && |b'.yielded| == |b.yielded| + |out| && b'.yielded[..|b.yielded|] == b.yielded
            && Carry(b'.yielded[|b.yielded|..], lease, b.sequence, out)
  {
    b' := b;
    var record := cfg.parse(raw, lineStart);
    if record.None? {
      return;
    }
    b' := b'.(records := b'.records + 1);
    var group := reducer.FeedRecord(record.value);
    if group.None? {
      return;
    }
    b' := AddGroup(cfg, lease, b', group.value, lineStart, capped, reducer.State());
  }

  // Consuming the next line stays on track.
  lemma LineOnTrack(cfg: Config, obj: seq<Octet>, s: nat, e: nat, lease: Lease, b: Batcher, before: Reduction,
                    b': Batcher, after: Reduction, cursor: nat, out: seq<Parcel>)
    requires OnTrack(cfg, obj, s, e, lease, b, before, cursor) && cursor < e && cursor < |obj|
    requires TakeLine(cfg, b.Pack(before), Line(cursor, obj[cursor..LineEnd(obj, cursor)])) == (b'.Pack(after), out)
    requires b'.sequence == b.sequence + |out|
    requires b'.records == b.records + if cfg.parse(obj[cursor..LineEnd(obj, cursor)], cursor).Some? then 1 else 0
    requires |b'.yielded| == |b.yielded| + |out| && b'.yielded[..|b.yielded|] == b.yielded
    requires Carry(b'.yielded[|b.yielded|..], lease, b.sequence, out)
    ensures OnTrack(cfg, obj, s, e, lease, b', after, LineEnd(obj, cursor))
  {
    LineCounted(cfg, obj, cursor, e);
    hide Records, ShardLines;
    var all, n, n' := Parcels(cfg, obj, s, e), |b.yielded|, |b'.yielded|;
    FirstLine(obj, cursor, e, LineEnd(obj, cursor));
    var rest := Rest(cfg, b'.Pack(after), LinesFrom(obj, LineEnd(obj, cursor), e));
    assert all[n..] == out + rest;
    hide Parcels, Rest, TakeLine, Carry, LinesFrom;
    SplitAgain(all, n, out, rest);
    CarryAppend(b.yielded, b'.yielded[n..], lease, lease.nextSeq, all[..n], out);
    assert b'.yielded == b.yielded + b'.yielded[n..];
  }

  lemma LineCounted(cfg: Config, obj: seq<Octet>, cursor: nat, e: nat)
    requires cursor < e && cursor < |obj|
    ensures |Records(cfg, LinesFrom(obj, cursor, e))|
            == (if cfg.parse(obj[cursor..LineEnd(obj, cursor)], cursor).Some? then 1 else 0)
               + |Records(cfg, LinesFrom(obj, LineEnd(obj, cursor), e))|
  {
    FirstLine(obj, cursor, e, LineEnd(obj, cursor));
  }

  lemma SplitAgain(all: seq<Parcel>, n: nat, out: seq<Parcel>, rest: seq<Parcel>)
    requires n <= |all| && all[n..] == out + rest
    ensures n + |out| <= |all| && all[..n + |out|] == all[..n] + out && all[n + |out|..] == rest
  {
  }

  // Index of the first newline of the buffer, or its length.
  method Find(buffer: seq<Octet>) returns (k: nat)
    ensures k <= |buffer| && (k < |buffer| ==> buffer[k] == NEWLINE)
    ensures forall i :: 0 <= i < k ==> buffer[i] != NEWLINE
  {
    k := 0;
    while k < |buffer| && buffer[k] != NEWLINE
      invariant k <= |buffer| && forall i :: 0 <= i < k ==> buffer[i] != NEWLINE
    {
      k := k + 1;
    }
  }

  // The unread bytes: those of the object from `cursor` to what has been seen.
  ghost predicate Unread(obj: seq<Octet>, buffer: seq<Octet>, cursor: nat, seen: nat) {
    && cursor <= seen <= |obj| && |buffer| == seen - cursor
    && forall i :: 0 <= i < |buffer| ==> buffer[i] == obj[cursor + i]
  }

  lemma FrontLine(obj: seq<Octet>, buffer: seq<Octet>, cursor: nat, seen: nat, boundary: nat)
    requires Unread(obj, buffer, cursor, seen) && boundary < |buffer| && buffer[boundary] == NEWLINE
    requires forall i :: 0 <= i < boundary ==> buffer[i] != NEWLINE
    ensures cursor < |obj| && Newline(obj, cursor) == cursor + boundary < seen && LineEnd(obj, cursor) == cursor + boundary + 1
    ensures buffer[..boundary + 1] == obj[cursor..LineEnd(obj, cursor)] && Terminated(Line(cursor, buffer[..boundary + 1]))
    ensures Unread(obj, buffer[boundary + 1..], cursor + boundary + 1, seen)
    ensures cursor + boundary + 1 < |obj| ==> IsLineStart(obj, cursor + boundary + 1)
  {
    forall i | cursor <= i < cursor + boundary ensures obj[i] != NEWLINE {
      assert buffer[i - cursor] == obj[i];
    }
    NewlineIs(obj, cursor, cursor + boundary);
  }

  method DrainLine(cfg: Config, lease: Lease, reducer: WitnessReducer, b: Batcher, raw: seq<Octet>, cursor: nat, e: nat,
                   ghost obj: seq<Octet>, ghost s: nat)
    returns (b': Batcher)
    requires cursor < e && cursor < |obj| && raw == obj[cursor..LineEnd(obj, cursor)]
    requires OnTrack(cfg, obj, s, e, lease, b, reducer.State(), cursor)
    modifies reducer
    ensures OnTrack(cfg, obj, s, e, lease, b', reducer.State(), LineEnd(obj, cursor))
  {
    ghost var before := reducer.State();
    b' := ParseLine(cfg, lease, reducer, b, raw, cursor, Terminated(Line(cursor, raw)));
    LineOnTrack(cfg, obj, s, e, lease, b, before, b', reducer.State(), cursor,
                TakeLine(cfg, b.Pack(before), Line(cursor, raw)).1);
  }

  // Every line that starts in [from, cursor) has been seen to its end.
  ghost predicate AllSeen(obj: seq<Octet>, from: nat, cursor: nat, seen: nat) {
    forall p :: from <= p < cursor && IsLineStart(obj, p) ==> Newline(obj, p) < seen
  }

  lemma SeenOneMore(obj: seq<Octet>, from: nat, cursor: nat, seen: nat)
    requires cursor < |obj| && AllSeen(obj, from, cursor, seen) && Newline(obj, cursor) < seen
    ensures AllSeen(obj, from, LineEnd(obj, cursor), seen)
  {
  }

  // The lines from `from` to `cursor` are behind us.
  ghost predicate Drained(obj: seq<Octet>, from: nat, cursor: nat, buffer: seq<Octet>, seen: nat) {
    from <= cursor && Unread(obj, buffer, cursor, seen) && AllSeen(obj, from, cursor, seen)
    && (cursor < |obj| ==> IsLineStart(obj, cursor))
  }

  lemma OneMoreDrained(obj: seq<Octet>, from: nat, cursor: nat, buffer: seq<Octet>, seen: nat, boundary: nat)
    requires Drained(obj, from, cursor, buffer, seen) && boundary < |buffer| && buffer[boundary] == NEWLINE
    requires forall i :: 0 <= i < boundary ==> buffer[i] != NEWLINE
    ensures cursor < |obj| && buffer[..boundary + 1] == obj[cursor..LineEnd(obj, cursor)] && LineEnd(obj, cursor) == cursor + boundary + 1
    ensures Drained(obj, from, cursor + boundary + 1, buffer[boundary + 1..], seen)
  {
    FrontLine(obj, buffer, cursor, seen, boundary);
    SeenOneMore(obj, from, cursor, seen);
  }

  lemma DrainedDone(obj: seq<Octet>, from: nat, cursor: nat, buffer: seq<Octet>, seen: nat)
    requires Drained(obj, from, cursor, buffer, seen) && forall i :: 0 <= i < |buffer| ==> buffer[i] != NEWLINE
    ensures Newline(obj, cursor) >= seen
  {
    NoNewlineYet(obj, buffer, cursor, seen);
  }

  // Parses every complete line of the buffer that starts inside the shard, which
  // has been parsed from `from` to `cursor`.
  method Drain(cfg: Config, lease: Lease, reducer: WitnessReducer, b: Batcher, buffer: seq<Octet>, cursor: nat, e: nat,
               ghost obj: seq<Octet>, ghost s: nat, ghost from: nat, ghost seen: nat)
    returns (b': Batcher, buffer': seq<Octet>, cursor': nat)
    requires Drained(obj, from, cursor, buffer, seen)
    requires OnTrack(cfg, obj, s, e, lease, b, reducer.State(), cursor)
    modifies reducer
    ensures Drained(obj, from, cursor', buffer', seen)
    ensures OnTrack(cfg, obj, s, e, lease, b', reducer.State(), cursor')
    ensures cursor' < e ==> Newline(obj, cursor') >= seen
  {
    hide OnTrack, Drained, Newline;
    b', buffer', cursor' := b, buffer, cursor;
    while cursor' < e
      invariant Drained(obj, from, cursor', buffer', seen)
      invariant OnTrack(cfg, obj, s, e, lease, b', reducer.State(), cursor')
      decreases |buffer'|
    {
      var boundary := Find(buffer');
      if boundary == |buffer'| {
        DrainedDone(obj, from, cursor', buffer', seen);
        break;
      }
      var raw := buffer'[..boundary + 1];
      var lineStart := cursor';
      OneMoreDrained(obj, from, lineStart, buffer', seen, boundary);
      buffer' := buffer'[boundary + 1..];
      cursor' := cursor' + |raw|;
      b' := DrainLine(cfg, lease, reducer, b', raw, lineStart, e, obj, s);
    }
  }

  lemma NoNewlineYet(obj: seq<Octet>, buffer: seq<Octet>, from: nat, seen: nat)
    requires Unread(obj, buffer, from, seen) && forall i :: 0 <= i < |buffer| ==> buffer[i] != NEWLINE
    ensures Newline(obj, from) >= seen
  {
    forall i | from <= i < seen ensures obj[i] != NEWLINE {
      assert buffer[i - from] == obj[i];
    }
  }

  // ----- finding the first line

  datatype Alignment = Ready | Waiting | Beyond

  // No newline has been seen from the byte before the shard on.
  ghost predicate Searching(obj: seq<Octet>, s: nat, e: nat, buffer: seq<Octet>, seen: nat) {
    Unread(obj, buffer, s, seen) && s > 0 && Newline(obj, s - 1) >= seen && seen < e
  }

  lemma UnreadBounds(obj: seq<Octet>, buffer: seq<Octet>, from: nat, seen: nat)
    requires Unread(obj, buffer, from, seen)
    ensures from + |buffer| == seen <= |obj| && forall i :: 0 <= i < |buffer| ==> buffer[i] == obj[from + i]
  {
  }

  // Drops the partial first line. `search` is what the shard still covers of
  // the buffer; a newline beyond it does not start a line of this shard.
  method Align(buffer: seq<Octet>, prefixChecked: bool, s: nat, e: nat, ghost obj: seq<Octet>, ghost seen: nat)
    returns (buffer': seq<Octet>, cursor: nat, status: Alignment)
    requires 0 < s < e
    requires if prefixChecked then Unread(obj, buffer, s, seen) && Newline(obj, s - 1) >= s
             else Unread(obj, buffer, s - 1, seen) && buffer != []
    ensures match status
            case Ready => cursor < e && Unread(obj, buffer', cursor, seen) && cursor == FirstStart(obj, s)
            case Waiting => cursor == s && Searching(obj, s, e, buffer', seen)
            case Beyond => cursor >= e && s <= |obj| && FirstStart(obj, s) >= e && seen >= e
  {
    UnreadBounds(obj, buffer, if prefixChecked then s else s - 1, seen);
    hide Unread, FirstStart, Searching, Newline;
    buffer', cursor := buffer, s;
    if !prefixChecked {
      var previous := buffer'[0];
      AfterPrevious(obj, buffer', s, seen);
      buffer' := buffer'[1..];
      if previous == NEWLINE {
        return buffer', s, Ready;
      }
    }
    var coreRemaining := e - cursor;
    var search := if |buffer'| <= coreRemaining then buffer' else buffer'[..coreRemaining];
    var boundary := Find(search);
    if boundary == |search| {
      NothingFound(obj, buffer', s, e, seen, boundary);
      if |buffer'| >= coreRemaining {
        return [], e, Beyond;
      }
      return buffer', s, Waiting;
    }
    NewlineFound(obj, buffer', s, seen, boundary);
    buffer' := buffer'[boundary + 1..];
    cursor := cursor + boundary + 1;
    status := if cursor >= e then Beyond else Ready;
  }

  // What the byte before the shard decides.
  lemma AfterPrevious(obj: seq<Octet>, buffer: seq<Octet>, s: nat, seen: nat)
    requires s > 0 && buffer != [] && Unread(obj, buffer, s - 1, seen)
    ensures Unread(obj, buffer[1..], s, seen)
    ensures if buffer[0] == NEWLINE then FirstStart(obj, s) == s else Newline(obj, s - 1) >= s
  {
    if buffer[0] == NEWLINE { NewlineIs(obj, s - 1, s - 1); }
  }

  lemma NothingFound(obj: seq<Octet>, buffer: seq<Octet>, s: nat, e: nat, seen: nat, k: nat)
    requires 0 < s < e && Unread(obj, buffer, s, seen) && Newline(obj, s - 1) >= s
    requires k == (if |buffer| <= e - s then |buffer| else e - s) && forall i :: 0 <= i < k ==> buffer[i] != NEWLINE
    ensures if |buffer| >= e - s then s <= |obj| && FirstStart(obj, s) >= e else Searching(obj, s, e, buffer, seen)
  {
    BeforeNewline(obj, s, buffer, seen, k);
  }

  lemma NewlineFound(obj: seq<Octet>, buffer: seq<Octet>, s: nat, seen: nat, k: nat)
    requires s > 0 && Unread(obj, buffer, s, seen) && Newline(obj, s - 1) >= s
    requires k < |buffer| && buffer[k] == NEWLINE && forall i :: 0 <= i < k ==> buffer[i] != NEWLINE
    ensures s <= |obj| && FirstStart(obj, s) == s + k + 1 && Unread(obj, buffer[k + 1..], s + k + 1, seen)
  {
    BeforeNewline(obj, s, buffer, seen, k);
    NewlineIs(obj, s - 1, s + k);
  }

  lemma BeforeNewline(obj: seq<Octet>, s: nat, buffer: seq<Octet>, seen: nat, k: nat)
    requires s > 0 && Unread(obj, buffer, s, seen) && Newline(obj, s - 1) >= s
    requires k <= |buffer| && forall i :: 0 <= i < k ==> buffer[i] != NEWLINE
    ensures forall i :: s - 1 <= i < s + k ==> obj[i] != NEWLINE
    ensures Newline(obj, s - 1) >= s + k
  {
    forall i | s <= i < s + k ensures obj[i] != NEWLINE {
      assert buffer[i - s] == obj[i];
    }
  }

  // ----- overlong records

  // With the object seen up to `seen`, more than `boundaryMax` bytes of a line
  // of the shard are there and its newline is not.
  ghost predicate Exposes(obj: seq<Octet>, boundaryMax: nat, seen: nat, p: nat) {
    IsLineStart(obj, p) && p + boundaryMax < seen <= Newline(obj, p)
  }

  ghost predicate Exposed(obj: seq<Octet>, s: nat, e: nat, boundaryMax: nat, seen: nat) {
    exists p :: s <= p < e && Exposes(obj, boundaryMax, seen, p)
  }

  // How far the object has been seen after chunk j.
  function SeenAfter(chunks: seq<Chunk>, requestStart: nat, j: nat): nat
    requires j < |chunks|
  {
    requestStart + |Received(chunks[..j + 1])|
  }

  ghost predicate QuietUntil(obj: seq<Octet>, s: nat, e: nat, boundaryMax: nat, chunks: seq<Chunk>, requestStart: nat, i: nat) {
    i <= |chunks| && forall j :: 0 <= j < i ==> !Exposed(obj, s, e, boundaryMax, SeenAfter(chunks, requestStart, j))
  }

  lemma ExposedAtCursor(obj: seq<Octet>, s: nat, e: nat, boundaryMax: nat, cursor: nat, seen: nat)
    requires s <= cursor <= seen <= |obj| && AllSeen(obj, s, cursor, seen)
    requires cursor < e ==> cursor < |obj| && IsLineStart(obj, cursor) && Newline(obj, cursor) >= seen
    ensures Exposed(obj, s, e, boundaryMax, seen) <==> cursor < e && cursor + boundaryMax < seen
  {
    if cursor < e && cursor + boundaryMax < seen {
      assert Exposes(obj, boundaryMax, seen, cursor);
    }
    forall p | s <= p < e && Exposes(obj, boundaryMax, seen, p) ensures cursor < e && cursor + boundaryMax < seen {
      if p > cursor {
        assert obj[p - 1] == NEWLINE && cursor <= p - 1 < Newline(obj, cursor);
      }
    }
  }

  lemma NothingExposed(obj: seq<Octet>, s: nat, e: nat, boundaryMax: nat, seen: nat)
    requires s <= |obj| && FirstStart(obj, s) >= (if seen <= e then seen else e)
    ensures !Exposed(obj, s, e, boundaryMax, seen)
  {
  }

  lemma SearchingStart(obj: seq<Octet>, s: nat, seen: nat)
    requires 0 < s <= seen <= |obj| && Newline(obj, s - 1) >= seen
    ensures FirstStart(obj, s) >= seen
  {
  }

  lemma NothingExposedYet(obj: seq<Octet>, s: nat, e: nat, boundaryMax: nat, seen: nat)
    requires seen <= s
    ensures !Exposed(obj, s, e, boundaryMax, seen)
  {
  }

  // ----- the end of the stream

  // The last group, a flush before it when it would overflow, and the final batch.
  method CloseBatches(cfg: Config, lease: Lease, reducer: WitnessReducer, b: Batcher, summary: Item)
    returns (last: seq<ResultBatch>)
    requires summary.Summary?
    modifies reducer
    ensures Carry(last, lease, b.sequence, Close(cfg, b.Pack(old(reducer.State())))) && ClosesWith(last, summary)
  {
    var b' := b.(yielded := []);
    var group := reducer.Finish();
    if group.Some? {
      var itemBytes := cfg.size(group.value);
      if b'.pending != [] && b'.bytes + itemBytes > cfg.target {
        b' := YieldPending(lease, b');
      }
      b' := b'.(pending := b'.pending + [group.value], bytes := b'.bytes + itemBytes);
    }
    var items := Items(b'.pending) + [summary];
    assert items[..|b'.pending|] == Items(b'.pending);
    last := b'.yielded + [ResultBatch(lease.task, lease.generation, b'.sequence, items, "", None, true)];
  }

  lemma ClosedOnTrack(cfg: Config, obj: seq<Octet>, s: nat, e: nat, lease: Lease, b: Batcher, reducer: Reduction,
                      cursor: nat, last: seq<ResultBatch>)
    requires OnTrack(cfg, obj, s, e, lease, b, reducer, cursor) && LinesFrom(obj, cursor, e) == []
    requires Carry(last, lease, b.sequence, Close(cfg, b.Pack(reducer)))
    ensures Carry(b.yielded + last, lease, lease.nextSeq, Parcels(cfg, obj, s, e))
    ensures b.records == |Records(cfg, ShardLines(obj, s, e))|
  {
    var all, n := Parcels(cfg, obj, s, e), |b.yielded|;
    CarryAppend(b.yielded, last, lease, lease.nextSeq, all[..n], all[n..]);
    assert all == all[..n] + all[n..];
  }

  lemma {:induction false} ReceivedStep(chunks: seq<Chunk>, i: nat)
    requires i < |chunks|
    ensures Received(chunks[..i + 1]) == Received(chunks[..i]) + chunks[i].data
  {
    assert chunks[..i + 1][..i] == chunks[..i];
  }

  lemma {:induction false} ReceivedPrefix(chunks: seq<Chunk>, i: nat)
    requires i <= |chunks|
    ensures Received(chunks[..i]) <= Received(chunks)
    decreases |chunks| - i
  {
    if i == |chunks| {
      assert chunks[..i] == chunks;
    } else {
      ReceivedStep(chunks, i);
      ReceivedPrefix(chunks, i + 1);
    }
  }

  // ----- the stream loop

  lemma {:induction false} NextChunk(chunks: seq<Chunk>, i: nat, obj: seq<Octet>, first: nat, last: nat)
    requires i < |chunks| && first <= last < |obj| && Received(chunks) == obj[first..last + 1]
    ensures first + |Received(chunks[..i])| + |chunks[i].data| == SeenAfter(chunks, first, i) <= last + 1
    ensures forall k :: 0 <= k < |chunks[i].data| ==> chunks[i].data[k] == obj[first + |Received(chunks[..i])| + k]
  {
    ReceivedStep(chunks, i);
    ReceivedPrefix(chunks, i + 1);
    forall k | 0 <= k < |chunks[i].data| ensures chunks[i].data[k] == obj[first + |Received(chunks[..i])| + k] {
      assert Received(chunks[..i + 1])[|Received(chunks[..i])| + k] == chunks[i].data[k];
    }
  }

  // The local variables of the stream loop.
  datatype Scan = Scan(buffer: seq<Octet>, cursor: nat, prefixChecked: bool, ready: bool, b: Batcher, bytesRead: nat)

  // State of the loop between chunks, before the first line has been found and
  // after.
  ghost predicate Between(obj: seq<Octet>, s: nat, e: nat, boundaryMax: nat, sc: Scan, seen: nat) {
    if sc.ready then
      && s <= sc.cursor && Unread(obj, sc.buffer, sc.cursor, seen) && AllSeen(obj, s, sc.cursor, seen)
      && (sc.cursor < e ==> Newline(obj, sc.cursor) >= seen && seen <= sc.cursor + boundaryMax)
      && (sc.cursor < |obj| ==> IsLineStart(obj, sc.cursor))
    else if sc.prefixChecked then sc.cursor == s && Searching(obj, s, e, sc.buffer, seen)
    else s > 0 && sc.cursor == s && sc.buffer == [] && seen == s - 1 < |obj|
  }

  // The line the packer waits for.
  ghost function Position(obj: seq<Octet>, s: nat, sc: Scan): nat
    requires s <= |obj|
  {
    if sc.ready then sc.cursor else FirstStart(obj, s)
  }

  ghost predicate Scanning(cfg: Config, obj: seq<Octet>, s: nat, e: nat, lease: Lease, sc: Scan, reducer: Reduction, seen: nat) {
    && s < e <= |obj|
    && Between(obj, s, e, cfg.boundaryMax, sc, seen) && (sc.ready ==> FirstStart(obj, s) < e)
    && OnTrack(cfg, obj, s, e, lease, sc.b, reducer, Position(obj, s, sc))
  }

  lemma Appended(obj: seq<Octet>, buffer: seq<Octet>, cursor: nat, seen: nat, data: seq<Octet>)
    requires Unread(obj, buffer, cursor, seen) && seen + |data| <= |obj|
    requires forall k :: 0 <= k < |data| ==> data[k] == obj[seen + k]
    ensures Unread(obj, buffer + data, cursor, seen + |data|)
  {
  }

  // With the object seen from `seen` to `now`, the end of the shard is reached
  // and no line starts in it.
  ghost predicate PastShard(obj: seq<Octet>, s: nat, e: nat, sc: Scan, seen: nat, now: nat)
    requires s <= |obj|
  {
    !sc.ready && sc.cursor >= e && FirstStart(obj, s) >= e && seen < e <= now
  }

  datatype Next = Continue | Break | TooLong

  // Looks for the first line in the grown buffer.
  method AlignScan(sc: Scan, data: seq<Octet>, s: nat, e: nat, ghost obj: seq<Octet>, ghost boundaryMax: nat, ghost seen: nat)
    returns (sc': Scan, status: Alignment)
    requires s < e <= |obj| && !sc.ready && Between(obj, s, e, boundaryMax, sc, seen)
    requires data != [] && seen + |data| <= |obj| && forall k :: 0 <= k < |data| ==> data[k] == obj[seen + k]
    ensures sc'.b == sc.b && sc'.bytesRead == sc.bytesRead && sc'.ready == status.Ready? && Position(obj, s, sc') == FirstStart(obj, s)
    ensures match status
            case Ready =>
              && FirstStart(obj, s) < e && sc'.ready && s <= sc'.cursor && Unread(obj, sc'.buffer, sc'.cursor, seen + |data|)
              && AllSeen(obj, s, sc'.cursor, seen + |data|)
            case Waiting => Between(obj, s, e, boundaryMax, sc', seen + |data|) && !Exposed(obj, s, e, boundaryMax, seen + |data|)
            case Beyond => PastShard(obj, s, e, sc', seen, seen + |data|)
  {
    Appended(obj, sc.buffer, if sc.prefixChecked then s else s - 1, seen, data);
    var buffer, cursor;
    buffer, cursor, status := Align(sc.buffer + data, sc.prefixChecked, s, e, obj, seen + |data|);
    sc' := sc.(buffer := buffer, cursor := cursor, prefixChecked := true, ready := status.Ready?);
    if status.Waiting? {
      SearchingStart(obj, s, seen + |data|);
      NothingExposed(obj, s, e, boundaryMax, seen + |data|);
    } else if status.Ready? {
      AlignedOnTrack(obj, s, seen + |data|);
    }
  }

  // Parses what the buffer completes; a line that outgrows the limit is an error.
  method DrainScan(cfg: Config, lease: Lease, reducer: WitnessReducer, s: nat, e: nat, sc: Scan, ghost obj: seq<Octet>, ghost seen: nat)
    returns (sc': Scan, next: Next)
    requires s < e <= |obj| && sc.ready && s <= sc.cursor && Unread(obj, sc.buffer, sc.cursor, seen) && AllSeen(obj, s, sc.cursor, seen)
    requires FirstStart(obj, s) < e
    requires sc.cursor < |obj| ==> IsLineStart(obj, sc.cursor)
    requires OnTrack(cfg, obj, s, e, lease, sc.b, reducer.State(), sc.cursor)
    modifies reducer
    ensures sc'.ready && sc'.bytesRead == sc.bytesRead && OnTrack(cfg, obj, s, e, lease, sc'.b, reducer.State(), sc'.cursor)
    ensures match next
            case Continue => Scanning(cfg, obj, s, e, lease, sc', reducer.State(), seen) && !Exposed(obj, s, e, cfg.boundaryMax, seen)
            case TooLong => Exposed(obj, s, e, cfg.boundaryMax, seen)
            case Break => false
  {
    var b, buffer, cursor := Drain(cfg, lease, reducer, sc.b, sc.buffer, sc.cursor, e, obj, s, s, seen);
    sc' := sc.(b := b, buffer := buffer, cursor := cursor);
    ExposedAtCursor(obj, s, e, cfg.boundaryMax, cursor, seen);
    next := if cursor < e && |buffer| > cfg.boundaryMax then TooLong else Continue;
  }

  lemma AlignedOnTrack(obj: seq<Octet>, s: nat, seen: nat)
    requires s <= |obj|
    ensures AllSeen(obj, s, FirstStart(obj, s), seen)
  {
  }

  // One nonempty chunk.
  method OnChunk(cfg: Config, lease: Lease, reducer: WitnessReducer, s: nat, e: nat, sc: Scan, data: seq<Octet>,
                 ghost obj: seq<Octet>, ghost seen: nat)
    returns (sc': Scan, next: Next)
    requires Scanning(cfg, obj, s, e, lease, sc, reducer.State(), seen)
    requires data != [] && seen + |data| <= |obj| && forall k :: 0 <= k < |data| ==> data[k] == obj[seen + k]
    modifies reducer
    ensures OnTrack(cfg, obj, s, e, lease, sc'.b, reducer.State(), Position(obj, s, sc')) && sc'.bytesRead == sc.bytesRead + |data|
    ensures match next
            case Continue => Scanning(cfg, obj, s, e, lease, sc', reducer.State(), seen + |data|)
                             && !Exposed(obj, s, e, cfg.boundaryMax, seen + |data|)
            case TooLong => Exposed(obj, s, e, cfg.boundaryMax, seen + |data|)
            case Break => PastShard(obj, s, e, sc', seen, seen + |data|)
  {
    hide OnTrack, AllSeen, Exposed;
    sc' := sc.(bytesRead := sc.bytesRead + |data|);
    if !sc.ready {
      var status;
      sc', status := AlignScan(sc', data, s, e, obj, cfg.boundaryMax, seen);
      if status.Beyond? {
        return sc', Break;
      }
      if status.Waiting? {
        return sc', Continue;
      }
    } else {
      Appended(obj, sc.buffer, sc.cursor, seen, data);
      SeenMore(obj, s, sc.cursor, seen, seen + |data|);
      sc' := sc'.(buffer := sc.buffer + data);
    }
    sc', next := DrainScan(cfg, lease, reducer, s, e, sc', obj, seen + |data|);
  }

  lemma SeenMore(obj: seq<Octet>, s: nat, cursor: nat, seen: nat, more: nat)
    requires AllSeen(obj, s, cursor, seen) && seen <= more
    ensures AllSeen(obj, s, cursor, more)
  {
  }

  lemma QuietStep(obj: seq<Octet>, s: nat, e: nat, boundaryMax: nat, chunks: seq<Chunk>, requestStart: nat, i: nat)
    requires i < |chunks| && QuietUntil(obj, s, e, boundaryMax, chunks, requestStart, i)
    requires !Exposed(obj, s, e, boundaryMax, SeenAfter(chunks, requestStart, i))
    ensures QuietUntil(obj, s, e, boundaryMax, chunks, requestStart, i + 1)
  {
  }

  lemma {:induction false} QuietBeyond(obj: seq<Octet>, s: nat, e: nat, boundaryMax: nat, chunks: seq<Chunk>, requestStart: nat)
    requires s <= |obj| && FirstStart(obj, s) >= e
    ensures QuietUntil(obj, s, e, boundaryMax, chunks, requestStart, |chunks|)
  {
  }

  // An empty chunk shows nothing new.
  lemma {:induction false} QuietEmpty(obj: seq<Octet>, s: nat, e: nat, boundaryMax: nat, chunks: seq<Chunk>, i: nat)
    requires i < |chunks| && chunks[i].data == []
    requires QuietUntil(obj, s, e, boundaryMax, chunks, RequestStart(s), i)
    ensures QuietUntil(obj, s, e, boundaryMax, chunks, RequestStart(s), i + 1)
  {
    ReceivedStep(chunks, i);
    if i == 0 {
      NothingExposedYet(obj, s, e, boundaryMax, SeenAfter(chunks, RequestStart(s), 0));
    } else {
      assert SeenAfter(chunks, RequestStart(s), i) == SeenAfter(chunks, RequestStart(s), i - 1);
    }
    QuietStep(obj, s, e, boundaryMax, chunks, RequestStart(s), i);
  }

  lemma {:induction false} QuietNext(obj: seq<Octet>, s: nat, e: nat, boundaryMax: nat, chunks: seq<Chunk>, i: nat)
    requires i < |chunks| && QuietUntil(obj, s, e, boundaryMax, chunks, RequestStart(s), i)
    requires chunks[i].data != [] ==> !Exposed(obj, s, e, boundaryMax, SeenAfter(chunks, RequestStart(s), i))
    ensures QuietUntil(obj, s, e, boundaryMax, chunks, RequestStart(s), i + 1)
  {
    if chunks[i].data == [] {
      QuietEmpty(obj, s, e, boundaryMax, chunks, i);
    } else {
      QuietStep(obj, s, e, boundaryMax, chunks, RequestStart(s), i);
    }
  }

  lemma FirstScan(cfg: Config, obj: seq<Octet>, s: nat, e: nat, lease: Lease)
    requires s < e <= |obj|
    ensures Scanning(cfg, obj, s, e, lease, Scan([], s, s == 0, s == 0, Batcher([], 0, None, lease.nextSeq, [], 0), 0),
                     FRESH, RequestStart(s))
  {
  }

  ghost predicate TooLongAt(obj: seq<Octet>, s: nat, e: nat, boundaryMax: nat, chunks: seq<Chunk>) {
    exists j :: 0 <= j < |chunks| && Exposed(obj, s, e, boundaryMax, SeenAfter(chunks, RequestStart(s), j))
  }

  function SeenBefore(chunks: seq<Chunk>, requestStart: nat, i: nat): nat
    requires i <= |chunks|
  {
    requestStart + |Received(chunks[..i])|
  }

  datatype Pulled = More | Enough | Lost | Overlong

  lemma ScanningOnTrack(cfg: Config, obj: seq<Octet>, s: nat, e: nat, lease: Lease, sc: Scan, reducer: Reduction, seen: nat)
    requires Scanning(cfg, obj, s, e, lease, sc, reducer, seen)
    ensures OnTrack(cfg, obj, s, e, lease, sc.b, reducer, Position(obj, s, sc))
  {
  }

  // One turn of the loop over the chunks; `seen` is how far the object was seen
  // before it.
  method Pull(cfg: Config, lease: Lease, reducer: WitnessReducer, s: nat, e: nat, chunk: Chunk, sc: Scan,
              ghost obj: seq<Octet>, ghost seen: nat)
    returns (sc': Scan, pulled: Pulled)
    requires Scanning(cfg, obj, s, e, lease, sc, reducer.State(), seen)
    requires seen + |chunk.data| <= |obj| && forall k :: 0 <= k < |chunk.data| ==> chunk.data[k] == obj[seen + k]
    modifies reducer
    ensures OnTrack(cfg, obj, s, e, lease, sc'.b, reducer.State(), Position(obj, s, sc'))
    ensures pulled != Lost ==> sc'.bytesRead == sc.bytesRead + |chunk.data|
    ensures match pulled
            case More =>
              && Scanning(cfg, obj, s, e, lease, sc', reducer.State(), seen + |chunk.data|)
              && (chunk.data != [] ==> !Exposed(obj, s, e, cfg.boundaryMax, seen + |chunk.data|))
            case Enough => PastShard(obj, s, e, sc', seen, seen + |chunk.data|)
            case Lost => !chunk.owned
            case Overlong => Exposed(obj, s, e, cfg.boundaryMax, seen + |chunk.data|)
  {
    hide OnTrack, Scanning, Exposed, PastShard, Position;
    ScanningOnTrack(cfg, obj, s, e, lease, sc, reducer.State(), seen);
    if !chunk.owned {
      return sc, Lost;
    }
    if chunk.data == [] {
      assert seen + |chunk.data| == seen;
      return sc, More;
    }
    var next;
    sc', next := OnChunk(cfg, lease, reducer, s, e, sc, chunk.data, obj, seen);
    pulled := match next case Break => Enough case TooLong => Overlong case Continue => More;
  }

  // The stream is read to its end when a line of the shard starts in it, and
  // otherwise to the chunk that reaches the end of the shard.
  ghost predicate ReadChunks(obj: seq<Octet>, s: nat, e: nat, chunks: seq<Chunk>, j: nat) {
    && s <= |obj| && j <= |chunks|
    && if FirstStart(obj, s) < e then j == |chunks|
       else j > 0 && SeenBefore(chunks, RequestStart(s), j - 1) < e <= SeenBefore(chunks, RequestStart(s), j)
  }

  ghost predicate ReadBytes(obj: seq<Octet>, s: nat, e: nat, chunks: seq<Chunk>, n: nat) {
    exists j: nat :: ReadChunks(obj, s, e, chunks, j) && n == |Received(chunks[..j])|
  }

  method Stream(cfg: Config, lease: Lease, reducer: WitnessReducer, s: nat, e: nat, chunks: seq<Chunk>,
                ghost obj: seq<Octet>, ghost last: nat)
    returns (sc: Scan, error: Option<HarvestError>)
    requires s < e <= last + 1 <= |obj| && reducer.State() == FRESH
    requires Received(chunks) == obj[RequestStart(s)..last + 1]
    modifies reducer
    ensures OnTrack(cfg, obj, s, e, lease, sc.b, reducer.State(), Position(obj, s, sc))
    ensures match error
            case None =>
              && QuietUntil(obj, s, e, cfg.boundaryMax, chunks, RequestStart(s), |chunks|)
              && ReadBytes(obj, s, e, chunks, sc.bytesRead)
              && ((!sc.ready && sc.cursor >= e && FirstStart(obj, s) >= e)
                  || Scanning(cfg, obj, s, e, lease, sc, reducer.State(), last + 1))
            case Some(x) =>
              || (x == RecordTooLong && TooLongAt(obj, s, e, cfg.boundaryMax, chunks))
              || (x == LeaseLost && exists j :: 0 <= j < |chunks| && !chunks[j].owned)
  {
    hide OnTrack, Between, Exposed;
    sc := Scan([], s, s == 0, s == 0, Batcher([], 0, None, lease.nextSeq, [], 0), 0);
    error := None;
    FirstScan(cfg, obj, s, e, lease);
    ghost var seen := RequestStart(s);
    var i := 0;
    while i < |chunks|
      invariant 0 <= i <= |chunks| && seen == SeenBefore(chunks, RequestStart(s), i)
      invariant sc.bytesRead == |Received(chunks[..i])|
      invariant Scanning(cfg, obj, s, e, lease, sc, reducer.State(), seen)
      invariant QuietUntil(obj, s, e, cfg.boundaryMax, chunks, RequestStart(s), i)
    {
      NextChunk(chunks, i, obj, RequestStart(s), last);
      var pulled;
      sc, pulled := Pull(cfg, lease, reducer, s, e, chunks[i], sc, obj, seen);
      if pulled.Enough? {
        QuietBeyond(obj, s, e, cfg.boundaryMax, chunks, RequestStart(s));
        assert ReadChunks(obj, s, e, chunks, i + 1);
        return;
      }
      if pulled.Lost? {
        return sc, Some(LeaseLost);
      }
      if pulled.Overlong? {
        return sc, Some(RecordTooLong);
      }
      QuietNext(obj, s, e, cfg.boundaryMax, chunks, i);
      seen := seen + |chunks[i].data|;
      i := i + 1;
    }
    assert chunks[..i] == chunks;
    ReadToTheEnd(cfg, obj, s, e, lease, sc, reducer.State(), seen);
    assert ReadChunks(obj, s, e, chunks, i);
  }

  lemma ReadToTheEnd(cfg: Config, obj: seq<Octet>, s: nat, e: nat, lease: Lease, sc: Scan, reducer: Reduction, seen: nat)
    requires Scanning(cfg, obj, s, e, lease, sc, reducer, seen) && e <= seen
    ensures FirstStart(obj, s) < e
  {
  }

  // ----- the producer

  // The last item of the last batch is this summary.
  predicate ClosesWith(yielded: seq<ResultBatch>, summary: Item) {
    && yielded != []
    && var last := yielded[|yielded| - 1].results;
       last != [] && last[|last| - 1] == summary
  }

  function Validated(status: nat, hasValidator: bool, range: Option<ContentRange>, s: nat, e: nat, requestEnd: int, sameObject: bool)
    : Option<HarvestError>
  {
    if status != 206 then Some(if status == 200 && hasValidator then ObjectChanged else NotPartial)
    else if range.None? then Some(NoContentRange)
    else if range.value.first != RequestStart(s) then Some(StartMismatch)
    else if range.value.last < e - 1 || range.value.last > requestEnd then Some(BoundsMismatch)
    else if !sameObject then Some(ObjectChanged)
    else None
  }

  // A response is read exactly when it is partial, starts where it was asked to,
  // covers the shard and no more than was asked for, and is of the same object.
  lemma ReadExactly(status: nat, hasValidator: bool, range: Option<ContentRange>, s: nat, e: nat, boundaryMax: nat, size: nat,
                    sameObject: bool)
    ensures var refused := Validated(status, hasValidator, range, s, e, RequestEnd(e, boundaryMax, size), sameObject);
            var fits := && range.Some? && range.value.first == (if s == 0 then 0 else s - 1)
                        && e <= range.value.last + 1 <= e + boundaryMax && range.value.last + 1 <= size;
            && (refused.None? <==> status == 206 && fits && sameObject)
            && (refused == Some(ObjectChanged) <==>
                  (status == 200 && hasValidator) || (status == 206 && fits && !sameObject))
  {
  }

  // The stream ended inside a line of the shard whose end the response does not
  // reach.
  ghost predicate CutShort(obj: seq<Octet>, s: nat, e: nat, last: nat) {
    last + 1 < |obj| && exists p :: s <= p < e && IsLineStart(obj, p) && Newline(obj, p) > last
  }

  // What the response has shown when the run ends this way.
  ghost predicate Explains(obj: seq<Octet>, s: nat, e: nat, cfg: Config, r: Response, error: Option<HarvestError>) {
    r.range.Some? &&
    match error
    case None => QuietUntil(obj, s, e, cfg.boundaryMax, r.chunks, RequestStart(s), |r.chunks|) && !CutShort(obj, s, e, r.range.value.last)
    case Some(RecordTooLong) => TooLongAt(obj, s, e, cfg.boundaryMax, r.chunks)
    case Some(EndsInsideRecord) => CutShort(obj, s, e, r.range.value.last)
    case Some(x) => x == LeaseLost && exists j :: 0 <= j < |r.chunks| && !r.chunks[j].owned
  }

  // A front part of what an uninterrupted run yields.
  ghost predicate Front(cfg: Config, obj: seq<Octet>, s: nat, e: nat, lease: Lease, yielded: seq<ResultBatch>) {
    && s <= |obj| && |yielded| < |Parcels(cfg, obj, s, e)|
    && Carry(yielded, lease, lease.nextSeq, Parcels(cfg, obj, s, e)[..|yielded|])
  }

  lemma TrackIsFront(cfg: Config, obj: seq<Octet>, s: nat, e: nat, lease: Lease, b: Batcher, reducer: Reduction, cursor: nat)
    requires OnTrack(cfg, obj, s, e, lease, b, reducer, cursor)
    ensures Front(cfg, obj, s, e, lease, b.yielded)
  {
    assert Rest(cfg, b.Pack(reducer), LinesFrom(obj, cursor, e)) != [] by {
      RestNonempty(cfg, b.Pack(reducer), LinesFrom(obj, cursor, e));
    }
  }

  lemma {:induction false} RestNonempty(cfg: Config, p: Packing.Pack, lines: seq<Line>)
    ensures Rest(cfg, p, lines) != []
    decreases |lines|
  {
    if lines != [] { RestNonempty(cfg, TakeLine(cfg, p, lines[0]).0, lines[1..]); }
  }

  lemma EndOfScan(cfg: Config, obj: seq<Octet>, s: nat, e: nat, lease: Lease, sc: Scan, reducer: Reduction, last: nat)
    requires Scanning(cfg, obj, s, e, lease, sc, reducer, last + 1) && e <= last + 1
    ensures sc.ready
    ensures sc.cursor < e && last + 1 < |obj| ==> CutShort(obj, s, e, last)
    ensures sc.cursor >= e ==> !CutShort(obj, s, e, last) && LinesFrom(obj, sc.cursor, e) == []
    ensures sc.cursor < e && last + 1 == |obj| ==>
              && sc.cursor < |obj| && sc.buffer == obj[sc.cursor..LineEnd(obj, sc.cursor)] && LineEnd(obj, sc.cursor) == |obj|
  {
    if sc.cursor < e {
      assert IsLineStart(obj, sc.cursor);
    }
  }

  lemma ClosesAfter(a: seq<ResultBatch>, b: seq<ResultBatch>, summary: Item)
    requires ClosesWith(b, summary)
    ensures ClosesWith(a + b, summary)
  {
  }

  // No line of the shard starts in the object.
  lemma NoLine(obj: seq<Octet>, s: nat, e: nat, last: nat)
    requires s <= |obj| && FirstStart(obj, s) >= e
    ensures !CutShort(obj, s, e, last)
  {
  }

  // The batches after the stream loop: the last unterminated line, then the end.
  method Settle(cfg: Config, lease: Lease, reducer: WitnessReducer, s: nat, e: nat, sc: Scan, last: nat, total: nat, ghost obj: seq<Octet>)
    returns (yielded: seq<ResultBatch>, error: Option<HarvestError>)
    requires s < e <= last + 1 <= total == |obj|
    requires Scanning(cfg, obj, s, e, lease, sc, reducer.State(), last + 1)
             || (!sc.ready && sc.cursor >= e && FirstStart(obj, s) >= e && OnTrack(cfg, obj, s, e, lease, sc.b, reducer.State(), FirstStart(obj, s)))
    modifies reducer
    ensures error.None? ==> !CutShort(obj, s, e, last) && Carry(yielded, lease, lease.nextSeq, Parcels(cfg, obj, s, e))
                            && ClosesWith(yielded, Summary(|Records(cfg, ShardLines(obj, s, e))|, sc.bytesRead, 1))
    ensures error.Some? ==> error.value == EndsInsideRecord && CutShort(obj, s, e, last) && Front(cfg, obj, s, e, lease, yielded)
  {
    hide OnTrack, Carry, Front, ClosesWith, Records, ShardLines, Parcels;
    var b := sc.b;
    ghost var at := Position(obj, s, sc);
    if sc.ready || sc.cursor < e {
      EndOfScan(cfg, obj, s, e, lease, sc, reducer.State(), last);
    } else if FirstStart(obj, s) >= e {
      NoLine(obj, s, e, last);
    }
    if sc.cursor < e && sc.ready {
      if last == total - 1 {
        b := DrainLine(cfg, lease, reducer, b, sc.buffer, sc.cursor, e, obj, s);
        at := |obj|;
      } else {
        TrackIsFront(cfg, obj, s, e, lease, b, reducer.State(), at);
        return b.yielded, Some(EndsInsideRecord);
      }
    }
    ghost var before := reducer.State();
    var tail := CloseBatches(cfg, lease, reducer, b, Summary(b.records, sc.bytesRead, 1));
    ClosedOnTrack(cfg, obj, s, e, lease, b, before, at, tail);
    ClosesAfter(b.yielded, tail, Summary(b.records, sc.bytesRead, 1));
    return b.yielded + tail, None;
  }

  // Streams one leased shard. `obj` is the object behind the identity the work
  // is bound to; `response` is what the server answers to the range request.
  method RunProducer(lease: Lease, cfg: Config, byteStart: nat, e: nat, size: nat, hasValidator: bool, response: Response, ghost obj: seq<Octet>)
    returns (yielded: seq<ResultBatch>, error: Option<HarvestError>)
    requires Honest(response, obj, size)
    ensures error == Some(BadTarget) <==> !(1024 <= cfg.target <= 8388608)
    ensures var s := StartOf(lease.cursor, byteStart);
            1024 <= cfg.target <= 8388608 ==>
              if s >= e then
                error.None? && |yielded| == 1 && Carried(yielded[0], lease.task, lease.generation, lease.nextSeq, Parcel([], None, true))
                && ClosesWith(yielded, Summary(0, 0, 0))
              else
                var refused := Validated(response.status, hasValidator, response.range, s, e, RequestEnd(e, cfg.boundaryMax, size), response.sameObject);
                if refused.Some? then error == refused && yielded == []
                else
                  && Explains(obj, s, e, cfg, response, error)
                  && (if error.None? then
                        && s <= |obj| && Carry(yielded, lease, lease.nextSeq, Parcels(cfg, obj, s, e))
                        && exists n :: ReadBytes(obj, s, e, response.chunks, n)
                                       && ClosesWith(yielded, Summary(|Records(cfg, ShardLines(obj, s, e))|, n, 1))
                      else Front(cfg, obj, s, e, lease, yielded))
  {
    hide OnTrack, Between, Exposed;
    yielded, error := [], None;
    if !(MIN_TARGET <= cfg.target <= MAX_TARGET) {
      return [], Some(BadTarget);
    }
    var s := StartOf(lease.cursor, byteStart);
    if s >= e {
      return [ResultBatch(lease.task, lease.generation, lease.nextSeq, [Summary(0, 0, 0)], "", None, true)], None;
    }
    error := Validated(response.status, hasValidator, response.range, s, e, RequestEnd(e, cfg.boundaryMax, size), response.sameObject);
    if error.Some? {
      return;
    }
    var range := response.range.value;
    var reducer := new WitnessReducer();
    var sc;
    sc, error := Stream(cfg, lease, reducer, s, e, response.chunks, obj, range.last);
    if error.Some? {
      TrackIsFront(cfg, obj, s, e, lease, sc.b, reducer.State(), Position(obj, s, sc));
      return sc.b.yielded, error;
    }
    yielded, error := Settle(cfg, lease, reducer, s, e, sc, range.last, range.total, obj);
  }
}
