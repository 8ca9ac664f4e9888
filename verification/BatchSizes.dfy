// How many groups a batch holds, and why it was closed when it was.
module BatchSizes {
  import opened Base
  import opened Wire
  import opened Lines
  import opened HostYear
  import opened Packing

  // The group behind this batch would have carried it over the byte target.
  predicate Crosses(cfg: Config, parcel: Parcel, next: Parcel) {
    next.groups != [] && Bytes(cfg, parcel.groups) + cfg.size(next.groups[0]) > cfg.target
  }

  // A batch that is neither full nor last was closed because the next group
  // did not fit.
  predicate ClosedForCause(cfg: Config, parcels: seq<Parcel>) {
    forall i :: 0 <= i < |parcels| && !parcels[i].final && |parcels[i].groups| < cfg.groupLimit ==>
      i + 1 < |parcels| && Crosses(cfg, parcels[i], parcels[i + 1])
  }

  predicate AtMost(parcels: seq<Parcel>, limit: nat, finalLimit: nat) {
    forall i :: 0 <= i < |parcels| ==> |parcels[i].groups| <= if parcels[i].final then finalLimit else limit
  }

  // Only the last of these lines may lack its newline.
  predicate Ended(lines: seq<Line>) {
    forall i :: 0 <= i < |lines| - 1 ==> Terminated(lines[i])
  }

  predicate AllEnded(lines: seq<Line>) {
    forall i :: 0 <= i < |lines| ==> Terminated(lines[i])
  }

  lemma {:induction false} ShardLinesEnded(obj: seq<Octet>, p: nat, e: nat)
    requires p <= |obj|
    ensures Ended(LinesFrom(obj, p, e))
    decreases |obj| - p
  {
    if p < e && p < |obj| {
      var n := LineEnd(obj, p);
      ShardLinesEnded(obj, n, e);
      var first, rest := Line(p, obj[p..n]), LinesFrom(obj, n, e);
      if rest != [] { assert obj[p..n][n - p - 1] == obj[n - 1]; }
      assert LinesFrom(obj, p, e) == [first] + rest;
    }
  }

  // Room is left while lines end in a newline.
  predicate HasRoom(cfg: Config, p: Pack) {
    |p.pending| < cfg.groupLimit && p.bytes == Bytes(cfg, p.pending)
  }

  // The next batch to come begins with what is pending.
  lemma {:induction false} PendingComesNext(cfg: Config, p: Pack, lines: seq<Line>)
    ensures var all := Rest(cfg, p, lines); all != [] && p.pending <= all[0].groups
    decreases |lines|
  {
    if lines != [] {
      var (q, out) := TakeLine(cfg, p, lines[0]);
      PendingComesNext(cfg, q, lines[1..]);
      assert out == [] ==> p.pending <= q.pending;
    }
  }

  // What a step may put out and leave pending.
  predicate StepSizes(cfg: Config, q: Pack, out: seq<Parcel>, room: nat) {
    && q.bytes == Bytes(cfg, q.pending) && |q.pending| <= room
    && AtMost(out, cfg.groupLimit, 0) && NoneFinal(out)
    && |out| <= 2 && (|out| == 2 ==> |out[1].groups| >= cfg.groupLimit)
    && (out != [] && |out[0].groups| < cfg.groupLimit ==>
          if |out| == 2 then Crosses(cfg, out[0], out[1])
          else q.pending != [] && Bytes(cfg, out[0].groups) + cfg.size(q.pending[0]) > cfg.target)
  }

  lemma OfferSizes(cfg: Config, p: Pack, item: Group, at: nat, capped: bool)
    requires cfg.groupLimit >= 1 && HasRoom(cfg, p)
    ensures var (q, out) := Offer(cfg, p, item, at, capped);
            StepSizes(cfg, q, out, if capped then cfg.groupLimit - 1 else cfg.groupLimit)
  {
    assert Bytes(cfg, []) == 0;
    hide Bytes;
    if Overflows(cfg, p, item) {
      OneMoreSize(cfg, [], item);
      AfterEarly(cfg, p, item, at, capped);
    } else {
      OneMoreSize(cfg, p.pending, item);
    }
  }

  lemma AfterEarly(cfg: Config, p: Pack, item: Group, at: nat, capped: bool)
    requires cfg.groupLimit >= 1 && HasRoom(cfg, p) && Overflows(cfg, p, item)
    requires Bytes(cfg, [] + [item]) == cfg.size(item) && Bytes(cfg, []) == 0
    ensures var (q, out) := Offer(cfg, p, item, at, capped);
            StepSizes(cfg, q, out, if capped then cfg.groupLimit - 1 else cfg.groupLimit)
  {
    hide Bytes;
    var early, full := Parcel(p.pending, p.after, false), Parcel([] + [item], Some(at), false);
    var (q, out) := Offer(cfg, p, item, at, capped);
    assert out == if capped && 1 >= cfg.groupLimit then [early, full] else [early];
  }

  // What one line adds, and what is pending after it.
  lemma LineSizes(cfg: Config, p: Pack, line: Line)
    requires cfg.groupLimit >= 1 && HasRoom(cfg, p)
    ensures var (q, out) := TakeLine(cfg, p, line);
            StepSizes(cfg, q, out, if Terminated(line) then cfg.groupLimit - 1 else cfg.groupLimit)
  {
    var r := cfg.parse(line.raw, line.start);
    if r.Some? {
      var (reducer, item) := Feed(p.reducer, r.value);
      if item.Some? { OfferSizes(cfg, p.(reducer := reducer), item.value, line.start, Terminated(line)); }
    }
  }

  lemma OneMoreSize(cfg: Config, groups: seq<Group>, item: Group)
    ensures Bytes(cfg, groups + [item]) == Bytes(cfg, groups) + cfg.size(item)
  {
    assert (groups + [item])[..|groups|] == groups;
  }

  lemma CloseSizes(cfg: Config, p: Pack, room: nat)
    requires p.bytes == Bytes(cfg, p.pending) && |p.pending| <= room <= cfg.groupLimit && cfg.groupLimit >= 1
    ensures AtMost(Close(cfg, p), cfg.groupLimit, room + 1) && ClosedForCause(cfg, Close(cfg, p))
  {
  }

  lemma JoinSizes(cfg: Config, out: seq<Parcel>, rest: seq<Parcel>, limit: nat)
    requires AtMost(out, cfg.groupLimit, 0) && NoneFinal(out) && AtMost(rest, cfg.groupLimit, limit)
    requires ClosedForCause(cfg, rest) && rest != []
    requires |out| <= 2 && (|out| == 2 ==> |out[1].groups| >= cfg.groupLimit)
    requires out != [] && |out[0].groups| < cfg.groupLimit ==> Crosses(cfg, out[0], if |out| == 2 then out[1] else rest[0])
    ensures AtMost(out + rest, cfg.groupLimit, limit) && ClosedForCause(cfg, out + rest)
  {
    if |out| == 1 {
      JoinOne(cfg, out[0], rest, limit);
      assert out == [out[0]];
    } else if |out| == 2 {
      JoinOne(cfg, out[1], rest, limit);
      JoinOne(cfg, out[0], [out[1]] + rest, limit);
      assert out + rest == [out[0]] + ([out[1]] + rest);
    } else {
      assert out + rest == rest;
    }
  }

  lemma JoinOne(cfg: Config, x: Parcel, rest: seq<Parcel>, limit: nat)
    requires !x.final && |x.groups| <= cfg.groupLimit && AtMost(rest, cfg.groupLimit, limit)
    requires ClosedForCause(cfg, rest) && rest != [] && (|x.groups| < cfg.groupLimit ==> Crosses(cfg, x, rest[0]))
    ensures AtMost([x] + rest, cfg.groupLimit, limit) && ClosedForCause(cfg, [x] + rest)
  {
    hide Crosses;
    var all := [x] + rest;
    forall i | 0 < i < |all| && !all[i].final && |all[i].groups| < cfg.groupLimit
      ensures i + 1 < |all| && Crosses(cfg, all[i], all[i + 1])
    {
      assert all[i] == rest[i - 1];
      assert all[i + 1] == rest[i];
    }
  }

  lemma {:induction false} RestSizes(cfg: Config, p: Pack, lines: seq<Line>)
    requires cfg.groupLimit >= 1 && HasRoom(cfg, p) && Ended(lines)
    ensures ClosedForCause(cfg, Rest(cfg, p, lines))
    ensures AtMost(Rest(cfg, p, lines), cfg.groupLimit, if AllEnded(lines) then cfg.groupLimit else cfg.groupLimit + 1)
    decreases |lines|
  {
    if lines == [] {
      CloseSizes(cfg, p, cfg.groupLimit - 1);
    } else {
      var (q, out) := TakeLine(cfg, p, lines[0]);
      LineSizes(cfg, p, lines[0]);
      var later := lines[1..];
      var rest := Rest(cfg, q, later);
      PendingComesNext(cfg, q, later);
      if later == [] && !Terminated(lines[0]) {
        CloseSizes(cfg, q, cfg.groupLimit);
        JoinSizes(cfg, out, rest, cfg.groupLimit + 1);
      } else {
        assert Ended(later) && (AllEnded(lines) <==> AllEnded(later)) by {
          assert Terminated(lines[0]);
          assert forall i :: 0 <= i < |later| ==> later[i] == lines[i + 1];
          assert forall i :: 0 < i < |lines| ==> lines[i] == later[i - 1];
        }
        RestSizes(cfg, q, later);
        JoinSizes(cfg, out, rest, if AllEnded(lines) then cfg.groupLimit else cfg.groupLimit + 1);
      }
    }
  }

  // In the batches of a shard: none but the last holds more groups than the
  // limit, the last holds at most one more and only if the object ends without
  // a newline inside the shard, and a batch that is neither full nor last is
  // followed by a group that would have carried it over the byte target.
  lemma BatchesAreFull(cfg: Config, obj: seq<Octet>, s: nat, e: nat)
    requires s <= |obj| && cfg.groupLimit >= 1
    ensures var parcels := Parcels(cfg, obj, s, e);
            && (forall i :: 0 <= i < |parcels| ==>
                  |parcels[i].groups| <= cfg.groupLimit
                    + (if parcels[i].final && !AllEnded(ShardLines(obj, s, e)) then 1 else 0))
            && (forall i :: 0 <= i < |parcels| && !parcels[i].final && |parcels[i].groups| < cfg.groupLimit ==>
                  && i + 1 < |parcels| && parcels[i + 1].groups != []
                  && Bytes(cfg, parcels[i].groups) + cfg.size(parcels[i + 1].groups[0]) > cfg.target)
  {
    ShardLinesEnded(obj, FirstStart(obj, s), e);
    RestSizes(cfg, Fresh(FRESH), ShardLines(obj, s, e));
  }
}
