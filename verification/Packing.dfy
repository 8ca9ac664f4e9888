// How the harvester packs finished host groups into batches with resume
// cursors, and why resuming at any published cursor loses nothing.
module Packing {
  import opened Base
  import opened Wire
  import opened Lines
  import opened HostYear

  // What a shard's payload and the code around it fix: the line parser, the
  // serialized size of a group, and the limits.
  datatype Config = Config(
    parse: (seq<Octet>, nat) -> Option<Record>,
    size: Group -> nat,
    target: nat,
    groupLimit: nat,
    boundaryMax: nat)

  // A batch as far as resumption is concerned; the summary item is not part.
  datatype Parcel = Parcel(groups: seq<Group>, cursor: Option<nat>, final: bool)

  datatype Pack = Pack(reducer: Reduction, pending: seq<Group>, bytes: nat, after: Option<nat>)

  function Fresh(reducer: Reduction): Pack {
    Pack(reducer, [], 0, None)
  }

  predicate Overflows(cfg: Config, p: Pack, item: Group) {
    p.pending != [] && p.bytes + cfg.size(item) > cfg.target
  }

  // Flush before an item that would cross the byte target, append it, and, on
  // lines that end in a newline, flush a batch that is full by count.
  function Offer(cfg: Config, p: Pack, item: Group, at: nat, capped: bool): (Pack, seq<Parcel>) {
    var early := if Overflows(cfg, p, item) then [Parcel(p.pending, p.after, false)] else [];
    var q := if Overflows(cfg, p, item) then Fresh(p.reducer) else p;
    var pending := q.pending + [item];
    if capped && |pending| >= cfg.groupLimit
    then (Fresh(p.reducer), early + [Parcel(pending, Some(at), false)])
    else (Pack(p.reducer, pending, q.bytes + cfg.size(item), Some(at)), early)
  }

  function TakeLine(cfg: Config, p: Pack, line: Line): (Pack, seq<Parcel>) {
    match cfg.parse(line.raw, line.start)
    case None => (p, [])
    case Some(r) =>
      var (reducer, group) := Feed(p.reducer, r);
      match group
      case None => (p.(reducer := reducer), [])
      case Some(item) => Offer(cfg, p.(reducer := reducer), item, line.start, Terminated(line))
  }

  function Close(cfg: Config, p: Pack): seq<Parcel> {
    match Emit(p.reducer)
    case None => [Parcel(p.pending, None, true)]
    case Some(item) =>
      if Overflows(cfg, p, item)
      then [Parcel(p.pending, p.after, false), Parcel([item], None, true)]
      else [Parcel(p.pending + [item], None, true)]
  }

  // All batches still to come.
  function Rest(cfg: Config, p: Pack, lines: seq<Line>): seq<Parcel>
    decreases |lines|
  {
    if lines == [] then Close(cfg, p)
    else TakeLine(cfg, p, lines[0]).1 + Rest(cfg, TakeLine(cfg, p, lines[0]).0, lines[1..])
  }

  // The batches of a run that nothing interrupts.
  function Parcels(cfg: Config, obj: seq<Octet>, s: nat, e: nat): seq<Parcel>
    requires s <= |obj|
  {
    Rest(cfg, Fresh(FRESH), ShardLines(obj, s, e))
  }

  // ----- contents: the batches carry exactly the groups of the shard's lines

  function Records(cfg: Config, lines: seq<Line>): seq<Record>
    decreases |lines|
  {
    if lines == [] then [] else
    var r := cfg.parse(lines[0].raw, lines[0].start);
    (if r.Some? then [r.value] else []) + Records(cfg, lines[1..])
  }

  function Contents(parcels: seq<Parcel>): seq<Group> {
    if parcels == [] then [] else parcels[0].groups + Contents(parcels[1..])
  }

  lemma {:induction false} ContentsAppend(a: seq<Parcel>, b: seq<Parcel>)
    ensures Contents(a + b) == Contents(a) + Contents(b)
  {
    if a == [] {
      assert a + b == b;
    } else {
      assert (a + b)[1..] == a[1..] + b;
      ContentsAppend(a[1..], b);
    }
  }

  lemma ContentsOne(p: Parcel)
    ensures Contents([p]) == p.groups
  {
  }

  lemma ContentsTwo(p: Parcel, q: Parcel)
    ensures Contents([p, q]) == p.groups + q.groups
  {
    ContentsOne(q);
    assert [p, q][1..] == [q];
  }

  lemma OfferKeeps(cfg: Config, p: Pack, item: Group, at: nat, capped: bool)
    ensures Contents(Offer(cfg, p, item, at, capped).1) + Offer(cfg, p, item, at, capped).0.pending == p.pending + [item]
    ensures Offer(cfg, p, item, at, capped).0.reducer == p.reducer
  {
    var a, b := Parcel(p.pending, p.after, false), Parcel((if Overflows(cfg, p, item) then [] else p.pending) + [item], Some(at), false);
    ContentsOne(a);
    ContentsOne(b);
    ContentsTwo(a, b);
    assert [a] + [b] == [a, b] && [] + [b] == [b];
  }

  lemma ReducedStep(s: Reduction, r: Record, rs: seq<Record>)
    ensures Reduced(s, [r] + rs) == Emitted(Feed(s, r).1) + Reduced(Feed(s, r).0, rs)
  {
  }

  lemma TakeLineContents(cfg: Config, p: Pack, line: Line, rs: seq<Record>)
    ensures var (q, out) := TakeLine(cfg, p, line);
            var r := cfg.parse(line.raw, line.start);
            Contents(out) + q.pending + Reduced(q.reducer, rs)
            == p.pending + Reduced(p.reducer, (if r.Some? then [r.value] else []) + rs)
  {
    var r := cfg.parse(line.raw, line.start);
    if r.None? {
      assert [] + rs == rs;
    } else {
      ReducedStep(p.reducer, r.value, rs);
      var (reducer, group) := Feed(p.reducer, r.value);
      if group.Some? {
        OfferKeeps(cfg, p.(reducer := reducer), group.value, line.start, Terminated(line));
        Assoc(p.pending, [group.value], Reduced(reducer, rs));
      }
    }
  }

  lemma CloseContents(cfg: Config, p: Pack)
    ensures Contents(Close(cfg, p)) == p.pending + Emitted(Emit(p.reducer))
  {
    var item := Emit(p.reducer);
    ContentsOne(Parcel(p.pending, None, true));
    if item.Some? {
      ContentsOne(Parcel(p.pending + [item.value], None, true));
      ContentsTwo(Parcel(p.pending, p.after, false), Parcel([item.value], None, true));
    }
  }

  lemma {:induction false} RestContents(cfg: Config, p: Pack, lines: seq<Line>)
    ensures Contents(Rest(cfg, p, lines)) == p.pending + Reduced(p.reducer, Records(cfg, lines))
    decreases |lines|
  {
    if lines == [] {
      CloseContents(cfg, p);
    } else {
      var (q, out) := TakeLine(cfg, p, lines[0]);
      var rs := Records(cfg, lines[1..]);
      RestContents(cfg, q, lines[1..]);
      ContentsAppend(out, Rest(cfg, q, lines[1..]));
      TakeLineContents(cfg, p, lines[0], rs);
      Assoc(Contents(out), q.pending, Reduced(q.reducer, rs));
    }
  }

  // Nothing is lost, repeated or reordered between the lines and the batches.
  lemma ParcelsCarryTheGroups(cfg: Config, obj: seq<Octet>, s: nat, e: nat)
    requires s <= |obj|
    ensures Contents(Parcels(cfg, obj, s, e)) == GroupsOf(Filter(Records(cfg, ShardLines(obj, s, e))))
  {
    RestContents(cfg, Fresh(FRESH), ShardLines(obj, s, e));
    ReducerComputesGroups(Records(cfg, ShardLines(obj, s, e)));
  }

  // ----- sizes

  function Bytes(cfg: Config, groups: seq<Group>): nat {
    if groups == [] then 0 else Bytes(cfg, groups[..|groups| - 1]) + cfg.size(groups[|groups| - 1])
  }

  predicate Fits(cfg: Config, groups: seq<Group>) {
    Bytes(cfg, groups) <= cfg.target || |groups| == 1
  }

  // The counters of the packer are what they claim to be, and a cursor is at
  // hand whenever something is pending.
  predicate PackOk(cfg: Config, p: Pack) {
    && p.bytes == Bytes(cfg, p.pending)
    && (p.pending != [] ==> p.after.Some?)
    && Fits(cfg, p.pending)
  }

  predicate ParcelOk(cfg: Config, parcel: Parcel) {
    && Fits(cfg, parcel.groups)
    && (parcel.final <==> parcel.cursor.None?)
    && (!parcel.final ==> parcel.groups != [])
  }

  lemma OfferOk(cfg: Config, p: Pack, item: Group, at: nat, capped: bool)
    requires PackOk(cfg, p)
    ensures PackOk(cfg, Offer(cfg, p, item, at, capped).0)
    ensures AllOk(cfg, Offer(cfg, p, item, at, capped).1) && NoneFinal(Offer(cfg, p, item, at, capped).1)
  {
    hide Bytes;
    FreshOk(cfg, p.reducer);
    AppendOk(cfg, if Overflows(cfg, p, item) then Fresh(p.reducer) else p, item, at);
  }

  lemma FreshOk(cfg: Config, reducer: Reduction)
    ensures PackOk(cfg, Fresh(reducer))
  {
  }

  // Appending to a packer that has room.
  lemma AppendOk(cfg: Config, p: Pack, item: Group, at: nat)
    requires PackOk(cfg, p) && !Overflows(cfg, p, item)
    ensures PackOk(cfg, Pack(p.reducer, p.pending + [item], p.bytes + cfg.size(item), Some(at)))
  {
  }

  predicate NoneFinal(parcels: seq<Parcel>) {
    forall i :: 0 <= i < |parcels| ==> !parcels[i].final
  }

  predicate AllOk(cfg: Config, parcels: seq<Parcel>) {
    forall i :: 0 <= i < |parcels| ==> ParcelOk(cfg, parcels[i])
  }

  predicate LastIsFinal(parcels: seq<Parcel>) {
    parcels != [] && parcels[|parcels| - 1].final && NoneFinal(parcels[..|parcels| - 1])
  }

  lemma TakeLineOk(cfg: Config, p: Pack, line: Line)
    requires PackOk(cfg, p)
    ensures PackOk(cfg, TakeLine(cfg, p, line).0)
    ensures AllOk(cfg, TakeLine(cfg, p, line).1) && NoneFinal(TakeLine(cfg, p, line).1)
  {
    var r := cfg.parse(line.raw, line.start);
    if r.Some? && Feed(p.reducer, r.value).1.Some? {
      OfferOk(cfg, p.(reducer := Feed(p.reducer, r.value).0), Feed(p.reducer, r.value).1.value, line.start, Terminated(line));
    }
  }

  lemma CloseOk(cfg: Config, p: Pack)
    requires PackOk(cfg, p)
    ensures AllOk(cfg, Close(cfg, p)) && LastIsFinal(Close(cfg, p))
  {
    var item := Emit(p.reducer);
    if item.Some? {
      var q := if Overflows(cfg, p, item.value) then Fresh(p.reducer) else p;
      FreshOk(cfg, p.reducer);
      AppendOk(cfg, q, item.value, 0);
      assert [] + [item.value] == [item.value];
    }
    hide Bytes;
  }

  lemma JoinOk(cfg: Config, out: seq<Parcel>, rest: seq<Parcel>)
    requires AllOk(cfg, out) && NoneFinal(out) && AllOk(cfg, rest) && LastIsFinal(rest)
    ensures AllOk(cfg, out + rest) && LastIsFinal(out + rest)
  {
  }

  lemma {:induction false} RestOk(cfg: Config, p: Pack, lines: seq<Line>)
    requires PackOk(cfg, p)
    ensures AllOk(cfg, Rest(cfg, p, lines)) && LastIsFinal(Rest(cfg, p, lines))
    decreases |lines|
  {
    if lines == [] {
      CloseOk(cfg, p);
    } else {
      var (q, out) := TakeLine(cfg, p, lines[0]);
      TakeLineOk(cfg, p, lines[0]);
      RestOk(cfg, q, lines[1..]);
      JoinOk(cfg, out, Rest(cfg, q, lines[1..]));
    }
  }

  // Every batch fits the byte target or carries a single group; exactly the
  // last one is final, and every other one publishes a cursor.
  lemma ParcelsOk(cfg: Config, obj: seq<Octet>, s: nat, e: nat)
    requires s <= |obj|
    ensures AllOk(cfg, Parcels(cfg, obj, s, e)) && LastIsFinal(Parcels(cfg, obj, s, e))
  {
    RestOk(cfg, Fresh(FRESH), ShardLines(obj, s, e));
  }
}
