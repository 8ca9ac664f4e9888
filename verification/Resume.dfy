// Restarting at the cursor of any non-final batch reproduces all later batches.
module Resume {
  import opened Base
  import opened Wire
  import opened Lines
  import opened HostYear
  import opened Packing

  predicate ReducerOk(s: Reduction) {
    s.host.None? ==> s == FRESH
  }

  // A group comes out only when the hostname changes, and then the reducer
  // stands as if it had seen nothing but the current record.
  lemma EmissionRestarts(s: Reduction, r: Record)
    requires ReducerOk(s) && Feed(s, r).1.Some?
    ensures Feed(s, r).0 == Feed(FRESH, r).0 && Feed(FRESH, r).1.None?
  {
  }

  lemma StartsAt(obj: seq<Octet>, p: nat)
    requires IsLineStart(obj, p)
    ensures FirstStart(obj, p) == p
  {
  }

  predicate Emits(cfg: Config, p: Pack, line: Line) {
    var r := cfg.parse(line.raw, line.start);
    r.Some? && Feed(p.reducer, r.value).1.Some?
  }

  // Where a group comes out, the run that starts at this line takes the same
  // path from the next line on.
  lemma RestartHere(cfg: Config, obj: seq<Octet>, e: nat, p: Pack, at: nat)
    requires IsLineStart(obj, at) && at < e && ReducerOk(p.reducer)
    requires Emits(cfg, p, Line(at, obj[at..LineEnd(obj, at)]))
    ensures var q := TakeLine(cfg, p, Line(at, obj[at..LineEnd(obj, at)])).0;
            Parcels(cfg, obj, at, e) == Rest(cfg, Fresh(q.reducer), LinesFrom(obj, LineEnd(obj, at), e))
  {
    var line := Line(at, obj[at..LineEnd(obj, at)]);
    StartsAt(obj, at);
    FirstLine(obj, at, e, LineEnd(obj, at));
    EmissionRestarts(p.reducer, cfg.parse(line.raw, line.start).value);
  }

  // After an early flush the packer continues as if nothing had been pending.
  lemma EarlyFlush(cfg: Config, p: Pack, item: Group, at: nat, capped: bool)
    requires Overflows(cfg, p, item)
    ensures var (q, out) := Offer(cfg, p, item, at, capped);
            && out != [] && out[0] == Parcel(p.pending, p.after, false)
            && Offer(cfg, Fresh(p.reducer), item, at, capped) == (q, out[1..])
  {
    var early := [Parcel(p.pending, p.after, false)];
    assert forall rest: seq<Parcel> :: (early + rest)[1..] == rest;
    assert early[1..] == [];
    assert forall rest: seq<Parcel> :: [] + rest == rest;
  }

  // The parcel whose cursor was already at hand leaves a fresh packer behind.
  ghost predicate LeavesFresh(cfg: Config, p: Pack, lines: seq<Line>, all: seq<Parcel>, k: nat) {
    k == 0 && |all| > 0 && all[0].cursor == p.after && all[1..] == Rest(cfg, Fresh(p.reducer), lines)
  }

  // Restarting at the cursor of parcel k gives parcels k + 1 onward.
  ghost predicate Reproduces(cfg: Config, obj: seq<Octet>, e: nat, all: seq<Parcel>, k: nat, low: nat) {
    && k < |all| && all[k].cursor.Some?
    && low <= all[k].cursor.value < e
    && IsLineStart(obj, all[k].cursor.value)
    && all[k + 1..] == Parcels(cfg, obj, all[k].cursor.value, e)
  }

  lemma CloseResumes(cfg: Config, p: Pack, k: nat)
    requires k < |Close(cfg, p)| && !Close(cfg, p)[k].final
    ensures LeavesFresh(cfg, p, [], Close(cfg, p), k)
  {
    var item := Emit(p.reducer).value;
    assert [] + [item] == [item];
  }

  lemma QuietLine(cfg: Config, p: Pack, line: Line)
    requires !Emits(cfg, p, line)
    ensures var (q, out) := TakeLine(cfg, p, line);
            && out == [] && q == p.(reducer := q.reducer)
            && TakeLine(cfg, Fresh(p.reducer), line) == (Fresh(q.reducer), [])
  {
  }

  // A parcel that comes out of this very line.
  lemma FlushResumes(cfg: Config, obj: seq<Octet>, e: nat, p: Pack, at: nat, k: nat)
    requires IsLineStart(obj, at) && at < e && ReducerOk(p.reducer)
    requires k < |TakeLine(cfg, p, Line(at, obj[at..LineEnd(obj, at)])).1|
    ensures var all := Rest(cfg, p, LinesFrom(obj, at, e));
            LeavesFresh(cfg, p, LinesFrom(obj, at, e), all, k) || Reproduces(cfg, obj, e, all, k, at)
  {
    var line, n := Line(at, obj[at..LineEnd(obj, at)]), LineEnd(obj, at);
    FirstLine(obj, at, e, n);
    var (q, out) := TakeLine(cfg, p, line);
    var rest := Rest(cfg, q, LinesFrom(obj, n, e));
    var item := Feed(p.reducer, cfg.parse(line.raw, line.start).value).1.value;
    if k == 0 && Overflows(cfg, p.(reducer := q.reducer), item) {
      EarlyFlush(cfg, p.(reducer := q.reducer), item, at, Terminated(line));
      DropFront(out, rest, 1);
    } else {
      RestartHere(cfg, obj, e, p, at);
      DropFront(out, rest, k + 1);
    }
  }

  // A parcel of a later line, given what the rest of the run does.
  lemma LaterResumes(cfg: Config, obj: seq<Octet>, e: nat, p: Pack, at: nat, k: nat)
    requires IsLineStart(obj, at) && at < e && ReducerOk(p.reducer)
    requires var (q, out) := TakeLine(cfg, p, Line(at, obj[at..LineEnd(obj, at)]));
             var rest := Rest(cfg, q, LinesFrom(obj, LineEnd(obj, at), e));
             && |out| <= k < |out| + |rest|
             && rest[k - |out|].cursor.Some?
             && (LeavesFresh(cfg, q, LinesFrom(obj, LineEnd(obj, at), e), rest, k - |out|)
                 || Reproduces(cfg, obj, e, rest, k - |out|, LineEnd(obj, at)))
    ensures var all := Rest(cfg, p, LinesFrom(obj, at, e));
            LeavesFresh(cfg, p, LinesFrom(obj, at, e), all, k) || Reproduces(cfg, obj, e, all, k, at)
    ensures var all := Rest(cfg, p, LinesFrom(obj, at, e));
            p == Fresh(FRESH) ==> Reproduces(cfg, obj, e, all, k, at + 1)
  {
    var line, n := Line(at, obj[at..LineEnd(obj, at)]), LineEnd(obj, at);
    FirstLine(obj, at, e, n);
    var (q, out) := TakeLine(cfg, p, line);
    var rest := Rest(cfg, q, LinesFrom(obj, n, e));
    assert (out + rest)[k] == rest[k - |out|];
    assert (out + rest)[k + 1..] == rest[k - |out| + 1..];
    if Emits(cfg, p, line) {
      RestartHere(cfg, obj, e, p, at);
    } else {
      QuietLine(cfg, p, line);
    }
  }

  ghost predicate Resumes(cfg: Config, obj: seq<Octet>, e: nat, p: Pack, at: nat, k: nat)
    requires at <= |obj|
  {
    var all := Rest(cfg, p, LinesFrom(obj, at, e));
    && (LeavesFresh(cfg, p, LinesFrom(obj, at, e), all, k) || Reproduces(cfg, obj, e, all, k, at))
    && (p == Fresh(FRESH) ==> Reproduces(cfg, obj, e, all, k, at + 1))
  }

  lemma FreshIsQuiet(cfg: Config, line: Line)
    ensures TakeLine(cfg, Fresh(FRESH), line).1 == []
  {
  }

  lemma LineKeepsOk(cfg: Config, p: Pack, line: Line)
    requires PackOk(cfg, p) && ReducerOk(p.reducer)
    ensures PackOk(cfg, TakeLine(cfg, p, line).0) && ReducerOk(TakeLine(cfg, p, line).0.reducer)
  {
  }

  lemma NonFinalHasCursor(cfg: Config, p: Pack, lines: seq<Line>, k: nat)
    requires PackOk(cfg, p) && k < |Rest(cfg, p, lines)| && !Rest(cfg, p, lines)[k].final
    ensures Rest(cfg, p, lines)[k].cursor.Some?
  {
    RestOk(cfg, p, lines);
    assert ParcelOk(cfg, Rest(cfg, p, lines)[k]);
  }

  lemma {:induction false} RestResumes(cfg: Config, obj: seq<Octet>, e: nat, p: Pack, at: nat, k: nat)
    requires at <= |obj| && (at < |obj| ==> IsLineStart(obj, at)) && ReducerOk(p.reducer) && PackOk(cfg, p)
    requires k < |Rest(cfg, p, LinesFrom(obj, at, e))| && !Rest(cfg, p, LinesFrom(obj, at, e))[k].final
    ensures Resumes(cfg, obj, e, p, at, k)
    decreases |obj| - at
  {
    NonFinalHasCursor(cfg, p, LinesFrom(obj, at, e), k);
    if at >= e || at >= |obj| {
      CloseResumes(cfg, p, k);
    } else {
      var line, n := Line(at, obj[at..LineEnd(obj, at)]), LineEnd(obj, at);
      FirstLine(obj, at, e, n);
      NextStart(obj, at);
      var (q, out) := TakeLine(cfg, p, line);
      LineKeepsOk(cfg, p, line);
      if k < |out| {
        FreshIsQuiet(cfg, line);
        FlushResumes(cfg, obj, e, p, at, k);
      } else {
        RestResumes(cfg, obj, e, q, n, k - |out|);
        NonFinalHasCursor(cfg, q, LinesFrom(obj, n, e), k - |out|);
        LaterResumes(cfg, obj, e, p, at, k);
      }
    }
  }

  // Resumption has no memory: the run that starts at the cursor of batch k
  // yields batches k + 1 onward, and that cursor is a line start inside the
  // shard, beyond the place the run itself started from.
  lemma ResumeIsMemoryless(cfg: Config, obj: seq<Octet>, s: nat, e: nat, k: nat)
    requires s <= |obj| && k < |Parcels(cfg, obj, s, e)| && !Parcels(cfg, obj, s, e)[k].final
    ensures var all := Parcels(cfg, obj, s, e);
            && all[k].cursor.Some?
            && s < all[k].cursor.value < e && IsLineStart(obj, all[k].cursor.value)
            && all[k + 1..] == Parcels(cfg, obj, all[k].cursor.value, e)
  {
    RestResumes(cfg, obj, e, Fresh(FRESH), FirstStart(obj, s), k);
  }

  // Published cursors strictly increase.
  lemma CursorsIncrease(cfg: Config, obj: seq<Octet>, s: nat, e: nat, k: nat)
    requires s <= |obj| && k + 1 < |Parcels(cfg, obj, s, e)| && !Parcels(cfg, obj, s, e)[k + 1].final
    ensures var all := Parcels(cfg, obj, s, e);
            all[k].cursor.Some? && all[k + 1].cursor.Some? && all[k].cursor.value < all[k + 1].cursor.value
  {
    ParcelsOk(cfg, obj, s, e);
    var all := Parcels(cfg, obj, s, e);
    assert !all[..|all| - 1][k].final;
    ResumeIsMemoryless(cfg, obj, s, e, k);
    assert all[k + 1] == Parcels(cfg, obj, all[k].cursor.value, e)[0];
    ResumeIsMemoryless(cfg, obj, all[k].cursor.value, e, 0);
  }
}
