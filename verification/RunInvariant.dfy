// What every run of the authority keeps, proved one task at a time.
module RunInvariant {
  import opened Base
  import opened Wire
  import opened LeaseTables
  import opened Runs

  // ----- the invariant

  function CursorAt(log: seq<ResultBatch>, n: nat): Option<Cursor>
    requires n <= |log|
  {
    if n == 0 then None else log[n - 1].cursorAfter
  }

  predicate RowOk(workers: map<Id, Worker>, released: set<(Id, nat)>, t: Id, row: WorkRow) {
    && row.generation == row.attempt <= row.work.maxAttempts
    && (row.state.Leased? ==> Current(workers, row) && row.generation >= 1)
    && (!row.state.Leased? ==> row.owner.None? && row.instance.None? && row.deadline.None?)
    && (!row.state.Complete? ==> WorkKeyOf(row.work) == row.key)
    && (row.state.Pending? || row.state.Retry? ==> row.generation == 0 || (t, row.generation) in released)
  }

  predicate LogOk(row: WorkRow, t: Id, log: seq<ResultBatch>) {
    && |log| == row.nextSeq
    && (forall i :: 0 <= i < |log| ==> log[i].task == t && log[i].seqNo == i && 1 <= log[i].generation <= row.generation)
    && (forall i, j :: 0 <= i < j < |log| ==> log[i].generation <= log[j].generation && !log[i].final)
    && (|log| > 0 && log[|log| - 1].final ==> row.state.Complete?)
    && (!row.state.Complete? ==> row.cursor == CursorAt(log, |log|))
  }

  predicate IssuedOk(row: WorkRow, log: seq<ResultBatch>, m: Lease) {
    && 1 <= m.generation <= row.generation
    && m.nextSeq <= |log| && m.cursor == CursorAt(log, m.nextSeq)
    && WorkKeyOf(m.work) == m.key == row.key
    && (m.generation == row.generation && row.state.Leased? ==> row.owner == Some(m.worker) && row.instance == Some(m.instance))
  }

  predicate Sole(a: WorkRow, b: WorkRow, clock: real) {
    a.state.Leased? && b.state.Leased? && a.owner == b.owner && a.deadline.Some? && b.deadline.Some? ==>
      a.deadline.value <= clock || b.deadline.value <= clock
  }

  ghost predicate RowsOk(w: World) {
    forall t :: t in w.ledger.work ==> RowOk(w.ledger.workers, w.released, t, w.ledger.work[t])
  }

  ghost predicate KeysUnique(w: World) {
    forall t, u :: t in w.ledger.work && u in w.ledger.work && t != u ==> w.ledger.work[t].key != w.ledger.work[u].key
  }

  ghost predicate SoleLeases(w: World) {
    forall t, u :: t in w.ledger.work && u in w.ledger.work && t != u ==> Sole(w.ledger.work[t], w.ledger.work[u], w.clock)
  }

  ghost predicate LogsOk(w: World) {
    && (forall t :: t in w.log ==> t in w.ledger.work)
    && (forall t :: t in w.ledger.work ==> LogOk(w.ledger.work[t], t, w.Log(t)))
  }

  ghost predicate InboxOk(w: World) {
    forall id :: id in w.ledger.batches ==>
      && id.seqNo < |w.Log(id.task)|
      && w.ledger.batches[id].batch == w.Log(id.task)[id.seqNo]
      && w.ledger.batches[id].batch.Key() == id
  }

  ghost predicate AllIssuedOk(w: World) {
    forall m :: m in w.issued ==> m.task in w.ledger.work && IssuedOk(w.ledger.work[m.task], w.Log(m.task), m)
  }

  predicate CountOk(w: World, t: Id) {
    if t in w.ledger.work
    then w.claims[t] == w.ledger.work[t].attempt && w.allowance[t] == w.ledger.work[t].work.maxAttempts
    else w.claims[t] == 0 && w.allowance[t] == 0
  }

  ghost predicate CountsOk(w: World) {
    forall t :: CountOk(w, t)
  }

  ghost predicate Inv(w: World) {
    && RowsOk(w) && KeysUnique(w) && SoleLeases(w) && LogsOk(w) && InboxOk(w) && AllIssuedOk(w) && CountsOk(w)
  }

  // ----- each move keeps the invariant of its row

  function Appended(log: seq<ResultBatch>, mv: Move): seq<ResultBatch> {
    match mv
    case Advance(b) => log + [b]
    case _ => log
  }

  lemma {:induction false} LogMove(mv: Move, t: Id, row: WorkRow, row': WorkRow, log: seq<ResultBatch>, now: real)
    requires Moves(mv, t, row, row', now) && LogOk(row, t, log)
    requires row.state.Leased? ==> row.generation >= 1
    ensures LogOk(row', t, Appended(log, mv))
  {
    if mv.Advance? { LogAdvance(mv.batch, t, row, row', log, now); } else { LogStays(mv, t, row, row', log, now); }
  }

  lemma LogAdvance(b: ResultBatch, t: Id, row: WorkRow, row': WorkRow, log: seq<ResultBatch>, now: real)
    requires Moves(Advance(b), t, row, row', now) && LogOk(row, t, log) && row.generation >= 1
    ensures LogOk(row', t, log + [b])
  {
  }

  lemma LogStays(mv: Move, t: Id, row: WorkRow, row': WorkRow, log: seq<ResultBatch>, now: real)
    requires Moves(mv, t, row, row', now) && !mv.Advance? && LogOk(row, t, log)
    ensures LogOk(row', t, log)
  {
  }

  lemma IssuedMove(mv: Move, t: Id, row: WorkRow, row': WorkRow, log: seq<ResultBatch>, now: real, m: Lease)
    requires Moves(mv, t, row, row', now) && LogOk(row, t, log) && IssuedOk(row, log, m)
    ensures IssuedOk(row', Appended(log, mv), m)
  {
  }

  // Two rows of which at most one is touched keep at most one unexpired lease
  // per owner; a grant goes to an incarnation that had none.
  lemma SoleMove(mvA: Move, t: Id, a: WorkRow, a': WorkRow, mvB: Move, u: Id, b: WorkRow, b': WorkRow, clock: real, now: real)
    requires clock <= now && Sole(a, b, clock)
    requires Moves(mvA, t, a, a', now) && Moves(mvB, u, b, b', now) && Passive(mvB)
    requires mvA.Grant? && b.state.Leased? && b.owner == a'.owner ==> !Unexpired(b, now)
    ensures Sole(a', b', now) && Sole(b', a', now)
  {
  }

  lemma RowKeeps(w: World, e: Timed, t: Id)
    requires Legal(w, e) && t in Next(w.ledger, e).work
    requires t in w.ledger.work ==> RowOk(w.ledger.workers, w.released, t, w.ledger.work[t])
    ensures RowOk(Next(w.ledger, e).workers, Step(w, e).released, t, Next(w.ledger, e).work[t])
  {
    if t !in w.ledger.work {
      OnlyAdmitAdds(w.ledger, e, t);
    } else {
      EveryMove(w, e, t);
      var mv := MoveOf(w.ledger, e, t);
      if mv.Grant? {
        GrantedCurrent(w.ledger, e, t);
      } else if w.ledger.work[t].state.Leased? && !mv.Drop? {
        StillCurrent(w.ledger, e, t);
      }
    }
  }

  lemma LogStep(w: World, e: Timed, t: Id)
    requires t in w.ledger.work
    ensures Step(w, e).Log(t) == Appended(w.Log(t), MoveOf(w.ledger, e, t))
  {
  }

  lemma NoLogStep(w: World, e: Timed, t: Id)
    requires t !in w.ledger.work
    ensures Step(w, e).Log(t) == w.Log(t)
  {
  }

  lemma LogsKeep(w: World, e: Timed)
    requires Legal(w, e) && RowsOk(w) && LogsOk(w)
    ensures LogsOk(Step(w, e))
  {
    var l' := Next(w.ledger, e);
    forall t | t in l'.work ensures LogOk(l'.work[t], t, Step(w, e).Log(t)) {
      if t in w.ledger.work {
        EveryMove(w, e, t);
        LogStep(w, e, t);
        LogMove(MoveOf(w.ledger, e, t), t, w.ledger.work[t], l'.work[t], w.Log(t), e.now);
      } else {
        OnlyAdmitAdds(w.ledger, e, t);
        NoLogStep(w, e, t);
      }
    }
    forall t | t in Step(w, e).log ensures t in l'.work {
      LogDomain(w, e, t);
      EveryMove(w, e, t);
    }
  }

  lemma LogDomain(w: World, e: Timed, t: Id)
    requires t in Step(w, e).log && (t in w.log ==> t in w.ledger.work)
    ensures t in w.ledger.work
  {
  }

  lemma RowsKeep(w: World, e: Timed)
    requires Legal(w, e) && RowsOk(w)
    ensures RowsOk(Step(w, e))
  {
    forall t | t in Next(w.ledger, e).work
      ensures RowOk(Next(w.ledger, e).workers, Step(w, e).released, t, Next(w.ledger, e).work[t])
    {
      RowKeeps(w, e, t);
    }
  }

  lemma MovesKeepKey(mv: Move, t: Id, row: WorkRow, row': WorkRow, now: real)
    requires Moves(mv, t, row, row', now)
    ensures row'.key == row.key && row'.work.maxAttempts == row.work.maxAttempts
    ensures row'.attempt == row.attempt + (if mv.Grant? then 1 else 0)
  {
  }

  lemma NewKeyIsNew(w: World, e: Timed, t: Id, u: Id)
    requires Legal(w, e) && t !in w.ledger.work && t in Next(w.ledger, e).work && u in w.ledger.work
    ensures Next(w.ledger, e).work[t].key != w.ledger.work[u].key
  {
    OnlyAdmitAdds(w.ledger, e, t);
    assert !HasKey(w.ledger.work, u, WorkKeyOf(e.event.work));
  }

  lemma KeysKeep(w: World, e: Timed)
    requires Legal(w, e) && KeysUnique(w)
    ensures KeysUnique(Step(w, e))
  {
    var l, l' := w.ledger, Next(w.ledger, e);
    forall t, u | t in l'.work && u in l'.work && t != u ensures l'.work[t].key != l'.work[u].key {
      if t in l.work { EveryMove(w, e, t); MovesKeepKey(MoveOf(l, e, t), t, l.work[t], l'.work[t], e.now); }
      if u in l.work { EveryMove(w, e, u); MovesKeepKey(MoveOf(l, e, u), u, l.work[u], l'.work[u], e.now); }
      if t !in l.work && u in l.work { NewKeyIsNew(w, e, t, u); }
      if u !in l.work && t in l.work { NewKeyIsNew(w, e, u, t); }
      if u !in l.work && t !in l.work { OnlyAdmitAdds(l, e, t); OnlyAdmitAdds(l, e, u); }
    }
  }

  // A grant goes to an incarnation that holds no unexpired lease, and every
  // lease of that worker belongs to that incarnation.
  lemma GrantToIdle(w: World, e: Timed, t: Id, u: Id)
    requires Legal(w, e) && RowsOk(w) && t in w.ledger.work && u in w.ledger.work
    requires MoveOf(w.ledger, e, t).Grant? && t in Next(w.ledger, e).work
    requires w.ledger.work[u].state.Leased? && w.ledger.work[u].owner == Next(w.ledger, e).work[t].owner
    ensures !Unexpired(w.ledger.work[u], e.now)
  {
    assert RowOk(w.ledger.workers, w.released, u, w.ledger.work[u]);
    assert !HoldsActive(w.ledger.work[u], e.event.worker, e.event.instance, e.now);
  }

  lemma SoleKeep(w: World, e: Timed)
    requires Legal(w, e) && RowsOk(w) && SoleLeases(w)
    ensures SoleLeases(Step(w, e))
  {
    var l, l' := w.ledger, Next(w.ledger, e);
    forall t, u | t in l'.work && u in l'.work && t != u ensures Sole(l'.work[t], l'.work[u], e.now) {
      if t !in l.work { OnlyAdmitAdds(l, e, t); }
      else if u !in l.work { OnlyAdmitAdds(l, e, u); }
      else if Focus(l, e) != Some(u) { SolePair(w, e, t, u); }
      else { SolePair(w, e, u, t); }
    }
  }

  lemma SolePair(w: World, e: Timed, t: Id, u: Id)
    requires Legal(w, e) && RowsOk(w) && SoleLeases(w)
    requires t in w.ledger.work && u in w.ledger.work && t != u && Focus(w.ledger, e) != Some(u)
    ensures t in Next(w.ledger, e).work && u in Next(w.ledger, e).work
    ensures Sole(Next(w.ledger, e).work[t], Next(w.ledger, e).work[u], e.now)
    ensures Sole(Next(w.ledger, e).work[u], Next(w.ledger, e).work[t], e.now)
  {
    var l, l' := w.ledger, Next(w.ledger, e);
    EveryMove(w, e, t);
    EveryMove(w, e, u);
    if MoveOf(l, e, t).Grant? && l.work[u].state.Leased? && l.work[u].owner == l'.work[t].owner {
      GrantToIdle(w, e, t, u);
    }
    assert Sole(l.work[t], l.work[u], w.clock);
    SoleMove(MoveOf(l, e, t), t, l.work[t], l'.work[t], MoveOf(l, e, u), u, l.work[u], l'.work[u], w.clock, e.now);
  }

  lemma InboxKeep(w: World, e: Timed)
    requires Legal(w, e) && LogsOk(w) && InboxOk(w)
    ensures InboxOk(Step(w, e))
  {
    forall id | id in Next(w.ledger, e).batches
      ensures id.seqNo < |Step(w, e).Log(id.task)|
      ensures Next(w.ledger, e).batches[id].batch == Step(w, e).Log(id.task)[id.seqNo]
      ensures Next(w.ledger, e).batches[id].batch.Key() == id
    {
      BatchStep(w.ledger, e, id);
      if id in w.ledger.batches {
        LogGrows(w, e, id.task);
      } else {
        CommitExtends(w, e);
      }
    }
  }

  lemma LogGrows(w: World, e: Timed, t: Id)
    ensures w.Log(t) <= Step(w, e).Log(t)
  {
  }

  lemma CommitExtends(w: World, e: Timed)
    requires Accepts(w.ledger, e) && LogsOk(w)
    ensures var b := e.event.batch;
            |w.Log(b.task)| == b.seqNo && Step(w, e).Log(b.task) == w.Log(b.task) + [b]
  {
  }

  lemma IssuedKeep(w: World, e: Timed)
    requires Legal(w, e) && RowsOk(w) && LogsOk(w) && AllIssuedOk(w)
    requires RowsOk(Step(w, e)) && LogsOk(Step(w, e))
    ensures AllIssuedOk(Step(w, e))
  {
    var l, l' := w.ledger, Next(w.ledger, e);
    forall m | m in Step(w, e).issued ensures m.task in l'.work && IssuedOk(l'.work[m.task], Step(w, e).Log(m.task), m) {
      if m in w.issued {
        EveryMove(w, e, m.task);
        LogStep(w, e, m.task);
        IssuedMove(MoveOf(l, e, m.task), m.task, l.work[m.task], l'.work[m.task], w.Log(m.task), e.now, m);
      } else {
        AnswerIsRow(l, e);
        assert RowOk(l'.workers, Step(w, e).released, m.task, l'.work[m.task]);
      }
    }
  }

  lemma CountClaim(w: World, e: Timed, t: Id)
    ensures Step(w, e).claims[t] == w.claims[t] + if t in w.ledger.work && MoveOf(w.ledger, e, t).Grant? then 1 else 0
  {
  }

  lemma CountsKeep(w: World, e: Timed)
    requires Legal(w, e) && CountsOk(w)
    ensures CountsOk(Step(w, e))
  {
    var l, l' := w.ledger, Next(w.ledger, e);
    forall t ensures CountOk(Step(w, e), t) {
      assert CountOk(w, t);
      CountClaim(w, e, t);
      if t in l.work {
        EveryMove(w, e, t);
        MovesKeepKey(MoveOf(l, e, t), t, l.work[t], l'.work[t], e.now);
      } else if t in l'.work {
        OnlyAdmitAdds(l, e, t);
      }
    }
  }

  lemma StepKeeps(w: World, e: Timed)
    requires Inv(w) && Legal(w, e)
    ensures Inv(Step(w, e))
  {
    RowsKeep(w, e);
    KeysKeep(w, e);
    SoleKeep(w, e);
    LogsKeep(w, e);
    InboxKeep(w, e);
    IssuedKeep(w, e);
    CountsKeep(w, e);
  }

  lemma {:induction false} RunKeeps(start: real, run: seq<Timed>)
    ensures Inv(Run(start, run))
  {
    if run != [] {
      var w, e := Run(start, run[..|run| - 1]), run[|run| - 1];
      RunKeeps(start, run[..|run| - 1]);
      if Legal(w, e) { StepKeeps(w, e); }
    }
  }
}
