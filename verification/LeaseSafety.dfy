// Theorems about every run of the authority: exactly-once commits that survive
// garbage collection, fencing, and lease accounting.
module LeaseSafety {
  import opened Base
  import opened Wire
  import opened LeaseTables
  import opened Runs
  import opened RunInvariant

  lemma {:induction false} RunSnoc(start: real, run: seq<Timed>, e: Timed)
    ensures Run(start, run + [e]) == if Legal(Run(start, run), e) then Step(Run(start, run), e) else Run(start, run)
  {
    assert (run + [e])[..|run|] == run;
  }

  // ----- commits

  // The committed numbers of a task are exactly 0 .. nextSeq - 1, each once;
  // generations never decrease along them, and only the last can be final.
  lemma {:induction false} CommittedOnce(start: real, run: seq<Timed>, t: Id)
    requires t in Run(start, run).ledger.work
    ensures var w := Run(start, run);
            && |w.Log(t)| == w.ledger.work[t].nextSeq
            && (forall i :: 0 <= i < |w.Log(t)| ==> w.Log(t)[i].task == t && w.Log(t)[i].seqNo == i)
            && (forall i, j :: 0 <= i < j < |w.Log(t)| ==> w.Log(t)[i].generation <= w.Log(t)[j].generation && !w.Log(t)[i].final)
  {
    RunKeeps(start, run);
  }

  lemma {:induction false} LogAppendOnly(start: real, run: seq<Timed>, more: seq<Timed>, t: Id)
    ensures Run(start, run).Log(t) <= Run(start, run + more).Log(t)
  {
    if more == [] {
      assert run + more == run;
    } else {
      var front, e := more[..|more| - 1], more[|more| - 1];
      assert run + more == (run + front) + [e];
      LogAppendOnly(start, run, front, t);
      RunSnoc(start, run + front, e);
      LogGrows(Run(start, run + front), e, t);
    }
  }

  lemma TakenNumber(w: World, b: ResultBatch, worker: Id, instance: Id, now: real)
    requires LogsOk(w) && InboxOk(w) && b.seqNo < |w.Log(b.task)|
    ensures var tx := CommitBatch(w.ledger, b, worker, instance, now);
            && tx.ledger == w.ledger
            && tx.reply == (if b.Key() in w.ledger.batches
                            then if b == w.Log(b.task)[b.seqNo] then Ok(false) else Err(BatchConflict)
                            else if Fenced(w.ledger, b.task, worker, instance, b.generation, now) then Err(BatchSequence)
                            else Err(StaleLease))
  {
  }

  // A second commit of a taken number lands nowhere, whether the row of the
  // first is retained or has been collected. While it is retained the identical
  // batch is acknowledged and a different one is a conflict.
  lemma {:induction false} ReplayChangesNothing(start: real, run: seq<Timed>, b: ResultBatch, worker: Id, instance: Id, now: real)
    requires b.seqNo < |Run(start, run).Log(b.task)|
    ensures var w := Run(start, run);
            var tx := CommitBatch(w.ledger, b, worker, instance, now);
            && tx.ledger == w.ledger
            && tx.reply == (if b.Key() in w.ledger.batches
                            then if b == w.Log(b.task)[b.seqNo] then Ok(false) else Err(BatchConflict)
                            else if Fenced(w.ledger, b.task, worker, instance, b.generation, now) then Err(BatchSequence)
                            else Err(StaleLease))
  {
    hide Run, CommitBatch, LogsOk, InboxOk;
    RunKeeps(start, run);
    TakenNumber(Run(start, run), b, worker, instance, now);
  }

  // ----- fencing

  // Whoever holds the fence is the worker's current, unrevoked incarnation,
  // although no operation on the lease reads the worker table.
  lemma {:induction false} FenceIsCurrent(start: real, run: seq<Timed>, t: Id, worker: Id, instance: Id, generation: nat, now: real)
    requires Fenced(Run(start, run).ledger, t, worker, instance, generation, now)
    ensures Registered(Run(start, run).ledger, worker, instance)
  {
    RunKeeps(start, run);
    assert RowOk(Run(start, run).ledger.workers, Run(start, run).released, t, Run(start, run).ledger.work[t]);
  }

  lemma {:induction false} AcceptedFromCurrent(start: real, run: seq<Timed>, e: Timed)
    requires match e.event
             case Commit(b, worker, i) => CommitBatch(Run(start, run).ledger, b, worker, i, e.now).reply == Ok(true)
             case Renew(t, worker, i, g, s, x) => RenewTask(Run(start, run).ledger, t, worker, i, g, s, x, e.now).reply.Ok?
             case Finish(t, worker, i, g) => FinishTask(Run(start, run).ledger, t, worker, i, g, e.now).reply.Ok?
             case Fail(t, worker, i, g, err, r, a) => FailTask(Run(start, run).ledger, t, worker, i, g, err, r, a, e.now).reply.Ok?
             case _ => false
    ensures Registered(Run(start, run).ledger, e.event.worker, e.event.instance)
  {
    match e.event
    case Commit(b, worker, i) => FenceIsCurrent(start, run, b.task, worker, i, b.generation, e.now);
    case Renew(t, worker, i, g, _, _) => FenceIsCurrent(start, run, t, worker, i, g, e.now);
    case Finish(t, worker, i, g) => FenceIsCurrent(start, run, t, worker, i, g, e.now);
    case Fail(t, worker, i, g, _, _, _) => FenceIsCurrent(start, run, t, worker, i, g, e.now);
  }

  // ----- accounting

  lemma {:induction false} AttemptsBounded(start: real, run: seq<Timed>, t: Id)
    requires t in Run(start, run).ledger.work
    ensures var row := Run(start, run).ledger.work[t];
            row.generation == row.attempt == Run(start, run).claims[t] <= row.work.maxAttempts == Run(start, run).allowance[t]
  {
    RunKeeps(start, run);
    assert CountOk(Run(start, run), t);
  }

  // Fresh claims of a run never exceed the attempts admitted with its work.
  lemma {:induction false} ClaimsBounded(start: real, run: seq<Timed>)
    ensures Run(start, run).claims <= Run(start, run).allowance
    ensures |Run(start, run).claims| <= |Run(start, run).allowance|
  {
    RunKeeps(start, run);
    var w := Run(start, run);
    forall t ensures w.claims[t] <= w.allowance[t] {
      assert CountOk(w, t);
      if t in w.ledger.work { AttemptsBounded(start, run, t); }
    }
    assert w.allowance == w.claims + (w.allowance - w.claims);
  }

  // At any time from the last transaction on, a worker id owns at most one
  // unexpired lease, whatever the incarnation.
  lemma {:induction false} OneLeasePerWorker(start: real, run: seq<Timed>, t: Id, u: Id, now: real)
    requires var l := Run(start, run).ledger;
             && t in l.work && u in l.work && now >= Run(start, run).clock
             && Unexpired(l.work[t], now) && Unexpired(l.work[u], now) && l.work[t].owner == l.work[u].owner
    ensures t == u
  {
    RunKeeps(start, run);
    assert t != u ==> Sole(Run(start, run).ledger.work[t], Run(start, run).ledger.work[u], Run(start, run).clock);
  }

  // Rows are never removed or renamed, and the two terminal states absorb.
  lemma {:induction false} RowsLast(start: real, run: seq<Timed>, more: seq<Timed>, t: Id)
    requires t in Run(start, run).ledger.work
    ensures var w, w' := Run(start, run), Run(start, run + more);
            && t in w'.ledger.work
            && w'.ledger.work[t].key == w.ledger.work[t].key
            && w'.ledger.work[t].generation >= w.ledger.work[t].generation
            && (w.ledger.work[t].state.Complete? ==> w'.ledger.work[t].state.Complete?)
            && (w.ledger.work[t].state.Dead? ==> w'.ledger.work[t].state.Dead?)
            && (w.ledger.work[t].state.Complete? || w.ledger.work[t].state.Dead? ==> w'.Log(t) == w.Log(t))
  {
    if more == [] {
      assert run + more == run;
    } else {
      var front, e := more[..|more| - 1], more[|more| - 1];
      assert run + more == (run + front) + [e];
      RowsLast(start, run, front, t);
      RunSnoc(start, run + front, e);
      var v := Run(start, run + front);
      if Legal(v, e) {
        EveryMove(v, e, t);
        LogStep(v, e, t);
      }
    }
  }

  // A work key is admitted once and forever: a second admission answers the
  // task of the first and inserts nothing.
  lemma {:induction false} KeyAdmittedOnce(start: real, run: seq<Timed>, more: seq<Timed>, t: Id, d: WorkDefinition, u: Id, prior: Option<Id>, now: real)
    requires t in Run(start, run).ledger.work && Run(start, run).ledger.work[t].key == WorkKeyOf(d)
    requires IsPrior(Run(start, run + more).ledger, d, prior)
    ensures var l := Run(start, run + more).ledger;
            AdmitWork(l, d, u, prior, now) == Tx(l, Ok((t, false)))
  {
    RowsLast(start, run, more, t);
    RunKeeps(start, run + more);
    assert HasKey(Run(start, run + more).ledger.work, t, WorkKeyOf(d));
  }
}
