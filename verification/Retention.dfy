// What garbage collection may take: it never takes what a consumer is still
// owed, and the payload behind it stays intact exactly when the quarantine
// limits in use differ by at most one.
module Retention {
  import opened Base
  import opened Wire
  import opened LeaseTables
  import opened Runs
  import opened RunInvariant
  import opened LeaseSafety

  // The quarantine limits that consumers give up at in this run.
  predicate Uses(run: seq<Timed>, limits: set<nat>) {
    forall i :: 0 <= i < |run| && run[i].event.ConsumeFail? ==> run[i].event.maxAttempts in limits
  }

  // No two of the limits are further than one apart. A limit of 0 is refused
  // by the store and does not matter.
  predicate Near(limits: set<nat>) {
    forall a, b :: a in limits && b in limits && a >= 1 ==> b <= a + 1
  }

  predicate Window(limits: set<nat>, lo: nat) {
    lo >= 1 && forall a :: a in limits ==> a == 0 || lo <= a <= lo + 1
  }

  lemma SomeWindow(limits: set<nat>) returns (lo: nat)
    requires Near(limits)
    ensures Window(limits, lo)
  {
    if a :| a in limits && a >= 1 {
      lo := if a >= 2 && a - 1 in limits then a - 1 else a;
    } else {
      lo := 1;
    }
  }

  predicate Intact(row: WorkRow) {
    WorkKeyOf(row.work) == row.key
  }

  predicate QuarantineOk(row: BatchRow, lo: nat) {
    row.quarantined ==> row.consumeAttempts >= lo
  }

  ghost predicate Kept(w: World, lo: nat) {
    forall id :: id in w.ledger.batches ==>
      && id.task in w.ledger.work
      && QuarantineOk(w.ledger.batches[id], lo)
      && (w.ledger.batches[id].Outstanding() ==> Intact(w.ledger.work[id.task]))
  }

  predicate WithinWindow(e: Event, lo: nat) {
    e.ConsumeFail? ==> e.maxAttempts == 0 || lo <= e.maxAttempts <= lo + 1
  }

  // A row is owed only if it was owed before.
  lemma BatchRowStep(l: Ledger, e: Timed, id: BatchId, lo: nat)
    requires id in l.batches && id in Next(l, e).batches && QuarantineOk(l.batches[id], lo) && WithinWindow(e.event, lo)
    ensures QuarantineOk(Next(l, e).batches[id], lo)
    ensures Next(l, e).batches[id].Outstanding() ==> l.batches[id].Outstanding()
  {
  }

  lemma NewBatchRow(l: Ledger, e: Timed, id: BatchId)
    requires id !in l.batches && id in Next(l, e).batches
    ensures id.task in l.work && l.work[id.task].state.Leased?
    ensures Next(l, e).batches[id].Outstanding() && Next(l, e).batches[id].consumeAttempts == 0
  {
  }

  // Compaction is the only move that changes what the work key hashes, and it
  // passes over tasks that still owe a batch.
  lemma IntactStep(w: World, e: Timed, id: BatchId)
    requires Legal(w, e) && id.task in w.ledger.work && Intact(w.ledger.work[id.task])
    requires id in Next(w.ledger, e).batches && Next(w.ledger, e).batches[id].Outstanding()
    ensures id.task in Next(w.ledger, e).work && Intact(Next(w.ledger, e).work[id.task])
  {
    EveryMove(w, e, id.task);
    if MoveOf(w.ledger, e, id.task).Compact? {
      assert Owes(w.ledger.batches - e.event.gone, id.task);
    }
  }

  lemma KeptStep(w: World, e: Timed, lo: nat)
    requires Legal(w, e) && Inv(w) && Kept(w, lo) && WithinWindow(e.event, lo)
    ensures Kept(Step(w, e), lo)
  {
    var l, l' := w.ledger, Next(w.ledger, e);
    forall id | id in l'.batches
      ensures id.task in l'.work && QuarantineOk(l'.batches[id], lo)
      ensures l'.batches[id].Outstanding() ==> Intact(l'.work[id.task])
    {
      if id in l.batches {
        BatchRowStep(l, e, id, lo);
        EveryMove(w, e, id.task);
      } else {
        NewBatchRow(l, e, id);
        EveryMove(w, e, id.task);
        assert RowOk(l.workers, w.released, id.task, l.work[id.task]);
      }
      if l'.batches[id].Outstanding() { IntactStep(w, e, id); }
    }
  }

  lemma {:induction false} RunKept(start: real, run: seq<Timed>, limits: set<nat>, lo: nat)
    requires Window(limits, lo) && Uses(run, limits)
    ensures Kept(Run(start, run), lo)
  {
    if run != [] {
      var w, e := Run(start, run[..|run| - 1]), run[|run| - 1];
      RunKept(start, run[..|run| - 1], limits, lo);
      RunKeeps(start, run[..|run| - 1]);
      if Legal(w, e) { KeptStep(w, e, lo); }
    }
  }

  // The task of a batch that is still owed can be rebuilt from its row.
  lemma {:induction false} OwedPayloadIntact(start: real, run: seq<Timed>, limits: set<nat>, id: BatchId)
    requires Near(limits) && Uses(run, limits)
    requires id in Run(start, run).ledger.batches && Run(start, run).ledger.batches[id].Outstanding()
    ensures id.task in Run(start, run).ledger.work && Intact(Run(start, run).ledger.work[id.task])
  {
    var lo := SomeWindow(limits);
    RunKept(start, run, limits, lo);
  }

  // So can the task of every lease.
  lemma {:induction false} LeasedPayloadIntact(start: real, run: seq<Timed>, t: Id)
    requires t in Run(start, run).ledger.work && Run(start, run).ledger.work[t].state.Leased?
    ensures Intact(Run(start, run).ledger.work[t])
  {
    RunKeeps(start, run);
    assert RowOk(Run(start, run).ledger.workers, Run(start, run).released, t, Run(start, run).ledger.work[t]);
  }

  // The batch was there, consumed or quarantined, after some prefix of the run.
  ghost predicate SettledAt(start: real, run: seq<Timed>, id: BatchId, k: nat) {
    && k <= |run|
    && id in Run(start, run[..k]).ledger.batches
    && !Run(start, run[..k]).ledger.batches[id].Outstanding()
  }

  lemma OwedSurvives(l: Ledger, e: Timed, id: BatchId)
    requires id in l.batches && l.batches[id].Outstanding()
    requires e.event.Gc? ==> CollectInputs(l, e.event.gone, e.event.compacted, e.now - e.event.retention)
    ensures id in Next(l, e).batches
  {
  }

  // A committed batch that is missing after a step was missing or settled before.
  lemma LostStep(w: World, e: Timed, id: BatchId)
    requires Legal(w, e) && LogsOk(w)
    requires id.seqNo < |Step(w, e).Log(id.task)| && id !in Next(w.ledger, e).batches
    ensures id.seqNo < |w.Log(id.task)|
    ensures id in w.ledger.batches ==> !w.ledger.batches[id].Outstanding()
  {
    if id in w.ledger.batches && w.ledger.batches[id].Outstanding() { OwedSurvives(w.ledger, e, id); }
    if Accepts(w.ledger, e) { CommitExtends(w, e); }
  }

  lemma {:induction false} LostLast(start: real, run: seq<Timed>, e: Timed, id: BatchId)
    requires id.seqNo < |Run(start, run + [e]).Log(id.task)| && id !in Run(start, run + [e]).ledger.batches
    ensures id.seqNo < |Run(start, run).Log(id.task)|
    ensures id in Run(start, run).ledger.batches ==> !Run(start, run).ledger.batches[id].Outstanding()
  {
    hide Legal, Step, Next, RowsOk, KeysUnique, SoleLeases, LogsOk, InboxOk, AllIssuedOk, CountsOk;
    RunKeeps(start, run);
    RunSnoc(start, run, e);
    if Legal(Run(start, run), e) {
      StepTables(Run(start, run), e);
      LostStep(Run(start, run), e, id);
    }
  }

  lemma StepTables(w: World, e: Timed)
    ensures Step(w, e).ledger == Next(w.ledger, e)
  {
  }

  // Every committed batch is still there unless it was settled before.
  lemma {:induction false} NothingOwedIsLost(start: real, run: seq<Timed>, id: BatchId)
    requires id.seqNo < |Run(start, run).Log(id.task)| && id !in Run(start, run).ledger.batches
    ensures exists k: nat :: SettledAt(start, run, id, k)
  {
    assert run != [];
    hide Run;
    var n := |run| - 1;
    var front := run[..n];
    assert run == front + [run[n]];
    LostLast(start, front, run[n], id);
    if id in Run(start, front).ledger.batches {
      assert SettledAt(start, run, id, n);
    } else {
      NothingOwedIsLost(start, front, id);
      var k: nat :| SettledAt(start, front, id, k);
      assert front[..k] == run[..k];
      assert SettledAt(start, run, id, k);
    }
  }

  // A consumed or quarantined batch never becomes owed again.
  lemma {:induction false} SettledForever(start: real, run: seq<Timed>, more: seq<Timed>, limits: set<nat>, id: BatchId)
    requires Near(limits) && Uses(run + more, limits)
    requires id.seqNo < |Run(start, run).Log(id.task)|
    requires id in Run(start, run).ledger.batches ==> !Run(start, run).ledger.batches[id].Outstanding()
    ensures var l := Run(start, run + more).ledger; id in l.batches ==> !l.batches[id].Outstanding()
  {
    if more == [] {
      assert run + more == run;
    } else {
      var front, e := more[..|more| - 1], more[|more| - 1];
      assert run + more == (run + front) + [e];
      UsesFront(run + front, e, limits);
      SettledForever(start, run, front, limits, id);
      LogAppendOnly(start, run, front, id.task);
      SettledSnoc(start, run + front, e, limits, id);
    }
  }

  lemma {:induction false} UsesFront(run: seq<Timed>, e: Timed, limits: set<nat>)
    requires Uses(run + [e], limits)
    ensures Uses(run, limits) && (e.event.ConsumeFail? ==> e.event.maxAttempts in limits)
  {
    assert forall i :: 0 <= i < |run| ==> run[i] == (run + [e])[i];
    assert (run + [e])[|run|] == e;
  }

  lemma {:induction false} SettledSnoc(start: real, run: seq<Timed>, e: Timed, limits: set<nat>, id: BatchId)
    requires Near(limits) && Uses(run, limits) && (e.event.ConsumeFail? ==> e.event.maxAttempts in limits)
    requires id.seqNo < |Run(start, run).Log(id.task)|
    requires id in Run(start, run).ledger.batches ==> !Run(start, run).ledger.batches[id].Outstanding()
    ensures var l := Run(start, run + [e]).ledger; id in l.batches ==> !l.batches[id].Outstanding()
  {
    hide Legal, Step, Next, Run, Kept, RowsOk, KeysUnique, SoleLeases, LogsOk, InboxOk, AllIssuedOk, CountsOk;
    var lo := SomeWindow(limits);
    RunSnoc(start, run, e);
    RunKept(start, run, limits, lo);
    RunKeeps(start, run);
    if Legal(Run(start, run), e) {
      StepTables(Run(start, run), e);
      SettledStep(Run(start, run), e, lo, id);
    }
  }

  lemma SettledStep(w: World, e: Timed, lo: nat, id: BatchId)
    requires LogsOk(w) && Kept(w, lo) && WithinWindow(e.event, lo)
    requires id.seqNo < |w.Log(id.task)| && (id in w.ledger.batches ==> !w.ledger.batches[id].Outstanding())
    ensures id in Next(w.ledger, e).batches ==> !Next(w.ledger, e).batches[id].Outstanding()
  {
    if id in Next(w.ledger, e).batches {
      if id in w.ledger.batches {
        BatchRowStep(w.ledger, e, id, lo);
      } else {
        BatchStep(w.ledger, e, id);
        CommitExtends(w, e);
      }
    }
  }

  // ----- limits two apart lose what is owed

  const EXAMPLE_WORK := WorkDefinition("p", SourceShard, "i", "payload", "", "v", [], [], 0.0, 1, 0.0)
  const EXAMPLE_WORKER := Worker("x", "r", {}, {}, {}, 0, false)
  const EXAMPLE_BATCH := ResultBatch("t", 1, 0, [], "", None, true)
  const LEASE_EVENTS := [
    Timed(0.0, Register("w", EXAMPLE_WORKER, PROTOCOL_VERSION)),
    Timed(0.0, Admit(EXAMPLE_WORK, "t", None)),
    Timed(0.0, Claim("w", "x", 10.0, None, ["t"], {"t"}))]
  const COMMIT_EVENT := Timed(1.0, Commit(EXAMPLE_BATCH, "w", "x"))
  const COMPACT_EVENT := Timed(9.0, Gc({}, {"t"}, 2.0))

  function FailureAt(now: real, limit: nat): Timed {
    Timed(now, ConsumeFail(EXAMPLE_BATCH.Key(), "", limit))
  }

  function Failures(count: nat, limit: nat): seq<Timed> {
    if count == 0 then [] else Failures(count - 1, limit) + [FailureAt(1.0, limit)]
  }

  // A task is completed, and its batch given up after `low` failures.
  function GivenUp(low: nat): seq<Timed> {
    LEASE_EVENTS + [COMMIT_EVENT] + Failures(low, low)
  }

  // One event at a time: the tables after each.
  lemma ExampleAdmitted()
    ensures var w := Run(0.0, LEASE_EVENTS[..2]);
            w.ledger == Ledger(map["w" := EXAMPLE_WORKER], map["t" := NewRow(EXAMPLE_WORK, 0.0)], map[]) && w.clock == 0.0
  {
    var e := LEASE_EVENTS;
    RunSnoc(0.0, [], e[0]);
    assert [] + [e[0]] == e[..1];
    assert Run(0.0, e[..1]).ledger == Ledger(map["w" := EXAMPLE_WORKER], map[], map[]);
    RunSnoc(0.0, e[..1], e[1]);
    assert e[..1] + [e[1]] == e[..2];
  }

  predicate Fresh(w: World) {
    && w.clock == 0.0 && w.ledger.batches == map[] && w.log == map[]
    && "t" in w.ledger.work && Fenced(w.ledger, "t", "w", "x", 1, 1.0)
    && w.ledger.work["t"].nextSeq == 0 && w.ledger.work["t"].work == EXAMPLE_WORK
    && w.ledger.work["t"].key == WorkKeyOf(EXAMPLE_WORK)
  }

  lemma ExampleClaim(w: World)
    requires w.ledger == Ledger(map["w" := EXAMPLE_WORKER], map["t" := NewRow(EXAMPLE_WORK, 0.0)], map[])
    requires w.clock == 0.0 && w.log == map[]
    ensures Legal(w, LEASE_EVENTS[2]) && Fresh(Step(w, LEASE_EVENTS[2]))
  {
  }

  lemma ExampleLease()
    ensures Fresh(Run(0.0, LEASE_EVENTS))
  {
    hide Fresh, Legal;
    ExampleAdmitted();
    NoCommitYet();
    ExampleClaim(Run(0.0, LEASE_EVENTS[..2]));
    RunSnoc(0.0, LEASE_EVENTS[..2], LEASE_EVENTS[2]);
    assert LEASE_EVENTS[..2] + [LEASE_EVENTS[2]] == LEASE_EVENTS;
  }

  lemma NoCommitYet()
    ensures Run(0.0, LEASE_EVENTS[..2]).log == map[]
  {
    hide Legal, Next, Answer, Dropped;
    var e := LEASE_EVENTS;
    assert e[..2][..1] == e[..1] && e[..1][..0] == [];
    assert Run(0.0, e[..1]).log == map[];
  }

  // The task is completed and its batch was given up this many times.
  predicate Closed(w: World, failures: nat, limit: nat) {
    && w.clock == 1.0 && "t" in w.ledger.work && w.ledger.work["t"].state.Complete?
    && w.ledger.work["t"].updatedAt == 1.0 && w.ledger.work["t"].work == EXAMPLE_WORK
    && w.ledger.work["t"].key == WorkKeyOf(EXAMPLE_WORK) && w.Log("t") == [EXAMPLE_BATCH]
    && w.ledger.batches == map[EXAMPLE_BATCH.Key() :=
         BatchRow(EXAMPLE_BATCH, 1.0, None, failures, if failures == 0 then None else Some(""), failures >= limit)]
  }

  lemma ExampleCommit(w: World, limit: nat)
    requires Fresh(w) && limit >= 1
    ensures Legal(w, COMMIT_EVENT) && Closed(Step(w, COMMIT_EVENT), 0, limit)
  {
  }

  lemma ExampleFailure(w: World, failures: nat, limit: nat)
    requires Closed(w, failures, limit) && limit >= 1
    ensures Legal(w, FailureAt(1.0, limit)) && Closed(Step(w, FailureAt(1.0, limit)), failures + 1, limit)
  {
  }

  lemma {:induction false} AfterFailures(count: nat, limit: nat)
    requires limit >= 1
    ensures Closed(Run(0.0, LEASE_EVENTS + [COMMIT_EVENT] + Failures(count, limit)), count, limit)
  {
    hide Fresh, Closed, Legal, Step;
    var open := LEASE_EVENTS + [COMMIT_EVENT];
    if count == 0 {
      ExampleLease();
      ExampleCommit(Run(0.0, LEASE_EVENTS), limit);
      RunSnoc(0.0, LEASE_EVENTS, COMMIT_EVENT);
      assert open + [] == open;
    } else {
      AfterFailures(count - 1, limit);
      ExampleFailure(Run(0.0, open + Failures(count - 1, limit)), count - 1, limit);
      RunSnoc(0.0, open + Failures(count - 1, limit), FailureAt(1.0, limit));
      Assoc(open, Failures(count - 1, limit), [FailureAt(1.0, limit)]);
    }
  }

  // The quarantined batch lets its task be compacted ...
  predicate Emptied(w: World, failures: nat, quarantined: bool) {
    && w.clock == 9.0 && "t" in w.ledger.work && !Intact(w.ledger.work["t"])
    && EXAMPLE_BATCH.Key() in w.ledger.batches && w.ledger.batches[EXAMPLE_BATCH.Key()].consumedAt.None?
    && w.ledger.batches[EXAMPLE_BATCH.Key()].consumeAttempts == failures
    && w.ledger.batches[EXAMPLE_BATCH.Key()].quarantined == quarantined
  }

  lemma ExampleCompact(w: World, low: nat)
    requires Closed(w, low, low)
    ensures Legal(w, COMPACT_EVENT) && Emptied(Step(w, COMPACT_EVENT), low, true)
  {
    assert w.ledger.batches - {} == w.ledger.batches;
  }

  // ... and comes back at the first failure counted against a limit two higher.
  lemma ExampleReturn(w: World, low: nat, high: nat)
    requires Emptied(w, low, true) && low + 2 <= high
    ensures Legal(w, FailureAt(9.0, high)) && Emptied(Step(w, FailureAt(9.0, high)), low + 1, false)
  {
  }

  lemma LimitsTwoApart(low: nat, high: nat)
    requires 1 <= low && low + 2 <= high
    ensures Closed(Run(0.0, GivenUp(low)), low, low)
    ensures Emptied(Run(0.0, GivenUp(low) + [COMPACT_EVENT, FailureAt(9.0, high)]), low + 1, false)
  {
    hide Legal, Step, Closed, Emptied;
    var front := GivenUp(low);
    AfterFailures(low, low);
    ExampleCompact(Run(0.0, front), low);
    RunSnoc(0.0, front, COMPACT_EVENT);
    ExampleReturn(Run(0.0, front + [COMPACT_EVENT]), low, high);
    RunSnoc(0.0, front + [COMPACT_EVENT], FailureAt(9.0, high));
    assert front + [COMPACT_EVENT] + [FailureAt(9.0, high)] == front + [COMPACT_EVENT, FailureAt(9.0, high)];
  }

  lemma {:induction false} FailuresUse(count: nat, limit: nat)
    ensures forall e :: e in Failures(count, limit) ==> e == FailureAt(1.0, limit)
  {
    if count > 0 { FailuresUse(count - 1, limit); }
  }

  lemma ExampleUses(low: nat, high: nat, limits: set<nat>)
    requires low in limits && high in limits
    ensures Uses(GivenUp(low) + [COMPACT_EVENT, FailureAt(9.0, high)], limits)
  {
    FailuresUse(low, low);
    var run := GivenUp(low) + [COMPACT_EVENT, FailureAt(9.0, high)];
    forall i | 0 <= i < |run| && run[i].event.ConsumeFail? ensures run[i].event.maxAttempts in limits {
      assert run[i] in LEASE_EVENTS || run[i] == COMMIT_EVENT || run[i] in Failures(low, low) || run[i] == FailureAt(9.0, high);
    }
  }

  // ----- the exact condition

  // In every run with these limits what is owed can be rebuilt.
  ghost predicate KeepsPayloads(limits: set<nat>) {
    forall start: real, run: seq<Timed>, id: BatchId ::
      Uses(run, limits) && IsOwed(start, run, id) ==> PayloadKept(start, run, id)
  }

  ghost predicate IsOwed(start: real, run: seq<Timed>, id: BatchId) {
    id in Run(start, run).ledger.batches && Run(start, run).ledger.batches[id].Outstanding()
  }

  ghost predicate PayloadKept(start: real, run: seq<Timed>, id: BatchId) {
    id.task in Run(start, run).ledger.work && Intact(Run(start, run).ledger.work[id.task])
  }

  // In every run with these limits what is settled stays settled.
  ghost predicate KeepsSettled(limits: set<nat>) {
    forall start: real, run: seq<Timed>, more: seq<Timed>, id: BatchId ::
      Uses(run + more, limits) && IsCommitted(start, run, id) && !IsOwed(start, run, id) ==> !IsOwed(start, run + more, id)
  }

  ghost predicate IsCommitted(start: real, run: seq<Timed>, id: BatchId) {
    id.seqNo < |Run(start, run).Log(id.task)|
  }

  lemma TwoApartLosePayload(low: nat, high: nat, limits: set<nat>)
    requires 1 <= low && low + 2 <= high && low in limits && high in limits
    ensures !KeepsPayloads(limits) && !KeepsSettled(limits)
  {
    LimitsTwoApart(low, high);
    ExampleUses(low, high, limits);
    hide Run, Uses;
    var front, more, id := GivenUp(low), [COMPACT_EVENT, FailureAt(9.0, high)], EXAMPLE_BATCH.Key();
    assert IsOwed(0.0, front + more, id) && !PayloadKept(0.0, front + more, id);
    assert IsCommitted(0.0, front, id) && !IsOwed(0.0, front, id);
  }

  // Owed payloads are kept in every run exactly when no two limits in use are
  // further than one apart.
  lemma PayloadKeptExactly(limits: set<nat>)
    ensures KeepsPayloads(limits) <==> Near(limits)
  {
    if Near(limits) {
      forall start: real, run: seq<Timed>, id: BatchId | Uses(run, limits) && IsOwed(start, run, id)
        ensures PayloadKept(start, run, id)
      {
        OwedPayloadIntact(start, run, limits, id);
      }
    } else {
      var low, high :| low in limits && high in limits && low >= 1 && high > low + 1;
      TwoApartLosePayload(low, high, limits);
    }
  }

  // Under the same condition, and no weaker one, settled batches stay settled.
  lemma SettledStaysExactly(limits: set<nat>)
    ensures KeepsSettled(limits) <==> Near(limits)
  {
    if Near(limits) {
      forall start: real, run: seq<Timed>, more: seq<Timed>, id: BatchId |
          Uses(run + more, limits) && IsCommitted(start, run, id) && !IsOwed(start, run, id)
        ensures !IsOwed(start, run + more, id)
      {
        SettledForever(start, run, more, limits, id);
      }
    } else {
      var low, high :| low in limits && high in limits && low >= 1 && high > low + 1;
      TwoApartLosePayload(low, high, limits);
    }
  }

  // One limit for every consumer is the case the defaults give.
  lemma OneLimitKeeps(limit: nat)
    ensures KeepsPayloads({limit}) && KeepsSettled({limit})
  {
    PayloadKeptExactly({limit});
    SettledStaysExactly({limit});
  }
}
