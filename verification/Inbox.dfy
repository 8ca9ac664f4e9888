// The unconsumed batches of one task: what the listing query answers, and how
// that list develops along a run of the authority.
module Inbox {
  import opened Base
  import opened Wire
  import opened LeaseTables
  import opened Runs
  import opened RunInvariant
  import opened LeaseSafety

  predicate IsOutstanding(batches: map<BatchId, BatchRow>, id: BatchId) {
    id in batches && batches[id].Outstanding()
  }

  // The rows of the query `ORDER BY sequence_no LIMIT limit`.
  ghost predicate Listing(batches: map<BatchId, BatchRow>, t: Id, limit: nat, rows: seq<BatchId>) {
    && |rows| <= limit
    && (forall i :: 0 <= i < |rows| ==> rows[i].task == t && IsOutstanding(batches, rows[i]))
    && (forall i, j :: 0 <= i < j < |rows| ==> rows[i].seqNo < rows[j].seqNo)
    && (forall id: BatchId :: id.task == t && IsOutstanding(batches, id) && id !in rows ==>
          |rows| == limit && forall i :: 0 <= i < |rows| ==> rows[i].seqNo < id.seqNo)
  }

  // The committed batches that are still owed to a consumer, in order.
  function OwedIn(batches: map<BatchId, BatchRow>, log: seq<ResultBatch>): seq<ResultBatch> {
    if log == [] then [] else
    var b := log[|log| - 1];
    OwedIn(batches, log[..|log| - 1]) + (if IsOutstanding(batches, b.Key()) then [b] else [])
  }

  function Owed(w: World, t: Id): seq<ResultBatch> {
    OwedIn(w.ledger.batches, w.Log(t))
  }

  function Leading<T>(s: seq<T>, limit: nat): seq<T> {
    if |s| <= limit then s else s[..limit]
  }

  predicate Numbered(log: seq<ResultBatch>, t: Id) {
    forall i :: 0 <= i < |log| ==> log[i].task == t && log[i].seqNo == i
  }

  predicate Ascending(s: seq<nat>) {
    forall i, j :: 0 <= i < j < |s| ==> s[i] < s[j]
  }

  function Numbers(bs: seq<ResultBatch>): seq<nat> {
    seq(|bs|, i requires 0 <= i < |bs| => bs[i].seqNo)
  }

  lemma {:induction false} OwedInOrder(batches: map<BatchId, BatchRow>, log: seq<ResultBatch>, t: Id)
    requires Numbered(log, t)
    ensures forall b :: b in OwedIn(batches, log) ==>
              b.task == t && b.seqNo < |log| && b == log[b.seqNo] && IsOutstanding(batches, b.Key())
    ensures Ascending(Numbers(OwedIn(batches, log)))
  {
    if log != [] {
      var n := |log| - 1;
      var front := log[..n];
      assert forall i :: 0 <= i < n ==> front[i] == log[i];
      OwedInOrder(batches, front, t);
      AscendingSnoc(OwedIn(batches, front), log[n]);
    }
  }

  lemma AscendingSnoc(o: seq<ResultBatch>, b: ResultBatch)
    requires Ascending(Numbers(o)) && forall x :: x in o ==> x.seqNo < b.seqNo
    ensures Ascending(Numbers(o + [b])) && o + [] == o
  {
    forall i | 0 <= i < |o| ensures Numbers(o)[i] < b.seqNo { assert o[i] in o; }
    assert Numbers(o + [b]) == Numbers(o) + [b.seqNo];
  }

  lemma {:induction false} OwedHasAll(batches: map<BatchId, BatchRow>, log: seq<ResultBatch>, t: Id, n: nat)
    requires Numbered(log, t) && n < |log| && IsOutstanding(batches, BatchId(t, n))
    ensures log[n] in OwedIn(batches, log)
  {
    if n < |log| - 1 {
      OwedHasAll(batches, log[..|log| - 1], t, n);
    } else {
      assert log[n].Key() == BatchId(t, n);
    }
  }

  lemma AscentIndex(a: seq<nat>, b: seq<nat>, k: nat, j: nat)
    requires Ascending(a) && Ascending(b) && k < |a| && k < |b| && j < |b| && b[j] == a[k]
    requires forall i :: 0 <= i < k ==> a[i] == b[i]
    ensures b[k] <= a[k]
  {
  }

  // Two ascending lists of the same numbers, one of which may stop early.
  lemma {:induction false} SameAscent(a: seq<nat>, b: seq<nat>, k: nat)
    requires Ascending(a) && Ascending(b) && k <= |a|
    requires k <= |b| && forall i :: 0 <= i < k ==> a[i] == b[i]
    requires forall i :: 0 <= i < |a| ==> a[i] in b
    requires forall i, j :: 0 <= i < |b| && 0 <= j < |a| && b[i] !in a ==> a[j] < b[i]
    ensures |a| <= |b| && forall i :: 0 <= i < |a| ==> a[i] == b[i]
    decreases |a| - k
  {
    if k < |a| {
      assert a[k] in b;
      var j :| 0 <= j < |b| && b[j] == a[k];
      assert k < |b| by { InThePrefix(a, b, k, j); }
      AscentIndex(a, b, k, j);
      if b[k] in a {
        var i :| 0 <= i < |a| && a[i] == b[k];
        AscentIndex(b, a, k, i);
      }
      SameAscent(a, b, k + 1);
    }
  }

  lemma InThePrefix(a: seq<nat>, b: seq<nat>, k: nat, j: nat)
    requires Ascending(a) && k < |a| && k <= |b| && j < |b| && b[j] == a[k]
    requires forall i :: 0 <= i < k ==> a[i] == b[i]
    ensures k < |b|
  {
  }

  function NumbersOf(ids: seq<BatchId>): seq<nat> {
    seq(|ids|, i requires 0 <= i < |ids| => ids[i].seqNo)
  }

  lemma ListedIsOwed(w: World, t: Id, id: BatchId)
    requires LogsOk(w) && InboxOk(w) && id.task == t && IsOutstanding(w.ledger.batches, id)
    ensures id.seqNo < |w.Log(t)| && w.Log(t)[id.seqNo] in Owed(w, t)
  {
    LogNumbered(w, t);
    OwedHasAll(w.ledger.batches, w.Log(t), t, id.seqNo);
  }

  lemma LogNumbered(w: World, t: Id)
    requires LogsOk(w)
    ensures Numbered(w.Log(t), t)
  {
  }

  lemma {:induction false} RunNumbered(start: real, run: seq<Timed>, t: Id)
    ensures Numbered(Run(start, run).Log(t), t)
  {
    RunKeeps(start, run);
    LogNumbered(Run(start, run), t);
  }

  lemma ListingAscends(batches: map<BatchId, BatchRow>, t: Id, limit: nat, rows: seq<BatchId>)
    requires Listing(batches, t, limit, rows)
    ensures Ascending(NumbersOf(rows))
  {
  }

  lemma UnlistedIsLater(batches: map<BatchId, BatchRow>, t: Id, limit: nat, rows: seq<BatchId>, id: BatchId)
    requires Listing(batches, t, limit, rows) && id.task == t && IsOutstanding(batches, id)
    requires id.seqNo !in NumbersOf(rows)
    ensures |rows| == limit && forall j :: 0 <= j < |rows| ==> NumbersOf(rows)[j] < id.seqNo
  {
    assert forall j :: 0 <= j < |rows| ==> NumbersOf(rows)[j] == rows[j].seqNo;
  }

  lemma ListedNumber(w: World, t: Id, id: BatchId)
    requires LogsOk(w) && InboxOk(w) && id.task == t && IsOutstanding(w.ledger.batches, id)
    ensures id.seqNo in Numbers(Owed(w, t))
  {
    ListedIsOwed(w, t, id);
    LogNumbered(w, t);
    var o := Owed(w, t);
    var j :| 0 <= j < |o| && o[j] == w.Log(t)[id.seqNo];
    assert Numbers(o)[j] == id.seqNo;
  }

  lemma OwedKeys(w: World, t: Id, i: nat)
    requires Numbered(w.Log(t), t) && i < |Owed(w, t)|
    ensures Owed(w, t)[i].Key() == BatchId(t, Numbers(Owed(w, t))[i]) && IsOutstanding(w.ledger.batches, Owed(w, t)[i].Key())
  {
    var o := OwedIn(w.ledger.batches, w.Log(t));
    OwedInOrder(w.ledger.batches, w.Log(t), t);
    assert o[i] in o;
  }

  lemma AscentLength(a: seq<nat>, b: seq<nat>, limit: nat)
    requires Ascending(b) && |a| <= |b| && |a| <= limit && forall i :: 0 <= i < |a| ==> a[i] == b[i]
    requires |a| < |b| && b[|a|] !in a ==> |a| == limit
    ensures |a| == if |b| <= limit then |b| else limit
  {
  }

  // Rows and batches of one task agree when their numbers do.
  lemma SameFront(t: Id, limit: nat, rows: seq<BatchId>, o: seq<ResultBatch>)
    requires Ascending(NumbersOf(rows)) && Ascending(Numbers(o)) && |rows| <= limit
    requires forall i :: 0 <= i < |rows| ==> rows[i].task == t && rows[i].seqNo in Numbers(o)
    requires forall i :: 0 <= i < |o| ==> o[i].task == t
    requires forall i :: 0 <= i < |o| && o[i].seqNo !in NumbersOf(rows) ==>
               |rows| == limit && forall j :: 0 <= j < |rows| ==> NumbersOf(rows)[j] < o[i].seqNo
    ensures |rows| == |Leading(o, limit)| && forall i :: 0 <= i < |rows| ==> rows[i] == Leading(o, limit)[i].Key()
  {
    var a, b := NumbersOf(rows), Numbers(o);
    assert forall i :: 0 <= i < |o| ==> b[i] == o[i].seqNo;
    assert forall i :: 0 <= i < |a| ==> a[i] == rows[i].seqNo;
    SameAscent(a, b, 0);
    AscentLength(a, b, limit);
  }

  // Whatever the query answers, it is the front of the owed batches.
  lemma ListingIsFront(w: World, t: Id, limit: nat, rows: seq<BatchId>)
    requires LogsOk(w) && InboxOk(w) && Listing(w.ledger.batches, t, limit, rows)
    ensures |rows| == |Leading(Owed(w, t), limit)|
    ensures forall i :: 0 <= i < |rows| ==> rows[i] == Leading(Owed(w, t), limit)[i].Key()
  {
    var o := Owed(w, t);
    LogNumbered(w, t);
    OwedInOrder(w.ledger.batches, w.Log(t), t);
    ListingAscends(w.ledger.batches, t, limit, rows);
    hide LogsOk, InboxOk, Numbered, Owed, Ascending;
    forall i | 0 <= i < |rows| ensures rows[i].task == t && rows[i].seqNo in Numbers(o) { ListedNumber(w, t, rows[i]); }
    forall i | 0 <= i < |o|
      ensures o[i].task == t
      ensures o[i].seqNo !in NumbersOf(rows) ==> |rows| == limit && forall j :: 0 <= j < |rows| ==> NumbersOf(rows)[j] < o[i].seqNo
    {
      OwedKeys(w, t, i);
      if o[i].seqNo !in NumbersOf(rows) { UnlistedIsLater(w.ledger.batches, t, limit, rows, o[i].Key()); }
    }
    SameFront(t, limit, rows, o);
  }

  // ----- how the list develops while nobody settles a batch of the task

  predicate Settles(e: Event, t: Id) {
    (e.Consume? && e.id.task == t) || (e.ConsumeFail? && e.id.task == t)
  }

  predicate Unsettled(run: seq<Timed>, from: nat, t: Id) {
    forall i :: from <= i < |run| ==> !Settles(run[i].event, t)
  }

  // A row nobody settles stays as it is, unless it was settled and collected.
  lemma RowStands(w: World, e: Timed, id: BatchId)
    requires Legal(w, e) && !Settles(e.event, id.task) && id in w.ledger.batches
    ensures if id in Next(w.ledger, e).batches then Next(w.ledger, e).batches[id] == w.ledger.batches[id]
            else !w.ledger.batches[id].Outstanding()
  {
  }

  lemma StandingStays(w: World, e: Timed, id: BatchId)
    requires Legal(w, e) && LogsOk(w) && !Settles(e.event, id.task) && id.seqNo < |w.Log(id.task)|
    ensures IsOutstanding(Next(w.ledger, e).batches, id) <==> IsOutstanding(w.ledger.batches, id)
  {
    hide Next, Legal;
    if id in w.ledger.batches {
      RowStands(w, e, id);
    } else if id in Next(w.ledger, e).batches {
      BatchStep(w.ledger, e, id);
      CommitExtends(w, e);
    }
  }

  lemma {:induction false} OwedInSame(before: map<BatchId, BatchRow>, after: map<BatchId, BatchRow>, log: seq<ResultBatch>)
    requires forall i :: 0 <= i < |log| ==> (IsOutstanding(before, log[i].Key()) <==> IsOutstanding(after, log[i].Key()))
    ensures OwedIn(before, log) == OwedIn(after, log)
  {
    if log != [] {
      var n := |log| - 1;
      assert log[..n + 1] == log && forall i :: 0 <= i < n ==> log[..n][i] == log[i];
      OwedInSame(before, after, log[..n]);
    }
  }

  lemma {:induction false} OwedExtends(before: map<BatchId, BatchRow>, after: map<BatchId, BatchRow>, log: seq<ResultBatch>, log': seq<ResultBatch>)
    requires forall i :: 0 <= i < |log| ==> (IsOutstanding(before, log[i].Key()) <==> IsOutstanding(after, log[i].Key()))
    requires log' == log || (|log'| == |log| + 1 && log'[..|log|] == log && IsOutstanding(after, log'[|log|].Key()))
    ensures OwedIn(before, log) <= OwedIn(after, log')
    ensures OwedIn(before, log) == log ==> OwedIn(after, log') == log'
  {
    OwedInSame(before, after, log);
  }

  lemma AcceptedStands(w: World, e: Timed)
    requires Accepts(w.ledger, e)
    ensures IsOutstanding(Next(w.ledger, e).batches, e.event.batch.Key())
  {
  }

  lemma LogStepLog(w: World, e: Timed, t: Id)
    requires !(Accepts(w.ledger, e) && e.event.batch.task == t)
    ensures Step(w, e).Log(t) == w.Log(t)
  {
  }

  lemma OwedStep(w: World, e: Timed, t: Id)
    requires Legal(w, e) && LogsOk(w) && Numbered(w.Log(t), t) && !Settles(e.event, t)
    ensures Owed(w, t) <= Owed(Step(w, e), t)
    ensures Owed(w, t) == w.Log(t) ==> Owed(Step(w, e), t) == Step(w, e).Log(t)
  {
    hide Next, Legal, LogsOk, Settles;
    var log, after, log' := w.Log(t), Next(w.ledger, e).batches, Step(w, e).Log(t);
    forall i | 0 <= i < |log|
      ensures IsOutstanding(w.ledger.batches, log[i].Key()) <==> IsOutstanding(after, log[i].Key())
    {
      StandingStays(w, e, log[i].Key());
    }
    if Accepts(w.ledger, e) && e.event.batch.task == t {
      CommitExtends(w, e);
      AcceptedStands(w, e);
    } else {
      LogStepLog(w, e, t);
    }
    OwedExtends(w.ledger.batches, after, log, log');
  }

  lemma {:induction false} OwedSnoc(start: real, run: seq<Timed>, e: Timed, t: Id)
    requires !Settles(e.event, t)
    ensures Owed(Run(start, run), t) <= Owed(Run(start, run + [e]), t)
    ensures Owed(Run(start, run), t) == Run(start, run).Log(t) ==> Owed(Run(start, run + [e]), t) == Run(start, run + [e]).Log(t)
  {
    hide Legal, Step, Owed, Settles, LogsOk, RowsOk, InboxOk, KeysUnique, SoleLeases, AllIssuedOk, CountsOk;
    RunSnoc(start, run, e);
    RunKeeps(start, run);
    RunNumbered(start, run, t);
    if Legal(Run(start, run), e) { OwedStep(Run(start, run), e, t); }
  }

  lemma {:induction false} OwedGrows(start: real, run: seq<Timed>, i: nat, j: nat, t: Id)
    requires i <= j <= |run| && Unsettled(run, i, t)
    ensures Owed(Run(start, run[..i]), t) <= Owed(Run(start, run[..j]), t)
    ensures Owed(Run(start, run[..i]), t) == Run(start, run[..i]).Log(t)
            ==> Owed(Run(start, run[..j]), t) == Run(start, run[..j]).Log(t)
    decreases j
  {
    hide Owed, Run;
    if i < j {
      OwedGrows(start, run, i, j - 1, t);
      assert run[..j] == run[..j - 1] + [run[j - 1]];
      OwedSnoc(start, run[..j - 1], run[j - 1], t);
    }
  }
}
