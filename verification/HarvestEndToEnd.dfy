// The three parts together: what the central executor has emitted when it
// returns, for every run of the authority and every schedule of its workers.
module HarvestEndToEnd {
  import opened Base
  import opened Wire
  import opened LeaseTables
  import opened Runs
  import opened RunInvariant
  import opened Lines
  import opened HostYear
  import opened Packing
  import opened BulkShard
  import opened EndToEnd
  import opened Inbox
  import RH = RegionHarvest

  // The executor's k-th listing was answered after the first at[k] transactions.
  ghost predicate Watches(start: real, run: seq<Timed>, t: Id, at: seq<nat>, polls: seq<RH.Poll>) {
    && |at| == |polls|
    && (forall k :: 0 <= k < |at| ==> at[k] <= |run|)
    && (forall k :: 0 < k < |at| ==> at[k - 1] <= at[k])
    && forall k :: 0 <= k < |at| ==> polls[k].listed == Leading(Owed(Run(start, run[..at[k]]), t), RH.LIST_LIMIT)
  }

  lemma AscendingDistinct(o: seq<ResultBatch>, limit: nat)
    requires Ascending(Numbers(o))
    ensures RH.Distinct(Leading(o, limit))
  {
    assert forall i :: 0 <= i < |o| ==> Numbers(o)[i] == o[i].seqNo;
  }

  lemma {:induction false} ListedDistinct(start: real, run: seq<Timed>, t: Id, limit: nat)
    ensures RH.Distinct(Leading(Owed(Run(start, run), t), limit))
  {
    hide Run;
    RunNumbered(start, run, t);
    OwedInOrder(Run(start, run).ledger.batches, Run(start, run).Log(t), t);
    AscendingDistinct(Owed(Run(start, run), t), limit);
  }

  lemma UnsettledFrom(run: seq<Timed>, i: nat, j: nat, t: Id)
    requires i <= j && Unsettled(run, i, t)
    ensures Unsettled(run, j, t)
  {
  }

  // While nobody else settles the task's batches, everything gathered is the
  // last listing.
  lemma {:induction false} GatheredIsListed(start: real, run: seq<Timed>, t: Id, at: seq<nat>, polls: seq<RH.Poll>)
    requires polls != [] && Watches(start, run, t, at, polls) && Unsettled(run, at[0], t)
    ensures RH.Gathered(polls) == polls[|polls| - 1].listed
  {
    hide Run, Owed, Unsettled, RH.Distinct, RH.Gathered;
    forall k | 0 <= k < |polls| ensures RH.Distinct(polls[k].listed) {
      ListedDistinct(start, run[..at[k]], t, RH.LIST_LIMIT);
    }
    forall k | 0 < k < |polls| ensures polls[k - 1].listed <= polls[k].listed {
      AtLeastFirst(at, k - 1);
      UnsettledFrom(run, at[0], at[k - 1], t);
      OwedGrows(start, run, at[k - 1], at[k], t);
    }
    RH.GatheredIsLast(polls);
  }

  lemma {:induction false} AtLeastFirst(at: seq<nat>, k: nat)
    requires k < |at| && forall i :: 0 < i < |at| ==> at[i - 1] <= at[i]
    ensures at[0] <= at[k]
  {
    if k > 0 { AtLeastFirst(at, k - 1); }
  }

  lemma {:induction false} SummarySomewhere(bs: seq<ResultBatch>)
    requires RH.Summaries(RH.ItemsOf(bs)) != []
    ensures exists i, k :: 0 <= i < |bs| && 0 <= k < |bs[i].results| && bs[i].results[k].Summary?
  {
    if bs != [] {
      var n := |bs| - 1;
      if RH.Summaries(RH.ItemsOf(bs[..n])) != [] {
        SummarySomewhere(bs[..n]);
        var i, k :| 0 <= i < n && 0 <= k < |bs[..n][i].results| && bs[..n][i].results[k].Summary?;
        assert bs[i].results[k].Summary?;
      } else {
        SummaryInTail(RH.ItemsOf(bs[..n]), bs[n].results);
      }
    }
  }

  lemma {:induction false} SummaryInTail(a: seq<Item>, b: seq<Item>)
    requires RH.Summaries(a) == [] && RH.Summaries(a + b) != []
    ensures exists k :: 0 <= k < |b| && b[k].Summary?
    decreases |b|
  {
    assert a + [] == a;
    if b != [] {
      var n := |b| - 1;
      assert (a + b)[..|a + b| - 1] == a + b[..n];
      if !b[n].Summary? {
        SummaryInTail(a, b[..n]);
        var k :| 0 <= k < n && b[..n][k].Summary?;
        assert b[k].Summary?;
      }
    }
  }

  // A batch with a summary is the last of its task.
  lemma SummaryIsLast(sh: Shard, w: World, i: nat, k: nat)
    requires ValidShard(sh) && Inv(w) && LogCarries(sh, w.Log(sh.task))
    requires i < |w.Log(sh.task)| && k < |w.Log(sh.task)[i].results| && w.Log(sh.task)[i].results[k].Summary?
    ensures i == |w.Log(sh.task)| - 1 && w.Log(sh.task)[i].final
  {
    hide RowsOk, KeysUnique, SoleLeases, InboxOk, CountsOk, AllIssuedOk, Whole;
    var log := w.Log(sh.task);
    OnlyFinalSums(log[i], sh.task, log[i].generation, i, Whole(sh)[i], k);
    assert sh.task in w.ledger.work && LogOk(w.ledger.work[sh.task], sh.task, log);
  }

  lemma OnlyFinalSums(b: ResultBatch, task: Id, generation: nat, n: nat, parcel: Parcel, k: nat)
    requires Carried(b, task, generation, n, parcel) && k < |b.results| && b.results[k].Summary?
    ensures b.final
  {
  }

  // A listing that shows the summary shows everything owed.
  lemma SummaryListsAll(sh: Shard, w: World, listed: seq<ResultBatch>)
    requires ValidShard(sh) && Inv(w) && LogCarries(sh, w.Log(sh.task))
    requires listed == Leading(Owed(w, sh.task), RH.LIST_LIMIT) && RH.Summaries(RH.ItemsOf(listed)) != []
    ensures listed == Owed(w, sh.task)
    ensures var log := w.Log(sh.task); log != [] && log[|log| - 1].final
  {
    hide Whole, RH.Summaries, RH.ItemsOf, RowsOk, KeysUnique, SoleLeases, InboxOk, AllIssuedOk, CountsOk, LogOk, LogCarries;
    var o := Owed(w, sh.task);
    SummarySomewhere(listed);
    var i, k :| 0 <= i < |listed| && 0 <= k < |listed[i].results| && listed[i].results[k].Summary?;
    LogNumbered(w, sh.task);
    OwedInOrder(w.ledger.batches, w.Log(sh.task), sh.task);
    assert o[i] == listed[i] && o[i] in o;
    SummaryIsLast(sh, w, o[i].seqNo, k);
    LastIsLast(o, i, |w.Log(sh.task)|);
  }

  lemma LastIsLast(o: seq<ResultBatch>, i: nat, n: nat)
    requires Ascending(Numbers(o)) && i < |o| && o[i].seqNo == n - 1 && forall b :: b in o ==> b.seqNo < n
    ensures i == |o| - 1
  {
    assert o[|o| - 1] in o && Numbers(o)[|o| - 1] == o[|o| - 1].seqNo && Numbers(o)[i] == o[i].seqNo;
  }

  // When a summary has been gathered, what was gathered is everything that was
  // owed, in sequence order, and the task's last batch is among it.
  lemma {:induction false} GatheredIsOwed(sh: Shard, start: real, run: seq<Timed>, at: seq<nat>, polls: seq<RH.Poll>)
    requires ValidShard(sh) && Faithful(sh, start, run)
    requires polls != [] && Watches(start, run, sh.task, at, polls) && Unsettled(run, at[0], sh.task)
    requires RH.Summaries(RH.ItemsOf(RH.Gathered(polls))) != []
    ensures var w := Run(start, run[..at[|at| - 1]]);
            && RH.Gathered(polls) == Owed(w, sh.task)
            && w.Log(sh.task) != [] && w.Log(sh.task)[|w.Log(sh.task)| - 1].final
  {
    var n := at[|at| - 1];
    FaithfulTo(sh, start, run, n);
    LogIsFrontOfWhole(sh, start, run[..n]);
    RunKeeps(start, run[..n]);
    GatheredIsListed(start, run, sh.task, at, polls);
    SummaryListsAll(sh, Run(start, run[..n]), polls[|polls| - 1].listed);
  }

  lemma {:induction false} FaithfulTo(sh: Shard, start: real, run: seq<Timed>, n: nat)
    requires Faithful(sh, start, run) && n <= |run|
    ensures Faithful(sh, start, run[..n])
  {
    forall i | 0 <= i < n && run[i].event.Commit? && run[i].event.batch.task == sh.task
      ensures Produced(sh, Run(start, run[..n][..i]).issued, run[..n][i].event.batch)
    {
      assert run[..n][..i] == run[..i];
    }
  }

  // ----- down to the witnesses

  function WitnessesOf(groups: seq<Group>): seq<Witness> {
    if groups == [] then [] else groups[0].witnesses + WitnessesOf(groups[1..])
  }

  lemma {:induction false} WitnessesAppend(a: seq<Group>, b: seq<Group>)
    ensures WitnessesOf(a + b) == WitnessesOf(a) + WitnessesOf(b)
    decreases |a|
  {
    if a == [] {
      assert a + b == b;
    } else {
      assert (a + b)[1..] == a[1..] + b;
      WitnessesAppend(a[1..], b);
      Assoc(a[0].witnesses, WitnessesOf(a[1..]), WitnessesOf(b));
    }
  }

  lemma {:induction false} GroupsAppend(a: seq<Item>, b: seq<Item>)
    ensures GroupsIn(a + b) == GroupsIn(a) + GroupsIn(b)
    decreases |a|
  {
    if a == [] {
      assert a + b == b;
    } else {
      assert (a + b)[0] == a[0] && (a + b)[1..] == a[1..] + b;
      GroupsAppend(a[1..], b);
      Assoc(if a[0].WitnessGroup? then [a[0].group] else [], GroupsIn(a[1..]), GroupsIn(b));
    }
  }

  lemma {:induction false} WitnessesOfItems(items: seq<Item>)
    ensures RH.WitnessesIn(items) == WitnessesOf(GroupsIn(items))
  {
    if items != [] {
      var n := |items| - 1;
      WitnessesOfItems(items[..n]);
      assert items == items[..n] + [items[n]];
      GroupsAppend(items[..n], [items[n]]);
      var last := GroupsIn([items[n]]);
      WitnessesAppend(GroupsIn(items[..n]), last);
      if items[n].WitnessGroup? {
        assert last == [items[n].group];
        assert WitnessesOf(last) == items[n].group.witnesses + [];
      }
    }
  }

  lemma {:induction false} GroupsOfBatches(bs: seq<ResultBatch>)
    ensures GroupsIn(RH.ItemsOf(bs)) == Committed(bs)
  {
    if bs != [] {
      var n := |bs| - 1;
      GroupsOfBatches(bs[..n]);
      GroupsAppend(RH.ItemsOf(bs[..n]), bs[n].results);
    }
  }

  // The whole chain: if no batch of the task was settled before the executor
  // came, then once it has a summary it has emitted exactly the witnesses of the
  // host groups of the lines that start in the shard's interval, in order.
  lemma {:induction false} HarvestExactlyOnce(sh: Shard, start: real, run: seq<Timed>, at: seq<nat>, polls: seq<RH.Poll>)
    requires ValidShard(sh) && Faithful(sh, start, run)
    requires polls != [] && Watches(start, run, sh.task, at, polls) && Unsettled(run, at[0], sh.task)
    requires RH.Summaries(RH.ItemsOf(RH.Gathered(polls))) != []
    requires var w := Run(start, run[..at[0]]); Owed(w, sh.task) == w.Log(sh.task)
    ensures RH.WitnessesIn(RH.ItemsOf(RH.Gathered(polls))) == WitnessesOf(ShardGroups(sh))
  {
    var n := at[|at| - 1];
    GatheredIsOwed(sh, start, run, at, polls);
    AtLeastFirst(at, |at| - 1);
    FaithfulTo(sh, start, run, n);
    UnsettledTo(start, run, at[0], n, sh.task);
    ExactlyOnce(sh, start, run[..n], Run(start, run[..n]), Run(start, run[..n]).Log(sh.task));
    GroupsOfBatches(RH.Gathered(polls));
    WitnessesOfItems(RH.ItemsOf(RH.Gathered(polls)));
  }

  lemma {:induction false} UnsettledTo(start: real, run: seq<Timed>, i: nat, j: nat, t: Id)
    requires i <= j <= |run| && Unsettled(run, i, t) && Owed(Run(start, run[..i]), t) == Run(start, run[..i]).Log(t)
    ensures Owed(Run(start, run[..j]), t) == Run(start, run[..j]).Log(t)
  {
    OwedGrows(start, run, i, j, t);
  }
}
