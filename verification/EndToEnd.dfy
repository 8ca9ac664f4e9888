// The authority and the harvester together: whatever workers crash, restart,
// race or lose their leases, a shard task commits each host group exactly once.
module EndToEnd {
  import opened Base
  import opened Wire
  import opened LeaseTables
  import opened Runs
  import opened RunInvariant
  import opened LeaseSafety
  import opened Lines
  import opened HostYear
  import opened Packing
  import opened Resume
  import opened BulkShard

  // A shard task: its id, the object it reads and its byte interval.
  datatype Shard = Shard(task: Id, cfg: Config, obj: seq<Octet>, byteStart: nat, byteEnd: nat)

  predicate ValidShard(sh: Shard) {
    sh.byteStart < sh.byteEnd <= |sh.obj|
  }

  function Whole(sh: Shard): seq<Parcel>
    requires ValidShard(sh)
  {
    Parcels(sh.cfg, sh.obj, sh.byteStart, sh.byteEnd)
  }

  // What a producer started with this cursor yields unless it is interrupted.
  function ParcelsFrom(sh: Shard, cursor: Option<Cursor>): seq<Parcel> {
    var s := StartOf(cursor, sh.byteStart);
    if s >= sh.byteEnd then [Parcel([], None, true)]
    else if s <= |sh.obj| then Parcels(sh.cfg, sh.obj, s, sh.byteEnd)
    else []
  }

  predicate ProducedBy(sh: Shard, m: Lease, k: nat, b: ResultBatch) {
    && m.task == sh.task && k < |ParcelsFrom(sh, m.cursor)|
    && Carried(b, m.task, m.generation, m.nextSeq + k, ParcelsFrom(sh, m.cursor)[k])
  }

  // Some producer run, on some lease ever answered, yielded the batch.
  ghost predicate Produced(sh: Shard, issued: set<Lease>, b: ResultBatch) {
    exists m, k :: m in issued && ProducedBy(sh, m, k, b)
  }

  // What the harvester yields, finished or interrupted, is produced in this sense.
  lemma YieldedIsProduced(sh: Shard, m: Lease, yielded: seq<ResultBatch>, i: nat)
    requires m.task == sh.task && i < |yielded|
    requires var s := StartOf(m.cursor, sh.byteStart);
             if s >= sh.byteEnd then
               |yielded| == 1 && Carried(yielded[0], m.task, m.generation, m.nextSeq, Parcel([], None, true))
             else
               || Front(sh.cfg, sh.obj, s, sh.byteEnd, m, yielded)
               || (s <= |sh.obj| && Carry(yielded, m, m.nextSeq, Parcels(sh.cfg, sh.obj, s, sh.byteEnd)))
    ensures ProducedBy(sh, m, i, yielded[i])
  {
  }

  // Every commit offered for the shard's task comes from a producer run. Nothing
  // else is said about who sends what, when, or how often.
  ghost predicate Faithful(sh: Shard, start: real, run: seq<Timed>) {
    forall i :: 0 <= i < |run| && run[i].event.Commit? && run[i].event.batch.task == sh.task ==>
      Produced(sh, Run(start, run[..i]).issued, run[i].event.batch)
  }

  // The log of the task, batch by batch, is a front part of the whole.
  predicate LogCarries(sh: Shard, log: seq<ResultBatch>)
    requires ValidShard(sh)
  {
    && |log| <= |Whole(sh)|
    && forall i :: 0 <= i < |log| ==> Carried(log[i], sh.task, log[i].generation, i, Whole(sh)[i])
  }

  // A producer that starts where the log of its lease ended continues the whole.
  lemma {:induction false} ContinuesTheWhole(sh: Shard, log: seq<ResultBatch>, m: Lease)
    requires ValidShard(sh) && LogCarries(sh, log)
    requires m.nextSeq <= |log| && m.cursor == CursorAt(log, m.nextSeq)
    requires m.nextSeq > 0 ==> !log[m.nextSeq - 1].final
    ensures ParcelsFrom(sh, m.cursor) == Whole(sh)[m.nextSeq..]
  {
    if m.nextSeq > 0 {
      ResumeIsMemoryless(sh.cfg, sh.obj, sh.byteStart, sh.byteEnd, m.nextSeq - 1);
    }
  }

  // The batch with the next number is the next parcel of the whole.
  lemma {:induction false} NextParcel(sh: Shard, log: seq<ResultBatch>, m: Lease, k: nat, b: ResultBatch)
    requires ValidShard(sh) && LogCarries(sh, log)
    requires m.nextSeq <= |log| && m.cursor == CursorAt(log, m.nextSeq)
    requires forall i :: 0 <= i < |log| ==> !log[i].final
    requires ProducedBy(sh, m, k, b) && b.seqNo == |log|
    ensures LogCarries(sh, log + [b])
  {
    ContinuesTheWhole(sh, log, m);
  }

  // A batch is accepted only while the task is open, and the lease it was
  // produced under starts at some point of the log.
  lemma OpenAtCommit(w: World, e: Timed, m: Lease)
    requires Inv(w) && Accepts(w.ledger, e) && m in w.issued && m.task == e.event.batch.task
    ensures m.nextSeq <= |w.Log(m.task)| && m.cursor == CursorAt(w.Log(m.task), m.nextSeq)
    ensures forall i :: 0 <= i < |w.Log(m.task)| ==> !w.Log(m.task)[i].final
  {
    hide RowsOk, KeysUnique, SoleLeases, InboxOk, CountsOk;
    assert IssuedOk(w.ledger.work[m.task], w.Log(m.task), m);
    assert LogOk(w.ledger.work[m.task], m.task, w.Log(m.task));
    OpenTaskHasNoFinal(w.ledger.work[m.task], m.task, w.Log(m.task));
  }

  lemma NextBatch(sh: Shard, w: World, e: Timed, m: Lease, k: nat)
    requires ValidShard(sh) && Inv(w) && LogCarries(sh, w.Log(sh.task))
    requires Accepts(w.ledger, e) && e.event.batch.task == sh.task
    requires m in w.issued && ProducedBy(sh, m, k, e.event.batch)
    ensures LogCarries(sh, w.Log(sh.task) + [e.event.batch])
  {
    var log := w.Log(sh.task);
    OpenAtCommit(w, e, m);
    CommitExtends(w, e);
    hide Inv, Accepts, LogCarries, IssuedOk;
    NextParcel(sh, log, m, k, e.event.batch);
  }

  lemma {:induction false} OpenTaskHasNoFinal(row: WorkRow, t: Id, log: seq<ResultBatch>)
    requires LogOk(row, t, log) && !row.state.Complete?
    ensures forall i :: 0 <= i < |log| ==> !log[i].final
  {
  }

  lemma {:induction false} FaithfulFront(sh: Shard, start: real, run: seq<Timed>)
    requires run != [] && Faithful(sh, start, run)
    ensures Faithful(sh, start, run[..|run| - 1])
  {
    var front := run[..|run| - 1];
    forall i | 0 <= i < |front| && front[i].event.Commit? && front[i].event.batch.task == sh.task
      ensures Produced(sh, Run(start, front[..i]).issued, front[i].event.batch)
    {
      assert front[..i] == run[..i];
    }
  }

  // In every reachable state the committed batches are, in sequence order, a
  // front part of the batches of one uninterrupted run.
  lemma {:induction false} LogIsFrontOfWhole(sh: Shard, start: real, run: seq<Timed>)
    requires ValidShard(sh) && Faithful(sh, start, run)
    ensures LogCarries(sh, Run(start, run).Log(sh.task))
  {
    if run == [] {
      assert Init(start).Log(sh.task) == [];
    } else {
      var n := |run| - 1;
      FaithfulFront(sh, start, run);
      LogIsFrontOfWhole(sh, start, run[..n]);
      RunKeeps(start, run[..n]);
      var w := Run(start, run[..n]);
      if Legal(w, run[n]) && Accepts(w.ledger, run[n]) && run[n].event.batch.task == sh.task {
        var m, k :| m in w.issued && ProducedBy(sh, m, k, run[n].event.batch);
        NextBatch(sh, w, run[n], m, k);
      }
    }
  }

  // ----- what a completed task has committed

  function GroupsIn(items: seq<Item>): seq<Group> {
    if items == [] then []
    else (if items[0].WitnessGroup? then [items[0].group] else []) + GroupsIn(items[1..])
  }

  function Committed(log: seq<ResultBatch>): seq<Group> {
    if log == [] then [] else Committed(log[..|log| - 1]) + GroupsIn(log[|log| - 1].results)
  }

  lemma {:induction false} GroupsInItems(groups: seq<Group>, rest: seq<Item>)
    requires forall i :: 0 <= i < |rest| ==> !rest[i].WitnessGroup?
    ensures GroupsIn(Items(groups) + rest) == groups
    decreases |groups|, |rest|
  {
    var items := Items(groups) + rest;
    if groups == [] {
      assert items == rest;
      if rest != [] {
        GroupsInItems([], rest[1..]);
        assert Items([]) + rest[1..] == rest[1..];
      }
    } else {
      assert items[1..] == Items(groups[1..]) + rest;
      GroupsInItems(groups[1..], rest);
    }
  }

  lemma CarriedGroups(b: ResultBatch, task: Id, generation: nat, n: nat, parcel: Parcel)
    requires Carried(b, task, generation, n, parcel)
    ensures GroupsIn(b.results) == parcel.groups
  {
    var k := |parcel.groups|;
    GroupsInItems(parcel.groups, b.results[k..]);
    assert b.results == Items(parcel.groups) + b.results[k..];
  }

  lemma {:induction false} CommittedIsContents(sh: Shard, log: seq<ResultBatch>)
    requires ValidShard(sh) && LogCarries(sh, log)
    ensures Committed(log) == Contents(Whole(sh)[..|log|])
  {
    if log != [] {
      var n := |log| - 1;
      CommittedIsContents(sh, log[..n]);
      CarriedGroups(log[n], sh.task, log[n].generation, n, Whole(sh)[n]);
      ContentsAppend(Whole(sh)[..n], [Whole(sh)[n]]);
      ContentsOne(Whole(sh)[n]);
      assert Whole(sh)[..n + 1] == Whole(sh)[..n] + [Whole(sh)[n]];
    }
  }

  lemma {:induction false} FinalIsWhole(sh: Shard, log: seq<ResultBatch>)
    requires ValidShard(sh) && LogCarries(sh, log) && log != [] && log[|log| - 1].final
    ensures |log| == |Whole(sh)|
  {
    ParcelsOk(sh.cfg, sh.obj, sh.byteStart, sh.byteEnd);
    var all := Whole(sh);
    assert all[|log| - 1].final;
    forall i | 0 <= i < |all| - 1 ensures !all[i].final {
      assert all[..|all| - 1][i] == all[i];
    }
  }

  // The host groups of exactly the lines that start in the shard's interval.
  function ShardGroups(sh: Shard): seq<Group>
    requires ValidShard(sh)
  {
    GroupsOf(Filter(Records(sh.cfg, ShardLines(sh.obj, sh.byteStart, sh.byteEnd))))
  }

  lemma {:induction false} FinishedLog(sh: Shard, log: seq<ResultBatch>)
    requires ValidShard(sh) && LogCarries(sh, log) && log != [] && log[|log| - 1].final
    ensures Committed(log) == ShardGroups(sh)
  {
    FinalIsWhole(sh, log);
    CommittedIsContents(sh, log);
    assert Whole(sh)[..|log|] == Whole(sh);
    ParcelsCarryTheGroups(sh.cfg, sh.obj, sh.byteStart, sh.byteEnd);
  }

  // End to end: once a final batch is committed, the task's committed groups in
  // sequence order are exactly the host groups of the lines that start in the
  // shard's interval. None is lost, repeated or reordered.
  lemma {:induction false} ExactlyOnce(sh: Shard, start: real, run: seq<Timed>, w: World, log: seq<ResultBatch>)
    requires w == Run(start, run)
    requires ValidShard(sh) && Faithful(sh, start, run)
    requires w.Log(sh.task) == log && log != [] && log[|log| - 1].final
    ensures Committed(log) == ShardGroups(sh)
  {
    LogIsFrontOfWhole(sh, start, run);
    FinishedLog(sh, log);
  }
}
