// The central side of a shard: poll the task's unconsumed batches until its
// summary is seen and the task is complete, emitting every witness once.
module RegionHarvest {
  import opened Base
  import opened Wire
  import opened LeaseTables

  const LIST_LIMIT := 256

  // One turn of the loop: what the store listed, what the task row then said,
  // and whether the waiting time was over.
  datatype Poll = Poll(listed: seq<ResultBatch>, state: TaskState, lastError: Option<string>, late: bool)

  datatype HarvestError = DuplicateSummary | UnexpectedKind(kind: string) | TaskDied(error: Option<string>) | TimedOut

  datatype Outcome = Returned(records: nat, bytesRead: nat, requests: nat) | Failed(error: HarvestError) | Waiting

  // ----- what the loop has read

  predicate Known(bs: seq<ResultBatch>, id: BatchId) {
    exists i :: 0 <= i < |bs| && bs[i].Key() == id
  }

  ghost predicate Tracks(seen: set<BatchId>, bs: seq<ResultBatch>) {
    forall id :: id in seen <==> Known(bs, id)
  }

  // Batches in the order of their first listing.
  function Join(bs: seq<ResultBatch>, listed: seq<ResultBatch>): seq<ResultBatch>
    decreases |listed|
  {
    if listed == [] then bs
    else Join(if Known(bs, listed[0].Key()) then bs else bs + [listed[0]], listed[1..])
  }

  function Gathered(polls: seq<Poll>): seq<ResultBatch> {
    if polls == [] then [] else Join(Gathered(polls[..|polls| - 1]), polls[|polls| - 1].listed)
  }

  function ItemsOf(bs: seq<ResultBatch>): seq<Item> {
    if bs == [] then [] else ItemsOf(bs[..|bs| - 1]) + bs[|bs| - 1].results
  }

  function KeysOf(bs: seq<ResultBatch>): seq<BatchId> {
    seq(|bs|, i requires 0 <= i < |bs| => bs[i].Key())
  }

  function WitnessesIn(items: seq<Item>): seq<Witness> {
    if items == [] then [] else
    var last := items[|items| - 1];
    WitnessesIn(items[..|items| - 1]) + (if last.WitnessGroup? then last.group.witnesses else [])
  }

  function Summaries(items: seq<Item>): seq<Item> {
    if items == [] then [] else
    var last := items[|items| - 1];
    Summaries(items[..|items| - 1]) + (if last.Summary? then [last] else [])
  }

  predicate Expected(items: seq<Item>) {
    forall i :: 0 <= i < |items| ==> !items[i].OtherKind?
  }

  // ----- lemmas on these readings

  lemma {:induction false} JoinExtends(bs: seq<ResultBatch>, listed: seq<ResultBatch>)
    ensures bs <= Join(bs, listed)
    decreases |listed|
  {
    if listed != [] {
      var bs' := if Known(bs, listed[0].Key()) then bs else bs + [listed[0]];
      JoinExtends(bs', listed[1..]);
      assert bs <= bs';
    }
  }

  lemma {:induction false} ItemsExtend(a: seq<ResultBatch>, b: seq<ResultBatch>)
    requires a <= b
    ensures ItemsOf(a) <= ItemsOf(b)
    decreases |b|
  {
    if |a| < |b| {
      var n := |b| - 1;
      assert a <= b[..n];
      ItemsExtend(a, b[..n]);
    } else {
      assert a == b;
    }
  }

  lemma {:induction false} ReadingsExtend(a: seq<Item>, b: seq<Item>)
    requires a <= b
    ensures WitnessesIn(a) <= WitnessesIn(b) && Summaries(a) <= Summaries(b)
    decreases |b|
  {
    if |a| < |b| {
      var n := |b| - 1;
      assert a <= b[..n];
      ReadingsExtend(a, b[..n]);
    } else {
      assert a == b;
    }
  }

  // ----- the loop

  // The local variables of the executor that the inner loop updates.
  datatype Intake = Intake(emitted: seq<Witness>, summary: Option<Item>)

  predicate Reads(in_: Intake, items: seq<Item>) {
    && in_.emitted == WitnessesIn(items) && Expected(items)
    && Summaries(items) == (if in_.summary.Some? then [in_.summary.value] else [])
    && (in_.summary.Some? ==> in_.summary.value.Summary?)
  }

  // Why an item stops the loop.
  predicate Stops(items: seq<Item>, error: HarvestError) {
    match error
    case DuplicateSummary => |Summaries(items)| >= 2
    case UnexpectedKind(kind) => OtherKind(kind) in items
    case _ => false
  }

  // What reading one more item amounts to.
  lemma OneMoreItem(in_: Intake, seen: seq<Item>, item: Item)
    requires Reads(in_, seen)
    ensures var now := seen + [item];
            match item
            case WitnessGroup(group) => Reads(in_.(emitted := in_.emitted + group.witnesses), now)
            case Summary(_, _, _) =>
              if in_.summary.Some? then Stops(now, DuplicateSummary) else Reads(in_.(summary := Some(item)), now)
            case OtherKind(kind) => Stops(now, UnexpectedKind(kind))
  {
    var now := seen + [item];
    assert now[..|now| - 1] == seen && now[|now| - 1] == item;
  }

  lemma UpTo(items: seq<Item>, results: seq<Item>, i: nat)
    requires i < |results|
    ensures items + results[..i + 1] == (items + results[..i]) + [results[i]]
  {
  }

  method TakeItems(before: Intake, results: seq<Item>, ghost items: seq<Item>)
    returns (after: Intake, error: Option<HarvestError>, ghost taken: nat)
    requires Reads(before, items)
    ensures taken <= |results|
    ensures error.None? ==> taken == |results| && Reads(after, items + results)
    ensures error.Some? ==> taken < |results| && Reads(after, items + results[..taken])
                            && Stops(items + results[..taken + 1], error.value)
  {
    assert items + results[..0] == items;
    hide Reads, Stops;
    after, error, taken := before, None, 0;
    for i := 0 to |results|
      invariant error.None? && taken == i && Reads(after, items + results[..i])
    {
      OneMoreItem(after, items + results[..i], results[i]);
      UpTo(items, results, i);
      match results[i] {
        case WitnessGroup(group) =>
          after := after.(emitted := after.emitted + group.witnesses);
        case Summary(_, _, _) =>
          if after.summary.Some? {
            error := Some(DuplicateSummary);
            return;
          }
          after := after.(summary := Some(results[i]));
        case OtherKind(kind) =>
          error := Some(UnexpectedKind(kind));
          return;
      }
      taken := i + 1;
    }
    assert results[..|results|] == results;
  }

  // Nothing that ends the wait shows up in this turn: all items read are well
  // formed with one summary at most, the task is not dead, not complete with its
  // summary seen, and there is time left.
  predicate GoesOn(polls: seq<Poll>, k: nat)
    requires k < |polls|
  {
    var items := ItemsOf(Gathered(polls[..k + 1]));
    && Expected(items) && |Summaries(items)| <= 1 && !polls[k].late
    && !(polls[k].state == Dead) && !(polls[k].state == Complete && |Summaries(items)| == 1)
  }

  // How this turn ends the wait: bad items come before a dead task, that before
  // a complete one with its summary, and that before the time limit.
  predicate EndsWith(polls: seq<Poll>, k: nat, outcome: Outcome)
    requires k < |polls|
  {
    var items := ItemsOf(Gathered(polls[..k + 1]));
    if !Expected(items) || |Summaries(items)| >= 2 then outcome.Failed? && Stops(items, outcome.error)
    else if polls[k].state == Dead then outcome == Failed(TaskDied(polls[k].lastError))
    else if polls[k].state == Complete && |Summaries(items)| == 1 then
      outcome.Returned? && Summaries(items) == [Summary(outcome.records, outcome.bytesRead, outcome.requests)]
    else polls[k].late && outcome == Failed(TimedOut)
  }

  lemma NothingRead()
    ensures Reads(Intake([], None), ItemsOf(Gathered([]))) && KeysOf(Gathered([])) == [] && Tracks({}, Gathered([]))
  {
  }

  lemma OneMorePoll(polls: seq<Poll>, k: nat)
    requires k < |polls|
    ensures Gathered(polls[..k + 1]) == Join(Gathered(polls[..k]), polls[k].listed)
  {
    assert polls[..k + 1][..k] == polls[..k];
  }

  lemma WhatWasRead(in_: Intake, items: seq<Item>)
    requires Reads(in_, items)
    ensures in_.emitted == WitnessesIn(items) && Expected(items)
    ensures |Summaries(items)| == if in_.summary.Some? then 1 else 0
    ensures in_.summary.Some? ==>
              var s := in_.summary.value; s.Summary? && Summaries(items) == [Summary(s.records, s.bytesRead, s.requests)]
  {
  }

  // Items that stop the loop are not as expected.
  lemma StopsAreBad(items: seq<Item>, error: HarvestError)
    requires Stops(items, error)
    ensures !Expected(items) || |Summaries(items)| >= 2
  {
    if error.UnexpectedKind? {
      var i :| 0 <= i < |items| && items[i] == OtherKind(error.kind);
      assert items[i].OtherKind?;
    }
  }

  class FabricRegionHarvestExecutor {
    // Batches to be marked consumed once the region's evidence is committed.
    var pendingBatchIds: seq<BatchId>

    constructor ()
      ensures pendingBatchIds == []
    {
      pendingBatchIds := [];
    }

    method TakeListing(before: Intake, seen: set<BatchId>, listed: seq<ResultBatch>, ghost bs: seq<ResultBatch>)
      returns (after: Intake, seen': set<BatchId>, error: Option<HarvestError>)
      requires Reads(before, ItemsOf(bs)) && pendingBatchIds == KeysOf(bs) && Tracks(seen, bs)
      modifies this
      ensures var all := Join(bs, listed);
              if error.None? then
                && Reads(after, ItemsOf(all)) && pendingBatchIds == KeysOf(all) && Tracks(seen', all)
              else
                && Stops(ItemsOf(all), error.value) && after.emitted <= WitnessesIn(ItemsOf(all)) && pendingBatchIds <= KeysOf(all)
    {
      after, seen', error := before, seen, None;
      ghost var done := bs;
      for i := 0 to |listed|
        invariant error.None? && Reads(after, ItemsOf(done)) && pendingBatchIds == KeysOf(done)
        invariant Tracks(seen', done)
        invariant Join(done, listed[i..]) == Join(bs, listed)
      {
        var batch := listed[i];
        assert listed[i..][0] == batch && listed[i..][1..] == listed[i + 1..];
        if batch.Key() !in seen' {
          seen' := seen' + {batch.Key()};
          ghost var taken;
          after, error, taken := TakeItems(after, batch.results, ItemsOf(done));
          if error.Some? {
            StoppedEarly(done, batch, taken, listed[i + 1..], error.value);
            return;
          }
          pendingBatchIds := pendingBatchIds + [batch.Key()];
          OneMoreBatch(done, batch, seen' - {batch.Key()});
          done := done + [batch];
        }
      }
    }

    // `polled` counts the turns taken.
    method ExecuteHttpRegion(polls: seq<Poll>) returns (outcome: Outcome, emitted: seq<Witness>, polled: nat)
      requires pendingBatchIds == []
      modifies this
      ensures polled <= |polls|
      ensures var bs := Gathered(polls[..polled]);
              match outcome
              case Returned(records, bytesRead, requests) =>
                && polled > 0 && polls[polled - 1].state.Complete?
                && Summaries(ItemsOf(bs)) == [Summary(records, bytesRead, requests)]
                && emitted == WitnessesIn(ItemsOf(bs)) && Expected(ItemsOf(bs)) && pendingBatchIds == KeysOf(bs)
              case Waiting =>
                && polled == |polls|
                && emitted == WitnessesIn(ItemsOf(bs)) && Expected(ItemsOf(bs)) && pendingBatchIds == KeysOf(bs)
              case Failed(error) =>
                && polled > 0 && emitted <= WitnessesIn(ItemsOf(bs)) && pendingBatchIds <= KeysOf(bs)
                && match error
                   case TaskDied(e) => polls[polled - 1].state.Dead? && polls[polled - 1].lastError == e
                   case TimedOut => polls[polled - 1].late
                   case _ => Stops(ItemsOf(bs), error)
      ensures forall k :: 0 <= k < polled && (outcome.Waiting? || k < polled - 1) ==> GoesOn(polls, k)
      ensures !outcome.Waiting? ==> polled > 0 && EndsWith(polls, polled - 1, outcome)
    {
      hide Reads, ItemsOf, Summaries, WitnessesIn, Expected, Stops, Join, KeysOf, Tracks, Gathered;
      NothingRead();
      var intake, seen: set<BatchId> := Intake([], None), {};
      polled := 0;
      assert polls[..0] == [];
      while polled < |polls|
        invariant polled <= |polls|
        invariant Reads(intake, ItemsOf(Gathered(polls[..polled])))
        invariant pendingBatchIds == KeysOf(Gathered(polls[..polled]))
        invariant Tracks(seen, Gathered(polls[..polled]))
        invariant forall k :: 0 <= k < polled ==> GoesOn(polls, k)
      {
        var poll := polls[polled];
        ghost var bs := Gathered(polls[..polled]);
        OneMorePoll(polls, polled);
        var error;
        intake, seen, error := TakeListing(intake, seen, poll.listed, bs);
        polled := polled + 1;
        if error.Some? {
          StopsAreBad(ItemsOf(Gathered(polls[..polled])), error.value);
          return Failed(error.value), intake.emitted, polled;
        }
        WhatWasRead(intake, ItemsOf(Gathered(polls[..polled])));
        if poll.state.Dead? {
          return Failed(TaskDied(poll.lastError)), intake.emitted, polled;
        }
        if poll.state.Complete? && intake.summary.Some? {
          var s := intake.summary.value;
          return Returned(s.records, s.bytesRead, s.requests), intake.emitted, polled;
        }
        if poll.late {
          return Failed(TimedOut), intake.emitted, polled;
        }
      }
      WhatWasRead(intake, ItemsOf(Gathered(polls[..polled])));
      return Waiting, intake.emitted, polled;
    }
  }

  lemma OneMoreBatch(bs: seq<ResultBatch>, b: ResultBatch, seen: set<BatchId>)
    requires Tracks(seen, bs)
    ensures Tracks(seen + {b.Key()}, bs + [b])
    ensures KeysOf(bs + [b]) == KeysOf(bs) + [b.Key()]
    ensures ItemsOf(bs + [b]) == ItemsOf(bs) + b.results
  {
    assert (bs + [b])[..|bs|] == bs;
    var all := bs + [b];
    assert all[|bs|] == b;
    forall id | Known(bs, id) ensures Known(all, id) {
      var i :| 0 <= i < |bs| && bs[i].Key() == id;
      assert all[i] == bs[i];
    }
  }

  lemma StoppedEarly(done: seq<ResultBatch>, b: ResultBatch, taken: nat, rest: seq<ResultBatch>, error: HarvestError)
    requires taken < |b.results| && Stops(ItemsOf(done) + b.results[..taken + 1], error)
    ensures var all := Join(done + [b], rest);
            && Stops(ItemsOf(all), error) && WitnessesIn(ItemsOf(done) + b.results[..taken]) <= WitnessesIn(ItemsOf(all))
            && KeysOf(done) <= KeysOf(all)
  {
    var next, all := done + [b], Join(done + [b], rest);
    assert next[..|done|] == done;
    JoinExtends(next, rest);
    ItemsExtend(next, all);
    var some, less := ItemsOf(done) + b.results[..taken + 1], ItemsOf(done) + b.results[..taken];
    assert some <= ItemsOf(next) && less <= ItemsOf(next);
    ReadingsExtend(some, ItemsOf(all));
    ReadingsExtend(less, ItemsOf(all));
    if error.UnexpectedKind? {
      var i :| 0 <= i < |some| && some[i] == OtherKind(error.kind);
      assert ItemsOf(all)[i] == some[i];
    }
  }

  // ----- listings that only grow

  predicate Distinct(bs: seq<ResultBatch>) {
    forall i, j :: 0 <= i < j < |bs| ==> bs[i].Key() != bs[j].Key()
  }

  lemma {:induction false} JoinLonger(bs: seq<ResultBatch>, k: nat, listed: seq<ResultBatch>)
    requires k <= |bs| && Distinct(bs[..k] + listed) && (k < |bs| ==> bs[k..] <= listed)
    ensures Join(bs, listed) == bs[..k] + listed
    decreases |listed|
  {
    if listed == [] {
      assert bs[..k] == bs;
    } else if k < |bs| {
      assert bs[k] == listed[0];
      assert Known(bs, listed[0].Key());
      assert bs[..k + 1] + listed[1..] == bs[..k] + listed;
      JoinLonger(bs, k + 1, listed[1..]);
    } else {
      assert bs[..k] == bs;
      assert !Known(bs, listed[0].Key()) by {
        if i :| 0 <= i < |bs| && bs[i].Key() == listed[0].Key() {
          assert (bs + listed)[i] == bs[i] && (bs + listed)[|bs|] == listed[0];
        }
      }
      var bs' := bs + [listed[0]];
      assert bs'[..k + 1] + listed[1..] == bs[..k] + listed;
      JoinLonger(bs', k + 1, listed[1..]);
    }
  }

  // When each listing extends the one before, the last is all there is.
  lemma {:induction false} GatheredIsLast(polls: seq<Poll>)
    requires polls != []
    requires forall k :: 0 <= k < |polls| ==> Distinct(polls[k].listed)
    requires forall k :: 0 < k < |polls| ==> polls[k - 1].listed <= polls[k].listed
    ensures Gathered(polls) == polls[|polls| - 1].listed
  {
    var n := |polls| - 1;
    var front, listed := polls[..n], polls[n].listed;
    if n > 0 { GatheredIsLast(front); }
    var bs := Gathered(front);
    assert bs <= listed by { if n > 0 { assert front[n - 1] == polls[n - 1]; } }
    assert bs[..0] + listed == listed && bs[0..] == bs;
    JoinLonger(bs, 0, listed);
  }
}
