// Lease keepers that hear the authority through a network that may lose, delay,
// reorder and duplicate answers: with one clock and one lease length, two
// generations of a task are never both owned unless the older was ended early.
module Ownership {
  import opened Base
  import opened Wire
  import opened LeaseTables
  import opened LeaseKeeping
  import opened Runs
  import opened RunInvariant
  import opened LeaseSafety

  // ----- the network

  datatype Net = Net(world: World, keepers: map<Id, Keeper>)

  datatype Action =
    | Transact(e: Timed)
    | Start(keeper: Id, lease: Lease)
    | Listen(keeper: Id, heard: Heard)

  // Any answer ever given may arrive at any later time, any number of times.
  ghost predicate Possible(n: Net, a: Action, seconds: real) {
    match a
    case Transact(e) =>
      && Legal(n.world, e)
      && (e.event.Claim? ==> e.event.seconds == seconds)
      && (e.event.Renew? ==> e.event.seconds == seconds)
    case Start(k, m) => m in n.world.issued && k !in n.keepers
    case Listen(k, h) => k in n.keepers && (h.Renewed? ==> h.answer in n.world.issued)
  }

  ghost function Act(n: Net, a: Action): Net {
    match a
    case Transact(e) => n.(world := Step(n.world, e))
    case Start(k, m) => n.(keepers := n.keepers[k := Keeper(m, false)])
    case Listen(k, h) => if k in n.keepers then n.(keepers := n.keepers[k := Hear(n.keepers[k], h)]) else n
  }

  ghost function Play(start: real, seconds: real, script: seq<Action>): Net {
    if script == [] then Net(Init(start), map[]) else
    var n := Play(start, seconds, script[..|script| - 1]);
    var a := script[|script| - 1];
    if Possible(n, a, seconds) then Act(n, a) else n
  }

  // ----- deadlines

  predicate DeadlineOk(t: Id, row: WorkRow, released: set<(Id, nat)>, clock: real, seconds: real, m: Lease) {
    && (row.state.Leased? && row.deadline.Some? ==> row.deadline.value <= clock + seconds)
    && (m.generation == row.generation && row.state.Leased? && row.deadline.Some? ==> m.deadline <= row.deadline.value)
    && (m.generation < row.generation && (t, m.generation) !in released ==> m.deadline <= clock)
  }

  ghost predicate LeasesShort(w: World, seconds: real) {
    forall t :: t in w.ledger.work ==>
      w.ledger.work[t].state.Leased? && w.ledger.work[t].deadline.Some? ==> w.ledger.work[t].deadline.value <= w.clock + seconds
  }

  ghost predicate DeadlinesOk(w: World, seconds: real) {
    forall m :: m in w.issued && m.task in w.ledger.work ==>
      DeadlineOk(m.task, w.ledger.work[m.task], w.released, w.clock, seconds, m)
  }

  // With one lease length a grant or an extension lasts exactly that long.
  lemma FixedLength(w: World, e: Timed, t: Id, seconds: real)
    requires Legal(w, e) && t in w.ledger.work && t in Next(w.ledger, e).work
    requires (e.event.Claim? ==> e.event.seconds == seconds) && (e.event.Renew? ==> e.event.seconds == seconds)
    requires MoveOf(w.ledger, e, t).Grant? || MoveOf(w.ledger, e, t).Extend?
    ensures Next(w.ledger, e).work[t].deadline == Some(e.now + seconds)
  {
  }

  lemma DeadlineMove(mv: Move, t: Id, row: WorkRow, row': WorkRow, now: real, clock: real, seconds: real,
                     released: set<(Id, nat)>, released': set<(Id, nat)>, workers: map<Id, Worker>, m: Lease)
    requires Moves(mv, t, row, row', now) && clock <= now && released <= released'
    requires mv.Grant? || mv.Extend? ==> row'.deadline == Some(now + seconds)
    requires RowOk(workers, released, t, row) && 1 <= m.generation <= row.generation
    requires DeadlineOk(t, row, released, clock, seconds, m)
    ensures DeadlineOk(t, row', released', now, seconds, m)
  {
  }

  lemma LeaseStaysShort(w: World, e: Timed, seconds: real, t: Id)
    requires Possible(Net(w, map[]), Transact(e), seconds) && t in Next(w.ledger, e).work
    requires t in w.ledger.work && w.ledger.work[t].state.Leased? && w.ledger.work[t].deadline.Some? ==>
               w.ledger.work[t].deadline.value <= w.clock + seconds
    requires Next(w.ledger, e).work[t].state.Leased? && Next(w.ledger, e).work[t].deadline.Some?
    ensures Next(w.ledger, e).work[t].deadline.value <= e.now + seconds
  {
    if t in w.ledger.work {
      EveryMove(w, e, t);
      if MoveOf(w.ledger, e, t).Grant? || MoveOf(w.ledger, e, t).Extend? { FixedLength(w, e, t, seconds); }
    } else {
      OnlyAdmitAdds(w.ledger, e, t);
    }
  }

  lemma HeardDeadline(w: World, e: Timed, seconds: real, m: Lease)
    requires Possible(Net(w, map[]), Transact(e), seconds) && m.task in w.ledger.work
    requires RowOk(w.ledger.workers, w.released, m.task, w.ledger.work[m.task])
    requires IssuedOk(w.ledger.work[m.task], w.Log(m.task), m)
    requires DeadlineOk(m.task, w.ledger.work[m.task], w.released, w.clock, seconds, m)
    ensures m.task in Next(w.ledger, e).work
    ensures DeadlineOk(m.task, Next(w.ledger, e).work[m.task], Step(w, e).released, e.now, seconds, m)
  {
    var mv := MoveOf(w.ledger, e, m.task);
    EveryMove(w, e, m.task);
    if mv.Grant? || mv.Extend? { FixedLength(w, e, m.task, seconds); }
    DeadlineMove(mv, m.task, w.ledger.work[m.task], Next(w.ledger, e).work[m.task], e.now, w.clock, seconds,
                 w.released, Step(w, e).released, w.ledger.workers, m);
  }

  lemma NewDeadline(w: World, e: Timed, seconds: real, m: Lease)
    requires LeasesShort(Step(w, e), seconds) && m in Step(w, e).issued && m !in w.issued
    ensures m.task in Next(w.ledger, e).work
    ensures DeadlineOk(m.task, Next(w.ledger, e).work[m.task], Step(w, e).released, e.now, seconds, m)
  {
    AnswerIsRow(w.ledger, e);
  }

  lemma DeadlinesKeep(w: World, e: Timed, seconds: real)
    requires Inv(w) && LeasesShort(w, seconds) && DeadlinesOk(w, seconds)
    requires Possible(Net(w, map[]), Transact(e), seconds)
    ensures LeasesShort(Step(w, e), seconds) && DeadlinesOk(Step(w, e), seconds)
  {
    var l' := Next(w.ledger, e);
    forall t | t in l'.work && l'.work[t].state.Leased? && l'.work[t].deadline.Some?
      ensures l'.work[t].deadline.value <= e.now + seconds
    {
      LeaseStaysShort(w, e, seconds, t);
    }
    forall m | m in Step(w, e).issued && m.task in l'.work
      ensures DeadlineOk(m.task, l'.work[m.task], Step(w, e).released, e.now, seconds, m)
    {
      if m in w.issued { HeardDeadline(w, e, seconds, m); } else { NewDeadline(w, e, seconds, m); }
    }
  }

  ghost predicate WorldInv(w: World, seconds: real) {
    Inv(w) && LeasesShort(w, seconds) && DeadlinesOk(w, seconds)
  }

  ghost predicate KeepersOk(n: Net) {
    forall k :: k in n.keepers ==> n.keepers[k].lease in n.world.issued
  }

  lemma WorldKeeps(n: Net, e: Timed, seconds: real)
    requires WorldInv(n.world, seconds) && Possible(n, Transact(e), seconds)
    ensures WorldInv(Step(n.world, e), seconds)
  {
    StepKeeps(n.world, e);
    DeadlinesKeep(n.world, e, seconds);
  }

  lemma KeepersKeep(n: Net, a: Action, seconds: real)
    requires KeepersOk(n) && Possible(n, a, seconds)
    ensures KeepersOk(Act(n, a))
  {
  }

  lemma {:induction false} PlayKeeps(start: real, seconds: real, script: seq<Action>)
    ensures WorldInv(Play(start, seconds, script).world, seconds) && KeepersOk(Play(start, seconds, script))
  {
    if script == [] {
      RunKeeps(start, []);
    } else {
      var n, a := Play(start, seconds, script[..|script| - 1]), script[|script| - 1];
      PlayKeeps(start, seconds, script[..|script| - 1]);
      if Possible(n, a, seconds) {
        KeepersKeep(n, a, seconds);
        if a.Transact? { WorldKeeps(n, a.e, seconds); }
      }
    }
  }

  // Two keepers with different generations of one task are never both owners,
  // unless the older generation was ended by re-registration, revocation or
  // its own failure report.
  lemma {:induction false} MutualExclusion(start: real, seconds: real, script: seq<Action>, j: Id, k: Id, now: real)
    requires now >= Play(start, seconds, script).world.clock
    requires var n := Play(start, seconds, script);
             && j in n.keepers && k in n.keepers && Owned(n.keepers[j], now) && Owned(n.keepers[k], now)
             && n.keepers[j].lease.task == n.keepers[k].lease.task
             && n.keepers[j].lease.generation < n.keepers[k].lease.generation
    ensures var first := Play(start, seconds, script).keepers[j].lease;
            (first.task, first.generation) in Play(start, seconds, script).world.released
  {
    PlayKeeps(start, seconds, script);
    var n := Play(start, seconds, script);
    var a, b := n.keepers[j].lease, n.keepers[k].lease;
    assert IssuedOk(n.world.ledger.work[b.task], n.world.Log(b.task), b);
    assert DeadlineOk(a.task, n.world.ledger.work[a.task], n.world.released, n.world.clock, seconds, a);
  }

  lemma RenewalOfIssued(w: World, seconds: real, m: Lease, now: real)
    requires WorldInv(w, seconds) && m in w.issued
    ensures RenewTask(w.ledger, m.task, m.worker, m.instance, m.generation, seconds, Some(m.deadline), now).reply
              != Err(DeadlineRegressed)
  {
    assert IssuedOk(w.ledger.work[m.task], w.Log(m.task), m);
    assert DeadlineOk(m.task, w.ledger.work[m.task], w.released, w.clock, seconds, m);
  }

  // A renewal that carries the deadline its keeper last heard is never told
  // that the authority's deadline regressed.
  lemma {:induction false} NeverRegressed(start: real, seconds: real, script: seq<Action>, k: Id, now: real)
    requires k in Play(start, seconds, script).keepers
    ensures var n := Play(start, seconds, script);
            var m := n.keepers[k].lease;
            RenewTask(n.world.ledger, m.task, m.worker, m.instance, m.generation, seconds, Some(m.deadline), now).reply
              != Err(DeadlineRegressed)
  {
    PlayKeeps(start, seconds, script);
    var n := Play(start, seconds, script);
    RenewalOfIssued(n.world, seconds, n.keepers[k].lease, now);
  }

  lemma OwnerOfRow(w: World, seconds: real, m: Lease, now: real)
    requires WorldInv(w, seconds) && m in w.issued && w.clock <= now < m.deadline
    ensures m.task in w.ledger.work
    ensures (m.task, m.generation) !in w.released && !w.ledger.work[m.task].state.Complete? && !w.ledger.work[m.task].state.Dead?
            ==> Fenced(w.ledger, m.task, m.worker, m.instance, m.generation, now)
  {
  }

  // A keeper that may act is never wrong about the authority: unless its
  // generation was ended early or the task is finished, the row is still leased
  // to exactly its fencing tuple.
  lemma {:induction false} OwnerIsLeased(start: real, seconds: real, script: seq<Action>, k: Id, now: real)
    requires now >= Play(start, seconds, script).world.clock
    requires k in Play(start, seconds, script).keepers && Owned(Play(start, seconds, script).keepers[k], now)
    ensures var n := Play(start, seconds, script);
            var m := n.keepers[k].lease;
            && m.task in n.world.ledger.work
            && ((m.task, m.generation) in n.world.released
                || n.world.ledger.work[m.task].state.Complete? || n.world.ledger.work[m.task].state.Dead?
                || Fenced(n.world.ledger, m.task, m.worker, m.instance, m.generation, now))
  {
    PlayKeeps(start, seconds, script);
    OwnerOfRow(Play(start, seconds, script).world, seconds, Play(start, seconds, script).keepers[k].lease, now);
  }
}
