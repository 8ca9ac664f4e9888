// Whole runs of the authority: a run is a sequence of timed transactions, and
// the world records, beside the tables, the history the theorems speak about.
module Runs {
  import opened Base
  import opened Wire
  import opened LeaseTables

  datatype Event =
    | Register(worker: Id, descriptor: Worker, protocol: string)
    | Revoke(worker: Id)
    | Admit(work: WorkDefinition, taskId: Id, prior: Option<Id>)
    | Claim(worker: Id, instance: Id, seconds: real, held: Option<Id>, rows: seq<Id>, regionOk: set<Id>)
    | Renew(task: Id, worker: Id, instance: Id, generation: nat, seconds: real, expected: Option<real>)
    | Commit(batch: ResultBatch, worker: Id, instance: Id)
    | Finish(task: Id, worker: Id, instance: Id, generation: nat)
    | Fail(task: Id, worker: Id, instance: Id, generation: nat, error: string, retryable: bool, retryAfter: real)
    | Consume(id: BatchId)
    | ConsumeFail(id: BatchId, error: string, maxAttempts: nat)
    | Gc(gone: set<BatchId>, compacted: set<Id>, retention: real)

  datatype Timed = Timed(now: real, event: Event)

  // `log` lists the accepted batches of each task in order of acceptance,
  // `issued` every lease ever answered, `released` the generations ended early
  // by re-registration, revocation or failure, `claims` the fresh claims and
  // `allowance` the attempts admitted, both per task.
  datatype World = World(
    ledger: Ledger,
    log: map<Id, seq<ResultBatch>>,
    issued: set<Lease>,
    released: set<(Id, nat)>,
    claims: multiset<Id>,
    allowance: multiset<Id>,
    clock: real)
  {
    function Log(t: Id): seq<ResultBatch> { if t in log then log[t] else [] }
  }

  function Init(start: real): World {
    World(Ledger(map[], map[], map[]), map[], {}, {}, multiset{}, multiset{}, start)
  }

  // Time does not run backwards, and the answers of the SQL engine that an
  // event carries are answers it may give.
  ghost predicate Legal(w: World, e: Timed) {
    && e.now >= w.clock
    && match e.event
       case Admit(d, _, prior) => ValidDefinition(d) && IsPrior(w.ledger, d, prior)
       case Claim(worker, instance, _, held, rows, _) => ClaimInputs(w.ledger, worker, instance, held, rows, e.now)
       case Gc(gone, compacted, retention) => retention > 0.0 && CollectInputs(w.ledger, gone, compacted, e.now - retention)
       case _ => true
  }

  function Next(l: Ledger, e: Timed): Ledger {
    match e.event
    case Register(worker, d, p) => RegisterWorker(l, worker, d, p, e.now).ledger
    case Revoke(worker) => RevokeWorker(l, worker, e.now).ledger
    case Admit(d, t, prior) => AdmitWork(l, d, t, prior, e.now).ledger
    case Claim(worker, i, s, held, rows, ok) => ClaimWork(l, worker, i, s, held, rows, ok, e.now).ledger
    case Renew(t, worker, i, g, s, expected) => RenewTask(l, t, worker, i, g, s, expected, e.now).ledger
    case Commit(b, worker, i) => CommitBatch(l, b, worker, i, e.now).ledger
    case Finish(t, worker, i, g) => FinishTask(l, t, worker, i, g, e.now).ledger
    case Fail(t, worker, i, g, err, retryable, after) => FailTask(l, t, worker, i, g, err, retryable, after, e.now).ledger
    case Consume(id) => MarkConsumed(l, id, e.now).ledger
    case ConsumeFail(id, err, m) => MarkConsumeFailed(l, id, err, m).ledger
    case Gc(gone, compacted, _) => Collect(l, gone, compacted)
  }

  // The lease a claim or a renewal answers, if it answers one.
  function Answer(l: Ledger, e: Timed): Option<Lease> {
    match e.event
    case Claim(worker, i, s, held, rows, ok) =>
      var reply := ClaimWork(l, worker, i, s, held, rows, ok, e.now).reply;
      if reply.Ok? then reply.value else None
    case Renew(t, worker, i, g, s, expected) =>
      var reply := RenewTask(l, t, worker, i, g, s, expected, e.now).reply;
      if reply.Ok? then Some(reply.value) else None
    case _ => None
  }

  predicate Accepts(l: Ledger, e: Timed) {
    e.event.Commit? && CommitBatch(l, e.event.batch, e.event.worker, e.event.instance, e.now).reply == Ok(true)
  }

  predicate Inserts(l: Ledger, e: Timed) {
    e.event.Admit? && AdmitWork(l, e.event.work, e.event.taskId, e.event.prior, e.now).reply == Ok((e.event.taskId, true))
  }

  predicate Ends(ev: Event) { ev.Register? || ev.Revoke? || ev.Fail? }

  // Generations that were leased before the transaction and are not after it.
  ghost function Dropped(l: Ledger, l': Ledger): set<(Id, nat)> {
    set t | t in l.work && l.work[t].state.Leased? && t in l'.work && !l'.work[t].state.Leased? :: (t, l.work[t].generation)
  }

  ghost function Step(w: World, e: Timed): World {
    var l' := Next(w.ledger, e);
    var answer := Answer(w.ledger, e);
    World(
      l',
      if Accepts(w.ledger, e) then w.log[e.event.batch.task := w.Log(e.event.batch.task) + [e.event.batch]] else w.log,
      if answer.Some? then w.issued + {answer.value} else w.issued,
      if Ends(e.event) then w.released + Dropped(w.ledger, l') else w.released,
      if answer.Some? && e.event.Claim? && e.event.held.None?
      then w.claims[answer.value.task := w.claims[answer.value.task] + 1] else w.claims,
      if Inserts(w.ledger, e) then w.allowance[e.event.taskId := e.event.work.maxAttempts] else w.allowance,
      e.now)
  }

  // The world after a run; an event that cannot happen then is skipped, so
  // every sequence of events is a run.
  ghost function Run(start: real, run: seq<Timed>): World {
    if run == [] then Init(start) else
    var w := Run(start, run[..|run| - 1]);
    var e := run[|run| - 1];
    if Legal(w, e) then Step(w, e) else w
  }

  // ----- how one task can move in one step

  predicate Current(workers: map<Id, Worker>, row: WorkRow) {
    && row.owner.Some? && row.instance.Some? && row.deadline.Some?
    && row.owner.value in workers
    && !workers[row.owner.value].revoked
    && workers[row.owner.value].instance == row.instance.value
  }

  datatype Move = Stay | Drop | Grant | Extend | Advance(batch: ResultBatch) | Close | Stop | Compact

  predicate Unexpired(row: WorkRow, now: real) {
    row.state.Leased? && row.deadline.Some? && row.deadline.value > now
  }

  predicate Moves(mv: Move, t: Id, row: WorkRow, row': WorkRow, now: real) {
    match mv
    case Stay => row' == row
    case Drop => row.state.Leased? && row' == Released(row, now)
    case Grant =>
      && Claimable(row, now) && row'.owner.Some? && row'.instance.Some? && row'.deadline.Some?
      && row' == Granted(row, row'.owner.value, row'.instance.value, row'.deadline.value, now)
    case Extend =>
      Unexpired(row, now) && row'.deadline.Some? && row' == row.(deadline := row'.deadline, updatedAt := now)
    case Advance(b) =>
      && Unexpired(row, now) && b.task == t && b.generation == row.generation && b.seqNo == row.nextSeq
      && var moved := row.(cursor := b.cursorAfter, nextSeq := b.seqNo + 1, updatedAt := now);
         row' == if b.final then moved.(state := Complete, owner := None, instance := None, deadline := None) else moved
    case Close =>
      Unexpired(row, now) && row' == row.(state := Complete, owner := None, instance := None, deadline := None, updatedAt := now)
    case Stop =>
      && Unexpired(row, now) && (row'.state.Retry? || row'.state.Dead?)
      && row' == row.(state := row'.state, owner := None, instance := None, deadline := None,
                      work := row.work.(notBefore := row'.work.notBefore), lastError := row'.lastError, updatedAt := now)
    case Compact => row.state.Complete? && row' == Compacted(row)
  }

  predicate Passive(mv: Move) { mv.Stay? || mv.Drop? || mv.Compact? }

  // The task a transaction is about; every other task can only stay, be
  // dropped or be compacted.
  function Focus(l: Ledger, e: Timed): Option<Id> {
    match e.event
    case Claim(worker, _, _, None, rows, ok) =>
      if worker in l.workers then
        var i := FirstEligible(l.work, rows, l.workers[worker], ok);
        if i < |rows| then Some(rows[i]) else None
      else None
    case Claim(_, _, _, held, _, _) => held
    case Renew(t, _, _, _, _, _) => Some(t)
    case Commit(b, _, _) => Some(b.task)
    case Finish(t, _, _, _) => Some(t)
    case Fail(t, _, _, _, _, _, _) => Some(t)
    case _ => None
  }

  function MoveOf(l: Ledger, e: Timed, t: Id): Move
    requires t in l.work
  {
    var row := l.work[t];
    match e.event
    case Register(worker, d, p) => if p == PROTOCOL_VERSION && HeldByOther(row, worker, d.instance) then Drop else Stay
    case Revoke(worker) => if worker in l.workers && HeldBy(row, worker) then Drop else Stay
    case Claim(worker, i, s, held, rows, _) =>
      if s > 0.0 && Registered(l, worker, i) && held.None? && Focus(l, e) == Some(t) then Grant else Stay
    case Renew(u, worker, i, g, s, expected) =>
      var answer := Answer(l, e);
      if answer.Some? && t == u && row.deadline != Some(answer.value.deadline) then Extend else Stay
    case Commit(b, worker, i) => if Accepts(l, e) && t == b.task then Advance(b) else Stay
    case Finish(u, worker, i, g) => if Fenced(l, t, worker, i, g, e.now) && t == u then Close else Stay
    case Fail(u, worker, i, g, _, _, after) =>
      if after >= 0.0 && Fenced(l, t, worker, i, g, e.now) && t == u then Stop else Stay
    case Gc(_, compacted, _) => if t in compacted then Compact else Stay
    case _ => Stay
  }

  lemma ClaimMove(w: World, e: Timed, t: Id)
    requires Legal(w, e) && e.event.Claim? && t in w.ledger.work
    ensures t in Next(w.ledger, e).work
    ensures Moves(MoveOf(w.ledger, e, t), t, w.ledger.work[t], Next(w.ledger, e).work[t], e.now)
    ensures Focus(w.ledger, e) != Some(t) ==> Passive(MoveOf(w.ledger, e, t))
  {
  }

  lemma FencedMove(l: Ledger, e: Timed, t: Id)
    requires (e.event.Renew? || e.event.Commit? || e.event.Finish? || e.event.Fail?) && t in l.work
    ensures t in Next(l, e).work
    ensures Moves(MoveOf(l, e, t), t, l.work[t], Next(l, e).work[t], e.now)
    ensures Focus(l, e) != Some(t) ==> Passive(MoveOf(l, e, t))
  {
  }

  lemma EveryMove(w: World, e: Timed, t: Id)
    requires Legal(w, e) && t in w.ledger.work
    ensures t in Next(w.ledger, e).work
    ensures Moves(MoveOf(w.ledger, e, t), t, w.ledger.work[t], Next(w.ledger, e).work[t], e.now)
    ensures Focus(w.ledger, e) != Some(t) ==> Passive(MoveOf(w.ledger, e, t))
  {
    match e.event
    case Claim(_, _, _, _, _, _) => ClaimMove(w, e, t);
    case Renew(_, _, _, _, _, _) => FencedMove(w.ledger, e, t);
    case Commit(_, _, _) => FencedMove(w.ledger, e, t);
    case Finish(_, _, _, _) => FencedMove(w.ledger, e, t);
    case Fail(_, _, _, _, _, _, _) => FencedMove(w.ledger, e, t);
    case _ =>
  }

  lemma GrantedCurrent(l: Ledger, e: Timed, t: Id)
    requires t in l.work && MoveOf(l, e, t).Grant?
    ensures t in Next(l, e).work && Current(Next(l, e).workers, Next(l, e).work[t])
  {
  }

  lemma OnlyAdmitAdds(l: Ledger, e: Timed, t: Id)
    requires t !in l.work && t in Next(l, e).work
    ensures Inserts(l, e) && e.event.taskId == t && e.event.prior.None?
    ensures Next(l, e).work[t] == NewRow(e.event.work, e.now)
  {
  }

  lemma StillCurrent(l: Ledger, e: Timed, t: Id)
    requires t in l.work && l.work[t].state.Leased? && Current(l.workers, l.work[t])
    requires !MoveOf(l, e, t).Drop?
    ensures Current(Next(l, e).workers, l.work[t])
  {
  }

  // Every lease answered describes a row that is leased right after the answer.
  lemma AnswerIsRow(l: Ledger, e: Timed)
    requires Answer(l, e).Some?
    ensures var m := Answer(l, e).value;
            && m.task in Next(l, e).work
            && HoldsActive(Next(l, e).work[m.task], m.worker, m.instance, e.now)
            && m == LeaseOf(m.task, Next(l, e).work[m.task], m.worker, m.instance, Next(l, e).work[m.task].deadline.value)
  {
  }

  lemma BatchStep(l: Ledger, e: Timed, id: BatchId)
    requires id in Next(l, e).batches
    ensures id in l.batches ==> Next(l, e).batches[id].batch == l.batches[id].batch
    ensures id !in l.batches ==> Accepts(l, e) && id == e.event.batch.Key() && Next(l, e).batches[id].batch == e.event.batch
  {
  }
}
