// The lease and result tables of the Fabric authority: one function per public
// operation, each the effect of one committed transaction at one instant.
module LeaseTables {
  import opened Base
  import opened Wire

  const PROTOCOL_VERSION := "creeper-fabric-v2"
  const CLAIM_PAGE := 128
  const ERROR_TEXT_LIMIT := 2000

  datatype Worker = Worker(
    instance: Id,
    region: Id,
    capabilities: set<string>,
    producers: set<string>,
    providers: set<string>,
    egressBudget: nat,
    revoked: bool)

  datatype TaskState = Pending | Retry | Leased | Complete | Dead

  datatype WorkRow = WorkRow(
    key: WorkKey,
    work: WorkDefinition,
    state: TaskState,
    owner: Option<Id>,
    instance: Option<Id>,
    generation: nat,
    deadline: Option<real>,
    attempt: nat,
    cursor: Option<Cursor>,
    nextSeq: nat,
    lastError: Option<string>,
    createdAt: real,
    updatedAt: real)

  // The payload digest is collision-free by assumption, so the row keeps the
  // batch itself in place of its digest.
  datatype BatchRow = BatchRow(
    batch: ResultBatch,
    committedAt: real,
    consumedAt: Option<real>,
    consumeAttempts: nat,
    consumeError: Option<string>,
    quarantined: bool)
  {
    predicate Outstanding() { consumedAt.None? && !quarantined }
  }

  datatype Ledger = Ledger(workers: map<Id, Worker>, work: map<Id, WorkRow>, batches: map<BatchId, BatchRow>)

  datatype Error =
    | ProtocolMismatch
    | UnknownWorker
    | WorkerRejected
    | StaleLease
    | DeadlineRegressed
    | BatchConflict
    | BatchSequence
    | DuplicateTaskId
    | InvalidArgument
    | ProviderDenied
    | EgressExceeded
    | DuplicatePermitId

  datatype Tx<+T> = Tx(ledger: Ledger, reply: Result<T, Error>)

  // ----- workers

  function Released(row: WorkRow, now: real): WorkRow {
    row.(state := Pending, owner := None, instance := None, deadline := None, updatedAt := now)
  }

  // Rows another incarnation of the worker still holds.
  predicate HeldByOther(row: WorkRow, worker: Id, instance: Id) {
    row.state.Leased? && row.owner == Some(worker) && row.instance != Some(instance)
  }

  function RegisterWorker(l: Ledger, worker: Id, descriptor: Worker, protocol: string, now: real): Tx<()> {
    if protocol != PROTOCOL_VERSION then Tx(l, Err(ProtocolMismatch)) else
    Tx(l.(workers := l.workers[worker := descriptor.(revoked := false)],
          work := map t | t in l.work ::
                    if HeldByOther(l.work[t], worker, descriptor.instance) then Released(l.work[t], now) else l.work[t]),
       Ok(()))
  }

  predicate HeldBy(row: WorkRow, worker: Id) {
    row.state.Leased? && row.owner == Some(worker)
  }

  function RevokeWorker(l: Ledger, worker: Id, now: real): Tx<()> {
    if worker !in l.workers then Tx(l, Err(UnknownWorker)) else
    Tx(l.(workers := l.workers[worker := l.workers[worker].(revoked := true)],
          work := map t | t in l.work ::
                    if HeldBy(l.work[t], worker) then Released(l.work[t], now) else l.work[t]),
       Ok(()))
  }

  // The check every worker request starts with.
  predicate Registered(l: Ledger, worker: Id, instance: Id) {
    worker in l.workers && !l.workers[worker].revoked && l.workers[worker].instance == instance
  }

  // ----- admission

  predicate HasKey(work: map<Id, WorkRow>, t: Id, key: WorkKey) {
    t in work && work[t].key == key
  }

  function NewRow(w: WorkDefinition, now: real): WorkRow {
    WorkRow(WorkKeyOf(w), w, Pending, None, None, 0, None, 0, None, 0, None, now, now)
  }

  // `taskId` is the freshly drawn identifier; `prior` is the row the unique
  // index on the work key points at, if any.
  function AdmitWork(l: Ledger, w: WorkDefinition, taskId: Id, prior: Option<Id>, now: real): Tx<(Id, bool)> {
    if prior.Some? then Tx(l, Ok((prior.value, false)))
    else if taskId in l.work then Tx(l, Err(DuplicateTaskId))
    else Tx(l.(work := l.work[taskId := NewRow(w, now)]), Ok((taskId, true)))
  }

  ghost predicate IsPrior(l: Ledger, w: WorkDefinition, prior: Option<Id>) {
    match prior
    case Some(t) => HasKey(l.work, t, WorkKeyOf(w))
    case None => forall t :: !HasKey(l.work, t, WorkKeyOf(w))
  }

  // ----- leasing

  predicate HoldsActive(row: WorkRow, worker: Id, instance: Id, now: real) {
    row.state.Leased? && row.owner == Some(worker) && row.instance == Some(instance)
    && row.deadline.Some? && row.deadline.value > now
  }

  predicate Claimable(row: WorkRow, now: real) {
    && (row.state.Pending? || row.state.Retry?
        || (row.state.Leased? && row.deadline.Some? && row.deadline.value <= now))
    && row.work.notBefore <= now
    && row.attempt < row.work.maxAttempts
  }

  // ORDER BY priority DESC, created_at ASC; ties are free.
  predicate NotAfter(a: WorkRow, b: WorkRow) {
    a.work.priority > b.work.priority || (a.work.priority == b.work.priority && a.createdAt <= b.createdAt)
  }

  // What the ordered, limited candidate query may return.
  ghost predicate CandidatePage(work: map<Id, WorkRow>, now: real, rows: seq<Id>) {
    && |rows| <= CLAIM_PAGE
    && (forall i :: 0 <= i < |rows| ==> rows[i] in work && Claimable(work[rows[i]], now))
    && (forall i, j :: 0 <= i < j < |rows| ==> rows[i] != rows[j] && NotAfter(work[rows[i]], work[rows[j]]))
    && (forall t :: t in work && Claimable(work[t], now) && t !in rows ==>
          |rows| == CLAIM_PAGE && forall i :: 0 <= i < |rows| ==> NotAfter(work[rows[i]], work[t]))
  }

  predicate Eligible(w: WorkDefinition, worker: Worker) {
    && (forall c :: c in w.requiredCapabilities ==> c in worker.capabilities)
    && (forall p :: p in w.requiredProviders ==> p in worker.providers)
    && (worker.producers == {} || w.producer in worker.producers)
  }

  // Position of the first row of the page that the worker may run; `regionOk`
  // holds the tasks whose providers accept the worker's region.
  function FirstEligible(work: map<Id, WorkRow>, rows: seq<Id>, worker: Worker, regionOk: set<Id>): (i: nat)
    ensures i <= |rows|
    ensures i < |rows| ==> Admits(work, rows[i], worker, regionOk)
    ensures forall k :: 0 <= k < i ==> !Admits(work, rows[k], worker, regionOk)
  {
    if rows == [] || Admits(work, rows[0], worker, regionOk) then 0
    else 1 + FirstEligible(work, rows[1..], worker, regionOk)
  }

  predicate Admits(work: map<Id, WorkRow>, t: Id, worker: Worker, regionOk: set<Id>) {
    t in work && Eligible(work[t].work, worker) && t in regionOk
  }

  function LeaseOf(t: Id, row: WorkRow, worker: Id, instance: Id, deadline: real): Lease {
    Lease(t, row.key, worker, instance, row.generation, deadline, row.attempt, row.work, row.cursor, row.nextSeq)
  }

  function Granted(row: WorkRow, worker: Id, instance: Id, deadline: real, now: real): WorkRow {
    row.(state := Leased, owner := Some(worker), instance := Some(instance), generation := row.generation + 1,
         deadline := Some(deadline), attempt := row.attempt + 1, updatedAt := now)
  }

  // `held` is the row of an unexpired lease the incarnation already owns, as
  // the first query found it; `rows` is the page the second query returned.
  function ClaimWork(l: Ledger, worker: Id, instance: Id, leaseSeconds: real, held: Option<Id>,
                     rows: seq<Id>, regionOk: set<Id>, now: real): Tx<Option<Lease>>
  {
    if leaseSeconds <= 0.0 then Tx(l, Err(InvalidArgument))
    else if !Registered(l, worker, instance) then Tx(l, Err(WorkerRejected))
    else if held.Some? && held.value in l.work && HoldsActive(l.work[held.value], worker, instance, now) then
      var row := l.work[held.value];
      Tx(l, Ok(Some(LeaseOf(held.value, row, worker, instance, row.deadline.value))))
    else
      var i := FirstEligible(l.work, rows, l.workers[worker], regionOk);
      if i == |rows| then Tx(l, Ok(None)) else
      var row := Granted(l.work[rows[i]], worker, instance, now + leaseSeconds, now);
      Tx(l.(work := l.work[rows[i] := row]), Ok(Some(LeaseOf(rows[i], row, worker, instance, now + leaseSeconds))))
  }

  ghost predicate ClaimInputs(l: Ledger, worker: Id, instance: Id, held: Option<Id>, rows: seq<Id>, now: real) {
    && (match held
        case Some(t) => t in l.work && HoldsActive(l.work[t], worker, instance, now)
        case None => forall t :: t in l.work ==> !HoldsActive(l.work[t], worker, instance, now))
    && CandidatePage(l.work, now, rows)
  }

  // The fencing tuple: task, worker, incarnation and generation.
  predicate Fenced(l: Ledger, t: Id, worker: Id, instance: Id, generation: nat, now: real) {
    t in l.work && HoldsActive(l.work[t], worker, instance, now) && l.work[t].generation == generation
  }

  function RenewTask(l: Ledger, t: Id, worker: Id, instance: Id, generation: nat, leaseSeconds: real,
                     expected: Option<real>, now: real): Tx<Lease>
  {
    if leaseSeconds <= 0.0 then Tx(l, Err(InvalidArgument))
    else if !Fenced(l, t, worker, instance, generation, now) then Tx(l, Err(StaleLease))
    else
      var row := l.work[t];
      var current := row.deadline.value;
      if expected.Some? && current < expected.value then Tx(l, Err(DeadlineRegressed))
      else
        var deadline := if expected.Some? && current > expected.value then current else now + leaseSeconds;
        var row' := if deadline == current then row else row.(deadline := Some(deadline), updatedAt := now);
        Tx(l.(work := l.work[t := row']), Ok(LeaseOf(t, row, worker, instance, deadline)))
  }

  // ----- results

  function CommitBatch(l: Ledger, b: ResultBatch, worker: Id, instance: Id, now: real): Tx<bool> {
    if b.Key() in l.batches then
      Tx(l, if l.batches[b.Key()].batch == b then Ok(false) else Err(BatchConflict))
    else if !Fenced(l, b.task, worker, instance, b.generation, now) then Tx(l, Err(StaleLease))
    else if l.work[b.task].nextSeq != b.seqNo then Tx(l, Err(BatchSequence))
    else
      var row := l.work[b.task].(cursor := b.cursorAfter, nextSeq := b.seqNo + 1, updatedAt := now);
      var row' := if b.final then row.(state := Complete, owner := None, instance := None, deadline := None) else row;
      Tx(l.(work := l.work[b.task := row'],
            batches := l.batches[b.Key() := BatchRow(b, now, None, 0, None, false)]),
         Ok(true))
  }

  function FinishTask(l: Ledger, t: Id, worker: Id, instance: Id, generation: nat, now: real): Tx<()> {
    if !Fenced(l, t, worker, instance, generation, now) then Tx(l, Err(StaleLease))
    else
      Tx(l.(work := l.work[t := l.work[t].(state := Complete, owner := None, instance := None, deadline := None, updatedAt := now)]),
         Ok(()))
  }

  function Truncate(s: string): string {
    if |s| <= ERROR_TEXT_LIMIT then s else s[..ERROR_TEXT_LIMIT]
  }

  function FailTask(l: Ledger, t: Id, worker: Id, instance: Id, generation: nat, error: string,
                    retryable: bool, retryAfter: real, now: real): Tx<()>
  {
    if retryAfter < 0.0 then Tx(l, Err(InvalidArgument))
    else if !Fenced(l, t, worker, instance, generation, now) then Tx(l, Err(StaleLease))
    else
      var row := l.work[t];
      var canRetry := retryable && row.attempt < row.work.maxAttempts;
      Tx(l.(work := l.work[t :=
              row.(state := if canRetry then Retry else Dead, owner := None, instance := None, deadline := None,
                   work := row.work.(notBefore := now + (if canRetry then retryAfter else 0.0)),
                   lastError := Some(Truncate(error)), updatedAt := now)]),
         Ok(()))
  }

  // ----- inbox

  function MarkConsumed(l: Ledger, id: BatchId, now: real): Tx<bool> {
    if id !in l.batches then Tx(l, Ok(false)) else
    var row := l.batches[id];
    Tx(l.(batches := l.batches[id := row.(consumedAt := if row.consumedAt.Some? then row.consumedAt else Some(now))]),
       Ok(true))
  }

  function MarkConsumeFailed(l: Ledger, id: BatchId, error: string, maxAttempts: nat): Tx<bool> {
    if maxAttempts < 1 then Tx(l, Err(InvalidArgument))
    else if id !in l.batches || l.batches[id].consumedAt.Some? then Tx(l, Ok(false))
    else
      var row := l.batches[id];
      var attempts := row.consumeAttempts + 1;
      Tx(l.(batches := l.batches[id := row.(consumeAttempts := attempts, consumeError := Some(Truncate(error)),
                                            quarantined := attempts >= maxAttempts)]),
         Ok(attempts >= maxAttempts))
  }

  // ----- garbage collection of the lease and result tables

  predicate Collectable(row: BatchRow, cutoff: real) {
    || (row.consumedAt.Some? && row.consumedAt.value <= cutoff)
    || (row.quarantined && row.committedAt <= cutoff)
  }

  // Some batch of the task is still owed to a consumer.
  ghost predicate Owes(batches: map<BatchId, BatchRow>, t: Id) {
    exists id :: id in batches && id.task == t && batches[id].Outstanding()
  }

  ghost predicate Compactable(row: WorkRow, batches: map<BatchId, BatchRow>, t: Id, cutoff: real) {
    row.state.Complete? && row.updatedAt <= cutoff && row.work.payload != EMPTY_PAYLOAD && !Owes(batches, t)
  }

  function Compacted(row: WorkRow): WorkRow {
    row.(work := row.work.(payload := EMPTY_PAYLOAD), cursor := None, lastError := None)
  }

  // `gone` and `compacted` are the rows the two limited queries selected; the
  // second query runs after the deletion.
  ghost predicate CollectInputs(l: Ledger, gone: set<BatchId>, compacted: set<Id>, cutoff: real) {
    && (forall id :: id in gone ==> id in l.batches && Collectable(l.batches[id], cutoff))
    && (forall t :: t in compacted ==> t in l.work && Compactable(l.work[t], l.batches - gone, t, cutoff))
  }

  function Collect(l: Ledger, gone: set<BatchId>, compacted: set<Id>): Ledger {
    l.(batches := l.batches - gone,
       work := map t | t in l.work :: if t in compacted then Compacted(l.work[t]) else l.work[t])
  }
}
