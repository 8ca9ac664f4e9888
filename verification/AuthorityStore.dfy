// The authority as the program has it: one object whose methods change its
// tables in place. Each method is one transaction; every path that raises or
// rolls back leaves the tables as they were.
module AuthorityStore {
  import opened Base
  import opened Wire
  import opened LeaseTables
  import opened Permits
  import ClaimFilter
  import Inbox
  import RequestAuth

  // ----- what the queries of the garbage collector match

  function DeadPermits(permits: map<Id, Permit>, cutoff: real): set<Id> {
    set id | id in permits && !permits[id].active && permits[id].expiresAt <= cutoff
  }

  function SettledBatches(batches: map<BatchId, BatchRow>, cutoff: real): set<BatchId> {
    set id | id in batches && Collectable(batches[id], cutoff)
  }

  function OldNonces(nonces: RequestAuth.Nonces, cutoff: real): set<RequestAuth.NonceKey> {
    set k | k in nonces && nonces[k] <= cutoff
  }

  function OldDays(egress: map<(Id, int), DayCount>, cutoff: real): set<(Id, int)> {
    set k | k in egress && egress[k].updatedAt <= cutoff
  }

  function FinishedWork(work: map<Id, WorkRow>, batches: map<BatchId, BatchRow>, permits: map<Id, Permit>, cutoff: real): set<Id> {
    set t | t in work && work[t].state.Complete? && work[t].updatedAt <= cutoff && work[t].work.payload != EMPTY_PAYLOAD
            && (forall id :: id in batches && id.task == t ==> !batches[id].Outstanding())
            && (forall id :: id in permits && permits[id].task == t ==> !permits[id].active)
  }

  // As many of the matched rows as the limit allows.
  predicate Filled<T(==)>(chosen: set<T>, matched: set<T>, limit: int) {
    chosen <= matched && |chosen| <= limit && (|chosen| < limit ==> chosen == matched)
  }

  // What the collector chose is what the runs of the lease tables, of the
  // permits and of the nonces assume of a collection.
  lemma ChosenIsLegal(l: Ledger, b: Broker, nonces: RequestAuth.Nonces, gone: set<BatchId>, compacted: set<Id>, expired: set<Id>,
                      days: set<(Id, int)>, forgotten: set<RequestAuth.NonceKey>, cutoff: real, limit: int)
    requires Filled(gone, SettledBatches(l.batches, cutoff), limit)
    requires Filled(compacted, FinishedWork(l.work, l.batches - gone, b.permits - expired, cutoff), limit)
    requires Filled(expired, DeadPermits(b.permits, cutoff), limit) && Filled(days, OldDays(b.egress, cutoff), limit)
    requires Filled(forgotten, OldNonces(nonces, cutoff), limit)
    ensures CollectInputs(l, gone, compacted, cutoff) && CollectsPermits(b, expired, days, cutoff)
    ensures forall k :: k in forgotten ==> k in nonces && nonces[k] <= cutoff
  {
  }

  // A query with a limit takes what is due, and all of it when that fits.
  ghost predicate Takes<T>(chosen: set<T>, due: set<T>, limit: int) {
    chosen <= due && if |due| <= limit then chosen == due else |chosen| == limit
  }

  lemma FilledTakes<T>(chosen: set<T>, due: set<T>, limit: int)
    requires Filled(chosen, due, limit)
    ensures Takes(chosen, due, limit)
  {
    assert due == chosen + (due - chosen);
  }

  // Of each table exactly the rows that are done with go, at most `limit` at a
  // time and all of them when they are no more than that: reported or run-out
  // permits, consumed or quarantined batches, nonces and egress days not touched
  // since the cutoff, and payloads of complete work that nothing waits for.
  lemma CollectedExactly(l: Ledger, b: Broker, nonces: RequestAuth.Nonces, gone: set<BatchId>, compacted: set<Id>, expired: set<Id>,
                         days: set<(Id, int)>, forgotten: set<RequestAuth.NonceKey>, cutoff: real, limit: int)
    requires Filled(gone, SettledBatches(l.batches, cutoff), limit)
    requires Filled(compacted, FinishedWork(l.work, l.batches - gone, b.permits - expired, cutoff), limit)
    requires Filled(expired, DeadPermits(b.permits, cutoff), limit) && Filled(days, OldDays(b.egress, cutoff), limit)
    requires Filled(forgotten, OldNonces(nonces, cutoff), limit)
    ensures Takes(expired, (set id | id in b.permits && !b.permits[id].active && b.permits[id].expiresAt <= cutoff), limit)
    ensures Takes(gone, (set id | id in l.batches && ((l.batches[id].consumedAt.Some? && l.batches[id].consumedAt.value <= cutoff)
                                                      || (l.batches[id].quarantined && l.batches[id].committedAt <= cutoff))), limit)
    ensures Takes(forgotten, (set k | k in nonces && nonces[k] <= cutoff), limit)
    ensures Takes(days, (set k | k in b.egress && b.egress[k].updatedAt <= cutoff), limit)
    ensures Takes(compacted, (set t | t in l.work && l.work[t].state == Complete && l.work[t].updatedAt <= cutoff
                                      && l.work[t].work.payload != "{}"
                                      && (forall id :: id in l.batches - gone && id.task == t ==>
                                            l.batches[id].consumedAt.Some? || l.batches[id].quarantined)
                                      && (forall id :: id in b.permits - expired && b.permits[id].task == t ==>
                                            !b.permits[id].active)), limit)
  {
    FilledTakes(expired, DeadPermits(b.permits, cutoff), limit);
    FilledTakes(gone, SettledBatches(l.batches, cutoff), limit);
    FilledTakes(forgotten, OldNonces(nonces, cutoff), limit);
    FilledTakes(days, OldDays(b.egress, cutoff), limit);
    FilledTakes(compacted, FinishedWork(l.work, l.batches - gone, b.permits - expired, cutoff), limit);
    hide Takes, Filled;
    BatchesDue(l, cutoff);
    WorkDue(l, b, gone, expired, cutoff);
  }

  lemma BatchesDue(l: Ledger, cutoff: real)
    ensures SettledBatches(l.batches, cutoff)
            == set id | id in l.batches && ((l.batches[id].consumedAt.Some? && l.batches[id].consumedAt.value <= cutoff)
                                            || (l.batches[id].quarantined && l.batches[id].committedAt <= cutoff))
  {
  }

  lemma WorkDue(l: Ledger, b: Broker, gone: set<BatchId>, expired: set<Id>, cutoff: real)
    ensures FinishedWork(l.work, l.batches - gone, b.permits - expired, cutoff)
            == set t | t in l.work && l.work[t].state == Complete && l.work[t].updatedAt <= cutoff && l.work[t].work.payload != "{}"
                       && (forall id :: id in l.batches - gone && id.task == t ==>
                             l.batches[id].consumedAt.Some? || l.batches[id].quarantined)
                       && (forall id :: id in b.permits - expired && b.permits[id].task == t ==> !b.permits[id].active)
  {
  }

  class DistributedAuthorityStore {
    var workers: map<Id, Worker>
    var work: map<Id, WorkRow>
    var batches: map<BatchId, BatchRow>
    var budgets: map<Id, Budget>
    var regions: map<(Id, Id), Region>
    var permits: map<Id, Permit>
    var egress: map<(Id, int), DayCount>
    var nonces: RequestAuth.Nonces

    function Tables(): Ledger
      reads `workers, `work, `batches
    {
      Ledger(workers, work, batches)
    }

    function Brokerage(): Broker
      reads `budgets, `regions, `permits, `egress
    {
      Broker(budgets, regions, permits, egress)
    }

    constructor ()
      ensures Tables() == Ledger(map[], map[], map[])
      ensures Brokerage() == Broker(map[], map[], map[], map[])
      ensures nonces == map[]
    {
      workers, work, batches := map[], map[], map[];
      budgets, regions, permits, egress := map[], map[], map[], map[];
      nonces := map[];
    }

    // ----- workers

    method RegisterWorker(worker: Id, descriptor: Worker, protocol: string, now: real) returns (reply: Result<(), Error>)
      modifies `workers, `work
      ensures Tx(Tables(), reply) == LeaseTables.RegisterWorker(old(Tables()), worker, descriptor, protocol, now)
    {
      if protocol != PROTOCOL_VERSION {
        return Err(ProtocolMismatch);
      }
      workers := workers[worker := descriptor.(revoked := false)];
      work := map t | t in work :: if HeldByOther(work[t], worker, descriptor.instance) then Released(work[t], now) else work[t];
      return Ok(());
    }

    method RevokeWorker(worker: Id, now: real) returns (reply: Result<(), Error>)
      modifies `workers, `work
      ensures Tx(Tables(), reply) == LeaseTables.RevokeWorker(old(Tables()), worker, now)
    {
      if worker !in workers {
        return Err(UnknownWorker);
      }
      workers := workers[worker := workers[worker].(revoked := true)];
      work := map t | t in work :: if HeldBy(work[t], worker) then Released(work[t], now) else work[t];
      return Ok(());
    }

    method WorkerRow(worker: Id, instance: Id) returns (row: Option<Worker>)
      ensures row == if Registered(Tables(), worker, instance) then Some(workers[worker]) else None
    {
      if worker !in workers || workers[worker].revoked || workers[worker].instance != instance {
        return None;
      }
      return Some(workers[worker]);
    }

    // ----- work

    // `taskId` is the freshly drawn identifier. The insert is tried first; a
    // violated uniqueness constraint turns into a lookup by work key.
    method AdmitWork(w: WorkDefinition, taskId: Id, now: real) returns (reply: Result<(Id, bool), Error>, ghost prior: Option<Id>)
      modifies `work
      ensures IsPrior(old(Tables()), w, prior)
      ensures Tx(Tables(), reply) == LeaseTables.AdmitWork(old(Tables()), w, taskId, prior, now)
    {
      var key := WorkKeyOf(w);
      if t :| t in work && work[t].key == key {
        assert HasKey(work, t, key);
        return Ok((t, false)), Some(t);
      }
      if taskId in work {
        return Err(DuplicateTaskId), None;
      }
      work := work[taskId := NewRow(w, now)];
      return Ok((taskId, true)), None;
    }

    // A foremost row in the order of the candidate query.
    method Foremost(left: set<Id>) returns (first: Id)
      requires left != {} && left <= work.Keys
      ensures first in left && forall u :: u in left ==> NotAfter(work[first], work[u])
    {
      first :| first in left;
      var rest := left - {first};
      while rest != {}
        invariant rest <= left && first in left
        invariant forall u :: u in left && u !in rest ==> NotAfter(work[first], work[u])
        decreases rest
      {
        var u :| u in rest;
        if !NotAfter(work[first], work[u]) { first := u; }
        rest := rest - {u};
      }
    }

    method Candidates(now: real) returns (rows: seq<Id>)
      ensures CandidatePage(work, now, rows)
    {
      rows := [];
      var left := set t | t in work && Claimable(work[t], now);
      while |rows| < CLAIM_PAGE && left != {}
        invariant |rows| <= CLAIM_PAGE && left <= work.Keys && forall t :: t in left ==> Claimable(work[t], now)
        invariant forall i :: 0 <= i < |rows| ==> rows[i] in work && Claimable(work[rows[i]], now) && rows[i] !in left
        invariant forall i, j :: 0 <= i < j < |rows| ==> rows[i] != rows[j] && NotAfter(work[rows[i]], work[rows[j]])
        invariant forall t :: t in work && Claimable(work[t], now) ==> t in rows || t in left
        invariant forall i, t :: 0 <= i < |rows| && t in left ==> NotAfter(work[rows[i]], work[t])
        decreases CLAIM_PAGE - |rows|
      {
        var t := Foremost(left);
        rows := rows + [t];
        left := left - {t};
      }
    }

    method ProviderOk(provider: Id, region: Id, now: real) returns (ok: bool)
      ensures ok == ProviderAccepts(Brokerage(), provider, region, now)
    {
      if provider !in budgets {
        return false;
      }
      var budget := budgets[provider];
      if !budget.requireQualified {
        return true;
      }
      var state := Unknown;
      if (provider, region) in regions {
        var observed := regions[(provider, region)];
        state := observed.state;
        if Refused(state) && budget.allowProbe && now - observed.updatedAt >= budget.reprobeAfter {
          state := Unknown;
        }
      }
      if Refused(state) {
        return false;
      }
      return state.Qualified? || budget.allowProbe;
    }

    method RegionOk(w: WorkDefinition, worker: Worker, now: real) returns (ok: bool)
      ensures ok == RegionEligible(Brokerage(), w, worker.region, now)
    {
      for i := 0 to |w.requiredProviders|
        invariant forall k :: 0 <= k < i ==> ProviderAccepts(Brokerage(), w.requiredProviders[k], worker.region, now)
      {
        ok := ProviderOk(w.requiredProviders[i], worker.region, now);
        if !ok {
          assert w.requiredProviders[i] in w.requiredProviders;
          return;
        }
      }
      return true;
    }

    // The first row of the page the worker may run, searched in page order.
    method Choose(rows: seq<Id>, worker: Worker, now: real) returns (i: nat)
      requires forall k :: 0 <= k < |rows| ==> rows[k] in work
      ensures i == FirstEligible(work, rows, worker, ClaimFilter.RegionOk(work, worker, Brokerage(), now))
    {
      ghost var ok := ClaimFilter.RegionOk(work, worker, Brokerage(), now);
      i := 0;
      while i < |rows|
        invariant i <= |rows| && FirstEligible(work, rows, worker, ok) == i + FirstEligible(work, rows[i..], worker, ok)
      {
        var row := work[rows[i]];
        if Eligible(row.work, worker) {
          var region := RegionOk(row.work, worker, now);
          if region { return; }
        }
        assert rows[i..][0] == rows[i] && rows[i..][1..] == rows[i + 1..];
        i := i + 1;
      }
    }

    method ClaimWork(worker: Id, instance: Id, leaseSeconds: real, now: real)
      returns (reply: Result<Option<Lease>, Error>, ghost held: Option<Id>, ghost rows: seq<Id>)
      modifies `work
      ensures ClaimInputs(old(Tables()), worker, instance, held, rows, now)
      ensures Registered(old(Tables()), worker, instance) ==>
                Tx(Tables(), reply)
                == LeaseTables.ClaimWork(old(Tables()), worker, instance, leaseSeconds, held, rows,
                                         ClaimFilter.RegionOk(old(work), workers[worker], Brokerage(), now), now)
      ensures !Registered(old(Tables()), worker, instance) ==>
                Tx(Tables(), reply) == LeaseTables.ClaimWork(old(Tables()), worker, instance, leaseSeconds, held, rows, {}, now)
    {
      hide CandidatePage, ClaimFilter.RegionOk, RegionEligible, Eligible;
      held := if t :| t in work && HoldsActive(work[t], worker, instance, now) then Some(t) else None;
      var page := Candidates(now);
      rows := page;
      if leaseSeconds <= 0.0 {
        return Err(InvalidArgument), held, rows;
      }
      var row := WorkerRow(worker, instance);
      if row.None? {
        return Err(WorkerRejected), held, rows;
      }
      if t :| t in work && HoldsActive(work[t], worker, instance, now) {
        var active := work[t];
        held := Some(t);
        return Ok(Some(LeaseOf(t, active, worker, instance, active.deadline.value))), held, rows;
      }
      var i := Choose(page, row.value, now);
      if i == |page| {
        return Ok(None), held, rows;
      }
      var chosen := work[page[i]];
      var deadline := now + leaseSeconds;
      work := work[page[i] := chosen.(state := Leased, owner := Some(worker), instance := Some(instance),
                                      generation := chosen.generation + 1, deadline := Some(deadline),
                                      attempt := chosen.attempt + 1, updatedAt := now)];
      return Ok(Some(LeaseOf(page[i], work[page[i]], worker, instance, deadline))), held, rows;
    }

    // The row, if the caller still owns its active lease generation.
    method ActiveLease(task: Id, worker: Id, instance: Id, generation: nat, now: real) returns (row: Option<WorkRow>)
      ensures row == if Fenced(Tables(), task, worker, instance, generation, now) then Some(work[task]) else None
    {
      if task !in work {
        return None;
      }
      var found := work[task];
      if !found.state.Leased? || found.owner != Some(worker) || found.instance != Some(instance)
         || found.generation != generation || found.deadline.None? || found.deadline.value <= now {
        return None;
      }
      return Some(found);
    }

    method RenewTask(task: Id, worker: Id, instance: Id, generation: nat, leaseSeconds: real, expected: Option<real>, now: real)
      returns (reply: Result<Lease, Error>)
      modifies `work
      ensures Tx(Tables(), reply)
              == LeaseTables.RenewTask(old(Tables()), task, worker, instance, generation, leaseSeconds, expected, now)
    {
      if leaseSeconds <= 0.0 {
        return Err(InvalidArgument);
      }
      var found := ActiveLease(task, worker, instance, generation, now);
      if found.None? {
        return Err(StaleLease);
      }
      var row := found.value;
      var current := row.deadline.value;
      var deadline;
      if expected.Some? {
        if current < expected.value {
          return Err(DeadlineRegressed);
        }
        deadline := if current > expected.value then current else now + leaseSeconds;
      } else {
        deadline := now + leaseSeconds;
      }
      if deadline != current {
        work := work[task := row.(deadline := Some(deadline), updatedAt := now)];
      }
      assert work == old(work)[task := work[task]];
      return Ok(LeaseOf(task, row, worker, instance, deadline));
    }

    // ----- results

    method CommitResultBatch(b: ResultBatch, worker: Id, instance: Id, now: real) returns (reply: Result<bool, Error>)
      modifies `work, `batches
      ensures Tx(Tables(), reply) == LeaseTables.CommitBatch(old(Tables()), b, worker, instance, now)
    {
      if b.Key() in batches {
        if batches[b.Key()].batch != b {
          return Err(BatchConflict);
        }
        return Ok(false);
      }
      var found := ActiveLease(b.task, worker, instance, b.generation, now);
      if found.None? {
        return Err(StaleLease);
      }
      var row := found.value;
      if row.nextSeq != b.seqNo {
        return Err(BatchSequence);
      }
      batches := batches[b.Key() := BatchRow(b, now, None, 0, None, false)];
      row := row.(cursor := b.cursorAfter, nextSeq := row.nextSeq + 1, updatedAt := now);
      if b.final {
        row := row.(state := Complete, owner := None, instance := None, deadline := None);
      }
      work := work[b.task := row];
      return Ok(true);
    }

    method FinishTask(task: Id, worker: Id, instance: Id, generation: nat, now: real) returns (reply: Result<(), Error>)
      modifies `work
      ensures Tx(Tables(), reply) == LeaseTables.FinishTask(old(Tables()), task, worker, instance, generation, now)
    {
      var found := ActiveLease(task, worker, instance, generation, now);
      if found.None? {
        return Err(StaleLease);
      }
      work := work[task := found.value.(state := Complete, owner := None, instance := None, deadline := None, updatedAt := now)];
      return Ok(());
    }

    method FailTask(task: Id, worker: Id, instance: Id, generation: nat, error: string, retryable: bool, retryAfter: real, now: real)
      returns (reply: Result<(), Error>)
      modifies `work
      ensures Tx(Tables(), reply)
              == LeaseTables.FailTask(old(Tables()), task, worker, instance, generation, error, retryable, retryAfter, now)
    {
      if retryAfter < 0.0 {
        return Err(InvalidArgument);
      }
      var found := ActiveLease(task, worker, instance, generation, now);
      if found.None? {
        return Err(StaleLease);
      }
      var row := found.value;
      var canRetry := retryable && row.attempt < row.work.maxAttempts;
      var wait := if canRetry then retryAfter else 0.0;
      work := work[task := row.(state := if canRetry then Retry else Dead, owner := None, instance := None, deadline := None,
                                work := row.work.(notBefore := now + wait), lastError := Some(Truncate(error)),
                                updatedAt := now)];
      return Ok(());
    }

    // The lowest-numbered of some batches.
    method Lowest(left: set<BatchId>) returns (first: BatchId)
      requires left != {}
      ensures first in left && forall u :: u in left ==> first.seqNo <= u.seqNo
    {
      first :| first in left;
      var rest := left - {first};
      while rest != {}
        invariant rest <= left && first in left
        invariant forall u :: u in left && u !in rest ==> first.seqNo <= u.seqNo
        decreases rest
      {
        var u :| u in rest;
        if u.seqNo < first.seqNo { first := u; }
        rest := rest - {u};
      }
    }

    method UnconsumedBatchesForTask(task: Id, limit: int) returns (rows: Result<seq<BatchId>, Error>)
      ensures rows == Err(InvalidArgument) <==> Strip(task) == "" || limit < 1
      ensures rows.Ok? ==> limit >= 1 && Inbox.Listing(batches, task, limit, rows.value)
      ensures rows.Err? ==> rows == Err(InvalidArgument)
    {
      if Strip(task) == "" || limit < 1 {
        return Err(InvalidArgument);
      }
      var out: seq<BatchId> := [];
      var left := set id | id in batches && id.task == task && batches[id].Outstanding();
      while |out| < limit && left != {}
        invariant |out| <= limit
        invariant forall i :: 0 <= i < |out| ==> out[i].task == task && Inbox.IsOutstanding(batches, out[i])
        invariant forall i, j :: 0 <= i < j < |out| ==> out[i].seqNo < out[j].seqNo
        invariant forall id: BatchId :: id in left <==> id.task == task && Inbox.IsOutstanding(batches, id) && id !in out
        invariant forall i, id :: 0 <= i < |out| && id in left ==> out[i].seqNo < id.seqNo
        decreases limit - |out|
      {
        var id := Lowest(left);
        assert forall u :: u in left && u != id ==> id.seqNo < u.seqNo;
        out := out + [id];
        left := left - {id};
      }
      return Ok(out);
    }

    method MarkBatchConsumed(id: BatchId, now: real) returns (reply: Result<bool, Error>)
      modifies `batches
      ensures Tx(Tables(), reply) == LeaseTables.MarkConsumed(old(Tables()), id, now)
    {
      if id !in batches {
        return Ok(false);
      }
      var row := batches[id];
      batches := batches[id := row.(consumedAt := if row.consumedAt.Some? then row.consumedAt else Some(now))];
      return Ok(true);
    }

    method MarkBatchConsumeFailed(id: BatchId, error: string, maxAttempts: nat) returns (reply: Result<bool, Error>)
      modifies `batches
      ensures Tx(Tables(), reply) == LeaseTables.MarkConsumeFailed(old(Tables()), id, error, maxAttempts)
    {
      if maxAttempts < 1 {
        return Err(InvalidArgument);
      }
      if id !in batches || batches[id].consumedAt.Some? {
        return Ok(false);
      }
      var attempts := batches[id].consumeAttempts + 1;
      var quarantined := attempts >= maxAttempts;
      batches := batches[id := batches[id].(consumeAttempts := attempts, consumeError := Some(Truncate(error)),
                                            quarantined := quarantined)];
      return Ok(quarantined);
    }

    // ----- provider governance

    method ConfigureProviderBudget(provider: Id, rate: real, maxInflight: int, requireQualified: bool, allowProbe: bool,
                                   reprobeAfter: real) returns (reply: Result<(), Error>)
      modifies `budgets
      ensures BrokerTx(Brokerage(), reply)
              == Permits.ConfigureBudget(old(Brokerage()), provider, rate, maxInflight, requireQualified, allowProbe, reprobeAfter)
    {
      if Strip(provider) == "" || rate <= 0.0 || maxInflight < 1 || reprobeAfter <= 0.0 {
        return Err(InvalidArgument);
      }
      if provider in budgets {
        budgets := budgets[provider := budgets[provider].(rate := rate, maxInflight := maxInflight,
                             requireQualified := requireQualified, allowProbe := allowProbe, reprobeAfter := reprobeAfter)];
      } else {
        budgets := budgets[provider := Budget(rate, maxInflight, requireQualified, allowProbe, reprobeAfter, 0.0, 0.0)];
      }
      return Ok(());
    }

    method RecordProviderRegionObservation(provider: Id, worker: Id, instance: Id, task: Id, generation: nat, probe: Probe, now: real)
      returns (reply: Result<RegionState, Error>)
      modifies `regions
      ensures BrokerTx(Brokerage(), reply)
              == Permits.ObserveRegion(Tables(), old(Brokerage()), provider, worker, instance, task, generation, probe, now)
    {
      var row := WorkerRow(worker, instance);
      if row.None? {
        return Err(WorkerRejected);
      }
      var lease := ActiveLease(task, worker, instance, generation, now);
      if lease.None? {
        return Err(StaleLease);
      }
      var key := (provider, row.value.region);
      regions := regions[key := Sampled(At(Brokerage(), provider, row.value.region), probe, now)];
      var state := Judged(regions[key], probe.policyBlock);
      regions := regions[key := regions[key].(state := state)];
      assert regions == old(regions)[key := regions[key]];
      return Ok(state);
    }

    // Statements write `permits` as they go; a refusal restores what was there
    // when the transaction began.
    method IssueProviderPermit(ask: Ask, permitId: Id, now: real)
      returns (reply: Result<Option<(Id, Permit)>, Error>, ghost prior: Option<Id>)
      requires forall p :: p in budgets ==> budgets[p].rate > 0.0
      modifies `budgets, `permits
      ensures IsPriorPermit(old(permits), ask.worker, ask.requestId, prior)
      ensures BrokerTx(Brokerage(), reply) == Permits.IssuePermit(Tables(), old(Brokerage()), ask, permitId, prior, now)
    {
      prior := if id :| IsRequest(permits, id, ask.worker, ask.requestId) then Some(id) else None;
      if Strip(ask.requestId) == "" || ask.ttl <= 0.0 {
        return Err(InvalidArgument), prior;
      }
      var row := WorkerRow(ask.worker, ask.instance);
      if row.None? {
        return Err(WorkerRejected), prior;
      }
      var lease := ActiveLease(ask.task, ask.worker, ask.instance, ask.generation, now);
      if lease.None? {
        return Err(StaleLease), prior;
      }
      if ask.provider !in row.value.providers {
        return Err(ProviderDenied), prior;
      }
      if !EgressAvailable(Brokerage(), ask.worker, row.value.egressBudget, now) {
        return Err(EgressExceeded), prior;
      }
      var saved := permits;
      if id :| id in permits && permits[id].worker == ask.worker && permits[id].requestId == ask.requestId {
        assert IsRequest(permits, id, ask.worker, ask.requestId);
        prior := Some(id);
        var p := permits[id];
        if Live(p, now) {
          if !BoundTo(p, ask.provider, ask.instance, ask.task, ask.generation) {
            return Err(ProviderDenied), prior;
          }
          return Ok(Some((id, p))), prior;
        }
        permits := permits - {id};
      }
      reply := MintPermit(ask, permitId, saved, now);
    }

    // The second half of the transaction: `saved` is what it began with.
    method MintPermit(ask: Ask, permitId: Id, saved: map<Id, Permit>, now: real) returns (reply: Result<Option<(Id, Permit)>, Error>)
      requires ask.worker in workers && forall p :: p in budgets ==> budgets[p].rate > 0.0
      modifies `budgets, `permits
      ensures BrokerTx(Brokerage(), reply)
              == MintOrRefuse(Tables(), old(Brokerage()).(permits := saved), old(permits), ask, permitId, now)
    {
      hide RegionAdmits, Expire, Active;
      if ask.provider !in budgets {
        permits := saved;
        return Err(ProviderDenied);
      }
      var budget := budgets[ask.provider];
      permits := Expire(permits, ask.provider, now);
      var refused := RefuseMint(budget, ask, workers[ask.worker].region, now);
      if refused {
        permits := saved;
        return Ok(None);
      }
      if permitId in permits {
        permits := saved;
        return Err(DuplicatePermitId);
      }
      budgets := budgets[ask.provider := budget.(nextAt := now + 1.0 / budget.rate)];
      var permit := NewPermit(ask, budget.maxInflight, now);
      permits := permits[permitId := permit];
      return Ok(Some((permitId, permit)));
    }

    // The checks between the expiry of old permits and the mint.
    method RefuseMint(budget: Budget, ask: Ask, region: Id, now: real) returns (refused: bool)
      ensures refused <==>
                || !RegionAdmits(Tables(), budget, At(Brokerage(), ask.provider, region), permits, ask.provider, region, now)
                || |Active(permits, ask.provider)| >= budget.maxInflight || now < budget.nextAt || now < budget.cooldownUntil
    {
      if budget.requireQualified {
        var state := Unknown;
        if (ask.provider, region) in regions {
          var observed := regions[(ask.provider, region)];
          state := observed.state;
          if Refused(state) && budget.allowProbe && now - observed.updatedAt >= budget.reprobeAfter {
            state := Unknown;
          }
        }
        if Refused(state) {
          return true;
        }
        if !state.Qualified? {
          if !budget.allowProbe {
            return true;
          }
          var probing := |Probing(permits, workers, ask.provider, region)|;
          if probing >= 1 {
            return true;
          }
        }
      }
      var active := |Active(permits, ask.provider)|;
      return active >= budget.maxInflight || now < budget.nextAt || now < budget.cooldownUntil;
    }

    method ReportProviderPermit(permitId: Id, worker: Id, instance: Id, status: Option<int>, cooldown: real, bytes: int, now: real)
      returns (reply: Result<bool, Error>)
      modifies `budgets, `permits, `egress
      ensures BrokerTx(Brokerage(), reply)
              == Permits.ReportPermit(Tables(), old(Brokerage()), permitId, worker, instance, status, cooldown, bytes, now)
    {
      if cooldown < 0.0 || bytes < 0 {
        return Err(InvalidArgument);
      }
      var row := WorkerRow(worker, instance);
      if row.None? {
        return Err(WorkerRejected);
      }
      if permitId !in permits || permits[permitId].worker != worker || permits[permitId].instance != instance {
        return Err(ProviderDenied);
      }
      var p := permits[permitId];
      if !p.active {
        return Ok(false);
      }
      permits := permits[permitId := p.(active := false, status := status)];
      if cooldown != 0.0 {
        CoolDown(p.provider, now + cooldown);
      }
      ChargeEgress(worker, bytes, now);
      return Ok(true);
    }

    // SET cooldown_until = MAX(cooldown_until, until)
    method CoolDown(provider: Id, until: real)
      modifies `budgets
      ensures budgets == Cooled(old(budgets), provider, until)
    {
      if provider in budgets && budgets[provider].cooldownUntil < until {
        budgets := budgets[provider := budgets[provider].(cooldownUntil := until)];
      }
      assert provider in budgets ==> budgets == old(budgets)[provider := budgets[provider]];
    }

    method ChargeEgress(worker: Id, bytes: nat, now: real)
      modifies `egress
      ensures egress == old(egress)[(worker, DayOf(now)) := DayCount(Used(old(Brokerage()), worker, DayOf(now)) + bytes, now)]
    {
      var key := (worker, DayOf(now));
      if key in egress {
        egress := egress[key := DayCount(egress[key].bytes + bytes, now)];
      } else {
        egress := egress[key := DayCount(bytes, now)];
      }
    }

    // ----- nonces and garbage collection

    method ConsumeRequestNonce(key: RequestAuth.NonceKey, retention: real, now: real)
      returns (reply: Result<bool, RequestAuth.AuthError>)
      modifies `nonces
      ensures (nonces, reply) == RequestAuth.ConsumeNonce(old(nonces), key, retention, now)
    {
      if retention <= 0.0 {
        return Err(RequestAuth.InvalidRetention);
      }
      var cutoff := now - retention;
      nonces := map k | k in nonces && nonces[k] >= cutoff :: nonces[k];
      if key in nonces {
        return Ok(false);
      }
      nonces := nonces[key := now];
      return Ok(true);
    }

    // At most `limit` of the rows a query matches; the order of choice is free.
    method UpTo<T>(matched: set<T>, limit: nat) returns (chosen: set<T>)
      ensures Filled(chosen, matched, limit)
    {
      chosen := {};
      var left := matched;
      while left != {} && |chosen| < limit
        invariant chosen <= matched && |chosen| <= limit && left == matched - chosen
        decreases left
      {
        var x :| x in left;
        chosen := chosen + {x};
        left := left - {x};
      }
    }

    method CollectPermitRows(cutoff: real, limit: nat) returns (gone: set<Id>)
      modifies `permits
      ensures Filled(gone, DeadPermits(old(permits), cutoff), limit) && permits == old(permits) - gone
    {
      gone := UpTo(DeadPermits(permits, cutoff), limit);
      permits := permits - gone;
    }

    method CollectBatchRows(cutoff: real, limit: nat) returns (gone: set<BatchId>)
      modifies `batches
      ensures Filled(gone, SettledBatches(old(batches), cutoff), limit) && batches == old(batches) - gone
    {
      gone := UpTo(SettledBatches(batches, cutoff), limit);
      batches := batches - gone;
    }

    method CollectNonceRows(cutoff: real, limit: nat) returns (gone: set<RequestAuth.NonceKey>)
      modifies `nonces
      ensures Filled(gone, OldNonces(old(nonces), cutoff), limit) && nonces == old(nonces) - gone
    {
      gone := UpTo(OldNonces(nonces, cutoff), limit);
      nonces := nonces - gone;
    }

    method CollectEgressRows(cutoff: real, limit: nat) returns (gone: set<(Id, int)>)
      modifies `egress
      ensures Filled(gone, OldDays(old(egress), cutoff), limit) && egress == old(egress) - gone
    {
      gone := UpTo(OldDays(egress, cutoff), limit);
      egress := egress - gone;
    }

    method CompactWork(cutoff: real, limit: nat) returns (done: set<Id>)
      modifies `work
      ensures Filled(done, FinishedWork(old(work), batches, permits, cutoff), limit)
      ensures work == map t | t in old(work) :: if t in done then Compacted(old(work)[t]) else old(work)[t]
    {
      done := UpTo(FinishedWork(work, batches, permits, cutoff), limit);
      work := map t | t in work :: if t in done then Compacted(work[t]) else work[t];
    }

    // Compaction looks at the batches and permits that the collection left.
    method CollectGarbage(retention: real, limit: int, now: real)
      returns (reply: Result<(), Error>, gone: set<BatchId>, compacted: set<Id>, expired: set<Id>, days: set<(Id, int)>,
               forgotten: set<RequestAuth.NonceKey>)
      modifies this
      ensures reply.Ok? <==> retention > 0.0 && limit >= 1
      ensures reply.Ok? ==>
                && Filled(expired, DeadPermits(old(permits), now - retention), limit)
                && Filled(gone, SettledBatches(old(batches), now - retention), limit)
                && Filled(forgotten, OldNonces(old(nonces), now - retention), limit)
                && Filled(days, OldDays(old(egress), now - retention), limit)
                && Filled(compacted, FinishedWork(old(work), batches, permits, now - retention), limit)
      ensures reply.Err? ==> gone == {} && compacted == {} && expired == {} && days == {} && forgotten == {}
      ensures Tables() == LeaseTables.Collect(old(Tables()), gone, compacted)
      ensures Brokerage() == Permits.CollectPermits(old(Brokerage()), expired, days)
      ensures nonces == old(nonces) - forgotten
    {
      hide Filled, DeadPermits, SettledBatches, OldNonces, OldDays, FinishedWork;
      gone, compacted, expired, days, forgotten := {}, {}, {}, {}, {};
      if retention <= 0.0 || limit < 1 {
        assert Tables() == LeaseTables.Collect(Tables(), {}, {});
        return Err(InvalidArgument), gone, compacted, expired, days, forgotten;
      }
      var cutoff := now - retention;
      expired := CollectPermitRows(cutoff, limit);
      gone := CollectBatchRows(cutoff, limit);
      forgotten := CollectNonceRows(cutoff, limit);
      days := CollectEgressRows(cutoff, limit);
      compacted := CompactWork(cutoff, limit);
      reply := Ok(());
    }
  }
}
