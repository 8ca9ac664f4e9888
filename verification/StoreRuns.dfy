// The store object meets the runs: whatever calls it serves, its lease tables
// are those of a run of the authority, its provider tables those of a run of
// provider governance, and its nonces those of a run of the authenticator in
// front of it, so every theorem about runs is about the objects.
module StoreRuns {
  import opened Base
  import opened Wire
  import opened LeaseTables
  import opened Permits
  import opened AuthorityStore
  import ClaimFilter
  import LeaseSafety
  import opened Authenticator
  import R = Runs
  import P = PermitRuns
  import Q = RequestAuth

  // The public operations on leases and results ...
  datatype LeaseCall =
    | Register(worker: Id, descriptor: Worker, protocol: string)
    | Revoke(worker: Id)
    | Admit(work: WorkDefinition, taskId: Id)
    | Claim(worker: Id, instance: Id, seconds: real)
    | Renew(task: Id, worker: Id, instance: Id, generation: nat, seconds: real, expected: Option<real>)
    | Commit(batch: ResultBatch, worker: Id, instance: Id)
    | Finish(task: Id, worker: Id, instance: Id, generation: nat)
    | Fail(task: Id, worker: Id, instance: Id, generation: nat, error: string, retryable: bool, retryAfter: real)
    | Consume(id: BatchId)
    | ConsumeFail(id: BatchId, error: string, maxAttempts: nat)

  // ... and on providers.
  datatype ProviderCall =
    | Configure(provider: Id, rate: real, maxInflight: int, requireQualified: bool, allowProbe: bool, reprobeAfter: real)
    | Observe(provider: Id, worker: Id, instance: Id, task: Id, generation: nat, probe: Probe)
    | Issue(ask: Ask, permitId: Id)
    | Report(permitId: Id, worker: Id, instance: Id, status: Option<int>, cooldown: real, bytes: int)

  // A signed request is authenticated against the same store; `readAt` is the
  // authenticator's own reading of the clock.
  datatype Call =
    | Leases(lease: LeaseCall)
    | Providers(provider: ProviderCall)
    | Collect(retention: real, limit: int)
    | Authenticate(request: Q.Request, readAt: real)

  datatype TimedCall = TimedCall(now: real, call: Call)

  // A work definition checks itself when it is made.
  predicate ValidCall(c: LeaseCall) {
    c.Admit? ==> ValidDefinition(c.work)
  }

  // ----- one call is one event

  // The event is this call, with the answers of the queries filled in.
  predicate IsLeaseEvent(c: LeaseCall, e: R.Event) {
    match c
    case Register(worker, d, p) => e == R.Register(worker, d, p)
    case Revoke(worker) => e == R.Revoke(worker)
    case Admit(d, taskId) => e.Admit? && e.work == d && e.taskId == taskId
    case Claim(worker, i, seconds) => e.Claim? && e.worker == worker && e.instance == i && e.seconds == seconds
    case Renew(t, worker, i, g, seconds, expected) => e == R.Renew(t, worker, i, g, seconds, expected)
    case Commit(b, worker, i) => e == R.Commit(b, worker, i)
    case Finish(t, worker, i, g) => e == R.Finish(t, worker, i, g)
    case Fail(t, worker, i, g, error, retryable, after) => e == R.Fail(t, worker, i, g, error, retryable, after)
    case Consume(id) => e == R.Consume(id)
    case ConsumeFail(id, error, limit) => e == R.ConsumeFail(id, error, limit)
  }

  predicate IsProviderEvent(c: ProviderCall, e: P.Event) {
    match c
    case Configure(p, rate, limit, q, a, t) => e == P.Configure(p, rate, limit, q, a, t)
    case Observe(p, worker, i, t, g, probe) => e.Observe? && e == P.Observe(e.ledger, p, worker, i, t, g, probe)
    case Issue(ask, id) => e.Issue? && e.ask == ask && e.permitId == id
    case Report(id, worker, i, status, cooldown, bytes) =>
      e.Report? && e == P.Report(e.ledger, id, worker, i, status, cooldown, bytes)
  }

  // What one call adds to the lease run.
  ghost predicate AddsLease(c: TimedCall, before: seq<R.Timed>, after: seq<R.Timed>) {
    match c.call
    case Leases(call) => exists e :: IsLeaseEvent(call, e) && after == before + [R.Timed(c.now, e)]
    case Providers(_) => after == before
    case Authenticate(_, _) => after == before
    case Collect(retention, limit) =>
      if retention > 0.0 && limit >= 1
      then exists gone, compacted :: after == before + [R.Timed(c.now, R.Gc(gone, compacted, retention))]
      else after == before
  }

  ghost predicate AddsProvider(c: TimedCall, before: seq<P.Timed>, after: seq<P.Timed>) {
    match c.call
    case Leases(_) => after == before
    case Authenticate(_, _) => after == before
    case Providers(call) => exists e :: IsProviderEvent(call, e) && after == before + [P.Timed(c.now, e)]
    case Collect(retention, limit) =>
      if retention > 0.0 && limit >= 1
      then exists gone, days :: after == before + [P.Timed(c.now, P.Gc(gone, days, retention))]
      else after == before
  }

  // The run is these calls, one after another.
  ghost predicate LeaseRunOf(calls: seq<TimedCall>, run: seq<R.Timed>) {
    if calls == [] then run == [] else
    var front, last := calls[..|calls| - 1], calls[|calls| - 1];
    exists before :: LeaseRunOf(front, before) && AddsLease(last, before, run)
  }

  ghost predicate ProviderRunOf(calls: seq<TimedCall>, run: seq<P.Timed>) {
    if calls == [] then run == [] else
    var front, last := calls[..|calls| - 1], calls[|calls| - 1];
    exists before :: ProviderRunOf(front, before) && AddsProvider(last, before, run)
  }

  // For the nonces every call is one event: an attempt, what a collection
  // forgot, or nothing but the passing of time.
  predicate IsAuthEvent(c: TimedCall, e: Q.Event) {
    match c.call
    case Authenticate(r, readAt) => e == Q.Attempt(r, readAt, c.now)
    case Collect(_, _) => e.Sweep? && e.at == c.now
    case _ => e == Q.Sweep({}, c.now)
  }

  predicate AuthRunOf(calls: seq<TimedCall>, run: seq<Q.Event>) {
    |run| == |calls| && forall i :: 0 <= i < |calls| ==> IsAuthEvent(calls[i], run[i])
  }

  // The call keeps to what the setting says of clocks and of collection.
  predicate Within(c: Q.Setting, call: TimedCall) {
    match call.call
    case Authenticate(_, readAt) => readAt <= call.now <= readAt + c.lag
    case Collect(retention, _) => retention > 0.0 ==> c.sweep.Some? && c.sweep.value <= retention
    case _ => true
  }

  type Answer = Option<Result<(Id, Id), Q.AuthError>>

  // Every request is answered by the nonces its run had come to.
  ghost predicate AnswersOf(s: Q.Scheme, c: Q.Setting, start: real, calls: seq<TimedCall>, run: seq<Q.Event>, answers: seq<Answer>)
    requires c.retention > 0.0 && AuthRunOf(calls, run)
  {
    && |answers| == |calls|
    && forall i :: 0 <= i < |calls| ==>
         var w := Q.Run(s, c, start, run[..i]);
         && Q.Legal(c, w, run[i])
         && answers[i] == if run[i].Attempt?
                          then Some(Q.Verdict(s, c.skew, c.retention, w.nonces, run[i].request, run[i].now, run[i].later)) else None
  }

  // No finite stamp is accepted twice under one worker and nonce.
  predicate NoReplay(s: Q.Scheme, calls: seq<TimedCall>, answers: seq<Answer>)
    requires |answers| == |calls|
  {
    forall i, j :: 0 <= i < j < |calls| && Repeats(s, calls[i], calls[j]) && Accepted(answers[i]) ==> !Accepted(answers[j])
  }

  predicate Accepted(a: Answer) { a.Some? && a.value.Ok? }

  predicate Repeats(s: Q.Scheme, a: TimedCall, b: TimedCall) {
    && a.call.Authenticate? && b.call.Authenticate?
    && a.call.request.worker == b.call.request.worker
    && a.call.request.fields.timestamp == b.call.request.fields.timestamp
    && a.call.request.fields.nonce == b.call.request.fields.nonce
    && s.parse(a.call.request.fields.timestamp).Finite?
  }

  lemma {:induction false} NeverReplayed(s: Q.Scheme, c: Q.Setting, start: real, calls: seq<TimedCall>, run: seq<Q.Event>,
                                         answers: seq<Answer>)
    requires Q.ValidSetting(c) && Q.Covers(c) && AuthRunOf(calls, run) && AnswersOf(s, c, start, calls, run, answers)
    ensures NoReplay(s, calls, answers)
  {
    hide Q.Run, Q.Verdict, Q.Legal;
    forall i, j | 0 <= i < j < |calls| && Repeats(s, calls[i], calls[j]) && Accepted(answers[i]) ensures !Accepted(answers[j]) {
      var r := calls[i].call.request;
      assert IsAuthEvent(calls[i], run[i]) && IsAuthEvent(calls[j], run[j]);
      assert Q.AcceptedAt(s, c, start, run, i, r.worker, r.fields.timestamp, r.fields.nonce);
      Q.FiniteStampOnce(s, c, start, run, i, j, r.worker, r.fields.timestamp, r.fields.nonce);
    }
  }

  method ServeLease(store: DistributedAuthorityStore, c: LeaseCall, now: real, ghost w: R.World) returns (ghost e: R.Timed)
    requires store.Tables() == w.ledger && w.clock <= now && ValidCall(c)
    modifies store`workers, store`work, store`batches
    ensures R.Legal(w, e) && e.now == now && store.Tables() == R.Next(w.ledger, e) && IsLeaseEvent(c, e.event)
  {
    match c {
      case Register(worker, d, p) =>
        var _ := store.RegisterWorker(worker, d, p, now);
        e := R.Timed(now, R.Register(worker, d, p));
      case Revoke(worker) =>
        var _ := store.RevokeWorker(worker, now);
        e := R.Timed(now, R.Revoke(worker));
      case Admit(d, taskId) =>
        var _, prior := store.AdmitWork(d, taskId, now);
        e := R.Timed(now, R.Admit(d, taskId, prior));
      case Claim(worker, i, seconds) =>
        e := ServeClaim(store, worker, i, seconds, now, w);
      case Renew(t, worker, i, g, seconds, expected) =>
        var _ := store.RenewTask(t, worker, i, g, seconds, expected, now);
        e := R.Timed(now, R.Renew(t, worker, i, g, seconds, expected));
      case Commit(b, worker, i) =>
        var _ := store.CommitResultBatch(b, worker, i, now);
        e := R.Timed(now, R.Commit(b, worker, i));
      case Finish(t, worker, i, g) =>
        var _ := store.FinishTask(t, worker, i, g, now);
        e := R.Timed(now, R.Finish(t, worker, i, g));
      case Fail(t, worker, i, g, error, retryable, after) =>
        var _ := store.FailTask(t, worker, i, g, error, retryable, after, now);
        e := R.Timed(now, R.Fail(t, worker, i, g, error, retryable, after));
      case Consume(id) =>
        var _ := store.MarkBatchConsumed(id, now);
        e := R.Timed(now, R.Consume(id));
      case ConsumeFail(id, error, limit) =>
        var _ := store.MarkBatchConsumeFailed(id, error, limit);
        e := R.Timed(now, R.ConsumeFail(id, error, limit));
    }
  }

  method ServeClaim(store: DistributedAuthorityStore, worker: Id, instance: Id, seconds: real, now: real, ghost w: R.World)
    returns (ghost e: R.Timed)
    requires store.Tables() == w.ledger && w.clock <= now
    modifies store`work
    ensures R.Legal(w, e) && e.now == now && store.Tables() == R.Next(w.ledger, e)
    ensures IsLeaseEvent(Claim(worker, instance, seconds), e.event)
  {
    ghost var ok := if Registered(store.Tables(), worker, instance)
                    then ClaimFilter.RegionOk(store.work, store.workers[worker], store.Brokerage(), now) else {};
    var _, held, rows := store.ClaimWork(worker, instance, seconds, now);
    e := R.Timed(now, R.Claim(worker, instance, seconds, held, rows, ok));
  }

  // Permit identifiers are drawn afresh.
  ghost predicate FreshId(w: P.World, c: ProviderCall) {
    c.Issue? ==> forall i :: 0 <= i < |w.mints| ==> w.mints[i].id != c.permitId
  }

  method ServeProvider(store: DistributedAuthorityStore, c: ProviderCall, now: real, ghost w: P.World) returns (ghost e: P.Timed)
    requires store.Brokerage() == w.broker && w.clock <= now && FreshId(w, c)
    requires forall p :: p in store.budgets ==> store.budgets[p].rate > 0.0
    modifies store`budgets, store`regions, store`permits, store`egress
    ensures P.Legal(w, e) && e.now == now && store.Brokerage() == P.Next(w.broker, e) && IsProviderEvent(c, e.event)
  {
    ghost var l := store.Tables();
    match c {
      case Configure(p, rate, limit, q, a, t) =>
        var _ := store.ConfigureProviderBudget(p, rate, limit, q, a, t);
        e := P.Timed(now, P.Configure(p, rate, limit, q, a, t));
      case Observe(p, worker, i, t, g, probe) =>
        var _ := store.RecordProviderRegionObservation(p, worker, i, t, g, probe, now);
        e := P.Timed(now, P.Observe(l, p, worker, i, t, g, probe));
      case Issue(ask, id) =>
        var _, prior := store.IssueProviderPermit(ask, id, now);
        e := P.Timed(now, P.Issue(l, ask, id, prior));
      case Report(id, worker, i, status, cooldown, bytes) =>
        var _ := store.ReportProviderPermit(id, worker, i, status, cooldown, bytes, now);
        e := P.Timed(now, P.Report(l, id, worker, i, status, cooldown, bytes));
    }
  }

  // A collection is an event of both runs, or of none when it is refused.
  method ServeCollect(store: DistributedAuthorityStore, retention: real, limit: int, now: real,
                      ghost w: R.World, ghost v: P.World)
    returns (ghost e: Option<(R.Timed, P.Timed)>, ghost forgotten: set<Q.NonceKey>)
    requires store.Tables() == w.ledger && store.Brokerage() == v.broker && w.clock <= now && v.clock <= now
    modifies store
    ensures store.nonces == old(store.nonces) - forgotten
    ensures forall k :: k in forgotten ==> retention > 0.0 && k in old(store.nonces) && old(store.nonces)[k] <= now - retention
    ensures match e
            case None => store.Tables() == w.ledger && store.Brokerage() == v.broker && !(retention > 0.0 && limit >= 1)
            case Some((le, pe)) =>
              && retention > 0.0 && limit >= 1
              && R.Legal(w, le) && le.now == now && store.Tables() == R.Next(w.ledger, le)
              && le.event.Gc? && le.event.retention == retention && pe.event.Gc? && pe.event.retention == retention
              && P.Legal(v, pe) && pe.now == now && store.Brokerage() == P.Next(v.broker, pe)
  {
    hide Filled, DeadPermits, SettledBatches, OldNonces, OldDays, FinishedWork, CollectInputs, CollectsPermits, Compacted;
    ghost var nonces := store.nonces;
    var reply, gone, compacted, expired, days, lost := store.CollectGarbage(retention, limit, now);
    forgotten := lost;
    if reply.Ok? {
      ChosenIsLegal(w.ledger, v.broker, nonces, gone, compacted, expired, days, lost, now - retention, limit);
      e := Some((R.Timed(now, R.Gc(gone, compacted, retention)), P.Timed(now, P.Gc(expired, days, retention))));
    } else {
      e := None;
      CollectNothing(w.ledger, v.broker);
    }
  }

  lemma CollectNothing(l: Ledger, b: Broker)
    ensures LeaseTables.Collect(l, {}, {}) == l && CollectPermits(b, {}, {}) == b
  {
  }

  // ----- any calls are a run

  predicate InOrder(start: real, calls: seq<TimedCall>) {
    && (forall i :: 0 <= i < |calls| ==> start <= calls[i].now)
    && forall i, j :: 0 <= i < j < |calls| ==> calls[i].now <= calls[j].now
  }

  predicate Issues(c: TimedCall, id: Id) {
    c.call.Providers? && c.call.provider.Issue? && c.call.provider.permitId == id
  }

  ghost predicate ValidCalls(calls: seq<TimedCall>) {
    && (forall i :: 0 <= i < |calls| && calls[i].call.Leases? ==> ValidCall(calls[i].call.lease))
    && forall i, j, id :: 0 <= i < j < |calls| && Issues(calls[i], id) ==> !Issues(calls[j], id)
  }

  ghost predicate MintsFrom(w: P.World, calls: seq<TimedCall>, n: nat)
    requires n <= |calls|
  {
    forall k :: 0 <= k < |w.mints| ==> AskedFor(calls, n, w.mints[k].id)
  }

  predicate AskedFor(calls: seq<TimedCall>, n: nat, id: Id)
    requires n <= |calls|
  {
    exists i :: 0 <= i < n && Issues(calls[i], id)
  }

  lemma NewId(w: P.World, calls: seq<TimedCall>, n: nat)
    requires n < |calls| && ValidCalls(calls) && MintsFrom(w, calls, n) && calls[n].call.Providers?
    ensures FreshId(w, calls[n].call.provider)
  {
  }

  lemma MintsGrow(w: P.World, calls: seq<TimedCall>, n: nat, e: P.Timed)
    requires n < |calls| && MintsFrom(w, calls, n)
    requires e.event.Issue? ==> Issues(calls[n], e.event.permitId)
    ensures MintsFrom(w, calls, n + 1) && MintsFrom(P.Step(w, e), calls, n + 1)
  {
    hide P.Next, IssuePermit;
    forall id | AskedFor(calls, n, id) ensures AskedFor(calls, n + 1, id) {
      var i :| 0 <= i < n && Issues(calls[i], id);
      assert Issues(calls[i], id);
    }
    if e.event.Issue? {
      assert AskedFor(calls, n + 1, e.event.permitId);
    }
  }

  lemma {:induction false} LeaseSnoc(start: real, run: seq<R.Timed>, e: R.Timed)
    requires R.Legal(R.Run(start, run), e)
    ensures R.Run(start, run + [e]).ledger == R.Next(R.Run(start, run).ledger, e) && R.Run(start, run + [e]).clock == e.now
  {
    hide R.Legal, R.Next;
    LeaseSafety.RunSnoc(start, run, e);
  }

  lemma {:induction false} ProviderSnoc(start: real, run: seq<P.Timed>, e: P.Timed)
    requires P.Legal(P.Run(start, run), e)
    ensures P.Run(start, run + [e]) == P.Step(P.Run(start, run), e)
    ensures P.Run(start, run + [e]).broker == P.Next(P.Run(start, run).broker, e) && P.Run(start, run + [e]).clock == e.now
  {
    hide P.Legal, P.Next;
    assert (run + [e])[..|run|] == run;
  }

  lemma {:induction false} RatesPositive(start: real, run: seq<P.Timed>)
    ensures forall p :: p in P.Run(start, run).broker.budgets ==> P.Run(start, run).broker.budgets[p].rate > 0.0
  {
    P.RunKeeps(start, run, P.Loosest(run, ""));
  }

  lemma {:induction false} NonceSnoc(s: Q.Scheme, c: Q.Setting, start: real, run: seq<Q.Event>, e: Q.Event)
    requires Q.Legal(c, Q.Run(s, c, start, run), e)
    ensures Q.Run(s, c, start, run + [e]) == Q.Next(s, c, Q.Run(s, c, start, run), e)
  {
    hide Q.Legal, Q.Next;
    assert (run + [e])[..|run|] == run;
  }

  // The three runs stand where the store stands.
  ghost predicate Tracks(store: DistributedAuthorityStore, start: real, leases: seq<R.Timed>, providers: seq<P.Timed>, now: real)
    reads store
  {
    && store.Tables() == R.Run(start, leases).ledger && R.Run(start, leases).clock <= now
    && store.Brokerage() == P.Run(start, providers).broker && P.Run(start, providers).clock <= now
  }

  ghost predicate TracksNonces(auth: HMACRequestAuthenticator, c: Q.Setting, start: real, run: seq<Q.Event>, now: real)
    reads auth.store
  {
    && auth.skew == c.skew && auth.retention == c.retention
    && var w := Q.Run(auth.scheme, c, start, run);
       auth.store.nonces == w.nonces && w.clock <= now
  }

  method ServeOne(auth: HMACRequestAuthenticator, c: TimedCall, ghost setting: Q.Setting, ghost start: real,
                  ghost leases: seq<R.Timed>, ghost providers: seq<P.Timed>, ghost run: seq<Q.Event>)
    returns (answer: Answer, ghost leases': seq<R.Timed>, ghost providers': seq<P.Timed>, ghost e: Q.Event)
    requires Tracks(auth.store, start, leases, providers, c.now) && TracksNonces(auth, setting, start, run, c.now)
    requires c.call.Leases? ==> ValidCall(c.call.lease)
    requires c.call.Providers? ==> FreshId(P.Run(start, providers), c.call.provider)
    requires setting.retention > 0.0 && Within(setting, c)
    modifies auth.store
    ensures Tracks(auth.store, start, leases', providers', c.now)
    ensures AddsLease(c, leases, leases') && AddsProvider(c, providers, providers')
    ensures providers' == providers
            || exists e :: P.Run(start, providers') == P.Step(P.Run(start, providers), e)
                           && (e.event.Issue? ==> Issues(c, e.event.permitId))
    ensures IsAuthEvent(c, e)
    ensures var w := Q.Run(auth.scheme, setting, start, run);
            && Q.Legal(setting, w, e) && auth.store.nonces == Q.Next(auth.scheme, setting, w, e).nonces
            && answer == if e.Attempt?
                         then Some(Q.Verdict(auth.scheme, setting.skew, setting.retention, w.nonces, e.request, e.now, e.later)) else None
  {
    hide R.Legal, R.Next, R.Run, P.Legal, P.Next, P.Run, P.Step, Q.Run, Q.Verdict, Q.Remember;
    answer, leases', providers' := None, leases, providers;
    e := Q.Sweep({}, c.now);
    match c.call {
      case Leases(call) =>
        ghost var le := ServeLease(auth.store, call, c.now, R.Run(start, leases));
        LeaseSnoc(start, leases, le);
        leases' := leases + [le];
        assert leases' == leases + [R.Timed(c.now, le.event)];
      case Providers(call) =>
        RatesPositive(start, providers);
        ghost var pe := ServeProvider(auth.store, call, c.now, P.Run(start, providers));
        ProviderSnoc(start, providers, pe);
        providers' := providers + [pe];
        assert providers' == providers + [P.Timed(c.now, pe.event)];
      case Authenticate(r, readAt) =>
        e := Q.Attempt(r, readAt, c.now);
        var reply := auth.Verify(r, readAt, c.now);
        answer := Some(reply);
      case Collect(retention, limit) =>
        ghost var both, forgotten := ServeCollect(auth.store, retention, limit, c.now, R.Run(start, leases), P.Run(start, providers));
        e := Q.Sweep(forgotten, c.now);
        if both.Some? {
          LeaseSnoc(start, leases, both.value.0);
          ProviderSnoc(start, providers, both.value.1);
          leases', providers' := leases + [both.value.0], providers + [both.value.1];
          ghost var le, pe := both.value.0.event, both.value.1.event;
          assert leases' == leases + [R.Timed(c.now, R.Gc(le.gone, le.compacted, retention))];
          assert providers' == providers + [P.Timed(c.now, P.Gc(pe.gone, pe.days, retention))];
        }
    }
  }

  // The setting an authenticator made with these arguments works in; `lag` and
  // `sweep` are what the calls keep to.
  function SettingOf(skew: real, nonceRetention: real, lag: real, sweep: Option<real>): Q.Setting {
    Q.Setting(skew, if nonceRetention >= 2.0 * skew then nonceRetention else 2.0 * skew, lag, sweep)
  }

  // A new store and authenticator that serve any calls in order of time hold,
  // table by table, what some run of the authority, some run of the providers
  // and some run of authentication hold; and when the retentions cover the
  // exposure of a stamp, no request is accepted twice, whatever is collected in
  // between.
  method ServeAll(calls: seq<TimedCall>, scheme: Q.Scheme, skew: real, nonceRetention: real,
                  ghost lag: real, ghost sweep: Option<real>, ghost start: real)
    returns (auth: HMACRequestAuthenticator, answers: seq<Answer>, ghost leases: seq<R.Timed>, ghost providers: seq<P.Timed>,
             ghost run: seq<Q.Event>)
    requires InOrder(start, calls) && ValidCalls(calls)
    requires skew > 0.0 && nonceRetention > 0.0 && lag >= 0.0 && (sweep.Some? ==> sweep.value > 0.0)
    requires forall i :: 0 <= i < |calls| ==> Within(SettingOf(skew, nonceRetention, lag, sweep), calls[i])
    ensures fresh(auth.store) && auth.scheme == scheme
    ensures LeaseRunOf(calls, leases) && auth.store.Tables() == R.Run(start, leases).ledger
    ensures ProviderRunOf(calls, providers) && auth.store.Brokerage() == P.Run(start, providers).broker
    ensures var c := SettingOf(skew, nonceRetention, lag, sweep);
            && AuthRunOf(calls, run) && auth.store.nonces == Q.Run(scheme, c, start, run).nonces
            && AnswersOf(scheme, c, start, calls, run, answers) && (Q.Covers(c) ==> NoReplay(scheme, calls, answers))
  {
    hide Q.Run, Q.Legal, Q.Next, Q.Covers, P.Run, R.Run;
    var store := new DistributedAuthorityStore();
    auth := new HMACRequestAuthenticator(store, scheme, skew, nonceRetention);
    ghost var c := SettingOf(skew, nonceRetention, lag, sweep);
    leases, providers, run, answers := [], [], [], [];
    ghost var now := start;
    NothingServed(auth, c, start);
    for i := 0 to |calls|
      invariant fresh(store) && auth.store == store && auth.scheme == scheme
      invariant Tracks(store, start, leases, providers, now) && MintsFrom(P.Run(start, providers), calls, i)
      invariant TracksNonces(auth, c, start, run, now)
      invariant i < |calls| ==> now <= calls[i].now
      invariant LeaseRunOf(calls[..i], leases) && ProviderRunOf(calls[..i], providers)
      invariant AuthRunOf(calls[..i], run) && AnswersOf(scheme, c, start, calls[..i], run, answers)
    {
      if calls[i].call.Providers? { NewId(P.Run(start, providers), calls, i); }
      ghost var before := P.Run(start, providers);
      var answer;
      ghost var leases', providers', e;
      answer, leases', providers', e := ServeOne(auth, calls[i], c, start, leases, providers, run);
      StillFrom(before, P.Run(start, providers'), calls, i, providers' == providers);
      OneMoreCall(calls, i, leases, leases', providers, providers');
      OneMoreAnswer(scheme, c, start, calls, i, run, e, answers, answer);
      leases, providers, now := leases', providers', calls[i].now;
      run, answers := run + [e], answers + [answer];
    }
    assert calls[..|calls|] == calls;
    if Q.Covers(c) { NeverReplayed(scheme, c, start, calls, run, answers); }
  }

  lemma NothingServed(auth: HMACRequestAuthenticator, c: Q.Setting, start: real)
    requires auth.skew == c.skew && auth.retention == c.retention && auth.store.nonces == map[]
    requires auth.store.Tables() == Ledger(map[], map[], map[]) && auth.store.Brokerage() == Broker(map[], map[], map[], map[])
    ensures Tracks(auth.store, start, [], [], start) && TracksNonces(auth, c, start, [], start)
    ensures P.Run(start, []).mints == []
  {
  }

  lemma {:induction false} OneMoreAnswer(s: Q.Scheme, c: Q.Setting, start: real, calls: seq<TimedCall>, n: nat, run: seq<Q.Event>,
                                         e: Q.Event, answers: seq<Answer>, answer: Answer)
    requires n < |calls| && c.retention > 0.0 && AuthRunOf(calls[..n], run) && AnswersOf(s, c, start, calls[..n], run, answers)
    requires IsAuthEvent(calls[n], e) && Q.Legal(c, Q.Run(s, c, start, run), e)
    requires answer == if e.Attempt?
                       then Some(Q.Verdict(s, c.skew, c.retention, Q.Run(s, c, start, run).nonces, e.request, e.now, e.later)) else None
    ensures AuthRunOf(calls[..n + 1], run + [e]) && AnswersOf(s, c, start, calls[..n + 1], run + [e], answers + [answer])
    ensures Q.Run(s, c, start, run + [e]) == Q.Next(s, c, Q.Run(s, c, start, run), e)
    ensures Q.Run(s, c, start, run + [e]).clock == calls[n].now
  {
    NonceSnoc(s, c, start, run, e);
    assert Q.Next(s, c, Q.Run(s, c, start, run), e).clock == calls[n].now;
    hide Q.Run, Q.Legal, Q.Next, Q.Verdict;
    var now, run', answers' := calls[..n + 1], run + [e], answers + [answer];
    assert run'[..n] == run;
    forall i | 0 <= i < n ensures now[i] == calls[..n][i] && run'[i] == run[i] && run'[..i] == run[..i] && answers'[i] == answers[i] {
    }
  }

  lemma {:induction false} OneMoreCall(calls: seq<TimedCall>, n: nat, leases: seq<R.Timed>, leases': seq<R.Timed>,
                                       providers: seq<P.Timed>, providers': seq<P.Timed>)
    requires n < |calls| && LeaseRunOf(calls[..n], leases) && ProviderRunOf(calls[..n], providers)
    requires AddsLease(calls[n], leases, leases') && AddsProvider(calls[n], providers, providers')
    ensures LeaseRunOf(calls[..n + 1], leases') && ProviderRunOf(calls[..n + 1], providers')
  {
    hide AddsLease, AddsProvider;
    assert calls[..n + 1][..n] == calls[..n] && calls[..n + 1][n] == calls[n];
  }

  lemma StillFrom(w: P.World, w': P.World, calls: seq<TimedCall>, n: nat, same: bool)
    requires n < |calls| && MintsFrom(w, calls, n)
    requires if same then w' == w
             else exists e :: w' == P.Step(w, e) && (e.event.Issue? ==> Issues(calls[n], e.event.permitId))
    ensures MintsFrom(w', calls, n + 1)
  {
    if same {
      MintsGrow(w, calls, n, P.Timed(w.clock, P.Gc({}, {}, 1.0)));
    } else {
      var e :| w' == P.Step(w, e) && (e.event.Issue? ==> Issues(calls[n], e.event.permitId));
      MintsGrow(w, calls, n, e);
    }
  }
}
