// What each operation of provider governance answers and leaves behind, in the
// terms of the rows themselves.
module PermitAnswers {
  import opened Base
  import opened Wire
  import opened LeaseTables
  import opened Permits
  import opened LeaseAnswers

  // ----- vocabulary of the rows

  // The provider's permits that are out: neither reported nor run out.
  function Out(b: Broker, provider: Id, now: real): set<Id> {
    set id | id in b.permits && b.permits[id].provider == provider && b.permits[id].active && now < b.permits[id].expiresAt
  }

  function OutIn(l: Ledger, b: Broker, provider: Id, region: Id, now: real): set<Id> {
    set id | id in Out(b, provider, now) && b.permits[id].worker in l.workers && l.workers[b.permits[id].worker].region == region
  }

  // The provider may be asked from the region: it asks for no qualification, or
  // the region has it, or this is the one probe under way in a region that was
  // not refused, or was refused long enough ago.
  predicate Welcome(l: Ledger, b: Broker, provider: Id, region: Id, now: real)
    requires provider in b.budgets
  {
    var budget, key := b.budgets[provider], (provider, region);
    || !budget.requireQualified
    || (key in b.regions && b.regions[key].state == Qualified)
    || (budget.allowProbe && OutIn(l, b, provider, region, now) == {}
        && (key in b.regions && (b.regions[key].state == Blocked || b.regions[key].state == Unqualified) ==>
              b.regions[key].updatedAt + budget.reprobeAfter <= now))
  }

  // Room in flight, the pause between requests over, and any cooldown over.
  predicate HasRoom(b: Broker, provider: Id, now: real)
    requires provider in b.budgets
  {
    var budget := b.budgets[provider];
    |Out(b, provider, now)| + 1 <= budget.maxInflight && budget.nextAt <= now && budget.cooldownUntil <= now
  }

  predicate OnDay(day: int, now: real) {
    day as real * 86400.0 <= now < (day + 1) as real * 86400.0
  }

  // Bytes charged to the worker today are below its budget; zero is no limit.
  ghost predicate UnderBudget(b: Broker, worker: Id, budget: nat, now: real) {
    budget > 0 ==> forall day :: (worker, day) in b.egress && OnDay(day, now) ==> b.egress[(worker, day)].bytes < budget
  }

  lemma DayIsOn(now: real, day: int)
    ensures day == DayOf(now) <==> OnDay(day, now)
  {
  }

  predicate ForRequest(p: Permit, worker: Id, requestId: string) {
    p.worker == worker && p.requestId == requestId
  }

  // At most one permit row per worker and request: the table's unique index.
  ghost predicate OnePerRequest(permits: map<Id, Permit>) {
    forall i, j :: i in permits && j in permits && i != j ==> !ForRequest(permits[j], permits[i].worker, permits[i].requestId)
  }

  predicate SameWork(p: Permit, ask: Ask) {
    p.provider == ask.provider && p.instance == ask.instance && p.task == ask.task && p.generation == ask.generation
  }

  // The permit grants what was asked, from `at` on for the time asked.
  predicate Grants(p: Permit, ask: Ask, at: real) {
    && SameWork(p, ask) && ForRequest(p, ask.worker, ask.requestId)
    && p.issuedAt == at && p.expiresAt == at + ask.ttl
  }

  // ----- permits

  // The row of the request, if it is still good.
  predicate Holds(b: Broker, ask: Ask, now: real, id: Id) {
    id in b.permits && ForRequest(b.permits[id], ask.worker, ask.requestId) && b.permits[id].active && now < b.permits[id].expiresAt
  }

  // What a mint leaves: the new permit, no other row for the request, every
  // other row of the provider that had run out switched off, and the next
  // request of the provider due one interval later.
  ghost predicate AfterMint(b: Broker, b': Broker, ask: Ask, id: Id, now: real) {
    && b'.regions == b.regions && b'.egress == b.egress
    && id in b'.permits && Grants(b'.permits[id], ask, now) && b'.permits[id].active && b'.permits[id].status.None?
    && ask.provider in b.budgets && b'.permits[id].maxInflight == b.budgets[ask.provider].maxInflight
    && (forall k :: k in b'.permits && k != id ==> k in b.permits && !ForRequest(b.permits[k], ask.worker, ask.requestId))
    && (forall k :: k in b.permits && !ForRequest(b.permits[k], ask.worker, ask.requestId) ==>
          && k in b'.permits && k != id
          && b'.permits[k] == b.permits[k].(active := b.permits[k].active
                                                       && !(b.permits[k].provider == ask.provider && b.permits[k].expiresAt <= now)))
    && b'.budgets.Keys == b.budgets.Keys
    && (forall p :: p in b.budgets && p != ask.provider ==> b'.budgets[p] == b.budgets[p])
    && b'.budgets[ask.provider] == b.budgets[ask.provider].(nextAt := b'.budgets[ask.provider].nextAt)
    && (b'.budgets[ask.provider].nextAt - now) * b.budgets[ask.provider].rate == 1.0
  }

  ghost predicate Refuses(b: Broker, tx: BrokerTx<Option<(Id, Permit)>>, error: Error) {
    tx == BrokerTx(b, Err(error))
  }

  // When a request for a permit is refused, put off, replayed or granted.
  lemma IssueAnswers(l: Ledger, b: Broker, ask: Ask, permitId: Id, prior: Option<Id>, now: real)
    requires IsPriorPermit(b.permits, ask.worker, ask.requestId, prior) && OnePerRequest(b.permits)
    requires ask.provider in b.budgets ==> b.budgets[ask.provider].rate > 0.0
    requires permitId !in b.permits
    ensures var tx := IssuePermit(l, b, ask, permitId, prior, now);
            if Strip(ask.requestId) == "" || !(0.0 < ask.ttl) then Refuses(b, tx, InvalidArgument)
            else if !KnownWorker(l, ask.worker, ask.instance) then Refuses(b, tx, WorkerRejected)
            else if !OwnsNow(l, ask.task, ask.worker, ask.instance, ask.generation, now) then Refuses(b, tx, StaleLease)
            else if ask.provider !in l.workers[ask.worker].providers then Refuses(b, tx, ProviderDenied)
            else if !UnderBudget(b, ask.worker, l.workers[ask.worker].egressBudget, now) then Refuses(b, tx, EgressExceeded)
            else if exists id :: Holds(b, ask, now, id) then
              forall id :: Holds(b, ask, now, id) ==>
                if SameWork(b.permits[id], ask) then tx == BrokerTx(b, Ok(Some((id, b.permits[id])))) else Refuses(b, tx, ProviderDenied)
            else if ask.provider !in b.budgets then Refuses(b, tx, ProviderDenied)
            else if !(Welcome(l, b, ask.provider, l.workers[ask.worker].region, now) && HasRoom(b, ask.provider, now)) then
              tx == BrokerTx(b, Ok(None))
            else
              AfterMint(b, tx.broker, ask, permitId, now) && tx.reply == Ok(Some((permitId, tx.broker.permits[permitId])))
  {
    hide MintOrRefuse, AfterMint, Welcome, HasRoom, UnderBudget, EgressAvailable, Holds, IsPriorPermit, OnePerRequest;
    if ask.worker in l.workers { BudgetIsEgress(b, ask.worker, l.workers[ask.worker].egressBudget, now); }
    HolderIsPrior(b, ask, prior, now);
    if prior.Some? { assert Holds(b, ask, now, prior.value) <==> prior.value in b.permits && Live(b.permits[prior.value], now); }
    if ask.worker in l.workers && forall id :: !Holds(b, ask, now, id) {
      var others := Without(b, ask, prior);
      if ask.provider in b.budgets { MintAnswers(l, b, others, ask, permitId, now); }
      else { NoBudget(l, b, others, ask, permitId, now); }
    }
  }

  lemma NoBudget(l: Ledger, b: Broker, others: map<Id, Permit>, ask: Ask, permitId: Id, now: real)
    requires ask.worker in l.workers && ask.provider !in b.budgets
    ensures Refuses(b, MintOrRefuse(l, b, others, ask, permitId, now), ProviderDenied)
  {
  }

  lemma BudgetIsEgress(b: Broker, worker: Id, budget: nat, now: real)
    ensures UnderBudget(b, worker, budget, now) <==> EgressAvailable(b, worker, budget, now)
  {
    DayIsOn(now, DayOf(now));
    forall day | OnDay(day, now) ensures day == DayOf(now) { DayIsOn(now, day); }
  }

  lemma HolderIsPrior(b: Broker, ask: Ask, prior: Option<Id>, now: real)
    requires IsPriorPermit(b.permits, ask.worker, ask.requestId, prior) && OnePerRequest(b.permits)
    ensures forall id :: Holds(b, ask, now, id) <==> prior == Some(id) && id in b.permits && Live(b.permits[id], now)
  {
    forall id | Holds(b, ask, now, id) ensures prior == Some(id) {
      assert IsRequest(b.permits, id, ask.worker, ask.requestId);
    }
  }

  // The permits without the row of the request.
  lemma Without(b: Broker, ask: Ask, prior: Option<Id>) returns (others: map<Id, Permit>)
    requires IsPriorPermit(b.permits, ask.worker, ask.requestId, prior) && OnePerRequest(b.permits)
    ensures others == if prior.Some? then b.permits - {prior.value} else b.permits
    ensures forall id :: id in others <==> id in b.permits && !ForRequest(b.permits[id], ask.worker, ask.requestId)
    ensures forall id :: id in others ==> others[id] == b.permits[id]
  {
    others := if prior.Some? then b.permits - {prior.value} else b.permits;
    forall id | id in others ensures !ForRequest(b.permits[id], ask.worker, ask.requestId) {
      assert prior.None? ==> !IsRequest(b.permits, id, ask.worker, ask.requestId);
    }
  }

  lemma MintAnswers(l: Ledger, b: Broker, others: map<Id, Permit>, ask: Ask, permitId: Id, now: real)
    requires ask.worker in l.workers && ask.provider in b.budgets && b.budgets[ask.provider].rate > 0.0 && permitId !in b.permits
    requires forall id :: !Holds(b, ask, now, id)
    requires forall id :: id in others <==> id in b.permits && !ForRequest(b.permits[id], ask.worker, ask.requestId)
    requires forall id :: id in others ==> others[id] == b.permits[id]
    ensures var tx := MintOrRefuse(l, b, others, ask, permitId, now);
            if Welcome(l, b, ask.provider, l.workers[ask.worker].region, now) && HasRoom(b, ask.provider, now)
            then AfterMint(b, tx.broker, ask, permitId, now) && tx.reply == Ok(Some((permitId, tx.broker.permits[permitId])))
            else tx == BrokerTx(b, Ok(None))
  {
    var rest, region := Expire(others, ask.provider, now), l.workers[ask.worker].region;
    ActiveIsOut(b, others, ask, now);
    assert Active(rest, ask.provider) == Out(b, ask.provider, now);
    assert Probing(rest, l.workers, ask.provider, region) == OutIn(l, b, ask.provider, region, now);
    MintedLeaves(b, others, ask, permitId, now);
    WelcomeIsAdmission(l, b, rest, ask.provider, region, now);
    hide Welcome, RegionAdmits, AfterMint, Expire, Active, Out, Minted;
  }

  lemma MintedLeaves(b: Broker, others: map<Id, Permit>, ask: Ask, permitId: Id, now: real)
    requires ask.provider in b.budgets && b.budgets[ask.provider].rate > 0.0 && permitId !in b.permits
    requires forall id :: id in others <==> id in b.permits && !ForRequest(b.permits[id], ask.worker, ask.requestId)
    requires forall id :: id in others ==> others[id] == b.permits[id]
    ensures var tx := Minted(b, Expire(others, ask.provider, now), ask, permitId, now);
            AfterMint(b, tx.broker, ask, permitId, now) && tx.reply == Ok(Some((permitId, tx.broker.permits[permitId])))
  {
    Inverse(now, b.budgets[ask.provider].rate);
  }

  lemma ActiveIsOut(b: Broker, others: map<Id, Permit>, ask: Ask, now: real)
    requires forall id :: !Holds(b, ask, now, id)
    requires forall id :: id in others <==> id in b.permits && !ForRequest(b.permits[id], ask.worker, ask.requestId)
    requires forall id :: id in others ==> others[id] == b.permits[id]
    ensures var rest := Expire(others, ask.provider, now);
            forall id :: id in rest && rest[id].provider == ask.provider && rest[id].active <==> id in Out(b, ask.provider, now)
  {
    forall id | id in Out(b, ask.provider, now) ensures id in others {
      assert !Holds(b, ask, now, id);
    }
  }

  lemma Inverse(now: real, rate: real)
    requires rate > 0.0
    ensures (now + 1.0 / rate - now) * rate == 1.0
  {
    var wait := 1.0 / rate;
    assert wait * rate == 1.0;
    assert now + wait - now == wait;
  }

  lemma WelcomeIsAdmission(l: Ledger, b: Broker, rest: map<Id, Permit>, provider: Id, region: Id, now: real)
    requires provider in b.budgets && Probing(rest, l.workers, provider, region) == OutIn(l, b, provider, region, now)
    ensures RegionAdmits(l, b.budgets[provider], At(b, provider, region), rest, provider, region, now)
            <==> Welcome(l, b, provider, region, now)
  {
    var probing := OutIn(l, b, provider, region, now);
    assert |probing| < 1 <==> probing == {};
  }

  // The first report of a permit by its holder switches it off, charges the
  // bytes to the holder's day and puts the provider to rest; nothing else
  // changes, and a second report changes nothing.
  lemma ReportAnswers(l: Ledger, b: Broker, id: Id, worker: Id, instance: Id, status: Option<int>, cooldown: real, bytes: int,
                      now: real, day: int)
    requires OnDay(day, now)
    ensures var tx := ReportPermit(l, b, id, worker, instance, status, cooldown, bytes, now);
            if cooldown < 0.0 || bytes < 0 then tx == BrokerTx(b, Err(InvalidArgument))
            else if !KnownWorker(l, worker, instance) then tx == BrokerTx(b, Err(WorkerRejected))
            else if !(id in b.permits && b.permits[id].worker == worker && b.permits[id].instance == instance) then
              tx == BrokerTx(b, Err(ProviderDenied))
            else if !b.permits[id].active then tx == BrokerTx(b, Ok(false))
            else
              && tx.reply == Ok(true) && tx.broker.regions == b.regions
              && tx.broker.permits.Keys == b.permits.Keys
              && (forall k :: k in b.permits && k != id ==> tx.broker.permits[k] == b.permits[k])
              && !tx.broker.permits[id].active && tx.broker.permits[id].status == status
              && tx.broker.permits[id] == b.permits[id].(active := false, status := status)
              && (forall k :: k in tx.broker.egress <==> k in b.egress || k == (worker, day))
              && (forall k :: k in b.egress && k != (worker, day) ==> tx.broker.egress[k] == b.egress[k])
              && tx.broker.egress[(worker, day)].updatedAt == now
              && tx.broker.egress[(worker, day)].bytes
                 == (if (worker, day) in b.egress then b.egress[(worker, day)].bytes else 0) + bytes
              && tx.broker.budgets.Keys == b.budgets.Keys
              && forall p :: p in b.budgets ==>
                   && tx.broker.budgets[p] == b.budgets[p].(cooldownUntil := tx.broker.budgets[p].cooldownUntil)
                   && var was, end := b.budgets[p].cooldownUntil, tx.broker.budgets[p].cooldownUntil;
                      if p == b.permits[id].provider && cooldown > 0.0
                      then was <= end && now + cooldown <= end && (end == was || end == now + cooldown)
                      else end == was
  {
    DayIsOn(now, day);
  }

  // ----- budgets and regions

  // Configuration replaces what is configured and keeps the two clocks.
  lemma ConfigureAnswers(b: Broker, provider: Id, rate: real, maxInflight: int, requireQualified: bool, allowProbe: bool,
                         reprobeAfter: real)
    ensures var tx := ConfigureBudget(b, provider, rate, maxInflight, requireQualified, allowProbe, reprobeAfter);
            if !(Strip(provider) != "" && rate > 0.0 && maxInflight >= 1 && reprobeAfter > 0.0)
            then tx == BrokerTx(b, Err(InvalidArgument))
            else
              && tx.reply == Ok(()) && tx.broker.regions == b.regions && tx.broker.permits == b.permits && tx.broker.egress == b.egress
              && (forall p :: p in tx.broker.budgets <==> p in b.budgets || p == provider)
              && (forall p :: p in b.budgets && p != provider ==> tx.broker.budgets[p] == b.budgets[p])
              && var budget := tx.broker.budgets[provider];
                 && budget.rate == rate && budget.maxInflight == maxInflight && budget.reprobeAfter == reprobeAfter
                 && budget.requireQualified == requireQualified && budget.allowProbe == allowProbe
                 && if provider in b.budgets
                    then budget.nextAt == b.budgets[provider].nextAt && budget.cooldownUntil == b.budgets[provider].cooldownUntil
                    else budget.nextAt == 0.0 && budget.cooldownUntil == 0.0
  {
  }

  // A probe counts only from the fenced holder of a task, and for the region
  // that worker is registered in; it changes that one row.
  lemma ObserveAnswers(l: Ledger, b: Broker, provider: Id, worker: Id, instance: Id, task: Id, generation: nat, p: Probe, now: real)
    ensures var tx := ObserveRegion(l, b, provider, worker, instance, task, generation, p, now);
            if !KnownWorker(l, worker, instance) then tx == BrokerTx(b, Err(WorkerRejected))
            else if !OwnsNow(l, task, worker, instance, generation, now) then tx == BrokerTx(b, Err(StaleLease))
            else
              var key := (provider, l.workers[worker].region);
              && tx.broker.budgets == b.budgets && tx.broker.permits == b.permits && tx.broker.egress == b.egress
              && (forall k :: k in tx.broker.regions <==> k in b.regions || k == key)
              && (forall k :: k in b.regions && k != key ==> tx.broker.regions[k] == b.regions[k])
              && tx.reply == Ok(tx.broker.regions[key].state) && tx.broker.regions[key].updatedAt == now
              && tx.broker.regions[key].samples == (if key in b.regions then b.regions[key].samples else 0) + 1
  {
  }
}
