// Provider governance of the Fabric authority: rate budgets, region
// observations, request permits and daily egress counters.
module Permits {
  import opened Base
  import opened Wire
  import opened LeaseTables

  const SECONDS_PER_DAY := 86400.0

  datatype Budget = Budget(
    rate: real,
    maxInflight: nat,
    requireQualified: bool,
    allowProbe: bool,
    reprobeAfter: real,
    nextAt: real,
    cooldownUntil: real)

  // The state column is text; the code writes only the first four values.
  datatype RegionState = Qualified | Unknown | Blocked | Unqualified | Other(text: string)

  datatype Region = Region(
    state: RegionState,
    samples: nat,
    successes: nat,
    timeouts: nat,
    throttles: nat,
    blocks: nat,
    latency: real,
    bytes: nat,
    updatedAt: real)

  datatype Permit = Permit(
    requestId: string,
    provider: Id,
    worker: Id,
    instance: Id,
    task: Id,
    generation: nat,
    maxInflight: nat,
    expiresAt: real,
    issuedAt: real,
    active: bool,
    status: Option<int>)

  datatype DayCount = DayCount(bytes: nat, updatedAt: real)

  datatype Broker = Broker(
    budgets: map<Id, Budget>,
    regions: map<(Id, Id), Region>,
    permits: map<Id, Permit>,
    egress: map<(Id, int), DayCount>)

  datatype BrokerTx<+T> = BrokerTx(broker: Broker, reply: Result<T, Error>)

  // ----- budgets

  function ConfigureBudget(b: Broker, provider: Id, rate: real, maxInflight: int, requireQualified: bool,
                           allowProbe: bool, reprobeAfter: real): BrokerTx<()>
  {
    if Strip(provider) == "" || rate <= 0.0 || maxInflight < 1 || reprobeAfter <= 0.0 then BrokerTx(b, Err(InvalidArgument))
    else
      var (nextAt, cooldownUntil) :=
        if provider in b.budgets then (b.budgets[provider].nextAt, b.budgets[provider].cooldownUntil) else (0.0, 0.0);
      var budget := Budget(rate, maxInflight, requireQualified, allowProbe, reprobeAfter, nextAt, cooldownUntil);
      BrokerTx(b.(budgets := b.budgets[provider := budget]), Ok(()))
  }

  // ----- regions

  datatype Probe = Probe(connected: bool, status: Option<int>, latency: real, bytes: int, timeout: bool, policyBlock: bool)

  function Bit(b: bool): nat { if b then 1 else 0 }

  predicate Succeeded(p: Probe) {
    p.connected && p.status.Some? && p.status.value < 500 && !p.policyBlock
  }

  predicate Throttled(p: Probe) {
    p.status == Some(429) || p.status == Some(503)
  }

  function Sampled(r: Option<Region>, p: Probe, now: real): Region {
    var was := if r.Some? then r.value else Region(Unknown, 0, 0, 0, 0, 0, 0.0, 0, now);
    Region(was.state, was.samples + 1, was.successes + Bit(Succeeded(p)), was.timeouts + Bit(p.timeout),
           was.throttles + Bit(Throttled(p)), was.blocks + Bit(p.policyBlock),
           was.latency + (if p.latency > 0.0 then p.latency else 0.0),
           was.bytes + (if p.bytes > 0 then p.bytes else 0), now)
  }

  function Judged(r: Region, policyBlock: bool): RegionState {
    var failures := r.timeouts + r.throttles + r.blocks;
    if policyBlock then Blocked
    else if r.samples >= 3 && r.successes >= 2 && failures <= r.samples / 2 then Qualified
    else if r.samples >= 3 && r.successes == 0 then Unqualified
    else Unknown
  }

  function At(b: Broker, provider: Id, region: Id): Option<Region> {
    if (provider, region) in b.regions then Some(b.regions[(provider, region)]) else None
  }

  function ObserveRegion(l: Ledger, b: Broker, provider: Id, worker: Id, instance: Id, task: Id, generation: nat,
                         p: Probe, now: real): BrokerTx<RegionState>
  {
    if !Registered(l, worker, instance) then BrokerTx(b, Err(WorkerRejected))
    else if !Fenced(l, task, worker, instance, generation, now) then BrokerTx(b, Err(StaleLease))
    else
      var region := l.workers[worker].region;
      var sampled := Sampled(At(b, provider, region), p, now);
      var state := Judged(sampled, p.policyBlock);
      BrokerTx(b.(regions := b.regions[(provider, region) := sampled.(state := state)]), Ok(state))
  }

  predicate Refused(s: RegionState) { s.Blocked? || s.Unqualified? }

  // An old refusal counts as unknown again when probing is allowed.
  function Seen(budget: Budget, r: Option<Region>, now: real): RegionState {
    if r.None? then Unknown
    else if Refused(r.value.state) && budget.allowProbe && now - r.value.updatedAt >= budget.reprobeAfter then Unknown
    else r.value.state
  }

  predicate RegionPasses(budget: Budget, r: Option<Region>, now: real) {
    var seen := Seen(budget, r, now);
    !budget.requireQualified || (!Refused(seen) && (seen.Qualified? || budget.allowProbe))
  }

  predicate ProviderAccepts(b: Broker, provider: Id, region: Id, now: real) {
    provider in b.budgets && RegionPasses(b.budgets[provider], At(b, provider, region), now)
  }

  predicate RegionEligible(b: Broker, w: WorkDefinition, region: Id, now: real) {
    forall p :: p in w.requiredProviders ==> ProviderAccepts(b, p, region, now)
  }

  // ----- permits

  function DayOf(now: real): int { (now / SECONDS_PER_DAY).Floor }

  function Used(b: Broker, worker: Id, day: int): nat {
    if (worker, day) in b.egress then b.egress[(worker, day)].bytes else 0
  }

  predicate EgressAvailable(b: Broker, worker: Id, budget: nat, now: real) {
    budget == 0 || (worker, DayOf(now)) !in b.egress || b.egress[(worker, DayOf(now))].bytes < budget
  }

  predicate IsRequest(permits: map<Id, Permit>, id: Id, worker: Id, requestId: string) {
    id in permits && permits[id].worker == worker && permits[id].requestId == requestId
  }

  // What the unique index on (worker, request) answers.
  ghost predicate IsPriorPermit(permits: map<Id, Permit>, worker: Id, requestId: string, prior: Option<Id>) {
    match prior
    case Some(id) => IsRequest(permits, id, worker, requestId)
    case None => forall id :: !IsRequest(permits, id, worker, requestId)
  }

  predicate Live(p: Permit, now: real) { p.active && p.expiresAt > now }

  predicate BoundTo(p: Permit, provider: Id, instance: Id, task: Id, generation: nat) {
    p.provider == provider && p.instance == instance && p.task == task && p.generation == generation
  }

  function Expire(permits: map<Id, Permit>, provider: Id, now: real): map<Id, Permit> {
    map id | id in permits ::
      if permits[id].provider == provider && permits[id].active && permits[id].expiresAt <= now
      then permits[id].(active := false) else permits[id]
  }

  function Active(permits: map<Id, Permit>, provider: Id): set<Id> {
    set id | id in permits && permits[id].provider == provider && permits[id].active
  }

  // Active permits whose worker is now registered in the region.
  function Probing(permits: map<Id, Permit>, workers: map<Id, Worker>, provider: Id, region: Id): set<Id> {
    set id | id in permits && permits[id].provider == provider && permits[id].active
             && permits[id].worker in workers && workers[permits[id].worker].region == region
  }

  // A region not known to be good carries one probing permit at a time.
  predicate RegionAdmits(l: Ledger, budget: Budget, r: Option<Region>, permits: map<Id, Permit>,
                         provider: Id, region: Id, now: real)
  {
    && RegionPasses(budget, r, now)
    && (budget.requireQualified && !Seen(budget, r, now).Qualified? ==>
          |Probing(permits, l.workers, provider, region)| < 1)
  }

  datatype Ask = Ask(provider: Id, worker: Id, instance: Id, task: Id, generation: nat, requestId: string, ttl: real)

  function NewPermit(ask: Ask, maxInflight: nat, now: real): Permit {
    Permit(ask.requestId, ask.provider, ask.worker, ask.instance, ask.task, ask.generation, maxInflight,
           now + ask.ttl, now, true, None)
  }

  // `permitId` is the freshly drawn identifier. Every refusal rolls back,
  // including the removal of the prior row and the expiry of old permits.
  function IssuePermit(l: Ledger, b: Broker, ask: Ask, permitId: Id, prior: Option<Id>, now: real)
    : BrokerTx<Option<(Id, Permit)>>
  {
    if Strip(ask.requestId) == "" || ask.ttl <= 0.0 then BrokerTx(b, Err(InvalidArgument))
    else if !Registered(l, ask.worker, ask.instance) then BrokerTx(b, Err(WorkerRejected))
    else if !Fenced(l, ask.task, ask.worker, ask.instance, ask.generation, now) then BrokerTx(b, Err(StaleLease))
    else if ask.provider !in l.workers[ask.worker].providers then BrokerTx(b, Err(ProviderDenied))
    else if !EgressAvailable(b, ask.worker, l.workers[ask.worker].egressBudget, now) then BrokerTx(b, Err(EgressExceeded))
    else if prior.Some? && prior.value in b.permits && Live(b.permits[prior.value], now) then
      if BoundTo(b.permits[prior.value], ask.provider, ask.instance, ask.task, ask.generation)
      then BrokerTx(b, Ok(Some((prior.value, b.permits[prior.value]))))
      else BrokerTx(b, Err(ProviderDenied))
    else MintOrRefuse(l, b, if prior.Some? then b.permits - {prior.value} else b.permits, ask, permitId, now)
  }

  // `others` are the permits without the worker's dead one for the request.
  function MintOrRefuse(l: Ledger, b: Broker, others: map<Id, Permit>, ask: Ask, permitId: Id, now: real)
    : BrokerTx<Option<(Id, Permit)>>
    requires ask.worker in l.workers
  {
    if ask.provider !in b.budgets then BrokerTx(b, Err(ProviderDenied)) else
    var rest := Expire(others, ask.provider, now);
    var budget := b.budgets[ask.provider];
    var region := l.workers[ask.worker].region;
    if !RegionAdmits(l, budget, At(b, ask.provider, region), rest, ask.provider, region, now) then BrokerTx(b, Ok(None))
    else if |Active(rest, ask.provider)| >= budget.maxInflight || now < budget.nextAt || now < budget.cooldownUntil
    then BrokerTx(b, Ok(None))
    else if permitId in rest then BrokerTx(b, Err(DuplicatePermitId))
    else Minted(b, rest, ask, permitId, now)
  }

  function Minted(b: Broker, rest: map<Id, Permit>, ask: Ask, permitId: Id, now: real): BrokerTx<Option<(Id, Permit)>>
    requires ask.provider in b.budgets
  {
    var budget := b.budgets[ask.provider];
    var permit := NewPermit(ask, budget.maxInflight, now);
    var wait := if budget.rate > 0.0 then 1.0 / budget.rate else 0.0;
    BrokerTx(b.(budgets := b.budgets[ask.provider := budget.(nextAt := now + wait)], permits := rest[permitId := permit]),
             Ok(Some((permitId, permit))))
  }

  // The reply says whether the report was charged.
  function ReportPermit(l: Ledger, b: Broker, permitId: Id, worker: Id, instance: Id, status: Option<int>,
                        cooldown: real, bytes: int, now: real): BrokerTx<bool>
  {
    if cooldown < 0.0 || bytes < 0 then BrokerTx(b, Err(InvalidArgument))
    else if !Registered(l, worker, instance) then BrokerTx(b, Err(WorkerRejected))
    else if permitId !in b.permits || b.permits[permitId].worker != worker || b.permits[permitId].instance != instance
    then BrokerTx(b, Err(ProviderDenied))
    else if !b.permits[permitId].active then BrokerTx(b, Ok(false))
    else
      var p := b.permits[permitId];
      var key := (worker, DayOf(now));
      BrokerTx(Broker(
        if cooldown != 0.0 then Cooled(b.budgets, p.provider, now + cooldown) else b.budgets,
        b.regions,
        b.permits[permitId := p.(active := false, status := status)],
        b.egress[key := DayCount(Used(b, worker, DayOf(now)) + bytes, now)]), Ok(true))
  }

  function Cooled(budgets: map<Id, Budget>, provider: Id, until: real): map<Id, Budget> {
    if provider !in budgets then budgets else
    var budget := budgets[provider];
    budgets[provider := budget.(cooldownUntil := if budget.cooldownUntil >= until then budget.cooldownUntil else until)]
  }

  // ----- garbage collection; `gone` and `days` are what the limited queries chose

  predicate CollectsPermits(b: Broker, gone: set<Id>, days: set<(Id, int)>, cutoff: real) {
    && (forall id :: id in gone ==> id in b.permits && !b.permits[id].active && b.permits[id].expiresAt <= cutoff)
    && (forall k :: k in days ==> k in b.egress && b.egress[k].updatedAt <= cutoff)
  }

  function CollectPermits(b: Broker, gone: set<Id>, days: set<(Id, int)>): Broker {
    b.(permits := b.permits - gone, egress := b.egress - days)
  }
}
