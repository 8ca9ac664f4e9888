// Whole runs of provider governance: the rate and in-flight bounds, cooldowns,
// and what the egress counters add up to.
module PermitRuns {
  import opened Base
  import opened Wire
  import opened LeaseTables
  import opened Permits

  // Every event carries the lease tables it finds: the bounds below hold
  // whatever happens to workers and leases in between.
  datatype Event =
    | Configure(provider: Id, rate: real, maxInflight: int, requireQualified: bool, allowProbe: bool, reprobeAfter: real)
    | Observe(ledger: Ledger, provider: Id, worker: Id, instance: Id, task: Id, generation: nat, probe: Probe)
    | Issue(ledger: Ledger, ask: Ask, permitId: Id, prior: Option<Id>)
    | Report(ledger: Ledger, permitId: Id, worker: Id, instance: Id, status: Option<int>, cooldown: real, bytes: int)
    | Gc(gone: set<Id>, days: set<(Id, int)>, retention: real)

  datatype Timed = Timed(now: real, event: Event)

  datatype Mint = Mint(id: Id, ask: Ask, at: real)
  datatype Charge = Charge(id: Id, worker: Id, bytes: int, at: real)
  datatype Rest = Rest(provider: Id, until: real)

  // The tables with the history: permits freshly minted and what was asked for,
  // reports that found their permit active, and the cooldowns those asked for.
  datatype World = World(broker: Broker, mints: seq<Mint>, charges: seq<Charge>, rests: seq<Rest>, clock: real)

  ghost predicate Legal(w: World, e: Timed) {
    && e.now >= w.clock
    && match e.event
       case Issue(_, ask, id, prior) =>
         && IsPriorPermit(w.broker.permits, ask.worker, ask.requestId, prior)
         && forall i :: 0 <= i < |w.mints| ==> w.mints[i].id != id
       case Gc(gone, days, retention) => retention > 0.0 && CollectsPermits(w.broker, gone, days, e.now - retention)
       case _ => true
  }

  function Next(b: Broker, e: Timed): Broker {
    match e.event
    case Configure(p, r, m, q, a, t) => ConfigureBudget(b, p, r, m, q, a, t).broker
    case Observe(l, p, worker, i, t, g, probe) => ObserveRegion(l, b, p, worker, i, t, g, probe, e.now).broker
    case Issue(l, ask, id, prior) => IssuePermit(l, b, ask, id, prior, e.now).broker
    case Report(l, id, worker, i, s, c, n) => ReportPermit(l, b, id, worker, i, s, c, n, e.now).broker
    case Gc(gone, days, _) => CollectPermits(b, gone, days)
  }

  // A permit is minted when the answer names the freshly drawn identifier.
  predicate Mints(b: Broker, e: Timed) {
    && e.event.Issue? && e.event.permitId !in b.permits
    && var reply := IssuePermit(e.event.ledger, b, e.event.ask, e.event.permitId, e.event.prior, e.now).reply;
       reply.Ok? && reply.value.Some? && reply.value.value.0 == e.event.permitId
  }

  predicate Charges(b: Broker, e: Timed) {
    && e.event.Report?
    && ReportPermit(e.event.ledger, b, e.event.permitId, e.event.worker, e.event.instance, e.event.status,
                    e.event.cooldown, e.event.bytes, e.now).reply == Ok(true)
  }

  function Step(w: World, e: Timed): World {
    World(
      Next(w.broker, e),
      if Mints(w.broker, e) then w.mints + [Mint(e.event.permitId, e.event.ask, e.now)] else w.mints,
      if Charges(w.broker, e) then w.charges + [Charge(e.event.permitId, e.event.worker, e.event.bytes, e.now)] else w.charges,
      if Charges(w.broker, e) && e.event.cooldown > 0.0 && e.event.permitId in w.broker.permits
      then w.rests + [Rest(w.broker.permits[e.event.permitId].provider, e.now + e.event.cooldown)] else w.rests,
      e.now)
  }

  function Init(start: real): World {
    World(Broker(map[], map[], map[], map[]), [], [], [], start)
  }

  ghost function Run(start: real, run: seq<Timed>): World {
    if run == [] then Init(start) else
    var w := Run(start, run[..|run| - 1]);
    var e := run[|run| - 1];
    if Legal(w, e) then Step(w, e) else w
  }

  // ----- the invariant

  // What configuration promises about one provider: every rate asked for is at
  // most `rate` and every in-flight limit at most `limit`.
  datatype Promise = Promise(provider: Id, rate: real, limit: nat)

  predicate Keeps(pr: Promise, e: Event) {
    e.Configure? && e.provider == pr.provider ==> e.rate <= pr.rate && e.maxInflight <= pr.limit
  }

  predicate Spaced(mints: seq<Mint>, provider: Id, gap: real) {
    forall i, j :: 0 <= i < j < |mints| && mints[i].ask.provider == provider && mints[j].ask.provider == provider ==>
      mints[i].at + gap <= mints[j].at
  }

  predicate BudgetsOk(w: World, pr: Promise) {
    && pr.rate > 0.0
    && (forall p :: p in w.broker.budgets ==> w.broker.budgets[p].rate > 0.0)
    && (pr.provider in w.broker.budgets ==>
          w.broker.budgets[pr.provider].rate <= pr.rate && w.broker.budgets[pr.provider].maxInflight <= pr.limit)
  }

  predicate RateOk(w: World, pr: Promise)
    requires pr.rate > 0.0
  {
    && Spaced(w.mints, pr.provider, 1.0 / pr.rate)
    && forall i :: 0 <= i < |w.mints| ==>
         && w.mints[i].at <= w.clock
         && w.mints[i].ask.provider in w.broker.budgets
         && (w.mints[i].ask.provider == pr.provider ==>
               w.mints[i].at + 1.0 / pr.rate <= w.broker.budgets[pr.provider].nextAt)
  }

  predicate RestsOk(w: World) {
    forall i :: 0 <= i < |w.rests| ==>
      w.rests[i].provider in w.broker.budgets && w.rests[i].until <= w.broker.budgets[w.rests[i].provider].cooldownUntil
  }

  predicate WasMinted(mints: seq<Mint>, id: Id) {
    exists k :: 0 <= k < |mints| && mints[k].id == id
  }

  predicate PermitsOk(w: World, pr: Promise) {
    && (forall id :: id in w.broker.permits ==> w.broker.permits[id].provider in w.broker.budgets)
    && (forall id :: id in w.broker.permits ==> WasMinted(w.mints, id))
    && |Active(w.broker.permits, pr.provider)| <= pr.limit
  }

  predicate ChargesOk(w: World) {
    && (forall i, j :: 0 <= i < j < |w.charges| ==> w.charges[i].id != w.charges[j].id)
    && (forall i :: 0 <= i < |w.charges| ==>
          && WasMinted(w.mints, w.charges[i].id)
          && (w.charges[i].id in w.broker.permits ==> !w.broker.permits[w.charges[i].id].active))
  }

  predicate Inv(w: World, pr: Promise) {
    BudgetsOk(w, pr) && RateOk(w, pr) && RestsOk(w) && PermitsOk(w, pr) && ChargesOk(w)
  }

  // ----- steps

  lemma Longer(rate: real, bound: real)
    requires 0.0 < rate <= bound
    ensures 1.0 / bound <= 1.0 / rate
  {
  }

  lemma FewerActive(a: map<Id, Permit>, b: map<Id, Permit>, provider: Id)
    requires forall id :: id in a && a[id].active ==> id in b && b[id].active && b[id].provider == a[id].provider
    ensures |Active(a, provider)| <= |Active(b, provider)|
  {
    Smaller(Active(a, provider), Active(b, provider));
  }

  lemma Smaller<T>(a: set<T>, b: set<T>)
    requires a <= b
    ensures |a| <= |b|
  {
    assert b == a + (b - a);
  }

  // What a mint does, in full.
  lemma MintStep(b: Broker, e: Timed)
    requires Mints(b, e)
    ensures var p := e.event.ask.provider;
            && p in b.budgets && e.now >= b.budgets[p].nextAt && e.now >= b.budgets[p].cooldownUntil
            && var rest := Expire(if e.event.prior.Some? then b.permits - {e.event.prior.value} else b.permits, p, e.now);
               |Active(rest, p)| < b.budgets[p].maxInflight
               && Next(b, e) == Minted(b, rest, e.event.ask, e.event.permitId, e.now).broker
  {
  }

  // A replayed or refused request changes nothing.
  lemma IssueElse(w: World, e: Timed)
    requires Legal(w, e) && e.event.Issue? && !Mints(w.broker, e)
    requires forall id :: id in w.broker.permits ==> WasMinted(w.mints, id)
    ensures Next(w.broker, e) == w.broker
  {
  }

  lemma MintRate(w: World, e: Timed, pr: Promise)
    requires BudgetsOk(w, pr) && RateOk(w, pr) && RestsOk(w) && Legal(w, e) && Mints(w.broker, e)
    ensures BudgetsOk(Step(w, e), pr) && RateOk(Step(w, e), pr) && RestsOk(Step(w, e))
  {
    MintStep(w.broker, e);
    var p := e.event.ask.provider;
    if p == pr.provider { Longer(w.broker.budgets[p].rate, pr.rate); }
  }

  lemma MintActive(b: Broker, rest: map<Id, Permit>, ask: Ask, id: Id, now: real, pr: Promise)
    requires ask.provider in b.budgets && id !in b.permits && id !in rest
    requires forall k :: k in rest && rest[k].active ==> k in b.permits && b.permits[k].active && b.permits[k].provider == rest[k].provider
    requires |Active(rest, ask.provider)| < b.budgets[ask.provider].maxInflight
    requires ask.provider == pr.provider ==> b.budgets[ask.provider].maxInflight <= pr.limit
    requires |Active(b.permits, pr.provider)| <= pr.limit
    ensures |Active(Minted(b, rest, ask, id, now).broker.permits, pr.provider)| <= pr.limit
  {
    var after := Minted(b, rest, ask, id, now).broker.permits;
    if ask.provider == pr.provider {
      Smaller(Active(after, pr.provider), Active(rest, pr.provider) + {id});
    } else {
      Smaller(Active(after, pr.provider), Active(b.permits, pr.provider));
    }
  }

  lemma MintPermits(w: World, e: Timed, pr: Promise)
    requires BudgetsOk(w, pr) && PermitsOk(w, pr) && Mints(w.broker, e)
    ensures PermitsOk(Step(w, e), pr)
  {
    hide Next, IssuePermit, WasMinted;
    MintStep(w.broker, e);
    var p, w' := e.event.ask.provider, Step(w, e);
    var rest := Expire(if e.event.prior.Some? then w.broker.permits - {e.event.prior.value} else w.broker.permits, p, e.now);
    MintActive(w.broker, rest, e.event.ask, e.event.permitId, e.now, pr);
    StillMinted(w, e);
  }

  lemma StillMinted(w: World, e: Timed)
    ensures forall id :: WasMinted(w.mints, id) ==> WasMinted(Step(w, e).mints, id)
    ensures Mints(w.broker, e) ==> WasMinted(Step(w, e).mints, e.event.permitId)
  {
    var after := Step(w, e).mints;
    forall id | WasMinted(w.mints, id) ensures WasMinted(after, id) {
      var k :| 0 <= k < |w.mints| && w.mints[k].id == id;
      assert after[k].id == id;
    }
    if Mints(w.broker, e) { assert after[|w.mints|].id == e.event.permitId; }
  }

  lemma MintCharges(w: World, e: Timed)
    requires ChargesOk(w) && Legal(w, e) && Mints(w.broker, e)
    ensures ChargesOk(Step(w, e))
  {
    MintStep(w.broker, e);
    StillMinted(w, e);
  }

  lemma ReportRate(w: World, e: Timed, pr: Promise)
    requires BudgetsOk(w, pr) && RateOk(w, pr) && Legal(w, e) && Charges(w.broker, e)
    ensures BudgetsOk(Step(w, e), pr) && RateOk(Step(w, e), pr)
  {
  }

  lemma ReportRests(w: World, e: Timed, pr: Promise)
    requires RestsOk(w) && PermitsOk(w, pr) && Charges(w.broker, e)
    ensures RestsOk(Step(w, e)) && PermitsOk(Step(w, e), pr)
  {
    FewerActive(Step(w, e).broker.permits, w.broker.permits, pr.provider);
  }

  // What a charged report does to the permits.
  lemma ChargeStep(w: World, e: Timed)
    requires Charges(w.broker, e)
    ensures var id := e.event.permitId;
            && id in w.broker.permits && w.broker.permits[id].active
            && Next(w.broker, e).permits == w.broker.permits[id := w.broker.permits[id].(active := false, status := e.event.status)]
    ensures Step(w, e).mints == w.mints
    ensures Step(w, e).charges == w.charges + [Charge(e.event.permitId, e.event.worker, e.event.bytes, e.now)]
  {
  }

  lemma ReportCharges(w: World, e: Timed, pr: Promise)
    requires ChargesOk(w) && PermitsOk(w, pr) && Charges(w.broker, e)
    ensures ChargesOk(Step(w, e))
  {
    ChargeStep(w, e);
    hide Next, Charges, Mints, WasMinted;
  }

  lemma GcInv(w: World, e: Timed, pr: Promise)
    requires Inv(w, pr) && Legal(w, e) && e.event.Gc?
    ensures Inv(Step(w, e), pr)
  {
    FewerActive(Step(w, e).broker.permits, w.broker.permits, pr.provider);
  }

  lemma ConfigureInv(w: World, e: Timed, pr: Promise)
    requires Inv(w, pr) && Legal(w, e) && e.event.Configure? && Keeps(pr, e.event)
    ensures Inv(Step(w, e), pr)
  {
  }

  // Steps that leave budgets and permits alone.
  lemma OtherInv(w: World, e: Timed, pr: Promise)
    requires Inv(w, pr) && Legal(w, e) && !Mints(w.broker, e) && !Charges(w.broker, e)
    requires Next(w.broker, e).budgets == w.broker.budgets && Next(w.broker, e).permits == w.broker.permits
    ensures Inv(Step(w, e), pr)
  {
  }

  lemma StepInv(w: World, e: Timed, pr: Promise)
    requires Inv(w, pr) && Legal(w, e) && Keeps(pr, e.event)
    ensures Inv(Step(w, e), pr)
  {
    match e.event
    case Configure(_, _, _, _, _, _) => ConfigureInv(w, e, pr);
    case Observe(_, _, _, _, _, _, _) => OtherInv(w, e, pr);
    case Issue(_, _, _, _) =>
      if Mints(w.broker, e) { MintRate(w, e, pr); MintPermits(w, e, pr); MintCharges(w, e); }
      else { IssueElse(w, e); OtherInv(w, e, pr); }
    case Report(_, _, _, _, _, _, _) =>
      if Charges(w.broker, e) { ReportRate(w, e, pr); ReportRests(w, e, pr); ReportCharges(w, e, pr); }
      else { OtherInv(w, e, pr); }
    case Gc(_, _, _) => GcInv(w, e, pr);
  }

  predicate AllKeep(pr: Promise, run: seq<Timed>) {
    forall i :: 0 <= i < |run| ==> Keeps(pr, run[i].event)
  }

  lemma {:induction false} RunKeeps(start: real, run: seq<Timed>, pr: Promise)
    requires pr.rate > 0.0 && AllKeep(pr, run)
    ensures Inv(Run(start, run), pr)
  {
    if run == [] {
      assert Active(Init(start).broker.permits, pr.provider) == {};
    } else {
      var n := |run| - 1;
      RunKeeps(start, run[..n], pr);
      var w := Run(start, run[..n]);
      if Legal(w, run[n]) { StepInv(w, run[n], pr); }
    }
  }

  // ----- the rate bound

  // Instants in [from, to] at which the provider's permits were minted.
  function Within(mints: seq<Mint>, provider: Id, from: real, to: real): seq<real> {
    if mints == [] then [] else
    var m := mints[|mints| - 1];
    Within(mints[..|mints| - 1], provider, from, to)
    + (if m.ask.provider == provider && from <= m.at <= to then [m.at] else [])
  }

  predicate Apart(ts: seq<real>, gap: real) {
    forall i :: 0 < i < |ts| ==> ts[i - 1] + gap <= ts[i]
  }

  lemma {:induction false} WithinApart(mints: seq<Mint>, provider: Id, from: real, to: real, gap: real)
    requires Spaced(mints, provider, gap)
    ensures var ts := Within(mints, provider, from, to);
            && (forall i :: 0 <= i < |ts| ==> from <= ts[i] <= to)
            && Apart(ts, gap)
            && (ts != [] ==> exists k :: 0 <= k < |mints| && mints[k].ask.provider == provider && mints[k].at == ts[|ts| - 1])
  {
    if mints != [] {
      var n := |mints| - 1;
      var front := mints[..n];
      assert forall i :: 0 <= i < n ==> front[i] == mints[i];
      WithinApart(front, provider, from, to, gap);
    }
  }

  lemma {:induction false} Spread(ts: seq<real>, gap: real)
    requires ts != [] && Apart(ts, gap)
    ensures ts[0] + (|ts| - 1) as real * gap <= ts[|ts| - 1]
  {
    if |ts| > 1 {
      var n := |ts| - 1;
      Spread(ts[..n], gap);
      OneMore(n - 1, gap);
      assert ts[n - 1] + gap <= ts[n];
    }
  }

  lemma SpreadWithin(ts: seq<real>, gap: real, from: real, length: real)
    requires ts != [] && Apart(ts, gap) && forall i :: 0 <= i < |ts| ==> from <= ts[i] <= from + length
    ensures (|ts| - 1) as real * gap <= length
  {
    Spread(ts, gap);
  }

  lemma OneMore(n: nat, gap: real)
    ensures (n + 1) as real * gap == n as real * gap + gap
  {
  }

  lemma Counting(n: nat, rate: real, gap: real, window: real)
    requires rate > 0.0 && gap * rate == 1.0 && n > 0 && (n - 1) as real * gap <= window
    ensures n <= (window * rate).Floor + 1
  {
  }

  lemma {:induction false} RunSpaced(start: real, run: seq<Timed>, pr: Promise)
    requires pr.rate > 0.0 && AllKeep(pr, run)
    ensures Spaced(Run(start, run).mints, pr.provider, 1.0 / pr.rate)
  {
    RunKeeps(start, run, pr);
  }

  lemma Gap(rate: real) returns (gap: real)
    requires rate > 0.0
    ensures gap == 1.0 / rate && gap * rate == 1.0
  {
    gap := 1.0 / rate;
  }

  // While no configuration asks for more than `rate`, any window of length T
  // sees at most floor(T * rate) + 1 fresh permits, whatever expired, was
  // reported, replayed, re-minted, collected or reconfigured meanwhile.
  lemma {:induction false} RateBound(start: real, run: seq<Timed>, pr: Promise, from: real, length: real)
    requires pr.rate > 0.0 && AllKeep(pr, run) && length >= 0.0
    ensures |Within(Run(start, run).mints, pr.provider, from, from + length)| <= (length * pr.rate).Floor + 1
  {
    hide Run, AllKeep, Spaced, Within;
    RunSpaced(start, run, pr);
    var gap := Gap(pr.rate);
    BoundOn(Run(start, run).mints, pr.provider, pr.rate, gap, from, length);
  }

  lemma BoundOn(mints: seq<Mint>, provider: Id, rate: real, gap: real, from: real, length: real)
    requires rate > 0.0 && gap * rate == 1.0 && length >= 0.0 && Spaced(mints, provider, gap)
    ensures |Within(mints, provider, from, from + length)| <= (length * rate).Floor + 1
  {
    var ts := Within(mints, provider, from, from + length);
    WithinApart(mints, provider, from, from + length, gap);
    hide Within, Spaced, Apart;
    if ts != [] {
      SpreadWithin(ts, gap, from, length);
      Counting(|ts|, rate, gap, length);
    } else {
      NotNegative(length, rate);
    }
  }

  lemma NotNegative(a: real, b: real)
    requires a >= 0.0 && b >= 0.0
    ensures a * b >= 0.0
  {
  }

  // No fresh permit before the end of any cooldown reported so far.
  lemma {:induction false} CooldownRespected(start: real, run: seq<Timed>, e: Timed, i: nat)
    requires Legal(Run(start, run), e) && Mints(Run(start, run).broker, e)
    requires i < |Run(start, run).rests| && Run(start, run).rests[i].provider == e.event.ask.provider
    ensures e.now >= Run(start, run).rests[i].until
  {
    var pr := Loosest(run, e.event.ask.provider);
    RunKeeps(start, run, pr);
    MintStep(Run(start, run).broker, e);
  }

  // Some promise that every run keeps.
  function Loosest(run: seq<Timed>, provider: Id): (pr: Promise)
    ensures pr.provider == provider && pr.rate > 0.0 && AllKeep(pr, run)
  {
    if run == [] then Promise(provider, 1.0, 0) else
    var pr := Loosest(run[1..], provider);
    var e := run[0].event;
    if Keeps(pr, e) then pr
    else Promise(provider, if e.rate > pr.rate then e.rate else pr.rate,
                 if e.maxInflight > pr.limit then e.maxInflight else pr.limit)
  }

  // While no configuration asks for more than `limit`, no more permits of the
  // provider are ever active at once.
  lemma {:induction false} InflightBound(start: real, run: seq<Timed>, pr: Promise)
    requires pr.rate > 0.0 && AllKeep(pr, run)
    ensures |Active(Run(start, run).broker.permits, pr.provider)| <= pr.limit
  {
    RunKeeps(start, run, pr);
  }

  // No permit is charged twice, and only minted permits are charged.
  lemma {:induction false} ChargedOnce(start: real, run: seq<Timed>)
    ensures var w := Run(start, run);
            forall i, j :: 0 <= i < j < |w.charges| ==> w.charges[i].id != w.charges[j].id
    ensures var w := Run(start, run);
            forall i :: 0 <= i < |w.charges| ==> WasMinted(w.mints, w.charges[i].id)
  {
    RunKeeps(start, run, Loosest(run, ""));
  }
}
