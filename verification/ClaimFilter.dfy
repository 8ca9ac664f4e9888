// The two claim filters: the predicate the SQLite store evaluates row by row,
// and the WHERE clause of the Postgres store under three-valued logic.
module ClaimFilter {
  import opened Base
  import opened Wire
  import opened LeaseTables
  import opened Permits
  import PermitRuns

  // ----- three-valued logic; a null value is None

  datatype Tri = Yes | No | Null

  function Of(b: bool): Tri { if b then Yes else No }

  function And(a: Tri, b: Tri): Tri {
    if a.No? || b.No? then No else if a.Yes? && b.Yes? then Yes else Null
  }

  function Or(a: Tri, b: Tri): Tri {
    if a.Yes? || b.Yes? then Yes else if a.No? && b.No? then No else Null
  }

  function Not(a: Tri): Tri {
    match a case Yes => No case No => Yes case Null => Null
  }

  function IsNull<T>(x: Option<T>): Tri { Of(x.None?) }

  function Eq<T(==)>(x: Option<T>, y: T): Tri {
    if x.None? then Null else Of(x.value == y)
  }

  function AtMost(x: Option<real>, y: real): Tri {
    if x.None? then Null else Of(x.value <= y)
  }

  function Plus(x: Option<real>, y: Option<real>): Option<real> {
    if x.None? || y.None? then None else Some(x.value + y.value)
  }

  // ----- the Postgres clause

  // One row of required_providers LEFT JOIN budgets LEFT JOIN regions. Both
  // joins are on primary keys, so each required provider yields one row.
  datatype Joined = Joined(
    provider: Option<Id>,
    requireQualified: Option<bool>,
    allowProbe: Option<bool>,
    reprobeAfter: Option<real>,
    state: Option<RegionState>,
    updatedAt: Option<real>)

  function Join(b: Broker, provider: Id, region: Id): Joined {
    var r := At(b, provider, region);
    var (state, updatedAt) := if r.Some? then (Some(r.value.state), Some(r.value.updatedAt)) else (None, None);
    if provider in b.budgets then
      var budget := b.budgets[provider];
      Joined(Some(provider), Some(budget.requireQualified), Some(budget.allowProbe), Some(budget.reprobeAfter), state, updatedAt)
    else
      Joined(None, None, None, None, state, updatedAt)
  }

  function RefusedState(state: Option<RegionState>): Tri {
    Or(Eq(state, Blocked), Eq(state, Unqualified))
  }

  function Reprobable(j: Joined, now: real): Tri {
    AtMost(Plus(j.updatedAt, j.reprobeAfter), now)
  }

  // The condition under which a joined row rules the work out.
  function RulesOut(j: Joined, now: real): Tri {
    Or(IsNull(j.provider),
       And(Eq(j.requireQualified, true),
           Or(And(RefusedState(j.state), Not(And(Eq(j.allowProbe, true), Reprobable(j, now)))),
              And(Or(Or(IsNull(j.state), And(RefusedState(j.state), Reprobable(j, now))), Eq(j.state, Unknown)),
                  Eq(j.allowProbe, false)))))
  }

  ghost predicate AnyRulesOut(b: Broker, w: WorkDefinition, region: Id, now: real) {
    exists p :: p in w.requiredProviders && RulesOut(Join(b, p, region), now) == Yes
  }

  function Within(xs: seq<string>, allowed: set<string>): Tri {
    Of(forall x :: x in xs ==> x in allowed)
  }

  ghost function PostgresWhere(row: WorkRow, worker: Worker, b: Broker, now: real): Tri {
    var state := Some(row.state);
    And(And(And(
      Or(Or(Eq(state, Pending), Eq(state, Retry)), And(Eq(state, Leased), AtMost(row.deadline, now))),
      And(Of(row.work.notBefore <= now), Of(row.attempt < row.work.maxAttempts))),
      And(And(Within(row.work.requiredCapabilities, worker.capabilities), Within(row.work.requiredProviders, worker.providers)),
          Or(Of(worker.producers == {}), Of(row.work.producer in worker.producers)))),
      Not(Of(AnyRulesOut(b, row.work, worker.region, now))))
  }

  ghost predicate PostgresSelects(row: WorkRow, worker: Worker, b: Broker, now: real) {
    PostgresWhere(row, worker, b, now) == Yes
  }

  // ----- the SQLite predicate

  predicate SqliteSelects(row: WorkRow, worker: Worker, b: Broker, now: real) {
    Claimable(row, now) && Eligible(row.work, worker) && RegionEligible(b, row.work, worker.region, now)
  }

  // ----- agreement

  // The observed state is none of the four, the provider insists on a
  // qualified region and does not probe.
  predicate Strange(b: Broker, provider: Id, region: Id) {
    && provider in b.budgets && b.budgets[provider].requireQualified && !b.budgets[provider].allowProbe
    && (provider, region) in b.regions && b.regions[(provider, region)].state.Other?
  }

  // Provider by provider: Postgres accepts what SQLite accepts, and the strange.
  lemma ProviderClause(b: Broker, provider: Id, region: Id, now: real)
    ensures RulesOut(Join(b, provider, region), now) != Yes
            <==> ProviderAccepts(b, provider, region, now) || Strange(b, provider, region)
  {
  }

  lemma RegionClause(b: Broker, w: WorkDefinition, region: Id, now: real)
    ensures !AnyRulesOut(b, w, region, now)
            <==> forall p :: p in w.requiredProviders ==> ProviderAccepts(b, p, region, now) || Strange(b, p, region)
  {
  }

  lemma PostgresMeans(row: WorkRow, worker: Worker, b: Broker, now: real)
    ensures PostgresSelects(row, worker, b, now)
            <==> Claimable(row, now) && Eligible(row.work, worker) && !AnyRulesOut(b, row.work, worker.region, now)
  {
  }

  ghost predicate Agree(b: Broker, region: Id, now: real) {
    forall row: WorkRow, worker: Worker :: worker.region == region ==>
      (PostgresSelects(row, worker, b, now) <==> SqliteSelects(row, worker, b, now))
  }

  ghost predicate NothingStrange(b: Broker, region: Id) {
    forall p :: !Strange(b, p, region)
  }

  lemma AgreeOne(row: WorkRow, worker: Worker, b: Broker, now: real)
    requires NothingStrange(b, worker.region)
    ensures PostgresSelects(row, worker, b, now) <==> SqliteSelects(row, worker, b, now)
  {
    PostgresMeans(row, worker, b, now);
    RegionClause(b, row.work, worker.region, now);
  }

  // A row and a worker on which the filters differ.
  lemma StrangeDiffers(b: Broker, provider: Id, region: Id, now: real) returns (row: WorkRow, worker: Worker)
    requires Strange(b, provider, region)
    ensures worker.region == region
    ensures PostgresSelects(row, worker, b, now) && !SqliteSelects(row, worker, b, now)
  {
    var d := WorkDefinition("p", SourceShard, "x", EMPTY_PAYLOAD, "", "v", [], [provider], 0.0, 1, now);
    row := WorkRow(WorkKeyOf(d), d, Pending, None, None, 0, None, 0, None, 0, None, now, now);
    worker := Worker("i", region, {}, {}, {provider}, 0, false);
    PostgresMeans(row, worker, b, now);
    RegionClause(b, row.work, region, now);
    assert provider in d.requiredProviders;
  }

  // For a region the two filters select the same rows for all work and all
  // workers exactly when no required provider can be strange there.
  lemma FiltersAgreeExactly(b: Broker, region: Id, now: real)
    ensures Agree(b, region, now) <==> NothingStrange(b, region)
  {
    if NothingStrange(b, region) {
      forall row: WorkRow, worker: Worker | worker.region == region
        ensures PostgresSelects(row, worker, b, now) <==> SqliteSelects(row, worker, b, now)
      {
        AgreeOne(row, worker, b, now);
      }
    } else {
      var p :| Strange(b, p, region);
      var row, worker := StrangeDiffers(b, p, region, now);
    }
  }

  // ----- in reachable tables nothing is strange

  predicate StatesKnown(b: Broker) {
    forall k :: k in b.regions ==> !b.regions[k].state.Other?
  }

  lemma {:induction false} ReachableStatesKnown(start: real, run: seq<PermitRuns.Timed>)
    ensures StatesKnown(PermitRuns.Run(start, run).broker)
  {
    if run != [] {
      var n := |run| - 1;
      ReachableStatesKnown(start, run[..n]);
      KnownStep(PermitRuns.Run(start, run[..n]).broker, run[n]);
    }
  }

  lemma KnownStep(b: Broker, e: PermitRuns.Timed)
    requires StatesKnown(b)
    ensures StatesKnown(PermitRuns.Next(b, e))
  {
    if e.event.Issue? {
      assert PermitRuns.Next(b, e).regions == b.regions;
    }
  }

  lemma {:induction false} ReachableFiltersAgree(start: real, run: seq<PermitRuns.Timed>, row: WorkRow, worker: Worker, now: real)
    ensures var b := PermitRuns.Run(start, run).broker;
            PostgresSelects(row, worker, b, now) <==> SqliteSelects(row, worker, b, now)
  {
    ReachableStatesKnown(start, run);
    AgreeOne(row, worker, PermitRuns.Run(start, run).broker, now);
  }

  // ----- and so the two claims choose alike

  // A row the Postgres query may put first.
  ghost predicate PostgresMayChoose(work: map<Id, WorkRow>, t: Id, worker: Worker, b: Broker, now: real) {
    && t in work && PostgresSelects(work[t], worker, b, now)
    && forall u :: u in work && PostgresSelects(work[u], worker, b, now) ==> NotAfter(work[t], work[u])
  }

  // Tasks whose required providers accept the worker's region.
  function RegionOk(work: map<Id, WorkRow>, worker: Worker, b: Broker, now: real): set<Id> {
    set t | t in work && RegionEligible(b, work[t].work, worker.region, now)
  }

  lemma AdmitsIsSelects(work: map<Id, WorkRow>, t: Id, worker: Worker, b: Broker, now: real)
    requires NothingStrange(b, worker.region) && t in work && Claimable(work[t], now)
    ensures Admits(work, t, worker, RegionOk(work, worker, b, now)) <==> PostgresSelects(work[t], worker, b, now)
  {
    AgreeOne(work[t], worker, b, now);
  }

  lemma SelectedIsClaimable(work: map<Id, WorkRow>, t: Id, worker: Worker, b: Broker, now: real)
    requires t in work && PostgresSelects(work[t], worker, b, now)
    ensures Claimable(work[t], now)
  {
  }

  // The page is full, none of it is for the worker, and a row beyond it is.
  ghost predicate BeyondThePage(work: map<Id, WorkRow>, rows: seq<Id>, worker: Worker, b: Broker, now: real) {
    var ok := RegionOk(work, worker, b, now);
    && |rows| == CLAIM_PAGE && (forall k :: 0 <= k < |rows| ==> !Admits(work, rows[k], worker, ok))
    && exists t :: t in work && t !in rows && Claimable(work[t], now) && Admits(work, t, worker, ok)
  }

  // What SQLite picks from its page, Postgres may pick; and SQLite answers
  // nothing where Postgres selects a row exactly when the rows the worker may
  // run all lie beyond a full page.
  lemma ChoicesAgree(work: map<Id, WorkRow>, rows: seq<Id>, worker: Worker, b: Broker, now: real)
    requires NothingStrange(b, worker.region) && CandidatePage(work, now, rows)
    ensures var i := FirstEligible(work, rows, worker, RegionOk(work, worker, b, now));
            && (i < |rows| ==> PostgresMayChoose(work, rows[i], worker, b, now))
            && (i == |rows| && (exists t :: t in work && PostgresSelects(work[t], worker, b, now))
                <==> BeyondThePage(work, rows, worker, b, now))
  {
    ChosenMayBeChosen(work, rows, worker, b, now);
    var ok := RegionOk(work, worker, b, now);
    forall t | t in work && PostgresSelects(work[t], worker, b, now)
      ensures Claimable(work[t], now) && Admits(work, t, worker, ok)
    {
      SelectedIsClaimable(work, t, worker, b, now);
      AdmitsIsSelects(work, t, worker, b, now);
    }
    forall t | t in work && Claimable(work[t], now) && Admits(work, t, worker, ok)
      ensures PostgresSelects(work[t], worker, b, now)
    {
      AdmitsIsSelects(work, t, worker, b, now);
    }
    hide PostgresSelects, PostgresMayChoose, Admits, RegionOk;
    if FirstEligible(work, rows, worker, ok) == |rows| {
      assert forall k :: 0 <= k < |rows| ==> !Admits(work, rows[k], worker, ok);
      forall t | t in work && PostgresSelects(work[t], worker, b, now) ensures t !in rows && |rows| == CLAIM_PAGE {
      }
    }
  }

  lemma ChosenMayBeChosen(work: map<Id, WorkRow>, rows: seq<Id>, worker: Worker, b: Broker, now: real)
    requires NothingStrange(b, worker.region) && CandidatePage(work, now, rows)
    ensures var i := FirstEligible(work, rows, worker, RegionOk(work, worker, b, now));
            i < |rows| ==> PostgresMayChoose(work, rows[i], worker, b, now)
  {
    var ok := RegionOk(work, worker, b, now);
    var i := FirstEligible(work, rows, worker, ok);
    forall t | t in work && PostgresSelects(work[t], worker, b, now)
      ensures (t !in rows || t in rows[i..]) && (t !in rows ==> |rows| == CLAIM_PAGE)
    {
      SelectedIsClaimable(work, t, worker, b, now);
      AdmitsIsSelects(work, t, worker, b, now);
      if t in rows {
        var k :| 0 <= k < |rows| && rows[k] == t;
        assert k >= i && rows[i..][k - i] == t;
      }
    }
    if i < |rows| {
      AdmitsIsSelects(work, rows[i], worker, b, now);
      forall u | u in work && PostgresSelects(work[u], worker, b, now) ensures NotAfter(work[rows[i]], work[u]) {
        SelectedIsClaimable(work, u, worker, b, now);
        if u in rows {
          var k :| 0 <= k < |rows[i..]| && rows[i..][k] == u;
          assert rows[i + k] == u;
        }
      }
    }
  }
}
