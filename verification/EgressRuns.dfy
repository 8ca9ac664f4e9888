// What the daily egress counters add up to, and the one condition on garbage
// collection under which they are exact.
module EgressRuns {
  import opened Base
  import opened Wire
  import opened LeaseTables
  import opened Permits
  import opened PermitRuns

  // Bytes of the charged reports of one worker on one day.
  function Total(charges: seq<Charge>, worker: Id, day: int): int {
    if charges == [] then 0 else
    var c := charges[|charges| - 1];
    Total(charges[..|charges| - 1], worker, day) + (if c.worker == worker && DayOf(c.at) == day then c.bytes else 0)
  }

  // Every counter still on record is what was charged to it.
  ghost predicate Exact(w: World) {
    forall k :: k in w.broker.egress ==> w.broker.egress[k].bytes == Total(w.charges, k.0, k.1)
  }

  ghost predicate EgressOk(w: World) {
    && Exact(w)
    && (forall k :: k in w.broker.egress ==> DayOf(w.broker.egress[k].updatedAt) == k.1)
    && (forall i :: 0 <= i < |w.charges| ==> w.charges[i].at <= w.clock)
    && (forall worker, day :: day >= DayOf(w.clock) && (worker, day) !in w.broker.egress ==> Total(w.charges, worker, day) == 0)
  }

  // Collection in this run keeps at least `retention` seconds.
  predicate Retains(run: seq<Timed>, retention: real) {
    forall i :: 0 <= i < |run| && run[i].event.Gc? ==> run[i].event.retention >= retention
  }

  ghost predicate ExactUnder(retention: real) {
    forall start: real, run: seq<Timed> :: Retains(run, retention) ==> Exact(Run(start, run))
  }

  lemma DaysGrow(a: real, b: real)
    requires a <= b
    ensures DayOf(a) <= DayOf(b)
    ensures a + SECONDS_PER_DAY <= b ==> DayOf(a) < DayOf(b)
  {
  }

  // A counter collected after a whole day belongs to a day that is over.
  lemma CollectedDayIsOver(w: World, e: Timed, k: (Id, int))
    requires EgressOk(w) && Legal(w, e) && e.event.Gc? && e.event.retention >= SECONDS_PER_DAY && k in e.event.days
    ensures k.1 < DayOf(e.now)
  {
  }

  lemma ChargeEgress(w: World, e: Timed)
    requires EgressOk(w) && Legal(w, e) && Charges(w.broker, e)
    ensures EgressOk(Step(w, e))
  {
    DaysGrow(w.clock, e.now);
    var w' := Step(w, e);
    assert w'.charges[..|w.charges|] == w.charges;
    forall worker, day
      ensures Total(w'.charges, worker, day)
              == Total(w.charges, worker, day) + (if e.event.worker == worker && DayOf(e.now) == day then e.event.bytes else 0)
    {
    }
  }

  lemma QuietEgress(w: World, e: Timed)
    requires EgressOk(w) && Legal(w, e) && !Charges(w.broker, e) && !e.event.Gc?
    ensures EgressOk(Step(w, e))
  {
    DaysGrow(w.clock, e.now);
    assert Next(w.broker, e).egress == w.broker.egress;
  }

  lemma GcEgress(w: World, e: Timed)
    requires EgressOk(w) && Legal(w, e) && e.event.Gc? && e.event.retention >= SECONDS_PER_DAY
    ensures EgressOk(Step(w, e))
  {
    DaysGrow(w.clock, e.now);
    forall k | k in e.event.days ensures k.1 < DayOf(e.now) {
      CollectedDayIsOver(w, e, k);
    }
  }

  lemma {:induction false} RunCounts(start: real, run: seq<Timed>)
    requires Retains(run, SECONDS_PER_DAY)
    ensures EgressOk(Run(start, run))
  {
    if run != [] {
      var n := |run| - 1;
      RunCounts(start, run[..n]);
      var w := Run(start, run[..n]);
      if Legal(w, run[n]) {
        if Charges(w.broker, run[n]) { ChargeEgress(w, run[n]); }
        else if run[n].event.Gc? { GcEgress(w, run[n]); }
        else { QuietEgress(w, run[n]); }
      }
    }
  }

  // The budget check of a permit request reads the day's true total.
  lemma {:induction false} BudgetSeesTrueTotal(start: real, run: seq<Timed>, e: Timed)
    requires Retains(run, SECONDS_PER_DAY)
    requires Legal(Run(start, run), e) && e.event.Issue? && e.event.ask.worker in e.event.ledger.workers
    requires IssuePermit(e.event.ledger, Run(start, run).broker, e.event.ask, e.event.permitId, e.event.prior, e.now).reply.Ok?
    ensures var budget := e.event.ledger.workers[e.event.ask.worker].egressBudget;
            budget > 0 ==> Total(Run(start, run).charges, e.event.ask.worker, DayOf(e.now)) < budget
  {
    RunCounts(start, run);
    DaysGrow(Run(start, run).clock, e.now);
  }

  // ----- collecting sooner loses count

  // Tables in which the worker holds the task and may use both providers.
  predicate MayUse(l: Ledger, task: Id, worker: Id, instance: Id, a: Id, b: Id) {
    && Registered(l, worker, instance) && Fenced(l, task, worker, instance, 1, 0.0)
    && a in l.workers[worker].providers && b in l.workers[worker].providers && l.workers[worker].egressBudget == 0
  }

  lemma SomeLedger() returns (l: Ledger)
    ensures MayUse(l, "t", "w", "i", "a", "b")
  {
    var d := WorkDefinition("p", SourceShard, "x", EMPTY_PAYLOAD, "", "v", [], [], 0.0, 1, 0.0);
    var row := WorkRow(WorkKeyOf(d), d, Leased, Some("w"), Some("i"), 1, Some(9.0), 1, None, 0, None, 0.0, 0.0);
    l := Ledger(map["w" := Worker("i", "r", {}, {}, {"a", "b"}, 0, false)], map["t" := row], map[]);
  }

  function Open(p: Id): Timed { Timed(0.0, Configure(p, 1.0, 1, false, false, 1.0)) }

  function AskFor(p: Id): Ask { Ask(p, "w", "i", "t", 1, p, 1.0) }

  function Grant(l: Ledger, p: Id): Timed { Timed(0.0, Issue(l, AskFor(p), p, None)) }

  function Spend(l: Ledger, p: Id, at: real): Timed { Timed(at, Report(l, p, "w", "i", None, 0.0, 1)) }

  lemma NamesAreText()
    ensures Strip("a") != "" && Strip("b") != ""
  {
  }

  lemma AfterOpen()
    ensures var w := Run(0.0, [Open("a"), Open("b")]);
            && w.broker == Broker(map["a" := Budget(1.0, 1, false, false, 1.0, 0.0, 0.0),
                                      "b" := Budget(1.0, 1, false, false, 1.0, 0.0, 0.0)], map[], map[], map[])
            && w.mints == [] && w.charges == [] && w.rests == [] && w.clock == 0.0
  {
    NamesAreText();
    var r := [Open("a"), Open("b")];
    assert r[..1] == [Open("a")] && r[..1][..0] == [];
    assert Run(0.0, []) == Init(0.0);
    assert Legal(Init(0.0), Open("a"));
    assert Run(0.0, [Open("a")]) == Step(Init(0.0), Open("a"));
  }

  // One grant, in any state where the provider's budget is untouched.
  lemma AfterGrant(l: Ledger, w: World, p: Id)
    requires MayUse(l, "t", "w", "i", "a", "b") && (p == "a" || p == "b")
    requires w.clock == 0.0 && p in w.broker.budgets && w.broker.budgets[p] == Budget(1.0, 1, false, false, 1.0, 0.0, 0.0)
    requires forall id :: id in w.broker.permits ==> id != p && w.broker.permits[id].provider != p && w.broker.permits[id].requestId != p
    requires forall i :: 0 <= i < |w.mints| ==> w.mints[i].id != p
    ensures var w' := Step(w, Grant(l, p));
            && Legal(w, Grant(l, p)) && w'.broker.permits == w.broker.permits[p := NewPermit(AskFor(p), 1, 0.0)]
            && w'.broker.budgets.Keys == w.broker.budgets.Keys
            && (forall q :: q in w.broker.budgets && q != p ==> w'.broker.budgets[q] == w.broker.budgets[q])
            && w'.broker.egress == w.broker.egress && w'.charges == w.charges && w'.clock == 0.0
            && w'.mints == w.mints + [Mint(p, AskFor(p), 0.0)]
  {
    NamesAreText();
    assert Expire(w.broker.permits, p, 0.0) == w.broker.permits;
    assert Active(w.broker.permits, p) == {};
  }

  lemma AfterSpend(l: Ledger, w: World, p: Id, at: real)
    requires MayUse(l, "t", "w", "i", "a", "b") && w.clock <= at
    requires p in w.broker.permits && w.broker.permits[p] == NewPermit(AskFor(p), 1, 0.0)
    ensures var w' := Step(w, Spend(l, p, at));
            && Legal(w, Spend(l, p, at)) && w'.clock == at
            && w'.broker.egress == w.broker.egress[("w", DayOf(at)) := DayCount(Used(w.broker, "w", DayOf(at)) + 1, at)]
            && w'.charges == w.charges + [Charge(p, "w", 1, at)]
            && (forall q :: q in w.broker.permits && q != p ==> q in w'.broker.permits && w'.broker.permits[q] == w.broker.permits[q])
  {
  }

  lemma {:induction false} RunSnoc(start: real, run: seq<Timed>, e: Timed)
    requires Legal(Run(start, run), e)
    ensures Run(start, run + [e]) == Step(Run(start, run), e)
  {
  }

  // Both permits are out and nothing is charged yet.
  ghost predicate BothOut(w: World) {
    && "a" in w.broker.permits && w.broker.permits["a"] == NewPermit(AskFor("a"), 1, 0.0)
    && "b" in w.broker.permits && w.broker.permits["b"] == NewPermit(AskFor("b"), 1, 0.0)
    && w.broker.egress == map[] && w.charges == [] && w.clock == 0.0
  }

  function Opening(l: Ledger): seq<Timed> { [Open("a"), Open("b")] + [Grant(l, "a")] + [Grant(l, "b")] }

  lemma AfterOpening(l: Ledger)
    requires MayUse(l, "t", "w", "i", "a", "b")
    ensures BothOut(Run(0.0, Opening(l)))
  {
    AfterOpen();
    var open := [Open("a"), Open("b")];
    var w0 := Run(0.0, open);
    AfterGrant(l, w0, "a");
    RunSnoc(0.0, open, Grant(l, "a"));
    AfterGrant(l, Step(w0, Grant(l, "a")), "b");
    RunSnoc(0.0, open + [Grant(l, "a")], Grant(l, "b"));
  }

  lemma SpendCollectSpend(l: Ledger, so: seq<Timed>, retention: real)
    requires MayUse(l, "t", "w", "i", "a", "b") && BothOut(Run(0.0, so)) && 0.0 < retention < SECONDS_PER_DAY
    ensures !Exact(Run(0.0, so + [Spend(l, "a", 0.0)] + [Timed(retention, Gc({}, {("w", 0)}, retention))] + [Spend(l, "b", retention)]))
  {
    var w := Run(0.0, so);
    AfterSpend(l, w, "a", 0.0);
    RunSnoc(0.0, so, Spend(l, "a", 0.0));
    var w1 := Step(w, Spend(l, "a", 0.0));
    var gc := Timed(retention, Gc({}, {("w", 0)}, retention));
    RunSnoc(0.0, so + [Spend(l, "a", 0.0)], gc);
    var w2 := Step(w1, gc);
    AfterSpend(l, w2, "b", retention);
    RunSnoc(0.0, so + [Spend(l, "a", 0.0)] + [gc], Spend(l, "b", retention));
    var w3 := Step(w2, Spend(l, "b", retention));
    TwoCharges(Charge("a", "w", 1, 0.0), Charge("b", "w", 1, retention));
    assert w3.charges == [Charge("a", "w", 1, 0.0), Charge("b", "w", 1, retention)];
    assert ("w", 0) in w3.broker.egress && w3.broker.egress[("w", 0)].bytes == 1;
  }

  lemma {:induction false} SoonerLosesCount(retention: real) returns (run: seq<Timed>)
    requires 0.0 < retention < SECONDS_PER_DAY
    ensures Retains(run, retention) && !Exact(Run(0.0, run))
  {
    var l := SomeLedger();
    AfterOpening(l);
    SpendCollectSpend(l, Opening(l), retention);
    run := Opening(l) + [Spend(l, "a", 0.0)] + [Timed(retention, Gc({}, {("w", 0)}, retention))] + [Spend(l, "b", retention)];
  }

  lemma TwoCharges(c: Charge, d: Charge)
    requires DayOf(c.at) == DayOf(d.at) == 0 && c.worker == d.worker == "w" && c.bytes == d.bytes == 1
    ensures Total([c, d], "w", 0) == 2
  {
    assert [c, d][..1] == [c] && [c][..0] == [];
    assert Total([c], "w", 0) == Total([], "w", 0) + 1;
    assert Total([c, d], "w", 0) == Total([c], "w", 0) + 1;
  }

  // Counters are exact in every run exactly when collection keeps a whole day.
  lemma ExactWhenADayIsKept(retention: real)
    requires retention > 0.0
    ensures ExactUnder(retention) <==> retention >= SECONDS_PER_DAY
  {
    if retention >= SECONDS_PER_DAY {
      forall start: real, run: seq<Timed> | Retains(run, retention) ensures Exact(Run(start, run)) {
        RunCounts(start, run);
      }
    } else {
      var run := SoonerLosesCount(retention);
      assert !Exact(Run(0.0, run));
    }
  }
}
