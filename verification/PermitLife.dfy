// The life of a permit over whole runs: what it grants and until when, what
// ends it, and what asking again answers.
module PermitLife {
  import opened Base
  import opened Wire
  import opened LeaseTables
  import opened Permits
  import opened PermitRuns
  import opened LeaseAnswers
  import opened PermitAnswers

  ghost predicate Reported(w: World, id: Id) {
    exists i :: 0 <= i < |w.charges| && w.charges[i].id == id
  }

  // The k-th permit was reported, or its time is over, or it is out.
  ghost predicate LivesOut(w: World, k: nat)
    requires k < |w.mints|
  {
    var m := w.mints[k];
    Reported(w, m.id) || w.clock >= m.at + m.ask.ttl || (m.id in w.broker.permits && w.broker.permits[m.id].active)
  }

  ghost predicate AsMinted(w: World, id: Id)
    requires id in w.broker.permits
  {
    exists k :: 0 <= k < |w.mints| && w.mints[k].id == id && Grants(w.broker.permits[id], w.mints[k].ask, w.mints[k].at)
  }

  ghost predicate MintsOk(w: World) {
    && (forall i, j :: 0 <= i < j < |w.mints| ==> w.mints[i].id != w.mints[j].id)
    && forall i :: 0 <= i < |w.mints| ==> Strip(w.mints[i].ask.requestId) != "" && w.mints[i].ask.ttl > 0.0
  }

  ghost predicate LifeOk(w: World) {
    && MintsOk(w)
    && (forall id :: id in w.broker.permits ==> AsMinted(w, id))
    && OnePerRequest(w.broker.permits)
    && (forall k: nat :: k < |w.mints| ==> LivesOut(w, k))
  }

  // ----- steps that mint nothing

  // Whatever row is left says what it said, and a row goes or is switched off
  // only after its report or its time.
  ghost predicate Ages(w: World, w': World) {
    && w'.mints == w.mints && w'.clock >= w.clock
    && (forall id :: Reported(w, id) ==> Reported(w', id))
    && (forall id :: id in w'.broker.permits ==>
          && id in w.broker.permits
          && w'.broker.permits[id] == w.broker.permits[id].(active := w'.broker.permits[id].active, status := w'.broker.permits[id].status))
    && (forall id :: id in w.broker.permits && w.broker.permits[id].active ==>
          || Reported(w', id)
          || w'.clock >= w.broker.permits[id].expiresAt
          || (id in w'.broker.permits && w'.broker.permits[id].active))
  }

  lemma AgingKeepsLife(w: World, w': World)
    requires LifeOk(w) && Ages(w, w')
    ensures LifeOk(w')
  {
    hide Reported;
    forall id | id in w'.broker.permits ensures AsMinted(w', id) {
      assert AsMinted(w, id);
      var k :| 0 <= k < |w.mints| && w.mints[k].id == id && Grants(w.broker.permits[id], w.mints[k].ask, w.mints[k].at);
      assert Grants(w'.broker.permits[id], w'.mints[k].ask, w'.mints[k].at);
    }
    forall k: nat | k < |w'.mints| ensures LivesOut(w', k) {
      assert LivesOut(w, k);
      LifeEnds(w, k);
    }
  }

  // The row of a mint grants what that mint granted.
  lemma LifeEnds(w: World, k: nat)
    requires k < |w.mints| && MintsOk(w) && forall id :: id in w.broker.permits ==> AsMinted(w, id)
    ensures w.mints[k].id in w.broker.permits ==> Grants(w.broker.permits[w.mints[k].id], w.mints[k].ask, w.mints[k].at)
  {
    var id := w.mints[k].id;
    if id in w.broker.permits {
      assert AsMinted(w, id);
      var j :| 0 <= j < |w.mints| && w.mints[j].id == id && Grants(w.broker.permits[id], w.mints[j].ask, w.mints[j].at);
      assert j == k;
    }
  }

  lemma ReportedStays(w: World, e: Timed)
    ensures forall id :: Reported(w, id) ==> Reported(Step(w, e), id)
  {
    hide Next, Charges, Mints;
    var w' := Step(w, e);
    forall id | Reported(w, id) ensures Reported(w', id) {
      var i :| 0 <= i < |w.charges| && w.charges[i].id == id;
      assert w'.charges[i].id == id;
    }
  }

  lemma ReportAges(w: World, e: Timed)
    requires Legal(w, e) && Charges(w.broker, e)
    ensures Ages(w, Step(w, e))
  {
    ReportedStays(w, e);
    var w' := Step(w, e);
    assert w'.charges[|w.charges|].id == e.event.permitId;
    assert Reported(w', e.event.permitId);
  }

  lemma GcAges(w: World, e: Timed)
    requires Legal(w, e) && e.event.Gc?
    ensures Ages(w, Step(w, e))
  {
    ReportedStays(w, e);
  }

  lemma OtherAges(w: World, e: Timed)
    requires Legal(w, e) && !Mints(w.broker, e) && Next(w.broker, e).permits == w.broker.permits
    ensures Ages(w, Step(w, e))
  {
    hide Next;
    ReportedStays(w, e);
  }

  // ----- a mint

  lemma MintLeaves(w: World, e: Timed)
    requires LifeOk(w) && Legal(w, e) && Mints(w.broker, e)
    requires forall p :: p in w.broker.budgets ==> w.broker.budgets[p].rate > 0.0
    ensures AfterMint(w.broker, Next(w.broker, e), e.event.ask, e.event.permitId, e.now)
    ensures Strip(e.event.ask.requestId) != "" && e.event.ask.ttl > 0.0
    ensures forall id :: !Holds(w.broker, e.event.ask, e.now, id)
  {
    hide AfterMint, IssuePermit, Holds, Welcome, HasRoom, KnownWorker, OwnsNow, UnderBudget, IsPriorPermit, OnePerRequest, LivesOut, AsMinted;
    IssueAnswers(e.event.ledger, w.broker, e.event.ask, e.event.permitId, e.event.prior, e.now);
    if id :| Holds(w.broker, e.event.ask, e.now, id) { HeldIsThere(w.broker, e.event.ask, e.now, id); }
  }

  lemma HeldIsThere(b: Broker, ask: Ask, now: real, id: Id)
    requires Holds(b, ask, now, id)
    ensures id in b.permits
  {
  }

  lemma MintKeepsLife(w: World, e: Timed)
    requires LifeOk(w) && Legal(w, e) && Mints(w.broker, e)
    requires forall p :: p in w.broker.budgets ==> w.broker.budgets[p].rate > 0.0
    ensures LifeOk(Step(w, e))
  {
    MintLeaves(w, e);
    ReportedStays(w, e);
    FromAfterMint(w, Step(w, e), e.event.ask, e.event.permitId, e.now);
  }

  lemma FromAfterMint(w: World, w': World, ask: Ask, id: Id, now: real)
    requires LifeOk(w) && AfterMint(w.broker, w'.broker, ask, id, now) && w'.mints == w.mints + [Mint(id, ask, now)]
    requires Strip(ask.requestId) != "" && ask.ttl > 0.0 && now >= w.clock && w'.clock == now
    requires forall i :: 0 <= i < |w.mints| ==> w.mints[i].id != id
    requires forall k :: !Holds(w.broker, ask, now, k)
    requires forall k :: Reported(w, k) ==> Reported(w', k)
    ensures LifeOk(w')
  {
    OneRowPerRequest(w.broker, w'.broker, ask, id, now);
    forall k | k in w'.broker.permits ensures AsMinted(w', k) {
      RowAsMinted(w, w', ask, id, now, k);
    }
    hide Reported, OnePerRequest, Holds, AsMinted;
    var n := |w.mints|;
    forall k: nat | k < |w'.mints| ensures LivesOut(w', k) {
      if k < n { StillLivesOut(w, w', ask, id, now, k); }
    }
    hide AfterMint, LivesOut;
  }

  lemma RowAsMinted(w: World, w': World, ask: Ask, id: Id, now: real, k: Id)
    requires AfterMint(w.broker, w'.broker, ask, id, now) && w'.mints == w.mints + [Mint(id, ask, now)]
    requires k in w'.broker.permits && (k in w.broker.permits ==> AsMinted(w, k))
    ensures AsMinted(w', k)
  {
    var n := |w.mints|;
    if k == id {
      assert w'.mints[n] == Mint(id, ask, now);
    } else {
      var j :| 0 <= j < n && w.mints[j].id == k && Grants(w.broker.permits[k], w.mints[j].ask, w.mints[j].at);
      assert w'.mints[j] == w.mints[j] && Grants(w'.broker.permits[k], w'.mints[j].ask, w'.mints[j].at);
    }
  }

  lemma OneRowPerRequest(b: Broker, b': Broker, ask: Ask, id: Id, now: real)
    requires OnePerRequest(b.permits) && AfterMint(b, b', ask, id, now)
    ensures OnePerRequest(b'.permits)
  {
    forall i, j | i in b'.permits && j in b'.permits && i != j
      ensures !ForRequest(b'.permits[j], b'.permits[i].worker, b'.permits[i].requestId)
    {
    }
  }

  lemma StillLivesOut(w: World, w': World, ask: Ask, id: Id, now: real, k: nat)
    requires LifeOk(w) && AfterMint(w.broker, w'.broker, ask, id, now) && w'.mints == w.mints + [Mint(id, ask, now)]
    requires now >= w.clock && w'.clock == now && k < |w.mints| && w.mints[k].id != id
    requires forall i :: !Holds(w.broker, ask, now, i)
    requires forall i :: Reported(w, i) ==> Reported(w', i)
    ensures LivesOut(w', k)
  {
    hide Reported, OnePerRequest, AsMinted;
    LifeEnds(w, k);
    var m := w.mints[k];
    assert w'.mints[k] == m && LivesOut(w, k);
    if m.id in w.broker.permits { assert !Holds(w.broker, ask, now, m.id); }
  }

  // ----- runs

  lemma StepLife(w: World, e: Timed)
    requires LifeOk(w) && Legal(w, e)
    requires forall p :: p in w.broker.budgets ==> w.broker.budgets[p].rate > 0.0
    requires forall id :: id in w.broker.permits ==> WasMinted(w.mints, id)
    ensures LifeOk(Step(w, e))
  {
    hide LifeOk, Ages;
    match e.event
    case Issue(_, _, _, _) =>
      if Mints(w.broker, e) { MintKeepsLife(w, e); }
      else { IssueElse(w, e); OtherAges(w, e); AgingKeepsLife(w, Step(w, e)); }
    case Report(_, _, _, _, _, _, _) =>
      if Charges(w.broker, e) { ReportAges(w, e); } else { OtherAges(w, e); }
      AgingKeepsLife(w, Step(w, e));
    case Gc(_, _, _) =>
      GcAges(w, e);
      AgingKeepsLife(w, Step(w, e));
    case _ =>
      OtherAges(w, e);
      AgingKeepsLife(w, Step(w, e));
  }

  lemma {:induction false} RunLife(start: real, run: seq<Timed>)
    ensures LifeOk(Run(start, run))
    ensures forall p :: p in Run(start, run).broker.budgets ==> Run(start, run).broker.budgets[p].rate > 0.0
  {
    hide LifeOk, Step, Legal;
    var pr := Loosest(run, "");
    RunKeeps(start, run, pr);
    if run == [] {
      EmptyLife(start);
    } else {
      var n := |run| - 1;
      RunLife(start, run[..n]);
      RunKeeps(start, run[..n], Loosest(run[..n], ""));
      var w := Run(start, run[..n]);
      if Legal(w, run[n]) { StepLife(w, run[n]); }
    }
  }

  lemma EmptyLife(start: real)
    ensures LifeOk(Init(start))
  {
  }

  // ----- what a caller may rely on

  // A permit on record grants what was asked when it was minted, for the time
  // asked from that instant.
  lemma {:induction false} GrantIsAsAsked(start: real, run: seq<Timed>, k: nat)
    requires k < |Run(start, run).mints| && Run(start, run).mints[k].id in Run(start, run).broker.permits
    ensures var w := Run(start, run);
            var m, p := w.mints[k], w.broker.permits[w.mints[k].id];
            && p.issuedAt == m.at && p.expiresAt == m.at + m.ask.ttl && p.provider == m.ask.provider && p.worker == m.ask.worker
            && p.instance == m.ask.instance && p.task == m.ask.task && p.generation == m.ask.generation
            && p.requestId == m.ask.requestId
  {
    RunLife(start, run);
    LifeEnds(Run(start, run), k);
  }

  // Until its time is over, a minted permit is active exactly as long as nobody
  // reported it: no expiry, refusal, re-mint or collection takes it sooner.
  lemma {:induction false} ActiveUntilReported(start: real, run: seq<Timed>, k: nat)
    requires k < |Run(start, run).mints|
    requires Run(start, run).clock < Run(start, run).mints[k].at + Run(start, run).mints[k].ask.ttl
    ensures var w := Run(start, run);
            var id := w.mints[k].id;
            id in w.broker.permits && w.broker.permits[id].active <==> !Reported(w, id)
  {
    RunLife(start, run);
    RunKeeps(start, run, Loosest(run, ""));
    assert LivesOut(Run(start, run), k);
  }

  // Asking again for a request whose permit is neither reported nor over gets
  // that very permit when it is for the same work, is refused otherwise, and
  // changes nothing.
  lemma {:induction false} AskingAgain(start: real, run: seq<Timed>, e: Timed, k: nat)
    requires Legal(Run(start, run), e) && e.event.Issue? && k < |Run(start, run).mints|
    requires var m := Run(start, run).mints[k];
             && e.event.ask.worker == m.ask.worker && e.event.ask.requestId == m.ask.requestId && e.event.ask.ttl > 0.0
             && e.now < m.at + m.ask.ttl && !Reported(Run(start, run), m.id)
    requires KnownWorker(e.event.ledger, e.event.ask.worker, e.event.ask.instance)
    requires OwnsNow(e.event.ledger, e.event.ask.task, e.event.ask.worker, e.event.ask.instance, e.event.ask.generation, e.now)
    requires e.event.ask.provider in e.event.ledger.workers[e.event.ask.worker].providers
    requires UnderBudget(Run(start, run).broker, e.event.ask.worker, e.event.ledger.workers[e.event.ask.worker].egressBudget, e.now)
    ensures var w := Run(start, run);
            var m, ask := w.mints[k], e.event.ask;
            var tx := IssuePermit(e.event.ledger, w.broker, ask, e.event.permitId, e.event.prior, e.now);
            && tx.broker == w.broker && Step(w, e).mints == w.mints
            && if ask.provider == m.ask.provider && ask.instance == m.ask.instance && ask.task == m.ask.task
                  && ask.generation == m.ask.generation
               then m.id in w.broker.permits && tx.reply == Ok(Some((m.id, w.broker.permits[m.id])))
                    && w.broker.permits[m.id].expiresAt == m.at + m.ask.ttl
               else tx.reply == Err(ProviderDenied)
  {
    var w := Run(start, run);
    RunLife(start, run);
    LifeEnds(w, k);
    ActiveUntilReported(start, run, k);
    var m := w.mints[k];
    assert Holds(w.broker, e.event.ask, e.now, m.id);
    AgainOn(w, e, k);
  }

  lemma AgainOn(w: World, e: Timed, k: nat)
    requires LifeOk(w) && Legal(w, e) && e.event.Issue? && k < |w.mints|
    requires forall p :: p in w.broker.budgets ==> w.broker.budgets[p].rate > 0.0
    requires Holds(w.broker, e.event.ask, e.now, w.mints[k].id) && e.event.ask.ttl > 0.0
    requires w.mints[k].id in w.broker.permits && Grants(w.broker.permits[w.mints[k].id], w.mints[k].ask, w.mints[k].at)
    requires KnownWorker(e.event.ledger, e.event.ask.worker, e.event.ask.instance)
    requires OwnsNow(e.event.ledger, e.event.ask.task, e.event.ask.worker, e.event.ask.instance, e.event.ask.generation, e.now)
    requires e.event.ask.provider in e.event.ledger.workers[e.event.ask.worker].providers
    requires UnderBudget(w.broker, e.event.ask.worker, e.event.ledger.workers[e.event.ask.worker].egressBudget, e.now)
    ensures var m, ask := w.mints[k], e.event.ask;
            var tx := IssuePermit(e.event.ledger, w.broker, ask, e.event.permitId, e.event.prior, e.now);
            && tx.broker == w.broker && Step(w, e).mints == w.mints
            && tx.reply == if SameWork(w.broker.permits[m.id], ask) then Ok(Some((m.id, w.broker.permits[m.id]))) else Err(ProviderDenied)
  {
    hide KnownWorker, OwnsNow, UnderBudget, IssuePermit, Legal, LivesOut, AsMinted, Reported, Welcome, HasRoom, AfterMint;
    FreshIds(w, e);
    IssueAnswers(e.event.ledger, w.broker, e.event.ask, e.event.permitId, e.event.prior, e.now);
  }

  // A freshly drawn identifier names no permit on record.
  lemma FreshIds(w: World, e: Timed)
    requires LifeOk(w) && Legal(w, e) && e.event.Issue?
    ensures e.event.permitId !in w.broker.permits
    ensures IsPriorPermit(w.broker.permits, e.event.ask.worker, e.event.ask.requestId, e.event.prior)
  {
    assert e.event.permitId in w.broker.permits ==> AsMinted(w, e.event.permitId);
  }
}
