// What the state of a region says: in every run it is the verdict on the probes
// the region received.
module RegionCounts {
  import opened Base
  import opened Wire
  import opened LeaseTables
  import opened Permits
  import opened PermitRuns
  import opened LeaseAnswers

  datatype Sighting = Sighting(probe: Probe, at: real)

  // A probe of the provider from the region, by a registered worker of that
  // region on a task it holds.
  predicate Sees(e: Timed, provider: Id, region: Id) {
    match e.event
    case Observe(l, p, worker, instance, task, generation, _) =>
      && p == provider && KnownWorker(l, worker, instance) && OwnsNow(l, task, worker, instance, generation, e.now)
      && l.workers[worker].region == region
    case _ => false
  }

  // The probes of a run, in order.
  ghost function Sightings(start: real, run: seq<Timed>, provider: Id, region: Id): seq<Sighting> {
    if run == [] then [] else
    var front, e := run[..|run| - 1], run[|run| - 1];
    var before := Sightings(start, front, provider, region);
    if Legal(Run(start, front), e) && Sees(e, provider, region) then before + [Sighting(e.event.probe, e.now)] else before
  }

  function Count(s: seq<Sighting>, f: Probe -> bool): nat {
    if s == [] then 0 else Count(s[..|s| - 1], f) + if f(s[|s| - 1].probe) then 1 else 0
  }

  function Positive(x: real): real { if x > 0.0 then x else 0.0 }

  function Latency(s: seq<Sighting>): real {
    if s == [] then 0.0 else Latency(s[..|s| - 1]) + Positive(s[|s| - 1].probe.latency)
  }

  function Bytes(s: seq<Sighting>): nat {
    if s == [] then 0 else Bytes(s[..|s| - 1]) + if s[|s| - 1].probe.bytes > 0 then s[|s| - 1].probe.bytes else 0
  }

  // An answer below 500 over an open connection, with no policy in the way.
  const WORKED: Probe -> bool := (p: Probe) => p.connected && p.status.Some? && p.status.value <= 499 && !p.policyBlock
  const TIMED_OUT: Probe -> bool := (p: Probe) => p.timeout
  const THROTTLED: Probe -> bool := (p: Probe) => p.status.Some? && (p.status.value == 429 || p.status.value == 503)
  const BLOCKED: Probe -> bool := (p: Probe) => p.policyBlock

  function Trouble(s: seq<Sighting>): nat {
    Count(s, TIMED_OUT) + Count(s, THROTTLED) + Count(s, BLOCKED)
  }

  // Blocked exactly when the last probe met a policy. Otherwise qualified exactly
  // when of three probes or more at least two worked and troubles are at most
  // half as many as probes, and unqualified exactly when of three or more none
  // worked.
  predicate Verdict(state: RegionState, s: seq<Sighting>)
    requires s != []
  {
    var last, enough := s[|s| - 1].probe, |s| > 2;
    && (state == Blocked <==> last.policyBlock)
    && (state == Qualified <==> !last.policyBlock && enough && Count(s, WORKED) > 1 && 2 * Trouble(s) <= |s|)
    && (state == Unqualified <==> !last.policyBlock && enough && Count(s, WORKED) == 0)
    && state in {Blocked, Qualified, Unqualified, Unknown}
  }

  predicate Tells(r: Region, s: seq<Sighting>)
    requires s != []
  {
    && r.samples == |s| && r.successes == Count(s, WORKED) && r.timeouts == Count(s, TIMED_OUT)
    && r.throttles == Count(s, THROTTLED) && r.blocks == Count(s, BLOCKED)
    && r.latency == Latency(s) && r.bytes == Bytes(s) && r.updatedAt == s[|s| - 1].at
    && Verdict(r.state, s)
  }

  lemma Snoc(s: seq<Sighting>, x: Sighting)
    ensures forall f :: Count(s + [x], f) == Count(s, f) + if f(x.probe) then 1 else 0
    ensures Latency(s + [x]) == Latency(s) + Positive(x.probe.latency)
    ensures Bytes(s + [x]) == Bytes(s) + if x.probe.bytes > 0 then x.probe.bytes else 0
  {
    assert (s + [x])[..|s|] == s;
  }

  lemma SightingStep(b: Broker, e: Timed, provider: Id, region: Id, s: seq<Sighting>)
    requires e.event.Observe? && Sees(e, provider, region)
    requires (provider, region) in b.regions <==> s != []
    requires s != [] ==> Tells(b.regions[(provider, region)], s)
    ensures (provider, region) in Next(b, e).regions
    ensures Tells(Next(b, e).regions[(provider, region)], s + [Sighting(e.event.probe, e.now)])
  {
    Snoc(s, Sighting(e.event.probe, e.now));
    assert Count([], WORKED) == Count([], TIMED_OUT) == Count([], THROTTLED) == Count([], BLOCKED) == 0;
  }

  lemma OtherStep(b: Broker, e: Timed, provider: Id, region: Id)
    requires !Sees(e, provider, region)
    ensures (provider, region) in Next(b, e).regions <==> (provider, region) in b.regions
    ensures (provider, region) in b.regions ==> Next(b, e).regions[(provider, region)] == b.regions[(provider, region)]
  {
    if e.event.Issue? {
      IssueKeepsRegions(e.event.ledger, b, e.event.ask, e.event.permitId, e.event.prior, e.now);
      hide IssuePermit;
    }
  }

  lemma IssueKeepsRegions(l: Ledger, b: Broker, ask: Ask, id: Id, prior: Option<Id>, now: real)
    ensures IssuePermit(l, b, ask, id, prior, now).broker.regions == b.regions
  {
    hide RegionAdmits, Expire, Active, EgressAvailable;
  }

  // A region is on record exactly when it was probed, and its row is the verdict
  // on all its probes.
  lemma {:induction false} RegionIsVerdict(start: real, run: seq<Timed>, provider: Id, region: Id)
    ensures var s := Sightings(start, run, provider, region);
            var regions := Run(start, run).broker.regions;
            && ((provider, region) in regions <==> s != [])
            && (s != [] ==> Tells(regions[(provider, region)], s))
  {
    hide Tells, Sees, Next, Legal, Mints, Charges;
    if run != [] {
      var n := |run| - 1;
      RegionIsVerdict(start, run[..n], provider, region);
      var w := Run(start, run[..n]);
      var s := Sightings(start, run[..n], provider, region);
      if Legal(w, run[n]) {
        if Sees(run[n], provider, region) {
          SeesObserves(run[n], provider, region);
          SightingStep(w.broker, run[n], provider, region, s);
        } else {
          OtherStep(w.broker, run[n], provider, region);
        }
      }
    }
  }

  lemma SeesObserves(e: Timed, provider: Id, region: Id)
    requires Sees(e, provider, region)
    ensures e.event.Observe?
  {
  }
}
