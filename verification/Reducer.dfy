// Contiguous host-year reduction: the first capture of every target year is
// kept for each maximal run of records with one hostname.
module HostYear {
  import opened Base
  import opened Wire

  const FIRST_YEAR := 1996
  const LAST_YEAR := 2001

  // A parsed record: the hostname its payload normalizes to, its year, the
  // years of its direct evidence mask, and its provenance.
  datatype Record = Record(host: Option<string>, year: Option<int>, directYears: set<int>, provenance: string)

  predicate Usable(r: Record) {
    && r.host.Some? && r.year.Some?
    && FIRST_YEAR <= r.year.value <= LAST_YEAR
    && r.year.value in r.directYears
  }

  function WitnessOf(r: Record): Witness
    requires Usable(r)
  {
    Witness(r.host.value, r.year.value, r.provenance)
  }

  datatype Reduction = Reduction(host: Option<string>, witnesses: map<int, Witness>, captures: nat)

  const FRESH := Reduction(None, map[], 0)

  // The witnesses in year order, from `year` on.
  function Sorted(witnesses: map<int, Witness>, year: int): seq<Witness>
    decreases LAST_YEAR - year + 1
  {
    if year > LAST_YEAR then []
    else (if year in witnesses then [witnesses[year]] else []) + Sorted(witnesses, year + 1)
  }

  function Emit(s: Reduction): Option<Group> {
    if s.host.None? || s.witnesses == map[] then None
    else Some(Group(s.host.value, Sorted(s.witnesses, FIRST_YEAR), s.captures))
  }

  // The new state, and the finished previous group when the hostname changes.
  function Feed(s: Reduction, r: Record): (Reduction, Option<Group>) {
    if !Usable(r) then (s, None) else
    var changed := s.host.Some? && r.host != s.host;
    var emitted := if changed then Emit(s) else None;
    var witnesses := if changed then map[] else s.witnesses;
    var captures := if changed then 0 else s.captures;
    var y := r.year.value;
    (Reduction(r.host, if y in witnesses then witnesses else witnesses[y := WitnessOf(r)], captures + 1), emitted)
  }

  class WitnessReducer {
    var host: Option<string>
    var witnesses: map<int, Witness>
    var captures: nat

    function State(): Reduction
      reads this
    {
      Reduction(host, witnesses, captures)
    }

    constructor ()
      ensures State() == FRESH
    {
      host := None;
      witnesses := map[];
      captures := 0;
    }

    method FeedRecord(r: Record) returns (emitted: Option<Group>)
      modifies this
      ensures (State(), emitted) == Feed(old(State()), r)
    {
      emitted := None;
      if r.host.None? || r.year.None? {
        return;
      }
      var year := r.year.value;
      if year < FIRST_YEAR || year > LAST_YEAR || year !in r.directYears {
        return;
      }
      if host.Some? && r.host != host {
        emitted := Emit(State());
        witnesses := map[];
        captures := 0;
      }
      if host != r.host {
        host := r.host;
      }
      captures := captures + 1;
      if year !in witnesses {
        witnesses := witnesses[year := Witness(r.host.value, year, r.provenance)];
      }
    }

    method Finish() returns (emitted: Option<Group>)
      modifies this
      ensures emitted == Emit(old(State())) && State() == FRESH
    {
      emitted := Emit(State());
      host := None;
      witnesses := map[];
      captures := 0;
    }
  }

  // ----- what the groups of a record list are, said without a state machine

  function Filter(rs: seq<Record>): (us: seq<Record>)
    ensures forall i :: 0 <= i < |us| ==> Usable(us[i])
  {
    if rs == [] then [] else (if Usable(rs[0]) then [rs[0]] else []) + Filter(rs[1..])
  }

  // Length of the longest prefix that shares the first hostname.
  function RunLength(us: seq<Record>): (n: nat)
    requires us != []
    ensures 1 <= n <= |us|
    ensures forall i :: 0 <= i < n ==> us[i].host == us[0].host
    ensures n < |us| ==> us[n].host != us[0].host
  {
    if |us| == 1 || us[1].host != us[0].host then 1 else 1 + RunLength(us[1..])
  }

  function FirstOf(run: seq<Record>, year: int): Option<Record> {
    if run == [] then None else if run[0].year == Some(year) then Some(run[0]) else FirstOf(run[1..], year)
  }

  function FirstWitnesses(run: seq<Record>, year: int): seq<Witness>
    requires forall i :: 0 <= i < |run| ==> Usable(run[i])
    decreases LAST_YEAR - year + 1
  {
    if year > LAST_YEAR then [] else
    FirstOfUsable(run, year);
    (if FirstOf(run, year).Some? then [WitnessOf(FirstOf(run, year).value)] else []) + FirstWitnesses(run, year + 1)
  }

  lemma FirstOfUsable(run: seq<Record>, year: int)
    requires forall i :: 0 <= i < |run| ==> Usable(run[i])
    ensures FirstOf(run, year).Some? ==> Usable(FirstOf(run, year).value) && FirstOf(run, year).value.year == Some(year)
  {
  }

  function Summarise(run: seq<Record>): Group
    requires run != [] && forall i :: 0 <= i < |run| ==> Usable(run[i])
  {
    assert Usable(run[0]);
    Group(run[0].host.value, FirstWitnesses(run, FIRST_YEAR), |run|)
  }

  function GroupsOf(us: seq<Record>): seq<Group>
    requires forall i :: 0 <= i < |us| ==> Usable(us[i])
  {
    if us == [] then [] else [Summarise(us[..RunLength(us)])] + GroupsOf(us[RunLength(us)..])
  }

  // ----- the state machine computes them

  // The state after feeding `run`, a nonempty run of one hostname, from scratch.
  ghost predicate Holds(s: Reduction, run: seq<Record>) {
    && run != []
    && (forall i :: 0 <= i < |run| ==> Usable(run[i]) && run[i].host == s.host)
    && s.captures == |run|
    && (forall y :: y in s.witnesses <==> FirstOf(run, y).Some?)
    && (forall y :: y in s.witnesses ==> Usable(FirstOf(run, y).value) && s.witnesses[y] == WitnessOf(FirstOf(run, y).value))
  }

  lemma {:induction false} FirstOfSnoc(run: seq<Record>, r: Record, y: int)
    ensures FirstOf(run + [r], y) ==
            if FirstOf(run, y).Some? then FirstOf(run, y) else if r.year == Some(y) then Some(r) else None
  {
    if run == [] {
      assert run + [r] == [r];
    } else {
      assert (run + [r])[1..] == run[1..] + [r];
      FirstOfSnoc(run[1..], r, y);
    }
  }

  lemma {:induction false} SortedIsFirst(s: Reduction, run: seq<Record>, year: int)
    requires Holds(s, run)
    ensures Sorted(s.witnesses, year) == FirstWitnesses(run, year)
    decreases LAST_YEAR - year + 1
  {
    if year <= LAST_YEAR { SortedIsFirst(s, run, year + 1); }
  }

  lemma {:induction false} EmitIsSummary(s: Reduction, run: seq<Record>)
    requires Holds(s, run)
    ensures Emit(s) == Some(Summarise(run))
  {
    SortedIsFirst(s, run, FIRST_YEAR);
    assert FirstOf(run, run[0].year.value).Some?;
    assert run[0].year.value in s.witnesses;
  }

  lemma {:induction false} FeedSame(s: Reduction, run: seq<Record>, r: Record)
    requires Holds(s, run) && Usable(r) && r.host == s.host
    ensures Feed(s, r).1 == None && Holds(Feed(s, r).0, run + [r])
  {
    forall y ensures FirstOf(run + [r], y) ==
            if FirstOf(run, y).Some? then FirstOf(run, y) else if r.year == Some(y) then Some(r) else None
    {
      FirstOfSnoc(run, r, y);
    }
  }

  // A record of another hostname starts afresh, as if nothing had come before.
  lemma FeedChange(s: Reduction, r: Record)
    requires Usable(r) && s.host != r.host && (s.host.None? ==> s == FRESH)
    ensures Feed(s, r).0 == Feed(FRESH, r).0 && Holds(Feed(s, r).0, [r])
    ensures Feed(s, r).1 == if s.host.Some? then Emit(s) else None
  {
  }

  // A full run followed by another hostname is one group of its own.
  lemma {:induction false} FullRun(run: seq<Record>, us: seq<Record>)
    requires run != [] && (forall i :: 0 <= i < |run| ==> run[i].host == run[0].host)
    requires us != [] ==> us[0].host != run[0].host
    ensures RunLength(run + us) == |run|
  {
    if |run| > 1 {
      assert (run + us)[1..] == run[1..] + us;
      FullRun(run[1..], us);
    }
  }

  function Emitted(g: Option<Group>): seq<Group> {
    if g.Some? then [g.value] else []
  }

  // Everything the reducer hands out from state `s` on, `Finish` included.
  function Reduced(s: Reduction, rs: seq<Record>): seq<Group>
    decreases |rs|
  {
    if rs == [] then Emitted(Emit(s))
    else Emitted(Feed(s, rs[0]).1) + Reduced(Feed(s, rs[0]).0, rs[1..])
  }

  lemma {:induction false} PeelRun(run: seq<Record>, us: seq<Record>)
    requires run != [] && (forall i :: 0 <= i < |run| ==> Usable(run[i]) && run[i].host == run[0].host)
    requires forall i :: 0 <= i < |us| ==> Usable(us[i])
    requires us != [] ==> us[0].host != run[0].host
    ensures GroupsOf(run + us) == [Summarise(run)] + GroupsOf(us)
  {
    FullRun(run, us);
    assert (run + us)[..|run|] == run && (run + us)[|run|..] == us;
  }

  lemma {:induction false} RunEnds(s: Reduction, run: seq<Record>, rs: seq<Record>)
    requires Holds(s, run) && rs != [] && Usable(rs[0]) && rs[0].host != s.host
    requires Reduced(Feed(s, rs[0]).0, rs[1..]) == GroupsOf([rs[0]] + Filter(rs[1..]))
    ensures Reduced(s, rs) == GroupsOf(run + Filter(rs))
  {
    EmitIsSummary(s, run);
    FeedChange(s, rs[0]);
    PeelRun(run, Filter(rs));
  }

  lemma {:induction false} RunGoesOn(s: Reduction, run: seq<Record>, rs: seq<Record>)
    requires Holds(s, run) && rs != [] && Usable(rs[0]) && rs[0].host == s.host
    requires Reduced(Feed(s, rs[0]).0, rs[1..]) == GroupsOf(run + [rs[0]] + Filter(rs[1..]))
    ensures Reduced(s, rs) == GroupsOf(run + Filter(rs))
  {
    FeedSame(s, run, rs[0]);
    Assoc(run, [rs[0]], Filter(rs[1..]));
  }

  lemma {:induction false} ReducedFromRun(s: Reduction, run: seq<Record>, rs: seq<Record>)
    requires Holds(s, run)
    ensures Reduced(s, rs) == GroupsOf(run + Filter(rs))
    decreases |rs|
  {
    if rs == [] {
      EmitIsSummary(s, run);
      PeelRun(run, []);
    } else if !Usable(rs[0]) {
      ReducedFromRun(s, run, rs[1..]);
      assert Filter(rs) == Filter(rs[1..]);
    } else if rs[0].host == s.host {
      FeedSame(s, run, rs[0]);
      ReducedFromRun(Feed(s, rs[0]).0, run + [rs[0]], rs[1..]);
      RunGoesOn(s, run, rs);
    } else {
      FeedChange(s, rs[0]);
      ReducedFromRun(Feed(s, rs[0]).0, [rs[0]], rs[1..]);
      RunEnds(s, run, rs);
    }
  }

  // The reducer partitions the usable records into maximal same-host runs.
  lemma {:induction false} ReducerComputesGroups(rs: seq<Record>)
    ensures Reduced(FRESH, rs) == GroupsOf(Filter(rs))
    decreases |rs|
  {
    if rs != [] {
      if Usable(rs[0]) {
        FeedChange(FRESH, rs[0]);
        ReducedFromRun(Feed(FRESH, rs[0]).0, [rs[0]], rs[1..]);
      } else {
        ReducerComputesGroups(rs[1..]);
        assert Filter(rs) == Filter(rs[1..]);
      }
    }
  }

  // ----- what the groups attest

  // The record is direct evidence of the host in a target year.
  predicate Attests(r: Record, host: string, year: int) {
    r.host == Some(host) && r.year == Some(year) && 1996 <= year <= 2001 && year in r.directYears
  }

  ghost predicate Attested(rs: seq<Record>, host: string, year: int) {
    exists i :: 0 <= i < |rs| && Attests(rs[i], host, year)
  }

  ghost predicate InWitnesses(ws: seq<Witness>, host: string, year: int) {
    exists j :: 0 <= j < |ws| && ws[j].host == host && ws[j].year == year
  }

  ghost predicate Witnessed(gs: seq<Group>, host: string, year: int) {
    exists i :: 0 <= i < |gs| && InWitnesses(gs[i].witnesses, host, year)
  }

  lemma {:induction false} FirstOfFinds(run: seq<Record>, year: int)
    ensures FirstOf(run, year).Some? <==> exists i :: 0 <= i < |run| && run[i].year == Some(year)
  {
    if run != [] {
      FirstOfFinds(run[1..], year);
      if i :| 0 <= i < |run| && run[i].year == Some(year) {
        assert i > 0 ==> run[1..][i - 1] == run[i];
      }
    }
  }

  lemma {:induction false} RunWitnesses(run: seq<Record>, from: int, host: string, year: int)
    requires run != [] && forall i :: 0 <= i < |run| ==> Usable(run[i]) && run[i].host == run[0].host
    ensures InWitnesses(FirstWitnesses(run, from), host, year) <==>
              from <= year <= LAST_YEAR && run[0].host == Some(host) && FirstOf(run, year).Some?
    decreases LAST_YEAR - from + 1
  {
    if from <= LAST_YEAR {
      RunWitnesses(run, from + 1, host, year);
      FirstOfUsable(run, from);
      FirstIsOfRun(run, from);
      var first := FirstOf(run, from);
      var here := if first.Some? then [WitnessOf(first.value)] else [];
      if first.Some? {
        var i :| 0 <= i < |run| && run[i] == first.value;
        assert run[i].host == run[0].host;
        assert here[0].host == run[0].host.value && here[0].year == from;
      }
      assert FirstWitnesses(run, from) == here + FirstWitnesses(run, from + 1);
      WitnessesInTwo(here, FirstWitnesses(run, from + 1), host, year);
      hide FirstWitnesses;
    }
  }

  lemma WitnessesInTwo(a: seq<Witness>, b: seq<Witness>, host: string, year: int)
    ensures InWitnesses(a + b, host, year) <==> InWitnesses(a, host, year) || InWitnesses(b, host, year)
  {
    if j :| 0 <= j < |a| && a[j].host == host && a[j].year == year { assert (a + b)[j] == a[j]; }
    if j :| 0 <= j < |b| && b[j].host == host && b[j].year == year { assert (a + b)[|a| + j] == b[j]; }
  }

  lemma {:induction false} FirstIsOfRun(run: seq<Record>, year: int)
    ensures FirstOf(run, year).Some? ==> FirstOf(run, year).value in run
  {
    if run != [] { FirstIsOfRun(run[1..], year); }
  }

  lemma {:induction false} GroupsAttest(us: seq<Record>, host: string, year: int)
    requires forall i :: 0 <= i < |us| ==> Usable(us[i])
    ensures Witnessed(GroupsOf(us), host, year) <==> Attested(us, host, year)
    decreases |us|
  {
    if us != [] {
      var n := RunLength(us);
      var run, rest := us[..n], us[n..];
      GroupsAttest(rest, host, year);
      RunWitnesses(run, FIRST_YEAR, host, year);
      FirstOfFinds(run, year);
      var gs, later := GroupsOf(us), GroupsOf(rest);
      assert gs[0] == Summarise(run) && gs[1..] == later;
      InTwo(us, n, host, year);
      if Witnessed(later, host, year) {
        var i :| 0 <= i < |later| && InWitnesses(later[i].witnesses, host, year);
        assert gs[i + 1] == later[i];
      }
      if Witnessed(gs, host, year) {
        var i :| 0 <= i < |gs| && InWitnesses(gs[i].witnesses, host, year);
        assert i > 0 ==> later[i - 1] == gs[i];
      }
      assert Attested(run, host, year) <==> run[0].host == Some(host) && FirstOf(run, year).Some? by {
        RunAttests(run, host, year);
      }
      assert Witnessed(gs, host, year) <==> InWitnesses(gs[0].witnesses, host, year) || Witnessed(later, host, year);
    }
  }

  lemma RunAttests(run: seq<Record>, host: string, year: int)
    requires run != [] && forall i :: 0 <= i < |run| ==> Usable(run[i]) && run[i].host == run[0].host
    ensures Attested(run, host, year) <==> run[0].host == Some(host) && FirstOf(run, year).Some?
  {
    FirstOfFinds(run, year);
    if run[0].host == Some(host) && FirstOf(run, year).Some? {
      var i :| 0 <= i < |run| && run[i].year == Some(year);
      assert Usable(run[i]) && Attests(run[i], host, year);
    }
  }

  lemma InTwo(us: seq<Record>, n: nat, host: string, year: int)
    requires n <= |us|
    ensures Attested(us, host, year) <==> Attested(us[..n], host, year) || Attested(us[n..], host, year)
  {
    if i :| 0 <= i < |us| && Attests(us[i], host, year) {
      if i < n { assert us[..n][i] == us[i]; } else { assert us[n..][i - n] == us[i]; }
    }
    if i :| 0 <= i < |us[n..]| && Attests(us[n..][i], host, year) { assert us[n + i] == us[n..][i]; }
  }

  lemma {:induction false} FilterKeepsEvidence(rs: seq<Record>, host: string, year: int)
    ensures Attested(Filter(rs), host, year) <==> Attested(rs, host, year)
  {
    if rs != [] {
      FilterKeepsEvidence(rs[1..], host, year);
      InTwo(rs, 1, host, year);
      var all := Filter(rs);
      if Usable(rs[0]) {
        InTwo(all, 1, host, year);
        assert all[..1] == [rs[0]] == rs[..1] && all[1..] == Filter(rs[1..]);
      } else {
        assert all == Filter(rs[1..]) && !Attests(rs[0], host, year);
        assert !Attested(rs[..1], host, year);
      }
    }
  }

  // A host-year has a witness in the groups exactly when some record is direct
  // evidence of it: filtering, grouping and keeping only firsts lose nothing and
  // make nothing up.
  lemma {:induction false} WitnessedExactly(rs: seq<Record>, host: string, year: int)
    ensures Witnessed(Reduced(FRESH, rs), host, year) <==> Attested(rs, host, year)
  {
    ReducerComputesGroups(rs);
    GroupsAttest(Filter(rs), host, year);
    FilterKeepsEvidence(rs, host, year);
  }

  function Captures(gs: seq<Group>): nat {
    if gs == [] then 0 else gs[0].captures + Captures(gs[1..])
  }

  // Records that are direct evidence of something.
  function Evidence(rs: seq<Record>): nat {
    if rs == [] then 0
    else (if rs[0].host.Some? && rs[0].year.Some? && Attests(rs[0], rs[0].host.value, rs[0].year.value) then 1 else 0)
         + Evidence(rs[1..])
  }

  lemma {:induction false} GroupsCount(us: seq<Record>)
    requires forall i :: 0 <= i < |us| ==> Usable(us[i])
    ensures Captures(GroupsOf(us)) == |us|
    decreases |us|
  {
    if us != [] {
      GroupsCount(us[RunLength(us)..]);
      assert GroupsOf(us)[1..] == GroupsOf(us[RunLength(us)..]);
    }
  }

  lemma {:induction false} FilterCounts(rs: seq<Record>)
    ensures |Filter(rs)| == Evidence(rs)
  {
    if rs != [] { FilterCounts(rs[1..]); }
  }

  // Every capture that is direct evidence is counted in exactly one group.
  lemma {:induction false} CapturesConserved(rs: seq<Record>)
    ensures Captures(Reduced(FRESH, rs)) == Evidence(rs)
  {
    ReducerComputesGroups(rs);
    GroupsCount(Filter(rs));
    FilterCounts(rs);
  }
}
