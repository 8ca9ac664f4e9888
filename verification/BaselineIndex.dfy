// The resumable baseline index: six annual host lists and a candidate pool,
// imported in batches with a durable line offset per file.
module BaselineIndex {
  import opened Base
  import opened YearMask

  // The official normalizer: a host name, or nothing for an invalid line.
  type Normalizer = string -> Option<string>

  // The input files as lines. Their digests are collision-free by assumption,
  // so the metadata of an index keeps the files in place of the digests.
  datatype Files = Files(years: seq<seq<string>>, pool: seq<string>)

  predicate ValidFiles(f: Files) { |f.years| == YEARS }

  datatype Stage = Year(y: nat) | Pool

  predicate ValidStage(s: Stage) { s.Year? ==> s.y < YEARS }

  function Lines(f: Files, s: Stage): seq<string>
    requires ValidFiles(f) && ValidStage(s)
  {
    match s case Year(y) => f.years[y] case Pool => f.pool
  }

  datatype Progress = Progress(offset: nat, completed: bool)

  // The committed tables.
  datatype Tables = Tables(annual: map<string, bv8>, candidates: set<string>, stages: map<Stage, Progress>)

  const EMPTY := Tables(map[], {}, map[])

  function StageOf(t: Tables, s: Stage): Progress {
    if s in t.stages then t.stages[s] else Progress(0, false)
  }

  function MaskIn(annual: map<string, bv8>, h: string): bv8 {
    if h in annual then annual[h] else 0
  }

  // Some line of the list is this host.
  ghost predicate Listed(norm: Normalizer, lines: seq<string>, h: string) {
    exists i :: 0 <= i < |lines| && norm(lines[i]) == Some(h)
  }

  // The hosts of some lines, in order, as one batch holds them.
  function Hosts(norm: Normalizer, lines: seq<string>): seq<string> {
    if lines == [] then [] else
    var last := norm(lines[|lines| - 1]);
    Hosts(norm, lines[..|lines| - 1]) + (if last.Some? then [last.value] else [])
  }

  lemma {:induction false} HostsAreListed(norm: Normalizer, lines: seq<string>, h: string)
    ensures h in Hosts(norm, lines) <==> Listed(norm, lines, h)
  {
    if lines != [] {
      ListedSnoc(norm, lines[..|lines| - 1], lines[|lines| - 1], h);
      assert lines == lines[..|lines| - 1] + [lines[|lines| - 1]];
      HostsAreListed(norm, lines[..|lines| - 1], h);
    }
  }

  lemma ListedSnoc(norm: Normalizer, lines: seq<string>, line: string, h: string)
    ensures Listed(norm, lines + [line], h) <==> Listed(norm, lines, h) || norm(line) == Some(h)
  {
    ListedSplit(norm, lines, [line], h);
    assert [line][0] == line;
  }

  lemma ListedSplit(norm: Normalizer, a: seq<string>, b: seq<string>, h: string)
    ensures Listed(norm, a + b, h) <==> Listed(norm, a, h) || Listed(norm, b, h)
  {
    forall i | 0 <= i < |a| && norm(a[i]) == Some(h) ensures Listed(norm, a + b, h) { assert (a + b)[i] == a[i]; }
    forall i | 0 <= i < |b| && norm(b[i]) == Some(h) ensures Listed(norm, a + b, h) { assert (a + b)[|a| + i] == b[i]; }
  }

  // ----- what the tables say about the files

  predicate StageOk(f: Files, t: Tables, s: Stage)
    requires ValidFiles(f) && ValidStage(s)
  {
    && StageOf(t, s).offset <= |Lines(f, s)|
    && (StageOf(t, s).completed ==> StageOf(t, s).offset == |Lines(f, s)|)
  }

  function Imported(f: Files, t: Tables, s: Stage): seq<string>
    requires ValidFiles(f) && ValidStage(s) && StageOk(f, t, s)
  {
    Lines(f, s)[..StageOf(t, s).offset]
  }

  // The row of a host has exactly the bits of the years whose imported lines
  // list it, and there is a row only if there is such a year.
  ghost predicate AnnualOk(norm: Normalizer, f: Files, t: Tables)
    requires ValidFiles(f) && forall s :: ValidStage(s) ==> StageOk(f, t, s)
  {
    && (forall h :: h in t.annual ==> Proper(t.annual[h]) && t.annual[h] != 0)
    && forall h, y: nat :: y < YEARS ==> (Has(MaskIn(t.annual, h), y) <==> Listed(norm, Imported(f, t, Year(y)), h))
  }

  ghost predicate PoolOk(norm: Normalizer, f: Files, t: Tables)
    requires ValidFiles(f) && forall s :: ValidStage(s) ==> StageOk(f, t, s)
  {
    forall h :: h in t.candidates <==> Listed(norm, Imported(f, t, Pool), h)
  }

  ghost predicate Holds(norm: Normalizer, f: Files, t: Tables) {
    && ValidFiles(f) && (forall s :: ValidStage(s) ==> StageOk(f, t, s))
    && AnnualOk(norm, f, t) && PoolOk(norm, f, t)
  }

  ghost predicate AllDone(t: Tables) {
    forall s :: ValidStage(s) ==> StageOf(t, s).completed
  }

  // ----- one fold over the complete files, the reference

  ghost function FoldMask(norm: Normalizer, years: seq<seq<string>>, h: string, n: nat): bv8
    requires n <= |years| == YEARS
  {
    if n == 0 then 0 else FoldMask(norm, years, h, n - 1) | (if Listed(norm, years[n - 1], h) then Bit(n - 1) else 0)
  }

  lemma {:induction false} FoldHas(norm: Normalizer, years: seq<seq<string>>, h: string, n: nat, y: nat)
    requires n <= |years| == YEARS && y < YEARS
    ensures Proper(FoldMask(norm, years, h, n))
    ensures Has(FoldMask(norm, years, h, n), y) <==> y < n && Listed(norm, years[y], h)
  {
    if n == 0 {
      ZeroHasNone(y);
    } else {
      FoldHas(norm, years, h, n - 1, y);
      var before := FoldMask(norm, years, h, n - 1);
      OrAddsOneYear(before, n - 1, y);
      OrIsProper(before, n - 1);
      assert before | 0 == before;
    }
  }

  // A finished index gives every host the OR of the bits of exactly the years
  // that list it, and its candidates are exactly the hosts of the pool,
  // however often the build was cut short and with whatever batch sizes.
  lemma FinishedIsOneFold(norm: Normalizer, f: Files, t: Tables)
    requires Holds(norm, f, t) && AllDone(t)
    ensures forall h :: MaskIn(t.annual, h) == FoldMask(norm, f.years, h, YEARS)
    ensures forall h :: h in t.annual <==> exists y: nat :: y < YEARS && Listed(norm, f.years[y], h)
    ensures forall h :: h in t.candidates <==> Listed(norm, f.pool, h)
  {
    assert StageOf(t, Pool).completed && StageOk(f, t, Pool);
    assert Imported(f, t, Pool) == f.pool;
    forall h
      ensures MaskIn(t.annual, h) == FoldMask(norm, f.years, h, YEARS)
      ensures h in t.annual <==> exists y: nat :: y < YEARS && Listed(norm, f.years[y], h)
    {
      FinishedRow(norm, f, t, h);
    }
  }

  lemma FinishedRow(norm: Normalizer, f: Files, t: Tables, h: string)
    requires Holds(norm, f, t) && AllDone(t)
    ensures MaskIn(t.annual, h) == FoldMask(norm, f.years, h, YEARS)
    ensures h in t.annual <==> exists y: nat :: y < YEARS && Listed(norm, f.years[y], h)
  {
    var mask := MaskIn(t.annual, h);
    assert Proper(mask) by { ZeroHasNone(0); }
    forall y: nat | y < YEARS
      ensures Has(mask, y) <==> Listed(norm, f.years[y], h)
      ensures Has(mask, y) <==> Has(FoldMask(norm, f.years, h, YEARS), y)
    {
      assert StageOf(t, Year(y)).completed && StageOk(f, t, Year(y));
      assert Imported(f, t, Year(y)) == f.years[y];
      FoldHas(norm, f.years, h, YEARS, y);
    }
    FoldHas(norm, f.years, h, YEARS, 0);
    SameYears(mask, FoldMask(norm, f.years, h, YEARS));
    if h in t.annual {
      if forall y: nat :: y < YEARS ==> !Has(mask, y) {
        forall y: nat | y < YEARS ensures !Has(0, y) { ZeroHasNone(y); }
        ZeroHasNone(0);
        SameYears(mask, 0);
      }
    } else {
      forall y: nat | y < YEARS ensures !Has(mask, y) { ZeroHasNone(y); }
    }
  }

  // ----- how many commits a build makes

  // Commits that importing the rest of a file takes: one per full batch of hosts
  // and one that completes it.
  function CommitsFor(norm: Normalizer, f: Files, t: Tables, s: Stage, batchSize: nat): nat
    requires ValidFiles(f) && ValidStage(s) && StageOf(t, s).offset <= |Lines(f, s)| && batchSize >= 1
  {
    if StageOf(t, s).completed then 0
    else |Hosts(norm, Lines(f, s)[StageOf(t, s).offset..])| / batchSize + 1
  }

  function CommitsForYears(norm: Normalizer, f: Files, t: Tables, n: nat, batchSize: nat): nat
    requires ValidFiles(f) && n <= YEARS && batchSize >= 1 && forall s :: ValidStage(s) ==> StageOk(f, t, s)
  {
    if n == 0 then 0 else
    assert StageOk(f, t, Year(n - 1));
    CommitsForYears(norm, f, t, n - 1, batchSize) + CommitsFor(norm, f, t, Year(n - 1), batchSize)
  }

  // All of a build: the metadata, the six years and the pool.
  function CommitsToFinish(norm: Normalizer, f: Files, t: Tables, batchSize: nat): nat
    requires ValidFiles(f) && batchSize >= 1 && forall s :: ValidStage(s) ==> StageOk(f, t, s)
  {
    assert StageOk(f, t, Pool);
    1 + CommitsForYears(norm, f, t, YEARS, batchSize) + CommitsFor(norm, f, t, Pool, batchSize)
  }

  lemma SameNeed(norm: Normalizer, f: Files, t: Tables, t': Tables, s: Stage, batchSize: nat)
    requires ValidFiles(f) && ValidStage(s) && batchSize >= 1 && StageOk(f, t, s) && StageOf(t', s) == StageOf(t, s)
    ensures CommitsFor(norm, f, t', s, batchSize) == CommitsFor(norm, f, t, s, batchSize)
  {
  }

  lemma {:induction false} YearsGrow(norm: Normalizer, f: Files, t: Tables, n: nat, m: nat, batchSize: nat)
    requires ValidFiles(f) && n <= m <= YEARS && batchSize >= 1 && forall s :: ValidStage(s) ==> StageOk(f, t, s)
    ensures CommitsForYears(norm, f, t, n, batchSize) <= CommitsForYears(norm, f, t, m, batchSize)
  {
    if n < m { YearsGrow(norm, f, t, n, m - 1, batchSize); }
  }

  lemma {:induction false} HostsSplit(norm: Normalizer, a: seq<string>, b: seq<string>)
    ensures Hosts(norm, a + b) == Hosts(norm, a) + Hosts(norm, b)
  {
    if b == [] {
      assert a + b == a;
    } else {
      var n := |b| - 1;
      assert (a + b)[..|a| + n] == a + b[..n] && (a + b)[|a| + n] == b[n];
      HostsSplit(norm, a, b[..n]);
      var last := if norm(b[n]).Some? then [norm(b[n]).value] else [];
      Assoc(Hosts(norm, a), Hosts(norm, b[..n]), last);
    }
  }

  // Hosts of a stretch of lines, in two parts.
  lemma HostsOfStretch(norm: Normalizer, lines: seq<string>, i: nat, j: nat, k: nat)
    requires i <= j <= k <= |lines|
    ensures |Hosts(norm, lines[i..k])| == |Hosts(norm, lines[i..j])| + |Hosts(norm, lines[j..k])|
  {
    assert lines[i..k] == lines[i..j] + lines[j..k];
    HostsSplit(norm, lines[i..j], lines[j..k]);
  }

  lemma OneMoreLine(norm: Normalizer, lines: seq<string>, from: nat, current: nat)
    requires from <= current < |lines|
    ensures Hosts(norm, lines[from..current + 1])
            == Hosts(norm, lines[from..current]) + if norm(lines[current]).Some? then [norm(lines[current]).value] else []
  {
    assert lines[from..current + 1][..current - from] == lines[from..current];
  }

  lemma NoLines(norm: Normalizer, lines: seq<string>, at: nat)
    requires at <= |lines|
    ensures Hosts(norm, lines[at..at]) == []
  {
  }

  lemma FullBatches(n: nat, made: nat, batchSize: nat, rest: nat)
    requires n == made * batchSize + rest && rest < batchSize
    ensures n / batchSize == made
  {
    var q := n / batchSize;
    if q < made { Times(q + 1, made, batchSize); }
    if q > made { Times(made + 1, q, batchSize); OneMoreFull(made, batchSize); }
  }

  lemma OneMoreFull(made: nat, batchSize: nat)
    ensures (made + 1) * batchSize == made * batchSize + batchSize
  {
  }

  // A batch more than `made` full ones is needed when so many hosts are there.
  lemma NotEnough(n: nat, made: nat, batchSize: nat)
    requires batchSize >= 1 && n >= (made + 1) * batchSize
    ensures made < n / batchSize + 1
  {
  }

  lemma Times(a: nat, b: nat, c: nat)
    requires a <= b
    ensures a * c <= b * c
  {
  }

  // ----- one committed batch

  // The annual table after a batch of one bit.
  ghost predicate RowsAdded(before: map<string, bv8>, after: map<string, bv8>, hosts: seq<string>, bit: bv8) {
    && (forall h :: h in after <==> h in before || h in hosts)
    && forall h :: h in after ==> after[h] == (if h in hosts then MaskIn(before, h) | bit else MaskIn(before, h))
  }

  ghost predicate YearAdded(before: map<string, bv8>, after: map<string, bv8>, hosts: seq<string>, y: nat)
    requires y < YEARS
  {
    RowsAdded(before, after, hosts, Bit(y))
  }

  lemma YearRow(before: map<string, bv8>, after: map<string, bv8>, hosts: seq<string>, y: nat, h: string, z: nat)
    requires y < YEARS && z < YEARS && YearAdded(before, after, hosts, y)
    ensures Has(MaskIn(after, h), z) <==> Has(MaskIn(before, h), z) || (z == y && h in hosts)
  {
    OrAddsOneYear(MaskIn(before, h), y, z);
  }

  lemma YearProper(before: map<string, bv8>, after: map<string, bv8>, hosts: seq<string>, y: nat, h: string)
    requires y < YEARS && YearAdded(before, after, hosts, y) && h in after
    requires forall h :: h in before ==> Proper(before[h]) && before[h] != 0
    ensures Proper(after[h]) && after[h] != 0
  {
  }

  lemma YearCommitted(norm: Normalizer, f: Files, t: Tables, t': Tables, y: nat, hosts: seq<string>)
    requires Holds(norm, f, t) && y < YEARS
    requires t'.candidates == t.candidates && YearAdded(t.annual, t'.annual, hosts, y)
    requires t'.stages == t.stages[Year(y) := StageOf(t', Year(y))] && StageOk(f, t', Year(y))
    requires forall h :: Listed(norm, Lines(f, Year(y))[..StageOf(t', Year(y)).offset], h)
                         <==> Listed(norm, Imported(f, t, Year(y)), h) || h in hosts
    ensures Holds(norm, f, t')
  {
    hide Has, Proper, YearAdded, Listed;
    forall s | ValidStage(s) ensures StageOk(f, t', s) && (s != Year(y) ==> Imported(f, t', s) == Imported(f, t, s)) {
      assert StageOk(f, t, s);
      assert s != Year(y) ==> StageOf(t', s) == StageOf(t, s);
    }
    forall h, z: nat | z < YEARS
      ensures Has(MaskIn(t'.annual, h), z) <==> Listed(norm, Imported(f, t', Year(z)), h)
    {
      YearRow(t.annual, t'.annual, hosts, y, h, z);
    }
    forall h | h in t'.annual ensures Proper(t'.annual[h]) && t'.annual[h] != 0 {
      YearProper(t.annual, t'.annual, hosts, y, h);
    }
  }

  lemma PoolCommitted(norm: Normalizer, f: Files, t: Tables, t': Tables, hosts: seq<string>)
    requires Holds(norm, f, t)
    requires t'.annual == t.annual && (forall h :: h in t'.candidates <==> h in t.candidates || h in hosts)
    requires t'.stages == t.stages[Pool := StageOf(t', Pool)] && StageOk(f, t', Pool)
    requires forall h :: Listed(norm, Lines(f, Pool)[..StageOf(t', Pool).offset], h)
                         <==> Listed(norm, Imported(f, t, Pool), h) || h in hosts
    ensures Holds(norm, f, t')
  {
  }

  lemma BatchIsListed(norm: Normalizer, lines: seq<string>, from: nat, to: nat)
    requires from <= to <= |lines|
    ensures forall h :: Listed(norm, lines[..to], h) <==> Listed(norm, lines[..from], h) || h in Hosts(norm, lines[from..to])
  {
    forall h ensures Listed(norm, lines[..to], h) <==> Listed(norm, lines[..from], h) || h in Hosts(norm, lines[from..to]) {
      assert lines[..to] == lines[..from] + lines[from..to];
      ListedSplit(norm, lines[..from], lines[from..to], h);
      HostsAreListed(norm, lines[from..to], h);
    }
  }

  // ----- the object

  datatype Refusal = BadBatchSize | WouldMutate | AuthorityMismatch | UnboundData

  // `Crashed` is a process that died before its next commit.
  datatype Outcome = Finished | Crashed | Refused(reason: Refusal)

  class BaselineIndex {
    const norm: Normalizer
    var metadata: Option<Files>
    var tables: Tables
    // The output file exists and is not empty.
    var present: bool

    constructor (norm: Normalizer)
      ensures this.norm == norm && metadata.None? && tables == EMPTY && !present && Sound()
    {
      this.norm := norm;
      metadata, tables, present := None, EMPTY, false;
    }

    // Whatever is committed is a faithful part of the files the index is bound to.
    ghost predicate Sound()
      reads this
    {
      metadata.Some? ==> Holds(norm, metadata.value, tables)
    }

    // executemany with `year_mask | excluded.year_mask` on conflict.
    method InsertAnnual(hosts: seq<string>, y: nat) returns (after: map<string, bv8>)
      requires y < YEARS
      ensures YearAdded(tables.annual, after, hosts, y)
    {
      after := tables.annual;
      for i := 0 to |hosts|
        invariant YearAdded(tables.annual, after, hosts[..i], y)
      {
        var h := hosts[i];
        assert hosts[..i + 1] == hosts[..i] + [h];
        RowsAddedOne(tables.annual, after, hosts[..i], Bit(y), h);
        after := after[h := MaskIn(after, h) | Bit(y)];
      }
      assert hosts[..|hosts|] == hosts;
    }

    // executemany with INSERT OR IGNORE.
    method InsertCandidates(hosts: seq<string>) returns (after: set<string>)
      ensures forall h :: h in after <==> h in tables.candidates || h in hosts
    {
      after := tables.candidates;
      for i := 0 to |hosts|
        invariant forall h :: h in after <==> h in tables.candidates || h in hosts[..i]
      {
        after := after + {hosts[i]};
      }
      assert hosts[..|hosts|] == hosts;
    }

    // The rows of one batch and the line offset behind them become durable
    // together, or not at all.
    method Commit(f: Files, s: Stage, hosts: seq<string>, offset: nat, completed: bool)
      requires metadata == Some(f) && Sound() && ValidStage(s)
      requires StageOf(tables, s).offset <= offset <= |Lines(f, s)| && (completed ==> offset == |Lines(f, s)|)
      requires hosts == Hosts(norm, Lines(f, s)[StageOf(tables, s).offset..offset])
      modifies `tables
      ensures Sound() && tables.stages == old(tables.stages)[s := Progress(offset, completed)]
    {
      BatchIsListed(norm, Lines(f, s), StageOf(tables, s).offset, offset);
      var stages := tables.stages[s := Progress(offset, completed)];
      ghost var before := tables;
      match s
      case Year(y) =>
        var annual := InsertAnnual(hosts, y);
        tables := Tables(annual, tables.candidates, stages);
        YearCommitted(norm, f, before, tables, y, hosts);
      case Pool =>
        var candidates := InsertCandidates(hosts);
        tables := Tables(tables.annual, candidates, stages);
        PoolCommitted(norm, f, before, tables, hosts);
    }

    // `budget` is how many commits the process lives to make. A process that
    // dies has committed that many full batches and lost less than another.
    method ImportFile(f: Files, s: Stage, batchSize: nat, budget: nat) returns (alive: bool, left: nat)
      requires metadata == Some(f) && Sound() && ValidStage(s) && batchSize >= 1
      modifies `tables
      ensures Sound() && left <= budget && (!alive ==> left == 0)
      ensures alive ==> StageOf(tables, s).completed
      ensures forall u :: ValidStage(u) && u != s ==> StageOf(tables, u) == StageOf(old(tables), u)
      ensures StageOf(old(tables), s).offset <= StageOf(tables, s).offset <= |Lines(f, s)|
      ensures var need := CommitsFor(norm, f, old(tables), s, batchSize);
              (alive <==> need <= budget) && (alive ==> left == budget - need)
      ensures !alive ==>
                |Hosts(norm, Lines(f, s)[StageOf(old(tables), s).offset..StageOf(tables, s).offset])| == budget * batchSize
    {
      hide AnnualOk, PoolOk, Hosts;
      left := budget;
      assert StageOk(f, tables, s);
      if StageOf(tables, s).completed {
        return true, left;
      }
      var lines := Lines(f, s);
      var current := StageOf(tables, s).offset;
      ghost var first, made := current, 0;
      var batch: seq<string> := [];
      NoLines(norm, lines, current);
      while current < |lines|
        invariant metadata == Some(f) && Sound() && left + made == budget
        invariant StageOf(old(tables), s).offset == first <= StageOf(tables, s).offset <= current <= |lines|
        invariant batch == Hosts(norm, lines[StageOf(tables, s).offset..current]) && |batch| < batchSize
        invariant |Hosts(norm, lines[first..StageOf(tables, s).offset])| == made * batchSize
        invariant forall u :: ValidStage(u) && u != s ==> StageOf(tables, u) == StageOf(old(tables), u)
        decreases |lines| - current
      {
        ghost var from := StageOf(tables, s).offset;
        OneMoreLine(norm, lines, from, current);
        var value := norm(lines[current]);
        current := current + 1;
        if value.Some? {
          batch := batch + [value.value];
        }
        if |batch| >= batchSize {
          HostsOfStretch(norm, lines, first, from, current);
          OneMoreFull(made, batchSize);
          if left == 0 {
            HostsOfStretch(norm, lines, first, current, |lines|);
            assert lines[first..|lines|] == lines[first..];
            NotEnough(|Hosts(norm, lines[first..])|, made, batchSize);
            return false, left;
          }
          Commit(f, s, batch, current, false);
          left := left - 1;
          made := made + 1;
          batch := [];
          NoLines(norm, lines, current);
        }
      }
      HostsOfStretch(norm, lines, first, StageOf(tables, s).offset, current);
      assert lines[first..current] == lines[first..];
      FullBatches(|Hosts(norm, lines[first..])|, made, batchSize, |batch|);
      if left == 0 {
        return false, left;
      }
      Commit(f, s, batch, current, true);
      left := left - 1;
      return true, left;
    }

    // The six years, then the pool.
    method ImportAll(f: Files, batchSize: nat, budget: nat) returns (alive: bool)
      requires metadata == Some(f) && Sound() && batchSize >= 1
      modifies `tables
      ensures Sound() && (alive ==> AllDone(tables))
      ensures forall s :: ValidStage(s) ==> StageOf(old(tables), s).offset <= StageOf(tables, s).offset
      ensures alive <==> CommitsToFinish(norm, f, old(tables), batchSize) <= budget + 1
    {
      hide AnnualOk, PoolOk, CommitsFor, Hosts;
      var left: nat := budget;
      for y := 0 to YEARS
        invariant Sound()
        invariant forall z: nat :: z < y ==> StageOf(tables, Year(z)).completed
        invariant forall s :: ValidStage(s) ==> StageOf(old(tables), s).offset <= StageOf(tables, s).offset
        invariant forall s :: ValidStage(s) && (s.Year? ==> s.y >= y) ==> StageOf(tables, s) == StageOf(old(tables), s)
        invariant left + CommitsForYears(norm, f, old(tables), y, batchSize) == budget
      {
        SameNeed(norm, f, old(tables), tables, Year(y), batchSize);
        YearsGrow(norm, f, old(tables), y + 1, YEARS, batchSize);
        alive, left := ImportFile(f, Year(y), batchSize, left);
        if !alive {
          return;
        }
      }
      SameNeed(norm, f, old(tables), tables, Pool, batchSize);
      alive, left := ImportFile(f, Pool, batchSize, left);
    }

    // Build or resume. A refusal or a crash leaves a sound index, and only a
    // finished build reports success.
    method Build(f: Files, batchSize: int, resume: bool, budget: nat) returns (outcome: Outcome)
      requires ValidFiles(f) && Sound()
      modifies this
      ensures Sound()
      ensures outcome.Finished? ==> metadata == Some(f) && AllDone(tables)
      ensures outcome.Crashed? ==> old(metadata).None? || old(metadata) == Some(f)
      ensures outcome.Refused? ==> metadata == old(metadata) && tables == old(tables)
      ensures outcome == Refused(BadBatchSize) <==> batchSize < 1
      ensures outcome == Refused(WouldMutate) <==> batchSize >= 1 && !resume && old(present)
      ensures outcome == Refused(AuthorityMismatch) <==>
                batchSize >= 1 && (resume || !old(present)) && old(metadata).Some? && old(metadata) != Some(f)
      ensures outcome == Refused(UnboundData) <==>
                batchSize >= 1 && (resume || !old(present)) && old(metadata).None? && old(tables) != EMPTY
      ensures forall s :: ValidStage(s) ==> StageOf(old(tables), s).offset <= StageOf(tables, s).offset
      ensures !outcome.Refused? ==>
                && batchSize >= 1 && (forall s :: ValidStage(s) ==> StageOk(f, old(tables), s))
                && (outcome == Finished <==> CommitsToFinish(norm, f, old(tables), batchSize) <= budget)
    {
      hide AnnualOk, PoolOk;
      if batchSize < 1 {
        return Refused(BadBatchSize);
      }
      if !resume && present {
        return Refused(WouldMutate);
      }
      present := true;
      var hasWork := tables != EMPTY;
      if metadata.Some? {
        if metadata.value != f {
          return Refused(AuthorityMismatch);
        }
      } else if hasWork {
        return Refused(UnboundData);
      }
      var left := budget;
      EmptyHolds(norm, f);
      if left == 0 {
        return Crashed;
      }
      metadata := Some(f);
      var alive := ImportAll(f, batchSize, left - 1);
      return if alive then Finished else Crashed;
    }

    // ----- lookups

    function YearMaskOf(raw: string): bv8
      reads this
    {
      var value := norm(raw);
      if value.None? then 0 else MaskIn(tables.annual, value.value)
    }

    function IsOfficialCandidate(raw: string): bool
      reads this
    {
      var value := norm(raw);
      value.Some? && value.value in tables.candidates
    }

    // Every answer is the scalar answer to the input it came from, and every
    // valid input has one.
    ghost predicate Answers(raws: seq<string>, answers: map<string, (bv8, bool)>)
      reads this
    {
      && (forall i :: 0 <= i < |raws| && norm(raws[i]).Some? ==>
            && norm(raws[i]).value in answers
            && answers[norm(raws[i]).value] == (YearMaskOf(raws[i]), IsOfficialCandidate(raws[i])))
      && forall h :: h in answers ==> Listed(norm, raws, h)
    }

    method Distinct(raws: seq<string>) returns (normalized: seq<string>)
      ensures forall h :: h in normalized <==> Listed(norm, raws, h)
      ensures forall i, j :: 0 <= i < j < |normalized| ==> normalized[i] != normalized[j]
    {
      normalized := [];
      var seen: set<string> := {};
      for i := 0 to |raws|
        invariant forall h :: h in normalized <==> Listed(norm, raws[..i], h)
        invariant forall h :: h in seen <==> h in normalized
        invariant forall i, j :: 0 <= i < j < |normalized| ==> normalized[i] != normalized[j]
      {
        var value := norm(raws[i]);
        assert raws[..i + 1] == raws[..i] + [raws[i]];
        forall h ensures Listed(norm, raws[..i + 1], h) <==> Listed(norm, raws[..i], h) || value == Some(h) {
          ListedSnoc(norm, raws[..i], raws[i], h);
        }
        if value.Some? && value.value !in seen {
          seen := seen + {value.value};
          normalized := normalized + [value.value];
        }
      }
      assert raws[..|raws|] == raws;
    }

    function Row(h: string): (bv8, bool)
      reads this
    {
      (MaskIn(tables.annual, h), h in tables.candidates)
    }

    // Two queries for one chunk, joined by host.
    method ResolveChunk(batch: seq<string>) returns (found: map<string, (bv8, bool)>)
      ensures forall h :: h in found <==> h in batch
      ensures forall h :: h in found ==> found[h] == Row(h)
    {
      var annual := map h | h in batch && h in tables.annual :: tables.annual[h];
      var candidates := set h | h in batch && h in tables.candidates;
      found := map h | h in batch :: (if h in annual then annual[h] else 0, h in candidates);
    }

    method ResolveBatch(raws: seq<string>, chunkSize: int) returns (answers: Option<map<string, (bv8, bool)>>)
      ensures answers.None? <==> !(1 <= chunkSize <= 900)
      ensures answers.Some? ==> Answers(raws, answers.value)
    {
      if !(1 <= chunkSize <= 900) {
        return None;
      }
      var normalized := Distinct(raws);
      var result: map<string, (bv8, bool)> := map[];
      var start := 0;
      while start < |normalized|
        invariant 0 <= start <= |normalized|
        invariant forall h :: h in result <==> h in normalized[..start]
        invariant forall h :: h in result ==> result[h] == Row(h)
        decreases |normalized| - start
      {
        var end := if start + chunkSize < |normalized| then start + chunkSize else |normalized|;
        var found := ResolveChunk(normalized[start..end]);
        InTwoParts(normalized, start, end);
        result := result + found;
        start := end;
      }
      assert normalized[..|normalized|] == normalized;
      AnswersByRow(raws, result);
      return Some(result);
    }

    lemma AnswersByRow(raws: seq<string>, result: map<string, (bv8, bool)>)
      requires forall h :: h in result <==> Listed(norm, raws, h)
      requires forall h :: h in result ==> result[h] == Row(h)
      ensures Answers(raws, result)
    {
    }

    // The batches a generator yields, in order: one for each stretch of
    // `inputBatchSize` inputs (the last may be shorter) that holds a valid input.
    method IterResolveBatches(raws: seq<string>, inputBatchSize: int, chunkSize: int)
      returns (yielded: Option<seq<map<string, (bv8, bool)>>>, ghost stretches: seq<seq<string>>)
      ensures yielded.None? <==> inputBatchSize < 1 || (raws != [] && !(1 <= chunkSize <= 900))
      ensures yielded.Some? ==> Answers(raws, Union(yielded.value)) && forall k :: 0 <= k < |yielded.value| ==> yielded.value[k] != map[]
      ensures yielded.Some? ==> Cut(raws, inputBatchSize, stretches) && Served(stretches, yielded.value)
    {
      stretches := [];
      if inputBatchSize < 1 {
        return None, stretches;
      }
      NothingYet(raws, inputBatchSize);
      hide Answers, SoFar, Served, Cut, Union;
      var out: seq<map<string, (bv8, bool)>> := [];
      var at := 0;
      while at < |raws|
        invariant 0 <= at <= |raws| && (at > 0 ==> 1 <= chunkSize <= 900)
        invariant SoFar(raws, at, inputBatchSize, stretches, out)
        decreases |raws| - at
      {
        var end := if at + inputBatchSize < |raws| then at + inputBatchSize else |raws|;
        var resolved := ResolveBatch(raws[at..end], chunkSize);
        if resolved.None? {
          return None, stretches;
        }
        OneMoreStretch(raws, at, end, inputBatchSize, stretches, out, resolved.value);
        stretches := stretches + [raws[at..end]];
        if resolved.value != map[] {
          out := out + [resolved.value];
        }
        at := end;
      }
      AllServed(raws, inputBatchSize, stretches, out);
      return Some(out), stretches;
    }

    // The inputs before `at` have been cut, served and answered.
    ghost predicate SoFar(raws: seq<string>, at: nat, size: int, stretches: seq<seq<string>>, out: seq<map<string, (bv8, bool)>>)
      requires at <= |raws|
      reads this
    {
      && Answers(raws[..at], Union(out)) && Served(stretches, out) && CutSoFar(raws, at, size, stretches)
      && forall k :: 0 <= k < |out| ==> out[k] != map[]
    }

    lemma NothingYet(raws: seq<string>, size: int)
      ensures SoFar(raws, 0, size, [], [])
    {
      NothingCut(raws, size);
      assert raws[..0] == [] && Answers([], Union([]));
    }

    lemma OneMoreStretch(raws: seq<string>, at: nat, end: nat, size: int, stretches: seq<seq<string>>,
                         out: seq<map<string, (bv8, bool)>>, m: map<string, (bv8, bool)>)
      requires size >= 1 && at < |raws| && SoFar(raws, at, size, stretches, out)
      requires end == (if at + size < |raws| then at + size else |raws|) && Answers(raws[at..end], m)
      ensures SoFar(raws, end, size, stretches + [raws[at..end]], if m != map[] then out + [m] else out)
    {
      hide Answers, Union, Served, CutSoFar;
      AnswersUpTo(raws, at, end, Union(out), m);
      OneMoreServed(stretches, out, raws[at..end], m);
      OneMoreCut(raws, size, stretches, at, end);
      UnionSnoc(out, m);
    }

    lemma AllServed(raws: seq<string>, size: int, stretches: seq<seq<string>>, out: seq<map<string, (bv8, bool)>>)
      requires SoFar(raws, |raws|, size, stretches, out)
      ensures Answers(raws, Union(out)) && Cut(raws, size, stretches) && Served(stretches, out)
      ensures forall k :: 0 <= k < |out| ==> out[k] != map[]
    {
      AllCut(raws, size, stretches);
      hide Answers, Cut, Served, Union;
    }

    // Each stretch in turn is answered, or holds no valid input and is passed over.
    ghost predicate Served(stretches: seq<seq<string>>, yielded: seq<map<string, (bv8, bool)>>)
      reads this
    {
      if stretches == [] then yielded == [] else
      var front, last := stretches[..|stretches| - 1], stretches[|stretches| - 1];
      if forall h :: !Listed(norm, last, h) then Served(front, yielded)
      else yielded != [] && Answers(last, yielded[|yielded| - 1]) && Served(front, yielded[..|yielded| - 1])
    }

    lemma OneMoreServed(stretches: seq<seq<string>>, out: seq<map<string, (bv8, bool)>>, last: seq<string>, m: map<string, (bv8, bool)>)
      requires Served(stretches, out) && Answers(last, m)
      ensures Served(stretches + [last], if m != map[] then out + [m] else out)
    {
      assert (stretches + [last])[..|stretches|] == stretches && (out + [m])[..|out|] == out;
      if h :| h in m { assert Listed(norm, last, h); }
    }

    lemma AnswersUpTo(raws: seq<string>, at: nat, end: nat, m: map<string, (bv8, bool)>, m': map<string, (bv8, bool)>)
      requires at <= end <= |raws| && Answers(raws[..at], m) && Answers(raws[at..end], m')
      ensures Answers(raws[..end], m + m')
      ensures m' == map[] ==> m + m' == m
    {
      assert raws[..end] == raws[..at] + raws[at..end];
      AnswersJoin(raws[..at], raws[at..end], m, m');
    }

    lemma AnswersJoin(a: seq<string>, b: seq<string>, m: map<string, (bv8, bool)>, m': map<string, (bv8, bool)>)
      requires Answers(a, m) && Answers(b, m')
      ensures Answers(a + b, m + m')
      ensures m' == map[] ==> m + m' == m
    {
      forall h | h in m + m' ensures Listed(norm, a + b, h) {
        ListedSplit(norm, a, b, h);
      }
    }
  }

  function Concat(parts: seq<seq<string>>): seq<string> {
    if parts == [] then [] else Concat(parts[..|parts| - 1]) + parts[|parts| - 1]
  }

  // The inputs cut into stretches of one size, the last as long as is left.
  predicate Cut(raws: seq<string>, size: int, parts: seq<seq<string>>) {
    && Concat(parts) == raws
    && forall k :: 0 <= k < |parts| ==> 0 < |parts[k]| <= size && (k < |parts| - 1 ==> |parts[k]| == size)
  }

  predicate CutSoFar(raws: seq<string>, at: nat, size: int, parts: seq<seq<string>>)
    requires at <= |raws|
  {
    Cut(raws[..at], size, parts) && (at < |raws| ==> forall k :: 0 <= k < |parts| ==> |parts[k]| == size)
  }

  lemma NothingCut(raws: seq<string>, size: int)
    ensures CutSoFar(raws, 0, size, [])
  {
  }

  lemma AllCut(raws: seq<string>, size: int, parts: seq<seq<string>>)
    requires CutSoFar(raws, |raws|, size, parts)
    ensures Cut(raws, size, parts) && raws[..|raws|] == raws
  {
    assert raws[..|raws|] == raws;
  }

  lemma OneMoreCut(raws: seq<string>, size: int, parts: seq<seq<string>>, at: nat, end: nat)
    requires size >= 1 && at < |raws| && CutSoFar(raws, at, size, parts)
    requires end == if at + size < |raws| then at + size else |raws|
    ensures CutSoFar(raws, end, size, parts + [raws[at..end]])
  {
    assert (parts + [raws[at..end]])[..|parts|] == parts;
    assert raws[..end] == raws[..at] + raws[at..end];
  }

  lemma InTwoParts(s: seq<string>, i: nat, j: nat)
    requires i <= j <= |s|
    ensures forall h :: h in s[..j] <==> h in s[..i] || h in s[i..j]
  {
  }

  function Union(ms: seq<map<string, (bv8, bool)>>): map<string, (bv8, bool)> {
    if ms == [] then map[] else Union(ms[..|ms| - 1]) + ms[|ms| - 1]
  }

  lemma UnionSnoc(ms: seq<map<string, (bv8, bool)>>, m: map<string, (bv8, bool)>)
    ensures Union(ms + [m]) == Union(ms) + m
  {
  }

  lemma RowsAddedOne(before: map<string, bv8>, after: map<string, bv8>, hosts: seq<string>, bit: bv8, h: string)
    requires RowsAdded(before, after, hosts, bit)
    ensures RowsAdded(before, after[h := MaskIn(after, h) | bit], hosts + [h], bit)
  {
    OrTwice(MaskIn(before, h), bit);
  }

  lemma OrTwice(mask: bv8, bit: bv8)
    ensures mask | bit | bit == mask | bit
  {
  }

  lemma EmptyHolds(norm: Normalizer, f: Files)
    requires ValidFiles(f)
    ensures Holds(norm, f, EMPTY)
  {
  }
}
