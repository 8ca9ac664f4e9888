// What each operation on leases and results answers and leaves behind, in the
// terms of the rows themselves.
module LeaseAnswers {
  import opened Base
  import opened Wire
  import opened LeaseTables
  import opened Runs
  import opened RunInvariant
  import opened LeaseSafety

  // ----- vocabulary of the rows

  // The row is leased to this incarnation and the lease has not run out.
  predicate LeasedTo(row: WorkRow, worker: Id, instance: Id, now: real) {
    match row
    case WorkRow(_, _, Leased, Some(owner), Some(incarnation), _, Some(deadline), _, _, _, _, _, _) =>
      owner == worker && incarnation == instance && now < deadline
    case _ => false
  }

  predicate OwnsNow(l: Ledger, t: Id, worker: Id, instance: Id, generation: nat, now: real) {
    t in l.work && LeasedTo(l.work[t], worker, instance, now) && l.work[t].generation == generation
  }

  predicate KnownWorker(l: Ledger, worker: Id, instance: Id) {
    worker in l.workers && l.workers[worker].instance == instance && !l.workers[worker].revoked
  }

  // Nobody holds the row, it is due, and an attempt is left.
  predicate Takeable(row: WorkRow, now: real) {
    && (row.state == Pending || row.state == Retry
        || (row.state == Leased && row.deadline.Some? && !(now < row.deadline.value)))
    && !(now < row.work.notBefore) && row.attempt + 1 <= row.work.maxAttempts
  }

  // The worker has every capability and provider the work names, and its list
  // of producers is empty or names this one.
  predicate Suits(d: WorkDefinition, worker: Worker) {
    && (forall i :: 0 <= i < |d.requiredCapabilities| ==> d.requiredCapabilities[i] in worker.capabilities)
    && (forall i :: 0 <= i < |d.requiredProviders| ==> d.requiredProviders[i] in worker.providers)
    && (worker.producers != {} ==> d.producer in worker.producers)
  }

  // Nothing but these two changed hands: what the work has achieved is kept.
  predicate SameProgress(row: WorkRow, row': WorkRow) {
    && row'.key == row.key && row'.work == row.work && row'.generation == row.generation && row'.attempt == row.attempt
    && row'.cursor == row.cursor && row'.nextSeq == row.nextSeq && row'.lastError == row.lastError
    && row'.createdAt == row.createdAt
  }

  predicate Unheld(row: WorkRow) {
    row.owner.None? && row.instance.None? && row.deadline.None?
  }

  predicate OthersKept(l: Ledger, l': Ledger, t: Id) {
    l'.work.Keys == l.work.Keys && forall u :: u in l.work && u != t ==> l'.work[u] == l.work[u]
  }

  // ----- workers

  // Registering replaces the worker and takes exactly the leases of its other
  // incarnations away.
  lemma RegisterAnswers(l: Ledger, worker: Id, d: Worker, protocol: string, now: real)
    ensures var tx := RegisterWorker(l, worker, d, protocol, now);
            if protocol != "creeper-fabric-v2" then tx == Tx(l, Err(ProtocolMismatch))
            else
              && tx.reply == Ok(()) && tx.ledger.batches == l.batches
              && tx.ledger.workers == l.workers[worker := Worker(d.instance, d.region, d.capabilities, d.producers,
                                                                 d.providers, d.egressBudget, false)]
              && tx.ledger.work.Keys == l.work.Keys
              && forall t :: t in l.work ==>
                   if l.work[t].state == Leased && l.work[t].owner == Some(worker) && l.work[t].instance != Some(d.instance)
                   then
                     && tx.ledger.work[t].state == Pending && Unheld(tx.ledger.work[t]) && SameProgress(l.work[t], tx.ledger.work[t])
                     && tx.ledger.work[t].updatedAt == now
                   else tx.ledger.work[t] == l.work[t]
  {
  }

  // The same incarnation registering again keeps every lease it has.
  lemma SameIncarnationKeepsLeases(l: Ledger, worker: Id, d: Worker, now: real, t: Id, generation: nat, later: real)
    requires OwnsNow(l, t, worker, d.instance, generation, later)
    ensures var l' := RegisterWorker(l, worker, d, PROTOCOL_VERSION, now).ledger;
            OwnsNow(l', t, worker, d.instance, generation, later) && KnownWorker(l', worker, d.instance)
  {
    RegisterAnswers(l, worker, d, PROTOCOL_VERSION, now);
  }

  lemma RevokeAnswers(l: Ledger, worker: Id, now: real)
    ensures var tx := RevokeWorker(l, worker, now);
            if worker !in l.workers then tx == Tx(l, Err(UnknownWorker))
            else
              && tx.reply == Ok(()) && tx.ledger.batches == l.batches
              && tx.ledger.workers.Keys == l.workers.Keys && tx.ledger.workers[worker].revoked
              && (forall v :: v in l.workers && v != worker ==> tx.ledger.workers[v] == l.workers[v])
              && tx.ledger.work.Keys == l.work.Keys
              && forall t :: t in l.work ==>
                   if l.work[t].state == Leased && l.work[t].owner == Some(worker)
                   then
                     && tx.ledger.work[t].state == Pending && Unheld(tx.ledger.work[t]) && SameProgress(l.work[t], tx.ledger.work[t])
                     && tx.ledger.work[t].updatedAt == now
                   else tx.ledger.work[t] == l.work[t]
  {
  }

  // ----- admission

  // Two definitions are the same work exactly when payloads agree and the four
  // identity texts agree up to white space around them.
  lemma SameWorkExactly(a: WorkDefinition, b: WorkDefinition)
    ensures WorkKeyOf(a) == WorkKeyOf(b) <==>
              && a.payload == b.payload && Strip(a.producer) == Strip(b.producer)
              && Strip(a.inputIdentity) == Strip(b.inputIdentity) && Strip(a.partition) == Strip(b.partition)
              && Strip(a.algorithmVersion) == Strip(b.algorithmVersion)
  {
  }

  predicate Blank(s: string) {
    forall i :: 0 <= i < |s| ==> s[i] == ' ' || s[i] == '\t' || s[i] == '\n' || s[i] == '\r'
  }

  // Strip removes white space at both ends and nothing else.
  lemma StripIsCore(s: string) returns (before: string, after: string)
    ensures s == before + Strip(s) + after && Blank(before) && Blank(after)
    ensures Strip(s) != "" ==> !Blank(Strip(s)[..1]) && !Blank(Strip(s)[|Strip(s)| - 1..])
  {
    before := LeftPart(s);
    after := RightPart(StripLeft(s));
    Assoc(before, Strip(s), after);
    StartKept(StripLeft(s));
  }

  lemma {:induction false} LeftPart(s: string) returns (before: string)
    ensures s == before + StripLeft(s) && Blank(before) && (StripLeft(s) != "" ==> !IsSpace(StripLeft(s)[0]))
    decreases |s|
  {
    if s != "" && IsSpace(s[0]) {
      var rest := LeftPart(s[1..]);
      before := [s[0]] + rest;
      assert s == [s[0]] + s[1..];
      Assoc([s[0]], rest, StripLeft(s));
    } else {
      before := "";
    }
  }

  lemma {:induction false} RightPart(s: string) returns (after: string)
    ensures s == StripRight(s) + after && Blank(after)
    ensures StripRight(s) != "" ==> !IsSpace(StripRight(s)[|StripRight(s)| - 1])
    decreases |s|
  {
    if s != "" && IsSpace(s[|s| - 1]) {
      var rest := RightPart(s[..|s| - 1]);
      after := rest + [s[|s| - 1]];
      assert s == s[..|s| - 1] + [s[|s| - 1]];
      Assoc(StripRight(s), rest, [s[|s| - 1]]);
    } else {
      after := "";
    }
  }

  lemma {:induction false} StartKept(s: string)
    ensures StripRight(s) != "" ==> s != "" && StripRight(s)[0] == s[0]
    decreases |s|
  {
    if s != "" && IsSpace(s[|s| - 1]) { StartKept(s[..|s| - 1]); }
  }

  // Admission answers the row that holds the work key, or inserts one that is
  // pending, untouched and due when the definition says.
  lemma AdmitAnswers(l: Ledger, d: WorkDefinition, taskId: Id, prior: Option<Id>, now: real)
    requires IsPrior(l, d, prior) && taskId !in l.work
    ensures var tx := AdmitWork(l, d, taskId, prior, now);
            if exists t :: t in l.work && l.work[t].key == WorkKeyOf(d)
            then tx.ledger == l && tx.reply.Ok? && !tx.reply.value.1 && tx.reply.value.0 in l.work
                 && l.work[tx.reply.value.0].key == WorkKeyOf(d)
            else
              && tx.reply == Ok((taskId, true)) && tx.ledger.workers == l.workers && tx.ledger.batches == l.batches
              && tx.ledger.work.Keys == l.work.Keys + {taskId} && (forall u :: u in l.work ==> tx.ledger.work[u] == l.work[u])
              && var row := tx.ledger.work[taskId];
                 && row.state == Pending && Unheld(row) && row.work == d && row.key == WorkKeyOf(d)
                 && row.attempt == 0 && row.generation == 0 && row.nextSeq == 0 && row.cursor.None? && row.lastError.None?
                 && row.createdAt == now
                 && (d.maxAttempts >= 1 ==> forall later: real :: Takeable(row, later) <==> later >= d.notBefore)
  {
    forall t | t in l.work && l.work[t].key == WorkKeyOf(d) ensures HasKey(l.work, t, WorkKeyOf(d)) {
    }
  }

  // ----- claims

  // When a claim is refused, replayed, granted, or answers nothing.
  lemma ClaimAnswers(l: Ledger, worker: Id, instance: Id, seconds: real, held: Option<Id>, rows: seq<Id>, ok: set<Id>, now: real)
    requires ClaimInputs(l, worker, instance, held, rows, now)
    ensures var tx := ClaimWork(l, worker, instance, seconds, held, rows, ok, now);
            if seconds <= 0.0 then tx == Tx(l, Err(InvalidArgument))
            else if !KnownWorker(l, worker, instance) then tx == Tx(l, Err(WorkerRejected))
            else if exists t :: t in l.work && LeasedTo(l.work[t], worker, instance, now) then
              && tx.ledger == l && tx.reply.Ok? && tx.reply.value.Some?
              && var m := tx.reply.value.value;
                 && OwnsNow(l, m.task, worker, instance, m.generation, now)
                 && Some(m.deadline) == l.work[m.task].deadline && IsLeaseOn(m, l.work[m.task], worker, instance)
            else if forall k :: 0 <= k < |rows| ==> !(rows[k] in ok && Suits(l.work[rows[k]].work, l.workers[worker])) then
              tx == Tx(l, Ok(None))
            else
              && tx.reply.Ok? && tx.reply.value.Some? && tx.ledger.workers == l.workers && tx.ledger.batches == l.batches
              && var m := tx.reply.value.value;
                 && m.task in rows && m.task in ok && Suits(l.work[m.task].work, l.workers[worker])
                 && Takeable(l.work[m.task], now) && OthersKept(l, tx.ledger, m.task)
                 && GrantedRow(l.work[m.task], tx.ledger.work[m.task], worker, instance, now, now + seconds)
                 && m.deadline == now + seconds && IsLeaseOn(m, tx.ledger.work[m.task], worker, instance)
  {
    hide CandidatePage, Eligible, Admits, Suits, Granted, LeaseOf, GrantedRow, IsLeaseOn, OthersKept, LeasedTo, HoldsActive, FirstEligible;
    HeldOnTerms(l, worker, instance, held, rows, now);
    if KnownWorker(l, worker, instance) && held.None? {
      PageOnTerms(l, l.workers[worker], rows, ok, now);
      var i := FirstEligible(l.work, rows, l.workers[worker], ok);
      if i < |rows| { GrantAnswers(l, rows[i], worker, instance, now + seconds, now); }
    } else if held.Some? {
      LeaseOnTerms(l, held.value, worker, instance, now);
    }
  }

  lemma HeldOnTerms(l: Ledger, worker: Id, instance: Id, held: Option<Id>, rows: seq<Id>, now: real)
    requires ClaimInputs(l, worker, instance, held, rows, now)
    ensures forall t :: t in l.work ==> (LeasedTo(l.work[t], worker, instance, now) <==> HoldsActive(l.work[t], worker, instance, now))
    ensures match held
            case Some(t) => t in l.work && LeasedTo(l.work[t], worker, instance, now)
            case None => forall t :: t in l.work ==> !LeasedTo(l.work[t], worker, instance, now)
  {
  }

  lemma LeaseOnTerms(l: Ledger, t: Id, worker: Id, instance: Id, now: real)
    requires t in l.work && LeasedTo(l.work[t], worker, instance, now)
    ensures var m := LeaseOf(t, l.work[t], worker, instance, l.work[t].deadline.value);
            m.task == t && Some(m.deadline) == l.work[t].deadline && IsLeaseOn(m, l.work[t], worker, instance)
            && OwnsNow(l, t, worker, instance, m.generation, now)
  {
  }

  // The row chosen from the page, if any, is one the worker may have.
  lemma PageOnTerms(l: Ledger, worker: Worker, rows: seq<Id>, ok: set<Id>, now: real)
    requires CandidatePage(l.work, now, rows)
    ensures var i := FirstEligible(l.work, rows, worker, ok);
            && i <= |rows| && (forall k :: 0 <= k < |rows| ==> rows[k] in l.work)
            && (forall k :: 0 <= k < i ==> !(rows[k] in ok && Suits(l.work[rows[k]].work, worker)))
            && (i < |rows| ==> rows[i] in ok && Suits(l.work[rows[i]].work, worker) && Takeable(l.work[rows[i]], now))
  {
    forall k | 0 <= k < |rows|
      ensures Admits(l.work, rows[k], worker, ok) <==> rows[k] in ok && Suits(l.work[rows[k]].work, worker)
    {
      SuitsIsEligible(l.work[rows[k]].work, worker);
    }
    hide Suits, Eligible;
  }

  lemma GrantAnswers(l: Ledger, t: Id, worker: Id, instance: Id, deadline: real, now: real)
    requires t in l.work
    ensures var row := Granted(l.work[t], worker, instance, deadline, now);
            var l', m := l.(work := l.work[t := row]), LeaseOf(t, row, worker, instance, deadline);
            && OthersKept(l, l', t) && GrantedRow(l.work[t], l'.work[t], worker, instance, now, deadline)
            && m.task == t && m.deadline == deadline && IsLeaseOn(m, l'.work[t], worker, instance)
  {
  }

  lemma SuitsIsEligible(d: WorkDefinition, worker: Worker)
    ensures Suits(d, worker) <==> Eligible(d, worker)
  {
    if Suits(d, worker) {
      forall c | c in d.requiredCapabilities ensures c in worker.capabilities {
        var i :| 0 <= i < |d.requiredCapabilities| && d.requiredCapabilities[i] == c;
      }
      forall p | p in d.requiredProviders ensures p in worker.providers {
        var i :| 0 <= i < |d.requiredProviders| && d.requiredProviders[i] == p;
      }
    }
  }

  // The lease says what the row says.
  predicate IsLeaseOn(m: Lease, row: WorkRow, worker: Id, instance: Id) {
    && m.worker == worker && m.instance == instance && m.key == row.key && m.generation == row.generation
    && m.attempt == row.attempt && m.work == row.work && m.cursor == row.cursor && m.nextSeq == row.nextSeq
  }

  predicate GrantedRow(row: WorkRow, row': WorkRow, worker: Id, instance: Id, now: real, deadline: real) {
    && row'.state == Leased && row'.owner == Some(worker) && row'.instance == Some(instance) && row'.deadline == Some(deadline)
    && row'.generation == row.generation + 1 && row'.attempt == row.attempt + 1 && row'.updatedAt == now
    && row'.key == row.key && row'.work == row.work && row'.cursor == row.cursor && row'.nextSeq == row.nextSeq
    && row'.createdAt == row.createdAt && row'.lastError == row.lastError
  }

  // In every run a claim by an incarnation that holds a lease answers that very
  // lease, with its old deadline, and changes nothing: a lost answer can be
  // asked for again, and asking never extends.
  lemma {:induction false} ClaimReplays(start: real, run: seq<Timed>, w: World, worker: Id, instance: Id, seconds: real,
                                        held: Option<Id>, rows: seq<Id>, ok: set<Id>, now: real, t: Id)
    requires w == Run(start, run)
    requires ClaimInputs(w.ledger, worker, instance, held, rows, now) && seconds > 0.0 && now >= w.clock
    requires KnownWorker(w.ledger, worker, instance)
    requires t in w.ledger.work && LeasedTo(w.ledger.work[t], worker, instance, now)
    ensures var tx := ClaimWork(w.ledger, worker, instance, seconds, held, rows, ok, now);
            && tx.ledger == w.ledger && tx.reply.Ok? && tx.reply.value.Some?
            && var m := tx.reply.value.value;
               && m.task == t && Some(m.deadline) == w.ledger.work[t].deadline && IsLeaseOn(m, w.ledger.work[t], worker, instance)
  {
    hide Run, ClaimWork, ClaimInputs;
    ClaimAnswers(w.ledger, worker, instance, seconds, held, rows, ok, now);
    var m := ClaimWork(w.ledger, worker, instance, seconds, held, rows, ok, now).reply.value.value;
    OneLeasePerWorker(start, run, t, m.task, now);
  }

  // No claimable work the worker may have is passed over for work of lower
  // priority, or of the same priority and admitted later.
  lemma ClaimPassesOverNothing(l: Ledger, worker: Id, instance: Id, seconds: real, held: Option<Id>, rows: seq<Id>, ok: set<Id>,
                               now: real, u: Id)
    requires ClaimInputs(l, worker, instance, held, rows, now) && KnownWorker(l, worker, instance)
    requires forall t :: t in l.work ==> !LeasedTo(l.work[t], worker, instance, now)
    requires var reply := ClaimWork(l, worker, instance, seconds, held, rows, ok, now).reply; reply.Ok? && reply.value.Some?
    requires u in l.work && Takeable(l.work[u], now) && u in ok && Suits(l.work[u].work, l.workers[worker])
    ensures var t := ClaimWork(l, worker, instance, seconds, held, rows, ok, now).reply.value.value.task;
            && t in l.work && l.work[u].work.priority <= l.work[t].work.priority
            && (l.work[u].work.priority == l.work[t].work.priority ==> l.work[t].createdAt <= l.work[u].createdAt)
  {
    SuitsIsEligible(l.work[u].work, l.workers[worker]);
    assert held.Some? ==> LeasedTo(l.work[held.value], worker, instance, now);
    var i := FirstEligible(l.work, rows, l.workers[worker], ok);
    assert Claimable(l.work[u], now) && Admits(l.work, u, l.workers[worker], ok);
    if u in rows {
      var k :| 0 <= k < |rows| && rows[k] == u;
      assert i <= k;
    }
  }

  // A claim by an idle worker answers nothing over work it could have only when
  // at least 128 other rows, none of which it may have, could be taken as well.
  lemma ClaimMissesOnlyBeyondThePage(l: Ledger, worker: Id, instance: Id, seconds: real, held: Option<Id>, rows: seq<Id>, ok: set<Id>,
                                     now: real, u: Id)
    requires ClaimInputs(l, worker, instance, held, rows, now) && KnownWorker(l, worker, instance) && seconds > 0.0
    requires ClaimWork(l, worker, instance, seconds, held, rows, ok, now).reply == Ok(None)
    requires u in l.work && Takeable(l.work[u], now) && u in ok && Suits(l.work[u].work, l.workers[worker])
    ensures |set t | t in l.work && t != u && Takeable(l.work[t], now) && !(t in ok && Suits(l.work[t].work, l.workers[worker]))| >= 128
  {
    var others := set t | t in l.work && t != u && Takeable(l.work[t], now) && !(t in ok && Suits(l.work[t].work, l.workers[worker]));
    PageOnTerms(l, l.workers[worker], rows, ok, now);
    FullPage(l, worker, instance, seconds, held, rows, ok, now, u);
    hide Suits, Takeable, CandidatePage, ClaimWork;
    assert forall k :: 0 <= k < |rows| ==> rows[k] in others;
    AllIn(rows, others);
  }

  lemma FullPage(l: Ledger, worker: Id, instance: Id, seconds: real, held: Option<Id>, rows: seq<Id>, ok: set<Id>, now: real, u: Id)
    requires ClaimInputs(l, worker, instance, held, rows, now) && KnownWorker(l, worker, instance) && seconds > 0.0
    requires ClaimWork(l, worker, instance, seconds, held, rows, ok, now).reply == Ok(None)
    requires u in l.work && Takeable(l.work[u], now) && u in ok && Suits(l.work[u].work, l.workers[worker])
    ensures |rows| == 128 && u !in rows && FirstEligible(l.work, rows, l.workers[worker], ok) == 128
    ensures forall k :: 0 <= k < |rows| ==> rows[k] in l.work && Takeable(l.work[rows[k]], now)
    ensures forall j, k :: 0 <= j < k < |rows| ==> rows[j] != rows[k]
  {
    SuitsIsEligible(l.work[u].work, l.workers[worker]);
    assert Claimable(l.work[u], now) && Admits(l.work, u, l.workers[worker], ok);
    hide Eligible, Suits;
  }

  lemma {:induction false} AllIn(rows: seq<Id>, s: set<Id>)
    requires (forall k :: 0 <= k < |rows| ==> rows[k] in s) && forall j, k :: 0 <= j < k < |rows| ==> rows[j] != rows[k]
    ensures |s| >= |rows|
  {
    if rows != [] {
      var n := |rows| - 1;
      AllIn(rows[..n], s - {rows[n]});
    }
  }

  // ----- the fenced operations

  lemma RenewAnswers(l: Ledger, t: Id, worker: Id, instance: Id, generation: nat, seconds: real, expected: Option<real>, now: real)
    ensures var tx := RenewTask(l, t, worker, instance, generation, seconds, expected, now);
            if seconds <= 0.0 then tx == Tx(l, Err(InvalidArgument))
            else if !OwnsNow(l, t, worker, instance, generation, now) then tx == Tx(l, Err(StaleLease))
            else
              var current := l.work[t].deadline.value;
              if expected.Some? && current < expected.value then tx == Tx(l, Err(DeadlineRegressed))
              else
                && tx.reply.Ok? && IsLeaseOn(tx.reply.value, l.work[t], worker, instance) && tx.reply.value.task == t
                && tx.ledger.workers == l.workers && tx.ledger.batches == l.batches && OthersKept(l, tx.ledger, t)
                && tx.ledger.work[t].deadline == Some(tx.reply.value.deadline)
                && SameProgress(l.work[t], tx.ledger.work[t]) && tx.ledger.work[t].state == Leased
                && tx.ledger.work[t].owner == Some(worker) && tx.ledger.work[t].instance == Some(instance)
                && if expected.Some? && expected.value < current
                   then tx.ledger == l && tx.reply.value.deadline == current
                   else tx.reply.value.deadline == now + seconds
  {
    var tx := RenewTask(l, t, worker, instance, generation, seconds, expected, now);
    if OwnsNow(l, t, worker, instance, generation, now) {
      assert l.work[t := l.work[t]] == l.work;
    }
  }

  // A batch lands exactly when its number is not on record, its lease is owned
  // and it carries the next number.
  lemma CommitAnswers(l: Ledger, b: ResultBatch, worker: Id, instance: Id, now: real)
    ensures var tx := CommitBatch(l, b, worker, instance, now);
            var key := BatchId(b.task, b.seqNo);
            if key in l.batches then tx == Tx(l, if l.batches[key].batch == b then Ok(false) else Err(BatchConflict))
            else if !OwnsNow(l, b.task, worker, instance, b.generation, now) then tx == Tx(l, Err(StaleLease))
            else if l.work[b.task].nextSeq != b.seqNo then tx == Tx(l, Err(BatchSequence))
            else
              && tx.reply == Ok(true) && tx.ledger.workers == l.workers && OthersKept(l, tx.ledger, b.task)
              && tx.ledger.batches == l.batches[key := BatchRow(b, now, None, 0, None, false)]
              && var row, row' := l.work[b.task], tx.ledger.work[b.task];
                 && row'.cursor == b.cursorAfter && row'.nextSeq == row.nextSeq + 1 && row'.updatedAt == now
                 && row'.key == row.key && row'.work == row.work && row'.generation == row.generation
                 && row'.attempt == row.attempt && row'.lastError == row.lastError && row'.createdAt == row.createdAt
                 && if b.final then row'.state == Complete && Unheld(row')
                    else row'.state == Leased && row'.owner == row.owner && row'.instance == row.instance && row'.deadline == row.deadline
  {
  }

  lemma FinishAnswers(l: Ledger, t: Id, worker: Id, instance: Id, generation: nat, now: real)
    ensures var tx := FinishTask(l, t, worker, instance, generation, now);
            if !OwnsNow(l, t, worker, instance, generation, now) then tx == Tx(l, Err(StaleLease))
            else
              && tx.reply == Ok(()) && tx.ledger.workers == l.workers && tx.ledger.batches == l.batches
              && OthersKept(l, tx.ledger, t) && SameProgress(l.work[t], tx.ledger.work[t])
              && tx.ledger.work[t].state == Complete && Unheld(tx.ledger.work[t]) && tx.ledger.work[t].updatedAt == now
  {
  }

  // A failed task can be taken again exactly when the failure may be retried
  // and an attempt is left, and then exactly from the end of the pause on.
  lemma FailAnswers(l: Ledger, t: Id, worker: Id, instance: Id, generation: nat, error: string, retryable: bool,
                    pause: real, now: real)
    ensures var tx := FailTask(l, t, worker, instance, generation, error, retryable, pause, now);
            if pause < 0.0 then tx == Tx(l, Err(InvalidArgument))
            else if !OwnsNow(l, t, worker, instance, generation, now) then tx == Tx(l, Err(StaleLease))
            else
              && tx.reply == Ok(()) && tx.ledger.workers == l.workers && tx.ledger.batches == l.batches && OthersKept(l, tx.ledger, t)
              && var row, row' := l.work[t], tx.ledger.work[t];
                 && Unheld(row') && row'.key == row.key && row'.generation == row.generation && row'.attempt == row.attempt
                 && row'.cursor == row.cursor && row'.nextSeq == row.nextSeq && row'.createdAt == row.createdAt && row'.updatedAt == now
                 && WorkKeyOf(row'.work) == WorkKeyOf(row.work) && row'.work.maxAttempts == row.work.maxAttempts
                 && row'.lastError == Some(if |error| <= 2000 then error else error[..2000])
                 && (if retryable && row.attempt < row.work.maxAttempts
                     then row'.state == Retry && row'.work.notBefore == now + pause
                          && forall later: real :: Takeable(row', later) <==> later >= now + pause
                     else row'.state == Dead && forall later: real :: !Takeable(row', later))
  {
  }

  // ----- the inbox

  lemma ConsumeAnswers(l: Ledger, id: BatchId, now: real)
    ensures var tx := MarkConsumed(l, id, now);
            if id !in l.batches then tx == Tx(l, Ok(false))
            else
              && tx.reply == Ok(true) && tx.ledger.workers == l.workers && tx.ledger.work == l.work
              && tx.ledger.batches.Keys == l.batches.Keys
              && (forall other :: other in l.batches && other != id ==> tx.ledger.batches[other] == l.batches[other])
              && var row, row' := l.batches[id], tx.ledger.batches[id];
                 && row'.consumedAt == Some(if row.consumedAt.Some? then row.consumedAt.value else now)
                 && row'.batch == row.batch && row'.committedAt == row.committedAt && row'.consumeAttempts == row.consumeAttempts
                 && row'.consumeError == row.consumeError && row'.quarantined == row.quarantined
  {
  }

  lemma ConsumeFailAnswers(l: Ledger, id: BatchId, error: string, limit: nat)
    ensures var tx := MarkConsumeFailed(l, id, error, limit);
            if limit < 1 then tx == Tx(l, Err(InvalidArgument))
            else if id !in l.batches || l.batches[id].consumedAt.Some? then tx == Tx(l, Ok(false))
            else
              && tx.ledger.workers == l.workers && tx.ledger.work == l.work && tx.ledger.batches.Keys == l.batches.Keys
              && (forall other :: other in l.batches && other != id ==> tx.ledger.batches[other] == l.batches[other])
              && var row, row' := l.batches[id], tx.ledger.batches[id];
                 && row'.consumeAttempts == row.consumeAttempts + 1 && row'.quarantined == (row'.consumeAttempts >= limit)
                 && tx.reply == Ok(row'.quarantined) && row'.consumedAt.None?
                 && row'.consumeError == Some(if |error| <= 2000 then error else error[..2000])
                 && row'.batch == row.batch && row'.committedAt == row.committedAt
  {
  }

  // Collection removes the chosen batches and empties the chosen tasks, and
  // leaves everything else, and every key and number, alone.
  lemma CollectLeaves(l: Ledger, gone: set<BatchId>, compacted: set<Id>)
    requires compacted <= l.work.Keys
    ensures var l' := Collect(l, gone, compacted);
            && l'.workers == l.workers && l'.work.Keys == l.work.Keys
            && (forall id :: id in l'.batches <==> id in l.batches && id !in gone)
            && (forall id :: id in l'.batches ==> l'.batches[id] == l.batches[id])
            && (forall t :: t in l.work && t !in compacted ==> l'.work[t] == l.work[t])
            && forall t :: t in compacted ==>
                 var row, row' := l.work[t], l'.work[t];
                 && row'.work.payload == "{}" && row'.cursor.None? && row'.lastError.None? && row'.key == row.key
                 && row'.state == row.state && row'.nextSeq == row.nextSeq && row'.generation == row.generation
                 && row'.attempt == row.attempt && row'.owner == row.owner && row'.instance == row.instance
                 && row'.deadline == row.deadline && row'.updatedAt == row.updatedAt && row'.createdAt == row.createdAt
  {
  }
}
