# Fabric: leases, harvest and neighbours, verified

This project models the core of the Creeper Fabric in Dafny and proves what its
parts promise each other: an authority that leases work to unreliable workers,
a harvester that streams byte ranges of huge index files through those leases,
the central executor that collects the results, and three independent cores
(the baseline index, the brace scanner, the rotating index selector).

Where the program changes state step by step the model is a class or a method
with loops (`AuthorityStore`, `Authenticator`, `LeaseKeeping`, `HostYear`,
`BulkShard`, `RegionHarvest`, `BaselineIndex`, `BraceScan`, `Rotation`). Every
such method is proved against a function of its inputs and old state, and the
theorems are about those functions. A raised exception is an `Err` and leaves
the tables as they were.

## How the parts fit

- `LeaseTables` gives every public lease operation as one transaction;
  `Runs` makes whole runs of them, with the history the theorems speak about;
  `RunInvariant` proves what every run keeps; `LeaseSafety`, `Retention` and
  `Ownership` draw the consequences, and `LeaseAnswers` says what each operation
  answers and leaves behind in the terms of the rows. No theorem limits the events of a run: any
  sequence of events is a run, events that cannot happen being skipped.
- `Permits`, `PermitRuns`, `EgressRuns`, `PermitAnswers`, `PermitLife` and
  `RegionCounts` do the same for provider budgets, permits and regions,
  `RequestAuth` for signed requests and nonces, `ClaimFilter` for the two claim
  queries. `AuthorityStore` is the imperative store whose methods are proved
  against all of these, and `Authenticator` the object in front of it.
  `StoreRuns` closes the circle: whatever calls a store serves, its tables are
  those of the runs made of exactly these calls.
- `Lines` says what the lines of a shard are, `HostYear` what the host groups of
  records are, `Packing`, `BatchSizes` and `Resume` what the batches are and why
  resuming at a cursor is memoryless; `BulkShard` is the streaming loop itself and
  `RecordLimit` decides exactly when it can fail over a record's length.
- `EndToEnd` joins authority and harvester: a completed shard has committed every
  host group of its lines exactly once. `Inbox`, `RegionHarvest` and
  `HarvestEndToEnd` add the central executor down to the emitted witnesses.

## Findings

Some promises hold only under a condition; each is proved together with that
condition, in both directions.

- src/creeper/distributed/auth.py:112-114: a timestamp that reads as "not a
  number" passes the skew check at any time, so such a signed request can be
  replayed once its nonce is forgotten. A finite timestamp is accepted at most
  once exactly when the nonce retention (81-85) covers twice the skew plus the
  time between the two clock readings of one request, and operator garbage
  collection keeps strictly longer than that (`RequestAuth.ReplayProofExactly`).
- src/creeper/distributed/authority_store.py:1240-1261: daily egress counters are
  exact in every run exactly when garbage collection keeps at least 86400 seconds
  (`EgressRuns.ExactWhenADayIsKept`).
- src/creeper/distributed/authority_store.py:1063-1073 with 1263-1297: the
  quarantine flag is recomputed against the limit of the current call. Owed
  payloads are kept in every run, and settled batches stay settled, exactly when
  no two limits in use are further than one apart (`Retention.PayloadKeptExactly`,
  `Retention.SettledStaysExactly`).
- src/creeper/distributed/postgres_store.py:528-555 against
  src/creeper/distributed/authority_store.py:523-568: the two claim filters select
  the same rows exactly when no provider that insists on a qualified region and
  does not probe has an observed state outside the four the code writes; reachable
  tables have none (`ClaimFilter.FiltersAgreeExactly`). And as the SQLite claim
  looks at 128 rows (authority_store.py:619-633), it answers nothing where Postgres
  selects a row exactly when the rows the worker may run all lie beyond a full page
  (`ClaimFilter.ChoicesAgree`).
- src/creeper/distributed/bulk_shard.py:439-445 and 549-552: with the whole
  requested range returned, no chunking at all makes the harvester fail over a
  record's length if and only if every line of the shard has at most
  `boundary_record_max_bytes` bytes before its newline (`RecordLimit.LimitIsExact`).
  The program asks for its stream in chunks of 64 KiB (bulk_shard.py:402), which is
  more lenient: then the run ends normally exactly when at none of those reads more
  than the limit of an unfinished line is there (`RecordLimit.RegroupedRunExactly`).

## Model

| member | source | states |
|---|---|---|
| `AuthorityStore.DistributedAuthorityStore.RegisterWorker` | src/creeper/distributed/authority_store.py:321-393 | a wrong protocol changes nothing; otherwise the worker row is replaced, unrevoked, and exactly the leases of other incarnations of that worker go back to pending |
| `AuthorityStore.DistributedAuthorityStore.RevokeWorker` | src/creeper/distributed/authority_store.py:416-434 | an unknown worker is an error; otherwise it is revoked and all its leases go back to pending |
| `AuthorityStore.DistributedAuthorityStore.AdmitWork` | src/creeper/distributed/authority_store.py:436-482 | inserts a pending row, or answers the row that already has the work key |
| `AuthorityStore.DistributedAuthorityStore.Candidates` | src/creeper/distributed/authority_store.py:619-633 | the page of at most 128 claimable rows by falling priority and rising age, none skipped |
| `AuthorityStore.DistributedAuthorityStore.RegionOk` | src/creeper/distributed/authority_store.py:523-568 | true exactly when every required provider has a budget and accepts the worker's region, old refusals counting as unknown when probing is allowed |
| `AuthorityStore.DistributedAuthorityStore.Choose` | src/creeper/distributed/authority_store.py:634-642 | the first row of the page the worker may have, or the end of the page |
| `AuthorityStore.DistributedAuthorityStore.ClaimWork` | src/creeper/distributed/authority_store.py:570-698 | replays an unexpired lease unchanged, else grants the first eligible candidate with the next generation and attempt, else answers nothing |
| `AuthorityStore.DistributedAuthorityStore.ActiveLease` | src/creeper/distributed/authority_store.py:700-723 | the row exactly when the caller's fencing tuple holds an unexpired lease |
| `AuthorityStore.DistributedAuthorityStore.RenewTask` | src/creeper/distributed/authority_store.py:725-780 | compare-and-renew: extends from the expected deadline, replays a later one, refuses a regressed one |
| `AuthorityStore.DistributedAuthorityStore.CommitResultBatch` | src/creeper/distributed/authority_store.py:805-920 | acknowledges an identical retained batch, refuses a changed one, a stale lease or a wrong number, else appends the batch and moves cursor, number and, if final, the state |
| `AuthorityStore.DistributedAuthorityStore.FinishTask` | src/creeper/distributed/authority_store.py:922-947 | only the fenced owner completes its row |
| `AuthorityStore.DistributedAuthorityStore.FailTask` | src/creeper/distributed/authority_store.py:949-991 | only the fenced owner fails its row, to retry while attempts are left and to dead otherwise |
| `AuthorityStore.DistributedAuthorityStore.UnconsumedBatchesForTask` | src/creeper/distributed/authority_store.py:1009-1028 | the first outstanding batches of the task in sequence order, none skipped |
| `AuthorityStore.DistributedAuthorityStore.MarkBatchConsumed` | src/creeper/distributed/authority_store.py:1030-1042 | the first consumption time of a batch stays |
| `AuthorityStore.DistributedAuthorityStore.MarkBatchConsumeFailed` | src/creeper/distributed/authority_store.py:1044-1074 | counts the failure and quarantines exactly from the limit on |
| `AuthorityStore.DistributedAuthorityStore.ConfigureProviderBudget` | src/creeper/distributed/authority_store.py:1300-1343 | replaces the configuration and keeps the rate clock and the cooldown |
| `AuthorityStore.DistributedAuthorityStore.RecordProviderRegionObservation` | src/creeper/distributed/authority_store.py:1345-1435 | adds one sample and judges the region from the new totals |
| `AuthorityStore.DistributedAuthorityStore.IssueProviderPermit` | src/creeper/distributed/authority_store.py:1454-1646 | replays a live permit of the same request, mints one under region, in-flight, rate and cooldown checks, or leaves every table as it was |
| `AuthorityStore.DistributedAuthorityStore.MintPermit` | src/creeper/distributed/authority_store.py:1523-1642 | the second half of issuing; each refusal restores the permits the transaction began with |
| `AuthorityStore.DistributedAuthorityStore.RefuseMint` | src/creeper/distributed/authority_store.py:1539-1597 | the region, probe, in-flight, rate and cooldown checks refuse exactly when the specification does |
| `AuthorityStore.DistributedAuthorityStore.ReportProviderPermit` | src/creeper/distributed/authority_store.py:1648-1710 | the owner's first report deactivates the permit, raises the cooldown and charges the day; a later one changes nothing |
| `AuthorityStore.DistributedAuthorityStore.ConsumeRequestNonce` | src/creeper/distributed/authority_store.py:293-319 | forgets nonces older than the retention, then inserts the key unless it is present |
| `AuthorityStore.DistributedAuthorityStore.CollectGarbage` | src/creeper/distributed/authority_store.py:1106-1298 | deletes, up to the limit per table, exactly rows past retention, and compacts completed work that owes no batch and has no active permit |
| `AuthorityStore.ChosenIsLegal` | src/creeper/distributed/authority_store.py:1157-1297 | what the collector chooses, nonces included, is what the theorems about runs assume of a collection |
| `AuthorityStore.CollectedExactly` | src/creeper/distributed/authority_store.py:1157-1297 | in the terms of the rows: of each of the five tables only what is due at the cutoff goes, nonces by the time they were seen, at most the limit and everything due when it fits |
| `StoreRuns.ServeLease` | src/creeper/distributed/authority_store.py:321-1074 | each call on leases and results is one legal event of the run with the same arguments, and the tables after it are the event's |
| `StoreRuns.ServeProvider` | src/creeper/distributed/authority_store.py:1300-1710 | the same for each call on providers |
| `StoreRuns.ServeCollect` | src/creeper/distributed/authority_store.py:1106-1298 | a collection is an event of both runs, and a refused one of neither; the nonces it forgets were seen at or before now minus its retention |
| `StoreRuns.ServeAll` | src/creeper/distributed/authority_store.py:63-1710 | a new store and authenticator that serve any calls in order of time, signed requests and collections among them, hold what the three runs made of exactly these calls hold, answer each request by its run, and when the retentions cover a stamp's exposure accept no finite stamp twice |
| `StoreRuns.NeverReplayed` | src/creeper/distributed/auth.py:88-132 | of any calls served, no two requests with one worker, finite timestamp and nonce are both accepted, whatever is collected in between |
| `LeaseAnswers.RegisterAnswers` | src/creeper/distributed/authority_store.py:321-393 | in the terms of the rows: what registering writes, and that exactly the leases of the worker's other incarnations go |
| `LeaseAnswers.SameIncarnationKeepsLeases` | src/creeper/distributed/authority_store.py:375-393 | the same incarnation registering again keeps every lease it has |
| `LeaseAnswers.RevokeAnswers` | src/creeper/distributed/authority_store.py:416-434 | in the terms of the rows: the worker is revoked and exactly its leases go |
| `LeaseAnswers.SameWorkExactly` | src/creeper/distributed/identity.py:39-58 | two definitions are the same work if and only if payloads agree and the four identity texts agree up to surrounding white space |
| `LeaseAnswers.StripIsCore` | src/creeper/distributed/identity.py:47-56 | stripping takes white space off both ends, all of it and nothing else |
| `LeaseAnswers.AdmitAnswers` | src/creeper/distributed/authority_store.py:436-482 | work is inserted exactly when no row has its key, can first be claimed at its not-before time, and changes no other row |
| `LeaseAnswers.ClaimAnswers` | src/creeper/distributed/authority_store.py:570-698 | when a claim is refused, replays the lease held with its old deadline, grants a takeable row that suits the worker, or answers nothing, and everything a grant changes |
| `LeaseAnswers.ClaimReplays` | src/creeper/distributed/authority_store.py:583-618 | in every run, claiming while holding an unexpired lease answers that lease, its deadline as it was, and changes nothing |
| `LeaseAnswers.ClaimPassesOverNothing` | src/creeper/distributed/authority_store.py:619-645 | no takeable row that suits the worker has a higher priority than the one granted, or the same and an earlier admission |
| `LeaseAnswers.ClaimMissesOnlyBeyondThePage` | src/creeper/distributed/authority_store.py:619-645 | an idle worker is answered nothing over work it could have only when at least 128 other rows it may not have could be taken |
| `LeaseAnswers.RenewAnswers` | src/creeper/distributed/authority_store.py:725-780 | in the terms of the rows: who may renew, which deadline results, and that nothing else changes |
| `LeaseAnswers.CommitAnswers` | src/creeper/distributed/authority_store.py:805-920 | a batch lands exactly when its number is not on record, its lease is owned and it carries the next number; what it moves |
| `LeaseAnswers.FinishAnswers` | src/creeper/distributed/authority_store.py:922-947 | only the owner completes its row, which keeps cursor, number and key |
| `LeaseAnswers.FailAnswers` | src/creeper/distributed/authority_store.py:949-991 | a failed task can be taken again if and only if the failure is retryable and an attempt is left, and then exactly from now plus the pause on; otherwise never |
| `LeaseAnswers.ConsumeAnswers` | src/creeper/distributed/authority_store.py:1030-1042 | only that batch changes, and only its first consumption time is kept |
| `LeaseAnswers.ConsumeFailAnswers` | src/creeper/distributed/authority_store.py:1044-1074 | an open batch counts one more failure and is quarantined if and only if the limit is reached |
| `LeaseAnswers.CollectLeaves` | src/creeper/distributed/authority_store.py:1163-1297 | collection empties payload, cursor and error of the chosen tasks and leaves states, numbers and keys alone |
| `RunInvariant.RunKeeps` | src/creeper/distributed/authority_store.py:321-986 | the invariant of every run: rows, logs, retained batches, issued leases, unique keys, one unexpired lease per worker, and counts |
| `LeaseSafety.CommittedOnce` | src/creeper/distributed/authority_store.py:805-920 | in every run a task's committed numbers are exactly 0 up to its next number, each once; generations never decrease and only the last can be final |
| `LeaseSafety.LogAppendOnly` | src/creeper/distributed/authority_store.py:805-920 | what is committed stays committed, in order |
| `LeaseSafety.ReplayChangesNothing` | src/creeper/distributed/authority_store.py:819-846 | a second commit of a taken number changes nothing in any run, before and after garbage collection of the first |
| `LeaseSafety.FenceIsCurrent` | src/creeper/distributed/authority_store.py:375-393 | in every run the holder of a fence is the worker's current unrevoked incarnation |
| `LeaseSafety.AcceptedFromCurrent` | src/creeper/distributed/authority_store.py:700-986 | each accepted commit, renewal, finish and failure comes from that incarnation though none of them reads the worker table |
| `LeaseSafety.AttemptsBounded` | src/creeper/distributed/authority_store.py:643-671 | in every run generation = attempts = fresh claims of a row, at most the attempts admitted |
| `LeaseSafety.ClaimsBounded` | src/creeper/distributed/authority_store.py:619-671 | fresh claims of a run are at most the attempts admitted with its work, task by task and in total |
| `LeaseSafety.OneLeasePerWorker` | src/creeper/distributed/authority_store.py:583-618 | a worker id owns at most one unexpired lease in every reachable state and later |
| `LeaseSafety.RowsLast` | src/creeper/distributed/authority_store.py:885-991 | rows never vanish or change key, generations never fall, and complete and dead absorb |
| `LeaseSafety.KeyAdmittedOnce` | src/creeper/distributed/authority_store.py:436-482 | a work key is admitted once for ever, also after compaction of its row |
| `Retention.OwedPayloadIntact` | src/creeper/distributed/authority_store.py:1263-1297 | while no two quarantine limits in use are further than one apart, the task of a batch still owed reproduces its stored work key |
| `Retention.LeasedPayloadIntact` | src/creeper/distributed/authority_store.py:1263-1297 | every leased row reproduces its stored work key |
| `Retention.NothingOwedIsLost` | src/creeper/distributed/authority_store.py:1163-1191 | a committed batch is missing only if it was consumed or quarantined before |
| `Retention.SettledForever` | src/creeper/distributed/authority_store.py:1030-1074 | under the same condition a consumed or quarantined batch is never owed again |
| `Retention.LimitsTwoApart` | src/creeper/distributed/authority_store.py:1063-1073 | for every two limits at least two apart, a run that brings a batch back after its payload was compacted |
| `Retention.PayloadKeptExactly` | src/creeper/distributed/authority_store.py:1044-1074 | for a set of limits, owed payloads are kept in all runs if and only if no two of them are further than one apart |
| `Retention.SettledStaysExactly` | src/creeper/distributed/authority_store.py:1044-1074 | settled batches stay settled in all runs under that condition and no weaker one |
| `Retention.OneLimitKeeps` | src/creeper/distributed/authority_store.py:1044-1050 | one limit for all consumers keeps payloads and settled batches |
| `LeaseKeeping.LeaseKeeper.AssertOwned` | src/creeper/distributed/lease_keeper.py:48-52 | true exactly while nothing was lost and the deadline heard last lies ahead |
| `LeaseKeeping.LeaseKeeper.Attempt` | src/creeper/distributed/lease_keeper.py:88-130 | the inner retry loop ends with an answer, a loss or a stop exactly as its attempts dictate |
| `LeaseKeeping.LeaseKeeper.Run` | src/creeper/distributed/lease_keeper.py:69-139 | the renewal loop's final lease and loss as a function of what it heard |
| `LeaseKeeping.LoopOnlyHears` | src/creeper/distributed/lease_keeper.py:69-139 | whatever the loop does is a sequence of hearing renewals, refusals and the clock, so the network theorems cover it |
| `LeaseKeeping.TurnDecides` | src/creeper/distributed/lease_keeper.py:69-139 | one turn of the loop, for any number of transport failures: lost at or past the deadline, over on a stop, otherwise decided by the first attempt that is not a transport failure with time left |
| `LeaseKeeping.LostExactly` | src/creeper/distributed/lease_keeper.py:76-139 | a keeper is lost if and only if it heard a refusal, an answer for another task, generation, worker or instance, or the clock at or past the deadline it then had; until then its lease is the last answer |
| `LeaseKeeping.IdentityKept` | src/creeper/distributed/lease_keeper.py:131-139 | whatever is heard, the lease kept has the task, generation, worker and instance it started with, and lost stays lost |
| `Ownership.MutualExclusion` | src/creeper/distributed/lease_keeper.py:48-139 | with one clock and one lease length, over lost, delayed, reordered and repeated answers, two generations are never both owned unless the older was ended early |
| `Ownership.NeverRegressed` | src/creeper/distributed/authority_store.py:745-751 | the "deadline regressed" answer never reaches a keeper that sends the deadline it last heard |
| `Ownership.OwnerIsLeased` | src/creeper/distributed/lease_keeper.py:48-52 | a keeper that may act still holds the row, unless its generation was ended early or the row is terminal |
| `PermitRuns.RateBound` | src/creeper/distributed/authority_store.py:1591-1606 | in any run whose configurations ask for at most rate r, any window of length T sees at most floor(T*r)+1 fresh permits of a provider |
| `PermitRuns.CooldownRespected` | src/creeper/distributed/authority_store.py:1591-1597 | no fresh permit before the end of any cooldown reported so far |
| `PermitRuns.InflightBound` | src/creeper/distributed/authority_store.py:1581-1597 | active permits of a provider never exceed the largest in-flight limit configured |
| `PermitRuns.ChargedOnce` | src/creeper/distributed/authority_store.py:1663-1706 | no permit is charged twice and only minted ones are charged |
| `PermitAnswers.IssueAnswers` | src/creeper/distributed/authority_store.py:1454-1646 | in the terms of the rows: when a request for a permit is refused, put off, replayed or granted, and everything a grant writes: issue and expiry time, the next request time, the permits that ran out |
| `PermitAnswers.ReportAnswers` | src/creeper/distributed/authority_store.py:1648-1710 | in the terms of the rows: who may report, and that the first report switches the permit off, charges its day and raises the cooldown |
| `PermitAnswers.ConfigureAnswers` | src/creeper/distributed/authority_store.py:1300-1343 | only that provider's row changes, and keeps its next request time and cooldown |
| `PermitAnswers.ObserveAnswers` | src/creeper/distributed/authority_store.py:1345-1435 | a probe counts only from the fenced holder of a task, for the region it is registered in |
| `PermitLife.GrantIsAsAsked` | src/creeper/distributed/authority_store.py:1607-1642 | in every run a permit on record was issued when it was minted, expires the asked time later, and is for the asked work |
| `PermitLife.ActiveUntilReported` | src/creeper/distributed/authority_store.py:1454-1710 | in every run, until its time is over a minted permit is active if and only if it was not reported: no expiry, refusal, second mint or collection ends it sooner |
| `PermitLife.AskingAgain` | src/creeper/distributed/authority_store.py:1484-1513 | in every run, asking again for an unreported permit within its time gets that permit for the same work, an error for other work, and mints and changes nothing |
| `RegionCounts.RegionIsVerdict` | src/creeper/distributed/authority_store.py:1345-1435 | in every run a region is on record if and only if it was probed, its counts are those of its probes, and its state follows from them and from the last probe |
| `EgressRuns.ExactWhenADayIsKept` | src/creeper/distributed/authority_store.py:1240-1261 | every retained counter equals the bytes charged to it, in all runs, exactly when collection keeps 86400 seconds |
| `EgressRuns.BudgetSeesTrueTotal` | src/creeper/distributed/authority_store.py:1437-1452 | under that condition an issued permit means the day's true total is below the worker's budget |
| `EgressRuns.SoonerLosesCount` | src/creeper/distributed/authority_store.py:1240-1261 | for every shorter retention a run whose retained counter is wrong |
| `ClaimFilter.ProviderClause` | src/creeper/distributed/postgres_store.py:528-555 | the WHERE condition on one joined provider row, under three-valued logic, against the SQLite check |
| `ClaimFilter.PostgresMeans` | src/creeper/distributed/postgres_store.py:508-556 | what the whole clause selects, nulls included |
| `ClaimFilter.FiltersAgreeExactly` | src/creeper/distributed/postgres_store.py:508-562 | the two filters agree for all work and workers of a region if and only if no provider is in an unlisted state there |
| `ClaimFilter.ReachableStatesKnown` | src/creeper/distributed/authority_store.py:1414-1434 | in every run the observed region states are qualified, unknown, blocked or unqualified |
| `ClaimFilter.ReachableFiltersAgree` | src/creeper/distributed/authority_store.py:509-568 | in every reachable state of the provider tables they agree |
| `ClaimFilter.ChoicesAgree` | src/creeper/distributed/authority_store.py:619-645 | what the SQLite claim picks the Postgres query may pick, and SQLite answers nothing where Postgres selects a row if and only if the page is full, holds nothing for the worker, and a row for it lies beyond |
| `Authenticator.HMACRequestAuthenticator.constructor` | src/creeper/distributed/auth.py:68-86 | the retention kept is the larger of the configured one and twice the skew |
| `Authenticator.HMACRequestAuthenticator.Verify` | src/creeper/distributed/auth.py:88-132 | the verdict and the nonce table after it; accepted if and only if the worker is known, nothing is blank, the signature is that worker's over the request, the stamp is within the skew, and the nonce is not on record within the retention |
| `RequestAuth.AcceptedExactly` | src/creeper/distributed/auth.py:88-132 | the same as a law of the verdict, with what becomes of the nonces: only a genuine request touches them |
| `RequestAuth.AcceptedInRunExactly` | src/creeper/distributed/auth.py:88-132 | in every run a request is accepted if and only if it is genuine and no acceptance of its nonce stands from within the retention |
| `RequestAuth.FiniteStampOnce` | src/creeper/distributed/auth.py:112-131 | a finite stamp within covered windows is accepted at most once in every run |
| `RequestAuth.ReplayProofExactly` | src/creeper/distributed/auth.py:81-131 | replay is impossible if and only if the stamp is finite and both retentions outlast its exposure, or it is never acceptable |
| `RequestAuth.OneReadingSuffices` | src/creeper/distributed/auth.py:81-85 | with one clock reading per request the constructor's retention suffices, with collection exactly when it keeps more than twice the skew |
| `Lines.ShardLinesExact` | src/creeper/distributed/bulk_shard.py:402-442 | a shard's lines are exactly the lines that start in its interval, in order |
| `Lines.ShardsTile` | src/creeper/distributed/bulk_shard.py:327-334 | adjoining shards see every line once |
| `Lines.WholeText` | src/creeper/distributed/bulk_shard.py:402-442 | the lines of a shard that is the whole object are its text |
| `HostYear.WitnessReducer.FeedRecord` | src/creeper/sources/archive/host_year.py:160-196 | one record's effect on the reducer's fields and the group it finishes |
| `HostYear.WitnessReducer.Finish` | src/creeper/sources/archive/host_year.py:198-203 | the last group, and an empty reducer |
| `HostYear.ReducerComputesGroups` | src/creeper/sources/archive/host_year.py:131-203 | feeding records and finishing yields one group per contiguous host run of the usable records, with the first witness of each year in order and the capture count |
| `HostYear.WitnessedExactly` | src/creeper/sources/archive/host_year.py:131-203 | a host and year have a witness in the groups if and only if some record is direct evidence of them, for the years 1996 to 2001 |
| `HostYear.CapturesConserved` | src/creeper/sources/archive/host_year.py:160-203 | the capture counts of the groups add up to the records that are direct evidence |
| `Packing.ParcelsCarryTheGroups` | src/creeper/distributed/bulk_shard.py:461-594 | the batches of an uninterrupted run carry exactly the groups of the shard's records, in order |
| `Packing.ParcelsOk` | src/creeper/distributed/bulk_shard.py:461-594 | every batch fits the byte target or is one item, a cursor is at hand whenever items are pending, and exactly the last batch is final |
| `BatchSizes.BatchesAreFull` | src/creeper/distributed/bulk_shard.py:461-576 | no batch but the last holds more groups than the limit, the last at most one more and only after an unterminated line, and a batch neither full nor last is followed by a group that would have crossed the byte target |
| `Resume.ResumeIsMemoryless` | src/creeper/distributed/bulk_shard.py:303-307 | restarting at the cursor of batch k reproduces batches k+1 onward, with the same items and cursors |
| `Resume.CursorsIncrease` | src/creeper/distributed/bulk_shard.py:461-506 | cursors strictly increase, sit on line starts and stay below the shard's end |
| `BulkShard.Align` | src/creeper/distributed/bulk_shard.py:408-436 | finds the first line that starts in the interval whatever the chunking |
| `BulkShard.Drain` | src/creeper/distributed/bulk_shard.py:438-506 | parses exactly the complete lines of the buffer that start in the shard |
| `BulkShard.OnChunk` | src/creeper/distributed/bulk_shard.py:402-506 | one chunk keeps the run on the track of the uninterrupted one, or shows a record over the limit |
| `BulkShard.Stream` | src/creeper/distributed/bulk_shard.py:399-506 | the whole chunk loop, for any chunking and any loss of the lease between chunks |
| `BulkShard.Settle` | src/creeper/distributed/bulk_shard.py:508-594 | the unterminated last line, the last group and the final batch, or the failure inside a cut record |
| `BulkShard.RunProducer` | src/creeper/distributed/bulk_shard.py:278-594 | a run that ends normally yields exactly the batches of its interval, closed by a summary of the records parsed and the bytes read; one that raises yields a front part of them, and the error says what the response showed |
| `BulkShard.ReadExactly` | src/creeper/distributed/bulk_shard.py:366-400 | a response is read if and only if it is partial, starts where asked, covers the shard and no more than asked for, and is of the same object |
| `RecordLimit.LimitIsExact` | src/creeper/distributed/bulk_shard.py:439-445 | no point of the stream is a reason to give up if and only if every line is within the limit |
| `RecordLimit.WithinLimitNeverRaises` | src/creeper/distributed/bulk_shard.py:439-552 | within the limit no chunking ends in a record-length error |
| `RecordLimit.BytewiseDecides` | src/creeper/distributed/bulk_shard.py:439-445 | a run on one-byte chunks, the strictest chunking, that finishes proves the limit |
| `RecordLimit.ChunkingDecides` | src/creeper/distributed/bulk_shard.py:439-552 | for one given chunking the run ends normally, unless the lease is lost, if and only if no chunk leaves more than the limit of an unfinished line |
| `RecordLimit.RegroupedRunExactly` | src/creeper/distributed/bulk_shard.py:402-445 | for the 64 KiB chunks the program asks for, that is a condition on the object's lines at multiples of 64 KiB |
| `EndToEnd.YieldedIsProduced` | src/creeper/distributed/bulk_shard.py:278-594 | everything a producer run yields, finished or interrupted, is a batch the composition covers |
| `EndToEnd.LogIsFrontOfWhole` | src/creeper/distributed/authority_store.py:805-920 | in every run, whatever workers crash, restart or race, the committed batches of a shard are a front part of the batches of one uninterrupted run |
| `EndToEnd.ExactlyOnce` | src/creeper/distributed/bulk_shard.py:278-594 | once a final batch is committed, the committed groups are exactly the host groups of the lines starting in the shard's interval |
| `Inbox.ListingIsFront` | src/creeper/distributed/authority_store.py:1009-1028 | whatever the listing query answers is the front of the batches still owed |
| `Inbox.OwedGrows` | src/creeper/distributed/authority_store.py:1009-1028 | while nobody settles the task's batches the owed list only grows at its end |
| `RegionHarvest.TakeItems` | src/creeper/distributed/bulk_shard.py:712-733 | emits the witnesses of a batch in order, keeps one summary, stops at a second one or at another kind |
| `RegionHarvest.FabricRegionHarvestExecutor.ExecuteHttpRegion` | src/creeper/distributed/bulk_shard.py:657-751 | goes on exactly while nothing ends the wait, and ends on the first turn that does: on bad items, else on a dead task, else by returning a complete one with its summary, else at the time limit; every gathered witness is emitted once and every batch id recorded |
| `RegionHarvest.GatheredIsLast` | src/creeper/distributed/bulk_shard.py:688-700 | when listings only grow, what was gathered is the last listing |
| `HarvestEndToEnd.GatheredIsOwed` | src/creeper/distributed/bulk_shard.py:688-746 | when a summary was gathered, everything owed was, in sequence order, despite the limit of 256 rows |
| `HarvestEndToEnd.HarvestExactlyOnce` | src/creeper/distributed/bulk_shard.py:657-751 | the emitted witnesses are exactly those of the host groups of the shard's lines |
| `YearMask.NovelYears` | src/creeper/authority/baseline_index.py:88-89 | a year is novel exactly when there is evidence, it is wanted and the baseline lacks it |
| `BaselineIndex.BaselineIndex.ImportFile` | src/creeper/authority/baseline_index.py:317-338 | imports the rest of one file in batches and finishes if and only if the process lives for one commit per full batch and one more; a crash keeps all full batches committed, and only a fully read file is marked complete |
| `BaselineIndex.BaselineIndex.Commit` | src/creeper/authority/baseline_index.py:308-335 | a batch and the offset behind it become durable together and keep the index faithful |
| `BaselineIndex.BaselineIndex.Build` | src/creeper/authority/baseline_index.py:189-364 | each refusal exactly when the code refuses; any other end leaves a faithful index, and the build finishes if and only if the process lives for all its commits, with all files in |
| `BaselineIndex.FinishedIsOneFold` | src/creeper/authority/baseline_index.py:340-358 | a finished index gives each host the OR of the bits of exactly the years listing it, and exactly the pool as candidates, after any crashes and batch sizes |
| `BaselineIndex.BaselineIndex.ResolveBatch` | src/creeper/authority/baseline_index.py:384-428 | for any chunk size, each valid input has the scalar answers under its normalized name, and nothing else is answered |
| `BaselineIndex.BaselineIndex.IterResolveBatches` | src/creeper/authority/baseline_index.py:430-451 | one answer for each stretch of the batch size that holds a valid input, in order, and their union is the answer to all inputs |
| `BraceScan.MatchBrace` | scripts/creeper_opencode_subagent.py:217-239 | the position that closes the brace at `start`, strings and escapes respected |
| `BraceScan.ScanObjects` | scripts/creeper_opencode_subagent.py:208-243 | yields the blocks of the specification, on every text |
| `BraceScan.SpansAreBlocks` | scripts/creeper_opencode_subagent.py:208-243 | on any text the blocks are in order, disjoint, begin with a brace, end at its match and parse |
| `BraceScan.NothingMissed` | scripts/creeper_opencode_subagent.py:208-243 | on any text every position a block can be read from lies inside a block found |
| `BraceScan.ThroughBody` | scripts/creeper_opencode_subagent.py:217-233 | nested braces, strings and escapes leave the scanner as it was |
| `BraceScan.ScanInvertsPrinting` | scripts/creeper_opencode_subagent.py:208-243 | from blocks printed between texts without an opening brace the scan yields exactly those blocks |
| `JsonText.ObjectIsBlock` | scripts/creeper_opencode_subagent.py:217-233 | every text of a JSON object, with any white space and any escapes RFC 8259 allows, is a block the scanner closes at its own last brace |
| `JsonText.ObjectHasForm` | scripts/creeper_opencode_subagent.py:208-243 | every JSON object has such a text, so nothing is left out |
| `JsonText.ScanFindsWrittenObjects` | scripts/creeper_opencode_subagent.py:208-243 | from JSON objects in any layout per RFC 8259, between texts without an opening brace, the scan finds exactly their texts; the parser is asked only to accept these objects |
| `JsonText.ScanYieldsTheirValues` | scripts/creeper_opencode_subagent.py:229-240 | what is yielded are the values of these objects, one by one and in order |
| `Rotation.HistoricalIndexService.RotateIndexes` | src/creeper/historical_index_service.py:770-789 | selects the next keys after the checkpoint, around the end, and stores the last one |
| `Rotation.NoIndexTwice` | src/creeper/historical_index_service.py:782-783 | no index is selected twice in a cycle |
| `Rotation.CyclesAdjoin` | src/creeper/historical_index_service.py:773-789 | each cycle starts where the one before stopped |
| `Rotation.EveryIndexSelected` | src/creeper/historical_index_service.py:770-789 | from any checkpoint every index is selected within any ceil(n/m) consecutive cycles |

## Left out

- Heartbeats, the outbox, artifact rows, `task_row` and the status snapshot: they carry no property of the above.
- `AuthorityStore.DistributedAuthorityStore.CommitResultBatch`: does not write the artifact rows and the outbox event, which nothing here reads.
- `AuthorityStore.DistributedAuthorityStore.CollectGarbage`: does not delete outbox events and artifact links.
- `BaselineIndex.BaselineIndex.Build`: leaves out the check for the obsolete schema and the manifest's own checks of the input directory, which come before the import.
- `StoreRuns.ServeAll`: the listing and status queries, which change nothing, are not among its calls.
- Clock readings: a transaction has one `now`, although `_assert_active_lease`, `renew_task` and `_region_eligible` read the clock again; only the two readings of an authenticated request are kept apart.
- Postgres transactions: only the claim filter and the choice it leads to are compared; row locks and `SKIP LOCKED` are not modelled.
- Order among equal rows: ties in `ORDER BY`, and which rows a limited deletion takes first, are free choices.
- Hashes: work keys, batch ids, payload digests, baseline digests and signatures are collision-free; the model keeps what is hashed.
- `strip()` removes four ASCII white-space characters in the model and all Unicode white space in the program.
- `Ownership.MutualExclusion`: claims and renewals use one lease length; a shorter one could lower a deadline.
- Worker descriptors keep only the fields some operation reads; foreign keys and column checks are assumptions of the methods.
- `AuthorityStore.DistributedAuthorityStore.RecordProviderRegionObservation`: the worker and lease checks happen in the same transaction, while the program makes them just before it.
- Waiting times of the lease keeper's loop: the loop is modelled over any sequence of clock readings and answers.
- Progress: a lease that expires on its last attempt stays leased, a claim sees 128 rows and a listing 256, so no progress of tasks or of the harvest loop is claimed.
- `RegionHarvest.FabricRegionHarvestExecutor.ExecuteHttpRegion`: takes the polls as given and answers `Waiting` when they end; items of a wrong JSON type, and the elapsed time of a summary, are not modelled.
- `harvest` and `reconcile_consumed_harvest_batches`: what they mark as consumed appears as events of a run.
- The counts in a harvest summary cover the last producer run only; nothing is proved about them across resumes.
- HTTP: the response is its status, its parsed Content-Range, whether its identity matches, and its chunks; the body is exactly the bytes section 14.4 of RFC 9110 says Content-Range names.
- The line parser, the serialized size of a group, `json.loads`, the host normalizer and the number parser are parameters.
- Serialization of work, witnesses and batches.
- The baseline index's schema checks, digests of the input files and `bind_authority`; year masks are eight bits wide; the generator of `iter_resolve_batches` is the list of what it yields.
- The fast path and the fenced block of `_iter_json_objects`, and the choice among the objects found.
- The set of eligible indexes between cycles is fixed.
