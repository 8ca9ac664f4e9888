// Authentication of signed worker requests, and why a signed request takes
// effect at most once: the clock-skew window against the retention of nonces.
module RequestAuth {
  import opened Base
  import opened Wire

  // How the timestamp text reads as a floating-point number.
  datatype Stamp = Malformed | NotANumber | Infinite | Finite(at: real)

  // The fields a signature covers.
  datatype Signed = Signed(verb: string, path: string, body: string, instance: Id, timestamp: string, nonce: string)

  datatype Request = Request(worker: Id, fields: Signed, signature: string)
  {
    function Key(): NonceKey { (worker, fields.nonce) }
  }

  type NonceKey = (Id, string)
  type Nonces = map<NonceKey, real>

  datatype AuthError =
    | UnknownCredential
    | MissingMetadata
    | InvalidTimestamp
    | ExpiredTimestamp
    | InvalidSignature
    | NonceReplay
    | InvalidRetention

  // What the authenticator is given: secrets, number parsing, the keyed hash
  // and the lower-casing of texts.
  datatype Scheme = Scheme(
    credentials: map<Id, string>,
    parse: string -> Stamp,
    sign: (string, Signed) -> string,
    lower: string -> string)

  // Distance of the clock from the stamp beyond the allowed skew. A comparison
  // with a stamp that is not a number is false.
  predicate Expired(stamp: Stamp, now: real, skew: real) {
    match stamp
    case Finite(at) => now - at > skew || at - now > skew
    case Infinite => true
    case _ => false
  }

  function Kept(n: Nonces, cutoff: real): Nonces {
    map k | k in n && n[k] >= cutoff :: n[k]
  }

  // One transaction: forget what is too old, then insert unless present.
  function ConsumeNonce(n: Nonces, key: NonceKey, retention: real, now: real): (Nonces, Result<bool, AuthError>) {
    if retention <= 0.0 then (n, Err(InvalidRetention)) else
    var kept := Kept(n, now - retention);
    if key in kept then (kept, Ok(false)) else (kept[key := now], Ok(true))
  }

  // Every check made before the nonce is consumed, in order.
  function Vet(s: Scheme, skew: real, r: Request, now: real): Result<(), AuthError> {
    if r.worker !in s.credentials then Err(UnknownCredential)
    else if Strip(r.fields.instance) == "" || Strip(r.fields.nonce) == "" || Strip(r.fields.timestamp) == ""
            || Strip(r.signature) == "" then Err(MissingMetadata)
    else if s.parse(r.fields.timestamp).Malformed? then Err(InvalidTimestamp)
    else if Expired(s.parse(r.fields.timestamp), now, skew) then Err(ExpiredTimestamp)
    else if s.sign(s.credentials[r.worker], r.fields) != s.lower(r.signature) then Err(InvalidSignature)
    else Ok(())
  }

  function Verdict(s: Scheme, skew: real, retention: real, n: Nonces, r: Request, now: real, later: real)
    : Result<(Id, Id), AuthError>
    requires retention > 0.0
  {
    if Vet(s, skew, r, now).Err? then Err(Vet(s, skew, r, now).error)
    else if ConsumeNonce(n, r.Key(), retention, later).1 == Ok(false) then Err(NonceReplay)
    else Ok((r.worker, r.fields.instance))
  }

  function Remember(s: Scheme, skew: real, retention: real, n: Nonces, r: Request, now: real, later: real): Nonces {
    if Vet(s, skew, r, now).Err? then n else ConsumeNonce(n, r.Key(), retention, later).0
  }

  // The reading of the clock lies within the skew of the stamp, on both sides.
  // A stamp that is not a number is near every time.
  predicate Near(stamp: Stamp, now: real, skew: real) {
    match stamp
    case Malformed => false
    case NotANumber => true
    case Infinite => false
    case Finite(at) => now - skew <= at <= now + skew
  }

  // Known worker, nothing blank, signed with that worker's secret, in time.
  predicate Genuine(s: Scheme, skew: real, r: Request, now: real) {
    && r.worker in s.credentials
    && s.lower(r.signature) == s.sign(s.credentials[r.worker], r.fields)
    && Strip(r.fields.instance) != "" && Strip(r.fields.nonce) != "" && Strip(r.fields.timestamp) != "" && Strip(r.signature) != ""
    && Near(s.parse(r.fields.timestamp), now, skew)
  }

  // A request is accepted exactly when it is genuine and its nonce is not on
  // record within the retention; it is accepted in the name it was signed with,
  // and only a genuine request touches the nonces.
  lemma AcceptedExactly(s: Scheme, skew: real, retention: real, n: Nonces, r: Request, now: real, later: real)
    requires retention > 0.0
    ensures Verdict(s, skew, retention, n, r, now, later).Ok?
            <==> Genuine(s, skew, r, now) && !(r.Key() in n && later - retention <= n[r.Key()])
    ensures Verdict(s, skew, retention, n, r, now, later).Ok? ==>
              Verdict(s, skew, retention, n, r, now, later).value == (r.worker, r.fields.instance)
    ensures Verdict(s, skew, retention, n, r, now, later) == Err(NonceReplay) <==>
              Genuine(s, skew, r, now) && r.Key() in n && later - retention <= n[r.Key()]
    ensures var n' := Remember(s, skew, retention, n, r, now, later);
            if !Genuine(s, skew, r, now) then n' == n
            else
              && r.Key() in n'
              && (Verdict(s, skew, retention, n, r, now, later).Ok? ==> n'[r.Key()] == later)
              && (forall k :: k in n && later - retention <= n[k] ==> k in n' && n'[k] == n[k])
              && (forall k :: k in n' && k != r.Key() ==> k in n && n'[k] == n[k] && later - retention <= n[k])
  {
  }

  // ----- whole runs

  // `later` is the store's reading of the clock inside its transaction. A sweep
  // that forgets nothing stands for any other transaction of the store.
  datatype Event =
    | Attempt(request: Request, now: real, later: real)
    | Sweep(gone: set<NonceKey>, at: real)

  // `lag` bounds the time between the two clock readings of one request;
  // `sweep` is the retention of operator garbage collection, if there is any.
  datatype Setting = Setting(skew: real, retention: real, lag: real, sweep: Option<real>)

  predicate ValidSetting(c: Setting) {
    c.skew > 0.0 && c.retention >= 2.0 * c.skew && c.lag >= 0.0 && (c.sweep.Some? ==> c.sweep.value > 0.0)
  }

  datatype Log = Log(nonces: Nonces, clock: real)

  ghost predicate Legal(c: Setting, w: Log, e: Event) {
    match e
    case Attempt(_, now, later) => w.clock <= later && now <= later <= now + c.lag
    case Sweep(gone, at) =>
      w.clock <= at && forall k :: k in gone ==> c.sweep.Some? && k in w.nonces && w.nonces[k] <= at - c.sweep.value
  }

  function Next(s: Scheme, c: Setting, w: Log, e: Event): Log {
    match e
    case Attempt(r, now, later) => Log(Remember(s, c.skew, c.retention, w.nonces, r, now, later), later)
    case Sweep(gone, at) => Log(w.nonces - gone, at)
  }

  // Events that cannot happen are skipped, so every sequence is a run.
  ghost function Run(s: Scheme, c: Setting, start: real, run: seq<Event>): Log {
    if run == [] then Log(map[], start) else
    var w := Run(s, c, start, run[..|run| - 1]);
    var e := run[|run| - 1];
    if Legal(c, w, e) then Next(s, c, w, e) else w
  }

  // The i-th event of the run is an accepted request with these fields.
  ghost predicate AcceptedAt(s: Scheme, c: Setting, start: real, run: seq<Event>, i: nat,
                             worker: Id, timestamp: string, nonce: string)
    requires i < |run| && c.retention > 0.0
  {
    var w := Run(s, c, start, run[..i]);
    && Legal(c, w, run[i])
    && run[i].Attempt?
    && run[i].request.worker == worker && run[i].request.fields.timestamp == timestamp && run[i].request.fields.nonce == nonce
    && Verdict(s, c.skew, c.retention, w.nonces, run[i].request, run[i].now, run[i].later).Ok?
  }

  // The i-th event accepts a request under this key, or forgets the key.
  ghost predicate Accepts(s: Scheme, c: Setting, start: real, run: seq<Event>, i: nat, key: NonceKey)
    requires i < |run| && c.retention > 0.0
  {
    var w := Run(s, c, start, run[..i]);
    && Legal(c, w, run[i]) && run[i].Attempt? && run[i].request.Key() == key
    && Verdict(s, c.skew, c.retention, w.nonces, run[i].request, run[i].now, run[i].later).Ok?
  }

  ghost predicate Forgets(s: Scheme, c: Setting, start: real, run: seq<Event>, i: nat, key: NonceKey)
    requires i < |run|
  {
    Legal(c, Run(s, c, start, run[..i]), run[i]) && run[i].Sweep? && key in run[i].gone
  }

  // Accepted at i and not forgotten by an operator since.
  ghost predicate Standing(s: Scheme, c: Setting, start: real, run: seq<Event>, i: nat, key: NonceKey)
    requires c.retention > 0.0
  {
    i < |run| && Accepts(s, c, start, run, i, key) && forall k :: i < k < |run| ==> !Forgets(s, c, start, run, k, key)
  }

  // The nonces on record are the standing acceptances, down to the retention.
  ghost predicate OnRecord(s: Scheme, c: Setting, start: real, run: seq<Event>, key: NonceKey)
    requires c.retention > 0.0
  {
    var w := Run(s, c, start, run);
    && (key in w.nonces ==> exists i: nat :: Standing(s, c, start, run, i, key) && run[i].later == w.nonces[key])
    && forall i: nat :: Standing(s, c, start, run, i, key) ==>
         (key in w.nonces && w.nonces[key] == run[i].later) || run[i].later < w.clock - c.retention
  }

  lemma {:induction false} StandingBefore(s: Scheme, c: Setting, start: real, run: seq<Event>, i: nat, key: NonceKey)
    requires c.retention > 0.0 && i < |run| - 1
    ensures Standing(s, c, start, run, i, key) <==>
              Standing(s, c, start, run[..|run| - 1], i, key) && !Forgets(s, c, start, run, |run| - 1, key)
  {
    hide Run, Verdict, Legal;
    var front := run[..|run| - 1];
    assert forall k :: 0 <= k <= |front| ==> front[..k] == run[..k];
    forall k | 0 <= k < |front| ensures Forgets(s, c, start, front, k, key) <==> Forgets(s, c, start, run, k, key) {
    }
  }

  lemma {:induction false} NoncesOnRecord(s: Scheme, c: Setting, start: real, run: seq<Event>, key: NonceKey)
    requires c.retention > 0.0
    ensures OnRecord(s, c, start, run, key)
  {
    if run != [] {
      var n := |run| - 1;
      NoncesOnRecord(s, c, start, run[..n], key);
      forall i: nat | i < n
        ensures Standing(s, c, start, run, i, key) <==>
                  Standing(s, c, start, run[..n], i, key) && !Forgets(s, c, start, run, n, key)
      {
        StandingBefore(s, c, start, run, i, key);
      }
      KeyStep(s, c, start, run, key);
      OnRecordStep(s, c, start, run, key);
    }
  }

  // What the last event does to one key.
  lemma {:induction false} KeyStep(s: Scheme, c: Setting, start: real, run: seq<Event>, key: NonceKey)
    requires c.retention > 0.0 && run != []
    ensures var n := |run| - 1;
            var w, w' := Run(s, c, start, run[..n]), Run(s, c, start, run);
            && w.clock <= w'.clock
            && if Accepts(s, c, start, run, n, key)
               then
                 && !Forgets(s, c, start, run, n, key)
                 && w'.clock == run[n].later && key in w'.nonces && w'.nonces[key] == run[n].later
                 && (key in w.nonces ==> w.nonces[key] < w'.clock - c.retention)
               else
                 && (key in w'.nonces ==> key in w.nonces && w'.nonces[key] == w.nonces[key])
                 && (Forgets(s, c, start, run, n, key) ==> key !in w'.nonces)
                 && (key in w.nonces && key !in w'.nonces && !Forgets(s, c, start, run, n, key) ==>
                       w.nonces[key] < w'.clock - c.retention)
  {
    hide Genuine, Verdict, Remember;
    var n := |run| - 1;
    var w, e := Run(s, c, start, run[..n]), run[n];
    if Legal(c, w, e) && e.Attempt? {
      AcceptedExactly(s, c.skew, c.retention, w.nonces, e.request, e.now, e.later);
    }
  }

  lemma {:induction false} OnRecordStep(s: Scheme, c: Setting, start: real, run: seq<Event>, key: NonceKey)
    requires c.retention > 0.0 && run != [] && OnRecord(s, c, start, run[..|run| - 1], key)
    requires forall i: nat :: i < |run| - 1 ==>
               (Standing(s, c, start, run, i, key) <==>
                  Standing(s, c, start, run[..|run| - 1], i, key) && !Forgets(s, c, start, run, |run| - 1, key))
    ensures OnRecord(s, c, start, run, key)
  {
    KeyStep(s, c, start, run, key);
    hide Run, Accepts, Forgets;
    var n := |run| - 1;
    var w, w' := Run(s, c, start, run[..n]), Run(s, c, start, run);
    assert Standing(s, c, start, run, n, key) <==> Accepts(s, c, start, run, n, key);
    hide Standing;
    if key in w'.nonces {
      if Accepts(s, c, start, run, n, key) {
        assert Standing(s, c, start, run, n, key) && run[n].later == w'.nonces[key];
      } else {
        var i: nat :| Standing(s, c, start, run[..n], i, key) && run[..n][i].later == w.nonces[key];
        assert Standing(s, c, start, run, i, key) && run[i].later == w'.nonces[key];
      }
    }
  }

  // In every run, a request is accepted exactly when it is genuine and no
  // acceptance of its nonce for its worker still stands from within the
  // retention.
  lemma {:induction false} AcceptedInRunExactly(s: Scheme, c: Setting, start: real, run: seq<Event>, r: Request, now: real, later: real)
    requires c.retention > 0.0 && Run(s, c, start, run).clock <= later
    ensures Verdict(s, c.skew, c.retention, Run(s, c, start, run).nonces, r, now, later).Ok?
            <==> && Genuine(s, c.skew, r, now)
                 && forall i: nat :: Standing(s, c, start, run, i, r.Key()) ==> run[i].later < later - c.retention
  {
    hide Run, Verdict, Genuine, Standing;
    AcceptedExactly(s, c.skew, c.retention, Run(s, c, start, run).nonces, r, now, later);
    NoncesOnRecord(s, c, start, run, r.Key());
  }

  // In no run are these fields accepted twice, whatever body or signature
  // travels with them.
  ghost predicate ReplayProof(s: Scheme, c: Setting, worker: Id, timestamp: string, nonce: string)
    requires c.retention > 0.0
  {
    forall start: real, run: seq<Event>, i: nat, j: nat ::
      i < j < |run| && AcceptedAt(s, c, start, run, i, worker, timestamp, nonce)
      ==> !AcceptedAt(s, c, start, run, j, worker, timestamp, nonce)
  }

  // How long a stamp can stay acceptable to the store after its first use.
  function Exposure(c: Setting): real { 2.0 * c.skew + c.lag }

  // What an operator can check beforehand.
  predicate Covers(c: Setting) {
    c.retention >= Exposure(c) && (c.sweep.Some? ==> c.sweep.value > Exposure(c))
  }

  // The nonce seen at `seen` is still on record, or its stamp is out of reach.
  ghost predicate Spent(c: Setting, w: Log, key: NonceKey, seen: real) {
    (key in w.nonces && w.nonces[key] == seen) || w.clock > seen + Exposure(c)
  }

  lemma SpentStep(s: Scheme, c: Setting, w: Log, e: Event, key: NonceKey, seen: real)
    requires ValidSetting(c) && Covers(c) && Legal(c, w, e) && Spent(c, w, key, seen)
    ensures Spent(c, Next(s, c, w, e), key, seen)
  {
  }

  lemma {:induction false} StaysSpent(s: Scheme, c: Setting, start: real, run: seq<Event>, i: nat, key: NonceKey, seen: real)
    requires ValidSetting(c) && Covers(c) && i <= |run| && Spent(c, Run(s, c, start, run[..i]), key, seen)
    ensures Spent(c, Run(s, c, start, run), key, seen)
    decreases |run| - i
  {
    if i == |run| {
      assert run[..i] == run;
    } else {
      var w := Run(s, c, start, run[..i]);
      assert run[..i + 1][..i] == run[..i];
      if Legal(c, w, run[i]) { SpentStep(s, c, w, run[i], key, seen); }
      StaysSpent(s, c, start, run, i + 1, key, seen);
    }
  }

  // A covered finite stamp is good for one acceptance.
  lemma {:induction false} FiniteStampOnce(s: Scheme, c: Setting, start: real, run: seq<Event>, i: nat, j: nat,
                        worker: Id, timestamp: string, nonce: string)
    requires ValidSetting(c) && Covers(c) && s.parse(timestamp).Finite?
    requires i < j < |run| && AcceptedAt(s, c, start, run, i, worker, timestamp, nonce)
    ensures !AcceptedAt(s, c, start, run, j, worker, timestamp, nonce)
  {
    var key := (worker, nonce);
    assert run[..i + 1][..i] == run[..i];
    assert Spent(c, Run(s, c, start, run[..i + 1]), key, run[i].later);
    assert run[..j][..i + 1] == run[..i + 1];
    StaysSpent(s, c, start, run[..j], i + 1, key, run[i].later);
  }

  // ----- and no weaker condition will do

  // The credential exists, the texts are not blank, and a digest is lower-case
  // text, so that a properly signed request passes.
  ghost predicate CanSign(s: Scheme, worker: Id, timestamp: string, nonce: string) {
    && worker in s.credentials && Strip(timestamp) != "" && Strip(nonce) != ""
    && forall f :: Strip(s.sign(s.credentials[worker], f)) != ""
                   && s.lower(s.sign(s.credentials[worker], f)) == s.sign(s.credentials[worker], f)
  }

  function Proper(s: Scheme, worker: Id, timestamp: string, nonce: string): Request
    requires worker in s.credentials
  {
    var f := Signed("POST", "/v2/claim", "{}", "instance", timestamp, nonce);
    Request(worker, f, s.sign(s.credentials[worker], f))
  }

  lemma ProperPasses(s: Scheme, c: Setting, worker: Id, timestamp: string, nonce: string, now: real)
    requires CanSign(s, worker, timestamp, nonce)
    requires !s.parse(timestamp).Malformed? && !Expired(s.parse(timestamp), now, c.skew)
    ensures Vet(s, c.skew, Proper(s, worker, timestamp, nonce), now).Ok?
  {
  }

  // The same request at two instants, with or without a sweep in between.
  lemma TwiceAccepted(s: Scheme, c: Setting, worker: Id, timestamp: string, nonce: string, now: real, late: real, swept: bool)
    requires ValidSetting(c) && CanSign(s, worker, timestamp, nonce) && !s.parse(timestamp).Malformed? && now <= late
    requires !Expired(s.parse(timestamp), now, c.skew) && !Expired(s.parse(timestamp), late, c.skew)
    requires if swept then c.sweep.Some? && now <= late + c.lag - c.sweep.value else now < late + c.lag - c.retention
    ensures !ReplayProof(s, c, worker, timestamp, nonce)
  {
    var r := Proper(s, worker, timestamp, nonce);
    var first, again := Attempt(r, now, now), Attempt(r, late, late + c.lag);
    ProperPasses(s, c, worker, timestamp, nonce, now);
    ProperPasses(s, c, worker, timestamp, nonce, late);
    assert Run(s, c, now, []) == Log(map[], now);
    assert [first][..0] == [];
    var w := Run(s, c, now, [first]);
    assert w == Log(map[r.Key() := now], now);
    if swept {
      var sweep := Sweep({r.Key()}, late + c.lag);
      var run := [first, sweep, again];
      assert run[..0] == [] && run[..1] == [first] && run[..2] == [first, sweep];
      assert [first, sweep][..1] == [first];
      assert Run(s, c, now, [first, sweep]) == Log(map[], late + c.lag);
      assert AcceptedAt(s, c, now, run, 0, worker, timestamp, nonce);
      assert AcceptedAt(s, c, now, run, 2, worker, timestamp, nonce);
    } else {
      var run := [first, again];
      assert run[..0] == [] && run[..1] == [first];
      assert AcceptedAt(s, c, now, run, 0, worker, timestamp, nonce);
      assert AcceptedAt(s, c, now, run, 1, worker, timestamp, nonce);
    }
  }

  // Replay is impossible exactly when the stamp is a finite number (or never
  // acceptable at all) and both retentions outlast its exposure. A stamp that
  // reads as "not a number" passes the skew check at any time.
  lemma ReplayProofExactly(s: Scheme, c: Setting, worker: Id, timestamp: string, nonce: string)
    requires ValidSetting(c) && CanSign(s, worker, timestamp, nonce)
    ensures ReplayProof(s, c, worker, timestamp, nonce)
            <==> match s.parse(timestamp)
                 case Malformed => true
                 case Infinite => true
                 case NotANumber => false
                 case Finite(_) => Covers(c)
  {
    match s.parse(timestamp)
    case NotANumber =>
      TwiceAccepted(s, c, worker, timestamp, nonce, 0.0, c.retention + 1.0, false);
    case Finite(at) =>
      if Covers(c) {
        forall start: real, run: seq<Event>, i: nat, j: nat |
            i < j < |run| && AcceptedAt(s, c, start, run, i, worker, timestamp, nonce)
          ensures !AcceptedAt(s, c, start, run, j, worker, timestamp, nonce)
        {
          FiniteStampOnce(s, c, start, run, i, j, worker, timestamp, nonce);
        }
      } else {
        TwiceAccepted(s, c, worker, timestamp, nonce, at - c.skew, at + c.skew, c.retention >= Exposure(c));
      }
    case _ =>
  }

  // With one clock reading per request the constructor's choice always
  // suffices; with operator collection its retention must exceed twice the skew.
  lemma OneReadingSuffices(s: Scheme, c: Setting, worker: Id, timestamp: string, nonce: string)
    requires ValidSetting(c) && CanSign(s, worker, timestamp, nonce) && c.lag == 0.0 && s.parse(timestamp).Finite?
    ensures ReplayProof(s, c, worker, timestamp, nonce) <==> (c.sweep.Some? ==> c.sweep.value > 2.0 * c.skew)
  {
    ReplayProofExactly(s, c, worker, timestamp, nonce);
  }
}
