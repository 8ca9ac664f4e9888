// The renewal loop that keeps one lease alive on the worker side.
module LeaseKeeping {
  import opened Base
  import opened Wire

  datatype Keeper = Keeper(lease: Lease, lost: bool)

  // What reaches the loop: an answer to a renewal, a refusal, or the clock
  // reading taken before a renewal or after a transport failure.
  datatype Heard = Renewed(answer: Lease) | Refused | Checked(now: real)

  predicate SameIdentity(a: Lease, b: Lease) {
    a.task == b.task && a.generation == b.generation && a.worker == b.worker && a.instance == b.instance
  }

  function Hear(k: Keeper, h: Heard): Keeper {
    if k.lost then k else
    match h
    case Renewed(m) => if SameIdentity(m, k.lease) then k.(lease := m) else k.(lost := true)
    case Refused => k.(lost := true)
    case Checked(now) => if k.lease.deadline - now <= 0.0 then k.(lost := true) else k
  }

  function HearAll(k: Keeper, hs: seq<Heard>): Keeper
    decreases |hs|
  {
    if hs == [] then k else HearAll(Hear(k, hs[0]), hs[1..])
  }

  predicate Owned(k: Keeper, now: real) {
    !k.lost && now < k.lease.deadline
  }

  // One pass of the outer loop: the clock at its start, whether a stop arrives
  // while it waits, and what the renewal attempts meet.
  datatype Attempt = Answered(answer: Lease) | Stale | Transport(now: real, stop: bool) | OtherFailure
  datatype Turn = Turn(now: real, stop: bool, attempts: seq<Attempt>)

  // The keeper after the attempts, and whether the outer loop goes on.
  function Attempted(k: Keeper, attempts: seq<Attempt>): (Keeper, bool)
    decreases |attempts|
  {
    if attempts == [] then (k, false) else
    match attempts[0]
    case Answered(m) => (Hear(k, Renewed(m)), !Hear(k, Renewed(m)).lost)
    case Transport(now, stop) =>
      var k' := Hear(k, Checked(now));
      if k'.lost || stop then (k', false) else Attempted(k', attempts[1..])
    case _ => (Hear(k, Refused), false)
  }

  function Turned(k: Keeper, turns: seq<Turn>): Keeper
    decreases |turns|
  {
    if turns == [] then k else
    var k1 := Hear(k, Checked(turns[0].now));
    if k1.lost || turns[0].stop then k1 else
    var (k2, go) := Attempted(k1, turns[0].attempts);
    if go then Turned(k2, turns[1..]) else k2
  }

  class LeaseKeeper {
    var lease: Lease
    var lost: bool

    constructor (lease: Lease)
      ensures State() == Keeper(lease, false)
    {
      this.lease := lease;
      this.lost := false;
    }

    function State(): Keeper
      reads this
    {
      Keeper(lease, lost)
    }

    method AssertOwned(now: real) returns (owned: bool)
      ensures owned <==> Owned(State(), now)
    {
      if lost {
        return false;
      }
      owned := now < lease.deadline;
    }

    // Tries to renew until an answer, a refusal, a stop or the deadline.
    method Attempt(attempts: seq<Attempt>) returns (answer: Option<Lease>)
      requires !lost
      modifies this
      ensures lease == old(lease)
      ensures match answer
              case Some(m) => !lost && Attempted(old(State()), attempts) == (Hear(old(State()), Renewed(m)), SameIdentity(m, lease))
              case None => Attempted(old(State()), attempts) == (State(), false)
    {
      var i := 0;
      while i < |attempts|
        invariant 0 <= i <= |attempts|
        invariant !lost && lease == old(lease)
        invariant Attempted(old(State()), attempts) == Attempted(State(), attempts[i..])
      {
        match attempts[i] {
          case Answered(m) =>
            return Some(m);
          case Transport(now, stop) =>
            if lease.deadline - now <= 0.0 {
              lost := true;
              return None;
            }
            if stop {
              return None;
            }
            assert attempts[i..][1..] == attempts[i + 1..];
          case _ =>
            lost := true;
            return None;
        }
        i := i + 1;
      }
      return None;
    }

    method Run(turns: seq<Turn>)
      requires !lost
      modifies this
      ensures State() == Turned(old(State()), turns)
    {
      var i := 0;
      while i < |turns|
        invariant 0 <= i <= |turns| && !lost
        invariant Turned(old(State()), turns) == Turned(State(), turns[i..])
      {
        var remaining := lease.deadline - turns[i].now;
        if remaining <= 0.0 {
          lost := true;
          return;
        }
        if turns[i].stop {
          return;
        }
        var answer := Attempt(turns[i].attempts);
        if answer.None? {
          return;
        }
        var renewed := answer.value;
        if renewed.task != lease.task || renewed.generation != lease.generation
           || renewed.worker != lease.worker || renewed.instance != lease.instance {
          lost := true;
          return;
        }
        lease := renewed;
        assert turns[i..][1..] == turns[i + 1..];
        i := i + 1;
      }
    }
  }

  // ----- whose lease a keeper keeps

  // Whatever is heard, the lease stays that of the same task, generation, worker
  // and instance, and a lost keeper stays lost.
  lemma {:induction false} IdentityKept(k: Keeper, hs: seq<Heard>)
    ensures var k' := HearAll(k, hs);
            && k'.lease.task == k.lease.task && k'.lease.generation == k.lease.generation
            && k'.lease.worker == k.lease.worker && k'.lease.instance == k.lease.instance
            && (k.lost ==> k' == k)
    decreases |hs|
  {
    if hs != [] { IdentityKept(Hear(k, hs[0]), hs[1..]); }
  }

  // What ends the keeper's ownership: an answer for another task, generation,
  // worker or instance, a refusal, or a reading of the clock at or past the
  // deadline it then has.
  predicate Fatal(k: Keeper, h: Heard) {
    match h
    case Renewed(m) =>
      m.task != k.lease.task || m.generation != k.lease.generation || m.worker != k.lease.worker || m.instance != k.lease.instance
    case Refused => true
    case Checked(now) => k.lease.deadline <= now
  }

  // A keeper that was not lost is lost exactly when something fatal was heard on
  // the way; until then its lease is the last answer heard, if there was any.
  lemma {:induction false} LostExactly(k: Keeper, hs: seq<Heard>)
    requires !k.lost
    ensures HearAll(k, hs).lost <==> exists i :: 0 <= i < |hs| && Fatal(HearAll(k, hs[..i]), hs[i])
    ensures !HearAll(k, hs).lost ==> HearAll(k, hs).lease == LastAnswer(k.lease, hs)
  {
    if hs != [] {
      var n := |hs| - 1;
      var front := hs[..n];
      LostExactly(k, front);
      assert hs == front + [hs[n]];
      HearAllAppend(k, front, [hs[n]]);
      assert forall i :: 0 <= i <= n ==> front[..i] == hs[..i];
      assert HearAll(k, hs) == Hear(HearAll(k, front), hs[n]);
      IdentityKept(k, front);
    }
  }

  // The attempt ends the inner loop: anything but a transport failure with time
  // left and no stop.
  predicate Ends(k: Keeper, a: Attempt) {
    match a
    case Transport(now, stop) => stop || k.lease.deadline <= now
    case _ => true
  }

  // What one turn of the loop does: it loses a lease at or past its deadline,
  // leaves on a stop, and otherwise retries until the first attempt that ends
  // the turn, which alone decides whether the lease is replaced and the loop
  // goes on, is lost, or stays as it is.
  lemma {:induction false} TurnDecides(k: Keeper, turns: seq<Turn>, n: nat)
    requires !k.lost && turns != [] && n <= |turns[0].attempts|
    requires forall i :: 0 <= i < n ==> !Ends(k, turns[0].attempts[i])
    requires n < |turns[0].attempts| ==> Ends(k, turns[0].attempts[n])
    ensures var k' := Turned(k, turns);
            if k.lease.deadline <= turns[0].now then k' == Keeper(k.lease, true)
            else if turns[0].stop || n == |turns[0].attempts| then k' == k
            else
              match turns[0].attempts[n]
              case Answered(m) =>
                if m.task == k.lease.task && m.generation == k.lease.generation && m.worker == k.lease.worker
                   && m.instance == k.lease.instance
                then k' == Turned(Keeper(m, false), turns[1..])
                else k' == Keeper(k.lease, true)
              case Transport(now, _) => k' == Keeper(k.lease, k.lease.deadline <= now)
              case _ => k' == Keeper(k.lease, true)
  {
    if turns[0].now < k.lease.deadline && !turns[0].stop { AttemptsPass(k, turns[0].attempts, n); }
  }

  lemma {:induction false} AttemptsPass(k: Keeper, attempts: seq<Attempt>, n: nat)
    requires !k.lost && n <= |attempts| && forall i :: 0 <= i < n ==> !Ends(k, attempts[i])
    ensures Attempted(k, attempts) == Attempted(k, attempts[n..])
    decreases n
  {
    if n > 0 {
      assert !Ends(k, attempts[0]);
      AttemptsPass(k, attempts[1..], n - 1);
      assert attempts[1..][n - 1..] == attempts[n..];
    } else {
      assert attempts[0..] == attempts;
    }
  }

  function LastAnswer(first: Lease, hs: seq<Heard>): Lease {
    if hs == [] then first
    else if hs[|hs| - 1].Renewed? then hs[|hs| - 1].answer
    else LastAnswer(first, hs[..|hs| - 1])
  }

  predicate AnsweredIn(turns: seq<Turn>, m: Lease) {
    exists i :: 0 <= i < |turns| && Answered(m) in turns[i].attempts
  }

  lemma {:induction false} HearAllAppend(k: Keeper, a: seq<Heard>, b: seq<Heard>)
    ensures HearAll(k, a + b) == HearAll(HearAll(k, a), b)
    decreases |a|
  {
    if a == [] {
      assert a + b == b;
    } else {
      HearAllAppend(Hear(k, a[0]), a[1..], b);
      assert (a + b)[0] == a[0];
      DropFront(a, b, 1);
    }
  }

  lemma {:induction false} AttemptsHeard(k: Keeper, attempts: seq<Attempt>) returns (hs: seq<Heard>)
    ensures HearAll(k, hs) == Attempted(k, attempts).0
    ensures forall h :: h in hs && h.Renewed? ==> Answered(h.answer) in attempts
    decreases |attempts|
  {
    hs := [];
    if attempts != [] {
      match attempts[0]
      case Answered(m) => hs := [Renewed(m)];
      case Transport(now, stop) =>
        var rest := [];
        var k' := Hear(k, Checked(now));
        if !(k'.lost || stop) { rest := AttemptsHeard(k', attempts[1..]); }
        hs := [Checked(now)] + rest;
      case _ => hs := [Refused];
    }
  }

  // The loop does nothing but hear: answers it was given, refusals and its own
  // clock checks. In particular its lease is the first one or a later answer
  // with the same identity.
  lemma {:induction false} LoopOnlyHears(k: Keeper, turns: seq<Turn>) returns (hs: seq<Heard>)
    ensures HearAll(k, hs) == Turned(k, turns)
    ensures forall h :: h in hs && h.Renewed? ==> AnsweredIn(turns, h.answer)
    decreases |turns|
  {
    if turns == [] {
      hs := [];
    } else {
      var k1 := Hear(k, Checked(turns[0].now));
      hs := [Checked(turns[0].now)];
      if !(k1.lost || turns[0].stop) {
        var more := AttemptsHeard(k1, turns[0].attempts);
        HearAllAppend(k, hs, more);
        hs := hs + more;
        var (k2, go) := Attempted(k1, turns[0].attempts);
        if go {
          var rest := LoopOnlyHears(k2, turns[1..]);
          HearAllAppend(k, hs, rest);
          assert forall m :: AnsweredIn(turns[1..], m) ==> AnsweredIn(turns, m) by {
            forall m | AnsweredIn(turns[1..], m) ensures AnsweredIn(turns, m) {
              var i :| 0 <= i < |turns[1..]| && Answered(m) in turns[1..][i].attempts;
              assert turns[i + 1] == turns[1..][i];
            }
          }
          hs := hs + rest;
        }
      }
    }
  }
}
