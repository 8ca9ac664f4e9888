// The rotating index selector: a stored checkpoint, a search for the first key
// after it, and why no index waits longer than one full round.
module Rotation {
  import opened Base

  // ----- the order of keys: character by character, shorter first

  predicate Less(a: string, b: string) {
    if b == "" then false
    else if a == "" then true
    else a[0] < b[0] || (a[0] == b[0] && Less(a[1..], b[1..]))
  }

  lemma {:induction false} LessIsStrict(a: string, b: string)
    ensures !(Less(a, b) && Less(b, a))
    decreases |a| + |b|
  {
    if a != "" && b != "" {
      LessIsStrict(a[1..], b[1..]);
    }
  }

  // Eligible indexes arrive sorted by their distinct keys.
  predicate Sorted(keys: seq<string>) {
    forall i, j :: 0 <= i < j < |keys| ==> Less(keys[i], keys[j])
  }

  // ----- one cycle

  // Position of the first key after the checkpoint; the beginning if there is none.
  function StartAfter(keys: seq<string>, last: Option<string>): (at: nat)
    ensures at < |keys| || at == 0
  {
    match last
    case None => 0
    case Some(key) => var at := FirstAfter(keys, key, 0); if at < |keys| then at else 0
  }

  function FirstAfter(keys: seq<string>, key: string, from: nat): (at: nat)
    requires from <= |keys|
    ensures from <= at <= |keys| && (at < |keys| ==> Less(key, keys[at]))
    ensures forall k :: from <= k < at ==> !Less(key, keys[k])
    decreases |keys| - from
  {
    if from == |keys| || Less(key, keys[from]) then from else FirstAfter(keys, key, from + 1)
  }

  function Least(a: nat, b: nat): nat { if a <= b then a else b }

  // Positions past the end start over.
  function Around(at: nat, n: nat): (r: nat)
    requires at < 2 * n
    ensures r < n
  {
    if at < n then at else at - n
  }

  function Circle(start: nat, n: nat, count: nat): (at: seq<nat>)
    requires count <= n && (n > 0 ==> start < n)
    ensures |at| == count && forall i :: 0 <= i < count ==> at[i] == Around(start + i, n)
  {
    if count == 0 then [] else Circle(start, n, count - 1) + [Around(start + count - 1, n)]
  }

  // The positions one cycle selects, in order.
  function Selected(keys: seq<string>, last: Option<string>, perCycle: nat): seq<nat> {
    Circle(StartAfter(keys, last), |keys|, Least(perCycle, |keys|))
  }

  function NextCheckpoint(keys: seq<string>, last: Option<string>, perCycle: nat): Option<string> {
    var at := Selected(keys, last, perCycle);
    if at == [] then last else Some(keys[at[|at| - 1]])
  }

  class HistoricalIndexService {
    // The stored checkpoint and the configured number of indexes per cycle.
    var checkpoint: Option<string>
    const perCycle: nat

    constructor (perCycle: nat)
      ensures checkpoint.None? && this.perCycle == perCycle
    {
      checkpoint, this.perCycle := None, perCycle;
    }

    // The for-else search for the first key after the checkpoint.
    method Search(keys: seq<string>, last: Option<string>) returns (start: nat)
      ensures start == StartAfter(keys, last)
    {
      if last.None? {
        return 0;
      }
      var pos := 0;
      while pos < |keys| && !Less(last.value, keys[pos])
        invariant 0 <= pos <= |keys| && FirstAfter(keys, last.value, 0) == FirstAfter(keys, last.value, pos)
      {
        pos := pos + 1;
      }
      return if pos < |keys| then pos else 0;
    }

    method RotateIndexes(keys: seq<string>) returns (selected: seq<string>)
      modifies this
      ensures var at := Selected(keys, old(checkpoint), perCycle);
              |selected| == |at| && forall i :: 0 <= i < |at| ==> selected[i] == keys[at[i]]
      ensures checkpoint == NextCheckpoint(keys, old(checkpoint), perCycle)
    {
      if keys == [] {
        return [];
      }
      var start := Search(keys, checkpoint);
      hide StartAfter;
      var ordered := keys[start..] + keys[..start];
      selected := ordered[..Least(perCycle, |keys|)];
      if selected != [] {
        checkpoint := Some(selected[|selected| - 1]);
      }
    }
  }

  // ----- properties of cycles

  // Never twice in one cycle.
  lemma NoIndexTwice(keys: seq<string>, last: Option<string>, perCycle: nat)
    ensures var at := Selected(keys, last, perCycle); forall i, j :: 0 <= i < j < |at| ==> at[i] != at[j]
  {
  }

  // After a selected key the search finds its successor, around the end.
  lemma SuccessorOf(keys: seq<string>, j: nat)
    requires Sorted(keys) && j < |keys|
    ensures StartAfter(keys, Some(keys[j])) == if j + 1 < |keys| then j + 1 else 0
  {
    forall k | 0 <= k <= j ensures !Less(keys[j], keys[k]) {
      LessIsStrict(keys[k], keys[j]);
    }
    var at := FirstAfter(keys, keys[j], 0);
    if j + 1 < |keys| {
      assert Less(keys[j], keys[j + 1]);
      assert at <= j + 1;
    }
  }

  // Each cycle starts where the one before stopped.
  lemma CyclesAdjoin(keys: seq<string>, last: Option<string>, perCycle: nat)
    requires Sorted(keys) && keys != [] && perCycle >= 1
    ensures StartAfter(keys, NextCheckpoint(keys, last, perCycle))
            == Around(StartAfter(keys, last) + Least(perCycle, |keys|), |keys|)
  {
    var at := Selected(keys, last, perCycle);
    SuccessorOf(keys, at[|at| - 1]);
  }

  // The checkpoint after a number of cycles over the same indexes.
  function After(keys: seq<string>, first: Option<string>, perCycle: nat, cycles: nat): Option<string> {
    if cycles == 0 then first else NextCheckpoint(keys, After(keys, first, perCycle, cycles - 1), perCycle)
  }

  // The cycle with this number selects the index.
  predicate Selects(keys: seq<string>, first: Option<string>, perCycle: nat, cycle: nat, x: nat) {
    x in Selected(keys, After(keys, first, perCycle, cycle), perCycle)
  }

  // An index `d` places ahead of a cycle's start is selected before d + 1
  // selections have been made.
  lemma {:induction false} ReachedAfter(keys: seq<string>, first: Option<string>, perCycle: nat, cycle: nat, d: nat)
    returns (when: nat)
    requires Sorted(keys) && keys != [] && perCycle >= 1 && d < |keys|
    ensures cycle <= when && (when - cycle) * Least(perCycle, |keys|) <= d
    ensures Selects(keys, first, perCycle, when, Around(StartAfter(keys, After(keys, first, perCycle, cycle)) + d, |keys|))
    decreases d
  {
    hide Selected, NextCheckpoint, Sorted, StartAfter;
    var q := Least(perCycle, |keys|);
    if d < q {
      when := cycle;
      SelectedNow(keys, After(keys, first, perCycle, cycle), perCycle, d);
    } else {
      CyclesAdjoin(keys, After(keys, first, perCycle, cycle), perCycle);
      when := ReachedAfter(keys, first, perCycle, cycle + 1, d - q);
      Distribute(when - cycle - 1, q);
    }
  }

  lemma SelectedNow(keys: seq<string>, last: Option<string>, perCycle: nat, d: nat)
    requires d < Least(perCycle, |keys|)
    ensures Around(StartAfter(keys, last) + d, |keys|) in Selected(keys, last, perCycle)
  {
    assert Selected(keys, last, perCycle)[d] == Around(StartAfter(keys, last) + d, |keys|);
  }

  lemma Distribute(t: int, q: int)
    ensures (t + 1) * q == t * q + q
  {
  }

  function CeilDiv(n: nat, m: nat): (c: nat)
    requires m > 0
    ensures c * m >= n && (n > 0 ==> c >= 1)
  {
    if n == 0 then 0
    else if n <= m then 1
    else
      var c := CeilDiv(n - m, m);
      Distribute(c, m);
      c + 1
  }

  lemma Monotone(a: nat, b: nat, m: nat)
    requires a <= b
    ensures a * m <= b * m
  {
  }

  lemma EnoughCycles(t: nat, d: nat, n: nat, m: nat)
    requires t * Least(m, n) <= d < n && m > 0
    ensures t < CeilDiv(n, m)
  {
    var c, q := CeilDiv(n, m), Least(m, n);
    if m <= n {
      if t >= c { Monotone(c, t, m); }
    } else if t >= 1 {
      Monotone(1, t, n);
    }
  }

  // Fairness: from any checkpoint, even one that is no longer a key, every index
  // is selected within any ceil(n / perCycle) consecutive cycles.
  lemma EveryIndexSelected(keys: seq<string>, first: Option<string>, perCycle: nat, cycle: nat, x: nat) returns (when: nat)
    requires Sorted(keys) && perCycle >= 1 && x < |keys|
    ensures cycle <= when < cycle + CeilDiv(|keys|, perCycle)
    ensures Selects(keys, first, perCycle, when, x)
  {
    hide Selects, Sorted, CeilDiv, After, StartAfter;
    var n, start := |keys|, StartAfter(keys, After(keys, first, perCycle, cycle));
    var d := if x >= start then x - start else x + n - start;
    when := ReachedAfter(keys, first, perCycle, cycle, d);
    EnoughCycles(when - cycle, d, n, perCycle);
  }
}
