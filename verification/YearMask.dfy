// Six year bits in one mask.
module YearMask {
  const YEARS := 6
  const ALL_YEARS: bv8 := 0x3F

  // Bit of the year 1996 + y.
  function Bit(y: nat): bv8
    requires y < YEARS
  {
    if y == 0 then 1 else if y == 1 then 2 else if y == 2 then 4 else if y == 3 then 8 else if y == 4 then 16 else 32
  }

  predicate Has(mask: bv8, y: nat)
    requires y < YEARS
  {
    mask & Bit(y) != 0
  }

  // Only the six bits are used.
  predicate Proper(mask: bv8) { mask & ALL_YEARS == mask }

  lemma OrAddsOneYear(mask: bv8, y: nat, z: nat)
    requires y < YEARS && z < YEARS
    ensures Has(mask | Bit(y), z) <==> Has(mask, z) || y == z
  {
  }

  lemma OrIsProper(mask: bv8, y: nat)
    requires y < YEARS && Proper(mask)
    ensures Proper(mask | Bit(y)) && mask | Bit(y) != 0
  {
  }

  // A mask is known by its years.
  lemma SameYears(a: bv8, b: bv8)
    requires Proper(a) && Proper(b) && forall y: nat :: y < YEARS ==> (Has(a, y) <==> Has(b, y))
    ensures a == b
  {
    assert Has(a, 0) == Has(b, 0) && Has(a, 1) == Has(b, 1) && Has(a, 2) == Has(b, 2);
    assert Has(a, 3) == Has(b, 3) && Has(a, 4) == Has(b, 4) && Has(a, 5) == Has(b, 5);
  }

  lemma ZeroHasNone(y: nat)
    requires y < YEARS
    ensures !Has(0, y) && Proper(0)
  {
  }

  function NovelYearMask(evidence: bv8, baseline: bv8, target: bv8): bv8 {
    evidence & !baseline & target
  }

  // A year is novel when there is evidence for it, it is wanted, and the
  // baseline does not have it.
  lemma NovelYears(evidence: bv8, baseline: bv8, target: bv8, y: nat)
    requires y < YEARS
    ensures Has(NovelYearMask(evidence, baseline, target), y) <==> Has(evidence, y) && Has(target, y) && !Has(baseline, y)
  {
  }
}
