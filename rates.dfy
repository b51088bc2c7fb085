/**
 * The rate table as the page keeps it: one row per currency, each row mapping
 * every OTHER currency to the multiplier amount_in_target = amount * row[target].
 * There are no diagonal entries. All rows are derived from the US-dollar row,
 * which gives the units of JPY, EUR and TRY one dollar buys.
 */
module Rates {
  import opened Currencies

  type Row = map<Currency, real>
  type Table = map<Currency, Row>

  /** The currencies quoted in the US-dollar base row. */
  const Quoted: set<Currency> := {JPY, EUR, TRY}

  /** A usable base row: the three quotes, all positive. */
  predicate ValidBase(base: Row) {
    base.Keys == Quoted && forall c :: c in base ==> base[c] > 0.0
  }

  /** Units of c one US dollar buys, with 1 for the dollar itself. */
  function PerUsd(base: Row, c: Currency): (r: real)
    requires ValidBase(base)
    ensures r > 0.0
  {
    match c
    case USD => 1.0
    case EUR => base[EUR]
    case JPY => base[JPY]
    case TRY => base[TRY]
  }

  /** The exact cross rate from x to y implied by the base row: r[y] / r[x]. */
  function Rate(base: Row, x: Currency, y: Currency): (r: real)
    requires ValidBase(base)
    ensures r > 0.0
  {
    PerUsd(base, y) / PerUsd(base, x)
  }

  /** Every currency has a row, and each row covers exactly the other currencies. */
  predicate Shaped(t: Table) {
    t.Keys == AllCurrencies &&
    t[USD].Keys == {EUR, JPY, TRY} && t[EUR].Keys == {USD, JPY, TRY} &&
    t[JPY].Keys == {USD, EUR, TRY} && t[TRY].Keys == {USD, EUR, JPY}
  }

  /** A shaped table has an entry for every pair of distinct currencies. */
  lemma ShapedHas(t: Table, x: Currency, y: Currency)
    requires Shaped(t) && x != y
    ensures x in t && y in t && y in t[x]
  {
    InAll(x);
    InAll(y);
  }

  /** t is the full table derived from base: every entry is the exact cross rate. */
  predicate DerivedFrom(t: Table, base: Row) {
    ValidBase(base) && Shaped(t) &&
    forall x, y {:trigger t[x][y]} :: x in t && y in t[x] ==> t[x][y] == Rate(base, x, y)
  }

  lemma RateReciprocal(base: Row, x: Currency, y: Currency)
    requires ValidBase(base)
    ensures Rate(base, x, y) * Rate(base, y, x) == 1.0
  {
    ProductOfRates(Rate(base, x, y), Rate(base, y, x), base, x, y);
  }

  lemma RateChain(base: Row, x: Currency, y: Currency, z: Currency)
    requires ValidBase(base)
    ensures Rate(base, x, y) * Rate(base, y, z) == Rate(base, x, z)
  {
    ChainOfRates(Rate(base, x, y), Rate(base, y, z), Rate(base, x, z), base, x, y, z);
  }

  /** Converting an amount from x to y and back, before rounding, gives the amount back. */
  lemma RateRoundTrip(base: Row, x: Currency, y: Currency, amount: real)
    requires ValidBase(base)
    ensures amount * Rate(base, x, y) * Rate(base, y, x) == amount
  {
    RateReciprocal(base, x, y);
    assert amount * Rate(base, x, y) * Rate(base, y, x) == amount * (Rate(base, x, y) * Rate(base, y, x));
  }

  /** A derived table keeps the base row as its US-dollar row. */
  lemma DerivedKeepsBase(t: Table, base: Row)
    requires DerivedFrom(t, base)
    ensures t[USD] == base
  {
    assert t[USD].Keys == base.Keys;
    forall c | c in base
      ensures t[USD][c] == base[c]
    {
      assert Rate(base, USD, c) == base[c] / 1.0;
    }
  }

  /** The base row determines the whole table: no trace of an earlier table survives. */
  lemma DerivedUnique(t: Table, u: Table, base: Row)
    requires DerivedFrom(t, base) && DerivedFrom(u, base)
    ensures t == u
  {
    forall x | x in t
      ensures t[x] == u[x]
    {
      assert x == USD || x == EUR || x == JPY || x == TRY;
      assert t[x].Keys == u[x].Keys;
    }
  }

  /** Every entry of the table is positive. */
  predicate Positive(t: Table) {
    forall x, y :: x in t && y in t[x] ==> t[x][y] > 0.0
  }

  /** Reciprocal invariant: rates[x][y] * rates[y][x] == 1 for every entry. */
  predicate Reciprocal(t: Table) {
    forall x, y :: x in t && y in t[x] ==> y in t && x in t[y] && t[x][y] * t[y][x] == 1.0
  }

  /** Chain invariant: rates[x][y] * rates[y][z] == rates[x][z] whenever all three entries exist. */
  predicate Chained(t: Table) {
    forall x, y, z :: x in t && y in t[x] && y in t && z in t[y] && z in t[x] ==> t[x][y] * t[y][z] == t[x][z]
  }

  lemma DerivedPositive(t: Table, base: Row)
    requires DerivedFrom(t, base)
    ensures Positive(t)
  {
  }

  lemma {:induction false} DerivedReciprocal(t: Table, base: Row)
    requires DerivedFrom(t, base)
    ensures Reciprocal(t)
  {
    forall x, y | x in t && y in t[x]
      ensures y in t && x in t[y] && t[x][y] * t[y][x] == 1.0
    {
      EntryPair(t, base, x, y);
      EntryReciprocal(t, base, x, y, t[x][y], t[y][x]);
    }
  }

  lemma {:induction false} DerivedChained(t: Table, base: Row)
    requires DerivedFrom(t, base)
    ensures Chained(t)
  {
    forall x, y, z | x in t && y in t[x] && y in t && z in t[y] && z in t[x]
      ensures t[x][y] * t[y][z] == t[x][z]
    {
      ChainAt(t, base, x, y, z);
    }
  }

  /** A derived table has both entries of every pair of distinct currencies. */
  lemma EntryPair(t: Table, base: Row, x: Currency, y: Currency)
    requires DerivedFrom(t, base) && x in t && y in t[x]
    ensures y in t && x in t[y] && t[x][y] == Rate(base, x, y) && t[y][x] == Rate(base, y, x)
  {
    InAll(y);
  }

  lemma EntryReciprocal(t: Table, base: Row, x: Currency, y: Currency, a: real, b: real)
    requires ValidBase(base) && x in t && y in t && y in t[x] && x in t[y]
    requires t[x][y] == a == Rate(base, x, y) && t[y][x] == b == Rate(base, y, x)
    ensures t[x][y] * t[y][x] == 1.0
  {
    ProductOfRates(a, b, base, x, y);
  }

  lemma ChainAt(t: Table, base: Row, x: Currency, y: Currency, z: Currency)
    requires DerivedFrom(t, base) && x in t && y in t[x] && y in t && z in t[y] && z in t[x]
    ensures t[x][y] * t[y][z] == t[x][z]
  {
    EntryTriple(t, base, x, y, z);
    var a, b, c := t[x][y], t[y][z], t[x][z];
    ChainOfRates(a, b, c, base, x, y, z);
    EntryChain(t, x, y, z, a, b, c);
  }

  lemma EntryTriple(t: Table, base: Row, x: Currency, y: Currency, z: Currency)
    requires DerivedFrom(t, base) && x in t && y in t[x] && y in t && z in t[y] && z in t[x]
    ensures t[x][y] == Rate(base, x, y) && t[y][z] == Rate(base, y, z) && t[x][z] == Rate(base, x, z)
  {
  }

  lemma EntryChain(t: Table, x: Currency, y: Currency, z: Currency, a: real, b: real, c: real)
    requires x in t && y in t[x] && y in t && z in t[y] && z in t[x]
    requires t[x][y] == a && t[y][z] == b && t[x][z] == c && a * b == c
    ensures t[x][y] * t[y][z] == t[x][z]
  {
  }

  lemma ProductOfRates(a: real, b: real, base: Row, x: Currency, y: Currency)
    requires ValidBase(base) && a == Rate(base, x, y) && b == Rate(base, y, x)
    ensures a * b == 1.0
  {
    QuotientReciprocal(a, b, PerUsd(base, x), PerUsd(base, y));
  }

  lemma ChainOfRates(a: real, b: real, c: real, base: Row, x: Currency, y: Currency, z: Currency)
    requires ValidBase(base) && a == Rate(base, x, y) && b == Rate(base, y, z) && c == Rate(base, x, z)
    ensures a * b == c
  {
    QuotientChain(a, b, c, PerUsd(base, x), PerUsd(base, y), PerUsd(base, z));
  }

  // Facts of real arithmetic, kept apart from the map reasoning above.

  lemma QuotientReciprocal(a: real, b: real, p: real, q: real)
    requires p > 0.0 && q > 0.0 && a == q / p && b == p / q
    ensures a * b == 1.0
  {
  }

  lemma QuotientChain(a: real, b: real, c: real, p: real, q: real, r: real)
    requires p > 0.0 && q > 0.0 && r > 0.0 && a == q / p && b == r / q && c == r / p
    ensures a * b == c
  {
  }

  lemma QuotientInverse(p: real, q: real)
    requires p > 0.0 && q > 0.0
    ensures q / p > 0.0 && 1.0 / (q / p) == p / q
  {
  }
}
