/** The decimal(36,18) columns of the database: values are rounded to 18 places, and 18 digits fit before the point. */
module Columns {
  import opened Fixed

  // Rounded to the nearest multiple of 10^-18, halves away from zero.
  function Stored(x: real): real {
    if x >= 0.0 then Nearest(x) else -Nearest(-x)
  }

  function Nearest(x: real): real {
    (x * 1_000_000_000_000_000_000.0 + 0.5).Floor as real / 1_000_000_000_000_000_000.0
  }

  /** A number with at most 18 decimal places. */
  predicate Fine(x: real) {
    (x * 1_000_000_000_000_000_000.0).Floor as real == x * 1_000_000_000_000_000_000.0
  }

  // The smallest number that is rounded up to 10^18.
  const LIMIT: real := 999_999_999_999_999_999.9999999999999999995

  /** A number that fits: rounded to the column's places, it has at most 18 digits before the point. A statement with a
      larger one fails. */
  predicate InRange(x: real) {
    -LIMIT < x < LIMIT
  }

  lemma WholeIsFine(x: real, n: int)
    requires x * 1_000_000_000_000_000_000.0 == n as real
    ensures Fine(x)
  {
    assert (n as real).Floor == n;
  }

  lemma NearestIsNearest(x: real)
    ensures Fine(Nearest(x)) && (Nearest(x) == x <==> Fine(x))
    ensures -0.5 < (Nearest(x) - x) * 1_000_000_000_000_000_000.0 <= 0.5
  {
    var u := x * 1_000_000_000_000_000_000.0;
    var n := (u + 0.5).Floor;
    assert Nearest(x) * 1_000_000_000_000_000_000.0 == n as real;
    assert n as real <= u + 0.5 < n as real + 1.0;
    WholeIsFine(Nearest(x), n);
    if Fine(x) { assert u.Floor as real == u && n == u.Floor; }
  }

  lemma FineNegates(x: real)
    requires Fine(x)
    ensures Fine(-x)
  {
    WholeIsFine(-x, -((x * 1_000_000_000_000_000_000.0).Floor));
  }

  /** A column keeps a number exactly when it has at most 18 decimal places, and is never off by more than half a
      unit of the last place; half a unit is rounded away from zero. */
  lemma ColumnKeepsFineNumbers(x: real)
    ensures Stored(x) == x <==> Fine(x)
    ensures Fine(Stored(x))
    ensures x >= 0.0 ==> -0.5 < (Stored(x) - x) * 1_000_000_000_000_000_000.0 <= 0.5
    ensures x < 0.0 ==> -0.5 <= (Stored(x) - x) * 1_000_000_000_000_000_000.0 < 0.5
  {
    if x >= 0.0 {
      NearestIsNearest(x);
    } else {
      NearestIsNearest(-x);
      FineNegates(Nearest(-x));
      if Fine(x) { FineNegates(x); }
      if Fine(-x) { FineNegates(-x); }
    }
  }

  // Fine numbers add up to fine numbers, and a number that is not fine spoils a sum that was.
  lemma FineAdds(x: real, y: real)
    requires Fine(x)
    ensures Fine(x + y) <==> Fine(y)
  {
    var m := (x * 1_000_000_000_000_000_000.0).Floor;
    if Fine(y) { WholeIsFine(x + y, m + (y * 1_000_000_000_000_000_000.0).Floor); }
    if Fine(x + y) { WholeIsFine(y, ((x + y) * 1_000_000_000_000_000_000.0).Floor - m); }
  }

  lemma RangeIsTheColumns(x: real)
    ensures InRange(x) <==> -1_000_000_000_000_000_000.0 < Stored(x) < 1_000_000_000_000_000_000.0
  {
    var u := (if x >= 0.0 then x else -x) * 1_000_000_000_000_000_000.0 + 0.5;
    assert u.Floor < 1_000_000_000_000_000_000_000_000_000_000_000_000
           <==> u < 1_000_000_000_000_000_000_000_000_000_000_000_000.0;
  }

  /** What the engine sends is fine: it has at most 12 decimal places. */
  lemma EngineAmountsAreFine(i: int)
    ensures Fine(IntToDecimal(i)) && Fine(-IntToDecimal(i)) && Fine(0.0)
  {
    WholeIsFine(IntToDecimal(i), i * 1_000_000);
    FineNegates(IntToDecimal(i));
    WholeIsFine(0.0, 0);
  }

  /** A request of 0.000000000000000001 with a fee of one hundredth is worth more places than a column has. */
  lemma SmallFeesAreLost()
    ensures var total := 0.000000000000000001 + 0.000000000000000001 * 0.01;
            !Fine(total) && Stored(total) == 0.000000000000000001 != total
  {
    var total := 0.000000000000000001 + 0.000000000000000001 * 0.01;
    assert total * 1_000_000_000_000_000_000.0 == 1.01;
    assert (1.01 as real).Floor == 1 && (total * 1_000_000_000_000_000_000.0 + 0.5).Floor == 1;
  }
}
