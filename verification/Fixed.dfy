/** Fixed-point arithmetic of the matching engine: decimals are scaled by 10^12 and truncated. */
module Fixed {

  // The scale of the engine; the conversions below use it as a decimal literal.
  const EXP: int := 1_000_000_000_000

  // Decimals are exact, so they are modelled as reals; big.Int truncation goes toward zero.
  function DecimalToInt(d: real): int {
    if d >= 0.0 then (d * 1_000_000_000_000.0).Floor else -((-d * 1_000_000_000_000.0).Floor)
  }

  function IntToDecimal(i: int): real {
    i as real / 1_000_000_000_000.0
  }

  // price * quantity / 10^12; big.Int.Div is Euclidean, as is Dafny's division.
  function Amount(price: int, quantity: int): int {
    price * quantity / EXP
  }

  lemma RoundTrip(i: int)
    ensures DecimalToInt(IntToDecimal(i)) == i
  {
    assert IntToDecimal(i) * EXP as real == i as real;
  }

  /** The integer is the decimal in units of 10^-12, truncated toward zero. */
  predicate Truncates(i: int, d: real) {
    if d >= 0.0 then i as real <= d * 1_000_000_000_000.0 < i as real + 1.0
    else i as real - 1.0 < d * 1_000_000_000_000.0 <= i as real
  }

  /** Scaling truncates toward zero, on every decimal, and conversion back is exact. */
  lemma ScalingTruncates(d: real, i: int)
    ensures Truncates(i, d) <==> i == DecimalToInt(d)
    ensures d >= 0.0 ==> IntToDecimal(DecimalToInt(d)) <= d < IntToDecimal(DecimalToInt(d) + 1)
    ensures DecimalToInt(-d) == -DecimalToInt(d)
    ensures IntToDecimal(i) * 1_000_000_000_000.0 == i as real
  {
    var x := (if d >= 0.0 then d else -d) * 1_000_000_000_000.0;
    assert x.Floor as real <= x < x.Floor as real + 1.0;
  }

  /** A product of scaled integers is brought back to scale by rounding down. */
  lemma AmountsRoundDown(price: int, quantity: int)
    ensures Amount(price, quantity) * 1_000_000_000_000 <= price * quantity
    ensures price * quantity < (Amount(price, quantity) + 1) * 1_000_000_000_000
  {}

  // A decimal survives scaling exactly when it has at most twelve decimal places.
  lemma ScalingLosesNothing(d: real)
    ensures IntToDecimal(DecimalToInt(d)) == d <==> exists i: int :: IntToDecimal(i) == d
  {
    if i: int :| IntToDecimal(i) == d {
      RoundTrip(i);
    }
  }

  // Scaling a non-negative decimal never rounds up.
  lemma ScalingRoundsDown(d: real)
    requires d >= 0.0
    ensures 0 <= DecimalToInt(d)
    ensures IntToDecimal(DecimalToInt(d)) <= d
  {
    var x := d * EXP as real;
    assert x.Floor as real <= x;
  }

  lemma IntToDecimalAdds(a: int, b: int)
    ensures IntToDecimal(a + b) == IntToDecimal(a) + IntToDecimal(b)
    ensures a <= b ==> IntToDecimal(a) <= IntToDecimal(b)
  {}

  lemma FloorIsSuperadditive(a: int, b: int)
    ensures a / EXP + b / EXP <= (a + b) / EXP
  {}

  // What one fill debits, plus what the unfilled rest may still cost, fits in what the order could cost before.
  lemma FillFitsReserve(limit: int, price: int, remaining: int, quantity: int)
    requires price <= limit && 0 <= quantity
    ensures Amount(price, quantity) + Amount(limit, remaining - quantity) <= Amount(limit, remaining)
  {
    var fill, rest := price * quantity, limit * (remaining - quantity);
    FloorIsSuperadditive(fill, rest);
    assert fill + rest <= limit * remaining by {
      assert price * quantity <= limit * quantity;
      assert limit * quantity + limit * (remaining - quantity) == limit * remaining;
    }
  }

  // Freezing at least price * quantity covers everything the scaled order may ever cost.
  lemma AmountCoversReserve(price: real, quantity: real, amount: real)
    requires 0.0 <= price && 0.0 <= quantity && price * quantity <= amount
    ensures IntToDecimal(Amount(DecimalToInt(price), DecimalToInt(quantity))) <= amount
  {
    var p, q := DecimalToInt(price), DecimalToInt(quantity);
    var e := EXP as real;
    ScalingRoundsDown(price);
    ScalingRoundsDown(quantity);
    assert p as real <= price * e && q as real <= quantity * e;
    var c := p * q / EXP;
    assert c * EXP <= p * q;
    assert (p * q) as real == p as real * q as real;
    assert p as real * q as real <= (price * e) * (quantity * e) by {
      assert p as real * q as real <= (price * e) * q as real;
      assert (price * e) * q as real <= (price * e) * (quantity * e);
    }
    assert (price * e) * (quantity * e) == price * quantity * (e * e);
    assert c as real * e <= price * quantity * (e * e);
  }
}
