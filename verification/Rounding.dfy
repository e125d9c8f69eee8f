/** Quantisation of cash and asset amounts.

    The ledger keeps cash in quanta of 1e-8 and assets in quanta of 1e-12; both are
    rounded half to even (roundTiesToEven, section 4.3.1 of IEEE 754-2019). A stored
    amount is an `int` number of quanta, a raw amount is a `real` in whole units. */
module Rounding {

  const CASH_QUANTA_PER_UNIT := 100000000.0
  const ASSET_QUANTA_PER_UNIT := 1000000000000.0

  /** The margin of every comparison of raw amounts. */
  const EPS := 0.000000000001

  /** The fractional part of `x` is exactly one half. */
  predicate Tie(x: real) {
    x - x.Floor as real == 0.5
  }

  function HalfEven(x: real): (r: int)
    ensures -0.5 <= r as real - x <= 0.5
    ensures Tie(x) ==> r % 2 == 0
  {
    var low := x.Floor;
    var part := x - low as real;
    if part < 0.5 || (part == 0.5 && low % 2 == 0) then low else low + 1
  }

  function NormalizeCash(value: real): int {
    HalfEven(value * CASH_QUANTA_PER_UNIT)
  }

  function NormalizeAsset(value: real): int {
    HalfEven(value * ASSET_QUANTA_PER_UNIT)
  }

  /** A stored amount is within half a quantum of the raw one: 1e-8 for cash, 1e-12 for assets. */
  lemma QuantisedNear(value: real)
    ensures -0.5 <= NormalizeCash(value) as real - value * 100000000.0 <= 0.5
    ensures -0.5 <= NormalizeAsset(value) as real - value * 1000000000000.0 <= 0.5
  {
  }

  /** The contract of `HalfEven` admits one integer only. */
  lemma HalfEvenUnique(x: real, r: int)
    requires -0.5 <= r as real - x <= 0.5
    requires Tie(x) ==> r % 2 == 0
    ensures r == HalfEven(x)
  {
    var h := HalfEven(x);
    assert -1.0 <= (r - h) as real <= 1.0;
    if r != h {
      assert r == h + 1 || r == h - 1;
      assert Tie(x) by {
        var low := if r < h then r else h;
        assert x == low as real + 0.5;
        assert x.Floor == low;
      }
      assert false;
    }
  }

  /** Quantising a quantised amount changes nothing, so the ledger may requantise freely. */
  lemma HalfEvenInteger(k: int)
    ensures HalfEven(k as real) == k
  {
  }

  /** Adding whole quanta before rounding is the same as adding them afterwards
      exactly when the value is not a tie or the number of quanta is even. */
  lemma HalfEvenShift(x: real, k: int)
    ensures HalfEven(x + k as real) == HalfEven(x) + k <==> !Tie(x) || k % 2 == 0
    ensures -1 <= HalfEven(x + k as real) - (HalfEven(x) + k) <= 1
  {
    assert (x + k as real).Floor == x.Floor + k;
  }
}
