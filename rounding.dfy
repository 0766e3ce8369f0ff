/** Lot rounding and the per-instrument notional cap. */
module Rounding {
  import opened Models

  /** `round_lot`: truncates a non-negative quantity to whole units; a
      negative quantity gives 0. */
  function RoundLot(q: real): (n: int)
    ensures n >= 0
    ensures q < 0.0 ==> n == 0
    ensures q >= 0.0 ==> n as real <= q < n as real + 1.0
  {
    if q >= 0.0 then q.Floor else 0
  }

  /** A whole non-negative quantity is its own lot. */
  lemma RoundLotWhole(n: int)
    requires n >= 0
    ensures RoundLot(n as real) == n
  {
  }

  /** `round_lot(amount / price)` for a positive price: the whole number of
      times `price` fits into `amount`, counted by repeated subtraction
      (`LotsIsRoundLot` shows it is the same number). It is 0 for a price
      that is not positive, which no caller passes. */
  function Lots(amount: real, price: real): (n: int)
    ensures n >= 0
    decreases if price > 0.0 && amount >= price then (amount / price).Floor else 0
  {
    if price <= 0.0 || amount < price then 0
    else
      DivStep(amount, price);
      assert ((amount - price) / price).Floor == (amount / price).Floor - 1;
      1 + Lots(amount - price, price)
  }

  lemma DivStep(a: real, p: real)
    requires p > 0.0
    ensures (a - p) / p == a / p - 1.0
  {
    var q := a / p;
    assert q * p == a;
    var r := (a - p) / p;
    assert r * p == a - p;
    var d := r - (q - 1.0);
    assert d * p == 0.0;
  }

  lemma DivBounds(a: real, p: real, q: real)
    requires p > 0.0
    ensures q <= a / p <==> q * p <= a
    ensures a / p < q <==> a < q * p
  {
    assert (a / p) * p == a;
  }

  /** `Lots(amount, price)` shares cost at most `amount`, and one share more
      would cost more than `amount`. */
  lemma {:induction false} LotsBounds(amount: real, price: real)
    requires price > 0.0 && amount >= 0.0
    ensures Cost(Lots(amount, price), price) <= amount < Cost(Lots(amount, price) + 1, price)
    decreases if amount < price then 0 else (amount / price).Floor
  {
    var n := Lots(amount, price);
    if amount < price {
      assert Cost(1, price) == Cost(0, price) + price;
    } else {
      DivStep(amount, price);
      LotsBounds(amount - price, price);
      CostSucc(n - 1, price);
      CostSucc(n, price);
    }
  }

  /** Counting by subtraction gives `round_lot(amount / price)`. */
  lemma LotsIsRoundLot(amount: real, price: real)
    requires price > 0.0
    ensures Lots(amount, price) == RoundLot(amount / price)
  {
    if amount < 0.0 {
      DivBounds(amount, price, 0.0);
    } else {
      var n := Lots(amount, price);
      LotsBounds(amount, price);
      CostIsProduct(n, price);
      CostIsProduct(n + 1, price);
      DivBounds(amount, price, n as real);
      DivBounds(amount, price, n as real + 1.0);
    }
  }

  /** An amount buys at most as many shares as a larger amount. */
  lemma {:induction false} LotsMonotone(a: real, b: real, price: real)
    requires price > 0.0 && a <= b
    ensures Lots(a, price) <= Lots(b, price)
    decreases if b < price then 0 else (b / price).Floor
  {
    if a >= price {
      DivStep(b, price);
      LotsMonotone(a - price, b - price, price);
    }
  }

  /** `clamp_order_value`: with a positive cap, a quantity whose notional
      exceeds the cap is cut to the largest whole quantity under the cap
      (`max(int(max_value // price), 0)`; a negative price there gives a
      negative quotient and so 0). */
  function ClampOrderValue(qty: int, price: real, maxValue: int): (r: int)
    ensures maxValue <= 0 ==> r == qty
    ensures Cost(qty, price) <= maxValue as real ==> r == qty
    ensures maxValue > 0 && Cost(qty, price) > maxValue as real ==>
              r >= 0 && Cost(r, price) <= maxValue as real
    ensures price > 0.0 && qty >= 0 ==> 0 <= r <= qty
  {
    if maxValue <= 0 then qty
    else if Cost(qty, price) <= maxValue as real then qty
    else if price > 0.0 then
      var n := Lots(maxValue as real, price);
      LotsBounds(maxValue as real, price);
      CostStrictlyMonotone(qty, n, price);
      n
    else
      assert Cost(0, price) == 0.0;
      0
  }

  /** The cut quantity is the largest one whose notional fits under the cap. */
  lemma ClampIsLargestUnderCap(qty: int, price: real, maxValue: int, k: int)
    requires maxValue > 0 && price > 0.0 && Cost(qty, price) > maxValue as real
    requires Cost(k, price) <= maxValue as real
    ensures k <= ClampOrderValue(qty, price, maxValue)
  {
    var r := ClampOrderValue(qty, price, maxValue);
    LotsBounds(maxValue as real, price);
    CostStrictlyMonotone(r + 1, k, price);
  }

  /** Clamping a clamped quantity changes nothing. */
  lemma ClampIdempotent(qty: int, price: real, maxValue: int)
    ensures ClampOrderValue(ClampOrderValue(qty, price, maxValue), price, maxValue)
            == ClampOrderValue(qty, price, maxValue)
  {
    var r := ClampOrderValue(qty, price, maxValue);
    if maxValue > 0 && Cost(qty, price) > maxValue as real && price <= 0.0 {
      assert r == 0;
      assert Cost(0, price) == 0.0;
    }
  }
}
