/** The deficit path of the live planner (`_plan_deficit_resolution`): sell
    the highest-priced holdings until a negative D+2 balance is covered, then
    buy back towards the targets with the same reserve-ratio search; and the
    dispatch of `plan_rebalance` between this path and the normal one. */
module RebalanceDeficit {
  import opened Models
  import opened Rounding
  import opened Rebalance

  // ---------------------------------------------------------------------
  // SELL walk

  /** A holding can be sold when its quantity and its price are positive. */
  predicate CanSell(inp: Inputs, c: Code) {
    Holding(inp.positions, c) > 0 && PriceOf(inp.prices, c) > 0.0
  }

  predicate AllSellable(inp: Inputs, codes: seq<Code>) {
    forall i :: 0 <= i < |codes| ==> CanSell(inp, codes[i])
  }

  /** `available_positions`: the holdings that can be sold, in position
      order. */
  function Sellable(inp: Inputs, codes: seq<Code>): (r: seq<Code>)
    ensures AllSellable(inp, r)
    ensures forall c :: c in r ==> c in codes
  {
    if codes == [] then []
    else
      var c := codes[|codes| - 1];
      Sellable(inp, codes[..|codes| - 1]) + (if CanSell(inp, c) then [c] else [])
  }

  lemma {:induction false} SellableDistinct(inp: Inputs, codes: seq<Code>)
    requires Distinct(codes)
    ensures Distinct(Sellable(inp, codes))
  {
    if codes != [] {
      var init := codes[..|codes| - 1];
      var c := codes[|codes| - 1];
      SellableDistinct(inp, init);
      assert c !in init;
    }
  }

  /** `sorted_positions`: the sellable holdings by descending price, equal
      prices in position order. */
  function SaleOrder(inp: Inputs): seq<Code> {
    SortByKey(Sellable(inp, inp.positions.keys), Negated(inp.prices))
  }

  /** The walk visits exactly the sellable holdings, by descending price,
      each once. */
  lemma SaleOrderCorrect(inp: Inputs)
    ensures AllSellable(inp, SaleOrder(inp))
    ensures multiset(SaleOrder(inp)) == multiset(Sellable(inp, inp.positions.keys))
    ensures forall i, j :: 0 <= i < j < |SaleOrder(inp)| ==>
      PriceOf(inp.prices, SaleOrder(inp)[i]) >= PriceOf(inp.prices, SaleOrder(inp)[j])
    ensures Distinct(inp.positions.keys) ==> Distinct(SaleOrder(inp))
  {
    var s := Sellable(inp, inp.positions.keys);
    var key := Negated(inp.prices);
    SortByKeyCorrect(s, key);
    var r := SaleOrder(inp);
    forall i | 0 <= i < |r| ensures CanSell(inp, r[i]) {
      assert r[i] in multiset(s);
    }
    forall i, j | 0 <= i < j < |r|
      ensures PriceOf(inp.prices, r[i]) >= PriceOf(inp.prices, r[j])
    {
      assert KeyOf(key, r[i]) <= KeyOf(key, r[j]);
      assert KeyOf(inp.prices, r[i]) == PriceOf(inp.prices, r[i]);
      assert KeyOf(inp.prices, r[j]) == PriceOf(inp.prices, r[j]);
    }
    if Distinct(inp.positions.keys) {
      SellableDistinct(inp, inp.positions.keys);
    }
  }

  /** The state of the SELL walk: the SELLs so far and their proceeds
      (`current_cash`). */
  datatype Walk = Walk(orders: seq<Order>, proceeds: real)

  /** One holding of the walk: nothing once the proceeds cover `required`;
      otherwise sell at least one share of what is still missing, at most
      the holding, capped, when that comes to a positive quantity. */
  function WalkStep(inp: Inputs, required: real, st: Walk, c: Code): Walk {
    if st.proceeds >= required then st
    else
      var price := PriceOf(inp.prices, c);
      var needed := Max(1, Lots(required - st.proceeds, price));
      var qty := CapQty(Min(Holding(inp.positions, c), needed), price, inp.maxOrderValue);
      if qty > 0 then Walk(st.orders + [Order(c, Sell, qty, None)], st.proceeds + Cost(qty, price))
      else st
  }

  function WalkSells(inp: Inputs, required: real, codes: seq<Code>): Walk {
    if codes == [] then Walk([], 0.0)
    else WalkStep(inp, required, WalkSells(inp, required, codes[..|codes| - 1]), codes[|codes| - 1])
  }

  lemma WalkSellsSnoc(inp: Inputs, required: real, codes: seq<Code>, c: Code)
    ensures WalkSells(inp, required, codes + [c]) == WalkStep(inp, required, WalkSells(inp, required, codes), c)
  {
    assert (codes + [c])[..|codes|] == codes;
  }

  /** Once the proceeds cover the deficit the walk changes nothing more, so
      stopping there (the `break`) gives the same walk as running on. */
  lemma {:induction false} WalkStopsWhenCovered(inp: Inputs, required: real, codes: seq<Code>, n: nat)
    requires n <= |codes|
    requires WalkSells(inp, required, codes[..n]).proceeds >= required
    ensures WalkSells(inp, required, codes) == WalkSells(inp, required, codes[..n])
    decreases |codes| - n
  {
    if n < |codes| {
      assert codes[..n + 1] == codes[..n] + [codes[n]];
      WalkSellsSnoc(inp, required, codes[..n], codes[n]);
      WalkStopsWhenCovered(inp, required, codes, n + 1);
    } else {
      assert codes[..n] == codes;
    }
  }

  /** What the walk keeps: market SELLs of positive quantity, each no more
      than the holding, of codes from the walk, whose notional is the
      proceeds; and every SELL was placed while the proceeds before it still
      fell short of `required`. */
  predicate WalkSound(inp: Inputs, required: real, codes: seq<Code>, w: Walk) {
    && w.proceeds == TotalNotional(w.orders, inp.prices)
    && (forall i :: 0 <= i < |w.orders| ==>
          && w.orders[i].side == Sell && w.orders[i].qty > 0 && w.orders[i].limit == None
          && w.orders[i].qty <= Holding(inp.positions, w.orders[i].code)
          && w.orders[i].code in codes)
    && (w.orders != [] ==> TotalNotional(w.orders[..|w.orders| - 1], inp.prices) < required)
  }

  lemma WalkStepSound(inp: Inputs, required: real, codes: seq<Code>, st: Walk, c: Code)
    requires CanSell(inp, c)
    requires WalkSound(inp, required, codes, st)
    ensures WalkSound(inp, required, codes + [c], WalkStep(inp, required, st, c))
  {
    var r := WalkStep(inp, required, st, c);
    var price := PriceOf(inp.prices, c);
    if st.proceeds >= required {
      assert r == st;
    } else {
      var needed := Max(1, Lots(required - st.proceeds, price));
      var q0 := Min(Holding(inp.positions, c), needed);
      var qty := CapQty(q0, price, inp.maxOrderValue);
      if qty > 0 {
        var o := Order(c, Sell, qty, None);
        assert r == Walk(st.orders + [o], st.proceeds + Notional(o, inp.prices));
        assert r.orders[..|r.orders| - 1] == st.orders;
        TotalNotionalAppend(st.orders, [o], inp.prices);
        TotalNotionalSingle(o, inp.prices);
      } else {
        assert r == st;
      }
    }
  }

  lemma {:induction false} WalkSellsSound(inp: Inputs, required: real, codes: seq<Code>)
    requires AllSellable(inp, codes)
    ensures WalkSound(inp, required, codes, WalkSells(inp, required, codes))
  {
    if codes != [] {
      var init := codes[..|codes| - 1];
      var c := codes[|codes| - 1];
      assert codes == init + [c];
      WalkSellsSnoc(inp, required, init, c);
      WalkSellsSound(inp, required, init);
      WalkStepSound(inp, required, init, WalkSells(inp, required, init), c);
    }
  }

  /** Walking distinct codes sells each code at most once. */
  lemma {:induction false} WalkSellsUnique(inp: Inputs, required: real, codes: seq<Code>)
    requires AllSellable(inp, codes) && Distinct(codes)
    ensures CodesUnique(WalkSells(inp, required, codes).orders)
  {
    if codes != [] {
      var init := codes[..|codes| - 1];
      var c := codes[|codes| - 1];
      assert codes == init + [c];
      WalkSellsSnoc(inp, required, init, c);
      WalkSellsUnique(inp, required, init);
      WalkSellsSound(inp, required, init);
      assert c !in init;
    }
  }

  /** The body of the SELL loop of `_plan_deficit_resolution`, for one
      holding, while the proceeds still fall short. */
  method SellToCover(inp: Inputs, required: real, c: Code, orders0: seq<Order>, cash0: real)
    returns (sellOrders: seq<Order>, currentCash: real)
    requires cash0 < required
    ensures Walk(sellOrders, currentCash) == WalkStep(inp, required, Walk(orders0, cash0), c)
  {
    sellOrders, currentCash := orders0, cash0;
    var qty := Holding(inp.positions, c);
    var price := PriceOf(inp.prices, c);
    var remainingDeficit := required - currentCash;
    var neededQty := Max(1, Lots(remainingDeficit, price));
    var sellQty := Min(qty, neededQty);
    if inp.maxOrderValue != 0 {
      sellQty := ClampOrderValue(sellQty, price, inp.maxOrderValue);
    }
    if sellQty > 0 {
      sellOrders := sellOrders + [Order(c, Sell, sellQty, None)];
      currentCash := currentCash + Cost(sellQty, price);
    }
  }

  /** The SELL loop of `_plan_deficit_resolution`. */
  method SellUntilCovered(inp: Inputs, required: real, codes: seq<Code>)
    returns (sellOrders: seq<Order>, currentCash: real)
    ensures Walk(sellOrders, currentCash) == WalkSells(inp, required, codes)
  {
    sellOrders, currentCash := [], 0.0;
    var i := 0;
    while i < |codes|
      invariant 0 <= i <= |codes|
      invariant Walk(sellOrders, currentCash) == WalkSells(inp, required, codes[..i])
    {
      if currentCash >= required {
        WalkStopsWhenCovered(inp, required, codes, i);
        return;
      }
      var c := codes[i];
      assert codes[..i + 1] == codes[..i] + [c];
      WalkSellsSnoc(inp, required, codes[..i], c);
      sellOrders, currentCash := SellToCover(inp, required, c, sellOrders, currentCash);
      i := i + 1;
    }
    assert codes[..|codes|] == codes;
  }

  // ---------------------------------------------------------------------
  // Expected positions

  /** Total quantity of `c` sold by the given SELLs. */
  function SoldOf(sells: seq<Order>, c: Code): int {
    if sells == [] then 0
    else SoldOf(sells[..|sells| - 1], c) + (if sells[|sells| - 1].code == c then sells[|sells| - 1].qty else 0)
  }

  /** `expected_positions`: a copy of the positions with each SELL's
      quantity subtracted from its code. */
  function ExpectedPositions(positions: Dict<int>, sells: seq<Order>): Dict<int> {
    if sells == [] then positions
    else
      var acc := ExpectedPositions(positions, sells[..|sells| - 1]);
      var o := sells[|sells| - 1];
      Put(acc, o.code, Get(acc, o.code, 0) - o.qty)
  }

  /** Each code's expected quantity is its holding less what is sold of it,
      and when every SELL is of a held code the codes and their order stay
      those of the positions. */
  lemma {:induction false} ExpectedPositionsCorrect(positions: Dict<int>, sells: seq<Order>, c: Code)
    ensures Get(ExpectedPositions(positions, sells), c, 0) == Get(positions, c, 0) - SoldOf(sells, c)
    ensures (forall i :: 0 <= i < |sells| ==> sells[i].code in positions.m) ==>
      ExpectedPositions(positions, sells).keys == positions.keys
      && ExpectedPositions(positions, sells).m.Keys == positions.m.Keys
  {
    if sells != [] {
      ExpectedPositionsCorrect(positions, sells[..|sells| - 1], c);
      var o := sells[|sells| - 1];
      ExpectedPositionsCorrect(positions, sells[..|sells| - 1], o.code);
    }
  }

  /** A code sold by none of the SELLs has nothing sold. */
  lemma {:induction false} SoldOfAbsent(sells: seq<Order>, c: Code)
    requires forall i :: 0 <= i < |sells| ==> sells[i].code != c
    ensures SoldOf(sells, c) == 0
  {
    if sells != [] {
      SoldOfAbsent(sells[..|sells| - 1], c);
    }
  }

  /** SELLs of distinct codes, each at most its holding, never sell more
      of a code than is held. */
  lemma {:induction false} SoldWithinHolding(positions: Dict<int>, sells: seq<Order>, c: Code)
    requires CodesUnique(sells)
    requires forall i :: 0 <= i < |sells| ==> 0 < sells[i].qty <= Get(positions, sells[i].code, 0)
    ensures 0 <= SoldOf(sells, c)
    ensures SoldOf(sells, c) > 0 ==> SoldOf(sells, c) <= Get(positions, c, 0)
  {
    if sells != [] {
      var init := sells[..|sells| - 1];
      var o := sells[|sells| - 1];
      SoldWithinHolding(positions, init, c);
      if o.code == c {
        SoldOfAbsent(init, c);
      }
    }
  }

  /** The expected-positions loop of `_plan_deficit_resolution`. */
  method ExpectPositions(positions: Dict<int>, sells: seq<Order>) returns (expected: Dict<int>)
    ensures expected == ExpectedPositions(positions, sells)
  {
    expected := positions;
    for i := 0 to |sells|
      invariant expected == ExpectedPositions(positions, sells[..i])
    {
      var order := sells[i];
      assert sells[..i + 1][..i] == sells[..i];
      expected := Put(expected, order.code, Get(expected, order.code, 0) - order.qty);
    }
    assert sells[..|sells|] == sells;
  }

  // ---------------------------------------------------------------------
  // BUY trial for one budget

  /** `total_value * target_ratio - price * expected_qty`: the value still
      missing from a target. */
  function Gap(total: real, ratio: real, current: real): real {
    total * ratio - current
  }

  /** One target in a deficit trial with budget `budget`: a positive target
      with a price and a positive gap buys at least one share of what the
      remaining budget affords of the gap; when no budget remains the trial
      fails. */
  function DeficitBuyStep(inp: Inputs, total: real, expected: Dict<int>, budget: real, st: Trial, c: Code): Trial {
    if !st.feasible then st
    else
      var ratio := Get(inp.targets, c, 0.0);
      var price := PriceOf(inp.prices, c);
      if ratio <= 0.0 || price <= 0.0 then st
      else
        var needed := Gap(total, ratio, Cost(Get(expected, c, 0), price));
        if needed <= 0.0 then st
        else
          var affordable := MinR(needed, budget - st.used);
          if affordable > 0.0 then
            var qty := CapQty(Max(1, Lots(affordable, price)), price, inp.maxOrderValue);
            if qty > 0 then Trial(st.orders + [Order(c, Buy, qty, None)], st.used + Cost(qty, price), true)
            else st
          else Trial(st.orders, st.used, false)
  }

  function DeficitTry(inp: Inputs, total: real, expected: Dict<int>, budget: real, codes: seq<Code>): Trial {
    if codes == [] then Trial([], 0.0, true)
    else DeficitBuyStep(inp, total, expected, budget, DeficitTry(inp, total, expected, budget, codes[..|codes| - 1]), codes[|codes| - 1])
  }

  lemma DeficitTrySnoc(inp: Inputs, total: real, expected: Dict<int>, budget: real, codes: seq<Code>, c: Code)
    ensures DeficitTry(inp, total, expected, budget, codes + [c])
         == DeficitBuyStep(inp, total, expected, budget, DeficitTry(inp, total, expected, budget, codes), c)
  {
    assert (codes + [c])[..|codes|] == codes;
  }

  lemma {:induction false} DeficitTryStopsOnFailure(inp: Inputs, total: real, expected: Dict<int>, budget: real, codes: seq<Code>, n: nat)
    requires n <= |codes|
    requires !DeficitTry(inp, total, expected, budget, codes[..n]).feasible
    ensures DeficitTry(inp, total, expected, budget, codes) == DeficitTry(inp, total, expected, budget, codes[..n])
    decreases |codes| - n
  {
    if n < |codes| {
      assert codes[..n + 1] == codes[..n] + [codes[n]];
      DeficitTrySnoc(inp, total, expected, budget, codes[..n], codes[n]);
      DeficitTryStopsOnFailure(inp, total, expected, budget, codes, n + 1);
    } else {
      assert codes[..n] == codes;
    }
  }

  /** What a deficit trial keeps: market BUYs of positive quantity whose
      notional is the cash used, and that cash stays within the budget
      except that the last BUY, of a single share (the `max(1, ...)`), may
      go past it when it was placed with budget still left. */
  predicate DeficitTrialSound(t: Trial, budget: real, prices: map<Code, real>) {
    && (forall i :: 0 <= i < |t.orders| ==> t.orders[i].side == Buy && t.orders[i].qty > 0 && t.orders[i].limit == None)
    && t.used == TotalNotional(t.orders, prices)
    && (|| t.orders == []
        || t.used <= budget
        || (t.orders[|t.orders| - 1].qty == 1 && TotalNotional(t.orders[..|t.orders| - 1], prices) < budget))
  }

  /** Appending a BUY placed while budget was left, which either fits in
      what is left or is a single share, keeps a deficit trial sound. */
  lemma AppendDeficitBuySound(st: Trial, o: Order, budget: real, prices: map<Code, real>)
    requires DeficitTrialSound(st, budget, prices)
    requires o.side == Buy && o.qty > 0 && o.limit == None
    requires st.used < budget
    requires st.used + Notional(o, prices) <= budget || o.qty == 1
    ensures DeficitTrialSound(Trial(st.orders + [o], st.used + Notional(o, prices), true), budget, prices)
  {
    var os := st.orders + [o];
    assert os[..|os| - 1] == st.orders;
    TotalNotionalAppend(st.orders, [o], prices);
    TotalNotionalSingle(o, prices);
  }

  /** A BUY of `max(1, round_lot(affordable / price))` shares, capped, for
      an affordable value within what is left of the budget, keeps a deficit
      trial sound. */
  lemma PlaceDeficitBuySound(st: Trial, c: Code, affordable: real, price: real, maxOrderValue: int,
                             budget: real, prices: map<Code, real>)
    requires DeficitTrialSound(st, budget, prices)
    requires price == PriceOf(prices, c) && price > 0.0
    requires 0.0 < affordable <= budget - st.used
    requires CapQty(Max(1, Lots(affordable, price)), price, maxOrderValue) > 0
    ensures var qty := CapQty(Max(1, Lots(affordable, price)), price, maxOrderValue);
      DeficitTrialSound(Trial(st.orders + [Order(c, Buy, qty, None)], st.used + Cost(qty, price), true), budget, prices)
  {
    var lots := Lots(affordable, price);
    var qty := CapQty(Max(1, lots), price, maxOrderValue);
    if lots >= 1 {
      LotsBounds(affordable, price);
      CostStrictlyMonotone(qty, lots, price);
    }
    AppendDeficitBuySound(st, Order(c, Buy, qty, None), budget, prices);
  }

  lemma DeficitBuyStepSound(inp: Inputs, total: real, expected: Dict<int>, budget: real, st: Trial, c: Code)
    requires DeficitTrialSound(st, budget, inp.prices)
    ensures DeficitTrialSound(DeficitBuyStep(inp, total, expected, budget, st, c), budget, inp.prices)
  {
    var r := DeficitBuyStep(inp, total, expected, budget, st, c);
    var ratio := Get(inp.targets, c, 0.0);
    var price := PriceOf(inp.prices, c);
    if !st.feasible || ratio <= 0.0 || price <= 0.0 {
      assert r == st;
    } else {
      var needed := Gap(total, ratio, Cost(Get(expected, c, 0), price));
      var affordable := MinR(needed, budget - st.used);
      if needed <= 0.0 {
        assert r == st;
      } else if affordable > 0.0 {
        var qty := CapQty(Max(1, Lots(affordable, price)), price, inp.maxOrderValue);
        if qty > 0 {
          assert r == Trial(st.orders + [Order(c, Buy, qty, None)], st.used + Cost(qty, price), true);
          PlaceDeficitBuySound(st, c, affordable, price, inp.maxOrderValue, budget, inp.prices);
        } else {
          assert r == st;
        }
      } else {
        assert r == Trial(st.orders, st.used, false);
      }
    }
  }

  lemma {:induction false} DeficitTrySound(inp: Inputs, total: real, expected: Dict<int>, budget: real, codes: seq<Code>)
    ensures DeficitTrialSound(DeficitTry(inp, total, expected, budget, codes), budget, inp.prices)
  {
    if codes != [] {
      DeficitTrySound(inp, total, expected, budget, codes[..|codes| - 1]);
      DeficitBuyStepSound(inp, total, expected, budget, DeficitTry(inp, total, expected, budget, codes[..|codes| - 1]), codes[|codes| - 1]);
    }
  }

  /** The body of the inner BUY loop of `_plan_deficit_resolution`, for one
      target. */
  method DeficitTryBuy(inp: Inputs, total: real, expected: Dict<int>, budget: real,
                       orders0: seq<Order>, used0: real, c: Code)
    returns (testBuyOrders: seq<Order>, usedCash: real, feasible: bool)
    ensures Trial(testBuyOrders, usedCash, feasible)
         == DeficitBuyStep(inp, total, expected, budget, Trial(orders0, used0, true), c)
  {
    testBuyOrders, usedCash, feasible := orders0, used0, true;
    var targetRatio := Get(inp.targets, c, 0.0);
    if targetRatio <= 0.0 {
      return;
    }
    var price := PriceOf(inp.prices, c);
    if price <= 0.0 {
      return;
    }
    var currentValue := Cost(Get(expected, c, 0), price);
    var neededValue := Gap(total, targetRatio, currentValue);
    if neededValue <= 0.0 {
      return;
    }
    var availableCash := budget - usedCash;
    var maxAffordableValue := MinR(neededValue, availableCash);
    if maxAffordableValue > 0.0 {
      var qty := Max(1, Lots(maxAffordableValue, price));
      if inp.maxOrderValue != 0 {
        qty := ClampOrderValue(qty, price, inp.maxOrderValue);
      }
      if qty > 0 {
        testBuyOrders := testBuyOrders + [Order(c, Buy, qty, None)];
        usedCash := usedCash + Cost(qty, price);
      }
    } else {
      feasible := false;
    }
  }

  /** The inner BUY loop of `_plan_deficit_resolution` for one budget. */
  method DeficitTryReserve(inp: Inputs, total: real, expected: Dict<int>, budget: real, codes: seq<Code>)
    returns (testBuyOrders: seq<Order>, usedCash: real, feasible: bool)
    ensures Trial(testBuyOrders, usedCash, feasible) == DeficitTry(inp, total, expected, budget, codes)
  {
    testBuyOrders, usedCash, feasible := [], 0.0, true;
    var i := 0;
    while i < |codes|
      invariant 0 <= i <= |codes|
      invariant feasible
      invariant Trial(testBuyOrders, usedCash, feasible) == DeficitTry(inp, total, expected, budget, codes[..i])
    {
      var c := codes[i];
      assert codes[..i + 1] == codes[..i] + [c];
      DeficitTrySnoc(inp, total, expected, budget, codes[..i], c);
      testBuyOrders, usedCash, feasible := DeficitTryBuy(inp, total, expected, budget, testBuyOrders, usedCash, c);
      i := i + 1;
      if !feasible {
        DeficitTryStopsOnFailure(inp, total, expected, budget, codes, i);
        return;
      }
    }
    assert codes[..|codes|] == codes;
  }

  // ---------------------------------------------------------------------
  // Reserve-ratio search

  /** The deficit trial for one reserve ratio, over the targets in target
      order, with `expectedCash` as the cash to budget from. */
  function DeficitTrial(inp: Inputs, total: real, expected: Dict<int>, expectedCash: real): real -> Trial {
    (ratio: real) => DeficitTry(inp, total, expected, Budget(expectedCash, ratio), inp.targets.keys)
  }

  /** The reserve-ratio loop of `_plan_deficit_resolution`. */
  method DeficitSearch(inp: Inputs, total: real, expected: Dict<int>, expectedCash: real, ratios: seq<real>)
    returns (bestBuyOrders: seq<Order>, optimalCashReserve: real)
    ensures Choice(bestBuyOrders, optimalCashReserve) == Search(DeficitTrial(inp, total, expected, expectedCash), ratios)
  {
    bestBuyOrders, optimalCashReserve := [], DefaultReserve;
    ghost var trial := DeficitTrial(inp, total, expected, expectedCash);
    var i := 0;
    while i < |ratios|
      invariant 0 <= i <= |ratios|
      invariant Search(trial, ratios) == Search(trial, ratios[i..])
      invariant bestBuyOrders == [] && optimalCashReserve == DefaultReserve
    {
      var reserveRatio := ratios[i];
      var maxBuyCash := Budget(expectedCash, reserveRatio);
      var testBuyOrders, usedCash, feasible := DeficitTryReserve(inp, total, expected, maxBuyCash, inp.targets.keys);
      assert ratios[i..][1..] == ratios[i + 1..];
      assert trial(reserveRatio) == Trial(testBuyOrders, usedCash, feasible);
      if feasible && |testBuyOrders| > 0 {
        bestBuyOrders, optimalCashReserve := testBuyOrders, reserveRatio;
        return;
      }
      i := i + 1;
    }
  }

  /** The search gives market BUYs of positive quantity only, and when it
      gives any they stay within the chosen budget but for at most one
      trailing single share placed while budget was left. */
  lemma DeficitSearchSound(inp: Inputs, total: real, expected: Dict<int>, expectedCash: real, ratios: seq<real>)
    ensures var ch := Search(DeficitTrial(inp, total, expected, expectedCash), ratios);
      DeficitTrialSound(Trial(ch.orders, TotalNotional(ch.orders, inp.prices), true), Budget(expectedCash, ch.ratio), inp.prices)
  {
    var trial := DeficitTrial(inp, total, expected, expectedCash);
    var ch := Search(trial, ratios);
    SearchFindsFirst(trial, ratios);
    if ch.orders != [] {
      var k :| FirstSuccess(trial, ratios, k) && ch.ratio == ratios[k] && trial(ratios[k]).orders == ch.orders;
      DeficitTrySound(inp, total, expected, Budget(expectedCash, ratios[k]), inp.targets.keys);
    }
  }

  // ---------------------------------------------------------------------
  // The deficit plan

  /** The SELL walk of the deficit path for a deficit of `required`. */
  function DeficitSells(inp: Inputs, required: real): Walk {
    WalkSells(inp, required, SaleOrder(inp))
  }

  /** The BUY search of the deficit path after SELLs `sells` that leave
      `expectedCash`: the targets are valued against the positions the SELLs
      leave plus that cash. */
  function DeficitBuys(inp: Inputs, sells: seq<Order>, expectedCash: real, ratios: seq<real>): Choice {
    var expected := ExpectedPositions(inp.positions, sells);
    var total := expectedCash + HoldingsValue(expected.keys, expected, inp.prices);
    Search(DeficitTrial(inp, total, expected, expectedCash), ratios)
  }

  /** The SELLs of walk `w`, followed by the BUYs of the search when the
      proceeds leave positive cash after the deficit `d2`. */
  function BuyBack(inp: Inputs, d2: real, w: Walk, ratios: seq<real>): seq<Order> {
    var expectedCash := w.proceeds + d2;
    if expectedCash > 0.0 then w.orders + DeficitBuys(inp, w.orders, expectedCash, ratios).orders
    else w.orders
  }

  /** What `_plan_deficit_resolution` returns for `d2_cash == d2`, with the
      reserve ratios tried as a parameter. */
  function DeficitPlanWith(inp: Inputs, d2: real, ratios: seq<real>): seq<Order> {
    BuyBack(inp, d2, DeficitSells(inp, AbsR(d2)), ratios)
  }

  function DeficitPlan(inp: Inputs, d2: real): seq<Order> {
    DeficitPlanWith(inp, d2, ReserveRatios)
  }

  /** `_plan_deficit_resolution` without a broker. */
  method PlanDeficit(inp: Inputs, d2: real) returns (plan: seq<Order>)
    ensures plan == DeficitPlan(inp, d2)
  {
    var requiredCash := AbsR(d2);
    var sortedPositions := SaleOrder(inp);
    var sellOrders, currentCash := SellUntilCovered(inp, requiredCash, sortedPositions);
    plan := PlanBuyBack(inp, d2, sellOrders, currentCash, ReserveRatios);
  }

  /** The part of `_plan_deficit_resolution` after the SELL loop. */
  method PlanBuyBack(inp: Inputs, d2: real, sellOrders: seq<Order>, currentCash: real, ratios: seq<real>)
    returns (plan: seq<Order>)
    ensures plan == BuyBack(inp, d2, Walk(sellOrders, currentCash), ratios)
  {
    var expectedCash := currentCash + d2;
    if expectedCash > 0.0 {
      var expectedPositions := ExpectPositions(inp.positions, sellOrders);
      var totalValue := expectedCash + HoldingsValue(expectedPositions.keys, expectedPositions, inp.prices);
      var bestBuyOrders, optimalCashReserve := DeficitSearch(inp, totalValue, expectedPositions, expectedCash, ratios);
      plan := sellOrders + bestBuyOrders;
    } else {
      plan := sellOrders;
    }
  }

  // ---------------------------------------------------------------------
  // Properties of the deficit plan

  /** The SELLs of the deficit path are market SELLs of held, priced codes,
      each at most the holding and each code once when the position codes
      are distinct; every SELL was placed while the proceeds before it fell
      short of the deficit; and their proceeds are their notional. */
  lemma DeficitSellsCorrect(inp: Inputs, required: real)
    ensures var w := DeficitSells(inp, required);
      && w.proceeds == TotalNotional(w.orders, inp.prices)
      && (forall i :: 0 <= i < |w.orders| ==>
            && w.orders[i].side == Sell && w.orders[i].qty > 0 && w.orders[i].limit == None
            && w.orders[i].qty <= Holding(inp.positions, w.orders[i].code)
            && CanSell(inp, w.orders[i].code))
      && (w.orders != [] ==> TotalNotional(w.orders[..|w.orders| - 1], inp.prices) < required)
      && (Distinct(inp.positions.keys) ==> CodesUnique(w.orders))
  {
    SaleOrderCorrect(inp);
    var codes := SaleOrder(inp);
    WalkSellsSound(inp, required, codes);
    var w := WalkSells(inp, required, codes);
    forall i | 0 <= i < |w.orders| ensures CanSell(inp, w.orders[i].code) {
      var k :| 0 <= k < |codes| && codes[k] == w.orders[i].code;
    }
    if Distinct(inp.positions.keys) {
      WalkSellsUnique(inp, required, codes);
    }
  }

  /** The search after the SELLs gives market BUYs of positive quantity
      that stay within the chosen budget but for at most one trailing single
      share placed while budget was left. */
  lemma DeficitBuysSound(inp: Inputs, sells: seq<Order>, expectedCash: real, ratios: seq<real>)
    ensures var ch := DeficitBuys(inp, sells, expectedCash, ratios);
      DeficitTrialSound(Trial(ch.orders, TotalNotional(ch.orders, inp.prices), true), Budget(expectedCash, ch.ratio), inp.prices)
  {
    var expected := ExpectedPositions(inp.positions, sells);
    var total := expectedCash + HoldingsValue(expected.keys, expected, inp.prices);
    DeficitSearchSound(inp, total, expected, expectedCash, ratios);
  }

  /** Market SELLs followed by the BUY-back give a plan with the SELLs first,
      positive quantities and no limits; and when the proceeds do not exceed
      the deficit the plan is the SELLs alone. */
  lemma BuyBackCorrect(inp: Inputs, d2: real, w: Walk, ratios: seq<real>)
    requires forall i :: 0 <= i < |w.orders| ==> w.orders[i].side == Sell && w.orders[i].qty > 0 && w.orders[i].limit == None
    ensures SellsBeforeBuys(BuyBack(inp, d2, w, ratios))
    ensures forall i :: 0 <= i < |BuyBack(inp, d2, w, ratios)| ==>
      BuyBack(inp, d2, w, ratios)[i].qty > 0 && BuyBack(inp, d2, w, ratios)[i].limit == None
    ensures w.proceeds + d2 <= 0.0 ==> BuyBack(inp, d2, w, ratios) == w.orders
  {
    var expectedCash := w.proceeds + d2;
    if expectedCash > 0.0 {
      DeficitBuysSound(inp, w.orders, expectedCash, ratios);
      SellsThenBuysMarket(w.orders, DeficitBuys(inp, w.orders, expectedCash, ratios).orders);
    } else {
      SellsThenBuysMarket(w.orders, []);
      assert w.orders + [] == w.orders;
    }
  }

  /** When the SELL proceeds do not exceed the deficit the plan is the SELLs
      alone: no BUY is placed. */
  lemma DeficitNoBuyWhenShort(inp: Inputs, d2: real, ratios: seq<real>)
    requires DeficitSells(inp, AbsR(d2)).proceeds + d2 <= 0.0
    ensures DeficitPlanWith(inp, d2, ratios) == DeficitSells(inp, AbsR(d2)).orders
    ensures forall i :: 0 <= i < |DeficitPlanWith(inp, d2, ratios)| ==>
      DeficitPlanWith(inp, d2, ratios)[i].side == Sell
  {
    DeficitSellsCorrect(inp, AbsR(d2));
    BuyBackCorrect(inp, d2, DeficitSells(inp, AbsR(d2)), ratios);
  }

  /** On the deficit path the SELLs come first and every order has a
      positive quantity and no limit. */
  lemma DeficitPlanOrdered(inp: Inputs, d2: real, ratios: seq<real>)
    ensures SellsBeforeBuys(DeficitPlanWith(inp, d2, ratios))
    ensures forall i :: 0 <= i < |DeficitPlanWith(inp, d2, ratios)| ==>
      DeficitPlanWith(inp, d2, ratios)[i].qty > 0 && DeficitPlanWith(inp, d2, ratios)[i].limit == None
  {
    DeficitSellsCorrect(inp, AbsR(d2));
    BuyBackCorrect(inp, d2, DeficitSells(inp, AbsR(d2)), ratios);
  }

  /** The BUYs of the deficit path cost at most the budget of the chosen
      reserve ratio, except that the last BUY may be a single share placed
      while budget was still left (the `max(1, ...)`) that goes past it. */
  lemma DeficitBuysBudget(inp: Inputs, d2: real, ratios: seq<real>)
    requires DeficitSells(inp, AbsR(d2)).proceeds + d2 > 0.0
    ensures var w := DeficitSells(inp, AbsR(d2));
      var expectedCash := w.proceeds + d2;
      var ch := DeficitBuys(inp, w.orders, expectedCash, ratios);
      var buys := ch.orders;
      && DeficitPlanWith(inp, d2, ratios) == w.orders + buys
      && (|| buys == []
          || TotalNotional(buys, inp.prices) <= Budget(expectedCash, ch.ratio)
          || (buys[|buys| - 1].qty == 1
              && TotalNotional(buys[..|buys| - 1], inp.prices) < Budget(expectedCash, ch.ratio)))
  {
    var w := DeficitSells(inp, AbsR(d2));
    DeficitBuysSound(inp, w.orders, w.proceeds + d2, ratios);
  }

  /** The SELLs of the deficit path never take a code below zero in the
      expected positions, when the position codes are distinct. */
  lemma DeficitExpectedNotNegative(inp: Inputs, required: real, c: Code)
    requires Distinct(inp.positions.keys)
    requires Holding(inp.positions, c) >= 0
    ensures Get(ExpectedPositions(inp.positions, DeficitSells(inp, required).orders), c, 0) >= 0
  {
    var w := DeficitSells(inp, required);
    DeficitSellsCorrect(inp, required);
    SoldWithinHolding(inp.positions, w.orders, c);
    ExpectedPositionsCorrect(inp.positions, w.orders, c);
  }

  /** A single holding of 100 shares at 1000 and a D+2 balance of -30000:
      the walk sells exactly 30 shares, which leaves no cash, so no BUY. */
  lemma DeficitExample(targets: Dict<real>)
    ensures DeficitPlan(Inputs(Dict(["A"], map["A" := 100]), targets, 0.0, map["A" := 1000.0], 1.0, 0), -30000.0)
         == [Order("A", Sell, 30, None)]
  {
    var inp := Inputs(Dict(["A"], map["A" := 100]), targets, 0.0, map["A" := 1000.0], 1.0, 0);
    assert ["A"][..0] == [];
    assert Sellable(inp, ["A"]) == ["A"];
    var key := Negated(inp.prices);
    assert SortByKey(["A"], key) == Insert("A", SortByKey([], key), key);
    assert SaleOrder(inp) == ["A"];
    LotsIsRoundLot(30000.0, 1000.0);
    assert Lots(30000.0, 1000.0) == 30;
    CostIsProduct(30, 1000.0);
    assert WalkSells(inp, 30000.0, ["A"]) == Walk([Order("A", Sell, 30, None)], 30000.0);
  }

  // ---------------------------------------------------------------------
  // Dispatch

  /** `plan_rebalance` without a broker: the deficit path when `d2_cash` is
      given and negative, the normal path otherwise. */
  function RebalancePlan(inp: Inputs, d2: Option<real>): seq<Order> {
    if d2.Some? && d2.value < 0.0 then DeficitPlan(inp, d2.value) else NormalPlan(inp)
  }

  method PlanRebalance(inp: Inputs, d2: Option<real>) returns (plan: seq<Order>)
    ensures plan == RebalancePlan(inp, d2)
  {
    if d2.Some? && d2.value < 0.0 {
      plan := PlanDeficit(inp, d2.value);
      return;
    }
    plan := PlanNormal(inp);
  }

  /** Whichever path is taken, the SELLs come first and every order has a
      positive quantity and no limit; a negative `d2_cash` gives exactly the
      deficit plan, and anything else the normal plan. */
  lemma RebalancePlanCorrect(inp: Inputs, d2: Option<real>)
    ensures SellsBeforeBuys(RebalancePlan(inp, d2))
    ensures forall i :: 0 <= i < |RebalancePlan(inp, d2)| ==>
      RebalancePlan(inp, d2)[i].qty > 0 && RebalancePlan(inp, d2)[i].limit == None
    ensures d2.Some? && d2.value < 0.0 ==> RebalancePlan(inp, d2) == DeficitPlan(inp, d2.value)
    ensures !(d2.Some? && d2.value < 0.0) ==> RebalancePlan(inp, d2) == NormalPlan(inp)
  {
    if d2.Some? && d2.value < 0.0 {
      DeficitPlanOrdered(inp, d2.value, ReserveRatios);
    } else {
      NormalPlanCorrect(inp, ReserveRatios);
    }
  }
}
