/** The live rebalance planner: band selection, the SELL pass, the
    reserve-ratio search for an affordable BUY list, and the resolution of a
    negative D+2 cash balance. */
module Rebalance {
  import opened Models
  import opened Rounding

  /** The arguments of `plan_rebalance` other than `d2_cash` and `broker`. */
  datatype Inputs = Inputs(
    positions: Dict<int>,
    targets: Dict<real>,
    cash: real,
    prices: map<Code, real>,
    bandPct: real,
    maxOrderValue: int)

  function Holding(positions: Dict<int>, c: Code): int {
    Get(positions, c, 0)
  }

  /** Sum of `price * qty` over the given codes of a holdings dictionary. */
  function HoldingsValue(codes: seq<Code>, positions: Dict<int>, prices: map<Code, real>): real {
    if codes == [] then 0.0
    else
      var c := codes[|codes| - 1];
      HoldingsValue(codes[..|codes| - 1], positions, prices) + Cost(Holding(positions, c), PriceOf(prices, c))
  }

  lemma HoldingsValueSnoc(codes: seq<Code>, c: Code, positions: Dict<int>, prices: map<Code, real>)
    ensures HoldingsValue(codes + [c], positions, prices)
         == HoldingsValue(codes, positions, prices) + Cost(Holding(positions, c), PriceOf(prices, c))
  {
    assert (codes + [c])[..|codes|] == codes;
  }

  /** Total asset value: negative cash counts as 0, plus the value of every
      holding. */
  function PortfolioValue(inp: Inputs): real {
    MaxR(0.0, inp.cash) + HoldingsValue(inp.positions.keys, inp.positions, inp.prices)
  }

  /** `cur_w[c]` */
  function CurrentWeight(inp: Inputs, value: real, c: Code): real
    requires value > 0.0
  {
    Cost(Holding(inp.positions, c), PriceOf(inp.prices, c)) / value
  }

  /** `deltas`: target weight minus current weight, per target. */
  function Deltas(inp: Inputs, value: real): (d: map<Code, real>)
    requires value > 0.0
    ensures d.Keys == inp.targets.m.Keys
  {
    map c | c in inp.targets.m :: inp.targets.m[c] - CurrentWeight(inp, value, c)
  }

  /** `to_sell`: the targets, in target order, whose delta lies below
      `-band` (the holdings above their target weight). */
  function ToSell(codes: seq<Code>, deltas: map<Code, real>, band: real): (r: seq<Code>)
    ensures forall c :: c in r ==> c in codes && KeyOf(deltas, c) < -band
  {
    if codes == [] then []
    else
      var c := codes[|codes| - 1];
      ToSell(codes[..|codes| - 1], deltas, band) + (if KeyOf(deltas, c) < -band then [c] else [])
  }

  /** `to_buy`: the targets, in target order, whose delta lies above `band`
      (the holdings below their target weight). */
  function ToBuy(codes: seq<Code>, deltas: map<Code, real>, band: real): (r: seq<Code>)
    ensures forall c :: c in r ==> c in codes && KeyOf(deltas, c) > band
  {
    if codes == [] then []
    else
      var c := codes[|codes| - 1];
      ToBuy(codes[..|codes| - 1], deltas, band) + (if KeyOf(deltas, c) > band then [c] else [])
  }

  /** `to_sell` lists every target whose delta lies below `-band`, as often
      as it occurs among the targets, and nothing else. */
  lemma {:induction false} ToSellExact(codes: seq<Code>, deltas: map<Code, real>, band: real)
    ensures forall x ::
      multiset(ToSell(codes, deltas, band))[x] == (if KeyOf(deltas, x) < -band then multiset(codes)[x] else 0)
  {
    if codes != [] {
      var init := codes[..|codes| - 1];
      ToSellExact(init, deltas, band);
      assert codes == init + [codes[|codes| - 1]];
    }
  }

  /** `to_buy` lists every target whose delta lies above `band`, as often as
      it occurs among the targets, and nothing else. */
  lemma {:induction false} ToBuyExact(codes: seq<Code>, deltas: map<Code, real>, band: real)
    ensures forall x ::
      multiset(ToBuy(codes, deltas, band))[x] == (if KeyOf(deltas, x) > band then multiset(codes)[x] else 0)
  {
    if codes != [] {
      var init := codes[..|codes| - 1];
      ToBuyExact(init, deltas, band);
      assert codes == init + [codes[|codes| - 1]];
    }
  }

  /** `to_sell` sorted by ascending delta. */
  function SellCodes(inp: Inputs, value: real): seq<Code>
    requires value > 0.0
  {
    var d := Deltas(inp, value);
    SortByKey(ToSell(inp.targets.keys, d, inp.bandPct / 100.0), d)
  }

  /** `to_buy` sorted by descending delta. */
  function BuyCodes(inp: Inputs, value: real): seq<Code>
    requires value > 0.0
  {
    var d := Deltas(inp, value);
    SortByKey(ToBuy(inp.targets.keys, d, inp.bandPct / 100.0), Negated(d))
  }

  /** `(cur_w[c] - targets[c]) * value`: the value by which a holding
      exceeds its target. */
  function Excess(inp: Inputs, value: real, c: Code): real
    requires value > 0.0
  {
    (CurrentWeight(inp, value, c) - Get(inp.targets, c, 0.0)) * value
  }

  /** `(targets[c] - cur_w[c]) * value`: the value by which a holding falls
      short of its target. */
  function Shortfall(inp: Inputs, value: real, c: Code): real
    requires value > 0.0
  {
    (Get(inp.targets, c, 0.0) - CurrentWeight(inp, value, c)) * value
  }

  /** `if max_order_value_per_ticker: qty = clamp_order_value(...)` */
  function CapQty(qty: int, price: real, maxOrderValue: int): int {
    if maxOrderValue != 0 then ClampOrderValue(qty, price, maxOrderValue) else qty
  }

  // ---------------------------------------------------------------------
  // SELL pass

  /** `max(1, round_lot(amount / price))` shares cost at most `amount` unless
      they are the single guaranteed share, and one share more would cost
      more than `amount`. */
  lemma AtLeastOneLot(amount: real, price: real)
    requires price > 0.0
    ensures Lots(amount, price) == RoundLot(amount / price)
    ensures Max(1, Lots(amount, price)) >= 1
    ensures amount < Cost(Max(1, Lots(amount, price)) + 1, price)
    ensures Max(1, Lots(amount, price)) > 1 ==> Cost(Max(1, Lots(amount, price)), price) <= amount
  {
    LotsIsRoundLot(amount, price);
    CostSucc(1, price);
    CostSucc(0, price);
    if amount >= 0.0 {
      LotsBounds(amount, price);
    }
  }

  /** The quantity the SELL pass asks for before the cap: the whole holding
      when cash is negative, otherwise the excess value rounded down to whole
      shares, but at least one share. */
  function SellBase(inp: Inputs, value: real, c: Code): (q: int)
    requires value > 0.0 && PriceOf(inp.prices, c) > 0.0
    ensures inp.cash < 0.0 ==> q == Holding(inp.positions, c)
    ensures inp.cash >= 0.0 ==> q == Max(1, RoundLot(Excess(inp, value, c) / PriceOf(inp.prices, c)))
    ensures inp.cash >= 0.0 ==> q >= 1 && Excess(inp, value, c) < Cost(q + 1, PriceOf(inp.prices, c))
    ensures inp.cash >= 0.0 && q > 1 ==> Cost(q, PriceOf(inp.prices, c)) <= Excess(inp, value, c)
  {
    var price := PriceOf(inp.prices, c);
    var needVal := Excess(inp, value, c);
    AtLeastOneLot(needVal, price);
    if inp.cash < 0.0 then Holding(inp.positions, c) else Max(1, Lots(needVal, price))
  }

  /** The SELL order one over-weight target gets: none when it is unpriced or
      when the capped quantity comes to zero; otherwise one market SELL of
      the capped `SellBase`, which is `SellBase` itself when there is no cap
      or it fits under the cap, and fits under a positive cap. */
  function SellFor(inp: Inputs, value: real, c: Code): (r: seq<Order>)
    requires value > 0.0
    ensures |r| <= 1
    ensures forall i :: 0 <= i < |r| ==>
      r[i].code == c && r[i].side == Sell && r[i].qty > 0 && r[i].limit == None
    ensures PriceOf(inp.prices, c) <= 0.0 ==> r == []
    ensures PriceOf(inp.prices, c) > 0.0 ==>
      var base := SellBase(inp, value, c);
      var price := PriceOf(inp.prices, c);
      && (|r| == 1 <==> CapQty(base, price, inp.maxOrderValue) > 0)
      && (|r| == 1 && (inp.maxOrderValue <= 0 || Cost(base, price) <= inp.maxOrderValue as real) ==> r[0].qty == base)
      && (|r| == 1 && inp.maxOrderValue > 0 ==> Cost(r[0].qty, price) <= inp.maxOrderValue as real)
      && (|r| == 1 && base >= 0 ==> r[0].qty <= base)
      && (base > 0 && (inp.maxOrderValue <= 0 || Cost(base, price) <= inp.maxOrderValue as real) ==> |r| == 1)
  {
    var price := PriceOf(inp.prices, c);
    if price <= 0.0 then []
    else
      var qty := CapQty(SellBase(inp, value, c), price, inp.maxOrderValue);
      if qty > 0 then [Order(c, Sell, qty, None)] else []
  }

  /** The SELL orders of the planner, in the order of `codes`. */
  function SellPass(inp: Inputs, value: real, codes: seq<Code>): (r: seq<Order>)
    requires value > 0.0
    ensures forall i :: 0 <= i < |r| ==> r[i].side == Sell && r[i].qty > 0 && r[i].limit == None
    ensures forall i :: 0 <= i < |r| ==> r[i].code in codes
  {
    if codes == [] then []
    else SellPass(inp, value, codes[..|codes| - 1]) + SellFor(inp, value, codes[|codes| - 1])
  }

  lemma SellPassSnoc(inp: Inputs, value: real, codes: seq<Code>, c: Code)
    requires value > 0.0
    ensures SellPass(inp, value, codes + [c]) == SellPass(inp, value, codes) + SellFor(inp, value, c)
  {
    assert (codes + [c])[..|codes|] == codes;
  }

  lemma {:induction false} TotalNotionalAppend(a: seq<Order>, b: seq<Order>, prices: map<Code, real>)
    ensures TotalNotional(a + b, prices) == TotalNotional(a, prices) + TotalNotional(b, prices)
  {
    if b == [] {
      assert a + b == a;
    } else {
      var b' := b[..|b| - 1];
      TotalNotionalAppend(a, b', prices);
      assert (a + b)[..|a + b| - 1] == a + b';
      assert (a + b)[|a + b| - 1] == b[|b| - 1];
    }
  }

  lemma TotalNotionalSingle(o: Order, prices: map<Code, real>)
    ensures TotalNotional([o], prices) == Notional(o, prices)
  {
    assert [o][..0] == [];
  }

  /** The body of the SELL loop of `plan_rebalance`, for one code. */
  method PlanSell(inp: Inputs, value: real, c: Code, sells0: seq<Order>, total0: real)
    returns (sellOrders: seq<Order>, totalSellValue: real)
    requires value > 0.0
    ensures sellOrders == sells0 + SellFor(inp, value, c)
    ensures totalSellValue == total0 + TotalNotional(SellFor(inp, value, c), inp.prices)
  {
    sellOrders, totalSellValue := sells0, total0;
    var needVal := Excess(inp, value, c);
    var price := PriceOf(inp.prices, c);
    if price <= 0.0 {
      assert sellOrders + [] == sellOrders;
      return;
    }
    LotsIsRoundLot(needVal, price);
    var qty;
    if inp.cash < 0.0 {
      qty := Holding(inp.positions, c);
    } else {
      qty := Max(1, Lots(needVal, price));
    }
    if inp.maxOrderValue != 0 {
      qty := ClampOrderValue(qty, price, inp.maxOrderValue);
    }
    if qty > 0 {
      var order := Order(c, Sell, qty, None);
      sellOrders := sellOrders + [order];
      totalSellValue := totalSellValue + Cost(qty, price);
      TotalNotionalSingle(order, inp.prices);
    } else {
      assert sellOrders + [] == sellOrders;
    }
  }

  /** The SELL loop of `plan_rebalance`. */
  method PlanSells(inp: Inputs, value: real, codes: seq<Code>)
    returns (sellOrders: seq<Order>, totalSellValue: real)
    requires value > 0.0
    ensures sellOrders == SellPass(inp, value, codes)
    ensures totalSellValue == TotalNotional(sellOrders, inp.prices)
  {
    sellOrders, totalSellValue := [], 0.0;
    for i := 0 to |codes|
      invariant sellOrders == SellPass(inp, value, codes[..i])
      invariant totalSellValue == TotalNotional(sellOrders, inp.prices)
    {
      var c := codes[i];
      assert codes[..i + 1] == codes[..i] + [c];
      SellPassSnoc(inp, value, codes[..i], c);
      TotalNotionalAppend(sellOrders, SellFor(inp, value, c), inp.prices);
      sellOrders, totalSellValue := PlanSell(inp, value, c, sellOrders, totalSellValue);
    }
    assert codes[..|codes|] == codes;
  }

  // ---------------------------------------------------------------------
  // BUY trial for one budget

  /** The state of one budget trial: the BUYs so far, the cash they use, and
      whether the trial is still feasible (a failed trial stops). */
  datatype Trial = Trial(orders: seq<Order>, used: real, feasible: bool)

  /** One under-weight target in a trial with budget `budget`: buy the
      rounded shortfall when the remaining budget covers it, else as many
      shares as the remaining budget buys; when that is none, or no budget
      remains, the trial fails. */
  function BuyStep(inp: Inputs, value: real, budget: real, st: Trial, c: Code): Trial
    requires value > 0.0
  {
    if !st.feasible then st
    else
      var price := PriceOf(inp.prices, c);
      if price <= 0.0 then st
      else
        var needVal := Shortfall(inp, value, c);
        var qty := CapQty(Lots(needVal, price), price, inp.maxOrderValue);
        if qty <= 0 then st
        else
          var remaining := budget - st.used;
          if Cost(qty, price) <= remaining then
            Trial(st.orders + [Order(c, Buy, qty, None)], st.used + Cost(qty, price), true)
          else if remaining > 0.0 then
            var partial := Lots(remaining, price);
            if partial > 0 then
              Trial(st.orders + [Order(c, Buy, partial, None)], st.used + Cost(partial, price), true)
            else Trial(st.orders, st.used, false)
          else Trial(st.orders, st.used, false)
  }

  function TryBudget(inp: Inputs, value: real, budget: real, codes: seq<Code>): Trial
    requires value > 0.0
  {
    if codes == [] then Trial([], 0.0, true)
    else BuyStep(inp, value, budget, TryBudget(inp, value, budget, codes[..|codes| - 1]), codes[|codes| - 1])
  }

  lemma TryBudgetSnoc(inp: Inputs, value: real, budget: real, codes: seq<Code>, c: Code)
    requires value > 0.0
    ensures TryBudget(inp, value, budget, codes + [c])
         == BuyStep(inp, value, budget, TryBudget(inp, value, budget, codes), c)
  {
    assert (codes + [c])[..|codes|] == codes;
  }

  /** What a trial keeps: BUYs of positive quantity only, whose notional is
      the cash the trial used, and which fit in the budget. */
  predicate TrialSound(t: Trial, budget: real, prices: map<Code, real>) {
    && (forall i :: 0 <= i < |t.orders| ==> t.orders[i].side == Buy && t.orders[i].qty > 0 && t.orders[i].limit == None)
    && t.used == TotalNotional(t.orders, prices)
    && (t.orders == [] || t.used <= budget)
  }

  /** Appending a BUY that fits in what is left of the budget keeps a trial
      sound. */
  lemma AppendBuySound(st: Trial, o: Order, budget: real, prices: map<Code, real>)
    requires TrialSound(st, budget, prices)
    requires o.side == Buy && o.qty > 0 && o.limit == None
    requires st.used + Notional(o, prices) <= budget
    ensures TrialSound(Trial(st.orders + [o], st.used + Notional(o, prices), true), budget, prices)
  {
    TotalNotionalAppend(st.orders, [o], prices);
    TotalNotionalSingle(o, prices);
  }

  lemma BuyStepSound(inp: Inputs, value: real, budget: real, st: Trial, c: Code)
    requires value > 0.0
    requires TrialSound(st, budget, inp.prices)
    ensures TrialSound(BuyStep(inp, value, budget, st, c), budget, inp.prices)
  {
    var r := BuyStep(inp, value, budget, st, c);
    var price := PriceOf(inp.prices, c);
    if !st.feasible || price <= 0.0 {
      assert r == st;
    } else {
      var qty := CapQty(Lots(Shortfall(inp, value, c), price), price, inp.maxOrderValue);
      var remaining := budget - st.used;
      if qty <= 0 {
        assert r == st;
      } else if Cost(qty, price) <= remaining {
        var o := Order(c, Buy, qty, None);
        assert r == Trial(st.orders + [o], st.used + Notional(o, inp.prices), true);
        AppendBuySound(st, o, budget, inp.prices);
      } else if remaining > 0.0 {
        var partial := Lots(remaining, price);
        if partial > 0 {
          var o := Order(c, Buy, partial, None);
          LotsBounds(remaining, price);
          assert r == Trial(st.orders + [o], st.used + Notional(o, inp.prices), true);
          AppendBuySound(st, o, budget, inp.prices);
        } else {
          assert r == Trial(st.orders, st.used, false);
        }
      } else {
        assert r == Trial(st.orders, st.used, false);
      }
    }
  }

  lemma {:induction false} TryBudgetSound(inp: Inputs, value: real, budget: real, codes: seq<Code>)
    requires value > 0.0
    ensures TrialSound(TryBudget(inp, value, budget, codes), budget, inp.prices)
  {
    if codes != [] {
      TryBudgetSound(inp, value, budget, codes[..|codes| - 1]);
      BuyStepSound(inp, value, budget, TryBudget(inp, value, budget, codes[..|codes| - 1]), codes[|codes| - 1]);
    }
  }

  /** A failed trial stays failed, so stopping at the failure (the `break`)
      gives the same trial as running on. */
  lemma {:induction false} TryBudgetStopsOnFailure(inp: Inputs, value: real, budget: real, codes: seq<Code>, n: nat)
    requires value > 0.0 && n <= |codes|
    requires !TryBudget(inp, value, budget, codes[..n]).feasible
    ensures TryBudget(inp, value, budget, codes) == TryBudget(inp, value, budget, codes[..n])
    decreases |codes| - n
  {
    if n < |codes| {
      assert codes[..n + 1] == codes[..n] + [codes[n]];
      TryBudgetSnoc(inp, value, budget, codes[..n], codes[n]);
      TryBudgetStopsOnFailure(inp, value, budget, codes, n + 1);
    } else {
      assert codes[..n] == codes;
    }
  }

  /** The body of the inner BUY loop of `plan_rebalance`, for one code. */
  method TryBuy(inp: Inputs, value: real, budget: real, orders0: seq<Order>, used0: real, c: Code)
    returns (testPlan: seq<Order>, usedCash: real, feasible: bool)
    requires value > 0.0
    ensures Trial(testPlan, usedCash, feasible) == BuyStep(inp, value, budget, Trial(orders0, used0, true), c)
  {
    testPlan, usedCash, feasible := orders0, used0, true;
    var needVal := Shortfall(inp, value, c);
    var price := PriceOf(inp.prices, c);
    if price <= 0.0 {
      return;
    }
    var qty := Lots(needVal, price);
    if inp.maxOrderValue != 0 {
      qty := ClampOrderValue(qty, price, inp.maxOrderValue);
    }
    if qty > 0 {
      var requiredCash := Cost(qty, price);
      var remainingBudget := budget - usedCash;
      if requiredCash <= remainingBudget {
        testPlan := testPlan + [Order(c, Buy, qty, None)];
        usedCash := usedCash + requiredCash;
      } else if remainingBudget > 0.0 {
        var partialQty := Lots(remainingBudget, price);
        if partialQty > 0 {
          testPlan := testPlan + [Order(c, Buy, partialQty, None)];
          usedCash := usedCash + Cost(partialQty, price);
        } else {
          feasible := false;
        }
      } else {
        feasible := false;
      }
    }
  }

  /** The inner BUY loop of `plan_rebalance` for one budget. */
  method TryReserve(inp: Inputs, value: real, budget: real, codes: seq<Code>)
    returns (testPlan: seq<Order>, usedCash: real, feasible: bool)
    requires value > 0.0
    ensures Trial(testPlan, usedCash, feasible) == TryBudget(inp, value, budget, codes)
  {
    testPlan, usedCash, feasible := [], 0.0, true;
    var i := 0;
    while i < |codes|
      invariant 0 <= i <= |codes|
      invariant feasible
      invariant Trial(testPlan, usedCash, feasible) == TryBudget(inp, value, budget, codes[..i])
    {
      var c := codes[i];
      assert codes[..i + 1] == codes[..i] + [c];
      TryBudgetSnoc(inp, value, budget, codes[..i], c);
      testPlan, usedCash, feasible := TryBuy(inp, value, budget, testPlan, usedCash, c);
      i := i + 1;
      if !feasible {
        TryBudgetStopsOnFailure(inp, value, budget, codes, i);
        return;
      }
    }
    assert codes[..|codes|] == codes;
  }

  // ---------------------------------------------------------------------
  // Reserve-ratio search

  /** The reserve ratios tried, 0% to 5% in steps of 0.5%. */
  const ReserveRatios: seq<real> :=
    [0.0, 0.005, 0.01, 0.015, 0.02, 0.025, 0.03, 0.035, 0.04, 0.045, 0.05]

  /** The reserve ratio reported when no ratio gives a plan. */
  const DefaultReserve: real := 0.05

  /** The outcome of the search: the BUYs of the first successful trial and
      its ratio, or no BUYs and the default ratio. */
  datatype Choice = Choice(orders: seq<Order>, ratio: real)

  function Search(trial: real -> Trial, ratios: seq<real>): Choice {
    if ratios == [] then Choice([], DefaultReserve)
    else
      var t := trial(ratios[0]);
      if t.feasible && |t.orders| > 0 then Choice(t.orders, ratios[0])
      else Search(trial, ratios[1..])
  }

  predicate Succeeds(t: Trial) {
    t.feasible && |t.orders| > 0
  }

  /** `k` is the first ratio whose trial succeeds. */
  predicate FirstSuccess(trial: real -> Trial, ratios: seq<real>, k: int) {
    && 0 <= k < |ratios| && Succeeds(trial(ratios[k]))
    && forall j :: 0 <= j < k ==> !Succeeds(trial(ratios[j]))
  }

  /** The search keeps the first ratio whose trial is feasible and not empty,
      and gives no BUYs when there is no such ratio. */
  lemma {:induction false} SearchFindsFirst(trial: real -> Trial, ratios: seq<real>)
    ensures Search(trial, ratios).orders == [] ==>
      forall k :: 0 <= k < |ratios| ==> !Succeeds(trial(ratios[k]))
    ensures Search(trial, ratios).orders != [] ==>
      exists k :: FirstSuccess(trial, ratios, k) && Search(trial, ratios).ratio == ratios[k]
        && trial(ratios[k]).orders == Search(trial, ratios).orders
  {
    if ratios != [] {
      var rest := ratios[1..];
      SearchFindsFirst(trial, rest);
      var ch := Search(trial, ratios);
      if Succeeds(trial(ratios[0])) {
        assert FirstSuccess(trial, ratios, 0);
      } else if ch.orders != [] {
        var k :| FirstSuccess(trial, rest, k) && ch.ratio == rest[k] && trial(rest[k]).orders == ch.orders;
        assert ratios[k + 1] == rest[k];
        forall j | 0 <= j < k + 1 ensures !Succeeds(trial(ratios[j])) {
          if j > 0 {
            assert ratios[j] == rest[j - 1];
          }
        }
        assert FirstSuccess(trial, ratios, k + 1);
      } else {
        forall k | 0 <= k < |ratios| ensures !Succeeds(trial(ratios[k])) {
          if k > 0 {
            assert ratios[k] == rest[k - 1];
          }
        }
      }
    }
  }

  /** `total * (1.0 - reserve_ratio)`: the budget left after a reserve. */
  function Budget(total: real, ratio: real): real {
    total * (1.0 - ratio)
  }

  /** The trial of `plan_rebalance` for one reserve ratio. */
  function NormalTrial(inp: Inputs, value: real, available: real, codes: seq<Code>): real -> Trial
    requires value > 0.0
  {
    (ratio: real) => TryBudget(inp, value, Budget(available, ratio), codes)
  }

  /** The reserve-ratio loop of `plan_rebalance`, over the given ratios. */
  method SearchReserve(inp: Inputs, value: real, available: real, codes: seq<Code>, ratios: seq<real>)
    returns (bestPlan: seq<Order>, optimalReserve: real)
    requires value > 0.0
    ensures Choice(bestPlan, optimalReserve) == Search(NormalTrial(inp, value, available, codes), ratios)
  {
    bestPlan, optimalReserve := [], DefaultReserve;
    ghost var trial := NormalTrial(inp, value, available, codes);
    var i := 0;
    while i < |ratios|
      invariant 0 <= i <= |ratios|
      invariant Search(trial, ratios) == Search(trial, ratios[i..])
      invariant bestPlan == [] && optimalReserve == DefaultReserve
    {
      var reserveRatio := ratios[i];
      var maxBudget := Budget(available, reserveRatio);
      var testPlan, usedCash, feasible := TryReserve(inp, value, maxBudget, codes);
      assert ratios[i..][1..] == ratios[i + 1..];
      assert trial(reserveRatio) == Trial(testPlan, usedCash, feasible);
      if feasible && |testPlan| > 0 {
        bestPlan, optimalReserve := testPlan, reserveRatio;
        return;
      }
      i := i + 1;
    }
  }

  // ---------------------------------------------------------------------
  // The normal path

  /** The SELL orders of the normal path. */
  function NormalSells(inp: Inputs, value: real): seq<Order>
    requires value > 0.0
  {
    SellPass(inp, value, SellCodes(inp, value))
  }

  /** What `plan_rebalance` returns when `d2_cash` is absent or not
      negative, with the reserve ratios tried as a parameter. */
  function NormalPlanWith(inp: Inputs, ratios: seq<real>): seq<Order> {
    var value := PortfolioValue(inp);
    if value <= 0.0 then [] else PlanForValue(inp, value, ratios)
  }

  /** The normal path for a portfolio of positive value: the SELLs, then the
      BUYs of the search over the cash the SELLs leave. */
  function PlanForValue(inp: Inputs, value: real, ratios: seq<real>): seq<Order>
    requires value > 0.0
  {
    NormalSells(inp, value) + NormalBuys(inp, value, NormalAvailable(inp, value), ratios)
  }

  /** `total_available_cash`: the cash plus the proceeds of the SELLs. */
  function NormalAvailable(inp: Inputs, value: real): real
    requires value > 0.0
  {
    inp.cash + TotalNotional(NormalSells(inp, value), inp.prices)
  }

  /** The BUYs the search finds with `available` to spend. */
  function NormalBuys(inp: Inputs, value: real, available: real, ratios: seq<real>): seq<Order>
    requires value > 0.0
  {
    Search(NormalTrial(inp, value, available, BuyCodes(inp, value)), ratios).orders
  }

  /** What `plan_rebalance` returns when `d2_cash` is absent or not
      negative. */
  function NormalPlan(inp: Inputs): seq<Order> {
    NormalPlanWith(inp, ReserveRatios)
  }

  /** `plan_rebalance` with `d2_cash` absent or not negative. */
  method PlanNormal(inp: Inputs) returns (plan: seq<Order>)
    ensures plan == NormalPlan(inp)
  {
    var effectiveCash := MaxR(0.0, inp.cash);
    var value := effectiveCash + HoldingsValue(inp.positions.keys, inp.positions, inp.prices);
    assert value == PortfolioValue(inp);
    if value <= 0.0 {
      return [];
    }
    plan := PlanPositive(inp, value, ReserveRatios);
  }

  /** The SELL pass, the reserve search and the assembly of `plan_rebalance`
      for a portfolio of positive value. */
  method PlanPositive(inp: Inputs, value: real, ratios: seq<real>) returns (plan: seq<Order>)
    requires value > 0.0
    ensures plan == PlanForValue(inp, value, ratios)
  {
    var sellOrders, totalSellValue := PlanSells(inp, value, SellCodes(inp, value));
    assert sellOrders == NormalSells(inp, value);
    var totalAvailableCash := inp.cash + totalSellValue;
    assert totalAvailableCash == NormalAvailable(inp, value);
    var bestPlan, optimalReserve := SearchReserve(inp, value, totalAvailableCash, BuyCodes(inp, value), ratios);
    assert bestPlan == NormalBuys(inp, value, totalAvailableCash, ratios);
    plan := sellOrders + bestPlan;
  }

  /** The search gives BUYs of positive quantity only, and when it gives any
      they cost at most the budget of the chosen ratio. */
  lemma SearchSound(inp: Inputs, value: real, available: real, codes: seq<Code>, ratios: seq<real>)
    requires value > 0.0
    ensures var ch := Search(NormalTrial(inp, value, available, codes), ratios);
      && (forall i :: 0 <= i < |ch.orders| ==> ch.orders[i].side == Buy && ch.orders[i].qty > 0 && ch.orders[i].limit == None)
      && (ch.orders != [] ==> TotalNotional(ch.orders, inp.prices) <= Budget(available, ch.ratio))
  {
    var trial := NormalTrial(inp, value, available, codes);
    var ch := Search(trial, ratios);
    SearchFindsFirst(trial, ratios);
    if ch.orders != [] {
      var k :| FirstSuccess(trial, ratios, k) && ch.ratio == ratios[k] && trial(ratios[k]).orders == ch.orders;
      TryBudgetSound(inp, value, Budget(available, ratios[k]), codes);
    }
  }

  /** For a portfolio of positive value the SELLs come first and every order
      has a positive quantity and no limit. */
  lemma PlanForValueCorrect(inp: Inputs, value: real, ratios: seq<real>)
    requires value > 0.0
    ensures SellsBeforeBuys(PlanForValue(inp, value, ratios))
    ensures forall i :: 0 <= i < |PlanForValue(inp, value, ratios)| ==>
      PlanForValue(inp, value, ratios)[i].qty > 0 && PlanForValue(inp, value, ratios)[i].limit == None
  {
    SearchSound(inp, value, NormalAvailable(inp, value), BuyCodes(inp, value), ratios);
    SellsThenBuysMarket(NormalSells(inp, value), NormalBuys(inp, value, NormalAvailable(inp, value), ratios));
  }

  /** On the normal path the SELLs come first, every order has a positive
      quantity and no limit, and a portfolio worth nothing gives no orders;
      this holds whatever reserve ratios are tried. */
  lemma NormalPlanCorrect(inp: Inputs, ratios: seq<real>)
    ensures SellsBeforeBuys(NormalPlanWith(inp, ratios))
    ensures forall i :: 0 <= i < |NormalPlanWith(inp, ratios)| ==>
      NormalPlanWith(inp, ratios)[i].qty > 0 && NormalPlanWith(inp, ratios)[i].limit == None
    ensures PortfolioValue(inp) <= 0.0 ==> NormalPlanWith(inp, ratios) == []
  {
    var value := PortfolioValue(inp);
    if value > 0.0 {
      PlanForValueCorrect(inp, value, ratios);
    }
  }

  /** Every BUY a trial keeps names one of the codes it walks. */
  lemma {:induction false} TryBudgetCodes(inp: Inputs, value: real, budget: real, codes: seq<Code>)
    requires value > 0.0
    ensures forall i :: 0 <= i < |TryBudget(inp, value, budget, codes).orders| ==>
      TryBudget(inp, value, budget, codes).orders[i].code in codes
  {
    if codes != [] {
      var init := codes[..|codes| - 1];
      TryBudgetCodes(inp, value, budget, init);
      assert forall x :: x in init ==> x in codes;
    }
  }

  /** Whatever the ratios, the search keeps the BUYs of one of its trials,
      so each names one of the codes walked. */
  lemma SearchCodes(inp: Inputs, value: real, available: real, codes: seq<Code>, ratios: seq<real>)
    requires value > 0.0
    ensures var ch := Search(NormalTrial(inp, value, available, codes), ratios);
      forall i :: 0 <= i < |ch.orders| ==> ch.orders[i].code in codes
  {
    var trial := NormalTrial(inp, value, available, codes);
    SearchFindsFirst(trial, ratios);
    if Search(trial, ratios).orders != [] {
      var k :| FirstSuccess(trial, ratios, k) && trial(ratios[k]).orders == Search(trial, ratios).orders;
      TryBudgetCodes(inp, value, Budget(available, ratios[k]), codes);
    }
  }

  /** Every order of the normal path names a target whose weight gap lies
      beyond the band: a SELL one whose delta is below `-band`, a BUY one
      whose delta is above `band`; targets inside the band get no order. */
  lemma NormalPlanWithinBand(inp: Inputs, ratios: seq<real>)
    ensures var p := NormalPlanWith(inp, ratios);
      var value := PortfolioValue(inp);
      forall i :: 0 <= i < |p| ==>
        && value > 0.0
        && p[i].code in inp.targets.keys
        && (p[i].side == Sell ==> KeyOf(Deltas(inp, value), p[i].code) < -inp.bandPct / 100.0)
        && (p[i].side == Buy ==> KeyOf(Deltas(inp, value), p[i].code) > inp.bandPct / 100.0)
  {
    var value := PortfolioValue(inp);
    if value > 0.0 {
      SellsWithinBand(inp, value);
      BuysWithinBand(inp, value, ratios);
      SidesWithinBand(NormalSells(inp, value), NormalBuys(inp, value, NormalAvailable(inp, value), ratios), inp.targets.keys, Deltas(inp, value), inp.bandPct / 100.0);
    }
  }

  /** SELLs of codes below `-band` followed by BUYs of codes above `band`
      only name such codes. */
  lemma SidesWithinBand(sells: seq<Order>, buys: seq<Order>, codes: seq<Code>, d: map<Code, real>, band: real)
    requires forall i :: 0 <= i < |sells| ==> sells[i].side == Sell && sells[i].code in codes && KeyOf(d, sells[i].code) < -band
    requires forall i :: 0 <= i < |buys| ==> buys[i].side == Buy && buys[i].code in codes && KeyOf(d, buys[i].code) > band
    ensures forall i :: 0 <= i < |sells + buys| ==>
      && (sells + buys)[i].code in codes
      && ((sells + buys)[i].side == Sell ==> KeyOf(d, (sells + buys)[i].code) < -band)
      && ((sells + buys)[i].side == Buy ==> KeyOf(d, (sells + buys)[i].code) > band)
  {
  }

  /** The SELLs of the normal path name targets below `-band`. */
  lemma SellsWithinBand(inp: Inputs, value: real)
    requires value > 0.0
    ensures var sells := NormalSells(inp, value);
      forall i :: 0 <= i < |sells| ==>
        && sells[i].side == Sell
        && sells[i].code in inp.targets.keys
        && KeyOf(Deltas(inp, value), sells[i].code) < -inp.bandPct / 100.0
  {
    var d := Deltas(inp, value);
    SortByKeyMembers(ToSell(inp.targets.keys, d, inp.bandPct / 100.0), d);
  }

  /** The codes the BUY trials walk are targets above `band`. */
  lemma BuyCodesWithinBand(inp: Inputs, value: real)
    requires value > 0.0
    ensures forall c :: c in BuyCodes(inp, value) ==>
      c in inp.targets.keys && KeyOf(Deltas(inp, value), c) > inp.bandPct / 100.0
  {
    var d := Deltas(inp, value);
    SortByKeyMembers(ToBuy(inp.targets.keys, d, inp.bandPct / 100.0), Negated(d));
  }

  /** The BUYs of the normal path name targets above `band`. */
  lemma BuysWithinBand(inp: Inputs, value: real, ratios: seq<real>)
    requires value > 0.0
    ensures var buys := NormalBuys(inp, value, NormalAvailable(inp, value), ratios);
      forall i :: 0 <= i < |buys| ==>
        && buys[i].side == Buy
        && buys[i].code in inp.targets.keys
        && KeyOf(Deltas(inp, value), buys[i].code) > inp.bandPct / 100.0
  {
    var available := NormalAvailable(inp, value);
    BuyCodesWithinBand(inp, value);
    SearchCodes(inp, value, available, BuyCodes(inp, value), ratios);
    SearchSound(inp, value, available, BuyCodes(inp, value), ratios);
  }

  // ---------------------------------------------------------------------
  // Two portfolios of the design

  /** A trial over no codes buys nothing, so the search finds no BUYs. */
  lemma SearchNoCodes(inp: Inputs, value: real, available: real, ratios: seq<real>)
    requires value > 0.0
    ensures Search(NormalTrial(inp, value, available, []), ratios).orders == []
  {
    SearchFindsFirst(NormalTrial(inp, value, available, []), ratios);
  }

  /** `{a: 10, b: 5}` at 100 and 200 with target weights 0.5 each, no cash
      and a 1% band: both weights are already 50%. */
  function Balanced(a: Code, b: Code): Inputs {
    Inputs(
      Dict([a, b], map[a := 10, b := 5]),
      Dict([a, b], map[a := 0.5, b := 0.5]),
      0.0, map[a := 100.0, b := 200.0], 1.0, 0)
  }

  /** An already balanced portfolio gets an empty plan. */
  lemma BalancedPortfolioNoOrders(a: Code, b: Code)
    requires a != b
    ensures NormalPlan(Balanced(a, b)) == []
  {
    var inp := Balanced(a, b);
    BalancedValue(a, b);
    BalancedDeltas(a, b);
    assert NormalSells(inp, 2000.0) == [];
    assert BuyCodes(inp, 2000.0) == [];
    SearchNoCodes(inp, 2000.0, NormalAvailable(inp, 2000.0), ReserveRatios);
  }

  lemma BalancedValue(a: Code, b: Code)
    requires a != b
    ensures PortfolioValue(Balanced(a, b)) == 2000.0
  {
    var inp := Balanced(a, b);
    CostIsProduct(10, 100.0);
    CostIsProduct(5, 200.0);
    assert [a, b][..1] == [a] && [a][..0] == [];
    HoldingsValueSnoc([a], b, inp.positions, inp.prices);
    HoldingsValueSnoc([], a, inp.positions, inp.prices);
  }

  /** Each holding already weighs 50%, so both deltas are 0. */
  lemma BalancedWeights(a: Code, b: Code)
    requires a != b
    ensures KeyOf(Deltas(Balanced(a, b), 2000.0), a) == 0.0
    ensures KeyOf(Deltas(Balanced(a, b), 2000.0), b) == 0.0
  {
    var inp := Balanced(a, b);
    assert CurrentWeight(inp, 2000.0, a) == 0.5 by {
      CostIsProduct(10, 100.0);
    }
    assert CurrentWeight(inp, 2000.0, b) == 0.5 by {
      CostIsProduct(5, 200.0);
    }
  }

  /** With both deltas 0, no target lies beyond the band. */
  lemma BalancedDeltas(a: Code, b: Code)
    requires a != b
    ensures ToSell([a, b], Deltas(Balanced(a, b), 2000.0), 0.01) == []
    ensures ToBuy([a, b], Deltas(Balanced(a, b), 2000.0), 0.01) == []
  {
    BalancedWeights(a, b);
    var d := Deltas(Balanced(a, b), 2000.0);
    assert [a, b][..1] == [a] && [a][..0] == [];
    assert ToSell([a], d, 0.01) == [] && ToBuy([a], d, 0.01) == [];
  }

  /** `{c: 0}` at a price of 100 with target weight 1.0, 1000 in cash, a 1%
      band and `max_order_value_per_ticker` unset. */
  function CashOnly(c: Code): Inputs {
    Inputs(Dict([c], map[c := 0]), Dict([c], map[c := 1.0]), 1000.0, map[c := 100.0], 1.0, 0)
  }

  /** Cash alone buys the whole target: the plan is one market BUY of the 10
      shares the 1000 in cash pays for, found at the first reserve ratio,
      0%. */
  lemma CashOnlyBuysTarget(c: Code)
    ensures NormalPlan(CashOnly(c)) == [Order(c, Buy, 10, None)]
  {
    var inp := CashOnly(c);
    CashOnlyValue(c);
    CashOnlySells(c);
    CashOnlySearch(c);
    assert PlanForValue(inp, 1000.0, ReserveRatios) == [] + [Order(c, Buy, 10, None)];
  }

  lemma CashOnlyValue(c: Code)
    ensures PortfolioValue(CashOnly(c)) == 1000.0
  {
    assert [c][..0] == [];
    HoldingsValueSnoc([], c, Dict([c], map[c := 0]), map[c := 100.0]);
  }

  /** Nothing is held, so the target's delta is its whole weight. */
  lemma CashOnlyDeltas(c: Code)
    ensures Deltas(CashOnly(c), 1000.0) == map[c := 1.0]
  {
    assert CurrentWeight(CashOnly(c), 1000.0, c) == 0.0;
  }

  /** The cash-only portfolio sells nothing, so its available cash is its
      cash. */
  lemma CashOnlySells(c: Code)
    ensures SellCodes(CashOnly(c), 1000.0) == []
    ensures NormalSells(CashOnly(c), 1000.0) == []
    ensures NormalAvailable(CashOnly(c), 1000.0) == 1000.0
  {
    CashOnlyDeltas(c);
    assert [c][..0] == [];
    assert ToSell([c], map[c := 1.0], 0.01) == [];
  }

  /** The cash-only portfolio buys `c` alone. */
  lemma CashOnlyBuys(c: Code)
    ensures BuyCodes(CashOnly(c), 1000.0) == [c]
  {
    CashOnlyDeltas(c);
    assert [c][..0] == [];
    assert ToBuy([c], map[c := 1.0], 0.01) == [c];
    assert SortByKey([c], Negated(map[c := 1.0])) == [c];
  }

  /** The search succeeds at once, with the whole cash as budget. */
  lemma CashOnlySearch(c: Code)
    ensures NormalBuys(CashOnly(c), 1000.0, 1000.0, ReserveRatios) == [Order(c, Buy, 10, None)]
  {
    var inp := CashOnly(c);
    CashOnlyBuys(c);
    CashOnlyTrial(c);
    var trial := NormalTrial(inp, 1000.0, 1000.0, [c]);
    assert Budget(1000.0, ReserveRatios[0]) == 1000.0;
    assert trial(ReserveRatios[0]) == Trial([Order(c, Buy, 10, None)], 1000.0, true);
  }

  /** With the whole 1000 as budget, the shortfall of 1000 buys exactly 10
      shares. */
  lemma CashOnlyTrial(c: Code)
    ensures TryBudget(CashOnly(c), 1000.0, 1000.0, [c]) == Trial([Order(c, Buy, 10, None)], 1000.0, true)
  {
    var inp := CashOnly(c);
    assert Shortfall(inp, 1000.0, c) == 1000.0 by {
      assert CurrentWeight(inp, 1000.0, c) == 0.0;
    }
    assert Lots(1000.0, 100.0) == 10 by {
      LotsIsRoundLot(1000.0, 100.0);
      assert 1000.0 / 100.0 == 10.0;
    }
    assert Cost(10, 100.0) == 1000.0 by {
      CostIsProduct(10, 100.0);
    }
    BuyWhole(inp, 1000.0, 1000.0, c, 10);
  }

  /** A feasible empty trial for one code buys the whole rounded shortfall
      when its cost fits in the budget. */
  lemma BuyWhole(inp: Inputs, value: real, budget: real, c: Code, q: int)
    requires value > 0.0 && inp.maxOrderValue == 0 && PriceOf(inp.prices, c) > 0.0
    requires q > 0 && Lots(Shortfall(inp, value, c), PriceOf(inp.prices, c)) == q
    requires Cost(q, PriceOf(inp.prices, c)) <= budget
    ensures TryBudget(inp, value, budget, [c]) == Trial([Order(c, Buy, q, None)], Cost(q, PriceOf(inp.prices, c)), true)
  {
    assert [c][..0] == [];
    assert [] + [Order(c, Buy, q, None)] == [Order(c, Buy, q, None)];
  }
}
