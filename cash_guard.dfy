/** Cash-sufficiency guard: replays a plan against a cash balance, SELLs
    first, and shrinks or drops the BUYs the running balance cannot cover. */
module CashGuard {
  import opened Models
  import opened Rounding

  /** Cash effect of one order: a SELL credits, a BUY debits, and an order
      whose price is missing or not positive counts for nothing. */
  function CashEffect(o: Order, prices: map<Code, real>): real {
    var p := PriceOf(prices, o.code);
    if p <= 0.0 then 0.0
    else if o.side == Buy then -Cost(o.qty, p)
    else Cost(o.qty, p)
  }

  /** Net cash effect of a plan, order by order. */
  function CashDelta(plan: seq<Order>, prices: map<Code, real>): real {
    if plan == [] then 0.0
    else CashDelta(plan[..|plan| - 1], prices) + CashEffect(plan[|plan| - 1], prices)
  }

  lemma {:induction false} CashDeltaAppend(a: seq<Order>, b: seq<Order>, prices: map<Code, real>)
    ensures CashDelta(a + b, prices) == CashDelta(a, prices) + CashDelta(b, prices)
  {
    if b == [] {
      assert a + b == a;
    } else {
      var b' := b[..|b| - 1];
      var x := b[|b| - 1];
      CashDeltaAppend(a, b', prices);
      assert (a + b)[..|a + b| - 1] == a + b';
      assert (a + b)[|a + b| - 1] == x;
      assert CashDelta(a + b, prices) == CashDelta(a + b', prices) + CashEffect(x, prices);
      assert CashDelta(b, prices) == CashDelta(b', prices) + CashEffect(x, prices);
    }
  }

  lemma CashDeltaSnoc(a: seq<Order>, o: Order, prices: map<Code, real>)
    ensures CashDelta(a + [o], prices) == CashDelta(a, prices) + CashEffect(o, prices)
  {
    assert (a + [o])[..|a|] == a;
  }

  lemma CashDeltaSingle(o: Order, prices: map<Code, real>)
    ensures CashDelta([o], prices) == CashEffect(o, prices)
  {
    assert [o][..0] == [];
  }

  /** Moving one order to the end of a plan keeps its net cash effect. */
  lemma CashDeltaMoveLast(b: seq<Order>, k: int, prices: map<Code, real>)
    requires 0 <= k < |b|
    ensures CashDelta(b, prices) == CashDelta(b[..k] + b[k + 1..], prices) + CashEffect(b[k], prices)
  {
    assert b == (b[..k] + [b[k]]) + b[k + 1..];
    CashDeltaAppend(b[..k] + [b[k]], b[k + 1..], prices);
    CashDeltaAppend(b[..k], [b[k]], prices);
    CashDeltaAppend(b[..k], b[k + 1..], prices);
    CashDeltaSingle(b[k], prices);
  }

  lemma RemoveOne(a: seq<Order>, b: seq<Order>, k: int)
    requires a != [] && multiset(a) == multiset(b) && 0 <= k < |b| && b[k] == a[|a| - 1]
    ensures multiset(a[..|a| - 1]) == multiset(b[..k] + b[k + 1..])
  {
    var x := a[|a| - 1];
    assert a == a[..|a| - 1] + [x];
    assert multiset(a) == multiset(a[..|a| - 1]) + multiset{x};
    assert b == b[..k] + [x] + b[k + 1..];
    assert multiset(b) == multiset(b[..k]) + multiset{x} + multiset(b[k + 1..]);
    assert multiset(b[..k] + b[k + 1..]) == multiset(b[..k]) + multiset(b[k + 1..]);
    assert multiset(a[..|a| - 1]) == multiset(a) - multiset{x};
    assert multiset(b[..k] + b[k + 1..]) == multiset(b) - multiset{x};
  }

  /** The net cash effect does not depend on the order of the plan. */
  lemma {:induction false} CashDeltaOrderIndependent(a: seq<Order>, b: seq<Order>, prices: map<Code, real>)
    requires multiset(a) == multiset(b)
    ensures CashDelta(a, prices) == CashDelta(b, prices)
  {
    if a == [] {
      assert |b| == |multiset(b)| == 0;
    } else {
      var x := a[|a| - 1];
      assert x in multiset(a);
      var k :| 0 <= k < |b| && b[k] == x;
      RemoveOne(a, b, k);
      CashDeltaOrderIndependent(a[..|a| - 1], b[..k] + b[k + 1..], prices);
      CashDeltaMoveLast(b, k, prices);
    }
  }

  /** `calculate_final_cash`: the initial cash plus every SELL's notional
      minus every BUY's notional, over orders with a positive price. */
  method CalculateFinalCash(plan: seq<Order>, initialCash: real, prices: map<Code, real>)
    returns (finalCash: real)
    ensures finalCash == initialCash + CashDelta(plan, prices)
  {
    finalCash := initialCash;
    for i := 0 to |plan|
      invariant finalCash == initialCash + CashDelta(plan[..i], prices)
    {
      var order := plan[i];
      var price := PriceOf(prices, order.code);
      if price > 0.0 {
        if order.side == Buy {
          finalCash := finalCash - Cost(order.qty, price);
        } else if order.side == Sell {
          finalCash := finalCash + Cost(order.qty, price);
        }
      }
      assert plan[..i + 1][..i] == plan[..i];
    }
    assert plan[..|plan|] == plan;
  }

  /** The orders of a list whose price is positive, in list order. */
  function Priced(orders: seq<Order>, prices: map<Code, real>): (r: seq<Order>)
    ensures forall i :: 0 <= i < |r| ==> PriceOf(prices, r[i].code) > 0.0
  {
    if orders == [] then []
    else
      var o := orders[|orders| - 1];
      Priced(orders[..|orders| - 1], prices) + (if PriceOf(prices, o.code) > 0.0 then [o] else [])
  }

  lemma {:induction false} PricedSide(orders: seq<Order>, prices: map<Code, real>, side: Side)
    requires forall i :: 0 <= i < |orders| ==> orders[i].side == side
    ensures forall i :: 0 <= i < |Priced(orders, prices)| ==> Priced(orders, prices)[i].side == side
  {
    if orders != [] {
      PricedSide(orders[..|orders| - 1], prices, side);
    }
  }

  lemma {:induction false} CashDeltaPriced(orders: seq<Order>, prices: map<Code, real>)
    ensures CashDelta(Priced(orders, prices), prices) == CashDelta(orders, prices)
  {
    if orders != [] {
      var o := orders[|orders| - 1];
      var init := orders[..|orders| - 1];
      CashDeltaPriced(init, prices);
      var pi := Priced(init, prices);
      if PriceOf(prices, o.code) > 0.0 {
        assert Priced(orders, prices) == pi + [o];
        assert (pi + [o])[..|pi|] == pi;
        assert CashDelta(pi + [o], prices) == CashDelta(pi, prices) + CashEffect(o, prices);
      } else {
        assert Priced(orders, prices) == pi;
      }
    }
  }

  /** The guard's state: the orders accepted so far and the running cash. */
  datatype GuardState = GuardState(kept: seq<Order>, cash: real)

  /** One BUY of `validate_cash_sufficiency`: kept as it is when the running
      cash covers it, else cut to `round_lot(cash / price)` shares when that
      is positive, else dropped; an unpriced order is dropped. */
  function GuardBuyStep(st: GuardState, o: Order, prices: map<Code, real>): GuardState {
    var p := PriceOf(prices, o.code);
    if p <= 0.0 then st
    else if st.cash >= Cost(o.qty, p) then GuardState(st.kept + [o], st.cash - Cost(o.qty, p))
    else if st.cash > 0.0 then
      var q := Lots(st.cash, p);
      if q > 0 then GuardState(st.kept + [Order(o.code, o.side, q, o.limit)], st.cash - Cost(q, p))
      else st
    else st
  }

  function GuardBuys(buys: seq<Order>, prices: map<Code, real>, start: GuardState): GuardState {
    if buys == [] then start
    else GuardBuyStep(GuardBuys(buys[..|buys| - 1], prices, start), buys[|buys| - 1], prices)
  }

  lemma GuardBuysSnoc(buys: seq<Order>, o: Order, prices: map<Code, real>, start: GuardState)
    ensures GuardBuys(buys + [o], prices, start) == GuardBuyStep(GuardBuys(buys, prices, start), o, prices)
  {
    assert (buys + [o])[..|buys|] == buys;
  }

  lemma PricedSnoc(orders: seq<Order>, o: Order, prices: map<Code, real>)
    ensures Priced(orders + [o], prices) == Priced(orders, prices) + (if PriceOf(prices, o.code) > 0.0 then [o] else [])
  {
    assert (orders + [o])[..|orders|] == orders;
  }

  /** What `validate_cash_sufficiency` returns: the priced SELLs in plan order,
      credited, then the BUYs through the guard. */
  function CashSufficiency(plan: seq<Order>, initialCash: real, prices: map<Code, real>): GuardState {
    GuardBuys(OfSide(plan, Buy), prices, SellsCredited(plan, initialCash, prices))
  }

  /** The state after the SELL loop: the priced SELLs, credited. */
  function SellsCredited(plan: seq<Order>, initialCash: real, prices: map<Code, real>): GuardState {
    GuardState(Priced(OfSide(plan, Sell), prices), initialCash + CashDelta(OfSide(plan, Sell), prices))
  }

  /** `validate_cash_sufficiency` */
  method ValidateCashSufficiency(plan: seq<Order>, initialCash: real, prices: map<Code, real>)
    returns (adjusted: seq<Order>, finalCash: real)
    ensures GuardState(adjusted, finalCash) == CashSufficiency(plan, initialCash, prices)
  {
    var sellOrders := OfSide(plan, Sell);
    var buyOrders := OfSide(plan, Buy);
    var currentCash;
    adjusted, currentCash := CreditSells(sellOrders, initialCash, prices);
    ghost var start := GuardState(adjusted, currentCash);

    for j := 0 to |buyOrders|
      invariant GuardState(adjusted, currentCash) == GuardBuys(buyOrders[..j], prices, start)
    {
      var order := buyOrders[j];
      assert buyOrders[..j + 1] == buyOrders[..j] + [order];
      GuardBuysSnoc(buyOrders[..j], order, prices, start);
      adjusted, currentCash := GuardBuy(adjusted, currentCash, order, prices);
    }
    assert buyOrders[..|buyOrders|] == buyOrders;
    finalCash := currentCash;
  }

  /** The SELL loop of `validate_cash_sufficiency`: every priced SELL is
      kept and credited. */
  method CreditSells(sellOrders: seq<Order>, initialCash: real, prices: map<Code, real>)
    returns (adjusted: seq<Order>, currentCash: real)
    requires forall i :: 0 <= i < |sellOrders| ==> sellOrders[i].side == Sell
    ensures adjusted == Priced(sellOrders, prices)
    ensures currentCash == initialCash + CashDelta(sellOrders, prices)
  {
    adjusted := [];
    currentCash := initialCash;
    for i := 0 to |sellOrders|
      invariant adjusted == Priced(sellOrders[..i], prices)
      invariant currentCash == initialCash + CashDelta(sellOrders[..i], prices)
    {
      var order := sellOrders[i];
      var price := PriceOf(prices, order.code);
      assert sellOrders[..i + 1] == sellOrders[..i] + [order];
      PricedSnoc(sellOrders[..i], order, prices);
      CashDeltaSnoc(sellOrders[..i], order, prices);
      if price > 0.0 {
        assert CashEffect(order, prices) == Cost(order.qty, price);
        currentCash := currentCash + Cost(order.qty, price);
        adjusted := adjusted + [order];
      } else {
        assert CashEffect(order, prices) == 0.0;
        assert adjusted + [] == adjusted;
      }
    }
    assert sellOrders[..|sellOrders|] == sellOrders;
  }

  /** The body of the BUY loop of `validate_cash_sufficiency`, for one order. */
  method GuardBuy(adjusted0: seq<Order>, cash0: real, order: Order, prices: map<Code, real>)
    returns (adjusted: seq<Order>, currentCash: real)
    ensures GuardState(adjusted, currentCash) == GuardBuyStep(GuardState(adjusted0, cash0), order, prices)
  {
    adjusted, currentCash := adjusted0, cash0;
    var price := PriceOf(prices, order.code);
    if price > 0.0 {
      var requiredCash := Cost(order.qty, price);
      if currentCash >= requiredCash {
        currentCash := currentCash - requiredCash;
        adjusted := adjusted + [order];
      } else if currentCash > 0.0 {
        var adjustedQty := Lots(currentCash, price);
        if adjustedQty > 0 {
          adjusted := adjusted + [Order(order.code, order.side, adjustedQty, order.limit)];
          currentCash := currentCash - Cost(adjustedQty, price);
        }
      }
    }
  }

  /** What one guard step may do: leave the state alone, or append one priced
      order with the code, side and limit of `o` and either its quantity or a
      smaller positive one, paid out of cash that covers it. */
  predicate StepAllowed(st: GuardState, r: GuardState, o: Order, prices: map<Code, real>) {
    r == st ||
    (&& |r.kept| == |st.kept| + 1 && r.kept[..|st.kept|] == st.kept
     && var o' := r.kept[|st.kept|];
     && o'.code == o.code && o'.side == o.side && o'.limit == o.limit
     && PriceOf(prices, o.code) > 0.0
     && (o'.qty == o.qty || 0 < o'.qty < o.qty)
     && r.cash == st.cash - Cost(o'.qty, PriceOf(prices, o.code))
     && r.cash >= 0.0)
  }

  lemma GuardStepAllowed(st: GuardState, o: Order, prices: map<Code, real>)
    ensures StepAllowed(st, GuardBuyStep(st, o, prices), o, prices)
  {
    var p := PriceOf(prices, o.code);
    var r := GuardBuyStep(st, o, prices);
    if r != st {
      assert r.kept[..|st.kept|] == st.kept;
      if st.cash < Cost(o.qty, p) {
        var q := Lots(st.cash, p);
        LotsBounds(st.cash, p);
        CostStrictlyMonotone(o.qty, q, p);
      }
    }
  }

  /** The cash left after replaying the first `n` orders of a plan. */
  function CashAfter(c0: real, plan: seq<Order>, n: nat, prices: map<Code, real>): real
    requires n <= |plan|
  {
    c0 + CashDelta(plan[..n], prices)
  }

  /** `r` extends `start` by priced BUYs only, its cash is the cash `c0`
      replayed over its orders, and that replay never goes negative after
      one of the added BUYs. */
  predicate Replayed(start: GuardState, r: GuardState, c0: real, prices: map<Code, real>) {
    && r.cash == c0 + CashDelta(r.kept, prices)
    && Extends(start, r, prices)
    && (forall n :: |start.kept| < n <= |r.kept| ==> CashAfter(c0, r.kept, n, prices) >= 0.0)
  }

  /** `r` keeps the orders of `start` and adds priced BUYs only. */
  predicate Extends(start: GuardState, r: GuardState, prices: map<Code, real>) {
    && |start.kept| <= |r.kept| && r.kept[..|start.kept|] == start.kept
    && (forall j :: |start.kept| <= j < |r.kept| ==>
          r.kept[j].side == Buy && PriceOf(prices, r.kept[j].code) > 0.0)
  }

  lemma ExtendsStep(start: GuardState, prev: GuardState, r: GuardState, o: Order, prices: map<Code, real>)
    requires o.side == Buy
    requires Extends(start, prev, prices) && StepAllowed(prev, r, o, prices)
    ensures Extends(start, r, prices)
  {
    if r != prev {
      var m := |prev.kept|;
      assert r.kept == prev.kept + [r.kept[m]];
      forall j | |start.kept| <= j < m + 1
        ensures r.kept[j].side == Buy && PriceOf(prices, r.kept[j].code) > 0.0
      {
        if j < m {
          assert r.kept[j] == prev.kept[j];
        }
      }
      assert r.kept[..|start.kept|] == prev.kept[..|start.kept|];
    }
  }

  /** The guard keeps what it starts from and adds priced BUYs only. */
  lemma {:induction false} GuardBuysExtends(buys: seq<Order>, prices: map<Code, real>, start: GuardState)
    requires forall i :: 0 <= i < |buys| ==> buys[i].side == Buy
    ensures Extends(start, GuardBuys(buys, prices, start), prices)
  {
    if buys == [] {
      assert start.kept[..|start.kept|] == start.kept;
    } else {
      var init := buys[..|buys| - 1];
      var o := buys[|buys| - 1];
      GuardBuysExtends(init, prices, start);
      var prev := GuardBuys(init, prices, start);
      GuardStepAllowed(prev, o, prices);
      ExtendsStep(start, prev, GuardBuyStep(prev, o, prices), o, prices);
    }
  }

  lemma PrefixElements(a: seq<Order>, b: seq<Order>)
    requires |b| <= |a| && a[..|b|] == b
    ensures forall j :: 0 <= j < |b| ==> a[j] == b[j]
  {
    forall j | 0 <= j < |b| ensures a[j] == b[j] {
      assert a[..|b|][j] == a[j];
    }
  }

  lemma ReplayedStep(start: GuardState, prev: GuardState, r: GuardState, o: Order, c0: real, prices: map<Code, real>)
    requires o.side == Buy
    requires Replayed(start, prev, c0, prices) && StepAllowed(prev, r, o, prices)
    ensures Replayed(start, r, c0, prices)
  {
    if r != prev {
      var m := |prev.kept|;
      var o' := r.kept[m];
      assert r.kept == prev.kept + [o'];
      assert r.kept[..m] == prev.kept;
      CashDeltaAppend(prev.kept, [o'], prices);
      CashDeltaSingle(o', prices);
      assert r.cash == c0 + CashDelta(r.kept, prices);
      ExtendsStep(start, prev, r, o, prices);
      forall n | |start.kept| < n <= m + 1 ensures CashAfter(c0, r.kept, n, prices) >= 0.0 {
        if n <= m {
          assert r.kept[..n] == prev.kept[..n];
          assert CashAfter(c0, r.kept, n, prices) == CashAfter(c0, prev.kept, n, prices);
        } else {
          assert r.kept[..n] == r.kept;
        }
      }
    }
  }

  /** The guard only appends, every appended order is a priced BUY, the
      running cash is the replayed cash, and it is never negative after an
      accepted BUY. */
  lemma {:induction false} GuardBuysReplay(buys: seq<Order>, prices: map<Code, real>, start: GuardState, c0: real)
    requires forall i :: 0 <= i < |buys| ==> buys[i].side == Buy
    requires start.cash == c0 + CashDelta(start.kept, prices)
    ensures Replayed(start, GuardBuys(buys, prices, start), c0, prices)
  {
    if buys == [] {
      assert start.kept[..|start.kept|] == start.kept;
    } else {
      var init := buys[..|buys| - 1];
      var o := buys[|buys| - 1];
      GuardBuysReplay(init, prices, start, c0);
      var prev := GuardBuys(init, prices, start);
      GuardStepAllowed(prev, o, prices);
      ReplayedStep(start, prev, GuardBuyStep(prev, o, prices), o, c0, prices);
    }
  }

  /** Each order the guard adds comes from one BUY of the input, with the
      same code, side and limit, and either the same quantity or a smaller
      positive one. */
  lemma {:induction false} GuardBuysFromInput(buys: seq<Order>, prices: map<Code, real>, start: GuardState)
    ensures var r := GuardBuys(buys, prices, start);
      |start.kept| <= |r.kept| && r.kept[..|start.kept|] == start.kept &&
      forall j :: |start.kept| <= j < |r.kept| ==> DerivedFrom(r.kept[j], buys)
  {
    if buys != [] {
      var init := buys[..|buys| - 1];
      var o := buys[|buys| - 1];
      GuardBuysFromInput(init, prices, start);
      var prev := GuardBuys(init, prices, start);
      var r := GuardBuys(buys, prices, start);
      assert r == GuardBuyStep(prev, o, prices);
      GuardStepAllowed(prev, o, prices);
      forall j | |start.kept| <= j < |r.kept| ensures DerivedFrom(r.kept[j], buys) {
        if j < |prev.kept| {
          assert r.kept[j] == prev.kept[j];
          var o1 :| o1 in init && Shrunk(prev.kept[j], o1);
          assert o1 in buys;
        } else {
          assert Shrunk(r.kept[j], o) && o in buys;
        }
      }
    }
  }

  /** `o'` is `o` or `o` with fewer, but still some, shares. */
  predicate Shrunk(o': Order, o: Order) {
    o'.code == o.code && o'.side == o.side && o'.limit == o.limit
    && (o'.qty == o.qty || 0 < o'.qty < o.qty)
  }

  predicate DerivedFrom(o': Order, orders: seq<Order>) {
    exists o :: o in orders && Shrunk(o', o)
  }

  /** `validate_cash_sufficiency` keeps the priced SELLs first, unchanged and
      in plan order, and keeps no unpriced order. */
  lemma GuardKeepsSellsFirst(plan: seq<Order>, initialCash: real, prices: map<Code, real>)
    ensures var r := CashSufficiency(plan, initialCash, prices);
      var s := Priced(OfSide(plan, Sell), prices);
      && |s| <= |r.kept| && r.kept[..|s|] == s
      && (forall j :: 0 <= j < |r.kept| ==> PriceOf(prices, r.kept[j].code) > 0.0)
  {
    var sells := OfSide(plan, Sell);
    var s := Priced(sells, prices);
    var start := SellsCredited(plan, initialCash, prices);
    GuardBuysExtends(OfSide(plan, Buy), prices, start);
    var r := GuardBuys(OfSide(plan, Buy), prices, start);
    PrefixElements(r.kept, s);
    assert r == CashSufficiency(plan, initialCash, prices);
    forall j | 0 <= j < |r.kept| ensures PriceOf(prices, r.kept[j].code) > 0.0 {
      if j < |s| {
        assert r.kept[j] == s[j];
      }
    }
  }

  /** The adjusted plan lists its SELLs before its BUYs. */
  lemma GuardSellsBeforeBuys(plan: seq<Order>, initialCash: real, prices: map<Code, real>)
    ensures SellsBeforeBuys(CashSufficiency(plan, initialCash, prices).kept)
  {
    var sells := OfSide(plan, Sell);
    var s := Priced(sells, prices);
    PricedSide(sells, prices, Sell);
    var start := SellsCredited(plan, initialCash, prices);
    GuardBuysExtends(OfSide(plan, Buy), prices, start);
    var r := GuardBuys(OfSide(plan, Buy), prices, start);
    PrefixElements(r.kept, s);
    assert r == CashSufficiency(plan, initialCash, prices);
    assert forall j :: 0 <= j < |r.kept| ==> r.kept[j].side == (if j < |s| then Sell else Buy);
  }

  /** The cash `validate_cash_sufficiency` returns is what
      `calculate_final_cash` computes for the adjusted plan. */
  lemma GuardCashIsFinalCash(plan: seq<Order>, initialCash: real, prices: map<Code, real>)
    ensures var r := CashSufficiency(plan, initialCash, prices);
      r.cash == initialCash + CashDelta(r.kept, prices)
  {
    var sells := OfSide(plan, Sell);
    var s := Priced(sells, prices);
    CashDeltaPriced(sells, prices);
    var start := SellsCredited(plan, initialCash, prices);
    assert start.cash == initialCash + CashDelta(start.kept, prices);
    GuardBuysReplay(OfSide(plan, Buy), prices, start, initialCash);
    var r := GuardBuys(OfSide(plan, Buy), prices, start);
    assert Replayed(start, r, initialCash, prices);
    assert r == CashSufficiency(plan, initialCash, prices);
  }

  /** Replaying the adjusted plan never leaves the cash negative after one of
      its BUYs: every prefix that ends past the SELLs keeps a non-negative
      balance. */
  lemma GuardNeverOverdraws(plan: seq<Order>, initialCash: real, prices: map<Code, real>)
    ensures var r := CashSufficiency(plan, initialCash, prices);
      var s := Priced(OfSide(plan, Sell), prices);
      forall n :: |s| < n <= |r.kept| ==> CashAfter(initialCash, r.kept, n, prices) >= 0.0
  {
    var sells := OfSide(plan, Sell);
    var s := Priced(sells, prices);
    CashDeltaPriced(sells, prices);
    var start := SellsCredited(plan, initialCash, prices);
    assert start.cash == initialCash + CashDelta(start.kept, prices);
    GuardBuysReplay(OfSide(plan, Buy), prices, start, initialCash);
    var r := GuardBuys(OfSide(plan, Buy), prices, start);
    assert Replayed(start, r, initialCash, prices);
    assert r == CashSufficiency(plan, initialCash, prices);
  }

  /** The state of `get_cash_insufficient_orders` over the BUYs: the orders
      reported so far and the running cash. */
  datatype CheckState = CheckState(reported: seq<Order>, cash: real)

  function CheckBuyStep(st: CheckState, o: Order, prices: map<Code, real>): CheckState {
    var p := PriceOf(prices, o.code);
    if p <= 0.0 then st
    else if st.cash < Cost(o.qty, p) then CheckState(st.reported + [o], st.cash)
    else CheckState(st.reported, st.cash - Cost(o.qty, p))
  }

  function CheckBuys(buys: seq<Order>, prices: map<Code, real>, start: CheckState): CheckState {
    if buys == [] then start
    else CheckBuyStep(CheckBuys(buys[..|buys| - 1], prices, start), buys[|buys| - 1], prices)
  }

  /** What `get_cash_insufficient_orders` reports: every SELL is credited
      first, then each BUY is reported when the running cash is below its
      notional, and debited otherwise. */
  function InsufficientOrders(plan: seq<Order>, initialCash: real, prices: map<Code, real>): seq<Order> {
    var start := CheckState([], initialCash + CashDelta(OfSide(plan, Sell), prices));
    CheckBuys(OfSide(plan, Buy), prices, start).reported
  }

  lemma CheckBuysSnoc(buys: seq<Order>, o: Order, prices: map<Code, real>, start: CheckState)
    ensures CheckBuys(buys + [o], prices, start) == CheckBuyStep(CheckBuys(buys, prices, start), o, prices)
  {
    assert (buys + [o])[..|buys|] == buys;
  }

  /** `get_cash_insufficient_orders` */
  method GetCashInsufficientOrders(plan: seq<Order>, initialCash: real, prices: map<Code, real>)
    returns (insufficient: seq<Order>)
    ensures insufficient == InsufficientOrders(plan, initialCash, prices)
  {
    insufficient := [];
    var currentCash := CreditPlanSells(plan, initialCash, prices);
    ghost var start := CheckState([], currentCash);
    for i := 0 to |plan|
      invariant CheckState(insufficient, currentCash) == CheckBuys(OfSide(plan[..i], Buy), prices, start)
    {
      var order := plan[i];
      assert plan[..i + 1] == plan[..i] + [order];
      OfSideSnoc(plan[..i], order, Buy);
      CheckBuysSnoc(OfSide(plan[..i], Buy), order, prices, start);
      if order.side == Buy {
        insufficient, currentCash := CheckBuy(insufficient, currentCash, order, prices);
      } else {
        assert OfSide(plan[..i], Buy) + [] == OfSide(plan[..i], Buy);
      }
    }
    assert plan[..|plan|] == plan;
  }

  /** The SELL loop of `get_cash_insufficient_orders`: every priced SELL of
      the plan is credited. */
  method CreditPlanSells(plan: seq<Order>, initialCash: real, prices: map<Code, real>)
    returns (currentCash: real)
    ensures currentCash == initialCash + CashDelta(OfSide(plan, Sell), prices)
  {
    currentCash := initialCash;
    ghost var credited: seq<Order> := [];
    for i := 0 to |plan|
      invariant credited == OfSide(plan[..i], Sell)
      invariant currentCash == initialCash + CashDelta(credited, prices)
    {
      var order := plan[i];
      assert plan[..i + 1] == plan[..i] + [order];
      OfSideSnoc(plan[..i], order, Sell);
      if order.side == Sell {
        CashDeltaSnoc(credited, order, prices);
        credited := credited + [order];
        var price := PriceOf(prices, order.code);
        if price > 0.0 {
          assert CashEffect(order, prices) == Cost(order.qty, price);
          currentCash := currentCash + Cost(order.qty, price);
        } else {
          assert CashEffect(order, prices) == 0.0;
        }
      } else {
        assert credited + [] == credited;
      }
    }
    assert plan[..|plan|] == plan;
  }

  /** The body of the BUY loop of `get_cash_insufficient_orders`, for one order. */
  method CheckBuy(insufficient0: seq<Order>, cash0: real, order: Order, prices: map<Code, real>)
    returns (insufficient: seq<Order>, currentCash: real)
    ensures CheckState(insufficient, currentCash) == CheckBuyStep(CheckState(insufficient0, cash0), order, prices)
  {
    insufficient, currentCash := insufficient0, cash0;
    var price := PriceOf(prices, order.code);
    if price > 0.0 {
      var requiredCash := Cost(order.qty, price);
      if currentCash < requiredCash {
        insufficient := insufficient + [order];
      } else {
        currentCash := currentCash - requiredCash;
      }
    }
  }

  /** On a BUY the checker does not report, the guard keeps the order as it
      is and debits the same cash. */
  lemma StepsAgree(g: GuardState, ch: CheckState, o: Order, prices: map<Code, real>)
    requires g.cash == ch.cash && CheckBuyStep(ch, o, prices).reported == ch.reported
    ensures GuardBuyStep(g, o, prices)
            == GuardState(g.kept + (if PriceOf(prices, o.code) > 0.0 then [o] else []),
                          CheckBuyStep(ch, o, prices).cash)
  {
    if PriceOf(prices, o.code) > 0.0 {
      assert |CheckBuyStep(ch, o, prices).reported| == |ch.reported|;
    }
  }

  /** A plan in which the checker finds nothing wrong passes the guard
      unchanged: the guard keeps every priced BUY as it is. */
  lemma {:induction false} NothingInsufficientMeansUnchanged(buys: seq<Order>, prices: map<Code, real>, kept0: seq<Order>, c: real)
    requires CheckBuys(buys, prices, CheckState([], c)).reported == []
    ensures GuardBuys(buys, prices, GuardState(kept0, c))
            == GuardState(kept0 + Priced(buys, prices), CheckBuys(buys, prices, CheckState([], c)).cash)
  {
    if buys == [] {
      assert kept0 + [] == kept0;
    } else {
      var init := buys[..|buys| - 1];
      var o := buys[|buys| - 1];
      assert buys == init + [o];
      CheckBuysSnoc(init, o, prices, CheckState([], c));
      GuardBuysSnoc(init, o, prices, GuardState(kept0, c));
      PricedSnoc(init, o, prices);
      var prevC := CheckBuys(init, prices, CheckState([], c));
      assert prevC.reported == [] by {
        assert |prevC.reported| <= |CheckBuyStep(prevC, o, prices).reported|;
      }
      NothingInsufficientMeansUnchanged(init, prices, kept0, c);
      StepsAgree(GuardBuys(init, prices, GuardState(kept0, c)), prevC, o, prices);
      var extra := if PriceOf(prices, o.code) > 0.0 then [o] else [];
      assert kept0 + Priced(init, prices) + extra == kept0 + (Priced(init, prices) + extra);
    }
  }

  lemma ValidateUnchangedWhenNothingInsufficient(plan: seq<Order>, initialCash: real, prices: map<Code, real>)
    requires InsufficientOrders(plan, initialCash, prices) == []
    ensures CashSufficiency(plan, initialCash, prices).kept
            == Priced(OfSide(plan, Sell), prices) + Priced(OfSide(plan, Buy), prices)
  {
    var sells := OfSide(plan, Sell);
    NothingInsufficientMeansUnchanged(OfSide(plan, Buy), prices, Priced(sells, prices),
                                      initialCash + CashDelta(sells, prices));
  }
}
