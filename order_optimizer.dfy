/** Order-sequence optimisation: nets each instrument's orders into one and
    puts the SELLs ahead of the BUYs. */
module OrderOptimizer {
  import opened Models

  /** Signed quantity of an order: a BUY adds shares, a SELL removes them. */
  function Signed(o: Order): int {
    if o.side == Buy then o.qty else -o.qty
  }

  /** Sum of `f` over the orders of a plan. */
  function Sum(plan: seq<Order>, f: Order -> int): int {
    if plan == [] then 0 else Sum(plan[..|plan| - 1], f) + f(plan[|plan| - 1])
  }

  /** The signed quantity an order trades in instrument `c`. */
  function SignedIn(c: Code): Order -> int {
    (o: Order) => if o.code == c then Signed(o) else 0
  }

  /** One for an order in instrument `c`, else zero. */
  function CountIn(c: Code): Order -> int {
    (o: Order) => if o.code == c then 1 else 0
  }

  /** Net signed quantity a plan trades in instrument `c`. */
  function SignedNet(plan: seq<Order>, c: Code): int {
    Sum(plan, SignedIn(c))
  }

  /** Number of orders of a plan for instrument `c`. */
  function CountCode(plan: seq<Order>, c: Code): int {
    Sum(plan, CountIn(c))
  }

  lemma {:induction false} SumAppend(a: seq<Order>, b: seq<Order>, f: Order -> int)
    ensures Sum(a + b, f) == Sum(a, f) + Sum(b, f)
  {
    if b == [] {
      assert a + b == a;
    } else {
      var b' := b[..|b| - 1];
      SumAppend(a, b', f);
      assert (a + b)[..|a + b| - 1] == a + b';
      assert (a + b)[|a + b| - 1] == b[|b| - 1];
    }
  }

  lemma SumSnoc(a: seq<Order>, o: Order, f: Order -> int)
    ensures Sum(a + [o], f) == Sum(a, f) + f(o)
  {
    assert (a + [o])[..|a|] == a;
  }

  /** Splitting a plan by side neither adds nor loses anything a sum counts. */
  lemma {:induction false} SumOfSides(plan: seq<Order>, f: Order -> int)
    ensures Sum(OfSide(plan, Sell), f) + Sum(OfSide(plan, Buy), f) == Sum(plan, f)
  {
    if plan != [] {
      var init := plan[..|plan| - 1];
      var o := plan[|plan| - 1];
      SumOfSides(init, f);
      assert Sum(plan, f) == Sum(init, f) + f(o);
      assert OfSide(plan, Sell) == OfSide(init, Sell) + (if o.side == Sell then [o] else []);
      assert OfSide(plan, Buy) == OfSide(init, Buy) + (if o.side == Buy then [o] else []);
      if o.side == Sell {
        SumSnoc(OfSide(init, Sell), o, f);
        assert OfSide(plan, Buy) == OfSide(init, Buy);
      } else {
        SumSnoc(OfSide(init, Buy), o, f);
        assert OfSide(plan, Sell) == OfSide(init, Sell);
      }
    }
  }

  lemma {:induction false} CountCodePositive(plan: seq<Order>, i: int)
    requires 0 <= i < |plan|
    ensures CountCode(plan, plan[i].code) >= 1
  {
    var c := plan[i].code;
    var init := plan[..|plan| - 1];
    CountCodeNonNegative(init, c);
    if i < |plan| - 1 {
      assert init[i] == plan[i];
      CountCodePositive(init, i);
    }
  }

  lemma {:induction false} CountCodeNonNegative(plan: seq<Order>, c: Code)
    ensures CountCode(plan, c) >= 0
  {
    if plan != [] {
      CountCodeNonNegative(plan[..|plan| - 1], c);
    }
  }

  /** A plan in which no instrument is counted twice has unique codes. */
  lemma {:induction false} UniqueFromCounts(plan: seq<Order>)
    requires forall c :: CountCode(plan, c) <= 1
    ensures CodesUnique(plan)
  {
    if plan != [] {
      var init := plan[..|plan| - 1];
      var o := plan[|plan| - 1];
      forall c ensures CountCode(init, c) <= 1 {
        assert CountCode(plan, c) == CountCode(init, c) + (if o.code == c then 1 else 0);
      }
      UniqueFromCounts(init);
      forall i | 0 <= i < |init| ensures init[i].code != o.code {
        assert CountCode(plan, o.code) == CountCode(init, o.code) + 1;
        if init[i].code == o.code {
          CountCodePositive(init, i);
        }
      }
      forall i, j | 0 <= i < j < |plan| ensures plan[i].code != plan[j].code {
        if j < |plan| - 1 {
          assert plan[i] == init[i] && plan[j] == init[j];
        } else {
          assert plan[i] == init[i];
        }
      }
    }
  }

  // ---------------------------------------------------------------------
  // _calculate_net_orders

  /** One step of the first loop of `_calculate_net_orders`. */
  function NetStep(net: Dict<int>, o: Order): Dict<int> {
    var q := Get(net, o.code, 0);
    Put(net, o.code, if o.side == Buy then q + o.qty else q - o.qty)
  }

  /** The `net_positions` dictionary after the first loop. */
  function NetPositions(plan: seq<Order>): Dict<int> {
    if plan == [] then EmptyDict()
    else NetStep(NetPositions(plan[..|plan| - 1]), plan[|plan| - 1])
  }

  lemma NetPositionsSnoc(plan: seq<Order>, o: Order)
    ensures NetPositions(plan + [o]) == NetStep(NetPositions(plan), o)
  {
    assert (plan + [o])[..|plan|] == plan;
  }

  /** The dictionary holds, per instrument in first-seen order, the net signed
      quantity the plan trades. */
  lemma {:induction false} NetPositionsTrack(plan: seq<Order>)
    ensures WellFormed(NetPositions(plan))
    ensures forall c :: Get(NetPositions(plan), c, 0) == SignedNet(plan, c)
    ensures forall c :: c in NetPositions(plan).m <==> CountCode(plan, c) > 0
  {
    if plan != [] {
      var init := plan[..|plan| - 1];
      var o := plan[|plan| - 1];
      NetPositionsTrack(init);
      forall c ensures Get(NetPositions(plan), c, 0) == SignedNet(plan, c) {
        assert SignedNet(plan, c) == SignedNet(init, c) + (if o.code == c then Signed(o) else 0);
      }
      forall c ensures c in NetPositions(plan).m <==> CountCode(plan, c) > 0 {
        CountCodeNonNegative(init, c);
        assert CountCode(plan, c) == CountCode(init, c) + (if o.code == c then 1 else 0);
      }
    }
  }

  /** The order emitted for one instrument: a BUY for a positive net, a SELL
      of the absolute value for a negative one, nothing for zero. */
  function NetOrder(c: Code, q: int): (r: seq<Order>)
    ensures |r| <= 1
    ensures |r| == 1 <==> q != 0
    ensures forall i :: 0 <= i < |r| ==> r[i].code == c && r[i].qty > 0 && r[i].limit == None
    ensures forall i :: 0 <= i < |r| ==> Signed(r[i]) == q
  {
    if q > 0 then [Order(c, Buy, q, None)]
    else if q < 0 then [Order(c, Sell, -q, None)]
    else []
  }

  function NetOf(m: map<Code, int>, c: Code): int {
    if c in m then m[c] else 0
  }

  /** The second loop: one netted order per key, in key order. */
  function EmitNet(keys: seq<Code>, m: map<Code, int>): seq<Order> {
    if keys == [] then []
    else EmitNet(keys[..|keys| - 1], m) + NetOrder(keys[|keys| - 1], NetOf(m, keys[|keys| - 1]))
  }

  lemma EmitNetSnoc(keys: seq<Code>, k: Code, m: map<Code, int>)
    ensures EmitNet(keys + [k], m) == EmitNet(keys, m) + NetOrder(k, NetOf(m, k))
  {
    assert (keys + [k])[..|keys|] == keys;
  }

  /** Every emitted order has a positive quantity and no limit. */
  lemma {:induction false} EmitNetShape(keys: seq<Code>, m: map<Code, int>)
    ensures forall i :: 0 <= i < |EmitNet(keys, m)| ==>
      EmitNet(keys, m)[i].qty > 0 && EmitNet(keys, m)[i].limit == None
  {
    if keys != [] {
      EmitNetShape(keys[..|keys| - 1], m);
    }
  }

  /** The order emitted for `k` trades its net in `k` and nothing else. */
  lemma NetOrderTally(k: Code, q: int, c: Code)
    ensures SignedNet(NetOrder(k, q), c) == (if k == c then q else 0)
    ensures CountCode(NetOrder(k, q), c) == (if k == c && q != 0 then 1 else 0)
  {
    var n := NetOrder(k, q);
    if n != [] {
      assert n == [] + [n[0]];
      SumSnoc([], n[0], SignedIn(c));
      SumSnoc([], n[0], CountIn(c));
    }
  }

  /** Over distinct keys, each key is emitted once with its net, or not at all
      when its net is zero, and no other code is emitted. */
  lemma {:induction false} EmitNetTally(keys: seq<Code>, m: map<Code, int>, c: Code)
    requires Distinct(keys)
    ensures SignedNet(EmitNet(keys, m), c) == (if c in keys then NetOf(m, c) else 0)
    ensures CountCode(EmitNet(keys, m), c) == (if c in keys && NetOf(m, c) != 0 then 1 else 0)
  {
    if keys != [] {
      var init := keys[..|keys| - 1];
      var k := keys[|keys| - 1];
      assert Distinct(init);
      EmitNetTally(init, m, c);
      var e := EmitNet(init, m);
      var n := NetOrder(k, NetOf(m, k));
      assert EmitNet(keys, m) == e + n;
      SumAppend(e, n, SignedIn(c));
      SumAppend(e, n, CountIn(c));
      NetOrderTally(k, NetOf(m, k), c);
      assert keys == init + [k];
      assert c in keys <==> c in init || c == k;
      if c == k {
        assert c !in init;
      }
    }
  }

  /** What `_calculate_net_orders` returns. */
  function NetOrders(plan: seq<Order>): seq<Order> {
    var net := NetPositions(plan);
    EmitNet(net.keys, net.m)
  }

  /** Netting keeps every instrument's net signed quantity, emits exactly one
      order for each instrument whose net is not zero and none for the rest,
      and each emitted order has a positive quantity and no limit. */
  lemma NetOrdersCorrect(plan: seq<Order>)
    ensures forall c :: SignedNet(NetOrders(plan), c) == SignedNet(plan, c)
    ensures forall c :: CountCode(NetOrders(plan), c) == (if SignedNet(plan, c) != 0 then 1 else 0)
    ensures forall i :: 0 <= i < |NetOrders(plan)| ==>
      NetOrders(plan)[i].qty > 0 && NetOrders(plan)[i].limit == None
  {
    var net := NetPositions(plan);
    NetPositionsTrack(plan);
    EmitNetShape(net.keys, net.m);
    forall c ensures SignedNet(NetOrders(plan), c) == SignedNet(plan, c)
      && CountCode(NetOrders(plan), c) == (if SignedNet(plan, c) != 0 then 1 else 0)
    {
      EmitNetTally(net.keys, net.m, c);
      assert Get(net, c, 0) == NetOf(net.m, c);
    }
  }

  /** After netting each instrument appears at most once. */
  lemma NetOrdersUnique(plan: seq<Order>)
    ensures CodesUnique(NetOrders(plan))
  {
    NetOrdersCorrect(plan);
    UniqueFromCounts(NetOrders(plan));
  }

  /** The first loop of `_calculate_net_orders`, filling `net_positions`. */
  method AccumulateNet(plan: seq<Order>) returns (net: Dict<int>)
    ensures net == NetPositions(plan)
  {
    net := Dict([], map[]);
    for i := 0 to |plan|
      invariant net == NetPositions(plan[..i])
    {
      var order := plan[i];
      assert NetPositions(plan[..i + 1]) == NetStep(net, order) by {
        assert plan[..i + 1] == plan[..i] + [order];
        NetPositionsSnoc(plan[..i], order);
      }
      var q := Get(net, order.code, 0);
      if order.side == Buy {
        net := Put(net, order.code, q + order.qty);
      } else if order.side == Sell {
        net := Put(net, order.code, q - order.qty);
      }
    }
    assert plan[..|plan|] == plan;
  }

  /** The second loop of `_calculate_net_orders`, over the dictionary's items. */
  method EmitNetOrders(net: Dict<int>) returns (netOrders: seq<Order>)
    ensures netOrders == EmitNet(net.keys, net.m)
  {
    netOrders := [];
    for i := 0 to |net.keys|
      invariant netOrders == EmitNet(net.keys[..i], net.m)
    {
      var code := net.keys[i];
      var netQty := NetOf(net.m, code);
      if netQty > 0 {
        netOrders := netOrders + [Order(code, Buy, netQty, None)];
      } else if netQty < 0 {
        netOrders := netOrders + [Order(code, Sell, -netQty, None)];
      }
      assert net.keys[..i + 1] == net.keys[..i] + [code];
      EmitNetSnoc(net.keys[..i], code, net.m);
    }
    assert net.keys[..|net.keys|] == net.keys;
  }

  /** `_calculate_net_orders` */
  method CalculateNetOrders(plan: seq<Order>) returns (netOrders: seq<Order>)
    ensures netOrders == NetOrders(plan)
    ensures CodesUnique(netOrders)
    ensures forall c :: SignedNet(netOrders, c) == SignedNet(plan, c)
  {
    var net := AccumulateNet(plan);
    netOrders := EmitNetOrders(net);
    NetOrdersUnique(plan);
    NetOrdersCorrect(plan);
  }

  // ---------------------------------------------------------------------
  // _optimize_cash_flow

  /** What `_optimize_cash_flow` returns: the SELLs, then the BUYs, each side
      in its original order. */
  function CashFlowOrder(orders: seq<Order>): seq<Order> {
    OfSide(orders, Sell) + OfSide(orders, Buy)
  }

  /** `_optimize_cash_flow` */
  method OptimizeCashFlow(orders: seq<Order>, cash: real, prices: map<Code, real>)
    returns (optimized: seq<Order>)
    ensures optimized == CashFlowOrder(orders)
  {
    var sellOrders := [];
    var buyOrders := [];
    for i := 0 to |orders|
      invariant sellOrders == OfSide(orders[..i], Sell)
      invariant buyOrders == OfSide(orders[..i], Buy)
    {
      var order := orders[i];
      if order.side == Sell {
        sellOrders := sellOrders + [order];
      } else if order.side == Buy {
        buyOrders := buyOrders + [order];
      }
      assert orders[..i + 1] == orders[..i] + [order];
      OfSideSnoc(orders[..i], order, Sell);
      OfSideSnoc(orders[..i], order, Buy);
    }
    assert orders[..|orders|] == orders;
    optimized := sellOrders + buyOrders;
  }

  /** Splitting SELLs-then-BUYs by side gives back the two parts. */
  lemma {:induction false} OfSideSplit(s: seq<Order>, b: seq<Order>)
    requires forall i :: 0 <= i < |s| ==> s[i].side == Sell
    requires forall i :: 0 <= i < |b| ==> b[i].side == Buy
    ensures OfSide(s + b, Sell) == s && OfSide(s + b, Buy) == b
  {
    if b == [] {
      assert s + b == s;
      OfSideAll(s, Sell);
      OfSideNone(s, Buy);
    } else {
      var b' := b[..|b| - 1];
      var x := b[|b| - 1];
      OfSideSplit(s, b');
      assert s + b == (s + b') + [x];
      OfSideSnoc(s + b', x, Sell);
      OfSideSnoc(s + b', x, Buy);
      assert b' + [x] == b;
    }
  }

  lemma {:induction false} OfSideAll(plan: seq<Order>, side: Side)
    requires forall i :: 0 <= i < |plan| ==> plan[i].side == side
    ensures OfSide(plan, side) == plan
  {
    if plan != [] {
      OfSideAll(plan[..|plan| - 1], side);
    }
  }

  /** The reordering puts every SELL before every BUY and is a permutation of
      its input. */
  lemma CashFlowOrderCorrect(orders: seq<Order>)
    ensures SellsBeforeBuys(CashFlowOrder(orders))
    ensures multiset(CashFlowOrder(orders)) == multiset(orders)
  {
    SellsThenBuys(OfSide(orders, Sell), OfSide(orders, Buy));
    OfSidePartition(orders);
  }

  /** The reordering keeps the relative order of the SELLs and of the BUYs. */
  lemma CashFlowOrderKeepsSides(orders: seq<Order>)
    ensures OfSide(CashFlowOrder(orders), Sell) == OfSide(orders, Sell)
    ensures OfSide(CashFlowOrder(orders), Buy) == OfSide(orders, Buy)
  {
    OfSideSplit(OfSide(orders, Sell), OfSide(orders, Buy));
  }

  /** Reordering by side changes no instrument's count or net quantity. */
  lemma CashFlowOrderTally(orders: seq<Order>, c: Code)
    ensures SignedNet(CashFlowOrder(orders), c) == SignedNet(orders, c)
    ensures CountCode(CashFlowOrder(orders), c) == CountCode(orders, c)
  {
    var f := SignedIn(c);
    var g := CountIn(c);
    SumAppend(OfSide(orders, Sell), OfSide(orders, Buy), f);
    SumAppend(OfSide(orders, Sell), OfSide(orders, Buy), g);
    SumOfSides(orders, f);
    SumOfSides(orders, g);
  }

  // ---------------------------------------------------------------------
  // optimize_order_sequence

  /** What `optimize_order_sequence` returns: an empty plan as it is, any
      other plan netted and then reordered SELLs first. */
  function OptimizedPlan(plan: seq<Order>): seq<Order> {
    if plan == [] then plan else CashFlowOrder(NetOrders(plan))
  }

  /** `optimize_order_sequence`; `cash` and `prices` are passed on unused. */
  method OptimizeOrderSequence(plan: seq<Order>, cash: real, prices: map<Code, real>)
    returns (optimized: seq<Order>)
    ensures optimized == OptimizedPlan(plan)
  {
    if plan == [] {
      return plan;
    }
    var netOrders := CalculateNetOrders(plan);
    optimized := OptimizeCashFlow(netOrders, cash, prices);
  }

  /** The optimised plan lists every SELL before every BUY, trades each
      instrument at most once, keeps every instrument's net quantity, and
      drops the instruments whose net is zero. */
  lemma OptimizedPlanCorrect(plan: seq<Order>)
    ensures SellsBeforeBuys(OptimizedPlan(plan))
    ensures CodesUnique(OptimizedPlan(plan))
    ensures forall c :: SignedNet(OptimizedPlan(plan), c) == SignedNet(plan, c)
    ensures plan != [] ==> forall c ::
      CountCode(OptimizedPlan(plan), c) == (if SignedNet(plan, c) != 0 then 1 else 0)
  {
    if plan != [] {
      var n := NetOrders(plan);
      NetOrdersCorrect(plan);
      CashFlowOrderCorrect(n);
      forall c ensures SignedNet(OptimizedPlan(plan), c) == SignedNet(plan, c)
        && CountCode(OptimizedPlan(plan), c) == (if SignedNet(plan, c) != 0 then 1 else 0)
      {
        CashFlowOrderTally(n, c);
      }
      UniqueFromCounts(OptimizedPlan(plan));
    }
  }

  /** Every order of the optimised plan of a non-empty plan has a positive
      quantity and is a market order. */
  lemma OptimizedPlanShape(plan: seq<Order>)
    requires plan != []
    ensures forall i :: 0 <= i < |OptimizedPlan(plan)| ==>
      OptimizedPlan(plan)[i].qty > 0 && OptimizedPlan(plan)[i].limit == None
  {
    var n := NetOrders(plan);
    NetOrdersCorrect(plan);
    CashFlowOrderCorrect(n);
    forall i | 0 <= i < |OptimizedPlan(plan)|
      ensures OptimizedPlan(plan)[i].qty > 0 && OptimizedPlan(plan)[i].limit == None
    {
      var o := OptimizedPlan(plan)[i];
      assert o in multiset(n);
    }
  }

  // ---------------------------------------------------------------------
  // calculate_commission_savings, estimate_commission_cost

  /** The dictionary `calculate_commission_savings` returns. */
  datatype Savings = Savings(originalOrders: int, optimizedOrders: int, savedOrders: int, savingsPercentage: real)

  /** `calculate_commission_savings` */
  function CommissionSavings(originalPlan: seq<Order>, optimizedPlan: seq<Order>): (s: Savings)
    ensures s.originalOrders == |originalPlan| && s.optimizedOrders == |optimizedPlan|
    ensures s.savedOrders == |originalPlan| - |optimizedPlan|
    ensures |originalPlan| == 0 ==> s.savingsPercentage == 0.0
    ensures |originalPlan| > 0 ==>
      s.savingsPercentage * |originalPlan| as real == s.savedOrders as real * 100.0
  {
    var original := |originalPlan|;
    var optimized := |optimizedPlan|;
    var saved := original - optimized;
    Savings(original, optimized, saved,
            if original > 0 then saved as real / original as real * 100.0 else 0.0)
  }

  /** Netting never adds orders, so the saving of an optimisation is never
      negative. */
  lemma SavingsNotNegative(plan: seq<Order>)
    ensures CommissionSavings(plan, OptimizedPlan(plan)).savedOrders >= 0
  {
    if plan != [] {
      OfSidePartition(NetOrders(plan));
      NetOrdersNoLonger(plan);
    }
  }

  /** There are at most as many netted orders as input orders. */
  lemma {:induction false} NetOrdersNoLonger(plan: seq<Order>)
    ensures |NetOrders(plan)| <= |plan|
  {
    var net := NetPositions(plan);
    NetPositionsKeys(plan);
    EmitNetLength(net.keys, net.m);
  }

  lemma {:induction false} NetPositionsKeys(plan: seq<Order>)
    ensures |NetPositions(plan).keys| <= |plan|
  {
    if plan != [] {
      NetPositionsKeys(plan[..|plan| - 1]);
    }
  }

  lemma {:induction false} EmitNetLength(keys: seq<Code>, m: map<Code, int>)
    ensures |EmitNet(keys, m)| <= |keys|
  {
    if keys != [] {
      EmitNetLength(keys[..|keys| - 1], m);
    }
  }

  /** The default commission rate of `estimate_commission_cost` (0.15%). */
  const DefaultCommissionRate: real := 0.0015

  /** Commission of a plan order by order; unpriced orders cost nothing. */
  function Commission(plan: seq<Order>, prices: map<Code, real>, rate: real): real {
    if plan == [] then 0.0
    else
      var o := plan[|plan| - 1];
      var p := PriceOf(prices, o.code);
      Commission(plan[..|plan| - 1], prices, rate) + (if p > 0.0 then Cost(o.qty, p) * rate else 0.0)
  }

  /** Value of the priced orders of a plan. */
  function PricedValue(plan: seq<Order>, prices: map<Code, real>): real {
    if plan == [] then 0.0
    else
      var o := plan[|plan| - 1];
      var p := PriceOf(prices, o.code);
      PricedValue(plan[..|plan| - 1], prices) + (if p > 0.0 then Cost(o.qty, p) else 0.0)
  }

  /** The commission is the rate times the value of the priced orders. */
  lemma {:induction false} CommissionIsRateTimesValue(plan: seq<Order>, prices: map<Code, real>, rate: real)
    ensures Commission(plan, prices, rate) == rate * PricedValue(plan, prices)
  {
    if plan != [] {
      var o := plan[|plan| - 1];
      var p := PriceOf(prices, o.code);
      var init := plan[..|plan| - 1];
      CommissionIsRateTimesValue(init, prices, rate);
      var v := PricedValue(init, prices);
      var e := if p > 0.0 then Cost(o.qty, p) else 0.0;
      assert rate * (v + e) == rate * v + e * rate;
    }
  }

  /** `estimate_commission_cost` */
  method EstimateCommissionCost(plan: seq<Order>, prices: map<Code, real>, rate: real)
    returns (totalCommission: real)
    ensures totalCommission == Commission(plan, prices, rate)
  {
    totalCommission := 0.0;
    for i := 0 to |plan|
      invariant totalCommission == Commission(plan[..i], prices, rate)
    {
      var order := plan[i];
      var price := PriceOf(prices, order.code);
      if price > 0.0 {
        var orderValue := Cost(order.qty, price);
        var commission := orderValue * rate;
        totalCommission := totalCommission + commission;
      }
      assert plan[..i + 1][..i] == plan[..i];
    }
    assert plan[..|plan|] == plan;
  }
}
