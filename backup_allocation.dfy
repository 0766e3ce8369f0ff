/** The pieces the older planner's two variants share: the virtual-cash
    helper, the instruments with a usable price, and the integer target
    allocator (a floor pass over the budget, then one pass in ascending price
    order that adds at most one share per instrument). */
module BackupAllocation {
  import opened Models
  import opened Rounding
  import opened Rebalance

  /** The arguments of `plan_rebalance_with_band` and
      `plan_rebalance_with_deficit`. */
  datatype BackupInputs = BackupInputs(
    positions: Dict<int>,
    targets: Dict<real>,
    cash: real,
    prices: map<Code, real>,
    bandPct: real,
    maxOrderValue: int,
    reserveRatio: real)

  /** `tickers`: the codes of the targets and of the positions, each once,
      in whatever order the set yields them. */
  predicate Enumerates(inp: BackupInputs, tickers: seq<Code>) {
    && Distinct(tickers)
    && (forall c :: c in tickers ==> c in inp.targets.m || c in inp.positions.m)
    && (forall c :: c in inp.targets.m ==> c in tickers)
    && (forall c :: c in inp.positions.m ==> c in tickers)
  }

  // ---------------------------------------------------------------------
  // calculate_virtual_cash

  /** What `calculate_virtual_cash` returns: the total asset value and the
      cash available for orders. */
  datatype VirtualCash = VirtualCash(total: real, available: real)

  /** `safety_margin` of the mock branch. */
  const SafetyMargin: real := 0.0

  /** `calculate_virtual_cash`: the holdings' value plus the D+2 cash; the
      live branch makes the D+2 cash available, the mock branch the D+2 cash
      less a margin of the total that is zero. */
  function CalculateVirtualCash(positions: Dict<int>, prices: map<Code, real>, d2Cash: real, isMock: bool): (r: VirtualCash)
    ensures r.available == d2Cash
    ensures r.total - r.available == HoldingsValue(positions.keys, positions, prices)
  {
    var total := HoldingsValue(positions.keys, positions, prices) + d2Cash;
    if !isMock then VirtualCash(total, d2Cash)
    else VirtualCash(total, d2Cash - total * SafetyMargin)
  }

  // ---------------------------------------------------------------------
  // usable

  /** `usable`: the codes, in the given order, whose price is positive. */
  function Usable(tickers: seq<Code>, prices: map<Code, real>): (r: seq<Code>)
    ensures forall c :: c in r ==> PriceOf(prices, c) > 0.0
    ensures forall c :: c in r <==> c in tickers && PriceOf(prices, c) > 0.0
  {
    if tickers == [] then []
    else
      var c := tickers[|tickers| - 1];
      Usable(tickers[..|tickers| - 1], prices) + (if PriceOf(prices, c) > 0.0 then [c] else [])
  }

  lemma {:induction false} UsableDistinct(tickers: seq<Code>, prices: map<Code, real>)
    requires Distinct(tickers)
    ensures Distinct(Usable(tickers, prices))
  {
    if tickers != [] {
      var init := tickers[..|tickers| - 1];
      var c := tickers[|tickers| - 1];
      assert Distinct(init);
      UsableDistinct(init, prices);
      assert c !in init;
    }
  }

  // ---------------------------------------------------------------------
  // The floor pass

  /** The quantity a map holds for `c`, 0 when absent. */
  function QtyOf(m: map<Code, int>, c: Code): int {
    if c in m then m[c] else 0
  }

  /** `max(int(budget * w // price), 0)` */
  function FloorShares(budget: real, w: real, price: real): int
    requires price > 0.0
  {
    Max(((budget * w) / price).Floor, 0)
  }

  /** Exposes the definition at a call site whose arguments are not plain
      variables of the caller. */
  lemma FloorSharesUnfold(budget: real, w: real, price: real)
    requires price > 0.0
    ensures FloorShares(budget, w, price) == Max(((budget * w) / price).Floor, 0)
  {
  }

  /** The floor share count is the largest count whose value fits into a
      non-negative target value, and 0 when the target value is negative. */
  lemma FloorSharesFit(budget: real, w: real, price: real)
    requires price > 0.0
    ensures FloorShares(budget, w, price) >= 0
    ensures Cost(FloorShares(budget, w, price), price) <= MaxR(budget * w, 0.0)
    ensures budget * w >= 0.0 ==> budget * w < Cost(FloorShares(budget, w, price) + 1, price)
  {
    var x := budget * w;
    var q := FloorShares(budget, w, price);
    CostIsProduct(q, price);
    CostIsProduct(q + 1, price);
    if x >= 0.0 {
      DivBounds(x, price, 0.0);
      assert q == (x / price).Floor;
      DivBounds(x, price, q as real);
      DivBounds(x, price, q as real + 1.0);
    } else {
      DivBounds(x, price, 0.0);
      assert q == 0;
    }
  }

  /** `target_qty` after the first loop: every usable code gets its floor
      share of the budget. */
  function FirstPass(usable: seq<Code>, targets: Dict<real>, prices: map<Code, real>, budget: real): (m: map<Code, int>)
    requires forall c :: c in usable ==> PriceOf(prices, c) > 0.0
  {
    map c | c in usable :: FloorShares(budget, Get(targets, c, 0.0), PriceOf(prices, c))
  }

  /** `sum(target_qty[t] * prices[t] for t in codes)` */
  function Spent(codes: seq<Code>, m: map<Code, int>, prices: map<Code, real>): real {
    if codes == [] then 0.0
    else
      var c := codes[|codes| - 1];
      Spent(codes[..|codes| - 1], m, prices) + Cost(QtyOf(m, c), PriceOf(prices, c))
  }

  /** Sum of the target weights of the given codes. */
  function WeightSum(codes: seq<Code>, targets: Dict<real>): real {
    if codes == [] then 0.0
    else WeightSum(codes[..|codes| - 1], targets) + Get(targets, codes[|codes| - 1], 0.0)
  }

  lemma FirstPassAt(usable: seq<Code>, targets: Dict<real>, prices: map<Code, real>, budget: real, c: Code)
    requires forall c :: c in usable ==> PriceOf(prices, c) > 0.0
    requires c in usable
    ensures QtyOf(FirstPass(usable, targets, prices, budget), c)
         == FloorShares(budget, Get(targets, c, 0.0), PriceOf(prices, c))
  {
  }

  lemma ScaledWeightSnoc(codes: seq<Code>, targets: Dict<real>, budget: real)
    requires codes != []
    ensures budget * WeightSum(codes, targets)
         == budget * WeightSum(codes[..|codes| - 1], targets) + budget * Get(targets, codes[|codes| - 1], 0.0)
  {
    var w0 := WeightSum(codes[..|codes| - 1], targets);
    var w := Get(targets, codes[|codes| - 1], 0.0);
    assert WeightSum(codes, targets) == w0 + w;
    assert budget * (w0 + w) == budget * w0 + budget * w;
  }

  lemma MulNonNegative(a: real, b: real)
    requires a >= 0.0 && b >= 0.0
    ensures a * b >= 0.0
  {
  }

  /** The floor share of one code is worth at most its part of the budget. */
  lemma FirstPassCostAt(usable: seq<Code>, targets: Dict<real>, prices: map<Code, real>, budget: real, c: Code)
    requires forall c :: c in usable ==> PriceOf(prices, c) > 0.0
    requires c in usable && budget >= 0.0 && Get(targets, c, 0.0) >= 0.0
    ensures Cost(QtyOf(FirstPass(usable, targets, prices, budget), c), PriceOf(prices, c))
         <= budget * Get(targets, c, 0.0)
  {
    var w := Get(targets, c, 0.0);
    FirstPassAt(usable, targets, prices, budget, c);
    FloorSharesFit(budget, w, PriceOf(prices, c));
    MulNonNegative(budget, w);
  }

  /** The budget's parts for the given codes, added one by one. */
  function ShareSum(codes: seq<Code>, targets: Dict<real>, budget: real): real {
    if codes == [] then 0.0
    else ShareSum(codes[..|codes| - 1], targets, budget) + budget * Get(targets, codes[|codes| - 1], 0.0)
  }

  lemma {:induction false} ShareSumIsScaled(codes: seq<Code>, targets: Dict<real>, budget: real)
    ensures ShareSum(codes, targets, budget) == budget * WeightSum(codes, targets)
    decreases |codes|
  {
    if codes == [] {
      assert budget * 0.0 == 0.0;
    } else {
      ShareSumIsScaled(codes[..|codes| - 1], targets, budget);
      ScaledWeightSnoc(codes, targets, budget);
    }
  }

  /** Codes each worth at most their part of the budget are together worth
      at most the sum of those parts. */
  lemma {:induction false} SpentWithinShares(codes: seq<Code>, m: map<Code, int>, prices: map<Code, real>,
                                             targets: Dict<real>, budget: real)
    requires forall i :: 0 <= i < |codes| ==>
      Cost(QtyOf(m, codes[i]), PriceOf(prices, codes[i])) <= budget * Get(targets, codes[i], 0.0)
    ensures Spent(codes, m, prices) <= ShareSum(codes, targets, budget)
    decreases |codes|
  {
    if codes != [] {
      var init := codes[..|codes| - 1];
      assert Spent(init, m, prices) <= ShareSum(init, targets, budget) by {
        assert forall i :: 0 <= i < |init| ==> init[i] == codes[i];
        SpentWithinShares(init, m, prices, targets, budget);
      }
    }
  }

  /** The floor pass spends no more than the budget times the weights it
      allocates. */
  lemma FirstPassSpent(codes: seq<Code>, usable: seq<Code>, targets: Dict<real>,
                       prices: map<Code, real>, budget: real)
    requires forall c :: c in usable ==> PriceOf(prices, c) > 0.0
    requires forall c :: c in codes ==> c in usable
    requires budget >= 0.0
    requires forall c :: c in codes ==> Get(targets, c, 0.0) >= 0.0
    ensures Spent(codes, FirstPass(usable, targets, prices, budget), prices) <= budget * WeightSum(codes, targets)
  {
    var m := FirstPass(usable, targets, prices, budget);
    forall i | 0 <= i < |codes|
      ensures Cost(QtyOf(m, codes[i]), PriceOf(prices, codes[i])) <= budget * Get(targets, codes[i], 0.0)
    {
      FirstPassCostAt(usable, targets, prices, budget, codes[i]);
    }
    SpentWithinShares(codes, m, prices, targets, budget);
    ShareSumIsScaled(codes, targets, budget);
  }

  // ---------------------------------------------------------------------
  // The extra-share pass

  /** The state of the second loop: the quantities and the leftover. */
  datatype Topup = Topup(qty: map<Code, int>, leftover: real)

  /** One step of the second loop: one more share when its price fits into
      the leftover. */
  function TopupStep(st: Topup, c: Code, prices: map<Code, real>): Topup {
    var p := PriceOf(prices, c);
    if p <= st.leftover then Topup(st.qty[c := QtyOf(st.qty, c) + 1], st.leftover - p) else st
  }

  function Topups(codes: seq<Code>, prices: map<Code, real>, st: Topup): Topup {
    if codes == [] then st
    else TopupStep(Topups(codes[..|codes| - 1], prices, st), codes[|codes| - 1], prices)
  }

  lemma TopupsSnoc(codes: seq<Code>, c: Code, prices: map<Code, real>, st: Topup)
    ensures Topups(codes + [c], prices, st) == TopupStep(Topups(codes, prices, st), c, prices)
  {
    assert (codes + [c])[..|codes|] == codes;
  }

  /** `leftover = max(budget - spent, 0.0)` */
  function Leftover(usable: seq<Code>, first: map<Code, int>, prices: map<Code, real>, budget: real): real {
    MaxR(budget - Spent(usable, first, prices), 0.0)
  }

  /** The second loop runs, in ascending price order, only when something is
      left over. */
  function TopUp(usable: seq<Code>, prices: map<Code, real>, first: map<Code, int>, budget: real): map<Code, int> {
    if Leftover(usable, first, prices, budget) > 0.0 then
      Topups(SortByKey(usable, prices), prices, Topup(first, Leftover(usable, first, prices, budget))).qty
    else first
  }

  /** `target_qty` as both passes leave it. */
  function Allocation(usable: seq<Code>, targets: Dict<real>, prices: map<Code, real>, budget: real): map<Code, int>
    requires forall c :: c in usable ==> PriceOf(prices, c) > 0.0
  {
    TopUp(usable, prices, FirstPass(usable, targets, prices, budget), budget)
  }

  /** Changing the quantity of a code outside `codes` leaves their sum alone. */
  lemma {:induction false} SpentFrame(codes: seq<Code>, m: map<Code, int>, c: Code, v: int, prices: map<Code, real>)
    requires c !in codes
    ensures Spent(codes, m[c := v], prices) == Spent(codes, m, prices)
  {
    if codes != [] {
      SpentFrame(codes[..|codes| - 1], m, c, v, prices);
    }
  }

  /** One more share of a code listed once adds its price to the sum. */
  lemma {:induction false} SpentBump(codes: seq<Code>, m: map<Code, int>, c: Code, prices: map<Code, real>)
    requires Distinct(codes) && c in codes
    ensures Spent(codes, m[c := QtyOf(m, c) + 1], prices) == Spent(codes, m, prices) + PriceOf(prices, c)
  {
    var init := codes[..|codes| - 1];
    var last := codes[|codes| - 1];
    var m' := m[c := QtyOf(m, c) + 1];
    assert Distinct(init);
    if last == c {
      assert c !in init;
      SpentFrame(init, m, c, QtyOf(m, c) + 1, prices);
      CostSucc(QtyOf(m, c), PriceOf(prices, c));
    } else {
      assert c in init;
      SpentBump(init, m, c, prices);
      assert QtyOf(m', last) == QtyOf(m, last);
    }
  }

  /** The second loop moves value from the leftover into shares without
      losing any, keeps the leftover non-negative, and adds at most one share
      to each code it visits once. */
  lemma {:induction false} TopupsBalance(codes: seq<Code>, usable: seq<Code>, prices: map<Code, real>, st: Topup)
    requires Distinct(usable) && forall c :: c in codes ==> c in usable
    requires st.leftover >= 0.0
    ensures var r := Topups(codes, prices, st);
      Spent(usable, r.qty, prices) + r.leftover == Spent(usable, st.qty, prices) + st.leftover
      && r.leftover >= 0.0
  {
    if codes != [] {
      var init := codes[..|codes| - 1];
      var c := codes[|codes| - 1];
      TopupsBalance(init, usable, prices, st);
      var prev := Topups(init, prices, st);
      if PriceOf(prices, c) <= prev.leftover {
        SpentBump(usable, prev.qty, c, prices);
      }
    }
  }

  lemma {:induction false} TopupsAtMostOne(codes: seq<Code>, prices: map<Code, real>, st: Topup, c: Code)
    requires Distinct(codes)
    ensures var r := Topups(codes, prices, st);
      QtyOf(st.qty, c) <= QtyOf(r.qty, c) <= QtyOf(st.qty, c) + (if c in codes then 1 else 0)
    ensures forall k :: k in st.qty ==> k in Topups(codes, prices, st).qty
  {
    if codes != [] {
      var init := codes[..|codes| - 1];
      var last := codes[|codes| - 1];
      assert Distinct(init);
      TopupsAtMostOne(init, prices, st, c);
      if last == c {
        assert c !in init;
      } else {
        assert c in codes <==> c in init;
      }
    }
  }

  /** The allocator gives every usable code its floor share or one share
      more. */
  lemma AllocationShares(usable: seq<Code>, targets: Dict<real>, prices: map<Code, real>, budget: real)
    requires Distinct(usable) && forall c :: c in usable ==> PriceOf(prices, c) > 0.0
    ensures var first := FirstPass(usable, targets, prices, budget);
      var alloc := Allocation(usable, targets, prices, budget);
      forall c :: c in usable ==> c in alloc && first[c] <= alloc[c] <= first[c] + 1
  {
    var first := FirstPass(usable, targets, prices, budget);
    var left := Leftover(usable, first, prices, budget);
    if left > 0.0 {
      var order := SortByKey(usable, prices);
      SortByKeyDistinct(usable, prices);
      var st := Topup(first, left);
      var r := Topups(order, prices, st);
      assert Allocation(usable, targets, prices, budget) == r.qty;
      forall c | c in usable ensures c in r.qty && first[c] <= r.qty[c] <= first[c] + 1 {
        TopupsAtMostOne(order, prices, st, c);
      }
    }
  }

  /** What the allocator spends never exceeds the budget unless the floor
      pass alone already did. */
  lemma AllocationSpent(usable: seq<Code>, targets: Dict<real>, prices: map<Code, real>, budget: real)
    requires Distinct(usable) && forall c :: c in usable ==> PriceOf(prices, c) > 0.0
    ensures Spent(usable, Allocation(usable, targets, prices, budget), prices)
         <= MaxR(budget, Spent(usable, FirstPass(usable, targets, prices, budget), prices))
  {
    var first := FirstPass(usable, targets, prices, budget);
    var left := Leftover(usable, first, prices, budget);
    if left > 0.0 {
      var order := SortByKey(usable, prices);
      SortByKeyMembers(usable, prices);
      var st := Topup(first, left);
      TopupsBalance(order, usable, prices, st);
      assert Allocation(usable, targets, prices, budget) == Topups(order, prices, st).qty;
    }
  }

  /** With non-negative weights summing to at most one and a non-negative
      budget, the allocation costs at most the budget. */
  lemma AllocationWithinBudget(usable: seq<Code>, targets: Dict<real>, prices: map<Code, real>, budget: real)
    requires Distinct(usable) && forall c :: c in usable ==> PriceOf(prices, c) > 0.0
    requires budget >= 0.0
    requires forall c :: c in usable ==> Get(targets, c, 0.0) >= 0.0
    requires WeightSum(usable, targets) <= 1.0
    ensures Spent(usable, Allocation(usable, targets, prices, budget), prices) <= budget
  {
    AllocationSpent(usable, targets, prices, budget);
    FirstPassSpent(usable, usable, targets, prices, budget);
    assert budget * WeightSum(usable, targets) <= budget * 1.0;
  }

  /** `target_qty` part way through the first loop: the codes in `done`
      have their floor share, the other usable codes still 0. */
  function PartialFloor(usable: seq<Code>, done: seq<Code>, targets: Dict<real>, prices: map<Code, real>, budget: real): map<Code, int>
    requires forall c :: c in usable ==> PriceOf(prices, c) > 0.0
  {
    map c | c in usable :: if c in done then FloorShares(budget, Get(targets, c, 0.0), PriceOf(prices, c)) else 0
  }

  lemma PartialFloorStep(usable: seq<Code>, done: seq<Code>, t: Code, targets: Dict<real>, prices: map<Code, real>, budget: real)
    requires forall c :: c in usable ==> PriceOf(prices, c) > 0.0
    requires t in usable
    ensures PartialFloor(usable, done + [t], targets, prices, budget)
         == PartialFloor(usable, done, targets, prices, budget)[t := FloorShares(budget, Get(targets, t, 0.0), PriceOf(prices, t))]
  {
    assert forall c :: c in done + [t] <==> c in done || c == t;
  }

  /** The first loop: every usable code gets its floor share. */
  method FloorPass(usable: seq<Code>, targets: Dict<real>, prices: map<Code, real>, budget: real)
    returns (targetQty: map<Code, int>)
    requires forall c :: c in usable ==> PriceOf(prices, c) > 0.0
    ensures targetQty == FirstPass(usable, targets, prices, budget)
  {
    targetQty := map c | c in usable :: 0;
    assert targetQty == PartialFloor(usable, [], targets, prices, budget);
    for i := 0 to |usable|
      invariant targetQty == PartialFloor(usable, usable[..i], targets, prices, budget)
    {
      var t := usable[i];
      var w := Get(targets, t, 0.0);
      var price := PriceOf(prices, t);
      var q := ((budget * w) / price).Floor;
      FloorSharesUnfold(budget, w, price);
      assert PartialFloor(usable, usable[..i + 1], targets, prices, budget) == targetQty[t := Max(q, 0)] by {
        assert usable[..i + 1] == usable[..i] + [t];
        PartialFloorStep(usable, usable[..i], t, targets, prices, budget);
      }
      targetQty := targetQty[t := Max(q, 0)];
    }
    assert usable[..|usable|] == usable;
    assert forall c :: c in usable ==> c in usable[..|usable|];
  }

  /** The second loop, from the floor pass's quantities and leftover. */
  method TopUpLoop(order: seq<Code>, prices: map<Code, real>, qty0: map<Code, int>, leftover0: real)
    returns (targetQty: map<Code, int>, leftover: real)
    ensures Topup(targetQty, leftover) == Topups(order, prices, Topup(qty0, leftover0))
  {
    targetQty, leftover := qty0, leftover0;
    for j := 0 to |order|
      invariant Topup(targetQty, leftover) == Topups(order[..j], prices, Topup(qty0, leftover0))
    {
      var t := order[j];
      assert order[..j + 1] == order[..j] + [t];
      TopupsSnoc(order[..j], t, prices, Topup(qty0, leftover0));
      if PriceOf(prices, t) <= leftover {
        targetQty := targetQty[t := QtyOf(targetQty, t) + 1];
        leftover := leftover - PriceOf(prices, t);
      }
    }
    assert order[..|order|] == order;
  }

  /** Both loops that fill `target_qty`. */
  method Allocate(usable: seq<Code>, targets: Dict<real>, prices: map<Code, real>, budget: real)
    returns (targetQty: map<Code, int>)
    requires forall c :: c in usable ==> PriceOf(prices, c) > 0.0
    ensures targetQty == Allocation(usable, targets, prices, budget)
  {
    targetQty := FloorPass(usable, targets, prices, budget);
    var spent := Spent(usable, targetQty, prices);
    var leftover := MaxR(budget - spent, 0.0);
    if leftover > 0.0 {
      targetQty, leftover := TopUpLoop(SortByKey(usable, prices), prices, targetQty, leftover);
    }
  }
}
