/** The older planner's deficit variant (`plan_rebalance_with_deficit`):
    integer target quantities for the virtual liquidation value, a band
    filter relative to each holding's own value, SELLs of the net deltas,
    extra SELLs of the highest-priced holdings toward the cash figure, and
    BUYs paid out of the available cash alone. */
module BackupDeficit {
  import opened Models
  import opened Rounding
  import opened Rebalance
  import opened CashGuard
  import opened BackupAllocation
  import opened BackupBand

  // ---------------------------------------------------------------------
  // Steps 1-2: the liquidation value and the targets

  /** `V_total`: the usable holdings' value plus the total that
      `calculate_virtual_cash` returns, which already holds the value of every
      position, so that the holdings are counted twice. */
  function DeficitTotal(inp: BackupInputs, usable: seq<Code>): (r: real)
    ensures r == HoldingsValue(usable, inp.positions, inp.prices)
               + HoldingsValue(inp.positions.keys, inp.positions, inp.prices) + inp.cash
  {
    HoldingsValue(usable, inp.positions, inp.prices) + CalculateVirtualCash(inp.positions, inp.prices, inp.cash, true).total
  }

  /** The reserve is dropped while the cash is negative. */
  function EffectiveReserve(inp: BackupInputs): real {
    if inp.cash < 0.0 then 0.0 else inp.reserveRatio
  }

  function DeficitBudget(inp: BackupInputs, usable: seq<Code>): real {
    DeficitTotal(inp, usable) * (1.0 - EffectiveReserve(inp))
  }

  /** `target_qty`: the allocator's integer quantities for the budget. */
  function DeficitTargets(inp: BackupInputs, usable: seq<Code>): map<Code, int>
    requires forall c :: c in usable ==> PriceOf(inp.prices, c) > 0.0
  {
    Allocation(usable, inp.targets, inp.prices, DeficitBudget(inp, usable))
  }

  lemma DeficitTargetsNotNegative(inp: BackupInputs, usable: seq<Code>, c: Code)
    requires Distinct(usable) && forall k :: k in usable ==> PriceOf(inp.prices, k) > 0.0
    requires c in usable
    ensures QtyOf(DeficitTargets(inp, usable), c) >= 0
  {
    var budget := DeficitBudget(inp, usable);
    AllocationShares(usable, inp.targets, inp.prices, budget);
    FirstPassAt(usable, inp.targets, inp.prices, budget, c);
    FloorSharesFit(budget, Get(inp.targets, c, 0.0), PriceOf(inp.prices, c));
  }

  // ---------------------------------------------------------------------
  // Step 3: the band filter

  /** Whether step 3 keeps the delta of `c`: for a held value, when the
      target value differs from it by more than `band_pct` percent of it;
      for a code held at no value, only when the delta is positive. */
  predicate Trades(inp: BackupInputs, tq: map<Code, int>, c: Code) {
    var price := PriceOf(inp.prices, c);
    var current := Cost(Holding(inp.positions, c), price);
    if current > 0.0 then (AbsR(Cost(QtyOf(tq, c), price) - current) / current) * 100.0 > inp.bandPct
    else QtyOf(tq, c) - Holding(inp.positions, c) > 0
  }

  /** `filtered_deltas` */
  function FilteredDeltas(inp: BackupInputs, usable: seq<Code>, tq: map<Code, int>): map<Code, int> {
    map c | c in usable && Trades(inp, tq, c) :: QtyOf(tq, c) - Holding(inp.positions, c)
  }

  lemma FilteredDeltasSnoc(inp: BackupInputs, codes: seq<Code>, c: Code, tq: map<Code, int>)
    ensures FilteredDeltas(inp, codes + [c], tq)
         == if Trades(inp, tq, c) then FilteredDeltas(inp, codes, tq)[c := QtyOf(tq, c) - Holding(inp.positions, c)]
            else FilteredDeltas(inp, codes, tq) - {c}
  {
    assert forall k :: k in codes + [c] <==> k in codes || k == c;
  }

  /** A code keeps a non-zero delta only if the filter lets it trade, and
      then keeps exactly its delta. */
  lemma FilteredDeltaOf(inp: BackupInputs, usable: seq<Code>, tq: map<Code, int>, c: Code)
    ensures DeltaOf(FilteredDeltas(inp, usable, tq), c)
         == if c in usable && Trades(inp, tq, c) then QtyOf(tq, c) - Holding(inp.positions, c) else 0
  {
  }

  /** The loop of step 3. */
  method FilterDeltas(inp: BackupInputs, usable: seq<Code>, tq: map<Code, int>) returns (filtered: map<Code, int>)
    ensures filtered == FilteredDeltas(inp, usable, tq)
  {
    filtered := map[];
    for i := 0 to |usable|
      invariant filtered == FilteredDeltas(inp, usable[..i], tq)
    {
      var t := usable[i];
      assert usable[..i + 1] == usable[..i] + [t];
      FilteredDeltasSnoc(inp, usable[..i], t, tq);
      var delta := QtyOf(tq, t) - Holding(inp.positions, t);
      var currentValue := Cost(Holding(inp.positions, t), PriceOf(inp.prices, t));
      var targetValue := Cost(QtyOf(tq, t), PriceOf(inp.prices, t));
      if currentValue > 0.0 {
        var ratioDiff := AbsR(targetValue - currentValue) / currentValue;
        if ratioDiff * 100.0 > inp.bandPct {
          filtered := filtered[t := delta];
        } else {
          filtered := filtered - {t};
        }
      } else if delta > 0 {
        filtered := filtered[t := delta];
      } else {
        filtered := filtered - {t};
      }
    }
    assert usable[..|usable|] == usable;
  }

  // ---------------------------------------------------------------------
  // Step 3-1: the extra SELLs toward the cash figure

  /** `sum(abs(filtered_deltas[t]) * prices[t] for t in sells)` */
  function PlannedSellCash(sells: seq<Code>, d: map<Code, int>, prices: map<Code, real>): real {
    if sells == [] then 0.0
    else
      var c := sells[|sells| - 1];
      PlannedSellCash(sells[..|sells| - 1], d, prices) + Cost(Abs(DeltaOf(d, c)), PriceOf(prices, c))
  }

  /** The held usable codes, in order. */
  function HeldCodes(usable: seq<Code>, positions: Dict<int>): (r: seq<Code>)
    ensures forall c :: c in r <==> c in usable && Holding(positions, c) > 0
  {
    if usable == [] then []
    else
      var c := usable[|usable| - 1];
      HeldCodes(usable[..|usable| - 1], positions) + (if Holding(positions, c) > 0 then [c] else [])
  }

  lemma {:induction false} HeldCodesDistinct(usable: seq<Code>, positions: Dict<int>)
    requires Distinct(usable)
    ensures Distinct(HeldCodes(usable, positions))
  {
    if usable != [] {
      var init := usable[..|usable| - 1];
      assert Distinct(init);
      HeldCodesDistinct(init, positions);
      assert usable[|usable| - 1] !in init;
    }
  }

  /** An entry of `additional_sells`. */
  datatype Lot = Lot(code: Code, qty: int)

  /** The walk's state: the entries so far and `remaining_deficit`. */
  datatype Extra = Extra(lots: seq<Lot>, remaining: real)

  /** One code of the walk: nothing once the remaining figure is covered or
      for a code the SELL pass already sells; otherwise the rounded
      remaining figure in shares, at least one, at most the holding. */
  function ExtraStep(st: Extra, c: Code, sells: seq<Code>, positions: Dict<int>, prices: map<Code, real>): Extra
    requires PriceOf(prices, c) > 0.0
  {
    if st.remaining <= 0.0 then st
    else if c in sells then st
    else
      var price := PriceOf(prices, c);
      var q := Min(Holding(positions, c), Max(1, RoundLot(st.remaining / price)));
      if q > 0 then Extra(st.lots + [Lot(c, q)], st.remaining - Cost(q, price)) else st
  }

  function ExtraWalk(codes: seq<Code>, sells: seq<Code>, positions: Dict<int>, prices: map<Code, real>, st: Extra): Extra
    requires forall c :: c in codes ==> PriceOf(prices, c) > 0.0
  {
    if codes == [] then st
    else
      ExtraStep(ExtraWalk(codes[..|codes| - 1], sells, positions, prices, st), codes[|codes| - 1], sells, positions, prices)
  }

  lemma ExtraWalkSnoc(codes: seq<Code>, c: Code, sells: seq<Code>, positions: Dict<int>, prices: map<Code, real>, st: Extra)
    requires forall k :: k in codes + [c] ==> PriceOf(prices, k) > 0.0
    ensures ExtraWalk(codes + [c], sells, positions, prices, st)
         == ExtraStep(ExtraWalk(codes, sells, positions, prices, st), c, sells, positions, prices)
  {
    assert (codes + [c])[..|codes|] == codes;
  }

  /** Once the remaining figure is covered the walk adds nothing: the
      `break` of the loop. */
  lemma {:induction false} ExtraWalkStops(codes: seq<Code>, sells: seq<Code>, positions: Dict<int>, prices: map<Code, real>,
                                          st: Extra, n: nat)
    requires forall c :: c in codes ==> PriceOf(prices, c) > 0.0
    requires n <= |codes| && ExtraWalk(codes[..n], sells, positions, prices, st).remaining <= 0.0
    ensures ExtraWalk(codes, sells, positions, prices, st) == ExtraWalk(codes[..n], sells, positions, prices, st)
    decreases |codes| - n
  {
    if n < |codes| {
      assert codes[..n + 1] == codes[..n] + [codes[n]];
      ExtraWalkSnoc(codes[..n], codes[n], sells, positions, prices, st);
      ExtraWalkStops(codes, sells, positions, prices, st, n + 1);
    } else {
      assert codes[..n] == codes;
    }
  }

  /** The notional of the walk's entries. */
  function LotsValue(lots: seq<Lot>, prices: map<Code, real>): real {
    if lots == [] then 0.0
    else LotsValue(lots[..|lots| - 1], prices) + Cost(lots[|lots| - 1].qty, PriceOf(prices, lots[|lots| - 1].code))
  }

  /** What the walk holds: the remaining figure is the starting one less the
      entries' notional; each entry is a code of the walk not sold by the
      SELL pass, once, for at least one share and at most its holding. */
  predicate ExtraSound(st: Extra, codes: seq<Code>, sells: seq<Code>, positions: Dict<int>, prices: map<Code, real>, required: real) {
    && st.remaining == required - LotsValue(st.lots, prices)
    && (forall i :: 0 <= i < |st.lots| ==>
          && st.lots[i].code in codes && st.lots[i].code !in sells
          && 0 < st.lots[i].qty <= Holding(positions, st.lots[i].code))
    && (forall i, j :: 0 <= i < j < |st.lots| ==> st.lots[i].code != st.lots[j].code)
  }

  lemma ExtraStepSound(st: Extra, c: Code, codes: seq<Code>, sells: seq<Code>, positions: Dict<int>, prices: map<Code, real>,
                       required: real)
    requires PriceOf(prices, c) > 0.0 && c !in codes
    requires ExtraSound(st, codes, sells, positions, prices, required)
    ensures ExtraSound(ExtraStep(st, c, sells, positions, prices), codes + [c], sells, positions, prices, required)
  {
    var r := ExtraStep(st, c, sells, positions, prices);
    if r != st {
      var l := r.lots[|r.lots| - 1];
      assert r.lots == st.lots + [l] && l.code == c;
      assert r.lots[..|r.lots| - 1] == st.lots;
      assert forall i :: 0 <= i < |st.lots| ==> r.lots[i] == st.lots[i];
    }
  }

  lemma {:induction false} ExtraWalkSound(codes: seq<Code>, sells: seq<Code>, positions: Dict<int>, prices: map<Code, real>,
                                          required: real)
    requires Distinct(codes) && forall c :: c in codes ==> PriceOf(prices, c) > 0.0
    ensures ExtraSound(ExtraWalk(codes, sells, positions, prices, Extra([], required)), codes, sells, positions, prices, required)
  {
    if codes != [] {
      var init := codes[..|codes| - 1];
      var c := codes[|codes| - 1];
      assert codes == init + [c];
      assert Distinct(init) && c !in init;
      ExtraWalkSound(init, sells, positions, prices, required);
      ExtraStepSound(ExtraWalk(init, sells, positions, prices, Extra([], required)), c, init, sells, positions, prices, required);
    }
  }

  /** The held usable codes by descending price: `sorted(..., reverse=True)`
      keeps codes of equal price in their order, as the ascending sort on the
      negated price does. */
  function WalkOrder(usable: seq<Code>, positions: Dict<int>, prices: map<Code, real>): (r: seq<Code>)
    requires forall c :: c in usable ==> PriceOf(prices, c) > 0.0
    ensures forall c :: c in r <==> c in usable && Holding(positions, c) > 0
    ensures forall c :: c in r ==> PriceOf(prices, c) > 0.0
  {
    SortByKeyMembers(HeldCodes(usable, positions), Negated(prices));
    SortByKey(HeldCodes(usable, positions), Negated(prices))
  }

  /** `additional_sells`: the walk runs only when the SELL pass's planned
      proceeds fall short of `required`, and starts from all of `required`. */
  function ExtraLots(inp: BackupInputs, usable: seq<Code>, sells: seq<Code>, planned: real, required: real): seq<Lot>
    requires forall c :: c in usable ==> PriceOf(inp.prices, c) > 0.0
  {
    if planned < required then
      ExtraWalk(WalkOrder(usable, inp.positions, inp.prices), sells, inp.positions, inp.prices, Extra([], required)).lots
    else []
  }

  /** The loop of the extra-SELL walk, with its `break`. */
  method WalkHoldings(order: seq<Code>, sells: seq<Code>, positions: Dict<int>, prices: map<Code, real>, required: real)
    returns (lots: seq<Lot>, remaining: real)
    requires forall c :: c in order ==> PriceOf(prices, c) > 0.0
    ensures Extra(lots, remaining) == ExtraWalk(order, sells, positions, prices, Extra([], required))
  {
    lots, remaining := [], required;
    for i := 0 to |order|
      invariant Extra(lots, remaining) == ExtraWalk(order[..i], sells, positions, prices, Extra([], required))
    {
      if remaining <= 0.0 {
        ExtraWalkStops(order, sells, positions, prices, Extra([], required), i);
        return;
      }
      var t := order[i];
      assert order[..i + 1] == order[..i] + [t];
      ExtraWalkSnoc(order[..i], t, sells, positions, prices, Extra([], required));
      if t in sells {
        continue;
      }
      var price := PriceOf(prices, t);
      var neededQty := Max(1, RoundLot(remaining / price));
      var sellQty := Min(Holding(positions, t), neededQty);
      if sellQty > 0 {
        lots := lots + [Lot(t, sellQty)];
        remaining := remaining - Cost(sellQty, price);
      }
    }
    assert order[..|order|] == order;
  }

  // ---------------------------------------------------------------------
  // The SELL passes

  /** One SELL of the first pass: the whole negative delta, rounded to a lot
      and capped per order; nothing for an unpriced code or a zero
      quantity. */
  function DeficitSellStep(st: GuardState, c: Code, d: map<Code, int>, prices: map<Code, real>, maxOrderValue: int): GuardState {
    var price := PriceOf(prices, c);
    var qty := Abs(DeltaOf(d, c));
    if qty <= 0 || price <= 0.0 then st
    else
      var lot := RoundLot(qty as real);
      if lot <= 0 then st
      else
        var q := CapQty(lot, price, maxOrderValue);
        if q <= 0 then st
        else GuardState(st.kept + [Order(c, Sell, q, None)], st.cash + Cost(q, price))
  }

  function DeficitSells(codes: seq<Code>, d: map<Code, int>, prices: map<Code, real>, maxOrderValue: int, st: GuardState): GuardState {
    if codes == [] then st
    else DeficitSellStep(DeficitSells(codes[..|codes| - 1], d, prices, maxOrderValue, st), codes[|codes| - 1], d, prices, maxOrderValue)
  }

  /** Rounding a whole quantity to a lot changes nothing, so the first SELL
      pass is the band planner's SELL pass. */
  lemma {:induction false} DeficitSellsAreBandSells(codes: seq<Code>, d: map<Code, int>, prices: map<Code, real>,
                                                    maxOrderValue: int, st: GuardState)
    ensures DeficitSells(codes, d, prices, maxOrderValue, st) == BandSells(codes, d, prices, maxOrderValue, st)
  {
    if codes != [] {
      var init := codes[..|codes| - 1];
      var c := codes[|codes| - 1];
      DeficitSellsAreBandSells(init, d, prices, maxOrderValue, st);
      RoundLotWhole(Abs(DeltaOf(d, c)));
    }
  }

  /** One entry of `additional_sells`, rounded to a lot. */
  function ExtraSellStep(st: GuardState, l: Lot, prices: map<Code, real>): GuardState {
    var q := RoundLot(l.qty as real);
    if q > 0 then GuardState(st.kept + [Order(l.code, Sell, q, None)], st.cash + Cost(q, PriceOf(prices, l.code)))
    else st
  }

  function ExtraSells(lots: seq<Lot>, prices: map<Code, real>, st: GuardState): GuardState {
    if lots == [] then st
    else ExtraSellStep(ExtraSells(lots[..|lots| - 1], prices, st), lots[|lots| - 1], prices)
  }

  lemma ExtraSellsSnoc(lots: seq<Lot>, l: Lot, prices: map<Code, real>, st: GuardState)
    ensures ExtraSells(lots + [l], prices, st) == ExtraSellStep(ExtraSells(lots, prices, st), l, prices)
  {
    assert (lots + [l])[..|lots|] == lots;
  }

  /** The extra SELLs are the walk's entries, in the walk's order, as market
      SELLs of the same quantities. */
  lemma {:induction false} ExtraSellsOrders(lots: seq<Lot>, prices: map<Code, real>, st: GuardState)
    requires forall i :: 0 <= i < |lots| ==> lots[i].qty > 0
    ensures var r := ExtraSells(lots, prices, st);
      && |r.kept| == |st.kept| + |lots| && r.kept[..|st.kept|] == st.kept
      && forall i :: 0 <= i < |lots| ==> r.kept[|st.kept| + i] == Order(lots[i].code, Sell, lots[i].qty, None)
  {
    if lots != [] {
      var init := lots[..|lots| - 1];
      var l := lots[|lots| - 1];
      ExtraSellsOrders(init, prices, st);
      RoundLotWhole(l.qty);
      var prev := ExtraSells(init, prices, st);
      var r := ExtraSells(lots, prices, st);
      assert r.kept == prev.kept + [Order(l.code, Sell, l.qty, None)];
      assert r.kept[..|st.kept|] == prev.kept[..|st.kept|];
      forall i | 0 <= i < |lots| ensures r.kept[|st.kept| + i] == Order(lots[i].code, Sell, lots[i].qty, None) {
        if i < |init| {
          assert lots[i] == init[i];
          assert r.kept[|st.kept| + i] == prev.kept[|st.kept| + i];
        }
      }
    }
  }

  // ---------------------------------------------------------------------
  // Step 3-2: the BUY pass

  /** One BUY: the delta, no more than the whole shares the available cash
      pays for, rounded to a lot and capped per order. */
  function DeficitBuyStep(st: GuardState, c: Code, d: map<Code, int>, prices: map<Code, real>, maxOrderValue: int): GuardState {
    var price := PriceOf(prices, c);
    var qty := DeltaOf(d, c);
    if qty <= 0 || price <= 0.0 then st
    else
      var affordable := (st.cash / price).Floor;
      if affordable <= 0 then st
      else
        var q := CapQty(RoundLot(Min(qty, affordable) as real), price, maxOrderValue);
        if q <= 0 then st
        else GuardState(st.kept + [Order(c, Buy, q, None)], st.cash - Cost(q, price))
  }

  function DeficitBuys(codes: seq<Code>, d: map<Code, int>, prices: map<Code, real>, maxOrderValue: int, st: GuardState): GuardState {
    if codes == [] then st
    else DeficitBuyStep(DeficitBuys(codes[..|codes| - 1], d, prices, maxOrderValue, st), codes[|codes| - 1], d, prices, maxOrderValue)
  }

  /** Rounding a whole quantity to a lot changes nothing, so the BUY pass is
      the band planner's BUY pass, run from the available cash. */
  lemma {:induction false} DeficitBuysAreBandBuys(codes: seq<Code>, d: map<Code, int>, prices: map<Code, real>,
                                                  maxOrderValue: int, st: GuardState)
    ensures DeficitBuys(codes, d, prices, maxOrderValue, st) == BandBuys(codes, d, prices, maxOrderValue, st)
  {
    if codes != [] {
      var init := codes[..|codes| - 1];
      var c := codes[|codes| - 1];
      DeficitBuysAreBandBuys(init, d, prices, maxOrderValue, st);
      var prev := BandBuys(init, d, prices, maxOrderValue, st);
      var price := PriceOf(prices, c);
      if DeltaOf(d, c) > 0 && price > 0.0 && (prev.cash / price).Floor > 0 {
        RoundLotWhole(Min(DeltaOf(d, c), (prev.cash / price).Floor));
      }
    }
  }

  /** With no positive cash to start from, the BUY pass buys nothing. */
  lemma {:induction false} DeficitBuysNoneWhenShort(codes: seq<Code>, d: map<Code, int>, prices: map<Code, real>,
                                                    maxOrderValue: int, st: GuardState)
    requires st.cash <= 0.0
    ensures DeficitBuys(codes, d, prices, maxOrderValue, st) == st
  {
    if codes != [] {
      var c := codes[|codes| - 1];
      DeficitBuysNoneWhenShort(codes[..|codes| - 1], d, prices, maxOrderValue, st);
      var price := PriceOf(prices, c);
      if DeltaOf(d, c) > 0 && price > 0.0 {
        DivBounds(st.cash, price, 0.0);
      }
    }
  }

  // ---------------------------------------------------------------------
  // The plan

  /** The SELLs of the plan: the first pass by ascending delta, then the
      extra SELLs; `required` is the cash figure the walk covers. */
  function DeficitSellPart(inp: BackupInputs, usable: seq<Code>, d: map<Code, int>, required: real): GuardState
    requires forall c :: c in usable ==> PriceOf(inp.prices, c) > 0.0
  {
    var sells := Wanting(usable, d, Sell);
    var lots := ExtraLots(inp, usable, sells, PlannedSellCash(sells, d, inp.prices), required);
    ExtraSells(lots, inp.prices, DeficitSells(SortByKey(sells, DeltaKey(d)), d, inp.prices, inp.maxOrderValue, GuardState([], inp.cash)))
  }

  /** The BUYs of the plan, by descending delta, from the available cash. */
  function DeficitBuyPart(inp: BackupInputs, usable: seq<Code>, d: map<Code, int>): GuardState {
    DeficitBuys(SortByKey(Wanting(usable, d, Buy), Negated(DeltaKey(d))), d, inp.prices, inp.maxOrderValue,
                GuardState([], CalculateVirtualCash(inp.positions, inp.prices, inp.cash, true).available))
  }

  /** The deltas of the usable codes that pass the filter. */
  function DeficitDeltas(inp: BackupInputs, usable: seq<Code>): map<Code, int>
    requires forall c :: c in usable ==> PriceOf(inp.prices, c) > 0.0
  {
    FilteredDeltas(inp, usable, DeficitTargets(inp, usable))
  }

  /** The plan: nothing when no code has a usable price; otherwise the
      SELLs, with the walk covering `required`, then the BUYs. */
  function DeficitPlanWith(inp: BackupInputs, tickers: seq<Code>, required: real): seq<Order> {
    var usable := Usable(tickers, inp.prices);
    if usable == [] then []
    else
      var d := DeficitDeltas(inp, usable);
      DeficitSellPart(inp, usable, d, required).kept + DeficitBuyPart(inp, usable, d).kept
  }

  /** `plan_rebalance_with_deficit` as written: the walk covers `abs(cash)`,
      a positive balance included. */
  function DeficitPlanAsWritten(inp: BackupInputs, tickers: seq<Code>): seq<Order> {
    DeficitPlanWith(inp, tickers, AbsR(inp.cash))
  }

  /** The cash the account is short of: the negative balance, or nothing. */
  function Shortfall(cash: real): real {
    if cash < 0.0 then -cash else 0.0
  }

  /** The corrected plan: the walk covers the shortfall alone. */
  function DeficitPlan(inp: BackupInputs, tickers: seq<Code>): seq<Order> {
    DeficitPlanWith(inp, tickers, Shortfall(inp.cash))
  }

  /** The plan for a non-empty set of usable codes. */
  lemma DeficitPlanUnfold(inp: BackupInputs, tickers: seq<Code>, required: real)
    requires Usable(tickers, inp.prices) != []
    ensures var usable := Usable(tickers, inp.prices);
      var d := DeficitDeltas(inp, usable);
      DeficitPlanWith(inp, tickers, required) == DeficitSellPart(inp, usable, d, required).kept + DeficitBuyPart(inp, usable, d).kept
  {
  }

  /** For the negative balances the caller passes, the two plans agree. */
  lemma DeficitPlanAgreesWhenShort(inp: BackupInputs, tickers: seq<Code>)
    requires inp.cash < 0.0
    ensures DeficitPlan(inp, tickers) == DeficitPlanAsWritten(inp, tickers)
  {
  }

  /** `plan_rebalance_with_deficit` as a procedure, as written: the walk
      covers `abs(cash)`. For the negative balances its caller passes, this
      is the corrected plan. */
  method PlanRebalanceWithDeficit(inp: BackupInputs, tickers: seq<Code>) returns (plan: seq<Order>)
    ensures plan == DeficitPlanAsWritten(inp, tickers)
    ensures inp.cash < 0.0 ==> plan == DeficitPlan(inp, tickers)
  {
    var usable := Usable(tickers, inp.prices);
    if usable == [] {
      return [];
    }
    var targetQty := Allocate(usable, inp.targets, inp.prices, DeficitBudget(inp, usable));
    var filtered := FilterDeltas(inp, usable, targetQty);
    assert filtered == DeficitDeltas(inp, usable);
    var requiredCash := AbsR(inp.cash);
    var sellPart := SellSection(inp, usable, filtered, requiredCash);
    var buyPart := BuySection(inp, usable, filtered);
    plan := sellPart + buyPart;
    DeficitPlanUnfold(inp, tickers, requiredCash);
    if inp.cash < 0.0 {
      DeficitPlanAgreesWhenShort(inp, tickers);
    }
  }

  /** Steps 3-1: the planned proceeds, the walk when they fall short, and
      the SELL loops. */
  method SellSection(inp: BackupInputs, usable: seq<Code>, filtered: map<Code, int>, requiredCash: real)
    returns (plan: seq<Order>)
    requires forall c :: c in usable ==> PriceOf(inp.prices, c) > 0.0
    ensures plan == DeficitSellPart(inp, usable, filtered, requiredCash).kept
  {
    var sells := Wanting(usable, filtered, Sell);
    var lots: seq<Lot> := [];
    if PlannedSellCash(sells, filtered, inp.prices) < requiredCash {
      var remaining;
      lots, remaining := WalkHoldings(WalkOrder(usable, inp.positions, inp.prices), sells, inp.positions, inp.prices, requiredCash);
    }
    assert lots == ExtraLots(inp, usable, sells, PlannedSellCash(sells, filtered, inp.prices), requiredCash);
    plan := PlaceSells(filtered, SortByKey(sells, DeltaKey(filtered)), lots, inp.prices, inp.cash, inp.maxOrderValue);
  }

  /** Step 3-2: the BUY loop from the available cash. */
  method BuySection(inp: BackupInputs, usable: seq<Code>, filtered: map<Code, int>) returns (plan: seq<Order>)
    ensures plan == DeficitBuyPart(inp, usable, filtered).kept
  {
    var buys := Wanting(usable, filtered, Buy);
    var virtualCash := CalculateVirtualCash(inp.positions, inp.prices, inp.cash, true);
    plan := PlaceBuys(filtered, SortByKey(buys, Negated(DeltaKey(filtered))), inp.prices, virtualCash.available,
                      inp.maxOrderValue);
  }

  /** The SELL loops: the first pass, then the extra SELLs. */
  method PlaceSells(d: map<Code, int>, sellOrder: seq<Code>, lots: seq<Lot>, prices: map<Code, real>, cash: real,
                    maxOrderValue: int)
    returns (plan: seq<Order>)
    ensures plan == ExtraSells(lots, prices, DeficitSells(sellOrder, d, prices, maxOrderValue, GuardState([], cash))).kept
  {
    var currentCash;
    plan, currentCash := SellDeltas(d, sellOrder, prices, cash, maxOrderValue);
    plan, currentCash := SellLots(lots, prices, plan, currentCash);
  }

  /** The loop over `sells` by ascending delta. */
  method SellDeltas(d: map<Code, int>, sellOrder: seq<Code>, prices: map<Code, real>, cash: real, maxOrderValue: int)
    returns (plan: seq<Order>, currentCash: real)
    ensures GuardState(plan, currentCash) == DeficitSells(sellOrder, d, prices, maxOrderValue, GuardState([], cash))
  {
    plan := [];
    currentCash := cash;
    for i := 0 to |sellOrder|
      invariant GuardState(plan, currentCash) == DeficitSells(sellOrder[..i], d, prices, maxOrderValue, GuardState([], cash))
    {
      var t := sellOrder[i];
      assert sellOrder[..i + 1] == sellOrder[..i] + [t];
      assert DeficitSells(sellOrder[..i + 1], d, prices, maxOrderValue, GuardState([], cash))
          == DeficitSellStep(DeficitSells(sellOrder[..i], d, prices, maxOrderValue, GuardState([], cash)), t, d, prices, maxOrderValue);
      var price := PriceOf(prices, t);
      var qty := Abs(DeltaOf(d, t));
      if qty <= 0 || price <= 0.0 {
        continue;
      }
      qty := RoundLot(qty as real);
      if qty <= 0 {
        continue;
      }
      if maxOrderValue != 0 {
        qty := ClampOrderValue(qty, price, maxOrderValue);
      }
      if qty <= 0 {
        continue;
      }
      plan := plan + [Order(t, Sell, qty, None)];
      currentCash := currentCash + Cost(qty, price);
    }
    assert sellOrder[..|sellOrder|] == sellOrder;
  }

  /** The loop over `additional_sells`, in the walk's order. */
  method SellLots(lots: seq<Lot>, prices: map<Code, real>, plan0: seq<Order>, cash0: real)
    returns (plan: seq<Order>, currentCash: real)
    ensures GuardState(plan, currentCash) == ExtraSells(lots, prices, GuardState(plan0, cash0))
  {
    plan, currentCash := plan0, cash0;
    for i := 0 to |lots|
      invariant GuardState(plan, currentCash) == ExtraSells(lots[..i], prices, GuardState(plan0, cash0))
    {
      var l := lots[i];
      assert lots[..i + 1] == lots[..i] + [l];
      ExtraSellsSnoc(lots[..i], l, prices, GuardState(plan0, cash0));
      var qty := RoundLot(l.qty as real);
      if qty > 0 {
        plan := plan + [Order(l.code, Sell, qty, None)];
        currentCash := currentCash + Cost(qty, PriceOf(prices, l.code));
      }
    }
    assert lots[..|lots|] == lots;
  }

  /** The BUY loop, from the available cash. */
  method PlaceBuys(d: map<Code, int>, buyOrder: seq<Code>, prices: map<Code, real>, available: real, maxOrderValue: int)
    returns (buys: seq<Order>)
    ensures buys == DeficitBuys(buyOrder, d, prices, maxOrderValue, GuardState([], available)).kept
  {
    buys := [];
    var buyCash := available;
    for i := 0 to |buyOrder|
      invariant GuardState(buys, buyCash) == DeficitBuys(buyOrder[..i], d, prices, maxOrderValue, GuardState([], available))
    {
      var t := buyOrder[i];
      assert buyOrder[..i + 1] == buyOrder[..i] + [t];
      assert DeficitBuys(buyOrder[..i + 1], d, prices, maxOrderValue, GuardState([], available))
          == DeficitBuyStep(DeficitBuys(buyOrder[..i], d, prices, maxOrderValue, GuardState([], available)), t, d, prices, maxOrderValue);
      var price := PriceOf(prices, t);
      var qty := DeltaOf(d, t);
      if qty <= 0 || price <= 0.0 {
        continue;
      }
      var affordable := (buyCash / price).Floor;
      if affordable <= 0 {
        continue;
      }
      var buyQty := RoundLot(Min(qty, affordable) as real);
      if maxOrderValue != 0 {
        buyQty := ClampOrderValue(buyQty, price, maxOrderValue);
      }
      if buyQty <= 0 {
        continue;
      }
      buys := buys + [Order(t, Buy, buyQty, None)];
      buyCash := buyCash - Cost(buyQty, price);
    }
    assert buyOrder[..|buyOrder|] == buyOrder;
  }

  // ---------------------------------------------------------------------
  // What the plan promises

  /** The walk's entries: distinct held usable codes the first pass does not
      sell, each for at least one share and at most its holding. */
  lemma ExtraLotsSound(inp: BackupInputs, usable: seq<Code>, sells: seq<Code>, planned: real, required: real)
    requires Distinct(usable) && forall c :: c in usable ==> PriceOf(inp.prices, c) > 0.0
    ensures var lots := ExtraLots(inp, usable, sells, planned, required);
      && (forall i :: 0 <= i < |lots| ==>
            && lots[i].code in usable && lots[i].code !in sells
            && 0 < lots[i].qty <= Holding(inp.positions, lots[i].code))
      && (forall i, j :: 0 <= i < j < |lots| ==> lots[i].code != lots[j].code)
  {
    if planned < required {
      var held := HeldCodes(usable, inp.positions);
      HeldCodesDistinct(usable, inp.positions);
      SortByKeyDistinct(held, Negated(inp.prices));
      var order := WalkOrder(usable, inp.positions, inp.prices);
      ExtraWalkSound(order, sells, inp.positions, inp.prices, required);
    }
  }

  /** What the SELLs hold: distinct usable codes, positive quantities at
      market, no more than the negative delta for a code the first pass
      sells, no more than the holding for any other. */
  predicate SellPartSound(kept: seq<Order>, d: map<Code, int>, positions: Dict<int>, usable: seq<Code>) {
    && CodesUnique(kept)
    && forall i :: 0 <= i < |kept| ==>
         && kept[i].side == Sell && kept[i].limit == None && kept[i].qty > 0 && kept[i].code in usable
         && (if DeltaOf(d, kept[i].code) < 0 then kept[i].qty <= -DeltaOf(d, kept[i].code)
             else kept[i].qty <= Holding(positions, kept[i].code))
  }

  /** The first pass's SELLs followed by the walk's entries keep the
      SELL-part properties. */
  lemma SellPartJoin(first: seq<Order>, lots: seq<Lot>, kept: seq<Order>, d: map<Code, int>, positions: Dict<int>,
                     usable: seq<Code>, sellOrder: seq<Code>)
    requires forall c :: c in sellOrder <==> c in usable && DeltaOf(d, c) < 0
    requires CodesUnique(first)
    requires forall i :: 0 <= i < |first| ==>
      && first[i].side == Sell && first[i].limit == None
      && 0 < first[i].qty <= -DeltaOf(d, first[i].code) && first[i].code in sellOrder
    requires forall i :: 0 <= i < |lots| ==>
      && lots[i].code in usable && lots[i].code !in sellOrder && 0 < lots[i].qty <= Holding(positions, lots[i].code)
    requires forall i, j :: 0 <= i < j < |lots| ==> lots[i].code != lots[j].code
    requires |kept| == |first| + |lots| && forall i :: 0 <= i < |first| ==> kept[i] == first[i]
    requires forall i :: 0 <= i < |lots| ==> kept[|first| + i] == Order(lots[i].code, Sell, lots[i].qty, None)
    ensures SellPartSound(kept, d, positions, usable)
  {
    var m := |first|;
    forall i | 0 <= i < |kept|
      ensures && kept[i].side == Sell && kept[i].limit == None && kept[i].qty > 0 && kept[i].code in usable
              && (if DeltaOf(d, kept[i].code) < 0 then kept[i].qty <= -DeltaOf(d, kept[i].code)
                  else kept[i].qty <= Holding(positions, kept[i].code))
    {
      if i >= m {
        assert kept[i] == Order(lots[i - m].code, Sell, lots[i - m].qty, None);
      }
    }
    forall j, k | 0 <= j < k < |kept| ensures kept[j].code != kept[k].code {
      if k < m {
        assert kept[j] == first[j] && kept[k] == first[k];
      } else if j >= m {
        assert kept[j].code == lots[j - m].code && kept[k].code == lots[k - m].code;
      } else {
        assert kept[j].code in sellOrder && kept[k].code == lots[k - m].code;
      }
    }
  }

  /** The first SELL pass sells the codes with a negative delta, each once,
      within its delta. */
  lemma FirstPassSound(usable: seq<Code>, d: map<Code, int>, prices: map<Code, real>, maxOrderValue: int, cash: real)
    requires Distinct(usable)
    ensures var sellOrder := SortByKey(Wanting(usable, d, Sell), DeltaKey(d));
      && (forall c :: c in sellOrder <==> c in usable && DeltaOf(d, c) < 0)
      && SellsSound(DeficitSells(sellOrder, d, prices, maxOrderValue, GuardState([], cash)), d, sellOrder, prices, cash)
  {
    var sells := Wanting(usable, d, Sell);
    WantingDistinct(usable, d, Sell);
    var sellOrder := SortByKey(sells, DeltaKey(d));
    SortByKeyDistinct(sells, DeltaKey(d));
    SortByKeyMembers(sells, DeltaKey(d));
    DeficitSellsAreBandSells(sellOrder, d, prices, maxOrderValue, GuardState([], cash));
    BandSellsSound(sellOrder, d, prices, maxOrderValue, cash);
  }

  lemma DeficitSellPartSound(inp: BackupInputs, usable: seq<Code>, d: map<Code, int>, required: real)
    requires Distinct(usable) && forall c :: c in usable ==> PriceOf(inp.prices, c) > 0.0
    ensures SellPartSound(DeficitSellPart(inp, usable, d, required).kept, d, inp.positions, usable)
  {
    var sells := Wanting(usable, d, Sell);
    var sellOrder := SortByKey(sells, DeltaKey(d));
    var st := DeficitSells(sellOrder, d, inp.prices, inp.maxOrderValue, GuardState([], inp.cash));
    FirstPassSound(usable, d, inp.prices, inp.maxOrderValue, inp.cash);
    var lots := ExtraLots(inp, usable, sells, PlannedSellCash(sells, d, inp.prices), required);
    ExtraLotsSound(inp, usable, sells, PlannedSellCash(sells, d, inp.prices), required);
    ExtraSellsSound(st, lots, d, inp.positions, usable, sellOrder, inp.prices, inp.cash);
  }

  /** Appending the walk's entries to a sound first pass. */
  lemma ExtraSellsSound(st: GuardState, lots: seq<Lot>, d: map<Code, int>, positions: Dict<int>, usable: seq<Code>,
                        sellOrder: seq<Code>, prices: map<Code, real>, cash: real)
    requires forall c :: c in sellOrder <==> c in usable && DeltaOf(d, c) < 0
    requires SellsSound(st, d, sellOrder, prices, cash)
    requires forall i :: 0 <= i < |lots| ==>
      && lots[i].code in usable && lots[i].code !in sellOrder && 0 < lots[i].qty <= Holding(positions, lots[i].code)
    requires forall i, j :: 0 <= i < j < |lots| ==> lots[i].code != lots[j].code
    ensures SellPartSound(ExtraSells(lots, prices, st).kept, d, positions, usable)
  {
    ExtraSellsOrders(lots, prices, st);
    var kept := ExtraSells(lots, prices, st).kept;
    PrefixElements(kept, st.kept);
    SellPartJoin(st.kept, lots, kept, d, positions, usable, sellOrder);
  }

  /** The BUYs: distinct usable codes, positive quantities at market, no
      more than the positive delta, and the caller's cash, replayed over the
      BUYs alone, never negative after one of them. */
  lemma DeficitBuyPartSound(inp: BackupInputs, usable: seq<Code>, d: map<Code, int>)
    requires Distinct(usable)
    ensures var r := DeficitBuyPart(inp, usable, d).kept;
      && CodesUnique(r)
      && (forall j :: 0 <= j < |r| ==>
            && r[j].side == Buy && r[j].limit == None && 0 < r[j].qty <= DeltaOf(d, r[j].code) && r[j].code in usable)
      && (forall n :: 0 < n <= |r| ==> CashAfter(inp.cash, r, n, inp.prices) >= 0.0)
  {
    var buys := Wanting(usable, d, Buy);
    WantingDistinct(usable, d, Buy);
    var buyOrder := SortByKey(buys, Negated(DeltaKey(d)));
    SortByKeyDistinct(buys, Negated(DeltaKey(d)));
    SortByKeyMembers(buys, Negated(DeltaKey(d)));
    var start := GuardState([], CalculateVirtualCash(inp.positions, inp.prices, inp.cash, true).available);
    assert start.cash == inp.cash;
    DeficitBuysAreBandBuys(buyOrder, d, inp.prices, inp.maxOrderValue, start);
    BandBuysAdded(buyOrder, d, inp.prices, inp.maxOrderValue, start);
    BandBuysReplay(buyOrder, d, inp.prices, inp.maxOrderValue, start, inp.cash);
  }

  /** A SELL of the first pass is a filtered negative delta, so never more
      than the holding once the targets are non-negative. */
  lemma FirstPassWithinHolding(inp: BackupInputs, usable: seq<Code>, c: Code, q: int)
    requires Distinct(usable) && forall k :: k in usable ==> PriceOf(inp.prices, k) > 0.0
    requires c in usable && DeltaOf(DeficitDeltas(inp, usable), c) < 0 && q <= -DeltaOf(DeficitDeltas(inp, usable), c)
    ensures q <= Holding(inp.positions, c)
  {
    FilteredDeltaOf(inp, usable, DeficitTargets(inp, usable), c);
    DeficitTargetsNotNegative(inp, usable, c);
  }

  /** The plan of `plan_rebalance_with_deficit`: every SELL before every
      BUY; positive quantities at market; no SELL beyond the holding; no BUY
      that takes a holding past its target, nor one the caller's cash does
      not cover when replayed over the BUYs; and with no positive cash, no
      BUY at all and no code twice. */
  lemma DeficitPlanSound(inp: BackupInputs, tickers: seq<Code>, required: real)
    requires Distinct(tickers)
    ensures var plan := DeficitPlanWith(inp, tickers, required);
      && SellsBeforeBuys(plan)
      && (forall i :: 0 <= i < |plan| ==> plan[i].qty > 0 && plan[i].limit == None)
      && (forall i :: 0 <= i < |plan| && plan[i].side == Sell ==> plan[i].qty <= Holding(inp.positions, plan[i].code))
      && (inp.cash <= 0.0 ==> (forall i :: 0 <= i < |plan| ==> plan[i].side == Sell) && CodesUnique(plan))
      && (forall i :: 0 <= i < |plan| && plan[i].side == Buy ==>
            Holding(inp.positions, plan[i].code) + plan[i].qty
            <= QtyOf(DeficitTargets(inp, Usable(tickers, inp.prices)), plan[i].code))
      && (forall n :: 0 < n <= |OfSide(plan, Buy)| ==> CashAfter(inp.cash, OfSide(plan, Buy), n, inp.prices) >= 0.0)
  {
    DeficitPlanShape(inp, tickers, required);
    DeficitBuysWithinTargets(inp, tickers, required);
    DeficitBuysCovered(inp, tickers, required);
  }

  /** SELLs first, positive and at market, no SELL beyond the holding; with
      no positive cash only SELLs, each code once. */
  lemma DeficitPlanShape(inp: BackupInputs, tickers: seq<Code>, required: real)
    requires Distinct(tickers)
    ensures var plan := DeficitPlanWith(inp, tickers, required);
      && SellsBeforeBuys(plan)
      && (forall i :: 0 <= i < |plan| ==> plan[i].qty > 0 && plan[i].limit == None)
      && (forall i :: 0 <= i < |plan| && plan[i].side == Sell ==> plan[i].qty <= Holding(inp.positions, plan[i].code))
      && (inp.cash <= 0.0 ==> (forall i :: 0 <= i < |plan| ==> plan[i].side == Sell) && CodesUnique(plan))
  {
    var usable := Usable(tickers, inp.prices);
    if usable != [] {
      UsableDistinct(tickers, inp.prices);
      var d := DeficitDeltas(inp, usable);
      var sp := DeficitSellPart(inp, usable, d, required).kept;
      var bp := DeficitBuyPart(inp, usable, d).kept;
      DeficitSellPartSound(inp, usable, d, required);
      DeficitBuyPartSound(inp, usable, d);
      SellPartWithinHoldings(inp, usable, required);
      JoinSound(sp, bp, inp.positions);
      assert DeficitPlanWith(inp, tickers, required) == sp + bp;
      if inp.cash <= 0.0 {
        BuyPartEmptyWhenShort(inp, usable, d);
        assert sp + bp == sp;
      }
    }
  }

  /** The caller's cash, replayed over the BUYs of the plan, never goes
      negative. */
  lemma DeficitBuysCovered(inp: BackupInputs, tickers: seq<Code>, required: real)
    requires Distinct(tickers)
    ensures var plan := DeficitPlanWith(inp, tickers, required);
      forall n :: 0 < n <= |OfSide(plan, Buy)| ==> CashAfter(inp.cash, OfSide(plan, Buy), n, inp.prices) >= 0.0
  {
    var usable := Usable(tickers, inp.prices);
    if usable == [] {
      OfSideNone([], Buy);
    } else {
      UsableDistinct(tickers, inp.prices);
      var d := DeficitDeltas(inp, usable);
      var sp := DeficitSellPart(inp, usable, d, required).kept;
      var bp := DeficitBuyPart(inp, usable, d).kept;
      DeficitSellPartSound(inp, usable, d, required);
      DeficitBuyPartSound(inp, usable, d);
      OfSideBuys(sp, bp);
      assert DeficitPlanWith(inp, tickers, required) == sp + bp;
    }
  }

  /** SELLs within the holdings followed by BUYs, all of positive quantity
      at market. */
  lemma JoinSound(sp: seq<Order>, bp: seq<Order>, positions: Dict<int>)
    requires forall i :: 0 <= i < |sp| ==>
      sp[i].side == Sell && sp[i].qty > 0 && sp[i].limit == None && sp[i].qty <= Holding(positions, sp[i].code)
    requires forall i :: 0 <= i < |bp| ==> bp[i].side == Buy && bp[i].qty > 0 && bp[i].limit == None
    ensures var plan := sp + bp;
      && SellsBeforeBuys(plan)
      && (forall i :: 0 <= i < |plan| ==> plan[i].qty > 0 && plan[i].limit == None)
      && (forall i :: 0 <= i < |plan| && plan[i].side == Sell ==> plan[i].qty <= Holding(positions, plan[i].code))
  {
    SellsThenBuys(sp, bp);
    var plan := sp + bp;
    forall i | 0 <= i < |plan| ensures plan[i] == if i < |sp| then sp[i] else bp[i - |sp|] {
    }
  }

  /** No SELL, of the first pass or of the walk, beyond the holding. */
  lemma SellPartWithinHoldings(inp: BackupInputs, usable: seq<Code>, required: real)
    requires Distinct(usable) && forall c :: c in usable ==> PriceOf(inp.prices, c) > 0.0
    ensures var kept := DeficitSellPart(inp, usable, DeficitDeltas(inp, usable), required).kept;
      forall i :: 0 <= i < |kept| ==> kept[i].qty <= Holding(inp.positions, kept[i].code)
  {
    var d := DeficitDeltas(inp, usable);
    var kept := DeficitSellPart(inp, usable, d, required).kept;
    DeficitSellPartSound(inp, usable, d, required);
    forall i | 0 <= i < |kept| ensures kept[i].qty <= Holding(inp.positions, kept[i].code) {
      if DeltaOf(d, kept[i].code) < 0 {
        FirstPassWithinHolding(inp, usable, kept[i].code, kept[i].qty);
      }
    }
  }

  /** With no positive cash, the BUY pass plans nothing. */
  lemma BuyPartEmptyWhenShort(inp: BackupInputs, usable: seq<Code>, d: map<Code, int>)
    requires inp.cash <= 0.0
    ensures DeficitBuyPart(inp, usable, d).kept == []
  {
    var buys := Wanting(usable, d, Buy);
    DeficitBuysNoneWhenShort(SortByKey(buys, Negated(DeltaKey(d))), d, inp.prices, inp.maxOrderValue,
                             GuardState([], CalculateVirtualCash(inp.positions, inp.prices, inp.cash, true).available));
  }

  /** A BUY of SELLs followed by other orders is one of the others. */
  lemma BuyOfJoin(sp: seq<Order>, bp: seq<Order>, i: int)
    requires forall j :: 0 <= j < |sp| ==> sp[j].side == Sell
    requires 0 <= i < |sp + bp| && (sp + bp)[i].side == Buy
    ensures i >= |sp| && (sp + bp)[i] == bp[i - |sp|]
  {
  }

  /** A BUY of no more than the filtered positive delta stays within the
      target. */
  lemma BuyWithinTarget(inp: BackupInputs, usable: seq<Code>, c: Code, q: int)
    requires forall k :: k in usable ==> PriceOf(inp.prices, k) > 0.0
    requires q <= DeltaOf(DeficitDeltas(inp, usable), c) && 0 < q
    ensures c in usable && Holding(inp.positions, c) + q <= QtyOf(DeficitTargets(inp, usable), c)
  {
    FilteredDeltaOf(inp, usable, DeficitTargets(inp, usable), c);
  }

  /** No BUY takes a holding past the target the allocator sets for it. */
  lemma DeficitBuysWithinTargets(inp: BackupInputs, tickers: seq<Code>, required: real)
    requires Distinct(tickers)
    ensures var usable := Usable(tickers, inp.prices);
      var plan := DeficitPlanWith(inp, tickers, required);
      forall i :: 0 <= i < |plan| && plan[i].side == Buy ==>
        plan[i].code in usable && Holding(inp.positions, plan[i].code) + plan[i].qty <= QtyOf(DeficitTargets(inp, usable), plan[i].code)
  {
    var usable := Usable(tickers, inp.prices);
    if usable != [] {
      UsableDistinct(tickers, inp.prices);
      var d := DeficitDeltas(inp, usable);
      var sp := DeficitSellPart(inp, usable, d, required).kept;
      var bp := DeficitBuyPart(inp, usable, d).kept;
      DeficitSellPartSound(inp, usable, d, required);
      DeficitBuyPartSound(inp, usable, d);
      var plan := sp + bp;
      assert plan == DeficitPlanWith(inp, tickers, required);
      forall i | 0 <= i < |plan| && plan[i].side == Buy
        ensures plan[i].code in usable && Holding(inp.positions, plan[i].code) + plan[i].qty <= QtyOf(DeficitTargets(inp, usable), plan[i].code)
      {
        BuyOfJoin(sp, bp, i);
        BuyWithinTarget(inp, usable, plan[i].code, plan[i].qty);
      }
    }
  }

  /** The first pass's planned proceeds are never negative. */
  lemma {:induction false} PlannedSellCashNotNegative(sells: seq<Code>, d: map<Code, int>, prices: map<Code, real>)
    requires forall c :: c in sells ==> PriceOf(prices, c) > 0.0
    ensures PlannedSellCash(sells, d, prices) >= 0.0
  {
    if sells != [] {
      var c := sells[|sells| - 1];
      assert c in sells;
      PlannedSellCashNotNegative(sells[..|sells| - 1], d, prices);
      CostIsProduct(Abs(DeltaOf(d, c)), PriceOf(prices, c));
    }
  }

  /** With nothing to cover, the SELLs are the first pass's alone, each of a
      code with a negative delta. */
  lemma DeficitSellPartCovered(inp: BackupInputs, usable: seq<Code>, d: map<Code, int>, required: real)
    requires Distinct(usable) && forall c :: c in usable ==> PriceOf(inp.prices, c) > 0.0
    requires required <= 0.0
    ensures var kept := DeficitSellPart(inp, usable, d, required).kept;
      forall i :: 0 <= i < |kept| ==> DeltaOf(d, kept[i].code) < 0
  {
    var sells := Wanting(usable, d, Sell);
    PlannedSellCashNotNegative(sells, d, inp.prices);
    FirstPassSound(usable, d, inp.prices, inp.maxOrderValue, inp.cash);
  }

  /** SELLs of distinct codes with negative deltas followed by BUYs of
      distinct codes with positive deltas name no code twice. */
  lemma JoinUnique(sp: seq<Order>, bp: seq<Order>, d: map<Code, int>)
    requires CodesUnique(sp) && CodesUnique(bp)
    requires forall i :: 0 <= i < |sp| ==> DeltaOf(d, sp[i].code) < 0
    requires forall i :: 0 <= i < |bp| ==> DeltaOf(d, bp[i].code) > 0
    ensures CodesUnique(sp + bp)
  {
    var plan := sp + bp;
    forall j, k | 0 <= j < k < |plan| ensures plan[j].code != plan[k].code {
      if k < |sp| {
        assert plan[j] == sp[j] && plan[k] == sp[k];
      } else if j >= |sp| {
        assert plan[j] == bp[j - |sp|] && plan[k] == bp[k - |sp|];
      } else {
        assert DeltaOf(d, plan[j].code) < 0 < DeltaOf(d, plan[k].code);
      }
    }
  }

  /** The corrected plan names no code twice, whatever the cash: no SELL and
      BUY of the same code. */
  lemma DeficitPlanCodesUnique(inp: BackupInputs, tickers: seq<Code>)
    requires Distinct(tickers)
    ensures CodesUnique(DeficitPlan(inp, tickers))
  {
    var usable := Usable(tickers, inp.prices);
    if usable != [] {
      if inp.cash < 0.0 {
        DeficitPlanSound(inp, tickers, Shortfall(inp.cash));
      } else {
        UsableDistinct(tickers, inp.prices);
        var d := DeficitDeltas(inp, usable);
        var sp := DeficitSellPart(inp, usable, d, 0.0).kept;
        var bp := DeficitBuyPart(inp, usable, d).kept;
        DeficitSellPartSound(inp, usable, d, 0.0);
        DeficitSellPartCovered(inp, usable, d, 0.0);
        DeficitBuyPartSound(inp, usable, d);
        JoinUnique(sp, bp, d);
        assert DeficitPlan(inp, tickers) == sp + bp;
      }
    }
  }

  // ---------------------------------------------------------------------
  // The walk with a positive balance
  //
  // One code A, one share held at 100.0, target 1.0, a cash balance of
  // 1000.0, a 1% band, no order cap and a 0.5% reserve. The liquidation
  // value is 1200.0, the budget 1194.0 and the target 11 shares, so the
  // delta is +10 and nothing is sold by the first pass; as written the walk
  // still covers abs(1000.0) and sells the one share held.

  const SurplusTickers: seq<Code> := ["A"]
  const SurplusPrices: map<Code, real> := map["A" := 100.0]
  const SurplusInputs: BackupInputs := BackupInputs(
    Dict(["A"], map["A" := 1]), Dict(["A"], map["A" := 1.0]), 1000.0, SurplusPrices, 1.0, 0, 0.005)

  lemma SurplusBudget()
    ensures Usable(SurplusTickers, SurplusPrices) == SurplusTickers
    ensures DeficitBudget(SurplusInputs, SurplusTickers) == 1194.0
  {
    assert SurplusTickers[..0] == [];
    CostIsProduct(1, 100.0);
    assert HoldingsValue(SurplusTickers, SurplusInputs.positions, SurplusPrices) == 100.0;
    assert CalculateVirtualCash(SurplusInputs.positions, SurplusPrices, 1000.0, true).total == 1100.0;
  }

  lemma SurplusTopUp()
    ensures TopUp(SurplusTickers, SurplusPrices, map["A" := 11], 1194.0) == map["A" := 11]
  {
    assert SurplusTickers[..0] == [];
    CostIsProduct(11, 100.0);
    assert Spent(SurplusTickers, map["A" := 11], SurplusPrices) == 1100.0;
    assert SortByKey(SurplusTickers, SurplusPrices) == SurplusTickers;
  }

  lemma SurplusTargets()
    ensures forall c :: c in SurplusTickers ==> PriceOf(SurplusPrices, c) > 0.0
    ensures DeficitTargets(SurplusInputs, SurplusTickers) == map["A" := 11]
  {
    SurplusBudget();
    assert FirstPass(SurplusTickers, SurplusInputs.targets, SurplusPrices, 1194.0) == map["A" := 11] by {
      assert FloorShares(1194.0, 1.0, 100.0) == 11 by {
        FloorSharesUnfold(1194.0, 1.0, 100.0);
        assert (1194.0 * 1.0) / 100.0 == 11.94;
      }
      var m := FirstPass(SurplusTickers, SurplusInputs.targets, SurplusPrices, 1194.0);
      assert m.Keys == {"A"};
    }
    SurplusTopUp();
  }

  lemma SurplusDeltas()
    ensures forall c :: c in SurplusTickers ==> PriceOf(SurplusPrices, c) > 0.0
    ensures DeficitDeltas(SurplusInputs, SurplusTickers) == map["A" := 10]
  {
    SurplusTargets();
    CostIsProduct(1, 100.0);
    CostIsProduct(11, 100.0);
    assert Trades(SurplusInputs, map["A" := 11], "A");
    var m := FilteredDeltas(SurplusInputs, SurplusTickers, map["A" := 11]);
    assert m.Keys == {"A"};
  }

  lemma SurplusHeld()
    ensures HeldCodes(SurplusTickers, SurplusInputs.positions) == SurplusTickers
  {
    assert SurplusTickers[..0] == [];
  }

  lemma SurplusWalkOrder()
    ensures forall c :: c in SurplusTickers ==> PriceOf(SurplusPrices, c) > 0.0
    ensures WalkOrder(SurplusTickers, SurplusInputs.positions, SurplusPrices) == SurplusTickers
  {
    SurplusHeld();
    assert SurplusTickers[..0] == [];
    assert SortByKey(SurplusTickers, Negated(SurplusPrices)) == SurplusTickers;
  }

  lemma SurplusWalkStep()
    ensures ExtraWalk(SurplusTickers, [], SurplusInputs.positions, SurplusPrices, Extra([], 1000.0)).lots == [Lot("A", 1)]
  {
    assert SurplusTickers[..0] == [];
    RoundLotWhole(10);
    assert ExtraStep(Extra([], 1000.0), "A", [], SurplusInputs.positions, SurplusPrices).lots == [Lot("A", 1)];
  }

  lemma SurplusWalk()
    ensures ExtraLots(SurplusInputs, SurplusTickers, [], 0.0, 1000.0) == [Lot("A", 1)]
  {
    SurplusWalkOrder();
    SurplusWalkStep();
  }

  lemma SurplusWanting()
    ensures var d := map["A" := 10];
      && SortByKey(Wanting(SurplusTickers, d, Sell), DeltaKey(d)) == []
      && SortByKey(Wanting(SurplusTickers, d, Buy), Negated(DeltaKey(d))) == SurplusTickers
  {
    var d := map["A" := 10];
    assert SurplusTickers[..0] == [];
    assert Wanting(SurplusTickers, d, Sell) == [];
    assert Wanting(SurplusTickers, d, Buy) == SurplusTickers;
    assert SortByKey(SurplusTickers, Negated(DeltaKey(d))) == SurplusTickers;
  }

  lemma SurplusSellParts()
    ensures DeficitSellPart(SurplusInputs, SurplusTickers, map["A" := 10], 1000.0).kept == [Order("A", Sell, 1, None)]
    ensures DeficitSellPart(SurplusInputs, SurplusTickers, map["A" := 10], 0.0).kept == []
  {
    SurplusWanting();
    SurplusWalk();
    RoundLotWhole(1);
    var lots := [Lot("A", 1)];
    assert lots[..0] == [];
    assert ExtraSells(lots, SurplusPrices, GuardState([], 1000.0)).kept == [Order("A", Sell, 1, None)];
  }

  lemma SurplusBuyStep()
    ensures DeficitBuys(SurplusTickers, map["A" := 10], SurplusPrices, 0, GuardState([], 1000.0)).kept == [Order("A", Buy, 10, None)]
  {
    assert SurplusTickers[..0] == [];
    RoundLotWhole(10);
    assert (1000.0 / 100.0).Floor == 10;
    assert DeficitBuyStep(GuardState([], 1000.0), "A", map["A" := 10], SurplusPrices, 0).kept == [Order("A", Buy, 10, None)];
  }

  lemma SurplusBuyPart()
    ensures DeficitBuyPart(SurplusInputs, SurplusTickers, map["A" := 10]).kept == [Order("A", Buy, 10, None)]
  {
    SurplusWanting();
    SurplusBuyStep();
    assert CalculateVirtualCash(SurplusInputs.positions, SurplusPrices, 1000.0, true).available == 1000.0;
  }

  lemma SurplusPlanWith(required: real)
    ensures DeficitPlanWith(SurplusInputs, SurplusTickers, required)
         == DeficitSellPart(SurplusInputs, SurplusTickers, map["A" := 10], required).kept + [Order("A", Buy, 10, None)]
  {
    SurplusBudget();
    SurplusDeltas();
    SurplusBuyPart();
  }

  lemma SurplusPlanAsWritten()
    ensures DeficitPlanAsWritten(SurplusInputs, SurplusTickers) == [Order("A", Sell, 1, None), Order("A", Buy, 10, None)]
  {
    var required := AbsR(SurplusInputs.cash);
    assert required == 1000.0;
    SurplusPlanWith(required);
    SurplusSellParts();
  }

  lemma SurplusPlanCorrected()
    ensures DeficitPlan(SurplusInputs, SurplusTickers) == [Order("A", Buy, 10, None)]
  {
    var required := Shortfall(SurplusInputs.cash);
    assert required == 0.0;
    SurplusPlanWith(required);
    SurplusSellParts();
  }

  /** On this input the walk as written sells the share of a code the same
      plan buys; the corrected walk leaves it alone. */
  lemma SurplusSellsAndBuysOneCode()
    ensures DeficitPlanAsWritten(SurplusInputs, SurplusTickers) == [Order("A", Sell, 1, None), Order("A", Buy, 10, None)]
    ensures DeficitPlan(SurplusInputs, SurplusTickers) == [Order("A", Buy, 10, None)]
  {
    SurplusPlanAsWritten();
    SurplusPlanCorrected();
  }
}
