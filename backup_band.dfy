/** The older planner's portfolio-level band variant
    (`plan_rebalance_with_band`): integer target quantities from the
    allocator, the band filter, the cash-weight adjustment over the
    instruments inside the band, and net SELL-then-BUY orders paid from a
    running cash balance. */
module BackupBand {
  import opened Models
  import opened Rounding
  import opened Rebalance
  import opened CashGuard
  import opened BackupAllocation

  // ---------------------------------------------------------------------
  // Steps 1-3: total value and weights

  /** `V_total`: the usable holdings' value plus the cash, negative cash
      counting as 0. */
  function TotalValue(inp: BackupInputs, usable: seq<Code>): real {
    HoldingsValue(usable, inp.positions, inp.prices) + MaxR(inp.cash, 0.0)
  }

  /** `value / V_total`, 0 when `V_total` is not positive. */
  function WeightOf(value: real, total: real): real {
    if total > 0.0 then value / total else 0.0
  }

  // ---------------------------------------------------------------------
  // Step 4-1: the band filter

  /** A code lies outside the band when its current weight and the weight of
      its target quantity differ by more than `band_pct` points. */
  predicate Violates(inp: BackupInputs, total: real, tq: map<Code, int>, c: Code) {
    var p := PriceOf(inp.prices, c);
    AbsR(WeightOf(Cost(Holding(inp.positions, c), p), total) - WeightOf(Cost(QtyOf(tq, c), p), total))
      > inp.bandPct / 100.0
  }

  /** `band_violations` (`outside == true`) or `band_compliant`, in the order
      of `codes`. */
  function Classified(inp: BackupInputs, total: real, tq: map<Code, int>, codes: seq<Code>, outside: bool): (r: seq<Code>)
    ensures forall c :: c in r <==> c in codes && Violates(inp, total, tq, c) == outside
  {
    if codes == [] then []
    else
      var c := codes[|codes| - 1];
      Classified(inp, total, tq, codes[..|codes| - 1], outside)
        + (if Violates(inp, total, tq, c) == outside then [c] else [])
  }

  lemma ClassifiedSnoc(inp: BackupInputs, total: real, tq: map<Code, int>, codes: seq<Code>, c: Code, outside: bool)
    ensures Classified(inp, total, tq, codes + [c], outside)
         == Classified(inp, total, tq, codes, outside) + (if Violates(inp, total, tq, c) == outside then [c] else [])
  {
    assert (codes + [c])[..|codes|] == codes;
  }

  lemma ClassifiedNext(inp: BackupInputs, total: real, tq: map<Code, int>, codes: seq<Code>, i: nat, outside: bool)
    requires i < |codes|
    ensures Classified(inp, total, tq, codes[..i + 1], outside)
         == Classified(inp, total, tq, codes[..i], outside) + (if Violates(inp, total, tq, codes[i]) == outside then [codes[i]] else [])
  {
    assert codes[..i + 1] == codes[..i] + [codes[i]];
    ClassifiedSnoc(inp, total, tq, codes[..i], codes[i], outside);
  }

  lemma {:induction false} ClassifiedDistinct(inp: BackupInputs, total: real, tq: map<Code, int>, codes: seq<Code>, outside: bool)
    requires Distinct(codes)
    ensures Distinct(Classified(inp, total, tq, codes, outside))
  {
    if codes != [] {
      var init := codes[..|codes| - 1];
      assert Distinct(init);
      ClassifiedDistinct(inp, total, tq, init, outside);
      assert codes[|codes| - 1] !in init;
    }
  }

  /** The loop of step 4-1: one pass that sorts every usable code into the
      violators or the compliant ones. */
  method Classify(inp: BackupInputs, total: real, tq: map<Code, int>, usable: seq<Code>)
    returns (violations: seq<Code>, compliant: seq<Code>)
    ensures violations == Classified(inp, total, tq, usable, true)
    ensures compliant == Classified(inp, total, tq, usable, false)
  {
    violations, compliant := [], [];
    for i := 0 to |usable|
      invariant violations == Classified(inp, total, tq, usable[..i], true)
      invariant compliant == Classified(inp, total, tq, usable[..i], false)
    {
      var t := usable[i];
      ClassifiedNext(inp, total, tq, usable, i, true);
      ClassifiedNext(inp, total, tq, usable, i, false);
      var p := PriceOf(inp.prices, t);
      var currentW := WeightOf(Cost(Holding(inp.positions, t), p), total);
      var targetW := WeightOf(Cost(QtyOf(tq, t), p), total);
      var outside := AbsR(currentW - targetW) > inp.bandPct / 100.0;
      assert outside == Violates(inp, total, tq, t);
      if outside {
        violations := violations + [t];
      } else {
        compliant := compliant + [t];
      }
    }
    assert usable[..|usable|] == usable;
  }

  // ---------------------------------------------------------------------
  // Step 4-2: violators move to their target quantity

  /** `adjusted_qty` after step 4-2: the codes in `moved` at their target
      quantity, every other usable code at its holding. */
  function AdjustedBy(usable: seq<Code>, moved: seq<Code>, tq: map<Code, int>, positions: Dict<int>): map<Code, int> {
    map c | c in usable :: if c in moved then QtyOf(tq, c) else Holding(positions, c)
  }

  lemma AdjustedBySnoc(usable: seq<Code>, moved: seq<Code>, t: Code, tq: map<Code, int>, positions: Dict<int>)
    requires t in usable
    ensures AdjustedBy(usable, moved + [t], tq, positions) == AdjustedBy(usable, moved, tq, positions)[t := QtyOf(tq, t)]
  {
    assert forall c :: c in moved + [t] <==> c in moved || c == t;
  }

  /** The loop of step 4-2. */
  method AdjustViolators(usable: seq<Code>, violations: seq<Code>, tq: map<Code, int>, positions: Dict<int>)
    returns (adjustedQty: map<Code, int>)
    requires forall c :: c in violations ==> c in usable
    ensures adjustedQty == AdjustedBy(usable, violations, tq, positions)
  {
    adjustedQty := map c | c in usable :: Holding(positions, c);
    assert adjustedQty == AdjustedBy(usable, [], tq, positions);
    for i := 0 to |violations|
      invariant adjustedQty == AdjustedBy(usable, violations[..i], tq, positions)
    {
      var t := violations[i];
      assert violations[..i + 1] == violations[..i] + [t];
      AdjustedBySnoc(usable, violations[..i], t, tq, positions);
      adjustedQty := adjustedQty[t := QtyOf(tq, t)];
    }
    assert violations[..|violations|] == violations;
  }

  /** After step 4-2 every usable code outside the band holds its target
      quantity and every other one its current holding. */
  lemma AdjustedAt(inp: BackupInputs, total: real, tq: map<Code, int>, usable: seq<Code>, c: Code)
    requires c in usable
    ensures var adj := AdjustedBy(usable, Classified(inp, total, tq, usable, true), tq, inp.positions);
      c in adj
      && (Violates(inp, total, tq, c) ==> adj[c] == QtyOf(tq, c))
      && (!Violates(inp, total, tq, c) ==> adj[c] == Holding(inp.positions, c))
  {
  }

  // ---------------------------------------------------------------------
  // Step 4-4: the cash-weight adjustment

  /** `sum((target_qty[t] * prices[t]) / V_total for t in codes)` */
  function TargetWeightSum(codes: seq<Code>, tq: map<Code, int>, prices: map<Code, real>, total: real): real
    requires total > 0.0
  {
    if codes == [] then 0.0
    else
      var c := codes[|codes| - 1];
      TargetWeightSum(codes[..|codes| - 1], tq, prices, total) + Cost(QtyOf(tq, c), PriceOf(prices, c)) / total
  }

  /** `target_cash_weight`: one less the target weights; the sum is empty
      when `V_total` is not positive. */
  function TargetCashWeight(usable: seq<Code>, tq: map<Code, int>, prices: map<Code, real>, total: real): real {
    1.0 - (if total > 0.0 then TargetWeightSum(usable, tq, prices, total) else 0.0)
  }

  /** `adjusted_cash = cash + (V_total - (adjusted_portfolio_value + cash))` */
  function AdjustedCash(inp: BackupInputs, usable: seq<Code>, total: real, adj: map<Code, int>): real {
    inp.cash + (total - (Spent(usable, adj, inp.prices) + inp.cash))
  }

  /** `cash_adjustment_final`: the target cash value less the adjusted
      cash. */
  function CashGap(inp: BackupInputs, usable: seq<Code>, total: real, tq: map<Code, int>, adj: map<Code, int>): real {
    total * TargetCashWeight(usable, tq, inp.prices, total) - AdjustedCash(inp, usable, total, adj)
  }

  /** The cash weight lies outside the band and the gap exceeds one won. */
  predicate NeedsCashFix(inp: BackupInputs, usable: seq<Code>, total: real, tq: map<Code, int>, adj: map<Code, int>) {
    && AbsR(WeightOf(AdjustedCash(inp, usable, total, adj), total) - TargetCashWeight(usable, tq, inp.prices, total))
         > inp.bandPct / 100.0
    && AbsR(CashGap(inp, usable, total, tq, adj)) > 1.0
  }

  /** Which of the two loops of step 4-4 runs: `Add` buys one share at a
      time out of surplus cash; `TrimAsWritten` sells one share at a time to
      cover a cash shortfall, as the source does it, whether or not a share
      is held; `Trim` is that loop skipping codes with no share left. */
  datatype Nudge = Add | Trim | TrimAsWritten

  /** One pass of the loop body: stop once the amount is used up (the
      `break`), otherwise move one share when its price fits into the
      amount. */
  function NudgeStep(st: Topup, c: Code, prices: map<Code, real>, dir: Nudge): Topup {
    var p := PriceOf(prices, c);
    if st.leftover <= 0.0 then st
    else if dir == Trim && QtyOf(st.qty, c) <= 0 then st
    else if p <= st.leftover then
      Topup(st.qty[c := QtyOf(st.qty, c) + (if dir == Add then 1 else -1)], st.leftover - p)
    else st
  }

  function Nudges(codes: seq<Code>, prices: map<Code, real>, st: Topup, dir: Nudge): Topup {
    if codes == [] then st
    else NudgeStep(Nudges(codes[..|codes| - 1], prices, st, dir), codes[|codes| - 1], prices, dir)
  }

  lemma NudgesSnoc(codes: seq<Code>, c: Code, prices: map<Code, real>, st: Topup, dir: Nudge)
    ensures Nudges(codes + [c], prices, st, dir) == NudgeStep(Nudges(codes, prices, st, dir), c, prices, dir)
  {
    assert (codes + [c])[..|codes|] == codes;
  }

  /** Once the amount is used up the remaining codes change nothing, so
      leaving the loop there (the `break`) gives the same quantities. */
  lemma {:induction false} NudgesStop(codes: seq<Code>, prices: map<Code, real>, st: Topup, dir: Nudge, n: nat)
    requires n <= |codes|
    requires Nudges(codes[..n], prices, st, dir).leftover <= 0.0
    ensures Nudges(codes, prices, st, dir) == Nudges(codes[..n], prices, st, dir)
    decreases |codes| - n
  {
    if n < |codes| {
      assert codes[..n + 1] == codes[..n] + [codes[n]];
      NudgesSnoc(codes[..n], codes[n], prices, st, dir);
      NudgesStop(codes, prices, st, dir, n + 1);
    } else {
      assert codes[..n] == codes;
    }
  }

  /** `adjusted_qty` after step 4-4: unchanged unless the cash weight needs
      fixing; then, over the compliant codes in ascending price order, one
      share more per code while the surplus lasts, or one share less per
      code while the shortfall lasts. */
  function CashFixed(inp: BackupInputs, usable: seq<Code>, total: real, tq: map<Code, int>, adj: map<Code, int>,
                     compliant: seq<Code>, trim: Nudge): map<Code, int>
  {
    if !NeedsCashFix(inp, usable, total, tq, adj) then adj
    else if CashGap(inp, usable, total, tq, adj) > 0.0 then
      Nudges(SortByKey(compliant, inp.prices), inp.prices, Topup(adj, CashGap(inp, usable, total, tq, adj)), trim).qty
    else
      Nudges(SortByKey(compliant, inp.prices), inp.prices, Topup(adj, -CashGap(inp, usable, total, tq, adj)), Add).qty
  }

  /** One share less of a code listed once takes its price off the sum. */
  lemma {:induction false} SpentDrop(codes: seq<Code>, m: map<Code, int>, c: Code, prices: map<Code, real>)
    requires Distinct(codes) && c in codes
    ensures Spent(codes, m[c := QtyOf(m, c) - 1], prices) == Spent(codes, m, prices) - PriceOf(prices, c)
  {
    var init := codes[..|codes| - 1];
    var last := codes[|codes| - 1];
    var m' := m[c := QtyOf(m, c) - 1];
    assert Distinct(init);
    if last == c {
      assert c !in init;
      SpentFrame(init, m, c, QtyOf(m, c) - 1, prices);
      CostSucc(QtyOf(m, c) - 1, PriceOf(prices, c));
    } else {
      assert c in init;
      SpentDrop(init, m, c, prices);
      assert QtyOf(m', last) == QtyOf(m, last);
    }
  }

  /** The adjustment loops trade cash for shares at their prices: the amount
      they use up is exactly the value of the shares they add (or remove),
      and the amount never goes negative. */
  lemma {:induction false} NudgesBalance(codes: seq<Code>, usable: seq<Code>, prices: map<Code, real>, st: Topup, dir: Nudge)
    requires Distinct(usable) && forall c :: c in codes ==> c in usable && PriceOf(prices, c) > 0.0
    requires st.leftover >= 0.0
    ensures var r := Nudges(codes, prices, st, dir);
      var sign := if dir == Add then 1.0 else -1.0;
      && Spent(usable, r.qty, prices) - sign * (st.leftover - r.leftover) == Spent(usable, st.qty, prices)
      && 0.0 <= r.leftover <= st.leftover
  {
    if codes != [] {
      var init := codes[..|codes| - 1];
      var c := codes[|codes| - 1];
      NudgesBalance(init, usable, prices, st, dir);
      var prev := Nudges(init, prices, st, dir);
      var r := NudgeStep(prev, c, prices, dir);
      if r != prev {
        if dir == Add {
          SpentBump(usable, prev.qty, c, prices);
        } else {
          SpentDrop(usable, prev.qty, c, prices);
        }
      }
    }
  }

  /** Each code moves by at most one share, in the loop's direction, and only
      codes the loop visits move at all. */
  lemma {:induction false} NudgesAtMostOne(codes: seq<Code>, prices: map<Code, real>, st: Topup, dir: Nudge, c: Code)
    requires Distinct(codes)
    ensures var r := Nudges(codes, prices, st, dir);
      var moved := QtyOf(r.qty, c) - QtyOf(st.qty, c);
      && (c !in codes ==> moved == 0)
      && (dir == Add ==> 0 <= moved <= 1)
      && (dir != Add ==> -1 <= moved <= 0)
    ensures forall k :: k in st.qty ==> k in Nudges(codes, prices, st, dir).qty
  {
    if codes != [] {
      var init := codes[..|codes| - 1];
      var last := codes[|codes| - 1];
      assert Distinct(init);
      NudgesAtMostOne(init, prices, st, dir, c);
      if last == c {
        assert c !in init;
      } else {
        assert c in codes <==> c in init;
      }
    }
  }

  /** With the corrected shortfall loop no quantity drops below zero. */
  lemma {:induction false} NudgesNotNegative(codes: seq<Code>, prices: map<Code, real>, st: Topup, dir: Nudge, c: Code)
    requires dir != TrimAsWritten
    requires QtyOf(st.qty, c) >= 0
    ensures QtyOf(Nudges(codes, prices, st, dir).qty, c) >= 0
  {
    if codes != [] {
      NudgesNotNegative(codes[..|codes| - 1], prices, st, dir, c);
    }
  }

  /** The loops of step 4-4, each with its `break`; the shortfall loop as
      written or corrected, as `dir` says. */
  method NudgeLoop(order: seq<Code>, prices: map<Code, real>, qty0: map<Code, int>, amount0: real, dir: Nudge)
    returns (adjustedQty: map<Code, int>)
    ensures adjustedQty == Nudges(order, prices, Topup(qty0, amount0), dir).qty
  {
    adjustedQty := qty0;
    var amount := amount0;
    for j := 0 to |order|
      invariant Topup(adjustedQty, amount) == Nudges(order[..j], prices, Topup(qty0, amount0), dir)
    {
      if amount <= 0.0 {
        NudgesStop(order, prices, Topup(qty0, amount0), dir, j);
        return;
      }
      var t := order[j];
      ghost var before := Topup(adjustedQty, amount);
      var p := PriceOf(prices, t);
      if dir == Add {
        if p <= amount {
          adjustedQty := adjustedQty[t := QtyOf(adjustedQty, t) + 1];
          amount := amount - p;
        }
      } else {
        if p <= amount && (dir == TrimAsWritten || QtyOf(adjustedQty, t) > 0) {
          adjustedQty := adjustedQty[t := QtyOf(adjustedQty, t) - 1];
          amount := amount - p;
        }
      }
      assert Topup(adjustedQty, amount) == NudgeStep(before, t, prices, dir);
      assert order[..j + 1] == order[..j] + [t];
      NudgesSnoc(order[..j], t, prices, Topup(qty0, amount0), dir);
    }
    assert order[..|order|] == order;
  }

  // ---------------------------------------------------------------------
  // Step 5: net deltas

  /** `deltas`: the adjusted quantity less the holding, per usable code. */
  function BandDeltas(usable: seq<Code>, qty: map<Code, int>, positions: Dict<int>): map<Code, int> {
    map c | c in usable :: QtyOf(qty, c) - Holding(positions, c)
  }

  function DeltaOf(d: map<Code, int>, c: Code): int {
    if c in d then d[c] else 0
  }

  /** The deltas as a sort key. */
  function DeltaKey(d: map<Code, int>): (r: map<Code, real>)
    ensures forall c :: KeyOf(r, c) == DeltaOf(d, c) as real
  {
    map c | c in d :: d[c] as real
  }

  /** A SELL is wanted for a negative delta, a BUY for a positive one. */
  predicate Wants(d: map<Code, int>, c: Code, side: Side) {
    if side == Sell then DeltaOf(d, c) < 0 else DeltaOf(d, c) > 0
  }

  /** `sells` or `buys`, in the order of `codes`. */
  function Wanting(codes: seq<Code>, d: map<Code, int>, side: Side): (r: seq<Code>)
    ensures forall c :: c in r <==> c in codes && Wants(d, c, side)
  {
    if codes == [] then []
    else
      var c := codes[|codes| - 1];
      Wanting(codes[..|codes| - 1], d, side) + (if Wants(d, c, side) then [c] else [])
  }

  lemma {:induction false} WantingDistinct(codes: seq<Code>, d: map<Code, int>, side: Side)
    requires Distinct(codes)
    ensures Distinct(Wanting(codes, d, side))
  {
    if codes != [] {
      var init := codes[..|codes| - 1];
      assert Distinct(init);
      WantingDistinct(init, d, side);
      assert codes[|codes| - 1] !in init;
    }
  }

  // ---------------------------------------------------------------------
  // Step 6-1: the SELL pass

  /** One SELL of step 6-1: the size of the delta, capped per order, credited
      to the running cash; nothing for an unpriced code or a quantity that
      comes to zero. */
  function BandSellStep(st: GuardState, c: Code, d: map<Code, int>, prices: map<Code, real>, maxOrderValue: int): GuardState {
    var price := PriceOf(prices, c);
    var qty := Abs(DeltaOf(d, c));
    if qty <= 0 || price <= 0.0 then st
    else
      var q := CapQty(qty, price, maxOrderValue);
      if q <= 0 then st
      else GuardState(st.kept + [Order(c, Sell, q, None)], st.cash + Cost(q, price))
  }

  function BandSells(codes: seq<Code>, d: map<Code, int>, prices: map<Code, real>, maxOrderValue: int, st: GuardState): GuardState {
    if codes == [] then st
    else BandSellStep(BandSells(codes[..|codes| - 1], d, prices, maxOrderValue, st), codes[|codes| - 1], d, prices, maxOrderValue)
  }

  lemma BandSellsSnoc(codes: seq<Code>, c: Code, d: map<Code, int>, prices: map<Code, real>, maxOrderValue: int, st: GuardState)
    ensures BandSells(codes + [c], d, prices, maxOrderValue, st)
         == BandSellStep(BandSells(codes, d, prices, maxOrderValue, st), c, d, prices, maxOrderValue)
  {
    assert (codes + [c])[..|codes|] == codes;
  }

  /** What the SELL pass holds: the running cash is the starting cash
      credited with the SELLs' notional, each code is sold once, from the
      pass's codes, priced, of positive quantity no larger than the
      shortfall of its delta, at market. */
  predicate SellsSound(st: GuardState, d: map<Code, int>, codes: seq<Code>, prices: map<Code, real>, c0: real) {
    && st.cash == c0 + CashDelta(st.kept, prices)
    && CodesUnique(st.kept)
    && (forall i :: 0 <= i < |st.kept| ==>
          && st.kept[i].side == Sell && st.kept[i].limit == None
          && 0 < st.kept[i].qty <= -DeltaOf(d, st.kept[i].code)
          && st.kept[i].code in codes && PriceOf(prices, st.kept[i].code) > 0.0)
  }

  lemma BandSellStepSound(st: GuardState, c: Code, d: map<Code, int>, prices: map<Code, real>, maxOrderValue: int,
                          codes: seq<Code>, c0: real)
    requires SellsSound(st, d, codes, prices, c0)
    requires DeltaOf(d, c) < 0 && c !in codes
    ensures SellsSound(BandSellStep(st, c, d, prices, maxOrderValue), d, codes + [c], prices, c0)
  {
    var r := BandSellStep(st, c, d, prices, maxOrderValue);
    var price := PriceOf(prices, c);
    if r != st {
      var q := CapQty(-DeltaOf(d, c), price, maxOrderValue);
      var o := Order(c, Sell, q, None);
      assert r == GuardState(st.kept + [o], st.cash + Cost(q, price));
      CashDeltaSnoc(st.kept, o, prices);
      assert CashEffect(o, prices) == Cost(q, price);
      assert forall i :: 0 <= i < |st.kept| ==> r.kept[i] == st.kept[i];
    }
  }

  lemma {:induction false} BandSellsSound(codes: seq<Code>, d: map<Code, int>, prices: map<Code, real>, maxOrderValue: int, c0: real)
    requires Distinct(codes) && forall c :: c in codes ==> DeltaOf(d, c) < 0
    ensures SellsSound(BandSells(codes, d, prices, maxOrderValue, GuardState([], c0)), d, codes, prices, c0)
  {
    if codes != [] {
      var init := codes[..|codes| - 1];
      var c := codes[|codes| - 1];
      assert codes == init + [c];
      assert Distinct(init) && c !in init;
      BandSellsSound(init, d, prices, maxOrderValue, c0);
      BandSellStepSound(BandSells(init, d, prices, maxOrderValue, GuardState([], c0)), c, d, prices, maxOrderValue, init, c0);
    }
  }

  // ---------------------------------------------------------------------
  // Step 6-2: the BUY pass

  /** One BUY of step 6-2: the delta, no more than the whole shares the
      running cash pays for, capped per order and debited; nothing for an
      unpriced code, when no whole share is affordable, or when the quantity
      comes to zero. */
  function BandBuyStep(st: GuardState, c: Code, d: map<Code, int>, prices: map<Code, real>, maxOrderValue: int): GuardState {
    var price := PriceOf(prices, c);
    var qty := DeltaOf(d, c);
    if qty <= 0 || price <= 0.0 then st
    else
      var affordable := (st.cash / price).Floor;
      if affordable <= 0 then st
      else
        var q := CapQty(Min(qty, affordable), price, maxOrderValue);
        if q <= 0 then st
        else GuardState(st.kept + [Order(c, Buy, q, None)], st.cash - Cost(q, price))
  }

  function BandBuys(codes: seq<Code>, d: map<Code, int>, prices: map<Code, real>, maxOrderValue: int, st: GuardState): GuardState {
    if codes == [] then st
    else BandBuyStep(BandBuys(codes[..|codes| - 1], d, prices, maxOrderValue, st), codes[|codes| - 1], d, prices, maxOrderValue)
  }

  lemma BandBuysSnoc(codes: seq<Code>, c: Code, d: map<Code, int>, prices: map<Code, real>, maxOrderValue: int, st: GuardState)
    ensures BandBuys(codes + [c], d, prices, maxOrderValue, st)
         == BandBuyStep(BandBuys(codes, d, prices, maxOrderValue, st), c, d, prices, maxOrderValue)
  {
    assert (codes + [c])[..|codes|] == codes;
  }

  /** A BUY of step 6-2 is a step the cash guard also allows for a BUY of the
      whole delta: the delta or fewer shares, paid out of cash that covers
      them. */
  lemma BandBuyStepAllowed(st: GuardState, c: Code, d: map<Code, int>, prices: map<Code, real>, maxOrderValue: int)
    ensures StepAllowed(st, BandBuyStep(st, c, d, prices, maxOrderValue), Order(c, Buy, DeltaOf(d, c), None), prices)
  {
    var r := BandBuyStep(st, c, d, prices, maxOrderValue);
    if r != st {
      var price := PriceOf(prices, c);
      var affordable := (st.cash / price).Floor;
      var q := CapQty(Min(DeltaOf(d, c), affordable), price, maxOrderValue);
      assert r == GuardState(st.kept + [Order(c, Buy, q, None)], st.cash - Cost(q, price));
      assert r.kept[..|st.kept|] == st.kept;
      assert q as real <= st.cash / price;
      CostIsProduct(q, price);
      DivBounds(st.cash, price, q as real);
    }
  }

  /** What the BUY pass adds after `start`: BUYs of distinct codes from the
      pass's codes, each of positive quantity no larger than its delta, at
      market. */
  predicate BuysAdded(start: GuardState, r: GuardState, d: map<Code, int>, codes: seq<Code>) {
    && |start.kept| <= |r.kept| && r.kept[..|start.kept|] == start.kept
    && (forall j :: |start.kept| <= j < |r.kept| ==>
          && r.kept[j].side == Buy && r.kept[j].limit == None
          && 0 < r.kept[j].qty <= DeltaOf(d, r.kept[j].code) && r.kept[j].code in codes)
    && (forall j, k :: |start.kept| <= j < k < |r.kept| ==> r.kept[j].code != r.kept[k].code)
  }

  lemma BandBuyStepAdded(start: GuardState, st: GuardState, c: Code, d: map<Code, int>, prices: map<Code, real>,
                         maxOrderValue: int, codes: seq<Code>)
    requires BuysAdded(start, st, d, codes) && c !in codes
    ensures BuysAdded(start, BandBuyStep(st, c, d, prices, maxOrderValue), d, codes + [c])
  {
    var r := BandBuyStep(st, c, d, prices, maxOrderValue);
    if r != st {
      var price := PriceOf(prices, c);
      var q := CapQty(Min(DeltaOf(d, c), (st.cash / price).Floor), price, maxOrderValue);
      var o := Order(c, Buy, q, None);
      assert r.kept == st.kept + [o];
      assert r.kept[..|start.kept|] == st.kept[..|start.kept|];
      assert forall j :: 0 <= j < |st.kept| ==> r.kept[j] == st.kept[j];
    }
  }

  lemma {:induction false} BandBuysAdded(codes: seq<Code>, d: map<Code, int>, prices: map<Code, real>, maxOrderValue: int, start: GuardState)
    requires Distinct(codes)
    ensures BuysAdded(start, BandBuys(codes, d, prices, maxOrderValue, start), d, codes)
  {
    if codes == [] {
      assert start.kept[..|start.kept|] == start.kept;
    } else {
      var init := codes[..|codes| - 1];
      var c := codes[|codes| - 1];
      assert codes == init + [c];
      assert Distinct(init) && c !in init;
      BandBuysAdded(init, d, prices, maxOrderValue, start);
      BandBuyStepAdded(start, BandBuys(init, d, prices, maxOrderValue, start), c, d, prices, maxOrderValue, init);
    }
  }

  /** Replaying the BUY pass from its starting cash never overdraws after a
      BUY. */
  lemma {:induction false} BandBuysReplay(codes: seq<Code>, d: map<Code, int>, prices: map<Code, real>, maxOrderValue: int,
                                          start: GuardState, c0: real)
    requires start.cash == c0 + CashDelta(start.kept, prices)
    ensures Replayed(start, BandBuys(codes, d, prices, maxOrderValue, start), c0, prices)
  {
    if codes == [] {
      assert start.kept[..|start.kept|] == start.kept;
    } else {
      var init := codes[..|codes| - 1];
      var c := codes[|codes| - 1];
      BandBuysReplay(init, d, prices, maxOrderValue, start, c0);
      var prev := BandBuys(init, d, prices, maxOrderValue, start);
      BandBuyStepAllowed(prev, c, d, prices, maxOrderValue);
      ReplayedStep(start, prev, BandBuyStep(prev, c, d, prices, maxOrderValue), Order(c, Buy, DeltaOf(d, c), None), c0, prices);
    }
  }

  // ---------------------------------------------------------------------
  // Step 6: the plan

  /** The SELL pass over `sells` by ascending delta (most over-weight
      first), then the BUY pass over `buys` by descending delta, paid from
      the cash the SELLs leave. */
  function Assemble(d: map<Code, int>, sells: seq<Code>, buys: seq<Code>, prices: map<Code, real>,
                    cash: real, maxOrderValue: int): seq<Order>
  {
    BandBuys(SortByKey(buys, Negated(DeltaKey(d))), d, prices, maxOrderValue,
             BandSells(SortByKey(sells, DeltaKey(d)), d, prices, maxOrderValue, GuardState([], cash))).kept
  }

  /** The loops of step 6: one SELL per code of `sellOrder`, crediting the
      running cash, then one BUY per code of `buyOrder`, as far as that cash
      pays for. */
  method PlaceOrders(d: map<Code, int>, sellOrder: seq<Code>, buyOrder: seq<Code>, prices: map<Code, real>,
                     cash: real, maxOrderValue: int)
    returns (plan: seq<Order>)
    ensures plan == BandBuys(buyOrder, d, prices, maxOrderValue, BandSells(sellOrder, d, prices, maxOrderValue, GuardState([], cash))).kept
  {
    plan := [];
    var currentCash := cash;
    for i := 0 to |sellOrder|
      invariant GuardState(plan, currentCash) == BandSells(sellOrder[..i], d, prices, maxOrderValue, GuardState([], cash))
    {
      var t := sellOrder[i];
      assert sellOrder[..i + 1] == sellOrder[..i] + [t];
      BandSellsSnoc(sellOrder[..i], t, d, prices, maxOrderValue, GuardState([], cash));
      var price := PriceOf(prices, t);
      var qty := Abs(DeltaOf(d, t));
      if qty <= 0 || price <= 0.0 {
        continue;
      }
      if maxOrderValue != 0 {
        qty := ClampOrderValue(qty, price, maxOrderValue);
        if qty <= 0 {
          continue;
        }
      }
      plan := plan + [Order(t, Sell, qty, None)];
      currentCash := currentCash + Cost(qty, price);
    }
    assert sellOrder[..|sellOrder|] == sellOrder;
    ghost var afterSells := GuardState(plan, currentCash);
    for i := 0 to |buyOrder|
      invariant GuardState(plan, currentCash) == BandBuys(buyOrder[..i], d, prices, maxOrderValue, afterSells)
    {
      var t := buyOrder[i];
      assert buyOrder[..i + 1] == buyOrder[..i] + [t];
      BandBuysSnoc(buyOrder[..i], t, d, prices, maxOrderValue, afterSells);
      var price := PriceOf(prices, t);
      var qty := DeltaOf(d, t);
      if qty <= 0 || price <= 0.0 {
        continue;
      }
      var affordable := (currentCash / price).Floor;
      if affordable <= 0 {
        continue;
      }
      var buyQty := Min(qty, affordable);
      if maxOrderValue != 0 {
        buyQty := ClampOrderValue(buyQty, price, maxOrderValue);
        if buyQty <= 0 {
          continue;
        }
      }
      plan := plan + [Order(t, Buy, buyQty, None)];
      currentCash := currentCash - Cost(buyQty, price);
    }
    assert buyOrder[..|buyOrder|] == buyOrder;
  }

  /** What the band planner promises of its plan: SELLs first, each code
      once, positive quantities at market for priced codes, no SELL beyond
      the negative delta and no BUY beyond the positive one, and a running
      cash balance (the cash, plus every SELL, less the BUYs so far) that is
      never negative after a BUY. */
  predicate PlanSound(plan: seq<Order>, d: map<Code, int>, prices: map<Code, real>, cash: real) {
    && SellsBeforeBuys(plan)
    && CodesUnique(plan)
    && (forall i :: 0 <= i < |plan| ==>
          && plan[i].qty > 0 && plan[i].limit == None && PriceOf(prices, plan[i].code) > 0.0
          && (plan[i].side == Sell ==> plan[i].qty <= -DeltaOf(d, plan[i].code))
          && (plan[i].side == Buy ==> plan[i].qty <= DeltaOf(d, plan[i].code)))
    && (forall n :: 0 < n <= |plan| && plan[n - 1].side == Buy ==> CashAfter(cash, plan, n, prices) >= 0.0)
  }

  lemma AssembleSound(d: map<Code, int>, sells: seq<Code>, buys: seq<Code>, prices: map<Code, real>,
                      cash: real, maxOrderValue: int)
    requires Distinct(sells) && forall c :: c in sells ==> DeltaOf(d, c) < 0
    requires Distinct(buys) && forall c :: c in buys ==> DeltaOf(d, c) > 0
    ensures PlanSound(Assemble(d, sells, buys, prices, cash, maxOrderValue), d, prices, cash)
  {
    var sellOrder := SortByKey(sells, DeltaKey(d));
    var buyOrder := SortByKey(buys, Negated(DeltaKey(d)));
    SortByKeyDistinct(sells, DeltaKey(d));
    SortByKeyDistinct(buys, Negated(DeltaKey(d)));
    SortByKeyMembers(sells, DeltaKey(d));
    SortByKeyMembers(buys, Negated(DeltaKey(d)));
    var start := BandSells(sellOrder, d, prices, maxOrderValue, GuardState([], cash));
    BandSellsSound(sellOrder, d, prices, maxOrderValue, cash);
    var r := BandBuys(buyOrder, d, prices, maxOrderValue, start);
    BandBuysAdded(buyOrder, d, prices, maxOrderValue, start);
    BandBuysReplay(buyOrder, d, prices, maxOrderValue, start, cash);
    var plan := r.kept;
    assert plan == Assemble(d, sells, buys, prices, cash, maxOrderValue);
    var m := |start.kept|;
    PrefixElements(plan, start.kept);
    forall i | 0 <= i < |plan| ensures plan[i].qty > 0 && plan[i].limit == None && PriceOf(prices, plan[i].code) > 0.0
      && (plan[i].side == Sell ==> plan[i].qty <= -DeltaOf(d, plan[i].code))
      && (plan[i].side == Buy ==> plan[i].qty <= DeltaOf(d, plan[i].code))
      && (i < m <==> plan[i].side == Sell)
    {
      if i >= m {
        assert plan[i].code in buyOrder;
      }
    }
    forall j, k | 0 <= j < k < |plan| ensures plan[j].code != plan[k].code {
      if k < m {
        assert plan[j] == start.kept[j] && plan[k] == start.kept[k];
      }
    }
  }

  // ---------------------------------------------------------------------
  // plan_rebalance_with_band

  /** `budget = V_total * (1 - reserve_ratio)` */
  function BandBudget(inp: BackupInputs, usable: seq<Code>): real {
    TotalValue(inp, usable) * (1.0 - inp.reserveRatio)
  }

  /** `target_qty`: the allocator's integer quantities for the budget. */
  function BandTargets(inp: BackupInputs, usable: seq<Code>): map<Code, int>
    requires forall c :: c in usable ==> PriceOf(inp.prices, c) > 0.0
  {
    Allocation(usable, inp.targets, inp.prices, BandBudget(inp, usable))
  }

  /** `adjusted_qty` after step 4-2. */
  function BandAdjusted(inp: BackupInputs, usable: seq<Code>, tq: map<Code, int>): map<Code, int> {
    AdjustedBy(usable, Classified(inp, TotalValue(inp, usable), tq, usable, true), tq, inp.positions)
  }

  /** `adjusted_qty` after step 4-4, with the shortfall loop `trim`. */
  function BandQty(inp: BackupInputs, usable: seq<Code>, trim: Nudge): map<Code, int>
    requires forall c :: c in usable ==> PriceOf(inp.prices, c) > 0.0
  {
    var tq := BandTargets(inp, usable);
    CashFixed(inp, usable, TotalValue(inp, usable), tq, BandAdjusted(inp, usable, tq),
              Classified(inp, TotalValue(inp, usable), tq, usable, false), trim)
  }

  /** `deltas` for the usable codes. */
  function BandDeltasOf(inp: BackupInputs, usable: seq<Code>, trim: Nudge): map<Code, int>
    requires forall c :: c in usable ==> PriceOf(inp.prices, c) > 0.0
  {
    BandDeltas(usable, BandQty(inp, usable, trim), inp.positions)
  }

  /** The plan of `plan_rebalance_with_band`: nothing when no code has a
      usable price; otherwise the SELLs and BUYs of the net deltas. */
  function BandPlanWith(inp: BackupInputs, tickers: seq<Code>, trim: Nudge): seq<Order> {
    var usable := Usable(tickers, inp.prices);
    if usable == [] then []
    else
      var d := BandDeltasOf(inp, usable, trim);
      Assemble(d, Wanting(usable, d, Sell), Wanting(usable, d, Buy), inp.prices, inp.cash, inp.maxOrderValue)
  }

  /** The band planner with the shortfall loop corrected to skip codes with
      no share left. */
  function BandPlan(inp: BackupInputs, tickers: seq<Code>): seq<Order> {
    BandPlanWith(inp, tickers, Trim)
  }

  /** Step 4-4, with the shortfall loop `trim`: when the cash weight is
      outside the band, trim (shortfall) or add (surplus) one share at a
      time over the compliant codes by ascending price. */
  method FixCash(inp: BackupInputs, usable: seq<Code>, total: real, tq: map<Code, int>, adj: map<Code, int>,
                 compliant: seq<Code>, trim: Nudge)
    returns (adjustedQty: map<Code, int>)
    ensures adjustedQty == CashFixed(inp, usable, total, tq, adj, compliant, trim)
  {
    adjustedQty := adj;
    if NeedsCashFix(inp, usable, total, tq, adj) {
      var gap := CashGap(inp, usable, total, tq, adj);
      var order := SortByKey(compliant, inp.prices);
      if gap > 0.0 {
        adjustedQty := NudgeLoop(order, inp.prices, adj, gap, trim);
      } else {
        adjustedQty := NudgeLoop(order, inp.prices, adj, -gap, Add);
      }
    }
  }

  /** `plan_rebalance_with_band` as a procedure, with the shortfall loop
      `trim`: `TrimAsWritten` runs the source as it stands, `Trim` the
      corrected loop that `BandPlan` uses. */
  method PlanRebalanceWithBand(inp: BackupInputs, tickers: seq<Code>, trim: Nudge) returns (plan: seq<Order>)
    ensures plan == BandPlanWith(inp, tickers, trim)
  {
    var usable := Usable(tickers, inp.prices);
    if usable == [] {
      return [];
    }
    var total := TotalValue(inp, usable);
    var budget := BandBudget(inp, usable);
    var targetQty := Allocate(usable, inp.targets, inp.prices, budget);
    var violations, compliant := Classify(inp, total, targetQty, usable);
    var adjustedQty := AdjustViolators(usable, violations, targetQty, inp.positions);
    assert targetQty == BandTargets(inp, usable);
    assert adjustedQty == BandAdjusted(inp, usable, targetQty);
    adjustedQty := FixCash(inp, usable, total, targetQty, adjustedQty, compliant, trim);
    assert adjustedQty == BandQty(inp, usable, trim);
    var deltas := BandDeltas(usable, adjustedQty, inp.positions);
    var sells := Wanting(usable, deltas, Sell);
    var buys := Wanting(usable, deltas, Buy);
    plan := PlaceOrders(deltas, SortByKey(sells, DeltaKey(deltas)), SortByKey(buys, Negated(DeltaKey(deltas))),
                        inp.prices, inp.cash, inp.maxOrderValue);
  }

  /** The band planner's plan, with either shortfall loop, is empty when no
      code is usable and otherwise sound for the net deltas. */
  lemma BandPlanCorrect(inp: BackupInputs, tickers: seq<Code>, trim: Nudge)
    requires Distinct(tickers)
    ensures Usable(tickers, inp.prices) == [] ==> BandPlanWith(inp, tickers, trim) == []
    ensures Usable(tickers, inp.prices) != [] ==>
      PlanSound(BandPlanWith(inp, tickers, trim), BandDeltasOf(inp, Usable(tickers, inp.prices), trim), inp.prices, inp.cash)
  {
    var usable := Usable(tickers, inp.prices);
    if usable != [] {
      UsableDistinct(tickers, inp.prices);
      var d := BandDeltasOf(inp, usable, trim);
      WantingDistinct(usable, d, Sell);
      WantingDistinct(usable, d, Buy);
      AssembleSound(d, Wanting(usable, d, Sell), Wanting(usable, d, Buy), inp.prices, inp.cash, inp.maxOrderValue);
    }
  }

  /** With no negative holding, the corrected planner never plans a
      negative quantity for a usable code. */
  lemma BandQtyNotNegative(inp: BackupInputs, usable: seq<Code>, c: Code)
    requires Distinct(usable) && forall k :: k in usable ==> PriceOf(inp.prices, k) > 0.0
    requires forall k :: Holding(inp.positions, k) >= 0
    requires c in usable
    ensures QtyOf(BandQty(inp, usable, Trim), c) >= 0
  {
    var tq := BandTargets(inp, usable);
    var total := TotalValue(inp, usable);
    var adj := BandAdjusted(inp, usable, tq);
    BandAdjustedNotNegative(inp, usable, c);
    CashFixedNotNegative(inp, usable, total, tq, adj, Classified(inp, total, tq, usable, false), c);
  }

  /** Step 4-2 leaves a usable code at its target or at its holding, both
      non-negative. */
  lemma BandAdjustedNotNegative(inp: BackupInputs, usable: seq<Code>, c: Code)
    requires Distinct(usable) && forall k :: k in usable ==> PriceOf(inp.prices, k) > 0.0
    requires forall k :: Holding(inp.positions, k) >= 0
    requires c in usable
    ensures QtyOf(BandAdjusted(inp, usable, BandTargets(inp, usable)), c) >= 0
  {
    var budget := BandBudget(inp, usable);
    AllocationShares(usable, inp.targets, inp.prices, budget);
    FirstPassAt(usable, inp.targets, inp.prices, budget, c);
    FloorSharesFit(budget, Get(inp.targets, c, 0.0), PriceOf(inp.prices, c));
    assert QtyOf(BandTargets(inp, usable), c) >= 0;
    AdjustedAt(inp, TotalValue(inp, usable), BandTargets(inp, usable), usable, c);
  }

  /** The corrected step 4-4 keeps a non-negative quantity non-negative. */
  lemma CashFixedNotNegative(inp: BackupInputs, usable: seq<Code>, total: real, tq: map<Code, int>, adj: map<Code, int>,
                             compliant: seq<Code>, c: Code)
    requires QtyOf(adj, c) >= 0
    ensures QtyOf(CashFixed(inp, usable, total, tq, adj, compliant, Trim), c) >= 0
  {
    var order := SortByKey(compliant, inp.prices);
    var gap := CashGap(inp, usable, total, tq, adj);
    NudgesNotNegative(order, inp.prices, Topup(adj, gap), Trim, c);
    NudgesNotNegative(order, inp.prices, Topup(adj, -gap), Add, c);
  }

  /** With no negative holding, the corrected planner never sells more of a
      code than is held. */
  lemma BandSellsWithinHoldings(inp: BackupInputs, tickers: seq<Code>)
    requires Distinct(tickers)
    requires forall k :: Holding(inp.positions, k) >= 0
    ensures var plan := BandPlan(inp, tickers);
      forall i :: 0 <= i < |plan| && plan[i].side == Sell ==> plan[i].qty <= Holding(inp.positions, plan[i].code)
  {
    var usable := Usable(tickers, inp.prices);
    BandPlanCorrect(inp, tickers, Trim);
    if usable != [] {
      UsableDistinct(tickers, inp.prices);
      var plan := BandPlan(inp, tickers);
      var d := BandDeltasOf(inp, usable, Trim);
      forall i | 0 <= i < |plan| && plan[i].side == Sell ensures plan[i].qty <= Holding(inp.positions, plan[i].code) {
        var c := plan[i].code;
        assert DeltaOf(d, c) < 0;
        assert c in usable;
        BandQtyNotNegative(inp, usable, c);
      }
    }
  }

  // ---------------------------------------------------------------------
  // The shortfall loop as written
  //
  // Three codes, A and C held at 10 shares of 100.0 with target 0.4, B not
  // held at 50.0 with target 0.0, no cash, a 15% band, no order cap and a
  // 0.5% reserve. The allocator targets A 8, B 1, C 8; every code is inside
  // the band, so step 4-2 keeps the holdings; the cash weight is 0 against a
  // target of 0.175, a gap of 350.0, and the trimming loop walks B, A, C.

  const ShortfallTickers: seq<Code> := ["A", "B", "C"]
  const ShortfallPrices: map<Code, real> := map["A" := 100.0, "B" := 50.0, "C" := 100.0]
  const ShortfallInputs: BackupInputs := BackupInputs(
    Dict(["A", "B", "C"], map["A" := 10, "B" := 0, "C" := 10]),
    Dict(["A", "B", "C"], map["A" := 0.4, "B" := 0.0, "C" := 0.4]),
    0.0, ShortfallPrices, 15.0, 0, 0.005)

  lemma ShortfallUsable()
    ensures Usable(ShortfallTickers, ShortfallPrices) == ShortfallTickers
  {
    assert ShortfallTickers[..2] == ["A", "B"] && ShortfallTickers[..2][..1] == ["A"] && ShortfallTickers[..2][..1][..0] == [];
    assert Usable(["A"], ShortfallPrices) == ["A"];
    assert Usable(["A", "B"], ShortfallPrices) == ["A", "B"];
  }

  lemma ShortfallBudget()
    ensures TotalValue(ShortfallInputs, ShortfallTickers) == 2000.0
    ensures BandBudget(ShortfallInputs, ShortfallTickers) == 1990.0
  {
    CostIsProduct(10, 100.0);
    assert ShortfallTickers[..2] == ["A", "B"] && ShortfallTickers[..2][..1] == ["A"] && ShortfallTickers[..2][..1][..0] == [];
    assert HoldingsValue(["A"], ShortfallInputs.positions, ShortfallPrices) == 1000.0;
    assert HoldingsValue(["A", "B"], ShortfallInputs.positions, ShortfallPrices) == 1000.0;
  }

  lemma ShortfallSortAB()
    ensures SortByKey(["A", "B"], ShortfallPrices) == ["B", "A"]
  {
    assert ["A", "B"][..1] == ["A"] && ["A"][..0] == [];
    assert SortByKey(["A"], ShortfallPrices) == ["A"];
  }

  lemma ShortfallInsertC()
    ensures Insert("C", ["B", "A"], ShortfallPrices) == ["B", "A", "C"]
  {
    assert ["B", "A"][1..] == ["A"] && ["A"][1..] == [];
    assert Insert("C", ["A"], ShortfallPrices) == ["A", "C"];
  }

  lemma ShortfallSort()
    ensures SortByKey(ShortfallTickers, ShortfallPrices) == ["B", "A", "C"]
  {
    assert ShortfallTickers[..2] == ["A", "B"];
    ShortfallSortAB();
    ShortfallInsertC();
  }

  lemma ShortfallTopups()
    ensures Topups(["B", "A", "C"], ShortfallPrices, Topup(map["A" := 7, "B" := 0, "C" := 7], 590.0))
         == Topup(map["A" := 8, "B" := 1, "C" := 8], 340.0)
  {
    var order: seq<Code> := ["B", "A", "C"];
    var st := Topup(map["A" := 7, "B" := 0, "C" := 7], 590.0);
    assert order[..2] == ["B", "A"] && order[..2][..1] == ["B"] && order[..2][..1][..0] == [];
    var s1 := Topup(map["A" := 7, "B" := 1, "C" := 7], 540.0);
    var s2 := Topup(map["A" := 8, "B" := 1, "C" := 7], 440.0);
    assert Topups(["B"], ShortfallPrices, st) == TopupStep(st, "B", ShortfallPrices);
    assert TopupStep(st, "B", ShortfallPrices) == s1;
    assert Topups(["B", "A"], ShortfallPrices, st) == TopupStep(s1, "A", ShortfallPrices);
    assert TopupStep(s1, "A", ShortfallPrices) == s2;
    assert Topups(order, ShortfallPrices, st) == TopupStep(s2, "C", ShortfallPrices);
  }

  lemma ShortfallFirstPass()
    ensures forall c :: c in ShortfallTickers ==> PriceOf(ShortfallPrices, c) > 0.0
    ensures FirstPass(ShortfallTickers, ShortfallInputs.targets, ShortfallPrices, 1990.0) == map["A" := 7, "B" := 0, "C" := 7]
  {
    ShortfallFloors();
    var m := FirstPass(ShortfallTickers, ShortfallInputs.targets, ShortfallPrices, 1990.0);
    assert m["A"] == 7 && m["B"] == 0 && m["C"] == 7;
    assert m.Keys == {"A", "B", "C"};
  }

  lemma ShortfallFloors()
    ensures FloorShares(1990.0, 0.4, 100.0) == 7
    ensures FloorShares(1990.0, 0.0, 50.0) == 0
  {
    FloorSharesUnfold(1990.0, 0.4, 100.0);
    assert (1990.0 * 0.4) / 100.0 == 7.96;
    FloorSharesUnfold(1990.0, 0.0, 50.0);
  }

  lemma ShortfallFirstSpent()
    ensures Spent(ShortfallTickers, map["A" := 7, "B" := 0, "C" := 7], ShortfallPrices) == 1400.0
  {
    var f := map["A" := 7, "B" := 0, "C" := 7];
    CostIsProduct(7, 100.0);
    assert ShortfallTickers[..2] == ["A", "B"] && ShortfallTickers[..2][..1] == ["A"] && ShortfallTickers[..2][..1][..0] == [];
    assert Spent(["A"], f, ShortfallPrices) == 700.0;
    assert Spent(["A", "B"], f, ShortfallPrices) == 700.0;
  }

  lemma ShortfallTopUp()
    ensures TopUp(ShortfallTickers, ShortfallPrices, map["A" := 7, "B" := 0, "C" := 7], 1990.0) == map["A" := 8, "B" := 1, "C" := 8]
  {
    ShortfallFirstSpent();
    assert Leftover(ShortfallTickers, map["A" := 7, "B" := 0, "C" := 7], ShortfallPrices, 1990.0) == 590.0;
    ShortfallSort();
    ShortfallTopups();
  }

  lemma ShortfallTargets()
    ensures forall c :: c in ShortfallTickers ==> PriceOf(ShortfallPrices, c) > 0.0
    ensures BandTargets(ShortfallInputs, ShortfallTickers) == map["A" := 8, "B" := 1, "C" := 8]
  {
    ShortfallBudget();
    ShortfallFirstPass();
    ShortfallTopUp();
  }

  lemma ShortfallWeightsA()
    ensures !Violates(ShortfallInputs, 2000.0, map["A" := 8, "B" := 1, "C" := 8], "A")
    ensures !Violates(ShortfallInputs, 2000.0, map["A" := 8, "B" := 1, "C" := 8], "C")
  {
    CostIsProduct(10, 100.0);
    CostIsProduct(8, 100.0);
  }

  lemma ShortfallWeightsB()
    ensures !Violates(ShortfallInputs, 2000.0, map["A" := 8, "B" := 1, "C" := 8], "B")
  {
    assert Cost(1, 50.0) == 50.0;
    assert Cost(0, 50.0) == 0.0;
  }

  lemma HeadIn(r: seq<Code>)
    requires r != []
    ensures r[0] in r
  {
  }

  /** Three codes inside the band: no violator. */
  lemma ClassifiedThreeNoViolator(inp: BackupInputs, total: real, tq: map<Code, int>, a: Code, b: Code, c: Code)
    requires !Violates(inp, total, tq, a) && !Violates(inp, total, tq, b) && !Violates(inp, total, tq, c)
    ensures Classified(inp, total, tq, [a, b, c], true) == []
  {
    var r := Classified(inp, total, tq, [a, b, c], true);
    if r != [] {
      HeadIn(r);
      assert false;
    }
  }

  /** Three codes inside the band: all compliant, in order. */
  lemma ClassifiedThreeCompliant(inp: BackupInputs, total: real, tq: map<Code, int>, a: Code, b: Code, c: Code)
    requires !Violates(inp, total, tq, a) && !Violates(inp, total, tq, b) && !Violates(inp, total, tq, c)
    ensures Classified(inp, total, tq, [a, b, c], false) == [a, b, c]
  {
    ClassifiedSnoc(inp, total, tq, [], a, false);
    assert [] + [a] == [a];
    ClassifiedSnoc(inp, total, tq, [a], b, false);
    assert [a] + [b] == [a, b];
    ClassifiedSnoc(inp, total, tq, [a, b], c, false);
    assert [a, b] + [c] == [a, b, c];
  }

  lemma ShortfallClassified()
    ensures Classified(ShortfallInputs, 2000.0, map["A" := 8, "B" := 1, "C" := 8], ShortfallTickers, true) == []
    ensures Classified(ShortfallInputs, 2000.0, map["A" := 8, "B" := 1, "C" := 8], ShortfallTickers, false) == ShortfallTickers
  {
    ShortfallWeightsA();
    ShortfallWeightsB();
    ClassifiedThreeNoViolator(ShortfallInputs, 2000.0, map["A" := 8, "B" := 1, "C" := 8], "A", "B", "C");
    ClassifiedThreeCompliant(ShortfallInputs, 2000.0, map["A" := 8, "B" := 1, "C" := 8], "A", "B", "C");
  }


  lemma ShortfallCashGap()
    ensures var tq := map["A" := 8, "B" := 1, "C" := 8];
      var adj := map["A" := 10, "B" := 0, "C" := 10];
      NeedsCashFix(ShortfallInputs, ShortfallTickers, 2000.0, tq, adj) && CashGap(ShortfallInputs, ShortfallTickers, 2000.0, tq, adj) == 350.0
  {
    var tq := map["A" := 8, "B" := 1, "C" := 8];
    var adj := map["A" := 10, "B" := 0, "C" := 10];
    CostIsProduct(10, 100.0);
    CostIsProduct(8, 100.0);
    assert Cost(1, 50.0) == 50.0;
    assert ShortfallTickers[..2] == ["A", "B"] && ShortfallTickers[..2][..1] == ["A"] && ShortfallTickers[..2][..1][..0] == [];
    assert TargetWeightSum(["A"], tq, ShortfallPrices, 2000.0) == 0.4;
    assert TargetWeightSum(["A", "B"], tq, ShortfallPrices, 2000.0) == 0.425;
    assert TargetCashWeight(ShortfallTickers, tq, ShortfallPrices, 2000.0) == 0.175;
    assert Spent(["A"], adj, ShortfallPrices) == 1000.0;
    assert Spent(["A", "B"], adj, ShortfallPrices) == 1000.0;
    assert AdjustedCash(ShortfallInputs, ShortfallTickers, 2000.0, adj) == 0.0;
  }

  lemma ShortfallNudges()
    ensures Nudges(["B", "A", "C"], ShortfallPrices, Topup(map["A" := 10, "B" := 0, "C" := 10], 350.0), TrimAsWritten).qty
         == map["A" := 9, "B" := -1, "C" := 9]
    ensures Nudges(["B", "A", "C"], ShortfallPrices, Topup(map["A" := 10, "B" := 0, "C" := 10], 350.0), Trim).qty
         == map["A" := 9, "B" := 0, "C" := 9]
  {
    var order: seq<Code> := ["B", "A", "C"];
    var st := Topup(map["A" := 10, "B" := 0, "C" := 10], 350.0);
    assert order[..2] == ["B", "A"] && order[..2][..1] == ["B"] && order[..2][..1][..0] == [];
    var w1 := Topup(map["A" := 10, "B" := -1, "C" := 10], 300.0);
    var w2 := Topup(map["A" := 9, "B" := -1, "C" := 10], 200.0);
    assert Nudges(["B"], ShortfallPrices, st, TrimAsWritten) == NudgeStep(st, "B", ShortfallPrices, TrimAsWritten) == w1;
    assert Nudges(["B", "A"], ShortfallPrices, st, TrimAsWritten) == NudgeStep(w1, "A", ShortfallPrices, TrimAsWritten) == w2;
    assert Nudges(order, ShortfallPrices, st, TrimAsWritten) == NudgeStep(w2, "C", ShortfallPrices, TrimAsWritten);
    var t2 := Topup(map["A" := 9, "B" := 0, "C" := 10], 250.0);
    assert Nudges(["B"], ShortfallPrices, st, Trim) == NudgeStep(st, "B", ShortfallPrices, Trim) == st;
    assert Nudges(["B", "A"], ShortfallPrices, st, Trim) == NudgeStep(st, "A", ShortfallPrices, Trim) == t2;
    assert Nudges(order, ShortfallPrices, st, Trim) == NudgeStep(t2, "C", ShortfallPrices, Trim);
  }

  lemma ShortfallKeep()
    ensures AdjustedBy(ShortfallTickers, [], map["A" := 8, "B" := 1, "C" := 8], ShortfallInputs.positions) == map["A" := 10, "B" := 0, "C" := 10]
  {
    var m := AdjustedBy(ShortfallTickers, [], map["A" := 8, "B" := 1, "C" := 8], ShortfallInputs.positions);
    assert m.Keys == {"A", "B", "C"};
  }

  lemma ShortfallAdjusted()
    ensures BandAdjusted(ShortfallInputs, ShortfallTickers, map["A" := 8, "B" := 1, "C" := 8]) == map["A" := 10, "B" := 0, "C" := 10]
  {
    ShortfallBudget();
    ShortfallClassified();
    ShortfallKeep();
  }

  lemma ShortfallCashFixed()
    ensures var tq := map["A" := 8, "B" := 1, "C" := 8];
      var adj := map["A" := 10, "B" := 0, "C" := 10];
      && CashFixed(ShortfallInputs, ShortfallTickers, 2000.0, tq, adj, ShortfallTickers, TrimAsWritten) == map["A" := 9, "B" := -1, "C" := 9]
      && CashFixed(ShortfallInputs, ShortfallTickers, 2000.0, tq, adj, ShortfallTickers, Trim) == map["A" := 9, "B" := 0, "C" := 9]
  {
    ShortfallCashGap();
    ShortfallSort();
    ShortfallNudges();
  }

  lemma ShortfallPricesPositive()
    ensures forall c :: c in ShortfallTickers ==> PriceOf(ShortfallPrices, c) > 0.0
  {
  }

  lemma ShortfallQtyWith(trim: Nudge)
    ensures forall c :: c in ShortfallTickers ==> PriceOf(ShortfallPrices, c) > 0.0
    ensures BandQty(ShortfallInputs, ShortfallTickers, trim)
         == CashFixed(ShortfallInputs, ShortfallTickers, 2000.0, map["A" := 8, "B" := 1, "C" := 8], map["A" := 10, "B" := 0, "C" := 10], ShortfallTickers, trim)
  {
    ShortfallPricesPositive();
    ShortfallBudget();
    ShortfallTargets();
    ShortfallClassified();
    ShortfallAdjusted();
  }

  lemma ShortfallQtyAsWritten()
    ensures forall c :: c in ShortfallTickers ==> PriceOf(ShortfallPrices, c) > 0.0
    ensures BandQty(ShortfallInputs, ShortfallTickers, TrimAsWritten) == map["A" := 9, "B" := -1, "C" := 9]
  {
    ShortfallQtyWith(TrimAsWritten);
    ShortfallCashFixed();
  }

  lemma ShortfallQtyTrim()
    ensures forall c :: c in ShortfallTickers ==> PriceOf(ShortfallPrices, c) > 0.0
    ensures BandQty(ShortfallInputs, ShortfallTickers, Trim) == map["A" := 9, "B" := 0, "C" := 9]
  {
    ShortfallQtyWith(Trim);
    ShortfallCashFixed();
  }

  lemma ShortfallSellPassAsWritten()
    ensures BandSells(ShortfallTickers, map["A" := -1, "B" := -1, "C" := -1], ShortfallPrices, 0, GuardState([], 0.0)).kept
         == [Order("A", Sell, 1, None), Order("B", Sell, 1, None), Order("C", Sell, 1, None)]
  {
    var d := map["A" := -1, "B" := -1, "C" := -1];
    CostIsProduct(1, 100.0);
    var o1 := Order("A", Sell, 1, None);
    var o2 := Order("B", Sell, 1, None);
    var o3 := Order("C", Sell, 1, None);
    assert ShortfallTickers[..2] == ["A", "B"] && ShortfallTickers[..2][..1] == ["A"] && ShortfallTickers[..2][..1][..0] == [];
    assert BandSells(["A"], d, ShortfallPrices, 0, GuardState([], 0.0)) == GuardState([o1], 100.0);
    assert BandSells(["A", "B"], d, ShortfallPrices, 0, GuardState([], 0.0)) == GuardState([o1, o2], 150.0);
  }

  lemma ShortfallSellPassCorrected()
    ensures BandSells(["A", "C"], map["A" := -1, "B" := 0, "C" := -1], ShortfallPrices, 0, GuardState([], 0.0)).kept
         == [Order("A", Sell, 1, None), Order("C", Sell, 1, None)]
  {
    var d := map["A" := -1, "B" := 0, "C" := -1];
    CostIsProduct(1, 100.0);
    var o1 := Order("A", Sell, 1, None);
    assert ["A", "C"][..1] == ["A"] && ["A"][..0] == [];
    assert BandSells(["A"], d, ShortfallPrices, 0, GuardState([], 0.0)) == GuardState([o1], 100.0);
  }

  lemma ShortfallWantingAsWritten()
    ensures var d := map["A" := -1, "B" := -1, "C" := -1];
      Wanting(ShortfallTickers, d, Sell) == ShortfallTickers && Wanting(ShortfallTickers, d, Buy) == []
  {
    var d := map["A" := -1, "B" := -1, "C" := -1];
    assert ShortfallTickers[..2] == ["A", "B"] && ShortfallTickers[..2][..1] == ["A"] && ShortfallTickers[..2][..1][..0] == [];
    assert Wanting(["A"], d, Sell) == ["A"];
    assert Wanting(["A", "B"], d, Sell) == ["A", "B"];
    assert Wanting(["A"], d, Buy) == [];
    assert Wanting(["A", "B"], d, Buy) == [];
  }

  lemma ShortfallSortAsWritten()
    ensures var d := map["A" := -1, "B" := -1, "C" := -1];
      SortByKey(ShortfallTickers, DeltaKey(d)) == ShortfallTickers
  {
    var key := DeltaKey(map["A" := -1, "B" := -1, "C" := -1]);
    assert forall i :: 0 <= i < |ShortfallTickers| ==> KeyOf(key, ShortfallTickers[i]) == -1.0;
    SortByKeyStable(ShortfallTickers, key);
  }

  lemma ShortfallOrderAsWritten()
    ensures var d := map["A" := -1, "B" := -1, "C" := -1];
      && SortByKey(Wanting(ShortfallTickers, d, Sell), DeltaKey(d)) == ShortfallTickers
      && SortByKey(Wanting(ShortfallTickers, d, Buy), Negated(DeltaKey(d))) == []
  {
    ShortfallWantingAsWritten();
    ShortfallSortAsWritten();
  }

  lemma ShortfallOrderCorrected()
    ensures var d := map["A" := -1, "B" := 0, "C" := -1];
      && SortByKey(Wanting(ShortfallTickers, d, Sell), DeltaKey(d)) == ["A", "C"]
      && SortByKey(Wanting(ShortfallTickers, d, Buy), Negated(DeltaKey(d))) == []
  {
    var d := map["A" := -1, "B" := 0, "C" := -1];
    assert ShortfallTickers[..2] == ["A", "B"] && ShortfallTickers[..2][..1] == ["A"] && ShortfallTickers[..2][..1][..0] == [];
    assert Wanting(["A"], d, Sell) == ["A"];
    assert Wanting(["A", "B"], d, Sell) == ["A"];
    assert Wanting(ShortfallTickers, d, Sell) == ["A", "C"];
    assert Wanting(["A"], d, Buy) == [];
    assert Wanting(["A", "B"], d, Buy) == [];
    assert Wanting(ShortfallTickers, d, Buy) == [];
    var key := DeltaKey(d);
    assert ["A", "C"][..1] == ["A"] && ["A"][1..] == [];
    assert SortByKey(["A"], key) == ["A"];
    assert Insert("C", ["A"], key) == ["A", "C"];
  }

  lemma ShortfallDeltasAsWritten()
    ensures BandDeltas(ShortfallTickers, map["A" := 9, "B" := -1, "C" := 9], ShortfallInputs.positions) == map["A" := -1, "B" := -1, "C" := -1]
  {
    var m := BandDeltas(ShortfallTickers, map["A" := 9, "B" := -1, "C" := 9], ShortfallInputs.positions);
    assert m.Keys == {"A", "B", "C"};
  }

  lemma ShortfallDeltasTrim()
    ensures BandDeltas(ShortfallTickers, map["A" := 9, "B" := 0, "C" := 9], ShortfallInputs.positions) == map["A" := -1, "B" := 0, "C" := -1]
  {
    var m := BandDeltas(ShortfallTickers, map["A" := 9, "B" := 0, "C" := 9], ShortfallInputs.positions);
    assert m.Keys == {"A", "B", "C"};
  }

  lemma ShortfallPlanAsWritten()
    ensures BandPlanWith(ShortfallInputs, ShortfallTickers, TrimAsWritten)
         == [Order("A", Sell, 1, None), Order("B", Sell, 1, None), Order("C", Sell, 1, None)]
  {
    ShortfallUsable();
    ShortfallQtyAsWritten();
    ShortfallDeltasAsWritten();
    ShortfallOrderAsWritten();
    ShortfallSellPassAsWritten();
  }

  lemma ShortfallPlanCorrected()
    ensures BandPlan(ShortfallInputs, ShortfallTickers) == [Order("A", Sell, 1, None), Order("C", Sell, 1, None)]
  {
    ShortfallUsable();
    ShortfallQtyTrim();
    ShortfallDeltasTrim();
    ShortfallOrderCorrected();
    ShortfallSellPassCorrected();
  }

  /** On this input the shortfall loop as written plans a SELL of a code
      that is not held; the corrected loop does not. */
  lemma ShortfallSellsUnheldShare()
    ensures Holding(ShortfallInputs.positions, "B") == 0
    ensures BandPlanWith(ShortfallInputs, ShortfallTickers, TrimAsWritten)
         == [Order("A", Sell, 1, None), Order("B", Sell, 1, None), Order("C", Sell, 1, None)]
    ensures BandPlan(ShortfallInputs, ShortfallTickers) == [Order("A", Sell, 1, None), Order("C", Sell, 1, None)]
  {
    ShortfallPlanAsWritten();
    ShortfallPlanCorrected();
  }
}
