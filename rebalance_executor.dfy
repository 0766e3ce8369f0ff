/** The service that ties the planner, the cash guard and the order optimiser
    together (`build_plan`), and that sends a plan to the broker
    (`execute_plan` and its legacy loop with the duplicate-order filter). */
module RebalanceExecutor {
  import opened Models
  import opened Rebalance
  import opened RebalanceDeficit
  import opened CashGuard
  import opened OrderOptimizer

  // ---------------------------------------------------------------------
  // build_plan

  /** `build_plan`: the planner's orders; with a non-negative cash balance
      they are cut to what the cash covers and then netted per instrument,
      with a negative one they are passed on untouched. */
  function BuiltPlan(inp: Inputs, d2: Option<real>): seq<Order> {
    var plan := RebalancePlan(inp, d2);
    if inp.cash >= 0.0 then OptimizedPlan(CashSufficiency(plan, inp.cash, inp.prices).kept)
    else plan
  }

  method BuildPlan(inp: Inputs, d2: Option<real>) returns (optimized: seq<Order>)
    ensures optimized == BuiltPlan(inp, d2)
  {
    var plan := PlanRebalance(inp, d2);
    var validated: seq<Order>;
    if inp.cash >= 0.0 {
      var finalCash;
      validated, finalCash := ValidateCashSufficiency(plan, inp.cash, inp.prices);
    } else {
      validated := plan;
    }
    if inp.cash >= 0.0 {
      optimized := OptimizeOrderSequence(validated, inp.cash, inp.prices);
    } else {
      optimized := validated;
    }
  }

  /** What `build_plan` hands to the executor: SELLs before BUYs, positive
      market orders; with cash on hand at most one order per instrument,
      trading the same net quantity per instrument as the guarded plan; in
      deficit the planner's plan itself. */
  lemma BuiltPlanCorrect(inp: Inputs, d2: Option<real>)
    ensures var r := BuiltPlan(inp, d2);
      && SellsBeforeBuys(r)
      && (forall i :: 0 <= i < |r| ==> r[i].qty > 0 && r[i].limit == None)
      && (inp.cash >= 0.0 ==> CodesUnique(r))
      && (inp.cash >= 0.0 ==> forall c ::
            SignedNet(r, c) == SignedNet(CashSufficiency(RebalancePlan(inp, d2), inp.cash, inp.prices).kept, c))
      && (inp.cash < 0.0 ==> r == RebalancePlan(inp, d2))
  {
    RebalancePlanCorrect(inp, d2);
    if inp.cash >= 0.0 {
      var g := CashSufficiency(RebalancePlan(inp, d2), inp.cash, inp.prices).kept;
      OptimizedPlanCorrect(g);
      if g != [] {
        OptimizedPlanShape(g);
      }
    }
  }

  // ---------------------------------------------------------------------
  // Netting keeps the cash a plan moves

  /** The price the cash bookkeeping uses: an unknown or non-positive price
      moves no cash. */
  function UsedPrice(prices: map<Code, real>, c: Code): real {
    if PriceOf(prices, c) > 0.0 then PriceOf(prices, c) else 0.0
  }

  /** Value of the net quantities a plan buys in the instruments `cs`. */
  function NetValue(cs: seq<Code>, plan: seq<Order>, prices: map<Code, real>): real {
    if cs == [] then 0.0
    else
      var c := cs[|cs| - 1];
      NetValue(cs[..|cs| - 1], plan, prices) + Cost(SignedNet(plan, c), UsedPrice(prices, c))
  }

  lemma CashEffectIsSigned(o: Order, prices: map<Code, real>)
    ensures CashEffect(o, prices) == -Cost(Signed(o), UsedPrice(prices, o.code))
  {
    CostIsProduct(o.qty, PriceOf(prices, o.code));
    CostIsProduct(Signed(o), UsedPrice(prices, o.code));
  }

  lemma SignedNetSnoc(plan: seq<Order>, o: Order, c: Code)
    ensures SignedNet(plan + [o], c) == SignedNet(plan, c) + (if o.code == c then Signed(o) else 0)
  {
    SumSnoc(plan, o, SignedIn(c));
  }

  lemma {:induction false} NetValueEmpty(cs: seq<Code>, prices: map<Code, real>)
    ensures NetValue(cs, [], prices) == 0.0
  {
    if cs != [] {
      NetValueEmpty(cs[..|cs| - 1], prices);
    }
  }

  /** An order outside `cs` does not change the value of the nets in `cs`. */
  lemma {:induction false} NetValueOutside(cs: seq<Code>, plan: seq<Order>, o: Order, prices: map<Code, real>)
    requires o.code !in cs
    ensures NetValue(cs, plan + [o], prices) == NetValue(cs, plan, prices)
  {
    if cs != [] {
      var c := cs[|cs| - 1];
      NetValueOutside(cs[..|cs| - 1], plan, o, prices);
      SignedNetSnoc(plan, o, c);
    }
  }

  /** An order in `cs` (listed once) adds its own signed value. */
  lemma {:induction false} NetValueInside(cs: seq<Code>, plan: seq<Order>, o: Order, prices: map<Code, real>)
    requires Distinct(cs) && o.code in cs
    ensures NetValue(cs, plan + [o], prices)
      == NetValue(cs, plan, prices) + Cost(Signed(o), UsedPrice(prices, o.code))
  {
    var init := cs[..|cs| - 1];
    var c := cs[|cs| - 1];
    assert cs == init + [c];
    SignedNetSnoc(plan, o, c);
    if c == o.code {
      NetValueOutside(init, plan, o, prices);
      CostAdds(SignedNet(plan, c), Signed(o), UsedPrice(prices, c));
    } else {
      NetValueInside(init, plan, o, prices);
    }
  }

  /** The cash a plan moves is minus the value of its nets, over any list of
      instruments that names each of its codes once. */
  lemma {:induction false} CashDeltaIsNetValue(cs: seq<Code>, plan: seq<Order>, prices: map<Code, real>)
    requires Distinct(cs)
    requires forall i :: 0 <= i < |plan| ==> plan[i].code in cs
    ensures CashDelta(plan, prices) == -NetValue(cs, plan, prices)
  {
    if plan == [] {
      NetValueEmpty(cs, prices);
    } else {
      var init := plan[..|plan| - 1];
      var o := plan[|plan| - 1];
      assert plan == init + [o];
      CashDeltaIsNetValue(cs, init, prices);
      NetValueInside(cs, init, o, prices);
      CashEffectIsSigned(o, prices);
    }
  }

  lemma {:induction false} NetValueSameNets(cs: seq<Code>, a: seq<Order>, b: seq<Order>, prices: map<Code, real>)
    requires forall c :: SignedNet(a, c) == SignedNet(b, c)
    ensures NetValue(cs, a, prices) == NetValue(cs, b, prices)
  {
    if cs != [] {
      NetValueSameNets(cs[..|cs| - 1], a, b, prices);
    }
  }

  /** The codes of a plan, each once, in order of first appearance. */
  function CodesOf(plan: seq<Order>): (r: seq<Code>)
    ensures Distinct(r)
    ensures forall i :: 0 <= i < |plan| ==> plan[i].code in r
  {
    if plan == [] then []
    else
      var init := CodesOf(plan[..|plan| - 1]);
      var c := plan[|plan| - 1].code;
      var r := if c in init then init else init + [c];
      assert forall i :: 0 <= i < |plan| - 1 ==> plan[i] == plan[..|plan| - 1][i];
      r
  }

  /** Two plans that trade the same net quantity in every instrument move
      the same cash. */
  lemma SameNetsSameCash(a: seq<Order>, b: seq<Order>, prices: map<Code, real>)
    requires forall c :: SignedNet(a, c) == SignedNet(b, c)
    ensures CashDelta(a, prices) == CashDelta(b, prices)
  {
    var cs := CodesOf(a + b);
    forall i | 0 <= i < |a| ensures a[i].code in cs {
      assert (a + b)[i] == a[i];
    }
    forall i | 0 <= i < |b| ensures b[i].code in cs {
      assert (a + b)[|a| + i] == b[i];
    }
    CashDeltaIsNetValue(cs, a, prices);
    CashDeltaIsNetValue(cs, b, prices);
    NetValueSameNets(cs, a, b, prices);
  }

  // ---------------------------------------------------------------------
  // The built plan never overdraws

  lemma {:induction false} OfSideKeepsPositive(plan: seq<Order>, side: Side)
    requires forall i :: 0 <= i < |plan| ==> plan[i].qty > 0
    ensures forall i :: 0 <= i < |OfSide(plan, side)| ==> OfSide(plan, side)[i].qty > 0
  {
    if plan != [] {
      var init := plan[..|plan| - 1];
      assert forall i :: 0 <= i < |init| ==> init[i] == plan[i];
      OfSideKeepsPositive(init, side);
    }
  }

  /** SELLs of non-negative quantity only bring cash in. */
  lemma {:induction false} SellsBringCash(s: seq<Order>, prices: map<Code, real>)
    requires forall i :: 0 <= i < |s| ==> s[i].side == Sell && s[i].qty >= 0
    ensures CashDelta(s, prices) >= 0.0
  {
    if s != [] {
      var init := s[..|s| - 1];
      assert forall i :: 0 <= i < |init| ==> init[i] == s[i];
      SellsBringCash(init, prices);
      CostIsProduct(s[|s| - 1].qty, PriceOf(prices, s[|s| - 1].code));
    }
  }

  /** BUYs of non-negative quantity only spend cash. */
  lemma {:induction false} BuysSpendCash(s: seq<Order>, prices: map<Code, real>)
    requires forall i :: 0 <= i < |s| ==> s[i].side == Buy && s[i].qty >= 0
    ensures CashDelta(s, prices) <= 0.0
  {
    if s != [] {
      var init := s[..|s| - 1];
      assert forall i :: 0 <= i < |init| ==> init[i] == s[i];
      BuysSpendCash(init, prices);
      CostIsProduct(s[|s| - 1].qty, PriceOf(prices, s[|s| - 1].code));
    }
  }

  /** The BUY loop of the guard never takes the running cash below zero. */
  lemma {:induction false} GuardBuysKeepCash(buys: seq<Order>, prices: map<Code, real>, start: GuardState)
    requires start.cash >= 0.0
    ensures GuardBuys(buys, prices, start).cash >= 0.0
  {
    if buys != [] {
      var st := GuardBuys(buys[..|buys| - 1], prices, start);
      GuardBuysKeepCash(buys[..|buys| - 1], prices, start);
      GuardStepAllowed(st, buys[|buys| - 1], prices);
    }
  }

  /** With a non-negative balance the guard ends with a non-negative one. */
  lemma GuardFinalCashNotNegative(plan: seq<Order>, cash: real, prices: map<Code, real>)
    requires cash >= 0.0
    requires forall i :: 0 <= i < |plan| ==> plan[i].qty > 0
    ensures CashSufficiency(plan, cash, prices).cash >= 0.0
  {
    OfSideKeepsPositive(plan, Sell);
    SellsBringCash(OfSide(plan, Sell), prices);
    GuardBuysKeepCash(OfSide(plan, Buy), prices, SellsCredited(plan, cash, prices));
  }

  lemma BuyPrefixCoveredAt(plan: seq<Order>, cash: real, prices: map<Code, real>, n: nat)
    requires SellsBeforeBuys(plan)
    requires forall i :: 0 <= i < |plan| ==> plan[i].qty > 0
    requires cash + CashDelta(plan, prices) >= 0.0
    requires 0 < n <= |plan| && plan[n - 1].side == Buy
    ensures CashAfter(cash, plan, n, prices) >= 0.0
  {
    var tail := plan[n..];
    assert CashDelta(plan, prices) == CashDelta(plan[..n], prices) + CashDelta(tail, prices) by {
      assert plan == plan[..n] + tail;
      CashDeltaAppend(plan[..n], tail, prices);
    }
    assert CashDelta(tail, prices) <= 0.0 by {
      forall i | 0 <= i < |tail| ensures tail[i].side == Buy && tail[i].qty >= 0 {
        assert tail[i] == plan[n + i];
      }
      BuysSpendCash(tail, prices);
    }
  }

  /** A plan with SELLs first never has its running cash negative right after
      a BUY, once its final cash is non-negative. */
  lemma BuyPrefixesCovered(plan: seq<Order>, cash: real, prices: map<Code, real>)
    requires SellsBeforeBuys(plan)
    requires forall i :: 0 <= i < |plan| ==> plan[i].qty > 0
    requires cash + CashDelta(plan, prices) >= 0.0
    ensures forall n :: 0 < n <= |plan| && plan[n - 1].side == Buy ==> CashAfter(cash, plan, n, prices) >= 0.0
  {
    forall n | 0 < n <= |plan| && plan[n - 1].side == Buy
      ensures CashAfter(cash, plan, n, prices) >= 0.0
    {
      BuyPrefixCoveredAt(plan, cash, prices, n);
    }
  }

  /** With cash on hand the built plan is affordable: it ends with the
      guard's final cash, which is not negative, and no prefix of it that
      ends in a BUY leaves the running cash below zero. */
  lemma BuiltPlanNeverOverdraws(inp: Inputs, d2: Option<real>)
    requires inp.cash >= 0.0
    ensures var r := BuiltPlan(inp, d2);
      && inp.cash + CashDelta(r, inp.prices) == CashSufficiency(RebalancePlan(inp, d2), inp.cash, inp.prices).cash
      && inp.cash + CashDelta(r, inp.prices) >= 0.0
      && forall n :: 0 < n <= |r| && r[n - 1].side == Buy ==> CashAfter(inp.cash, r, n, inp.prices) >= 0.0
  {
    var plan := RebalancePlan(inp, d2);
    RebalancePlanCorrect(inp, d2);
    var g := CashSufficiency(plan, inp.cash, inp.prices);
    GuardCashIsFinalCash(plan, inp.cash, inp.prices);
    GuardFinalCashNotNegative(plan, inp.cash, inp.prices);
    BuiltPlanCorrect(inp, d2);
    var r := BuiltPlan(inp, d2);
    SameNetsSameCash(r, g.kept, inp.prices);
    BuyPrefixesCovered(r, inp.cash, inp.prices);
  }

  // ---------------------------------------------------------------------
  // execute_plan

  /** What the broker answers to one `order_cash` call: a response carrying
      up to three order-number fields, or an exception with its message. */
  datatype BrokerReply =
    | Accepted(outputOdno: Option<string>, odno: Option<string>, orderIdField: Option<string>)
    | Raised(error: string)

  /** One entry of the result list. */
  datatype ExecRecord =
    | DryRun(dryId: string)                  // success, "DRY_RUN"
    | Placed(orderId: Option<string>)        // the broker's response
    | SkippedDup(order: Order)               // status "SKIPPED_DUP"
    | Failed(failedOrder: Order, error: string)  // status "FAILED"

  /** Python truthiness of an optional text: present and non-empty. */
  predicate Truthy(s: Option<string>) {
    s.Some? && s.value != ""
  }

  /** The order number read from a response: the first non-empty of the
      nested `ODNO`, `odno` and `order_id` fields. */
  function ExtractOrderId(outputOdno: Option<string>, odno: Option<string>, orderIdField: Option<string>): (r: Option<string>)
    ensures r.Some? ==> r.value != "" && (r == outputOdno || r == odno || r == orderIdField)
    ensures r.None? <==> !Truthy(outputOdno) && !Truthy(odno) && !Truthy(orderIdField)
    ensures Truthy(outputOdno) ==> r == outputOdno
  {
    if Truthy(outputOdno) then outputOdno
    else if Truthy(odno) then odno
    else if Truthy(orderIdField) then orderIdField
    else None
  }

  /** The record for an order the broker was called for. The response's own
      `order_id` entry, spread after the extracted one, wins when present. */
  function ReplyRecord(o: Order, reply: BrokerReply): (r: ExecRecord)
    ensures reply.Raised? <==> r.Failed?
    ensures r.Failed? ==> r.failedOrder == o && r.error == reply.error
    ensures reply.Accepted? && reply.orderIdField.Some? ==> r == Placed(reply.orderIdField)
    ensures reply.Accepted? && reply.orderIdField.None? ==> r == Placed(ExtractOrderId(reply.outputOdno, reply.odno, None))
  {
    match reply
    case Raised(e) => Failed(o, e)
    case Accepted(a, b, c) =>
      if c.Some? then Placed(c) else Placed(ExtractOrderId(a, b, c))
  }

  /** The idempotency key `side:code:qty:limit-or-MKT`. The key text splits
      back into its parts (only the code may hold a colon, and it sits
      between two colon-free fields), so it is modelled by its parts; a
      limit of zero is falsy and prints as `MKT` like a market order. */
  datatype IdemKey = IdemKey(side: Side, code: Code, qty: int, limit: Option<real>)

  function IdemKeyOf(o: Order): (k: IdemKey)
    ensures k.side == o.side && k.code == o.code && k.qty == o.qty
    ensures k.limit.None? <==> o.limit.None? || o.limit.value == 0.0
  {
    IdemKey(o.side, o.code, o.qty, if o.limit.Some? && o.limit.value == 0.0 then None else o.limit)
  }

  /** The keys of all orders of a plan. */
  function KeysOf(plan: seq<Order>): set<IdemKey> {
    set i | 0 <= i < |plan| :: IdemKeyOf(plan[i])
  }

  /** State of the legacy loop: the results so far, the orders sent to the
      broker so far and `sent_keys`. */
  datatype LegacyState = LegacyState(results: seq<ExecRecord>, calls: seq<Order>, sent: set<IdemKey>)

  /** One iteration for plan entry `i`: a repeated key is skipped, a new one
      is sent and its reply recorded. */
  function LegacyStep(st: LegacyState, o: Order, i: nat, broker: (Order, nat) -> BrokerReply): LegacyState {
    if IdemKeyOf(o) in st.sent then LegacyState(st.results + [SkippedDup(o)], st.calls, st.sent)
    else LegacyState(st.results + [ReplyRecord(o, broker(o, i))], st.calls + [o], st.sent + {IdemKeyOf(o)})
  }

  /** `_execute_plan_legacy` over a whole plan; `broker(o, i)` is the reply
      to the call made for plan entry `i`. */
  function LegacyRun(plan: seq<Order>, broker: (Order, nat) -> BrokerReply): LegacyState {
    if plan == [] then LegacyState([], [], {})
    else LegacyStep(LegacyRun(plan[..|plan| - 1], broker), plan[|plan| - 1], |plan| - 1, broker)
  }

  lemma LegacyRunSnoc(plan: seq<Order>, o: Order, broker: (Order, nat) -> BrokerReply)
    ensures LegacyRun(plan + [o], broker) == LegacyStep(LegacyRun(plan, broker), o, |plan|, broker)
  {
    var p := plan + [o];
    assert p[..|p| - 1] == plan;
    assert p[|p| - 1] == o;
    assert LegacyRun(p, broker) == LegacyStep(LegacyRun(p[..|p| - 1], broker), p[|p| - 1], |p| - 1, broker);
  }

  lemma KeysOfSnoc(plan: seq<Order>, o: Order)
    ensures KeysOf(plan + [o]) == KeysOf(plan) + {IdemKeyOf(o)}
  {
    var p := plan + [o];
    forall k | k in KeysOf(p) ensures k in KeysOf(plan) + {IdemKeyOf(o)} {
      var i :| 0 <= i < |p| && k == IdemKeyOf(p[i]);
      if i < |plan| {
        assert p[i] == plan[i];
      }
    }
    forall k | k in KeysOf(plan) ensures k in KeysOf(p) {
      var i :| 0 <= i < |plan| && k == IdemKeyOf(plan[i]);
      assert p[i] == plan[i];
    }
    assert p[|plan|] == o;
  }

  /** No two orders of a list share a key. */
  predicate KeysDistinct(os: seq<Order>) {
    forall i, j :: 0 <= i < j < |os| ==> IdemKeyOf(os[i]) != IdemKeyOf(os[j])
  }

  /** The legacy loop answers every plan entry with exactly one record: the
      skip record when an earlier entry had the same key, else the record of
      its own broker call. The broker is called once per distinct key, in
      plan order, and for every key of the plan. */
  lemma {:induction false} LegacyRunCorrect(plan: seq<Order>, broker: (Order, nat) -> BrokerReply)
    ensures var r := LegacyRun(plan, broker);
      && |r.results| == |plan|
      && r.sent == KeysOf(plan)
      && KeysOf(r.calls) == KeysOf(plan)
      && KeysDistinct(r.calls)
      && forall i :: 0 <= i < |plan| ==>
           r.results[i] == if IdemKeyOf(plan[i]) in KeysOf(plan[..i]) then SkippedDup(plan[i])
                           else ReplyRecord(plan[i], broker(plan[i], i))
  {
    if plan != [] {
      var init := plan[..|plan| - 1];
      var o := plan[|plan| - 1];
      assert plan == init + [o];
      LegacyRunCorrect(init, broker);
      var st := LegacyRun(init, broker);
      var r := LegacyRun(plan, broker);
      assert r == LegacyStep(st, o, |init|, broker);
      assert r.sent == KeysOf(plan) && KeysOf(r.calls) == KeysOf(plan) by {
        KeysOfSnoc(init, o);
        if IdemKeyOf(o) !in st.sent {
          KeysOfSnoc(st.calls, o);
        }
      }
      assert KeysDistinct(r.calls) by {
        if IdemKeyOf(o) !in st.sent {
          forall i | 0 <= i < |st.calls| ensures IdemKeyOf(r.calls[i]) != IdemKeyOf(o) {
            assert r.calls[i] == st.calls[i];
            assert IdemKeyOf(st.calls[i]) in KeysOf(st.calls);
          }
        }
      }
      forall i | 0 <= i < |plan|
        ensures r.results[i] == if IdemKeyOf(plan[i]) in KeysOf(plan[..i]) then SkippedDup(plan[i])
                                else ReplyRecord(plan[i], broker(plan[i], i))
      {
        if i < |init| {
          assert plan[..i] == init[..i];
          assert plan[i] == init[i];
        } else {
          assert plan[..i] == init;
        }
      }
    }
  }

  /** `_execute_plan_legacy`: the broker is a parameter and the pause
      between orders is left out; `calls` lists the orders sent to it. */
  method ExecutePlanLegacy(plan: seq<Order>, broker: (Order, nat) -> BrokerReply)
    returns (results: seq<ExecRecord>, calls: seq<Order>)
    ensures LegacyState(results, calls, KeysOf(plan)) == LegacyRun(plan, broker)
  {
    results := [];
    calls := [];
    var sentKeys: set<IdemKey> := {};
    for i := 0 to |plan|
      invariant LegacyState(results, calls, sentKeys) == LegacyRun(plan[..i], broker)
    {
      LegacyRunSnoc(plan[..i], plan[i], broker);
      assert plan[..i + 1] == plan[..i] + [plan[i]];
      var p := plan[i];
      var idemKey := IdemKeyOf(p);
      if idemKey in sentKeys {
        results := results + [SkippedDup(p)];
        continue;
      }
      sentKeys := sentKeys + {idemKey};
      var res := broker(p, i);
      results := results + [ReplyRecord(p, res)];
      calls := calls + [p];
    }
    assert plan[..|plan|] == plan;
    LegacyRunCorrect(plan, broker);
  }

  /** `f"{n}"` for a natural number. */
  function NatText(n: nat): (s: string)
    ensures |s| >= 1
    ensures forall k :: 0 <= k < |s| ==> '0' <= s[k] <= '9'
  {
    if n < 10 then [Digit(n)] else NatText(n / 10) + [Digit(n % 10)]
  }

  function Digit(d: nat): char
    requires d < 10
  {
    ('0' as int + d) as char
  }

  /** Reads a decimal numeral back. */
  function ParseNat(s: string): nat {
    if s == [] then 0
    else
      var d := s[|s| - 1] as int - '0' as int;
      ParseNat(s[..|s| - 1]) * 10 + (if 0 <= d < 10 then d else 0)
  }

  lemma {:induction false} ParseNatText(n: nat)
    ensures ParseNat(NatText(n)) == n
  {
    if n >= 10 {
      var s := NatText(n);
      assert s[..|s| - 1] == NatText(n / 10);
      ParseNatText(n / 10);
    }
  }

  /** The order number of the `i`-th dry-run record. */
  function DryId(i: nat): string {
    "DRY_" + NatText(i)
  }

  /** Dry-run order numbers tell the entries apart. */
  lemma DryIdsDistinct(i: nat, j: nat)
    requires i != j
    ensures DryId(i) != DryId(j)
  {
    ParseNatText(i);
    ParseNatText(j);
    assert DryId(i)[4..] == NatText(i);
    assert DryId(j)[4..] == NatText(j);
  }

  /** `execute_plan`: a dry run answers every entry with its own `DRY_i`
      record and calls nothing; an empty plan gives an empty list; anything
      else goes through the legacy loop. */
  method ExecutePlan(plan: seq<Order>, dryRun: bool, broker: (Order, nat) -> BrokerReply)
    returns (results: seq<ExecRecord>, calls: seq<Order>)
    ensures dryRun ==> |results| == |plan| && calls == []
    ensures dryRun ==> forall i :: 0 <= i < |plan| ==> results[i] == DryRun(DryId(i))
    ensures !dryRun ==> results == LegacyRun(plan, broker).results && calls == LegacyRun(plan, broker).calls
    ensures !dryRun && plan == [] ==> results == [] && calls == []
  {
    if dryRun {
      results := seq(|plan|, i requires 0 <= i < |plan| => DryRun(DryId(i)));
      calls := [];
      return;
    }
    if plan == [] {
      results := [];
      calls := [];
      return;
    }
    results, calls := ExecutePlanLegacy(plan, broker);
  }
}
