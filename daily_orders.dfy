/** The daily order-and-fill inquiry: the broker's response turned into
    orders, and the views the rebalancer takes of them (open orders, the
    position change they promise, the fills and their cash effect, the
    duplicate filter for new orders, and the summary). */
module DailyOrders {
  import opened Models

  // ---------------------------------------------------------------------
  // Text helpers (`str.strip`, `str.upper`, `in` on strings)

  /** The characters `strip()` removes: those for which Python's
      `str.isspace` holds (tab to carriage return, the four separators 0x1C
      to 0x1F, space, and the Unicode spaces from U+0085 to U+3000). */
  predicate IsSpace(ch: char) {
    var n := ch as int;
    if n <= 0x20 then
      0x09 <= n <= 0x0D || 0x1C <= n
    else if n < 0x85 || 0x3000 < n then
      false
    else
      (n == 0x85 || n == 0xA0 || n == 0x1680 || 0x2000 <= n <= 0x200A ||
       n == 0x2028 || n == 0x2029 || n == 0x202F || n == 0x205F || n == 0x3000)
  }

  function StripLeft(s: string): (r: string)
    ensures |r| <= |s| && r == s[|s| - |r|..]
    ensures r == [] || !IsSpace(r[0])
  {
    if s != [] && IsSpace(s[0]) then StripLeft(s[1..]) else s
  }

  function StripRight(s: string): (r: string)
    ensures |r| <= |s| && r == s[..|r|]
    ensures r == [] || !IsSpace(r[|r| - 1])
  {
    if s != [] && IsSpace(s[|s| - 1]) then StripRight(s[..|s| - 1]) else s
  }

  /** `s.strip()`: no whitespace left at either end. */
  function Strip(s: string): (r: string)
    ensures r == [] || (!IsSpace(r[0]) && !IsSpace(r[|r| - 1]))
  {
    var l := StripLeft(s);
    var r := StripRight(l);
    assert r != [] ==> r[0] == l[0];
    r
  }

  /** `s.upper()` on ASCII letters. */
  function Upper(s: string): (r: string)
    ensures |r| == |s|
  {
    if s == [] then []
    else
      var ch := s[0];
      [if 'a' <= ch <= 'z' then (ch as int - 32) as char else ch] + Upper(s[1..])
  }

  /** `t in s` for strings. */
  function Contains(s: string, t: string): bool
    decreases |s|
  {
    |t| <= |s| && (s[..|t|] == t || (s != [] && Contains(s[1..], t)))
  }

  // ---------------------------------------------------------------------
  // Parsing the inquiry response

  /** A numeric field as `int(field or "0")` sees it: empty or missing
      (read as 0), an integer, or text `int` rejects. */
  datatype RawNum = Blank | IntText(n: int) | NotInt

  function NumValue(r: RawNum): Option<int> {
    match r
    case Blank => Some(0)
    case IntText(n) => Some(n)
    case NotInt => None
  }

  /** One entry of `output1`, with missing text fields as "". The order
      price is its text `ord_unpr` together with what `float` reads from
      it (None where `float` raises). */
  datatype RawItem =
    | NotADict
    | Item(pdno: string, sideName: string, ordQty: RawNum, totCcldQty: RawNum, rmnQty: RawNum,
           ordUnpr: string, ordUnprFloat: Option<real>, ordGnoBrno: string, odno: string,
           ordStat: string, ccldStat: string)

  /** `output1` of the response: missing (the default `[]`), not a list,
      or a list of entries. */
  datatype Output1 = Absent | NotAList | Items(items: seq<RawItem>)

  /** One order of the day (DailyOrder). */
  datatype DailyOrder = DailyOrder(
    code: Code, side: Side, qty: int, execQty: int, pendingQty: int,
    price: Option<real>, orderId: string, orderStatus: string, execStatus: string)

  /** The name says BUY: 매수, or BUY in any case. */
  predicate SaysBuy(n: string) {
    Contains(n, "매수") || Contains(Upper(n), "BUY")
  }

  /** The name says SELL: 매도, or SELL in any case. */
  predicate SaysSell(n: string) {
    Contains(n, "매도") || Contains(Upper(n), "SELL")
  }

  /** The side named by `sll_buy_dvsn_cd_name` once stripped: BUY when it
      says BUY, else SELL when it says SELL, else none. */
  function SideOf(name: string): (r: Option<Side>)
    ensures r == Some(Buy) <==> SaysBuy(Strip(name))
    ensures r == Some(Sell) <==> !SaysBuy(Strip(name)) && SaysSell(Strip(name))
  {
    var n := Strip(name);
    if SaysBuy(n) then Some(Buy)
    else if SaysSell(n) then Some(Sell)
    else None
  }

  /** 매수 names a BUY. */
  lemma KoreanBuyName()
    ensures SideOf("매수") == Some(Buy)
  {
    StripKoreanBuy();
    assert Contains("매수", "매수");
  }

  lemma StripKoreanBuy()
    ensures Strip("매수") == "매수"
  {
    var n := "매수";
    assert n[0] == '매' && n[|n| - 1] == '수';
    assert !IsSpace('매') && !IsSpace('수');
    assert StripLeft(n) == n;
    assert StripRight(n) == n;
  }

  /** 매도 names a SELL. */
  lemma KoreanSellName()
    ensures SideOf("매도") == Some(Sell)
  {
    StripSell();
    SellSaysNoBuy();
    assert Contains("매도", "매도");
  }

  lemma StripSell()
    ensures Strip("매도") == "매도"
  {
    var n := "매도";
    assert n[0] == '매' && n[|n| - 1] == '도';
    assert !IsSpace('매') && !IsSpace('도');
    assert StripLeft(n) == n;
    assert StripRight(n) == n;
  }

  lemma UpperSell()
    ensures Upper("매도") == "매도"
  {
    assert "도"[1..] == [];
    assert Upper("도") == "도";
    assert "매도"[1..] == "도";
  }

  lemma SellSaysNoBuy()
    ensures !SaysBuy("매도")
  {
    var n := "매도";
    assert !Contains(n, "매수") by {
      assert n[..2][1] == '도' != "매수"[1];
      assert n[1..] == "도";
      assert !Contains("도", "매수");
    }
    UpperSell();
    assert !Contains(n, "BUY");
  }

  lemma StripBuy()
    ensures Strip("buy") == "buy"
  {
    var n := "buy";
    assert n[0] == 'b' && n[|n| - 1] == 'y';
    assert StripLeft(n) == n;
    assert StripRight(n) == n;
  }

  lemma UpperBuy()
    ensures Upper("buy") == "BUY"
  {
    assert "y"[1..] == [];
    assert Upper("y") == "Y";
    assert "uy"[1..] == "y";
    assert Upper("uy") == "UY";
    assert "buy"[1..] == "uy";
  }

  /** English names are read in any case: "buy" names a BUY. */
  lemma EnglishSideNames()
    ensures SideOf("buy") == Some(Buy)
  {
    StripBuy();
    UpperBuy();
    assert Contains("BUY", "BUY");
    assert SaysBuy("buy");
  }

  /** A name that says neither side gives none, so the entry is skipped. */
  lemma UnknownSideName()
    ensures SideOf("") == None
  {
  }

  /** `order_id = odno if odno else ord_gno_brno`, both stripped. */
  function OrderIdOf(odno: string, gno: string): string {
    if Strip(odno) != "" then Strip(odno) else Strip(gno)
  }

  /** One iteration of the parsing loop: the order an entry gives, or None
      when it is skipped (not a dict, a quantity `int` rejects, no side, no
      code or no positive ordered quantity). */
  function ParseItem(item: RawItem): (r: Option<DailyOrder>)
    ensures r.Some? <==>
      && item.Item?
      && NumValue(item.ordQty).Some? && NumValue(item.totCcldQty).Some? && NumValue(item.rmnQty).Some?
      && SideOf(item.sideName).Some?
      && Strip(item.pdno) != "" && NumValue(item.ordQty).value > 0
    ensures r.Some? ==>
      && r.value.code == Strip(item.pdno) && Some(r.value.side) == SideOf(item.sideName)
      && Some(r.value.qty) == NumValue(item.ordQty) && Some(r.value.execQty) == NumValue(item.totCcldQty)
      && Some(r.value.pendingQty) == NumValue(item.rmnQty)
      && r.value.orderId == OrderIdOf(item.odno, item.ordGnoBrno)
      && r.value.price == (if item.ordUnpr != "" && item.ordUnpr != "0" then item.ordUnprFloat else None)
  {
    match item
    case NotADict => None
    case Item(pdno, sideName, ordQty, totCcldQty, rmnQty, ordUnpr, ordUnprFloat, gno, odno, ordStat, ccldStat) =>
      var code := Strip(pdno);
      var q := NumValue(ordQty);
      var e := NumValue(totCcldQty);
      var rmn := NumValue(rmnQty);
      if q.None? || e.None? || rmn.None? then None
      else
        var side := SideOf(sideName);
        if side.None? then None
        else
          var price := if ordUnpr != "" && ordUnpr != "0" then ordUnprFloat else None;
          if code != "" && q.value > 0 then
            Some(DailyOrder(code, side.value, q.value, e.value, rmn.value, price,
                            OrderIdOf(odno, gno), Strip(ordStat), Strip(ccldStat)))
          else None
  }

  /** The orders the parsing loop collects from a list of entries. */
  function ParsedItems(items: seq<RawItem>): seq<DailyOrder> {
    if items == [] then []
    else
      var last := ParseItem(items[|items| - 1]);
      ParsedItems(items[..|items| - 1]) + (if last.Some? then [last.value] else [])
  }

  /** `parse_daily_orders`: an `output1` that is not a list gives nothing. */
  function ParsedResponse(output1: Output1): seq<DailyOrder> {
    if output1.Items? then ParsedItems(output1.items) else []
  }

  method ParseDailyOrders(output1: Output1) returns (orders: seq<DailyOrder>)
    ensures orders == ParsedResponse(output1)
  {
    orders := [];
    if !output1.Items? {
      return;
    }
    var items := output1.items;
    for i := 0 to |items|
      invariant orders == ParsedItems(items[..i])
    {
      assert items[..i + 1][..i] == items[..i];
      var parsed := ParseItem(items[i]);
      if parsed.None? {
        continue;
      }
      orders := orders + [parsed.value];
    }
    assert items[..|items|] == items;
  }

  lemma {:induction false} ParsedItemsAppend(a: seq<RawItem>, b: seq<RawItem>)
    ensures ParsedItems(a + b) == ParsedItems(a) + ParsedItems(b)
  {
    if b == [] {
      assert a + b == a;
    } else {
      var init := b[..|b| - 1];
      assert (a + b)[..|a + b| - 1] == a + init;
      ParsedItemsAppend(a, init);
    }
  }

  /** Every parsed order has a code and a positive ordered quantity, and
      there is at most one per entry. */
  lemma {:induction false} ParsedItemsSound(items: seq<RawItem>)
    ensures |ParsedItems(items)| <= |items|
    ensures forall o :: o in ParsedItems(items) ==> o.code != "" && o.qty > 0
  {
    if items != [] {
      ParsedItemsSound(items[..|items| - 1]);
    }
  }

  /** An entry that cannot be parsed is passed over; the entries around it
      are parsed as if it were not there. */
  lemma MalformedItemSkipped(a: seq<RawItem>, x: RawItem, b: seq<RawItem>)
    requires x.NotADict? || (x.Item? && NumValue(x.ordQty).None?)
    ensures ParsedItems(a + [x] + b) == ParsedItems(a) + ParsedItems(b)
  {
    ParsedItemsAppend(a + [x], b);
    ParsedItemsAppend(a, [x]);
    assert ParseItem(x).None?;
    assert ParsedItems([x]) == [] by {
      assert [x][..0] == [];
    }
  }

  // ---------------------------------------------------------------------
  // Open orders and the positions they promise

  predicate IsPending(o: DailyOrder) {
    o.pendingQty > 0
  }

  /** `get_pending_orders` */
  function PendingOrders(orders: seq<DailyOrder>): seq<DailyOrder> {
    Filter(orders, IsPending)
  }

  /** Exactly the orders with something left open, in their order. */
  lemma PendingOrdersExact(a: seq<DailyOrder>, b: seq<DailyOrder>)
    ensures forall o :: o in PendingOrders(a) ==> o.pendingQty > 0
    ensures forall o :: multiset(PendingOrders(a))[o] == if o.pendingQty > 0 then multiset(a)[o] else 0
    ensures PendingOrders(a + b) == PendingOrders(a) + PendingOrders(b)
  {
    FilterMultiset(a, IsPending);
    FilterAppend(a, b, IsPending);
  }

  /** `+n` for a BUY, `-n` for a SELL. */
  function SignedQty(side: Side, n: int): int {
    if side == Buy then n else -n
  }

  /** `d[code] = d.get(code, 0) ± n` */
  function Tally(m: map<Code, int>, code: Code, side: Side, n: int): (r: map<Code, int>)
    ensures r.Keys == m.Keys + {code}
    ensures r[code] == (if code in m then m[code] else 0) + SignedQty(side, n)
    ensures forall c :: c in m && c != code ==> r[c] == m[c]
  {
    m[code := (if code in m then m[code] else 0) + SignedQty(side, n)]
  }

  /** The dict `get_pending_positions` builds. */
  function PendingMap(orders: seq<DailyOrder>): map<Code, int> {
    if orders == [] then map[]
    else
      var o := orders[|orders| - 1];
      Tally(PendingMap(orders[..|orders| - 1]), o.code, o.side, o.pendingQty)
  }

  /** The dict `get_executed_positions` builds: orders with a fill only. */
  function ExecutedMap(orders: seq<DailyOrder>): map<Code, int> {
    if orders == [] then map[]
    else
      var o := orders[|orders| - 1];
      var m := ExecutedMap(orders[..|orders| - 1]);
      if o.execQty > 0 then Tally(m, o.code, o.side, o.execQty) else m
  }

  method GetPendingPositions(pending: seq<DailyOrder>) returns (positions: map<Code, int>)
    ensures positions == PendingMap(pending)
  {
    positions := map[];
    for i := 0 to |pending|
      invariant positions == PendingMap(pending[..i])
    {
      assert pending[..i + 1][..i] == pending[..i];
      var order := pending[i];
      var before := if order.code in positions then positions[order.code] else 0;
      if order.side == Buy {
        positions := positions[order.code := before + order.pendingQty];
      } else {
        positions := positions[order.code := before - order.pendingQty];
      }
    }
    assert pending[..|pending|] == pending;
  }

  method GetExecutedPositions(orders: seq<DailyOrder>) returns (positions: map<Code, int>)
    ensures positions == ExecutedMap(orders)
  {
    positions := map[];
    for i := 0 to |orders|
      invariant positions == ExecutedMap(orders[..i])
    {
      assert orders[..i + 1][..i] == orders[..i];
      var order := orders[i];
      if order.execQty > 0 {
        var before := if order.code in positions then positions[order.code] else 0;
        if order.side == Buy {
          positions := positions[order.code := before + order.execQty];
        } else {
          positions := positions[order.code := before - order.execQty];
        }
      }
    }
    assert orders[..|orders|] == orders;
  }

  /** Net open quantity of one instrument: open BUYs minus open SELLs. */
  function PendingNet(orders: seq<DailyOrder>, c: Code): int {
    if orders == [] then 0
    else
      var o := orders[|orders| - 1];
      PendingNet(orders[..|orders| - 1], c) + (if o.code == c then SignedQty(o.side, o.pendingQty) else 0)
  }

  /** Net filled quantity of one instrument: filled BUYs minus filled SELLs. */
  function ExecutedNet(orders: seq<DailyOrder>, c: Code): int {
    if orders == [] then 0
    else
      var o := orders[|orders| - 1];
      ExecutedNet(orders[..|orders| - 1], c) + (if o.code == c && o.execQty > 0 then SignedQty(o.side, o.execQty) else 0)
  }

  function CodesIn(orders: seq<DailyOrder>): set<Code> {
    set i | 0 <= i < |orders| :: orders[i].code
  }

  function FilledCodesIn(orders: seq<DailyOrder>): set<Code> {
    set i | 0 <= i < |orders| && orders[i].execQty > 0 :: orders[i].code
  }

  lemma CodesInSnoc(orders: seq<DailyOrder>)
    requires orders != []
    ensures var init := orders[..|orders| - 1]; var o := orders[|orders| - 1];
      && CodesIn(orders) == CodesIn(init) + {o.code}
      && FilledCodesIn(orders) == FilledCodesIn(init) + (if o.execQty > 0 then {o.code} else {})
  {
    var init := orders[..|orders| - 1];
    assert forall i :: 0 <= i < |init| ==> init[i] == orders[i];
    forall c | c in CodesIn(orders) ensures c in CodesIn(init) + {orders[|orders| - 1].code} {
      var i :| 0 <= i < |orders| && orders[i].code == c;
      if i < |init| {
        assert init[i].code == c;
      }
    }
    forall c | c in FilledCodesIn(orders)
      ensures c in FilledCodesIn(init) + (if orders[|orders| - 1].execQty > 0 then {orders[|orders| - 1].code} else {})
    {
      var i :| 0 <= i < |orders| && orders[i].execQty > 0 && orders[i].code == c;
      if i < |init| {
        assert init[i].code == c && init[i].execQty > 0;
      }
    }
  }

  /** `get_pending_positions` has a key for every instrument with an open
      order, holding its net open quantity; an instrument without one has a
      net open quantity of zero. */
  lemma {:induction false} PendingMapMeaning(orders: seq<DailyOrder>)
    ensures PendingMap(orders).Keys == CodesIn(orders)
    ensures forall c :: c in PendingMap(orders) ==> PendingMap(orders)[c] == PendingNet(orders, c)
    ensures forall c :: c !in PendingMap(orders) ==> PendingNet(orders, c) == 0
  {
    if orders != [] {
      PendingMapMeaning(orders[..|orders| - 1]);
      CodesInSnoc(orders);
    }
  }

  /** `get_executed_positions` has a key for every instrument with a fill,
      holding its net filled quantity; any other instrument has none. */
  lemma {:induction false} ExecutedMapMeaning(orders: seq<DailyOrder>)
    ensures ExecutedMap(orders).Keys == FilledCodesIn(orders)
    ensures forall c :: c in ExecutedMap(orders) ==> ExecutedMap(orders)[c] == ExecutedNet(orders, c)
    ensures forall c :: c !in ExecutedMap(orders) ==> ExecutedNet(orders, c) == 0
  {
    if orders != [] {
      ExecutedMapMeaning(orders[..|orders| - 1]);
      CodesInSnoc(orders);
    }
  }

  // ---------------------------------------------------------------------
  // Cash effect of the day's fills

  /** Cash one order's fill moved, at the current price; orders without a
      fill or without a price move none. */
  function FillCash(o: DailyOrder, prices: map<Code, real>): real {
    if o.execQty > 0 && o.code in prices then
      (if o.side == Buy then -Cost(o.execQty, prices[o.code]) else Cost(o.execQty, prices[o.code]))
    else 0.0
  }

  /** The total `get_cash_impact` accumulates. */
  function CashImpact(orders: seq<DailyOrder>, prices: map<Code, real>): real {
    if orders == [] then 0.0
    else CashImpact(orders[..|orders| - 1], prices) + FillCash(orders[|orders| - 1], prices)
  }

  method GetCashImpact(orders: seq<DailyOrder>, prices: map<Code, real>) returns (cashImpact: real)
    ensures cashImpact == CashImpact(orders, prices)
  {
    cashImpact := 0.0;
    for i := 0 to |orders|
      invariant cashImpact == CashImpact(orders[..i], prices)
    {
      assert orders[..i + 1][..i] == orders[..i];
      var order := orders[i];
      if order.execQty > 0 && order.code in prices {
        var price := prices[order.code];
        if order.side == Buy {
          cashImpact := cashImpact - Cost(order.execQty, price);
        } else {
          cashImpact := cashImpact + Cost(order.execQty, price);
        }
      }
    }
    assert orders[..|orders|] == orders;
  }

  /** Value at `prices` of the per-instrument quantities in `m`, over the
      instruments `cs`; instruments without a price or an entry count zero. */
  function MapValue(cs: seq<Code>, m: map<Code, int>, prices: map<Code, real>): real {
    if cs == [] then 0.0
    else
      var c := cs[|cs| - 1];
      MapValue(cs[..|cs| - 1], m, prices) + (if c in m && c in prices then Cost(m[c], prices[c]) else 0.0)
  }

  /** Value at `prices` of the net filled quantities, over `cs`. */
  function FilledValue(cs: seq<Code>, orders: seq<DailyOrder>, prices: map<Code, real>): real {
    if cs == [] then 0.0
    else
      var c := cs[|cs| - 1];
      FilledValue(cs[..|cs| - 1], orders, prices) + (if c in prices then Cost(ExecutedNet(orders, c), prices[c]) else 0.0)
  }

  lemma {:induction false} FilledValueEmpty(cs: seq<Code>, prices: map<Code, real>)
    ensures FilledValue(cs, [], prices) == 0.0
  {
    if cs != [] {
      FilledValueEmpty(cs[..|cs| - 1], prices);
    }
  }

  lemma ExecutedNetSnoc(orders: seq<DailyOrder>, o: DailyOrder, c: Code)
    ensures ExecutedNet(orders + [o], c)
      == ExecutedNet(orders, c) + (if o.code == c && o.execQty > 0 then SignedQty(o.side, o.execQty) else 0)
  {
    assert (orders + [o])[..|orders|] == orders;
  }

  lemma {:induction false} FilledValueOutside(cs: seq<Code>, orders: seq<DailyOrder>, o: DailyOrder, prices: map<Code, real>)
    requires o.code !in cs
    ensures FilledValue(cs, orders + [o], prices) == FilledValue(cs, orders, prices)
  {
    if cs != [] {
      FilledValueOutside(cs[..|cs| - 1], orders, o, prices);
      ExecutedNetSnoc(orders, o, cs[|cs| - 1]);
    }
  }

  /** One more fill of an instrument changes the value of its net filled
      quantity by minus the cash that fill moved. */
  lemma FillStep(net: int, o: DailyOrder, prices: map<Code, real>)
    requires o.code in prices
    ensures Cost(net + (if o.execQty > 0 then SignedQty(o.side, o.execQty) else 0), prices[o.code])
      == Cost(net, prices[o.code]) - FillCash(o, prices)
  {
    if o.execQty > 0 {
      CostAdds(net, SignedQty(o.side, o.execQty), prices[o.code]);
      CostIsProduct(o.execQty, prices[o.code]);
      CostIsProduct(-o.execQty, prices[o.code]);
    }
  }

  lemma {:induction false} FilledValueInside(cs: seq<Code>, orders: seq<DailyOrder>, o: DailyOrder, prices: map<Code, real>)
    requires Distinct(cs) && o.code in cs
    ensures FilledValue(cs, orders + [o], prices) == FilledValue(cs, orders, prices) - FillCash(o, prices)
  {
    var init := cs[..|cs| - 1];
    var c := cs[|cs| - 1];
    assert cs == init + [c];
    ExecutedNetSnoc(orders, o, c);
    if c == o.code {
      FilledValueOutside(init, orders, o, prices);
      if c in prices {
        FillStep(ExecutedNet(orders, c), o, prices);
      }
    } else {
      FilledValueInside(init, orders, o, prices);
    }
  }

  /** The cash the fills moved is minus the value of the net filled
      quantities, over any list naming each filled instrument once. */
  lemma {:induction false} CashImpactIsFilledValue(cs: seq<Code>, orders: seq<DailyOrder>, prices: map<Code, real>)
    requires Distinct(cs)
    requires forall i :: 0 <= i < |orders| && orders[i].execQty > 0 ==> orders[i].code in cs
    ensures CashImpact(orders, prices) == -FilledValue(cs, orders, prices)
  {
    if orders == [] {
      FilledValueEmpty(cs, prices);
    } else {
      var init := orders[..|orders| - 1];
      var o := orders[|orders| - 1];
      assert orders == init + [o];
      CashImpactIsFilledValue(cs, init, prices);
      if o.code in cs {
        FilledValueInside(cs, init, o, prices);
      } else {
        FilledValueOutside(cs, init, o, prices);
      }
    }
  }

  lemma {:induction false} FilledValueIsMapValue(cs: seq<Code>, orders: seq<DailyOrder>, prices: map<Code, real>)
    ensures FilledValue(cs, orders, prices) == MapValue(cs, ExecutedMap(orders), prices)
  {
    if cs != [] {
      FilledValueIsMapValue(cs[..|cs| - 1], orders, prices);
      ExecutedMapMeaning(orders);
    }
  }

  /** `get_cash_impact` is the value, at the same prices, of the position
      change `get_executed_positions` reports, with the sign turned: BUY
      fills spend what they bought, SELL fills bring in what they sold. */
  lemma CashImpactMatchesExecuted(cs: seq<Code>, orders: seq<DailyOrder>, prices: map<Code, real>)
    requires Distinct(cs)
    requires forall c :: c in FilledCodesIn(orders) ==> c in cs
    ensures CashImpact(orders, prices) == -MapValue(cs, ExecutedMap(orders), prices)
  {
    forall i | 0 <= i < |orders| && orders[i].execQty > 0 ensures orders[i].code in cs {
      assert orders[i].code in FilledCodesIn(orders);
    }
    CashImpactIsFilledValue(cs, orders, prices);
    FilledValueIsMapValue(cs, orders, prices);
  }

  // ---------------------------------------------------------------------
  // Duplicate filter for new orders

  /** `code:side:qty`. The text splits back into its parts (side and qty hold
      no colon), so the key is modelled by its parts. */
  datatype PendingKey = PendingKey(code: Code, side: Side, qty: int)

  function PendingKeys(pending: seq<DailyOrder>): set<PendingKey> {
    set i | 0 <= i < |pending| :: PendingKey(pending[i].code, pending[i].side, pending[i].pendingQty)
  }

  /** An open order that a new order repeats: same instrument and side, and
      the same quantity or one within the tolerance. */
  predicate Repeats(p: DailyOrder, n: Order, tolerance: int) {
    p.code == n.code && p.side == n.side && (p.pendingQty == n.qty || Abs(p.pendingQty - n.qty) <= tolerance)
  }

  predicate IsDuplicate(n: Order, pending: seq<DailyOrder>, tolerance: int) {
    exists i :: 0 <= i < |pending| && Repeats(pending[i], n, tolerance)
  }

  /** What `filter_duplicate_orders` returns. */
  function NonDuplicates(newOrders: seq<Order>, pending: seq<DailyOrder>, tolerance: int): seq<Order> {
    Filter(newOrders, (n: Order) => !IsDuplicate(n, pending, tolerance))
  }

  method BuildPendingKeys(pending: seq<DailyOrder>) returns (keys: set<PendingKey>)
    ensures keys == PendingKeys(pending)
  {
    keys := {};
    for i := 0 to |pending|
      invariant keys == PendingKeys(pending[..i])
    {
      var p := pending[..i + 1];
      assert PendingKeys(p) == PendingKeys(pending[..i]) + {PendingKey(pending[i].code, pending[i].side, pending[i].pendingQty)} by {
        assert forall j :: 0 <= j < i ==> p[j] == pending[..i][j];
        assert p[i] == pending[i];
      }
      keys := keys + {PendingKey(pending[i].code, pending[i].side, pending[i].pendingQty)};
    }
    assert pending[..|pending|] == pending;
  }

  /** The inner scan: some open order of the same instrument and side lies
      within the tolerance. */
  method ScanTolerance(n: Order, pending: seq<DailyOrder>, tolerance: int) returns (found: bool)
    ensures found <==> exists i :: (0 <= i < |pending| && pending[i].code == n.code
      && pending[i].side == n.side && Abs(pending[i].pendingQty - n.qty) <= tolerance)
  {
    found := false;
    for i := 0 to |pending|
      invariant !found
      invariant forall j :: 0 <= j < i ==>
        !(pending[j].code == n.code && pending[j].side == n.side && Abs(pending[j].pendingQty - n.qty) <= tolerance)
    {
      var order := pending[i];
      if order.code == n.code && order.side == n.side && Abs(order.pendingQty - n.qty) <= tolerance {
        found := true;
        return;
      }
    }
  }

  /** `filter_duplicate_orders`: the key set catches exact repeats, the scan
      the ones within the tolerance. */
  method FilterDuplicateOrders(newOrders: seq<Order>, pending: seq<DailyOrder>, tolerance: int)
    returns (filtered: seq<Order>)
    ensures filtered == NonDuplicates(newOrders, pending, tolerance)
  {
    var pendingSet := BuildPendingKeys(pending);
    filtered := [];
    for i := 0 to |newOrders|
      invariant filtered == NonDuplicates(newOrders[..i], pending, tolerance)
    {
      assert newOrders[..i + 1][..i] == newOrders[..i];
      var n := newOrders[i];
      var isDuplicate := false;
      if PendingKey(n.code, n.side, n.qty) in pendingSet {
        isDuplicate := true;
        var j :| 0 <= j < |pending| && PendingKey(n.code, n.side, n.qty)
          == PendingKey(pending[j].code, pending[j].side, pending[j].pendingQty);
        assert Repeats(pending[j], n, tolerance);
      } else {
        isDuplicate := ScanTolerance(n, pending, tolerance);
        if !isDuplicate {
          forall j | 0 <= j < |pending| ensures !Repeats(pending[j], n, tolerance) {
            assert PendingKey(pending[j].code, pending[j].side, pending[j].pendingQty) in pendingSet;
          }
        }
      }
      if !isDuplicate {
        filtered := filtered + [n];
      }
    }
    assert newOrders[..|newOrders|] == newOrders;
  }

  /** The filter keeps, in order, exactly the new orders no open order
      repeats; with a non-negative tolerance a repeat is any open order of
      the same instrument and side within the tolerance. */
  lemma NonDuplicatesExact(newOrders: seq<Order>, more: seq<Order>, pending: seq<DailyOrder>, tolerance: int)
    ensures forall n :: n in NonDuplicates(newOrders, pending, tolerance) ==> !IsDuplicate(n, pending, tolerance)
    ensures forall n :: (multiset(NonDuplicates(newOrders, pending, tolerance))[n]
      == if IsDuplicate(n, pending, tolerance) then 0 else multiset(newOrders)[n])
    ensures NonDuplicates(newOrders + more, pending, tolerance)
      == NonDuplicates(newOrders, pending, tolerance) + NonDuplicates(more, pending, tolerance)
    ensures tolerance >= 0 ==> forall p: DailyOrder, n: Order :: Repeats(p, n, tolerance) <==>
      p.code == n.code && p.side == n.side && Abs(p.pendingQty - n.qty) <= tolerance
  {
    var keep := (n: Order) => !IsDuplicate(n, pending, tolerance);
    FilterMultiset(newOrders, keep);
    FilterAppend(newOrders, more, keep);
    var r := NonDuplicates(newOrders, pending, tolerance);
    forall n | n in r ensures !IsDuplicate(n, pending, tolerance) {
      var i :| 0 <= i < |r| && r[i] == n;
      assert keep(r[i]);
    }
  }

  // ---------------------------------------------------------------------
  // Summary

  /** Open quantity of one instrument, per side. */
  datatype SideTotals = SideTotals(buy: int, sell: int)

  datatype OrderSummary = OrderSummary(
    totalOrders: int, pendingOrders: int,
    pendingByCode: map<Code, SideTotals>, pendingPositions: map<Code, int>)

  function AddSide(t: SideTotals, side: Side, n: int): SideTotals {
    if side == Buy then SideTotals(t.buy + n, t.sell) else SideTotals(t.buy, t.sell + n)
  }

  /** The per-side dict the summary loop builds. */
  function ByCode(pending: seq<DailyOrder>): map<Code, SideTotals> {
    if pending == [] then map[]
    else
      var o := pending[|pending| - 1];
      var m := ByCode(pending[..|pending| - 1]);
      var t := if o.code in m then m[o.code] else SideTotals(0, 0);
      m[o.code := AddSide(t, o.side, o.pendingQty)]
  }

  /** `get_order_summary` */
  function Summary(orders: seq<DailyOrder>): OrderSummary {
    var pending := PendingOrders(orders);
    OrderSummary(|orders|, |pending|, ByCode(pending), PendingMap(pending))
  }

  method GetOrderSummary(orders: seq<DailyOrder>) returns (summary: OrderSummary)
    ensures summary == Summary(orders)
  {
    var pending := PendingOrders(orders);
    var pendingByCode: map<Code, SideTotals> := map[];
    for i := 0 to |pending|
      invariant pendingByCode == ByCode(pending[..i])
    {
      assert pending[..i + 1][..i] == pending[..i];
      var order := pending[i];
      if order.code !in pendingByCode {
        pendingByCode := pendingByCode[order.code := SideTotals(0, 0)];
      }
      pendingByCode := pendingByCode[order.code := AddSide(pendingByCode[order.code], order.side, order.pendingQty)];
    }
    assert pending[..|pending|] == pending;
    var positions := GetPendingPositions(pending);
    summary := OrderSummary(|orders|, |pending|, pendingByCode, positions);
  }

  lemma {:induction false} ByCodeAt(pending: seq<DailyOrder>, c: Code)
    requires forall i :: 0 <= i < |pending| ==> pending[i].pendingQty > 0
    ensures c in ByCode(pending) <==> c in PendingMap(pending)
    ensures c in ByCode(pending) ==>
      && ByCode(pending)[c].buy - ByCode(pending)[c].sell == PendingMap(pending)[c]
      && ByCode(pending)[c].buy >= 0 && ByCode(pending)[c].sell >= 0
      && ByCode(pending)[c].buy + ByCode(pending)[c].sell > 0
  {
    if pending != [] {
      var init := pending[..|pending| - 1];
      assert forall i :: 0 <= i < |init| ==> init[i] == pending[i];
      ByCodeAt(init, c);
    }
  }

  /** Per-side totals and net positions of a list of open orders agree: the
      same instruments, BUY minus SELL is the net, and both sides are
      non-negative with something open. */
  lemma ByCodeMatchesPositions(pending: seq<DailyOrder>)
    requires forall i :: 0 <= i < |pending| ==> pending[i].pendingQty > 0
    ensures ByCode(pending).Keys == PendingMap(pending).Keys
    ensures forall c :: c in ByCode(pending) ==>
      && ByCode(pending)[c].buy - ByCode(pending)[c].sell == PendingMap(pending)[c]
      && ByCode(pending)[c].buy >= 0 && ByCode(pending)[c].sell >= 0
      && ByCode(pending)[c].buy + ByCode(pending)[c].sell > 0
  {
    forall c {
      ByCodeAt(pending, c);
    }
  }

  /** `get_order_summary` counts all orders and the open ones, and its
      per-side view agrees with its net positions, which are the net open
      quantities. */
  lemma SummaryConsistent(orders: seq<DailyOrder>)
    ensures var s := Summary(orders);
      && s.totalOrders == |orders| && 0 <= s.pendingOrders <= s.totalOrders
      && s.pendingByCode.Keys == s.pendingPositions.Keys == CodesIn(PendingOrders(orders))
      && (forall c :: c in s.pendingByCode ==>
            && s.pendingByCode[c].buy - s.pendingByCode[c].sell == s.pendingPositions[c]
            && s.pendingPositions[c] == PendingNet(PendingOrders(orders), c)
            && s.pendingByCode[c].buy + s.pendingByCode[c].sell > 0)
  {
    var pending := PendingOrders(orders);
    ByCodeMatchesPositions(pending);
    PendingMapMeaning(pending);
  }
}
