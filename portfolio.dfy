/** Reading the account from the broker's balance response: holdings, the
    cash the planner uses, the D+2 balance and the net asset value, and the
    positions expected once the day's open orders fill. */
module Portfolio {
  import opened Models
  import opened DailyOrders

  // ---------------------------------------------------------------------
  // Response values

  /** A decoded JSON value. A text carries what `float` reads from it (None
      where `float` raises). */
  datatype Value =
    | Null
    | Text(s: string, asNumber: Option<real>)
    | Num(x: real)
    | Obj(entries: seq<(string, Value)>)
    | Arr(items: seq<Value>)

  /** Python truthiness. */
  predicate Truthy(v: Value) {
    match v
    case Null => false
    case Text(s, _) => s != ""
    case Num(x) => x != 0.0
    case Obj(e) => e != []
    case Arr(a) => a != []
  }

  /** `v not in (None, "")` */
  predicate Usable(v: Value) {
    v != Null && !(v.Text? && v.s == "")
  }

  /** `a or b`: the first operand when truthy, else the second. */
  function Or(a: Value, b: Value): Value {
    if Truthy(a) then a else b
  }

  /** `float(v)`; None where it raises. */
  function NumberOf(v: Value): Option<real> {
    match v
    case Num(x) => Some(x)
    case Text(_, n) => n
    case _ => None
  }

  /** `int(x)` for a float: truncation toward zero. */
  function Trunc(x: real): (r: int)
    ensures x >= 0.0 ==> r as real <= x < r as real + 1.0
    ensures x < 0.0 ==> r as real - 1.0 < x <= r as real
  {
    if x >= 0.0 then x.Floor else -((-x).Floor)
  }

  /** `d.get(k)`: the value of the last entry named `k` (a later entry of a
      dict overwrites an earlier one), or None. */
  function Field(d: seq<(string, Value)>, k: string): Value {
    if d == [] then Null
    else if d[|d| - 1].0 == k then d[|d| - 1].1
    else Field(d[..|d| - 1], k)
  }

  /** `k.lower()` on ASCII letters. */
  function Lower(s: string): (r: string)
    ensures |r| == |s|
  {
    if s == [] then []
    else [if 'A' <= s[0] <= 'Z' then (s[0] as int + 32) as char else s[0]] + Lower(s[1..])
  }

  /** `{str(k).lower(): v for k, v in d.items()}.get(lk)`: the last entry
      whose lower-cased name is `lk`. */
  function LowerField(d: seq<(string, Value)>, lk: string): Value {
    if d == [] then Null
    else if Lower(d[|d| - 1].0) == lk then d[|d| - 1].1
    else LowerField(d[..|d| - 1], lk)
  }

  // ---------------------------------------------------------------------
  // _pick

  function ExactPass(d: seq<(string, Value)>, keys: seq<string>): Option<Value> {
    if keys == [] then None
    else if Usable(Field(d, keys[0])) then Some(Field(d, keys[0]))
    else ExactPass(d, keys[1..])
  }

  function CasePass(d: seq<(string, Value)>, keys: seq<string>): Option<Value> {
    if keys == [] then None
    else if Usable(LowerField(d, Lower(keys[0]))) then Some(LowerField(d, Lower(keys[0])))
    else CasePass(d, keys[1..])
  }

  /** `_pick(d, keys)`; None is Python's None. */
  function Pick(d: seq<(string, Value)>, keys: seq<string>): Option<Value> {
    var exact := ExactPass(d, keys);
    if exact.Some? then exact else CasePass(d, keys)
  }

  lemma {:induction false} ExactPassMeaning(d: seq<(string, Value)>, keys: seq<string>)
    ensures ExactPass(d, keys).None? <==> forall i :: 0 <= i < |keys| ==> !Usable(Field(d, keys[i]))
    ensures forall i :: (0 <= i < |keys| && Usable(Field(d, keys[i]))
      && (forall j :: 0 <= j < i ==> !Usable(Field(d, keys[j])))) ==> ExactPass(d, keys) == Some(Field(d, keys[i]))
  {
    if keys != [] {
      ExactPassMeaning(d, keys[1..]);
      assert forall i :: 0 < i < |keys| ==> keys[i] == keys[1..][i - 1];
    }
  }

  lemma {:induction false} CasePassMeaning(d: seq<(string, Value)>, keys: seq<string>)
    ensures CasePass(d, keys).None? <==> forall i :: 0 <= i < |keys| ==> !Usable(LowerField(d, Lower(keys[i])))
    ensures forall i :: (0 <= i < |keys| && Usable(LowerField(d, Lower(keys[i])))
      && (forall j :: 0 <= j < i ==> !Usable(LowerField(d, Lower(keys[j]))))) ==>
        CasePass(d, keys) == Some(LowerField(d, Lower(keys[i])))
  {
    if keys != [] {
      CasePassMeaning(d, keys[1..]);
      assert forall i :: 0 < i < |keys| ==> keys[i] == keys[1..][i - 1];
    }
  }

  /** `_pick` answers with the first listed key whose exact entry is usable
      (neither None nor ""); only when there is none, with the first listed
      key whose case-insensitive entry is usable; else None. What it
      answers is always usable. */
  lemma PickMeaning(d: seq<(string, Value)>, keys: seq<string>)
    ensures Pick(d, keys).Some? ==> Usable(Pick(d, keys).value)
    ensures forall i :: (0 <= i < |keys| && Usable(Field(d, keys[i]))
      && (forall j :: 0 <= j < i ==> !Usable(Field(d, keys[j])))) ==> Pick(d, keys) == Some(Field(d, keys[i]))
    ensures (forall i :: 0 <= i < |keys| ==> !Usable(Field(d, keys[i]))) ==>
      forall i :: (0 <= i < |keys| && Usable(LowerField(d, Lower(keys[i])))
        && (forall j :: 0 <= j < i ==> !Usable(LowerField(d, Lower(keys[j]))))) ==>
          Pick(d, keys) == Some(LowerField(d, Lower(keys[i])))
    ensures Pick(d, keys).None? <==> forall i :: 0 <= i < |keys| ==>
      !Usable(Field(d, keys[i])) && !Usable(LowerField(d, Lower(keys[i])))
  {
    ExactPassMeaning(d, keys);
    CasePassMeaning(d, keys);
    if Pick(d, keys).Some? {
      if ExactPass(d, keys).Some? {
        ExactPassUsable(d, keys);
      } else {
        CasePassUsable(d, keys);
      }
    }
  }

  /** An exact match on a later key beats a case-insensitive match on an
      earlier one. */
  lemma PickPrefersExactMatch()
    ensures Pick([("CASH", Num(5.0)), ("amt", Num(7.0))], ["cash", "amt"]) == Some(Num(7.0))
  {
    var d := [("CASH", Num(5.0)), ("amt", Num(7.0))];
    assert Field(d, "cash") == Null;
    assert Field(d, "amt") == Num(7.0);
    assert ExactPass(d, ["amt"]) == Some(Num(7.0));
    assert ["cash", "amt"][1..] == ["amt"];
  }

  lemma {:induction false} ExactPassUsable(d: seq<(string, Value)>, keys: seq<string>)
    ensures ExactPass(d, keys).Some? ==> Usable(ExactPass(d, keys).value)
  {
    if keys != [] {
      ExactPassUsable(d, keys[1..]);
    }
  }

  lemma {:induction false} CasePassUsable(d: seq<(string, Value)>, keys: seq<string>)
    ensures CasePass(d, keys).Some? ==> Usable(CasePass(d, keys).value)
  {
    if keys != [] {
      CasePassUsable(d, keys[1..]);
    }
  }

  // ---------------------------------------------------------------------
  // Holdings

  /** `bal.get("output1") or bal.get("output") or []` */
  function HoldingItems(bal: seq<(string, Value)>): Value {
    Or(Or(Field(bal, "output1"), Field(bal, "output")), Arr([]))
  }

  /** The code of a holding: the first truthy of `pdno`, `종목번호`, `PDNO`,
      when it is text. */
  function HoldingCode(it: seq<(string, Value)>): Option<Code> {
    var v := Or(Or(Field(it, "pdno"), Field(it, "종목번호")), Field(it, "PDNO"));
    if v.Text? && Truthy(v) then Some(v.s) else None
  }

  /** `int(float(hldg_qty or 보유수량 or HLDG_QTY or 0))`, 0 where it raises. */
  function HoldingQty(it: seq<(string, Value)>): int {
    var v := Or(Or(Or(Field(it, "hldg_qty"), Field(it, "보유수량")), Field(it, "HLDG_QTY")), Num(0.0));
    var n := NumberOf(v);
    if n.Some? then Trunc(n.value) else 0
  }

  /** The positions dict built from a list of holding entries; None when an
      entry is not a dict (the source's `it.get` raises). */
  function PositionsOf(items: seq<Value>): Option<Dict<int>> {
    if items == [] then Some(EmptyDict())
    else
      var before := PositionsOf(items[..|items| - 1]);
      var it := items[|items| - 1];
      if before.None? || !it.Obj? then None
      else
        var code := HoldingCode(it.entries);
        if code.Some? then Some(Put(before.value, code.value, HoldingQty(it.entries))) else before
  }

  /** The positions part of `get_positions_and_cash`: no list, no positions. */
  function BalancePositions(bal: seq<(string, Value)>): Option<Dict<int>> {
    var items := HoldingItems(bal);
    if items.Arr? then PositionsOf(items.items) else Some(EmptyDict())
  }

  method ExtractPositions(bal: seq<(string, Value)>) returns (positions: Option<Dict<int>>)
    ensures positions == BalancePositions(bal)
  {
    var items := HoldingItems(bal);
    var d: Dict<int> := EmptyDict();
    if !items.Arr? {
      return Some(d);
    }
    var xs := items.items;
    for i := 0 to |xs|
      invariant PositionsOf(xs[..i]) == Some(d)
    {
      assert xs[..i + 1][..i] == xs[..i];
      var it := xs[i];
      if !it.Obj? {
        PositionsFailStays(xs, i + 1);
        assert xs[..|xs|] == xs;
        return None;
      }
      var code := HoldingCode(it.entries);
      if code.Some? {
        d := Put(d, code.value, HoldingQty(it.entries));
      }
    }
    assert xs[..|xs|] == xs;
    positions := Some(d);
  }

  /** Once an entry fails, the whole list fails. */
  lemma {:induction false} PositionsFailStays(xs: seq<Value>, n: nat)
    requires n <= |xs| && PositionsOf(xs[..n]).None?
    ensures PositionsOf(xs).None?
    decreases |xs| - n
  {
    if n < |xs| {
      assert xs[..n + 1][..n] == xs[..n];
      PositionsFailStays(xs, n + 1);
    } else {
      assert xs[..n] == xs;
    }
  }

  /** The code of a holdings-list entry that is a dict. */
  function ItemCode(v: Value): Option<Code> {
    if v.Obj? then HoldingCode(v.entries) else None
  }

  function HoldingCodes(items: seq<Value>): set<Code> {
    set i | 0 <= i < |items| && ItemCode(items[i]).Some? :: ItemCode(items[i]).value
  }

  lemma {:induction false} PositionsFail(items: seq<Value>)
    ensures PositionsOf(items).None? <==> exists i :: 0 <= i < |items| && !items[i].Obj?
  {
    if items != [] {
      var init := items[..|items| - 1];
      assert forall i :: 0 <= i < |init| ==> init[i] == items[i];
      PositionsFail(init);
      if PositionsOf(init).None? {
        var k :| 0 <= k < |init| && !init[k].Obj?;
        assert !items[k].Obj?;
      }
    }
  }

  lemma HoldingCodesSnoc(items: seq<Value>)
    requires items != []
    ensures var it := items[|items| - 1];
      HoldingCodes(items) == HoldingCodes(items[..|items| - 1]) + (if ItemCode(it).Some? then {ItemCode(it).value} else {})
  {
    var init := items[..|items| - 1];
    forall c | c in HoldingCodes(items) ensures c in HoldingCodes(init) || ItemCode(items[|items| - 1]) == Some(c) {
      var i :| 0 <= i < |items| && ItemCode(items[i]).Some? && ItemCode(items[i]).value == c;
      if i < |init| {
        assert init[i] == items[i];
      }
    }
    forall c | c in HoldingCodes(init) ensures c in HoldingCodes(items) {
      var i :| 0 <= i < |init| && ItemCode(init[i]).Some? && ItemCode(init[i]).value == c;
      assert items[i] == init[i];
    }
  }

  lemma {:induction false} PositionsKeys(items: seq<Value>)
    ensures PositionsOf(items).Some? ==>
      WellFormed(PositionsOf(items).value) && PositionsOf(items).value.m.Keys == HoldingCodes(items)
  {
    if items != [] {
      PositionsKeys(items[..|items| - 1]);
      HoldingCodesSnoc(items);
    }
  }

  lemma {:induction false} PositionsLastWins(items: seq<Value>, i: int)
    requires 0 <= i < |items| && ItemCode(items[i]).Some? && PositionsOf(items).Some?
    requires forall j :: i < j < |items| ==> ItemCode(items[j]) != ItemCode(items[i])
    ensures ItemCode(items[i]).value in PositionsOf(items).value.m
    ensures PositionsOf(items).value.m[ItemCode(items[i]).value] == HoldingQty(items[i].entries)
  {
    var init := items[..|items| - 1];
    if i < |init| {
      assert init[i] == items[i];
      assert forall j :: i < j < |init| ==> init[j] == items[j];
      PositionsLastWins(init, i);
    }
  }

  /** Positions are read entry by entry: the list fails exactly when one of
      its entries is not a dict; otherwise every entry with a code gives a
      key, and a code listed twice keeps the quantity of its last entry. */
  lemma PositionsMeaning(items: seq<Value>)
    ensures PositionsOf(items).None? <==> exists i :: 0 <= i < |items| && !items[i].Obj?
    ensures PositionsOf(items).Some? ==>
      && WellFormed(PositionsOf(items).value)
      && PositionsOf(items).value.m.Keys == HoldingCodes(items)
      && forall i :: (0 <= i < |items| && ItemCode(items[i]).Some?
           && (forall j :: i < j < |items| ==> ItemCode(items[j]) != ItemCode(items[i])))
           ==> PositionsOf(items).value.m[ItemCode(items[i]).value] == HoldingQty(items[i].entries)
  {
    PositionsFail(items);
    PositionsKeys(items);
    if PositionsOf(items).Some? {
      forall i | 0 <= i < |items| && ItemCode(items[i]).Some?
        && (forall j :: i < j < |items| ==> ItemCode(items[j]) != ItemCode(items[i]))
        ensures PositionsOf(items).value.m[ItemCode(items[i]).value] == HoldingQty(items[i].entries)
      {
        PositionsLastWins(items, i);
      }
    }
  }

  // ---------------------------------------------------------------------
  // Cash, D+2 cash and net assets

  /** The summary dict: `output2[0]` when `output2` is a non-empty list
      (or {} when that is not a dict), `output2` when it is a dict, else
      `output or {}` when that is a dict, else {}. */
  function SummaryOf(bal: seq<(string, Value)>): seq<(string, Value)> {
    var raw := Field(bal, "output2");
    if raw.Arr? && raw.items != [] then
      (if raw.items[0].Obj? then raw.items[0].entries else [])
    else if raw.Obj? then raw.entries
    else
      var out := Or(Field(bal, "output"), Obj([]));
      if out.Obj? then out.entries else []
  }

  const OrdCashKeys: seq<string> := ["ord_psbl_cash", "ORD_PSBL_CASH", "주문가능현금", "ord_psbl_cash_amt", "ord_psbl_amt", "주문가능현금액"]
  const DepTotalKeys: seq<string> := ["dnca_tot_amt", "DNCA_TOT_AMT", "예수금총액", "dpsast_totamt", "DPSAST_TOTAMT", "예탁자산총액"]
  const NextDayKeys: seq<string> := ["nxdy_excc_amt", "NXDY_EXCC_AMT", "D+1예수금"]
  const D2Keys: seq<string> := ["d2_excc_amt", "D2_EXCC_AMT", "D+2예수금", "nxdy_excc_amt2", "NXDY_EXCC_AMT2", "다음날예수금2", "prvs_rcdl_excc_amt", "PRVS_RCDL_EXCC_AMT", "이전정산예수금"]
  const NetAssetKeys: seq<string> := ["nass_amt", "NASS_AMT", "순자산금액", "tot_evlu_amt", "TOT_EVLU_AMT", "총평가금액"]

  /** A `_pick` result as the Python value it is. */
  function AsValue(p: Option<Value>): Value {
    if p.Some? then p.value else Null
  }

  /** `float(x) if x is not None else default`, the default also where
      `float` raises. */
  function NumberOr(v: Value, default: real): real {
    if v == Null then default
    else
      var n := NumberOf(v);
      if n.Some? then n.value else default
  }

  /** `cash_value = ord_cash or d2_excc or nxdy_excc or dep_total`, then
      `float(cash_value)`, 0.0 when None or unreadable. */
  function CashChoice(ord: Option<Value>, d2: Option<Value>, nextDay: Option<Value>, depTotal: Option<Value>): real {
    NumberOr(Or(Or(Or(AsValue(ord), AsValue(d2)), AsValue(nextDay)), AsValue(depTotal)), 0.0)
  }

  /** The cash the planner is given. */
  function CashOf(summary: seq<(string, Value)>): real {
    CashChoice(Pick(summary, OrdCashKeys), Pick(summary, D2Keys), Pick(summary, NextDayKeys), Pick(summary, DepTotalKeys))
  }

  /** The D+2 balance; None when absent or unreadable. */
  function D2Of(summary: seq<(string, Value)>): Option<real> {
    var p := Pick(summary, D2Keys);
    if p.None? then None else NumberOf(p.value)
  }

  /** The net asset value, 0.0 when absent or unreadable. */
  function NetAssetOf(summary: seq<(string, Value)>): real {
    NumberOr(AsValue(Pick(summary, NetAssetKeys)), 0.0)
  }

  /** What `float` reads from a value, 0.0 where it raises. */
  function Reading(v: Value): real {
    var n := NumberOf(v);
    if n.Some? then n.value else 0.0
  }

  /** The cash is read from the first of orderable cash, D+2, D+1 and total
      deposit whose value is truthy; when none is, from the total deposit
      as it is; an unreadable or missing value gives 0.0. So a numeric zero
      orderable cash falls through to the next source. */
  lemma CashChoiceOrder(ord: Option<Value>, d2: Option<Value>, nextDay: Option<Value>, depTotal: Option<Value>)
    ensures ord.Some? && Truthy(ord.value) ==> CashChoice(ord, d2, nextDay, depTotal) == Reading(ord.value)
    ensures !(ord.Some? && Truthy(ord.value)) && d2.Some? && Truthy(d2.value) ==>
      CashChoice(ord, d2, nextDay, depTotal) == Reading(d2.value)
    ensures !(ord.Some? && Truthy(ord.value)) && !(d2.Some? && Truthy(d2.value)) && nextDay.Some? && Truthy(nextDay.value) ==>
      CashChoice(ord, d2, nextDay, depTotal) == Reading(nextDay.value)
    ensures (forall p :: p in [ord, d2, nextDay] ==> !(p.Some? && Truthy(p.value))) ==>
      CashChoice(ord, d2, nextDay, depTotal) == (if depTotal.Some? then Reading(depTotal.value) else 0.0)
    ensures ord == Some(Num(0.0)) && d2 == Some(Num(5.0)) ==> CashChoice(ord, d2, nextDay, depTotal) == 5.0
  {
    if forall p :: p in [ord, d2, nextDay] ==> !(p.Some? && Truthy(p.value)) {
      assert ord in [ord, d2, nextDay] && d2 in [ord, d2, nextDay] && nextDay in [ord, d2, nextDay];
    }
  }

  /** The part of `get_positions_and_cash` after the broker call; None when
      it raises. */
  datatype Balance = Balance(positions: Dict<int>, cash: real, d2Cash: Option<real>, netAsset: real)

  /** Naming the cash source calls `float(d2_excc)` outside any `try`: it
      raises when no orderable cash is found and the D+2 value is present
      but not a number. */
  predicate CashSourceRaises(summary: seq<(string, Value)>) {
    var d2 := Pick(summary, D2Keys);
    Pick(summary, OrdCashKeys).None? && d2.Some? && NumberOf(d2.value).None?
  }

  function BalanceOf(bal: seq<(string, Value)>): Option<Balance> {
    var positions := BalancePositions(bal);
    var summary := SummaryOf(bal);
    if positions.None? || CashSourceRaises(summary) then None
    else Some(Balance(positions.value, CashOf(summary), D2Of(summary), NetAssetOf(summary)))
  }

  /** The account is read from the same summary dict for its three amounts;
      reading fails exactly on a malformed holdings list, or when the D+2
      value that would name the cash source is unreadable. When the D+2
      value is the first cash source found, it is also the D+2 balance
      returned. */
  lemma BalanceOfMeaning(bal: seq<(string, Value)>)
    ensures BalanceOf(bal).None? <==>
      || (HoldingItems(bal).Arr? && exists i :: 0 <= i < |HoldingItems(bal).items| && !HoldingItems(bal).items[i].Obj?)
      || CashSourceRaises(SummaryOf(bal))
    ensures BalanceOf(bal).Some? ==> WellFormed(BalanceOf(bal).value.positions)
    ensures BalanceOf(bal).Some? && Pick(SummaryOf(bal), OrdCashKeys).None? && Pick(SummaryOf(bal), D2Keys).Some? ==>
      BalanceOf(bal).value.d2Cash == NumberOf(Pick(SummaryOf(bal), D2Keys).value)
      && BalanceOf(bal).value.d2Cash.Some?
  {
    if HoldingItems(bal).Arr? {
      PositionsMeaning(HoldingItems(bal).items);
    }
  }

  // ---------------------------------------------------------------------
  // Expected positions

  /** The codes of a list of orders in order of first appearance: the key
      order of the dict `get_pending_positions` builds. */
  function FirstSeen(orders: seq<DailyOrder>): (r: seq<Code>)
    ensures Distinct(r)
  {
    if orders == [] then []
    else
      var init := FirstSeen(orders[..|orders| - 1]);
      var c := orders[|orders| - 1].code;
      if c in init then init else init + [c]
  }

  lemma {:induction false} FirstSeenCodes(orders: seq<DailyOrder>)
    ensures forall c :: c in FirstSeen(orders) <==> c in CodesIn(orders)
  {
    if orders != [] {
      FirstSeenCodes(orders[..|orders| - 1]);
      CodesInSnoc(orders);
    }
  }

  /** The net open quantity `pm` holds for `c`, zero when it has none. */
  function OpenQty(pm: map<Code, int>, c: Code): int {
    if c in pm then pm[c] else 0
  }

  /** `expected[code] = expected.get(code, 0) + pending_qty` over `codes`. */
  function Merge(positions: Dict<int>, codes: seq<Code>, pm: map<Code, int>): Dict<int> {
    if codes == [] then positions
    else
      var before := Merge(positions, codes[..|codes| - 1], pm);
      var c := codes[|codes| - 1];
      Put(before, c, Get(before, c, 0) + OpenQty(pm, c))
  }

  lemma {:induction false} MergeOrder(positions: Dict<int>, codes: seq<Code>, pm: map<Code, int>)
    requires WellFormed(positions)
    ensures var r := Merge(positions, codes, pm);
      WellFormed(r) && |positions.keys| <= |r.keys| && r.keys[..|positions.keys|] == positions.keys
  {
    if codes != [] {
      var last := codes[|codes| - 1];
      MergeOrder(positions, codes[..|codes| - 1], pm);
      var before := Merge(positions, codes[..|codes| - 1], pm);
      var r := Put(before, last, Get(before, last, 0) + OpenQty(pm, last));
      assert r.keys[..|positions.keys|] == before.keys[..|positions.keys|];
    }
  }

  lemma {:induction false} MergeDomain(positions: Dict<int>, codes: seq<Code>, pm: map<Code, int>)
    ensures Merge(positions, codes, pm).m.Keys == positions.m.Keys + (set c | c in codes)
  {
    if codes != [] {
      var init := codes[..|codes| - 1];
      var last := codes[|codes| - 1];
      MergeDomain(positions, init, pm);
      assert (set c | c in codes) == (set c | c in init) + {last} by {
        assert codes == init + [last];
      }
    }
  }

  lemma MergeKeys(positions: Dict<int>, codes: seq<Code>, pm: map<Code, int>)
    requires WellFormed(positions)
    ensures var r := Merge(positions, codes, pm);
      && WellFormed(r)
      && |positions.keys| <= |r.keys| && r.keys[..|positions.keys|] == positions.keys
      && r.m.Keys == positions.m.Keys + (set c | c in codes)
  {
    MergeOrder(positions, codes, pm);
    MergeDomain(positions, codes, pm);
  }

  lemma {:induction false} MergeAt(positions: Dict<int>, codes: seq<Code>, pm: map<Code, int>, c: Code)
    requires Distinct(codes)
    ensures Get(Merge(positions, codes, pm), c, 0) == Get(positions, c, 0) + (if c in codes then OpenQty(pm, c) else 0)
  {
    if codes != [] {
      var init := codes[..|codes| - 1];
      assert Distinct(init);
      MergeAt(positions, init, pm, c);
      assert codes == init + [codes[|codes| - 1]];
    }
  }

  lemma MergeMeaning(positions: Dict<int>, codes: seq<Code>, pm: map<Code, int>)
    requires WellFormed(positions) && Distinct(codes)
    ensures var r := Merge(positions, codes, pm);
      && WellFormed(r)
      && |positions.keys| <= |r.keys| && r.keys[..|positions.keys|] == positions.keys
      && r.m.Keys == positions.m.Keys + (set c | c in codes)
      && forall c :: Get(r, c, 0) == Get(positions, c, 0) + (if c in codes then OpenQty(pm, c) else 0)
  {
    MergeKeys(positions, codes, pm);
    forall c {
      MergeAt(positions, codes, pm, c);
    }
  }

  /** The current positions with the net open quantity of `pending` added,
      instrument by instrument in the order the pending dict lists them. */
  function MergePending(positions: Dict<int>, pending: seq<DailyOrder>): Dict<int> {
    Merge(positions, FirstSeen(pending), PendingMap(pending))
  }

  /** The expected positions of `get_positions_with_daily_orders`: the
      current ones plus the net open quantity per instrument; the current
      ones themselves when the daily inquiry fails (`daily` None). */
  function ExpectedPositions(positions: Dict<int>, daily: Option<Output1>): Dict<int> {
    if daily.None? then positions
    else MergePending(positions, PendingOrders(ParsedResponse(daily.value)))
  }

  method MergePendingPositions(positions: Dict<int>, pending: seq<DailyOrder>) returns (expected: Dict<int>)
    ensures expected == MergePending(positions, pending)
  {
    var pendingPositions := GetPendingPositions(pending);
    var codes := FirstSeen(pending);
    expected := positions;
    for i := 0 to |codes|
      invariant expected == Merge(positions, codes[..i], pendingPositions)
    {
      var code := codes[i];
      assert codes[..i + 1] == codes[..i] + [code];
      assert Merge(positions, codes[..i + 1], pendingPositions)
          == Put(expected, code, Get(expected, code, 0) + OpenQty(pendingPositions, code));
      expected := Put(expected, code, Get(expected, code, 0) + OpenQty(pendingPositions, code));
    }
    assert codes[..|codes|] == codes;
  }

  method GetExpectedPositions(positions: Dict<int>, daily: Option<Output1>) returns (expected: Dict<int>)
    ensures expected == ExpectedPositions(positions, daily)
  {
    if daily.None? {
      return positions;
    }
    var dailyOrders := ParseDailyOrders(daily.value);
    var pendingOrders := PendingOrders(dailyOrders);
    expected := MergePendingPositions(positions, pendingOrders);
  }

  lemma MergePendingAt(positions: Dict<int>, pending: seq<DailyOrder>, c: Code)
    ensures Get(MergePending(positions, pending), c, 0) == Get(positions, c, 0) + PendingNet(pending, c)
  {
    MergeAt(positions, FirstSeen(pending), PendingMap(pending), c);
    FirstSeenCodes(pending);
    PendingMapMeaning(pending);
  }

  /** Every instrument is expected at its current quantity plus its net open
      quantity (BUYs minus SELLs still open); held instruments keep their
      place and instruments only on order come after them. */
  lemma MergePendingMeaning(positions: Dict<int>, pending: seq<DailyOrder>)
    requires WellFormed(positions)
    ensures var r := MergePending(positions, pending);
      && WellFormed(r)
      && |positions.keys| <= |r.keys| && r.keys[..|positions.keys|] == positions.keys
      && r.m.Keys == positions.m.Keys + CodesIn(pending)
      && forall c :: Get(r, c, 0) == Get(positions, c, 0) + PendingNet(pending, c)
  {
    var codes := FirstSeen(pending);
    MergeKeys(positions, codes, PendingMap(pending));
    FirstSeenCodes(pending);
    assert (set c | c in codes) == CodesIn(pending);
    forall c {
      MergePendingAt(positions, pending, c);
    }
  }

  /** When the daily inquiry fails the current positions are expected as
      they are; otherwise the open orders of the parsed response are added. */
  lemma ExpectedPositionsMeaning(positions: Dict<int>, daily: Option<Output1>)
    requires WellFormed(positions)
    ensures daily.None? ==> ExpectedPositions(positions, daily) == positions
    ensures daily.Some? ==>
      var pending := PendingOrders(ParsedResponse(daily.value));
      var r := ExpectedPositions(positions, daily);
      && WellFormed(r)
      && r.m.Keys == positions.m.Keys + CodesIn(pending)
      && forall c :: Get(r, c, 0) == Get(positions, c, 0) + PendingNet(pending, c)
  {
    if daily.Some? {
      MergePendingMeaning(positions, PendingOrders(ParsedResponse(daily.value)));
    }
  }
}
