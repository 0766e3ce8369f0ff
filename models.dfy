/** Shared data model of the planner: the order record it emits, optional
    values, insertion-ordered dictionaries, and the stable sort the planners
    apply to instrument codes. */
module Models {

  /** Instrument code, e.g. "379810". */
  type Code = string

  datatype Option<T> = None | Some(value: T)

  /** Side of an order. The source keeps it as the text "BUY" or "SELL". */
  datatype Side = Buy | Sell

  /** One planned order (OrderPlan): `limit == None` is a market order. */
  datatype Order = Order(code: Code, side: Side, qty: int, limit: Option<real>)

  /** A Python dict: its keys in insertion order, and the mapping itself. */
  datatype Dict<V> = Dict(keys: seq<Code>, m: map<Code, V>)

  predicate Distinct(s: seq<Code>) {
    forall i, j :: 0 <= i < j < |s| ==> s[i] != s[j]
  }

  ghost predicate WellFormed<V>(d: Dict<V>) {
    Distinct(d.keys) && (forall k :: k in d.m <==> k in d.keys)
  }

  function EmptyDict<V>(): (d: Dict<V>)
    ensures WellFormed(d) && d.keys == [] && d.m == map[]
  {
    Dict([], map[])
  }

  /** `d.get(k, default)` */
  function Get<V>(d: Dict<V>, k: Code, default: V): V {
    if k in d.m then d.m[k] else default
  }

  /** `d[k] = v`: an existing key keeps its place, a new key goes last. */
  function Put<V>(d: Dict<V>, k: Code, v: V): (r: Dict<V>)
    ensures WellFormed(d) ==> WellFormed(r)
    ensures r.m == d.m[k := v]
    ensures k in d.m ==> r.keys == d.keys
    ensures k !in d.m ==> r.keys == d.keys + [k]
  {
    if k in d.m then Dict(d.keys, d.m[k := v]) else Dict(d.keys + [k], d.m[k := v])
  }

  /** `prices.get(code, 0.0)` */
  function PriceOf(prices: map<Code, real>, c: Code): real {
    if c in prices then prices[c] else 0.0
  }

  /** `qty * price`: the value of `qty` shares at `price`, written as repeated
      addition so that it stays linear for the solver; `CostIsProduct`
      shows it is the product. */
  function Cost(qty: int, price: real): real
    decreases if qty < 0 then -qty else qty
  {
    if qty == 0 then 0.0
    else if qty > 0 then Cost(qty - 1, price) + price
    else Cost(qty + 1, price) - price
  }

  lemma {:induction false} CostIsProduct(qty: int, price: real)
    ensures Cost(qty, price) == qty as real * price
    decreases if qty < 0 then -qty else qty
  {
    if qty > 0 {
      CostIsProduct(qty - 1, price);
    } else if qty < 0 {
      CostIsProduct(qty + 1, price);
    }
  }

  /** More shares at a positive price cost more. */
  lemma {:induction false} CostStrictlyMonotone(a: int, b: int, price: real)
    requires price > 0.0
    ensures a < b ==> Cost(a, price) < Cost(b, price)
    decreases if a < b then b - a else 0
  {
    if a < b {
      CostSucc(a, price);
      CostStrictlyMonotone(a + 1, b, price);
    }
  }

  lemma CostSucc(qty: int, price: real)
    ensures Cost(qty + 1, price) == Cost(qty, price) + price
  {
    if qty < 0 {
      assert Cost(qty, price) == Cost(qty + 1, price) - price;
    }
  }

  /** The value of two lots together is the sum of their values. */
  lemma CostAdds(a: int, b: int, price: real)
    ensures Cost(a + b, price) == Cost(a, price) + Cost(b, price)
  {
    CostIsProduct(a, price);
    CostIsProduct(b, price);
    CostIsProduct(a + b, price);
    assert (a + b) as real * price == a as real * price + b as real * price;
  }

  /** Order value at the given prices (`order.qty * price`). */
  function Notional(o: Order, prices: map<Code, real>): real {
    Cost(o.qty, PriceOf(prices, o.code))
  }

  /** Sum of the notionals of a plan. */
  function TotalNotional(plan: seq<Order>, prices: map<Code, real>): real {
    if plan == [] then 0.0
    else TotalNotional(plan[..|plan| - 1], prices) + Notional(plan[|plan| - 1], prices)
  }

  /** The orders of a plan on one side, in plan order
      (`[o for o in plan if o.side == side]`). */
  function OfSide(plan: seq<Order>, side: Side): (r: seq<Order>)
    ensures |r| <= |plan|
    ensures forall i :: 0 <= i < |r| ==> r[i].side == side
  {
    if plan == [] then []
    else OfSide(plan[..|plan| - 1], side) + (if plan[|plan| - 1].side == side then [plan[|plan| - 1]] else [])
  }

  lemma OfSideSnoc(plan: seq<Order>, o: Order, side: Side)
    ensures OfSide(plan + [o], side) == OfSide(plan, side) + (if o.side == side then [o] else [])
  {
    assert (plan + [o])[..|plan|] == plan;
  }

  lemma {:induction false} OfSidePartition(plan: seq<Order>)
    ensures |OfSide(plan, Sell)| + |OfSide(plan, Buy)| == |plan|
    ensures multiset(OfSide(plan, Sell) + OfSide(plan, Buy)) == multiset(plan)
  {
    if plan != [] {
      var init := plan[..|plan| - 1];
      OfSidePartition(init);
      assert plan == init + [plan[|plan| - 1]];
    }
  }

  /** The BUYs of SELLs followed by BUYs are those BUYs. */
  lemma {:induction false} OfSideBuys(sells: seq<Order>, buys: seq<Order>)
    requires forall i :: 0 <= i < |sells| ==> sells[i].side == Sell
    requires forall i :: 0 <= i < |buys| ==> buys[i].side == Buy
    ensures OfSide(sells + buys, Buy) == buys
  {
    if buys == [] {
      OfSideNone(sells, Buy);
      assert sells + buys == sells;
    } else {
      var init := buys[..|buys| - 1];
      OfSideBuys(sells, init);
      assert sells + buys == (sells + init) + [buys[|buys| - 1]];
      OfSideSnoc(sells + init, buys[|buys| - 1], Buy);
      assert init + [buys[|buys| - 1]] == buys;
    }
  }

  /** A plan with no order on a side has nothing on that side. */
  lemma {:induction false} OfSideNone(plan: seq<Order>, side: Side)
    requires forall i :: 0 <= i < |plan| ==> plan[i].side != side
    ensures OfSide(plan, side) == []
  {
    if plan != [] {
      OfSideNone(plan[..|plan| - 1], side);
    }
  }

  /** Every SELL comes before every BUY. */
  predicate SellsBeforeBuys(plan: seq<Order>) {
    forall i, j :: 0 <= i < j < |plan| && plan[i].side == Buy ==> plan[j].side == Buy
  }

  /** No instrument code appears twice. */
  predicate CodesUnique(plan: seq<Order>) {
    forall i, j :: 0 <= i < j < |plan| ==> plan[i].code != plan[j].code
  }

  lemma SellsThenBuys(sells: seq<Order>, buys: seq<Order>)
    requires forall i :: 0 <= i < |sells| ==> sells[i].side == Sell
    requires forall i :: 0 <= i < |buys| ==> buys[i].side == Buy
    ensures SellsBeforeBuys(sells + buys)
  {
  }

  /** SELLs then BUYs, each of positive quantity and without a limit, make a
      plan with SELLs first, positive quantities and no limits. */
  lemma SellsThenBuysMarket(sells: seq<Order>, buys: seq<Order>)
    requires forall i :: 0 <= i < |sells| ==> sells[i].side == Sell && sells[i].qty > 0 && sells[i].limit == None
    requires forall i :: 0 <= i < |buys| ==> buys[i].side == Buy && buys[i].qty > 0 && buys[i].limit == None
    ensures SellsBeforeBuys(sells + buys)
    ensures forall i :: 0 <= i < |sells + buys| ==> (sells + buys)[i].qty > 0 && (sells + buys)[i].limit == None
  {
    SellsThenBuys(sells, buys);
  }

  function Max(a: int, b: int): int { if a < b then b else a }

  function Min(a: int, b: int): int { if a < b then a else b }

  function MaxR(a: real, b: real): real { if a < b then b else a }

  function MinR(a: real, b: real): real { if a < b then a else b }

  function Abs(x: int): int { if x < 0 then -x else x }

  function AbsR(x: real): real { if x < 0.0 then -x else x }

  function KeyOf(key: map<Code, real>, c: Code): real {
    if c in key then key[c] else 0.0
  }

  predicate SortedBy(xs: seq<Code>, key: map<Code, real>) {
    forall i, j :: 0 <= i < j < |xs| ==> KeyOf(key, xs[i]) <= KeyOf(key, xs[j])
  }

  /** Places `x` after every element whose key is not larger than its own. */
  function Insert(x: Code, s: seq<Code>, key: map<Code, real>): (r: seq<Code>)
    ensures multiset(r) == multiset(s) + multiset{x}
  {
    if s == [] then [x]
    else if KeyOf(key, x) < KeyOf(key, s[0]) then [x] + s
    else
      assert s == [s[0]] + s[1..];
      [s[0]] + Insert(x, s[1..], key)
  }

  lemma {:induction false} InsertSorted(x: Code, s: seq<Code>, key: map<Code, real>)
    requires SortedBy(s, key)
    ensures SortedBy(Insert(x, s, key), key)
  {
    if s == [] {
    } else if KeyOf(key, x) < KeyOf(key, s[0]) {
      forall i | 0 <= i < |s| ensures KeyOf(key, x) <= KeyOf(key, s[i]) {
        assert i == 0 || KeyOf(key, s[0]) <= KeyOf(key, s[i]);
      }
      SortedConsLower(x, s, key);
    } else {
      InsertSorted(x, s[1..], key);
      SortedInsertBehind(x, s, key);
    }
  }

  /** Inserting an element whose key is at least `k` into elements whose
      keys are at least `k` keeps every key at least `k`. */
  lemma {:induction false} InsertLowerBound(x: Code, s: seq<Code>, key: map<Code, real>, k: real)
    requires KeyOf(key, x) >= k
    requires forall i :: 0 <= i < |s| ==> KeyOf(key, s[i]) >= k
    ensures forall i :: 0 <= i < |Insert(x, s, key)| ==> KeyOf(key, Insert(x, s, key)[i]) >= k
  {
    if s != [] && KeyOf(key, x) >= KeyOf(key, s[0]) {
      var t := Insert(x, s[1..], key);
      InsertLowerBound(x, s[1..], key, k);
      assert Insert(x, s, key) == [s[0]] + t;
    }
  }

  lemma SortedInsertBehind(x: Code, s: seq<Code>, key: map<Code, real>)
    requires SortedBy(s, key) && s != [] && KeyOf(key, x) >= KeyOf(key, s[0])
    requires SortedBy(Insert(x, s[1..], key), key)
    ensures SortedBy([s[0]] + Insert(x, s[1..], key), key)
  {
    var k0 := KeyOf(key, s[0]);
    forall i | 0 <= i < |s[1..]| ensures KeyOf(key, s[1..][i]) >= k0 {
      assert s[1..][i] == s[i + 1];
    }
    InsertLowerBound(x, s[1..], key, k0);
    SortedConsLower(s[0], Insert(x, s[1..], key), key);
  }

  /** An element whose key is at most every key of a sorted sequence can go
      in front of it. */
  lemma SortedConsLower(a: Code, t: seq<Code>, key: map<Code, real>)
    requires SortedBy(t, key)
    requires forall i :: 0 <= i < |t| ==> KeyOf(key, a) <= KeyOf(key, t[i])
    ensures SortedBy([a] + t, key)
  {
    var r := [a] + t;
    forall i, j | 0 <= i < j < |r| ensures KeyOf(key, r[i]) <= KeyOf(key, r[j]) {
      if i == 0 {
        assert r[j] == t[j - 1];
      } else {
        assert r[i] == t[i - 1] && r[j] == t[j - 1];
      }
    }
  }

  lemma {:induction false} InsertDistinct(x: Code, s: seq<Code>, key: map<Code, real>)
    requires Distinct(s) && x !in s
    ensures Distinct(Insert(x, s, key))
  {
    if s != [] && KeyOf(key, x) >= KeyOf(key, s[0]) {
      var t := Insert(x, s[1..], key);
      InsertDistinct(x, s[1..], key);
      assert s[0] !in s[1..];
      assert s[0] !in multiset(t);
    }
  }

  /** Python's stable `sorted(xs, key=...)`, ascending: an insertion sort in
      which an element goes after the earlier elements of equal key. */
  function SortByKey(xs: seq<Code>, key: map<Code, real>): seq<Code> {
    if xs == [] then []
    else Insert(xs[|xs| - 1], SortByKey(xs[..|xs| - 1], key), key)
  }

  /** The sort is an ordered permutation of its input, and keeps distinct
      elements distinct. */
  lemma SortByKeyCorrect(xs: seq<Code>, key: map<Code, real>)
    ensures multiset(SortByKey(xs, key)) == multiset(xs)
    ensures SortedBy(SortByKey(xs, key), key)
    ensures Distinct(xs) ==> Distinct(SortByKey(xs, key))
  {
    SortByKeyPermutes(xs, key);
    SortByKeySorted(xs, key);
    if Distinct(xs) {
      SortByKeyDistinct(xs, key);
    }
  }

  lemma {:induction false} SortByKeyPermutes(xs: seq<Code>, key: map<Code, real>)
    ensures multiset(SortByKey(xs, key)) == multiset(xs)
  {
    if xs != [] {
      var init := xs[..|xs| - 1];
      SortByKeyPermutes(init, key);
      assert xs == init + [xs[|xs| - 1]];
    }
  }

  lemma {:induction false} SortByKeySorted(xs: seq<Code>, key: map<Code, real>)
    ensures SortedBy(SortByKey(xs, key), key)
  {
    if xs != [] {
      var init := xs[..|xs| - 1];
      SortByKeySorted(init, key);
      InsertSorted(xs[|xs| - 1], SortByKey(init, key), key);
    }
  }

  lemma {:induction false} SortByKeyDistinct(xs: seq<Code>, key: map<Code, real>)
    requires Distinct(xs)
    ensures Distinct(SortByKey(xs, key))
  {
    if xs != [] {
      var init := xs[..|xs| - 1];
      var x := xs[|xs| - 1];
      var rest := SortByKey(init, key);
      SortByKeyDistinct(init, key);
      SortByKeyPermutes(init, key);
      assert x !in init;
      assert x !in multiset(rest);
      InsertDistinct(x, rest, key);
    }
  }

  /** Sorting neither adds nor drops an element. */
  lemma SortByKeyMembers(xs: seq<Code>, key: map<Code, real>)
    ensures forall c :: c in SortByKey(xs, key) <==> c in xs
  {
    SortByKeyPermutes(xs, key);
    forall c ensures c in SortByKey(xs, key) <==> c in xs {
      assert c in SortByKey(xs, key) <==> c in multiset(SortByKey(xs, key));
      assert c in xs <==> c in multiset(xs);
    }
  }

  /** An element whose key is at least every key of `s` goes last. */
  lemma {:induction false} InsertLast(x: Code, s: seq<Code>, key: map<Code, real>)
    requires forall y :: y in s ==> KeyOf(key, y) <= KeyOf(key, x)
    ensures Insert(x, s, key) == s + [x]
  {
    if s != [] {
      var t := s[1..];
      assert s == [s[0]] + t;
      assert Insert(x, s, key) == [s[0]] + Insert(x, t, key);
      InsertLast(x, t, key);
    }
  }

  /** The sort is stable: a sequence already in key order comes back as it
      was. */
  lemma {:induction false} SortByKeyStable(xs: seq<Code>, key: map<Code, real>)
    requires SortedBy(xs, key)
    ensures SortByKey(xs, key) == xs
  {
    if xs != [] {
      var init := xs[..|xs| - 1];
      var last := xs[|xs| - 1];
      SortedInit(xs, key);
      SortByKeyStable(init, key);
      InsertLast(last, init, key);
      assert init + [last] == xs;
    }
  }

  lemma SortedInit(xs: seq<Code>, key: map<Code, real>)
    requires SortedBy(xs, key) && xs != []
    ensures SortedBy(xs[..|xs| - 1], key)
    ensures forall y :: y in xs[..|xs| - 1] ==> KeyOf(key, y) <= KeyOf(key, xs[|xs| - 1])
  {
    var init := xs[..|xs| - 1];
    forall i, j | 0 <= i < j < |init| ensures KeyOf(key, init[i]) <= KeyOf(key, init[j]) {
      assert init[i] == xs[i] && init[j] == xs[j];
    }
    forall y | y in init ensures KeyOf(key, y) <= KeyOf(key, xs[|xs| - 1]) {
      var i :| 0 <= i < |init| && init[i] == y;
      assert xs[i] == y;
    }
  }

  /** The key map of a descending sort: `key=lambda x: -k[x]`. */
  function Negated(key: map<Code, real>): (r: map<Code, real>)
    ensures r.Keys == key.Keys
    ensures forall c :: KeyOf(r, c) == -KeyOf(key, c)
  {
    map c | c in key :: -key[c]
  }

  /** `[x for x in s if keep(x)]` */
  function Filter<T>(s: seq<T>, keep: T -> bool): (r: seq<T>)
    ensures |r| <= |s|
    ensures forall i :: 0 <= i < |r| ==> keep(r[i])
  {
    if s == [] then []
    else Filter(s[..|s| - 1], keep) + (if keep(s[|s| - 1]) then [s[|s| - 1]] else [])
  }

  lemma {:induction false} FilterAppend<T>(a: seq<T>, b: seq<T>, keep: T -> bool)
    ensures Filter(a + b, keep) == Filter(a, keep) + Filter(b, keep)
  {
    if b == [] {
      assert a + b == a;
    } else {
      var init := b[..|b| - 1];
      assert (a + b)[..|a + b| - 1] == a + init;
      FilterAppend(a, init, keep);
    }
  }

  /** A filter keeps every wanted element as often as it occurs, and nothing
      else. */
  lemma {:induction false} FilterMultiset<T>(s: seq<T>, keep: T -> bool)
    ensures forall x :: multiset(Filter(s, keep))[x] == if keep(x) then multiset(s)[x] else 0
  {
    if s != [] {
      var init := s[..|s| - 1];
      assert s == init + [s[|s| - 1]];
      FilterMultiset(init, keep);
    }
  }
}
