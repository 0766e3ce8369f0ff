/** Safeguards for executing a plan against a broker that has no
    transactions: per-order checkpoints with a rollback decision and a
    rollback plan, and a conservative mode that runs the SELLs first and
    stops before any BUY when a SELL fails. The broker's answer to each
    order is an input. */
module TransactionProtection {
  import opened Models
  import opened OrderOptimizer

  /** What `broker.order_cash` gave for one order: a response whose
      `success` is truthy, any other response (None, or `success` missing
      or falsy), or an exception. */
  datatype Outcome = Accepted(orderId: Option<string>) | Rejected | Raised(error: string)

  datatype Status = Pending | Succeeded | Failed

  /** One checkpoint: the order's position, the order itself and how it
      ended. The timestamp is not modelled. */
  datatype Checkpoint = Checkpoint(orderIndex: nat, order: Order, status: Status)

  /** The `results` dict of `execute_with_checkpoints`. */
  datatype Report = Report(
    totalOrders: nat, successfulOrders: nat, failedOrders: nat,
    checkpoints: seq<Checkpoint>, rollbackRequired: bool, partialExecution: bool)

  /** A value, or the exception that ended the call. */
  datatype Result<T> = Ok(value: T) | Err(error: string)

  const DivisionByZero: string := "division by zero"

  function StatusOf(out: Outcome): (s: Status)
    ensures s != Pending
    ensures s == Succeeded <==> out.Accepted?
  {
    if out.Accepted? then Succeeded else Failed
  }

  // ---------------------------------------------------------------------
  // execute_with_checkpoints

  /** The counters, the partial-execution flag and the checkpoints after
      some of the orders. */
  datatype Progress = Progress(successful: nat, failed: nat, partial: bool, checkpoints: seq<Checkpoint>)

  /** One pass of the loop: record the checkpoint, count it, and flag a
      partial execution when a failure follows a success. */
  function CheckpointStep(p: Progress, i: nat, o: Order, out: Outcome): Progress {
    var cp := Checkpoint(i, o, StatusOf(out));
    if out.Accepted? then Progress(p.successful + 1, p.failed, p.partial, p.checkpoints + [cp])
    else Progress(p.successful, p.failed + 1, p.partial || p.successful > 0, p.checkpoints + [cp])
  }

  /** The loop over `orders`; `broker(o, i)` is the broker's answer to the
      `i`-th order. */
  function CheckpointRun(orders: seq<Order>, broker: (Order, nat) -> Outcome): Progress {
    if orders == [] then Progress(0, 0, false, [])
    else
      var n := |orders| - 1;
      CheckpointStep(CheckpointRun(orders[..n], broker), n, orders[n], broker(orders[n], n))
  }

  /** `_should_rollback`: a success rate under 50% and one under 70% both
      call for a rollback. */
  function ShouldRollback(successful: nat, total: nat): bool
    requires total > 0
  {
    var rate := successful as real / total as real * 100.0;
    if rate < 50.0 then true
    else if rate < 70.0 then true
    else false
  }

  /** The whole call: the success rate divides by the number of orders, so
      an empty list raises after the loop. */
  function CheckpointReport(orders: seq<Order>, broker: (Order, nat) -> Outcome): Result<Report> {
    var p := CheckpointRun(orders, broker);
    if |orders| == 0 then Err(DivisionByZero)
    else
      Ok(Report(|orders|, p.successful, p.failed, p.checkpoints,
                p.partial && ShouldRollback(p.successful, |orders|), p.partial))
  }

  /** The orders of the successful checkpoints, in checkpoint order. */
  function Executed(cps: seq<Checkpoint>): seq<Order> {
    if cps == [] then []
    else
      var last := cps[|cps| - 1];
      Executed(cps[..|cps| - 1]) + (if last.status == Succeeded then [last.order] else [])
  }

  lemma ExecutedSnoc(cps: seq<Checkpoint>, cp: Checkpoint)
    ensures Executed(cps + [cp]) == Executed(cps) + (if cp.status == Succeeded then [cp.order] else [])
  {
    assert (cps + [cp])[..|cps|] == cps;
  }

  lemma {:induction false} CheckpointRunCounts(orders: seq<Order>, broker: (Order, nat) -> Outcome)
    ensures var p := CheckpointRun(orders, broker);
      && |p.checkpoints| == |orders|
      && p.successful + p.failed == |orders|
      && p.successful == |Executed(p.checkpoints)|
  {
    if orders != [] {
      var n := |orders| - 1;
      CheckpointRunCounts(orders[..n], broker);
      var q := CheckpointRun(orders[..n], broker);
      ExecutedSnoc(q.checkpoints, Checkpoint(n, orders[n], StatusOf(broker(orders[n], n))));
    }
  }

  lemma {:induction false} CheckpointLength(orders: seq<Order>, broker: (Order, nat) -> Outcome)
    ensures |CheckpointRun(orders, broker).checkpoints| == |orders|
  {
    if orders != [] {
      CheckpointLength(orders[..|orders| - 1], broker);
    }
  }

  lemma {:induction false} CheckpointAt(orders: seq<Order>, broker: (Order, nat) -> Outcome, i: nat)
    requires i < |orders|
    ensures |CheckpointRun(orders, broker).checkpoints| == |orders|
    ensures CheckpointRun(orders, broker).checkpoints[i] == Checkpoint(i, orders[i], StatusOf(broker(orders[i], i)))
  {
    var n := |orders| - 1;
    var init := orders[..n];
    CheckpointLength(init, broker);
    var q := CheckpointRun(init, broker);
    var p := CheckpointRun(orders, broker);
    assert p.checkpoints == q.checkpoints + [Checkpoint(n, orders[n], StatusOf(broker(orders[n], n)))];
    if i < n {
      CheckpointAt(init, broker, i);
      assert init[i] == orders[i];
    }
  }

  /** One checkpoint per order, in order, holding that order and the status
      the broker's answer gives it; every order is counted once, as a
      success or as a failure, and the successes are the executed orders. */
  lemma CheckpointRunShape(orders: seq<Order>, broker: (Order, nat) -> Outcome)
    ensures var p := CheckpointRun(orders, broker);
      && |p.checkpoints| == |orders|
      && (forall i :: 0 <= i < |orders| ==>
            p.checkpoints[i] == Checkpoint(i, orders[i], StatusOf(broker(orders[i], i))))
      && p.successful + p.failed == |orders|
      && p.successful == |Executed(p.checkpoints)|
  {
    CheckpointRunCounts(orders, broker);
    forall i | 0 <= i < |orders|
      ensures CheckpointRun(orders, broker).checkpoints[i] == Checkpoint(i, orders[i], StatusOf(broker(orders[i], i)))
    {
      CheckpointAt(orders, broker, i);
    }
  }

  /** Some checkpoint succeeded. */
  predicate AnySuccess(cps: seq<Checkpoint>) {
    exists i :: 0 <= i < |cps| && cps[i].status == Succeeded
  }

  /** A successful checkpoint followed later by a failed one. */
  predicate FailureAfterSuccessIn(cps: seq<Checkpoint>) {
    exists i, j :: 0 <= i < j < |cps| && cps[i].status == Succeeded && cps[j].status == Failed
  }

  lemma {:induction false} SuccessfulPositive(orders: seq<Order>, broker: (Order, nat) -> Outcome)
    ensures var p := CheckpointRun(orders, broker);
      p.successful > 0 <==> AnySuccess(p.checkpoints)
  {
    if orders != [] {
      var n := |orders| - 1;
      SuccessfulPositive(orders[..n], broker);
      var q := CheckpointRun(orders[..n], broker);
      var p := CheckpointRun(orders, broker);
      var m := |q.checkpoints|;
      assert p.checkpoints == q.checkpoints + [p.checkpoints[m]];
      if AnySuccess(p.checkpoints) && p.checkpoints[m].status != Succeeded {
        var i :| 0 <= i < |p.checkpoints| && p.checkpoints[i].status == Succeeded;
        assert i < m && q.checkpoints[i] == p.checkpoints[i];
      }
      if q.successful > 0 {
        var i :| 0 <= i < m && q.checkpoints[i].status == Succeeded;
        assert p.checkpoints[i] == q.checkpoints[i];
      }
      if p.checkpoints[m].status == Succeeded {
        assert 0 <= m < |p.checkpoints|;
      }
    }
  }

  lemma {:induction false} PartialIn(orders: seq<Order>, broker: (Order, nat) -> Outcome)
    ensures var p := CheckpointRun(orders, broker);
      p.partial <==> FailureAfterSuccessIn(p.checkpoints)
  {
    if orders != [] {
      var n := |orders| - 1;
      PartialIn(orders[..n], broker);
      SuccessfulPositive(orders[..n], broker);
      var q := CheckpointRun(orders[..n], broker);
      var p := CheckpointRun(orders, broker);
      var m := |q.checkpoints|;
      assert p.checkpoints == q.checkpoints + [p.checkpoints[m]];
      if FailureAfterSuccessIn(p.checkpoints) {
        var i, j :| 0 <= i < j < |p.checkpoints| && p.checkpoints[i].status == Succeeded && p.checkpoints[j].status == Failed;
        assert q.checkpoints[i] == p.checkpoints[i];
        if j < m {
          assert q.checkpoints[j] == p.checkpoints[j];
        }
      }
      if q.partial {
        var i, j :| 0 <= i < j < m && q.checkpoints[i].status == Succeeded && q.checkpoints[j].status == Failed;
        assert p.checkpoints[i] == q.checkpoints[i] && p.checkpoints[j] == q.checkpoints[j];
      }
      if p.checkpoints[m].status == Failed && q.successful > 0 {
        var i :| 0 <= i < m && q.checkpoints[i].status == Succeeded;
        assert p.checkpoints[i] == q.checkpoints[i];
      }
    }
  }

  /** An order the broker accepted, followed later by one it did not. */
  predicate FailureAfterSuccess(orders: seq<Order>, broker: (Order, nat) -> Outcome) {
    exists i, j :: 0 <= i < j < |orders| && broker(orders[i], i).Accepted? && !broker(orders[j], j).Accepted?
  }

  /** A partial execution is flagged exactly when an order the broker
      accepted is followed by one it did not. */
  lemma PartialIff(orders: seq<Order>, broker: (Order, nat) -> Outcome)
    ensures CheckpointRun(orders, broker).partial <==> FailureAfterSuccess(orders, broker)
  {
    var p := CheckpointRun(orders, broker);
    PartialIn(orders, broker);
    CheckpointLength(orders, broker);
    if FailureAfterSuccess(orders, broker) {
      var i, j :| 0 <= i < j < |orders| && broker(orders[i], i).Accepted? && !broker(orders[j], j).Accepted?;
      CheckpointAt(orders, broker, i);
      CheckpointAt(orders, broker, j);
      assert p.checkpoints[i].status == Succeeded && p.checkpoints[j].status == Failed;
    }
    if FailureAfterSuccessIn(p.checkpoints) {
      var i, j :| 0 <= i < j < |p.checkpoints| && p.checkpoints[i].status == Succeeded && p.checkpoints[j].status == Failed;
      CheckpointAt(orders, broker, i);
      CheckpointAt(orders, broker, j);
      assert broker(orders[i], i).Accepted? && !broker(orders[j], j).Accepted?;
    }
  }

  lemma PositiveProduct(a: real, t: real)
    requires a > 0.0 && t > 0.0
    ensures a * t > 0.0
  {
  }

  /** `s / t * 100 < bound` is `100 * s < bound * t` for a positive `t`. */
  lemma RateBelow(s: real, t: real, bound: real)
    requires t > 0.0
    ensures s / t * 100.0 < bound <==> 100.0 * s < bound * t
  {
    var q := s / t;
    assert q * t == s;
    if q * 100.0 < bound {
      PositiveProduct(bound - q * 100.0, t);
    } else if q * 100.0 > bound {
      PositiveProduct(q * 100.0 - bound, t);
    }
  }

  /** Below 70% success the rate calls for a rollback, and only then:
      `successful / total * 100 < 70` is `10 * successful < 7 * total`. */
  lemma ShouldRollbackThreshold(successful: nat, total: nat)
    requires total > 0
    ensures ShouldRollback(successful, total) <==> 10 * successful < 7 * total
  {
    RateBelow(successful as real, total as real, 70.0);
    RateBelow(successful as real, total as real, 50.0);
  }

  /** The report counts every order once; a rollback is only ever required
      after a partial execution, and then exactly when fewer than 70% of
      the orders succeeded. An empty order list raises. */
  lemma CheckpointReportMeaning(orders: seq<Order>, broker: (Order, nat) -> Outcome)
    ensures orders == [] ==> CheckpointReport(orders, broker) == Err(DivisionByZero)
    ensures orders != [] ==>
      var r := CheckpointReport(orders, broker);
      && r.Ok?
      && r.value.totalOrders == |orders| == |r.value.checkpoints|
      && r.value.successfulOrders + r.value.failedOrders == |orders|
      && (r.value.partialExecution <==> FailureAfterSuccess(orders, broker))
      && (r.value.rollbackRequired <==>
            FailureAfterSuccess(orders, broker) && 10 * r.value.successfulOrders < 7 * |orders|)
  {
    CheckpointRunShape(orders, broker);
    PartialIff(orders, broker);
    if orders != [] {
      ShouldRollbackThreshold(CheckpointRun(orders, broker).successful, |orders|);
    }
  }

  // ---------------------------------------------------------------------
  // generate_rollback_plan

  /** A rollback entry: the opposite order and the reason "ROLLBACK". */
  datatype RollbackOrder = RollbackOrder(order: Order, reason: string)

  /** The same order on the other side: BUY becomes SELL, anything else BUY. */
  function Reversal(o: Order): (r: Order)
    ensures r.code == o.code && r.qty == o.qty && r.limit == o.limit
    ensures r.side != o.side
  {
    Order(o.code, if o.side == Buy then Sell else Buy, o.qty, o.limit)
  }

  function RollbackPlan(cps: seq<Checkpoint>): seq<RollbackOrder> {
    if cps == [] then []
    else
      var last := cps[|cps| - 1];
      RollbackPlan(cps[..|cps| - 1])
        + (if last.status == Succeeded then [RollbackOrder(Reversal(last.order), "ROLLBACK")] else [])
  }

  /** The orders a rollback plan sends. */
  function Undone(plan: seq<RollbackOrder>): (r: seq<Order>)
    ensures |r| == |plan|
  {
    if plan == [] then [] else Undone(plan[..|plan| - 1]) + [plan[|plan| - 1].order]
  }

  /** One rollback entry per successful checkpoint, in checkpoint order,
      reversing that checkpoint's order; failed checkpoints give nothing. */
  lemma {:induction false} RollbackPlanShape(cps: seq<Checkpoint>)
    ensures |RollbackPlan(cps)| == |Executed(cps)|
    ensures forall k :: 0 <= k < |Executed(cps)| ==>
      RollbackPlan(cps)[k] == RollbackOrder(Reversal(Executed(cps)[k]), "ROLLBACK")
  {
    if cps != [] {
      RollbackPlanShape(cps[..|cps| - 1]);
    }
  }

  /** Sending the rollback plan takes every instrument back to where it was
      before the executed orders: per code, the plan's net quantity is the
      negation of theirs. */
  lemma {:induction false} RollbackUndoes(cps: seq<Checkpoint>, c: Code)
    ensures SignedNet(Undone(RollbackPlan(cps)), c) == -SignedNet(Executed(cps), c)
  {
    if cps != [] {
      var init := cps[..|cps| - 1];
      var last := cps[|cps| - 1];
      RollbackUndoes(init, c);
      if last.status == Succeeded {
        var plan := RollbackPlan(cps);
        var o := Reversal(last.order);
        assert plan == RollbackPlan(init) + [RollbackOrder(o, "ROLLBACK")];
        assert plan[..|plan| - 1] == RollbackPlan(init);
        assert Undone(plan) == Undone(RollbackPlan(init)) + [o];
        assert Executed(cps) == Executed(init) + [last.order];
        SumSnoc(Undone(RollbackPlan(init)), o, SignedIn(c));
        SumSnoc(Executed(init), last.order, SignedIn(c));
        assert SignedIn(c)(o) == -SignedIn(c)(last.order);
        assert SignedNet(Undone(plan), c) == SignedNet(Undone(RollbackPlan(init)), c) + SignedIn(c)(o);
        assert SignedNet(Executed(cps), c) == SignedNet(Executed(init), c) + SignedIn(c)(last.order);
      } else {
        assert RollbackPlan(cps) == RollbackPlan(init);
        assert Executed(cps) == Executed(init);
      }
    }
  }

  /** What the rollback plan of a checkpoint run undoes: exactly the orders
      the broker accepted. */
  lemma RollbackOfRun(orders: seq<Order>, broker: (Order, nat) -> Outcome, c: Code)
    ensures var p := CheckpointRun(orders, broker);
      && |RollbackPlan(p.checkpoints)| == p.successful
      && SignedNet(Undone(RollbackPlan(p.checkpoints)), c) == -SignedNet(Executed(p.checkpoints), c)
  {
    var p := CheckpointRun(orders, broker);
    CheckpointRunShape(orders, broker);
    RollbackPlanShape(p.checkpoints);
    RollbackUndoes(p.checkpoints, c);
  }

  class TransactionProtectionManager {
    var checkpointInterval: int
    /** Every checkpoint this manager has recorded, over all its runs. */
    var checkpoints: seq<Checkpoint>

    constructor (checkpointInterval: int)
      ensures this.checkpointInterval == checkpointInterval && checkpoints == []
    {
      this.checkpointInterval := checkpointInterval;
      checkpoints := [];
    }

    method ExecuteWithCheckpoints(orders: seq<Order>, broker: (Order, nat) -> Outcome) returns (r: Result<Report>)
      modifies this
      ensures r == CheckpointReport(orders, broker)
      ensures checkpoints == old(checkpoints) + CheckpointRun(orders, broker).checkpoints
      ensures checkpointInterval == old(checkpointInterval)
    {
      var successful: nat := 0;
      var failed: nat := 0;
      var partial := false;
      var recorded: seq<Checkpoint> := [];
      for i := 0 to |orders|
        invariant Progress(successful, failed, partial, recorded) == CheckpointRun(orders[..i], broker)
        invariant checkpoints == old(checkpoints) + recorded
        invariant checkpointInterval == old(checkpointInterval)
      {
        assert orders[..i + 1][..i] == orders[..i];
        var order := orders[i];
        var outcome := broker(order, i);
        var cp: Checkpoint;
        if outcome.Accepted? {
          cp := Checkpoint(i, order, Succeeded);
          successful := successful + 1;
        } else {
          cp := Checkpoint(i, order, Failed);
          failed := failed + 1;
          if successful > 0 {
            partial := true;
          }
        }
        checkpoints := checkpoints + [cp];
        recorded := recorded + [cp];
      }
      assert orders[..|orders|] == orders;
      if |orders| == 0 {
        return Err(DivisionByZero);
      }
      var rollback := false;
      if partial {
        rollback := ShouldRollback(successful, |orders|);
      }
      r := Ok(Report(|orders|, successful, failed, recorded, rollback, partial));
    }

    method GenerateRollbackPlan(report: Report) returns (plan: seq<RollbackOrder>)
      ensures plan == RollbackPlan(report.checkpoints)
    {
      var cps := report.checkpoints;
      plan := [];
      for i := 0 to |cps|
        invariant plan == RollbackPlan(cps[..i])
      {
        assert cps[..i + 1][..i] == cps[..i];
        if cps[i].status == Succeeded {
          plan := plan + [RollbackOrder(Reversal(cps[i].order), "ROLLBACK")];
        }
      }
      assert cps[..|cps|] == cps;
    }
  }

  // ---------------------------------------------------------------------
  // execute_conservatively

  /** One entry of `_execute_batch`'s result list. */
  datatype BatchResult = BatchOk(orderId: Option<string>) | BatchErr(error: string)

  function BatchResultOf(out: Outcome): (r: BatchResult)
    ensures r.BatchOk? <==> out.Accepted?
  {
    match out
    case Accepted(id) => BatchOk(id)
    case Rejected => BatchErr("API_ERROR")
    case Raised(e) => BatchErr(e)
  }

  /** The batch of `orders`, the first of them being broker call `start`. */
  function Batch(orders: seq<Order>, broker: (Order, nat) -> Outcome, start: nat): (r: seq<BatchResult>)
    ensures |r| == |orders|
  {
    if orders == [] then []
    else
      var n := |orders| - 1;
      Batch(orders[..n], broker, start) + [BatchResultOf(broker(orders[n], start + n))]
  }

  /** `sum(1 for r in results if r["success"])` */
  function Successes(rs: seq<BatchResult>): nat {
    if rs == [] then 0 else Successes(rs[..|rs| - 1]) + (if rs[|rs| - 1].BatchOk? then 1 else 0)
  }

  datatype Counts = Counts(total: nat, success: nat, failed: int)

  /** The `results` dict of `execute_conservatively`, with the orders that
      reached the broker. */
  datatype ConservativeReport = ConservativeReport(
    sellOrders: Counts, buyOrders: Counts, overallSuccess: bool, attempted: seq<Order>)

  /** The counts of one side after its batch; all zero when the side has
      no orders and the batch is skipped. */
  function SideCounts(side: seq<Order>, results: seq<BatchResult>): Counts {
    if side == [] then Counts(0, 0, 0) else Counts(|side|, Successes(results), |results| - Successes(results))
  }

  /** `execute_conservatively` once the orders are split by side: the SELL
      batch, a stop when one of its orders failed, then the BUY batch;
      `total` is the number of orders, whose zero makes the rate raise. */
  function ConservativeRun(sells: seq<Order>, buys: seq<Order>, total: nat, broker: (Order, nat) -> Outcome): Result<ConservativeReport> {
    var sellCounts := SideCounts(sells, Batch(sells, broker, 0));
    if sellCounts.failed > 0 then
      Ok(ConservativeReport(sellCounts, Counts(|buys|, 0, 0), false, sells))
    else
      var buyCounts := SideCounts(buys, Batch(buys, broker, |sells|));
      if total == 0 then Err(DivisionByZero)
      else Ok(ConservativeReport(sellCounts, buyCounts, sellCounts.success + buyCounts.success == total, sells + buys))
  }

  function Conservative(orders: seq<Order>, broker: (Order, nat) -> Outcome): Result<ConservativeReport> {
    ConservativeRun(OfSide(orders, Sell), OfSide(orders, Buy), |orders|, broker)
  }

  /** Every order of a batch went through exactly when the count of
      successes is the batch's length. */
  lemma {:induction false} SuccessesAll(rs: seq<BatchResult>)
    ensures Successes(rs) <= |rs|
    ensures Successes(rs) == |rs| <==> forall i :: 0 <= i < |rs| ==> rs[i].BatchOk?
  {
    if rs != [] {
      var init := rs[..|rs| - 1];
      SuccessesAll(init);
      assert forall i :: 0 <= i < |init| ==> init[i] == rs[i];
    }
  }

  lemma {:induction false} BatchAt(orders: seq<Order>, broker: (Order, nat) -> Outcome, start: nat)
    ensures forall i :: 0 <= i < |orders| ==>
      Batch(orders, broker, start)[i] == BatchResultOf(broker(orders[i], start + i))
  {
    if orders != [] {
      var n := |orders| - 1;
      BatchAt(orders[..n], broker, start);
    }
  }

  /** The broker accepts every order of a batch whose first call is `start`. */
  predicate BatchAccepted(orders: seq<Order>, broker: (Order, nat) -> Outcome, start: nat) {
    forall i :: 0 <= i < |orders| ==> broker(orders[i], start + i).Accepted?
  }

  /** A batch's counts add up, and it has no failure exactly when the
      broker accepts every one of its orders. */
  lemma SideCountsMeaning(side: seq<Order>, broker: (Order, nat) -> Outcome, start: nat)
    ensures var k := SideCounts(side, Batch(side, broker, start));
      && k.total == |side| && 0 <= k.failed && k.success + k.failed == |side|
      && (k.failed == 0 <==> BatchAccepted(side, broker, start))
      && (k.success == |side| <==> BatchAccepted(side, broker, start))
  {
    BatchAt(side, broker, start);
    SuccessesAll(Batch(side, broker, start));
  }

  /** A SELL that fails stops the run before any BUY reaches the broker. */
  lemma NoBuyAfterFailedSell(orders: seq<Order>, broker: (Order, nat) -> Outcome)
    requires !BatchAccepted(OfSide(orders, Sell), broker, 0)
    ensures var r := Conservative(orders, broker);
      && r.Ok? && !r.value.overallSuccess
      && r.value.attempted == OfSide(orders, Sell)
      && forall k :: 0 <= k < |r.value.attempted| ==> r.value.attempted[k].side == Sell
  {
    SideCountsMeaning(OfSide(orders, Sell), broker, 0);
  }

  lemma ConservativeRunMeaning(sells: seq<Order>, buys: seq<Order>, total: nat, broker: (Order, nat) -> Outcome)
    requires |sells| + |buys| == total
    ensures total == 0 ==> ConservativeRun(sells, buys, total, broker) == Err(DivisionByZero)
    ensures total != 0 ==> ConservativeRun(sells, buys, total, broker).Ok?
    ensures (ConservativeRun(sells, buys, total, broker).Ok? && ConservativeRun(sells, buys, total, broker).value.overallSuccess)
      <==> total != 0 && BatchAccepted(sells, broker, 0) && BatchAccepted(buys, broker, |sells|)
    ensures ConservativeRun(sells, buys, total, broker).Ok? ==>
      var r := ConservativeRun(sells, buys, total, broker).value;
      && r.sellOrders.total == |sells| && r.buyOrders.total == |buys|
      && 0 <= r.sellOrders.failed && r.sellOrders.success + r.sellOrders.failed <= |sells|
      && 0 <= r.buyOrders.failed && r.buyOrders.success + r.buyOrders.failed <= |buys|
  {
    SideCountsMeaning(sells, broker, 0);
    SideCountsMeaning(buys, broker, |sells|);
  }

  /** The run succeeds overall exactly when the order list is not empty
      and the broker accepts every SELL and then every BUY; an empty list
      raises. Each side's successes and failures add up to at most its
      orders. */
  lemma ConservativeMeaning(orders: seq<Order>, broker: (Order, nat) -> Outcome)
    ensures orders == [] ==> Conservative(orders, broker) == Err(DivisionByZero)
    ensures orders != [] ==> Conservative(orders, broker).Ok?
    ensures (Conservative(orders, broker).Ok? && Conservative(orders, broker).value.overallSuccess)
      <==> orders != [] && BatchAccepted(OfSide(orders, Sell), broker, 0)
             && BatchAccepted(OfSide(orders, Buy), broker, |OfSide(orders, Sell)|)
    ensures Conservative(orders, broker).Ok? ==>
      var r := Conservative(orders, broker).value;
      && r.sellOrders.total == |OfSide(orders, Sell)| && r.buyOrders.total == |OfSide(orders, Buy)|
      && 0 <= r.sellOrders.failed && r.sellOrders.success + r.sellOrders.failed <= r.sellOrders.total
      && 0 <= r.buyOrders.failed && r.buyOrders.success + r.buyOrders.failed <= r.buyOrders.total
  {
    OfSidePartition(orders);
    ConservativeRunMeaning(OfSide(orders, Sell), OfSide(orders, Buy), |orders|, broker);
  }

  class ConservativeExecutionManager {
    var confirmationRequired: bool

    constructor (confirmationRequired: bool)
      ensures this.confirmationRequired == confirmationRequired
    {
      this.confirmationRequired := confirmationRequired;
    }

    method ExecuteBatch(orders: seq<Order>, broker: (Order, nat) -> Outcome, start: nat) returns (results: seq<BatchResult>)
      ensures results == Batch(orders, broker, start)
    {
      results := [];
      for i := 0 to |orders|
        invariant results == Batch(orders[..i], broker, start)
      {
        assert orders[..i + 1][..i] == orders[..i];
        var outcome := broker(orders[i], start + i);
        if outcome.Accepted? {
          results := results + [BatchOk(outcome.orderId)];
        } else if outcome.Rejected? {
          results := results + [BatchErr("API_ERROR")];
        } else {
          results := results + [BatchErr(outcome.error)];
        }
      }
      assert orders[..|orders|] == orders;
    }

    method CountSuccesses(results: seq<BatchResult>) returns (n: nat)
      ensures n == Successes(results)
    {
      n := 0;
      for i := 0 to |results|
        invariant n == Successes(results[..i])
      {
        assert results[..i + 1][..i] == results[..i];
        if results[i].BatchOk? {
          n := n + 1;
        }
      }
      assert results[..|results|] == results;
    }

    method ExecuteConservatively(orders: seq<Order>, broker: (Order, nat) -> Outcome) returns (r: Result<ConservativeReport>)
      ensures r == Conservative(orders, broker)
    {
      var sells := OfSide(orders, Sell);
      var buys := OfSide(orders, Buy);
      var sellCounts := Counts(|sells|, 0, 0);
      var buyCounts := Counts(|buys|, 0, 0);
      if sells != [] {
        var sellResults := ExecuteBatch(sells, broker, 0);
        var ok := CountSuccesses(sellResults);
        sellCounts := Counts(|sells|, ok, |sellResults| - ok);
        if sellCounts.failed > 0 {
          return Ok(ConservativeReport(sellCounts, buyCounts, false, sells));
        }
      }
      if buys != [] {
        var buyResults := ExecuteBatch(buys, broker, |sells|);
        var ok := CountSuccesses(buyResults);
        buyCounts := Counts(|buys|, ok, |buyResults| - ok);
      }
      var totalSuccess := sellCounts.success + buyCounts.success;
      if |orders| == 0 {
        return Err(DivisionByZero);
      }
      r := Ok(ConservativeReport(sellCounts, buyCounts, totalSuccess == |orders|, sells + buys));
    }
  }
}
