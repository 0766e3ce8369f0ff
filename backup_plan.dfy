/** The entry point of the older planner, `plan_rebalance` in
    `rebalance_backup.py`: a negative balance goes to the deficit planner,
    any other to the band planner over the virtual cash. */
module BackupPlan {
  import opened Models
  import opened Rebalance
  import opened BackupAllocation
  import opened BackupBand
  import opened BackupDeficit

  /** The two settings the deficit branch reads. The `Settings` class of
      `src/config.py` declares neither of them, so as written reading them
      raises; `None` stands for those settings as they are. */
  datatype DeficitSettings = DeficitSettings(maxOrderValue: int, reserveRatio: real)

  /** `cash < 0 or (d2_cash is not None and d2_cash < 0)` */
  predicate InDeficit(cash: real, d2: Option<real>) {
    cash < 0.0 || (d2.Some? && d2.value < 0.0)
  }

  /** `deficit_amount`: the D+2 balance when it is negative, else the cash. */
  function DeficitAmount(cash: real, d2: Option<real>): real {
    if d2.Some? && d2.value < 0.0 then d2.value else cash
  }

  /** `max_order_value_per_ticker or settings.deficit_max_order_value` */
  function DeficitCap(maxOrderValue: int, s: DeficitSettings): int {
    if maxOrderValue != 0 then maxOrderValue else s.maxOrderValue
  }

  /** The reserve of the band branch. */
  const BandReserve: real := 0.01

  /** The arguments the deficit planner is called with. */
  function DeficitInputs(positions: Dict<int>, targets: Dict<real>, cash: real, prices: map<Code, real>,
                         bandPct: real, maxOrderValue: int, d2: Option<real>, s: DeficitSettings): BackupInputs {
    BackupInputs(positions, targets, DeficitAmount(cash, d2), prices, bandPct, DeficitCap(maxOrderValue, s), s.reserveRatio)
  }

  /** The arguments the band planner is called with: the mock virtual cash
      as the cash, and a 1% reserve. */
  function BandInputs(positions: Dict<int>, targets: Dict<real>, cash: real, prices: map<Code, real>,
                      bandPct: real, maxOrderValue: int): BackupInputs {
    var vc := CalculateVirtualCash(positions, prices, cash, true);
    BackupInputs(positions, targets, vc.available, prices, bandPct, maxOrderValue, BandReserve)
  }

  /** `plan_rebalance` of `rebalance_backup.py`, with the settings of the
      deficit branch and the shortfall loop of the band planner as
      parameters; None where it raises. In deficit the log line formats
      `d2_cash` with `:,.0f`, which raises when there is no D+2 balance. The
      second check of a negative D+2 balance cannot be reached, since the
      first branch already takes it. */
  function BackupPlanWith(positions: Dict<int>, targets: Dict<real>, cash: real, prices: map<Code, real>,
                          bandPct: real, maxOrderValue: int, d2: Option<real>,
                          settings: Option<DeficitSettings>, tickers: seq<Code>, trim: Nudge): Option<seq<Order>> {
    if InDeficit(cash, d2) then
      if settings.None? || d2.None? then None
      else Some(DeficitPlanAsWritten(
        DeficitInputs(positions, targets, cash, prices, bandPct, maxOrderValue, d2, settings.value), tickers))
    else
      var vc := CalculateVirtualCash(positions, prices, cash, true);
      if vc.total <= 0.0 then Some([])
      else Some(BandPlanWith(BandInputs(positions, targets, cash, prices, bandPct, maxOrderValue), tickers, trim))
  }

  /** As written, every negative balance makes `plan_rebalance` raise on the
      missing settings, and no other input does. */
  lemma DeficitBranchRaises(positions: Dict<int>, targets: Dict<real>, cash: real, prices: map<Code, real>,
                            bandPct: real, maxOrderValue: int, d2: Option<real>, tickers: seq<Code>, trim: Nudge)
    ensures BackupPlanWith(positions, targets, cash, prices, bandPct, maxOrderValue, d2, None, tickers, trim).None?
        <==> InDeficit(cash, d2)
  {
  }

  /** A negative cash with no D+2 balance raises in the log line, whatever
      the settings. */
  lemma MissingD2Raises(positions: Dict<int>, targets: Dict<real>, cash: real, prices: map<Code, real>,
                        bandPct: real, maxOrderValue: int, settings: Option<DeficitSettings>,
                        tickers: seq<Code>, trim: Nudge)
    ensures cash < 0.0 <==>
      BackupPlanWith(positions, targets, cash, prices, bandPct, maxOrderValue, None, settings, tickers, trim).None?
  {
  }

  /** With the settings declared, a negative balance reaches the deficit
      planner as a negative amount, for which the planner as written is the
      corrected one; its cap is the caller's when set. */
  lemma DeficitBranchCorrected(positions: Dict<int>, targets: Dict<real>, cash: real, prices: map<Code, real>,
                               bandPct: real, maxOrderValue: int, d2: Option<real>, s: DeficitSettings,
                               tickers: seq<Code>, trim: Nudge)
    requires InDeficit(cash, d2) && d2.Some?
    ensures DeficitAmount(cash, d2) < 0.0
    ensures d2.Some? && d2.value < 0.0 ==> DeficitAmount(cash, d2) == d2.value
    ensures maxOrderValue != 0 ==> DeficitCap(maxOrderValue, s) == maxOrderValue
    ensures BackupPlanWith(positions, targets, cash, prices, bandPct, maxOrderValue, d2, Some(s), tickers, trim)
         == Some(DeficitPlan(DeficitInputs(positions, targets, cash, prices, bandPct, maxOrderValue, d2, s), tickers))
  {
    DeficitPlanAgreesWhenShort(DeficitInputs(positions, targets, cash, prices, bandPct, maxOrderValue, d2, s), tickers);
  }

  /** Any other balance goes to the band planner with its own cash, which is
      not negative, as the available cash; a portfolio worth nothing gets no
      orders. The settings are not read. */
  lemma BandBranch(positions: Dict<int>, targets: Dict<real>, cash: real, prices: map<Code, real>,
                   bandPct: real, maxOrderValue: int, d2: Option<real>,
                   settings: Option<DeficitSettings>, tickers: seq<Code>, trim: Nudge)
    requires !InDeficit(cash, d2)
    ensures BandInputs(positions, targets, cash, prices, bandPct, maxOrderValue).cash == cash >= 0.0
    ensures BackupPlanWith(positions, targets, cash, prices, bandPct, maxOrderValue, d2, settings, tickers, trim).Some?
    ensures HoldingsValue(positions.keys, positions, prices) + cash <= 0.0 ==>
      BackupPlanWith(positions, targets, cash, prices, bandPct, maxOrderValue, d2, settings, tickers, trim) == Some([])
    ensures HoldingsValue(positions.keys, positions, prices) + cash > 0.0 ==>
      BackupPlanWith(positions, targets, cash, prices, bandPct, maxOrderValue, d2, settings, tickers, trim)
      == Some(BandPlanWith(BandInputs(positions, targets, cash, prices, bandPct, maxOrderValue), tickers, trim))
  {
  }
}
