/** The futures risk manager: limits, the per-position check, the portfolio
    check and position sizing, on top of the margin calculator.

    Each check runs its tests in a fixed order. A test that fires appends a
    message and overwrites the severity label, so the label is that of the
    last test that fired, not the worst one. The decisions are written as
    pure functions of the figures they compare (`JudgePosition`,
    `JudgePortfolio`, `SizeFor`); the symbol-level operations gather those
    figures from the margin calculator and the classification tables. */
module RiskManager {
  import opened Wrappers
  import opened Strings
  import opened Dicts
  import opened Decimals
  import opened Underlying
  import opened MarginCalculator
  import opened Distribution
  import opened RiskClassification

  /* ------------------------------------------------------------- limits */

  /** `risk_limits`. The lot limit is an integer in the initial table but
      can be overwritten by any `Decimal`. */
  datatype RiskLimits = RiskLimits(
    maxPositionConcentration: real,
    maxSectorConcentration: real,
    maxLeverage: real,
    maxDailyLoss: real,
    marginCallThreshold: real,
    forceLiquidationThreshold: real,
    positionSizeLimit: real)

  const DefaultRiskLimits: RiskLimits := RiskLimits(0.3, 0.5, 10.0, 0.05, 1.2, 1.0, 100.0)

  /** `risk_limits.get(name)`. */
  function Limit(limits: RiskLimits, name: string): Option<real>
  {
    if name == "max_position_concentration" then Some(limits.maxPositionConcentration)
    else if name == "max_sector_concentration" then Some(limits.maxSectorConcentration)
    else if name == "max_leverage" then Some(limits.maxLeverage)
    else if name == "max_daily_loss" then Some(limits.maxDailyLoss)
    else if name == "margin_call_threshold" then Some(limits.marginCallThreshold)
    else if name == "force_liquidation_threshold" then Some(limits.forceLiquidationThreshold)
    else if name == "position_size_limit" then Some(limits.positionSizeLimit)
    else None
  }

  /** `set_risk_limit`: a known name takes the new value and every other
      limit keeps its own; an unknown name changes nothing. */
  function SetRiskLimit(limits: RiskLimits, name: string, value: real): (r: RiskLimits)
    ensures Limit(limits, name).Some? ==> Limit(r, name) == Some(value)
    ensures Limit(limits, name).None? ==> r == limits
    ensures forall n | n != name :: Limit(r, n) == Limit(limits, n)
  {
    if name == "max_position_concentration" then limits.(maxPositionConcentration := value)
    else if name == "max_sector_concentration" then limits.(maxSectorConcentration := value)
    else if name == "max_leverage" then limits.(maxLeverage := value)
    else if name == "max_daily_loss" then limits.(maxDailyLoss := value)
    else if name == "margin_call_threshold" then limits.(marginCallThreshold := value)
    else if name == "force_liquidation_threshold" then limits.(forceLiquidationThreshold := value)
    else if name == "position_size_limit" then limits.(positionSizeLimit := value)
    else limits
  }

  /** The manager's state: its calculator and its limits. */
  datatype RiskManager = RiskManager(calculator: Calculator, limits: RiskLimits)

  /** `FuturesRiskManager(margin_calculator)`. */
  function NewRiskManager(mc: Calculator): (rm: RiskManager)
    ensures Limit(rm.limits, "max_position_concentration") == Some(0.3)
    ensures Limit(rm.limits, "max_sector_concentration") == Some(0.5)
    ensures Limit(rm.limits, "max_leverage") == Some(10.0)
    ensures Limit(rm.limits, "max_daily_loss") == Some(0.05)
    ensures Limit(rm.limits, "margin_call_threshold") == Some(1.2)
    ensures Limit(rm.limits, "force_liquidation_threshold") == Some(1.0)
    ensures Limit(rm.limits, "position_size_limit") == Some(100.0)
    ensures rm.calculator == mc
  {
    RiskManager(mc, DefaultRiskLimits)
  }

  /* ------------------------------------------------------------ results */

  /** The severity labels. */
  datatype Level = Low | Medium | High | Critical
  {
    function Name(): string
    {
      match this
      case Low => "low"
      case Medium => "medium"
      case High => "high"
      case Critical => "critical"
    }
  }

  /** The warning and error messages, with the figures the formatted ones
      print. */
  datatype Finding =
    | MarginInsufficient
    | MarginUsageHigh
    | LeverageExceeded(leverage: real, limit: real)
    | PositionConcentrationHigh(concentration: real)
    | SectorConcentrationHigh(concentration: real)
    | PositionSizeExceeded(volume: int, limit: real)
    | ForcedLiquidation
    | NearMarginCall
    | MarginRatioLow
    | DailyLossExceeded(rate: real)
    | DailyLossLarge
    | SectorConcentrated(sector: Sector, share: real)
  {
    /** The text of a message that prints no figure. */
    function FixedText(): Option<string>
    {
      match this
      case MarginInsufficient => Some("保证金不足")
      case MarginUsageHigh => Some("保证金使用率过高")
      case ForcedLiquidation => Some("达到强制平仓线")
      case NearMarginCall => Some("接近保证金预警线")
      case MarginRatioLow => Some("保证金充足率偏低")
      case DailyLossLarge => Some("单日亏损较大")
      case _ => None
    }
  }

  /* ----------------------------------------------------- position check */

  /** The figures the position check compares: the new position's value,
      margin and leverage, the value of the whole book including it, the
      value of its sector including it, its lots, the balance and its
      tier's leverage cap. */
  datatype Exposure = Exposure(
    positionValue: real,
    marginRequired: real,
    leverage: real,
    totalValue: real,
    sectorValue: real,
    volume: int,
    balance: real,
    maxLeverage: real)
  {
    /** `position_value / total if total > 0 else 0`. */
    function PositionConcentration(): real
    {
      Ratio(positionValue, totalValue)
    }

    /** `sector_value / total if total > 0 else 0`. */
    function SectorConcentration(): real
    {
      Ratio(sectorValue, totalValue)
    }
  }

  /** The `checks` flags of a position check. */
  datatype PositionChecks = PositionChecks(
    marginSufficient: bool,
    leverageWithinLimit: bool,
    positionConcentrationOk: bool,
    sectorConcentrationOk: bool,
    positionSizeOk: bool)

  datatype PositionVerdict = PositionVerdict(
    warnings: seq<Finding>,
    errors: seq<Finding>,
    overallRisk: Level,
    checks: PositionChecks)

  /** The five tests of `check_position_risk`, in order: margin against the
      balance, leverage against the tier cap, position and sector
      concentration against their limits, lots against the lot limit. The
      `margin_sufficient` flag looks for the shortfall message among the
      errors. */
  function JudgePosition(e: Exposure, limits: RiskLimits): (v: PositionVerdict)
    ensures forall f | f in v.warnings :: f.MarginUsageHigh? || f.PositionConcentrationHigh? || f.SectorConcentrationHigh?
    ensures forall f | f in v.errors :: f.MarginInsufficient? || f.LeverageExceeded? || f.PositionSizeExceeded?
  {
    var short := e.marginRequired > e.balance;
    var tight := !short && e.marginRequired > e.balance * 0.8;
    var errors1 := if short then [MarginInsufficient] else [];
    var warnings1 := if tight then [MarginUsageHigh] else [];
    var level1 := if short then High else if tight then Medium else Low;

    var geared := e.leverage > e.maxLeverage;
    var errors2 := if geared then errors1 + [LeverageExceeded(e.leverage, e.maxLeverage)] else errors1;
    var level2 := if geared then High else level1;

    var pc := e.PositionConcentration();
    var concentrated := pc > limits.maxPositionConcentration;
    var warnings3 := if concentrated then warnings1 + [PositionConcentrationHigh(pc)] else warnings1;
    var level3 := if concentrated then Medium else level2;

    var sc := e.SectorConcentration();
    var crowded := sc > limits.maxSectorConcentration;
    var warnings4 := if crowded then warnings3 + [SectorConcentrationHigh(sc)] else warnings3;
    var level4 := if crowded then Medium else level3;

    var oversized := e.volume as real > limits.positionSizeLimit;
    var errors5 := if oversized then errors2 + [PositionSizeExceeded(e.volume, limits.positionSizeLimit)] else errors2;
    var level5 := if oversized then High else level4;

    PositionVerdict(warnings4, errors5, level5,
                    PositionChecks(MarginInsufficient !in errors5, !geared, !concentrated, !crowded, !oversized))
  }

  /** The margin test: the shortfall error, and so the failed flag, appear
      exactly when the margin exceeds the balance; the usage warning exactly
      when it lies above 80% of the balance without exceeding it. */
  lemma MarginCheck(e: Exposure, limits: RiskLimits)
    ensures var v := JudgePosition(e, limits);
            && (MarginInsufficient in v.errors <==> e.marginRequired > e.balance)
            && (v.checks.marginSufficient <==> e.marginRequired <= e.balance)
            && (MarginUsageHigh in v.warnings <==> e.balance * 0.8 < e.marginRequired <= e.balance)
  {
  }

  /** The leverage test: an error naming the leverage and the cap, and a
      failed flag, exactly when the leverage exceeds the tier cap. */
  lemma LeverageCheck(e: Exposure, limits: RiskLimits)
    ensures var v := JudgePosition(e, limits);
            && (LeverageExceeded(e.leverage, e.maxLeverage) in v.errors <==> e.leverage > e.maxLeverage)
            && (v.checks.leverageWithinLimit <==> e.leverage <= e.maxLeverage)
  {
  }

  /** The label is that of the last test that fired: the lot test, then
      either concentration test, then the leverage or margin shortfall,
      then the margin usage; `'low'` when none fired. */
  lemma LabelOfLastCheck(e: Exposure, limits: RiskLimits)
    ensures JudgePosition(e, limits).overallRisk ==
              if e.volume as real > limits.positionSizeLimit then High
              else if e.PositionConcentration() > limits.maxPositionConcentration
                   || e.SectorConcentration() > limits.maxSectorConcentration then Medium
              else if e.leverage > e.maxLeverage || e.marginRequired > e.balance then High
              else if e.marginRequired > e.balance * 0.8 then Medium
              else Low
  {
  }

  /** The label is `'low'` exactly when no message was raised. */
  lemma QuietExactlyWhenLow(e: Exposure, limits: RiskLimits)
    ensures var v := JudgePosition(e, limits);
            v.overallRisk == Low <==> v.warnings == [] && v.errors == []
  {
  }

  /** Too many lots always ends `'high'`, whatever came before. */
  lemma OversizedIsHigh(e: Exposure, limits: RiskLimits)
    requires e.volume as real > limits.positionSizeLimit
    ensures var v := JudgePosition(e, limits);
            v.overallRisk == High && PositionSizeExceeded(e.volume, limits.positionSizeLimit) in v.errors
            && !v.checks.positionSizeOk
  {
  }

  /** The label is not the worst severity: a margin shortfall followed by a
      concentration warning ends `'medium'` although the shortfall error
      stands. */
  lemma ShortfallThenConcentrationIsMedium(e: Exposure, limits: RiskLimits)
    requires e.marginRequired > e.balance
    requires e.PositionConcentration() > limits.maxPositionConcentration
    requires e.volume as real <= limits.positionSizeLimit
    ensures var v := JudgePosition(e, limits);
            v.overallRisk == Medium && MarginInsufficient in v.errors && !v.checks.marginSufficient
  {
  }

  /** When the position is part of its sector and its sector part of the
      book, both concentrations lie in [0, 1] and the sector's is at least
      the position's. */
  lemma ConcentrationBounds(e: Exposure)
    requires 0.0 <= e.positionValue <= e.sectorValue <= e.totalValue
    ensures 0.0 <= e.PositionConcentration() <= e.SectorConcentration() <= 1.0
  {
    if e.totalValue > 0.0 {
      RatioMonotone(e.positionValue, e.sectorValue, e.totalValue);
      RatioIsShare(e.positionValue, e.totalValue);
      RatioIsShare(e.sectorValue, e.totalValue);
    }
  }

  /** A position that is the whole book has both concentrations equal to 1,
      so both concentration warnings fire under limits below 1. */
  lemma SoleHoldingIsConcentrated(e: Exposure, limits: RiskLimits)
    requires e.positionValue > 0.0 && e.sectorValue == e.positionValue && e.totalValue == e.positionValue
    requires limits.maxPositionConcentration < 1.0 && limits.maxSectorConcentration < 1.0
    ensures e.PositionConcentration() == 1.0 && e.SectorConcentration() == 1.0
    ensures var v := JudgePosition(e, limits);
            PositionConcentrationHigh(1.0) in v.warnings && SectorConcentrationHigh(1.0) in v.warnings
            && !v.checks.positionConcentrationOk && !v.checks.sectorConcentrationOk
  {
  }

  /** The value a position adds to group `k` of a grouping of symbols: its
      value when its symbol falls in the group, nothing otherwise. */
  function ValueWhere<K(==)>(mc: Calculator, key: string -> K, k: K): Position -> real
  {
    (p: Position) => if key(p.symbol) == k then MarginOf(mc, p).PositionValue() else 0.0
  }

  /** The dictionary `check_position_risk` returns: the new position's
      margin record, its classification, the figures compared and the
      verdict. */
  datatype PositionRisk = PositionRisk(
    margin: PositionMargin,
    tier: Tier,
    sector: Sector,
    exposure: Exposure,
    verdict: PositionVerdict)

  /** `check_position_risk`: the new position is priced by the calculator;
      the book's value adds every existing position (`existing_positions or
      []`), the sector's value those of the new position's sector. */
  function CheckPositionRisk(rm: RiskManager, symbol: string, price: real, volume: int, positionType: string,
                             balance: real, existing: Option<seq<Position>>): (r: PositionRisk)
    ensures r.margin == CalculatePositionMargin(rm.calculator, symbol, price, volume, positionType)
    ensures r.tier == GetSymbolRiskCategory(symbol) && r.sector == GetSymbolSector(symbol)
    ensures r.exposure.totalValue == r.margin.PositionValue() + SumBy(existing.GetOr([]), ValueTerm(rm.calculator))
    ensures r.exposure.sectorValue == r.margin.PositionValue() + SumBy(existing.GetOr([]), ValueWhere(rm.calculator, GetSymbolSector, r.sector))
    ensures r.exposure.positionValue == r.margin.PositionValue() && r.exposure.marginRequired == r.margin.MarginRequired()
    ensures r.exposure.leverage == r.margin.Leverage() && r.exposure.maxLeverage == r.tier.MaxLeverage()
    ensures r.exposure.volume == volume && r.exposure.balance == balance
    ensures r.verdict == JudgePosition(r.exposure, rm.limits)
  {
    var mc := rm.calculator;
    var m := CalculatePositionMargin(mc, symbol, price, volume, positionType);
    var tier := GetSymbolRiskCategory(symbol);
    var sector := GetSymbolSector(symbol);
    var book := existing.GetOr([]);
    var e := Exposure(m.PositionValue(), m.MarginRequired(), m.Leverage(),
                      m.PositionValue() + SumBy(book, ValueTerm(mc)),
                      m.PositionValue() + SumBy(book, ValueWhere(mc, GetSymbolSector, sector)),
                      volume, balance, tier.MaxLeverage());
    PositionRisk(m, tier, sector, e, JudgePosition(e, rm.limits))
  }

  /** A position at a non-negative price and lot count has a non-negative
      value. */
  lemma ValueNonNegative(m: PositionMargin)
    requires m.price >= 0.0 && m.volume >= 0 && m.contractMultiplier > 0
    ensures m.PositionValue() >= 0.0
  {
    MulNonNegative(m.price, m.volume as real);
    MulNonNegative(m.price * m.volume as real, m.contractMultiplier as real);
  }

  /** A position at a positive price and lot count has a positive value. */
  lemma ValuePositive(m: PositionMargin)
    requires m.price > 0.0 && m.volume > 0 && m.contractMultiplier > 0
    ensures m.PositionValue() > 0.0
  {
    MulPositive(m.price, m.volume as real);
    MulPositive(m.price * m.volume as real, m.contractMultiplier as real);
  }

  /** With non-negative prices and lot counts throughout, the sector's value
      lies between the position's and the book's, so both concentrations
      lie in [0, 1]. */
  lemma PositionConcentrationsBounded(rm: RiskManager, symbol: string, price: real, volume: int, positionType: string,
                                      balance: real, existing: Option<seq<Position>>)
    requires price >= 0.0 && volume >= 0
    requires forall p | p in existing.GetOr([]) :: p.price >= 0.0 && p.volume >= 0
    ensures var e := CheckPositionRisk(rm, symbol, price, volume, positionType, balance, existing).exposure;
            0.0 <= e.PositionConcentration() <= e.SectorConcentration() <= 1.0
  {
    var mc := rm.calculator;
    var r := CheckPositionRisk(rm, symbol, price, volume, positionType, balance, existing);
    var book := existing.GetOr([]);
    forall p | p in book
      ensures 0.0 <= ValueWhere(mc, GetSymbolSector, r.sector)(p) <= ValueTerm(mc)(p)
    {
      ValueNonNegative(MarginOf(mc, p));
    }
    SumByMonotone(book, ValueWhere(mc, GetSymbolSector, r.sector), ValueTerm(mc));
    ValueNonNegative(r.margin);
    ConcentrationBounds(r.exposure);
  }

  /** The first position of a book, at a positive price and lot count, is
      the whole book and its whole sector: both concentration warnings
      fire under limits below 1. */
  lemma FirstPositionIsConcentrated(rm: RiskManager, symbol: string, price: real, volume: int, positionType: string,
                                    balance: real, existing: Option<seq<Position>>)
    requires existing.GetOr([]) == []
    requires price > 0.0 && volume > 0
    requires rm.limits.maxPositionConcentration < 1.0 && rm.limits.maxSectorConcentration < 1.0
    ensures var r := CheckPositionRisk(rm, symbol, price, volume, positionType, balance, existing);
            PositionConcentrationHigh(1.0) in r.verdict.warnings && SectorConcentrationHigh(1.0) in r.verdict.warnings
  {
    var r := CheckPositionRisk(rm, symbol, price, volume, positionType, balance, existing);
    ValuePositive(r.margin);
    assert SumBy(existing.GetOr([]), ValueTerm(rm.calculator)) == 0.0;
    assert SumBy(existing.GetOr([]), ValueWhere(rm.calculator, GetSymbolSector, r.sector)) == 0.0;
    SoleHoldingIsConcentrated(r.exposure, rm.limits);
  }

  /** Copper written without a month is capped at 10 times leverage but is
      margined at 0.096, a leverage of about 10.4: its leverage test fails
      on every call with the default calculator. */
  lemma CopperLeverageAlwaysFails(symbol: string, price: real, volume: int, positionType: string,
                                  balance: real, existing: Option<seq<Position>>)
    requires AllLetters(symbol) && Upper(symbol) == "CU"
    ensures var r := CheckPositionRisk(NewRiskManager(NewCalculator()), symbol, price, volume, positionType, balance, existing);
            r.tier == MediumRisk && r.exposure.leverage > 10.0 && !r.verdict.checks.leverageWithinLimit
            && LeverageExceeded(r.exposure.leverage, 10.0) in r.verdict.errors
  {
    var r := CheckPositionRisk(NewRiskManager(NewCalculator()), symbol, price, volume, positionType, balance, existing);
    CopperTerms(symbol);
    CopperClassified(symbol);
    var l := r.margin.Leverage();
    assert l * 0.096 == 1.0;
    LeverageCheck(r.exposure, DefaultRiskLimits);
  }

  /* ---------------------------------------------------- portfolio check */

  /** `dynamic_equity / total_margin_required if total_margin_required > 0
      else 999`. */
  function MarginRatio(equity: real, totalMargin: real): (r: real)
    ensures totalMargin > 0.0 ==> r * totalMargin == equity
    ensures totalMargin <= 0.0 ==> r == 999.0
  {
    if totalMargin > 0.0 then equity / totalMargin else 999.0
  }

  /** The concentration loop of the portfolio check: one warning per sector,
      in order, whose share exceeds the limit. */
  function ConcentrationWarnings(shares: seq<Item<Sector>>, limit: real): (ws: seq<Finding>)
    ensures ws == [] <==> forall i | 0 <= i < |shares| :: shares[i].value <= limit
    ensures forall f | f in ws :: f.SectorConcentrated? && f.share > limit && Item(f.sector, f.share) in shares
    decreases |shares|
  {
    if |shares| == 0 then []
    else
      var n := |shares| - 1;
      var init := ConcentrationWarnings(shares[..n], limit);
      assert forall i | 0 <= i < n :: shares[..n][i] == shares[i];
      if shares[n].value > limit then init + [SectorConcentrated(shares[n].key, shares[n].value)] else init
  }

  /** The `risk_checks` flags of a portfolio check. */
  datatype PortfolioChecks = PortfolioChecks(
    marginSufficient: bool,
    dailyLossWithinLimit: bool,
    concentrationOk: bool)

  datatype PortfolioVerdict = PortfolioVerdict(
    warnings: seq<Finding>,
    errors: seq<Finding>,
    overallRisk: Level,
    checks: PortfolioChecks)

  /** The tests of `check_portfolio_risk`, in order: the margin ratio
      against the liquidation line, the call line and 1.5; the change rate
      of the equity against the daily loss limit and 80% of it; every
      sector's share against the sector limit. */
  function JudgePortfolio(ratio: real, rate: real, shares: seq<Item<Sector>>, limits: RiskLimits): (v: PortfolioVerdict)
  {
    var forced := ratio <= limits.forceLiquidationThreshold;
    var called := !forced && ratio <= limits.marginCallThreshold;
    var thin := !forced && !called && ratio <= 1.5;
    var errors1 := if forced then [ForcedLiquidation] else [];
    var warnings1 := if called then [NearMarginCall] else if thin then [MarginRatioLow] else [];
    var level1 := if forced then Critical else if called then High else if thin then Medium else Low;

    var lossLimit := -limits.maxDailyLoss;
    var lost := rate <= lossLimit;
    var losing := !lost && rate <= lossLimit * 0.8;
    var errors2 := if lost then errors1 + [DailyLossExceeded(rate)] else errors1;
    var warnings2 := if losing then warnings1 + [DailyLossLarge] else warnings1;
    var level2 := if lost then Critical else if losing then High else level1;

    var crowded := ConcentrationWarnings(shares, limits.maxSectorConcentration);
    var level3 := if crowded != [] then Medium else level2;

    PortfolioVerdict(warnings2 + crowded, errors2, level3,
                     PortfolioChecks(ratio > limits.marginCallThreshold, rate > lossLimit, crowded == []))
  }

  /** The label is that of the last test that fired: any crowded sector,
      then the daily loss, then the margin ratio ladder; `'low'` when none
      fired. */
  lemma PortfolioLabelOfLastCheck(ratio: real, rate: real, shares: seq<Item<Sector>>, limits: RiskLimits)
    ensures JudgePortfolio(ratio, rate, shares, limits).overallRisk ==
              if exists i | 0 <= i < |shares| :: shares[i].value > limits.maxSectorConcentration then Medium
              else if rate <= -limits.maxDailyLoss then Critical
              else if rate <= -limits.maxDailyLoss * 0.8 then High
              else if ratio <= limits.forceLiquidationThreshold then Critical
              else if ratio <= limits.marginCallThreshold then High
              else if ratio <= 1.5 then Medium
              else Low
  {
  }

  /** What the flags and the errors of a portfolio check mean. */
  lemma PortfolioChecksMeaning(ratio: real, rate: real, shares: seq<Item<Sector>>, limits: RiskLimits)
    ensures var v := JudgePortfolio(ratio, rate, shares, limits);
            && (v.checks.marginSufficient <==> ratio > limits.marginCallThreshold)
            && (v.checks.dailyLossWithinLimit <==> rate > -limits.maxDailyLoss)
            && (v.checks.concentrationOk <==> forall i | 0 <= i < |shares| :: shares[i].value <= limits.maxSectorConcentration)
            && (ForcedLiquidation in v.errors <==> ratio <= limits.forceLiquidationThreshold)
            && (DailyLossExceeded(rate) in v.errors <==> rate <= -limits.maxDailyLoss)
  {
  }

  /** A sector's concentration warning names the sector and its share, and
      appears exactly when that share exceeds the limit. */
  lemma CrowdedSectorWarned(ratio: real, rate: real, shares: seq<Item<Sector>>, limits: RiskLimits, i: int)
    requires 0 <= i < |shares| && shares[i].value > limits.maxSectorConcentration
    ensures var v := JudgePortfolio(ratio, rate, shares, limits);
            v.overallRisk == Medium && !v.checks.concentrationOk
            && SectorConcentrated(shares[i].key, shares[i].value) in v.warnings
  {
    CrowdedSectorListed(shares, limits.maxSectorConcentration, i);
  }

  /** Every share over the limit has its warning. */
  lemma {:induction false} CrowdedSectorListed(shares: seq<Item<Sector>>, limit: real, i: int)
    requires 0 <= i < |shares| && shares[i].value > limit
    ensures SectorConcentrated(shares[i].key, shares[i].value) in ConcentrationWarnings(shares, limit)
    decreases |shares|
  {
    var n := |shares| - 1;
    if i < n {
      assert shares[..n][i] == shares[i];
      CrowdedSectorListed(shares[..n], limit, i);
    }
  }

  /** The pairs the distribution loop groups: each position's group under
      `key` (its sector, or its tier) with its value. */
  function Grouped<K>(mc: Calculator, positions: seq<Position>, key: string -> K): (items: seq<Item<K>>)
    ensures |items| == |positions|
    ensures forall i | 0 <= i < |positions| ::
              items[i] == Item(key(positions[i].symbol), ValueTerm(mc)(positions[i]))
  {
    seq(|positions|, i requires 0 <= i < |positions| =>
          Item(key(positions[i].symbol), ValueTerm(mc)(positions[i])))
  }

  /** Grouping accounts for every position once: the buckets' values add up
      to the value of the book and their counts to its size. */
  lemma GroupedTotals<K(!new)>(mc: Calculator, positions: seq<Position>, key: string -> K)
    ensures var d := Tally(Grouped(mc, positions, key));
            && SumBy(Values(d), BucketValue()) == SumBy(positions, ValueTerm(mc))
            && SumBy(Values(d), BucketCount()) == |positions| as real
  {
    var items := Grouped(mc, positions, key);
    TallyTotals(items);
    SumByPointwise(items, ItemValue(), positions, ValueTerm(mc));
  }

  /** A group has a bucket exactly when some position falls in it, and the
      bucket holds the value of those positions. */
  lemma GroupedEntry<K(!new)>(mc: Calculator, positions: seq<Position>, key: string -> K, k: K)
    ensures var d := Tally(Grouped(mc, positions, key));
            && (k in d.entries <==> exists i | 0 <= i < |positions| :: key(positions[i].symbol) == k)
            && (k in d.entries ==> d.entries[k].value == SumBy(positions, ValueWhere(mc, key, k)))
  {
    var items := Grouped(mc, positions, key);
    TallyEntry(items, k);
    SumByPointwise(items, ValueFor(k), positions, ValueWhere(mc, key, k));
    if exists i | 0 <= i < |positions| :: key(positions[i].symbol) == k {
      var i :| 0 <= i < |positions| && key(positions[i].symbol) == k;
      assert Keys(items)[i] == k;
    }
  }

  /** The dictionary `check_portfolio_risk` returns, without the timestamp.
      The `percentage` of each distribution entry is kept beside it, in the
      distribution's order. */
  datatype PortfolioRisk = PortfolioRisk(
    accountBalance: real,
    dynamicEquity: real,
    totalMarginRequired: real,
    marginRatio: real,
    dailyPnl: real,
    dailyPnlRate: real,
    totalPositions: nat,
    totalPortfolioValue: real,
    sectorDistribution: Dict<Sector, Bucket>,
    sectorShares: seq<Item<Sector>>,
    riskDistribution: Dict<Tier, Bucket>,
    riskShares: seq<Item<Tier>>,
    verdict: PortfolioVerdict)

  /** `check_portfolio_risk`: the equity (which raises when the profit
      calculation does), the margin ratio, the two distributions and their
      shares, and the verdict. */
  function CheckPortfolioRisk(rm: RiskManager, balance: real, positions: seq<Position>, prices: map<string, real>)
    : (r: Result<PortfolioRisk, Raised>)
    ensures r.Ok? <==> CalculateDynamicEquity(rm.calculator, balance, positions, prices).Ok?
    ensures r.Ok? ==>
              var eq := CalculateDynamicEquity(rm.calculator, balance, positions, prices).value;
              var pm := CalculatePortfolioMargin(rm.calculator, positions);
              var p := r.value;
              && p.accountBalance == balance && p.dynamicEquity == eq.dynamicEquity
              && p.totalMarginRequired == pm.totalMarginRequired
              && p.marginRatio == MarginRatio(eq.dynamicEquity, pm.totalMarginRequired)
              && p.dailyPnl == eq.unrealizedPnl && p.dailyPnlRate == eq.EquityChangeRate()
              && p.totalPositions == |positions| && p.totalPortfolioValue == pm.totalPositionValue
              && p.sectorDistribution == Tally(Grouped(rm.calculator, positions, GetSymbolSector))
              && p.riskDistribution == Tally(Grouped(rm.calculator, positions, GetSymbolRiskCategory))
              && p.sectorShares == Shares(p.sectorDistribution, p.totalPortfolioValue)
              && p.riskShares == Shares(p.riskDistribution, p.totalPortfolioValue)
              && p.verdict == JudgePortfolio(p.marginRatio, p.dailyPnlRate, p.sectorShares, rm.limits)
  {
    var mc := rm.calculator;
    match CalculateDynamicEquity(mc, balance, positions, prices)
    case Err(e) => Err(e)
    case Ok(eq) =>
      var pm := CalculatePortfolioMargin(mc, positions);
      var ratio := MarginRatio(eq.dynamicEquity, pm.totalMarginRequired);
      var sectors := Tally(Grouped(mc, positions, GetSymbolSector));
      var tiers := Tally(Grouped(mc, positions, GetSymbolRiskCategory));
      var total := pm.totalPositionValue;
      var sectorShares := Shares(sectors, total);
      Ok(PortfolioRisk(balance, eq.dynamicEquity, pm.totalMarginRequired, ratio,
                       eq.unrealizedPnl, eq.EquityChangeRate(), |positions|, total,
                       sectors, sectorShares, tiers, Shares(tiers, total),
                       JudgePortfolio(ratio, eq.EquityChangeRate(), sectorShares, rm.limits)))
  }

  /** Both distributions account for every position once: their values add
      up to the portfolio value and their counts to the number of
      positions, so with a positive portfolio value the shares add up
      to 1. */
  lemma DistributionsAddUp(rm: RiskManager, balance: real, positions: seq<Position>, prices: map<string, real>)
    ensures var r := CheckPortfolioRisk(rm, balance, positions, prices);
            r.Ok? ==>
              var p := r.value;
              && SumBy(Values(p.sectorDistribution), BucketValue()) == p.totalPortfolioValue
              && SumBy(Values(p.sectorDistribution), BucketCount()) == |positions| as real
              && SumBy(Values(p.riskDistribution), BucketValue()) == p.totalPortfolioValue
              && SumBy(Values(p.riskDistribution), BucketCount()) == |positions| as real
              && (p.totalPortfolioValue > 0.0 ==>
                    SumBy(p.sectorShares, ItemValue()) == 1.0 && SumBy(p.riskShares, ItemValue()) == 1.0)
  {
    var r := CheckPortfolioRisk(rm, balance, positions, prices);
    if r.Ok? {
      var p := r.value;
      GroupedTotals(rm.calculator, positions, GetSymbolSector);
      GroupedTotals(rm.calculator, positions, GetSymbolRiskCategory);
      if p.totalPortfolioValue > 0.0 {
        SharesOfTotalSumToOne(p.sectorDistribution, p.totalPortfolioValue);
        SharesOfTotalSumToOne(p.riskDistribution, p.totalPortfolioValue);
      }
    }
  }

  /** A sector has an entry exactly when some position belongs to it, and
      the entry holds the value of that sector's positions, the same sum
      the position check uses for sector concentration. */
  lemma SectorEntryIsSectorValue(rm: RiskManager, balance: real, positions: seq<Position>,
                                 prices: map<string, real>, sector: Sector)
    ensures var r := CheckPortfolioRisk(rm, balance, positions, prices);
            r.Ok? ==>
              var d := r.value.sectorDistribution;
              && (sector in d.entries <==> exists i | 0 <= i < |positions| :: GetSymbolSector(positions[i].symbol) == sector)
              && (sector in d.entries ==> d.entries[sector].value == SumBy(positions, ValueWhere(rm.calculator, GetSymbolSector, sector)))
  {
    GroupedEntry(rm.calculator, positions, GetSymbolSector, sector);
  }

  /** An empty book with a positive balance is rated `'low'`, with no
      message and every flag set, under any limits whose lines lie below
      the ratio 999 reported when no margin is used and whose loss limit is
      positive. */
  lemma EmptyBookIsLow(rm: RiskManager, balance: real, prices: map<string, real>)
    requires balance > 0.0
    requires rm.limits.forceLiquidationThreshold < 999.0 && rm.limits.marginCallThreshold < 999.0
    requires rm.limits.maxDailyLoss > 0.0
    ensures var r := CheckPortfolioRisk(rm, balance, [], prices);
            && r.Ok? && r.value.marginRatio == 999.0 && r.value.dailyPnlRate == 0.0
            && r.value.verdict == PortfolioVerdict([], [], Low, PortfolioChecks(true, true, true))
  {
    EquityWithoutPositions(rm.calculator, balance, prices);
    PortfolioEmpty(rm.calculator);
    var r := CheckPortfolioRisk(rm, balance, [], prices);
    assert Grouped(rm.calculator, [], GetSymbolSector) == [];
    assert r.value.sectorShares == [];
  }

  /* ------------------------------------------------------ position size */

  /** One row of `risk_params`. */
  datatype ToleranceParams = ToleranceParams(maxPositionRate: real, maxLeverage: real)

  /** `risk_params.get(risk_tolerance, risk_params['medium'])`. */
  function RiskParams(tolerance: string): (p: ToleranceParams)
    ensures 0.0 < p.maxPositionRate < 1.0 && p.maxLeverage > 0.0
  {
    if tolerance == "low" then ToleranceParams(0.1, 3.0)
    else if tolerance == "high" then ToleranceParams(0.3, 8.0)
    else ToleranceParams(0.2, 5.0)
  }

  /** An unknown tolerance is sized as `'medium'`. */
  lemma UnknownToleranceIsMedium(tolerance: string)
    requires tolerance != "low" && tolerance != "medium" && tolerance != "high"
    ensures RiskParams(tolerance) == RiskParams("medium") == ToleranceParams(0.2, 5.0)
  {
  }

  /** `int(budget / margin_per_lot) if margin_per_lot > 0 else 0`. */
  function LotsWithinBudget(budget: real, marginPerLot: real): (n: int)
    ensures marginPerLot <= 0.0 ==> n == 0
    ensures budget >= 0.0 ==> n >= 0
  {
    if marginPerLot > 0.0 then Trunc(budget / marginPerLot) else 0
  }

  /** With a non-negative budget, the lot count is the largest whose margin
      fits in the budget. */
  lemma LotsFitBudget(budget: real, marginPerLot: real)
    requires budget >= 0.0 && marginPerLot > 0.0
    ensures var n := LotsWithinBudget(budget, marginPerLot);
            n as real * marginPerLot <= budget < (n as real + 1.0) * marginPerLot
  {
    TruncQuotient(budget, marginPerLot);
  }

  /** One leverage clamp: `if leverage > cap: volume = min(volume,
      int(volume * cap / leverage))`. */
  function ClampToLeverage(volume: int, leverage: real, cap: real): (c: int)
    requires cap >= 0.0
    ensures c <= volume
    ensures leverage <= cap ==> c == volume
    ensures volume >= 0 ==> c >= 0
  {
    if leverage > cap then
      var scaled := volume as real * cap / leverage;
      assert volume >= 0 ==> scaled >= 0.0 by {
        if volume >= 0 {
          MulNonNegative(volume as real, cap);
        }
      }
      var limited := Trunc(scaled);
      if limited < volume then limited else volume
    else volume
  }

  /** After a clamp the lots times the leverage are within the original
      lots times the cap: the clamped position is no more leveraged than
      the cap allows of the original. */
  lemma ClampCapsExposure(volume: int, leverage: real, cap: real)
    requires cap >= 0.0 && volume >= 0 && leverage > cap
    ensures ClampToLeverage(volume, leverage, cap) as real * leverage <= volume as real * cap
  {
    var scaled := volume as real * cap / leverage;
    var c := ClampToLeverage(volume, leverage, cap);
    MulNonNegative(volume as real, cap);
    assert c as real <= scaled;
    QuotientTimes(volume as real * cap, leverage);
    MulNonNegative(scaled - c as real, leverage);
  }

  /** A clamp that bites removes less than one lot's worth: either the
      volume is kept, or one more lot would carry more exposure than the
      original volume at the cap. */
  lemma ClampKeepsMost(volume: int, leverage: real, cap: real)
    requires cap >= 0.0 && volume >= 0 && leverage > cap
    ensures var c := ClampToLeverage(volume, leverage, cap);
            c == volume || (c as real + 1.0) * leverage > volume as real * cap
  {
    var c := ClampToLeverage(volume, leverage, cap);
    if c != volume {
      MulNonNegative(volume as real, cap);
      assert c == Trunc(volume as real * cap / leverage);
      TruncQuotient(volume as real * cap, leverage);
    }
  }

  /** The suggested lot count: the lots the tolerance's budget pays for,
      clamped by the tolerance's leverage cap and then by the tier's. Where
      neither cap is below the leverage, it is exactly the budgeted lots. */
  function SuggestedLots(budget: real, marginPerLot: real, leverage: real, toleranceCap: real, categoryCap: real)
    : (n: int)
    requires toleranceCap >= 0.0 && categoryCap >= 0.0
    ensures n <= LotsWithinBudget(budget, marginPerLot)
    ensures leverage <= toleranceCap && leverage <= categoryCap ==> n == LotsWithinBudget(budget, marginPerLot)
  {
    ClampToLeverage(ClampToLeverage(LotsWithinBudget(budget, marginPerLot), leverage, toleranceCap),
                    leverage, categoryCap)
  }

  /** Where a leverage cap is below the contract's leverage, `n` lots at
      that leverage carry no more exposure than `budgeted` lots at the cap. */
  predicate WithinLeverageCap(n: int, leverage: real, budgeted: int, cap: real)
  {
    leverage > cap ==> n as real * leverage <= budgeted as real * cap
  }

  /** Each clamp that bites caps the exposure: the lots times the contract's
      leverage stay within the budgeted lots times that cap. */
  lemma LotsCappedByLeverage(budget: real, marginPerLot: real, leverage: real, toleranceCap: real, categoryCap: real)
    requires toleranceCap >= 0.0 && categoryCap >= 0.0 && budget >= 0.0
    ensures var n := SuggestedLots(budget, marginPerLot, leverage, toleranceCap, categoryCap);
            var lots := LotsWithinBudget(budget, marginPerLot);
            && n >= 0
            && WithinLeverageCap(n, leverage, lots, toleranceCap)
            && WithinLeverageCap(n, leverage, lots, categoryCap)
  {
    var lots := LotsWithinBudget(budget, marginPerLot);
    assert SuggestedLots(budget, marginPerLot, leverage, toleranceCap, categoryCap)
        == ClampToLeverage(ClampToLeverage(lots, leverage, toleranceCap), leverage, categoryCap);
    FirstClampCapped(lots, leverage, toleranceCap, categoryCap);
    SecondClampCapped(lots, leverage, toleranceCap, categoryCap);
  }

  /** The tolerance's clamp, and the tier's after it, keep the tolerance's cap. */
  lemma FirstClampCapped(lots: int, leverage: real, toleranceCap: real, categoryCap: real)
    requires lots >= 0 && toleranceCap >= 0.0 && categoryCap >= 0.0
    ensures var first := ClampToLeverage(lots, leverage, toleranceCap);
            var n := ClampToLeverage(first, leverage, categoryCap);
            n >= 0 && WithinLeverageCap(n, leverage, lots, toleranceCap)
  {
    var first := ClampToLeverage(lots, leverage, toleranceCap);
    var n := ClampToLeverage(first, leverage, categoryCap);
    if leverage > toleranceCap {
      ClampCapsExposure(lots, leverage, toleranceCap);
      ScaleAtMost(n as real, first as real, leverage);
    }
  }

  /** The tier's clamp keeps the tier's cap relative to the budgeted lots. */
  lemma SecondClampCapped(lots: int, leverage: real, toleranceCap: real, categoryCap: real)
    requires lots >= 0 && toleranceCap >= 0.0 && categoryCap >= 0.0
    ensures var first := ClampToLeverage(lots, leverage, toleranceCap);
            WithinLeverageCap(ClampToLeverage(first, leverage, categoryCap), leverage, lots, categoryCap)
  {
    var first := ClampToLeverage(lots, leverage, toleranceCap);
    var n := ClampToLeverage(first, leverage, categoryCap);
    if leverage > categoryCap {
      ClampCapsExposure(first, leverage, categoryCap);
      if categoryCap > 0.0 {
        ScaleAtMost(first as real, lots as real, categoryCap);
      }
      assert first as real * categoryCap <= lots as real * categoryCap;
    }
  }

  const NoPositionReason: string := "当前价格下风险过高，不建议开仓"

  /** The reasoning of a positive suggestion. */
  function LotsReason(tolerance: string, lots: nat): string
  {
    "基于" + tolerance + "风险承受能力，建议持仓" + NatToString(lots) + "手"
  }

  /** The dictionary `suggest_position_size` returns. The record keeps the
      lot count and what it was sized from; the margin, value, leverage,
      usage and reasoning it reports are members, and are zero, with the
      refusal text, when no lot is suggested. */
  datatype Suggestion = Suggestion(
    symbol: string,
    price: real,
    suggestedVolume: nat,
    marginPerLot: real,
    contractMultiplier: int,
    riskTolerance: string,
    balance: real)
  {
    /** `suggested_volume * margin_per_lot`. */
    function MarginRequired(): real
    {
      suggestedVolume as real * marginPerLot
    }

    /** `suggested_volume * price * contract_multiplier`. */
    function PositionValue(): real
    {
      suggestedVolume as real * price * contractMultiplier as real
    }

    /** `position_value / margin_required if margin_required > 0 else 0`. */
    function Leverage(): real
    {
      Ratio(PositionValue(), MarginRequired())
    }

    /** `margin_required / account_balance`; lots are only suggested from
      a positive balance. */
    function MarginUsageRate(): real
    {
      Ratio(MarginRequired(), balance)
    }

    function Reasoning(): string
    {
      if suggestedVolume > 0 then LotsReason(riskTolerance, suggestedVolume) else NoPositionReason
    }
  }

  /** Lots can only be suggested from a budget holding at least one lot's
      positive margin. */
  lemma LotsNeedFunds(budget: real, marginPerLot: real, leverage: real, toleranceCap: real, categoryCap: real)
    requires toleranceCap >= 0.0 && categoryCap >= 0.0
    requires SuggestedLots(budget, marginPerLot, leverage, toleranceCap, categoryCap) > 0
    ensures 0.0 < marginPerLot <= budget
  {
    assert LotsWithinBudget(budget, marginPerLot) > 0;
    PositiveQuotient(budget, marginPerLot);
  }

  /** `suggest_position_size` from the one-lot margin record of the symbol
      and its tier's leverage cap: the clamped lots when positive, else
      none. A positive count is within what the tolerance's budget pays
      for, comes from a positive balance, spends at most the tolerance's
      share of it, and, when the record is one lot at the same price,
      carries that lot's leverage. */
  function Suggest(symbol: string, price: real, balance: real, tolerance: string,
                   single: PositionMargin, categoryMax: real): (s: Suggestion)
    requires categoryMax >= 0.0
    ensures s.symbol == symbol && s.price == price && s.riskTolerance == tolerance && s.balance == balance
    ensures s.marginPerLot == single.MarginRequired() && s.contractMultiplier == single.contractMultiplier
    ensures s.suggestedVolume == 0 <==>
              SuggestedLots(balance * RiskParams(tolerance).maxPositionRate, single.MarginRequired(),
                            single.Leverage(), RiskParams(tolerance).maxLeverage, categoryMax) <= 0
    ensures var rate := RiskParams(tolerance).maxPositionRate;
            s.suggestedVolume > 0 ==>
              && s.suggestedVolume <= LotsWithinBudget(balance * rate, s.marginPerLot)
              && balance > 0.0
              && s.MarginRequired() <= balance * rate
              && s.MarginUsageRate() <= rate
    ensures s.suggestedVolume > 0 && single.price == price && single.volume == 1 && single.marginRate > 0.0 ==>
              s.Leverage() == single.Leverage()
    ensures var params := RiskParams(tolerance);
            var lots := LotsWithinBudget(balance * params.maxPositionRate, s.marginPerLot);
            s.suggestedVolume > 0 ==>
              && WithinLeverageCap(s.suggestedVolume, single.Leverage(), lots, params.maxLeverage)
              && WithinLeverageCap(s.suggestedVolume, single.Leverage(), lots, categoryMax)
    ensures var params := RiskParams(tolerance);
            var lots := LotsWithinBudget(balance * params.maxPositionRate, s.marginPerLot);
            single.Leverage() <= params.maxLeverage && single.Leverage() <= categoryMax ==>
              s.suggestedVolume == (if lots > 0 then lots else 0)
  {
    var params := RiskParams(tolerance);
    var budget := balance * params.maxPositionRate;
    var lots := SuggestedLots(budget, single.MarginRequired(), single.Leverage(), params.maxLeverage, categoryMax);
    if lots > 0 then
      var s := Suggestion(symbol, price, lots, single.MarginRequired(), single.contractMultiplier, tolerance, balance);
      LotsNeedFunds(budget, single.MarginRequired(), single.Leverage(), params.maxLeverage, categoryMax);
      LotsCappedByLeverage(budget, single.MarginRequired(), single.Leverage(), params.maxLeverage, categoryMax);
      BudgetedSuggestionWithin(s, params.maxPositionRate);
      if single.price == price && single.volume == 1 && single.marginRate > 0.0 then
        LotsKeepLeverage(s, single);
        s
      else
        s
    else
      Suggestion(symbol, price, 0, single.MarginRequired(), single.contractMultiplier, tolerance, balance)
  }

  /** No lots means every reported figure is zero and the reasoning is the
      refusal. */
  lemma NoLotsAllZero(s: Suggestion)
    requires s.suggestedVolume == 0
    ensures s.MarginRequired() == 0.0 && s.PositionValue() == 0.0 && s.Leverage() == 0.0
    ensures s.MarginUsageRate() == 0.0 && s.Reasoning() == NoPositionReason
  {
  }

  /** Positive lots print their count in the reasoning. */
  lemma LotsReasonReadsBack(s: Suggestion)
    requires s.suggestedVolume > 0
    ensures var digits := NatToString(s.suggestedVolume);
            s.Reasoning() == "基于" + s.riskTolerance + "风险承受能力，建议持仓" + digits + "手"
            && IsDigitString(digits) && DigitsValue(digits) == s.suggestedVolume
  {
  }

  /** Fewer lots than a count whose margin fits a budget also fit it. */
  lemma FewerLotsLessMargin(s: Suggestion, n: int, budget: real)
    requires s.suggestedVolume <= n && s.marginPerLot > 0.0 && n as real * s.marginPerLot <= budget
    ensures s.MarginRequired() <= budget
  {
    ScaleAtMost(s.suggestedVolume as real, n as real, s.marginPerLot);
  }

  /** A suggestion whose lots the budget `balance * rate` pays for spends at
      most that budget, and its usage is at most `rate`. */
  lemma BudgetedSuggestionWithin(s: Suggestion, rate: real)
    requires rate > 0.0 && s.suggestedVolume > 0
    requires s.suggestedVolume <= LotsWithinBudget(s.balance * rate, s.marginPerLot)
    requires 0.0 < s.marginPerLot <= s.balance * rate
    ensures s.balance > 0.0 && s.MarginRequired() <= s.balance * rate
    ensures s.MarginUsageRate() * s.balance == s.MarginRequired() && s.MarginUsageRate() <= rate
  {
    var budget := s.balance * rate;
    PositiveFactor(s.balance, rate);
    LotsFitBudget(budget, s.marginPerLot);
    FewerLotsLessMargin(s, LotsWithinBudget(budget, s.marginPerLot), budget);
    var u := s.MarginUsageRate();
    if u > rate {
      ScaleBelow(rate, u, s.balance);
    }
  }

  /** Lots priced from one lot of the same contract carry that lot's
      leverage, the inverse of the margin rate, whatever their count. */
  lemma LotsKeepLeverage(s: Suggestion, single: PositionMargin)
    requires s.suggestedVolume > 0 && single.volume == 1 && single.marginRate > 0.0
    requires s.price == single.price && s.contractMultiplier == single.contractMultiplier
    requires s.marginPerLot == single.MarginRequired() && s.marginPerLot > 0.0
    ensures s.Leverage() == single.Leverage()
  {
    var rate := single.marginRate;
    var n := s.suggestedVolume as real;
    var v := s.PositionValue();
    var m := s.MarginRequired();
    assert s.marginPerLot == single.PositionValue() * rate;
    assert v == n * single.PositionValue();
    assert m == v * rate;
    MulPositive(n, s.marginPerLot);
    var l := s.Leverage();
    assert l * m == v;
    assert v != 0.0;
    assert (l * rate - 1.0) * v == 0.0;
    var y := single.Leverage();
    assert y * rate == 1.0;
    assert (l - y) * rate == 0.0;
  }

  /** `suggest_position_size`: prices one long lot of the symbol and sizes
      with the symbol's tier cap. Each lot costs one long lot's margin; a
      positive count comes from a positive balance, spends at most the
      tolerance's share of it, and carries one lot's leverage; where the
      tolerance's or the tier's leverage cap is below that leverage, the
      lots times the leverage stay within the budgeted lots times the cap. */
  function SuggestPositionSize(rm: RiskManager, symbol: string, price: real, balance: real, tolerance: string)
    : (s: Suggestion)
    ensures var one := CalculatePositionMargin(rm.calculator, symbol, price, 1, "long");
            && s.symbol == symbol && s.price == price && s.balance == balance && s.riskTolerance == tolerance
            && s.marginPerLot == one.MarginRequired()
            && s.contractMultiplier == GetContractMultiplier(rm.calculator, symbol)
    ensures var rate := RiskParams(tolerance).maxPositionRate;
            s.suggestedVolume > 0 ==>
              && balance > 0.0
              && s.suggestedVolume <= LotsWithinBudget(balance * rate, s.marginPerLot)
              && s.MarginRequired() <= balance * rate
              && s.MarginUsageRate() <= rate
    ensures var one := CalculatePositionMargin(rm.calculator, symbol, price, 1, "long");
            s.suggestedVolume > 0 && one.marginRate > 0.0 ==> s.Leverage() == one.Leverage()
    ensures var one := CalculatePositionMargin(rm.calculator, symbol, price, 1, "long");
            var params := RiskParams(tolerance);
            var cap := GetSymbolRiskCategory(symbol).MaxLeverage();
            var lots := LotsWithinBudget(balance * params.maxPositionRate, s.marginPerLot);
            s.suggestedVolume > 0 ==>
              && WithinLeverageCap(s.suggestedVolume, one.Leverage(), lots, params.maxLeverage)
              && WithinLeverageCap(s.suggestedVolume, one.Leverage(), lots, cap)
    ensures var one := CalculatePositionMargin(rm.calculator, symbol, price, 1, "long");
            var params := RiskParams(tolerance);
            var lots := LotsWithinBudget(balance * params.maxPositionRate, s.marginPerLot);
            one.Leverage() <= params.maxLeverage && one.Leverage() <= GetSymbolRiskCategory(symbol).MaxLeverage() ==>
              s.suggestedVolume == (if lots > 0 then lots else 0)
  {
    Suggest(symbol, price, balance, tolerance,
            CalculatePositionMargin(rm.calculator, symbol, price, 1, "long"),
            GetSymbolRiskCategory(symbol).MaxLeverage())
  }

  /** An unknown tolerance is sized exactly as `'medium'`. */
  lemma UnknownToleranceSizedAsMedium(rm: RiskManager, symbol: string, price: real, balance: real, tolerance: string)
    requires tolerance != "low" && tolerance != "medium" && tolerance != "high"
    ensures SuggestPositionSize(rm, symbol, price, balance, tolerance)
            == SuggestPositionSize(rm, symbol, price, balance, "medium").(riskTolerance := tolerance)
  {
    UnknownToleranceIsMedium(tolerance);
    var single := CalculatePositionMargin(rm.calculator, symbol, price, 1, "long");
    var cap := GetSymbolRiskCategory(symbol).MaxLeverage();
    assert SuggestPositionSize(rm, symbol, price, balance, tolerance) == Suggest(symbol, price, balance, tolerance, single, cap);
    assert SuggestPositionSize(rm, symbol, price, balance, "medium") == Suggest(symbol, price, balance, "medium", single, cap);
    SameParamsSameSuggestion(symbol, price, balance, tolerance, "medium", single, cap);
  }

  /** Two tolerances with the same parameters size the same; only the
      recorded tolerance differs. */
  lemma SameParamsSameSuggestion(symbol: string, price: real, balance: real, a: string, b: string,
                                 single: PositionMargin, categoryMax: real)
    requires categoryMax >= 0.0 && RiskParams(a) == RiskParams(b)
    ensures Suggest(symbol, price, balance, a, single, categoryMax)
            == Suggest(symbol, price, balance, b, single, categoryMax).(riskTolerance := a)
  {
    var params := RiskParams(a);
    var lots := SuggestedLots(balance * params.maxPositionRate, single.MarginRequired(), single.Leverage(),
                              params.maxLeverage, categoryMax);
    if lots > 0 {
      assert Suggest(symbol, price, balance, a, single, categoryMax).suggestedVolume == lots;
    }
  }

  /** One lot of copper at 70000 needs 33600 of margin, more than the 20000
      a medium tolerance allows of a 100000 balance: no lots are
      suggested, with the refusal text. */
  lemma CopperMediumSuggestsNothing(symbol: string)
    requires AllLetters(symbol) && Upper(symbol) == "CU"
    ensures var s := SuggestPositionSize(NewRiskManager(NewCalculator()), symbol, 70000.0, 100000.0, "medium");
            s.suggestedVolume == 0 && s.MarginRequired() == 0.0 && s.Reasoning() == NoPositionReason
  {
    CopperOneLot(symbol);
    var single := CalculatePositionMargin(NewCalculator(), symbol, 70000.0, 1, "long");
    assert LotsWithinBudget(100000.0 * 0.2, single.MarginRequired()) == 0;
  }

  /** A high tolerance on a 1000000 balance budgets 300000, which pays for
      8 lots of copper at 70000. Copper's leverage of 125/12 is above both
      the high tolerance's cap of 8 and the medium tier's cap of 10, and the
      two clamps compound: 8 lots become int(8 * 8 / (125/12)) = 6, and then
      int(6 * 10 / (125/12)) = 5. */
  lemma CopperHighSuggestsFive(symbol: string)
    requires AllLetters(symbol) && Upper(symbol) == "CU"
    ensures var s := SuggestPositionSize(NewRiskManager(NewCalculator()), symbol, 70000.0, 1000000.0, "high");
            && s.suggestedVolume == 5 && s.MarginRequired() == 168000.0 && s.PositionValue() == 1750000.0
            && s.Reasoning() == LotsReason("high", 5)
  {
    CopperOneLot(symbol);
    CopperClassified(symbol);
    var single := CalculatePositionMargin(NewCalculator(), symbol, 70000.0, 1, "long");
    var leverage := single.Leverage();
    assert leverage * 0.096 == 1.0;
    assert leverage == 125.0 / 12.0;
    var lots := LotsWithinBudget(1000000.0 * 0.3, single.MarginRequired());
    assert lots == Trunc(300000.0 / 33600.0);
    assert lots == 8;
    var first := ClampToLeverage(lots, leverage, 8.0);
    assert 8.0 * 8.0 / leverage == 6.144;
    assert first == 6;
    var n := ClampToLeverage(first, leverage, 10.0);
    assert 6.0 * 10.0 / leverage == 5.76;
    assert n == 5;
    assert SuggestedLots(1000000.0 * 0.3, single.MarginRequired(), leverage, 8.0, 10.0) == 5;
  }
}
