/** `MarginCalculator`: margin rates and contract multipliers looked up by
    the extracted underlying, position value, required margin and leverage,
    portfolio totals, available margin, unrealized profit and loss, and
    dynamic equity. `Decimal` values are exact `real`s. */
module MarginCalculator {
  import opened Wrappers
  import opened Strings
  import opened Decimals
  import opened Underlying

  /* ------------------------------------------------------------- tables */

  /** The number of entries in each of the two tables. */
  const TableSize: nat := 53

  /** Entry `i` of the exchange margin rate table the calculator starts
      with, in the table's order. */
  function RateRow(i: nat): (row: (string, real))
    requires i < TableSize
    ensures 0.0 < row.1 <= 0.12
    ensures 1 <= |row.0| <= 2
  {
    match i
    case 0 => ("IF", 0.12)
    case 1 => ("IH", 0.12)
    case 2 => ("IC", 0.12)
    case 3 => ("IM", 0.12)
    case 4 => ("T", 0.015)
    case 5 => ("TF", 0.012)
    case 6 => ("TS", 0.005)
    case 7 => ("CU", 0.08)
    case 8 => ("AL", 0.07)
    case 9 => ("ZN", 0.08)
    case 10 => ("PB", 0.08)
    case 11 => ("NI", 0.08)
    case 12 => ("SN", 0.07)
    case 13 => ("AU", 0.06)
    case 14 => ("AG", 0.08)
    case 15 => ("RB", 0.09)
    case 16 => ("HC", 0.08)
    case 17 => ("SS", 0.08)
    case 18 => ("FU", 0.10)
    case 19 => ("BU", 0.08)
    case 20 => ("RU", 0.09)
    case 21 => ("C", 0.05)
    case 22 => ("CS", 0.05)
    case 23 => ("A", 0.05)
    case 24 => ("B", 0.05)
    case 25 => ("M", 0.05)
    case 26 => ("Y", 0.05)
    case 27 => ("P", 0.05)
    case 28 => ("J", 0.08)
    case 29 => ("JM", 0.08)
    case 30 => ("I", 0.08)
    case 31 => ("JD", 0.08)
    case 32 => ("L", 0.05)
    case 33 => ("V", 0.05)
    case 34 => ("PP", 0.05)
    case 35 => ("CF", 0.05)
    case 36 => ("SR", 0.06)
    case 37 => ("TA", 0.06)
    case 38 => ("OI", 0.05)
    case 39 => ("MA", 0.06)
    case 40 => ("ZC", 0.06)
    case 41 => ("FG", 0.06)
    case 42 => ("RM", 0.05)
    case 43 => ("AP", 0.10)
    case 44 => ("CJ", 0.05)
    case 45 => ("UR", 0.05)
    case 46 => ("SA", 0.06)
    case 47 => ("PF", 0.05)
    case 48 => ("SC", 0.10)
    case 49 => ("LU", 0.08)
    case 50 => ("BC", 0.08)
    case 51 => ("SI", 0.08)
    case 52 => ("LC", 0.12)
    case _ => ("LC", 0.12)
  }

  /** Entry `i` of the contract multiplier table, which is never written. */
  function MultiplierRow(i: nat): (row: (string, int))
    requires i < TableSize
    ensures 1 <= row.1 <= 20000
    ensures 1 <= |row.0| <= 2
  {
    match i
    case 0 => ("IF", 300)
    case 1 => ("IH", 300)
    case 2 => ("IC", 200)
    case 3 => ("IM", 200)
    case 4 => ("T", 10000)
    case 5 => ("TF", 10000)
    case 6 => ("TS", 20000)
    case 7 => ("CU", 5)
    case 8 => ("AL", 5)
    case 9 => ("ZN", 5)
    case 10 => ("PB", 5)
    case 11 => ("NI", 1)
    case 12 => ("SN", 1)
    case 13 => ("AU", 1000)
    case 14 => ("AG", 15)
    case 15 => ("RB", 10)
    case 16 => ("HC", 10)
    case 17 => ("SS", 5)
    case 18 => ("I", 100)
    case 19 => ("J", 100)
    case 20 => ("JM", 60)
    case 21 => ("SC", 1000)
    case 22 => ("FU", 10)
    case 23 => ("LU", 10)
    case 24 => ("BU", 10)
    case 25 => ("RU", 10)
    case 26 => ("L", 5)
    case 27 => ("V", 5)
    case 28 => ("PP", 5)
    case 29 => ("TA", 5)
    case 30 => ("MA", 10)
    case 31 => ("C", 10)
    case 32 => ("CS", 10)
    case 33 => ("A", 10)
    case 34 => ("B", 10)
    case 35 => ("M", 10)
    case 36 => ("Y", 10)
    case 37 => ("P", 10)
    case 38 => ("CF", 5)
    case 39 => ("SR", 10)
    case 40 => ("OI", 10)
    case 41 => ("RM", 10)
    case 42 => ("AP", 10)
    case 43 => ("CJ", 5)
    case 44 => ("ZC", 100)
    case 45 => ("FG", 20)
    case 46 => ("UR", 20)
    case 47 => ("SA", 20)
    case 48 => ("PF", 5)
    case 49 => ("JD", 10)
    case 50 => ("SI", 10)
    case 51 => ("LC", 1)
    case 52 => ("BC", 5)
    case _ => ("BC", 5)
  }

  /** `exchange_margin_rates.get(u)` on the initial table, scanning from
      entry `i`. The keys are all different, so the first match is the
      dictionary's value. */
  function TableRate(u: string, i: nat := 0): (r: Option<real>)
    requires i <= TableSize
    ensures r.Some? ==> 0.0 < r.value <= 0.12
    ensures |u| > 2 ==> r.None?
    decreases TableSize - i
  {
    if i == TableSize then None
    else if RateRow(i).0 == u then Some(RateRow(i).1)
    else TableRate(u, i + 1)
  }

  /** `contract_multipliers.get(u)`, scanning from entry `i`. */
  function TableMultiplier(u: string, i: nat := 0): (m: Option<int>)
    requires i <= TableSize
    ensures m.Some? ==> 1 <= m.value <= 20000
    ensures |u| > 2 ==> m.None?
    decreases TableSize - i
  {
    if i == TableSize then None
    else if MultiplierRow(i).0 == u then Some(MultiplierRow(i).1)
    else TableMultiplier(u, i + 1)
  }

  /** The rate used for a product missing from the rate table. */
  const DefaultMarginRate: real := 0.10
  /** The multiplier used for a product missing from the multiplier table. */
  const DefaultMultiplier: int := 10
  /** The broker's surcharge on the exchange rate. */
  const DefaultBrokerMultiplier: real := 1.2

  /** The calculator's changing state. The rate dictionary is the initial
      table with the custom rates written over it, so it is kept as those
      overrides; the multiplier dictionary is never written. */
  datatype Calculator = Calculator(customRates: map<string, real>, brokerMarginMultiplier: real)

  /** `MarginCalculator()`. */
  function NewCalculator(): (c: Calculator)
    ensures c.customRates == map[]
    ensures c.brokerMarginMultiplier == DefaultBrokerMultiplier
  {
    Calculator(map[], DefaultBrokerMultiplier)
  }

  /** `exchange_margin_rates.get(u)`. */
  function ExchangeRate(mc: Calculator, u: string): Option<real>
  {
    if u in mc.customRates then Some(mc.customRates[u]) else TableRate(u)
  }

  /* ------------------------------------------------------------ lookups */

  /** The exchange rate of the symbol's underlying, 0.10 when unknown. */
  function BaseMarginRate(mc: Calculator, symbol: string): real
  {
    ExchangeRate(mc, ExtractUnderlying(symbol)).GetOr(DefaultMarginRate)
  }

  /** `get_margin_rate`: the exchange rate times the broker multiplier. */
  function GetMarginRate(mc: Calculator, symbol: string): real
  {
    BaseMarginRate(mc, symbol) * mc.brokerMarginMultiplier
  }

  /** `get_contract_multiplier`: the underlying's multiplier, 10 when unknown. */
  function GetContractMultiplier(mc: Calculator, symbol: string): (m: int)
    ensures m > 0
  {
    TableMultiplier(ExtractUnderlying(symbol)).GetOr(DefaultMultiplier)
  }

  /* ----------------------------------------------------------- position */

  /** The dictionary `calculate_position_margin` returns, without the
      constant currency field. The record keeps what the calculation looks
      up; the value, the margin and the leverage it reports are derived
      from those as members. */
  datatype PositionMargin = PositionMargin(
    symbol: string,
    underlying: string,
    price: real,
    volume: int,
    positionType: string,
    marginRate: real,
    contractMultiplier: int)
  {
    /** `position_value = price * volume * multiplier`. */
    function PositionValue(): real
    {
      price * volume as real * contractMultiplier as real
    }

    /** `margin_required = position_value * margin_rate`. */
    function MarginRequired(): real
    {
      PositionValue() * marginRate
    }

    /** `leverage = 1 / margin_rate if margin_rate > 0 else 0`. */
    function Leverage(): real
    {
      Ratio(1.0, marginRate)
    }
  }

  /** `calculate_position_margin`: the position priced under the symbol's
      extracted underlying, at the symbol's margin rate and multiplier. */
  function CalculatePositionMargin(mc: Calculator, symbol: string, price: real, volume: int, positionType: string): (m: PositionMargin)
    ensures m.symbol == symbol && m.price == price && m.volume == volume && m.positionType == positionType
    ensures m.underlying == ExtractUnderlying(symbol)
    ensures m.marginRate == GetMarginRate(mc, symbol)
    ensures m.contractMultiplier == GetContractMultiplier(mc, symbol) && m.contractMultiplier > 0
  {
    PositionMargin(symbol, ExtractUnderlying(symbol), price, volume, positionType,
                   GetMarginRate(mc, symbol), GetContractMultiplier(mc, symbol))
  }

  /** Leverage is the inverse of the rate: at a positive rate the margin
      times the leverage gives back the position value. */
  lemma LeverageInvertsRate(m: PositionMargin)
    requires m.marginRate > 0.0
    ensures m.Leverage() * m.marginRate == 1.0
    ensures m.MarginRequired() * m.Leverage() == m.PositionValue()
  {
    var l := m.Leverage();
    var v := m.PositionValue();
    assert m.MarginRequired() * l == v * (m.marginRate * l);
  }

  /** A rate that is zero or negative reports leverage 0. */
  lemma NoLeverageWithoutRate(m: PositionMargin)
    requires m.marginRate <= 0.0
    ensures m.Leverage() == 0.0
  {
  }

  /** Two positions in the same symbol differ only in price, volume and
      side: the underlying, rate and multiplier, and with them the
      leverage, are the symbol's. */
  lemma SameSymbolSameTerms(mc: Calculator, symbol: string,
                            p1: real, v1: int, t1: string, p2: real, v2: int, t2: string)
    ensures CalculatePositionMargin(mc, symbol, p1, v1, t1)
         == CalculatePositionMargin(mc, symbol, p2, v2, t2).(price := p1, volume := v1, positionType := t1)
    ensures CalculatePositionMargin(mc, symbol, p1, v1, t1).Leverage()
         == CalculatePositionMargin(mc, symbol, p2, v2, t2).Leverage()
  {
  }

  /** Value and margin grow linearly with the volume: `v` lots are worth,
      and need, `v` times one lot, whatever the side. */
  lemma MarginLinearInVolume(m: PositionMargin, volume: int)
    ensures m.(volume := volume).PositionValue() == volume as real * m.(volume := 1).PositionValue()
    ensures m.(volume := volume).MarginRequired() == volume as real * m.(volume := 1).MarginRequired()
  {
    var lot := m.price * m.contractMultiplier as real;
    assert m.(volume := volume).PositionValue() == volume as real * lot;
    assert m.(volume := 1).PositionValue() == lot;
  }

  /** A position at a non-negative price and volume has a non-negative
      value; at a rate between 0 and 1 its margin lies between 0 and that
      value. */
  lemma MarginBounds(m: PositionMargin)
    requires m.price >= 0.0 && m.volume >= 0 && m.contractMultiplier > 0
    requires 0.0 <= m.marginRate <= 1.0
    ensures 0.0 <= m.PositionValue()
    ensures 0.0 <= m.MarginRequired() <= m.PositionValue()
  {
    var pv := m.price * m.volume as real;
    MulNonNegative(m.price, m.volume as real);
    MulNonNegative(pv, m.contractMultiplier as real);
    var value := m.PositionValue();
    assert value >= 0.0;
    MulAtMost(value, m.marginRate);
    assert 0.0 <= m.MarginRequired() <= value;
  }

  /** Copper: rate 0.08, multiplier 5. */
  lemma CopperTableEntries()
    ensures TableRate("CU") == Some(0.08)
    ensures TableMultiplier("CU") == Some(5)
  {
  }

  /** Copper, written without a month, is priced at 0.08 times the default
      broker surcharge of 1.2, that is 0.096, with multiplier 5. */
  lemma CopperTerms(symbol: string)
    requires AllLetters(symbol) && Upper(symbol) == "CU"
    ensures GetMarginRate(NewCalculator(), symbol) == 0.096
    ensures GetContractMultiplier(NewCalculator(), symbol) == 5
  {
    UnderlyingOfLetters(symbol);
    CopperTableEntries();
  }

  /** One lot of copper at 70000 is worth 350000 and needs 33600 of
      margin. */
  lemma CopperOneLot(symbol: string)
    requires AllLetters(symbol) && Upper(symbol) == "CU"
    ensures var m := CalculatePositionMargin(NewCalculator(), symbol, 70000.0, 1, "long");
            m.PositionValue() == 350000.0 && m.MarginRequired() == 33600.0 && m.marginRate == 0.096
  {
    CopperTerms(symbol);
  }

  /** A product missing from both tables, with no custom rate, is priced
      at the default rate of 0.10 times the broker multiplier and with the
      default multiplier of 10. */
  lemma UnknownProductDefaults(mc: Calculator, symbol: string)
    requires ExtractUnderlying(symbol) !in mc.customRates
    requires TableRate(ExtractUnderlying(symbol)).None? && TableMultiplier(ExtractUnderlying(symbol)).None?
    ensures GetMarginRate(mc, symbol) == DefaultMarginRate * mc.brokerMarginMultiplier
    ensures GetContractMultiplier(mc, symbol) == DefaultMultiplier
  {
  }

  /** Every product of the tables has one or two letters, so `"CU2403"`,
      priced under `"CU24"`, misses both tables: it gets the table default
      rate of 0.10 times the broker multiplier of 1.2, that is 0.12, and the
      default multiplier of 10, not copper's 0.096 and 5. */
  lemma DatedCopperPricedAtDefaults(symbol: string)
    requires Upper(symbol) == "CU2403"
    ensures GetMarginRate(NewCalculator(), symbol) == 0.12
    ensures GetContractMultiplier(NewCalculator(), symbol) == 10
  {
    DatedCopperKeepsYear(symbol);
    assert |ExtractUnderlying(symbol)| > 2;
    UnknownProductDefaults(NewCalculator(), symbol);
  }

  /* ---------------------------------------------------------- portfolio */

  /** A position as the portfolio functions read it; `position_type` may be
      missing. */
  datatype Position = Position(symbol: string, price: real, volume: int, positionType: Option<string>)

  /** `position.get('position_type', 'long')`. */
  function PositionType(p: Position): string
  {
    p.positionType.GetOr("long")
  }

  /** The per-position call the portfolio functions make. */
  function MarginOf(mc: Calculator, p: Position): PositionMargin
  {
    CalculatePositionMargin(mc, p.symbol, p.price, p.volume, PositionType(p))
  }

  function ValueTerm(mc: Calculator): Position -> real
  {
    p => MarginOf(mc, p).PositionValue()
  }

  function MarginTerm(mc: Calculator): Position -> real
  {
    p => MarginOf(mc, p).MarginRequired()
  }

  /** The dictionary `calculate_portfolio_margin` returns, without the
      currency and the timestamp. */
  datatype PortfolioMargin = PortfolioMargin(
    totalPositions: nat,
    totalPositionValue: real,
    totalMarginRequired: real,
    averageMarginRate: real,
    positionDetails: seq<PositionMargin>)

  /** `calculate_portfolio_margin`: one detail per position, in order;
      totals that are the sums of the details; and the average rate, which
      is the total margin over the total value, or 0 when that value is not
      positive. */
  function CalculatePortfolioMargin(mc: Calculator, positions: seq<Position>): (pm: PortfolioMargin)
    ensures pm.totalPositions == |positions|
    ensures |pm.positionDetails| == |positions|
    ensures forall i | 0 <= i < |positions| :: pm.positionDetails[i] == MarginOf(mc, positions[i])
    ensures pm.totalPositionValue == SumBy(positions, ValueTerm(mc))
    ensures pm.totalMarginRequired == SumBy(positions, MarginTerm(mc))
    ensures pm.totalPositionValue > 0.0 ==> pm.averageMarginRate * pm.totalPositionValue == pm.totalMarginRequired
    ensures pm.totalPositionValue <= 0.0 ==> pm.averageMarginRate == 0.0
  {
    var value := SumBy(positions, ValueTerm(mc));
    var margin := SumBy(positions, MarginTerm(mc));
    PortfolioMargin(|positions|, value, margin, Ratio(margin, value), Details(mc, positions))
  }

  /** `position_details`: the record of every position, in order. */
  function Details(mc: Calculator, positions: seq<Position>): (ds: seq<PositionMargin>)
    ensures |ds| == |positions|
    ensures forall i | 0 <= i < |positions| :: ds[i] == MarginOf(mc, positions[i])
  {
    seq(|positions|, i requires 0 <= i < |positions| => MarginOf(mc, positions[i]))
  }

  /** The totals do not depend on the order of the positions. */
  lemma PortfolioOrderIrrelevant(mc: Calculator, ps: seq<Position>, qs: seq<Position>)
    requires multiset(ps) == multiset(qs)
    ensures var a := CalculatePortfolioMargin(mc, ps);
            var b := CalculatePortfolioMargin(mc, qs);
            a.totalPositions == b.totalPositions
            && a.totalPositionValue == b.totalPositionValue
            && a.totalMarginRequired == b.totalMarginRequired
            && a.averageMarginRate == b.averageMarginRate
  {
    assert |ps| == |multiset(ps)| == |multiset(qs)| == |qs|;
    SumByPermutation(ps, qs, ValueTerm(mc));
    SumByPermutation(ps, qs, MarginTerm(mc));
  }

  /** Joining two books adds their totals. */
  lemma PortfolioAppend(mc: Calculator, ps: seq<Position>, qs: seq<Position>)
    ensures var a := CalculatePortfolioMargin(mc, ps);
            var b := CalculatePortfolioMargin(mc, qs);
            var ab := CalculatePortfolioMargin(mc, ps + qs);
            ab.totalPositionValue == a.totalPositionValue + b.totalPositionValue
            && ab.totalMarginRequired == a.totalMarginRequired + b.totalMarginRequired
  {
    SumByAppend(ps, qs, ValueTerm(mc));
    SumByAppend(ps, qs, MarginTerm(mc));
  }

  /** An empty book has all totals zero. */
  lemma PortfolioEmpty(mc: Calculator)
    ensures var pm := CalculatePortfolioMargin(mc, []);
            pm.totalPositions == 0 && pm.totalPositionValue == 0.0
            && pm.totalMarginRequired == 0.0 && pm.averageMarginRate == 0.0
            && pm.positionDetails == []
  {
  }

  /* ---------------------------------------------------------- available */

  /** The dictionary `calculate_available_margin` returns. */
  datatype AvailableMargin = AvailableMargin(
    accountBalance: real,
    usedMargin: real,
    availableMargin: real,
    marginUsageRate: real,
    positionsCount: nat)

  /** `calculate_available_margin`: the used margin is the book's total
      margin; what is left is never reported as negative; the usage rate is
      the used margin over the balance, or 0 when the balance is not
      positive. */
  function CalculateAvailableMargin(mc: Calculator, balance: real, positions: seq<Position>): (a: AvailableMargin)
    ensures a.usedMargin == CalculatePortfolioMargin(mc, positions).totalMarginRequired
    ensures a.accountBalance == balance && a.positionsCount == |positions|
    ensures a.availableMargin >= 0.0
    ensures a.availableMargin >= balance - a.usedMargin
    ensures balance >= a.usedMargin ==> a.availableMargin + a.usedMargin == balance
    ensures balance < a.usedMargin ==> a.availableMargin == 0.0
    ensures balance > 0.0 ==> a.marginUsageRate * balance == a.usedMargin
    ensures balance <= 0.0 ==> a.marginUsageRate == 0.0
  {
    var used := CalculatePortfolioMargin(mc, positions).totalMarginRequired;
    var available := balance - used;
    AvailableMargin(balance, used, if available > 0.0 then available else 0.0,
                    Ratio(used, balance), |positions|)
  }

  /** With no positions the whole balance is available (when it is not
      negative) and nothing is in use. */
  lemma AvailableWithoutPositions(mc: Calculator, balance: real)
    requires balance >= 0.0
    ensures var a := CalculateAvailableMargin(mc, balance, []);
            a.usedMargin == 0.0 && a.availableMargin == balance && a.marginUsageRate == 0.0
  {
    PortfolioEmpty(mc);
  }

  /* ----------------------------------------------------- profit and loss */

  /** The exception `calculate_unrealized_pnl` can raise: `Decimal` reports
      `0/0` as `decimal.InvalidOperation`. */
  datatype Raised = InvalidOperation

  /** One entry of `position_pnls`. The record keeps what the calculation
      reads; the profit and its rate are derived as members. */
  datatype PositionPnl = PositionPnl(
    symbol: string,
    entryPrice: real,
    currentPrice: real,
    volume: int,
    positionType: string,
    contractMultiplier: int)
  {
    /** The profit: a long position gains when the price rises, and every
        other side is treated as short. */
    function UnrealizedPnl(): real
    {
      if positionType == "long" then (currentPrice - entryPrice) * volume as real * contractMultiplier as real
      else (entryPrice - currentPrice) * volume as real * contractMultiplier as real
    }

    /** The entry value `entry * volume * multiplier` the rate divides by. */
    function EntryValue(): real
    {
      entryPrice * volume as real * contractMultiplier as real
    }

    /** `pnl / entry_value if entry_price > 0 else 0`. A positive entry
        price over a zero entry value is where `Decimal` raises, and no
        record the calculator returns has it; the rate is 0 there. */
    function PnlRate(): real
    {
      if entryPrice > 0.0 && EntryValue() != 0.0 then UnrealizedPnl() / EntryValue() else 0.0
    }
  }

  /** The profit is the price move times volume and multiplier, with the
      sign of the side; the rate is that profit per unit of entry value. */
  lemma PnlOfMove(r: PositionPnl)
    ensures r.positionType == "long" ==>
              r.UnrealizedPnl() == (r.currentPrice - r.entryPrice) * (r.volume as real * r.contractMultiplier as real)
    ensures r.positionType != "long" ==>
              r.UnrealizedPnl() == -(r.currentPrice - r.entryPrice) * (r.volume as real * r.contractMultiplier as real)
    ensures r.entryPrice > 0.0 && r.EntryValue() != 0.0 ==> r.PnlRate() * r.EntryValue() == r.UnrealizedPnl()
    ensures r.entryPrice <= 0.0 ==> r.PnlRate() == 0.0
  {
    var d := r.currentPrice - r.entryPrice;
    var n := r.volume as real * r.contractMultiplier as real;
    assert d * r.volume as real * r.contractMultiplier as real == d * n;
    assert (r.entryPrice - r.currentPrice) * r.volume as real * r.contractMultiplier as real == -d * n;
    if r.entryPrice > 0.0 && r.EntryValue() != 0.0 {
      QuotientTimes(r.UnrealizedPnl(), r.EntryValue());
    }
  }

  /** Any side other than `"long"` has the opposite result of the long
      position. */
  lemma ShortIsOppositeOfLong(r: PositionPnl)
    requires r.positionType != "long"
    ensures r.UnrealizedPnl() == -r.(positionType := "long").UnrealizedPnl()
  {
    PnlOfMove(r);
    PnlOfMove(r.(positionType := "long"));
  }

  /** A position marked at its entry price shows no profit or loss. */
  lemma UnmovedIsFlat(r: PositionPnl)
    requires r.currentPrice == r.entryPrice
    ensures r.UnrealizedPnl() == 0.0 && r.PnlRate() == 0.0
  {
  }

  /** With a positive entry price the entry value is zero exactly when the
      volume is, for a positive multiplier. */
  lemma EntryValueZero(r: PositionPnl)
    requires r.entryPrice > 0.0 && r.contractMultiplier > 0
    ensures r.EntryValue() == 0.0 <==> r.volume == 0
  {
    if r.volume != 0 {
      assert r.entryPrice * r.volume as real != 0.0;
    }
  }

  /** The current price of a position: `current_prices.get(symbol, entry)`. */
  function CurrentPrice(p: Position, prices: map<string, real>): real
  {
    if p.symbol in prices then prices[p.symbol] else p.price
  }

  /** Profit and loss of one position against `current_prices`, looked up
      by the raw symbol. The multiplier is positive, so with a positive
      entry price the entry value is zero exactly when the volume is, and
      then `Decimal` raises on `0/0`. */
  function PnlOf(mc: Calculator, p: Position, prices: map<string, real>): (r: Result<PositionPnl, Raised>)
    ensures r.Err? <==> p.price > 0.0 && p.volume == 0
    ensures r.Ok? ==> r.value == PositionPnl(p.symbol, p.price, CurrentPrice(p, prices), p.volume,
                                             PositionType(p), GetContractMultiplier(mc, p.symbol))
  {
    if p.price > 0.0 && p.volume == 0 then Err(InvalidOperation)
    else Ok(PositionPnl(p.symbol, p.price, CurrentPrice(p, prices), p.volume,
                        PositionType(p), GetContractMultiplier(mc, p.symbol)))
  }

  /** The exception is raised exactly when the rate would divide by a zero
      entry value at a positive entry price; every record returned has a
      non-zero entry value or a non-positive entry price. */
  lemma PnlRaises(mc: Calculator, p: Position, prices: map<string, real>)
    ensures var r := PositionPnl(p.symbol, p.price, CurrentPrice(p, prices), p.volume,
                                 PositionType(p), GetContractMultiplier(mc, p.symbol));
            PnlOf(mc, p, prices).Err? <==> r.entryPrice > 0.0 && r.EntryValue() == 0.0
  {
    var r := PositionPnl(p.symbol, p.price, CurrentPrice(p, prices), p.volume,
                         PositionType(p), GetContractMultiplier(mc, p.symbol));
    if p.price > 0.0 {
      EntryValueZero(r);
    }
  }

  /** Changing only the side of a position changes only the side of its
      record. */
  lemma SideOnlyChangesSide(mc: Calculator, p: Position, prices: map<string, real>, side: string)
    requires PnlOf(mc, p, prices).Ok?
    ensures var q := p.(positionType := Some(side));
            PnlOf(mc, q, prices).Ok?
            && PnlOf(mc, q, prices).value == PnlOf(mc, p, prices).value.(positionType := side)
  {
  }

  /** A symbol without a current price is marked at its entry price. */
  lemma MissingPriceIsEntry(mc: Calculator, p: Position, prices: map<string, real>)
    requires p.symbol !in prices && PnlOf(mc, p, prices).Ok?
    ensures PnlOf(mc, p, prices).value.currentPrice == PnlOf(mc, p, prices).value.entryPrice
  {
  }

  /** The per-position results in order, or the first exception. */
  function PnlsOf(mc: Calculator, ps: seq<Position>, prices: map<string, real>): (r: Result<seq<PositionPnl>, Raised>)
    ensures r.Ok? <==> forall i | 0 <= i < |ps| :: PnlOf(mc, ps[i], prices).Ok?
    ensures r.Ok? ==> |r.value| == |ps| && forall i | 0 <= i < |ps| :: r.value[i] == PnlOf(mc, ps[i], prices).value
  {
    MapResult(ps, p => PnlOf(mc, p, prices))
  }

  function PnlTerm(): PositionPnl -> real
  {
    (r: PositionPnl) => r.UnrealizedPnl()
  }

  predicate Profitable(r: PositionPnl) { r.UnrealizedPnl() > 0.0 }
  predicate Losing(r: PositionPnl) { r.UnrealizedPnl() < 0.0 }
  predicate Flat(r: PositionPnl) { r.UnrealizedPnl() == 0.0 }

  /** The dictionary `calculate_unrealized_pnl` returns. */
  datatype PnlSummary = PnlSummary(
    totalUnrealizedPnl: real,
    positionPnls: seq<PositionPnl>,
    profitablePositions: nat,
    losingPositions: nat)

  /** `calculate_unrealized_pnl`: the per-position results, their sum, and
      how many gained and how many lost. */
  function CalculateUnrealizedPnl(mc: Calculator, positions: seq<Position>, prices: map<string, real>): (r: Result<PnlSummary, Raised>)
    ensures r.Ok? <==> PnlsOf(mc, positions, prices).Ok?
    ensures r.Ok? ==> r.value.positionPnls == PnlsOf(mc, positions, prices).value
    ensures r.Ok? ==> r.value.totalUnrealizedPnl == SumBy(r.value.positionPnls, PnlTerm())
    ensures r.Ok? ==> r.value.profitablePositions == CountBy(r.value.positionPnls, Profitable)
    ensures r.Ok? ==> r.value.losingPositions == CountBy(r.value.positionPnls, Losing)
  {
    match PnlsOf(mc, positions, prices)
    case Err(e) => Err(e)
    case Ok(pnls) =>
      Ok(PnlSummary(SumBy(pnls, PnlTerm()), pnls, CountBy(pnls, Profitable), CountBy(pnls, Losing)))
  }

  /** Positions with zero profit count as neither profitable nor losing:
      the profitable, the losing and the flat ones add up to the book. */
  lemma CountsPartitionBook(mc: Calculator, positions: seq<Position>, prices: map<string, real>)
    requires CalculateUnrealizedPnl(mc, positions, prices).Ok?
    ensures var s := CalculateUnrealizedPnl(mc, positions, prices).value;
            s.profitablePositions + s.losingPositions + CountBy(s.positionPnls, Flat) == |positions|
  {
    var s := CalculateUnrealizedPnl(mc, positions, prices).value;
    CountByPartition(s.positionPnls, Profitable, Losing, Flat);
  }

  /** Marking every position at its entry price gives zero total profit. */
  lemma MarkedAtEntryIsFlat(mc: Calculator, positions: seq<Position>)
    requires CalculateUnrealizedPnl(mc, positions, map[]).Ok?
    ensures CalculateUnrealizedPnl(mc, positions, map[]).value.totalUnrealizedPnl == 0.0
  {
    var pnls := PnlsOf(mc, positions, map[]).value;
    forall x | x in pnls
      ensures x.currentPrice == x.entryPrice
    {
      var i :| 0 <= i < |pnls| && pnls[i] == x;
      MissingPriceIsEntry(mc, positions[i], map[]);
    }
    UnmovedSumsToZero(pnls);
  }

  /** A book whose every position is marked at its entry price sums to zero
      profit. */
  lemma {:induction false} UnmovedSumsToZero(pnls: seq<PositionPnl>)
    requires forall x | x in pnls :: x.currentPrice == x.entryPrice
    ensures SumBy(pnls, PnlTerm()) == 0.0
    decreases |pnls|
  {
    if |pnls| > 0 {
      UnmovedSumsToZero(pnls[..|pnls| - 1]);
      UnmovedIsFlat(pnls[|pnls| - 1]);
    }
  }

  /* ------------------------------------------------------------- equity */

  /** The dictionary `calculate_dynamic_equity` returns. The change rate is
      derived from the balance and the profit as a member. */
  datatype DynamicEquity = DynamicEquity(
    accountBalance: real,
    unrealizedPnl: real,
    dynamicEquity: real,
    positionPnls: seq<PositionPnl>)
  {
    /** `equity_change_rate = pnl / balance if balance > 0 else 0`. */
    function EquityChangeRate(): real
    {
      Ratio(unrealizedPnl, accountBalance)
    }
  }

  /** `calculate_dynamic_equity`: the balance plus the unrealized profit,
      with the per-position results. It raises when the profit calculation
      does. */
  function CalculateDynamicEquity(mc: Calculator, balance: real, positions: seq<Position>, prices: map<string, real>): (r: Result<DynamicEquity, Raised>)
    ensures r.Ok? <==> CalculateUnrealizedPnl(mc, positions, prices).Ok?
    ensures r.Ok? ==> r.value.unrealizedPnl == CalculateUnrealizedPnl(mc, positions, prices).value.totalUnrealizedPnl
    ensures r.Ok? ==> r.value.positionPnls == CalculateUnrealizedPnl(mc, positions, prices).value.positionPnls
    ensures r.Ok? ==> r.value.accountBalance == balance && r.value.dynamicEquity - balance == r.value.unrealizedPnl
  {
    match CalculateUnrealizedPnl(mc, positions, prices)
    case Err(e) => Err(e)
    case Ok(s) => Ok(DynamicEquity(balance, s.totalUnrealizedPnl, balance + s.totalUnrealizedPnl, s.positionPnls))
  }

  /** The change rate is the profit as a share of the balance, and 0 when
      the balance is not positive. */
  lemma EquityChangeIsShareOfBalance(e: DynamicEquity)
    ensures e.accountBalance > 0.0 ==> e.EquityChangeRate() * e.accountBalance == e.unrealizedPnl
    ensures e.accountBalance > 0.0 && e.dynamicEquity - e.accountBalance == e.unrealizedPnl ==>
              e.dynamicEquity == e.accountBalance * (1.0 + e.EquityChangeRate())
    ensures e.accountBalance <= 0.0 ==> e.EquityChangeRate() == 0.0
  {
  }

  /** With no positions the equity is the balance and it has not changed. */
  lemma EquityWithoutPositions(mc: Calculator, balance: real, prices: map<string, real>)
    ensures var r := CalculateDynamicEquity(mc, balance, [], prices);
            r.Ok? && r.value.dynamicEquity == balance && r.value.EquityChangeRate() == 0.0
  {
  }

  /* ------------------------------------------------------------ setters */

  /** `set_broker_margin_multiplier`. */
  function SetBrokerMarginMultiplier(mc: Calculator, multiplier: real): (c: Calculator)
    ensures c.brokerMarginMultiplier == multiplier
    ensures c.customRates == mc.customRates
  {
    mc.(brokerMarginMultiplier := multiplier)
  }

  /** Changing the broker multiplier leaves every exchange rate and every
      multiplier alone, so each symbol's rate becomes its exchange rate
      times the new multiplier. */
  lemma BrokerScalesEveryRate(mc: Calculator, multiplier: real, symbol: string)
    ensures var c := SetBrokerMarginMultiplier(mc, multiplier);
            BaseMarginRate(c, symbol) == BaseMarginRate(mc, symbol)
            && GetMarginRate(c, symbol) == BaseMarginRate(mc, symbol) * multiplier
            && GetContractMultiplier(c, symbol) == GetContractMultiplier(mc, symbol)
  {
  }

  /** `set_custom_margin_rate`: records the rate under the symbol's
      extracted underlying. */
  function SetCustomMarginRate(mc: Calculator, symbol: string, rate: real): (c: Calculator)
    ensures ExchangeRate(c, ExtractUnderlying(symbol)) == Some(rate)
    ensures forall u | u != ExtractUnderlying(symbol) :: ExchangeRate(c, u) == ExchangeRate(mc, u)
    ensures c.brokerMarginMultiplier == mc.brokerMarginMultiplier
  {
    mc.(customRates := mc.customRates[ExtractUnderlying(symbol) := rate])
  }

  /** A custom rate applies to every symbol with the same underlying and to
      no other symbol. */
  lemma CustomRateOnlyItsUnderlying(mc: Calculator, symbol: string, rate: real, other: string)
    ensures var c := SetCustomMarginRate(mc, symbol, rate);
            BaseMarginRate(c, other)
              == if ExtractUnderlying(other) == ExtractUnderlying(symbol) then rate else BaseMarginRate(mc, other)
  {
  }

  /** A custom rate set for `"CU2403"` is stored under `"CU24"` and so does
      not reach plain copper. */
  lemma DatedCustomRateMissesProduct(mc: Calculator, dated: string, plain: string, rate: real)
    requires Upper(dated) == "CU2403"
    requires AllLetters(plain) && Upper(plain) == "CU"
    ensures BaseMarginRate(SetCustomMarginRate(mc, dated, rate), plain) == BaseMarginRate(mc, plain)
  {
    DatedCopperKeepsYear(dated);
    UnderlyingOfLetters(plain);
    CustomRateOnlyItsUnderlying(mc, dated, rate, plain);
  }
}
