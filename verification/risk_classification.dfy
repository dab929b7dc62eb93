/** The risk manager's two classification tables. A product has a risk tier,
    which fixes the leverage it may carry, and a sector. Each is found by
    scanning the table's lists in order and taking the first list that holds
    the product; a product in no list is `'medium_risk'` and `'other'`. */
module RiskClassification {
  import opened Strings
  import opened Underlying

  /* -------------------------------------------------------------- tiers */

  datatype Tier = LowRisk | MediumRisk | HighRisk
  {
    /** The key of the tier in `risk_categories`. */
    function Name(): string
    {
      match this
      case LowRisk => "low_risk"
      case MediumRisk => "medium_risk"
      case HighRisk => "high_risk"
    }

    /** The products listed under the tier. */
    function Symbols(): seq<string>
    {
      match this
      case LowRisk => ["T", "TF", "TS"]
      case MediumRisk => ["IF", "IH", "IC", "IM", "CU", "AL", "ZN", "AU", "AG", "RB", "HC"]
      case HighRisk => ["AP", "CJ", "SC", "NI", "LC", "SI"]
    }

    /** `max_leverage` of the tier: 20, 10 and 5 times. */
    function MaxLeverage(): (l: real)
      ensures l > 0.0
    {
      match this
      case LowRisk => 20.0
      case MediumRisk => 10.0
      case HighRisk => 5.0
    }
  }

  /** The tier scan on an extracted underlying. */
  function ClassifyTier(u: string): (t: Tier)
    ensures u in t.Symbols() || (t == MediumRisk && forall s: Tier :: u !in s.Symbols())
  {
    if u in LowRisk.Symbols() then LowRisk
    else if u in MediumRisk.Symbols() then MediumRisk
    else if u in HighRisk.Symbols() then HighRisk
    else MediumRisk
  }

  /** `get_symbol_risk_category`. */
  function GetSymbolRiskCategory(symbol: string): Tier
  {
    ClassifyTier(ExtractUnderlying(symbol))
  }

  /** No product is listed under two tiers. */
  lemma TiersDisjoint(u: string, s: Tier, t: Tier)
    requires u in s.Symbols() && u in t.Symbols()
    ensures s == t
  {
  }

  /** A listed product gets the tier it is listed under, so the order of
      the scan does not matter. */
  lemma TierOfListed(u: string, t: Tier)
    requires u in t.Symbols()
    ensures ClassifyTier(u) == t
  {
    TiersDisjoint(u, ClassifyTier(u), t);
  }

  /* ------------------------------------------------------------ sectors */

  datatype Sector =
    | Financial | PreciousMetals | BaseMetals | FerrousMetals
    | EnergyChemical | Agricultural | Industrial | Other
  {
    /** The key of the sector in `sector_mapping`, or `'other'`. */
    function Name(): string
    {
      match this
      case Financial => "financial"
      case PreciousMetals => "precious_metals"
      case BaseMetals => "base_metals"
      case FerrousMetals => "ferrous_metals"
      case EnergyChemical => "energy_chemical"
      case Agricultural => "agricultural"
      case Industrial => "industrial"
      case Other => "other"
    }

    /** The products listed under the sector; `Other` has no list. */
    function Symbols(): seq<string>
    {
      match this
      case Financial => ["IF", "IH", "IC", "IM", "T", "TF", "TS"]
      case PreciousMetals => ["AU", "AG"]
      case BaseMetals => ["CU", "AL", "ZN", "PB", "NI", "SN", "BC"]
      case FerrousMetals => ["RB", "HC", "SS", "I", "J", "JM"]
      case EnergyChemical => ["SC", "FU", "LU", "BU", "RU", "L", "V", "PP", "TA", "MA", "ZC", "UR", "SA", "PF"]
      case Agricultural => ["C", "CS", "A", "B", "M", "Y", "P", "CF", "SR", "OI", "RM", "AP", "CJ", "JD"]
      case Industrial => ["FG", "SI", "LC"]
      case Other => []
    }
  }

  /** The sector scan on an extracted underlying. */
  function ClassifySector(u: string): (s: Sector)
    ensures u in s.Symbols() || (s == Other && forall t: Sector :: u !in t.Symbols())
  {
    if u in Financial.Symbols() then Financial
    else if u in PreciousMetals.Symbols() then PreciousMetals
    else if u in BaseMetals.Symbols() then BaseMetals
    else if u in FerrousMetals.Symbols() then FerrousMetals
    else if u in EnergyChemical.Symbols() then EnergyChemical
    else if u in Agricultural.Symbols() then Agricultural
    else if u in Industrial.Symbols() then Industrial
    else Other
  }

  /** `get_symbol_sector`. */
  function GetSymbolSector(symbol: string): Sector
  {
    ClassifySector(ExtractUnderlying(symbol))
  }

  /** A listed product gets the sector it is listed under, so the order of
      the scan does not matter. */
  lemma SectorOfListed(u: string, s: Sector)
    requires u in s.Symbols()
    ensures ClassifySector(u) == s
  {
    match s
    case Financial => FinancialListed();
    case PreciousMetals => PreciousMetalsListed();
    case BaseMetals => BaseMetalsListed();
    case FerrousMetals => FerrousMetalsListed();
    case EnergyChemical => EnergyChemicalListed();
    case Agricultural => AgriculturalListed();
    case Industrial => IndustrialListed();
  }

  /** No product is listed under two sectors. */
  lemma SectorsDisjoint(u: string, s: Sector, t: Sector)
    requires u in s.Symbols() && u in t.Symbols()
    ensures s == t
  {
    SectorOfListed(u, s);
    SectorOfListed(u, t);
  }

  lemma FinancialListed()
    ensures forall u | u in Financial.Symbols() :: ClassifySector(u) == Financial
  {
  }

  lemma PreciousMetalsListed()
    ensures forall u | u in PreciousMetals.Symbols() :: ClassifySector(u) == PreciousMetals
  {
    assert forall u | u in PreciousMetals.Symbols() :: u !in Financial.Symbols();
  }

  lemma BaseMetalsListed()
    ensures forall u | u in BaseMetals.Symbols() :: ClassifySector(u) == BaseMetals
  {
    assert forall u | u in BaseMetals.Symbols() :: u !in Financial.Symbols() && u !in PreciousMetals.Symbols();
  }

  lemma FerrousMetalsListed()
    ensures forall u | u in FerrousMetals.Symbols() :: ClassifySector(u) == FerrousMetals
  {
    assert forall u | u in FerrousMetals.Symbols() :: u !in Financial.Symbols() && u !in PreciousMetals.Symbols() && u !in BaseMetals.Symbols();
  }

  lemma EnergyChemicalListed()
    ensures forall u | u in EnergyChemical.Symbols() :: ClassifySector(u) == EnergyChemical
  {
    assert forall u | u in EnergyChemical.Symbols() :: u !in Financial.Symbols() && u !in PreciousMetals.Symbols() && u !in BaseMetals.Symbols() && u !in FerrousMetals.Symbols();
  }

  lemma AgriculturalListed()
    ensures forall u | u in Agricultural.Symbols() :: ClassifySector(u) == Agricultural
  {
    assert forall u | u in Agricultural.Symbols() :: u !in Financial.Symbols() && u !in PreciousMetals.Symbols() && u !in BaseMetals.Symbols() && u !in FerrousMetals.Symbols() && u !in EnergyChemical.Symbols();
  }

  lemma IndustrialListed()
    ensures forall u | u in Industrial.Symbols() :: ClassifySector(u) == Industrial
  {
    assert forall u | u in Industrial.Symbols() :: u !in Financial.Symbols() && u !in PreciousMetals.Symbols() && u !in BaseMetals.Symbols() && u !in FerrousMetals.Symbols() && u !in EnergyChemical.Symbols() && u !in Agricultural.Symbols();
  }

  /* ----------------------------------------------------------- examples */

  /** Copper written without a month is a medium-risk base metal. */
  lemma CopperClassified(symbol: string)
    requires AllLetters(symbol) && Upper(symbol) == "CU"
    ensures GetSymbolRiskCategory(symbol) == MediumRisk
    ensures GetSymbolSector(symbol) == BaseMetals
  {
    UnderlyingOfLetters(symbol);
  }

  /** Every listed product has one or two letters, so a longer code is in
      no tier list and gets the default tier. */
  lemma LongCodesUntiered(u: string)
    requires |u| > 2
    ensures ClassifyTier(u) == MediumRisk
  {
    assert u !in LowRisk.Symbols();
    assert u !in MediumRisk.Symbols();
    assert u !in HighRisk.Symbols();
  }

  /** Likewise a longer code is in no sector list. */
  lemma LongCodesUnsectored(u: string)
    requires |u| > 2
    ensures ClassifySector(u) == Other
  {
    assert u !in Financial.Symbols();
    assert u !in PreciousMetals.Symbols();
    assert u !in BaseMetals.Symbols();
    assert u !in FerrousMetals.Symbols();
    assert u !in EnergyChemical.Symbols();
    assert u !in Agricultural.Symbols();
    assert u !in Industrial.Symbols();
  }

  /** A dated copper contract is classified under `"CU24"`, which no list
      holds: it falls back to the medium tier and the `'other'` sector. */
  lemma DatedCopperUnclassified(symbol: string)
    requires Upper(symbol) == "CU2403"
    ensures GetSymbolRiskCategory(symbol) == MediumRisk
    ensures GetSymbolSector(symbol) == Other
  {
    DatedCopperKeepsYear(symbol);
    LongCodesUntiered("CU24");
    LongCodesUnsectored("CU24");
  }

  /** Apples are high-risk and agricultural: the two tables are separate. */
  lemma ApplesClassified(symbol: string)
    requires AllLetters(symbol) && Upper(symbol) == "AP"
    ensures GetSymbolRiskCategory(symbol) == HighRisk
    ensures GetSymbolSector(symbol) == Agricultural
  {
    UnderlyingOfLetters(symbol);
  }
}
