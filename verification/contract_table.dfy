/** The futures contract reference table of `FuturesContractManager`:
    one record per product, exchange by exchange, in registration order. */
module ContractTable {
  import opened Strings

  datatype Exchange = SHFE | DCE | CZCE | CFFEX | INE | GFEX

  datatype Category = Metals | PreciousMetals | Energy | Agriculture | Financial | Industrial

  /** One product of the reference table. */
  datatype Contract = Contract(
    symbol: string,
    name: string,
    exchange: Exchange,
    category: Category,
    indexCode: string,
    fullCode: string,
    multiplier: int,
    minChange: real,
    marginRate: real,
    tradingUnit: string,
    deliveryMonth: string)

  /* ------------------------------------------------------ reference table */

  /** SHFE contracts, in source order. */
  function ShfeContracts(): seq<Contract>
  {
    [
      Contract("CU", "沪铜", SHFE, Metals, "CU99", "KQ.i@SHFE.cu", 5, 10.0, 0.07, "5吨/手", "1-12月"),
      Contract("AL", "沪铝", SHFE, Metals, "AL99", "SHFE.AL99", 5, 5.0, 0.07, "5吨/手", "1-12月"),
      Contract("ZN", "沪锌", SHFE, Metals, "ZN99", "SHFE.ZN99", 5, 5.0, 0.08, "5吨/手", "1-12月"),
      Contract("PB", "沪铅", SHFE, Metals, "PB99", "SHFE.PB99", 5, 5.0, 0.08, "5吨/手", "1-12月"),
      Contract("NI", "沪镍", SHFE, Metals, "NI99", "SHFE.NI99", 1, 10.0, 0.08, "1吨/手", "1-12月"),
      Contract("SN", "沪锡", SHFE, Metals, "SN99", "SHFE.SN99", 1, 10.0, 0.08, "1吨/手", "1-12月"),
      Contract("AU", "沪金", SHFE, PreciousMetals, "AU99", "SHFE.AU99", 1000, 0.02, 0.06, "1000克/手", "2,4,6,8,10,12月"),
      Contract("AG", "沪银", SHFE, PreciousMetals, "AG99", "SHFE.AG99", 15, 1.0, 0.08, "15千克/手", "1-12月"),
      Contract("RB", "螺纹钢", SHFE, Industrial, "RB99", "SHFE.RB99", 10, 1.0, 0.08, "10吨/手", "1-12月"),
      Contract("HC", "热轧卷板", SHFE, Industrial, "HC99", "SHFE.HC99", 10, 1.0, 0.08, "10吨/手", "1-12月"),
      Contract("SS", "不锈钢", SHFE, Industrial, "SS99", "SHFE.SS99", 5, 5.0, 0.10, "5吨/手", "1-12月"),
      Contract("WR", "线材", SHFE, Industrial, "WR99", "SHFE.WR99", 10, 1.0, 0.08, "10吨/手", "1-12月"),
      Contract("FU", "燃料油", SHFE, Energy, "FU99", "SHFE.FU99", 10, 1.0, 0.08, "10吨/手", "1-12月"),
      Contract("BU", "沥青", SHFE, Energy, "BU99", "SHFE.BU99", 10, 2.0, 0.08, "10吨/手", "3,6,9,12月"),
      Contract("RU", "天然橡胶", SHFE, Industrial, "RU99", "SHFE.RU99", 10, 5.0, 0.08, "10吨/手", "1,3,4,5,6,7,8,9,10,11月")
    ]
  }

  /** DCE contracts, in source order. */
  function DceContracts(): seq<Contract>
  {
    [
      Contract("C", "玉米", DCE, Agriculture, "C99", "DCE.C99", 10, 1.0, 0.05, "10吨/手", "1,3,5,7,9,11月"),
      Contract("CS", "玉米淀粉", DCE, Agriculture, "CS99", "DCE.CS99", 10, 1.0, 0.06, "10吨/手", "1,3,5,7,9,11月"),
      Contract("A", "豆一", DCE, Agriculture, "A99", "DCE.A99", 10, 1.0, 0.05, "10吨/手", "1,3,5,7,9,11月"),
      Contract("B", "豆二", DCE, Agriculture, "B99", "DCE.B99", 10, 1.0, 0.05, "10吨/手", "1,3,5,7,9,11月"),
      Contract("M", "豆粕", DCE, Agriculture, "M99", "DCE.M99", 10, 1.0, 0.05, "10吨/手", "1,3,5,7,8,9,11,12月"),
      Contract("Y", "豆油", DCE, Agriculture, "Y99", "DCE.Y99", 10, 2.0, 0.05, "10吨/手", "1,3,5,7,8,9,11,12月"),
      Contract("P", "棕榈油", DCE, Agriculture, "P99", "DCE.P99", 10, 2.0, 0.05, "10吨/手", "1,3,5,7,8,9,11,12月"),
      Contract("L", "聚乙烯", DCE, Energy, "L99", "DCE.L99", 5, 5.0, 0.05, "5吨/手", "1,3,5,7,9,11月"),
      Contract("V", "聚氯乙烯", DCE, Energy, "V99", "DCE.V99", 5, 5.0, 0.05, "5吨/手", "1,3,5,7,9,11月"),
      Contract("PP", "聚丙烯", DCE, Energy, "PP99", "DCE.PP99", 5, 1.0, 0.05, "5吨/手", "1,3,5,7,9,11月"),
      Contract("JD", "鸡蛋", DCE, Agriculture, "JD99", "DCE.JD99", 10, 1.0, 0.08, "10吨/手", "1,3,4,5,6,9,10,11,12月"),
      Contract("I", "铁矿石", DCE, Industrial, "I99", "DCE.I99", 100, 0.5, 0.08, "100吨/手", "1,3,5,7,9,11月"),
      Contract("J", "焦炭", DCE, Energy, "J99", "DCE.J99", 100, 0.5, 0.08, "100吨/手", "1,3,5,7,9,11月"),
      Contract("JM", "焦煤", DCE, Energy, "JM99", "DCE.JM99", 60, 0.5, 0.08, "60吨/手", "1,3,5,7,9,11月")
    ]
  }

  /** CZCE contracts, in source order. */
  function CzceContracts(): seq<Contract>
  {
    [
      Contract("WH", "强筋麦", CZCE, Agriculture, "WH99", "CZCE.WH99", 20, 1.0, 0.05, "20吨/手", "1,3,5,7,9,11月"),
      Contract("PM", "普麦", CZCE, Agriculture, "PM99", "CZCE.PM99", 50, 1.0, 0.05, "50吨/手", "1,3,5,7,9,11月"),
      Contract("CF", "棉花", CZCE, Agriculture, "CF99", "CZCE.CF99", 5, 5.0, 0.05, "5吨/手", "1,3,5,7,9,11月"),
      Contract("CY", "棉纱", CZCE, Agriculture, "CY99", "CZCE.CY99", 5, 5.0, 0.06, "5吨/手", "1,3,5,7,9,11月"),
      Contract("SR", "白糖", CZCE, Agriculture, "SR99", "CZCE.SR99", 10, 1.0, 0.05, "10吨/手", "1,3,5,7,9,11月"),
      Contract("TA", "PTA", CZCE, Energy, "TA99", "CZCE.TA99", 5, 2.0, 0.06, "5吨/手", "1,3,5,7,9,11月"),
      Contract("MA", "甲醇", CZCE, Energy, "MA99", "CZCE.MA99", 10, 1.0, 0.06, "10吨/手", "1,3,5,7,9,11月"),
      Contract("FG", "玻璃", CZCE, Industrial, "FG99", "CZCE.FG99", 20, 1.0, 0.06, "20吨/手", "1,3,5,7,9,11月"),
      Contract("OI", "菜籽油", CZCE, Agriculture, "OI99", "CZCE.OI99", 10, 1.0, 0.05, "10吨/手", "1,3,5,7,9,11月"),
      Contract("RM", "菜籽粕", CZCE, Agriculture, "RM99", "CZCE.RM99", 10, 1.0, 0.05, "10吨/手", "1,3,5,7,9,11月"),
      Contract("ZC", "动力煤", CZCE, Energy, "ZC99", "CZCE.ZC99", 100, 0.2, 0.06, "100吨/手", "1,3,5,7,9,11月"),
      Contract("SA", "纯碱", CZCE, Industrial, "SA99", "CZCE.SA99", 20, 1.0, 0.06, "20吨/手", "1,3,5,7,9,11月")
    ]
  }

  /** CFFEX contracts, in source order. */
  function CffexContracts(): seq<Contract>
  {
    [
      Contract("IF", "沪深300股指", CFFEX, Financial, "IF99", "CFFEX.IF99", 300, 0.2, 0.12, "300元/点", "当月,下月,随后两个季月"),
      Contract("IC", "中证500股指", CFFEX, Financial, "IC99", "CFFEX.IC99", 200, 0.2, 0.15, "200元/点", "当月,下月,随后两个季月"),
      Contract("IH", "上证50股指", CFFEX, Financial, "IH99", "CFFEX.IH99", 300, 0.2, 0.12, "300元/点", "当月,下月,随后两个季月"),
      Contract("IM", "中证1000股指", CFFEX, Financial, "IM99", "CFFEX.IM99", 200, 0.2, 0.15, "200元/点", "当月,下月,随后两个季月"),
      Contract("T", "10年期国债", CFFEX, Financial, "T99", "CFFEX.T99", 10000, 0.005, 0.02, "10000元/张", "3,6,9,12月"),
      Contract("TF", "5年期国债", CFFEX, Financial, "TF99", "CFFEX.TF99", 10000, 0.005, 0.015, "10000元/张", "3,6,9,12月"),
      Contract("TS", "2年期国债", CFFEX, Financial, "TS99", "CFFEX.TS99", 20000, 0.002, 0.005, "20000元/张", "3,6,9,12月")
    ]
  }

  /** INE contracts, in source order. */
  function IneContracts(): seq<Contract>
  {
    [
      Contract("SC", "原油", INE, Energy, "SC99", "INE.SC99", 1000, 0.1, 0.07, "1000桶/手", "最近1-12个月连续月份及随后8个季月"),
      Contract("NR", "20号胶", INE, Industrial, "NR99", "INE.NR99", 10, 5.0, 0.08, "10吨/手", "1,3,4,5,6,7,8,9,10,11月"),
      Contract("LU", "低硫燃料油", INE, Energy, "LU99", "INE.LU99", 10, 1.0, 0.08, "10吨/手", "1-12月")
    ]
  }

  /** GFEX contracts, in source order. */
  function GfexContracts(): seq<Contract>
  {
    [
      Contract("SI", "工业硅", GFEX, Industrial, "SI99", "GFEX.SI99", 5, 5.0, 0.08, "5吨/手", "1,3,5,7,9,11月")
    ]
  }

  /** The whole table, exchange by exchange, in the order it is registered. */
  function AllContracts(): seq<Contract>
  {
    ShfeContracts() + DceContracts() + CzceContracts() + CffexContracts() + IneContracts() + GfexContracts()
  }

  /** The shape every entry of the reference table has: a one-to-three
      letter upper-case product, an index code that is the product followed
      by "99", a positive multiplier and a margin rate in (0, 1]. */
  predicate WellFormedEntry(c: Contract)
  {
    && 1 <= |c.symbol| <= 3
    && AllUpper(c.symbol)
    && c.indexCode == c.symbol + "99"
    && c.multiplier > 0
    && 0.0 < c.marginRate <= 1.0
  }

  /** Entries `lo` to `hi - 1` of `t` are well formed. */
  predicate WellFormedRange(t: seq<Contract>, lo: int, hi: int)
    requires 0 <= lo <= hi <= |t|
  {
    forall i :: lo <= i < hi ==> WellFormedEntry(t[i])
  }

  lemma ShfeRowsWellFormed0()
    ensures WellFormedRange(ShfeContracts(), 0, 5)
  {
    assert WellFormedEntry(ShfeContracts()[0]);
    assert WellFormedEntry(ShfeContracts()[1]);
    assert WellFormedEntry(ShfeContracts()[2]);
    assert WellFormedEntry(ShfeContracts()[3]);
    assert WellFormedEntry(ShfeContracts()[4]);
    forall i | 0 <= i < 5
      ensures WellFormedEntry(ShfeContracts()[i])
    {
      assert i == 0 || i == 1 || i == 2 || i == 3 || i == 4;
    }
  }

  lemma ShfeRowsWellFormed1()
    ensures WellFormedRange(ShfeContracts(), 5, 10)
  {
    assert WellFormedEntry(ShfeContracts()[5]);
    assert WellFormedEntry(ShfeContracts()[6]);
    assert WellFormedEntry(ShfeContracts()[7]);
    assert WellFormedEntry(ShfeContracts()[8]);
    assert WellFormedEntry(ShfeContracts()[9]);
    forall i | 5 <= i < 10
      ensures WellFormedEntry(ShfeContracts()[i])
    {
      assert i == 5 || i == 6 || i == 7 || i == 8 || i == 9;
    }
  }

  lemma ShfeRowsWellFormed2()
    ensures WellFormedRange(ShfeContracts(), 10, 15)
  {
    assert WellFormedEntry(ShfeContracts()[10]);
    assert WellFormedEntry(ShfeContracts()[11]);
    assert WellFormedEntry(ShfeContracts()[12]);
    assert WellFormedEntry(ShfeContracts()[13]);
    assert WellFormedEntry(ShfeContracts()[14]);
    forall i | 10 <= i < 15
      ensures WellFormedEntry(ShfeContracts()[i])
    {
      assert i == 10 || i == 11 || i == 12 || i == 13 || i == 14;
    }
  }

  lemma DceRowsWellFormed0()
    ensures WellFormedRange(DceContracts(), 0, 5)
  {
    assert WellFormedEntry(DceContracts()[0]);
    assert WellFormedEntry(DceContracts()[1]);
    assert WellFormedEntry(DceContracts()[2]);
    assert WellFormedEntry(DceContracts()[3]);
    assert WellFormedEntry(DceContracts()[4]);
    forall i | 0 <= i < 5
      ensures WellFormedEntry(DceContracts()[i])
    {
      assert i == 0 || i == 1 || i == 2 || i == 3 || i == 4;
    }
  }

  lemma DceRowsWellFormed1()
    ensures WellFormedRange(DceContracts(), 5, 10)
  {
    assert WellFormedEntry(DceContracts()[5]);
    assert WellFormedEntry(DceContracts()[6]);
    assert WellFormedEntry(DceContracts()[7]);
    assert WellFormedEntry(DceContracts()[8]);
    assert WellFormedEntry(DceContracts()[9]);
    forall i | 5 <= i < 10
      ensures WellFormedEntry(DceContracts()[i])
    {
      assert i == 5 || i == 6 || i == 7 || i == 8 || i == 9;
    }
  }

  lemma DceRowsWellFormed2()
    ensures WellFormedRange(DceContracts(), 10, 14)
  {
    assert WellFormedEntry(DceContracts()[10]);
    assert WellFormedEntry(DceContracts()[11]);
    assert WellFormedEntry(DceContracts()[12]);
    assert WellFormedEntry(DceContracts()[13]);
    forall i | 10 <= i < 14
      ensures WellFormedEntry(DceContracts()[i])
    {
      assert i == 10 || i == 11 || i == 12 || i == 13;
    }
  }

  lemma CzceRowsWellFormed0()
    ensures WellFormedRange(CzceContracts(), 0, 5)
  {
    assert WellFormedEntry(CzceContracts()[0]);
    assert WellFormedEntry(CzceContracts()[1]);
    assert WellFormedEntry(CzceContracts()[2]);
    assert WellFormedEntry(CzceContracts()[3]);
    assert WellFormedEntry(CzceContracts()[4]);
    forall i | 0 <= i < 5
      ensures WellFormedEntry(CzceContracts()[i])
    {
      assert i == 0 || i == 1 || i == 2 || i == 3 || i == 4;
    }
  }

  lemma CzceRowsWellFormed1()
    ensures WellFormedRange(CzceContracts(), 5, 10)
  {
    assert WellFormedEntry(CzceContracts()[5]);
    assert WellFormedEntry(CzceContracts()[6]);
    assert WellFormedEntry(CzceContracts()[7]);
    assert WellFormedEntry(CzceContracts()[8]);
    assert WellFormedEntry(CzceContracts()[9]);
    forall i | 5 <= i < 10
      ensures WellFormedEntry(CzceContracts()[i])
    {
      assert i == 5 || i == 6 || i == 7 || i == 8 || i == 9;
    }
  }

  lemma CzceRowsWellFormed2()
    ensures WellFormedRange(CzceContracts(), 10, 12)
  {
    assert WellFormedEntry(CzceContracts()[10]);
    assert WellFormedEntry(CzceContracts()[11]);
    forall i | 10 <= i < 12
      ensures WellFormedEntry(CzceContracts()[i])
    {
      assert i == 10 || i == 11;
    }
  }

  lemma CffexRowsWellFormed0()
    ensures WellFormedRange(CffexContracts(), 0, 5)
  {
    assert WellFormedEntry(CffexContracts()[0]);
    assert WellFormedEntry(CffexContracts()[1]);
    assert WellFormedEntry(CffexContracts()[2]);
    assert WellFormedEntry(CffexContracts()[3]);
    assert WellFormedEntry(CffexContracts()[4]);
    forall i | 0 <= i < 5
      ensures WellFormedEntry(CffexContracts()[i])
    {
      assert i == 0 || i == 1 || i == 2 || i == 3 || i == 4;
    }
  }

  lemma CffexRowsWellFormed1()
    ensures WellFormedRange(CffexContracts(), 5, 7)
  {
    assert WellFormedEntry(CffexContracts()[5]);
    assert WellFormedEntry(CffexContracts()[6]);
    forall i | 5 <= i < 7
      ensures WellFormedEntry(CffexContracts()[i])
    {
      assert i == 5 || i == 6;
    }
  }

  lemma IneRowsWellFormed0()
    ensures WellFormedRange(IneContracts(), 0, 3)
  {
    assert WellFormedEntry(IneContracts()[0]);
    assert WellFormedEntry(IneContracts()[1]);
    assert WellFormedEntry(IneContracts()[2]);
    forall i | 0 <= i < 3
      ensures WellFormedEntry(IneContracts()[i])
    {
      assert i == 0 || i == 1 || i == 2;
    }
  }

  lemma GfexRowsWellFormed0()
    ensures WellFormedRange(GfexContracts(), 0, 1)
  {
    assert WellFormedEntry(GfexContracts()[0]);
  }

  /** Every entry of the reference table is well formed. */
  lemma StaticTableWellFormed()
    ensures WellFormedRange(AllContracts(), 0, |AllContracts()|)
  {
    ShfeRowsWellFormed0();
    ShfeRowsWellFormed1();
    ShfeRowsWellFormed2();
    DceRowsWellFormed0();
    DceRowsWellFormed1();
    DceRowsWellFormed2();
    CzceRowsWellFormed0();
    CzceRowsWellFormed1();
    CzceRowsWellFormed2();
    CffexRowsWellFormed0();
    CffexRowsWellFormed1();
    IneRowsWellFormed0();
    GfexRowsWellFormed0();
  }
}
