/** The registry `FuturesContractManager()` builds from the reference
    table, with the facts about it that follow from the table's contents:
    every product appears once, every entry is well formed, and the parser
    and validator behave as documented on the table's codes. */
module ReferenceRegistry {
  import opened Wrappers
  import opened Strings
  import opened Seqs
  import opened ContractTable
  import opened ContractRegistry

  /** `FuturesContractManager()`: the registry of the reference table. */
  function StaticRegistry(): (reg: Registry)
    ensures reg.Valid()
  {
    Build(AllContracts())
  }

  /* ----------------------------------------------------- table products */

  function ShfeProducts(): seq<string>
  {
    ["CU", "AL", "ZN", "PB", "NI", "SN", "AU", "AG", "RB", "HC", "SS", "WR", "FU", "BU", "RU"]
  }

  lemma ShfeProductsListed()
    ensures Symbols(ShfeContracts()) == ShfeProducts()
  {
  }

  function DceProducts(): seq<string>
  {
    ["C", "CS", "A", "B", "M", "Y", "P", "L", "V", "PP", "JD", "I", "J", "JM"]
  }

  lemma DceProductsListed()
    ensures Symbols(DceContracts()) == DceProducts()
  {
  }

  function CzceProducts(): seq<string>
  {
    ["WH", "PM", "CF", "CY", "SR", "TA", "MA", "FG", "OI", "RM", "ZC", "SA"]
  }

  lemma CzceProductsListed()
    ensures Symbols(CzceContracts()) == CzceProducts()
  {
  }

  function CffexProducts(): seq<string>
  {
    ["IF", "IC", "IH", "IM", "T", "TF", "TS"]
  }

  lemma CffexProductsListed()
    ensures Symbols(CffexContracts()) == CffexProducts()
  {
  }

  function IneProducts(): seq<string>
  {
    ["SC", "NR", "LU"]
  }

  lemma IneProductsListed()
    ensures Symbols(IneContracts()) == IneProducts()
  {
  }

  function GfexProducts(): seq<string>
  {
    ["SI"]
  }

  lemma GfexProductsListed()
    ensures Symbols(GfexContracts()) == GfexProducts()
  {
  }

  /** The products of the whole table, in registration order. */
  function ProductList(): seq<string>
  {
    ShfeProducts() + DceProducts() + CzceProducts() + CffexProducts() + IneProducts() + GfexProducts()
  }

  lemma SymbolsAppend(a: seq<Contract>, b: seq<Contract>)
    ensures Symbols(a + b) == Symbols(a) + Symbols(b)
  {
  }

  lemma ProductListListed()
    ensures Symbols(AllContracts()) == ProductList()
  {
    ShfeProductsListed();
    DceProductsListed();
    CzceProductsListed();
    CffexProductsListed();
    IneProductsListed();
    GfexProductsListed();
    var t := ShfeContracts();
    SymbolsAppend(t, DceContracts());
    t := t + DceContracts();
    SymbolsAppend(t, CzceContracts());
    t := t + CzceContracts();
    SymbolsAppend(t, CffexContracts());
    t := t + CffexContracts();
    SymbolsAppend(t, IneContracts());
    t := t + IneContracts();
    SymbolsAppend(t, GfexContracts());
    t := t + GfexContracts();
  }

  /* -------------------------------------------------- distinct products */
  function ProductSorted0(): seq<string>
  {
    ["A", "AG", "AL", "AU", "B", "BU", "C", "CF"]
  }
  lemma ProductSorted0Ascending()
    ensures Ascending(ProductSorted0())
  {
    var s := ProductSorted0();
    assert LexLess(s[0], s[1]);
    assert LexLess(s[1], s[2]);
    assert LexLess(s[2], s[3]);
    assert LexLess(s[3], s[4]);
    assert LexLess(s[4], s[5]);
    assert LexLess(s[5], s[6]);
    assert LexLess(s[6], s[7]);
    forall i | 0 <= i < |s| - 1 ensures LexLess(s[i], s[i + 1]) {
      assert i == 0 || i == 1 || i == 2 || i == 3 || i == 4 || i == 5 || i == 6;
    }
  }

  function ProductSorted1(): seq<string>
  {
    ["CS", "CU", "CY", "FG", "FU", "HC", "I", "IC"]
  }
  lemma ProductSorted1Ascending()
    ensures Ascending(ProductSorted1())
  {
    var s := ProductSorted1();
    assert LexLess(s[0], s[1]);
    assert LexLess(s[1], s[2]);
    assert LexLess(s[2], s[3]);
    assert LexLess(s[3], s[4]);
    assert LexLess(s[4], s[5]);
    assert LexLess(s[5], s[6]);
    assert LexLess(s[6], s[7]);
    forall i | 0 <= i < |s| - 1 ensures LexLess(s[i], s[i + 1]) {
      assert i == 0 || i == 1 || i == 2 || i == 3 || i == 4 || i == 5 || i == 6;
    }
  }

  function ProductSorted2(): seq<string>
  {
    ["IF", "IH", "IM", "J", "JD", "JM", "L", "LU"]
  }
  lemma ProductSorted2Ascending()
    ensures Ascending(ProductSorted2())
  {
    var s := ProductSorted2();
    assert LexLess(s[0], s[1]);
    assert LexLess(s[1], s[2]);
    assert LexLess(s[2], s[3]);
    assert LexLess(s[3], s[4]);
    assert LexLess(s[4], s[5]);
    assert LexLess(s[5], s[6]);
    assert LexLess(s[6], s[7]);
    forall i | 0 <= i < |s| - 1 ensures LexLess(s[i], s[i + 1]) {
      assert i == 0 || i == 1 || i == 2 || i == 3 || i == 4 || i == 5 || i == 6;
    }
  }

  function ProductSorted3(): seq<string>
  {
    ["M", "MA", "NI", "NR", "OI", "P", "PB", "PM"]
  }
  lemma ProductSorted3Ascending()
    ensures Ascending(ProductSorted3())
  {
    var s := ProductSorted3();
    assert LexLess(s[0], s[1]);
    assert LexLess(s[1], s[2]);
    assert LexLess(s[2], s[3]);
    assert LexLess(s[3], s[4]);
    assert LexLess(s[4], s[5]);
    assert LexLess(s[5], s[6]);
    assert LexLess(s[6], s[7]);
    forall i | 0 <= i < |s| - 1 ensures LexLess(s[i], s[i + 1]) {
      assert i == 0 || i == 1 || i == 2 || i == 3 || i == 4 || i == 5 || i == 6;
    }
  }

  function ProductSorted4(): seq<string>
  {
    ["PP", "RB", "RM", "RU", "SA", "SC", "SI", "SN"]
  }
  lemma ProductSorted4Ascending()
    ensures Ascending(ProductSorted4())
  {
    var s := ProductSorted4();
    assert LexLess(s[0], s[1]);
    assert LexLess(s[1], s[2]);
    assert LexLess(s[2], s[3]);
    assert LexLess(s[3], s[4]);
    assert LexLess(s[4], s[5]);
    assert LexLess(s[5], s[6]);
    assert LexLess(s[6], s[7]);
    forall i | 0 <= i < |s| - 1 ensures LexLess(s[i], s[i + 1]) {
      assert i == 0 || i == 1 || i == 2 || i == 3 || i == 4 || i == 5 || i == 6;
    }
  }

  function ProductSorted5(): seq<string>
  {
    ["SR", "SS", "T", "TA", "TF", "TS", "V", "WH"]
  }
  lemma ProductSorted5Ascending()
    ensures Ascending(ProductSorted5())
  {
    var s := ProductSorted5();
    assert LexLess(s[0], s[1]);
    assert LexLess(s[1], s[2]);
    assert LexLess(s[2], s[3]);
    assert LexLess(s[3], s[4]);
    assert LexLess(s[4], s[5]);
    assert LexLess(s[5], s[6]);
    assert LexLess(s[6], s[7]);
    forall i | 0 <= i < |s| - 1 ensures LexLess(s[i], s[i + 1]) {
      assert i == 0 || i == 1 || i == 2 || i == 3 || i == 4 || i == 5 || i == 6;
    }
  }

  function ProductSorted6(): seq<string>
  {
    ["WR", "Y", "ZC", "ZN"]
  }
  lemma ProductSorted6Ascending()
    ensures Ascending(ProductSorted6())
  {
    var s := ProductSorted6();
    assert LexLess(s[0], s[1]);
    assert LexLess(s[1], s[2]);
    assert LexLess(s[2], s[3]);
    forall i | 0 <= i < |s| - 1 ensures LexLess(s[i], s[i + 1]) {
      assert i == 0 || i == 1 || i == 2;
    }
  }

  /** The same 52 strings in ascending order. */
  function ProductSorted(): seq<string>
  {
    ProductSorted0() + ProductSorted1() + ProductSorted2() + ProductSorted3() + ProductSorted4() + ProductSorted5() + ProductSorted6()
  }

  lemma ProductSortedAscending()
    ensures Ascending(ProductSorted())
  {
    ProductSorted0Ascending();
    ProductSorted1Ascending();
    ProductSorted2Ascending();
    ProductSorted3Ascending();
    ProductSorted4Ascending();
    ProductSorted5Ascending();
    ProductSorted6Ascending();
    assert LexLess("CF", "CS");
    AscendingAppend(ProductSorted0(), ProductSorted1());
    assert LexLess("IC", "IF");
    AscendingAppend(ProductSorted0() + ProductSorted1(), ProductSorted2());
    assert LexLess("LU", "M");
    AscendingAppend(ProductSorted0() + ProductSorted1() + ProductSorted2(), ProductSorted3());
    assert LexLess("PM", "PP");
    AscendingAppend(ProductSorted0() + ProductSorted1() + ProductSorted2() + ProductSorted3(), ProductSorted4());
    assert LexLess("SN", "SR");
    AscendingAppend(ProductSorted0() + ProductSorted1() + ProductSorted2() + ProductSorted3() + ProductSorted4(), ProductSorted5());
    assert LexLess("WH", "WR");
    AscendingAppend(ProductSorted0() + ProductSorted1() + ProductSorted2() + ProductSorted3() + ProductSorted4() + ProductSorted5(), ProductSorted6());
  }

  lemma ProductSorted0Covered()
    ensures forall x | x in ProductSorted0() :: x in ProductList()
  {
    var t := ProductList();
    assert t[17] == "A";
    assert t[7] == "AG";
    assert t[1] == "AL";
    assert t[6] == "AU";
    assert t[18] == "B";
    assert t[13] == "BU";
    assert t[15] == "C";
    assert t[31] == "CF";
  }

  lemma ProductSorted1Covered()
    ensures forall x | x in ProductSorted1() :: x in ProductList()
  {
    var t := ProductList();
    assert t[16] == "CS";
    assert t[0] == "CU";
    assert t[32] == "CY";
    assert t[36] == "FG";
    assert t[12] == "FU";
    assert t[9] == "HC";
    assert t[26] == "I";
    assert t[42] == "IC";
  }

  lemma ProductSorted2Covered()
    ensures forall x | x in ProductSorted2() :: x in ProductList()
  {
    var t := ProductList();
    assert t[41] == "IF";
    assert t[43] == "IH";
    assert t[44] == "IM";
    assert t[27] == "J";
    assert t[25] == "JD";
    assert t[28] == "JM";
    assert t[22] == "L";
    assert t[50] == "LU";
  }

  lemma ProductSorted3Covered()
    ensures forall x | x in ProductSorted3() :: x in ProductList()
  {
    var t := ProductList();
    assert t[19] == "M";
    assert t[35] == "MA";
    assert t[4] == "NI";
    assert t[49] == "NR";
    assert t[37] == "OI";
    assert t[21] == "P";
    assert t[3] == "PB";
    assert t[30] == "PM";
  }

  lemma ProductSorted4Covered()
    ensures forall x | x in ProductSorted4() :: x in ProductList()
  {
    var t := ProductList();
    assert t[24] == "PP";
    assert t[8] == "RB";
    assert t[38] == "RM";
    assert t[14] == "RU";
    assert t[40] == "SA";
    assert t[48] == "SC";
    assert t[51] == "SI";
    assert t[5] == "SN";
  }

  lemma ProductSorted5Covered()
    ensures forall x | x in ProductSorted5() :: x in ProductList()
  {
    var t := ProductList();
    assert t[33] == "SR";
    assert t[10] == "SS";
    assert t[45] == "T";
    assert t[34] == "TA";
    assert t[46] == "TF";
    assert t[47] == "TS";
    assert t[23] == "V";
    assert t[29] == "WH";
  }

  lemma ProductSorted6Covered()
    ensures forall x | x in ProductSorted6() :: x in ProductList()
  {
    var t := ProductList();
    assert t[11] == "WR";
    assert t[20] == "Y";
    assert t[39] == "ZC";
    assert t[2] == "ZN";
  }

  /** No string repeats: the ascending copy holds as many strings, all
      of them taken from the list. */
  lemma ProductDistinct()
    ensures NoDup(ProductList())
  {
    ProductSortedAscending();
    AscendingNoDup(ProductSorted());
    ProductSorted0Covered();
    ProductSorted1Covered();
    ProductSorted2Covered();
    ProductSorted3Covered();
    ProductSorted4Covered();
    ProductSorted5Covered();
    ProductSorted6Covered();
    NoDupByCover(ProductList(), ProductSorted());
  }

  /** Every product of the table is filed with its own entry. */
  lemma StaticFiles()
    ensures forall i | 0 <= i < |AllContracts()| ::
      && AllContracts()[i].symbol in StaticRegistry().contracts.entries
      && StaticRegistry().contracts.entries[AllContracts()[i].symbol] == AllContracts()[i]
  {
    ProductListListed();
    ProductDistinct();
    BuildFiles(AllContracts());
  }

  /** The table's index codes are its products followed by "99". */
  lemma StaticSuffixCoded()
    ensures SuffixCoded(AllContracts())
  {
    StaticTableWellFormed();
  }

  lemma StaticRegistrySuffixIndexed()
    ensures SuffixIndexed(StaticRegistry())
  {
    StaticSuffixCoded();
    BuildSuffixIndexed(AllContracts());
  }

  /** The reference table has no repeated product, so `list_contracts`
      gives its rows in table order, `get_all_symbols` their products and
      `get_all_index_codes` their index codes in the same order. */
  lemma StaticOrder()
    ensures AllSymbols(StaticRegistry()) == ProductList()
    ensures AllIndexCodes(StaticRegistry()) == IndexCodes(AllContracts())
    ensures ListContracts(StaticRegistry()) == AllContracts()
  {
    ProductListListed();
    ProductDistinct();
    StaticSuffixCoded();
    SuffixCodesDistinct(AllContracts());
    DedupOfNoDup(ProductList());
    DedupOfNoDup(IndexCodes(AllContracts()));
    ListedInTableOrder(AllContracts());
  }

  /** For the reference table: every registered product survives the round
      trip through its index code. */
  lemma StaticIndexCodeRoundTrip(s: string)
    requires IsValidSymbol(StaticRegistry(), s)
    ensures GetIndexCode(StaticRegistry(), s).Some?
    ensures GetSymbolFromIndex(StaticRegistry(), GetIndexCode(StaticRegistry(), s).value) == Some(Upper(s))
  {
    StaticRegistrySuffixIndexed();
    IndexCodeRoundTrip(StaticRegistry(), s);
  }

  /** The table's first entry is copper, in the `KQ.i@` continuous-contract
      form; its ninth is rebar. */
  lemma CopperAndRebarRows()
    ensures AllContracts()[0].symbol == "CU" && AllContracts()[0].fullCode == "KQ.i@SHFE.cu"
    ensures AllContracts()[0].indexCode == "CU99"
    ensures AllContracts()[8].symbol == "RB" && AllContracts()[8].fullCode == "SHFE.RB99"
  {
  }

  lemma UpperCodes()
    ensures Upper("CU") == "CU" && Upper("RB") == "RB"
    ensures Upper("cu99") == "CU99"
  {
  }

  lemma CopperFiled()
    ensures "CU" in StaticRegistry().contracts.entries
    ensures StaticRegistry().contracts.entries["CU"] == AllContracts()[0]
  {
    StaticFiles();
    CopperAndRebarRows();
  }

  lemma RebarFiled()
    ensures "RB" in StaticRegistry().contracts.entries
    ensures StaticRegistry().contracts.entries["RB"] == AllContracts()[8]
  {
    StaticFiles();
    CopperAndRebarRows();
  }

  /** Copper's lookups on the reference registry. */
  lemma StaticCopper()
    ensures IsValidSymbol(StaticRegistry(), "CU")
    ensures GetContract(StaticRegistry(), "CU") == Some(AllContracts()[0])
    ensures GetFullCode(StaticRegistry(), "CU") == Some("KQ.i@SHFE.cu")
    ensures GetIndexCode(StaticRegistry(), "CU") == Some("CU99")
  {
    CopperFiled();
    UpperCodes();
    CopperAndRebarRows();
  }

  /** Rebar's lookups on the reference registry. */
  lemma StaticRebar()
    ensures IsValidSymbol(StaticRegistry(), "RB")
    ensures GetContract(StaticRegistry(), "RB") == Some(AllContracts()[8])
    ensures GetFullCode(StaticRegistry(), "RB") == Some("SHFE.RB99")
  {
    RebarFiled();
    UpperCodes();
    CopperAndRebarRows();
  }

  lemma LowerCopperIndex()
    ensures Canonical("cu99") == "CU99"
  {
    var code := "cu99";
    assert code[0] == 'c' && code[|code| - 1] == '9';
    CanonicalOfTrimmed(code);
    UpperCodes();
  }

  /** Any spelling of copper's index code parses to copper. */
  lemma CopperIndexParses(code: string)
    requires Canonical(code) == "CU99"
    ensures ParseFuturesCode(StaticRegistry(), code) == (Some("CU"), true)
  {
    StaticCopper();
    CopperIndexShape();
    ParseIndexCode(StaticRegistry(), code, "CU");
  }

  lemma CopperIndexShape()
    ensures "CU99" == "CU" + "99" && AllUpper("CU")
  {
  }

  /** `parse_futures_code("cu99") == ("CU", True)`. */
  lemma ParseLowerCaseIndex()
    ensures ParseFuturesCode(StaticRegistry(), "cu99") == (Some("CU"), true)
  {
    LowerCopperIndex();
    CopperIndexParses("cu99");
  }

  lemma RebarCanonical()
    ensures Canonical("RB2403") == "RB2403"
  {
    CanonicalIsSelf("RB2403");
  }

  lemma RebarShape()
    ensures "RB2403" == "RB" + "2403"
    ensures AllUpper("RB") && AllDigits("2403")
  {
  }

  /** `parse_futures_code("RB2403") == ("RB", False)`. */
  lemma ParseDatedRebar()
    ensures ParseFuturesCode(StaticRegistry(), "RB2403") == (Some("RB"), false)
  {
    StaticRebar();
    RebarCanonical();
    RebarShape();
    ParseDatedCode(StaticRegistry(), "RB2403", "RB", "2403");
  }

  /** `validate_futures_input("RB2403")` accepts the code with rebar's
      contract. */
  lemma ValidateDatedRebar()
    ensures ValidateFuturesInput(StaticRegistry(), "RB2403") == Validation(true, "", Some(AllContracts()[8]))
  {
    ParseDatedRebar();
    StaticRebar();
  }
}
