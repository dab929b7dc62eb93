/** The lookups, code parser, validator, filters and search of
    `FuturesContractManager`. The manager's state is a `Registry` value:
    the four dicts its constructor fills from the contract table. */
module ContractRegistry {
  import opened Wrappers
  import opened Strings
  import opened Seqs
  import opened Dicts
  import opened ContractTable

  /* -------------------------------------------------------------- registry */

  /** The manager's four maps: product -> contract, product -> index code,
      index code -> product, product -> full code. */
  datatype Registry = Registry(
    contracts: Dict<string, Contract>,
    symbolToIndex: Dict<string, string>,
    indexToSymbol: Dict<string, string>,
    exchangeMapping: Dict<string, string>)
  {
    /** What registering contracts one by one always keeps: the product maps
        share their keys, each contract is filed under its own product, and
        the index-code and full-code maps agree with the filed contract. */
    ghost predicate Valid()
    {
      && contracts.Valid() && symbolToIndex.Valid()
      && indexToSymbol.Valid() && exchangeMapping.Valid()
      && Filed(contracts.entries, symbolToIndex.entries, exchangeMapping.entries)
      && BackLinked(indexToSymbol.entries, contracts.entries)
    }
  }

  /** One iteration of the registration loop: later entries overwrite. */
  function Register(reg: Registry, c: Contract): (r: Registry)
    requires reg.Valid()
    ensures r.Valid()
    ensures forall k :: k in r.contracts.entries <==> k in reg.contracts.entries || k == c.symbol
  {
    var r := Registry(
      Put(reg.contracts, c.symbol, c),
      Put(reg.symbolToIndex, c.symbol, c.indexCode),
      Put(reg.indexToSymbol, c.indexCode, c.symbol),
      Put(reg.exchangeMapping, c.symbol, c.fullCode));
    RegisterKeepsValid(reg, c, r);
    r
  }

  /** The product maps share their keys, each contract is filed under its
      own product, and the index-code and full-code maps agree with it. */
  ghost predicate Filed(contracts: map<string, Contract>, toIndex: map<string, string>,
                        toFull: map<string, string>)
  {
    && toIndex.Keys == contracts.Keys
    && toFull.Keys == contracts.Keys
    && (forall k | k in contracts ::
          && contracts[k].symbol == k
          && toIndex[k] == contracts[k].indexCode
          && toFull[k] == contracts[k].fullCode)
  }

  /** Every index code leads back to a registered product. */
  ghost predicate BackLinked(toSymbol: map<string, string>, contracts: map<string, Contract>)
  {
    forall code | code in toSymbol :: toSymbol[code] in contracts
  }

  lemma FiledUpdate(contracts: map<string, Contract>, toIndex: map<string, string>,
                    toFull: map<string, string>, c: Contract)
    requires Filed(contracts, toIndex, toFull)
    ensures Filed(contracts[c.symbol := c], toIndex[c.symbol := c.indexCode],
                  toFull[c.symbol := c.fullCode])
  {
  }

  lemma RegisterKeepsValid(reg: Registry, c: Contract, r: Registry)
    requires reg.Valid()
    requires r.contracts == Put(reg.contracts, c.symbol, c)
    requires r.symbolToIndex == Put(reg.symbolToIndex, c.symbol, c.indexCode)
    requires r.indexToSymbol == Put(reg.indexToSymbol, c.indexCode, c.symbol)
    requires r.exchangeMapping == Put(reg.exchangeMapping, c.symbol, c.fullCode)
    ensures r.Valid()
    ensures forall k :: k in r.contracts.entries <==> k in reg.contracts.entries || k == c.symbol
  {
    FiledUpdate(reg.contracts.entries, reg.symbolToIndex.entries, reg.exchangeMapping.entries, c);
    assert BackLinked(r.indexToSymbol.entries, r.contracts.entries);
  }

  /** The registry after registering every contract of `t` in order; a
      product is registered exactly when some entry of `t` carries it. A
      dict keeps a key where it was first written, so the products and the
      index codes are kept in the order they first appear in `t`. */
  function Build(t: seq<Contract>): (reg: Registry)
    ensures reg.Valid()
    ensures forall k :: k in reg.contracts.entries <==> Carries(t, k)
    ensures reg.contracts.order == Dedup(Symbols(t))
    ensures reg.indexToSymbol.order == Dedup(IndexCodes(t))
    decreases |t|
  {
    if |t| == 0 then Registry(Empty(), Empty(), Empty(), Empty())
    else
      var n := |t| - 1;
      var reg := Build(t[..n]);
      CarriesSnoc(t);
      ColumnsSnoc(t);
      PutKeepsFirstOrder(reg.contracts, Symbols(t[..n]), t[n].symbol, t[n]);
      PutKeepsFirstOrder(reg.indexToSymbol, IndexCodes(t[..n]), t[n].indexCode, t[n].symbol);
      Register(reg, t[n])
  }

  /** Some entry of `t` is the contract of product `k`. */
  ghost predicate Carries(t: seq<Contract>, k: string)
  {
    exists i :: 0 <= i < |t| && t[i].symbol == k
  }

  lemma CarriesSnoc(t: seq<Contract>)
    requires |t| > 0
    ensures forall k :: Carries(t, k) <==> Carries(t[..|t| - 1], k) || t[|t| - 1].symbol == k
  {
    forall k ensures Carries(t, k) <==> Carries(t[..|t| - 1], k) || t[|t| - 1].symbol == k {
      if Carries(t[..|t| - 1], k) {
        var i :| 0 <= i < |t| - 1 && t[..|t| - 1][i].symbol == k;
        assert t[i].symbol == k;
      }
      if Carries(t, k) && t[|t| - 1].symbol != k {
        var i :| 0 <= i < |t| && t[i].symbol == k;
        assert t[..|t| - 1][i].symbol == k;
      }
    }
  }

  /** The products of `t`, in order. */
  function Symbols(t: seq<Contract>): (r: seq<string>)
    ensures |r| == |t|
    ensures forall i :: 0 <= i < |t| ==> r[i] == t[i].symbol
  {
    seq(|t|, i requires 0 <= i < |t| => t[i].symbol)
  }

  /** When no product repeats, every entry of the table is the contract
      filed under its product. */
  lemma {:induction false} BuildFiles(t: seq<Contract>)
    requires NoDup(Symbols(t))
    ensures forall i | 0 <= i < |t| ::
      t[i].symbol in Build(t).contracts.entries && Build(t).contracts.entries[t[i].symbol] == t[i]
    decreases |t|
  {
    if |t| > 0 {
      var t' := t[..|t| - 1];
      var last := t[|t| - 1];
      assert NoDup(Symbols(t')) by {
        forall i, j | 0 <= i < j < |t'| ensures Symbols(t')[i] != Symbols(t')[j] {
          assert Symbols(t')[i] == Symbols(t)[i] && Symbols(t')[j] == Symbols(t)[j];
        }
      }
      BuildFiles(t');
      var entries := Build(t).contracts.entries;
      assert entries == Build(t').contracts.entries[last.symbol := last];
      forall i | 0 <= i < |t| ensures t[i].symbol in entries && entries[t[i].symbol] == t[i] {
        if i < |t| - 1 {
          assert Symbols(t)[i] != Symbols(t)[|t| - 1];
          assert t'[i] == t[i];
        }
      }
    }
  }

  /* --------------------------------------------------------------- lookups */

  function GetContract(reg: Registry, symbol: string): Option<Contract>
  {
    Get(reg.contracts, Upper(symbol))
  }

  function GetIndexCode(reg: Registry, symbol: string): Option<string>
  {
    Get(reg.symbolToIndex, Upper(symbol))
  }

  function GetSymbolFromIndex(reg: Registry, indexCode: string): Option<string>
  {
    Get(reg.indexToSymbol, Upper(indexCode))
  }

  function GetFullCode(reg: Registry, symbol: string): Option<string>
  {
    Get(reg.exchangeMapping, Upper(symbol))
  }

  predicate IsValidSymbol(reg: Registry, symbol: string)
  {
    Upper(symbol) in reg.contracts.entries
  }

  predicate IsValidIndexCode(reg: Registry, indexCode: string)
  {
    Upper(indexCode) in reg.indexToSymbol.entries
  }

  /** Every lookup gives the same answer for a code and its upper-case form,
      and a product lookup finds the contract filed under that product. */
  lemma LookupsIgnoreCase(reg: Registry, x: string)
    requires reg.Valid()
    ensures GetContract(reg, x) == GetContract(reg, Upper(x))
    ensures GetIndexCode(reg, x) == GetIndexCode(reg, Upper(x))
    ensures GetSymbolFromIndex(reg, x) == GetSymbolFromIndex(reg, Upper(x))
    ensures GetFullCode(reg, x) == GetFullCode(reg, Upper(x))
    ensures IsValidSymbol(reg, x) == IsValidSymbol(reg, Upper(x))
    ensures IsValidIndexCode(reg, x) == IsValidIndexCode(reg, Upper(x))
    ensures IsValidSymbol(reg, x) <==> GetContract(reg, x).Some?
    ensures IsValidSymbol(reg, x) <==> GetIndexCode(reg, x).Some?
    ensures IsValidSymbol(reg, x) <==> GetFullCode(reg, x).Some?
    ensures IsValidSymbol(reg, x) ==> GetContract(reg, x).value.symbol == Upper(x)
  {
    UpperIdempotent(x);
  }

  /** Every key of `toIndex` is indexed by itself followed by "99", and
      `toSymbol` sends that code back to the key. */
  ghost predicate SuffixMaps(toIndex: map<string, string>, toSymbol: map<string, string>)
  {
    forall k | k in toIndex ::
      && toIndex[k] == k + "99"
      && k + "99" in toSymbol
      && toSymbol[k + "99"] == k
  }

  /** The registry's index maps are suffix maps. */
  ghost predicate SuffixIndexed(reg: Registry)
  {
    SuffixMaps(reg.symbolToIndex.entries, reg.indexToSymbol.entries)
  }

  /** Appending the same suffix to two different products keeps them apart. */
  lemma SuffixInjective(a: string, b: string, suffix: string)
    ensures a + suffix == b + suffix ==> a == b
  {
    if a + suffix == b + suffix {
      assert a == (a + suffix)[..|a|];
      assert b == (b + suffix)[..|b|];
    }
  }

  lemma SuffixMapsUpdate(toIndex: map<string, string>, toSymbol: map<string, string>, s: string)
    requires SuffixMaps(toIndex, toSymbol)
    ensures SuffixMaps(toIndex[s := s + "99"], toSymbol[s + "99" := s])
  {
    var toIndex' := toIndex[s := s + "99"];
    var toSymbol' := toSymbol[s + "99" := s];
    forall k | k in toIndex'
      ensures toIndex'[k] == k + "99"
      ensures k + "99" in toSymbol' && toSymbol'[k + "99"] == k
    {
      if k != s {
        SuffixInjective(k, s, "99");
      }
    }
  }

  lemma RegisterSuffixIndexed(reg: Registry, c: Contract)
    requires reg.Valid() && SuffixIndexed(reg)
    requires c.indexCode == c.symbol + "99"
    ensures SuffixIndexed(Register(reg, c))
  {
    SuffixMapsUpdate(reg.symbolToIndex.entries, reg.indexToSymbol.entries, c.symbol);
  }

  /** Every entry of `t` is indexed by its product followed by "99". */
  ghost predicate SuffixCoded(t: seq<Contract>)
  {
    forall i | 0 <= i < |t| :: t[i].indexCode == t[i].symbol + "99"
  }

  /** Registering a table whose index codes are the products followed by
      "99" gives a registry whose index maps are inverse to each other. */
  lemma {:induction false} BuildSuffixIndexed(t: seq<Contract>)
    requires SuffixCoded(t)
    ensures SuffixIndexed(Build(t))
    decreases |t|
  {
    if |t| > 0 {
      var t' := t[..|t| - 1];
      assert SuffixCoded(t') by {
        forall i | 0 <= i < |t'| ensures t'[i].indexCode == t'[i].symbol + "99" {
          assert t'[i] == t[i];
        }
      }
      BuildSuffixIndexed(t');
      RegisterSuffixIndexed(Build(t'), t[|t| - 1]);
    }
  }

  /** Looking up the index code of a registered product and mapping that
      code back gives the (upper-cased) product. */
  lemma IndexCodeRoundTrip(reg: Registry, s: string)
    requires reg.Valid() && SuffixIndexed(reg)
    requires IsValidSymbol(reg, s)
    ensures GetIndexCode(reg, s) == Some(Upper(s) + "99")
    ensures GetSymbolFromIndex(reg, Upper(s) + "99") == Some(Upper(s))
  {
    var k := Upper(s);
    UpperConcat(k, "99");
    UpperOfNoLower(k);
    assert Upper("99") == "99";
  }

  /* ---------------------------------------------------------- code parser */

  /** `re.match(r'^([A-Z]{1,3})99$', code).group(1)` on an already
      stripped code: the one to three upper-case letters before a final
      "99", if that is all the code is. */
  function IndexPrefix(code: string): (p: Option<string>)
    ensures p.Some? <==>
      && 3 <= |code| <= 5
      && code[|code| - 2..] == "99"
      && AllUpper(code[..|code| - 2])
    ensures p.Some? ==> code == p.value + "99" && 1 <= |p.value| <= 3 && AllUpper(p.value)
  {
    if 3 <= |code| <= 5 && code[|code| - 2..] == "99" && AllUpper(code[..|code| - 2]) then
      assert code == code[..|code| - 2] + code[|code| - 2..];
      Some(code[..|code| - 2])
    else None
  }

  /** `re.match(r'^([A-Z]{1,3})\d{4}$', code).group(1)` on an already
      stripped code: the one to three upper-case letters before four final
      digits, if that is all the code is. */
  function DatedPrefix(code: string): (p: Option<string>)
    ensures p.Some? <==>
      && 5 <= |code| <= 7
      && AllUpper(code[..|code| - 4])
      && AllDigits(code[|code| - 4..])
    ensures p.Some? ==>
      && code == p.value + code[|code| - 4..]
      && 1 <= |p.value| <= 3 && AllUpper(p.value)
  {
    if 5 <= |code| <= 7 && AllUpper(code[..|code| - 4]) && AllDigits(code[|code| - 4..]) then
      assert code == code[..|code| - 4] + code[|code| - 4..];
      Some(code[..|code| - 4])
    else None
  }

  /** The code as the parser sees it: upper-cased, then stripped. Stripping
      removes any final newline, so the patterns' `$` is the end of string. */
  function Canonical(code: string): (c: string)
    ensures c == "" <==> IsBlank(code)
  {
    Strip(Upper(code))
  }

  /** `parse_futures_code`: the product of an index code (`CU99`) or of a
      dated contract code (`CU2403`), and whether it was an index code. A
      product the registry does not know gives `(None, false)`. */
  function ParseFuturesCode(reg: Registry, code: string): (r: (Option<string>, bool))
    ensures r.0.Some? ==> IsValidSymbol(reg, r.0.value)
    ensures r.0.None? ==> !r.1
    ensures r.1 ==> IndexPrefix(Canonical(code)) == r.0
    ensures r.0.Some? && !r.1 ==> DatedPrefix(Canonical(code)) == r.0
  {
    ParseCanonicalCode(reg, Canonical(code))
  }

  /** The two pattern tests of `parse_futures_code`, on the code after
      upper-casing and stripping. */
  function ParseCanonicalCode(reg: Registry, c: string): (r: (Option<string>, bool))
    ensures r.0.Some? ==> IsValidSymbol(reg, r.0.value)
    ensures r.0.None? ==> !r.1
    ensures r.1 ==> IndexPrefix(c) == r.0
    ensures r.0.Some? && !r.1 ==> DatedPrefix(c) == r.0
  {
    var index := IndexPrefix(c);
    var dated := DatedPrefix(c);
    if index.Some? && IsValidSymbol(reg, index.value) then (index, true)
    else if dated.Some? && IsValidSymbol(reg, dated.value) then (dated, false)
    else (None, false)
  }

  /** The product a successful parse returns is one to three upper-case
      letters, and the parsed code is that product followed by "99" (an
      index code) or by four digits (a dated contract). */
  lemma ParsedShape(reg: Registry, code: string)
    requires ParseFuturesCode(reg, code).0.Some?
    ensures var (p, isIndex) := ParseFuturesCode(reg, code);
      && 1 <= |p.value| <= 3 && AllUpper(p.value)
      && (isIndex ==> Canonical(code) == p.value + "99")
      && (!isIndex ==> exists month :: |month| == 4 && AllDigits(month) && Canonical(code) == p.value + month)
  {
    var c := Canonical(code);
    if !ParseFuturesCode(reg, code).1 {
      var month := c[|c| - 4..];
      assert |month| == 4 && AllDigits(month);
    }
  }

  lemma IndexCodeShape(c: string, product: string)
    requires c == product + "99"
    requires 1 <= |product| <= 3 && AllUpper(product)
    ensures IndexPrefix(c) == Some(product)
  {
    assert c[..|c| - 2] == product;
    assert c[|c| - 2..] == "99";
  }

  lemma DatedCodeShape(c: string, product: string, month: string)
    requires c == product + month
    requires 1 <= |product| <= 3 && AllUpper(product)
    requires |month| == 4 && AllDigits(month)
    ensures IndexPrefix(c).None?
    ensures DatedPrefix(c) == Some(product)
  {
    assert c[..|c| - 4] == product;
    assert c[|c| - 4..] == month;
    assert c[|c| - 4] == month[0];
  }

  /** Conversely, a registered product followed by "99" parses as that
      product's index code, whatever its case and surrounding whitespace. */
  lemma ParseIndexCode(reg: Registry, code: string, product: string)
    requires Canonical(code) == product + "99"
    requires 1 <= |product| <= 3 && AllUpper(product)
    requires IsValidSymbol(reg, product)
    ensures ParseFuturesCode(reg, code) == (Some(product), true)
  {
    IndexCodeShape(Canonical(code), product);
  }

  /** Conversely, a registered product followed by four digits parses as a
      dated contract of that product. */
  lemma ParseDatedCode(reg: Registry, code: string, product: string, month: string)
    requires Canonical(code) == product + month
    requires 1 <= |product| <= 3 && AllUpper(product)
    requires |month| == 4 && AllDigits(month)
    requires IsValidSymbol(reg, product)
    ensures ParseFuturesCode(reg, code) == (Some(product), false)
  {
    DatedCodeShape(Canonical(code), product, month);
  }

  /** A code with no whitespace at either end is only upper-cased. */
  lemma CanonicalOfTrimmed(code: string)
    requires code == "" || (!IsSpace(code[0]) && !IsSpace(code[|code| - 1]))
    ensures Canonical(code) == Upper(code)
  {
    StripOfTrimmed(Upper(code));
  }

  /** An upper-case code with no surrounding whitespace is its own
      canonical form. */
  lemma CanonicalIsSelf(code: string)
    requires NoLower(code)
    requires code == "" || (!IsSpace(code[0]) && !IsSpace(code[|code| - 1]))
    ensures Canonical(code) == code
  {
    CanonicalOfTrimmed(code);
    UpperOfNoLower(code);
  }

  /** Canonicalising twice changes nothing. */
  lemma CanonicalIdempotent(code: string)
    ensures Canonical(Canonical(code)) == Canonical(code)
  {
    StripOfUpper(code);
    var c := Canonical(code);
    assert NoLower(c);
    CanonicalIsSelf(c);
  }

  /** Parsing a canonical code is parsing the code. */
  lemma ParseCanonical(reg: Registry, code: string)
    ensures ParseFuturesCode(reg, Canonical(code)) == ParseFuturesCode(reg, code)
  {
    CanonicalIdempotent(code);
  }

  /** A code of neither shape is rejected whatever the registry holds. */
  lemma ParseRejectsShapeless(reg: Registry, code: string)
    requires IndexPrefix(Canonical(code)).None? && DatedPrefix(Canonical(code)).None?
    ensures ParseFuturesCode(reg, code) == (None, false)
  {
  }

  /** Rejected: a blank code, whatever the registry holds. */
  lemma RejectsBlank(reg: Registry, code: string)
    requires IsBlank(code)
    ensures ParseFuturesCode(reg, code) == (None, false)
  {
    assert Canonical(code) == "";
    ParseRejectsShapeless(reg, code);
  }

  lemma BareProductShape()
    ensures IndexPrefix("CU").None? && DatedPrefix("CU").None?
  {
  }

  /** Rejected: a bare product with no month, in any letter case and with any surrounding blanks. */
  lemma RejectsBareProduct(reg: Registry, code: string)
    requires Canonical(code) == "CU"
    ensures ParseFuturesCode(reg, code) == (None, false)
  {
    BareProductShape();
    ParseRejectsShapeless(reg, code);
  }

  lemma WordShape()
    ensures IndexPrefix("INVALID").None? && DatedPrefix("INVALID").None?
  {
    var c := "INVALID";
    assert !IsDigit(c[5]);
  }

  /** Rejected: a word, in any letter case and with any surrounding blanks. */
  lemma RejectsWord(reg: Registry, code: string)
    requires Canonical(code) == "INVALID"
    ensures ParseFuturesCode(reg, code) == (None, false)
  {
    WordShape();
    ParseRejectsShapeless(reg, code);
  }

  lemma OverlongShape()
    ensures IndexPrefix("TOOLONG99").None? && DatedPrefix("TOOLONG99").None?
  {
  }

  /** Rejected: a product too long for either shape, in any letter case and with any surrounding blanks. */
  lemma RejectsOverlong(reg: Registry, code: string)
    requires Canonical(code) == "TOOLONG99"
    ensures ParseFuturesCode(reg, code) == (None, false)
  {
    OverlongShape();
    ParseRejectsShapeless(reg, code);
  }

  lemma DigitsOnlyShape()
    ensures IndexPrefix("123").None? && DatedPrefix("123").None?
  {
    var c := "123";
    assert !IsUpper(c[0]);
  }

  /** Rejected: digits with no product, in any letter case and with any surrounding blanks. */
  lemma RejectsDigitsOnly(reg: Registry, code: string)
    requires Canonical(code) == "123"
    ensures ParseFuturesCode(reg, code) == (None, false)
  {
    DigitsOnlyShape();
    ParseRejectsShapeless(reg, code);
  }

  lemma ThreeDigitsShape()
    ensures IndexPrefix("CU999").None? && DatedPrefix("CU999").None?
  {
    var c := "CU999";
    assert !IsUpper(c[2]) && !IsDigit(c[1]);
  }

  /** Rejected: a product followed by three digits, in any letter case and with any surrounding blanks. */
  lemma RejectsThreeDigits(reg: Registry, code: string)
    requires Canonical(code) == "CU999"
    ensures ParseFuturesCode(reg, code) == (None, false)
  {
    ThreeDigitsShape();
    ParseRejectsShapeless(reg, code);
  }

  lemma ExchangeQualifiedShape()
    ensures IndexPrefix("SHFE.CU99").None? && DatedPrefix("SHFE.CU99").None?
  {
  }

  /** Rejected: an exchange-qualified code, in any letter case and with any surrounding blanks. */
  lemma RejectsExchangeQualified(reg: Registry, code: string)
    requires Canonical(code) == "SHFE.CU99"
    ensures ParseFuturesCode(reg, code) == (None, false)
  {
    ExchangeQualifiedShape();
    ParseRejectsShapeless(reg, code);
  }

  lemma ContinuousCodeShape()
    ensures IndexPrefix("KQ.I@SHFE.CU").None? && DatedPrefix("KQ.I@SHFE.CU").None?
  {
  }

  /** Rejected: a continuous-contract code of the data service such as
      `KQ.i@SHFE.cu`, even though it is copper's own full code. */
  lemma RejectsContinuousCode(reg: Registry, code: string)
    requires Canonical(code) == "KQ.I@SHFE.CU"
    ensures ParseFuturesCode(reg, code) == (None, false)
  {
    ContinuousCodeShape();
    ParseRejectsShapeless(reg, code);
  }

  /* ------------------------------------------------------------ validator */

  const EmptyCodeMessage: string := "期货代码不能为空"
  const FormatMessage: string :=
    "期货代码格式错误，应为指数合约格式（如：CU99）或具体合约格式（如：CU2403）"
  const UnsupportedPrefix: string := "不支持的期货品种: "

  /** `(is_valid, error_message, contract_info)`; the contract stands for the
      dict `get_contract_info` renders from it. */
  datatype Validation = Validation(valid: bool, message: string, info: Option<Contract>)

  /** `validate_futures_input`: blank input, then an unparsable code, then
      an unsupported product are rejected with their messages; anything
      else is accepted with the product's contract. */
  function ValidateFuturesInput(reg: Registry, code: string): (v: Validation)
    requires reg.Valid()
    ensures IsBlank(code) ==> v == Validation(false, EmptyCodeMessage, None)
    ensures !IsBlank(code) && ParseFuturesCode(reg, code).0.None? ==>
      v == Validation(false, FormatMessage, None)
    ensures v.valid <==> ParseFuturesCode(reg, code).0.Some?
    ensures v.valid ==>
      && v.message == ""
      && v.info == GetContract(reg, ParseFuturesCode(reg, code).0.value)
      && v.info.Some?
    ensures !v.valid ==> v.message == EmptyCodeMessage || v.message == FormatMessage
  {
    if code == "" || Strip(code) == "" then
      Validation(false, EmptyCodeMessage, None)
    else
      var parsed := ParseFuturesCode(reg, code);
      if parsed.0.None? then
        Validation(false, FormatMessage, None)
      else
        var product := parsed.0.value;
        var info := GetContract(reg, product);
        if info.None? then
          Validation(false, UnsupportedPrefix + product, None)
        else
          Validation(true, "", info)
  }

  /** `validate_futures_input("INVALID")` reports the format error, in any
      letter case and with any surrounding blanks. */
  lemma ValidateWord(reg: Registry, code: string)
    requires reg.Valid()
    requires Canonical(code) == "INVALID"
    ensures ValidateFuturesInput(reg, code) == Validation(false, FormatMessage, None)
  {
    RejectsWord(reg, code);
  }

  /* ------------------------------------------------------ listing, search */

  /** `c` is the contract the registry files under its product. */
  ghost predicate Registered(reg: Registry, c: Contract)
  {
    c.symbol in reg.contracts.entries && reg.contracts.entries[c.symbol] == c
  }

  /** `list(self._contracts.values())`: the filed contracts in registration
      order, each once. */
  function ListContracts(reg: Registry): (r: seq<Contract>)
    requires reg.Valid()
    ensures NoDup(r)
    ensures forall c :: c in r <==> Registered(reg, c)
    ensures |r| == |reg.contracts.order|
    ensures forall i :: 0 <= i < |r| ==> r[i].symbol == reg.contracts.order[i]
  {
    var r := Values(reg.contracts);
    forall c ensures c in r <==> Registered(reg, c) {
      ValuesAreEntries(reg.contracts, c);
    }
    r
  }

  /** `get_contracts_by_exchange`: the exchange's contracts in
      registration order. */
  function ContractsByExchange(reg: Registry, e: Exchange): (r: seq<Contract>)
    requires reg.Valid()
    ensures NoDup(r)
    ensures forall c :: c in r <==> Registered(reg, c) && c.exchange == e
    ensures Subsequence(r, ListContracts(reg))
  {
    var onExchange := (c: Contract) => c.exchange == e;
    FilterOrder(ListContracts(reg), onExchange);
    Filter(ListContracts(reg), onExchange)
  }

  /** `get_contracts_by_category`: the category's contracts in
      registration order. */
  function ContractsByCategory(reg: Registry, cat: Category): (r: seq<Contract>)
    requires reg.Valid()
    ensures NoDup(r)
    ensures forall c :: c in r <==> Registered(reg, c) && c.category == cat
    ensures Subsequence(r, ListContracts(reg))
  {
    var inCategory := (c: Contract) => c.category == cat;
    FilterOrder(ListContracts(reg), inCategory);
    Filter(ListContracts(reg), inCategory)
  }

  /** Every registered contract is listed under exactly one exchange and
      exactly one category. */
  lemma ListingsPartition(reg: Registry, c: Contract, e: Exchange, cat: Category)
    requires reg.Valid()
    requires Registered(reg, c)
    ensures c in ContractsByExchange(reg, e) <==> e == c.exchange
    ensures c in ContractsByCategory(reg, cat) <==> cat == c.category
  {
  }

  /** The search condition: the lower-cased keyword `k` occurs in the
      product, the name or the index code, each lower-cased. */
  predicate MatchesLowered(c: Contract, k: string)
  {
    Contains(Lower(c.symbol), k) || Contains(Lower(c.name), k) || Contains(Lower(c.indexCode), k)
  }

  function LoweredFilter(k: string): Contract -> bool
  {
    c => MatchesLowered(c, k)
  }

  /** `search_contracts`: the keyword is lower-cased once, then every
      contract whose product, name or index code contains it is kept, in
      registration order. */
  function SearchContracts(reg: Registry, keyword: string): (r: seq<Contract>)
    requires reg.Valid()
    ensures NoDup(r)
    ensures forall c :: c in r <==> Registered(reg, c) && MatchesLowered(c, Lower(keyword))
    ensures Subsequence(r, ListContracts(reg))
  {
    FilterOrder(ListContracts(reg), LoweredFilter(Lower(keyword)));
    Filter(ListContracts(reg), LoweredFilter(Lower(keyword)))
  }

  /** The search ignores the keyword's case. */
  lemma SearchIgnoresCase(reg: Registry, keyword: string)
    requires reg.Valid()
    ensures SearchContracts(reg, Upper(keyword)) == SearchContracts(reg, keyword)
  {
    LowerOfUpper(keyword);
  }

  /** An empty keyword finds every contract, in registration order. */
  lemma SearchEmptyFindsAll(reg: Registry)
    requires reg.Valid()
    ensures SearchContracts(reg, "") == ListContracts(reg)
  {
    forall c | c in ListContracts(reg) ensures MatchesLowered(c, Lower("")) {
      assert StartsWith(Lower(c.symbol), Lower(""));
    }
    FilterAll(ListContracts(reg), LoweredFilter(Lower("")));
  }

  /** Every contract is found by its own product or index code, written in
      any case. */
  lemma SearchFindsOwnCodes(reg: Registry, keyword: string, c: Contract)
    requires reg.Valid() && Registered(reg, c)
    requires Upper(keyword) == Upper(c.symbol) || Upper(keyword) == Upper(c.indexCode)
    ensures c in SearchContracts(reg, keyword)
  {
    LowerOfUpper(keyword);
    LowerOfUpper(c.symbol);
    LowerOfUpper(c.indexCode);
    ContainsSelf(Lower(c.symbol));
    ContainsSelf(Lower(c.indexCode));
  }

  /** `get_all_symbols`: every registered product, once, in registration
      order. */
  function AllSymbols(reg: Registry): (r: seq<string>)
    requires reg.Valid()
    ensures NoDup(r)
    ensures forall k :: k in r <==> k in reg.contracts.entries
    ensures |r| == |ListContracts(reg)|
    ensures forall i | 0 <= i < |r| :: r[i] == ListContracts(reg)[i].symbol
  {
    reg.contracts.order
  }

  /** `get_all_index_codes`: every index code, once, in registration order;
      each leads back to a registered product. */
  function AllIndexCodes(reg: Registry): (r: seq<string>)
    requires reg.Valid()
    ensures NoDup(r)
    ensures forall code :: code in r <==> code in reg.indexToSymbol.entries
    ensures forall code :: code in r ==> reg.indexToSymbol.entries[code] in reg.contracts.entries
  {
    reg.indexToSymbol.order
  }

  /** The index codes of `t`, in order. */
  function IndexCodes(t: seq<Contract>): (r: seq<string>)
    ensures |r| == |t|
    ensures forall i :: 0 <= i < |t| ==> r[i] == t[i].indexCode
  {
    seq(|t|, i requires 0 <= i < |t| => t[i].indexCode)
  }

  /** The table's columns after one more entry. */
  lemma ColumnsSnoc(t: seq<Contract>)
    requires |t| > 0
    ensures var n := |t| - 1;
            && Symbols(t) == Symbols(t[..n]) + [t[n].symbol]
            && IndexCodes(t) == IndexCodes(t[..n]) + [t[n].indexCode]
  {
    var n := |t| - 1;
    var symbols := Symbols(t[..n]) + [t[n].symbol];
    var codes := IndexCodes(t[..n]) + [t[n].indexCode];
    forall i | 0 <= i < |t| ensures Symbols(t)[i] == symbols[i] && IndexCodes(t)[i] == codes[i] {
      if i < n {
        assert t[..n][i] == t[i];
      }
    }
    assert |Symbols(t)| == |symbols| && |IndexCodes(t)| == |codes|;
  }

  /** With no product repeated, `list_contracts` gives back the table. */
  lemma ListedInTableOrder(t: seq<Contract>)
    requires NoDup(Symbols(t))
    ensures ListContracts(Build(t)) == t
  {
    DedupOfNoDup(Symbols(t));
    BuildFiles(t);
    var listed := ListContracts(Build(t));
    forall i | 0 <= i < |t| ensures listed[i] == t[i] {
      assert Build(t).contracts.order[i] == Symbols(t)[i];
    }
  }

  /** With no product repeated, every index code differs too. */
  lemma SuffixCodesDistinct(t: seq<Contract>)
    requires SuffixCoded(t) && NoDup(Symbols(t))
    ensures NoDup(IndexCodes(t))
  {
    forall i, j | 0 <= i < j < |t| ensures IndexCodes(t)[i] != IndexCodes(t)[j] {
      SuffixInjective(t[i].symbol, t[j].symbol, "99");
    }
  }
}
