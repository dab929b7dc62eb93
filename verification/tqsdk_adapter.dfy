/** The symbol handling of `TqSdkFuturesAdapter`: `_normalize_symbol`,
    which turns what a user typed into the code sent to the data service,
    `_extract_underlying`, and `is_futures_symbol`. The contract manager the
    adapter holds is passed in as a `Registry` value. */
module TqSdkAdapter {
  import opened Wrappers
  import opened Strings
  import opened ContractTable
  import opened ContractRegistry
  import opened ReferenceRegistry

  /** The exception the modelled code can raise: `split('.')[1]` on a code
      without a dot. */
  datatype Raised = IndexError

  /** The adapter state the modelled methods read. `futures_names` is read
      by `is_futures_symbol` but never assigned anywhere, so a fresh adapter
      has no such attribute (`None`). */
  datatype Adapter = Adapter(registry: Registry, futuresNames: Option<set<string>>)

  /** `TqSdkFuturesAdapter()`: the shared contract manager and no
      `futures_names` attribute. */
  function NewAdapter(reg: Registry): (a: Adapter)
    ensures a.registry == reg && a.futuresNames.None?
  {
    Adapter(reg, None)
  }

  /** Python's truthiness of an optional string: present and non-empty. */
  predicate Truthy(v: Option<string>)
  {
    v.Some? && v.value != ""
  }

  /* --------------------------------------------------- dated-code pattern */

  /** The first `n` characters of `s` are letters of either case and the
      rest are three or four digits. */
  predicate LettersThenMonth(s: string, n: int)
  {
    1 <= n && n + 3 <= |s| <= n + 4 && AllLetters(s[..n]) && AllDigits(s[n..])
  }

  /** Letters and digits are disjoint, so the split point is unique. */
  lemma LettersThenMonthUnique(s: string, n: int)
    requires LettersThenMonth(s, n)
    ensures forall m :: LettersThenMonth(s, m) ==> m == n
  {
    forall m | m != n ensures !LettersThenMonth(s, m) {
      if n < m <= |s| {
        assert s[..m][n] == s[n..][0];
      } else if 0 <= m < n {
        assert s[..n][m] == s[m..][0];
      }
    }
  }

  /** `re.match(r'^([A-Za-z]+)(\d{3,4})$', s)` on a stripped `s` (so the
      pattern's `$` is the end of the string): the letters and the digits. */
  function SplitMonth(s: string): (r: Option<(string, string)>)
    ensures r.Some? <==> exists n :: LettersThenMonth(s, n)
    ensures r.Some? ==> s == r.value.0 + r.value.1 && LettersThenMonth(s, |r.value.0|)
  {
    MonthSplitPoints(s);
    var n := |s| - 3;
    var m := |s| - 4;
    if LettersThenMonth(s, n) then
      assert s == s[..n] + s[n..];
      Some((s[..n], s[n..]))
    else if LettersThenMonth(s, m) then
      assert s == s[..m] + s[m..];
      Some((s[..m], s[m..]))
    else None
  }

  /** Three or four digits leave two possible split points. */
  lemma MonthSplitPoints(s: string)
    ensures forall n :: LettersThenMonth(s, n) ==> n == |s| - 3 || n == |s| - 4
  {
  }

  /** A code split into letters and three or four digits is split there. */
  lemma SplitMonthOf(s: string, letters: string, month: string)
    requires s == letters + month
    requires |letters| >= 1 && AllLetters(letters)
    requires 3 <= |month| <= 4 && AllDigits(month)
    ensures SplitMonth(s) == Some((letters, month))
  {
    assert s[..|letters|] == letters && s[|letters|..] == month;
    LettersThenMonthUnique(s, |letters|);
    var r := SplitMonth(s).value;
    assert r.0 == s[..|r.0|] && r.1 == s[|r.0|..];
  }

  /* ---------------------------------------------------------- index codes */

  /** The exchange and product parts of an index code, as lines 124-129
      read them: `KQ.i@` is removed when present, and the remainder must
      hold a dot. */
  function IndexCodeParts(indexCode: string): (r: Result<(string, string), Raised>)
    ensures '.' !in indexCode ==> r == Err(IndexError)
    ensures r.Ok? ==> '.' !in r.value.0 && '.' !in r.value.1
  {
    var rest :=
      if Contains(indexCode, "KQ.i@") then
        ContainsDot(indexCode);
        ReplaceAll(indexCode, "KQ.i@", "")
      else indexCode;
    var parts := Split(rest, '.');
    if |parts| >= 2 then Ok((parts[0], parts[1])) else Err(IndexError)
  }

  /** A string containing `KQ.i@` contains a dot. */
  lemma ContainsDot(s: string)
    requires Contains(s, "KQ.i@")
    ensures '.' in s
  {
    ContainsWitness(s, "KQ.i@");
    var i :| OccursAt(s, "KQ.i@", i);
    assert s[i..i + 5][2] == s[i + 2];
  }

  /* ------------------------------------------------------------ normalise */

  /** The product guessed from the upper-cased code when parsing fails
      (lines 143-150): drop a final "99", else two final digits, else four
      final digits, else nothing. */
  function FallbackBase(sym: string): (base: string)
    ensures |base| <= |sym|
  {
    if EndsWith(sym, "99") then DropLast(sym, 2)
    else if |sym| > 2 && IsDigitString(sym[|sym| - 2..]) then DropLast(sym, 2)
    else if |sym| > 4 && IsDigitString(sym[|sym| - 4..]) then DropLast(sym, 4)
    else sym
  }

  /** Four final digits are two final digits, so the branch that drops four
      is never taken: the guess is the code itself or the code without its
      last two characters. */
  lemma FallbackNeverDropsFour(sym: string)
    ensures FallbackBase(sym) == sym || FallbackBase(sym) == DropLast(sym, 2)
  {
    if |sym| > 4 && IsDigitString(sym[|sym| - 4..]) {
      assert sym[|sym| - 2..][0] == sym[|sym| - 4..][2];
      assert sym[|sym| - 2..][1] == sym[|sym| - 4..][3];
    }
  }

  /** Lines 135-159: the full code of the parsed product, else the full
      code of the guessed product, else the trimmed input. */
  function Resolve(reg: Registry, sym: string, original: string): (r: string)
    ensures r == original || r in reg.exchangeMapping.entries.Values
  {
    var (parsed, _) := ParseFuturesCode(reg, sym);
    var full := if parsed.Some? then GetFullCode(reg, parsed.value) else None;
    if Truthy(full) then full.value
    else
      var fallback := GetFullCode(reg, FallbackBase(sym));
      if Truthy(fallback) then fallback.value else original
  }

  /** Lines 116-132: the code for month `month` of the product spelt
      `letters`, built from the product's index code; `None` when the
      product has no index code, so that resolution carries on. */
  function DatedCode(reg: Registry, letters: string, month: string): (r: Option<Result<string, Raised>>)
    ensures r.Some? <==> Truthy(GetIndexCode(reg, Upper(letters)))
    ensures r.Some? && r.value.Ok? ==> EndsWith(r.value.value, month)
  {
    var indexCode := GetIndexCode(reg, Upper(letters));
    if Truthy(indexCode) then
      match IndexCodeParts(indexCode.value)
      case Ok((exchange, product)) =>
        var code := exchange + "." + product + month;
        assert code[|code| - |month|..] == month;
        Some(Ok(code))
      case Err(e) => Some(Err(e))
    else None
  }

  /** `_normalize_symbol`. The result is the trimmed input, a full code of
      the registry, or a code that ends with the caller's month digits; the
      only failure is the `IndexError` of a dated code whose registered
      index code has no dot. */
  function NormalizeSymbol(reg: Registry, symbol: string): (r: Result<string, Raised>)
    ensures r.Err? ==> SplitMonth(Strip(symbol)).Some?
    ensures r.Ok? ==>
      || r.value == Strip(symbol)
      || r.value in reg.exchangeMapping.entries.Values
      || (SplitMonth(Strip(symbol)).Some? && EndsWith(r.value, SplitMonth(Strip(symbol)).value.1))
  {
    var original := Strip(symbol);
    var sym := Strip(Upper(symbol));
    if '.' in sym then Ok(original)
    else
      var split := SplitMonth(original);
      var dated := if split.Some? then DatedCode(reg, split.value.0, split.value.1) else None;
      if dated.Some? then dated.value
      else Ok(Resolve(reg, sym, original))
  }

  /** A code that already names its exchange is passed through trimmed,
      with the caller's letter case. */
  lemma NormalizeDotted(reg: Registry, symbol: string)
    requires '.' in Strip(symbol)
    ensures NormalizeSymbol(reg, symbol) == Ok(Strip(symbol))
  {
    StripOfUpper(symbol);
    var i :| 0 <= i < |Strip(symbol)| && Strip(symbol)[i] == '.';
    assert Upper(Strip(symbol))[i] == '.';
  }

  /** Without a dot and without the dated shape, normalising is resolving
      the canonical code. */
  lemma NormalizeUndated(reg: Registry, symbol: string)
    requires '.' !in Canonical(symbol)
    requires SplitMonth(Strip(symbol)).None?
    ensures NormalizeSymbol(reg, symbol) == Ok(Resolve(reg, Canonical(symbol), Strip(symbol)))
  {
  }

  /** A code the parser accepts resolves to its product's full code. */
  lemma ResolveParsed(reg: Registry, symbol: string, product: string)
    requires ParseFuturesCode(reg, symbol).0 == Some(product)
    requires Truthy(GetFullCode(reg, product))
    ensures Resolve(reg, Canonical(symbol), Strip(symbol)) == GetFullCode(reg, product).value
  {
    ParseCanonical(reg, symbol);
  }

  /** A code the parser rejects resolves through the guessed product. */
  lemma ResolveRejected(reg: Registry, symbol: string)
    requires ParseFuturesCode(reg, symbol).0.None?
    requires Truthy(GetFullCode(reg, FallbackBase(Canonical(symbol))))
    ensures Resolve(reg, Canonical(symbol), Strip(symbol)) == GetFullCode(reg, FallbackBase(Canonical(symbol))).value
  {
    ParseCanonical(reg, symbol);
  }

  /** A trimmed dated code holds no dot. */
  lemma DatedHasNoDot(symbol: string, letters: string, month: string)
    requires Strip(symbol) == letters + month
    requires AllLetters(letters) && AllDigits(month)
    ensures '.' !in Canonical(symbol)
  {
    StripOfUpper(symbol);
    var s := Strip(symbol);
    forall i | 0 <= i < |s| ensures Upper(s)[i] != '.' {
      if i < |letters| {
        assert s[i] == letters[i];
      } else {
        assert s[i] == month[i - |letters|];
      }
    }
  }

  /** A dated code whose product has an index code is normalised to the
      code built from that index code. */
  lemma NormalizeDated(reg: Registry, symbol: string, letters: string, month: string)
    requires Strip(symbol) == letters + month
    requires |letters| >= 1 && AllLetters(letters)
    requires 3 <= |month| <= 4 && AllDigits(month)
    requires Truthy(GetIndexCode(reg, letters))
    ensures DatedCode(reg, letters, month).Some?
    ensures NormalizeSymbol(reg, symbol) == DatedCode(reg, letters, month).value
  {
    SplitMonthOf(Strip(symbol), letters, month);
    DatedHasNoDot(symbol, letters, month);
    UpperIdempotent(letters);
  }

  /** A dated code whose product has an index code with exchange and
      product parts becomes `exchange.product` followed by the caller's
      digits, unchanged. */
  lemma NormalizeDatedCode(reg: Registry, symbol: string, letters: string, month: string, exchange: string, product: string)
    requires Strip(symbol) == letters + month
    requires |letters| >= 1 && AllLetters(letters)
    requires 3 <= |month| <= 4 && AllDigits(month)
    requires Truthy(GetIndexCode(reg, letters))
    requires IndexCodeParts(GetIndexCode(reg, letters).value) == Ok((exchange, product))
    ensures NormalizeSymbol(reg, symbol) == Ok(exchange + "." + product + month)
  {
    NormalizeDated(reg, symbol, letters, month);
    UpperIdempotent(letters);
  }

  /** A dated code whose registered index code has no dot raises
      `IndexError`. */
  lemma NormalizeDatedCodeRaises(reg: Registry, symbol: string, letters: string, month: string)
    requires Strip(symbol) == letters + month
    requires |letters| >= 1 && AllLetters(letters)
    requires 3 <= |month| <= 4 && AllDigits(month)
    requires Truthy(GetIndexCode(reg, letters))
    requires '.' !in GetIndexCode(reg, letters).value
    ensures NormalizeSymbol(reg, symbol) == Err(IndexError)
  {
    NormalizeDated(reg, symbol, letters, month);
    UpperIdempotent(letters);
  }

  /** A dated code whose product has no index code falls through to the
      registry lookup of the whole upper-cased code. */
  lemma NormalizeDatedUnlisted(reg: Registry, symbol: string, letters: string, month: string)
    requires Strip(symbol) == letters + month
    requires |letters| >= 1 && AllLetters(letters)
    requires 3 <= |month| <= 4 && AllDigits(month)
    requires !Truthy(GetIndexCode(reg, letters))
    ensures NormalizeSymbol(reg, symbol) == Ok(Resolve(reg, Canonical(symbol), Strip(symbol)))
  {
    SplitMonthOf(Strip(symbol), letters, month);
    DatedHasNoDot(symbol, letters, month);
    UpperIdempotent(letters);
  }

  /** A product followed by "99" holds no dot. */
  lemma IndexCodeHasNoDot(product: string)
    requires AllLetters(product)
    ensures '.' !in Upper(product) + "99"
  {
    var code := Upper(product) + "99";
    forall i | 0 <= i < |code| ensures code[i] != '.' {
      if i < |product| {
        assert code[i] == UpperChar(product[i]);
      }
    }
  }

  /** With the static table every dated code of a registered product
      raises: its index code is the product followed by "99", with no
      dot. */
  lemma StaticDatedCodesRaise(symbol: string, letters: string, month: string)
    requires Strip(symbol) == letters + month
    requires |letters| >= 1 && AllLetters(letters)
    requires 3 <= |month| <= 4 && AllDigits(month)
    requires IsValidSymbol(StaticRegistry(), letters)
    ensures NormalizeSymbol(StaticRegistry(), symbol) == Err(IndexError)
  {
    StaticRegistrySuffixIndexed();
    IndexCodeRoundTrip(StaticRegistry(), letters);
    IndexCodeHasNoDot(letters);
    NormalizeDatedCodeRaises(StaticRegistry(), symbol, letters, month);
  }

  /** A code whose upper-case form is a product followed by "99" has no
      dot and not the dated shape. */
  lemma IndexCodeUndated(s: string, product: string)
    requires Upper(s) == product + "99"
    requires 1 <= |product| && AllUpper(product)
    ensures '.' !in Upper(s)
    ensures SplitMonth(s).None?
  {
    var c := Upper(s);
    forall i | 0 <= i < |c| ensures c[i] != '.' {
      if i >= |product| {
        assert c[i] == "99"[i - |product|];
      }
    }
    forall n ensures !LettersThenMonth(s, n) {
      if 1 <= n && n + 3 <= |s| {
        assert s[n..][0] == s[n];
        assert c[n] == UpperChar(s[n]);
      }
    }
  }

  /** An index code of a registered product, in any case and with any
      surrounding blanks, becomes the product's full code. */
  lemma NormalizeIndexCode(reg: Registry, symbol: string, product: string)
    requires Canonical(symbol) == product + "99"
    requires 1 <= |product| <= 3 && AllUpper(product)
    requires IsValidSymbol(reg, product)
    requires Truthy(GetFullCode(reg, product))
    ensures NormalizeSymbol(reg, symbol) == Ok(GetFullCode(reg, product).value)
  {
    StripOfUpper(symbol);
    IndexCodeUndated(Strip(symbol), product);
    NormalizeUndated(reg, symbol);
    ParseIndexCode(reg, symbol, product);
    ResolveParsed(reg, symbol, product);
  }

  /** A code of letters only has no dot and not the dated shape. */
  lemma LettersUndated(s: string)
    requires AllLetters(s)
    ensures AllUpper(Upper(s))
    ensures '.' !in Upper(s)
    ensures SplitMonth(s).None?
  {
    var c := Upper(s);
    forall i | 0 <= i < |c| ensures IsUpper(c[i]) {
      assert IsLetter(s[i]);
    }
    forall n ensures !LettersThenMonth(s, n) {
      if 1 <= n && n + 3 <= |s| {
        assert s[n..][0] == s[n];
      }
    }
  }

  /** A code of letters only is rejected by the parser, and its guessed
      product is itself. */
  lemma BareProductShape(reg: Registry, symbol: string)
    requires AllLetters(Strip(symbol))
    ensures '.' !in Canonical(symbol)
    ensures SplitMonth(Strip(symbol)).None?
    ensures ParseFuturesCode(reg, symbol).0.None?
    ensures FallbackBase(Canonical(symbol)) == Canonical(symbol)
  {
    StripOfUpper(symbol);
    LettersUndated(Strip(symbol));
    BareShapeless(Canonical(symbol));
    ParseRejectsShapeless(reg, symbol);
    BareNoDigitSuffix(Canonical(symbol));
  }

  lemma BareShapeless(c: string)
    requires AllUpper(c)
    ensures IndexPrefix(c).None? && DatedPrefix(c).None?
  {
    if |c| >= 3 {
      assert c[|c| - 2..][0] == c[|c| - 2];
    }
    if |c| >= 5 {
      assert c[|c| - 4..][0] == c[|c| - 4];
    }
  }

  lemma BareNoDigitSuffix(c: string)
    requires AllUpper(c)
    ensures FallbackBase(c) == c
  {
    if |c| >= 2 {
      assert c[|c| - 2..][0] == c[|c| - 2];
    }
    if |c| >= 4 {
      assert c[|c| - 4..][0] == c[|c| - 4];
    }
  }

  /** A bare product code, which the parser rejects, is still coerced to
      the product's full code by the fallback. */
  lemma NormalizeBareProduct(reg: Registry, symbol: string)
    requires AllLetters(Strip(symbol))
    requires Truthy(GetFullCode(reg, Canonical(symbol)))
    ensures NormalizeSymbol(reg, symbol) == Ok(GetFullCode(reg, Canonical(symbol)).value)
  {
    BareProductShape(reg, symbol);
    NormalizeUndated(reg, symbol);
    ResolveRejected(reg, symbol);
  }

  /* ------------------------------------------------------------- examples */

  /** Copper's index code, in any case, becomes "KQ.i@SHFE.cu". */
  lemma NormalizeCopperIndex(symbol: string)
    requires Canonical(symbol) == "CU99"
    ensures NormalizeSymbol(StaticRegistry(), symbol) == Ok("KQ.i@SHFE.cu")
  {
    StaticCopper();
    CopperIndexShape();
    NormalizeIndexCode(StaticRegistry(), symbol, "CU");
  }

  /** A bare "cu" becomes copper's full code as well. */
  lemma NormalizeBareCopper(symbol: string)
    requires Strip(symbol) == "cu"
    ensures NormalizeSymbol(StaticRegistry(), symbol) == Ok("KQ.i@SHFE.cu")
  {
    StripOfUpper(symbol);
    BareCopperUpper();
    StaticCopper();
    NormalizeBareProduct(StaticRegistry(), symbol);
  }

  lemma BareCopperUpper()
    ensures Upper("cu") == "CU" && AllLetters("cu")
  {
  }

  /** "cu2509" raises: copper's static index code "CU99" has no dot. */
  lemma NormalizeCopperMonthRaises(symbol: string)
    requires Strip(symbol) == "cu2509"
    ensures NormalizeSymbol(StaticRegistry(), symbol) == Err(IndexError)
  {
    CopperMonthShape();
    StaticCopper();
    BareCopperUpper();
    LookupsIgnoreCase(StaticRegistry(), "cu");
    StaticDatedCodesRaise(symbol, "cu", "2509");
  }

  lemma CopperMonthShape()
    ensures "cu2509" == "cu" + "2509" && AllDigits("2509")
  {
  }

  /* ----------------------------------------------------------- underlying */

  /** `_extract_underlying`: dot-separated part 1 of the normalised code
      with every "99" removed, or the upper-cased input when the normalised
      code has no dot. */
  function ExtractUnderlying(reg: Registry, symbol: string): (r: Result<string, Raised>)
    ensures r.Err? <==> NormalizeSymbol(reg, symbol).Err?
    ensures r.Ok? && '.' !in NormalizeSymbol(reg, symbol).value ==> r.value == Upper(symbol)
  {
    match NormalizeSymbol(reg, symbol)
    case Err(e) => Err(e)
    case Ok(normalized) =>
      if '.' in normalized then Ok(ReplaceAll(Split(normalized, '.')[1], "99", ""))
      else Ok(Upper(symbol))
  }

  /** When the normalised code is `first.rest`, the underlying is the part
      of `rest` before any further dot, with every "99" removed. */
  lemma ExtractOfNormalized(reg: Registry, symbol: string, first: string, rest: string)
    requires NormalizeSymbol(reg, symbol) == Ok(first + ['.'] + rest)
    requires '.' !in first
    ensures ExtractUnderlying(reg, symbol) == Ok(ReplaceAll(Split(rest, '.')[0], "99", ""))
  {
    SplitFirst(first, rest, '.');
    assert (first + ['.'] + rest)[|first|] == '.';
  }

  /** "SHFE.AL99", in any case, is passed through and its part 1 loses the
      "99". */
  lemma ExtractExchangeQualified(reg: Registry, symbol: string)
    requires Strip(symbol) == "SHFE.AL99"
    ensures ExtractUnderlying(reg, symbol) == Ok("AL")
  {
    QualifiedAluminiumParts();
    NormalizeDotted(reg, symbol);
    ExtractOfNormalized(reg, symbol, "SHFE", "AL99");
    SplitNoSep("AL99", '.');
    AluminiumNines();
  }

  lemma QualifiedAluminiumParts()
    ensures "SHFE.AL99" == "SHFE" + ['.'] + "AL99"
    ensures '.' !in "SHFE" && '.' !in "AL99"
    ensures '.' in "SHFE.AL99"
  {
    assert "SHFE.AL99"[4] == '.';
  }

  lemma AluminiumNines()
    ensures ReplaceAll("AL99", "99", "") == "AL"
  {
    assert "AL99"[0] != "99"[0];
    assert "L99"[0] != "99"[0];
  }

  /** Copper's index code normalises to "KQ.i@SHFE.cu", whose part 1 is
      "i@SHFE": the extracted underlying is not a product code. */
  lemma ExtractCopperIndex(symbol: string)
    requires Canonical(symbol) == "CU99"
    ensures ExtractUnderlying(StaticRegistry(), symbol) == Ok("i@SHFE")
  {
    NormalizeCopperIndex(symbol);
    CopperFullCodeParts();
    ExtractOfNormalized(StaticRegistry(), symbol, "KQ", "i@SHFE" + ['.'] + "cu");
    SplitFirst("i@SHFE", "cu", '.');
    NoNineNoNines("i@SHFE");
  }

  lemma CopperFullCodeParts()
    ensures "KQ.i@SHFE.cu" == "KQ" + ['.'] + ("i@SHFE" + ['.'] + "cu")
    ensures '.' !in "KQ" && '.' !in "i@SHFE" && '9' !in "i@SHFE"
  {
  }

  /* ------------------------------------------------------------ recognise */

  /** `is_futures_symbol`: whether the extracted underlying is one of
      `futures_names`. Every exception, the missing attribute included,
      gives `False`. */
  function IsFuturesSymbol(a: Adapter, symbol: string): (b: bool)
    ensures b ==> a.futuresNames.Some? && ExtractUnderlying(a.registry, symbol).Ok?
    ensures b ==> ExtractUnderlying(a.registry, symbol).value in a.futuresNames.value
  {
    match ExtractUnderlying(a.registry, symbol)
    case Err(_) => false
    case Ok(underlying) =>
      match a.futuresNames
      case None => false
      case Some(names) => underlying in names
  }

  /** The adapter never assigns `futures_names`, so it recognises nothing. */
  lemma NothingIsAFuturesSymbol(reg: Registry, symbol: string)
    ensures !IsFuturesSymbol(NewAdapter(reg), symbol)
  {
  }
}
