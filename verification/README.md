# Futures core of TradingAgents-CN, in Dafny

This project models the futures layer of TradingAgents-CN and proves
properties of the model. The layer is made of six parts:

- **Contract manager** (`FuturesContractManager`). It holds the static
  reference table of Chinese futures products: 52 products on SHFE, DCE,
  CZCE, CFFEX, INE and GFEX. From the table it builds four lookup
  dictionaries. It parses index codes (`CU99`) and dated contract codes
  (`CU2403`), validates user input, and filters and searches the table.
- **Product-name helper** (`future_helper.py`). A fixed table maps product
  codes to Chinese names, with its reverse. It also extracts a product
  code from a contract symbol.
- **Data-service adapter** (`TqSdkFuturesAdapter`). It turns what a user
  typed into the code sent to the data service (`_normalize_symbol`) and
  extracts the product from it. It also decides whether a code is a
  futures symbol.
- **Margin calculator** (`MarginCalculator`). It holds per-product
  exchange margin rates and contract multipliers and a broker surcharge.
  For a position it computes value, required margin and leverage. It also
  gives portfolio totals, available margin, unrealized profit and loss,
  dynamic equity, and the two setters.
- **Risk manager** (`FuturesRiskManager`). It holds risk limits, three
  risk tiers and seven sectors. It checks one position against the
  balance and the book, checks the whole portfolio, and sizes a new
  position for a risk tolerance.
- **Futures/stock correlation table** (`FuturesStockCorrelation`). It
  parses a market-data page into futures records and a stock-to-futures
  map, then answers lookups in both directions.

Modelling conventions:

- Python `Decimal` values are exact `real`s. `int(x)` truncates toward
  zero (`Decimals.Trunc`).
- Python dicts are insertion-ordered `Dicts.Dict` values, so iteration
  order is kept.
- `str.upper`/`lower` and `\d` are ASCII. `strip` removes Python's
  whitespace set.
- A regular expression's `$` also matches before one final newline
  (`Strings.Chomp`).
- Exceptions the modelled code can raise are `Err` results:
  - `IndexError` from `split('.')[1]` in the adapter;
  - `decimal.InvalidOperation` for `0/0` in the profit calculation.
- Object state (the registry, the calculator, the limits, the correlation
  table) is an immutable value, and a setter returns the new value.
- The clock and the network are parameters:
  - the correlation cache's age is `elapsed`;
  - the outcome of a re-fetch is `fetched`;
  - the freshness answer the queries depend on is `upToDate`.

In six places the code does something other than what its own comments,
names or tests lead one to expect. The model follows the code:

- **Severity label.** Both risk checks assign `overall_risk` after each
  test that fires (`futures_risk_manager.py`, lines 141-188 and 267-295),
  so a later `'medium'` overwrites an earlier `'high'`. The label is the
  label of the last test that fired, not the most severe one.
  `RiskManager.LabelOfLastCheck`, `RiskManager.PortfolioLabelOfLastCheck`
  and `RiskManager.ShortfallThenConcentrationIsMedium` state this.
- **Code parser.** `tests/test_futures_contract_parsing.py`, lines 29-33,
  expects data-service codes such as `KQ.i@SHFE.cu` to parse to their
  product. `parse_futures_code` accepts only `^[A-Z]{1,3}99$` and
  `^[A-Z]{1,3}\d{4}$`, so they are rejected
  (`ContractRegistry.RejectsContinuousCode`).
- **Dated codes in the adapter.** The comment at
  `tqsdk_futures_adapter.py`, line 122, expects index codes shaped like
  `KQ.i@SHFE.cu`. The static index codes (`CU99`) have no dot, so
  `split('.')[1]` raises `IndexError` for every listed product
  (`TqSdkAdapter.StaticDatedCodesRaise`).
- **Product of a dated code in the calculator and risk manager.** Their
  `_extract_underlying` tests two final digits before four
  (`margin_calculator.py`, lines 133-136), so the four-digit branch is
  never reached for a code ending in digits. `CU2403` is priced and
  classified under `CU24`, which no table holds
  (`Underlying.DatedCopperKeepsYear`,
  `MarginCalculator.DatedCopperPricedAtDefaults`,
  `RiskClassification.DatedCopperUnclassified`).
- **Cache lifetime.** The correlation cache's lifetime is `360000` seconds
  (100 hours); the comment on that line
  (`futures_stock_correlation.py`, line 43) says one hour.
- **Return type.** `get_futures_product` is annotated `-> dict` but
  returns a string. The model returns a string.

## Model

Source paths are relative to the repository root.

| member | source | states |
|---|---|---|
| ContractTable.StaticTableWellFormed | tradingagents/dataflows/futures_contract_manager.py:60-189 | every product of the reference table is one to three upper-case letters, its index code is the product followed by "99", its multiplier is positive and its margin rate lies in (0, 1] |
| ContractRegistry.Register | tradingagents/dataflows/futures_contract_manager.py:192-196 | one turn of the registration loop keeps the four dictionaries consistent with each other and registers exactly the earlier products plus the contract's own |
| ContractRegistry.RegisterKeepsValid | tradingagents/dataflows/futures_contract_manager.py:192-196 | the four dictionary writes of one loop turn keep the product dictionaries on the same keys, each contract under its own product, and the index and full-code dictionaries in agreement with it |
| ContractRegistry.Build | tradingagents/dataflows/futures_contract_manager.py:189-196 | after the loop over a table, a product is registered exactly when some entry of the table carries it, the registry is consistent, and the registered products and index codes are the table's, each where it first appears in the table |
| ContractRegistry.BuildFiles | tradingagents/dataflows/futures_contract_manager.py:189-196 | when no product repeats, every entry of the table is the contract filed under its product, so no registration is lost |
| ContractRegistry.Symbols | tradingagents/dataflows/futures_contract_manager.py:189 | the products of a table in table order, one per entry |
| ContractRegistry.LookupsIgnoreCase | tradingagents/dataflows/futures_contract_manager.py:198-220 | every lookup and validity test gives the same answer for a code and its upper-case form; a product is valid exactly when it has a contract, an index code and a full code, and its contract carries the upper-cased product |
| ContractRegistry.SuffixInjective | tradingagents/dataflows/futures_contract_manager.py:194-195 | two different products followed by the same suffix give different codes, so index codes never collide |
| ContractRegistry.SuffixMapsUpdate | tradingagents/dataflows/futures_contract_manager.py:194-195 | writing a product and its index code into the two index dictionaries keeps them inverse to each other |
| ContractRegistry.RegisterSuffixIndexed | tradingagents/dataflows/futures_contract_manager.py:192-196 | registering a contract whose index code is its product followed by "99" keeps the index dictionaries inverse |
| ContractRegistry.BuildSuffixIndexed | tradingagents/dataflows/futures_contract_manager.py:189-196 | a table whose index codes are the products followed by "99" yields inverse index dictionaries |
| ContractRegistry.IndexCodeRoundTrip | tradingagents/dataflows/futures_contract_manager.py:202-208 | for a registered product, `get_index_code` gives the product followed by "99" and `get_symbol_from_index` of that code gives the product back |
| ContractRegistry.IndexPrefix | tradingagents/dataflows/futures_contract_manager.py:230-234 | the index pattern matches exactly the codes that are one to three upper-case letters followed by "99", and captures those letters |
| ContractRegistry.DatedPrefix | tradingagents/dataflows/futures_contract_manager.py:237-241 | the dated pattern matches exactly the codes that are one to three upper-case letters followed by four digits, and captures those letters |
| ContractRegistry.Canonical | tradingagents/dataflows/futures_contract_manager.py:227 | the code the parser sees is empty exactly when the input is blank |
| ContractRegistry.ParseFuturesCode | tradingagents/dataflows/futures_contract_manager.py:222-243 | a parsed product is always a registered one; the index flag is set only for an index-code match, and a dated result comes from the dated pattern |
| ContractRegistry.ParseCanonicalCode | tradingagents/dataflows/futures_contract_manager.py:229-243 | the two pattern tests in order, on the upper-cased and stripped code, return only registered products |
| ContractRegistry.ParsedShape | tradingagents/dataflows/futures_contract_manager.py:222-243 | a successful parse returns a product of one to three upper-case letters, and the code is that product followed by "99" (index) or by four digits (dated) |
| ContractRegistry.IndexCodeShape | tradingagents/dataflows/futures_contract_manager.py:230 | a product of one to three upper-case letters followed by "99" matches the index pattern with that product |
| ContractRegistry.DatedCodeShape | tradingagents/dataflows/futures_contract_manager.py:230-237 | a product followed by four digits misses the index pattern and matches the dated one with that product |
| ContractRegistry.ParseIndexCode | tradingagents/dataflows/futures_contract_manager.py:227-234 | a registered product followed by "99", in any case and with surrounding blanks, parses as `(product, True)` |
| ContractRegistry.ParseDatedCode | tradingagents/dataflows/futures_contract_manager.py:227-241 | a registered product followed by four digits, in any case and with surrounding blanks, parses as `(product, False)` |
| ContractRegistry.CanonicalOfTrimmed | tradingagents/dataflows/futures_contract_manager.py:227 | a code without surrounding whitespace is only upper-cased |
| ContractRegistry.CanonicalIsSelf | tradingagents/dataflows/futures_contract_manager.py:227 | an upper-case code without surrounding whitespace is left as it is |
| ContractRegistry.CanonicalIdempotent | tradingagents/dataflows/futures_contract_manager.py:227 | upper-casing and stripping twice is the same as doing it once |
| ContractRegistry.ParseCanonical | tradingagents/dataflows/futures_contract_manager.py:222-243 | parsing the upper-cased, stripped code gives the same result as parsing the input |
| ContractRegistry.ParseRejectsShapeless | tradingagents/dataflows/futures_contract_manager.py:243 | a code of neither shape parses to `(None, False)` whatever the registry holds |
| ContractRegistry.RejectsBlank | tradingagents/dataflows/futures_contract_manager.py:227-228 | a blank code parses to `(None, False)` |
| ContractRegistry.RejectsBareProduct | tests/test_futures_contract_manager.py:74-82 | a bare product without a month (`CU`), in any case, is rejected |
| ContractRegistry.RejectsWord | tests/test_futures_contract_manager.py:33-42 | `INVALID`, in any case, is rejected |
| ContractRegistry.RejectsOverlong | tests/test_futures_contract_manager.py:74-82 | `TOOLONG99`, whose product is too long for either pattern, is rejected |
| ContractRegistry.RejectsDigitsOnly | tests/test_futures_contract_manager.py:74-82 | `123`, digits without a product, is rejected |
| ContractRegistry.RejectsThreeDigits | tradingagents/dataflows/futures_contract_manager.py:230-241 | a product followed by three digits (`CU999`) fits neither pattern and is rejected |
| ContractRegistry.RejectsExchangeQualified | tradingagents/dataflows/futures_contract_manager.py:230-243 | an exchange-qualified code (`SHFE.CU99`) is rejected |
| ContractRegistry.RejectsContinuousCode | tradingagents/dataflows/futures_contract_manager.py:230-243 | a data-service continuous code (`KQ.i@SHFE.cu`) is rejected, although it is copper's own full code |
| ContractRegistry.ValidateFuturesInput | tradingagents/dataflows/futures_contract_manager.py:296-312 | blank input gives the empty-code message; an unparsable code gives the format message; input is accepted exactly when it parses, and then carries the contract of the parsed product; the unsupported-product message is never produced |
| ContractRegistry.ValidateWord | tests/test_futures_contract_manager.py:33-42 | validating `INVALID`, in any case, reports the format error with no contract |
| ContractRegistry.ListContracts | tradingagents/dataflows/futures_contract_manager.py:245-253 | the contracts the listing comprehensions iterate over: every registered contract once, in registration order |
| ContractRegistry.ContractsByExchange | tradingagents/dataflows/futures_contract_manager.py:245-248 | exactly the registered contracts of the exchange, each once, in registration order |
| ContractRegistry.ContractsByCategory | tradingagents/dataflows/futures_contract_manager.py:250-253 | exactly the registered contracts of the category, each once, in registration order |
| ContractRegistry.ListingsPartition | tradingagents/dataflows/futures_contract_manager.py:245-253 | every registered contract is listed under exactly one exchange and exactly one category |
| ContractRegistry.SearchContracts | tradingagents/dataflows/futures_contract_manager.py:255-266 | exactly the registered contracts whose lower-cased product, name or index code contains the lower-cased keyword, each once, in registration order |
| ContractRegistry.SearchIgnoresCase | tradingagents/dataflows/futures_contract_manager.py:257 | the search result does not depend on the keyword's letter case |
| ContractRegistry.SearchEmptyFindsAll | tradingagents/dataflows/futures_contract_manager.py:255-266 | an empty keyword finds every contract, in registration order |
| ContractRegistry.SearchFindsOwnCodes | tradingagents/dataflows/futures_contract_manager.py:255-266 | every contract is found by its own product or index code, in any case |
| ContractRegistry.AllSymbols | tradingagents/dataflows/futures_contract_manager.py:268-270 | every registered product, once, in registration order: the product of the i-th listed contract is the i-th symbol |
| ContractRegistry.AllIndexCodes | tradingagents/dataflows/futures_contract_manager.py:272-274 | every registered index code, once, and each leads back to a registered product |
| ContractRegistry.ListedInTableOrder | tradingagents/dataflows/futures_contract_manager.py:189-196 | when no product repeats, the registered contracts listed in registration order are the table itself |
| ReferenceRegistry.StaticRegistry | tradingagents/dataflows/futures_contract_manager.py:47-55 | the manager built from the reference table is consistent |
| ReferenceRegistry.ProductListListed | tradingagents/dataflows/futures_contract_manager.py:189 | the products of the six exchange lists joined in order are the 52 products of the table |
| ReferenceRegistry.ProductDistinct | tradingagents/dataflows/futures_contract_manager.py:60-189 | no product appears twice in the reference table |
| ReferenceRegistry.StaticFiles | tradingagents/dataflows/futures_contract_manager.py:189-196 | every entry of the reference table is the contract the manager files under its product |
| ReferenceRegistry.StaticOrder | tradingagents/dataflows/futures_contract_manager.py:268-274 | for the reference table, `list_contracts` gives the table rows in order, `get_all_symbols` their products and `get_all_index_codes` their index codes, in the same order |
| ReferenceRegistry.StaticSuffixCoded | tradingagents/dataflows/futures_contract_manager.py:60-189 | every index code of the reference table is its product followed by "99" |
| ReferenceRegistry.StaticRegistrySuffixIndexed | tradingagents/dataflows/futures_contract_manager.py:189-196 | the manager's two index dictionaries are inverse to each other |
| ReferenceRegistry.StaticIndexCodeRoundTrip | tradingagents/dataflows/futures_contract_manager.py:202-208 | every registered product survives the round trip through its index code |
| ReferenceRegistry.CopperAndRebarRows | tradingagents/dataflows/futures_contract_manager.py:62-79 | the table's first row is copper with index code `CU99` and full code `KQ.i@SHFE.cu`; its ninth is rebar with full code `SHFE.RB99` |
| ReferenceRegistry.StaticCopper | tradingagents/dataflows/futures_contract_manager.py:198-216 | copper is valid and its contract, index code `CU99` and full code `KQ.i@SHFE.cu` are found |
| ReferenceRegistry.StaticRebar | tradingagents/dataflows/futures_contract_manager.py:198-216 | rebar is valid and its contract and full code `SHFE.RB99` are found |
| ReferenceRegistry.CopperIndexParses | tradingagents/dataflows/futures_contract_manager.py:222-234 | any spelling of `CU99` parses to copper's index |
| ReferenceRegistry.ParseLowerCaseIndex | tradingagents/dataflows/futures_contract_manager.py:222-234 | `parse_futures_code("cu99")` is `("CU", True)` |
| ReferenceRegistry.ParseDatedRebar | tradingagents/dataflows/futures_contract_manager.py:222-241 | `parse_futures_code("RB2403")` is `("RB", False)` |
| ReferenceRegistry.ValidateDatedRebar | tradingagents/dataflows/futures_contract_manager.py:296-312 | `validate_futures_input("RB2403")` accepts the code with rebar's contract and an empty message |
| FutureHelper.MapOf | tradingagents/utils/future_helper.py:5-31 | a dict built from pairs has exactly the pairs' keys, and every entry is one of the pairs |
| FutureHelper.MapOfDistinct | tradingagents/utils/future_helper.py:5-31 | with distinct keys every key maps to its own value |
| FutureHelper.SwappedKeys | tradingagents/utils/future_helper.py:31 | the keys of the reverse mapping are the names of the forward mapping |
| FutureHelper.TableKeysDistinct | tradingagents/utils/future_helper.py:5-28 | no product code repeats in the name table |
| FutureHelper.TableKeysShape | tradingagents/utils/future_helper.py:5-28 | every product code of the name table is one or two upper-case letters |
| FutureHelper.TableNamesNotFallback | tradingagents/utils/future_helper.py:5-28 | no table name starts with "期", the first character of every made-up name |
| FutureHelper.NameDistinct | tradingagents/utils/future_helper.py:5-31 | no name repeats, so the reverse mapping loses no product |
| FutureHelper.LettersThenDigitsUnique | tradingagents/utils/future_helper.py:39-40 | a code splits into letters and digits at only one point |
| FutureHelper.SplitFrom | tradingagents/utils/future_helper.py:39-42 | the split search succeeds exactly when some split at or after the start point fits, and returns the letters before it |
| FutureHelper.LettersBeforeMonth | tradingagents/utils/future_helper.py:39-42 | the pattern matches exactly the codes that are one to four upper-case letters then three or four digits (before one optional final newline), and captures the letters |
| FutureHelper.GetFuturesProduct | tradingagents/utils/future_helper.py:34-43 | the product is always an upper-case prefix of the upper-cased symbol: the symbol without its final "99" when it has one; otherwise the letters of a letters-then-digits code; otherwise the whole upper-cased symbol |
| FutureHelper.ProductOfIndexCode | tradingagents/utils/future_helper.py:36-38 | an index code gives what precedes its final "99" |
| FutureHelper.ProductOfDatedCode | tradingagents/utils/future_helper.py:39-42 | a dated code not ending in "99" gives its letters |
| FutureHelper.ProductOfLetters | tradingagents/utils/future_helper.py:34-43 | a code of letters only is returned upper-cased |
| FutureHelper.ProductKeepsExchangePrefix | tradingagents/utils/future_helper.py:34-43 | an exchange-prefixed code such as `SHFE.cu` matches neither pattern and comes back whole, upper-cased |
| FutureHelper.ProductIgnoresCase | tradingagents/utils/future_helper.py:36 | the product does not depend on the symbol's letter case |
| FutureHelper.ProductExampleIndex | tradingagents/utils/future_helper.py:36-38 | `fg99` gives `FG` |
| FutureHelper.ProductExampleTripleNine | tradingagents/utils/future_helper.py:37-38 | `CU999` gives `CU9`: the "99" rule comes before the dated pattern |
| FutureHelper.ProductExampleDated | tradingagents/utils/future_helper.py:39-42 | `TA601` gives `TA` |
| FutureHelper.GetFuturesName | tradingagents/utils/future_helper.py:46-52 | the table's name for the symbol's product, or "期货" followed by the product when the table has none |
| FutureHelper.GetFuturesCode | tradingagents/utils/future_helper.py:55-65 | a code is found exactly for a table name, and it is the product carrying that name; otherwise "" |
| FutureHelper.NameCodeRoundTrip | tradingagents/utils/future_helper.py:46-65 | looking up a product's name and then that name's code gives the product back |
| FutureHelper.CodeNameRoundTrip | tradingagents/utils/future_helper.py:46-65 | looking up a name's code and then that code's name gives the name back |
| FutureHelper.FallbackNameHasNoCode | tradingagents/utils/future_helper.py:46-65 | the made-up name of an unknown product has no code |
| TqSdkAdapter.NewAdapter | tradingagents/dataflows/tqsdk_futures_adapter.py:28-39 | a fresh adapter holds the shared contract manager and no `futures_names` |
| TqSdkAdapter.LettersThenMonthUnique | tradingagents/dataflows/tqsdk_futures_adapter.py:113 | a code splits into letters and digits at only one point |
| TqSdkAdapter.SplitMonth | tradingagents/dataflows/tqsdk_futures_adapter.py:113-116 | the dated pattern matches exactly the letters-then-three-or-four-digits codes, and splits them into letters and month |
| TqSdkAdapter.MonthSplitPoints | tradingagents/dataflows/tqsdk_futures_adapter.py:113 | the split leaves three or four digits |
| TqSdkAdapter.SplitMonthOf | tradingagents/dataflows/tqsdk_futures_adapter.py:113-116 | letters followed by three or four digits split into exactly those letters and digits |
| TqSdkAdapter.IndexCodeParts | tradingagents/dataflows/tqsdk_futures_adapter.py:122-127 | an index code without a dot raises `IndexError`; otherwise exchange and product are dot-free parts |
| TqSdkAdapter.FallbackBase | tradingagents/dataflows/tqsdk_futures_adapter.py:143-150 | the guessed product is never longer than the code |
| TqSdkAdapter.FallbackNeverDropsFour | tradingagents/dataflows/tqsdk_futures_adapter.py:143-150 | the guess is the code or the code without its last two characters: the four-digit branch is never taken |
| TqSdkAdapter.Resolve | tradingagents/dataflows/tqsdk_futures_adapter.py:135-159 | an undated code resolves to a full code of the registry or to the trimmed input |
| TqSdkAdapter.DatedCode | tradingagents/dataflows/tqsdk_futures_adapter.py:116-132 | a dated code is built exactly when the product has an index code, and it ends with the caller's month digits |
| TqSdkAdapter.NormalizeSymbol | tradingagents/dataflows/tqsdk_futures_adapter.py:94-159 | the result is the trimmed input, a full code of the registry, or a code ending in the caller's month digits; the only failure is on a dated code |
| TqSdkAdapter.NormalizeDotted | tradingagents/dataflows/tqsdk_futures_adapter.py:104-109 | a code with a dot is returned trimmed, in the caller's case |
| TqSdkAdapter.NormalizeUndated | tradingagents/dataflows/tqsdk_futures_adapter.py:134-159 | a code without a dot and not dated is resolved from its upper-cased, trimmed form |
| TqSdkAdapter.ResolveParsed | tradingagents/dataflows/tqsdk_futures_adapter.py:135-140 | a code the parser accepts resolves to its product's full code |
| TqSdkAdapter.ResolveRejected | tradingagents/dataflows/tqsdk_futures_adapter.py:142-155 | a code the parser rejects resolves to the full code of the guessed product |
| TqSdkAdapter.NormalizeDated | tradingagents/dataflows/tqsdk_futures_adapter.py:113-132 | a dated code whose product has an index code is normalised to the code built from that index code |
| TqSdkAdapter.NormalizeDatedCode | tradingagents/dataflows/tqsdk_futures_adapter.py:122-132 | a dated code whose index code has exchange and product parts becomes `exchange.product` followed by the caller's digits |
| TqSdkAdapter.NormalizeDatedCodeRaises | tradingagents/dataflows/tqsdk_futures_adapter.py:126-127 | a dated code whose index code has no dot raises `IndexError` |
| TqSdkAdapter.NormalizeDatedUnlisted | tradingagents/dataflows/tqsdk_futures_adapter.py:113-159 | a dated code whose product has no index code falls through to the lookup of the whole upper-cased code |
| TqSdkAdapter.StaticDatedCodesRaise | tradingagents/dataflows/tqsdk_futures_adapter.py:119-127 | with the reference table every dated code of a registered product raises, because its index code is the product followed by "99" |
| TqSdkAdapter.NormalizeIndexCode | tradingagents/dataflows/tqsdk_futures_adapter.py:135-140 | a registered index code, in any case, becomes its product's full code |
| TqSdkAdapter.BareProductShape | tradingagents/dataflows/tqsdk_futures_adapter.py:135-150 | a letters-only code is neither dotted nor dated, the parser rejects it, and the guess keeps it whole |
| TqSdkAdapter.NormalizeBareProduct | tradingagents/dataflows/tqsdk_futures_adapter.py:142-155 | a bare product, which the parser rejects, still becomes the product's full code |
| TqSdkAdapter.NormalizeCopperIndex | tradingagents/dataflows/tqsdk_futures_adapter.py:135-140 | `cu99` in any case becomes `KQ.i@SHFE.cu` |
| TqSdkAdapter.NormalizeBareCopper | tradingagents/dataflows/tqsdk_futures_adapter.py:142-155 | `cu` becomes `KQ.i@SHFE.cu` |
| TqSdkAdapter.NormalizeCopperMonthRaises | tradingagents/dataflows/tqsdk_futures_adapter.py:113-127 | `cu2509` raises `IndexError` |
| TqSdkAdapter.ExtractUnderlying | tradingagents/dataflows/tqsdk_futures_adapter.py:170-175 | it fails exactly when normalising fails, and a dot-free normalised code gives the upper-cased input |
| TqSdkAdapter.ExtractOfNormalized | tradingagents/dataflows/tqsdk_futures_adapter.py:172-174 | for a normalised code `first.rest`, the underlying is `rest` up to any further dot, with every "99" removed |
| TqSdkAdapter.ExtractExchangeQualified | tradingagents/dataflows/tqsdk_futures_adapter.py:170-175 | `SHFE.AL99` gives `AL` |
| TqSdkAdapter.ExtractCopperIndex | tradingagents/dataflows/tqsdk_futures_adapter.py:170-175 | `CU99` gives `i@SHFE`, not a product code |
| TqSdkAdapter.IsFuturesSymbol | tradingagents/dataflows/tqsdk_futures_adapter.py:556-570 | `True` only when the names attribute exists, the underlying can be extracted, and the names hold it |
| TqSdkAdapter.NothingIsAFuturesSymbol | tradingagents/dataflows/tqsdk_futures_adapter.py:556-570 | the adapter never sets `futures_names`, so no code is recognised |
| Underlying.UnderlyingCases | tradingagents/risk/margin_calculator.py:128-139 | a symbol with two final digits (or "99") loses two characters; another dotted symbol gives segment 1 without "99"; any other gives the upper-cased symbol; four digits are never cut |
| Underlying.UnderlyingOfIndexCode | tradingagents/risk/margin_calculator.py:131-132 | `<p>99` is priced as `p` |
| Underlying.UnderlyingOfTwoDigits | tradingagents/risk/margin_calculator.py:133-134 | a symbol ending in two digits loses exactly those |
| Underlying.DatedCopperKeepsYear | tradingagents/risk/margin_calculator.py:128-139 | `CU2403` gives `CU24` |
| Underlying.QualifiedIndexKeepsExchange | tradingagents/risk/margin_calculator.py:128-139 | `SHFE.CU99` gives `SHFE.CU` |
| Underlying.UnderlyingOfLetters | tradingagents/risk/futures_risk_manager.py:76-87 | a letters-only symbol is its own underlying, upper-cased |
| Underlying.UnderlyingOfQualified | tradingagents/risk/margin_calculator.py:137-138 | `exchange.product` in letters gives the product |
| MarginCalculator.TableRate | tradingagents/risk/margin_calculator.py:27-92 | a rate found in the initial table lies in (0, 0.12], and no code longer than two characters has one |
| MarginCalculator.TableMultiplier | tradingagents/risk/margin_calculator.py:95-115 | a multiplier found lies in [1, 20000], and no code longer than two characters has one |
| MarginCalculator.NewCalculator | tradingagents/risk/margin_calculator.py:23-118 | a fresh calculator has no custom rates and a broker multiplier of 1.2 |
| MarginCalculator.GetContractMultiplier | tradingagents/risk/margin_calculator.py:158-172 | the multiplier is always positive |
| MarginCalculator.UnknownProductDefaults | tradingagents/risk/margin_calculator.py:141-172 | a product in neither table and without a custom rate is priced at 0.10 times the broker multiplier, with multiplier 10 |
| MarginCalculator.DatedCopperPricedAtDefaults | tradingagents/risk/margin_calculator.py:128-172 | `CU2403` is priced at rate 0.12 and multiplier 10, not copper's 0.096 and 5 |
| MarginCalculator.CalculatePositionMargin | tradingagents/risk/margin_calculator.py:174-220 | the record carries the symbol's extracted underlying, rate and positive multiplier, and the caller's price, volume and side |
| MarginCalculator.LeverageInvertsRate | tradingagents/risk/margin_calculator.py:193-199 | at a positive rate the leverage is its inverse, and margin times leverage gives back the position value |
| MarginCalculator.NoLeverageWithoutRate | tradingagents/risk/margin_calculator.py:199 | a rate that is not positive reports leverage 0 |
| MarginCalculator.SameSymbolSameTerms | tradingagents/risk/margin_calculator.py:174-220 | two positions in one symbol share underlying, rate, multiplier and leverage |
| MarginCalculator.MarginLinearInVolume | tradingagents/risk/margin_calculator.py:193-196 | v lots are worth, and need, v times one lot |
| MarginCalculator.MarginBounds | tradingagents/risk/margin_calculator.py:193-196 | at non-negative price and volume the value is non-negative, and at a rate in [0, 1] the margin lies between 0 and the value |
| MarginCalculator.CopperTableEntries | tradingagents/risk/margin_calculator.py:38-101 | copper's table rate is 0.08 and its multiplier 5 |
| MarginCalculator.CopperTerms | tradingagents/risk/margin_calculator.py:141-172 | copper is priced at 0.096 with multiplier 5 |
| MarginCalculator.CopperOneLot | tradingagents/risk/margin_calculator.py:174-220 | one lot of copper at 70000 is worth 350000 and needs 33600 |
| MarginCalculator.CalculatePortfolioMargin | tradingagents/risk/margin_calculator.py:222-267 | one detail per position in order; the totals are the sums over the positions; the average rate times the total value is the total margin, or 0 when the value is not positive |
| MarginCalculator.PortfolioOrderIrrelevant | tradingagents/risk/margin_calculator.py:233-250 | the totals do not depend on the order of the positions |
| MarginCalculator.PortfolioAppend | tradingagents/risk/margin_calculator.py:233-247 | joining two books adds their totals |
| MarginCalculator.PortfolioEmpty | tradingagents/risk/margin_calculator.py:222-267 | an empty book has all totals 0 |
| MarginCalculator.CalculateAvailableMargin | tradingagents/risk/margin_calculator.py:269-306 | the used margin is the book's total; the available margin is the rest of the balance, never below 0; the usage rate times the balance is the used margin, or 0 without a positive balance |
| MarginCalculator.AvailableWithoutPositions | tradingagents/risk/margin_calculator.py:269-306 | without positions the whole balance is available and nothing is in use |
| MarginCalculator.PnlOfMove | tradingagents/risk/margin_calculator.py:332-338 | the profit is the price move times volume and multiplier, signed by the side; the rate is the profit per unit of entry value |
| MarginCalculator.ShortIsOppositeOfLong | tradingagents/risk/margin_calculator.py:333-336 | every side other than `long` has the opposite profit of the long position |
| MarginCalculator.UnmovedIsFlat | tradingagents/risk/margin_calculator.py:329-338 | a position at its entry price has no profit and a zero rate |
| MarginCalculator.EntryValueZero | tradingagents/risk/margin_calculator.py:338 | at a positive entry price the entry value is 0 exactly when the volume is |
| MarginCalculator.PnlOf | tradingagents/risk/margin_calculator.py:323-349 | one position raises exactly when its entry price is positive and its volume is 0; otherwise it gets its record at `current_prices.get(symbol, entry)` |
| MarginCalculator.PnlRaises | tradingagents/risk/margin_calculator.py:338 | the exception is raised exactly when the rate would divide by a zero entry value |
| MarginCalculator.SideOnlyChangesSide | tradingagents/risk/margin_calculator.py:327-336 | changing only a position's side changes only its record's side |
| MarginCalculator.MissingPriceIsEntry | tradingagents/risk/margin_calculator.py:329 | a symbol without a current price is marked at its entry price |
| MarginCalculator.PnlsOf | tradingagents/risk/margin_calculator.py:323-352 | every position's record, in order; it fails exactly when some position raises |
| MarginCalculator.CalculateUnrealizedPnl | tradingagents/risk/margin_calculator.py:308-368 | the total is the sum of the per-position profits, and the profitable and losing counts are the positions with positive and negative profit |
| MarginCalculator.CountsPartitionBook | tradingagents/risk/margin_calculator.py:357-358 | profitable, losing and flat positions add up to the book |
| MarginCalculator.MarkedAtEntryIsFlat | tradingagents/risk/margin_calculator.py:329-355 | without current prices the total profit is 0 |
| MarginCalculator.UnmovedSumsToZero | tradingagents/risk/margin_calculator.py:351 | records all marked at entry sum to zero profit |
| MarginCalculator.CalculateDynamicEquity | tradingagents/risk/margin_calculator.py:370-408 | equity is balance plus the total unrealized profit, with the same per-position records, and it raises when the profit calculation does |
| MarginCalculator.EquityChangeIsShareOfBalance | tradingagents/risk/margin_calculator.py:388-391 | the change rate times the balance is the profit, or the rate is 0 without a positive balance |
| MarginCalculator.EquityWithoutPositions | tradingagents/risk/margin_calculator.py:370-408 | without positions the equity is the balance and its change rate 0 |
| MarginCalculator.SetBrokerMarginMultiplier | tradingagents/risk/margin_calculator.py:410-413 | only the broker multiplier changes |
| MarginCalculator.BrokerScalesEveryRate | tradingagents/risk/margin_calculator.py:410-413 | after the change every symbol's rate is its exchange rate times the new multiplier, and every multiplier is unchanged |
| MarginCalculator.SetCustomMarginRate | tradingagents/risk/margin_calculator.py:415-419 | the rate is stored under the symbol's extracted underlying; every other underlying keeps its rate |
| MarginCalculator.CustomRateOnlyItsUnderlying | tradingagents/risk/margin_calculator.py:415-419 | a custom rate reaches exactly the symbols with the same underlying |
| MarginCalculator.DatedCustomRateMissesProduct | tradingagents/risk/margin_calculator.py:415-419 | a rate set for `CU2403` does not reach plain copper |
| RiskClassification.ClassifyTier | tradingagents/risk/futures_risk_manager.py:89-97 | the tier lists the product, or the product is in no tier and gets `medium_risk` |
| RiskClassification.TiersDisjoint | tradingagents/risk/futures_risk_manager.py:47-63 | no product is in two tiers |
| RiskClassification.TierOfListed | tradingagents/risk/futures_risk_manager.py:89-97 | a listed product gets its tier whatever the scan order |
| RiskClassification.ClassifySector | tradingagents/risk/futures_risk_manager.py:99-107 | the sector lists the product, or the product is in no sector and gets `other` |
| RiskClassification.SectorOfListed | tradingagents/risk/futures_risk_manager.py:99-107 | a listed product gets its sector whatever the scan order |
| RiskClassification.SectorsDisjoint | tradingagents/risk/futures_risk_manager.py:65-74 | no product is in two sectors |
| RiskClassification.CopperClassified | tradingagents/risk/futures_risk_manager.py:89-107 | copper is a medium-risk base metal |
| RiskClassification.LongCodesUntiered | tradingagents/risk/futures_risk_manager.py:47-63 | a code longer than two characters is in no tier |
| RiskClassification.LongCodesUnsectored | tradingagents/risk/futures_risk_manager.py:65-74 | a code longer than two characters is in no sector |
| RiskClassification.DatedCopperUnclassified | tradingagents/risk/futures_risk_manager.py:76-107 | `CU2403` falls back to `medium_risk` and `other` |
| RiskClassification.ApplesClassified | tradingagents/risk/futures_risk_manager.py:47-74 | apples are high-risk and agricultural |
| RiskManager.SetRiskLimit | tradingagents/risk/futures_risk_manager.py:486-492 | a known limit takes the value, every other keeps its own, and an unknown name changes nothing |
| RiskManager.NewRiskManager | tradingagents/risk/futures_risk_manager.py:26-44 | the initial limits are 0.3, 0.5, 10, 0.05, 1.2, 1.0 and 100 lots |
| RiskManager.JudgePosition | tradingagents/risk/futures_risk_manager.py:144-196 | warnings are only margin usage and concentration; errors are only shortfall, leverage and lots |
| RiskManager.MarginCheck | tradingagents/risk/futures_risk_manager.py:144-191 | shortfall error and failed flag exactly when margin exceeds the balance; usage warning exactly when it lies above 80% without exceeding it |
| RiskManager.LeverageCheck | tradingagents/risk/futures_risk_manager.py:152-192 | leverage error and failed flag exactly when leverage exceeds the tier cap |
| RiskManager.LabelOfLastCheck | tradingagents/risk/futures_risk_manager.py:141-188 | the label is that of the last test that fired: lots, then concentration, then leverage or shortfall, then usage, else `low` |
| RiskManager.QuietExactlyWhenLow | tradingagents/risk/futures_risk_manager.py:141-188 | `low` exactly when no message was raised |
| RiskManager.OversizedIsHigh | tradingagents/risk/futures_risk_manager.py:185-188 | too many lots always ends `high` with the lots error |
| RiskManager.ShortfallThenConcentrationIsMedium | tradingagents/risk/futures_risk_manager.py:144-183 | a shortfall followed by a concentration warning ends `medium` though the error stands |
| RiskManager.ConcentrationBounds | tradingagents/risk/futures_risk_manager.py:166-180 | when the position is within its sector and the sector within the book, both concentrations lie in [0, 1], the sector's at least the position's |
| RiskManager.SoleHoldingIsConcentrated | tradingagents/risk/futures_risk_manager.py:158-183 | a position that is the whole book has both concentrations 1 and both warnings |
| RiskManager.CheckPositionRisk | tradingagents/risk/futures_risk_manager.py:109-203 | book value is the position plus every existing position; sector value adds those of its sector; the verdict is judged on those figures, the tier cap and the balance |
| RiskManager.PositionConcentrationsBounded | tradingagents/risk/futures_risk_manager.py:158-180 | with non-negative prices and lots both concentrations lie in [0, 1], the sector's at least the position's |
| RiskManager.FirstPositionIsConcentrated | tradingagents/risk/futures_risk_manager.py:158-183 | the first position of a book raises both concentration warnings |
| RiskManager.CopperLeverageAlwaysFails | tradingagents/risk/futures_risk_manager.py:152-156 | copper's leverage of about 10.4 always exceeds its tier cap of 10 |
| RiskManager.MarginRatio | tradingagents/risk/futures_risk_manager.py:227 | the ratio times the margin is the equity, or 999 when no margin is used |
| RiskManager.ConcentrationWarnings | tradingagents/risk/futures_risk_manager.py:292-295 | no warning exactly when every share is within the limit; each warning names a sector and its share above the limit |
| RiskManager.PortfolioLabelOfLastCheck | tradingagents/risk/futures_risk_manager.py:266-295 | the label is that of the last test that fired: a crowded sector, then daily loss, then the ratio ladder, else `low` |
| RiskManager.PortfolioChecksMeaning | tradingagents/risk/futures_risk_manager.py:270-315 | each flag and error holds exactly when its threshold is crossed |
| RiskManager.CrowdedSectorWarned | tradingagents/risk/futures_risk_manager.py:291-295 | a sector over the limit is warned with its share, fails the concentration flag, and leaves `medium` |
| RiskManager.CrowdedSectorListed | tradingagents/risk/futures_risk_manager.py:292-294 | every share over the limit has its warning |
| RiskManager.Grouped | tradingagents/risk/futures_risk_manager.py:233-244 | each position grouped by the key of its symbol, with its value |
| RiskManager.GroupedTotals | tradingagents/risk/futures_risk_manager.py:246-256 | the buckets' values add up to the book value and their counts to its size |
| RiskManager.GroupedEntry | tradingagents/risk/futures_risk_manager.py:246-256 | a group has a bucket exactly when a position falls in it, holding those positions' value |
| RiskManager.CheckPortfolioRisk | tradingagents/risk/futures_risk_manager.py:205-324 | equity, margin, ratio, distributions and shares come from the calculator's figures, and the verdict is judged on them; it raises exactly when the equity calculation does |
| RiskManager.DistributionsAddUp | tradingagents/risk/futures_risk_manager.py:233-264 | both distributions account for every position once, and with a positive value their shares add up to 1 |
| RiskManager.SectorEntryIsSectorValue | tradingagents/risk/futures_risk_manager.py:233-251 | a sector's entry exists exactly when it holds positions and is the value of those positions |
| RiskManager.EmptyBookIsLow | tradingagents/risk/futures_risk_manager.py:205-320 | an empty book with a positive balance rates `low` with ratio 999 and every flag set |
| RiskManager.RiskParams | tradingagents/risk/futures_risk_manager.py:420-426 | the budget share lies in (0, 1) and the leverage cap is positive |
| RiskManager.UnknownToleranceIsMedium | tradingagents/risk/futures_risk_manager.py:426 | an unknown tolerance gets the medium parameters 0.2 and 5 |
| RiskManager.LotsWithinBudget | tradingagents/risk/futures_risk_manager.py:433-434 | no lots without a positive per-lot margin; never negative for a non-negative budget |
| RiskManager.LotsFitBudget | tradingagents/risk/futures_risk_manager.py:433-434 | the lot count is the largest whose margin fits the budget |
| RiskManager.ClampToLeverage | tradingagents/risk/futures_risk_manager.py:437-447 | a clamp never raises the lots, leaves them alone within the cap, and keeps them non-negative |
| RiskManager.ClampKeepsMost | tradingagents/risk/futures_risk_manager.py:437-446 | a clamp that bites removes less than one lot: the lots are kept, or one more lot times the leverage would exceed the original lots times the cap |
| RiskManager.ClampCapsExposure | tradingagents/risk/futures_risk_manager.py:437-440 | after a clamp, lots times leverage is within the original lots times the cap |
| RiskManager.SuggestedLots | tradingagents/risk/futures_risk_manager.py:433-447 | the suggested lots never exceed what the budget pays for, and equal it when neither cap is below the leverage |
| RiskManager.LotsCappedByLeverage | tradingagents/risk/futures_risk_manager.py:432-446 | from a non-negative budget, where the tolerance's or the tier's leverage cap is below the contract's leverage, the suggested lots times that leverage stay within the budgeted lots times the cap |
| RiskManager.LotsNeedFunds | tradingagents/risk/futures_risk_manager.py:433-450 | lots are only suggested when the budget holds at least one lot's positive margin |
| RiskManager.Suggest | tradingagents/risk/futures_risk_manager.py:428-480 | no lots exactly when the clamped count is not positive; positive lots fit the budget, come from a positive balance, use at most the tolerance's share, keep one lot's leverage, and keep lots times leverage within the budgeted lots times each cap that binds; when neither cap is below the leverage, the lots are exactly the budgeted lots, or none if that is not positive |
| RiskManager.NoLotsAllZero | tradingagents/risk/futures_risk_manager.py:466-476 | no lots means every figure is 0 and the reasoning is the refusal |
| RiskManager.LotsReasonReadsBack | tradingagents/risk/futures_risk_manager.py:464 | the reasoning prints the lot count |
| RiskManager.BudgetedSuggestionWithin | tradingagents/risk/futures_risk_manager.py:450-463 | a budgeted suggestion spends at most the budget and its usage is at most the rate |
| RiskManager.LotsKeepLeverage | tradingagents/risk/futures_risk_manager.py:451-453 | lots priced from one lot keep that lot's leverage |
| RiskManager.SuggestPositionSize | tradingagents/risk/futures_risk_manager.py:405-484 | each lot costs one long lot's margin; positive lots come from a positive balance, fit the budget, use at most the tolerance's share of the balance and carry one lot's leverage; where the tolerance's or the symbol tier's leverage cap is below that leverage, lots times leverage stay within the budgeted lots times the cap; when neither cap is below one lot's leverage, the lots are exactly what the budget pays for, or none if that is not positive |
| RiskManager.UnknownToleranceSizedAsMedium | tradingagents/risk/futures_risk_manager.py:426 | an unknown tolerance is sized as `medium` |
| RiskManager.SameParamsSameSuggestion | tradingagents/risk/futures_risk_manager.py:425-446 | the tolerance enters the sizing only through its parameters: two tolerances with the same parameters give the same suggestion apart from the recorded tolerance |
| RiskManager.CopperMediumSuggestsNothing | tradingagents/risk/futures_risk_manager.py:429-476 | one lot of copper at 70000 needs more than 20% of 100000, so nothing is suggested |
| RiskManager.CopperHighSuggestsFive | tradingagents/risk/futures_risk_manager.py:429-476 | a high tolerance on 1000000 budgets 8 lots of copper at 70000; the tolerance's clamp cuts them to 6 and the tier's to 5, with margin 168000 |
| Distribution.TallyOrder | tradingagents/risk/futures_risk_manager.py:246-256 | the keys appear in first-seen order |
| Distribution.TallyEntry | tradingagents/risk/futures_risk_manager.py:246-256 | a key has an entry exactly when it occurs, holding the sum of its values and their count |
| Distribution.AddSums | tradingagents/risk/futures_risk_manager.py:247-250 | one more pair adds its value and one count to the totals |
| Distribution.TallyTotals | tradingagents/risk/futures_risk_manager.py:246-256 | the buckets hold every pair once: values add to the total, counts to the number of pairs |
| Distribution.SharesSumToOne | tradingagents/risk/futures_risk_manager.py:259-264 | shares of a positive total add up to 1 |
| Distribution.Shares | tradingagents/risk/futures_risk_manager.py:259-264 | every key, in order, with its bucket's share |
| Distribution.SharesOfTotalSumToOne | tradingagents/risk/futures_risk_manager.py:259-264 | when the buckets add up to a positive total, the percentages add up to 1 |
| StockCorrelation.Listings | tradingagents/dataflows/futures_stock_correlation.py:108-111 | the loop visits exactly the items of every category, each with its category's name |
| StockCorrelation.RelatedStocks | tradingagents/dataflows/futures_stock_correlation.py:117-123 | exactly the entries with non-empty code and name, never more than were given |
| StockCorrelation.Link | tradingagents/dataflows/futures_stock_correlation.py:126-129 | the stock's list gains the future unless present, keeps its order, and stays repetition-free; other stocks are untouched |
| StockCorrelation.LinkAll | tradingagents/dataflows/futures_stock_correlation.py:118-129 | every usable stock of the item links to the future and no other link changes |
| StockCorrelation.StoreItem | tradingagents/dataflows/futures_stock_correlation.py:112-140 | an unnamed item is skipped; a named one is stored under its name, replacing an earlier record of that name |
| StockCorrelation.LinkItem | tradingagents/dataflows/futures_stock_correlation.py:112-129 | a named item's usable stocks link back to it |
| StockCorrelation.StoreAll | tradingagents/dataflows/futures_stock_correlation.py:108-140 | the futures dictionary the loop builds is well formed |
| StockCorrelation.LinkListings | tradingagents/dataflows/futures_stock_correlation.py:108-129 | the stock dictionary the loop builds is well formed with repetition-free lists |
| StockCorrelation.ParseItemValid | tradingagents/dataflows/futures_stock_correlation.py:112-140 | one turn of the loop keeps the two dictionaries consistent with each other |
| StockCorrelation.ParsedValid | tradingagents/dataflows/futures_stock_correlation.py:108-140 | the whole loop keeps them consistent |
| StockCorrelation.ParseListings | tradingagents/dataflows/futures_stock_correlation.py:102-140 | the loop from empty dictionaries builds a consistent table |
| StockCorrelation.ParsePageData | tradingagents/dataflows/futures_stock_correlation.py:95-140 | the parsed table is consistent, and a page without `datas` leaves both dictionaries empty |
| StockCorrelation.StoredNames | tradingagents/dataflows/futures_stock_correlation.py:112-140 | a name is stored exactly when it is non-empty and some item carries it |
| StockCorrelation.StoredRecords | tradingagents/dataflows/futures_stock_correlation.py:132-140 | a stored name holds the record of the last item carrying it |
| StockCorrelation.StoredLinks | tradingagents/dataflows/futures_stock_correlation.py:112-129 | a stock lists a future exactly when an item of that non-empty name lists the stock with a non-empty code |
| StockCorrelation.ReplacedItemKeepsOldLinks | tradingagents/dataflows/futures_stock_correlation.py:118-140 | a replaced record's stocks keep their link to the name |
| StockCorrelation.EnsureDataFresh | tradingagents/dataflows/futures_stock_correlation.py:142-152 | past 360000 seconds the fetch decides; before it, data is fresh exactly when a future is stored |
| StockCorrelation.FirstFuzzy | tradingagents/dataflows/futures_stock_correlation.py:172-174 | the first name related to the query either way, if any |
| StockCorrelation.GetStocksByFuture | tradingagents/dataflows/futures_stock_correlation.py:154-176 | nothing if not fresh; the exact name's stocks; else the first related name's stocks; else nothing |
| StockCorrelation.GatherFuzzy | tradingagents/dataflows/futures_stock_correlation.py:196-199 | exactly the futures of the stocks whose names relate to the query |
| StockCorrelation.GetFuturesByStock | tradingagents/dataflows/futures_stock_correlation.py:178-201 | nothing if not fresh; the exact name's list; else every future of a related stock, each once |
| StockCorrelation.FutureHits | tradingagents/dataflows/futures_stock_correlation.py:219-221 | exactly the names whose name or category matches, each with its category |
| StockCorrelation.FutureHitsOrder | tradingagents/dataflows/futures_stock_correlation.py:219-221 | the hits keep the order of the names searched |
| StockCorrelation.FutureHitsDistinct | tradingagents/dataflows/futures_stock_correlation.py:219-221 | when no name is searched twice, no future is reported twice |
| StockCorrelation.SearchFutures | tradingagents/dataflows/futures_stock_correlation.py:203-223 | nothing if not fresh; otherwise every stored future matching the lower-cased keyword, with its category, once each, in stored order |
| StockCorrelation.StockHits | tradingagents/dataflows/futures_stock_correlation.py:241-245 | exactly the related stocks of the futures that match |
| StockCorrelation.SearchStocks | tradingagents/dataflows/futures_stock_correlation.py:225-247 | nothing if not fresh; otherwise each related stock whose name or code matches, once |
| StockCorrelation.GetFutureInfo | tradingagents/dataflows/futures_stock_correlation.py:249-262 | nothing if not fresh; otherwise the stored record exactly when the name is stored |
| StockCorrelation.CategoriesOf | tradingagents/dataflows/futures_stock_correlation.py:274-276 | exactly the categories of the given futures |
| StockCorrelation.GetAllCategories | tradingagents/dataflows/futures_stock_correlation.py:264-278 | nothing if not fresh; otherwise every category of a stored future, once |
| StockCorrelation.GetFuturesByCategory | tradingagents/dataflows/futures_stock_correlation.py:280-298 | nothing if not fresh; otherwise exactly the stored names of that category, once each, in stored order |
| StockCorrelation.EmptyTableAnswersNothing | tradingagents/dataflows/futures_stock_correlation.py:142-152 | an empty table within its lifetime is not fresh and every query answers nothing |
| StockCorrelation.EmptyQueryTakesFirst | tradingagents/dataflows/futures_stock_correlation.py:168-174 | the empty query matches every name, so it answers with the first stored future's stocks |
| StockCorrelation.StoredExactly | tradingagents/dataflows/futures_stock_correlation.py:112-140 | when the items carry exactly a set of non-empty names, those are stored, each once |
| StockCorrelation.LinkedExactly | tradingagents/dataflows/futures_stock_correlation.py:118-129 | when the items listing a stock carry exactly a set of names, the stock links to exactly those, each once |
| StockCorrelation.SampleFutures | tests/test_futures_stock_correlation.py:77-85 | the sample page stores exactly its three futures |
| StockCorrelation.SampleCokingCoal | tests/test_futures_stock_correlation.py:87-92 | coking coal is stored with category, price, change and its three stocks |
| StockCorrelation.SampleStockLinks | tests/test_futures_stock_correlation.py:94-98 | 冀中能源 is linked to both coals, once each |

## Left out

- Decimal precision and rounding: `Decimal` is modelled as exact real arithmetic, so context precision and quantisation are not modelled.
- Text handling: letter case and `\d` are ASCII only; `strip` uses Python's whitespace set.
- Message formatting: the numbers printed in messages (`:.1%`, `:.1f`, `:,.2f`) are kept as values, not rendered text.
- Logging, timestamps (`datetime.now()`) and the constant `currency` fields are left out.
- Report and summary text: `generate_risk_report`, `get_margin_summary` and `get_risk_limits` only format or copy modelled values.
- Contract info: `get_contract_info` turns a contract into a dict; the model returns the contract itself.
- Singletons: module-level instances and their convenience wrappers (`get_contract_manager`, `get_margin_calculator`, `get_futures_risk_manager`, `check_futures_position_risk`, `calculate_futures_margin`, `get_futures_margin_rate`, the correlation module's `get_related_*` functions) only forward to modelled methods.
- Unused data: the tiers' `margin_multiplier` and the calculator's `risk_thresholds` are never read by the modelled operations.
- Unused limits: the `max_leverage` limit is never read; `max_daily_loss` is read only by the portfolio check, where it is modelled.
- Exception re-raising: `try`/`except ... raise` passes exceptions through unchanged, so it has no model of its own.
- Correlation fetch: `fetch_data` does the HTTP request, the `pagedata` regular expression and JSON decoding. The model starts from the decoded page.
- Correlation clock: the clock becomes the `elapsed` parameter, and the fetch outcome becomes `fetched`.
- Correlation leftovers: `print_summary`, `main` and the demo are left out.
- Missing keys: JSON values are strings and missing keys read as their defaults. Values of other types are not modelled.
- StockCorrelation.GetFuturesByStock: `list(set(...))` has no defined order, so only membership and absence of repeats are stated.
- StockCorrelation.SearchStocks: same as above, only membership and absence of repeats.
- StockCorrelation.GetAllCategories: same as above, only membership and absence of repeats.
- StockCorrelation.ParseListings: the loop's two dictionaries are built as two separate folds over the same items. Each write depends only on its own dictionary, so this matches the interleaved loop.
- TqSdkAdapter: the network, login, async data download, quote and history functions, and `get_futures_name` of the adapter are left out. They call the data service.
- MarginCalculator.PnlOf: prices and volumes come in as numbers, so the `Decimal(str(price))` and `int(volume)` conversions are not modelled.
- RiskManager.PositionConcentrationsBounded: the [0, 1] bounds are stated only for non-negative prices and lot counts. Negative inputs can push a share outside that range.
- RiskManager.Suggest: the leverage of a positive suggestion is stated only when the one-lot record has a positive rate; the `margin_usage_rate` division by a zero balance cannot happen because lots need a positive balance.
- MarginCalculator.CalculatePortfolioMargin: the average rate of a book where every position has the same rate is not stated as a separate property.
