/** `_extract_underlying` of the margin calculator, repeated character for
    character in the risk manager: the product code under which a position
    is priced and classified. It works on the upper-cased symbol without
    trimming it, and looks only at the last characters: a final `"99"` or
    two final digits are cut off, so a four-digit month such as `"2403"`
    loses only its last two digits. */
module Underlying {
  import opened Strings

  function ExtractUnderlying(symbol: string): string
  {
    var s := Upper(symbol);
    if EndsWith(s, "99") then DropLast(s, 2)
    else if |s| > 2 && IsDigitString(s[|s| - 2..]) then DropLast(s, 2)
    else if |s| > 4 && IsDigitString(s[|s| - 4..]) then DropLast(s, 4)
    else if '.' in s then ReplaceAll(Split(s, '.')[1], "99", "")
    else s
  }

  /** The two trailing digits of a symbol (or a final `"99"`). */
  predicate TwoDigitTail(s: string)
  {
    EndsWith(s, "99") || (|s| > 2 && AllDigits(s[|s| - 2..]))
  }

  /** What the function actually does: it cuts two characters off a symbol
      with a two-digit tail, takes dot-segment 1 without its `"99"`s from
      any other dotted symbol, and returns every other symbol upper-cased.
      The branch that would cut four digits never runs, because four
      trailing digits are also two trailing digits. */
  lemma UnderlyingCases(symbol: string)
    ensures var s := Upper(symbol);
            && (TwoDigitTail(s) ==> ExtractUnderlying(symbol) == DropLast(s, 2))
            && (!TwoDigitTail(s) && '.' in s ==>
                  ExtractUnderlying(symbol) == ReplaceAll(Split(s, '.')[1], "99", ""))
            && (!TwoDigitTail(s) && '.' !in s ==> ExtractUnderlying(symbol) == s)
  {
    var s := Upper(symbol);
    if |s| > 4 && IsDigitString(s[|s| - 4..]) {
      assert s[|s| - 2..] == s[|s| - 4..][2..];
    }
  }

  /** An index code `<p>99` is priced as `p`; this includes an
      exchange-qualified one, which keeps its exchange: `"SHFE.CU99"` is
      priced under `"SHFE.CU"`. */
  lemma UnderlyingOfIndexCode(symbol: string, p: string)
    requires Upper(symbol) == p + "99"
    ensures ExtractUnderlying(symbol) == p
  {
    var s := Upper(symbol);
    assert s[|s| - 2..] == "99";
  }

  /** A symbol ending in two digits loses exactly those two digits. */
  lemma UnderlyingOfTwoDigits(symbol: string, x: string, d: string)
    requires Upper(symbol) == x + d
    requires |x| >= 1 && |d| == 2 && AllDigits(d)
    ensures ExtractUnderlying(symbol) == x
  {
    var s := Upper(symbol);
    assert s[|s| - 2..] == d;
    UnderlyingCases(symbol);
  }

  /** `"CU2403"` is priced under `"CU24"`, not `"CU"`. */
  lemma DatedCopperKeepsYear(symbol: string)
    requires Upper(symbol) == "CU2403"
    ensures ExtractUnderlying(symbol) == "CU24"
  {
    assert "CU2403" == "CU24" + "03";
    UnderlyingOfTwoDigits(symbol, "CU24", "03");
  }

  /** `"SHFE.CU99"` is priced under `"SHFE.CU"`. */
  lemma QualifiedIndexKeepsExchange(symbol: string)
    requires Upper(symbol) == "SHFE.CU99"
    ensures ExtractUnderlying(symbol) == "SHFE.CU"
  {
    assert "SHFE.CU99" == "SHFE.CU" + "99";
    UnderlyingOfIndexCode(symbol, "SHFE.CU");
  }

  /** A letters-only symbol is its own underlying, upper-cased. */
  lemma UnderlyingOfLetters(symbol: string)
    requires AllLetters(symbol)
    ensures ExtractUnderlying(symbol) == Upper(symbol)
  {
    var s := Upper(symbol);
    assert !TwoDigitTail(s) by {
      if |s| >= 2 {
        assert s[|s| - 2..][1] == s[|s| - 1];
      }
    }
    assert '.' !in s by {
      forall i | 0 <= i < |s|
        ensures s[i] != '.'
      {
        assert IsLetter(symbol[i]);
      }
    }
    UnderlyingCases(symbol);
  }

  /** A symbol `<exchange>.<product>` in letters is priced under its
      product: `"SHFE.cu"` gives `"CU"`. */
  lemma UnderlyingOfQualified(symbol: string, exchange: string, product: string)
    requires Upper(symbol) == exchange + "." + product
    requires AllLetters(exchange) && AllLetters(product) && |product| >= 1
    ensures ExtractUnderlying(symbol) == product
  {
    var s := Upper(symbol);
    assert s[|s| - 1] == product[|product| - 1];
    assert !TwoDigitTail(s) by {
      assert s[|s| - 2..][1] == s[|s| - 1];
    }
    assert '.' !in exchange by {
      forall i | 0 <= i < |exchange|
        ensures exchange[i] != '.'
      {
        assert IsLetter(exchange[i]);
      }
    }
    assert '9' !in product by {
      forall i | 0 <= i < |product|
        ensures product[i] != '9'
      {
        assert IsLetter(product[i]);
      }
    }
    assert s == exchange + ['.'] + product;
    SplitFirst(exchange, product, '.');
    assert '.' !in product by {
      forall i | 0 <= i < |product|
        ensures product[i] != '.'
      {
        assert IsLetter(product[i]);
      }
    }
    SplitNoSep(product, '.');
    NoNineNoNines(product);
    UnderlyingCases(symbol);
  }
}
