/** Routing a ticker to an asset class by its shape: Brazilian exchange (B3) real-estate
    funds end in four letters and "11", B3 shares in four letters and 3..9 or 10..12,
    a fixed list of crypto symbols, and everything else is a US share. */
module AssetTypeDetector {
  import opened JsText
  import opened Types

  /** Upper-cased, then trimmed. */
  function Normalize(ticker: string): string { Trim(ToUpper(ticker)) }

  /** Four capital letters occupy positions |s|-k-4 .. |s|-k-1. */
  predicate LettersBefore(s: string, k: nat)
    requires |s| >= k + 4
  {
    forall i :: |s| - k - 4 <= i < |s| - k ==> IsAsciiUpper(s[i])
  }

  /** `/[A-Z]{4}11$/` */
  predicate FiiPattern(s: string) {
    |s| >= 6 && LettersBefore(s, 2) && s[|s| - 2] == '1' && s[|s| - 1] == '1'
  }

  /** `/[A-Z]{4}[3-9]$/` */
  predicate StockDigitPattern(s: string) {
    |s| >= 5 && LettersBefore(s, 1) && '3' <= s[|s| - 1] <= '9'
  }

  /** `/[A-Z]{4}1[0-2]$/` */
  predicate StockTensPattern(s: string) {
    |s| >= 6 && LettersBefore(s, 2) && s[|s| - 2] == '1' && '0' <= s[|s| - 1] <= '2'
  }

  const CryptoSymbols: seq<string> := [
    "BTC", "ETH", "BNB", "SOL", "ADA", "XRP", "DOT", "MATIC", "AVAX", "LINK",
    "UNI", "ATOM", "LTC", "BCH", "XLM", "ALGO", "VET", "ICP", "FIL", "SAND",
    "MANA", "AXS", "THETA", "EGLD", "AAVE", "EOS", "CAKE", "GRT", "RUNE", "FTM"
  ]

  function DetectAssetType(ticker: string): AssetType {
    var normalized := Normalize(ticker);
    if FiiPattern(normalized) then B3Fii
    else if StockDigitPattern(normalized) || StockTensPattern(normalized) then B3Stock
    else if normalized in CryptoSymbols then Crypto
    else UsStock
  }

  /** Ends in the shape of a B3 ticker: four letters followed by a share-class code. */
  predicate B3Shaped(s: string) {
    FiiPattern(s) || StockDigitPattern(s) || StockTensPattern(s)
  }

  // ---------------------------------------------------------------------------
  // Properties

  /** Every listed crypto symbol is made of capital letters only. */
  lemma CryptoSymbolsAreLetters()
    ensures forall k :: 0 <= k < |CryptoSymbols| ==>
      CryptoSymbols[k] != [] && forall i :: 0 <= i < |CryptoSymbols[k]| ==> IsAsciiUpper(CryptoSymbols[k][i])
  {
  }

  /** No listed crypto symbol has the shape of a B3 ticker, so the earlier B3 checks never
      shadow the list: the ticker is crypto exactly when its normal form is listed. */
  lemma {:induction false} DetectCryptoIff(ticker: string)
    ensures DetectAssetType(ticker) == Crypto <==> Normalize(ticker) in CryptoSymbols
  {
    var n := Normalize(ticker);
    if n in CryptoSymbols {
      CryptoSymbolsAreLetters();
      var k :| 0 <= k < |CryptoSymbols| && CryptoSymbols[k] == n;
      assert IsAsciiUpper(n[|n| - 1]);
      assert !B3Shaped(n);
    }
  }

  /** A US share is whatever is neither B3-shaped nor listed. */
  lemma DetectUsStockIff(ticker: string)
    ensures DetectAssetType(ticker) == UsStock <==>
      !B3Shaped(Normalize(ticker)) && Normalize(ticker) !in CryptoSymbols
  {
  }

  /** The real-estate-fund test runs first: a ticker ending in "11" is a fund even though
      it also fits the 10..12 share shape. */
  lemma DetectFiiIff(ticker: string)
    ensures DetectAssetType(ticker) == B3Fii <==> FiiPattern(Normalize(ticker))
    ensures FiiPattern(Normalize(ticker)) ==> StockTensPattern(Normalize(ticker))
  {
  }

  /** Case does not matter: lower-casing or upper-casing the ticker first changes nothing. */
  lemma DetectIgnoresCase(ticker: string)
    ensures DetectAssetType(ToLower(ticker)) == DetectAssetType(ticker)
    ensures DetectAssetType(ToUpper(ticker)) == DetectAssetType(ticker)
  {
    ToUpperOfToLower(ticker);
    ToUpperIdempotent(ticker);
  }

  /** Surrounding white space does not matter. */
  lemma DetectIgnoresSurroundingSpace(ticker: string)
    ensures DetectAssetType(Trim(ticker)) == DetectAssetType(ticker)
  {
    ToUpperTrim(ticker);
    TrimIdempotent(ToUpper(ticker));
  }

  predicate FourLetters(letters: string) {
    |letters| == 4 && forall i :: 0 <= i < 4 ==> IsAsciiLetter(letters[i])
  }

  /** With a non-blank core `code`, the normal form of `prefix + code` ends in `ToUpper(code)`. */
  lemma NormalizeEndsWith(prefix: string, code: string, n: int)
    requires |code| == n && n >= 5
    requires forall i :: 0 <= i < 4 ==> IsAsciiLetter(code[i])
    requires IsDigit(code[n - 1])
    ensures var s := Normalize(prefix + code);
      |s| >= n && s[|s| - n..] == ToUpper(code)
  {
    ToUpperConcat(prefix, code);
    var u := ToUpper(code);
    ToUpperAt(code, 0);
    ToUpperAt(code, n - 1);
    TrimBeforeCore(ToUpper(prefix), u);
    var s := TrimStart(ToUpper(prefix)) + u;
    assert s[|s| - n..] == u;
  }

  lemma UpperOfLetter(c: char)
    requires IsAsciiLetter(c)
    ensures IsAsciiUpper(UpperChar(c))
  {
  }

  /** The normal form of `prefix + code` ends in `ToUpper(code)`, whose first four
      characters are capital letters. */
  lemma NormalizedCode(prefix: string, code: string, n: int) returns (s: string)
    requires |code| == n && n >= 5
    requires forall i :: 0 <= i < 4 ==> IsAsciiLetter(code[i])
    requires IsDigit(code[n - 1])
    ensures s == Normalize(prefix + code) && |s| >= n
    ensures forall i :: 0 <= i < n ==> s[|s| - n + i] == UpperChar(code[i])
    ensures LettersBefore(s, n - 4)
  {
    NormalizeEndsWith(prefix, code, n);
    s := Normalize(prefix + code);
    forall i | 0 <= i < n ensures s[|s| - n + i] == UpperChar(code[i]) {
      ToUpperAt(code, i);
      assert s[|s| - n..][i] == ToUpper(code)[i];
    }
    forall i | |s| - n <= i < |s| - n + 4 ensures IsAsciiUpper(s[i]) {
      UpperOfLetter(code[i - (|s| - n)]);
      assert s[|s| - n + (i - (|s| - n))] == s[i];
    }
  }

  /** Any text ending in four letters (of either case) and "11" is a real-estate fund. */
  lemma FiiSuffix(prefix: string, letters: string)
    requires FourLetters(letters)
    ensures DetectAssetType(prefix + letters + "11") == B3Fii
  {
    var code := letters + "11";
    assert prefix + letters + "11" == prefix + code;
    assert code[4] == '1' && code[5] == '1';
    var s := NormalizedCode(prefix, code, 6);
    assert s[|s| - 6 + 4] == '1' && s[|s| - 6 + 5] == '1';
    assert FiiPattern(s);
  }

  /** Any text ending in four letters and a digit 3..9 is a B3 share. */
  lemma StockDigitSuffix(prefix: string, letters: string, d: char)
    requires FourLetters(letters) && '3' <= d <= '9'
    ensures DetectAssetType(prefix + letters + [d]) == B3Stock
  {
    var code := letters + [d];
    assert prefix + letters + [d] == prefix + code;
    var s := NormalizedCode(prefix, code, 5);
    assert s[|s| - 5 + 4] == d;
    assert !FiiPattern(s) && StockDigitPattern(s);
  }

  /** Any text ending in four letters and "10" or "12" is a B3 share. */
  lemma StockTensSuffix(prefix: string, letters: string, d: char)
    requires FourLetters(letters) && (d == '0' || d == '2')
    ensures DetectAssetType(prefix + letters + ['1', d]) == B3Stock
  {
    var code := letters + ['1', d];
    assert prefix + letters + ['1', d] == prefix + code;
    assert code[4] == '1' && code[5] == d;
    var s := NormalizedCode(prefix, code, 6);
    assert s[|s| - 6 + 4] == '1' && s[|s| - 6 + 5] == d;
    assert !FiiPattern(s) && StockTensPattern(s);
  }

  /** The share examples the rules are documented with. */
  lemma DocumentedFiiExamples()
    ensures DetectAssetType("MXRF11") == B3Fii && DetectAssetType("HGLG11") == B3Fii
  {
    FiiSuffix("", "MXRF");
    assert "MXRF11" == "" + "MXRF" + "11";
    FiiSuffix("", "HGLG");
    assert "HGLG11" == "" + "HGLG" + "11";
  }

  lemma DocumentedStockExamples()
    ensures DetectAssetType("PETR4") == B3Stock && DetectAssetType("VALE3") == B3Stock
  {
    StockDigitSuffix("", "PETR", '4');
    assert "PETR4" == "" + "PETR" + ['4'];
    StockDigitSuffix("", "VALE", '3');
    assert "VALE3" == "" + "VALE" + ['3'];
  }

  /** The crypto and US examples the rules are documented with. */
  lemma DocumentedCryptoExample()
    ensures DetectAssetType("BTC") == Crypto
  {
    ToUpperFixesUpper("BTC");
    assert Normalize("BTC") == "BTC";
    DetectCryptoIff("BTC");
  }

  lemma DocumentedUsExample()
    ensures DetectAssetType("AAPL") == UsStock
  {
    ToUpperFixesUpper("AAPL");
    assert Normalize("AAPL") == "AAPL";
    DetectCryptoIff("AAPL");
  }
}
