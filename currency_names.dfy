/** The static ISO 4217 code to English display name table, and the rule that
    picks the display name of a response. */
module CurrencyNames {

  /** The process-wide, read-only table of English currency names. */
  const CurrencyNameEn: map<string, string> := map[
    "USD" := "US Dollar",
    "EUR" := "Euro",
    "GBP" := "British Pound",
    "CHF" := "Swiss Franc",
    "PLN" := "Polish Zloty",
    "NOK" := "Norwegian Krone",
    "SEK" := "Swedish Krona",
    "DKK" := "Danish Krone",
    "ISK" := "Icelandic Krona",
    "CZK" := "Czech Koruna",
    "HUF" := "Hungarian Forint",
    "UAH" := "Ukrainian Hryvnia",
    "RUB" := "Russian Ruble",
    "BYN" := "Belarusian Ruble",
    "JPY" := "Japanese Yen",
    "CNY" := "Chinese Yuan Renminbi",
    "KRW" := "South Korean Won",
    "TWD" := "New Taiwan Dollar",
    "INR" := "Indian Rupee",
    "SGD" := "Singapore Dollar",
    "THB" := "Thai Baht",
    "MYR" := "Malaysian Ringgit",
    "IDR" := "Indonesian Rupiah",
    "VND" := "Vietnamese Dong"
  ]

  /** A code of the table's shape: three upper-case Latin letters. */
  predicate IsIsoShaped(code: string) {
    |code| == 3 && forall i :: 0 <= i < 3 ==> 'A' <= code[i] <= 'Z'
  }

  /** The display name of a response whose settled code is `code` and whose
      upstream name is `upstream`: the table's name when the code is listed,
      the upstream name verbatim otherwise (a dictionary `get` with a default). */
  function ResolveName(code: string, upstream: string): (name: string)
    ensures code in CurrencyNameEn ==> name == CurrencyNameEn[code]
    ensures code !in CurrencyNameEn ==> name == upstream
  {
    if code in CurrencyNameEn then CurrencyNameEn[code] else upstream
  }

  /** The upstream name matters exactly for the codes the table does not list:
      the resolved name ignores it if and only if the code is a key. */
  lemma UpstreamIgnoredIffListed(code: string)
    ensures (forall u, v :: ResolveName(code, u) == ResolveName(code, v)) <==> code in CurrencyNameEn
  {
    if code !in CurrencyNameEn {
      assert ResolveName(code, "") != ResolveName(code, "x");
    }
  }

  /** A listed code never takes the upstream name, even when that name is
      a different spelling of the same currency. */
  lemma ListedCodeExample()
    ensures ResolveName("USD", "dolar amerykanski") == "US Dollar"
    ensures ResolveName("XAU", "zloto") == "zloto"
  {
    assert "XAU" !in CurrencyNameEn;
  }

  /** Every key of the table has the shape of an ISO 4217 code, and none of
      the names is empty. */
  lemma TableWellFormed()
    ensures forall code :: code in CurrencyNameEn ==> IsIsoShaped(code) && CurrencyNameEn[code] != ""
  {
  }
}
