/** The currency whitelist of src/utils/currency.go. */
module Currency {
  const USD: string := "USD"
  const EUR: string := "EUR"
  const CAD: string := "CAD"

  /** The whitelist as a set: the reference the switch is compared against. */
  const SupportedCurrencies: set<string> := {USD, EUR, CAD}

  /** The `switch` with a single `case USD, EUR, CAD` and a fall-through `false`. */
  function IsSupportedCurrency(currency: string): (supported: bool)
    ensures supported <==> currency in SupportedCurrencies
    ensures supported ==> |currency| == 3
  {
    if currency == USD || currency == EUR || currency == CAD then true else false
  }

  /** The three constants are distinct, so the whitelist has exactly three members. */
  lemma SupportedCount()
    ensures |SupportedCurrencies| == 3
  {
    assert USD[0] != EUR[0] && USD[0] != CAD[0] && EUR[0] != CAD[0];
    assert {USD, EUR, CAD} == {USD} + {EUR} + {CAD};
  }

  /** Comparison is exact: a supported code is upper case, so any lower-case letter rejects it. */
  lemma {:induction false} LowerCaseUnsupported(currency: string, i: nat)
    requires i < |currency| && 'a' <= currency[i] <= 'z'
    ensures !IsSupportedCurrency(currency)
  {
  }

  lemma UnsupportedExamples()
    ensures IsSupportedCurrency("USD") && IsSupportedCurrency("EUR") && IsSupportedCurrency("CAD")
    ensures !IsSupportedCurrency("") && !IsSupportedCurrency("usd") && !IsSupportedCurrency("GBP")
  {
    LowerCaseUnsupported("usd", 0);
  }
}
