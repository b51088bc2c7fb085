/** The four currencies the converter handles, and the codes under which they appear. */
module Currencies {

  /** One input field and one row of the rate table per currency. */
  datatype Currency = USD | EUR | JPY | TRY

  const AllCurrencies: set<Currency> := {USD, EUR, JPY, TRY}

  /** The key under which the exchange-rate provider reports a currency (`data.rates.JPY`). */
  function ApiCode(c: Currency): (code: string)
    ensures |code| == 3
  {
    match c
    case USD => "USD"
    case EUR => "EUR"
    case JPY => "JPY"
    case TRY => "TRY"
  }

  /** Distinct currencies are read under distinct keys, so the quotes the page reads are distinct entries. */
  lemma ApiCodeInjective()
    ensures forall c, d :: ApiCode(c) == ApiCode(d) ==> c == d
  {
  }

  lemma InAll(c: Currency)
    ensures c in AllCurrencies
  {
  }
}
