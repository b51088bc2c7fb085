/**
 * The page's rate state: the global `rates` table, the `lastUpdate` time and
 * the text of the "last-update" slot, with the operations that fill them at
 * start-up. The network call, JSON decoding, the clock and the browser's date
 * formatting are inputs: a Response value, the current time and a format function.
 */
module Store {
  import opened Wrappers
  import opened Currencies
  import opened Rates

  /** The fixed US-dollar row installed when live rates cannot be had. */
  const DummyBase: Row := map[JPY := 149.8, EUR := 0.93, TRY := 32.45]

  /** Appended to the last-update text when the sample rates are shown. */
  const SampleSuffix: string := " (サンプルデータ)"

  /** The decoded JSON body: `data.rates` keyed by currency code, and `data.timestamp` in seconds. */
  datatype Payload = Payload(quotes: map<string, real>, timestamp: int)

  /**
   * The outcome of `fetch('/api/latest.json')`: a rejected promise, or a
   * response with its status and its body, None when `response.json()`
   * rejects or the body has no `rates` object.
   */
  datatype Response = NetworkError | Http(status: int, body: Option<Payload>)

  /** What a successful fetch yields: the US-dollar row and the update time in milliseconds. */
  datatype Snapshot = Snapshot(base: Row, time: int)

  /** `response.ok`: a status in the range 200-299. */
  predicate IsOk(status: int) {
    200 <= status <= 299
  }

  /** Every quote the page reads from the body is positive (the page divides by them unchecked). */
  predicate QuotesPositive(resp: Response) {
    resp.Http? && resp.body.Some? ==>
      var q := resp.body.value.quotes;
      (ApiCode(JPY) in q ==> q[ApiCode(JPY)] > 0.0) &&
      (ApiCode(EUR) in q ==> q[ApiCode(EUR)] > 0.0) &&
      (ApiCode(TRY) in q ==> q[ApiCode(TRY)] > 0.0)
  }

  /** The body carries a quote for each of JPY, EUR and TRY. */
  predicate HasQuotes(p: Payload) {
    forall c :: c in Quoted ==> ApiCode(c) in p.quotes
  }

  /**
   * The snapshot a response leads to, or None when start-up has to fall back
   * to the sample rates: a network error, a status outside 200-299, a body
   * that is not usable, or a body lacking one of the three quotes.
   */
  function Fetched(resp: Response): (r: Option<Snapshot>)
    ensures r.Some? <==> resp.Http? && IsOk(resp.status) && resp.body.Some? && HasQuotes(resp.body.value)
    ensures r.Some? ==>
      r.value.time == resp.body.value.timestamp * 1000 &&
      r.value.base.Keys == Quoted &&
      forall c :: c in Quoted ==> r.value.base[c] == resp.body.value.quotes[ApiCode(c)]
    ensures r.Some? && QuotesPositive(resp) ==> ValidBase(r.value.base)
  {
    match resp
    case NetworkError => None
    case Http(status, body) =>
      if !IsOk(status) || body.None? then None
      else
        var q := body.value.quotes;
        if ApiCode(JPY) in q && ApiCode(EUR) in q && ApiCode(TRY) in q then
          Some(Snapshot(map[JPY := q[ApiCode(JPY)], EUR := q[ApiCode(EUR)], TRY := q[ApiCode(TRY)]],
                        body.value.timestamp * 1000))
        else None
  }

  class RateStore {
    var rates: Table
    var lastUpdate: Option<int>    // milliseconds since the epoch
    var lastUpdateText: string     // the "last-update" slot of the page

    /** The state before start-up: an empty table and no update time. */
    constructor ()
      ensures rates == map[] && lastUpdate == None && lastUpdateText == ""
    {
      rates := map[];
      lastUpdate := None;
      lastUpdateText := "";
    }

    /** The table is the full derivation of its own US-dollar row. */
    predicate Ready()
      reads this
    {
      USD in rates && DerivedFrom(rates, rates[USD])
    }

    /**
     * Fills the EUR, JPY and TRY rows from the US-dollar row, in that order;
     * the JPY row reads the EUR row and the TRY row reads both. The US-dollar
     * row is left as it was and every entry comes out as the exact cross rate.
     */
    method CalculateCrossRates()
      requires USD in rates && ValidBase(rates[USD])
      modifies this`rates
      ensures Ready() && rates[USD] == old(rates[USD])
    {
      ghost var base := rates[USD];
      rates := rates[EUR := map[USD := 1.0 / rates[USD][EUR],
                               JPY := rates[USD][JPY] / rates[USD][EUR],
                               TRY := rates[USD][TRY] / rates[USD][EUR]]];
      QuotientInverse(base[EUR], base[JPY]);
      QuotientInverse(base[EUR], base[TRY]);
      rates := rates[JPY := map[USD := 1.0 / rates[USD][JPY],
                               EUR := 1.0 / rates[EUR][JPY],
                               TRY := rates[USD][TRY] / rates[USD][JPY]]];
      QuotientInverse(base[JPY], base[TRY]);
      rates := rates[TRY := map[USD := 1.0 / rates[USD][TRY],
                               EUR := 1.0 / rates[EUR][TRY],
                               JPY := 1.0 / rates[JPY][TRY]]];
      assert rates.Keys == AllCurrencies by {
        forall c | c in rates
          ensures c in AllCurrencies
        {
          InAll(c);
        }
      }
      CrossRowsDerived(rates, base);
    }

    /**
     * Stores the US-dollar row and the update time of a usable response and
     * derives the other rows; on any failure the state is left as it was.
     */
    method FetchRates(resp: Response) returns (ok: bool)
      requires Fetched(resp).Some? ==> ValidBase(Fetched(resp).value.base)
      modifies this`rates, this`lastUpdate
      ensures ok == Fetched(resp).Some?
      ensures ok ==> Ready() && rates[USD] == Fetched(resp).value.base &&
                     lastUpdate == Some(Fetched(resp).value.time)
      ensures !ok ==> rates == old(rates) && lastUpdate == old(lastUpdate)
    {
      if resp.NetworkError? || !IsOk(resp.status) || resp.body.None? {
        return false;
      }
      var q := resp.body.value.quotes;
      if !(ApiCode(JPY) in q && ApiCode(EUR) in q && ApiCode(TRY) in q) {
        return false;
      }
      var usd := map[JPY := q[ApiCode(JPY)], EUR := q[ApiCode(EUR)], TRY := q[ApiCode(TRY)]];
      assert Fetched(resp) == Some(Snapshot(usd, resp.body.value.timestamp * 1000));
      rates := rates[USD := usd];
      CalculateCrossRates();
      lastUpdate := Some(resp.body.value.timestamp * 1000);
      return true;
    }

    /** The part of the rate display the model keeps: the last-update text. */
    method UpdateRateDisplay(format: int -> string)
      requires Ready() && lastUpdate.Some?
      modifies this`lastUpdateText
      ensures lastUpdateText == format(lastUpdate.value)
    {
      lastUpdateText := format(lastUpdate.value);
    }

    /**
     * Replaces the whole table with the derivation of the fixed sample row,
     * takes the current time as the update time and marks the last-update
     * text as sample data.
     */
    method SetDummyData(now: int, format: int -> string)
      modifies this
      ensures Ready() && rates[USD] == DummyBase
      ensures lastUpdate == Some(now) && lastUpdateText == format(now) + SampleSuffix
    {
      rates := map[USD := DummyBase];
      CalculateCrossRates();
      lastUpdate := Some(now);
      UpdateRateDisplay(format);
      lastUpdateText := format(now) + SampleSuffix;
    }

    /**
     * Start-up: live rates when the fetch yields a usable response, otherwise
     * the sample rates, and in both cases a table that is fully derived.
     */
    method Initialize(resp: Response, now: int, format: int -> string)
      requires Fetched(resp).Some? ==> ValidBase(Fetched(resp).value.base)
      modifies this
      ensures Ready()
      ensures Fetched(resp).Some? ==>
        var s := Fetched(resp).value;
        rates[USD] == s.base && lastUpdate == Some(s.time) && lastUpdateText == format(s.time)
      ensures Fetched(resp).None? ==>
        rates[USD] == DummyBase && lastUpdate == Some(now) && lastUpdateText == format(now) + SampleSuffix
    {
      var ok := FetchRates(resp);
      if ok {
        UpdateRateDisplay(format);
      } else {
        SetDummyData(now, format);
      }
    }
  }

  /** The rows CalculateCrossRates writes, entry by entry, are the exact cross rates. */
  lemma CrossRowsDerived(t: Table, base: Row)
    requires ValidBase(base) && t.Keys == AllCurrencies && t[USD] == base
    requires t[EUR] == map[USD := 1.0 / base[EUR], JPY := base[JPY] / base[EUR], TRY := base[TRY] / base[EUR]]
    requires t[JPY] == map[USD := 1.0 / base[JPY], EUR := 1.0 / (base[JPY] / base[EUR]), TRY := base[TRY] / base[JPY]]
    requires t[TRY] == map[USD := 1.0 / base[TRY], EUR := 1.0 / (base[TRY] / base[EUR]),
                           JPY := 1.0 / (base[TRY] / base[JPY])]
    ensures DerivedFrom(t, base)
  {
    QuotientInverse(base[EUR], base[JPY]);
    QuotientInverse(base[EUR], base[TRY]);
    QuotientInverse(base[JPY], base[TRY]);
    forall x, y | x in t && y in t[x]
      ensures t[x][y] == Rate(base, x, y)
    {
    }
  }
}
