# Currency converter: rate table and live field synchronisation

This project models the page logic of a four-currency converter (US dollar,
euro, Japanese yen, Turkish lira) in `script.js`.

At start-up the page fetches the dollar quotes for JPY, EUR and TRY. It
derives a full table of cross rates from them and records the update time.
When the fetch fails it installs a fixed sample dollar row, with the current
time and a "(サンプルデータ)" marker on the last-update text. On every edit
of one amount input, `convert(source)` rewrites the other three inputs: each
becomes the source amount times the cross rate, formatted with `toFixed(2)`.
A non-numeric source blanks them all.

Files:

- `currencies.dfy`: the four currencies and their API codes.
- `rates.dfy`: the table shape, the exact cross rate `r[y] / r[x]` (with
  `r[USD] = 1`) and the table invariants: positivity, reciprocity, the chain
  rule, the unchanged dollar row and uniqueness.
- `store.dfy`: the class `RateStore` holding the global `rates`, `lastUpdate`
  and the last-update text, with `calculateCrossRates`, `fetchRates`,
  `updateRateDisplay`, `setDummyData` and `initialize` as methods.
- `sync.dfy`: the class `FieldSet` holding the four `<input>` texts, with
  `convert` as a method. It is proved against the function `Synced`, and the
  lemmas about the conversion are stated on `Synced`.
- `fixed.dfy`: `toFixed(2)` over exact reals: the nearest hundredth, ties
  away from zero, a minus sign for negative numbers.
- `scenarios.dfy`: concrete conversions on the sample table.
- `wrappers.dfy`: an `Option` type.

The network response, the clock, the browser's date formatting and the two
built-ins `parseFloat` and `toFixed(2)` are inputs: a `Response` value, a
`now` time, a `format` function and a `Builtins` value.

Facts about the code that the model keeps:

- The sample dollar row is JPY 149.8, EUR 0.93, TRY 32.45 (script.js:141-147).
- `convert` formats every amount with `toFixed(2)` (script.js:114-134).
- Nothing checks the fetched quotes before they are stored and divided by (script.js:32-36).

## Model

| member | source | states |
|---|---|---|
| Currencies.ApiCode | script.js:33-35 | the key a currency is read under in `data.rates` is a three-character code |
| Currencies.ApiCodeInjective | script.js:33-35 | distinct currencies are read under distinct keys, so the three quotes are three different entries of `data.rates` |
| Rates.RateReciprocal | script.js:54-71 | the cross rates x→y and y→x multiply to exactly 1 |
| Rates.RateChain | script.js:54-71 | rate x→y times rate y→z is rate x→z |
| Rates.RateRoundTrip | script.js:112-136 | converting an amount x→y and back, before rounding, returns the amount |
| Rates.DerivedKeepsBase | script.js:52-73 | a derived table's US-dollar row is the base row unchanged |
| Rates.DerivedUnique | script.js:52-73 | two tables derived from the same dollar row are equal, so no trace of an earlier table survives |
| Rates.DerivedPositive | script.js:52-73 | every entry of a derived table is positive |
| Rates.DerivedReciprocal | script.js:52-73 | every entry of a derived table times its mirror entry is 1 |
| Rates.DerivedChained | script.js:52-73 | rates[x][y] * rates[y][z] == rates[x][z] for every triple of entries in a derived table |
| Store.IsOk | script.js:25 | `response.ok`: a status from 200 to 299 |
| Store.Fetched | script.js:20-49 | yields a snapshot exactly for an HTTP 2xx response whose body has the JPY, EUR and TRY quotes; the snapshot's row holds exactly those three quotes, its time is timestamp * 1000, and with positive quotes the row is a valid base |
| Store.RateStore.constructor | script.js:2-3 | the state before start-up: `rates` is the empty table and `lastUpdate` is null; the model starts the last-update text empty |
| Store.RateStore.CalculateCrossRates | script.js:52-73 | from a valid dollar row, writes the EUR, JPY and TRY rows so that every entry is the exact cross rate; the dollar row is unchanged |
| Store.RateStore.FetchRates | script.js:20-49 | succeeds exactly when the response is usable; then it stores that dollar row, derives the table and sets lastUpdate to timestamp * 1000; on failure the state is unchanged |
| Store.RateStore.UpdateRateDisplay | script.js:76-89 | the last-update text becomes the formatted lastUpdate |
| Store.RateStore.SetDummyData | script.js:140-160 | the table becomes the derivation of {JPY 149.8, EUR 0.93, TRY 32.45}, lastUpdate is now, and the text is the formatted time followed by " (サンプルデータ)" |
| Store.RateStore.Initialize | script.js:6-17 | always ends with a fully derived table: the fetched row, time and text on success, otherwise exactly the sample-data state |
| Sync.Synced | script.js:92-137 | the source input keeps its text |
| Sync.FieldSet.Value | script.js:100 | the text of the input for the given currency, as `document.getElementById(source).value` reads it (a plain definition) |
| Sync.FieldSet.Convert | script.js:92-137 | the four inputs end up as Synced of their earlier texts; a table is needed only when the source text is a number |
| Sync.SyncedBlanks | script.js:103-109 | a source text that parses to NaN leaves every other input empty, whatever the table holds, even before start-up |
| Sync.SyncedExact | script.js:112-136 | a numeric source v writes toFixed(2) of v * Rate(base, source, c) into every other input c |
| Sync.SyncedIdempotent | script.js:92-137 | converting a second time from the same input changes nothing |
| Sync.SyncedForgetsOthers | script.js:92-137 | the result depends only on the source text and the table, not on the other inputs' earlier texts |
| Fixed.ToFixed2 | script.js:114-134 | the `toFixed(2)` text used in the concrete runs: a sign, the whole hundreds of Hundredths, a point and its last two digits |
| Fixed.Hundredths | script.js:114 | the hundredths shown are within half a hundredth of the magnitude |
| Fixed.DigitsRoundTrip | script.js:114 | the decimal digits of n read back as n |
| Fixed.ToFixed2Denotes | script.js:114 | the text is an optional minus sign (present exactly for negatives), digits, a point and two digits that spell the rounded hundredths |
| Scenarios.SampleHundredDollars | script.js:118-121 | on the sample table, 100 dollars fills in "14980.00" yen, "93.00" euro and "3245.00" lira |
| Scenarios.SampleYenBack | script.js:113-114 | on the sample table, 14980 yen gives "100.00" dollars |
| Scenarios.ServerErrorFallsBack | script.js:25-26 | a status-500 response leads to the fallback whatever its body carries |
| Scenarios.SampleRates | script.js:141-147 | the exact cross rates of the sample row that the two runs use |

## Left out

- The proxy function that forwards the request to Open Exchange Rates: it is a separate deployment concern, and the page sees only its response.
- `fetch`, `response.json()` and the network: a `Response` value stands for their outcome; a rejected promise and a body without a `rates` object are both failures.
- `new Date()`, `Date` arithmetic and `toLocaleString()`: the model uses a `now` time in milliseconds and a `format` function.
- UpdateRateDisplay's six rate slots (`usd-jpy` … `eur-try`, with 2 or 4 decimals): presentation only; the model keeps just the last-update text.
- Floating point: rates and amounts are exact reals, so the reciprocal and chain identities hold exactly, where IEEE doubles hold them only up to rounding.
- The `parseFloat` grammar and an `Infinity` result: the parse is a supplied function yielding a number or NaN.
- `toFixed` for magnitudes of 1e21 and above (exponent form): Fixed.ToFixed2 covers only the plain-digit form.
- The `DOMContentLoaded` listener and the input event wiring: they only call `initialize` and `convert`.
- The initial text of the `#last-update` slot: it comes from the page markup, which is not part of this model; Initialize writes the slot on both paths before anything reads it.
- Logging: the two `console.error` calls and the `APIエラー` message of the rethrown error are effects nothing reads.
- Store.RateStore.FetchRates: a body lacking one of the three quotes counts as a failed fetch with the state unchanged. The code instead stores `undefined` and NaN rows, and then fails in `updateRateDisplay` with a TypeError. Both reach the same fallback, so Initialize's final state is the same.
- Store.RateStore.FetchRates: requires that, when the response is usable, its three quotes are positive, since the code then divides by them unchecked. A failing response may carry any quotes.
- Store.RateStore.Initialize: requires positive quotes only in a usable response, for the same reason. A failing response with any body falls back to the sample rates.
- Sync.FieldSet.Convert: requires a table with every cross entry when the source text is a number. Converting a number before start-up ends (`rates` still `{}`) throws a TypeError in the code at the first `rates.<source>.<target>` read, and that path is not modelled. A non-numeric source before start-up is modelled: it blanks the other inputs.
- Sync.FieldSet.Convert: the `source` argument is one of the four currencies. The code's `switch` has no default branch for other strings.
