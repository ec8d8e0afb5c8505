# Crypto dashboard: a Dafny model of the dashboard's pure logic

The dashboard tracks a list of Binance pairs quoted in USDT. For each pair it
shows the last price, the 24-hour change and a 14-period RSI with an
overbought / oversold badge. This project models the logic behind those
figures, which lives in `public/app.js`:

- symbol normalisation and the `XXX/USDT` display form (`symbols.dfy`, module `Symbols`);
- Wilder's RSI over exact reals, as a functional definition and as the
  source's two loops, proved equal (`rsi.dfy`, module `Rsi`);
- the RSI badge (`rsi_badge.dfy`, module `Badges`);
- the reference price 24 hours back, picked as the kline whose close time is
  nearest, and the 24-hour change taken from it (`reference_price.dfy`, module `ReferencePrice`);
- assembling one table row from the decoded ticker and klines (`symbol_data.dfy`, module `SymbolData`);
- the tracked list: add, remove, and load at start-up (`tracked_list.dfy`, module `TrackedList`);
- `Option`, which stands for `null` and for "not a finite number" (`wrappers.dfy`).

Inputs the browser supplies become parameters. `Date.now()` is the `now`
argument. Decoded kline rows become `Kline` values, with a field that does
not convert to a finite number stored as `None`. What `localStorage` and
`JSON.parse` produce is a `Stored` value.

`loadSymbols` does not remove duplicates (`public/app.js:28`). Two saved
entries that normalise to the same symbol both load. Only adding refuses a
duplicate. Removing keeps a list free of duplicates if it already was, but
loading can bring duplicates in.

## Model

| member | source | states |
|---|---|---|
| Symbols.NormalizeSymbol | public/app.js:14-19 | the result is "" exactly when nothing survives cleaning; otherwise it is upper-case `A-Z0-9` ending in `USDT`; a cleaned value that already ends in `USDT` is not suffixed again, any other one gets `USDT` appended |
| Symbols.ToUpper | public/app.js:15 | a lower-case ASCII letter becomes the matching capital, 32 code points lower; every other character is unchanged; the result is in `A-Z0-9` exactly when the input is a letter of either case or a digit |
| Symbols.Clean | public/app.js:15 | the cleaned string holds only `A-Z0-9` and is never longer than the input; a single character is kept, upper-cased, exactly when its upper-case form is in `A-Z0-9` |
| Symbols.CleanConcat | public/app.js:15 | cleaning distributes over concatenation, so with the one-character case the result is every character upper-cased, the ones outside `A-Z0-9` dropped, the rest in input order |
| Symbols.NormalizeLowerCaseExample | public/app.js:14-19 | padded lower-case `btc` normalises to `BTCUSDT` |
| Symbols.CleanFixesSymbolChars | public/app.js:15 | upper-casing and dropping non-`A-Z0-9` characters leaves an already clean string unchanged |
| Symbols.NormalizedIsFixedPoint | public/app.js:14-19 | a string is a well-formed symbol (non-empty, `A-Z0-9`, ends in `USDT`) if and only if it is a non-empty fixed point of normalisation |
| Symbols.NormalizeIdempotent | public/app.js:14-19 | normalising twice equals normalising once |
| Symbols.FormatPair | public/app.js:100-105 | a symbol ending in `USDT` gains exactly one character, keeps its base prefix and ends in `/USDT`; any other symbol is shown unchanged |
| Symbols.FormatPairRoundTrip | public/app.js:100-105 | the display form determines the symbol: dropping the slash before `USDT` recovers every input, with or without the suffix |
| Rsi.Deltas | public/app.js:47 | one delta per consecutive pair of prices, each the later price minus the earlier one |
| Rsi.Gain | public/app.js:57 | the gain of a delta is non-negative and at least the delta, and zero for a delta that does not rise |
| Rsi.Loss | public/app.js:58 | the loss of a delta is non-negative, zero for a delta that does not fall, and the gain minus the loss is the delta itself |
| Rsi.Totals | public/app.js:43-50 | the summed gains and summed losses of the seed window are never negative |
| Rsi.Seed | public/app.js:52-53 | dividing the totals by the period keeps them non-negative, and the average loss is zero exactly when the summed loss is |
| Rsi.Wilder | public/app.js:59-60 | Wilder's update of a non-negative average by a non-negative value is non-negative |
| Rsi.Step | public/app.js:57-60 | one smoothing step keeps both averages non-negative |
| Rsi.Smooth | public/app.js:55-61 | Wilder smoothing keeps both averages non-negative at every step of the fold |
| Rsi.FinalAverages | public/app.js:43-61 | both averages after seeding and smoothing over all deltas are non-negative |
| Rsi.Index | public/app.js:63-66 | the index lies in [0, 100] and is exactly 100 if and only if the average loss is zero |
| Rsi.IndexIsGainShare | public/app.js:63-66 | with a positive average loss, `100 - 100/(1 + gain/loss)` equals the gain's share of the total movement, `100 * gain / (gain + loss)` |
| Rsi.CalculateRsi | public/app.js:38-67 | no RSI exactly when there are at most `period` prices; any RSI lies in [0, 100] and is 100 exactly when the final average loss is zero |
| Rsi.TotalLossZero | public/app.js:43-50 | the summed loss is zero if and only if no delta in the window is negative |
| Rsi.SmoothLossZero | public/app.js:55-61 | smoothing keeps a zero average loss at zero while no delta drops; with a period of 2 or more a zero result also shows that no delta dropped |
| Rsi.StepLossZero | public/app.js:58-60 | one smoothing step keeps a zero loss at zero on a delta that does not fall; with a period of 2 or more, a zero result means the loss was zero and the delta did not fall |
| Rsi.WilderZero | public/app.js:59-60 | Wilder's update of non-negative inputs is zero when both are zero, and with a period of 2 or more only then |
| Rsi.NoDropSaturates | public/app.js:43-63 | a series with no falling step and more than `period` prices has an RSI of exactly 100 |
| Rsi.SaturatedMeansNoDrop | public/app.js:43-63 | with a period of 2 or more, an RSI of exactly 100 means no price in the series fell |
| Rsi.SaturatedDeltas | public/app.js:43-63 | with a period of 2 or more, a zero final average loss means no delta in the series is negative |
| Rsi.PeriodOneSaturation | public/app.js:52-63 | with a period of 1, the RSI is 100 if and only if the last price did not fall |
| Rsi.TotalsFalling | public/app.js:43-50 | over only falling deltas the summed gain is zero and, if there is any delta, the summed loss is positive |
| Rsi.SmoothFalling | public/app.js:55-61 | smoothing over only falling deltas keeps the average gain at zero and the average loss positive |
| Rsi.FallingAverages | public/app.js:43-61 | when every delta falls, the final average gain is zero and the final average loss is positive |
| Rsi.FallingBottomsOut | public/app.js:43-66 | a series in which every price falls has an RSI of exactly 0 |
| Rsi.SumSeedWindow | public/app.js:43-50 | the first loop's `gains` and `losses` equal the summed gains and losses of the first `period` deltas |
| Rsi.SmoothRest | public/app.js:52-61 | the second loop's averages equal the Wilder fold over every delta after the seed window |
| Rsi.CalculateRsiLoop | public/app.js:38-67 | the loop-based computation returns the same result as the functional definition for every input |
| Badges.RsiBadge | public/app.js:69-74 | the badge is "no data" exactly for a missing RSI, overbought exactly above 70, oversold exactly below 30, neutral exactly on [30, 70] |
| Badges.BadgeOfSeries | public/app.js:38-74 | the badge of a computed RSI is "no data" if and only if the series is not longer than the period; a never-falling series is overbought and an always-falling one oversold |
| ReferencePrice.GetReferencePrice24h | public/app.js:77-98 | None exactly when no row has both a finite close time and a finite close price; otherwise the close price of the first usable row whose close time is nearest to `now - 24h` |
| ReferencePrice.Change24h | public/app.js:127-130 | with a positive reference price the change is non-negative exactly when the last price is at least the reference; otherwise it is the ticker's own percentage |
| ReferencePrice.ChangeRoundTrip | public/app.js:128-130 | applying the reference-based change to the reference price gives back the last price |
| SymbolData.ClosePrices | public/app.js:124 | never longer than the klines, as long when every close price is finite, and every value is some kline's close price; a single kline gives its price if finite and nothing otherwise |
| SymbolData.ClosePricesConcat | public/app.js:124 | extraction distributes over concatenation; with the single-kline case this pins the result as the finite close prices in kline order |
| SymbolData.FetchSymbolData | public/app.js:120-137 | fails exactly when the ticker carries no symbol; otherwise the row keeps the ticker's symbol and price, labels it with the display form, and has the RSI of the finite closes with the default window, present exactly when there are more than 14 of them; the change is measured from the close price of the first kline nearest to 24 hours before `now`, and is the ticker's own percentage when no kline is usable |
| TrackedList.AddSymbol | public/app.js:189-198 | blank input and an already-tracked symbol leave the list unchanged; any other input appends its normalised symbol at the end; well-formedness and absence of duplicates are preserved |
| TrackedList.AddIdempotent | public/app.js:193-198 | adding the same input twice equals adding it once |
| TrackedList.RemoveSymbol | public/app.js:212-215 | a blank symbol leaves the list unchanged; otherwise no occurrence of the removed symbol is left; every other symbol is present afterwards if and only if it was before; a symbol not in the list changes nothing; well-formedness and absence of duplicates are preserved |
| TrackedList.Filter | public/app.js:215 | the symbol does not occur in the result; every other symbol is in it exactly when it was in the list; a list without the symbol is returned unchanged; well-formedness and absence of duplicates are preserved |
| TrackedList.RemoveConcat | public/app.js:215 | removal distributes over concatenation, so the surviving entries keep their relative order |
| TrackedList.RemoveIdempotent | public/app.js:215 | removing twice equals removing once |
| TrackedList.AddThenRemove | public/app.js:189-215 | removing a symbol that was just added restores the original list |
| TrackedList.NormalizeAll | public/app.js:28 | the result is well-formed and no longer than the input; a symbol is in it exactly when it is non-empty and some saved entry normalises to it; a single entry gives its normalised symbol, or nothing when that is empty |
| TrackedList.NormalizeAllConcat | public/app.js:28 | normalising distributes over concatenation, so the loaded entries keep the saved order |
| TrackedList.LoadSymbols | public/app.js:21-32 | the loaded list is always well-formed; it is the three defaults unless storage holds a non-empty array of strings, and in that case it is the normalised entries with empty ones dropped |
| TrackedList.Encode | public/app.js:35 | the saved form is an array with one string per tracked symbol, in the same order |
| TrackedList.SaveLoadRoundTrip | public/app.js:21-36 | saving a non-empty well-formed list and loading it back gives the same list |
| TrackedList.EmptySaveRestoresDefaults | public/app.js:21-36 | a saved empty list loads as the three default pairs |

## Left out

- DOM access, event listeners, the HTML built for rows and badges, and
  number and time formatting (`toFixed`, `toLocaleString`, `toLocaleTimeString`).
  These are presentation only. The badge is modelled as an enumeration.
- The Binance `fetch` calls, their HTTP status checks, `Promise.all` and
  `Promise.allSettled`, and the `setInterval` refresh. These are network I/O
  and event-loop scheduling. `FetchSymbolData` takes the decoded ticker and
  klines as inputs. A klines payload that is not an array cannot be expressed
  with these inputs.
- `localStorage`, `JSON.parse` and `JSON.stringify`. `Stored` and `Encode`
  stand for what these produce.
- `Date.now()`: the current time is the `now` parameter.
- IEEE-754 doubles, NaN and Infinity. Prices are exact reals, and a value
  that is not finite is `None`. The ticker's last price and percentage are
  taken as finite.
- Rsi.CalculateRsi: requires `period >= 1`. The source does not check this.
  It is only ever called with the default 14. With a period of 0 it would
  divide by zero and yield NaN.
- Rsi.CalculateRsi: the `Array.isArray(prices)` guard is not modelled,
  because the input is always a sequence.
- Symbols.NormalizeSymbol: upper-casing is ASCII only. JavaScript's Unicode
  `toUpperCase` turns a few non-ASCII letters into ASCII ones, for example
  `ß` into `SS`, and the model does not.
- `trim()` in `normalizeSymbol` is not a separate step. Whitespace is dropped
  by the `A-Z0-9` filter anyway.
- `server.js` is not part of this model. It is static file serving with
  Node's `http`, `fs` and `path` libraries.
- SymbolData.FetchSymbolData: a `null` entry in the klines array makes
  `kline[4]` throw a TypeError, and the whole lookup fails. A `Kline` value
  cannot be `null`, so the contract's "fails exactly when the ticker carries
  no symbol" covers only well-shaped rows.
