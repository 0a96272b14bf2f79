# Crypto dashboard decision logic

A model of the two pieces of decision logic in the crypto price dashboard
(`script.js`), lifted out of the browser code as pure functions over exact
`real` numbers:

- **Coin analysis** (`CoinAnalysis`, `coin_analysis.dfy`): the verdict shown
  for a searched coin. A first-match ladder over the coin's 24-hour and
  7-day price changes picks one of four outlooks. Each outlook comes with a
  recommendation (consider buying, avoid / set stop loss, hold / wait, hold)
  and a confidence (High or Medium). The panel also shows key levels taken
  from the current price: an entry zone at 98%–102%, a take profit at 108%
  and a stop loss at 94%.
- **Momentum signals** (`MomentumSignals`, `momentum_signals.dfy`): the
  momentum panel. Each coin's 24-hour change is resolved through the chain
  `price_change_percentage_24h || percent_change_24h || 0`. Coins that moved
  more than 5% either way are kept and sorted by size of move, largest first,
  and the first five are shown. Each shown coin is labelled buy / "strong
  momentum" when it rose and sell / "weak momentum" otherwise. An empty coin
  list leaves the panel untouched. A list without any significant move shows
  the "no strong momentum" placeholder.

`numbers.dfy` holds `Abs` (the model of `Math.abs`) and `Min`.

The comparator sort of the dashboard is the JavaScript `Array.prototype.sort`,
which is stable. The model sorts with a stable insertion sort and proves that
coins with equal moves keep their list order. This makes the shown rows
exactly the dashboard's rows, ties included.

The JavaScript `||` treats a missing field and a zero field alike. The model
gives each coin two optional change fields. A field counts only when it is
present and non-zero (`Truthy`).

## Model

| member | source | states |
|---|---|---|
| `CoinAnalysis.Analyze` | script.js:245-266 | Strong bullish / consider buying exactly when 24h > 10 and 7d > 15. Downturn / avoid exactly when 24h < -8 and 7d < -12 and the first rung failed. Consolidating / hold-wait exactly when neither strong rung holds and \|24h\| < 3. Moderate volatility / hold in every other case. Confidence is High exactly when one of the two strong rungs fires. Every pair of reals gets exactly one outlook. |
| `CoinAnalysis.StrongCasesExclusive` | script.js:250-257 | The strong-rise and sharp-fall conditions never hold together, so rung order cannot matter between them. |
| `CoinAnalysis.FlatDayMeansWait` | script.js:250-261 | A 24h change within 3% either way always gives consolidating / hold-wait / Medium, whatever the 7-day change. |
| `CoinAnalysis.LevelsAt` | script.js:281-286 | The entry zone is centred on the price and 4% of it wide. The take profit is 8% above and the stop loss 6% below, matching the "(+8%)" and "(-6%)" captions. For a positive price: stop loss < entry low < price < entry high < take profit. A zero price gives all-zero levels. |
| `MomentumSignals.ResolvedChange` | script.js:296 | The first present, non-zero change field wins, `price_change_percentage_24h` first. The result is 0 exactly when neither field is present and non-zero. |
| `MomentumSignals.Significant` | script.js:294-298 | Every kept coin moved more than 5%. Each qualifying coin is kept exactly as often as it occurs in the list, and every other coin is dropped. |
| `MomentumSignals.Insert` | script.js:299-303 | One sort step: the result holds the list's coins plus the new one, as a multiset, and is one longer. |
| `MomentumSignals.InsertKeepsOrder` | script.js:299-303 | Inserting into a list sorted by descending size of move keeps it sorted. |
| `MomentumSignals.SortByMagnitude` | script.js:299-303 | The sort result is a permutation of its input, of the same length, ordered by non-increasing \|change\|. |
| `MomentumSignals.InsertKeepsTies` | script.js:299-303 | An inserted coin goes before every coin with the same size of move. |
| `MomentumSignals.SortIsStable` | script.js:299-303 | For every move size, the coins of that size appear in the sorted list in their input order. |
| `MomentumSignals.SignificantKeepsTies` | script.js:294-298 | The filter keeps list order: for a size above 5 the coins of that size are those of the list, in order. For any other size there are none. |
| `MomentumSignals.Selection` | script.js:294-304 | The shown coins number min(5, number of qualifying coins). Each moved more than 5%. They form a sub-multiset of the coin list and are ordered by non-increasing \|change\|. |
| `MomentumSignals.SelectionIsTopFive` | script.js:299-304 | No qualifying coin left out has a larger \|change\| than any shown coin. |
| `MomentumSignals.SortedSplit` | script.js:299-304 | In a sorted list, nothing after a cut moved more than anything before it, so a prefix is a top-k. |
| `MomentumSignals.ShortSelectionIsComplete` | script.js:294-304 | Fewer than five rows are shown only when every qualifying coin is shown, with its full multiplicity. |
| `MomentumSignals.PrefixKeepsTies` | script.js:304 | Among coins with one size of move, those in a prefix are a prefix of those in the whole list. |
| `MomentumSignals.SelectionKeepsTieOrder` | script.js:294-304 | Among coins with equal moves, the shown ones are the first of them in the coin list, in list order. |
| `MomentumSignals.UnresolvedCoinNeverSelected` | script.js:295-298 | A coin with both change fields missing or zero resolves to 0 and is never shown. |
| `MomentumSignals.Label` | script.js:306-310 | A row is buy / "strong momentum" exactly when the resolved change is positive, and sell / "weak momentum" otherwise. It carries the coin and its resolved change. |
| `MomentumSignals.LabelAll` | script.js:306-322 | One labelled row per shown coin, in display order. |
| `MomentumSignals.GenerateMomentumSignals` | script.js:290-323 | An empty coin list leaves the panel unchanged. A non-empty list shows the placeholder exactly when no coin moved more than 5%. Otherwise it shows between one and five rows, the labels of the selection in order. |
| `MomentumSignals.ShownSignalsAreSignificant` | script.js:295-309 | Every shown row moved more than 5% either way. Its buy kind and its "strong momentum" text both hold exactly when the change is positive. |
| `MomentumSignals.EmptySelection` | script.js:294-323 | Nothing is selected exactly when no coin in the list moved more than 5%, which is when the placeholder appears. |

## Left out

- Network access: the `fetch` calls, the API endpoints and key, `testAPIs`, `fallbackToGecko` and the per-API loaders (script.js:1-30, 81-162, 220-237, 326-331). The coin list and the searched coin's market data are parameters of the model.
- The DOM and HTML templating: element lookups, `innerHTML`, the loading toggle, event binding and the symbol/name rendering of each row (script.js:39-79, 164-188, 268-287, 311-323, 340-342). The model returns the values the templates display. `Panel` stands for the three things a refresh does to the momentum panel.
- The 30-second auto-refresh timer (script.js:333-338), and the async control flow of `loadTopPrices` and `searchCoin`, including try/catch/finally. The model also leaves out how the global `state.currentAPI` and `state.coinsData` are updated. These only route data into the two functions.
- Floating point and formatting: `toLocaleString`, `toFixed`, IEEE rounding of `price * 0.98` and the like, and `NaN` or `undefined` change values. Change values and prices are exact reals here. In the source, an absent 24-hour or 7-day change makes the analysis panel fail: its `toFixed` call throws (script.js:272-273), and the search then shows "Search failed. Please try again." (script.js:212-214) instead of any verdict. The model has no absent change for the analysis.
- Coins whose 24-hour change sits only under the nested `quote.USD` object (read for the price cards at script.js:167) have neither top-level change field, so they resolve to 0 and never become momentum signals; the model's `Coin` carries only the two top-level fields.
