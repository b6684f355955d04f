# Wallet Analyzer: a Dafny model of the snapshot fetch, the portfolio aggregation and the address search

The Wallet Analyzer is a single-page dashboard. It takes a blockchain wallet
address, either from a connected wallet or typed into a search field. It asks
an analytics service for the wallet's reputation, token balances, NFT
analytics and token prices, and renders the result. This project models the
two pieces of deterministic logic in it:

- **The analysis view** (`components/analysis.tsx`). It holds five state
  cells: token balances, token prices, NFT data, reputation score and a
  loading flag. On every address change they are reset to their defaults.
  Then the fetch sequence runs: the reputation score (`100 - risk`), the
  balance list, the first NFT analytics record, and then one price request
  per balance, in order. Each price goes into a price record, and the
  record is published once the loop ends. From the balances and the prices,
  the view derives portfolio entries (a missing price counts as 0, and
  value = quantity × price) and their total value.
- **The analyzer page** (`components/wallet-analyzer.tsx`). It has an
  address validator (`0x` followed by exactly 40 hexadecimal digits) and
  the search, clear, connect and disconnect handlers over
  `{address, error, showAnalysis, searchedAddress}`. It derives the active
  address and the condition under which the analysis is shown, and it
  shortens addresses for display.

Files:

- `wallet_types.dfy` (module `WalletTypes`): the record shapes, an `Option`,
  and the placeholder forecast series that every portfolio entry carries
  (`lib/mock-data.ts` lines 21-26).
- `portfolio.dfy` (module `Portfolio`): the transform and the total value.
  The total is a left fold from 0, proved equal to a right-recursive sum and
  to the sum of quantity × resolved price over the balances.
- `price_loop.dfy` (module `PriceLoop`): the per-token price loop.
  `PricesAfter` specifies it and `CollectPrices` implements it, with lemmas
  about which keys the record gets and which value each key holds.
- `analysis.dfy` (module `Analysis`): the class `AnalysisView` with the five
  cells. It has the reset, proved against the defaults `Defaults`; the
  fetch sequence, proved against the function `FetchResult`; and the
  address-change handler, proved against the function `Loaded`.
- `search.dfy` (module `Search`): the validator, the pure transitions of
  the page's record, the class `WalletAnalyzer` whose handlers are proved
  against those transitions, the active address, the show-analysis
  condition and the abbreviation.

HTTP responses are inputs. The reputation response is an optional risk
score. The balance response is an optional list. The NFT response either
failed or holds a list. The per-token metrics responses are a sequence
indexed by balance position, and a position with no response counts as a
failed request. The API-key lookup is a boolean. The connected wallet (is
it connected, what is its address) and the outcome of a connection attempt
are inputs too.

Two behaviours of the fetch sequence shape the model:

- All steps share one `try` block (`components/analysis.tsx` lines
  116-179), so a failure in the reputation, balance or NFT step skips every
  later step and leaves their cells at the defaults.
- One price request is issued per balance entry, in balance order,
  duplicates included. For a repeated address, the last response that
  carried data wins.

## Model

| member | source | states |
|---|---|---|
| Portfolio.EntryOf | components/analysis.tsx:190-202 | name, symbol and balance copied from the token; price is the recorded price for its address, or 0 when there is none; value = quantity × price; predictions are the placeholder series |
| Portfolio.TransformPortfolio | components/analysis.tsx:189-203 | one entry per balance, same length and order, the i-th being the entry derived from the i-th balance |
| Portfolio.FoldValuesIsShiftedSum | components/analysis.tsx:205-208 | folding the values left to right from an accumulator gives the accumulator plus the sum of the values |
| Portfolio.TotalValue | components/analysis.tsx:205-208 | the total folded from 0 equals the sum of the entries' values, so an empty portfolio totals 0 |
| Portfolio.TotalValueIsHoldingsValue | components/analysis.tsx:189-208 | the total of the transformed portfolio is the sum of quantity × resolved price (0 when missing) over all balances |
| Portfolio.UnpricedPortfolioIsWorthZero | components/analysis.tsx:190-191 | with an empty price record, every balance is valued at 0, so the total is 0 |
| Portfolio.HoldingsValueNonNegative | components/analysis.tsx:189-208 | with non-negative quantities and prices, the total value is non-negative |
| PriceLoop.PriceKeysAreReportedTokens | components/analysis.tsx:148-167 | an address is a key of the price record iff some handled balance has that address and its metrics response had at least one record |
| PriceLoop.PriceKeysWithinBalances | components/analysis.tsx:148-177 | every key of the finished price record is the token address of a fetched balance |
| PriceLoop.PriceIsLastReport | components/analysis.tsx:161-163 | a stored price is `data[0].current_price` of a response for that address, and no later balance with the same address got data back |
| PriceLoop.PriceDependsOnlyOnOwnRequests | components/analysis.tsx:149-173 | the entry for an address depends only on the responses to the requests for balances with that address |
| PriceLoop.FailedRequestSkipsOnlyItsToken | components/analysis.tsx:168-173 | turning one token's response into a failure leaves the entries of all other addresses unchanged, because the loop goes on past a caught error |
| PriceLoop.CollectPrices | components/analysis.tsx:148-177 | the loop returns exactly the specified record `PricesAfter` over all balances, keyed only by fetched addresses, and requests the balances' addresses one by one in balance order |
| Analysis.RunSteps | components/analysis.tsx:116-179 | the try block: the loading flag is untouched; a failed reputation step changes nothing; the score becomes `100 - risk` when it succeeds; balances, NFT data and prices stay as they were unless the balance step succeeds, and then the balances are the fetched list; a failed NFT step leaves NFT data and prices as they were; NFT data changes only to the first record of a non-empty list, and it becomes that record whenever all three steps succeed and the list is non-empty; when all three steps succeed the prices are the loop's record |
| Analysis.FetchResult | components/analysis.tsx:103-183 | without an address or an API key the sequence returns early and changes nothing, so the loading flag stays set; otherwise the loading flag ends cleared |
| Analysis.Loaded | components/analysis.tsx:95-186 | after reset and fetch: loading iff the sequence returned early; score is `100 - risk` (no clamping) when the reputation step succeeded, else 0; balances are the fetched list when both earlier steps succeeded, else []; NFT data is the first record only when all three steps succeeded and the list is non-empty, else null; prices come from the loop only when all three steps succeeded, else {}; every price key is a held token's address |
| Analysis.AnalysisView.constructor | components/analysis.tsx:89-93 | the cells start as [], {}, null, 0 and loading |
| Analysis.AnalysisView.ResetState | components/analysis.tsx:96-101 | every cell is back to its default: [], {}, null, 0, loading |
| Analysis.AnalysisView.FetchData | components/analysis.tsx:103-183 | the cells become `FetchResult` of their previous values |
| Analysis.AnalysisView.OnWalletAddressChange | components/analysis.tsx:95-186 | after an address change the cells equal `Loaded`, which does not depend on anything from the previous address |
| Search.IsEthereumAddress | components/wallet-analyzer.tsx:117-118 | the regex test: an accepted input has length 42, starts with "0x" and has only hexadecimal digits (either case) after it |
| Search.AddressPatternShape | components/wallet-analyzer.tsx:116-121 | an input is accepted iff it is "0x" followed by exactly 40 characters from [0-9a-fA-F], so every accepted address has length 42 |
| Search.EditAddress | components/wallet-analyzer.tsx:194-198 | typing replaces the input text and nothing else |
| Search.SearchWallet | components/wallet-analyzer.tsx:110-130 | the error is cleared iff the input is a valid address; an empty input gives "Please enter a wallet address", another invalid one gives the validity error; only a valid input becomes the searched address and turns the analysis on; otherwise nothing but the error changes; a well-formed searched address stays well-formed |
| Search.ClearSearch | components/wallet-analyzer.tsx:172-176 | searched address "", analysis off, input "", error kept |
| Search.DisconnectWallet | components/wallet-analyzer.tsx:105-108 | the analysis is turned off and nothing else changes |
| Search.ConnectWallet | components/wallet-analyzer.tsx:95-103 | the error ends empty iff `connect` returned without throwing, and then the searched address is cleared; a thrown Error leaves its message as the error, anything else "Failed to connect wallet"; input and analysis flag unchanged |
| Search.ActiveWalletAddress | components/wallet-analyzer.tsx:133 | the connected address when non-empty, otherwise the searched one; empty only when both are |
| Search.ShowsAnalysis | components/wallet-analyzer.tsx:162 | shown iff (connected or the analysis flag is on) and the active address is non-empty; when shown, the analysed address is the connected one or a well-formed address |
| Search.Abbreviate | components/wallet-analyzer.tsx:145-168 | used for the connected address (lines 145-146) and the searched address (lines 167-168): the first 6 characters (all when fewer), then "...", then the last 4 characters (all when fewer); a valid address shortens to 13 characters starting "0x" |
| Search.WalletAnalyzer.constructor | components/wallet-analyzer.tsx:87-90 | the page starts with empty input, no error, analysis off, no searched address |
| Search.WalletAnalyzer.SetAddress | components/wallet-analyzer.tsx:197 | the cells become `EditAddress` of their previous values |
| Search.WalletAnalyzer.HandleSearchWallet | components/wallet-analyzer.tsx:110-130 | the cells become `SearchWallet` of their previous values; the searched address stays "" or well-formed |
| Search.WalletAnalyzer.HandleClear | components/wallet-analyzer.tsx:172-176 | the cells become `ClearSearch` of their previous values |
| Search.WalletAnalyzer.HandleDisconnectWallet | components/wallet-analyzer.tsx:105-108 | the cells become `DisconnectWallet` of their previous values |
| Search.WalletAnalyzer.HandleConnectWallet | components/wallet-analyzer.tsx:95-103 | the cells become `ConnectWallet` of their previous values and the connection outcome |

## Left out

- HTTP requests, URLs, headers, `response.json()`, the environment lookup of the API key and console logging. These are I/O. Each response is an input and the key lookup is a boolean.
- A balance response whose `data` field is missing is left out. The source would store `undefined` as the balances, still run the NFT step, and then throw when the price loop starts, so the prices stay {}. The next render would then throw too, because the portfolio transform maps over `undefined` balances (`components/analysis.tsx` line 189). The model treats the balance response as either a failure or a list.
- Stale in-flight responses writing into the cells after the address has changed again. This is event-loop concurrency, and the source has no guard against it. `OnWalletAddressChange` runs the reset and the whole fetch sequence for one address without interleaving.
- Renders between awaits. `FetchData` updates the cells in the source's order, but the contracts state only the final state. Likewise `HandleConnectWallet` clears the error before awaiting `connect` (`components/wallet-analyzer.tsx` lines 96-98), so the page renders with no error while the connection is pending; its contract states only the state after `connect` has returned or thrown.
- Floating-point behaviour. Quantities, prices and values are exact reals, so rounding, NaN from `parseInt`, the `|| 0` treatment of NaN and `toFixed` formatting are not modelled. The risk score is an integer.
- Whether `connect` throws when a connection fails depends on the connection library; a mutation-style `connect` may report failure through hook state and return normally, which the handler then treats like a success (searched address cleared, no error). The model takes "returned or threw" as the input `ConnectOutcome` and does not say whether a wallet got connected.
- The wallet-connection library (`useConnect`, `useAccount`, `useDisconnect`) and its pending flag. The connected state, the connected address and the outcome of a connection attempt are inputs.
- The `catch` of the search handler ("Failed to search wallet"). Setting state cannot throw, so that branch is unreachable.
- JSX rendering, the cards, the charts, animations and the percentage bar of the portfolio distribution card, which divides by the total value. These are presentation only.
- The forecast series is a constant (`PlaceholderPredictions`). It is copied into every portfolio entry and is not derived from fetched data.
