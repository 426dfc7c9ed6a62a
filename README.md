# Multi-chain DeFi dashboard: a Dafny model of its logic

The dashboard is a Next.js / React front end. A user connects a wallet and
sees a portfolio overview, a searchable token list with balances, DeFi
positions by protocol type, a synthetic price chart and a list of recent
transactions. Almost all of the data is mock data made inside the
components and hooks. This project models the logic underneath the markup:

- **Price chart** (`PriceChart`):
  - the number of points per time range;
  - the countdown loop that builds the series as a bounded multiplicative
    random walk with strictly increasing timestamps;
  - the guarded percentage change;
  - the token lookup;
  - the padded min/max scaling and the SVG path commands.
- **Data hooks** (`TokenBalance`, `DeFiPositions`, `PortfolioValue`): one
  class per hook, holding its state cells (data, `isLoading`, `error`) and
  three methods: `OnEffect`, which either resets the state when there is
  no address or starts a fetch (its result says which), then `Succeed` or
  `Fail` (each including `finally`). This part also covers the mock
  balance generator and the mock tables.
- **List filters**:
  - the case-insensitive token search (`TokenList`);
  - the DeFi tab filter (`DeFiProtocols`).
- **Small tables and choices**:
  - address truncation (`Utils`);
  - chain names, colours and labels of the transaction list
    (`TransactionHistory`);
  - the chain menu (`ChainSelector`);
  - the wallet button text (`ConnectButton`);
  - the page's four views (`DashboardPage`);
  - the retry predicate and configured chains of `app/provider.tsx`
    (`AppProvider`);
  - the per-chain transports of `app/providers.tsx`, the provider file the
    layout actually imports (`AppProviders`).

Helper modules:

- `Js` states the JavaScript built-ins the code relies on:
  - truthiness and `||` of optional strings;
  - `slice` with negative and out-of-range indices;
  - `includes`, `toLowerCase`, `charAt(0).toUpperCase() + slice(1)`;
  - `Array.prototype.filter` and `find`;
  - non-finite numbers.
- `Registry` holds the token and chain records. Their definitions
  (`@/lib/tokens`, and the wallet library's chain objects behind
  `lib/chains.ts`) are not part of this model, so callers pass both
  registries in as sequences.
- `Fetch` is the error cell the three hooks share.
- `Wrappers` holds `Option`.

Conventions:

- Inputs stand in for the outside world. Each `Math.random()` call is an
  explicit draw in [0, 1). A clock reading is an integer number of
  milliseconds. An environment variable is an `Option<string>`. The wallet
  library's `address`, `isConnected`, `isConnecting`, `ensName` and
  `chainId` are parameters.
- Prices and amounts are `real`.
- Where JavaScript would produce NaN or Infinity, the model returns
  `NonFinite`. One exception: `Math.min()` / `Math.max()` of the empty
  series (Infinity / -Infinity) is modelled as the absent scale `None` of
  `PriceChart.ChartScale`.

## Model

| member | source | states |
|---|---|---|
| Utils.TruncateAddress | lib/utils.ts:10-13 | the empty address gives ""; any other address gives its first min(6, n) characters, "..." and its last min(4, n) characters |
| Utils.TruncateLength | lib/utils.ts:12 | a non-empty result has min(6, n) + 3 + min(4, n) characters |
| Utils.TruncateFullAddress | lib/utils.ts:12 | a 42-character address is shown in 13 characters |
| Utils.TruncateKeepsEnds | lib/utils.ts:12 | with at least six characters, the result begins with the first six, then "...", and ends with the last four |
| Utils.TruncateShortRepeats | lib/utils.ts:12 | "abc" gives "abc...abc": the negative slice clamps to the start, so characters repeat |
| Js.Truthy | app/providers.tsx:17 | a string-or-nullish value is truthy iff it is present and not ""; the fallbacks `Js.OrElse`, `AppProviders.ProjectId` and `Utils.TruncateAddress` are stated with it |
| Js.OrElse | app/providers.tsx:27 | an optional string is used when present and non-empty; otherwise the fallback is used |
| Js.ClampIndex | lib/utils.ts:12 | slice's index normalisation: a negative index counts back from the end; the result is clamped to [0, len] |
| Js.Slice | lib/utils.ts:12 | `s.slice(start, end)` between the two clamped indices; its own contract states only that the result is never longer than s, and `Js.SlicePrefix` and `Js.SliceSuffix` give its value in closed form for the two uses in the source |
| Js.SliceFrom | DeFiProtocols.tsx:132 | `s.slice(start)` is `s.slice(start, length of s)`, never longer than s; `Js.Capitalize` states what it keeps |
| Js.SlicePrefix | lib/utils.ts:12 | `s.slice(0, n)` is the first min(n, length of s) characters |
| Js.SliceSuffix | lib/utils.ts:12 | `s.slice(-n)` is the last min(n, length of s) characters |
| Js.Includes | TokenList.tsx:24-25 | `s.includes(q)` holds iff q occurs in s at some position |
| Js.IncludesEmpty | TokenList.tsx:24-25 | every string includes "" |
| Js.ToLower | TokenList.tsx:24-25 | lower-casing keeps the length and maps each character |
| Js.ToLowerIdempotent | TokenList.tsx:24-25 | lower-casing twice is lower-casing once |
| Js.Capitalize | DeFiProtocols.tsx:132 | same length; the first character is upper-cased and the rest is kept |
| Js.Filter | DeFiProtocols.tsx:23-25 | `s.filter(p)` is never longer than s; what it keeps is stated by `Js.FilterMembers`, `Js.FilterMultiset` and `Js.FilterIsSubsequence` |
| Js.FilterMembers | DeFiProtocols.tsx:23-25 | a filter keeps only input elements that satisfy the predicate, and keeps every one of them |
| Js.FilterMultiset | TokenList.tsx:23-26 | a filter keeps every copy of an element that satisfies the predicate and no copy of one that does not |
| Js.FilterIsSubsequence | TokenList.tsx:23-26 | a filter's result is an order-preserving subsequence of its input |
| Js.FilterKeepsAll | TokenList.tsx:23-26 | a predicate that every element satisfies filters nothing out |
| Js.FilterIdempotent | TokenList.tsx:23-26 | filtering twice with the same predicate is filtering once |
| Js.FilterSamePredicate | TokenList.tsx:23-26 | predicates that agree on every element give the same filter |
| Js.Find | ChainSelector.tsx:15 | `find` gives nothing iff no element matches; otherwise it gives the element at the first matching index |
| PriceChart.DataPoints | PriceChart.tsx:36 | the interval count of every range is between 7 and 365 |
| PriceChart.DataPointsTable | PriceChart.tsx:36 | 1D, 1W, 1M and 1Y give 24, 7, 30 and 365 |
| PriceChart.StepMillis | PriceChart.tsx:45-53 | points are one hour apart for 1D and one day apart for the other ranges; the spacing is positive |
| PriceChart.StepFactor | PriceChart.tsx:56-57 | the factor `1 + (r - 0.5) * 2 * 0.03` of one draw; `PriceChart.StepFactorBounds` bounds it |
| PriceChart.Step | PriceChart.tsx:57 | one step multiplies the price by the draw's factor; `PriceChart.StepRatio` bounds the result |
| PriceChart.PriceAfter | PriceChart.tsx:40-57 | the price after one step per draw, the draws applied in order; `PriceChart.PriceAfterPositive` and `PriceChart.PriceAfterBounds` state its sign and envelope |
| PriceChart.StepFactorBounds | PriceChart.tsx:55-57 | a draw in [0, 1) multiplies the price by a factor in [0.97, 1.03) |
| PriceChart.StepRatio | PriceChart.tsx:55-57 | one step from a positive price lands between 0.97 and 1.03 times it (upper bound exclusive) |
| PriceChart.PriceAfterPositive | PriceChart.tsx:40-57 | a positive start price stays positive through any number of steps |
| PriceChart.PriceAfterBounds | PriceChart.tsx:40-57 | after n steps the price lies between start · 0.97^n and start · 1.03^n |
| PriceChart.Series | PriceChart.tsx:42-62 | the series the loop pushes: N + 1 points, point k stamped N − k steps before now, carrying the price after k + 1 draws; its shape, order and walk are stated by the lemmas below |
| PriceChart.BuildSeries | PriceChart.tsx:42-63 | the countdown loop from N to 0 builds exactly the series `Series`: N + 1 points, point k stamped N − k steps before now, carrying the price after k + 1 draws |
| PriceChart.SeriesShape | PriceChart.tsx:42-63 | the series has N + 1 points (8 for 1W), and the last one is stamped now |
| PriceChart.SeriesTimesIncrease | PriceChart.tsx:42-53 | timestamps strictly increase along the series |
| PriceChart.SeriesWalk | PriceChart.tsx:40-62 | the first stored price is already one step from the token's price; each later price is the previous one moved by the next draw |
| PriceChart.SeriesBoundedSteps | PriceChart.tsx:55-57 | from a positive price, every point is positive and each step's ratio lies in [0.97, 1.03) |
| PriceChart.PriceChange | PriceChart.tsx:71-73 | the change is non-finite exactly when there are at least two points and the first price is 0 |
| PriceChart.PriceChangeShortSeries | PriceChart.tsx:71-73 | fewer than two points give a change of exactly 0 |
| PriceChart.PriceChangeSign | PriceChart.tsx:71-73 | with a positive first price, the change is finite, and it is non-negative iff the last price is at least the first |
| PriceChart.SeriesChange | PriceChart.tsx:71-73 | a generated series from a positive price has a finite change, whose sign follows the walk's net move |
| PriceChart.ChartToken | PriceChart.tsx:20-22 | with no selection: the first registry token, or none for an empty registry; with a selection: a registry token with that address, and one exists iff any token has that address |
| PriceChart.ChartTokenIsFirstMatch | PriceChart.tsx:20-22 | with a selection, the chart follows the first registry token carrying that address, as `find` does |
| PriceChart.Prices | PriceChart.tsx:76 | the prices of the points, in order |
| PriceChart.SeqMin | PriceChart.tsx:77 | `Math.min` of a non-empty list is an element of it and no element is below it |
| PriceChart.SeqMax | PriceChart.tsx:78 | `Math.max` of a non-empty list is an element of it and no element is above it |
| PriceChart.ChartScale | PriceChart.tsx:76-79 | a scale exists iff the series is non-empty (`Math.min()` of nothing is Infinity) |
| PriceChart.PlotY | PriceChart.tsx:168 | the plotted y is non-finite exactly when the price range is zero |
| PriceChart.LinePath | PriceChart.tsx:166-170 | one command per point; point i is at x = i; only the first command is a move |
| PriceChart.AreaPath | PriceChart.tsx:182-189 | the line's commands, then down to the baseline at the last x, back to x = 0, then close |
| PriceChart.PlotInsideChart | PriceChart.tsx:166-170 | for a non-empty series of positive prices, with the one-percent padding of lines 77-79, every plotted y is finite and strictly inside (0, 100) |
| PriceChart.BodyFor | PriceChart.tsx:138-146 | the spinner iff loading; the plot iff not loading and a token is shown; the prompt otherwise |
| PriceChart.ChartView.constructor | PriceChart.tsx:16-18 | starts on 1W, not loading, with no data |
| PriceChart.ChartView.SelectRange | PriceChart.tsx:122 | a range click sets the range and nothing else |
| PriceChart.ChartView.OnEffect | PriceChart.tsx:27-33 | with no token nothing happens; otherwise loading starts and a generation of the current token and range is scheduled |
| PriceChart.ChartView.OnTimeout | PriceChart.tsx:33-67 | the timer stores the series of the captured token and range, and loading stops |
| Fetch.Caught | hooks/useTokenBalance.ts:47 | an `Error` is stored as it is; any other thrown value becomes an error carrying the hook's message |
| TokenBalance.EffectivePrice | hooks/useTokenBalance.ts:38 | a zero price becomes 1 and any other price is kept, so the divisor is never 0 |
| TokenBalance.MockBalance | hooks/useTokenBalance.ts:37-39 | one balance: `(10r + 0.1) * (100 / (price or 1)) / 100`; `TokenBalance.MockBalanceBounds` and `TokenBalance.MockBalancePositive` bound it |
| TokenBalance.MockBalanceBounds | hooks/useTokenBalance.ts:37-39 | with effective price p > 0, a balance lies in [0.1 / p, 10.1 / p) |
| TokenBalance.MockBalancePositive | hooks/useTokenBalance.ts:37-39 | a positive price gives a positive balance |
| TokenBalance.MockBalances | hooks/useTokenBalance.ts:32-42 | the record after visiting the registry in order, each token writing its address; its keys, entries and size are stated by the `MockBalances…` lemmas |
| TokenBalance.GenerateBalances | hooks/useTokenBalance.ts:32-42 | the `forEach` fills the record exactly as `MockBalances` describes: tokens in order, later writes to an address win |
| TokenBalance.MockBalancesKeys | hooks/useTokenBalance.ts:32-42 | the keys of the record are exactly the registry's addresses |
| TokenBalance.MockBalancesValue | hooks/useTokenBalance.ts:34-41 | the entry for an address is the balance computed for the last token with that address |
| TokenBalance.MockBalancesSize | hooks/useTokenBalance.ts:32-42 | with distinct addresses there is one entry per token |
| TokenBalance.MockBalancesPositive | hooks/useTokenBalance.ts:37-39 | with positive prices, every generated balance is positive |
| TokenBalance.TokenBalanceHook.Consistent | hooks/useTokenBalance.ts:45-50 | a stored error implies loading has ended; every constructor and method of the hook keeps it, and `TokenList.HookErrorIsShown` relies on it |
| TokenBalance.TokenBalanceHook.constructor | hooks/useTokenBalance.ts:9-11 | `{}`, loading, no error |
| TokenBalance.TokenBalanceHook.OnEffect | hooks/useTokenBalance.ts:13-22 | without an address: `{}`, not loading, no fetch; with one: a fetch starts, loading, error cleared; the chain id changes nothing |
| TokenBalance.TokenBalanceHook.Succeed | hooks/useTokenBalance.ts:31-50 | the generated record replaces the balances (it does not depend on the chain id), and loading ends |
| TokenBalance.TokenBalanceHook.Fail | hooks/useTokenBalance.ts:45-50 | the error is stored, the balances are kept, and loading ends |
| TokenList.Matches | TokenList.tsx:24-25 | the lower-cased name or the lower-cased symbol includes the lower-cased query; `TokenList.FilterTokens` is stated with it |
| TokenList.FilterTokens | TokenList.tsx:23-26 | a token is listed iff its lower-cased name or symbol includes the lower-cased query; the listed tokens are registry tokens |
| TokenList.FilterEmptyQuery | TokenList.tsx:21-26 | the empty query lists the whole registry, in registry order |
| TokenList.FilterOrderAndIdempotence | TokenList.tsx:23-26 | the list is an order-preserving subsequence of the registry, and filtering it again with the same query changes nothing |
| TokenList.FilterIgnoresQueryCase | TokenList.tsx:23-26 | a query and its lower-case form list the same tokens |
| TokenList.FilterTokensCount | TokenList.tsx:23-26 | a token record the registry repeats is listed as often as it occurs there if it matches, and not at all otherwise |
| TokenList.DisplayBalance | TokenList.tsx:79 | an absent address shows 0; a present one shows its entry (a 0 entry falls back to 0 as well) |
| TokenList.TokenValue | TokenList.tsx:106 | a zero balance is worth 0; non-negative price and balance give a non-negative value |
| TokenList.FractionDigits | TokenList.tsx:138-139 | 4 fraction digits iff decimals > 6, else 2 |
| TokenList.RowsFor | TokenList.tsx:77-82 | one row per filtered token, with its displayed balance, selected iff the selection equals its address |
| TokenList.BodyFor | TokenList.tsx:58-90 | loading outranks an error and an error outranks the list; the rows are the filtered tokens; "No tokens found" iff the filtered list is empty |
| TokenList.HookErrorIsShown | TokenList.tsx:58-64 | in every state the balance hook keeps, a stored fetch error is what the list area shows; the spinner never hides it |
| TokenList.TokenSearch.Visible | TokenList.tsx:23-26 | the tokens the current query lists, that is `TokenList.FilterTokens` of the search state; the constructor states it is the whole registry |
| TokenList.TokenSearch.constructor | TokenList.tsx:21 | the query starts empty, so the whole registry is visible |
| TokenList.TokenSearch.OnInput | TokenList.tsx:36 | typing replaces the query |
| DeFiPositions.MockPositions | hooks/useDeFiPositions.ts:45-124 | the six hard-coded positions, in source order; `DeFiPositions.MockPositionsIds` and `DeFiPositions.MockPositionsPositive` state their facts |
| DeFiPositions.MockPositionsIds | hooks/useDeFiPositions.ts:45-124 | six positions with ids "1" to "6", pairwise distinct |
| DeFiPositions.MockPositionsPositive | hooks/useDeFiPositions.ts:45-124 | every mock position has value > 0 and APY > 0 |
| DeFiPositions.DeFiPositionsHook.constructor | hooks/useDeFiPositions.ts:22-24 | `[]`, loading, no error |
| DeFiPositions.DeFiPositionsHook.OnEffect | hooks/useDeFiPositions.ts:26-35 | without an address: `[]`, not loading, no fetch; with one: a fetch starts, loading, error cleared |
| DeFiPositions.DeFiPositionsHook.Succeed | hooks/useDeFiPositions.ts:126-131 | the six mock positions are installed, and loading ends |
| DeFiPositions.DeFiPositionsHook.Fail | hooks/useDeFiPositions.ts:127-131 | the error is stored, the positions are kept, and loading ends |
| DeFiProtocols.Accepts | DeFiProtocols.tsx:23-25 | the 'all' tab accepts every position; a type tab accepts exactly the positions of its type |
| DeFiProtocols.FilterPositions | DeFiProtocols.tsx:23-25 | the positions the active tab accepts; no contract of its own, stated by `Js.FilterMembers`, `DeFiProtocols.TypeTabSelectsType` and `DeFiProtocols.TypeTabsPartition` |
| DeFiProtocols.AllTabIsIdentity | DeFiProtocols.tsx:23-25 | the 'all' tab shows the positions unchanged |
| DeFiProtocols.TypeTabSelectsType | DeFiProtocols.tsx:23-25 | a type tab shows exactly the positions of that type, in order |
| DeFiProtocols.TypeTabsPartition | DeFiProtocols.tsx:23-25 | the lending, liquidity and staking tabs together hold every position exactly once (as multisets) |
| DeFiProtocols.MockLendingTab | hooks/useDeFiPositions.ts:45-124 | on the mock table the lending tab shows ids 1, 2 and 5, in that order |
| DeFiProtocols.MockLiquidityTab | hooks/useDeFiPositions.ts:45-124 | on the mock table the liquidity tab shows ids 3 and 6 |
| DeFiProtocols.MockStakingTab | hooks/useDeFiPositions.ts:45-124 | on the mock table the staking tab shows id 4 alone |
| DeFiProtocols.BodyFor | DeFiProtocols.tsx:52-58 | loading outranks the empty state; "No DeFi positions found" iff the filtered list is empty; the cards are the filtered list |
| DeFiProtocols.TypeName | hooks/useDeFiPositions.ts:13 | the source spells the position types "lending", "liquidity" and "staking"; `DeFiProtocols.TypeLabels` states the badges made from them |
| DeFiProtocols.TypeLabel | DeFiProtocols.tsx:132 | the badge keeps the type's length and its characters after the first |
| DeFiProtocols.TypeLabels | DeFiProtocols.tsx:132 | the badges read "Lending", "Liquidity" and "Staking" |
| DeFiProtocols.DeFiTabs.constructor | DeFiProtocols.tsx:14 | the tab starts on 'all' |
| DeFiProtocols.DeFiTabs.SelectTab | DeFiProtocols.tsx:38 | a click sets the active tab |
| PortfolioValue.MockTotalMatchesPerChainFigures | hooks/usePortofolioValue.ts:33 | the constant total 7510.5 is the sum of the overview card's four per-chain figures 4230.75, 1875.20, 921.30 and 483.25 |
| PortfolioValue.PortfolioValueHook.constructor | hooks/usePortofolioValue.ts:8-11 | 0, 0, loading, no error |
| PortfolioValue.PortfolioValueHook.OnEffect | hooks/usePortofolioValue.ts:13-23 | without an address: both figures 0, not loading, no fetch; with one: a fetch starts, loading, error cleared |
| PortfolioValue.PortfolioValueHook.Succeed | hooks/usePortofolioValue.ts:33-43 | the constants 7510.5 and 3.75 are installed, whatever the address, and loading ends |
| PortfolioValue.PortfolioValueHook.Fail | hooks/usePortofolioValue.ts:38-43 | the error is stored, both figures are kept, and loading ends |
| TransactionHistory.Timestamp | TransactionHistory.tsx:21 | a transaction's timestamp is the clock reading less its age in milliseconds |
| TransactionHistory.MockTransactions | TransactionHistory.tsx:16-53 | the four hard-coded transactions, in source order; `TransactionHistory.MockTransactionsFacts` states their facts |
| TransactionHistory.ChainName | TransactionHistory.tsx:90-103 | the name is 'Unknown' iff the id is not one of 1, 137, 42161 and 8453 |
| TransactionHistory.ChainNamesDistinct | TransactionHistory.tsx:90-103 | the four known chains have pairwise different names |
| TransactionHistory.StatusColor | TransactionHistory.tsx:105-116 | gray iff the status is not completed, pending or failed |
| TransactionHistory.StatusColors | TransactionHistory.tsx:105-116 | completed is green, pending is yellow, failed is red |
| TransactionHistory.TypeColor | TransactionHistory.tsx:149 | purple iff the type is not swap, deposit or withdraw |
| TransactionHistory.TypeColors | TransactionHistory.tsx:149 | swap is blue, deposit is green, withdraw is orange, claim is purple |
| TransactionHistory.StatusLabel | TransactionHistory.tsx:170 | same length; the first character is upper-cased and the rest is kept |
| TransactionHistory.StatusLabels | TransactionHistory.tsx:170 | "completed" reads "Completed", "pending" reads "Pending", "" stays "" |
| TransactionHistory.MockTransactionsFacts | TransactionHistory.tsx:16-53 | four entries with distinct ids and chain ids, all completed, all on chains with known names, newest first |
| TransactionHistory.MockChainNames | TransactionHistory.tsx:16-53 | the entries are on Ethereum, Polygon, Arbitrum and Base, in that order |
| TransactionHistory.BodyFor | TransactionHistory.tsx:127-141 | loading outranks the empty state; "No transactions yet" iff the list is empty |
| TransactionHistory.MockBody | TransactionHistory.tsx:13 | with the loading flag fixed at false, the card always lists the four transactions |
| ChainSelector.CurrentChain | ChainSelector.tsx:15 | the chain shown is a supported chain; it has the wallet's id when any supported chain has it, and is the first chain otherwise |
| ChainSelector.CurrentChainIsFirstMatch | ChainSelector.tsx:15 | the chain shown is the first supported chain with the wallet's id |
| ChainSelector.IsHighlighted | ChainSelector.tsx:53-54 | a menu entry is highlighted iff its id is the wallet's chain id |
| ChainSelector.UnsupportedChainHighlightsNone | ChainSelector.tsx:53-54 | for an unsupported id, the button shows the first chain while no menu entry is highlighted |
| ChainSelector.SupportedChainIsHighlighted | ChainSelector.tsx:53-54 | for a supported id, the button's chain is the highlighted one |
| ChainSelector.ChainMenu.Entries | ChainSelector.tsx:41 | all chains are rendered while the menu is open, none while it is closed |
| ChainSelector.ChainMenu.constructor | ChainSelector.tsx:13 | the menu starts closed, with no switch requested |
| ChainSelector.ChainMenu.Toggle | ChainSelector.tsx:21 | each button click flips the menu, so two clicks restore it |
| ChainSelector.ChainMenu.Choose | ChainSelector.tsx:56-59 | choosing an entry requests a switch to its id and closes the menu |
| ConnectButton.ShortAddress | components/ConnectButton.tsx:22 | a present address shows its first min(6, n) characters, "..." and its last min(4, n) characters; an absent address reads "undefined...undefined" |
| ConnectButton.ShortAddressIsTruncation | components/ConnectButton.tsx:22 | for a non-empty address, the button text equals `truncateAddress` of it |
| ConnectButton.ShortEmptyAddress | components/ConnectButton.tsx:22 | an empty address shows "...", where `truncateAddress` gives "" |
| ConnectButton.Label | components/ConnectButton.tsx:19-38 | connected: the ENS name if truthy, else the shortened address; not connected but connecting: "Connecting..."; neither: "Connect Wallet" |
| ConnectButton.ConnectedOutranksConnecting | components/ConnectButton.tsx:19-24 | once connected, the connecting flag does not change the text |
| ConnectButton.ConnectedLabelLength | components/ConnectButton.tsx:22 | with no ENS name, a connected 42-character address shows 13 characters |
| DashboardPage.SelectView | app/page.tsx:51-220 | the spinner iff not mounted; the landing page iff mounted and neither connected nor connecting; the connecting screen iff mounted and connecting; the dashboard iff mounted, connected and not connecting |
| DashboardPage.SpinnerIgnoresWallet | app/page.tsx:51-57 | before mount, the wallet state does not matter |
| DashboardPage.ConnectingOutranksConnected | app/page.tsx:197 | connected and connecting together show the connecting screen |
| DashboardPage.Page.View | app/page.tsx:51-220 | what the page renders is `DashboardPage.SelectView` of its mount flag and the wallet flags |
| DashboardPage.Page.constructor | app/page.tsx:45 | the first render is unmounted |
| DashboardPage.Page.Mount | app/page.tsx:47-49 | the mount effect sets the flag, and nothing clears it |
| AppProvider.IsUserRejection | app/provider.tsx:50 | a rejection iff the error and its message are present and the message includes "User rejected" |
| AppProvider.ShouldRetry | app/provider.tsx:48-54 | never after a user rejection; otherwise retry iff fewer than 3 failures so far |
| AppProvider.MissingMessageUsesCount | app/provider.tsx:50 | a missing error or message falls through to the count rule |
| AppProvider.RetriesGranted | app/provider.tsx:53 | a run of failures gets at most one retry per failure, and never more than the 3 − failureCount the count rule leaves, so at most 3 from the first failure |
| AppProvider.ThreeRetriesWithoutRejection | app/provider.tsx:53 | four or more failures that are not user rejections get exactly 3 retries |
| AppProvider.RejectionStopsAtOnce | app/provider.tsx:50-52 | a user rejection on the first failure is never retried |
| AppProvider.ConfiguredChains | app/provider.tsx:25-31 | the four mainnets first; Sepolia is appended iff the testnet variable is exactly "true" |
| AppProvider.ProjectId | app/provider.tsx:22 | the environment value when set and non-empty, else "demo-project-id" |
| AppProviders.TransportUrl | app/providers.tsx:44-48 | with a non-empty API key: "https://" + network + ".g.alchemy.com/v2/" + key; without one: the chain's default RPC URL |
| AppProviders.Transports | app/providers.tsx:41-50 | the transport map's keys are exactly the supported chain ids |
| AppProviders.TransportOfLastWithId | app/providers.tsx:41-50 | a chain id maps to the URL of the last chain carrying that id |
| AppProviders.OneTransportPerChain | app/providers.tsx:41-50 | with distinct ids, there is exactly one transport per chain, each with its own chain's URL |
| AppProviders.ProjectId | app/providers.tsx:27 | the environment value when set and non-empty, else "development" |
| AppProviders.WarnsMissingProjectId | app/providers.tsx:17-21 | the warning is printed iff the project-id variable is missing or empty |
| AppProviders.WarningMeansFallback | app/providers.tsx:17-21 | the missing-id warning appears iff the configured id is not the variable's own value |

## Left out

- Rendering is not modelled. This covers JSX, SVG markup, icons, framer-motion animation, Tailwind classes, toasts and the theme providers. Only the choices they display are modelled: the body variants, labels and colours.
- Number formatting is not modelled: `Intl.NumberFormat`, `toLocaleString`, `toFixed`, the `$` and `%` decorations. `TokenList.FractionDigits` gives the count of fraction digits, not the formatted text.
- IEEE-754 rounding is not modelled. Prices and balances are exact reals, so nothing here depends on float precision. Where JavaScript yields NaN or Infinity, the model gives `NonFinite`, except for the min/max of the empty series, which `PriceChart.ChartScale` gives as `None`. The model does not follow what such values do further on.
- Dates are integer milliseconds:
  - a chart point's time is `now - (N - k) * step`; `toISOString` and the calendar arithmetic of `setHours` / `setDate` are not modelled, so daylight-saving shifts are out;
  - a transaction's timestamp is `now - age`, and `formatDistanceToNow` is not modelled.
- Timers and promises are not modelled: the `setTimeout` delays, the `await` of the hooks, and the ordering and cancellation of overlapping effects. Each hook's lifecycle is a sequence of method calls (`OnEffect`, then `Succeed` or `Fail`). The model does not say what happens if a stale response arrives after a newer effect. The chart's timer is `ChartView.OnTimeout`, applied to what `OnEffect` captured.
- Hook `Succeed` / `Fail`: `try` and `finally` are merged into one step, so there is no state between storing the result and clearing `isLoading`.
- The `console.error` and `console.warn` output is left out. `AppProviders.WarnsMissingProjectId` states when the warning is printed.
- `Math.random()` is replaced by explicit draws, assumed to lie in [0, 1).
- `PriceChart.ChartView.OnTimeout` and `TokenBalance.TokenBalanceHook.Succeed` require exactly one draw per loop iteration, the number of calls the loop makes.
- The wallet and query libraries are not modelled: wagmi, connectkit and react-query, including `useAccount`, `useChainId`, `useSwitchChain`, `getDefaultConfig`, `http()` and the `show` modal.
  - Their outputs are parameters.
  - `switchChain` is a recorded request (`ChainMenu.switchRequests`).
  - The button's click handler is always `show`, whatever the state. It has no logic of its own, so no member models it.
- `AppProvider.RetriesGranted` assumes how the query library calls the predicate: it passes the number of failures already retried, starting at 0. That library's code is not part of this model.
- The query-client options other than `retry` are left out: `staleTime`, `gcTime`, the refetch flags and the mutation `retry: 1`. They are configuration constants with no logic.
- `ChainSelector.CurrentChain` requires a non-empty chain list. `lib/chains.ts` defines four entries, so `supportedChains[0]` always exists.
- The chain objects behind `lib/chains.ts` come from the wallet library and are not part of this model. A `Registry.Chain` keeps only the id, name, network slug and first default RPC URL. The icon URL fallback is not modelled.
- The token registry `@/lib/tokens` is not part of this model. It is a parameter.
- `AppProviders.Transports` keys the map by the numeric chain id. `Object.fromEntries` turns the key into a string, but the order in which duplicate keys are overwritten is the same.
- Case mapping covers ASCII letters only. JavaScript's full Unicode `toLowerCase` / `toUpperCase` is not modelled.
- A Dafny `char` is a Unicode scalar value, while JavaScript's `slice`, `includes` and `length` count UTF-16 code units. For text outside the Basic Multilingual Plane the two differ; addresses and the mock strings are all ASCII.
- `app/page.tsx` renders `TokenList` and `PriceChart` with `address` and `chainId` props, but those components declare `selectedToken` and `setSelectedToken`. As rendered, the chart therefore always follows the first registry token: the `!Truthy(selected)` case of `PriceChart.ChartToken`. Clicking a token row would call an undefined function. The model states each component's own contract rather than the page's mistyped wiring.
- These files have no logic to model:
  - `components/Navbar.tsx`, a scroll listener;
  - `components/ui/Card.tsx`, class-name merging;
  - `PortfolioOverview.tsx`, a reveal animation with fixed strings; its four per-chain figures are used only in `PortfolioValue.MockTotalMatchesPerChainFigures`;
  - `lib/constants.ts`, type declarations only;
  - `app/layout.tsx`, `next.config.js` and `tailwind.config.js`, configuration.
