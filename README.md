# MEV bot core, modelled in Dafny

This project models the computational core of a JavaScript arbitrage and liquidation bot for Ethereum-compatible chains. It covers four parts:

- **The profit engine** (`profit_calculator.dfy`, module `ProfitCalculator`, on top of the `BigNum` model of bignumber.js values in `bignum.dfy`):
  - the Uniswap V2 constant-product output formula with its 0.3% fee;
  - the two-leg profit breakdown, using reserves when both legs are known and otherwise the price ratio;
  - the profitability test against the configured threshold;
  - the trade-size, slippage and price-impact estimates;
  - the staleness test;
  - the break-even gas price;
  - the ranking score.

  BigNumber values are exact rationals, or one of Infinity, -Infinity or NaN. Division by zero is therefore a value and not a precondition.
- **The connection manager** (`connection_manager.dfy`, module `Connections`): a class holding the streaming provider and its wallet. It models:
  - the `open`, `close` and `error` handlers;
  - the reconnect sequence, guarded by the `isReconnecting` flag, with exponential backoff capped at 60 s;
  - the process exit after ten attempts;
  - the reconnection callback.

  Sockets, timers and the process are events and state. `pendingTimers` holds the scheduled timers, `terminated` the sockets that were terminated, `notifications` the callback invocations, and `exited` records `process.exit(1)`. Provider and wallet objects are numbered handles.
- **The liquidation monitor** (`liquidation_monitor.dfy`, module `Liquidations`): a class holding the set of borrowers collected from Borrow events. Its scan runs a loop that asks the lending pool for each borrower's account data and reports every borrower whose health factor is below 1.0. The pool call is an oracle that answers or fails.
- **The chain registry** (`chains.dfy`, module `Chains`): the table of 22 supported networks and the lookup by chain id or by case-insensitive name.
  - `Registry` holds the keys and ids of the table in declaration order.
  - `Details(i)` holds the rest of each entry.
  - `IndexOfId` and `IndexOfKey` are independent reference indexes that the lookups are proved against.

`wrappers.dfy` holds the `Option` and `Result` types.

## Model

| member | source | states |
|---|---|---|
| ProfitCalculator.CalculateAmountOut | src/services/ProfitCalculator.js:66-75 | with positive reserves a non-negative input gives a finite output with 0 ≤ out < reserveOut; when reserveIn·1000 + amountIn·997 is zero the output is not finite |
| ProfitCalculator.AmountOutBelowReserve | src/services/ProfitCalculator.js:66-75 | with positive reserves a non-negative input never yields more than the output reserve holds: 0 ≤ out < reserveOut |
| ProfitCalculator.AmountOutExact | src/services/ProfitCalculator.js:66-75 | the BigNumber computation equals the rational formula whenever its denominator is non-zero |
| ProfitCalculator.AmountOutOfZero | src/services/ProfitCalculator.js:66-75 | a zero input yields a zero output |
| ProfitCalculator.AmountOutIncreasing | src/services/ProfitCalculator.js:66-75 | with positive reserves the output strictly increases with the input |
| ProfitCalculator.FormulaIncreasing | src/services/ProfitCalculator.js:66-75 | the rational formula is strictly increasing in the input |
| ProfitCalculator.CalculateProfit | src/services/ProfitCalculator.js:24-61 | the flashloan fee is 0, the gas cost is gasPrice·500000/1e18, the net profit is gross − fee − gas, and a zero trade amount gives a non-finite percentage |
| ProfitCalculator.TwoLegComposition | src/services/ProfitCalculator.js:28-31 | with both legs present, the gross profit is the buy-leg output fed through the sell leg, minus the trade amount |
| ProfitCalculator.TwoLegExact | src/services/ProfitCalculator.js:28-31 | for every opportunity, with positive reserves and trade, the intermediate amount stays below the buy reserve and the final amount is the exact composition of the two formulas |
| ProfitCalculator.SimplifiedFinalAmount | src/services/ProfitCalculator.js:32-39 | without both legs, the final amount is amount·0.997·sellPrice/buyPrice·0.997 |
| ProfitCalculator.ProfitBreakdownExact | src/services/ProfitCalculator.js:41-60 | whenever the final amount is finite and the trade non-zero, gross = final − amount, fee = 0, gas = gasPrice·500000/1e18, net = gross − fee − gas, percentage = net/amount·100 |
| ProfitCalculator.TradeAmountOf | src/services/ProfitCalculator.js:82 | the trade amount is the configured maximum when that is non-zero and 1 otherwise; it is never zero |
| ProfitCalculator.IsProfitable | src/services/ProfitCalculator.js:80-98 | profitable exactly when the net profit at the configured trade amount is finite and strictly above the threshold, or +Infinity |
| ProfitCalculator.ExceedsThreshold | src/services/ProfitCalculator.js:95-97 | `isGreaterThan` against a finite threshold holds exactly for a finite value strictly above it, or +Infinity |
| ProfitCalculator.ThresholdIsStrict | src/services/ProfitCalculator.js:95-97 | a net profit equal to the threshold is not profitable |
| ProfitCalculator.CalculateOptimalTradeSize | src/services/ProfitCalculator.js:104-116 | the size is finite, at most the maximum trade size and at most 80% of the liquidity, and equal to one of the two |
| ProfitCalculator.EstimateSlippage | src/services/ProfitCalculator.js:121-130 | with non-zero liquidity, slippage·liquidity = amount·100; zero liquidity gives a non-finite value |
| ProfitCalculator.CalculatePriceImpact | src/services/ProfitCalculator.js:155-176 | a zero trade gives a NaN execution price and a NaN impact; a zero input reserve gives a non-finite impact |
| ProfitCalculator.PriceImpactOutputAgrees | src/services/ProfitCalculator.js:155-176 | the expected output of the price impact is `calculateAmountOut` on the same arguments |
| ProfitCalculator.CalculatePriceImpactSteps | src/services/ProfitCalculator.js:155-176 | on positive arguments, output, execution price and impact are the rational expressions of the code's steps |
| ProfitCalculator.PriceImpactBounds | src/services/ProfitCalculator.js:155-176 | on positive arguments 0 < execution price < spot price, and the impact is 100·(3r0 + 997a)/(1000r0 + 997a), strictly between the 0.3% fee and 100% |
| ProfitCalculator.IsOpportunityValid | src/services/ProfitCalculator.js:181-184 | valid exactly when the age now − timestamp is strictly below the given maximum age, 5000 ms when none is given |
| ProfitCalculator.StalenessBoundary | src/services/ProfitCalculator.js:181-184 | valid at age maxAge − 1, stale at age maxAge; the default maximum age is 5000 ms |
| ProfitCalculator.StalenessIsPermanent | src/services/ProfitCalculator.js:181-184 | an opportunity stale at some time is stale at every later time |
| ProfitCalculator.RoundHalfUp | src/services/ProfitCalculator.js:205 | `toFixed(0)` yields an integer within 0.5 of its argument, a tie going away from zero (2.5 to 3, −2.5 to −3), non-negative for a non-negative argument |
| ProfitCalculator.BreakEvenGrossProfit | src/services/ProfitCalculator.js:190-199 | the gross profit before gas is finite exactly when the buy price is non-zero |
| ProfitCalculator.BreakEvenGasPriceExact | src/services/ProfitCalculator.js:201-203 | the unrounded break-even price is finite exactly when the buy price is non-zero, and then price·500000 = gross·1e18 |
| ProfitCalculator.CalculateBreakEvenGasPrice | src/services/ProfitCalculator.js:189-206 | the conversion succeeds exactly when the unrounded price is finite, that is when the buy price is non-zero, and then yields an integer within 0.5 of it |
| ProfitCalculator.BreakEvenGrossMatchesProfit | src/services/ProfitCalculator.js:189-206 | the break-even gross profit is `calculateProfit`'s price-ratio net profit before gas |
| ProfitCalculator.BreakEvenZeroesNetProfit | src/services/ProfitCalculator.js:189-206 | at the unrounded break-even price the net profit is exactly zero; at a lower gas price it is positive, at a higher one negative |
| ProfitCalculator.GetProfitabilityScore | src/services/ProfitCalculator.js:211-220 | the score is never +Infinity and, when finite, at most 100 |
| ProfitCalculator.WrittenScore | src/services/ProfitCalculator.js:216-219 | the as-written sum of the two halves is never +Infinity and, when finite, at most 100 |
| ProfitCalculator.ScoreCanBeNegative | src/services/ProfitCalculator.js:209-220 | a losing opportunity (equal prices, 0.3% fee per leg) gets a negative score, outside the documented 0-100 range |
| ProfitCalculator.ClampedHalfScore | src/services/ProfitCalculator.js:216-217 | each half of the documented score lies in [0, 50] and equals ten times its input when that is already in range |
| ProfitCalculator.DocumentedScore | src/services/ProfitCalculator.js:209-220 | the documented score of a percentage and a net profit lies in [0, 100] and equals the as-written sum when both are finite and non-negative |
| ProfitCalculator.HalfScoreAgrees | src/services/ProfitCalculator.js:216-217 | on a finite non-negative input, the as-written half score min(x·10, 50) is the documented clamped half score |
| ProfitCalculator.ProfitabilityScore | src/services/ProfitCalculator.js:209-220 | the score as documented lies in [0, 100] and agrees with the as-written score when the percentage and the net profit are finite and non-negative |
| BigNum.Plus | src/services/ProfitCalculator.js:43 | finite sums are exact; NaN absorbs |
| BigNum.Minus | src/services/ProfitCalculator.js:43 | finite differences are exact |
| BigNum.Times | src/services/ProfitCalculator.js:36-38 | finite products are exact; NaN absorbs; a non-finite factor never gives a finite product |
| BigNum.DividedBy | src/services/ProfitCalculator.js:37 | finite quotients by a non-zero divisor are exact; division of any value by zero is non-finite; NaN absorbs |
| BigNum.IsGreaterThan | src/services/ProfitCalculator.js:97 | the strict order of the extended reals: on finite values x > y, +Infinity above every non-NaN other value, -Infinity below, and false whenever either side is NaN or both are equal |
| BigNum.Min | src/services/ProfitCalculator.js:113 | the minimum of two finite values is finite, no larger than either, and equal to one of them |
| Connections.BackoffDelay | src/services/ConnectionManager.js:69 | the delay of any attempt lies between the 5 s base and the 60 s cap |
| Connections.Pow2Monotone | src/services/ConnectionManager.js:69 | 2^m ≤ 2^n for m ≤ n |
| Connections.BackoffSchedule | src/services/ConnectionManager.js:63-69 | attempts 1-4 wait 5, 10, 20 and 40 s; attempts 5-10 wait 60 s |
| Connections.BackoffMonotone | src/services/ConnectionManager.js:69 | delays never shrink from one attempt to a later one |
| Connections.BackoffDoubles | src/services/ConnectionManager.js:69 | each delay is the previous one doubled, until the cap |
| Connections.ConnectionManager.constructor | src/services/ConnectionManager.js:9-17 | no provider, wallet or callback; counter 0; flag down; limits 10 and 5000 |
| Connections.ConnectionManager.CreateProvider | src/services/ConnectionManager.js:22-54 | the old socket is terminated if there is one; then a fresh provider and a fresh wallet, or a failure that leaves the fresh provider in place when only the wallet throws; the counter, flag, timers and callback are unchanged |
| Connections.ConnectionManager.OnOpen | src/services/ConnectionManager.js:34-38 | the counter is reset to 0 and the flag lowered; nothing else changes |
| Connections.ConnectionManager.HandleReconnect | src/services/ConnectionManager.js:59-84 | while the flag is raised nothing changes; otherwise the flag is raised and either the process exits (10 attempts made) or the counter goes up by one and one timer with that attempt's backoff delay is scheduled |
| Connections.ConnectionManager.OnClose | src/services/ConnectionManager.js:40-43 | a close runs the reconnect guard with the same outcomes as HandleReconnect: while reconnecting nothing changes; otherwise the flag is raised and either the process exits after 10 attempts or the counter goes up by one and one timer with that attempt's backoff delay is scheduled; provider, wallet, callback, terminated sockets and notifications are unchanged |
| Connections.ConnectionManager.OnError | src/services/ConnectionManager.js:45-48 | an error runs the reconnect guard with exactly the outcomes stated for OnClose |
| Connections.ConnectionManager.OnReconnectTimer | src/services/ConnectionManager.js:73-83 | the old socket, if any, is terminated and the fired timer is consumed; on success the provider and wallet are the two fresh handles and the registered callback, if any, is invoked once with them; if the provider constructor throws, provider and wallet are unchanged; if only the wallet throws, the fresh provider stays with the old wallet; on either failure the flag is lowered and the reconnect logic runs again, counting a new attempt with its timer or exiting after 10 |
| Connections.ConnectionManager.OnReconnectCallback | src/services/ConnectionManager.js:89-91 | the callback replaces any earlier one; nothing else changes |
| Liquidations.GetUserAssets | src/services/LiquidationMonitor.js:81-96 | there is an answer exactly when the configuration has a token section, and it is WETH debt, USDC collateral and 1 ether of debt for every user |
| Liquidations.ScanAppend | src/services/LiquidationMonitor.js:53-73 | the scan of a concatenation is the concatenation of the scans |
| Liquidations.FailureIsContained | src/services/LiquidationMonitor.js:54-72 | a user whose query fails contributes nothing and the users after it are still scanned |
| Liquidations.ScanOfFailedUser | src/services/LiquidationMonitor.js:54-72 | a user whose query fails yields an empty scan |
| Liquidations.ScanUser | src/services/LiquidationMonitor.js:54-69 | a user contributes at most one entry, and exactly one when its health factor is below 1.0 and the token section exists; that entry names the user and is reported as ScanEntries describes |
| Liquidations.Scan | src/services/LiquidationMonitor.js:53-73 | the scan never has more entries than there are users |
| Liquidations.ScanDistinctUsers | src/services/LiquidationMonitor.js:53-73 | when the tracked users are distinct, no user has two entries |
| Liquidations.ScanEntries | src/services/LiquidationMonitor.js:53-73 | every entry is a tracked user with health factor below 1.0, carrying its own health factor, the configured WETH and USDC addresses and 1 ether of debt |
| Liquidations.ScanMembership | src/services/LiquidationMonitor.js:51-73 | a user appears in the scan exactly when it is tracked, its health factor is below 1.0 and the token section exists |
| Liquidations.ScanFollowsOrder | src/services/LiquidationMonitor.js:53-73 | the entries are users at strictly increasing positions of the set's insertion order |
| Liquidations.ThresholdIsStrict | src/services/LiquidationMonitor.js:51-56 | a health factor of exactly 1.0 is not reported; one unit less is |
| Liquidations.LiquidationMonitor.constructor | src/services/LiquidationMonitor.js:19 | the user set starts empty |
| Liquidations.LiquidationMonitor.OnBorrowEvent | src/services/LiquidationMonitor.js:39-43 | the borrower is added once: an already present borrower changes nothing, nobody is removed, and the set stays duplicate-free |
| Liquidations.LiquidationMonitor.ScanForOpportunities | src/services/LiquidationMonitor.js:49-76 | the loop returns exactly the scan of the tracked users, in their order |
| Chains.FindIdFrom | src/config/chains.js:278-282 | the result is the first entry from the start position whose mainnet or testnet id matches, or none matches |
| Chains.FindKeyFrom | src/config/chains.js:288 | the result is the first entry whose key is the given key, or none has it |
| Chains.ToLower | src/config/chains.js:287 | same length, each letter lower-cased, and no upper-case letter left |
| Chains.GetSupportedChains | src/config/chains.js:298-300 | the 22 keys, in declaration order |
| Chains.GetChainConfig | src/config/chains.js:275-293 | a success is a table entry with its key; a failure names the id, or the name with the list of supported keys |
| Chains.IdsAreIndexed | src/config/chains.js:6-270 | every mainnet and testnet id of the table is declared by its own entry only |
| Chains.KeysAreIndexed | src/config/chains.js:6-270 | the keys are pairwise distinct |
| Chains.KeysAreLowerCase | src/config/chains.js:6-270 | every key is spelled in lower case |
| Chains.LookupById | src/config/chains.js:277-284 | the numeric lookup returns the one entry declaring the id and fails exactly on ids no entry declares |
| Chains.LookupByName | src/config/chains.js:287-292 | the name lookup returns the entry whose key is the lower-cased name and otherwise fails with the name as given and the supported list |
| Chains.RoundTrip | src/config/chains.js:275-293 | looking up an entry's mainnet id, testnet id or key returns that entry |
| Chains.NameLookupIgnoresCase | src/config/chains.js:287-290 | two spellings with the same lower case get the same answer |
| Chains.IsChainSupported | src/config/chains.js:305-312 | true exactly when the lookup returns an entry of the table instead of throwing |
| Chains.SupportedIff | src/config/chains.js:305-312 | `isChainSupported` holds exactly for an id some entry declares, or a name whose lower case is a supported key |
| Chains.SupportedChainsListed | src/config/chains.js:298-300 | the supported list is exactly ethereum, bnb, optimism, …, plasma, with no repetition |

## Left out

- `getUniswapV3Quote` (ProfitCalculator.js:135-150) is a contract call over the network; it is not modelled.
- BigNumber arithmetic is exact here. The library rounds each division to 20 decimal places, keeps a signed zero and parses its arguments from numbers and strings. None of these is modelled.
- `1 - this.dexFee` is exactly 0.997 in the model. In JavaScript it is a double close to 0.997.
- ProfitCalculator.GetProfitabilityScore: `toNumber()` and `Math.min` act on doubles in the source. The model keeps the exact values, so rounding in the score is not captured.
- ProfitCalculator.TradeAmountOf: `maxTradeSize || 1` treats only 0 as falsy. An undefined, null or NaN configuration value is not modelled.
- ProfitCalculator.IsOpportunityValid: `Date.now()` is the parameter `now`.
- ProfitCalculator.CalculateBreakEvenGasPrice: the model reports the refusal of a non-finite value as a `Failure`. The source throws. `ethers.BigNumber`'s 256-bit range is not checked.
- The logging calls are left out in every file.
- Connections: the WebSocket, the timers and `process.exit` are abstracted as described above. `process.exit` ends the model's event handling (`exited`).
- Connections: after a successful reconnect the flag stays up until the new socket fires `open`. A `close` or `error` in that window is swallowed by the guard. The model keeps this behaviour as written.
- Connections: the WebSocket URL, the private key and the ethers constructors' own checks are not modelled; the constructors are reduced to the outcomes `ConnectOutcome` lists.
- Connections.ConnectionManager.CreateProvider: the old socket's `terminate()`, which may throw and is caught, is modelled as always recorded in `terminated`.
- Connections: a callback that throws inside the timer would be caught and treated as a failed reconnect. The model treats the callback as a recorded notification that does not throw.
- Liquidations: `start`, `startBorrowMonitoring`'s subscription and the decoding of the borrower from the log's third topic are left to the caller of `OnBorrowEvent`.
- Liquidations.LiquidationMonitor.ScanForOpportunities: the scan awaits each call. A Borrow event arriving meanwhile would add a user that the running iteration of the Set also visits. The model scans the users present when it starts.
- Liquidations: a `getUserAssets` that throws for another reason than a missing token section is not modelled; the body cannot throw otherwise.
- Chains: the four environment-read URL fields of the ethereum entry (`rpcUrl`, `wssUrl`, `testnetRpcUrl`, `testnetWssUrl`, chains.js:16-19) are not part of `Details`; no other entry has URL fields. `Details` holds the default router addresses; the `process.env.* ||` overrides of the three Ethereum routers (chains.js:35, 41, 48) are not modelled. The proofs do not depend on them.
- Chains.Details carries no contract of its own: the table's facts (zero flashloan fees, 18-decimal currencies, DEX fees) are not proved, because any statement about an entry makes the solver expand its long address literals, which exceeds the verification budget. Lookups return `Details(i)` unchanged inside `Entry(i)`, which RoundTrip, LookupById and LookupByName pin down.
- Chains.GetChainConfig: JavaScript property lookup also finds inherited names such as `constructor` on `CHAINS`. The model looks up only the table's own keys.
- Chains.ToLower lowers ASCII letters only; `toLowerCase` on other Unicode letters is not modelled.
- Chains.GetChainConfig: arguments that are neither a number nor a string are not modelled. Such arguments make the source throw a `TypeError` on `toLowerCase`.
- `src/config/config.js`, `UniswapXMonitor.js`, the bot's entry point and the deployment scripts are not part of this model.

## Findings

| source | as written | input that shows it | evidently intended | confidence | as-written member | corrected member |
|---|---|---|---|---|---|---|
| src/services/ProfitCalculator.js:209-220 | the score is min(percentage·10, 50) + min(net·10, 50), with no lower bound | buyPrice = sellPrice = 1, gas price 0, maxTradeSize 10: net profit −0.05991, score −6.5901 | a score in 0-100, as the doc comment says | not executed | ProfitCalculator.GetProfitabilityScore, ProfitCalculator.ScoreCanBeNegative | ProfitCalculator.ProfitabilityScore |
