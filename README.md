# Protective-put position sizer, modelled in Dafny

This project models the core of a launcher extension that sizes a
*protective put* position. It takes a ticker's current price S, a stop-loss
price that is used as the put strike K, the per-share put premium P and a
maximum dollar loss. From these it chooses a whole number of shares N and of
put contracts C (one contract covers 100 shares). The aim is that the loss
if the price ends exactly at K, `(S - K)·N + 100·P·C`, stays within the budget.

It also models the small pieces of pure logic in the two API clients that
feed the sizer. These are the nearest-strike put selection with its zero
bid/ask fallback, the mid price, the quote-field defaults, the holding-period
day offset and the API-key guard.

Modules, one per source file plus two shared ones:

- `Common`: `Option`, `Result` and `Abs`.
- `Nearest`: `Strikes`, the strikes of an option list, and the earliest-closest strike selection. `Closest` is the left fold
  `reduce` performs. The scan loops of the other client are proved to compute
  the same thing.
- `Calculator` (`src/utils/calculator.ts`): the method `CalculatePosition`. It
  mirrors the source branch by branch, with the locals `N` and `contracts`
  reassigned as in the source. It is proved against the sizing rule stated as
  functions (`SharesFor`, `CeilHundred`, `PlannedContracts`, `Feasible`), and
  lemmas state what that rule guarantees.
- `UtilsApi` (`src/utils/api.ts`): the price-type check, and `GetPutPremium`
  with its two scan loops (`FindClosest`) and the zero bid/ask fallback.
- `Api` (`src/api.ts`): quote mapping, `DayOffset`/`ExpirationDate`, the
  whitespace-trim key guard, the `side === "put"` filter, `RealPutPremium`
  and `GetPutPremium`.

The sizer's safeguard branches are kept in `CalculatePosition` as branches
whose body is `assert false`, so the verifier proves each one unreachable.
These are the non-positive `S - K` throw, the "contracts was 1" return, the
`contracts === 0` else-block, the final `N <= 0` return and the 1% over-budget
warning. Money is `real`. `Math.floor` is `.Floor`, and `Math.ceil(N / 100)`
for whole `N >= 0` is `(N + 99) / 100`.

What the code guarantees, in the terms of its own comments and branches:

- Contracts are lowered at most once, and only when their premium alone
  exceeds the budget (src/utils/calculator.ts:128-152).
- The comment at src/utils/calculator.ts:300 says shares cannot exceed what
  the contracts cover, because of `Math.ceil`. After the decrement they can
  (`DecrementLeavesSharesUncovered`: 150 shares on one contract).
- The 1% over-budget check at src/utils/calculator.ts:313 can never fire: a
  feasible position's loss at the strike never exceeds the budget
  (`FeasibleWithinBudget`).
- More budget can buy fewer shares (`LargerBudgetFewerShares`: a budget of 350
  buys 150 shares, a budget of 400 buys none).
- A budget below one contract's premium gives a zero position with a message,
  not an error (src/utils/calculator.ts:65-80).

## Model

| member | source | states |
|---|---|---|
| `Calculator.CalculatePosition` | src/utils/calculator.ts:19-337 | A failed price lookup gives InvalidTicker. S <= stop loss gives StopLossNotBelowPrice. A failed lookup or P <= 0 gives PremiumUnavailable. Otherwise it succeeds, echoes S, P, K, the expiration, ticker and targets, and returns every zero result with shares = contracts = totalCost = calculatedMaxLoss = 0. The message of a zero result is never `Calculated`: it is PremiumExceedsBudget when one contract is over budget, NoSharesAtInitialEstimate when N0 <= 0, PremiumStillTooHigh(c, 100·P·c) when even the lowered count c is over budget, and NoSharesAfterAdjustment(N, c) when c contracts leave no room for a share. Shares are positive exactly when `Feasible` holds. A feasible result has the planned contracts, the largest affordable shares, calculatedMaxLoss = (S-K)·N + 100·P·C <= maxLoss and totalCost = N·S + 100·P·C. |
| `Calculator.SharesFor` | src/utils/calculator.ts:152 | floor((maxLoss - 100·P·C)/(S-K)) is the largest share count whose loss at the strike fits the budget with C contracts, so one more share breaks it. It is at least 1 exactly when one share fits. |
| `Calculator.CeilHundred` | src/utils/calculator.ts:120 | The ceiling of n/100: the fewest contracts whose 100-share blocks cover n shares. |
| `Calculator.InitialEstimatePositiveIff` | src/utils/calculator.ts:101-118 | The first estimate N0 is at least one share exactly when 100·P + (S-K) <= maxLoss. |
| `Calculator.PlannedContractsBounds` | src/utils/calculator.ts:120-152 | The final contract count is ceil(N0/100) when that premium fits, and one less exactly when it does not. It is never below one. |
| `Calculator.FeasibleWithinBudget` | src/utils/calculator.ts:310-319 | A feasible result has at least one share and one contract, a loss at the strike within the budget (so the 1% warning never fires), and no room for another share. |
| `Calculator.ExactPremiumBudget` | src/utils/calculator.ts:101-118 | A budget of exactly one contract's premium gives N0 = 0 and the zero position. |
| `Calculator.ScenarioOneContract` | src/utils/calculator.ts:101-174 | S=60, K=57, P=3, maxLoss=500 gives 66 shares, 1 contract and a loss of 498. |
| `Calculator.ScenarioFiveContracts` | src/utils/calculator.ts:120-174 | S=100, K=90, P=1, maxLoss=5000 gives N0=490, 5 contracts and 450 shares. |
| `Calculator.DecrementLeavesSharesUncovered` | src/utils/calculator.ts:128-152 | S-K=1, P=2, maxLoss=350 lowers 2 contracts to 1 and buys 150 shares, more than the contracts cover. |
| `Calculator.LargerBudgetFewerShares` | src/utils/calculator.ts:120-216 | With S-K=1 and P=2, a budget of 350 is feasible and a budget of 400 is not. |
| `UtilsApi.CurrentPrice` | src/utils/api.ts:6-11 | It fails exactly when regularMarketPrice is not a number, and otherwise returns it unchanged. |
| `UtilsApi.Viable` | src/utils/api.ts:51 | An option is kept exactly when it is in the list and has a positive bid or ask. |
| `UtilsApi.ViableAppend` | src/utils/api.ts:51 | The fallback filter keeps the list's order: filtering `x + y` gives the kept options of `x` followed by those of `y`. |
| `UtilsApi.ViableNeverBothZero` | src/utils/api.ts:51-67 | An option that survives the fallback filter never has bid = ask = 0. |
| `UtilsApi.FindClosest` | src/utils/api.ts:31-41 | The scan returns the option `Nearest.Closest` selects: one in the list whose strike distance is minimal, the earliest among ties. |
| `UtilsApi.GetPutPremium` | src/utils/api.ts:23-77 | A non-array or empty response fails. A closest option without numeric bid/ask fails. Otherwise it returns the mid price of the closest option. When that option is zero on both sides, it re-selects among the options with a positive bid or ask, failing when there are none or the new one lacks a numeric bid/ask. Any success is the mid of a listed, quoted option that is not zero on both sides. |
| `Nearest.Closest` | src/api.ts:133-139 | The reduce keeps an index whose strike minimises the distance to the target, and every earlier strike is strictly farther. |
| `Nearest.EarliestClosestUnique` | src/utils/api.ts:35-41 | The earliest closest strike is unique, so the loop and the reduce agree. |
| `Api.CurrentPrice` | src/api.ts:28-39 | It fails exactly when meta is missing, and then with InvalidTicker. Otherwise it returns a quote: the symbol is copied. The price is regularMarketPrice unless it is absent or 0, in which case it is previousClose. Currency defaults to "USD" and marketState to "REGULAR" when absent or empty. |
| `Api.DayOffset` | src/api.ts:63-72 | The offset is 0, 7 or 28. It is 7 exactly for "2w" and 28 exactly for "1m". |
| `Api.ExpirationDate` | src/api.ts:60-73 | "2w" gives the next Friday after today + 7 days, "1m" after today + 28 days, and every other period, "1w" included, the next Friday after today. |
| `Api.UnknownPeriodIsOneWeek` | src/api.ts:70-71 | Any holding period other than "2w" and "1m" gives the "1w" expiration. |
| `Api.TrimStartSuffix` | src/api.ts:82 | Removing leading white space leaves a suffix of the string, everything removed in front of it is white space, it is empty exactly when the string is all white space, and otherwise it starts with a non-white-space character. |
| `Api.TrimEndPrefix` | src/api.ts:82 | Removing trailing white space leaves a prefix of the string, everything removed after it is white space, it is empty exactly when the string is all white space, and otherwise it ends with a non-white-space character. |
| `Api.Trim` | src/api.ts:82 | `trim()` returns a slice of the string with only white space removed before and after it, and a non-empty result starts and ends with a non-white-space character. |
| `Api.IsBlankKey` | src/api.ts:82-86 | The key is rejected exactly when every character is white space, the empty key included. |
| `Api.PutOptions` | src/api.ts:124-126 | An entry is kept exactly when it is in the response and its side is "put". |
| `Api.PutOptionsAppend` | src/api.ts:124-126 | The filter keeps the response's order: filtering `x + y` gives the puts of `x` followed by the puts of `y`. |
| `Api.RealPutPremium` | src/api.ts:124-147 | A failed request or a non-array body gives an ApiError. No puts gives NoPutOptions. Otherwise it copies strike, bid and ask from a put that is earliest-closest among the puts and no farther than any put in the response, sets midPrice = (bid+ask)/2 and echoes the expiration date. |
| `Api.GetPutPremium` | src/api.ts:76-103 | A blank key gives ApiKeyRequired whatever the options feed would answer. Otherwise it returns the selected put's midPrice, or passes on its error. |

## Left out

- HTTP: the requests, their URLs, timeouts and headers, 404 and network-error translation, and the wording of error messages. Lookups are inputs, a thrown lookup is `None` or a `RequestFailed` reply, and messages are datatype tags.
- `Calculator.CalculatePosition`: the `holdingPeriod` and `iexApiKey` parameters only reach the two lookups, so the model takes the looked-up price, premium and expiration date instead. `getExpiration` never throws, so the catch at src/utils/calculator.ts:43-48 is not modelled.
- Floating point: IEEE rounding, NaN (the `isNaN` check at src/utils/api.ts:73-75, NaN counting as falsy in `||`) and `toFixed` formatting. Money is exact `real`.
- The 1% warning's `console.warn` (src/utils/calculator.ts:316): the branch is modelled as unreachable, and logging is left out.
- The two `return {}` inside the `contracts === 0` block (src/utils/calculator.ts:245-255): that whole block is one unreachable branch in the model.
- Dates: date-fns `nextFriday`/`format` and the clock. `today` is a day number and `calendar` a function parameter. src/utils/date.ts is not part of this model.
- JavaScript coercion of options-list entries: null entries, strikes that are not numbers, and bids/asks that are strings (`"5" > 0`). A non-number bid or ask counts as not positive.
- UI, LocalStorage key persistence and markdown rendering (src/index.tsx, src/calculate-protective-put.tsx, src/components/ResultsDetail.tsx), and the generated raycast-env.d.ts.
- The premium-estimation fallback and `calculateProtectivePut` (src/calculator.ts), which tests/calculator.test.ts exercises. They are not part of this model.
