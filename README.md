# STARSHOT trading dashboard: data shaping and notification counter in Dafny

STARSHOT is a dashboard that polls two trading bots, "chatgpt" and "gemini".
This project models its two pieces of sequential logic:

- **The trading-data route** (`GET /api/trading-data?model=…`). It checks the
  `model` parameter. It turns the bot's `/status` response into summary figures:
  balance, P&L, profit ratio, trade count, win rate, wins and losses. It normalises every
  record of `/trades` into a canonical trade. It splits the trades into open
  and closed lists, each sorted newest first. From the closed trades it builds
  a chart series labelled `Trade 1`, `Trade 2`, … and a cumulative-profit series.
- **The dashboard page's notification badge.** Each poll compares every
  model's reported trade count with a stored baseline. Only increases are added
  to the badge, and then the baseline is overwritten. Clearing empties the
  badge.

Files and modules:

| file | module | content |
|---|---|---|
| wrappers.dfy | `Wrappers` | `Option` for absent or null JSON fields |
| decimal.dfy | `Decimal` | decimal rendering of the chart ordinals and its inverse |
| trades.dfy | `Trades` | raw and canonical trades, normalisation, status filter, stable newest-first sort |
| charts.dfy | `Charts` | reversal, chart series, profit sums, the running-total loop |
| route.dfy | `TradingRoute` | model check, upstream shapes, summary figures, the `Get` handler |
| dashboard.dfy | `DashboardPage` | the page's polling state as a class, and the badge arithmetic |

Modelling choices:

- Money and rates are `real`, so arithmetic is exact. Timestamps and counts are `int`.
- JavaScript's `x || d` is written out for each kind of field. The empty string
  and 0 are falsy, so a zero timestamp counts as missing, but `profit || 0`
  equals the value or 0.
- A record's `is_open` and `is_short` are JSON booleans; truthy means `true`.
- The upstream responses are parameters of `Get`. `Fetched.FetchFailed`
  stands for a call that failed. The handler replaces a failed call by a
  default: `{}` for `/status` and `{ trades: [] }` for `/trades`.
  `Fetched.ReceivedNull` stands for a successful reply whose JSON body is
  `null`.
- The handler returns the URLs it would request, so the model can say that a
  refused `model` causes no upstream request.
- The handler's 500 path is modelled where its transformation throws. That
  happens when the `/trades` body itself is `null` (reading its `trades`
  field throws), when `trades` is truthy but not an array, or when an element
  of the array is null. A `null` `/status` body does not throw: the optional
  chaining falls back to the empty object. An element that is some other non-object value behaves as a
  record with every field absent.
- `fetchAllData` is split into `BeginFetch` (before the `await`) and
  `CompleteFetch` (after it), with `Unmount` as the effect's cleanup. This lets
  the model express an unmount while the fetches are in flight.
  `FetchAllData` is the two parts run back to back.

Behaviour worth knowing:

- A trade's status comes from `is_open`
  (src/app/api/trading-data/route.ts:86), not from its close timestamp. A
  closed trade can therefore lack a close date; it then sorts and charts at
  epoch 0.
- The handler computes no biggest win or percentage profit.

## Model

| member | source | states |
|---|---|---|
| TradingRoute.ParseModel | src/app/api/trading-data/route.ts:44-49 | only the exact strings `chatgpt` and `gemini` are accepted, each mapping to its own model; a missing, empty or any other value is refused |
| TradingRoute.Get | src/app/api/trading-data/route.ts:40-146 | status 400 with "Invalid model specified" and no upstream request exactly when the model is refused; otherwise `/status` and `/trades` of that model's base URL are requested; 500 with the model's failure message when the trade mapping throws, including for a `null` `/trades` body; otherwise 200 with a body whose summary, lists and chart series are those of the inputs; a failed `/trades` call gives empty lists and an empty cumulative series |
| TradingRoute.Summarise | src/app/api/trading-data/route.ts:70-81 | the figures are the first bot's counters with 0 for a missing field; wins + losses = trade count; win rate × trade count = wins when there are trades, 0 otherwise, and in [0, 1] when 0 ≤ wins ≤ trade count; balance = starting balance + P&L; P&L = total profit |
| TradingRoute.SummaryWithoutBotStatus | src/app/api/trading-data/route.ts:57-81 | a failed `/status` call, a `null` body, a missing `bots.status` array or an empty one gives all figures 0 |
| TradingRoute.Records | src/app/api/trading-data/route.ts:83 | the mapping succeeds exactly when no element of the `trades` array is null, and then yields one record per element in order |
| TradingRoute.TradeRecords | src/app/api/trading-data/route.ts:58-83 | a failed `/trades` call or a missing `trades` field gives no records; a `null` body makes reading `trades` throw; a `trades` value that is not an array makes the mapping throw; an array gives one record per element, in order, unless an element is null, in which case the mapping throws |
| TradingRoute.PayloadProperties | src/app/api/trading-data/route.ts:96-135 | in a 200 body the two lists together have as many trades as `/trades` sent and are ordered newest first; the chart and cumulative series have one point per closed trade; no closed trades gives an empty cumulative series; otherwise its last value is the realised profit of all closed trades |
| Trades.Normalise | src/app/api/trading-data/route.ts:83-94 | status is Open iff `is_open` is true and side is SELL iff `is_short` is true; an open trade has no profit figures; a closed one has profitAbs = `profit_abs` or 0 and profitPercentage = 100 × (`profit_ratio` or 0); asset falls back to "N/A"; rates and amount default to 0; openDate is the `''` fallback iff `open_date_ts` is missing or 0 and otherwise that timestamp; closeDate is null iff `close_date_ts` is missing or 0 and otherwise that timestamp |
| Trades.NormaliseAll | src/app/api/trading-data/route.ts:83-94 | exactly one trade per record, in the same order, each with consistent profit fields |
| Trades.WithStatus | src/app/api/trading-data/route.ts:96-100 | the filtered list holds every trade of the given status as often as the input does, and nothing else |
| Trades.PartitionByStatus | src/app/api/trading-data/route.ts:96-100 | the open and closed lists together are the input as a multiset, so their lengths add up to the input's |
| Trades.InsertNewestFirst | src/app/api/trading-data/route.ts:96-100 | inserting a trade into a newest-first list keeps it newest first and adds exactly that trade |
| Trades.SortNewestFirst | src/app/api/trading-data/route.ts:96-100 | the sorted list is ordered by date descending and is a permutation of its input |
| Trades.OpenTrades | src/app/api/trading-data/route.ts:96-97 | `openTrades` holds exactly the open trades, as a multiset, ordered by open date descending |
| Trades.ClosedTrades | src/app/api/trading-data/route.ts:99-100 | `closedTrades` holds exactly the closed trades, as a multiset, ordered by close date descending (a null close date counts as epoch 0) |
| Trades.TradeLists | src/app/api/trading-data/route.ts:83-100 | `openTrades` and `closedTrades` partition the normalised trades; each is a permutation of its filtered subset, holds only its status (open without profitAbs, closed with it) and is newest first by open or close date |
| Charts.Reverse | src/app/api/trading-data/route.ts:103-105 | the copy has the same length and element i is element n−1−i of the original |
| Charts.ChartSeries | src/app/api/trading-data/route.ts:103-110 | one point per closed trade; point i is named `Trade i+1` and carries the date and profitAbs of the (i+1)-th trade from the end of the closed list |
| Charts.ChartSeriesChronological | src/app/api/trading-data/route.ts:99-110 | a closed list sorted newest first yields chart points in ascending date order |
| Charts.ChartTotalIsRealisedProfit | src/app/api/trading-data/route.ts:103-116 | the chart's profits sum to the sum of the closed trades' profitAbs |
| Charts.CumulativeProfitHistory | src/app/api/trading-data/route.ts:112-116 | each output point copies its chart point and adds the sum of the profits up to and including it |
| Charts.RunningTotalSteps | src/app/api/trading-data/route.ts:112-116 | the first cumulative value is the first profit and each later one is the previous plus its own profit |
| Charts.RunningTotalFinal | src/app/api/trading-data/route.ts:112-116 | an empty chart gives an empty series; otherwise the last cumulative value is the total profit |
| Decimal.NatToString | src/app/api/trading-data/route.ts:107 | the rendering is a non-empty string of digits with a leading zero only for 0 |
| Decimal.ParseNatToString | src/app/api/trading-data/route.ts:107 | reading the rendering back gives the number |
| Decimal.TradeLabelOrdinal | src/app/api/trading-data/route.ts:107 | a label is "Trade " followed by digits that read back as its ordinal |
| Decimal.TradeLabelInjective | src/app/api/trading-data/route.ts:107 | two ordinals have the same label iff they are equal |
| DashboardPage.Contribution | src/app/page.tsx:58-71 | a model adds latest − baseline when both exist and the count went up, and 0 otherwise; never negative |
| DashboardPage.NextBaseline | src/app/page.tsx:59-71 | after a successful poll the baseline is the reported count, even if it went down; after a failed one it is unchanged |
| DashboardPage.ReplayNeverNegative | src/app/page.tsx:58-75 | over any run of polls the badge gains a non-negative amount |
| DashboardPage.ReplayTelescopes | src/app/page.tsx:58-75 | from a recorded baseline, successful polls with non-decreasing counts add exactly last count − baseline, and the baseline ends at the last count |
| DashboardPage.FirstPollOnlyRecords | src/app/page.tsx:59-70 | with no baseline, a first successful poll followed by failed ones records the count and adds nothing |
| DashboardPage.Dashboard.constructor | src/app/page.tsx:12-22 | the page starts mounted and loading, with no data, an empty badge and no baselines |
| DashboardPage.Dashboard.BeginFetch | src/app/page.tsx:44-48 | an unmounted page stops the poll and changes nothing; an initial poll sets loading |
| DashboardPage.Dashboard.CompleteFetch | src/app/page.tsx:54-80 | when unmounted nothing changes; otherwise both data slots take the results, the badge grows by the sum of both contributions, each successful model's baseline becomes its count, a failed model's baseline stays, and an initial poll ends loading; the badge never decreases |
| DashboardPage.Dashboard.FetchAllData | src/app/page.tsx:44-81 | a full poll: no change when unmounted, otherwise the same new state as CompleteFetch |
| DashboardPage.Dashboard.Unmount | src/app/page.tsx:86-89 | after cleanup the page is unmounted, so later completions are ignored |
| DashboardPage.Dashboard.ClearNotifications | src/app/page.tsx:92-94 | the badge becomes 0 and nothing else changes |
| DashboardPage.Dashboard.HandleOpenChange | src/components/dashboard/notifications.tsx:25-29 | opening the menu clears the badge only when it is positive; otherwise it is unchanged |

## Left out

- HTTP and network plumbing is not modelled: `apiFetch`, `fetch`, `Promise.all`, `NextResponse` and the Basic-auth header (base64 through `Buffer`). Only the results of the calls enter the model, as parameters of `Get`.
- The debug `console.log` output and the `console.error` in the handler's catch block are not modelled.
- The chart point's `date` keeps the close time value (epoch milliseconds). Its locale-dependent rendering by `toLocaleDateString` is not modelled.
- Floating-point behaviour is not modelled. Profits are exact `real`s here, with no rounding, NaN or infinities.
- Upstream fields of unexpected JSON types are not modelled. Examples are a numeric `is_open` or a string `profit_abs`, whose JavaScript coercions would differ.
- Trades.DateOf: a missing open date (the `''` fallback) is given time value 0. In the source the comparator then returns NaN and the engine's sort order is unspecified. Where every open trade has an open timestamp the two agree.
- Trades.SortNewestFirst: its contract states descending order and permutation, not stability. The model inserts so that trades of equal date keep their input order, as the engine's stable `Array.prototype.sort` does.
- Only the throwing points of the transformation lead to the 500 path in `Get`. Other exceptions that the catch block would absorb are not modelled.
- The page's polling and async plumbing is not modelled: the 15-second `setInterval`, the effect's scheduling, `toast` error reports, and `fetchDataForModel`. A model's failed or non-OK fetch enters `CompleteFetch` as `None`.
- The profit-forecast flow in src/ai/flows/predict-profit-flow.ts is not part of this model. It is a language-model call, and its date arithmetic is a thin wrapper over a date library.
- The view components and the layout are rendering code with mock data and are not modelled. Only the notification menu's clear rule is kept, as `HandleOpenChange`.
