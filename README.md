# Baekjoon stats card: classification and progress model

A Dafny model of the logic inside the solved.ac stats-card handler (`api/baekjoon.js`).
The handler takes a `username` query parameter and fetches that user's record from solved.ac.
It reads three numeric fields (`solvedCount`, `rank`, `tier`), each with a fallback for falsy values.
It classifies the tier as easy, medium or hard and puts the whole solved count into that class's bucket.
It computes an overall percentage against a fixed total of 3476 problems.
It answers with a stats card, or with one of two error cards.

- `Tier` (tier.dfy): `classifyTier` as `Classify`, and the division table from its documentation comment.
- `Progress` (progress.dfy): the fixed totals and `Math.round((solvedCount / overallTotal) * 100)`.
  `Math.round` over exact reals is `floor(x + 1/2)`, and `OverallPercent` computes it in integers as `(200 * s + 3476) / 6952`.
  `PercentNearest` shows the exact value is never a tie. It is always at least 1/3476 away from a half-integer.
- `Handler` (handler.dfy): the exported handler. It covers the `||` defaults, the easy/medium/hard counters assigned in branches (`SplitSolved`, specified by `Split`), the values given to the card template (`StatsFor`) and the choice between the three outcomes (`Handle`).
  The HTTP client is the parameter `fetch: string -> Reply`.
  The out-parameter `requested` records which handle, if any, the client is asked for. It is set beside the call to `fetch`; that no request happens without a username rests on that case's card being fixed without reference to `fetch`.
  A rejected request (network error or non-2xx status) is `Failed`.
  A null response body is `Replied(None)`: reading `data.solvedCount` on it throws inside the `try`, so it ends in the fetch-error card.

The percentage is not clamped: it is above 100 exactly from 3494 solved problems on, and counts from 3477 to 3493 still round to 100.
The bucket split puts the whole solved count into the bucket named by the tier's class and leaves the other two at 0; with a solved count of 0 all three buckets are 0.

## Model

| member | source | states |
|---|---|---|
| Tier.Classify | api/baekjoon.js:15-19 | the class is Easy exactly when tier <= 10, Medium exactly when 10 < tier <= 20, Hard exactly when tier > 20 |
| Tier.ClassifyMonotone | api/baekjoon.js:15-19 | a higher tier never gets an easier class under Easy < Medium < Hard |
| Tier.DivisionOf | api/baekjoon.js:3-11 | the documented table, each range in both directions: 0 to 5 Bronze, 6 to 10 Silver, 11 to 15 Gold, 16 to 20 Platinum, 21 to 25 Diamond, 26 to 30 Ruby |
| Tier.ClassifyGroupsDivisions | api/baekjoon.js:3-19 | for tiers 0 to 30 the thresholds pair the divisions as documented: Easy = Bronze + Silver, Medium = Gold + Platinum, Hard = Diamond + Ruby |
| Progress.OverallTotal | api/baekjoon.js:57-62 | the overall total is positive |
| Progress.OverallTotalValue | api/baekjoon.js:57-62 | 863 + 1807 + 806 = 3476 |
| Progress.FloorOfQuotient | api/baekjoon.js:63 | the floor of an exact quotient is Euclidean division by the positive divisor |
| Progress.OverallPercent | api/baekjoon.js:63 | the integer formula equals Math.round((solvedCount / 3476) * 100) over exact reals, for every solved count |
| Progress.PercentNearest | api/baekjoon.js:63 | the result is within 1737/3476 of the exact percentage, so the exact value is never halfway between two integers |
| Progress.PercentOfNone | api/baekjoon.js:63 | 0 solved gives 0 percent |
| Progress.PercentOfAll | api/baekjoon.js:62-63 | 3476 solved gives 100 percent |
| Progress.PercentMonotone | api/baekjoon.js:63 | the percentage never decreases as the solved count grows |
| Progress.PercentAboveHundred | api/baekjoon.js:63 | no clamping: the percentage exceeds 100 if and only if the solved count is at least 3494 |
| Progress.PercentInRange | api/baekjoon.js:63 | solved counts 0 to 3493 give a percentage in 0 to 100 |
| Progress.PercentOfMultiple | api/baekjoon.js:62-63 | k times the total gives 100 * k percent, so the percentage is unbounded |
| Handler.OrDefault | api/baekjoon.js:34-36 | `field \|\| fallback`: a present non-zero value passes through, a missing or zero one becomes the fallback, and a non-zero fallback never yields 0 |
| Handler.SolvedCountDefault | api/baekjoon.js:34 | a falsy solved count reads as 0 |
| Handler.RankDefault | api/baekjoon.js:35 | a falsy rank reads as 999999 |
| Handler.TierDefault | api/baekjoon.js:36-37 | a falsy tier reads as 0, and that tier classifies as Easy |
| Handler.RankNeverZero | api/baekjoon.js:35 | the rank read from any record is never 0 |
| Handler.Split | api/baekjoon.js:42-53 | the bucket named by the class holds the whole solved count and every other bucket holds 0 |
| Handler.SplitPreservesTotal | api/baekjoon.js:42-53 | the three buckets add up to the solved count |
| Handler.SplitSolved | api/baekjoon.js:42-53 | the counters start at 0 and the branch chain leaves exactly the Split of the solved count by the class, summing to the solved count |
| Handler.StatsFor | api/baekjoon.js:33-77 | the card gets the username and the defaulted rank and solved count; its buckets are the split by the tier's class and sum to the solved count; its totals are 863, 1807 and 806, summing to 3476; its percentage is Math.round of the exact ratio |
| Handler.StatsOfEmptyRecord | api/baekjoon.js:34-77 | a record with no usable field gives rank 999999, 0 solved in every bucket, totals 863/1807/806 and 0 percent |
| Handler.Handle | api/baekjoon.js:21-85 | a missing or empty username gives "No username provided", a card fixed without any reference to `fetch`, and `requested` is None; otherwise the handle is requested; a failed request or null body gives "Error fetching user data"; the stats card comes exactly when a body arrives, and its values are StatsFor |

## Left out

- The solved.ac request itself and the URL built from the username (api/baekjoon.js:29-31). They are an external network service, and the model takes them as the `fetch` parameter.
- `res.setHeader`, `res.send` and `console.error`. These are HTTP response and logging side effects. Both kinds of card are sent as `image/svg+xml`, and that header is not modelled.
- The SVG markup of `sendErrorCard` and `renderLeetStyleSVG`. It is fixed template text, and the model keeps only the message (`ErrorCard`) and the values interpolated into the stats card (`CardStats`).
- The circular gauge's dash lengths (`Math.PI`). This is floating-point geometry.
- Progress.OverallPercent: modelled over exact reals, not IEEE doubles. The exact value is always at least 1/3476 away from a rounding tie, so double rounding error cannot change the result for realistic counts, but the model does not prove this.
- Handler.OrDefault: models fields as integers or absent/null. Other JSON values (strings, `false`, non-integer numbers, NaN) are not modelled.
- Handler.Handle: a response body other than an object or null (a string, for example) is not modelled.
- Handler.Handle: a `username` given several times in the query string arrives as an array. The model does not cover this; it takes the parameter as an optional string.
- Escaping of `username` and `message` in the SVG and the URL. The code does none, so there is no behaviour to model.
