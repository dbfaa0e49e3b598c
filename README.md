# Mock task generator — Dafny model

This project models `generateMockData(count = 20)` from `src/utils/mockData.js`.
The function builds the synthetic delivery "tasks" that the map demo shows.
Each iteration of its `for` loop draws random offsets around a fixed centre
(Wuhan, 114.305393 / 30.593099). It then picks a province, a city, a district
and a title from four fixed vocabularies with `getRandom`, and pushes one record.
Each record holds a sequential `id`, the four labels, an address, a full address
with a placeholder street, a start point and an end point named after the
district, a formatted distance and a "lat, lng" string.

Everything is in one module, `MockData` (`mock_data.dfy`):

- `Math.random` is injected as a `RandomSource`, a function `nat -> Draw`. The
  k-th call during one generation returns `random(k)`, a real in [0, 1).
  Iteration `i` makes calls 9i .. 9i + 8, in source order: lng offset, lat
  offset, end lng, end lat, distance, province, city, district, title.
- `Number.prototype.toFixed` is injected as a `Formatter`, `(real, nat) -> string`,
  and left uninterpreted.
- Coordinates are exact reals.
- `MockTasks(random, toFixed, n)` is the specification: the `tasks` array after
  `n` iterations, one `MakeTask` record appended per iteration.
- `GenerateMockData` is the loop itself, with a `calls` counter standing for the
  state of the random generator. `NextTask` is one iteration of the loop body. The
  method is proved equal to `MockTasks` for the iteration count the loop guard
  gives. The lemmas about `MockTasks` and `WellFormed` state what a caller gets.

The offsets lie in half-open intervals, not open ones. `(r - 0.5) * 2` and
`(r - 0.5) * 0.1` with `0 <= r < 1` give [-1, 1) and [-0.05, 0.05). A draw of 0
yields exactly -1 (or -0.05). `StartOffsetOnto` and `EndOffsetOnto` show that the
lower bounds are reached.

## Model

| member | source | states |
|---|---|---|
| `MockData.RandomIndex` | src/utils/mockData.js:10 | For a non-empty array, the index `floor(r * length)` is within bounds for every draw in [0, 1). |
| `MockData.GetRandom` | src/utils/mockData.js:10 | `getRandom(arr)` on a non-empty array returns an element of `arr`. |
| `MockData.RandomIndexInterval` | src/utils/mockData.js:10 | Index k is picked exactly when the draw lies in [k/len, (k+1)/len). So the draws split into equal-width intervals, one per element (both directions). |
| `MockData.GetRandomReachesEvery` | src/utils/mockData.js:10 | Every element of a non-empty array is returned for some draw. |
| `MockData.StartOffset` | src/utils/mockData.js:14-15 | `(Math.random() - 0.5) * 2` lies in [-1, 1). |
| `MockData.StartOffsetOnto` | src/utils/mockData.js:14-15 | Every value in [-1, 1) is the start offset of some draw, so the bounds are exact. |
| `MockData.EndOffset` | src/utils/mockData.js:22-23 | `(Math.random() - 0.5) * 0.1` lies in [-0.05, 0.05). |
| `MockData.EndOffsetOnto` | src/utils/mockData.js:22-23 | Every value in [-0.05, 0.05) is the end offset of some draw. |
| `MockData.DistanceValue` | src/utils/mockData.js:26 | `Math.random() * 50` lies in [0, 50). |
| `MockData.DistanceValueOnto` | src/utils/mockData.js:26 | Every value in [0, 50) is the distance value of some draw. |
| `MockData.MakeTask` | src/utils/mockData.js:14-53 | The record pushed by iteration i has `id == i + 1`. It is built by `BuildTask`, which holds the coordinate arithmetic, the label picks and the object literal of lines 18-53. Its draws come from `DrawsFrom`: calls 9i .. 9i + 8 in the order of lines 14-31. |
| `MockData.BuildTaskWellFormed` | src/utils/mockData.js:14-53 | For any draws, the record is well formed: labels in their vocabularies; `address == p + " " + c + " " + d`; `fullAddress == address + " xxx路xxx号"`; point names are the district plus " (起点)" / " (终点)"; point types are start / end; start minus centre in [-1, 1) and end minus start in [-0.05, 0.05) on each axis; `distance` is `toFixed(v, 2)` for some v in [0, 50); `coordsStr` is `toFixed(lat, 6) + ", " + toFixed(lng, 6)` of the start. |
| `MockData.WellFormedPrefixes` | src/utils/mockData.js:39-50 | In a well-formed record, `address` is a prefix of `fullAddress`. Both point names begin with the district, and the two names differ. |
| `MockData.TaskDependsOnlyOnItsDraws` | src/utils/mockData.js:14-31 | Record i depends on draws 9i .. 9i + 8 only: two random sources that agree there give the same record. |
| `MockData.MockTasks` | src/utils/mockData.js:12-54 | After n iterations, `tasks` holds exactly n records. |
| `MockData.MockTasksAt` | src/utils/mockData.js:12-53 | Record k of the batch is the one iteration k builds. |
| `MockData.MockTasksPrefix` | src/utils/mockData.js:33 | Iterations only append. The first m records after n >= m iterations are the m records after m iterations, so earlier records are never modified. |
| `MockData.MockTasksIds` | src/utils/mockData.js:12-34 | The ids are exactly 1 .. n in push order. |
| `MockData.MockTasksWellFormed` | src/utils/mockData.js:12-53 | Every record of the batch is well formed (as above). |
| `MockData.MockTasksDependOnlyOnFirstDraws` | src/utils/mockData.js:12-31 | The first n records depend only on the first 9n draws. |
| `MockData.NextTask` | src/utils/mockData.js:13-53 | One loop iteration makes nine calls to `Math.random`, starting at call 9i. It advances the call count to 9(i + 1) and produces exactly the record `MakeTask(i)`. |
| `MockData.GenerateMockData` | src/utils/mockData.js:1-57 | Returns exactly `count` records when `count >= 0`, and none when `count <= 0`. The result equals the specification `MockTasks` for that many iterations, and the ids run 1 .. count. |
| `MockData.GenerateWithDefaultCount` | src/utils/mockData.js:1 | Called without `count`, the generator returns 20 records with ids 1 .. 20, all well formed. |

## Left out

- `Math.random` is not modelled. It is replaced by the injected `RandomSource`, so the quality and seeding of the randomness are not modelled.
- The random generator's state before the call is not modelled: each generation reads its stream from position 0.
- The decimal rendering of `toFixed(2)` (distance, line 26) and `toFixed(6)` (`coordsStr`, line 52) is not modelled. `toFixed` is an uninterpreted parameter, so nothing is proved about digit counts.
- IEEE-754 rounding in the coordinate sums (lines 18-23) is not modelled. Reals give the intended bounds, not bit-exact doubles.
- `count` is an integer. JavaScript's loop over a non-integer `count` runs max(0, ceil(count)) times; that case is not modelled.
- `count` is unbounded here. In JavaScript, `tasks.push` throws `RangeError` once the array would exceed 2^32 - 1 elements, and memory runs out long before that. That failure is not modelled.
- GetRandom: requires a non-empty array. In JavaScript an empty array yields `undefined`, but all four vocabularies are non-empty, so that path is never taken.
- The map UI that consumes the returned records is not part of this model.
