# Serverless cold-start and latency probes, modelled in Dafny

The repository compares an Azure Functions deployment and an OpenFaaS
deployment of the same image-classification handler. Two measurement
scripts call both deployments and write what they observe to CSV files:

- **The cold-start probe** (`cold_start/measure_cold_start.py`) makes one
  baseline round of calls. It then sleeps for a wait time that starts at
  60 s and doubles while it stays at or below 1920 s, calling both
  platforms after each sleep. Each round calls Azure first, then OpenFaaS.
- **The latency-breakdown sweep** (`latency_breakdown/measure_latency_breakdown.py`)
  calls both platforms once for each of nine square picture sizes, from
  256×256 to 3200×3200.
- **`extract_width`** (`latency_breakdown/plot_latency.py`) reads the
  width back out of the sweep's `image_size` labels for plotting.

How the model represents the scripts:

- The network is an oracle. The `k`-th HTTP GET of a run is answered by
  `outcomes[k]`: either a response (status, measured elapsed time, body) or
  a raised exception. Field values are of an opaque type `V` and are copied
  verbatim.
- Each script is a method. Its loops append to a result list, record a
  trace of effects (sleeps and GETs), and build the CSV table.
- Each method is proved equal to a specification built from per-call
  `Attempt` functions, laid out round by round by `Sweep.Attempts` and
  filtered in call order by `ResultSet.Kept`.
- The trace does not depend on the outcomes. So no failure stops a later
  call.
- The table is read back into the result list, so the file holds exactly
  the results, in order.

Modules:

| module | what it holds |
|---|---|
| `Wrappers` | `Option` |
| `Decimal` | `str(n)` and `int(s)` on digit strings |
| `Probe` | platforms, call outcomes, effects, `dict.get` |
| `ResultSet` | order-preserving filter, CSV table |
| `Sweep` | rounds of one call per target, shared by both scripts |
| `ColdStart` | the cold-start probe |
| `LatencyBreakdown` | the latency sweep |
| `PlotLatency` | `extract_width` and the width order of the sweep's rows |

Where the code's behaviour differs from what one might expect, the model
follows the code:

- A 200 response whose body is not JSON, or is JSON but not an object, is
  skipped and logged in both scripts. `response.json()` and the field
  accesses sit inside the `try`, so they do not end the run.
- In the cold-start probe, a body that lacks any one of the four duration
  keys is also skipped. `result[...]` raises `KeyError` inside the `try`.
- Only the latency sweep keeps such a response, writing the missing
  durations as empty cells (`data.get(key, None)`).

## Model

| member | source | states |
|---|---|---|
| Decimal.Show | latency_breakdown/measure_latency_breakdown.py:44 | an f-string integer is a non-empty digit string with no leading zero unless the number is 0 |
| Decimal.ParseNat | latency_breakdown/plot_latency.py:10 | the digits-only reading of `int` succeeds exactly on non-empty ASCII digit strings of at most 4300 digits, CPython's default conversion limit |
| Decimal.ValueShow | latency_breakdown/plot_latency.py:10 | the digits `str(n)` writes denote `n` |
| Decimal.ShowLength | latency_breakdown/measure_latency_breakdown.py:44 | a number below `10^k` is written with at most `k` digits, so the script's widths, all below 10000, take at most four of the 4300 `int` converts |
| Decimal.ParseShow | latency_breakdown/plot_latency.py:10 | `int(str(n)) == n` whenever `str(n)` is within the 4300-digit limit, and `int` raises beyond it |
| Decimal.ShowParse | latency_breakdown/plot_latency.py:10 | a digit string without a leading zero is `str` of its own value |
| Probe.Gets | cold_start/measure_cold_start.py:34-38 | one round makes one GET per platform, Azure then OpenFaaS, each passing the picture URL |
| Probe.Name | cold_start/measure_cold_start.py:34 | the `platform` string each target is written with, "Azure" or "OpenFaaS"; `PlatformNamed` is its inverse |
| Probe.PlatformNamed | cold_start/measure_cold_start.py:34 | reading a `platform` cell back: the platform whose name it is, and only that one |
| Probe.Lookup | latency_breakdown/measure_latency_breakdown.py:46-49 | `data.get(key, None)` holds a value exactly when the key is present, and that value is the field's |
| ResultSet.Kept | cold_start/measure_cold_start.py:28 | the result list never has more entries than there were calls |
| ResultSet.KeptIndices | cold_start/measure_cold_start.py:52 | every entry of the list comes from a successful call, calls keep their order, and every successful call is in the list |
| ResultSet.KeptAppend | cold_start/measure_cold_start.py:85 | appending as calls go: the list for two runs of calls back to back is the concatenation of their lists |
| ResultSet.KeptAll | cold_start/measure_cold_start.py:85 | the list is as long as the calls exactly when every call appended |
| ResultSet.KeptAllSucceeded | cold_start/measure_cold_start.py:85 | when every call appended, entry `j` is call `j`'s entry |
| ResultSet.KeptNone | cold_start/measure_cold_start.py:91-92 | the list is empty exactly when every call failed |
| ResultSet.KeptSkipsFailure | cold_start/measure_cold_start.py:91-92 | a failed call contributes nothing; the list is what the calls before and after it give |
| ResultSet.OneFailure | cold_start/measure_cold_start.py:91-92 | one failure among successes costs exactly one entry |
| ResultSet.ParseAll | cold_start/measure_cold_start.py:103 | reading all rows succeeds exactly when every row reads, giving the rows' values in order |
| Sweep.Attempts | cold_start/measure_cold_start.py:61-92 | a run of rounds has exactly one attempt per call, two per round |
| Sweep.AttemptAt | cold_start/measure_cold_start.py:61-71 | call `k` of a run is round `k / 2`'s call to target `k % 2`, Azure before OpenFaaS, with that round's parameter |
| Sweep.KeptThroughRound | cold_start/measure_cold_start.py:67-85 | the list after one more round is the list before it followed by what that round's calls append |
| Sweep.CallTargets | cold_start/measure_cold_start.py:67-92 | the inner loop makes one GET per target, in order, and appends exactly what those calls keep, in order |
| Sweep.AttemptsSucceed | cold_start/measure_cold_start.py:74-92 | call `k` appends exactly when its outcome succeeds |
| Sweep.ResultCount | cold_start/measure_cold_start.py:41-59 | at most two entries per round; two per round exactly when every call succeeds; none exactly when all fail |
| Sweep.FailureIsolated | cold_start/measure_cold_start.py:88-92 | a single failing call removes only its own entry; the calls before and after it contribute as they would without it |
| Sweep.EntryOrigin | cold_start/measure_cold_start.py:76-78 | entry `j` is exactly what the call at its kept position appended |
| ResultSet.WriteTable | cold_start/measure_cold_start.py:99-103 | the table has the given header and one row per result |
| ResultSet.TableRoundTrip | cold_start/measure_cold_start.py:98-103 | when every row reads back as its result, the table reads back as the whole list, in order |
| ColdStart.WaitTimes | cold_start/measure_cold_start.py:61-95 | the waits of the `while` loop, none exactly when the initial wait already exceeds the ceiling; `WaitTimesDoubling` states them in full |
| ColdStart.Rounds | cold_start/measure_cold_start.py:45-78 | the `wait_time` of each round: 0 for the baseline, then the loop's waits; `RoundsAscending` orders them |
| ColdStart.WaitTimesDoubling | cold_start/measure_cold_start.py:61-95 | the loop's waits start at the initial wait, double each round, stay within the ceiling, ascend strictly, and stop at the first doubling above the ceiling |
| ColdStart.DefaultSchedule | cold_start/measure_cold_start.py:24-25 | with 60 and 1920 the waits are 60, 120, 240, 480, 960, 1920: seven rounds with the baseline |
| ColdStart.Succeeds | cold_start/measure_cold_start.py:74-84 | the outcomes that append an entry: status 200 and a JSON object holding all four duration keys; `Attempt` appends exactly on these |
| ColdStart.Attempt | cold_start/measure_cold_start.py:70-92 | a call appends exactly when it answers 200 with an object holding all four keys; the entry has the platform, the round's wait, the measured time, and `total_duration` taken from `overall_duration` |
| ColdStart.Trace | cold_start/measure_cold_start.py:34-71 | the GETs and sleeps of a run, two for the baseline and three per wait; `TraceShape` places each one |
| ColdStart.TraceShape | cold_start/measure_cold_start.py:61-71 | the run makes two baseline GETs, then for each wait a sleep of that wait and two GETs, whatever the calls return |
| ColdStart.RowOf | cold_start/measure_cold_start.py:100-103 | one data row, with a cell per fieldname; `ParseRow` inverts it |
| ColdStart.ParseRow | cold_start/measure_cold_start.py:101-103 | a row that reads back came from writing that entry |
| ColdStart.RowRoundTrip | cold_start/measure_cold_start.py:103 | writing an entry as a row and reading it back gives the entry |
| ColdStart.TableRoundTrip | cold_start/measure_cold_start.py:98-103 | reading the written table back gives exactly the result list, in order |
| ColdStart.TraceStep | cold_start/measure_cold_start.py:62-71 | one more loop iteration adds a sleep of its wait and the round's two GETs to the trace |
| ColdStart.BaselineRound | cold_start/measure_cold_start.py:34-59 | the baseline round makes its two GETs without sleeping and keeps its successes tagged with wait 0 |
| ColdStart.BackoffRound | cold_start/measure_cold_start.py:62-95 | one loop iteration sleeps the wait, makes the round's two GETs, and extends the list by that round's kept calls |
| ColdStart.BackoffLoop | cold_start/measure_cold_start.py:61-95 | after the baseline round, the loop extends the trace by each wait's sleep and GETs and the list by each round's kept calls |
| ColdStart.MeasureColdStart | cold_start/measure_cold_start.py:28-103 | the script's run: its trace, its result list (baseline tagged 0, then each backoff round) and its table |
| ColdStart.DefaultResultCount | cold_start/measure_cold_start.py:24-25 | with the script's constants: at most 14 entries, 14 exactly when all 14 calls succeed, and none, with a header-only table, exactly when all fail |
| ColdStart.RoundsAscending | cold_start/measure_cold_start.py:45 | the baseline's wait 0 and the backoff waits ascend strictly |
| ColdStart.EntryOrigin | cold_start/measure_cold_start.py:76-78 | every entry carries its own round's wait and its call's platform |
| ColdStart.EntriesInOrder | cold_start/measure_cold_start.py:34-95 | two entries in list order are in (round, platform) order |
| ColdStart.ResultsOrdered | cold_start/measure_cold_start.py:34-95 | the list is ordered by wait, then Azure before OpenFaaS, and every wait is a round's wait |
| ColdStart.ShortScenario | cold_start/measure_cold_start.py:61-95 | with 60 and 180 the loop runs for 60 and 120, and six successes give waits 0, 0, 60, 60, 120, 120 with platforms alternating |
| LatencyBreakdown.ImageSizesShape | latency_breakdown/measure_latency_breakdown.py:11-21 | nine square sizes from 256 to 3200, strictly ascending |
| LatencyBreakdown.ImageUrl | latency_breakdown/measure_latency_breakdown.py:30 | the Picsum URL for a size, width then height; `TraceShape` puts it into both GETs of that size |
| LatencyBreakdown.Label | latency_breakdown/measure_latency_breakdown.py:44 | the `WxH` label; `PlotLatency.ExtractWidthOfLabel` reads its width back |
| LatencyBreakdown.Succeeds | latency_breakdown/measure_latency_breakdown.py:40-41 | the outcomes that append an entry: status 200 and a JSON object, whatever its keys; `Attempt` appends exactly on these |
| LatencyBreakdown.Attempt | latency_breakdown/measure_latency_breakdown.py:36-56 | a call appends exactly when it answers 200 with an object; the entry has the platform, the `WxH` label and each duration present exactly when its key is |
| LatencyBreakdown.Trace | latency_breakdown/measure_latency_breakdown.py:28-37 | the GETs of the sweep, two per size; `TraceShape` places each one |
| LatencyBreakdown.TraceShape | latency_breakdown/measure_latency_breakdown.py:28-37 | two GETs per size in size order, Azure first, each for that size's Picsum URL, with no sleeps |
| LatencyBreakdown.TraceStep | latency_breakdown/measure_latency_breakdown.py:28-37 | one more size adds that size's two GETs to the trace |
| LatencyBreakdown.SizeRound | latency_breakdown/measure_latency_breakdown.py:28-56 | one outer iteration extends list and trace by that size's calls |
| LatencyBreakdown.MeasureLatencyBreakdown | latency_breakdown/measure_latency_breakdown.py:24-64 | the sweep's trace, its result list in (size, platform) call order, and its table |
| LatencyBreakdown.DefaultResultCount | latency_breakdown/measure_latency_breakdown.py:11-21 | over the nine sizes: at most 18 entries, 18 exactly when every call succeeds, and none, with a header-only table, exactly when all fail |
| LatencyBreakdown.EntryOrigin | latency_breakdown/measure_latency_breakdown.py:42-44 | every entry carries its size's label and its call's platform |
| LatencyBreakdown.MissingDurationsAreEmpty | latency_breakdown/measure_latency_breakdown.py:46-49 | a 200 object lacking every duration key still gives an entry, with all durations empty |
| LatencyBreakdown.DurationCell | latency_breakdown/measure_latency_breakdown.py:64 | a duration's cell is empty exactly when the duration is missing; `DurationOfCell` inverts it |
| LatencyBreakdown.DurationOfCell | latency_breakdown/measure_latency_breakdown.py:62-64 | an empty cell reads back as a missing duration, a value cell as that value |
| LatencyBreakdown.RowOf | latency_breakdown/measure_latency_breakdown.py:61-64 | one data row, with a cell per fieldname; `ParseRow` inverts it |
| LatencyBreakdown.ParseRow | latency_breakdown/measure_latency_breakdown.py:62-64 | a row that reads back came from writing that entry |
| LatencyBreakdown.RowRoundTrip | latency_breakdown/measure_latency_breakdown.py:64 | writing an entry as a row, empty cells for missing durations, and reading it back gives the entry |
| LatencyBreakdown.TableRoundTrip | latency_breakdown/measure_latency_breakdown.py:59-64 | reading the written table back gives exactly the result list, empty durations included |
| PlotLatency.BeforeFirstX | latency_breakdown/plot_latency.py:10 | `split('x')[0]` is the longest `x`-free prefix: it is a prefix, has no `x`, is followed by `x` when shorter, and is the whole string when there is no `x` |
| PlotLatency.ExtractWidth | latency_breakdown/plot_latency.py:8-12 | a width exactly when the text before the first `x` is a non-empty digit string of at most 4300 digits, otherwise `None` and no error |
| PlotLatency.BeforeFirstXStops | latency_breakdown/plot_latency.py:10 | the split ends at the first `x`, whatever follows it |
| PlotLatency.ExtractWidthIgnoresRest | latency_breakdown/plot_latency.py:10 | only the text before the first `x` is parsed |
| PlotLatency.ExtractWidthWholeString | latency_breakdown/plot_latency.py:10 | a string with no `x` is parsed whole |
| PlotLatency.ExtractWidthRoundTrip | latency_breakdown/plot_latency.py:8-12 | `extract_width(str(w) + "x" + h) == w` for every `h` and every `w` of at most 4300 digits, and `None` for longer `w` |
| PlotLatency.ExtractWidthOfLabel | latency_breakdown/plot_latency.py:14 | the width read from a sweep label is that size's width, within the 4300-digit limit |
| PlotLatency.ExtractWidthCanonical | latency_breakdown/plot_latency.py:8-12 | a width read from a prefix with no leading zero is written back as that prefix |
| PlotLatency.ExtractWidthDigitLimit | latency_breakdown/plot_latency.py:9-12 | a leading part of more than 4300 digits makes `int` raise, so the width is `None` |
| PlotLatency.ExtractWidthRejects | latency_breakdown/plot_latency.py:11-12 | under the digits-only reading of `int`, a string that does not start with a digit gives `None` |
| PlotLatency.EntriesInWidthOrder | latency_breakdown/plot_latency.py:14 | two rows in file order are in (width, platform) order when the sizes ascend and their widths are within the digit limit |
| PlotLatency.ResultsOrderedByWidth | latency_breakdown/plot_latency.py:14 | every row of the sweep yields a width, and rows come by ascending width with Azure before OpenFaaS for the same label, when the sizes ascend in width and each width is within the 4300-digit limit |
| PlotLatency.DefaultSweepOrdered | latency_breakdown/plot_latency.py:14 | over the script's nine sizes, the widths read from the rows never decrease |

## Left out

- HTTP and JSON decoding: each call's outcome is an input to the model. The model covers only how the scripts react to each outcome.
- The clock: `time.time()` differences are taken as given, as the outcome's `elapsed` value, a real number rather than a float.
- `time.sleep`: it appears only as an effect in the trace; no time passes in the model.
- LatencyBreakdown.Attempt: `elapsed_time` is not rounded. `round(elapsed_time, 2)` at measure_latency_breakdown.py:45 is float rounding, which the model does not represent.
- `print` logging: it has no effect on the results.
- CSV text: `csv.DictWriter`'s quoting, number formatting and line endings are abstracted into a table of typed cells. The round trip holds for the typed cells. In the file text, a duration that is JSON `null` or empty text gives the same empty cell as a missing one, since `data.get` also returns `None` for `null`.
- Writing the file: a failure to open or write it, which ends the script, is not modelled.
- PlotLatency.ExtractWidth: only ASCII digit strings parse. Python's `int` also accepts surrounding whitespace, a sign, underscores and non-ASCII digits.
- Decimal.ParseNat: the same digits-only reading. `int(" 256")`, `int("+256")` and `int("2_56")` give 256 in Python, but `None` here.
- PlotLatency.ExtractWidthRejects: the same digits-only reading. `extract_width(" 256x256")` and `extract_width("+256x256")` give 256 in Python, where this lemma states `None`.
- Decimal.Show: `str` of an int over 4300 digits raises in CPython, but the model writes any natural number. The script's widths and heights have at most four digits.
- PlotLatency.ExtractWidth: the input is always a string. A non-string cell, such as pandas' NaN for an empty cell, which makes `split` raise, is not modelled.
- ColdStart.MeasureColdStart: the initial wait must be positive. With 0 the source's loop never ends, since 0 doubled stays 0. The script uses 60.
- ColdStart.WaitTimes: same as above; the function needs a positive start to terminate.
- The plotting itself: pandas loading, the platform filters and the matplotlib figures. Only `extract_width` is modelled.
- The other scripts, the handlers and the load-test files: these are not part of this model.
