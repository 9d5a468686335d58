# go-web-framework-benchmark driver, modelled in Dafny

`test.py` drives the benchmark. It plans which CPU cores the web framework
under test and the load generator wrk2 (`wrk`) may use. It then sweeps every
combination of framework, connection count, mocked processing time and
pipeline size. For each combination it builds the two command vectors, runs
one trial, and stores the trial's result in a four-level tree keyed by those
parameters. The trial's wrk2 report is parsed into two latency histograms,
uncorrected and corrected, plus the throughput.

This project models that core in Dafny 4.11. It covers:

- the report parser: the section extractors, `extract_latency` and `process_wrk_output`;
- the CPU planner;
- the argument vectors of one trial;
- the four nested sweep loops.

The project has seven files:

- `wrappers.dfy`: `Option` and `Result`.
- `text.dfy` (module `Text`): characters, substring search, `split`/`join`, decimal rendering of integers (`"{}".format`) and reading them back, whitespace words.
- `pyfloat.dfy` (module `PyFloat`): Python's `float()` on the strings the report's regexes can capture.
- `report.dfy` (module `Report`): the report parser.
- `cpus.dfy` (module `CpuPlan`): the CPU planner.
- `command.dfy` (module `Command`): the server and wrk argument vectors, and functions that read them back.
- `sweep.dfy` (module `Sweep`): the sweep loops, the trial schedule and the result tree.

The section extractors, the histogram loop, `process_wrk_output`, the vector
builders and the sweep loops work step by step in the source. Each one is a
`method` with a loop or a sequence of updates, and it is proved equal to a
specification function. The properties the source relies on are proved as
lemmas about those functions.

Some of the regexes in the source have an unescaped `.` (`\d+.\d+` and
`\d+.?\d*`). The row recogniser and the throughput capture therefore take a
flag `dotAny`:

- `true` is the pattern as written, and it is what `ProcessWrkOutput` runs;
- `false` is the same pattern with a literal point.

Three behaviours of the code are easy to miss:

- The throughput regex `.*Requests\/sec:\s+(\d+.?\d*).*` begins with a greedy
  `.*` and is searched with `re.search`. It therefore captures the **last**
  `Requests/sec:` match on the **first** line that has one, not the first
  match in the text. `Report.RpsPosition` states exactly that.
- The percentile-summary lines of a wrk2 report, such as ` 50.000%  1.23ms`,
  have fewer than four words and never match the row regex
  (`Report.ShortLineIsNoRow`). Only the rows of the detailed percentile
  spectrum, four numeric columns after indentation, do
  (`Report.SpectrumRowRecognised`).
- CPU caps that are both set are not checked against the machine's core
  count. `CpuPlan.SetCapsMayExceedMachine` shows a plan that lists more cores
  than the machine has.

## Model

| member | source | states |
|---|---|---|
| `Text.IntToStringRoundTrip` | test.py:155-163 | the decimal text `"{}".format(n)` of any integer, negative ones included, reads back as `n` |
| `Text.SplitJoin` | test.py:155 | splitting a `",".join` of one or more separator-free parts gives the parts back |
| `Text.JoinSplit` | test.py:70 | joining the pieces of `split("\n")` with the separator gives the text back |
| `PyFloat.Float` | test.py:124-125 | `float()` of an all-digit capture is its value, and every accepted capture is non-negative |
| `PyFloat.FloatOfDecimal` | test.py:124-125 | a capture `D.D'` is always accepted, with its decimal value |
| `PyFloat.FloatRefuses` | test.py:124-125 | digits, then a letter other than `e`/`E`, then digits make `float()` raise |
| `Report.ExtractSection` | test.py:67-79 | the loop with the "within interval" flag keeps exactly the lines of the reference section function, in order |
| `Report.UncorrectedLines` | test.py:67-79 | the uncorrected extractor is the section walk for the uncorrected header |
| `Report.CorrectedLines` | test.py:82-93 | the corrected extractor is the section walk for the recorded-latency header |
| `Report.FlagAfterIff` | test.py:72-76 | the flag is set after a line exactly when that line or an earlier one holds the header and no separator lies from that header line to this one |
| `Report.SectionIsIntervalLines` | test.py:70-77 | the kept lines are exactly the interval lines of the reference definition, in input order |
| `Report.SectionHasNoSeparator` | test.py:74-77 | no kept line contains the separator |
| `Report.NothingBeforeHeader` | test.py:69-77 | before the first header line nothing is kept and the flag is off |
| `Report.RowRecognition` | test.py:121-131 | a row is recognised exactly when one of the two patterns matches; the captures come from the leftmost match of the decimal pattern, and from the `inf` pattern only when the decimal one matches nowhere |
| `Report.RecogniseRow` | test.py:121-131 | the two regex searches of `extract_latency` on one line, the `inf` pattern only when the decimal one finds nothing; `Report.RowRecognition` states when each matches and where |
| `Report.SpectrumRowRecognised` | test.py:121-131 | an indented line whose four words are value, percentile, count and `1/(1-p)` is a row, captured at its first two words |
| `Report.ShortLineIsNoRow` | test.py:121-131 | a line of fewer than four words is never a row |
| `Report.ExtractLatency` | test.py:118-132 | `extract_latency` as written, with the unescaped `.`; `Report.ExtractLatencyCases` states its three outcomes |
| `Report.ExtractLatencyCases` | test.py:118-132 | no pair for an unrecognised line; otherwise the floats of the first two captures, or the `ValueError` of the first capture `float()` refuses (latency first, then quantile) |
| `Report.StrictRowNeverFails` | test.py:121-131 | with a literal point the row parser never raises, and gives no pair exactly when no pattern matches |
| `Report.StrictWordConverts` | test.py:122-125 | a word matching `\d+\.\d+` is accepted by `float()` |
| `Report.FoldErrors` | test.py:101-108 | the histogram loop fails exactly when some row fails, and then with the error of the first failing row |
| `Report.FoldKeys` | test.py:101-108 | in a successful loop, a quantile is a key exactly when some row yields it; unrecognised rows add nothing |
| `Report.FoldLastWins` | test.py:103-108 | a repeated quantile keeps the latency of its last row |
| `Report.FoldRows` | test.py:101-104 | the histogram loop computes the reference fold of the rows |
| `Report.RpsPosition` | test.py:110-111 | the throughput match is absent exactly when no `Requests/sec:` followed by whitespace and a digit occurs; otherwise it is the last such occurrence on the first line that has one |
| `Report.RpsValue` | test.py:109-113 | the throughput is `None` exactly when nothing matches; it is `float()` of the capture at that match when that is accepted, and the parse fails with that capture's `ValueError` exactly when it is not |
| `Report.StrictRpsConverts` | test.py:110-113 | with `\.?` every throughput capture is accepted by `float()` |
| `Report.WrkReport` | test.py:96-115 | the reference report of a text: the uncorrected rows folded, then the corrected rows, then the throughput, the first `ValueError` ending it; `Report.ReportKeys`, `Report.ReportRpsAbsent` and `Report.StrictReportNeverFails` state its properties |
| `Report.ProcessWrkOutput` | test.py:96-115 | the parse is the reference report function of the text: the uncorrected rows, then the corrected rows, then the throughput, and the first `ValueError` ends it |
| `Report.ReportKeys` | test.py:101-108 | in a successful parse, each histogram's keys are exactly the quantiles its section lines yield |
| `Report.ReportRpsAbsent` | test.py:109-113 | in a successful parse, the throughput is absent exactly when no throughput line matches |
| `Report.UncorrectedRowFails` | test.py:101-104 | one uncorrected section row that `float()` refuses makes the whole parse fail |
| `Report.StrictReportNeverFails` | test.py:96-115 | with literal points in all patterns the parse never raises |
| `Report.RowDotAcceptsNonNumber` | test.py:121-125 | the row ` 1x5 0.5 3 1.0` is recognised as written and its latency `1x5` then makes `float()` raise |
| `Report.StrictSkipsNonNumber` | test.py:121-131 | with a literal point the same row is not a histogram row and yields no pair |
| `Report.ExampleRateMatch` | test.py:110-111 | the line `Requests/sec: 12k` matches at its start |
| `Report.RpsDotAcceptsNonNumber` | test.py:110-113 | as written, the throughput capture of `Requests/sec: 12k` is `12k`, which `float()` refuses |
| `Report.StrictRateReadsDigits` | test.py:110-113 | with `\.?` the same line's throughput is 12 |
| `CpuPlan.CompleteCaps` | test.py:239-247 | two unset caps split the machine evenly, rounding down; one unset cap takes what the other leaves; two set caps stay as given |
| `CpuPlan.PlanCpus` | test.py:239-253 | the planner keeps the completed caps, lists the cores `0 .. web+wrk-1` (none when the sum is negative), and pins neither process when affinity is off; `CpuPlan.BlocksCoverCpus`, `CpuPlan.BlocksDisjoint` and `CpuPlan.BlocksAreIntervals` state how the two blocks split the list |
| `CpuPlan.NoAffinityNoLists` | test.py:251-253 | with affinity off both CPU lists are empty |
| `CpuPlan.BlocksCoverCpus` | test.py:249-253 | with affinity on, the web block followed by the wrk block is exactly the listed cores, for any caps |
| `CpuPlan.BlocksDisjoint` | test.py:249-253 | with affinity on, no core is given to both processes |
| `CpuPlan.BlocksAreIntervals` | test.py:249-253 | with non-negative caps, the web framework gets cores `0 .. web-1` and wrk gets `web .. web+wrk-1` |
| `CpuPlan.UnsetCapStaysOnMachine` | test.py:241-250 | with a cap left unset and the other within the machine, every planned core exists on the machine |
| `CpuPlan.SetCapsMayExceedMachine` | test.py:241-253 | caps 3 and 3 on a 4-core machine plan cores 0 to 5 |
| `Command.CpuListRoundTrip` | test.py:155 | the `taskset -c` list text reads back as the CPU list it was written from |
| `Command.FlagRoundTrip` | test.py:161 | a flag `-t{}`, `-c{}` or `-R{}` reads back as its number |
| `Command.DurationRoundTrip` | test.py:162 | `-d{}s` reads back as the duration |
| `Command.WebFrameworkArgs` | test.py:153-156 | the server vector has six words, its first three the `taskset -c` prefix with the CPU list, when pinned and three otherwise, ends with path, framework and processing time, and reads back as the call it was built from |
| `Command.WrkWordsRoundTrip` | test.py:161-164 | the twelve fixed wrk words plus the extra arguments read back as thread count, connections, rate, duration, endpoint, script, pipeline size and extras |
| `Command.WrkVectorRoundTrip` | test.py:158-164 | a pinned or unpinned wrk vector has a `taskset` prefix exactly when pinned, and reads back as the call it was built from |
| `Command.WrkArgs` | test.py:158-164 | the wrk vector is the `taskset` prefix when pinned, then the twelve fixed words of `WrkWords`, then the extras; it has 15 or 12 words plus the extras, ends with the extras, has the `taskset -c` prefix with the CPU list exactly when pinned, and reads back as its call |
| `Sweep.Threads` | test.py:302-306 | the wrk thread count is the smaller of the cap and the connection count |
| `Sweep.KeysInjective` | test.py:298-309 | different numbers give different `connections-`, `mocked-processing-time-…-ms` and `pipeline-` keys |
| `Sweep.ConnKey` | test.py:298 | the key `connections-{}` of a connection count; `Sweep.KeysInjective` shows distinct counts get distinct keys |
| `Sweep.TimeKey` | test.py:301 | the key `mocked-processing-time-{}-ms` of a processing time; injective by `Sweep.KeysInjective` |
| `Sweep.PipeKey` | test.py:309 | the key `pipeline-{}` of a pipeline size; injective by `Sweep.KeysInjective` |
| `Sweep.ClampThreads` | test.py:302-306 | the source's `if` lowers the thread count to the connection count exactly as `Sweep.Threads` does |
| `Sweep.Schedule` | test.py:295-317 | the trials of the four loops in loop order; it has `|fws|·|conns|·|times|·|pipes|` entries, and `Sweep.ScheduleAt` and `Sweep.ScheduleMember` say which trial is where |
| `Sweep.SweepTree` | test.py:295-318 | the reference result tree of a sweep that raises nowhere; `Sweep.TreeKeys` and `Sweep.TreeLeaf` state its keys and leaves |
| `Sweep.FirstRaiseNone` | test.py:311-321 | the sweep raises nowhere exactly when no step of the schedule raises |
| `Sweep.RunAll` | test.py:295-321 | when no step raises, every step of the schedule is run |
| `Sweep.RunStops` | test.py:295-321 | when some step raises, the steps run are the schedule up to and including the first raising step, all earlier ones raising nothing, and the exception is that step's |
| `Sweep.RunUntilRaiseAppend` | test.py:295-321 | the steps run of two schedules one after the other are those of the first if it raises, else all of the first and then those run of the second |
| `Sweep.SweepPipelines` | test.py:308-321 | the innermost loop runs the reference calls up to and including the first step that raises; it fails with that step's exception exactly when one raises, and otherwise builds the reference pipeline table |
| `Sweep.SweepProcessingTimes` | test.py:300-321 | the processing-time loop, with the clamped thread count, runs its calls up to the first raising step; it fails with that exception exactly when one raises, and otherwise builds the reference table |
| `Sweep.SweepConnections` | test.py:297-321 | the connection loop runs its calls up to the first raising step; it fails with that exception exactly when one raises, and otherwise builds the reference table |
| `Sweep.RunSweep` | test.py:295-334 | the whole sweep runs the schedule of trials, in order, up to and including the first step that raises; it fails with that exception exactly when some step raises, and otherwise returns the reference result tree, the value `json.dump` writes |
| `Sweep.ScheduleLength` | test.py:270 | the number of trials run is `total_tests`, the product of the four list lengths |
| `Sweep.ScheduleAt` | test.py:295-317 | the trial of framework `a`, connection count `b`, processing time `c` and pipeline size `d` runs at position `((a·|conns|+b)·|times|+c)·|pipes|+d` |
| `Sweep.ScheduleMember` | test.py:295-317 | a trial is run exactly for the tuples drawn from the four lists |
| `Sweep.ScheduleThreads` | test.py:302-312 | no trial runs wrk with more threads than connections or than the cap |
| `Sweep.ScheduleDistinct` | test.py:295-317 | without repeated list entries no trial is run twice |
| `Sweep.TreeKeys` | test.py:295-310 | the tree's keys are exactly the frameworks and, level by level, the keys made from the three number lists |
| `Sweep.TreeLeaf` | test.py:311-318 | the leaf of every tuple holds the result of the trial run with that tuple's parameters |
| `Sweep.LeafPathInjective` | test.py:298-309 | two trials of the sweep with the same key path are the same trial |
| `Sweep.LeafHasTrial` | test.py:295-318 | every leaf of the tree belongs to some trial that was run |
| `Sweep.TrialHasLeaf` | test.py:295-318 | every trial that was run has a leaf in the tree |
| `Sweep.LeavesAreSchedulePaths` | test.py:295-318 | the tree's leaves are exactly the key paths of the trials run |
| `Sweep.LeafCount` | test.py:270-318 | without repeated list entries the tree has exactly `total_tests` leaves |

## Left out

- Starting, waiting for and terminating the server and wrk processes is not modelled: `subprocess.Popen`, `communicate`, `terminate`, the `OSError` fallback and `os.path.abspath` (test.py:146-204). The trial is two function parameters of the sweep: the result it stores and the exception its step raises, if any. A trial that behaves differently on a repeated run is outside the model.
- `Report.ProcessWrkOutput` takes the report as already-decoded text; the `raw_output.decode()` call (test.py:97) and its `UnicodeDecodeError` are not modelled.
- `wait_for_webserver`, `whereis`, `required_utilities`, `numa_capable`, `cpuinfo`, `argparse`, `GOMAXPROCS`, `tqdm`, `humanize`, the progress and summary printing (only whether the summary step raises is modelled, as part of the step's exception), `sleep` and the final `json.dump` are I/O or foreign calls. They are not modelled; the core count, the caps and the four lists are inputs.
- The splitting and `int()` of the comma-separated command-line lists (test.py:266-269) is not modelled. The sweep takes the lists already parsed.
- The static keys `machine_info`, `wrk_max_procs`, `wrk_cpus_list`, `web_framework_max_procs` and `web_framework_cpus_list` that `overall_results` starts with are not modelled. The tree holds only the framework entries, so a framework named like one of these keys is not modelled either.
- `PyFloat.Float`: values are exact reals. IEEE rounding, overflow to `inf`, and the literal forms that cannot occur in a capture (signs, `inf`, `nan`) are not modelled.
- `Report.RowRecognition`: the row regexes are modelled on whitespace-separated words, with the unescaped `.` taken as any non-whitespace character. A `.` that matches a space inside one number, joining two words, is not modelled.
- `Report.RowRecognition` and `Report.RpsPosition`: digits and whitespace are the ASCII ones. Python's `\d`, `\s` and `float()` also accept other Unicode digits and spaces, which wrk2 does not print; those are not modelled.
- `Report.ExtractLatencyCases`: `extract_latency` returns the pair `(quantile, latency)` or `(None, None)`. The model returns an optional `Sample` holding both values, so the pair with only one of them set, which the source never builds, cannot be expressed.
- `Sweep.LeafCount`: with repeated list entries the source re-runs the trial and overwrites the leaf, so the tree has fewer leaves than `total_tests`. The count is proved only for lists without repeats; `Sweep.ScheduleLength` counts the trials for all lists.

## Findings

| source | as written | input that shows it | evidently intended | confidence | as-written member | corrected member |
|---|---|---|---|---|---|---|
| test.py:122 | the row regex `\s+(\d+.\d+)\s+…` has an unescaped `.`, so a field like `1x5` is captured and `float()` raises `ValueError`, which ends the whole report parse | the histogram line ` 1x5 0.5 3 1.0` | `\d+\.\d+`: only decimal numbers are captured, and a line like this is skipped | not executed; wrk2 does not normally print such a field | `Report.RowDotAcceptsNonNumber` | `Report.StrictSkipsNonNumber` |
| test.py:111 | the throughput regex `(\d+.?\d*)` has an unescaped `.`, so a letter after the digits is captured and `float()` raises `ValueError` | the line `Requests/sec: 12k` | `(\d+\.?\d*)`: the capture stops at the digits or the decimal number | not executed; wrk2 normally prints a plain decimal here | `Report.RpsDotAcceptsNonNumber` | `Report.StrictRateReadsDigits` |

The corrected patterns are the `dotAny = false` instances of the same
functions. For those instances the model proves that no histogram row and no
throughput capture can raise (`Report.StrictRowNeverFails`,
`Report.StrictRpsConverts`), and that the whole parse never fails
(`Report.StrictReportNeverFails`). `Report.ProcessWrkOutput` runs the
patterns as written, as the source does.
