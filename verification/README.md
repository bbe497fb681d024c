# Where to TLS: verified model

A model, in Dafny, of the parts of the benchmark's analysis tools and of its Netty server whose
correctness depends on several functions together, with proofs of what they guarantee.

- **Request deadlines** (`RequestDeadlines`). The handler that gives every HTTP request a deadline is a
  class with the fields of the original. `Step` is the meaning of one event; each method is proved equal
  to it; the lemmas hold for every sequence of reads, writes, completions in any order, clock ticks,
  firing timers and teardowns. A queue position stands for pipelining (section 9.3.2 of RFC 9112) and
  status codes below 200 for informational responses (section 15.2 of RFC 9110).
- **Importing results** (`RawImport`, `ImportProtocol`, `ImportRuns`). One raw file becomes batches; the
  batches of parallel workers meet in a store where the last write of a point key wins; invocations
  check markers, pull, import and record, and may crash before any step. Streams are arbitrary lists of
  batches, so cutting them down to single points covers a batch of which only a part was stored. An
  artifact is a list of raw files with what importing them wrote and returned; it can be recorded only
  if all of its files succeeded.
- **Charts' axes and series** (`Axes`, `Logarithms`, `Timelines`). Nice steps, linear and logarithmic axes,
  clipped percentile marks; run origins, one-second buckets and segments. Numbers are exact reals and
  integers; log10 is any function that is strictly increasing on positive numbers and exact on powers of
  ten.
- **From metadata to charts** (`Metadata`, `Workloads`, `Placement`, `Cells`, `ScenarioGroups`,
  `RowReadings`, `ScenarioSummaries`, `SummaryReadings`, `Notes`, `TlsComparison`, `TlsBuilder`, `TlsCells`,
  `TlsExport`, `TlsRows`, `TlsSamples`, `TlsReadings`, `FileNames`, `ChartNames`, `TlsCharts`, `TlsQuery`,
  `TlsExamples`, `Comparisons`). Flat rows are pivoted, checked and grouped; exporter, filters and renderer
  rely on what the builders established. `TlsQuery` goes from the query's rows to the files on disk.
  `RowReadings`, `SummaryReadings`, `TlsReadings` and `ChartNames` say in the words of the columns and of
  the file names what is accepted, what every execution holds and how every chart is called.

The builders refuse bad input in many small steps whose order depends on the order of rows and run ids.
What they accept is stated on the *multisets* of run ids and rows (`Cells.Acceptable`,
`ScenarioSummaries.Summarizable`, `TlsBuilder.TlsAcceptable`, `Comparisons.RunsAcceptable`), and each
method is proved to accept exactly that, so acceptance and the resulting cells cannot depend on any
order. `Cells.Rules` bundles how a row is checked, where it goes and what is kept of it: the loops are
proved for any rules, `RULES` are the benchmark's own, and `TlsBuilder.Measuring` adds the measurements a
TLS comparison demands. `Lawful` is what the lemmas need of rules; `TlsBuilder.RulesAreLawful` proves it
for the benchmark's.

Two facts are worth pointing out. A TLS comparison never checks that a run id and an execution index
identify a row; `TlsBuilder.OneRowPerExecution` shows that its partial checks imply it, and with it that
counters are read from the right row and that different chart rows pool disjoint samples. And the
importer's workers may write in any order exactly when files agree on shared point keys
(`ImportProtocol.OrderIrrelevantIffAgree`); the importer relies on there being no shared key.

`Common` holds results, options and facts about finite sequences. `dafny verify dfyconfig.toml` checks
everything.

## Findings

Where the code does less than a reader may expect. Each has a lemma at an input that shows it and one
that says exactly when it happens.

| finding | source | members |
|---|---|---|
| The TLS comparison builder, and with it the validate-only mode, accepts scenarios that the export then refuses: the builder only strips the stack's suffix from the scenario tag, while file names need lower-case letters and digits in groups separated by single hyphens. An accepted comparison has valid names exactly when every supplied row's scenario has that form. | analyze/exporting/tls_result_svg/runs.py:197-203, analyze/exporting/tls_result_svg/exporter.py:484-487 (called at 544-561) | `TlsQuery.ExportRows`, `TlsExamples.AcceptedNotExported` |
| A refused export leaves the files of the profiles before the refused one. The directory is as it was exactly when those profiles had all their charts there already and no old name to remove. | analyze/exporting/tls_result_svg/exporter.py:542-683 | `TlsCharts.LeavesAsItWas`, `TlsExamples.RefusedExportLeavesFiles` |
| A finished import need not leave what one clean import of the requested artifacts leaves: points of an artifact whose import crashed, or that was imported earlier, stay. The stores are equal exactly when every key stored before the invocation belongs to a requested artifact. | analyze/files/import-results.sh:115-177 | `ImportRuns.InvocationIsClean`, `ImportRuns.CrashLeavesMore` |

## Model

| member | source | states |
|---|---|---|
| RequestDeadlines.HttpRequestTimeoutHandler.constructor | src/java-netty-server/src/main/java/wheretotls/HttpRequestTimeoutHandler.java:21-29 | a new handler is in the initial state: both collections empty, nothing scheduled |
| RequestDeadlines.HttpRequestTimeoutHandler.Schedule | src/java-netty-server/src/main/java/wheretotls/HttpRequestTimeoutHandler.java:34-43 | a deadline is appended to the executor's timers, due `timeout` after now, and nothing else changes |
| RequestDeadlines.HttpRequestTimeoutHandler.CancelDeadline | src/java-netty-server/src/main/java/wheretotls/HttpRequestTimeoutHandler.java:58-58 | cancelling one deadline cancels it only if it has not fired, and leaves every other one alone |
| RequestDeadlines.HttpRequestTimeoutHandler.Read | src/java-netty-server/src/main/java/wheretotls/HttpRequestTimeoutHandler.java:32-48 | the new state is that of a read event: only an HTTP request schedules, queues and remembers a deadline |
| RequestDeadlines.HttpRequestTimeoutHandler.WriteMessage | src/java-netty-server/src/main/java/wheretotls/HttpRequestTimeoutHandler.java:51-64 | the new state is that of a write event: a full response with status 200 or above takes the oldest queued deadline, any other message takes none |
| RequestDeadlines.HttpRequestTimeoutHandler.WriteCompleted | src/java-netty-server/src/main/java/wheretotls/HttpRequestTimeoutHandler.java:36-60 | the completion of a write does what that write's listener does: a response gives back exactly the deadline it took, a reset closes the channel |
| RequestDeadlines.HttpRequestTimeoutHandler.RunDeadline | src/java-netty-server/src/main/java/wheretotls/HttpRequestTimeoutHandler.java:34-43 | a deadline that fires raises the timeout and, on HTTP/2, writes a reset whose completion will close the channel, on HTTP/1.1 closes it; neither collection changes |
| RequestDeadlines.HttpRequestTimeoutHandler.OnChannelInactive | src/java-netty-server/src/main/java/wheretotls/HttpRequestTimeoutHandler.java:66-70 | equals the teardown of the state |
| RequestDeadlines.HttpRequestTimeoutHandler.OnHandlerRemoved | src/java-netty-server/src/main/java/wheretotls/HttpRequestTimeoutHandler.java:72-76 | equals the teardown of the state |
| RequestDeadlines.HttpRequestTimeoutHandler.CancelDeadlines | src/java-netty-server/src/main/java/wheretotls/HttpRequestTimeoutHandler.java:78-84 | the loop in any order cancels all pending deadlines that have not fired, then empties both collections |
| RequestDeadlines.StepKeepsInvariant | src/java-netty-server/src/main/java/wheretotls/HttpRequestTimeoutHandler.java:31-84 | every event, in any state that satisfies it, keeps the invariant relating queue, pending set, timers and writes to a count of requests and responses |
| RequestDeadlines.RunKeepsInvariant | src/java-netty-server/src/main/java/wheretotls/HttpRequestTimeoutHandler.java:31-84 | so does every sequence of events the environment can choose |
| RequestDeadlines.ReachableStates | src/java-netty-server/src/main/java/wheretotls/HttpRequestTimeoutHandler.java:44-61 | in every reachable state the queue is duplicate-free, sorted by expiry and contained in pending; pending is exactly the queue plus the deadlines of responses still being written; every live timer is pending |
| RequestDeadlines.ResponsesAnswerInOrder | src/java-netty-server/src/main/java/wheretotls/HttpRequestTimeoutHandler.java:53-56 | between teardowns the i-th final response that finds a request takes the i-th request's deadline; informational responses and responses without a request take none |
| RequestDeadlines.OnlyFinalResponsesTake | src/java-netty-server/src/main/java/wheretotls/HttpRequestTimeoutHandler.java:51-64 | in every reachable state, on the message itself: a full response with status 200 or above moves the oldest queued deadline to its write; any other message leaves the queue alone and takes none |
| RequestDeadlines.OnlyOwnWriteOrTeardownCancels | src/java-netty-server/src/main/java/wheretotls/HttpRequestTimeoutHandler.java:57-60 | a deadline becomes cancelled only by the completion of the single write that took it, or by a teardown |
| RequestDeadlines.TimeoutIffUnanswered | src/java-netty-server/src/main/java/wheretotls/HttpRequestTimeoutHandler.java:34-60 | a deadline can fire exactly when it is due, has not fired yet and its request, read since the last teardown, has no completely written final response: no answered request times out, and no outstanding one loses its deadline |
| RequestDeadlines.NoDeadlineSurvivesTeardown | src/java-netty-server/src/main/java/wheretotls/HttpRequestTimeoutHandler.java:66-84 | whatever happens later, no deadline scheduled before channelInactive or handlerRemoved can fire after it |
| RequestDeadlines.AllAnsweredLeavesNothing | src/java-netty-server/src/main/java/wheretotls/HttpRequestTimeoutHandler.java:53-61 | when every request read since the last teardown has a completed final response both collections are empty and no timer is live |
| RequestDeadlines.EveryTimeoutIsReported | src/java-netty-server/src/main/java/wheretotls/HttpRequestTimeoutHandler.java:34-43 | in every reachable state exactly the fired deadlines have raised their exception and, on HTTP/2, written one reset; the channel was closed for exactly those whose reset is written, after that reset went out; the fired deadlines are as many as the closes and the resets still being written |
| RequestDeadlines.OnlyOwnResetCloses | src/java-netty-server/src/main/java/wheretotls/HttpRequestTimeoutHandler.java:36-41 | on HTTP/2 a close is put out by exactly the completion of the reset of its own deadline, on HTTP/1.1 by the deadline itself |
| RequestDeadlines.CompletionsCommute | src/java-netty-server/src/main/java/wheretotls/HttpRequestTimeoutHandler.java:36-60 | completing any set of unfinished writes, responses and resets, in any order gives one state, described without an order but for the order of the closes |
| RequestDeadlines.CompletionsInAnyOrder | src/java-netty-server/src/main/java/wheretotls/HttpRequestTimeoutHandler.java:36-60 | two orders of the same completions differ in the order of the closes only |
| RequestDeadlines.CompletionsCommuteWithTeardown | src/java-netty-server/src/main/java/wheretotls/HttpRequestTimeoutHandler.java:57-84 | completions that arrive after a teardown leave the state they would have left before it |
| ImportProtocol.InterleavingLands | analyze/files/import-results.py:341-354 | every interleaving of the workers' batch writes leaves each file's final values over what was in the store |
| ImportProtocol.OrderIrrelevantIffAgree | analyze/files/import-results.py:341-354 | the order of the workers never matters exactly when files that share a point key agree on its last value; sharing no key is the special case |
| ImportProtocol.RepeatedImportIsIdle | analyze/files/import-results.py:335-354 | importing everything a second time, in whatever order, leaves the store unchanged |
| ImportProtocol.BatchesAreTheirPoints | analyze/files/import-results.py:280-295 | applying batches one after the other equals applying their concatenated points |
| ImportProtocol.LandsOnce | analyze/files/import-results.py:341-354 | final values over a given store determine the resulting store |
| ImportRuns.StepKeepsInv | analyze/files/import-results.sh:109-177 | every step of an invocation, a crash included, keeps: marked artifacts are stored, everything stored was promised by an attempted artifact, and what the queue promises is stored or still to be written |
| ImportRuns.RunKeepsInv | analyze/files/import-results.sh:109-177 | so does every sequence of invocations and crashes |
| ImportRuns.MarkedIsStored | analyze/files/import-results.sh:75-107 | over any runs and crashes, a completion marker implies that every point key of the artifact is stored with its final value |
| ImportRuns.MarkedFilesAreStored | analyze/files/import-results.sh:170-177 | from a raw file's lines to the marker: a file of a marked artifact that was not skipped has observations and no refused line, and every point of its lines is stored with its last value |
| ImportRuns.MarkedLinesAreStored | analyze/files/import-results.py:263-299 | every Point line of such a file has its point in the store, with the line's value unless a later line of the file has the same key |
| ImportRuns.SummariesFirst | analyze/files/import-results.py:333-354 | in every reachable state, no batch of a raw file was written while a summary point of the invocation was not |
| ImportRuns.MarkedStoreIsClean | analyze/files/import-results.sh:115-177 | for any marked artifacts the store holds, on their keys, exactly what one clean import of them leaves; the whole store is that import exactly when no stored key lies outside them |
| ImportRuns.AttemptedStoreIsClean | analyze/files/import-results.sh:115-177 | the whole store is one clean import of any marked artifacts that include all that were ever attempted, over any number of invocations |
| ImportRuns.FinishedImportIsClean | analyze/files/import-results.sh:115-177 | an invocation that can finish has every requested artifact marked and stored as one clean import stores it; the whole store equals that import exactly when no other artifact left a point |
| ImportRuns.InvocationSkipsMarked | analyze/files/import-results.sh:115-177 | an invocation imports what was requested without a marker, as often and in the order it was requested; when it finishes exactly the requested artifacts are marked in addition; it changes nothing if all were marked |
| ImportRuns.InvocationIsClean | analyze/files/import-results.sh:115-177 | from the store before it: a finished invocation leaves the store of one clean import exactly when every key stored before the invocation belongs to a requested artifact |
| ImportRuns.CrashLeavesMore | analyze/files/import-results.sh:115-177 | an import of one artifact that crashes, then a finished import of another: the store is not a clean import of the second |
| RawImport.VerifyTags | analyze/files/import-results.py:269-273 | the loop over the record's tags accepts exactly when common tags agree, and then copies exactly the identity tags |
| RawImport.CountPoints | analyze/files/import-results.py:247-248 | the first pass counts the Point lines |
| RawImport.ConvertLine | analyze/files/import-results.py:267-280 | equals the specified conversion of one line, refusals included |
| RawImport.ConvertTells | analyze/files/import-results.py:267-280 | in the line's own words: measurement k6_raw, its time, its value as the only field, its metric and own tags and the record's identity tags as the only tags; refused exactly when a shared tag differs or the value is no number |
| RawImport.MetricsApart | analyze/files/import-results.py:275-280 | points of lines with different metrics and no metric tag of their own never share a key |
| RawImport.WriteBatches | analyze/files/import-results.py:252-295 | the batches concatenated are the file's points in order; all but the last have 25000 points and none is empty; a refused line leaves the full batches before it |
| RawImport.WriteRawFile | analyze/files/import-results.py:215-299 | the k-th point written is what the k-th Point line says; batches of 25000 but for the last; the number imported is the number of Point lines; a faulty line leaves the full batches before it; a skipped warm-up and a file without Point lines write nothing |
| RawImport.WrittenIsTold | analyze/files/import-results.py:215-299 | the specification of a file's import says exactly that, whatever its conversion function |
| Axes.DecadeOf | analyze/exporting/tls_result_svg/svg.py:42-43 | the exponent computed from log10 is the decade of the value |
| Axes.NiceStepBounds | analyze/exporting/tls_result_svg/svg.py:39-52 | for v > 0: v <= nice_step(v) < 2.5 v |
| Axes.NiceStepIsLeast | analyze/exporting/tls_result_svg/svg.py:39-52 | the least of the numbers 1, 2 and 5 times a power of ten that is not below v |
| Axes.ScaleCovers | analyze/exporting/tls_result_svg/svg.py:55-60 | the axis reaches the maximum with less than one step to spare, in at most tick_count and more than 2/5 of tick_count steps: three to six for the default |
| Axes.LinearTicks | analyze/exporting/tls_result_svg/svg.py:71-75 | the tick loop terminates and its ticks are 0, step, ..., upper exactly |
| Axes.LogarithmicAxis | analyze/exporting/tls_result_svg/svg.py:81-114 | the decades cover every positive value and start in the smallest one's decade (one below when padded) |
| Axes.ValueAxis | analyze/exporting/tls_result_svg/svg.py:63-114 | refuses exactly empty or negative values; otherwise the axis is sound and can place every value it was made from |
| Axes.PositionsOrdered | analyze/exporting/tls_result_svg/svg.py:76-107 | positions are strictly increasing and inside [0, 1] in every mode, zero below every positive value; no placeable value is refused |
| Axes.PositionWithin | analyze/exporting/tls_result_svg/svg.py:76-107 | a placeable value has a position inside [0, 1] |
| Axes.PositionIs | analyze/exporting/tls_result_svg/svg.py:76-107 | the position of a value: its share of a linear axis; on a logarithmic one zero at 0, and otherwise after a gap of 0.08 for zero its share of the decades |
| Axes.MarksArePlaced | analyze/exporting/tls_result_svg/tls_charts.py:228-230 | the coordinate of each percentile, capped at 1000 ms, is its position on a plot from 310 to 1480 |
| Axes.PercentileAxis | analyze/exporting/tls_result_svg/tls_charts.py:219-227 | linear: 0 to 1000 ms in five steps of 200; logarithmic: decades up to 1000 ms, from the decade of the smallest positive percentile or of 1 ms, with a place for zero exactly when one is zero |
| Axes.MarksDrawn | analyze/exporting/tls_result_svg/svg.py:159-184 | marks are refused exactly when percentiles are out of order; otherwise they lie inside the plot in order |
| Axes.PercentileMarks | analyze/exporting/tls_result_svg/tls_charts.py:219-302 | for non-negative percentiles the ordering check is the only refusal in both scale modes; all marks lie inside the plot, in order, at the coordinates one percentile axis gives them |
| Logarithms.SomeLog10 | analyze/exporting/tls_result_svg/svg.py:42-42 | a function with the assumed properties of log10 exists |
| Timelines.ElapsedBucketBounds | analyze/exporting/tls_result_svg/datasets.py:6-10 | the bucket is monotone, within one second of the true offset, and negative exactly a full second or more before the origin |
| Timelines.WholeRunDropsOnlyEarlyRows | analyze/exporting/tls_result_svg/datasets.py:15-32 | a whole-run timeline drops a timed, valued row exactly when it is stamped a full second or more before every request origin of the run |
| Timelines.EarlyRowsAreBeforeEveryOrigin | analyze/exporting/tls_result_svg/runs.py:145-184 | the same from the origin rows that were read: exactly when the row is a full second or more before every one of the run's |
| Timelines.RowsAlign | analyze/exporting/tls_result_svg/datasets.py:15-36 | a timed, valued row is dropped exactly when it is a full second or more before the origin it is measured from, for one profile its own execution's whatever the run's is; otherwise its value goes into its whole second and its own repeat |
| Timelines.RowsElsewhere | analyze/exporting/tls_result_svg/datasets.py:16-29 | rows without time or value and of other profiles are left out; unknown executions and ones without an origin are faults |
| Timelines.RepeatsAlignToOriginRows | analyze/exporting/tls_result_svg/datasets.py:20-33 | with the origins that were read, a repeat starts at the origin row of its own execution |
| Timelines.RowIsDrawn | analyze/exporting/tls_result_svg/datasets.py:14-56 | a row that is not too early has a point in its own repeat, at its whole second |
| Timelines.BucketIsShown | analyze/exporting/tls_result_svg/datasets.py:34-56 | every bucket with values is a point of its repeat: its second, and the mean of its values |
| Timelines.SegmentsSplitAtGaps | analyze/exporting/tls_result_svg/datasets.py:49-50 | a new segment starts exactly after more than 60 seconds without a point |
| Timelines.ReadOrigins | analyze/exporting/tls_result_svg/runs.py:151-172 | accepts exactly rows with the run's tags and no execution twice; keeps every reported time and the exact minimum of each run |
| Timelines.ParseOrigins | analyze/exporting/tls_result_svg/runs.py:145-184 | accepts exactly when every compared run reports its family's executions once each; depends on the rows as a multiset |
| Timelines.SegmentRepeat | analyze/exporting/tls_result_svg/datasets.py:44-55 | the segment number goes up by one exactly where neighbours are more than 60 s apart; each point is appended to its segment and other repeats are untouched |
| Timelines.LabelsAreContiguous | analyze/exporting/tls_result_svg/datasets.py:44-55 | segments are numbered contiguously from zero and each is one unbroken stretch |
| Timelines.FillBuckets | analyze/exporting/tls_result_svg/datasets.py:14-35 | every bucket holds all values read into it, in row order; faulty rows refuse |
| Timelines.SortTimes | analyze/exporting/tls_result_svg/datasets.py:46-48 | the distinct bucket times of a repeat, strictly increasing |
| Timelines.ParseAggregateRows | analyze/exporting/tls_result_svg/datasets.py:13-56 | refuses exactly faulty or empty input; otherwise shows every repeat's distinct buckets in order, segmented, each point the mean of all values of its bucket |
| Metadata.ReadRecords | analyze/exporting/tls_result_svg/runs.py:526-542 | accepts exactly rows with complete identity and no field twice; the records hold exactly the triples of the rows |
| Metadata.ParseScenarioMetadataRows | analyze/exporting/tls_result_svg/runs.py:517-543 | a lossless pivot: flattening the records gives back exactly the (identity, field, value) triples, and no identity appears twice |
| Metadata.PivotIsUnique | analyze/exporting/tls_result_svg/runs.py:517-543 | the records do not depend on the order of the rows |
| Metadata.PivotableIsRead | analyze/exporting/tls_result_svg/runs.py:517-543 | accepted exactly when all six identity columns and a field are there and no two rows give the same field of the same record |
| Workloads.SlotsAreExecutions | analyze/exporting/tls_result_svg/common.py:60-93 | executions of a family and its (profile, repeat) slots correspond one to one |
| Workloads.SlotsArePlayed | analyze/exporting/tls_result_svg/common.py:60-93 | they are the benchmark's plan: the 24 executions written out |
| Workloads.ExpectedArePlayed | analyze/exporting/tls_result_svg/runs.py:26-35 | a run is expected to report exactly the executions of the plan |
| Workloads.OneStackPerTag | analyze/exporting/tls_result_svg/runs.py:187-194 | a stack tag starts with at most one stack's prefix |
| Placement.Next | analyze/exporting/tls_result_svg/runs.py:299-304 | one more row keeps a collection consistent exactly when it passes its checks and its slot is free |
| Placement.PlacedNext | analyze/exporting/tls_result_svg/runs.py:318-318 | and then it is the row behind its slot, all others unchanged |
| Cells.SameCellIffSameSettings | analyze/exporting/tls_result_svg/runs.py:275-289 | rows share a cell exactly when TLS configuration, profile and every compatible setting are equal |
| Cells.GroupByRun | analyze/exporting/tls_result_svg/runs.py:207-209 | the dict holds each run's rows in order |
| Cells.SelectRun | analyze/exporting/tls_result_svg/runs.py:224-232 | a run is refused exactly when its reported executions are not its family's |
| Cells.PlaceRow | analyze/exporting/tls_result_svg/runs.py:233-318 | one row is accepted exactly when the rows so far plus this one are consistent, and the cells then tabulate them |
| Cells.SecondTimeRefused | analyze/exporting/tls_result_svg/runs.py:223-304 | a run id supplied twice collides with its own rows |
| Cells.BuildCells | analyze/exporting/tls_result_svg/runs.py:206-319 | the loops accept exactly the acceptable multisets of run ids and rows, for any row rules |
| Cells.BuildSummaryCells | analyze/exporting/tls_result_svg/runs.py:206-319 | the same for the benchmark's own rules; only insertion orders depend on the input order |
| Cells.RowOccupies | analyze/exporting/tls_result_svg/runs.py:299-318 | on acceptance each row of a supplied run is there once and its execution is in the slot it claims |
| Cells.TabulatesOnce | analyze/exporting/tls_result_svg/runs.py:290-318 | the table of executions determines the cells |
| RowReadings.RowOkIsRead | analyze/exporting/tls_result_svg/runs.py:233-279 | a row passes the checks exactly when its evidence, versions and required columns are there and it reads as an execution of the plan on a known stack |
| RowReadings.RowIsRead | analyze/exporting/tls_result_svg/runs.py:264-317 | and then goes to the cell, slot and execution that its columns spell out |
| RowReadings.RowsAreRead | analyze/exporting/tls_result_svg/runs.py:206-319 | every supplied row is the execution it reads as, in the cell and slot it reads as |
| RowReadings.ExecutionsAreRead | analyze/exporting/tls_result_svg/runs.py:206-319 | nothing else is in the cells |
| RowReadings.CellsShareSettings | analyze/exporting/tls_result_svg/runs.py:211-221 | rows share a cell exactly when family, profile, TLS configuration and the nine settings, for races also the iterations, are equal |
| RowReadings.AcceptableIsRead | analyze/exporting/tls_result_svg/runs.py:206-319 | acceptance in the columns' words: each run once with the plan's executions, each of its rows readable, there once and alone in its place |
| ScenarioGroups.ChecksMeanRectangular | analyze/exporting/tls_result_svg/runs.py:326-360 | the partial checks together make the cell's keys exactly scenarios x stacks x {0, 1, 2} |
| ScenarioGroups.CheckCell | analyze/exporting/tls_result_svg/runs.py:326-364 | the checks accept exactly rectangular cells with at least two scenarios |
| ScenarioGroups.RankIsName | analyze/exporting/tls_result_svg/runs.py:404-409 | the sort key tells profiles apart |
| ScenarioGroups.CompatibleMeansTogether | analyze/exporting/tls_result_svg/runs.py:384-398 | the name count and the comparison of scenario lists say exactly that no two cells share a profile and all name the same scenarios |
| ScenarioGroups.FinishGroup | analyze/exporting/tls_result_svg/runs.py:383-410 | a group is refused exactly when it is incompatible, and otherwise only its cells are reordered, by profile |
| ScenarioSummaries.BuildGroups | analyze/exporting/tls_result_svg/runs.py:324-411 | whether there are groups depends on the cells alone; every cell is in exactly one group |
| ScenarioSummaries.BuildScenarioSummaryGroups | analyze/exporting/tls_result_svg/runs.py:322-411 | acceptance and the cells of the groups depend on run ids and rows only as multisets |
| ScenarioSummaries.GroupsAreTold | analyze/exporting/tls_result_svg/runs.py:322-411 | the groups hold exactly the executions that the supplied rows read as, under the TLS configuration of their columns |
| SummaryReadings.SummarizableIsRead | analyze/exporting/tls_result_svg/runs.py:322-411 | acceptance in the columns' words: within a TLS configuration two scenarios or more, each run three times in every profile on all of that profile's stacks, and one setting for a profile |
| ScenarioSummaries.SummarizeScenarios | analyze/exporting/tls_result_svg/cli.py:174-207 | the same from the flat rows of the query |
| ScenarioSummaries.SameConfigurationSameGroup | analyze/exporting/tls_result_svg/runs.py:365-410 | two groups of one TLS configuration over the same cells differ only in the order of scenarios |
| ScenarioSummaries.GroupsDetermined | analyze/exporting/tls_result_svg/runs.py:382-411 | two builds over the same cells differ only in the order of groups and scenarios |
| ScenarioSummaries.EveryRowIsOneExecution | analyze/exporting/tls_result_svg/runs.py:223-319 | every row of a supplied run is exactly one execution of exactly one cell of one group |
| ScenarioSummaries.EveryExecutionIsOneRow | analyze/exporting/tls_result_svg/runs.py:223-319 | every execution of the groups is the one supplied row that claims its slot |
| ScenarioSummaries.SummaryNamesItsRuns | analyze/exporting/tls_result_svg/runs.py:379-403 | the run ids of the groups are exactly the supplied ones |
| Notes.SetDefault | analyze/exporting/tls_result_svg/runs.py:460-464 | the setdefault comparison agrees exactly when no other value was noted |
| Notes.NotedNext | analyze/exporting/tls_result_svg/runs.py:460-464 | a disagreement shows that the value is not constant; otherwise the dict notes one more entry |
| TlsComparison.IndexRows | analyze/exporting/tls_result_svg/runs.py:416-419 | the index holds the last row of every (run id, execution index) |
| TlsComparison.CountersRead | analyze/exporting/tls_result_svg/runs.py:466-482 | the counters of a record are the numbers in configured_iterations, data_sent_bytes and data_received_bytes, whole and with at least one request |
| TlsComparison.NoteExecution | analyze/exporting/tls_result_svg/runs.py:457-482 | one execution passes exactly what run identity, stack tag, elapsed time and counters demand |
| TlsComparison.NoteCell | analyze/exporting/tls_result_svg/runs.py:457-482 | so does the loop over a cell's executions, in any order |
| TlsComparison.NoDuplicateConfiguration | analyze/exporting/tls_result_svg/runs.py:441-443 | the check for a duplicate configuration cannot fire |
| TlsComparison.MergeCell | analyze/exporting/tls_result_svg/runs.py:423-482 | one source cell is merged into its profile, or shows that the cells are not comparable |
| TlsComparison.MergeCells | analyze/exporting/tls_result_svg/runs.py:423-482 | the loop over the source cells |
| TlsComparison.AllMerged | analyze/exporting/tls_result_svg/runs.py:423-482 | cells that were all merged satisfy every check |
| TlsBuilder.RulesAreLawful | analyze/exporting/tls_result_svg/runs.py:266-317 | the executions the builder makes carry their row's tags and belong to the slot these determine |
| TlsBuilder.RulesAreSupporting | analyze/exporting/tls_result_svg/runs.py:236-239 | accepted rows have one of the four TLS configurations, so the configuration order drops none |
| TlsBuilder.OneRowPerExecution | analyze/exporting/tls_result_svg/runs.py:416-464 | on acceptance no two rows of the supplied runs share (run id, execution index), although no single check says so |
| TlsBuilder.RecordIsOwnRow | analyze/exporting/tls_result_svg/runs.py:468-479 | each byte-counter lookup reads the row that made its execution |
| TlsBuilder.ChecksMeanRowsAgree | analyze/exporting/tls_result_svg/runs.py:432-464 | the checks over cells and executions say exactly that the rows agree pairwise |
| TlsBuilder.CompleteMeansAllRepeats | analyze/exporting/tls_result_svg/runs.py:445-456 | the repeat check says exactly that every claimed (scenario, stack) has repeats 0, 1 and 2 |
| TlsBuilder.ComparableMeansAcceptable | analyze/exporting/tls_result_svg/runs.py:420-482 | the builder's checks accept exactly the acceptable comparisons, stated on rows |
| TlsBuilder.FilledAreMeasured | analyze/exporting/tls_result_svg/runs.py:468-482 | the counters filled in through the index are those of each execution's own row |
| TlsCells.ArrangeCells | analyze/exporting/tls_result_svg/runs.py:483-506 | profiles in their fixed order, exactly their source cells, pairs listed once each in display order |
| TlsCells.BuildTlsComparison | analyze/exporting/tls_result_svg/runs.py:414-514 | accepts exactly the acceptable multisets of run ids and rows; its executions are exactly those the supplied rows tell of, those of Baseline Flat with the numbers in their own columns as counters |
| TlsCells.ComparisonIsTold | analyze/exporting/tls_result_svg/runs.py:414-514 | what the cells of accepted rows say of them, column by column |
| TlsReadings.TlsAcceptableIsRead | analyze/exporting/tls_result_svg/runs.py:413-482 | acceptance in the columns' words: readable rows with measurements, one origin for a run, one setting for a profile, all three repeats |
| TlsReadings.ComparisonInOrder | analyze/exporting/tls_result_svg/runs.py:483-506 | profiles from Linear to 1,000 VUs, and within a scenario .NET, Java, Go, Rust |
| TlsCells.ComparisonDetermined | analyze/exporting/tls_result_svg/runs.py:483-506 | two comparisons of the same cells list the same profiles in the same order and differ only in the order of pairs |
| TlsExport.CellExecutions | analyze/exporting/tls_result_svg/exporter.py:323-335 | refuses exactly when the three repeats are not there; otherwise returns them in order |
| TlsExport.TlsConfigurationExecutions | analyze/exporting/tls_result_svg/exporter.py:477-481 | never refuses for an accepted comparison: three executions, or none where the configuration is missing |
| TlsExport.EveryPairIsAvailable | analyze/exporting/tls_result_svg/exporter.py:513-523 | every pair has at least one available configuration |
| TlsExport.PooledIsTotal | analyze/exporting/tls_result_svg/datasets.py:176-187 | byte totals are the sums over three executions, one of each repeat, all with counters |
| TlsRows.CompletionRuns | analyze/exporting/tls_result_svg/datasets.py:166-173 | refuses exactly a non-positive or non-finite elapsed time; the seconds are the milliseconds divided by a thousand |
| TlsRows.BuildRows | analyze/exporting/tls_result_svg/exporter.py:603-638 | the rows are exactly the four ordered configurations of every pair, each with its own executions |
| TlsRows.AcceptedByScenario | analyze/exporting/tls_result_svg/exporter.py:643-655 | rows that pass the renderer's check pass it again for every scenario |
| TlsRows.DrawnRow | analyze/exporting/tls_result_svg/tls_charts.py:256-270 | what is drawn at configuration j of pair i is the row of that pair and configuration |
| TlsRows.AxisCovers | analyze/exporting/tls_result_svg/tls_charts.py:77-82 | the completion axis is not empty and covers every row value |
| TlsRows.CheckedRows | analyze/exporting/tls_result_svg/tls_charts.py:48-82 | the rows of a profile pass the renderer's checks on their number, order and completion values, for every scenario |
| TlsCharts.DrawRanges | analyze/exporting/tls_result_svg/tls_charts.py:219-302 | a percentile chart is drawn exactly when every row's percentiles are there, not negative and in order; each mark then shows its own row |
| TlsCharts.DrawBytes | analyze/exporting/tls_result_svg/tls_charts.py:59-70 | a byte chart is drawn exactly when it has rows and all have totals; it shows the sent or received bytes of three runs divided by their requests, on the axis of these quotients: zero to the least multiple of the least nice step that reaches the largest |
| TlsReadings.AxisIsTold | analyze/exporting/tls_result_svg/exporter.py:536-541 | the completion axis of every race is made of exactly what the supplied rows of races took: elapsed_ms divided by a thousand |
| TlsReadings.BarIsTold | analyze/exporting/tls_result_svg/exporter.py:628-632 | the k-th completion bar of a row shows what one supplied row of its pair, configuration and repeat took |
| TlsReadings.SamplesAreTold | analyze/exporting/tls_result_svg/influx.py:235-253 | a row of the charts pools exactly the samples that carry the tags of one of three supplied rows, the repeats of its pair and configuration |
| TlsReadings.BytesAreTold | analyze/exporting/tls_result_svg/datasets.py:176-187 | the value charted for a (scenario, stack) and configuration is the sum of data_sent_bytes, or data_received_bytes, of its three supplied flat rows divided by the sum of their iterations |
| TlsCharts.ExportCell | analyze/exporting/tls_result_svg/exporter.py:542-682 | a profile exports exactly when all its scenarios are parts of file names, what is on disk under its charts' names can be read, and the percentiles of its charts to draw are there and in order; then every chart is reused or drawn, generated once and on disk, and only old names are gone; otherwise nothing is written for it |
| TlsCharts.ExportsUntouched | analyze/exporting/tls_result_svg/exporter.py:542-682 | the export of the profiles before it changes nothing for a profile: not what it needs, nor which of its charts are drawn |
| TlsCharts.ExportTlsComparison | analyze/exporting/tls_result_svg/exporter.py:531-683 | succeeds exactly when every profile exports; then every chart of every profile is there, each generated once, and only old names are gone; otherwise exactly the profiles before the first refused one are exported |
| TlsCharts.LeavesAsItWas | analyze/exporting/tls_result_svg/exporter.py:542-683 | a refused export leaves the directory as it was exactly when the profiles before the refused one had all their charts there and no old name to remove |
| TlsSamples.AcceptedIsExportable | analyze/exporting/tls_result_svg/runs.py:445-506 | what the builder accepts is enough for the rows of every profile: supported configurations, three repeats, positive times, counters of byte charts, pairs listed once |
| TlsQuery.ResultExports | analyze/exporting/tls_result_svg/exporter.py:542-602 | the profiles of a comparison export exactly when each of its executions has a scenario for a file name, readable charts on disk and drawable percentiles |
| TlsQuery.ExportRows | analyze/exporting/tls_result_svg/cli.py:186-198 | refused exactly when the builder refuses, a supplied row's scenario is no part of a file name, a file under one of its charts' names cannot be read, or percentiles to draw are not there; refusals leave the files of the profiles before |
| TlsQuery.CompareTls | analyze/exporting/tls_result_svg/cli.py:174-199 | the same from the flat rows of the query, where the pivot may refuse as well |
| TlsReadings.NameableIsRead | analyze/exporting/tls_result_svg/exporter.py:484-487 | the scenarios of acceptable rows can be parts of file names exactly when all are words of lower-case letters and digits joined by single hyphens |
| TlsExamples.AcceptedNotExported | analyze/exporting/tls_result_svg/exporter.py:484-487 | six rows that the builder accepts and whose export is refused whatever is pooled and whatever is on disk |
| TlsExamples.RefusedExportLeavesFiles | analyze/exporting/tls_result_svg/exporter.py:542-683 | rows of two profiles with percentiles for the first only: the export into an empty directory is refused and leaves the first profile's files |
| TlsSamples.AcceptedExecutionsKeyed | analyze/exporting/tls_result_svg/runs.py:457-482 | on acceptance (run id, execution index) identifies an execution in the whole comparison |
| TlsSamples.RowsSelectDisjointSamples | analyze/exporting/tls_result_svg/influx.py:235-253 | a stored sample is selected by the filter of at most one row of the whole comparison |
| TlsSamples.EverySampleIsPooled | analyze/exporting/tls_result_svg/influx.py:256-277 | the samples of every supplied execution are selected by some row |
| TlsSamples.ByteRowPools | analyze/exporting/tls_result_svg/datasets.py:176-187 | every available byte-chart row has totals: the sums of the counters of its own three rows |
| FileNames.FileNamesDiffer | analyze/exporting/tls_result_svg/exporter.py:490-501 | for all scenario strings, charts have equal names exactly when they are the same chart |
| ChartNames.ChartNameIs | analyze/exporting/tls_result_svg/exporter.py:490-501 | the name of every chart, spelled out |
| ChartNames.ObsoleteAre | analyze/exporting/tls_result_svg/exporter.py:552-568 | the names that disappear with a profile's export, spelled out |
| ChartNames.SlugIsWords | analyze/exporting/tls_result_svg/exporter.py:484-487 | the check of a scenario accepts exactly words joined by single hyphens |
| FileNames.ObsoleteIsNeverWritten | analyze/exporting/tls_result_svg/exporter.py:552-565 | for all scenario strings, no name that is cleaned up is the name of a chart |
| FileNames.CleanupSparesCharts | analyze/exporting/tls_result_svg/exporter.py:598-601 | cleaning up for some profiles removes no chart of any profile |
| FileNames.FilesExact | analyze/exporting/tls_result_svg/exporter.py:543-568 | the charts of a profile: percentiles per scenario and metric, bytes for Baseline Flat only, completion for races only |
| FileNames.PlanCharts | analyze/exporting/tls_result_svg/exporter.py:544-602 | refused exactly for an invalid scenario or a file on disk under a chart's name that is no chart; otherwise the charts are split into those that can be kept and those to draw |
| FileNames.FreshUntouched | analyze/exporting/tls_result_svg/exporter.py:570-598 | whether a chart of a profile can be kept does not depend on the profiles exported before it |
| FileNames.PlansOfComparison | analyze/exporting/tls_result_svg/exporter.py:542-547 | the profiles of an accepted comparison meet what the export of files relies on |
| Comparisons.IdentifyRun | analyze/exporting/tls_result_svg/runs.py:90-111 | a run is refused exactly when its rows are missing, disagree, or name nothing supported |
| Comparisons.CountAndSetMeanEachOnce | analyze/exporting/tls_result_svg/runs.py:46-61 | the row count and the set of executions together say that each execution is there exactly once |
| Comparisons.OnlySourceMatters | analyze/exporting/tls_result_svg/runs.py:62-74 | of the row checks only the TLS evidence can still fail; the others follow from the run's identity |
| Comparisons.DrawRun | analyze/exporting/tls_result_svg/runs.py:89-135 | one run takes its seat, or shows that the runs cannot all be seated |
| Comparisons.ValidateMetadata | analyze/exporting/tls_result_svg/runs.py:38-76 | accepts exactly when every run of the comparison has its executions once each with verified evidence |
| Comparisons.IdsDiffer | analyze/exporting/tls_result_svg/runs.py:136-140 | for all scenario strings, distinct comparisons have distinct output ids |
| Comparisons.BuildComparisons | analyze/exporting/tls_result_svg/runs.py:84-142 | accepts exactly when every run is in order by itself and no two want one (scenario, TLS version, group, stack, family); each run sits under its scenario without its stack's name |
| Comparisons.ComparisonsAreTold | analyze/exporting/tls_result_svg/runs.py:84-142 | the comparisons hold exactly the supplied runs, each where its tags say, and have ids made of scenario, version and group |
| Comparisons.StacksAreCompared | analyze/exporting/tls_result_svg/runs.py:112-135 | runs of two stacks with one scenario and one TLS configuration sit in one comparison |
| Comparisons.RunsAcceptableIsRead | analyze/exporting/tls_result_svg/runs.py:38-142 | acceptance in the columns' words: each run once, with fitting tags, every execution of the plan once, evidence in every row, and a place of its own |
| Comparisons.RunHasOneSeat | analyze/exporting/tls_result_svg/runs.py:123-135 | each supplied run is supplied once, has its executions once each, and sits in exactly one place of one comparison |

## Left out

- Text: timestamps, integers and identifiers are already parsed (`RunId` is a validated run id with its family); float() is the parameter `num`, which yields a finite number or nothing. The texts of error messages, and which of several faults is reported first, are not modelled.
- HTTP, InfluxDB, Flux and CSV transport, gzip, oras, tar, curl and the process pool: what remains is the order of steps, the last-write-wins store and filters as predicates over the tags of a sample.
- Merging of fields inside InfluxDB: the store replaces all fields of a point key at once, as every point written for a key has the same field names.
- Concurrent invocations of the importer: invocations follow one another, marker lookups are reliable, a reference has one digest, skip_warmup is fixed, and local result directories, which get no marker, are not part of a request.
- Netty itself: forwarding of messages to other handlers, event loop threads, and what close and RST_STREAM lead to; channelInactive and handlerRemoved are separate events the environment may choose, and several timers may fire.
- Floating-point rounding and the t-digest quantiles: arithmetic is exact.
- SVG and HTML text, labels, colours, page layout, number formats; whether an existing SVG file can be read and reused is an arbitrary function of its name.
- Insertion order of dicts beyond the order lists in `Summary`, `Collection`, `Merge` and `Draw`: loops over executions, repeats and tags visit them in any order. The nested stack and family dicts of a comparison are one map.
- sorted(run_ids): a group's run ids are a set, so their textual order is not stated.
- parse_percentiles, parse_failure_rates, the bar charts, the scenario summary file names, tls_group_metadata and execution_tags: each is settled by reading one function.
- The Go, Rust, .NET and IIS servers, the k6 stages, Helm, Terraform and the shell loops around retries and polling.
- Timelines.ParseAggregateRows: does not say in which order the repeats were added to the result, because a dict is compared as a map.
- TlsCharts.ExportTlsComparison: a crash between two writes is not modelled, and what the database pools does not change during the export.
- What pooled percentiles are: the database's answer for some executions is an arbitrary value of the parameter `Outside`, absent when a statistic is missing, repeated or no number; that it may be absent, negative or out of order is part of the model.
- The validate-only mode: it lists the available configurations and refuses nothing.
