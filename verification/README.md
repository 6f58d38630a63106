# Factory dashboard: a verified model

This project models the deterministic core of a factory-floor simulation and of
the dashboard that reports on it.

The factory is a line of six workstations. Every item visits stations 1, 2
and 3, then stations 4 and 5 in either order, then station 6. A station processes
one item at a time, draws a failure once every five items, and is down while it
is repaired. It takes one unit of raw material per item from a bin that is
restocked by 25 units when it falls below 5. Each station keeps a status
history: timestamped records of `Operational`, `Down` and
`Waiting for restock`.

The project has five modules:

- `Simulation` (`simulation.dfy`, for `main.py`): `Station` and `Factory` are
  classes. There is one method per step the simulation takes between two
  scheduler suspensions: record a status, start or finish processing, check
  for failure, break down and repair, restock, and account a wait. It also
  holds the pure helpers: truncated samples, the failure counter, and the
  visiting order.
- `DataProcessor` (`data_processor.dfy`, for `d3_dashboard/data_processor.py`):
  the reporting period, the history filtered to a window, and the
  per-station occupancy, average waiting time and status-time partition.
  Each is computed over a named period or over the whole run.
- `App` (`app.dfy`, for `process_factory_data` in `d3_dashboard/app.py`): the
  dashboard payload. The production trend is rebuilt from the Operational
  records: collected, stably sorted by timestamp, then numbered with a running
  total. Next to it are the per-station occupancy, waiting time and
  status-count fractions.
- `Dashboard` (`dashboard.dfy`, for `TIME_PERIODS` and `filterDataByTime` in
  `d3_dashboard/static/js/dashboard.js`): the client-side period filter. It
  keeps the recent trend entries, rewrites their running totals in the
  shared entry objects, and recomputes the per-station figures.
- `Util` (`util.dfy`): an `Option` type and an order-preserving `Filter` with
  its lemmas.

Modelling conventions:

- The simulation kernel is not modelled: its clock, its resources and its
  containers. The current time, every random draw and every grant arrive as
  parameters.
- What the kernel guarantees is a precondition. The clock never runs
  backwards, so times are at least the station's latest record. A bin only
  hands out a unit it holds, so `binLevel >= 1`.
- Times and ratios are `real`. Counts that only grow are `nat`. The failure counter `countSinceCheck` and the bin level `binLevel` are `int`, kept in 0..4 and non-negative by the station's validity invariant.
- The status dictionaries with the three keys are the datatype
  `StatusShares`. A status name outside the three is `Status.Other`.

Two behaviours of the code are worth knowing:

- The period branch of `calculate_average_waiting_time` looks for a status
  named `Waiting`, which no station ever records. So over any named period
  every station's average waiting time is 0:
  `DataProcessor.AverageWaitOverPeriodIsZero`.
- The dashboard payload's `waiting_times` divides a station's waiting time by
  its number of breakdowns (`App.WaitPerBreakdown`). The whole-run branch of
  `calculate_average_waiting_time` divides it by the factory's number of waits
  instead. Both are modelled as written.

## Model

| member | source | states |
|---|---|---|
| Simulation.NormalTime | main.py:13-16 | a truncated sample is never negative, is at least the raw sample, and is either the sample or 0 |
| Simulation.NameIsInjective | d3_dashboard/data_processor.py:58-60 | two statuses are equal exactly when their names are, so the reports' comparisons of status names are comparisons of statuses |
| Simulation.RestockDelay | main.py:95 | a restock delay is never negative and is the sample in hours when the sample is non-negative |
| Simulation.ArrivalDelay | main.py:157 | the time between arrivals is the absolute value of the draw in hours, so it is never negative |
| Simulation.FailureStep | main.py:76-86 | a check reports a failure only on the call that brings the counter to 5; that call resets the counter to 0 whatever the draw and fails exactly when the draw is below the failure probability; other calls add 1 and never fail; the counter stays in 0..4 |
| Simulation.FailureChecks | main.py:76-86 | successive failure checks from a counter: one outcome per draw, each the failure step from the counter the previous check left; what this means over any number of calls is FailureChecksEveryFifth |
| Simulation.FailureChecksEveryFifth | main.py:76-86 | over any sequence of checks from a counter in 0..4, the i-th check fails exactly when it is a fifth call and its draw is below the probability; the final counter is the number of calls modulo 5 |
| Simulation.FailureChecksExtremes | main.py:83 | with failure probability 1 every fifth check fails; with probability 0 none does |
| Simulation.VisitOrder | main.py:162-179 | an item visits 1, 2, 3 first and 6 last, with 4 and 5 in between, 4 first exactly when its resource was granted first |
| Simulation.VisitOrderVisitsEachOnce | main.py:162-179 | whichever of 4 and 5 is granted first, the order is a permutation of the six stations, so an item visits every station exactly once |
| Simulation.StatusShares.Add | d3_dashboard/data_processor.py:131 | adding to one status changes that status only, by the amount; the total grows by the amount; non-negative shares stay non-negative under a non-negative amount |
| Simulation.StatusShares.Scale | d3_dashboard/data_processor.py:134-135 | every share times the divisor gives back the original time, and so does the total |
| Simulation.StatusShares.Fractions | d3_dashboard/app.py:73-81 | with a positive total every share is its count over the total and the shares sum to 1; otherwise all three are 0; non-negativity is kept |
| Simulation.ScaledByTotalSumsToOne | d3_dashboard/app.py:73-77 | dividing shares by their own positive total gives fractions that add up to 1 |
| Simulation.Station.constructor | main.py:31-58 | a new station has a one-record history (Operational at creation time), a bin of 25, is not broken, and every counter and accumulator is 0 |
| Simulation.Station.RecordStatusChange | main.py:60-67 | appends exactly one record (now, this station, the new status), keeps all earlier records, never deduplicates, makes the new status current, and keeps the station valid |
| Simulation.Station.StartProcessing | main.py:69-71 | the busy period starts now and an Operational record is appended even if the station already is Operational |
| Simulation.Station.FinishProcessing | main.py:73-74 | busy time grows by exactly the time since processing started, so it never decreases |
| Simulation.Station.CheckForFailure | main.py:76-86 | the new counter and the outcome are those of one failure step from the old counter |
| Simulation.Station.BeginRestock | main.py:90-91 | the restock fires exactly when the bin holds fewer than 5 units and then appends Waiting for restock; otherwise nothing changes |
| Simulation.Station.FinishRestock | main.py:94-99 | restocking time grows by the restock delay drawn from the sample, the bin level grows by 25 rather than being set to 25, and Operational is appended when the delay is over; the station may have processed items and recorded statuses during the delay, since only the end of the delay must not precede its latest record |
| Simulation.Station.TakeFromBin | main.py:126 | one unit is taken only from a bin that holds one, so the level never goes negative |
| Simulation.Station.AddWaitingTime | main.py:191 | the station's waiting time grows by exactly the wait |
| Simulation.Station.BreakDown | main.py:106-109 | sets broken, adds exactly one breakdown, records the break time and appends Down |
| Simulation.Station.Repair | main.py:116-120 | clears broken, adds the non-negative time since the break to the downtime, forgets the break time and appends Operational |
| Simulation.Station.BreakStation | main.py:104-120 | a breakdown with repair appends Down then Operational, adds one breakdown and the repair time to the downtime, and leaves the station working |
| Simulation.Station.ProcessItem | main.py:122-134 | takes one unit; adds the truncated processing time to the busy time; advances the failure counter; on failure appends Down and Operational after the Operational record, otherwise only that record; no other field changes (restocking and waiting time, the processing-time total) |
| Simulation.Factory.NewStations | main.py:146-148 | six new valid stations with ids 1..6 in order and the failure probabilities 0.02, 0.01, 0.05, 0.15, 0.07, 0.06 |
| Simulation.Factory.constructor | main.py:138-152 | a new factory has six fresh stations in their initial state, zero counters and a zero waiting total |
| Simulation.Factory.NextItem | main.py:156-159 | the arrival counter advances by one, the new item gets the new counter value as its id, and it is released after the arrival delay drawn from the sample |
| Simulation.Factory.Route | main.py:162-179 | the stations an item is handed to are six stations of the factory whose ids follow the visiting order, 4 and 5 in the order of the race |
| Simulation.Factory.WaitingEnd | main.py:186-192 | a wait at station 1 changes nothing; at any other station that station's waiting time and the factory total grow by the same amount and the number of waits by 1; the factory total stays the sum of the stations' and station 1's stays 0 |
| Simulation.Factory.CompleteItem | main.py:181-184 | exactly one of the two counters grows by one, the faulty one exactly when the draw is below 0.05 |
| DataProcessor.GetTimePeriodRange | d3_dashboard/data_processor.py:13-26 | the window ends at the current time and starts one day, week, month, quarter or year earlier for those names; any other name starts it at 0 |
| DataProcessor.IsGiven | d3_dashboard/data_processor.py:47 | definition: the period argument selects the period branch exactly when it is present and not the empty name, as Python's truth test does |
| DataProcessor.FilterStationHistory | d3_dashboard/data_processor.py:28-31 | a record is in the result exactly when it is in the history and its timestamp is within the closed window |
| DataProcessor.FilterStationHistoryKeepsOrder | d3_dashboard/data_processor.py:28-31 | the filtered history is a subsequence of the history |
| DataProcessor.FilterStationHistoryExact | d3_dashboard/data_processor.py:28-31 | every in-window record is kept as many times as it occurs and every other record is dropped |
| DataProcessor.FilterKeepsChronological | d3_dashboard/data_processor.py:28-31 | filtering a history whose timestamps never decrease keeps them non-decreasing |
| DataProcessor.OperationalGapSum | d3_dashboard/data_processor.py:58-60 | definition: the sum of the gaps between consecutive records whose later record is Operational; its bounds are OperationalGapSumBounds |
| DataProcessor.OperationalGapSumBounds | d3_dashboard/data_processor.py:58-60 | for a chronological history, the gaps ending in an Operational record add up to between 0 and the time from the first to the last record |
| DataProcessor.OccupancyRange | d3_dashboard/data_processor.py:47-51 | definition: the window length for a named period, the simulation time otherwise |
| DataProcessor.OccupancyRate | d3_dashboard/data_processor.py:53-63 | definition: Operational gaps of the filtered history, or busy time, over the range; in [0, 1] by OccupancyRateInUnitInterval |
| DataProcessor.OccupancyRateInUnitInterval | d3_dashboard/data_processor.py:45-65 | over a named period of positive length the occupancy of a station with a chronological history is in [0, 1] |
| DataProcessor.CalculateWorkstationOccupancy | d3_dashboard/data_processor.py:45-65 | one rate per station id 1..6, each the occupancy of that station; over a named period of positive length each rate of a station whose history is in time order lies in [0, 1] |
| DataProcessor.WaitStep | d3_dashboard/data_processor.py:83-88 | after a record a wait is open exactly when that record's status is Waiting |
| DataProcessor.WaitScan | d3_dashboard/data_processor.py:83-88 | after a scan a wait is open exactly when the last record is Waiting |
| DataProcessor.WaitTotal | d3_dashboard/data_processor.py:80-92 | definition: the scanned closed waits plus a wait still open, closed at the end time; bounded by WaitTotalBounds and 0 for recorded histories by KnownStatusesNeverWait |
| DataProcessor.WaitingTimeInWindow | d3_dashboard/data_processor.py:80-92 | the loop computes the scan's closed waits plus a wait still open at the end, closed at the end time |
| DataProcessor.WaitScanWithoutWaiting | d3_dashboard/data_processor.py:84-88 | a history without a Waiting record never opens a wait and accumulates nothing |
| DataProcessor.KnownStatusesNeverWait | d3_dashboard/data_processor.py:80-95 | a history of the three recorded statuses has waiting time 0 |
| DataProcessor.WaitScanBounds | d3_dashboard/data_processor.py:80-88 | on a chronological history the closed waits are non-negative, an open wait started within the history, and closed plus open waits span at most first-to-last |
| DataProcessor.WaitTotalBounds | d3_dashboard/data_processor.py:80-92 | the waiting time of a chronological window whose records precede the end time is between 0 and the time from its first record to the end |
| DataProcessor.AverageWaitOverPeriodIsZero | d3_dashboard/data_processor.py:74-95 | over a named period the average wait of any station that records only the three statuses is 0 |
| DataProcessor.AverageWait | d3_dashboard/data_processor.py:74-101 | definition: the window's waiting time in hours for a period; otherwise waiting time over the factory's number of waits in hours, or 0 without waits |
| DataProcessor.StationAverageWait | d3_dashboard/data_processor.py:74-101 | the loop body computes the station's average: the scanned waits in hours over a period; otherwise the waiting time over the factory's number of waits in hours, or 0 without waits |
| DataProcessor.CalculateAverageWaitingTime | d3_dashboard/data_processor.py:67-105 | keys are exactly stations 2..6, so station 1 never appears; each value is that station's average |
| DataProcessor.StatusTimeUpTo | d3_dashboard/data_processor.py:128-131 | definition: the first n records' gaps, each credited to the earlier record's status; telescopes by StatusTimeUpToTelescopes |
| DataProcessor.StatusTimeSum | d3_dashboard/data_processor.py:117-131 | definition: the status times of the whole filtered history; sums to its span by StatusTimeSumTelescopes |
| DataProcessor.StatusTimeUpToTelescopes | d3_dashboard/data_processor.py:128-131 | the gaps credited by the first n records add up to the time from the first to the n-th record, and to nothing below two records |
| DataProcessor.StatusTimeSumTelescopes | d3_dashboard/data_processor.py:117-131 | before normalisation the three status times sum to last minus first timestamp, and are all 0 for fewer than two records |
| DataProcessor.StatusTimeUpToNonNegative | d3_dashboard/data_processor.py:128-131 | on a chronological history no status is credited a negative time |
| DataProcessor.StatusTimes | d3_dashboard/data_processor.py:117-131 | the loop credits each gap to the status of the earlier record |
| DataProcessor.IntervalsLength | d3_dashboard/data_processor.py:114 | definition: the summed lengths of the given intervals |
| DataProcessor.PartitionRange | d3_dashboard/data_processor.py:110-114 | definition: the window length for a named period, the summed interval lengths otherwise |
| DataProcessor.PeriodPartition | d3_dashboard/data_processor.py:123-135 | definition: the status times of a period's history over the window length; fractions by PeriodPartitionIsFraction |
| DataProcessor.Partition | d3_dashboard/data_processor.py:116-146 | definition: the period partition for a named period; busy, down and restocking time over the range otherwise; fractions by PartitionOverPeriodIsFraction |
| DataProcessor.PeriodPartitionIsFraction | d3_dashboard/data_processor.py:128-135 | a chronological history that fits in a window of positive length gives non-negative shares that add up to at most 1 |
| DataProcessor.PartitionOverPeriodIsFraction | d3_dashboard/data_processor.py:110-135 | over a named period of positive length, a station whose history is chronological and holds only the three statuses is never indexed with an unknown key, and its shares are non-negative and add up to at most 1 |
| DataProcessor.StationPartition | d3_dashboard/data_processor.py:116-146 | the loop body computes the station's partition: status times over the window length for a period; busy, down and restocking time over the summed interval lengths otherwise |
| DataProcessor.GetWorkstationStatusPartition | d3_dashboard/data_processor.py:107-148 | one partition per station id 1..6, each the partition of that station |
| App.StationEvents | d3_dashboard/app.py:25-32 | every event a station contributes carries that station's id |
| App.StationEventsAreOperationalRecords | d3_dashboard/app.py:25-32 | a station contributes exactly one event per Operational record, in history order, and none for other records |
| App.ProductionEventsOf | d3_dashboard/app.py:24-32 | definition: the events of every station, station by station; counted by ProductionEventsCount |
| App.ProductionEventsCount | d3_dashboard/app.py:24-32 | the number of production events is the number of Operational records over all stations |
| App.CollectProductionEvents | d3_dashboard/app.py:24-32 | the nested loops collect the events of every station, station by station |
| App.InsertAddsOne | d3_dashboard/app.py:35 | inserting adds the event once and keeps every other event |
| App.InsertByTimestamp | d3_dashboard/app.py:35 | definition: the event goes before the first event that is not earlier; adds one by InsertAddsOne, keeps order by InsertKeepsSorted and InsertKeepsTies |
| App.InsertKeepsSorted | d3_dashboard/app.py:35 | inserting into a timestamp-sorted sequence keeps it sorted |
| App.SortByTimestamp | d3_dashboard/app.py:35 | the sorted events have non-decreasing timestamps and are a permutation of the collected events |
| App.InsertKeepsTies | d3_dashboard/app.py:35 | an insertion puts the event before every event with the same timestamp and leaves other timestamps' order alone |
| App.SortIsStable | d3_dashboard/app.py:35 | for every timestamp, the events with that timestamp keep their relative order, so ties keep station order |
| App.TrendOf | d3_dashboard/app.py:38-47 | one entry per event with its timestamp and station, production 1, and cumulative production equal to the running sum of productions |
| App.BuildTrend | d3_dashboard/app.py:38-47 | the loop builds exactly that trend |
| App.CumulativeIsRunningSum | d3_dashboard/app.py:40-47 | numbering entries 1, 2, ... with production 1 makes each cumulative value the running sum |
| App.UnitProductionSum | d3_dashboard/app.py:38-47 | the first n entries of unit production sum to n, so the k-th entry's total is k |
| App.OccupancyRates | d3_dashboard/app.py:50-53 | keys are station ids 1..6; each value is busy time over a year |
| App.WaitPerBreakdown | d3_dashboard/app.py:56-62 | 0 without breakdowns, otherwise the waiting time per breakdown in hours; never a division by zero; non-negative for a non-negative waiting time |
| App.WaitingTimes | d3_dashboard/app.py:56-62 | keys are station ids 1..6; each value is the station's waiting time per breakdown |
| App.StatusCounts | d3_dashboard/app.py:67-71 | definition: one count per record added to its status; each count is its filter's length by StatusCountsCount |
| App.CountShares | d3_dashboard/app.py:71-81 | definition: the counts as fractions of their total; see CountSharesAreFractions |
| App.StatusCountsCount | d3_dashboard/app.py:67-69 | each count is the number of records with that status |
| App.StatusCountsTotal | d3_dashboard/app.py:67-71 | the three counts are never negative and sum to the history length, which is total_events |
| App.CountStatuses | d3_dashboard/app.py:67-72 | the counting loop computes those counts |
| App.CountSharesAreFractions | d3_dashboard/app.py:65-81 | a non-empty history's fractions sum to 1 and each is the share of its records with that status; an empty history gives all zeros |
| App.StatusPartitions | d3_dashboard/app.py:65-81 | keys are station ids 1..6; each value is the count fractions of that station's history |
| App.StationFigures | d3_dashboard/app.py:50-81 | the three per-station loops together give occupancy, waiting time and count fractions for every station |
| App.ProductionTrend | d3_dashboard/app.py:23-47 | the trend is built from the stably sorted Operational records of all stations |
| App.StationIds | d3_dashboard/app.py:90 | the station list keeps the factory's order of ids |
| App.ProcessFactoryData | d3_dashboard/app.py:18-91 | the payload carries the factory totals, the trend of the sorted Operational records, one occupancy, waiting time and partition per station id 1..6, and the station list 1..6 |
| Dashboard.PeriodDuration | d3_dashboard/static/js/dashboard.js:18-24 | every period has a positive length |
| Dashboard.PeriodDurationAgreesWithServer | d3_dashboard/static/js/dashboard.js:18-24 | the client's period lengths equal the server's day, week, month, quarter and year |
| Dashboard.MaxTimestamp | d3_dashboard/static/js/dashboard.js:43 | the result is at least every timestamp and is the timestamp of some entry |
| Dashboard.KeptEntries | d3_dashboard/static/js/dashboard.js:43-48 | definition: the entries not earlier than the period length before the latest timestamp, in order; never empty by KeptEntriesHasLatest |
| Dashboard.KeptEntriesHasLatest | d3_dashboard/static/js/dashboard.js:43-48 | the kept trend always contains an entry with the maximum timestamp |
| Dashboard.KeptOfSortedIsSuffix | d3_dashboard/static/js/dashboard.js:48 | on a sorted trend the kept entries are a suffix of it |
| Dashboard.UnitProductionSum | d3_dashboard/static/js/dashboard.js:51-55 | with unit productions the running total equals the number of entries |
| Dashboard.RewriteCumulative | d3_dashboard/static/js/dashboard.js:51-55 | the k-th kept entry's cumulative production becomes the sum of productions up to it, and the result is the final sum |
| Dashboard.GroupByStation | d3_dashboard/static/js/dashboard.js:63-71 | each station with kept entries maps to exactly those entries, in order; no other station has a group |
| Dashboard.RoundHalfUp | d3_dashboard/static/js/dashboard.js:95 | the result is within one half of the argument, with halves rounded up |
| Dashboard.ScaledFaulty | d3_dashboard/static/js/dashboard.js:95 | the scaled faulty count stays between 0 and the faulty count, and equals it when every entry is kept |
| Dashboard.OccupancyIsBusyShare | d3_dashboard/static/js/dashboard.js:78-79 | occupancy is non-negative, times the period it is the busy time, and it is at most 1 exactly when the busy hours fit in the period |
| Dashboard.Occupancy | d3_dashboard/static/js/dashboard.js:79-80 | definition: one busy hour per entry over the period length; see OccupancyIsBusyShare |
| Dashboard.GroupOccupancy | d3_dashboard/static/js/dashboard.js:76-80 | definition: the occupancy of a station's group, 0 for a station without one |
| Dashboard.StationFigures | d3_dashboard/static/js/dashboard.js:74-89 | every listed station, and no other, gets an occupancy from its kept entries, the input's waiting time or 0, and the input's partition or all zeros |
| Dashboard.FilterDataByTime | d3_dashboard/static/js/dashboard.js:36-100 | missing data or an empty trend is returned unchanged; otherwise the result carries the kept entries, their rewritten running totals, the final total, the scaled faulty count, occupancy from each station's kept-entry count and copied or defaulted figures, and entries outside the period keep their totals |

## Left out

- The simulation kernel (`simpy`) is not part of this model: the event queue, `env.run`, processes and timeouts, resource queues, the blocking `get` and `put` of the bin, and the `req4 | req5` race. The clock, every grant and the race winner are parameters or preconditions.
- Random sampling is left out: `random.gauss`, `expovariate`, `normalvariate` and `random.random`. Every draw is a parameter. No claim about distributions or determinism is made.
- The unbounded loops of `production`, `restock_process` and the broken-station polling in `process_item` are not modelled. Their bodies are (`NextItem`, `BeginRestock`/`FinishRestock`, `ProcessItem`); the repetition and its timing belong to the kernel.
- The factory's pool of three restocking devices is a kernel resource: at most three stations restock at once. The model has no pool; a granted device is the call of `FinishRestock`, and the limit on concurrent restocks is not modelled.
- Simulation.Station.ProcessItem: models one `process_item` run that no other process of the station interleaves with. A restock that runs while an item is processed is an interleaving the kernel decides.
- `exponential_time` is a sampling helper: the repair time it draws for `break_station` is the parameter `repairTime` of `ProcessItem` (`fixTime` of `BreakStation`). `normal_delay` is never called in the source, so it is not modelled; the restock delay comes from `normal_time` and is `RestockDelay`.
- Flask routes, `run_simulation`, the module-level cache and `app.run` are web plumbing and are left out.
- `calculate_overall_production` is left out: it is one division with nothing to state beyond its formula.
- Floating point is left out. Times and ratios are exact reals, and JavaScript's `Math.round` is modelled as rounding half up on reals.
- DataProcessor.CalculateWorkstationOccupancy: requires a non-zero time range. With a zero range Python raises ZeroDivisionError, which is not modelled.
- DataProcessor.GetWorkstationStatusPartition: requires a non-zero time range, for the same ZeroDivisionError reason.
- App.ProcessFactoryData and App.StatusPartitions: require every recorded status to be one of the three. Another status would raise KeyError in the counting loop, and the simulation never records one.
- DataProcessor.GetWorkstationStatusPartition and DataProcessor.StatusTimes: require every filtered record followed by another to have one of the three statuses, for the same KeyError reason.
- Dashboard.FilterDataByTime: requires the trend entries to be distinct objects, as they are after the payload is parsed. An absent `production_trend` field is not modelled separately; it behaves like the empty trend.
- Dashboard.FilterDataByTime: the copied `...data` fields other than the station list are not modelled. Neither is the `console.warn` message.
- Dashboard.FilterDataByTime: the selected period is a parameter rather than the page-level `selectedTimePeriod` variable.
- Dashboard.FilterDataByTime: runs the cumulative rewrite after the grouping. The grouping reads only the constant station id of each entry, so the result is the same as in the source's order.
- Dashboard.FilterDataByTime: the default `|| 0` of the waiting times is modelled as "0 when missing". A present value that is falsy in JavaScript (0, NaN) is copied rather than replaced; only NaN would differ.
- Dashboard.FilterDataByTime: the selected period is one of the five `TIME_PERIODS` keys. Any other value of `selectedTimePeriod` would make the period length undefined in JavaScript, keep no entries and give NaN occupancies; that case is not modelled.
- The rendering part of `dashboard.js` (fetching, DOM, charts and number formatting) is left out.
