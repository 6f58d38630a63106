/** The report calculations of d3_dashboard/data_processor.py: windows over
    the simulated time, the status history of a station restricted to a
    window, and the per-station occupancy, average waiting time and
    status-time partition computed either over a named period ending at the
    current time or over the whole run. */
module DataProcessor {
  import opened Util
  import opened Simulation

  /** The named reporting periods and their lengths in seconds. */
  const PERIOD_LENGTHS: map<string, real> :=
    map["day" := DAY, "week" := WEEK, "month" := MONTH, "quarter" := QUARTER, "year" := YEAR]

  /** The status the waiting-time report looks for. */
  const WAITING: Status := Other("Waiting")

  /** Python's truth value of the optional period argument: both None and
      the empty name select the whole-run branch. */
  predicate IsGiven(timePeriod: Option<string>)
  {
    timePeriod.Some? && timePeriod.value != ""
  }

  /** get_time_period_range: the window of the named length that ends at
      `currentTime`; an unknown name gives the window from time 0. */
  function GetTimePeriodRange(timePeriod: string, currentTime: real): (r: (real, real))
    ensures r.1 == currentTime
    ensures timePeriod in PERIOD_LENGTHS ==> r.0 == currentTime - PERIOD_LENGTHS[timePeriod]
    ensures timePeriod !in PERIOD_LENGTHS ==> r.0 == 0.0
  {
    if timePeriod == "day" then (currentTime - DAY, currentTime)
    else if timePeriod == "week" then (currentTime - WEEK, currentTime)
    else if timePeriod == "month" then (currentTime - MONTH, currentTime)
    else if timePeriod == "quarter" then (currentTime - QUARTER, currentTime)
    else if timePeriod == "year" then (currentTime - YEAR, currentTime)
    else (0.0, currentTime)
  }

  function InWindow(startTime: real, endTime: real): Event -> bool
  {
    (e: Event) => startTime <= e.timestamp <= endTime
  }

  /** filter_station_history: the records whose timestamp lies in the
      closed window, in their original order. */
  function FilterStationHistory(history: seq<Event>, startTime: real, endTime: real): (r: seq<Event>)
    ensures forall e :: e in r <==> e in history && startTime <= e.timestamp <= endTime
  {
    FilterMembers(history, InWindow(startTime, endTime));
    Filter(history, InWindow(startTime, endTime))
  }

  /** The filtered history keeps the order of the records it keeps. */
  lemma FilterStationHistoryKeepsOrder(history: seq<Event>, startTime: real, endTime: real)
    ensures IsSubsequence(FilterStationHistory(history, startTime, endTime), history)
  {
    FilterIsSubsequence(history, InWindow(startTime, endTime));
  }

  /** Each in-window record is kept as often as it occurs; no other record is. */
  lemma FilterStationHistoryExact(history: seq<Event>, startTime: real, endTime: real, e: Event)
    ensures multiset(FilterStationHistory(history, startTime, endTime))[e]
      == if startTime <= e.timestamp <= endTime then multiset(history)[e] else 0
  {
    FilterMultiplicity(history, InWindow(startTime, endTime), e);
  }

  /** A filtered chronological history is chronological. */
  lemma {:induction false} FilterKeepsChronological(h: seq<Event>, p: Event -> bool)
    requires Chronological(h)
    ensures Chronological(Filter(h, p))
  {
    if h != [] {
      FilterKeepsChronological(h[1..], p);
      FilterMembers(h[1..], p);
      var rest := Filter(h[1..], p);
      forall e | e in rest
        ensures h[0].timestamp <= e.timestamp
      {
        var k :| 0 <= k < |h[1..]| && h[1..][k] == e;
        assert h[k + 1] == e;
      }
    }
  }

  /** The time in the window ending in an Operational record: the sum of
      the gaps between consecutive records whose later record is Operational. */
  function OperationalGapSum(h: seq<Event>): real
    decreases |h|
  {
    if |h| < 2 then 0.0
    else (if h[1].status == Operational then h[1].timestamp - h[0].timestamp else 0.0) + OperationalGapSum(h[1..])
  }

  /** For a chronological history the Operational gaps add up to at least
      0 and at most the time between its first and last record. */
  lemma {:induction false} OperationalGapSumBounds(h: seq<Event>)
    requires Chronological(h) && |h| > 0
    ensures 0.0 <= OperationalGapSum(h) <= h[|h| - 1].timestamp - h[0].timestamp
    decreases |h|
  {
    if |h| >= 2 {
      OperationalGapSumBounds(h[1..]);
      assert h[1..][|h[1..]| - 1] == h[|h| - 1];
      assert h[0].timestamp <= h[1].timestamp;
    }
  }

  /** The time range of the occupancy report. */
  function OccupancyRange(simulationTime: real, timePeriod: Option<string>): real
  {
    if IsGiven(timePeriod) then
      var window := GetTimePeriodRange(timePeriod.value, simulationTime);
      window.1 - window.0
    else simulationTime
  }

  /** Occupancy of one station: over a named period, the Operational gaps of
      its filtered history; over the whole run, its busy time. */
  function OccupancyRate(history: seq<Event>, busyTime: real, simulationTime: real, timePeriod: Option<string>): real
    requires OccupancyRange(simulationTime, timePeriod) != 0.0
  {
    var range := OccupancyRange(simulationTime, timePeriod);
    if IsGiven(timePeriod) then
      var window := GetTimePeriodRange(timePeriod.value, simulationTime);
      OperationalGapSum(FilterStationHistory(history, window.0, window.1)) / range
    else busyTime / range
  }

  /** Over a named period the occupancy of a station is a fraction in [0, 1]
      (when the window has positive length). */
  lemma OccupancyRateInUnitInterval(history: seq<Event>, busyTime: real, simulationTime: real, timePeriod: Option<string>)
    requires Chronological(history)
    requires IsGiven(timePeriod) && OccupancyRange(simulationTime, timePeriod) > 0.0
    ensures 0.0 <= OccupancyRate(history, busyTime, simulationTime, timePeriod) <= 1.0
  {
    var window := GetTimePeriodRange(timePeriod.value, simulationTime);
    var range := window.1 - window.0;
    var fh := FilterStationHistory(history, window.0, window.1);
    var g := OperationalGapSum(fh);
    FilterKeepsChronological(history, InWindow(window.0, window.1));
    if |fh| > 0 {
      OperationalGapSumBounds(fh);
      assert fh[0] in fh && fh[|fh| - 1] in fh;
      assert window.0 <= fh[0].timestamp && fh[|fh| - 1].timestamp <= window.1;
    }
    assert 0.0 <= g <= range;
    FractionInUnitInterval(g, range);
  }

  lemma FractionInUnitInterval(part: real, whole: real)
    requires 0.0 <= part <= whole && whole > 0.0
    ensures 0.0 <= part / whole <= 1.0
  {
  }

  /** calculate_workstation_occupancy: one rate per station id; over a
      named period of positive length every rate of a station whose history
      is in time order lies in [0, 1]. */
  method CalculateWorkstationOccupancy(f: Factory, simulationTime: real, timePeriod: Option<string>)
    returns (rates: map<int, real>)
    requires f.Numbered()
    requires OccupancyRange(simulationTime, timePeriod) != 0.0
    ensures rates.Keys == STATION_IDS
    ensures forall i :: 0 <= i < STATION_COUNT ==>
      rates[i + 1] == OccupancyRate(f.stations[i].history, f.stations[i].busyTime, simulationTime, timePeriod)
    ensures forall i :: 0 <= i < STATION_COUNT ==>
      IsGiven(timePeriod) && OccupancyRange(simulationTime, timePeriod) > 0.0 && Chronological(f.stations[i].history)
      ==> 0.0 <= rates[i + 1] <= 1.0
  {
    rates := map[];
    for i := 0 to STATION_COUNT
      invariant forall k :: k in rates <==> 1 <= k <= i
      invariant forall j :: 0 <= j < i ==>
        rates[j + 1] == OccupancyRate(f.stations[j].history, f.stations[j].busyTime, simulationTime, timePeriod)
      invariant forall j :: 0 <= j < i ==>
        IsGiven(timePeriod) && OccupancyRange(simulationTime, timePeriod) > 0.0 && Chronological(f.stations[j].history)
        ==> 0.0 <= rates[j + 1] <= 1.0
    {
      var station := f.stations[i];
      var rate := OccupancyRate(station.history, station.busyTime, simulationTime, timePeriod);
      if IsGiven(timePeriod) && OccupancyRange(simulationTime, timePeriod) > 0.0 && Chronological(station.history) {
        OccupancyRateInUnitInterval(station.history, station.busyTime, simulationTime, timePeriod);
      }
      rates := rates[station.id := rate];
    }
    assert forall k :: k in rates <==> k in STATION_IDS;
  }

  /** One record of the waiting scan: a wait opens on a Waiting record when
      none is open and closes, adding its length, on any other record. */
  function WaitStep(acc: (real, Option<real>), e: Event): (r: (real, Option<real>))
    ensures r.1.Some? <==> e.status == WAITING
  {
    if e.status == WAITING && acc.1.None? then (acc.0, Some(e.timestamp))
    else if e.status != WAITING && acc.1.Some? then (acc.0 + (e.timestamp - acc.1.value), None)
    else acc
  }

  /** The accumulated waiting time and the start of the open wait, if
      any, after scanning `h` from its first record. */
  function WaitScan(h: seq<Event>): (r: (real, Option<real>))
    ensures r.1.Some? <==> |h| > 0 && h[|h| - 1].status == WAITING
    decreases |h|
  {
    if h == [] then (0.0, None) else WaitStep(WaitScan(h[..|h| - 1]), h[|h| - 1])
  }

  /** The waiting time of a window: a wait still open at the end of the
      history is closed at `endTime`. */
  function WaitTotal(h: seq<Event>, endTime: real): real
  {
    var acc := WaitScan(h);
    if acc.1.Some? then acc.0 + (endTime - acc.1.value) else acc.0
  }

  /** The loop of calculate_average_waiting_time over a filtered history. */
  method WaitingTimeInWindow(filtered: seq<Event>, endTime: real) returns (totalWaitTime: real)
    ensures totalWaitTime == WaitTotal(filtered, endTime)
  {
    totalWaitTime := 0.0;
    var waitStart: Option<real> := None;
    for i := 0 to |filtered|
      invariant (totalWaitTime, waitStart) == WaitScan(filtered[..i])
    {
      assert filtered[..i + 1][..i] == filtered[..i];
      var event := filtered[i];
      if event.status == WAITING && waitStart.None? {
        waitStart := Some(event.timestamp);
      } else if event.status != WAITING && waitStart.Some? {
        totalWaitTime := totalWaitTime + (event.timestamp - waitStart.value);
        waitStart := None;
      }
    }
    assert filtered[..|filtered|] == filtered;
    if waitStart.Some? {
      totalWaitTime := totalWaitTime + (endTime - waitStart.value);
    }
  }

  /** Without a Waiting record the scan never opens a wait. */
  lemma {:induction false} WaitScanWithoutWaiting(h: seq<Event>)
    requires forall i :: 0 <= i < |h| ==> h[i].status != WAITING
    ensures WaitScan(h) == (0.0, None)
    decreases |h|
  {
    if h != [] {
      WaitScanWithoutWaiting(h[..|h| - 1]);
    }
  }

  /** A history of the three recorded statuses has no waiting time. */
  lemma KnownStatusesNeverWait(h: seq<Event>, endTime: real)
    requires forall i :: 0 <= i < |h| ==> IsKnownStatus(h[i].status)
    ensures WaitTotal(h, endTime) == 0.0
  {
    WaitScanWithoutWaiting(h);
  }

  /** Scanning a chronological history: the closed waits and the open one
      together span at most the time from the first to the last record. */
  lemma {:induction false} WaitScanBounds(h: seq<Event>)
    requires Chronological(h) && |h| > 0
    ensures WaitScan(h).0 >= 0.0
    ensures WaitScan(h).1.Some? ==> h[0].timestamp <= WaitScan(h).1.value <= h[|h| - 1].timestamp
    ensures WaitScan(h).0 + (if WaitScan(h).1.Some? then h[|h| - 1].timestamp - WaitScan(h).1.value else 0.0)
      <= h[|h| - 1].timestamp - h[0].timestamp
    decreases |h|
  {
    if |h| > 1 {
      var prefix := h[..|h| - 1];
      WaitScanBounds(prefix);
      assert prefix[0] == h[0] && prefix[|prefix| - 1] == h[|h| - 2];
      assert h[|h| - 2].timestamp <= h[|h| - 1].timestamp;
    }
  }

  /** The waiting time of a chronological window whose records precede
      `endTime` lies between 0 and the time from its first record to `endTime`. */
  lemma WaitTotalBounds(h: seq<Event>, endTime: real)
    requires Chronological(h) && |h| > 0 && h[|h| - 1].timestamp <= endTime
    ensures 0.0 <= WaitTotal(h, endTime) <= endTime - h[0].timestamp
  {
    WaitScanBounds(h);
  }

  /** Average waiting time of one station, in hours: over a named period,
      the waiting time found by scanning its filtered history; over the
      whole run, its accumulated waiting time divided by the factory's
      number of waits (0 when there were none). */
  function AverageWait(history: seq<Event>, totalWaitingTime: real, numWaits: nat, timePeriod: Option<string>, now: real): real
  {
    if IsGiven(timePeriod) then
      var window := GetTimePeriodRange(timePeriod.value, now);
      WaitTotal(FilterStationHistory(history, window.0, window.1), window.1) / HOUR
    else if numWaits > 0 then totalWaitingTime / (numWaits as real) / HOUR
    else 0.0
  }

  /** Over a named period the average is 0 for every history a station can
      record, since none of the three statuses is Waiting. */
  lemma AverageWaitOverPeriodIsZero(history: seq<Event>, totalWaitingTime: real, numWaits: nat, timePeriod: Option<string>, now: real)
    requires IsGiven(timePeriod)
    requires KnownStatuses(history)
    ensures AverageWait(history, totalWaitingTime, numWaits, timePeriod, now) == 0.0
  {
    var window := GetTimePeriodRange(timePeriod.value, now);
    var filtered := FilterStationHistory(history, window.0, window.1);
    forall k | 0 <= k < |filtered| ensures IsKnownStatus(filtered[k].status) {
      assert filtered[k] in history;
    }
    KnownStatusesNeverWait(filtered, window.1);
  }

  /** The body of the loop of calculate_average_waiting_time, for a station
      other than station 1. */
  method StationAverageWait(station: Station, numWaits: nat, timePeriod: Option<string>, now: real) returns (avgWait: real)
    ensures avgWait == AverageWait(station.history, station.totalWaitingTime, numWaits, timePeriod, now)
  {
    if IsGiven(timePeriod) {
      var window := GetTimePeriodRange(timePeriod.value, now);
      var filtered := FilterStationHistory(station.history, window.0, window.1);
      var totalWaitTime := WaitingTimeInWindow(filtered, window.1);
      avgWait := totalWaitTime / HOUR;
    } else {
      if numWaits > 0 {
        avgWait := station.totalWaitingTime / (numWaits as real) / HOUR;
      } else {
        avgWait := 0.0;
      }
    }
  }

  /** calculate_average_waiting_time: one average per station id except
      station 1, which is skipped. */
  method CalculateAverageWaitingTime(f: Factory, timePeriod: Option<string>, now: real)
    returns (avgWaitingTimes: map<int, real>)
    requires f.Numbered()
    ensures avgWaitingTimes.Keys == STATION_IDS - {1}
    ensures forall i :: 1 <= i < STATION_COUNT ==>
      avgWaitingTimes[i + 1] == AverageWait(f.stations[i].history, f.stations[i].totalWaitingTime, f.numWaits, timePeriod, now)
  {
    avgWaitingTimes := map[];
    for i := 0 to STATION_COUNT
      invariant forall k :: k in avgWaitingTimes <==> 2 <= k <= i
      invariant forall j :: 1 <= j < i ==>
        avgWaitingTimes[j + 1] == AverageWait(f.stations[j].history, f.stations[j].totalWaitingTime, f.numWaits, timePeriod, now)
    {
      var station := f.stations[i];
      if station.id == 1 {
        continue;
      }
      var avgWait := StationAverageWait(station, f.numWaits, timePeriod, now);
      avgWaitingTimes := avgWaitingTimes[station.id := avgWait];
    }
    assert forall k :: k in avgWaitingTimes <==> k in STATION_IDS - {1};
  }

  /** The status times credited by the first `n` records of a filtered
      history: every gap between consecutive records is credited to the
      status of the earlier record. */
  function StatusTimeUpTo(h: seq<Event>, n: nat): StatusShares
    requires n <= |h| && KeysKnown(h)
  {
    if n < 2 then NO_SHARES
    else StatusTimeUpTo(h, n - 1).Add(h[n - 2].status, h[n - 1].timestamp - h[n - 2].timestamp)
  }

  /** The status-time partition of a filtered history before normalisation. */
  function StatusTimeSum(h: seq<Event>): StatusShares
    requires KeysKnown(h)
  {
    StatusTimeUpTo(h, |h|)
  }

  /** The credited gaps telescope: together they are the time from the first
      to the n-th record, and nothing below two records. */
  lemma {:induction false} StatusTimeUpToTelescopes(h: seq<Event>, n: nat)
    requires n <= |h| && KeysKnown(h)
    ensures n < 2 ==> StatusTimeUpTo(h, n) == NO_SHARES
    ensures n >= 2 ==> StatusTimeUpTo(h, n).Total() == h[n - 1].timestamp - h[0].timestamp
  {
    if n > 2 {
      StatusTimeUpToTelescopes(h, n - 1);
    }
  }

  /** The partition before normalisation adds up to the time from the first
      to the last record of the history, and is empty below two records. */
  lemma StatusTimeSumTelescopes(h: seq<Event>)
    requires KeysKnown(h)
    ensures |h| < 2 ==> StatusTimeSum(h) == NO_SHARES
    ensures StatusTimeSum(h).Total() == Span(h)
  {
    StatusTimeUpToTelescopes(h, |h|);
  }

  /** On a chronological history no status is credited a negative time. */
  lemma {:induction false} StatusTimeUpToNonNegative(h: seq<Event>, n: nat)
    requires n <= |h| && KeysKnown(h) && Chronological(h)
    ensures StatusTimeUpTo(h, n).NonNegative()
  {
    if n >= 2 {
      StatusTimeUpToNonNegative(h, n - 1);
      assert h[n - 2].timestamp <= h[n - 1].timestamp;
    }
  }

  /** The first loop of get_workstation_status_partition over a filtered
      history. Only the statuses of records that are followed by another are
      used as keys, so only those must be known. */
  method StatusTimes(filtered: seq<Event>) returns (stationStatus: StatusShares)
    requires KeysKnown(filtered)
    ensures stationStatus == StatusTimeSum(filtered)
  {
    stationStatus := NO_SHARES;
    if |filtered| == 0 {
      return;
    }
    for i := 1 to |filtered|
      invariant stationStatus == StatusTimeUpTo(filtered, i)
    {
      var duration := filtered[i].timestamp - filtered[i - 1].timestamp;
      var status := filtered[i - 1].status;
      assert StatusTimeUpTo(filtered, i + 1) == StatusTimeUpTo(filtered, i).Add(status, duration);
      stationStatus := stationStatus.Add(status, duration);
    }
  }

  /** Sum of the lengths of the given (start, end) intervals. */
  function IntervalsLength(timeIntervals: seq<(real, real)>): real
    decreases |timeIntervals|
  {
    if timeIntervals == [] then 0.0
    else (timeIntervals[0].1 - timeIntervals[0].0) + IntervalsLength(timeIntervals[1..])
  }

  /** The time range the partition is normalised by. */
  function PartitionRange(timeIntervals: seq<(real, real)>, timePeriod: Option<string>, now: real): real
  {
    if IsGiven(timePeriod) then
      var window := GetTimePeriodRange(timePeriod.value, now);
      window.1 - window.0
    else IntervalsLength(timeIntervals)
  }

  /** The history a station's partition over a named period is computed from. */
  function PeriodHistory(history: seq<Event>, timePeriod: string, now: real): seq<Event>
  {
    var window := GetTimePeriodRange(timePeriod, now);
    FilterStationHistory(history, window.0, window.1)
  }

  /** The time from the first to the last record of a history; 0 when it
      has fewer than two records. */
  function Span(h: seq<Event>): real
  {
    if |h| < 2 then 0.0 else h[|h| - 1].timestamp - h[0].timestamp
  }

  /** Every record followed by another has one of the three statuses: the
      condition under which the partition's dictionary has every key it is
      indexed with. */
  ghost predicate KeysKnown(h: seq<Event>)
  {
    forall i :: 0 <= i < |h| - 1 ==> IsKnownStatus(h[i].status)
  }

  /** The partition over a named period: the status times of the period's
      history divided by the window length. */
  function PeriodPartition(fh: seq<Event>, range: real): StatusShares
    requires KeysKnown(fh) && range != 0.0
  {
    StatusTimeSum(fh).Scale(range)
  }

  /** A chronological history that fits in a window of positive length
      gives shares that are non-negative and add up to at most 1. */
  lemma PeriodPartitionIsFraction(fh: seq<Event>, range: real)
    requires KeysKnown(fh) && range > 0.0
    requires Chronological(fh) && Span(fh) <= range
    ensures PeriodPartition(fh, range).NonNegative() && PeriodPartition(fh, range).Total() <= 1.0
  {
    StatusTimeSumTelescopes(fh);
    StatusTimeUpToNonNegative(fh, |fh|);
    var sum := StatusTimeSum(fh);
    assert 0.0 <= sum.Total() <= range;
    SharesOfRange(sum, range, PeriodPartition(fh, range));
  }

  /** The partition of one station: over a named period, the status times
      of its filtered history divided by the window length; over the whole
      run, busy time, downtime and restocking time divided by the total
      length of the given intervals. */
  function Partition(history: seq<Event>, busyTime: real, totalDowntime: real, restockingTime: real,
                     timeIntervals: seq<(real, real)>, timePeriod: Option<string>, now: real): StatusShares
    requires PartitionRange(timeIntervals, timePeriod, now) != 0.0
    requires IsGiven(timePeriod) ==> KeysKnown(PeriodHistory(history, timePeriod.value, now))
  {
    var range := PartitionRange(timeIntervals, timePeriod, now);
    if IsGiven(timePeriod) then PeriodPartition(PeriodHistory(history, timePeriod.value, now), range)
    else StatusShares(busyTime / range, totalDowntime / range, restockingTime / range)
  }

  /** The body of the loop of get_workstation_status_partition. */
  method StationPartition(station: Station, timeIntervals: seq<(real, real)>, timePeriod: Option<string>, now: real)
    returns (stationStatus: StatusShares)
    requires PartitionRange(timeIntervals, timePeriod, now) != 0.0
    requires IsGiven(timePeriod) ==> KeysKnown(PeriodHistory(station.history, timePeriod.value, now))
    ensures stationStatus == Partition(station.history, station.busyTime, station.totalDowntime, station.restockingTime,
                                       timeIntervals, timePeriod, now)
  {
    var range := PartitionRange(timeIntervals, timePeriod, now);
    stationStatus := NO_SHARES;
    if IsGiven(timePeriod) {
      var window := GetTimePeriodRange(timePeriod.value, now);
      var filtered := FilterStationHistory(station.history, window.0, window.1);
      stationStatus := StatusTimes(filtered);
      stationStatus := stationStatus.Scale(range);
    } else {
      stationStatus := StatusShares(station.busyTime / range, station.totalDowntime / range, station.restockingTime / range);
    }
  }

  /** get_workstation_status_partition: one partition per station id. */
  method GetWorkstationStatusPartition(f: Factory, timeIntervals: seq<(real, real)>, timePeriod: Option<string>, now: real)
    returns (statusPartitions: map<int, StatusShares>)
    requires f.Numbered()
    requires PartitionRange(timeIntervals, timePeriod, now) != 0.0
    requires IsGiven(timePeriod) ==>
      forall i :: 0 <= i < STATION_COUNT ==> KeysKnown(PeriodHistory(f.stations[i].history, timePeriod.value, now))
    ensures statusPartitions.Keys == STATION_IDS
    ensures forall i :: 0 <= i < STATION_COUNT ==>
      var station := f.stations[i];
      statusPartitions[i + 1] == Partition(station.history, station.busyTime, station.totalDowntime, station.restockingTime,
                                           timeIntervals, timePeriod, now)
  {
    statusPartitions := map[];
    for i := 0 to STATION_COUNT
      invariant forall k :: k in statusPartitions <==> 1 <= k <= i
      invariant forall j :: 0 <= j < i ==>
        var station := f.stations[j];
        statusPartitions[j + 1] == Partition(station.history, station.busyTime, station.totalDowntime, station.restockingTime,
                                             timeIntervals, timePeriod, now)
    {
      var station := f.stations[i];
      var stationStatus := StationPartition(station, timeIntervals, timePeriod, now);
      statusPartitions := statusPartitions[station.id := stationStatus];
    }
    assert forall k :: k in statusPartitions <==> k in STATION_IDS;
  }

  /** Undoing a division by the range: a helper that keeps the window's
      arithmetic out of the real-number reasoning. */
  lemma ScaledBy(sum: StatusShares, range: real, shares: StatusShares)
    requires range != 0.0 && shares == sum.Scale(range)
    ensures shares.Total() * range == sum.Total()
  {
  }

  /** Over a named period of positive length, a chronological history of
      the three statuses gives shares that are non-negative and add up to at
      most 1. */
  lemma PartitionOverPeriodIsFraction(history: seq<Event>, busyTime: real, totalDowntime: real, restockingTime: real,
                                      timeIntervals: seq<(real, real)>, timePeriod: Option<string>, now: real)
    requires IsGiven(timePeriod) && PartitionRange(timeIntervals, timePeriod, now) > 0.0
    requires Chronological(history)
    requires KnownStatuses(history)
    ensures KeysKnown(PeriodHistory(history, timePeriod.value, now))
    ensures var shares := Partition(history, busyTime, totalDowntime, restockingTime, timeIntervals, timePeriod, now);
      shares.NonNegative() && shares.Total() <= 1.0
  {
    var window := GetTimePeriodRange(timePeriod.value, now);
    var range := window.1 - window.0;
    var fh := PeriodHistory(history, timePeriod.value, now);
    forall k | 0 <= k < |fh| ensures IsKnownStatus(fh[k].status) {
      assert fh[k] in history;
    }
    FilterKeepsChronological(history, InWindow(window.0, window.1));
    if |fh| >= 2 {
      assert fh[0] in fh && fh[|fh| - 1] in fh;
      assert window.0 <= fh[0].timestamp && fh[|fh| - 1].timestamp <= window.1;
    }
    PeriodPartitionIsFraction(fh, range);
  }

  /** Non-negative times that add up to at most the range become
      non-negative shares that add up to at most 1. */
  lemma SharesOfRange(sum: StatusShares, range: real, shares: StatusShares)
    requires range > 0.0 && sum.NonNegative() && sum.Total() <= range
    requires shares == sum.Scale(range)
    ensures shares.NonNegative() && shares.Total() <= 1.0
  {
    assert shares.NonNegative() by {
      FractionInUnitInterval(sum.operational, range);
      FractionInUnitInterval(sum.down, range);
      FractionInUnitInterval(sum.waitingForRestock, range);
    }
    assert shares.Total() <= 1.0 by {
      ScaledBy(sum, range, shares);
      RatioAtMostOne(shares.Total(), range);
    }
  }

  /** A quantity that, multiplied by a positive range, stays within the
      range is at most 1. */
  lemma RatioAtMostOne(x: real, range: real)
    requires range > 0.0 && x * range <= range
    ensures x <= 1.0
  {
  }
}
