/** The dashboard payload of d3_dashboard/app.py (process_factory_data):
    the production trend rebuilt from the stations' Operational records,
    and per-station occupancy, average waiting time and status counts
    taken from the state the simulation leaves behind. */
module App {
  import opened Util
  import opened Simulation

  /** An entry of production_events: an Operational record of a station. */
  datatype ProductionEvent = ProductionEvent(timestamp: real, stationId: int)

  /** An entry of production_trend. */
  datatype TrendEntry = TrendEntry(timestamp: real, production: int, cumulativeProduction: int, stationId: int)

  /** The dictionary process_factory_data returns; `stations` lists the
      station ids in the factory's order. */
  datatype FactoryData = FactoryData(
    totalProduction: nat,
    faultyProducts: nat,
    productionTrend: seq<TrendEntry>,
    occupancyRates: map<int, real>,
    waitingTimes: map<int, real>,
    statusPartitions: map<int, StatusShares>,
    stations: seq<int>)

  function IsOperational(): Event -> bool
  {
    (e: Event) => e.status == Operational
  }

  /** The production events one station contributes: one per Operational
      record of its history, in the order of the history. */
  function StationEvents(id: int, h: seq<Event>): (r: seq<ProductionEvent>)
    ensures forall k :: 0 <= k < |r| ==> r[k].stationId == id
    decreases |h|
  {
    if h == [] then []
    else
      var last := h[|h| - 1];
      StationEvents(id, h[..|h| - 1]) + (if last.status == Operational then [ProductionEvent(last.timestamp, id)] else [])
  }

  /** The Operational records of `h`, one production event each. */
  function EventsOf(id: int, ops: seq<Event>): (r: seq<ProductionEvent>)
    ensures |r| == |ops|
    ensures forall k :: 0 <= k < |r| ==> r[k] == ProductionEvent(ops[k].timestamp, id)
  {
    seq(|ops|, k requires 0 <= k < |ops| => ProductionEvent(ops[k].timestamp, id))
  }

  /** A station contributes exactly its Operational records, in order, and
      nothing for its other records. */
  lemma {:induction false} StationEventsAreOperationalRecords(id: int, h: seq<Event>)
    ensures StationEvents(id, h) == EventsOf(id, Filter(h, IsOperational()))
    decreases |h|
  {
    if h != [] {
      var init := h[..|h| - 1];
      var last := h[|h| - 1];
      StationEventsAreOperationalRecords(id, init);
      assert h == init + [last];
      FilterAppend(init, [last], IsOperational());
      assert Filter([last], IsOperational()) == if last.status == Operational then [last] else [];
    }
  }

  /** production_events: the events of every station, station by station. */
  function ProductionEventsOf(stations: seq<Station>): (r: seq<ProductionEvent>)
    reads stations
    decreases |stations|
  {
    if stations == [] then []
    else
      var last := stations[|stations| - 1];
      ProductionEventsOf(stations[..|stations| - 1]) + StationEvents(last.id, last.history)
  }

  /** The number of production events is the number of Operational records
      over all stations. */
  function OperationalCount(stations: seq<Station>): nat
    reads stations
    decreases |stations|
  {
    if stations == [] then 0
    else
      var last := stations[|stations| - 1];
      OperationalCount(stations[..|stations| - 1]) + |Filter(last.history, IsOperational())|
  }

  lemma {:induction false} ProductionEventsCount(stations: seq<Station>)
    ensures |ProductionEventsOf(stations)| == OperationalCount(stations)
    decreases |stations|
  {
    if stations != [] {
      var last := stations[|stations| - 1];
      ProductionEventsCount(stations[..|stations| - 1]);
      StationEventsAreOperationalRecords(last.id, last.history);
    }
  }

  /** The nested loops that collect production_events. */
  method CollectProductionEvents(stations: seq<Station>) returns (events: seq<ProductionEvent>)
    ensures events == ProductionEventsOf(stations)
  {
    events := [];
    for i := 0 to |stations|
      invariant events == ProductionEventsOf(stations[..i])
    {
      var station := stations[i];
      assert stations[..i + 1][..i] == stations[..i];
      for k := 0 to |station.history|
        invariant events == ProductionEventsOf(stations[..i]) + StationEvents(station.id, station.history[..k])
      {
        var event := station.history[k];
        assert station.history[..k + 1][..k] == station.history[..k];
        if event.status == Operational {
          events := events + [ProductionEvent(event.timestamp, station.id)];
        }
      }
      assert station.history[..|station.history|] == station.history;
    }
    assert stations[..|stations|] == stations;
  }

  /** Timestamps never decrease along the sequence. */
  ghost predicate SortedByTimestamp(s: seq<ProductionEvent>)
  {
    forall i, j :: 0 <= i < j < |s| ==> s[i].timestamp <= s[j].timestamp
  }

  function AtTime(t: real): ProductionEvent -> bool
  {
    (e: ProductionEvent) => e.timestamp == t
  }

  /** Inserts `x` into a sequence before the first event that is not
      earlier than it. */
  function InsertByTimestamp(x: ProductionEvent, s: seq<ProductionEvent>): seq<ProductionEvent>
  {
    if s == [] || x.timestamp <= s[0].timestamp then [x] + s
    else [s[0]] + InsertByTimestamp(x, s[1..])
  }

  /** Inserting adds `x` once and keeps every other event. */
  lemma {:induction false} InsertAddsOne(x: ProductionEvent, s: seq<ProductionEvent>)
    ensures multiset(InsertByTimestamp(x, s)) == multiset(s) + multiset{x}
  {
    if s != [] && s[0].timestamp < x.timestamp {
      InsertAddsOne(x, s[1..]);
      assert s == [s[0]] + s[1..];
    }
  }

  /** Inserting into a sorted sequence keeps it sorted. */
  lemma {:induction false} InsertKeepsSorted(x: ProductionEvent, s: seq<ProductionEvent>)
    requires SortedByTimestamp(s)
    ensures SortedByTimestamp(InsertByTimestamp(x, s))
  {
    if s != [] && s[0].timestamp < x.timestamp {
      var rest := InsertByTimestamp(x, s[1..]);
      InsertKeepsSorted(x, s[1..]);
      InsertKeepsLowerBound(x, s[1..], s[0].timestamp);
      var r := [s[0]] + rest;
      assert InsertByTimestamp(x, s) == r;
      forall i, j | 0 <= i < j < |r|
        ensures r[i].timestamp <= r[j].timestamp
      {
        if i > 0 {
          assert r[i] == rest[i - 1] && r[j] == rest[j - 1];
        } else {
          assert r[j] == rest[j - 1];
        }
      }
    }
  }

  /** A bound below `x` and below every event stays below every event after
      the insertion. */
  lemma {:induction false} InsertKeepsLowerBound(x: ProductionEvent, s: seq<ProductionEvent>, bound: real)
    requires bound <= x.timestamp
    requires forall k :: 0 <= k < |s| ==> bound <= s[k].timestamp
    ensures forall k :: 0 <= k < |InsertByTimestamp(x, s)| ==> bound <= InsertByTimestamp(x, s)[k].timestamp
  {
    if s != [] && s[0].timestamp < x.timestamp {
      InsertKeepsLowerBound(x, s[1..], bound);
    }
  }

  /** The list.sort(key=timestamp) of production_events: sorted by
      timestamp and a permutation of its input (stability is proved in
      SortIsStable). */
  function SortByTimestamp(s: seq<ProductionEvent>): (r: seq<ProductionEvent>)
    ensures SortedByTimestamp(r)
    ensures multiset(r) == multiset(s)
  {
    if s == [] then []
    else
      assert s == [s[0]] + s[1..];
      var rest := SortByTimestamp(s[1..]);
      InsertKeepsSorted(s[0], rest);
      InsertAddsOne(s[0], rest);
      InsertByTimestamp(s[0], rest)
  }

  /** Inserting adds `x` in front of the events with its timestamp, and
      changes nothing for the other timestamps. */
  lemma {:induction false} InsertKeepsTies(x: ProductionEvent, s: seq<ProductionEvent>, t: real)
    ensures Filter(InsertByTimestamp(x, s), AtTime(t)) == (if x.timestamp == t then [x] else []) + Filter(s, AtTime(t))
  {
    var mine := if x.timestamp == t then [x] else [];
    if s == [] || x.timestamp <= s[0].timestamp {
      assert InsertByTimestamp(x, s) == [x] + s;
      FilterCons(x, s, AtTime(t));
    } else {
      var head := if s[0].timestamp == t then [s[0]] else [];
      InsertKeepsTies(x, s[1..], t);
      var rest := InsertByTimestamp(x, s[1..]);
      assert InsertByTimestamp(x, s) == [s[0]] + rest;
      FilterCons(s[0], rest, AtTime(t));
      assert s == [s[0]] + s[1..];
      FilterCons(s[0], s[1..], AtTime(t));
      calc {
        Filter(InsertByTimestamp(x, s), AtTime(t));
        head + Filter(rest, AtTime(t));
        head + (mine + Filter(s[1..], AtTime(t)));
        { assert head == [] || mine == []; }
        mine + (head + Filter(s[1..], AtTime(t)));
        mine + Filter(s, AtTime(t));
      }
    }
  }

  /** The sort is stable: for every timestamp, the events with that
      timestamp keep their relative order (ties keep station order). */
  lemma {:induction false} SortIsStable(s: seq<ProductionEvent>, t: real)
    ensures Filter(SortByTimestamp(s), AtTime(t)) == Filter(s, AtTime(t))
  {
    if s != [] {
      SortIsStable(s[1..], t);
      InsertKeepsTies(s[0], SortByTimestamp(s[1..]), t);
    }
  }

  /** The trend built from the sorted events: entry k carries event k and a
      production of 1, and its cumulative production is the running sum of
      the productions up to and including it. */
  function TrendOf(events: seq<ProductionEvent>): (r: seq<TrendEntry>)
    ensures |r| == |events|
    ensures forall k :: 0 <= k < |r| ==>
      r[k].timestamp == events[k].timestamp && r[k].stationId == events[k].stationId && r[k].production == 1
    ensures forall k :: 0 <= k < |r| ==> r[k].cumulativeProduction == ProductionSum(r[..k + 1])
  {
    var r := seq(|events|, k requires 0 <= k < |events| => TrendEntry(events[k].timestamp, 1, k + 1, events[k].stationId));
    CumulativeIsRunningSum(r);
    r
  }

  /** The loop that threads cumulative_production through the sorted
      events. */
  method BuildTrend(events: seq<ProductionEvent>) returns (trend: seq<TrendEntry>)
    ensures trend == TrendOf(events)
  {
    trend := [];
    var cumulativeProduction := 0;
    for i := 0 to |events|
      invariant |trend| == i && cumulativeProduction == i
      invariant forall k :: 0 <= k < i ==>
        trend[k] == TrendEntry(events[k].timestamp, 1, k + 1, events[k].stationId)
    {
      var event := events[i];
      cumulativeProduction := cumulativeProduction + 1;
      trend := trend + [TrendEntry(event.timestamp, 1, cumulativeProduction, event.stationId)];
    }
  }

  /** Sum of the production fields of a trend. */
  function ProductionSum(trend: seq<TrendEntry>): int
  {
    if trend == [] then 0 else ProductionSum(trend[..|trend| - 1]) + trend[|trend| - 1].production
  }

  /** When every entry has production 1 and the k-th (from 0) has cumulative
      production k + 1, each cumulative production is the running sum. */
  lemma CumulativeIsRunningSum(trend: seq<TrendEntry>)
    requires forall k :: 0 <= k < |trend| ==> trend[k].production == 1 && trend[k].cumulativeProduction == k + 1
    ensures forall k :: 0 <= k < |trend| ==> trend[k].cumulativeProduction == ProductionSum(trend[..k + 1])
  {
    forall k | 0 <= k < |trend|
      ensures trend[k].cumulativeProduction == ProductionSum(trend[..k + 1])
    {
      UnitProductionSum(trend, k + 1);
    }
  }

  lemma {:induction false} UnitProductionSum(trend: seq<TrendEntry>, n: nat)
    requires n <= |trend|
    requires forall k :: 0 <= k < |trend| ==> trend[k].production == 1
    ensures ProductionSum(trend[..n]) == n
  {
    if n > 0 {
      UnitProductionSum(trend, n - 1);
      assert trend[..n][..n - 1] == trend[..n - 1];
    }
  }

  /** status_counts of one history: how many records carry each status. */
  function StatusCounts(h: seq<Event>): StatusShares
    requires KnownStatuses(h)
  {
    if h == [] then NO_SHARES else StatusCounts(h[..|h| - 1]).Add(h[|h| - 1].status, 1.0)
  }

  function HasStatus(status: Status): Event -> bool
  {
    (e: Event) => e.status == status
  }

  /** The three counts add up to the length of the history and are never
      negative. */
  lemma {:induction false} StatusCountsTotal(h: seq<Event>)
    requires KnownStatuses(h)
    ensures StatusCounts(h).Total() == |h| as real
    ensures StatusCounts(h).NonNegative()
  {
    if h != [] {
      StatusCountsTotal(h[..|h| - 1]);
    }
  }

  /** Each count is the number of records with that status. */
  lemma {:induction false} StatusCountsCount(h: seq<Event>, status: Status)
    requires KnownStatuses(h)
    requires IsKnownStatus(status)
    ensures StatusCounts(h).Get(status) == |Filter(h, HasStatus(status))| as real
  {
    if h != [] {
      var init := h[..|h| - 1];
      var last := h[|h| - 1];
      StatusCountsCount(init, status);
      var before := StatusCounts(init);
      var n := |Filter(init, HasStatus(status))|;
      assert StatusCounts(h) == before.Add(last.status, 1.0);
      CountStep(before, last.status, status);
      FilterStep(h, status);
      if last.status == status {
        assert |Filter(h, HasStatus(status))| == n + 1;
        assert (n + 1) as real == n as real + 1.0;
      } else {
        assert |Filter(h, HasStatus(status))| == n;
      }
    }
  }

  /** Counting one more record adds 1 to its own status and nothing to the
      others. */
  lemma CountStep(before: StatusShares, recorded: Status, status: Status)
    requires IsKnownStatus(recorded) && IsKnownStatus(status)
    ensures before.Add(recorded, 1.0).Get(status) == before.Get(status) + (if recorded == status then 1.0 else 0.0)
  {
  }

  /** The last record adds one to the records of its own status. */
  lemma FilterStep(h: seq<Event>, status: Status)
    requires |h| > 0
    ensures |Filter(h, HasStatus(status))| ==
      |Filter(h[..|h| - 1], HasStatus(status))| + (if h[|h| - 1].status == status then 1 else 0)
  {
    var last := h[|h| - 1];
    assert h == h[..|h| - 1] + [last];
    FilterAppend(h[..|h| - 1], [last], HasStatus(status));
    assert Filter([last], HasStatus(status)) == if last.status == status then [last] else [];
  }

  /** The inner loop of the status partition: counting the records. */
  method CountStatuses(h: seq<Event>) returns (counts: StatusShares)
    requires KnownStatuses(h)
    ensures counts == StatusCounts(h)
  {
    counts := NO_SHARES;
    for k := 0 to |h|
      invariant counts == StatusCounts(h[..k])
    {
      assert h[..k + 1][..k] == h[..k];
      counts := counts.Add(h[k].status, 1.0);
    }
    assert h[..|h|] == h;
  }

  /** The status partition of one station: each count divided by the number
      of records, or all zero for an empty history. */
  function CountShares(h: seq<Event>): StatusShares
    requires KnownStatuses(h)
  {
    StatusCounts(h).Fractions()
  }

  /** The fractions of a non-empty history add up to 1 and each is the share
      of the records with that status; an empty history gives all zeros. */
  lemma CountSharesAreFractions(h: seq<Event>, status: Status)
    requires KnownStatuses(h)
    requires IsKnownStatus(status)
    ensures h == [] ==> CountShares(h) == NO_SHARES
    ensures h != [] ==> CountShares(h).Total() == 1.0
    ensures h != [] ==> CountShares(h).Get(status) == (|Filter(h, HasStatus(status))| as real) / (|h| as real)
    ensures CountShares(h).NonNegative()
  {
    StatusCountsTotal(h);
    StatusCountsCount(h, status);
  }

  /** waiting_times[s]: the station's waiting time per breakdown, in hours;
      0 for a station that never broke down. */
  function WaitPerBreakdown(totalWaitingTime: real, numBreakdowns: nat): (r: real)
    ensures numBreakdowns == 0 ==> r == 0.0
    ensures numBreakdowns > 0 ==> r * (numBreakdowns as real) * HOUR == totalWaitingTime
    ensures totalWaitingTime >= 0.0 ==> r >= 0.0
  {
    if numBreakdowns > 0 then totalWaitingTime / (numBreakdowns as real) / HOUR else 0.0
  }

  /** process_factory_data over a factory whose stations have recorded only
      the three known statuses (another status would be a KeyError in the
      counting loop). */
  method ProcessFactoryData(f: Factory) returns (data: FactoryData)
    requires f.Numbered() && f.RecordsKnownStatuses()
    ensures data.totalProduction == f.totalProduced && data.faultyProducts == f.faultyProducts
    ensures data.productionTrend == TrendOf(SortByTimestamp(ProductionEventsOf(f.stations)))
    ensures data.occupancyRates.Keys == STATION_IDS && data.waitingTimes.Keys == STATION_IDS
    ensures data.statusPartitions.Keys == STATION_IDS
    ensures forall i :: 0 <= i < STATION_COUNT ==> data.occupancyRates[i + 1] == f.stations[i].busyTime / YEAR
    ensures forall i :: 0 <= i < STATION_COUNT ==>
      data.waitingTimes[i + 1] == WaitPerBreakdown(f.stations[i].totalWaitingTime, f.stations[i].numBreakdowns)
    ensures forall i :: 0 <= i < STATION_COUNT ==> data.statusPartitions[i + 1] == CountShares(f.stations[i].history)
    ensures data.stations == [1, 2, 3, 4, 5, 6]
  {
    var stationIds := StationIds(f.stations);
    assert stationIds == [1, 2, 3, 4, 5, 6];
    var trend := ProductionTrend(f.stations);
    var occupancyRates, waitingTimes, statusPartitions := StationFigures(f);

    data := FactoryData(f.totalProduced, f.faultyProducts, trend, occupancyRates, waitingTimes, statusPartitions, stationIds);
  }

  /** The three per-station loops, in the order the source runs them. */
  method StationFigures(f: Factory)
    returns (occupancyRates: map<int, real>, waitingTimes: map<int, real>, statusPartitions: map<int, StatusShares>)
    requires f.Numbered() && f.RecordsKnownStatuses()
    ensures occupancyRates.Keys == STATION_IDS && waitingTimes.Keys == STATION_IDS
    ensures statusPartitions.Keys == STATION_IDS
    ensures forall i :: 0 <= i < STATION_COUNT ==> occupancyRates[i + 1] == f.stations[i].busyTime / YEAR
    ensures forall i :: 0 <= i < STATION_COUNT ==>
      waitingTimes[i + 1] == WaitPerBreakdown(f.stations[i].totalWaitingTime, f.stations[i].numBreakdowns)
    ensures forall i :: 0 <= i < STATION_COUNT ==> statusPartitions[i + 1] == CountShares(f.stations[i].history)
  {
    occupancyRates := OccupancyRates(f);
    waitingTimes := WaitingTimes(f);
    statusPartitions := StatusPartitions(f);
  }

  /** production_trend: the Operational records of all stations, sorted by
      timestamp, each counted once in the running total. */
  method ProductionTrend(stations: seq<Station>) returns (trend: seq<TrendEntry>)
    ensures trend == TrendOf(SortByTimestamp(ProductionEventsOf(stations)))
  {
    var events := CollectProductionEvents(stations);
    events := SortByTimestamp(events);
    trend := BuildTrend(events);
  }

  /** The occupancy_rates loop: busy time over the simulated year. */
  method OccupancyRates(f: Factory) returns (occupancyRates: map<int, real>)
    requires f.Numbered()
    ensures occupancyRates.Keys == STATION_IDS
    ensures forall i :: 0 <= i < STATION_COUNT ==> occupancyRates[i + 1] == f.stations[i].busyTime / YEAR
  {
    occupancyRates := map[];
    for i := 0 to STATION_COUNT
      invariant forall k :: k in occupancyRates <==> 1 <= k <= i
      invariant forall j :: 0 <= j < i ==> occupancyRates[j + 1] == f.stations[j].busyTime / YEAR
    {
      var station := f.stations[i];
      occupancyRates := occupancyRates[station.id := station.busyTime / YEAR];
    }
    assert forall k :: k in occupancyRates <==> k in STATION_IDS;
  }

  /** The waiting_times loop. */
  method WaitingTimes(f: Factory) returns (waitingTimes: map<int, real>)
    requires f.Numbered()
    ensures waitingTimes.Keys == STATION_IDS
    ensures forall i :: 0 <= i < STATION_COUNT ==>
      waitingTimes[i + 1] == WaitPerBreakdown(f.stations[i].totalWaitingTime, f.stations[i].numBreakdowns)
  {
    waitingTimes := map[];
    for i := 0 to STATION_COUNT
      invariant forall k :: k in waitingTimes <==> 1 <= k <= i
      invariant forall j :: 0 <= j < i ==>
        waitingTimes[j + 1] == WaitPerBreakdown(f.stations[j].totalWaitingTime, f.stations[j].numBreakdowns)
    {
      var station := f.stations[i];
      if station.numBreakdowns > 0 {
        waitingTimes := waitingTimes[station.id := station.totalWaitingTime / (station.numBreakdowns as real) / HOUR];
      } else {
        waitingTimes := waitingTimes[station.id := 0.0];
      }
    }
    assert forall k :: k in waitingTimes <==> k in STATION_IDS;
  }

  /** The status_partitions loop. */
  method StatusPartitions(f: Factory) returns (statusPartitions: map<int, StatusShares>)
    requires f.Numbered() && f.RecordsKnownStatuses()
    ensures statusPartitions.Keys == STATION_IDS
    ensures forall i :: 0 <= i < STATION_COUNT ==> statusPartitions[i + 1] == CountShares(f.stations[i].history)
  {
    statusPartitions := map[];
    for i := 0 to STATION_COUNT
      invariant forall k :: k in statusPartitions <==> 1 <= k <= i
      invariant forall j :: 0 <= j < i ==> statusPartitions[j + 1] == CountShares(f.stations[j].history)
    {
      var station := f.stations[i];
      assert station in f.stations;
      var statusCounts := CountStatuses(station.history);
      var totalEvents := statusCounts.Total();
      if totalEvents > 0.0 {
        statusPartitions := statusPartitions[station.id := statusCounts.Scale(totalEvents)];
      } else {
        statusPartitions := statusPartitions[station.id := NO_SHARES];
      }
    }
    assert forall k :: k in statusPartitions <==> k in STATION_IDS;
  }

  /** The stations list: the ids in the factory's order. */
  method StationIds(stations: seq<Station>) returns (ids: seq<int>)
    ensures |ids| == |stations| && forall i :: 0 <= i < |stations| ==> ids[i] == stations[i].id
  {
    ids := [];
    for i := 0 to |stations|
      invariant |ids| == i && forall k :: 0 <= k < i ==> ids[k] == stations[k].id
    {
      ids := ids + [stations[i].id];
    }
  }
}
