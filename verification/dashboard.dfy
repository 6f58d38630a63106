/** The client-side period filter of d3_dashboard/static/js/dashboard.js
    (TIME_PERIODS and filterDataByTime): it keeps the production-trend
    entries of the selected period, rewrites their running totals in place,
    and recomputes the per-station figures for the period. */
module Dashboard {
  import opened Util
  import opened Simulation
  import opened DataProcessor

  /** The periods a user can select. */
  datatype Period = Day | Week | Month | Quarter | Year
  {
    /** The key of the period in TIME_PERIODS and in the server's period
        names. */
    function Name(): string
    {
      match this
      case Day => "day"
      case Week => "week"
      case Month => "month"
      case Quarter => "quarter"
      case Year => "year"
    }
  }

  /** TIME_PERIODS: the length of each period in seconds. */
  function PeriodDuration(period: Period): (r: real)
    ensures r > 0.0
  {
    match period
    case Day => 24.0 * 3600.0
    case Week => 7.0 * 24.0 * 3600.0
    case Month => 30.0 * 24.0 * 3600.0
    case Quarter => 90.0 * 24.0 * 3600.0
    case Year => 365.0 * 24.0 * 3600.0
  }

  /** The client's period lengths are the server's: a period selected in the
      dashboard covers the same time on both sides. */
  lemma PeriodDurationAgreesWithServer(period: Period)
    ensures period.Name() in PERIOD_LENGTHS
    ensures PeriodDuration(period) == PERIOD_LENGTHS[period.Name()]
  {
  }

  /** A parsed production_trend entry. Only cumulative_production is ever
      written, so the other fields are constants. */
  class TrendEntry {
    const timestamp: real
    const production: int
    const stationId: int
    var cumulativeProduction: int

    constructor (timestamp: real, production: int, cumulativeProduction: int, stationId: int)
      ensures this.timestamp == timestamp && this.production == production
      ensures this.cumulativeProduction == cumulativeProduction && this.stationId == stationId
    {
      this.timestamp := timestamp;
      this.production := production;
      this.cumulativeProduction := cumulativeProduction;
      this.stationId := stationId;
    }
  }

  /** The parsed /api/factory-data payload; `stations` holds the station
      ids of its station list, in order. */
  datatype DashboardData = DashboardData(
    productionTrend: seq<TrendEntry>,
    totalProduction: int,
    faultyProducts: int,
    occupancyRates: map<int, real>,
    waitingTimes: map<int, real>,
    statusPartitions: map<int, StatusShares>,
    stations: seq<int>)

  /** Math.max over the timestamps of a non-empty trend. */
  function MaxTimestamp(trend: seq<TrendEntry>): (r: real)
    requires |trend| > 0
    ensures forall k :: 0 <= k < |trend| ==> trend[k].timestamp <= r
    ensures exists k :: 0 <= k < |trend| && trend[k].timestamp == r
  {
    if |trend| == 1 then trend[0].timestamp
    else
      var rest := MaxTimestamp(trend[1..]);
      assert forall k :: 1 <= k < |trend| ==> trend[k] == trend[1..][k - 1];
      if trend[0].timestamp >= rest then trend[0].timestamp else rest
  }

  function NotBefore(startTime: real): TrendEntry -> bool
  {
    (e: TrendEntry) => e.timestamp >= startTime
  }

  function OfStation(stationId: int): TrendEntry -> bool
  {
    (e: TrendEntry) => e.stationId == stationId
  }

  /** The entries a period keeps: those not earlier than the period's length
      before the latest entry, in their original order. */
  function KeptEntries(trend: seq<TrendEntry>, period: Period): seq<TrendEntry>
    requires |trend| > 0
  {
    Filter(trend, NotBefore(MaxTimestamp(trend) - PeriodDuration(period)))
  }

  /** Every period keeps the latest entry, so the kept trend is never
      empty. */
  lemma KeptEntriesHasLatest(trend: seq<TrendEntry>, period: Period)
    requires |trend| > 0
    ensures exists e :: e in KeptEntries(trend, period) && e.timestamp == MaxTimestamp(trend)
  {
    var k :| 0 <= k < |trend| && trend[k].timestamp == MaxTimestamp(trend);
    FilterMembers(trend, NotBefore(MaxTimestamp(trend) - PeriodDuration(period)));
    assert trend[k] in trend;
  }

  /** On a trend sorted by timestamp (as the server sends it) the kept
      entries are a suffix of the trend. */
  lemma {:induction false} KeptOfSortedIsSuffix(trend: seq<TrendEntry>, startTime: real)
    requires forall i, j :: 0 <= i < j < |trend| ==> trend[i].timestamp <= trend[j].timestamp
    ensures exists j :: 0 <= j <= |trend| && Filter(trend, NotBefore(startTime)) == trend[j..]
  {
    if trend == [] {
      assert Filter(trend, NotBefore(startTime)) == trend[0..];
    } else if trend[0].timestamp >= startTime {
      FilterAll(trend, NotBefore(startTime));
      assert Filter(trend, NotBefore(startTime)) == trend[0..];
    } else {
      KeptOfSortedIsSuffix(trend[1..], startTime);
      var j :| 0 <= j <= |trend[1..]| && Filter(trend[1..], NotBefore(startTime)) == trend[1..][j..];
      assert trend[1..][j..] == trend[j + 1..];
    }
  }

  /** Sum of the production fields of the entries. */
  function ProductionSum(entries: seq<TrendEntry>): int
  {
    if entries == [] then 0 else ProductionSum(entries[..|entries| - 1]) + entries[|entries| - 1].production
  }

  /** With one unit of production per entry, the total is the number of
      entries. */
  lemma {:induction false} UnitProductionSum(entries: seq<TrendEntry>)
    requires forall k :: 0 <= k < |entries| ==> entries[k].production == 1
    ensures ProductionSum(entries) == |entries|
  {
    if entries != [] {
      UnitProductionSum(entries[..|entries| - 1]);
    }
  }

  /** The cumulative loop: writes into each kept entry the sum of the
      productions up to and including it, and returns the final sum. No
      other entry changes. */
  method RewriteCumulative(kept: seq<TrendEntry>) returns (cumulative: int)
    requires Distinct(kept)
    modifies set e | e in kept
    ensures cumulative == ProductionSum(kept)
    ensures forall k :: 0 <= k < |kept| ==> kept[k].cumulativeProduction == ProductionSum(kept[..k + 1])
  {
    cumulative := 0;
    for i := 0 to |kept|
      invariant cumulative == ProductionSum(kept[..i])
      invariant forall k :: 0 <= k < i ==> kept[k].cumulativeProduction == ProductionSum(kept[..k + 1])
    {
      assert kept[..i + 1][..i] == kept[..i];
      cumulative := cumulative + kept[i].production;
      kept[i].cumulativeProduction := cumulative;
    }
    assert kept[..|kept|] == kept;
  }

  /** The groups of a prefix of the kept entries: each station with kept
      entries in the prefix maps to them, in order; no other station has a
      group. */
  ghost predicate GroupsOf(stationEvents: map<int, seq<TrendEntry>>, prefix: seq<TrendEntry>)
  {
    && (forall id :: id in stationEvents ==> stationEvents[id] == Filter(prefix, OfStation(id)) != [])
    && (forall id :: id !in stationEvents ==> Filter(prefix, OfStation(id)) == [])
  }

  /** The grouping loop: the kept entries of each station, in order; a
      station without kept entries gets no group. */
  method GroupByStation(kept: seq<TrendEntry>) returns (stationEvents: map<int, seq<TrendEntry>>)
    ensures forall id :: id in stationEvents ==> stationEvents[id] == Filter(kept, OfStation(id)) != []
    ensures forall id :: id !in stationEvents ==> Filter(kept, OfStation(id)) == []
  {
    stationEvents := map[];
    for i := 0 to |kept|
      invariant GroupsOf(stationEvents, kept[..i])
    {
      var event := kept[i];
      var group := if event.stationId in stationEvents then stationEvents[event.stationId] else [];
      GroupStep(stationEvents, kept[..i], event);
      stationEvents := stationEvents[event.stationId := group + [event]];
      assert kept[..i + 1] == kept[..i] + [event];
    }
    assert kept[..|kept|] == kept;
  }

  /** Pushing an entry onto its station's group (creating the group if
      needed) gives the groups of the longer prefix. */
  lemma GroupStep(stationEvents: map<int, seq<TrendEntry>>, prefix: seq<TrendEntry>, event: TrendEntry)
    requires GroupsOf(stationEvents, prefix)
    ensures GroupsOf(stationEvents[event.stationId :=
      (if event.stationId in stationEvents then stationEvents[event.stationId] else []) + [event]], prefix + [event])
  {
    var after := stationEvents[event.stationId :=
      (if event.stationId in stationEvents then stationEvents[event.stationId] else []) + [event]];
    forall id | id in after
      ensures after[id] == Filter(prefix + [event], OfStation(id)) != []
    {
      FilterAppend(prefix, [event], OfStation(id));
      if id == event.stationId {
        assert Filter([event], OfStation(id)) == [event];
      } else {
        assert Filter([event], OfStation(id)) == [];
      }
    }
    forall id | id !in after
      ensures Filter(prefix + [event], OfStation(id)) == []
    {
      FilterAppend(prefix, [event], OfStation(id));
      assert Filter([event], OfStation(id)) == [];
    }
  }

  /** Math.round(faulty * (kept / total)): the faulty count scaled to the
      kept share of the trend, rounded half up. */
  function ScaledFaulty(faulty: int, keptCount: nat, totalCount: nat): (r: int)
    requires totalCount > 0 && keptCount <= totalCount
    ensures faulty >= 0 ==> 0 <= r <= faulty
    ensures keptCount == totalCount ==> r == faulty
  {
    var scaled := (faulty as real) * ((keptCount as real) / (totalCount as real));
    ScaledWithin(faulty as real, keptCount, totalCount);
    RoundedWithin(scaled, faulty);
    RoundHalfUp(scaled)
  }

  /** Math.round: the nearest integer, halves rounded up. */
  function RoundHalfUp(x: real): (r: int)
    ensures x - 0.5 < r as real <= x + 0.5
  {
    (x + 0.5).Floor
  }

  /** Rounding a value between 0 and an integer bound stays between them,
      and rounding an integer gives it back. */
  lemma RoundedWithin(x: real, bound: int)
    ensures 0.0 <= x <= bound as real ==> 0 <= RoundHalfUp(x) <= bound
    ensures x == bound as real ==> RoundHalfUp(x) == bound
  {
  }

  /** A non-negative amount scaled by a share in [0, 1] stays between 0 and
      the amount, and scaling by the whole leaves it unchanged. */
  lemma ScaledWithin(amount: real, keptCount: nat, totalCount: nat)
    requires totalCount > 0 && keptCount <= totalCount
    ensures amount >= 0.0 ==> 0.0 <= amount * ((keptCount as real) / (totalCount as real)) <= amount
    ensures keptCount == totalCount ==> amount * ((keptCount as real) / (totalCount as real)) == amount
  {
    var share := (keptCount as real) / (totalCount as real);
    assert 0.0 <= share <= 1.0;
    if amount >= 0.0 {
      assert amount * share <= amount * 1.0;
    }
  }

  /** Occupancy over a period in which a station has `busyEntries` kept
      entries, each counted as one busy hour. */
  function Occupancy(busyEntries: nat, duration: real): real
    requires duration > 0.0
  {
    (busyEntries as real) * HOUR / duration
  }

  /** The occupancy is the share of the period covered by the entries' busy
      hours: it is never negative, times the period it gives the busy time,
      and it stays at most 1 exactly when the busy hours fit in the period. */
  lemma OccupancyIsBusyShare(busyEntries: nat, duration: real)
    requires duration > 0.0
    ensures Occupancy(busyEntries, duration) >= 0.0
    ensures Occupancy(busyEntries, duration) * duration == (busyEntries as real) * HOUR
    ensures Occupancy(busyEntries, duration) <= 1.0 <==> (busyEntries as real) * HOUR <= duration
  {
  }

  /** The occupancy figure of a station from its group of kept entries. */
  function GroupOccupancy(stationEvents: map<int, seq<TrendEntry>>, stationId: int, duration: real): real
    requires duration > 0.0
  {
    var events := if stationId in stationEvents then stationEvents[stationId] else [];
    Occupancy(|events|, duration)
  }

  /** The per-station loop: one figure of each kind for every listed
      station; occupancy from the station's kept entries, the input's
      waiting time and status partition, or 0 and all-zero shares when the
      input has none for the station. */
  method StationFigures(stations: seq<int>, stationEvents: map<int, seq<TrendEntry>>, duration: real,
                        waitingTimes: map<int, real>, statusPartitions: map<int, StatusShares>)
    returns (occupancy: map<int, real>, waiting: map<int, real>, partitions: map<int, StatusShares>)
    requires duration > 0.0
    ensures forall id :: id in occupancy <==> id in stations
    ensures forall id :: id in waiting <==> id in stations
    ensures forall id :: id in partitions <==> id in stations
    ensures forall id :: id in occupancy ==> occupancy[id] == GroupOccupancy(stationEvents, id, duration)
    ensures forall id :: id in waiting ==> waiting[id] == (if id in waitingTimes then waitingTimes[id] else 0.0)
    ensures forall id :: id in partitions ==>
      partitions[id] == (if id in statusPartitions then statusPartitions[id] else NO_SHARES)
  {
    occupancy, waiting, partitions := map[], map[], map[];
    for i := 0 to |stations|
      invariant forall id :: id in occupancy <==> id in stations[..i]
      invariant forall id :: id in waiting <==> id in stations[..i]
      invariant forall id :: id in partitions <==> id in stations[..i]
      invariant forall id :: id in occupancy ==> occupancy[id] == GroupOccupancy(stationEvents, id, duration)
      invariant forall id :: id in waiting ==> waiting[id] == (if id in waitingTimes then waitingTimes[id] else 0.0)
      invariant forall id :: id in partitions ==>
        partitions[id] == (if id in statusPartitions then statusPartitions[id] else NO_SHARES)
    {
      var stationId := stations[i];
      assert stations[..i + 1] == stations[..i] + [stationId];
      var events := if stationId in stationEvents then stationEvents[stationId] else [];
      occupancy := occupancy[stationId := Occupancy(|events|, duration)];
      waiting := waiting[stationId := if stationId in waitingTimes then waitingTimes[stationId] else 0.0];
      partitions := partitions[stationId := if stationId in statusPartitions then statusPartitions[stationId] else NO_SHARES];
    }
    assert stations[..|stations|] == stations;
  }

  /** filterDataByTime for the selected period. Missing data or an empty
      trend is returned as is; otherwise the kept entries get their running
      totals rewritten in place and the result carries them with the
      period's figures. The trend entries must be distinct objects, as they
      are after parsing the payload. */
  method FilterDataByTime(data: Option<DashboardData>, period: Period) returns (result: Option<DashboardData>)
    requires data.Some? ==> Distinct(data.value.productionTrend)
    modifies if data.Some? then set e | e in data.value.productionTrend else {}
    ensures data.None? || |data.value.productionTrend| == 0 ==> result == data
    ensures data.Some? && |data.value.productionTrend| > 0 ==>
      var kept := KeptEntries(data.value.productionTrend, period);
      && result.Some?
      && result.value.productionTrend == kept
      && result.value.totalProduction == ProductionSum(kept)
      && (forall k :: 0 <= k < |kept| ==> kept[k].cumulativeProduction == ProductionSum(kept[..k + 1]))
      && result.value.faultyProducts == ScaledFaulty(data.value.faultyProducts, |kept|, |data.value.productionTrend|)
      && result.value.stations == data.value.stations
    ensures data.Some? && |data.value.productionTrend| > 0 ==>
      var kept := KeptEntries(data.value.productionTrend, period);
      && result.Some?
      && (forall id :: id in result.value.occupancyRates <==> id in data.value.stations)
      && (forall id :: id in result.value.occupancyRates ==>
            result.value.occupancyRates[id] == Occupancy(|Filter(kept, OfStation(id))|, PeriodDuration(period)))
    ensures data.Some? && |data.value.productionTrend| > 0 ==>
      var input := data.value;
      && result.Some?
      && (forall id :: id in result.value.waitingTimes <==> id in input.stations)
      && (forall id :: id in result.value.waitingTimes ==>
            result.value.waitingTimes[id] == (if id in input.waitingTimes then input.waitingTimes[id] else 0.0))
      && (forall id :: id in result.value.statusPartitions <==> id in input.stations)
      && (forall id :: id in result.value.statusPartitions ==>
            result.value.statusPartitions[id] == (if id in input.statusPartitions then input.statusPartitions[id] else NO_SHARES))
    ensures data.Some? ==> forall e :: e in data.value.productionTrend && e !in result.value.productionTrend ==>
      e.cumulativeProduction == old(e.cumulativeProduction)
  {
    if data.None? || |data.value.productionTrend| == 0 {
      return data;
    }
    var input := data.value;
    var latestTime := MaxTimestamp(input.productionTrend);
    var periodDuration := PeriodDuration(period);
    var startTime := latestTime - periodDuration;
    var filteredTrend := Filter(input.productionTrend, NotBefore(startTime));
    assert filteredTrend == KeptEntries(input.productionTrend, period);
    FilterKeepsDistinct(input.productionTrend, NotBefore(startTime));
    FilterMembers(input.productionTrend, NotBefore(startTime));

    var stationEvents := GroupByStation(filteredTrend);
    var occupancy, waiting, partitions :=
      StationFigures(input.stations, stationEvents, periodDuration, input.waitingTimes, input.statusPartitions);
    forall id | id in occupancy
      ensures occupancy[id] == Occupancy(|Filter(filteredTrend, OfStation(id))|, periodDuration)
    {
    }

    var faulty := ScaledFaulty(input.faultyProducts, |filteredTrend|, |input.productionTrend|);
    var cumulative := RewriteCumulative(filteredTrend);
    result := Some(DashboardData(filteredTrend, cumulative, faulty, occupancy, waiting, partitions, input.stations));
  }
}
