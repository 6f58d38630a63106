/** The deterministic bookkeeping of the factory simulation (main.py): the
    state of a Station and of the Factory, updated one scheduler step at a
    time. The discrete-event kernel that decides WHEN each step runs is not
    part of this model: the current simulated time `now`, every random draw
    and every grant by a resource or a bin arrive as parameters, and what
    the kernel guarantees about them (the clock never runs backwards, a bin
    only hands out an item it holds) is stated as a precondition. */
module Simulation {
  import opened Util

  // Time scaling constants, in simulated seconds.
  const HOUR: real := 3600.0
  const DAY: real := 24.0 * HOUR
  const WEEK: real := 7.0 * DAY
  const MONTH: real := 30.0 * DAY
  const QUARTER: real := 90.0 * DAY
  const YEAR: real := 365.0 * DAY

  /** A status name other than the three a station records. */
  type OtherName = name: string | name != "Operational" && name != "Down" && name != "Waiting for restock"
    witness "Waiting"

  /** A status as recorded in a history: the three a station ever records,
      and `Other` for any other status name a report may compare against, so
      that every status name has exactly one value. */
  datatype Status = Operational | Down | WaitingForRestock | Other(name: OtherName)
  {
    /** The spelling of the status in the reports. */
    function Name(): string
    {
      match this
      case Operational => "Operational"
      case Down => "Down"
      case WaitingForRestock => "Waiting for restock"
      case Other(name) => name
    }
  }

  /** Distinct statuses have distinct names, so comparing names (as the
      reports do) is comparing statuses. */
  lemma NameIsInjective(a: Status, b: Status)
    ensures a.Name() == b.Name() <==> a == b
  {
  }

  predicate IsKnownStatus(status: Status)
  {
    !status.Other?
  }

  /** Every record of the history has one of the three statuses. */
  predicate KnownStatuses(h: seq<Event>)
  {
    forall k :: 0 <= k < |h| ==> IsKnownStatus(h[k].status)
  }

  const INITIAL_BIN_LEVEL: int := 25
  const RESTOCK_THRESHOLD: int := 5
  const RESTOCK_QUANTITY: int := 25
  /** A failure draw is made once every this many processed items. */
  const CHECK_INTERVAL: int := 5
  const FAULTY_PROBABILITY: real := 0.05
  const STATION_COUNT: int := 6
  /** The ids of the stations, which every report is keyed by. */
  const STATION_IDS: set<int> := {1, 2, 3, 4, 5, 6}
  const FAIL_PROBS: seq<real> := [0.02, 0.01, 0.05, 0.15, 0.07, 0.06]

  /** Time per status, or share of time per status, of one station: the
      reports' dictionary with exactly the three status keys. */
  datatype StatusShares = StatusShares(operational: real, down: real, waitingForRestock: real)
  {
    function Get(status: Status): real
      requires IsKnownStatus(status)
    {
      match status
      case Operational => operational
      case Down => down
      case WaitingForRestock => waitingForRestock
    }

    predicate NonNegative()
    {
      operational >= 0.0 && down >= 0.0 && waitingForRestock >= 0.0
    }

    function Total(): real
    {
      operational + down + waitingForRestock
    }

    /** `self[status] += amount`. */
    function Add(status: Status, amount: real): (r: StatusShares)
      requires IsKnownStatus(status)
      ensures r.Get(status) == Get(status) + amount
      ensures forall other :: IsKnownStatus(other) && other != status ==> r.Get(other) == Get(other)
      ensures r.Total() == Total() + amount
      ensures NonNegative() && amount >= 0.0 ==> r.NonNegative()
    {
      StatusShares(operational + (if status.Operational? then amount else 0.0),
                   down + (if status.Down? then amount else 0.0),
                   waitingForRestock + (if status.WaitingForRestock? then amount else 0.0))
    }

    /** Every entry divided by the total, so that the shares become
        fractions; all zero when the total is not positive. */
    function Fractions(): (r: StatusShares)
      ensures Total() > 0.0 ==> r.Total() == 1.0
      ensures Total() > 0.0 ==> forall status :: IsKnownStatus(status) ==> r.Get(status) == Get(status) / Total()
      ensures Total() <= 0.0 ==> r == StatusShares(0.0, 0.0, 0.0)
      ensures NonNegative() ==> r.NonNegative()
    {
      if Total() > 0.0 then
        var shares := Scale(Total());
        ScaledByTotalSumsToOne(this, Total(), shares);
        if NonNegative() then ScaleKeepsNonNegative(this, Total(), shares); shares else shares
      else StatusShares(0.0, 0.0, 0.0)
    }

    /** Every entry divided by `divisor`. */
    function Scale(divisor: real): (r: StatusShares)
      requires divisor != 0.0
      ensures forall status :: IsKnownStatus(status) ==> r.Get(status) * divisor == Get(status)
      ensures r.Total() * divisor == Total()
    {
      StatusShares(operational / divisor, down / divisor, waitingForRestock / divisor)
    }
  }

  const NO_SHARES: StatusShares := StatusShares(0.0, 0.0, 0.0)

  /** Dividing by their own total turns shares into fractions that add up
      to 1. */
  lemma ScaledByTotalSumsToOne(sum: StatusShares, n: real, shares: StatusShares)
    requires n > 0.0 && sum.Total() == n && shares == sum.Scale(n)
    ensures shares.Total() == 1.0
  {
    assert shares.Total() * n == n;
    RatioIsOne(shares.Total(), n);
  }

  lemma RatioIsOne(x: real, n: real)
    requires n > 0.0 && x * n == n
    ensures x == 1.0
  {
  }

  /** Dividing by a positive number keeps shares non-negative. */
  lemma ScaleKeepsNonNegative(sum: StatusShares, n: real, shares: StatusShares)
    requires n > 0.0 && sum.NonNegative() && shares == sum.Scale(n)
    ensures shares.NonNegative()
  {
  }

  /** One record of a station's status history. */
  datatype Event = Event(timestamp: real, stationId: int, status: Status)

  /** Timestamps never decrease along the sequence. */
  ghost predicate Chronological(h: seq<Event>)
  {
    forall i, j :: 0 <= i < j < |h| ==> h[i].timestamp <= h[j].timestamp
  }

  /** A Gaussian sample truncated at zero, so that no duration is negative. */
  function NormalTime(sample: real): (r: real)
    ensures r >= 0.0
    ensures r >= sample
    ensures r == sample || r == 0.0
  {
    if sample > 0.0 then sample else 0.0
  }

  /** Duration of one restocking, from a draw of hours with mean 2. */
  function RestockDelay(sample: real): (r: real)
    ensures r >= 0.0
    ensures sample >= 0.0 ==> r == sample * HOUR
  {
    NormalTime(sample) * HOUR
  }

  /** Time between two arrivals, from a draw of hours with mean 3: the
      absolute value of the draw, not a clamp. */
  function ArrivalDelay(sample: real): (r: real)
    ensures r >= 0.0
    ensures r == sample * HOUR || r == -sample * HOUR
  {
    (if sample < 0.0 then -sample else sample) * HOUR
  }

  /** One call of check_for_failure: the new counter and whether the
      station breaks, given the counter before the call, the uniform
      draw and the failure probability. */
  function FailureStep(count: int, draw: real, failProb: real): (r: (int, bool))
    ensures r.1 ==> count + 1 >= CHECK_INTERVAL
    ensures count + 1 >= CHECK_INTERVAL ==> r.0 == 0 && (r.1 <==> draw < failProb)
    ensures count + 1 < CHECK_INTERVAL ==> r == (count + 1, false)
    ensures 0 <= count < CHECK_INTERVAL ==> 0 <= r.0 < CHECK_INTERVAL
  {
    var next := count + 1;
    if next >= CHECK_INTERVAL then (0, draw < failProb) else (next, false)
  }

  /** The counter after, and the outcome of, successive failure checks
      with the given draws. */
  function FailureChecks(count: int, draws: seq<real>, failProb: real): (r: (int, seq<bool>))
    ensures |r.1| == |draws|
    decreases |draws|
  {
    if draws == [] then (count, [])
    else
      var first := FailureStep(count, draws[0], failProb);
      var rest := FailureChecks(first.0, draws[1..], failProb);
      (rest.0, [first.1] + rest.1)
  }

  /** Starting from a counter in 0..4, the i-th check (0-based) reports a
      failure exactly when it is the one that brings the counter to 5 and
      its draw is below the failure probability; the counter afterwards
      is the number of checks so far modulo 5. */
  lemma {:induction false} FailureChecksEveryFifth(count: int, draws: seq<real>, failProb: real)
    requires 0 <= count < CHECK_INTERVAL
    ensures FailureChecks(count, draws, failProb).0 == (count + |draws|) % CHECK_INTERVAL
    ensures forall i :: 0 <= i < |draws| ==>
      (FailureChecks(count, draws, failProb).1[i] <==> (count + i + 1) % CHECK_INTERVAL == 0 && draws[i] < failProb)
    decreases |draws|
  {
    if draws != [] {
      var first := FailureStep(count, draws[0], failProb);
      var rest := FailureChecks(first.0, draws[1..], failProb);
      FailureChecksEveryFifth(first.0, draws[1..], failProb);
      assert first.0 == (count + 1) % CHECK_INTERVAL;
      assert FailureChecks(count, draws, failProb).1 == [first.1] + rest.1;
      forall i | 1 <= i < |draws|
        ensures (FailureChecks(count, draws, failProb).1[i] <==> (count + i + 1) % CHECK_INTERVAL == 0 && draws[i] < failProb)
      {
        assert FailureChecks(count, draws, failProb).1[i] == rest.1[i - 1];
        assert draws[i] == draws[1..][i - 1];
        CounterShift(count, i);
      }
      CounterShift(count, |draws| - 1);
    }
  }

  /** Counting on from the counter after one more check is counting on
      from one more than the counter, modulo 5. */
  lemma CounterShift(count: int, k: nat)
    requires 0 <= count < CHECK_INTERVAL
    ensures ((count + 1) % CHECK_INTERVAL + k) % CHECK_INTERVAL == (count + 1 + k) % CHECK_INTERVAL
  {
    if count + 1 == CHECK_INTERVAL {
      assert count + 1 + k == k + CHECK_INTERVAL;
    }
  }

  /** With failure probability 1 and draws in [0, 1), every fifth check
      fails; with failure probability 0, none does. */
  lemma FailureChecksExtremes(count: int, draws: seq<real>, i: int)
    requires 0 <= count < CHECK_INTERVAL && 0 <= i < |draws|
    requires forall j :: 0 <= j < |draws| ==> 0.0 <= draws[j] < 1.0
    ensures FailureChecks(count, draws, 1.0).1[i] <==> (count + i + 1) % CHECK_INTERVAL == 0
    ensures !FailureChecks(count, draws, 0.0).1[i]
  {
    FailureChecksEveryFifth(count, draws, 1.0);
    FailureChecksEveryFifth(count, draws, 0.0);
  }

  /** The order in which an item visits the stations (by id): 1, 2, 3, then
      4 and 5 in the order in which their resources were granted, then 6. */
  function VisitOrder(req4First: bool): (r: seq<int>)
    ensures |r| == STATION_COUNT
    ensures r[0] == 1 && r[1] == 2 && r[2] == 3 && r[5] == 6
    ensures (r[3] == 4 && r[4] == 5) || (r[3] == 5 && r[4] == 4)
    ensures r[3] == 4 <==> req4First
  {
    if req4First then [1, 2, 3, 4, 5, 6] else [1, 2, 3, 5, 4, 6]
  }

  /** Whichever of stations 4 and 5 is granted first, an item visits every
      station exactly once. */
  lemma VisitOrderVisitsEachOnce(req4First: bool)
    ensures multiset(VisitOrder(req4First)) == multiset{1, 2, 3, 4, 5, 6}
  {
  }

  class Station {
    const id: int
    const failProb: real
    /** Mean repair time, in seconds. */
    const fixTimeMean: real
    /** Mean processing time, in seconds. */
    const workTimeMean: real

    var totalWaitingTime: real
    /** Items processed since the last failure draw. */
    var countSinceCheck: int
    var isBroken: bool
    /** Level of the raw-material bin. */
    var binLevel: int
    var totalDowntime: real
    var lastBreakTime: Option<real>
    var numBreakdowns: nat
    /** Initialised and never updated by the simulation. */
    var totalProcessingTime: real
    var busyTime: real
    var lastStartBusy: real
    var restockingTime: real
    var history: seq<Event>
    var currentStatus: Status

    /** Time of the latest history record. */
    ghost function Latest(): real
      reads this
      requires |history| > 0
    {
      history[|history| - 1].timestamp
    }

    ghost predicate Valid()
      reads this
    {
      && |history| > 0
      && Chronological(history)
      && (forall i :: 0 <= i < |history| ==> history[i].stationId == id && IsKnownStatus(history[i].status))
      && currentStatus == history[|history| - 1].status
      && 0 <= countSinceCheck < CHECK_INTERVAL
      && binLevel >= 0
      && (isBroken <==> lastBreakTime.Some?)
      && (lastBreakTime.Some? ==> lastBreakTime.value <= Latest())
      && lastStartBusy <= Latest()
      && busyTime >= 0.0 && totalDowntime >= 0.0 && restockingTime >= 0.0
      && totalWaitingTime >= 0.0
    }

    /** The state of a station created at time `now`. */
    ghost predicate IsInitial(now: real)
      reads this
    {
      && history == [Event(now, id, Operational)] && currentStatus == Operational
      && binLevel == INITIAL_BIN_LEVEL && !isBroken && lastBreakTime == None
      && countSinceCheck == 0 && numBreakdowns == 0
      && busyTime == 0.0 && totalDowntime == 0.0 && restockingTime == 0.0
      && totalWaitingTime == 0.0 && totalProcessingTime == 0.0 && lastStartBusy == 0.0
    }

    constructor (stationId: int, failProb: real, now: real, fixTimeMeanHours: real := 3.0, workTimeMeanHours: real := 4.0)
      requires now >= 0.0
      ensures Valid() && IsInitial(now)
      ensures id == stationId && this.failProb == failProb
      ensures fixTimeMean == fixTimeMeanHours * HOUR && workTimeMean == workTimeMeanHours * HOUR
    {
      id := stationId;
      this.failProb := failProb;
      fixTimeMean := fixTimeMeanHours * HOUR;
      workTimeMean := workTimeMeanHours * HOUR;
      totalWaitingTime := 0.0;
      countSinceCheck := 0;
      isBroken := false;
      binLevel := INITIAL_BIN_LEVEL;
      totalDowntime := 0.0;
      lastBreakTime := None;
      numBreakdowns := 0;
      totalProcessingTime := 0.0;
      busyTime := 0.0;
      lastStartBusy := 0.0;
      restockingTime := 0.0;
      history := [Event(now, stationId, Operational)];
      currentStatus := Operational;
    }

    /** Appends one record, never deduplicating, and makes it current. */
    method RecordStatusChange(now: real, newStatus: Status)
      requires Valid() && now >= Latest() && IsKnownStatus(newStatus)
      modifies this`history, this`currentStatus
      ensures Valid()
      ensures history == old(history) + [Event(now, id, newStatus)]
      ensures currentStatus == newStatus
    {
      history := history + [Event(now, id, newStatus)];
      currentStatus := newStatus;
    }

    method StartProcessing(now: real)
      requires Valid() && now >= Latest()
      modifies this`lastStartBusy, this`history, this`currentStatus
      ensures Valid()
      ensures lastStartBusy == now
      ensures history == old(history) + [Event(now, id, Operational)]
      ensures currentStatus == Operational
    {
      RecordStatusChange(now, Operational);
      lastStartBusy := now;
    }

    /** Adds the time since processing started to the busy time, which
        therefore never decreases. */
    method FinishProcessing(now: real)
      requires Valid() && now >= Latest()
      modifies this`busyTime
      ensures Valid()
      ensures busyTime == old(busyTime) + (now - lastStartBusy)
      ensures busyTime >= old(busyTime)
    {
      busyTime := busyTime + (now - lastStartBusy);
    }

    method CheckForFailure(draw: real) returns (fails: bool)
      requires Valid()
      modifies this`countSinceCheck
      ensures Valid()
      ensures (countSinceCheck, fails) == FailureStep(old(countSinceCheck), draw, failProb)
    {
      countSinceCheck := countSinceCheck + 1;
      fails := false;
      if countSinceCheck >= CHECK_INTERVAL {
        countSinceCheck := 0;
        if draw < failProb {
          fails := true;
        }
      }
    }

    /** The restock monitor's test: below the threshold the station
        records that it waits for restock (and a restock follows). */
    method BeginRestock(now: real) returns (fires: bool)
      requires Valid() && now >= Latest()
      modifies this`history, this`currentStatus
      ensures Valid()
      ensures fires <==> binLevel < RESTOCK_THRESHOLD
      ensures fires ==> history == old(history) + [Event(now, id, WaitingForRestock)] && currentStatus == WaitingForRestock
      ensures !fires ==> history == old(history) && currentStatus == old(currentStatus)
    {
      fires := binLevel < RESTOCK_THRESHOLD;
      if fires {
        RecordStatusChange(now, WaitingForRestock);
      }
    }

    /** A restock that was granted a device at `startTime` and held it for
        the restock delay drawn as `sample`: the elapsed time is accounted,
        25 units are ADDED to the bin and the station is Operational again
        when the delay is over. */
    method FinishRestock(startTime: real, sample: real)
      requires Valid() && startTime + RestockDelay(sample) >= Latest()
      modifies this`restockingTime, this`binLevel, this`history, this`currentStatus
      ensures Valid()
      ensures restockingTime == old(restockingTime) + RestockDelay(sample)
      ensures binLevel == old(binLevel) + RESTOCK_QUANTITY
      ensures history == old(history) + [Event(startTime + RestockDelay(sample), id, Operational)]
      ensures currentStatus == Operational
    {
      var now := startTime + RestockDelay(sample);
      restockingTime := restockingTime + (now - startTime);
      binLevel := binLevel + RESTOCK_QUANTITY;
      RecordStatusChange(now, Operational);
    }

    /** The bin hands out one unit; it does so only when it holds one. */
    method TakeFromBin()
      requires Valid() && binLevel >= 1
      modifies this`binLevel
      ensures Valid()
      ensures binLevel == old(binLevel) - 1
    {
      binLevel := binLevel - 1;
    }

    /** Accounts a wait of `waitTime` for this station's resource. */
    method AddWaitingTime(waitTime: real)
      requires Valid() && waitTime >= 0.0
      modifies this`totalWaitingTime
      ensures Valid()
      ensures totalWaitingTime == old(totalWaitingTime) + waitTime
    {
      totalWaitingTime := totalWaitingTime + waitTime;
    }

    /** First half of break_station: the station goes Down. */
    method BreakDown(now: real)
      requires Valid() && now >= Latest()
      modifies this`isBroken, this`numBreakdowns, this`lastBreakTime, this`history, this`currentStatus
      ensures Valid()
      ensures isBroken && numBreakdowns == old(numBreakdowns) + 1 && lastBreakTime == Some(now)
      ensures history == old(history) + [Event(now, id, Down)]
      ensures currentStatus == Down
    {
      RecordStatusChange(now, Down);
      isBroken := true;
      numBreakdowns := numBreakdowns + 1;
      lastBreakTime := Some(now);
    }

    /** Second half of break_station, once the repair time has elapsed. */
    method Repair(now: real)
      requires Valid() && now >= Latest() && isBroken
      modifies this`isBroken, this`totalDowntime, this`lastBreakTime, this`history, this`currentStatus
      ensures Valid()
      ensures !isBroken && lastBreakTime == None
      ensures old(lastBreakTime).Some? && old(lastBreakTime).value <= now
      ensures totalDowntime == old(totalDowntime) + (now - old(lastBreakTime).value)
      ensures history == old(history) + [Event(now, id, Operational)]
      ensures currentStatus == Operational
    {
      isBroken := false;
      var downDuration := now - lastBreakTime.value;
      totalDowntime := totalDowntime + downDuration;
      lastBreakTime := None;
      RecordStatusChange(now, Operational);
    }

    /** break_station run without interruption: the station goes Down at
        `now` and is Operational again `fixTime` later, which is added to
        its downtime. */
    method BreakStation(now: real, fixTime: real)
      requires Valid() && now >= Latest() && !isBroken && fixTime >= 0.0
      modifies this`isBroken, this`numBreakdowns, this`lastBreakTime, this`totalDowntime, this`history, this`currentStatus
      ensures Valid() && !isBroken && lastBreakTime == None
      ensures numBreakdowns == old(numBreakdowns) + 1 && totalDowntime == old(totalDowntime) + fixTime
      ensures history == old(history) + [Event(now, id, Down), Event(now + fixTime, id, Operational)]
      ensures currentStatus == Operational
    {
      BreakDown(now);
      Repair(now + fixTime);
    }

    /** process_item run without interruption by other processes of the
        station: once the station is not broken and the bin has granted one
        unit at `start`, the item is processed for the truncated processing
        sample, the failure check is made with `draw`, and on failure the
        station is down for `repairTime` before the call returns. */
    method ProcessItem(start: real, workSample: real, draw: real, repairTime: real) returns (breaks: bool)
      requires Valid() && !isBroken && binLevel >= 1 && start >= Latest() && repairTime >= 0.0
      modifies this`binLevel, this`lastStartBusy, this`busyTime, this`countSinceCheck, this`isBroken,
        this`numBreakdowns, this`lastBreakTime, this`totalDowntime, this`history, this`currentStatus
      ensures Valid() && !isBroken
      ensures binLevel == old(binLevel) - 1
      ensures (countSinceCheck, breaks) == FailureStep(old(countSinceCheck), draw, failProb)
      ensures busyTime == old(busyTime) + NormalTime(workSample)
      ensures lastStartBusy == start
      ensures var finish := start + NormalTime(workSample);
        if breaks then
          && history == old(history) + [Event(start, id, Operational), Event(finish, id, Down), Event(finish + repairTime, id, Operational)]
          && numBreakdowns == old(numBreakdowns) + 1 && totalDowntime == old(totalDowntime) + repairTime
        else
          && history == old(history) + [Event(start, id, Operational)]
          && numBreakdowns == old(numBreakdowns) && totalDowntime == old(totalDowntime)
      ensures restockingTime == old(restockingTime) && totalWaitingTime == old(totalWaitingTime)
    {
      TakeFromBin();
      StartProcessing(start);
      var finish := start + NormalTime(workSample);
      FinishProcessing(finish);
      breaks := CheckForFailure(draw);
      if breaks {
        BreakStation(finish, repairTime);
      }
    }
  }

  class Factory {
    const stations: seq<Station>
    var items: nat
    var totalProduced: nat
    var faultyProducts: nat
    /** Initialised and never updated by the simulation. */
    var accidentsOccurred: nat
    var totalWaitTime: real
    var numWaits: nat

    /** Sum of the waiting times of all six stations. */
    ghost function StationWaitSum(): real
      reads this, stations
      requires |stations| == STATION_COUNT
    {
      stations[0].totalWaitingTime + stations[1].totalWaitingTime + stations[2].totalWaitingTime
      + stations[3].totalWaitingTime + stations[4].totalWaitingTime + stations[5].totalWaitingTime
    }

    /** Six stations with ids 1..6 in order. */
    predicate Numbered()
    {
      |stations| == STATION_COUNT && forall i :: 0 <= i < STATION_COUNT ==> stations[i].id == i + 1
    }

    /** Every status recorded by a station is one of the three. */
    ghost predicate RecordsKnownStatuses()
      reads stations
    {
      forall i :: 0 <= i < |stations| ==> KnownStatuses(stations[i].history)
    }

    /** Six valid stations with ids 1..6 in order; station 1 never waits,
        so the factory's waiting total is that of stations 2..6. */
    ghost predicate Valid()
      reads this, stations
      ensures Valid() ==> Numbered() && RecordsKnownStatuses()
    {
      && Numbered()
      && (forall i :: 0 <= i < STATION_COUNT ==> stations[i].Valid())
      && stations[0].totalWaitingTime == 0.0
      && totalWaitTime == StationWaitSum()
    }

    constructor (now: real)
      requires now >= 0.0
      ensures Valid()
      ensures forall i :: 0 <= i < STATION_COUNT ==> fresh(stations[i])
      ensures forall i :: 0 <= i < STATION_COUNT ==>
        stations[i].IsInitial(now) && stations[i].failProb == FAIL_PROBS[i]
      ensures items == 0 && totalProduced == 0 && faultyProducts == 0 && accidentsOccurred == 0
      ensures totalWaitTime == 0.0 && numWaits == 0
    {
      items := 0;
      var ss := NewStations(now);
      totalProduced := 0;
      faultyProducts := 0;
      accidentsOccurred := 0;
      stations := ss;
      totalWaitTime := 0.0;
      numWaits := 0;
    }

    /** The station loop of the constructor: six new stations with ids 1..6
        and the failure probabilities of FAIL_PROBS. */
    static method NewStations(now: real) returns (ss: seq<Station>)
      requires now >= 0.0
      ensures |ss| == STATION_COUNT
      ensures forall j :: 0 <= j < STATION_COUNT ==>
        fresh(ss[j]) && ss[j].id == j + 1 && ss[j].Valid() && ss[j].IsInitial(now) && ss[j].failProb == FAIL_PROBS[j]
    {
      ss := [];
      for i := 0 to STATION_COUNT
        invariant |ss| == i
        invariant forall j :: 0 <= j < i ==>
          fresh(ss[j]) && ss[j].id == j + 1 && ss[j].Valid() && ss[j].IsInitial(now) && ss[j].failProb == FAIL_PROBS[j]
      {
        var s := new Station(i + 1, FAIL_PROBS[i], now);
        ss := ss + [s];
      }
    }

    /** One turn of the arrival loop at time `now`, with the arrival delay
        drawn as `sample`: the item counter advances, and after the delay the
        new item, whose id is the counter's new value, is released. */
    method NextItem(now: real, sample: real) returns (itemId: nat, releaseTime: real)
      modifies this`items
      ensures items == old(items) + 1 && itemId == items
      ensures releaseTime == now + ArrivalDelay(sample) && releaseTime >= now
    {
      items := items + 1;
      releaseTime := now + ArrivalDelay(sample);
      itemId := items;
    }

    /** The stations item_processor hands an item to, in order, when the
        race between stations 4 and 5 is won by station 4 exactly when
        `req4First` holds. */
    method Route(req4First: bool) returns (route: seq<Station>)
      requires Numbered()
      ensures |route| == STATION_COUNT
      ensures forall k :: 0 <= k < STATION_COUNT ==> route[k] in stations && route[k].id == VisitOrder(req4First)[k]
    {
      var order := VisitOrder(req4First);
      assert forall k :: 0 <= k < STATION_COUNT ==> 1 <= order[k] <= STATION_COUNT;
      route := seq(STATION_COUNT, k requires 0 <= k < STATION_COUNT => stations[order[k] - 1]);
    }

    /** waiting_end: the wait of an item that queued at `station` from
        `waitStart` until `now`. Station 1 is not accounted; at any other
        station the wait is added to the station's and the factory's totals
        and counted, so the factory total stays the sum over the stations. */
    method WaitingEnd(waitStart: real, station: Station, now: real)
      requires Valid() && station in stations && waitStart <= now
      modifies this`totalWaitTime, this`numWaits, station`totalWaitingTime
      ensures Valid()
      ensures station.id == 1 ==>
        totalWaitTime == old(totalWaitTime) && numWaits == old(numWaits)
        && station.totalWaitingTime == old(station.totalWaitingTime)
      ensures station.id != 1 ==>
        totalWaitTime == old(totalWaitTime) + (now - waitStart) && numWaits == old(numWaits) + 1
        && station.totalWaitingTime == old(station.totalWaitingTime) + (now - waitStart)
    {
      ghost var k :| 0 <= k < STATION_COUNT && stations[k] == station;
      assert forall j :: 0 <= j < STATION_COUNT && j != k ==> stations[j] != station;
      if station.id != 1 {
        var waitTime := now - waitStart;
        totalWaitTime := totalWaitTime + waitTime;
        station.AddWaitingTime(waitTime);
        numWaits := numWaits + 1;
      }
    }

    /** The end of an item's pipeline: exactly one of the two counters
        grows, the faulty one exactly when the draw is below 0.05. */
    method CompleteItem(draw: real) returns (faulty: bool)
      modifies this`faultyProducts, this`totalProduced
      ensures faulty <==> draw < FAULTY_PROBABILITY
      ensures faulty ==> faultyProducts == old(faultyProducts) + 1 && totalProduced == old(totalProduced)
      ensures !faulty ==> totalProduced == old(totalProduced) + 1 && faultyProducts == old(faultyProducts)
    {
      faulty := draw < FAULTY_PROBABILITY;
      if faulty {
        faultyProducts := faultyProducts + 1;
      } else {
        totalProduced := totalProduced + 1;
      }
    }
  }
}
