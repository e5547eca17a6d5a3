/** src/components/MetricsPanel.jsx: the overview counters, one pass over
    the stored drivers. */
module Metrics {
  import opened Model

  /** The counter a driver adds to, if any. */
  datatype Category = AwaitingStatus | InServiceProgress | AwaitingCall | Uncounted

  /** The four numbers the panel shows. */
  datatype Counters = Counters(totalDrivers: nat, awaitingCall: nat, inServiceProgress: nat, driversAwaitingStatus: nat)

  /** The classification inside the `forEach`: "aguardando" first, then
      "em_servico" or "em_progresso", then an online driver with no active
      call stored under its id whose status is (or defaults to)
      "disponivel". */
  function Classify(d: Driver, calls: map<string, Call>): (c: Category)
    ensures c == AwaitingStatus <==> OrElse(d.serviceStatus, Available) == "aguardando"
    ensures c == InServiceProgress <==> OrElse(d.serviceStatus, Available) in {"em_servico", "em_progresso"}
    ensures c == AwaitingCall <==>
      d.availabilityStatus == "online" && d.id !in calls && OrElse(d.serviceStatus, Available) == Available
  {
    var serviceStatus := OrElse(d.serviceStatus, Available);
    if serviceStatus == "aguardando" then AwaitingStatus
    else if serviceStatus == "em_servico" || serviceStatus == "em_progresso" then InServiceProgress
    else if d.availabilityStatus == "online" && d.id !in calls && serviceStatus == Available then AwaitingCall
    else Uncounted
  }

  /** How many drivers of `ds` fall into `cat`. */
  function CountOf(ds: seq<Driver>, calls: map<string, Call>, cat: Category): (n: nat)
    ensures n <= |ds|
  {
    if ds == [] then 0
    else CountOf(ds[..|ds| - 1], calls, cat) + (if Classify(ds[|ds| - 1], calls) == cat then 1 else 0)
  }

  /** `calculateMetrics`: the counters for the stored drivers and calls. */
  method CalculateMetrics(drivers: seq<Driver>, calledDrivers: map<string, Call>) returns (m: Counters)
    ensures m.totalDrivers == |drivers|
    ensures m.awaitingCall == CountOf(drivers, calledDrivers, AwaitingCall)
    ensures m.inServiceProgress == CountOf(drivers, calledDrivers, InServiceProgress)
    ensures m.driversAwaitingStatus == CountOf(drivers, calledDrivers, AwaitingStatus)
  {
    var awaitingCallCount := 0;
    var inServiceProgressCount := 0;
    var awaitingStatusCount := 0;
    for i := 0 to |drivers|
      invariant awaitingCallCount == CountOf(drivers[..i], calledDrivers, AwaitingCall)
      invariant inServiceProgressCount == CountOf(drivers[..i], calledDrivers, InServiceProgress)
      invariant awaitingStatusCount == CountOf(drivers[..i], calledDrivers, AwaitingStatus)
    {
      var driver := drivers[i];
      assert drivers[..i + 1][..i] == drivers[..i];
      var isCalled := driver.id in calledDrivers;
      var isOnline := driver.availabilityStatus == "online";
      var serviceStatus := OrElse(driver.serviceStatus, Available);
      if serviceStatus == "aguardando" {
        awaitingStatusCount := awaitingStatusCount + 1;
      } else if serviceStatus == "em_servico" || serviceStatus == "em_progresso" {
        inServiceProgressCount := inServiceProgressCount + 1;
      } else if isOnline && !isCalled && serviceStatus == Available {
        awaitingCallCount := awaitingCallCount + 1;
      }
    }
    assert drivers[..|drivers|] == drivers;
    m := Counters(|drivers|, awaitingCallCount, inServiceProgressCount, awaitingStatusCount);
  }

  /** Each driver adds to at most one counter: the three counts and the
      uncounted drivers add up to the total. */
  lemma {:induction false} CountsPartition(ds: seq<Driver>, calls: map<string, Call>)
    ensures CountOf(ds, calls, AwaitingCall) + CountOf(ds, calls, InServiceProgress) +
            CountOf(ds, calls, AwaitingStatus) + CountOf(ds, calls, Uncounted) == |ds|
  {
    if ds != [] {
      CountsPartition(ds[..|ds| - 1], calls);
    }
  }

  /** The counters never add up to more than the total. */
  lemma CountersWithinTotal(drivers: seq<Driver>, calls: map<string, Call>)
    ensures CountOf(drivers, calls, AwaitingCall) + CountOf(drivers, calls, InServiceProgress) +
            CountOf(drivers, calls, AwaitingStatus) <= |drivers|
  {
    CountsPartition(drivers, calls);
  }

  /** Only calls stored under a driver's id are seen: a driver whose runs
      are all stored under call ids still counts as awaiting a call. */
  lemma CallIdKeyedCallsAreNotSeen(d: Driver, calls: map<string, Call>, callId: string, c: Call)
    requires d.availabilityStatus == "online" && d.serviceStatus == Available
    requires d.id !in calls && callId != d.id && c.driverId == Some(d.id)
    ensures Classify(d, calls[callId := c]) == AwaitingCall
  {
  }

  /** Whatever its availability or calls, a driver whose status is
      "aguardando" counts only as awaiting a status. */
  lemma AwaitingStatusWins(d: Driver, calls: map<string, Call>)
    requires d.serviceStatus == "aguardando"
    ensures Classify(d, calls) == AwaitingStatus
  {
  }

  /** The panel's counters. */
  class MetricsPanel {
    var counters: Counters

    constructor ()
      ensures counters == Counters(0, 0, 0, 0)
    {
      counters := Counters(0, 0, 0, 0);
    }

    /** Recomputes the counters from storage. */
    method Refresh(st: Storage)
      modifies this
      ensures counters.totalDrivers == |st.drivers|
      ensures counters.awaitingCall == CountOf(st.drivers, st.calledDrivers, AwaitingCall)
      ensures counters.inServiceProgress == CountOf(st.drivers, st.calledDrivers, InServiceProgress)
      ensures counters.driversAwaitingStatus == CountOf(st.drivers, st.calledDrivers, AwaitingStatus)
    {
      counters := CalculateMetrics(st.drivers, st.calledDrivers);
    }
  }
}
