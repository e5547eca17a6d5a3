/** src/components/DriverCallPanel.jsx: the panel of called drivers, joined
    from the active calls by driver id, its search, and removing a call. */
module CallPanel {
  import opened Model
  import opened Seqs
  import opened Strings
  import App
  import DriverList

  /** One card of the panel: the driver with the call's message, time and
      destination. */
  datatype PanelItem = PanelItem(driver: Driver, callMessage: string, callTimestamp: string, callDestination: string)

  function PanelItemOf(d: Driver, c: Call): (item: PanelItem)
    ensures item.driver == d && item.callMessage == c.message
    ensures item.callTimestamp == c.timestamp && item.callDestination == c.destination
  {
    PanelItem(d, c.message, c.timestamp, c.destination)
  }

  /** The cards built from one listing of the active calls. */
  function PanelItems(entries: seq<(string, Call)>, ds: seq<Driver>): seq<PanelItem> {
    JoinByDriverKey(entries, ds, PanelItemOf)
  }

  /** The panel shows exactly the active calls kept under a registered
      driver's id, each as that driver's card with the call's data. */
  lemma PanelListsDriverKeyedCalls(entries: seq<(string, Call)>, calls: map<string, Call>, ds: seq<Driver>)
    requires Enumerates(entries, calls)
    ensures forall x :: x in PanelItems(entries, ds) ==>
      x.driver.id in calls && HasId(ds, x.driver.id) &&
      x == PanelItemOf(FindDriver(ds, x.driver.id).value, calls[x.driver.id])
    ensures forall k :: k in calls && HasId(ds, k) ==> PanelItemOf(FindDriver(ds, k).value, calls[k]) in PanelItems(entries, ds)
    ensures |PanelItems(entries, ds)| == |set k | k in calls && HasId(ds, k)|
  {
    JoinListsStoredRecords(entries, calls, ds, PanelItemOf);
  }

  /** Calls stored under call ids (runs, and calls from the shared
      handlers) never reach the panel unless a call id happens to equal a
      driver's id. */
  lemma CallIdKeyedCallsAreHidden(entries: seq<(string, Call)>, calls: map<string, Call>, ds: seq<Driver>)
    requires Enumerates(entries, calls)
    requires forall k :: k in calls ==> !HasId(ds, k)
    ensures forall x :: x !in PanelItems(entries, ds)
  {
  }

  /** The panel's search: name, plate, destination or message contains the
      term, ignoring case. */
  predicate PanelMatches(x: PanelItem, term: string) {
    var t := Lower(term);
    Includes(Lower(x.driver.fullName), t) || Includes(Lower(x.driver.vehiclePlate), t) ||
    (x.callDestination != "" && Includes(Lower(x.callDestination), t)) ||
    (x.callMessage != "" && Includes(Lower(x.callMessage), t))
  }

  /** `filteredCalledDrivers`, in panel order. */
  function FilteredCalledDrivers(items: seq<PanelItem>, term: string): (r: seq<PanelItem>)
    ensures forall x :: x in r <==> x in items && PanelMatches(x, term)
    ensures IsSubsequence(r, items)
  {
    Filter(items, (x: PanelItem) => PanelMatches(x, term))
  }

  /** The drivers shown on the cards, for looking one up by id. */
  function CardDrivers(items: seq<PanelItem>): (ds: seq<Driver>)
    ensures |ds| == |items| && forall i :: 0 <= i < |items| ==> ds[i] == items[i].driver
  {
    seq(|items|, i requires 0 <= i < |items| => items[i].driver)
  }

  /** Removing a driver's call from the panel lets the driver list call
      that driver again. */
  lemma RemovedDriverCanBeCalledAgain(d: Driver, calls: map<string, Call>)
    requires CanBeCalled(d)
    ensures DriverList.CallGuardByDriverKey(d, true, calls - {d.id}).OpenDialog?
  {
  }

  /** The state of the call panel. */
  class DriverCallPanelView {
    var calledDriversDetails: seq<PanelItem>
    var drivers: seq<Driver>
    var searchTerm: string

    constructor ()
      ensures calledDriversDetails == [] && drivers == [] && searchTerm == ""
    {
      calledDriversDetails := [];
      drivers := [];
      searchTerm := "";
    }

    /** `fetchCalledDrivers`, given the order in which the stored calls are
        enumerated. */
    method FetchCalledDrivers(st: Storage, entries: seq<(string, Call)>)
      requires Enumerates(entries, st.calledDrivers)
      modifies this`calledDriversDetails, this`drivers
      ensures drivers == st.drivers
      ensures calledDriversDetails == PanelItems(entries, st.drivers)
    {
      drivers := st.drivers;
      calledDriversDetails := JoinByDriverKey(entries, st.drivers, PanelItemOf);
    }

    /** `handleRemoveFromPanel`: without permission nothing changes;
        otherwise exactly the key `driverId` leaves the active calls, no
        finalized record is made, the panel is refreshed and the removal
        logged. `entriesAfter` enumerates the remaining calls. */
    method HandleRemoveFromPanel(st: Storage, driverId: string, canRemoveCalls: bool,
                                 entriesAfter: seq<(string, Call)>, userRole: string, stamp: Stamp)
      returns (removed: bool)
      requires Enumerates(entriesAfter, st.calledDrivers - {driverId})
      modifies this`calledDriversDetails, this`drivers, st`calledDrivers, st`actionHistory
      ensures removed <==> canRemoveCalls
      ensures !removed ==> unchanged(this) && unchanged(st)
      ensures removed ==>
        st.calledDrivers == old(st.calledDrivers) - {driverId} &&
        st.actionHistory == App.Logged(old(st.actionHistory),
          LogEntry("Remover Chamada", userRole,
                   "Chamada do motorista " + DisplayName(CardDrivers(old(calledDriversDetails)), driverId) +
                   " removida do painel.", stamp.timestamp, stamp.id)) &&
        calledDriversDetails == PanelItems(entriesAfter, st.drivers) && drivers == st.drivers
      ensures st.finalizedCalls == old(st.finalizedCalls) && st.drivers == old(st.drivers)
    {
      if !canRemoveCalls {
        return false;
      }
      var name := DisplayName(CardDrivers(calledDriversDetails), driverId);
      var storedCalledDrivers := st.calledDrivers;
      storedCalledDrivers := storedCalledDrivers - {driverId};
      st.calledDrivers := storedCalledDrivers;
      FetchCalledDrivers(st, entriesAfter);
      App.LogAction(st, "Remover Chamada", userRole, App.Plain("Chamada do motorista " + name + " removida do painel."), stamp);
      removed := true;
    }
  }
}
