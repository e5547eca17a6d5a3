/** src/components/AssignRun.jsx: the "Corridas" tab. A run is a call
    stored under its own call id, so a driver may hold several; only an
    offline driver is refused. */
module AssignRun {
  import opened Model
  import opened Seqs
  import opened Strings
  import App
  import DriverList
  import DriverActions

  /** The run search also looks at the dock, when the driver has one. */
  predicate RunMatches(d: Driver, term: string) {
    DriverList.DriverMatches(d, term) || (d.dock != "" && Includes(Lower(d.dock), Lower(term)))
  }

  /** `filteredDrivers` of this tab, in list order. */
  function SearchRunDrivers(ds: seq<Driver>, term: string): (r: seq<Driver>)
    ensures forall d :: d in r <==> d in ds && RunMatches(d, term)
    ensures IsSubsequence(r, ds)
  {
    Filter(ds, (d: Driver) => RunMatches(d, term))
  }

  /** Every driver the driver list finds for a term is found here too, in
      the same relative order. */
  lemma RunSearchWidensDriverSearch(ds: seq<Driver>, term: string)
    ensures IsSubsequence(DriverList.SearchDrivers(ds, term), SearchRunDrivers(ds, term))
  {
    FilterNarrower(ds, (d: Driver) => DriverList.DriverMatches(d, term), (d: Driver) => RunMatches(d, term));
  }

  /** Outcome of `openAssignModal`'s checks. */
  datatype AssignGuard = AssignDenied | DriverOffline | AssignDialog(driver: Driver)

  /** The checks before the run dialog opens: permission, then an offline
      driver is refused; any other availability, even an unknown one, and
      any number of active calls are accepted. */
  function AssignCheck(d: Driver, canAssignRuns: bool): (g: AssignGuard)
    ensures g.AssignDialog? <==> canAssignRuns && d.availabilityStatus != "offline"
    ensures !canAssignRuns ==> g == AssignDenied
    ensures g.AssignDialog? ==> g.driver == d
  {
    if !canAssignRuns then AssignDenied
    else if d.availabilityStatus == "offline" then DriverOffline
    else AssignDialog(d)
  }

  /** The message the run dialog opens with. */
  function RunPrompt(d: Driver): string {
    "Corrida para " + d.fullName + ". Detalhes: "
  }

  /** The record a run stores under its call id: the destination and dock
      typed in the dialog, the driver's password. */
  function RunCall(d: Driver, callId: string, message: string, time: string, destination: string, dock: string): (c: Call)
    ensures c.driverId == Some(d.id) && c.callId == Some(callId)
    ensures c.message == message && c.timestamp == time
    ensures c.destination == destination && c.dock == dock
    ensures c.password == d.password && c.finalizedTimestamp == None
  {
    Call(Some(d.id), Some(callId), message, time, destination, dock, OrElse(d.password, ""), None)
  }

  /** With the same permission, every driver the call checks accept is
      accepted here too. */
  lemma CallableIsAssignable(d: Driver, can: bool, calls: map<string, Call>, finalized: map<string, Call>)
    ensures DriverActions.OpenCallModalAction(d, can, calls, finalized).OpenDialog? ==> AssignCheck(d, can).AssignDialog?
  {
  }

  /** The converse fails: a run can go to a driver the call checks refuse,
      one already called, or with a finalized record, or whose availability
      is neither online, busy nor offline. */
  lemma AssignAcceptsWhatCallRefuses(d: Driver, callId: string, message: string, time: string)
    requires d.availabilityStatus == "online"
    ensures var calls := map[callId := RunCall(d, callId, message, time, d.destination, d.dock)];
      DriverActions.OpenCallModalAction(d, true, calls, map[]) == AlreadyCalled &&
      AssignCheck(d, true) == AssignDialog(d)
    ensures DriverActions.OpenCallModalAction(d, true, map[], map[d.id := RunCall(d, callId, message, time, "", "")]) == HasFinalizedCall
    ensures DriverActions.OpenCallModalAction(d.(availabilityStatus := ""), true, map[], map[]) == DriverUnavailable &&
      AssignCheck(d.(availabilityStatus := ""), true).AssignDialog?
  {
    var calls := map[callId := RunCall(d, callId, message, time, d.destination, d.dock)];
    assert calls[callId].driverId == Some(d.id);
  }

  /** The state of the run tab. */
  class AssignRunView {
    var drivers: seq<Driver>
    var searchTerm: string
    var isAssignModalOpen: bool
    var currentDriverToAssign: Option<Driver>
    var runMessage: string
    var runDestination: string
    var runDock: string

    constructor ()
      ensures drivers == [] && searchTerm == "" && !isAssignModalOpen && currentDriverToAssign == None
      ensures runMessage == "" && runDestination == "" && runDock == ""
    {
      drivers := [];
      searchTerm := "";
      isAssignModalOpen := false;
      currentDriverToAssign := None;
      runMessage := "";
      runDestination := "";
      runDock := "";
    }

    /** `fetchDriversData`: the stored drivers, as stored. */
    method FetchDriversData(st: Storage)
      modifies this`drivers
      ensures drivers == st.drivers
    {
      drivers := st.drivers;
    }

    /** `openAssignModal`: when the checks pass, the dialog opens with the
        driver, the default message and the driver's destination and dock. */
    method OpenAssignModal(driver: Driver, canAssignRuns: bool) returns (g: AssignGuard)
      modifies this`isAssignModalOpen, this`currentDriverToAssign, this`runMessage, this`runDestination, this`runDock
      ensures g == AssignCheck(driver, canAssignRuns)
      ensures g.AssignDialog? ==>
        isAssignModalOpen && currentDriverToAssign == Some(driver) && runMessage == RunPrompt(driver) &&
        runDestination == driver.destination && runDock == driver.dock
      ensures !g.AssignDialog? ==> unchanged(this)
    {
      if !canAssignRuns {
        return AssignDenied;
      }
      if driver.availabilityStatus == "offline" {
        return DriverOffline;
      }
      currentDriverToAssign := Some(driver);
      runMessage := RunPrompt(driver);
      runDestination := OrElse(driver.destination, "");
      runDock := OrElse(driver.dock, "");
      isAssignModalOpen := true;
      g := AssignDialog(driver);
    }

    /** `confirmAssignRun`: with a driver and a destination that is not
        blank, the run is stored under its generated call id beside the
        stored calls, logged, and the dialog is cleared. */
    method ConfirmAssignRun(st: Storage, now: nat, suffix: string, time: string, userRole: string, stamp: Stamp)
      returns (runSent: bool)
      modifies this, st`calledDrivers, st`actionHistory
      ensures runSent <==> old(currentDriverToAssign).Some? && !Blank(old(runDestination))
      ensures !runSent ==> unchanged(this) && unchanged(st)
      ensures runSent ==>
        var d := old(currentDriverToAssign).value;
        var callId := CallId(now, d.id, suffix);
        st.calledDrivers == old(st.calledDrivers)[callId :=
          RunCall(d, callId, old(runMessage), time, old(runDestination), old(runDock))] &&
        st.actionHistory == App.Logged(old(st.actionHistory),
          LogEntry("Atribuir Corrida", userRole,
                   "Corrida atribuída ao motorista " + d.fullName + ". Destino: " + old(runDestination) +
                   ", Doca: " + old(runDock), stamp.timestamp, stamp.id)) &&
        !isAssignModalOpen && currentDriverToAssign == None &&
        runMessage == "" && runDestination == "" && runDock == "" &&
        drivers == st.drivers && searchTerm == old(searchTerm)
    {
      if currentDriverToAssign.None? || Blank(runDestination) {
        return false;
      }
      var d := currentDriverToAssign.value;
      var callId := CallId(now, d.id, suffix);
      var calledDrivers := st.calledDrivers;
      calledDrivers := calledDrivers[callId := RunCall(d, callId, runMessage, time, runDestination, runDock)];
      st.calledDrivers := calledDrivers;
      App.LogAction(st, "Atribuir Corrida", userRole,
                    App.Plain("Corrida atribuída ao motorista " + d.fullName + ". Destino: " + runDestination +
                              ", Doca: " + runDock), stamp);
      isAssignModalOpen := false;
      currentDriverToAssign := None;
      runMessage := "";
      runDestination := "";
      runDock := "";
      FetchDriversData(st);
      runSent := true;
    }
  }
}
