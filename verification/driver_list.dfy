/** src/components/DriverList.jsx: the driver list tab. It keeps its own
    copy of the drivers (with the service status defaulted) and of the
    active calls, and writes calls keyed by the driver's id. */
module DriverList {
  import opened Model
  import opened Seqs
  import opened Strings
  import App

  /** The stored drivers, each with a missing service status read as
      "disponivel". */
  function WithDefaultStatuses(ds: seq<Driver>): (r: seq<Driver>)
    ensures |r| == |ds|
    ensures forall i :: 0 <= i < |ds| ==> r[i] == WithDefaultStatus(ds[i])
  {
    seq(|ds|, i requires 0 <= i < |ds| => WithDefaultStatus(ds[i]))
  }

  /** Loading drivers gives each one a service status, keeps every status
      that was set and every other attribute, and loading twice is loading
      once. */
  lemma DefaultStatusesProperties(ds: seq<Driver>)
    ensures forall i :: 0 <= i < |ds| ==> WithDefaultStatuses(ds)[i].serviceStatus != ""
    ensures forall i :: 0 <= i < |ds| && ds[i].serviceStatus != "" ==> WithDefaultStatuses(ds)[i] == ds[i]
    ensures forall i :: 0 <= i < |ds| && ds[i].serviceStatus == "" ==>
      WithDefaultStatuses(ds)[i] == ds[i].(serviceStatus := Available)
    ensures WithDefaultStatuses(WithDefaultStatuses(ds)) == WithDefaultStatuses(ds)
  {
  }

  /** The search term occurs, ignoring case, in the name, the plate or the
      transporter. */
  predicate DriverMatches(d: Driver, term: string) {
    var t := Lower(term);
    Includes(Lower(d.fullName), t) || Includes(Lower(d.vehiclePlate), t) || Includes(Lower(d.transporter), t)
  }

  /** `filteredDrivers`: the matching drivers, in list order. */
  function SearchDrivers(ds: seq<Driver>, term: string): (r: seq<Driver>)
    ensures forall d :: d in r <==> d in ds && DriverMatches(d, term)
    ensures IsSubsequence(r, ds)
  {
    Filter(ds, (d: Driver) => DriverMatches(d, term))
  }

  /** An empty search box lists every driver, in order. */
  lemma EmptySearchListsAll(ds: seq<Driver>)
    ensures SearchDrivers(ds, "") == ds
  {
    var p := (d: Driver) => DriverMatches(d, "");
    forall i | 0 <= i < |ds| ensures p(ds[i]) {
      IncludesEmpty(Lower(ds[i].fullName));
    }
    FilterKeepsAll(ds, p);
  }

  /** The checks before the call dialog opens, in this tab: permission,
      availability, and an active call stored under the driver's id. */
  function CallGuardByDriverKey(d: Driver, canCallDrivers: bool, calls: map<string, Call>): (g: CallGuard)
    ensures g.OpenDialog? <==> canCallDrivers && CanBeCalled(d) && d.id !in calls
    ensures !canCallDrivers ==> g == AccessDenied
    ensures canCallDrivers && !CanBeCalled(d) ==> g == DriverUnavailable
    ensures canCallDrivers && CanBeCalled(d) && d.id in calls ==> g == AlreadyCalled
    ensures g.OpenDialog? ==> g.driver == d && g.message == CallPrompt(d)
  {
    if !canCallDrivers then AccessDenied
    else if !CanBeCalled(d) then DriverUnavailable
    else if d.id in calls then AlreadyCalled
    else OpenDialog(d, CallPrompt(d))
  }

  /** The record this tab stores under the driver's id: no driverId, no
      callId and no dock. */
  function DriverKeyedCall(d: Driver, message: string, time: string): (c: Call)
    ensures c.driverId == None && c.callId == None && c.dock == ""
    ensures c.message == message && c.timestamp == time
    ensures c.destination != "" && (d.destination != "" ==> c.destination == d.destination)
    ensures d.destination == "" ==> c.destination == NotSpecified
    ensures c.password == d.password && c.finalizedTimestamp == None
  {
    Call(None, None, message, time, OrElse(d.destination, NotSpecified), "", OrElse(d.password, ""), None)
  }

  /** After a call is confirmed in this tab, the checks refuse to call the
      same driver again. */
  lemma ConfirmedCallBlocksRecall(d: Driver, canCallDrivers: bool, calls: map<string, Call>, message: string, time: string)
    ensures CallGuardByDriverKey(d, canCallDrivers, calls[d.id := DriverKeyedCall(d, message, time)]) ==
      if !canCallDrivers then AccessDenied else if !CanBeCalled(d) then DriverUnavailable else AlreadyCalled
  {
  }

  /** The state of the driver list tab. */
  class DriverListView {
    var drivers: seq<Driver>
    var calledDrivers: map<string, Call>
    var searchTerm: string
    var isCallModalOpen: bool
    var currentDriverToCall: Option<Driver>
    var callMessage: string

    constructor ()
      ensures drivers == [] && calledDrivers == map[] && searchTerm == ""
      ensures !isCallModalOpen && currentDriverToCall == None && callMessage == ""
    {
      drivers := [];
      calledDrivers := map[];
      searchTerm := "";
      isCallModalOpen := false;
      currentDriverToCall := None;
      callMessage := "";
    }

    /** `fetchDriversData`: reload both copies from storage. */
    method FetchDriversData(st: Storage)
      modifies this`drivers, this`calledDrivers
      ensures drivers == WithDefaultStatuses(st.drivers)
      ensures calledDrivers == st.calledDrivers
    {
      drivers := WithDefaultStatuses(st.drivers);
      calledDrivers := st.calledDrivers;
    }

    /** `handleDeleteDriver`: the older delete. It writes back this tab's
        copies: the drivers without the one deleted, and the active calls
        without the key equal to its id. Finalized records stay. */
    method HandleDeleteDriver(st: Storage, driverId: string, canDeleteDrivers: bool, confirmed: bool,
                              userRole: string, stamp: Stamp)
      returns (deleted: bool)
      modifies this`drivers, this`calledDrivers, st`drivers, st`calledDrivers, st`actionHistory
      ensures deleted <==> canDeleteDrivers && confirmed
      ensures !deleted ==> unchanged(this) && unchanged(st)
      ensures deleted ==>
        st.drivers == WithoutDriver(old(drivers), driverId) &&
        st.calledDrivers == old(calledDrivers) - {driverId} &&
        st.actionHistory == App.Logged(old(st.actionHistory),
          LogEntry("Excluir Motorista", userRole, "Motorista " + DisplayName(old(drivers), driverId) + " excluído.",
                   stamp.timestamp, stamp.id)) &&
        drivers == WithDefaultStatuses(st.drivers) && calledDrivers == st.calledDrivers
      ensures st.finalizedCalls == old(st.finalizedCalls)
    {
      if !canDeleteDrivers {
        return false;
      }
      var name := DisplayName(drivers, driverId);
      if !confirmed {
        return false;
      }
      var updatedDrivers := WithoutDriver(drivers, driverId);
      var updatedCalledDrivers := calledDrivers - {driverId};
      st.drivers := updatedDrivers;
      st.calledDrivers := updatedCalledDrivers;
      FetchDriversData(st);
      App.LogAction(st, "Excluir Motorista", userRole, App.Plain("Motorista " + name + " excluído."), stamp);
      deleted := true;
    }

    /** `openCallModal`: the dialog opens, primed with the driver and the
        default message, only when the checks pass. */
    method OpenCallModal(driver: Driver, canCallDrivers: bool) returns (g: CallGuard)
      modifies this`isCallModalOpen, this`currentDriverToCall, this`callMessage
      ensures g == CallGuardByDriverKey(driver, canCallDrivers, calledDrivers)
      ensures g.OpenDialog? ==>
        isCallModalOpen && currentDriverToCall == Some(driver) && callMessage == CallPrompt(driver)
      ensures !g.OpenDialog? ==> unchanged(this)
    {
      if !canCallDrivers {
        return AccessDenied;
      }
      if !CanBeCalled(driver) {
        return DriverUnavailable;
      }
      if driver.id in calledDrivers {
        return AlreadyCalled;
      }
      currentDriverToCall := Some(driver);
      callMessage := CallPrompt(driver);
      isCallModalOpen := true;
      g := OpenDialog(driver, CallPrompt(driver));
    }

    /** `confirmCallDriver`: with a driver and a message that is not blank,
        this tab's copy of the active calls gets the call under the
        driver's id (replacing any call there) and is written back; the
        dialog is then closed and cleared. */
    method ConfirmCallDriver(st: Storage, time: string, userRole: string, stamp: Stamp) returns (called: bool)
      modifies this, st`calledDrivers, st`actionHistory
      ensures called <==> old(currentDriverToCall).Some? && !Blank(old(callMessage))
      ensures !called ==> unchanged(this) && unchanged(st)
      ensures called ==>
        var d := old(currentDriverToCall).value;
        st.calledDrivers == old(calledDrivers)[d.id := DriverKeyedCall(d, old(callMessage), time)] &&
        st.actionHistory == App.Logged(old(st.actionHistory),
          LogEntry("Chamar Motorista", userRole,
                   "Motorista " + d.fullName + " chamado. Destino: " + OrElse(d.destination, NotSpecified),
                   stamp.timestamp, stamp.id)) &&
        !isCallModalOpen && currentDriverToCall == None && callMessage == "" &&
        drivers == WithDefaultStatuses(st.drivers) && calledDrivers == st.calledDrivers &&
        searchTerm == old(searchTerm)
    {
      if currentDriverToCall.None? || Blank(callMessage) {
        return false;
      }
      var d := currentDriverToCall.value;
      var newCalledDrivers := calledDrivers[d.id := DriverKeyedCall(d, callMessage, time)];
      st.calledDrivers := newCalledDrivers;
      App.LogAction(st, "Chamar Motorista", userRole,
                    App.Plain("Motorista " + d.fullName + " chamado. Destino: " + OrElse(d.destination, NotSpecified)), stamp);
      isCallModalOpen := false;
      currentDriverToCall := None;
      callMessage := "";
      FetchDriversData(st);
      called := true;
    }

    /** `handleSaveDriver`: this tab's copy of the drivers with the edited
        driver in place of every driver with its id, written back. */
    method HandleSaveDriver(st: Storage, updated: Driver, userRole: string, stamp: Stamp)
      modifies this`drivers, this`calledDrivers, st`drivers, st`actionHistory
      ensures st.drivers == ReplaceById(old(drivers), updated)
      ensures st.actionHistory == App.Logged(old(st.actionHistory),
        LogEntry("Editar Motorista", userRole, "Dados do motorista " + updated.fullName + " atualizados.",
                 stamp.timestamp, stamp.id))
      ensures drivers == WithDefaultStatuses(st.drivers) && calledDrivers == st.calledDrivers
    {
      st.drivers := ReplaceById(drivers, updated);
      FetchDriversData(st);
      App.LogAction(st, "Editar Motorista", userRole,
                    App.Plain("Dados do motorista " + updated.fullName + " atualizados."), stamp);
    }
  }
}
