/** src/lib/driverListActions.js: the shared handlers of the driver list
    that key active calls by call id: cascade delete, the checks before a
    call, the call itself, and saving an edited driver. */
module DriverActions {
  import opened Model
  import opened Strings
  import App
  import Registration

  /** The active calls whose `driverId` field is not `id`, under their
      original keys. */
  function WithoutCallsOf(calls: map<string, Call>, id: string): (r: map<string, Call>)
    ensures forall k :: k in r <==> k in calls && calls[k].driverId != Some(id)
    ensures forall k :: k in r ==> r[k] == calls[k]
  {
    map k | k in calls && calls[k].driverId != Some(id) :: calls[k]
  }

  /** `handleDeleteDriverAction`: without permission or confirmation
      nothing changes; otherwise the driver leaves the list the caller
      holds, every active call naming the driver goes, and so does the
      finalized record kept under the driver's id. */
  method HandleDeleteDriverAction(st: Storage, driverId: string, drivers: seq<Driver>,
                                  canDeleteDrivers: bool, confirmed: bool, userRole: string, stamp: Stamp)
    returns (deleted: bool)
    modifies st`drivers, st`calledDrivers, st`finalizedCalls, st`actionHistory
    ensures deleted <==> canDeleteDrivers && confirmed
    ensures !deleted ==> unchanged(st)
    ensures deleted ==>
      st.drivers == WithoutDriver(drivers, driverId) &&
      st.calledDrivers == WithoutCallsOf(old(st.calledDrivers), driverId) &&
      st.finalizedCalls == old(st.finalizedCalls) - {driverId} &&
      st.actionHistory == App.Logged(old(st.actionHistory),
        LogEntry("Excluir Motorista", userRole, "Motorista " + DisplayName(drivers, driverId) + " excluído.",
                 stamp.timestamp, stamp.id))
  {
    if !canDeleteDrivers {
      return false;
    }
    var name := DisplayName(drivers, driverId);
    if !confirmed {
      return false;
    }
    st.drivers := WithoutDriver(drivers, driverId);
    st.calledDrivers := WithoutCallsOf(st.calledDrivers, driverId);
    var finalizedCalls := st.finalizedCalls;
    finalizedCalls := finalizedCalls - {driverId};
    st.finalizedCalls := finalizedCalls;
    App.LogAction(st, "Excluir Motorista", userRole, App.Plain("Motorista " + name + " excluído."), stamp);
    deleted := true;
  }

  /** Some active call names the driver in its `driverId` field. */
  predicate HasActiveCall(calls: map<string, Call>, id: string) {
    exists k :: k in calls && calls[k].driverId == Some(id)
  }

  /** `openCallModalAction`: the checks, in order, before the call dialog
      opens: permission, availability, a finalized record under the
      driver's id, an active call naming the driver. */
  function OpenCallModalAction(d: Driver, canCallDrivers: bool, calls: map<string, Call>,
                               finalized: map<string, Call>): (g: CallGuard)
    ensures g.OpenDialog? <==>
      canCallDrivers && CanBeCalled(d) && d.id !in finalized && !HasActiveCall(calls, d.id)
    ensures !canCallDrivers ==> g == AccessDenied
    ensures canCallDrivers && !CanBeCalled(d) ==> g == DriverUnavailable
    ensures canCallDrivers && CanBeCalled(d) && d.id in finalized ==> g == HasFinalizedCall
    ensures canCallDrivers && CanBeCalled(d) && d.id !in finalized && HasActiveCall(calls, d.id) ==>
      g == AlreadyCalled
    ensures g.OpenDialog? ==> g.driver == d && g.message == CallPrompt(d)
  {
    if !canCallDrivers then AccessDenied
    else if !CanBeCalled(d) then DriverUnavailable
    else if d.id in finalized then HasFinalizedCall
    else if HasActiveCall(calls, d.id) then AlreadyCalled
    else OpenDialog(d, CallPrompt(d))
  }

  /** The record a confirmed call stores under its call id: it names the
      driver and the key, carries the message and time, the driver's
      destination or the placeholder, no dock, the driver's password, and
      is not finalized. */
  function NewCall(d: Driver, callId: string, message: string, time: string): (c: Call)
    ensures c.driverId == Some(d.id) && c.callId == Some(callId)
    ensures c.message == message && c.timestamp == time
    ensures c.destination != "" && (d.destination != "" ==> c.destination == d.destination)
    ensures d.destination == "" ==> c.destination == NotSpecified
    ensures c.dock == "" && c.password == d.password && c.finalizedTimestamp == None
  {
    Call(Some(d.id), Some(callId), message, time, OrElse(d.destination, NotSpecified), "", OrElse(d.password, ""), None)
  }

  /** `confirmCallDriverAction`: with a driver and a message that is not
      blank, the call is stored under its generated call id in the stored
      active calls; the other calls stay. */
  method ConfirmCallDriverAction(st: Storage, driver: Option<Driver>, message: string, now: nat, suffix: string,
                                 time: string, userRole: string, stamp: Stamp)
    returns (called: bool)
    modifies st`calledDrivers, st`actionHistory
    ensures called <==> driver.Some? && !Blank(message)
    ensures !called ==> unchanged(st)
    ensures called ==>
      var callId := CallId(now, driver.value.id, suffix);
      st.calledDrivers == old(st.calledDrivers)[callId := NewCall(driver.value, callId, message, time)] &&
      st.actionHistory == App.Logged(old(st.actionHistory),
        LogEntry("Chamar Motorista", userRole,
                 "Motorista " + driver.value.fullName + " chamado. Destino: " + OrElse(driver.value.destination, NotSpecified),
                 stamp.timestamp, stamp.id))
  {
    if driver.None? || Blank(message) {
      return false;
    }
    var d := driver.value;
    var callId := CallId(now, d.id, suffix);
    var allCalledDrivers := st.calledDrivers;
    allCalledDrivers := allCalledDrivers[callId := NewCall(d, callId, message, time)];
    st.calledDrivers := allCalledDrivers;
    App.LogAction(st, "Chamar Motorista", userRole,
                  App.Plain("Motorista " + d.fullName + " chamado. Destino: " + OrElse(d.destination, NotSpecified)), stamp);
    called := true;
  }

  /** The stored call names its driver and its own key, carries the message,
      the destination (or the placeholder) and the driver's password, and
      is active; under a key not used before it adds exactly one call. */
  lemma NewCallStoresDriverAndKey(calls: map<string, Call>, d: Driver, callId: string, message: string, time: string)
    ensures var c := calls[callId := NewCall(d, callId, message, time)][callId];
      c.callId == Some(callId) && c.driverId == Some(d.id) && c.message == message &&
      c.destination == OrElse(d.destination, NotSpecified) && c.destination != "" &&
      c.password == d.password && c.finalizedTimestamp == None
    ensures HasActiveCall(calls[callId := NewCall(d, callId, message, time)], d.id)
    ensures callId !in calls ==> |calls[callId := NewCall(d, callId, message, time)]| == |calls| + 1
  {
    assert calls[callId := NewCall(d, callId, message, time)][callId].driverId == Some(d.id);
  }

  /** `handleSaveDriverAction`: the stored list with the edited driver put
      in place of every driver with its id. */
  method HandleSaveDriverAction(st: Storage, updated: Driver, userRole: string, stamp: Stamp)
    modifies st`drivers, st`actionHistory
    ensures st.drivers == ReplaceById(old(st.drivers), updated)
    ensures st.actionHistory == App.Logged(old(st.actionHistory),
      LogEntry("Editar Motorista", userRole, "Dados do motorista " + updated.fullName + " atualizados.",
               stamp.timestamp, stamp.id))
  {
    st.drivers := ReplaceById(st.drivers, updated);
    App.LogAction(st, "Editar Motorista", userRole,
                  App.Plain("Dados do motorista " + updated.fullName + " atualizados."), stamp);
  }

  /** Once a call for a driver is confirmed, the checks refuse to open the
      dialog for that driver again. */
  lemma ConfirmedCallBlocksRecall(d: Driver, canCallDrivers: bool, calls: map<string, Call>,
                                  finalized: map<string, Call>, callId: string, message: string, time: string)
    ensures !OpenCallModalAction(d, canCallDrivers, calls[callId := NewCall(d, callId, message, time)], finalized).OpenDialog?
  {
    var calls' := calls[callId := NewCall(d, callId, message, time)];
    assert calls'[callId].driverId == Some(d.id);
  }

  /** The cascade delete clears everything that would stop the checks from
      opening the call dialog for a driver registered again under the same
      id. */
  lemma DeleteClearsCallBlockers(d: Driver, calls: map<string, Call>, finalized: map<string, Call>)
    requires CanBeCalled(d)
    ensures OpenCallModalAction(d, true, WithoutCallsOf(calls, d.id), finalized - {d.id}) == OpenDialog(d, CallPrompt(d))
  {
  }

  /** A delete removes the driver's active calls for good: no call left
      names the driver, and no finalized record stays under its id. */
  lemma DeleteCascades(calls: map<string, Call>, finalized: map<string, Call>, id: string)
    ensures !HasActiveCall(WithoutCallsOf(calls, id), id)
    ensures id !in finalized - {id}
    ensures forall k :: k in finalized && k != id ==> k in finalized - {id} && (finalized - {id})[k] == finalized[k]
  {
  }

  /** Saving agrees with registering when the edited driver exists and ids
      are unique, and leaves the list alone when the id is unknown. */
  lemma SaveAgreesWithRegister(ds: seq<Driver>, u: Driver)
    requires UniqueIds(ds)
    ensures HasId(ds, u.id) ==> ReplaceById(ds, u) == Registration.Upsert(ds, u)
    ensures !HasId(ds, u.id) ==> ReplaceById(ds, u) == ds
  {
    if HasId(ds, u.id) {
      var k := IndexOfId(ds, u.id);
      assert forall i :: 0 <= i < |ds| && i != k ==> ds[i].id != u.id;
    }
  }
}
