/** The records the dashboard keeps in browser storage, and the storage
    itself. Optional attributes that a record may lack (a driver's dock or
    service status, a call's dock) are the empty string here: every use of
    them in the dashboard is a truthiness test or an `x || default`, which
    treats a missing attribute and "" alike. */
module Model {
  import opened Seqs
  import Strings

  datatype Option<T> = None | Some(value: T)

  /** A registered driver (vehicle operator). */
  datatype Driver = Driver(
    id: string,
    fullName: string,
    phone: string,
    vehiclePlate: string,
    transporter: string,
    destination: string,
    dock: string,
    password: string,
    client: string,
    responsibleSeller: string,
    availabilityStatus: string,   // "online", "offline" or "busy"
    serviceStatus: string         // "disponivel", "em_servico", "em_progresso", "aguardando" or ""
  )

  /** One call of a driver to a dock. `driverId` and `callId` are absent
      (None) on calls stored by the driver-keyed variant of the call
      dialog, which writes neither. `finalizedTimestamp` is None while the
      call is active (JavaScript null); a time is milliseconds since the
      epoch. */
  datatype Call = Call(
    driverId: Option<string>,
    callId: Option<string>,
    message: string,
    timestamp: string,
    destination: string,
    dock: string,
    password: string,
    finalizedTimestamp: Option<int>
  )

  /** One entry of the audit log. */
  datatype LogEntry = LogEntry(action: string, userRole: string, details: string, timestamp: string, id: string)

  /** The time and unique id a log entry receives when it is written. */
  datatype Stamp = Stamp(timestamp: string, id: string)

  /** Outcome of the checks made before the call dialog opens. */
  datatype CallGuard =
    | AccessDenied           // the role may not call drivers
    | DriverUnavailable      // neither online nor busy
    | HasFinalizedCall       // a finalized record is kept under the driver's id
    | AlreadyCalled          // an active call for the driver exists
    | OpenDialog(driver: Driver, message: string)

  const NotSpecified := "Não especificado"
  const Available := "disponivel"

  /** A string attribute with a fallback: the empty (or missing) value is
      the only one JavaScript treats as false. */
  function OrElse(s: string, fallback: string): (r: string)
    ensures s != "" ==> r == s
    ensures s == "" ==> r == fallback
  {
    if s != "" then s else fallback
  }

  /** The driver with a missing service status read as "disponivel". */
  function WithDefaultStatus(d: Driver): (r: Driver)
    ensures r.serviceStatus != ""
    ensures d.serviceStatus == "" ==> r.serviceStatus == Available
    ensures d.serviceStatus != "" ==> r == d
    ensures r.(serviceStatus := d.serviceStatus) == d
  {
    d.(serviceStatus := OrElse(d.serviceStatus, Available))
  }

  predicate HasId(ds: seq<Driver>, id: string) {
    exists i :: 0 <= i < |ds| && ds[i].id == id
  }

  /** The first position holding a driver with `id`, or -1 when none does. */
  function IndexOfId(ds: seq<Driver>, id: string): (r: int)
    ensures -1 <= r < |ds|
    ensures r == -1 <==> !HasId(ds, id)
    ensures r >= 0 ==> ds[r].id == id && forall j :: 0 <= j < r ==> ds[j].id != id
  {
    if ds == [] then -1
    else if ds[0].id == id then 0
    else
      var k := IndexOfId(ds[1..], id);
      assert forall j :: 1 <= j < |ds| ==> ds[j] == ds[1..][j - 1];
      if k == -1 then -1 else k + 1
  }

  /** The first driver with `id`, if any. */
  function FindDriver(ds: seq<Driver>, id: string): (r: Option<Driver>)
    ensures r.Some? <==> HasId(ds, id)
    ensures r.Some? ==> r.value == ds[IndexOfId(ds, id)] && r.value.id == id
  {
    var i := IndexOfId(ds, id);
    if i == -1 then None else Some(ds[i])
  }

  /** No two drivers share an id. */
  predicate UniqueIds(ds: seq<Driver>) {
    forall i, j :: 0 <= i < j < |ds| ==> ds[i].id != ds[j].id
  }

  /** The registry without the drivers holding `id`, everything else kept
      in order. */
  function WithoutDriver(ds: seq<Driver>, id: string): (r: seq<Driver>)
    ensures !HasId(r, id)
    ensures forall d :: d in r <==> d in ds && d.id != id
    ensures IsSubsequence(r, ds)
  {
    var r := Filter(ds, (d: Driver) => d.id != id);
    assert forall i :: 0 <= i < |r| ==> r[i] in r;
    r
  }

  /** Every driver with u's id is replaced by u; nothing moves and no id
      changes. */
  function ReplaceById(ds: seq<Driver>, u: Driver): (r: seq<Driver>)
    ensures |r| == |ds|
    ensures forall i :: 0 <= i < |ds| ==> r[i].id == ds[i].id
    ensures forall i :: 0 <= i < |ds| && ds[i].id != u.id ==> r[i] == ds[i]
    ensures forall i :: 0 <= i < |ds| && ds[i].id == u.id ==> r[i] == u
  {
    seq(|ds|, i requires 0 <= i < |ds| => if ds[i].id == u.id then u else ds[i])
  }

  /** How a log entry names a driver: the registered driver's name, or the
      id itself when the driver is unknown or has no name. */
  function DisplayName(ds: seq<Driver>, id: string): (name: string)
    ensures !HasId(ds, id) ==> name == id
    ensures HasId(ds, id) && FindDriver(ds, id).value.fullName != "" ==> name == FindDriver(ds, id).value.fullName
    ensures name == id || (HasId(ds, id) && name == FindDriver(ds, id).value.fullName)
    ensures id != "" ==> name != ""
  {
    match FindDriver(ds, id)
    case Some(d) => OrElse(d.fullName, id)
    case None => id
  }

  /** Availability that lets a driver be called. */
  predicate CanBeCalled(d: Driver) {
    d.availabilityStatus == "online" || d.availabilityStatus == "busy"
  }

  /** The message the call dialog opens with. */
  function CallPrompt(d: Driver): string {
    "Motorista " + d.fullName + ", por favor, dirija-se ao local designado."
  }

  /** The key of a call: "call_", the clock reading, the driver's id and a
      random suffix (five base-36 digits in the dashboard), joined by "_". */
  function CallId(now: nat, driverId: string, suffix: string): (id: string)
    ensures "call_" <= id
    ensures |id| > 5 + |driverId| + |suffix|
  {
    "call_" + Strings.NatToString(now) + "_" + driverId + "_" + suffix
  }

  /** Joins a listing of a stored object with the registry: each entry
      whose key is a driver's id becomes a row built from that driver and
      the record; the others are dropped; rows keep the entry order. */
  function JoinByDriverKey<R(!new)>(entries: seq<(string, Call)>, ds: seq<Driver>, mk: (Driver, Call) -> R): (r: seq<R>)
    ensures |r| <= |entries|
    ensures forall x :: x in r ==>
      exists i :: 0 <= i < |entries| && HasId(ds, entries[i].0) && x == mk(FindDriver(ds, entries[i].0).value, entries[i].1)
    ensures forall i :: 0 <= i < |entries| && HasId(ds, entries[i].0) ==>
      mk(FindDriver(ds, entries[i].0).value, entries[i].1) in r
  {
    if entries == [] then []
    else
      var rest := JoinByDriverKey(entries[1..], ds, mk);
      assert forall i :: 1 <= i < |entries| ==> entries[i] == entries[1..][i - 1];
      match FindDriver(ds, entries[0].0)
      case Some(d) => [mk(d, entries[0].1)] + rest
      case None => rest
  }

  /** The keys of a listing that are registered drivers' ids. */
  ghost function DriverKeys(entries: seq<(string, Call)>, ds: seq<Driver>): set<string> {
    if entries == [] then {}
    else (if HasId(ds, entries[0].0) then {entries[0].0} else {}) + DriverKeys(entries[1..], ds)
  }

  /** A driver key is a key of the listing that is a driver's id. */
  lemma {:induction false} DriverKeysMembers(entries: seq<(string, Call)>, ds: seq<Driver>)
    ensures forall k :: k in DriverKeys(entries, ds) <==> HasId(ds, k) && exists i :: 0 <= i < |entries| && entries[i].0 == k
  {
    if entries != [] {
      DriverKeysMembers(entries[1..], ds);
      assert forall i :: 1 <= i < |entries| ==> entries[i] == entries[1..][i - 1];
    }
  }

  /** The driver keys of a listing of m are the keys of m that are
      drivers' ids. */
  lemma ListedDriverKeys(entries: seq<(string, Call)>, m: map<string, Call>, ds: seq<Driver>)
    requires Enumerates(entries, m)
    ensures DriverKeys(entries, ds) == set k | k in m && HasId(ds, k)
  {
    DriverKeysMembers(entries, ds);
  }

  /** With distinct keys, the first key is not among the driver keys of
      the rest. */
  lemma FirstKeyNotLater(entries: seq<(string, Call)>, ds: seq<Driver>)
    requires entries != []
    requires forall i, j :: 0 <= i < j < |entries| ==> entries[i].0 != entries[j].0
    ensures entries[0].0 !in DriverKeys(entries[1..], ds)
  {
    var rest := entries[1..];
    forall i | 0 <= i < |rest| ensures rest[i].0 != entries[0].0 {
      assert rest[i] == entries[i + 1];
    }
    DriverKeysMembers(rest, ds);
  }

  /** The join of a non-empty listing has one row more than the join of
      its tail exactly when the first key is a driver's id. */
  lemma JoinLengthStep<R(!new)>(entries: seq<(string, Call)>, ds: seq<Driver>, mk: (Driver, Call) -> R)
    requires entries != []
    ensures |JoinByDriverKey(entries, ds, mk)| ==
      (if HasId(ds, entries[0].0) then 1 else 0) + |JoinByDriverKey(entries[1..], ds, mk)|
  {
  }

  /** With distinct keys, the join has one row per driver key. */
  lemma {:induction false} JoinCount<R(!new)>(entries: seq<(string, Call)>, ds: seq<Driver>, mk: (Driver, Call) -> R)
    requires forall i, j :: 0 <= i < j < |entries| ==> entries[i].0 != entries[j].0
    ensures |JoinByDriverKey(entries, ds, mk)| == |DriverKeys(entries, ds)|
  {
    if entries != [] {
      var rest := entries[1..];
      var k0 := entries[0].0;
      forall i, j | 0 <= i < j < |rest| ensures rest[i].0 != rest[j].0 {
        assert rest[i] == entries[i + 1] && rest[j] == entries[j + 1];
      }
      JoinCount(rest, ds, mk);
      FirstKeyNotLater(entries, ds);
      JoinLengthStep(entries, ds, mk);
      var later := DriverKeys(rest, ds);
      if HasId(ds, k0) {
        assert DriverKeys(entries, ds) == {k0} + later;
        assert |{k0} + later| == 1 + |later|;
      }
    }
  }

  /** For a listing of a stored map's entries, the join holds exactly one
      row per key that is a registered driver's id, built from that
      driver and the record under the key. */
  lemma JoinListsStoredRecords<R(!new)>(entries: seq<(string, Call)>, m: map<string, Call>, ds: seq<Driver>,
                                         mk: (Driver, Call) -> R)
    requires Enumerates(entries, m)
    ensures forall x :: x in JoinByDriverKey(entries, ds, mk) ==>
      exists k :: k in m && HasId(ds, k) && x == mk(FindDriver(ds, k).value, m[k])
    ensures forall k :: k in m && HasId(ds, k) ==> mk(FindDriver(ds, k).value, m[k]) in JoinByDriverKey(entries, ds, mk)
    ensures |JoinByDriverKey(entries, ds, mk)| == |set k | k in m && HasId(ds, k)|
  {
    forall k | k in m && HasId(ds, k) ensures mk(FindDriver(ds, k).value, m[k]) in JoinByDriverKey(entries, ds, mk) {
      var i :| 0 <= i < |entries| && entries[i].0 == k;
    }
    JoinCount(entries, ds, mk);
    ListedDriverKeys(entries, m, ds);
  }

  /** The values kept in the browser's key-value storage, under the keys
      "drivers", "calledDrivers", "finalizedCalls", "actionHistory" and
      "userRole". A missing key reads as the empty collection. */
  class Storage {
    var drivers: seq<Driver>
    var calledDrivers: map<string, Call>
    var finalizedCalls: map<string, Call>
    var actionHistory: seq<LogEntry>
    var userRole: Option<string>

    constructor ()
      ensures drivers == [] && calledDrivers == map[] && finalizedCalls == map[]
      ensures actionHistory == [] && userRole == None
    {
      drivers := [];
      calledDrivers := map[];
      finalizedCalls := map[];
      actionHistory := [];
      userRole := None;
    }
  }
}
