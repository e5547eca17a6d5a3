/** src/components/AllFinalizedCallsModal.jsx: the listing of finalized
    calls (joined with their drivers, orphans dropped, most recently
    finalized first), its search, and reopening a finalized call. */
module FinalizedCalls {
  import opened Model
  import opened Seqs
  import opened Strings
  import App
  import DriverActions

  /** One row of the listing: the driver's record with the call's data laid
      over it. The call's dock replaces the driver's own. */
  datatype FinalizedItem = FinalizedItem(
    driver: Driver,
    callId: Option<string>,
    driverId: string,
    callMessage: string,
    callTimestamp: string,
    callDestination: string,
    dock: string,
    finalizedTimestamp: Option<int>,
    status: string
  )

  const Finalized := "finalized"

  function ItemOf(d: Driver, c: Call): (item: FinalizedItem)
    ensures item.driverId == d.id && item.status == Finalized && item.driver == d
    ensures item.callId == c.callId && item.dock == c.dock && item.finalizedTimestamp == c.finalizedTimestamp
  {
    FinalizedItem(d, c.callId, d.id, c.message, c.timestamp, c.destination, c.dock, c.finalizedTimestamp, Finalized)
  }

  /** The rows built from one listing of the stored entries. */
  function Join(entries: seq<(string, Call)>, ds: seq<Driver>): seq<FinalizedItem> {
    JoinByDriverKey(entries, ds, ItemOf)
  }

  /** The finalization time in milliseconds, a missing (null) time
      counting as the epoch, 0. */
  function TimeOf(x: FinalizedItem): (t: int)
    ensures x.finalizedTimestamp.Some? ==> t == x.finalizedTimestamp.value
    ensures x.finalizedTimestamp.None? ==> t == 0
  {
    match x.finalizedTimestamp
    case Some(t) => t
    case None => 0
  }

  /** Most recently finalized first. */
  predicate NewestFirst(s: seq<FinalizedItem>) {
    forall i, j :: 0 <= i < j < |s| ==> TimeOf(s[i]) >= TimeOf(s[j])
  }

  /** Inserts x before the first row finalized no later than it. */
  function InsertNewestFirst(x: FinalizedItem, s: seq<FinalizedItem>): (r: seq<FinalizedItem>)
    ensures multiset(r) == multiset(s) + multiset{x}
  {
    if s == [] then [x]
    else if TimeOf(s[0]) <= TimeOf(x) then [x] + s
    else
      assert s == [s[0]] + s[1..];
      [s[0]] + InsertNewestFirst(x, s[1..])
  }

  /** Inserting into a newest-first listing keeps it newest first. */
  lemma {:induction false} InsertKeepsNewestFirst(x: FinalizedItem, s: seq<FinalizedItem>)
    requires NewestFirst(s)
    ensures NewestFirst(InsertNewestFirst(x, s))
  {
    if s != [] && TimeOf(s[0]) > TimeOf(x) {
      InsertKeepsNewestFirst(x, s[1..]);
      InsertBelow(x, s[1..], TimeOf(s[0]));
      ConsNewestFirst(s[0], InsertNewestFirst(x, s[1..]));
    }
  }

  /** Inserting into rows no later than a bound, a row no later than it,
      gives rows no later than it. */
  lemma InsertBelow(x: FinalizedItem, s: seq<FinalizedItem>, bound: int)
    requires TimeOf(x) <= bound && forall i :: 0 <= i < |s| ==> TimeOf(s[i]) <= bound
    ensures forall j :: 0 <= j < |InsertNewestFirst(x, s)| ==> TimeOf(InsertNewestFirst(x, s)[j]) <= bound
  {
    var t := InsertNewestFirst(x, s);
    forall j | 0 <= j < |t| ensures TimeOf(t[j]) <= bound {
      assert t[j] in multiset(t);
      assert t[j] in s || t[j] == x;
    }
  }

  /** A row no earlier than every row of a newest-first list can go in
      front of it. */
  lemma ConsNewestFirst(a: FinalizedItem, t: seq<FinalizedItem>)
    requires NewestFirst(t) && forall j :: 0 <= j < |t| ==> TimeOf(t[j]) <= TimeOf(a)
    ensures NewestFirst([a] + t)
  {
    forall i, j | 0 <= i < j < |[a] + t| ensures TimeOf(([a] + t)[i]) >= TimeOf(([a] + t)[j]) {
      assert ([a] + t)[j] == t[j - 1];
      if i > 0 {
        assert ([a] + t)[i] == t[i - 1];
      }
    }
  }

  /** The sort of the listing by finalization time, latest first: the same
      rows, newest first; rows finalized at the same time keep their
      order, as in a stable sort. */
  function SortNewestFirst(s: seq<FinalizedItem>): (r: seq<FinalizedItem>)
    ensures multiset(r) == multiset(s)
    ensures NewestFirst(r)
  {
    if s == [] then []
    else
      assert s == [s[0]] + s[1..];
      var sorted := SortNewestFirst(s[1..]);
      InsertKeepsNewestFirst(s[0], sorted);
      InsertNewestFirst(s[0], sorted)
  }

  /** `fetchFinalizedCalls`' result for one listing of the stored entries. */
  function Listing(entries: seq<(string, Call)>, ds: seq<Driver>): (r: seq<FinalizedItem>)
    ensures NewestFirst(r)
    ensures multiset(r) == multiset(Join(entries, ds))
  {
    SortNewestFirst(Join(entries, ds))
  }

  /** The listing shows exactly the finalized records kept under the id of
      a registered driver, each once per key, as a "finalized" row whose
      `driverId` is its key, newest first. */
  lemma ListingIsJoin(entries: seq<(string, Call)>, fin: map<string, Call>, ds: seq<Driver>)
    requires Enumerates(entries, fin)
    ensures NewestFirst(Listing(entries, ds))
    ensures forall x :: x in Listing(entries, ds) ==>
      x.status == Finalized && x.driverId in fin && HasId(ds, x.driverId) &&
      x == ItemOf(FindDriver(ds, x.driverId).value, fin[x.driverId])
    ensures forall k :: k in fin && HasId(ds, k) ==> ItemOf(FindDriver(ds, k).value, fin[k]) in Listing(entries, ds)
    ensures |Listing(entries, ds)| == |set k | k in fin && HasId(ds, k)|
    ensures |Listing(entries, ds)| <= |fin|
  {
    var j := Join(entries, ds);
    var l := Listing(entries, ds);
    JoinListsStoredRecords(entries, fin, ds, ItemOf);
    assert |l| == |j| by {
      assert |multiset(l)| == |multiset(j)|;
    }
    forall x | x in l
      ensures x.status == Finalized && x.driverId in fin && HasId(ds, x.driverId) &&
              x == ItemOf(FindDriver(ds, x.driverId).value, fin[x.driverId])
    {
      assert x in multiset(l);
      assert x in j;
    }
    forall k | k in fin && HasId(ds, k) ensures ItemOf(FindDriver(ds, k).value, fin[k]) in l {
      assert ItemOf(FindDriver(ds, k).value, fin[k]) in multiset(j);
    }
    EnumerationSize(entries, fin);
  }

  /** The listing's search: name, plate, destination, dock or call id
      contains the term, ignoring case. */
  predicate CallMatches(x: FinalizedItem, term: string) {
    var t := Lower(term);
    Includes(Lower(x.driver.fullName), t) || Includes(Lower(x.driver.vehiclePlate), t) ||
    (x.callDestination != "" && Includes(Lower(x.callDestination), t)) ||
    (x.dock != "" && Includes(Lower(x.dock), t)) ||
    (x.callId.Some? && x.callId.value != "" && Includes(Lower(x.callId.value), t))
  }

  /** `filteredCalls`, in listing order. */
  function FilteredCalls(calls: seq<FinalizedItem>, term: string): (r: seq<FinalizedItem>)
    ensures forall x :: x in r <==> x in calls && CallMatches(x, term)
    ensures IsSubsequence(r, calls)
  {
    Filter(calls, (x: FinalizedItem) => CallMatches(x, term))
  }

  /** The key a reopened call is stored under: its call id, or the text
      "undefined" when the record has none. */
  function ReopenKey(callId: Option<string>): (key: string)
    ensures callId.Some? ==> key == callId.value
    ensures callId.None? ==> key == "undefined"
  {
    match callId
    case Some(k) => k
    case None => "undefined"
  }

  /** The stored collections after a reopen, or None when nothing changes. */
  datatype Reopened = Reopened(finalized: map<string, Call>, active: map<string, Call>)

  /** `handleReopenCall`'s effect on the stored collections: the finalized
      record under the row's `driverId` must exist and carry the row's call
      id; it then leaves the finalized records and reappears, active, under
      its call id. */
  function Reopen(fin: map<string, Call>, active: map<string, Call>, item: FinalizedItem): (r: Option<Reopened>)
    ensures r.Some? <==> item.driverId in fin && fin[item.driverId].callId == item.callId
    ensures r.Some? ==>
      var key := ReopenKey(item.callId);
      var c := fin[item.driverId];
      r.value.finalized == fin - {item.driverId} &&
      key in r.value.active && r.value.active[key] == c.(finalizedTimestamp := None) &&
      forall k :: k in active && k != key ==> k in r.value.active && r.value.active[k] == active[k]
  {
    if item.driverId !in fin || fin[item.driverId].callId != item.callId then None
    else
      var callData := fin[item.driverId];
      Some(Reopened(fin - {item.driverId}, active[ReopenKey(item.callId) := callData.(finalizedTimestamp := None)]))
  }

  /** A reopen moves one record: the finalized records lose one, the active
      calls gain at most one, the record keeps every field but its
      finalization time, and its call id is its key. */
  lemma ReopenMovesOneRecord(fin: map<string, Call>, active: map<string, Call>, item: FinalizedItem)
    requires Reopen(fin, active, item).Some?
    ensures var r := Reopen(fin, active, item).value;
      |r.finalized| == |fin| - 1 &&
      |active| <= |r.active| <= |active| + 1 &&
      r.active[ReopenKey(item.callId)].(finalizedTimestamp := fin[item.driverId].finalizedTimestamp) == fin[item.driverId] &&
      r.active[ReopenKey(item.callId)].finalizedTimestamp == None &&
      r.active[ReopenKey(item.callId)].callId == item.callId &&
      r.active.Keys == active.Keys + {ReopenKey(item.callId)}
  {
  }

  /** After a reopen, the call checks of the driver list no longer report
      a finalized record for the driver; when the record names the driver
      they report it as already called. */
  lemma ReopenedDriverIsAlreadyCalled(fin: map<string, Call>, active: map<string, Call>, item: FinalizedItem, d: Driver)
    requires d.id == item.driverId && CanBeCalled(d)
    requires Reopen(fin, active, item).Some?
    requires fin[item.driverId].driverId == Some(d.id)
    ensures var r := Reopen(fin, active, item).value;
      DriverActions.OpenCallModalAction(d, true, r.active, r.finalized) == AlreadyCalled
  {
    var r := Reopen(fin, active, item).value;
    assert r.active[ReopenKey(item.callId)].driverId == Some(d.id);
  }

  /** The state of the finalized-calls dialog. */
  class AllFinalizedCallsView {
    var finalizedCalls: seq<FinalizedItem>
    var searchTerm: string
    var isReportModalOpen: bool

    constructor ()
      ensures finalizedCalls == [] && searchTerm == "" && !isReportModalOpen
    {
      finalizedCalls := [];
      searchTerm := "";
      isReportModalOpen := false;
    }

    /** `fetchFinalizedCalls`, given the order in which the stored entries
        are enumerated. */
    method FetchFinalizedCalls(st: Storage, entries: seq<(string, Call)>)
      requires Enumerates(entries, st.finalizedCalls)
      modifies this`finalizedCalls
      ensures finalizedCalls == Listing(entries, st.drivers)
    {
      finalizedCalls := SortNewestFirst(Join(entries, st.drivers));
    }

    /** `handleReopenCall`: a row whose record is gone or carries another
        call id changes nothing; otherwise the record moves back to the
        active calls, the reopen is logged, the listing is refreshed and
        the report dialog closes. `entriesAfter` enumerates the finalized
        records without the row's key. */
    method HandleReopenCall(st: Storage, item: FinalizedItem, entriesAfter: seq<(string, Call)>,
                            userRole: string, stamp: Stamp)
      returns (reopened: bool)
      requires Enumerates(entriesAfter, st.finalizedCalls - {item.driverId})
      modifies this`finalizedCalls, this`isReportModalOpen, st`finalizedCalls, st`calledDrivers, st`actionHistory
      ensures reopened <==> Reopen(old(st.finalizedCalls), old(st.calledDrivers), item).Some?
      ensures !reopened ==> unchanged(this) && unchanged(st)
      ensures reopened ==>
        var r := Reopen(old(st.finalizedCalls), old(st.calledDrivers), item).value;
        st.finalizedCalls == r.finalized && st.calledDrivers == r.active &&
        st.actionHistory == App.Logged(old(st.actionHistory),
          LogEntry("Reabrir Chamada (Métricas)", userRole,
                   "Chamada " + ReopenKey(item.callId) + " do motorista " + item.driver.fullName + " reaberta.",
                   stamp.timestamp, stamp.id)) &&
        finalizedCalls == Listing(entriesAfter, st.drivers) && !isReportModalOpen
    {
      if item.driverId !in st.finalizedCalls || st.finalizedCalls[item.driverId].callId != item.callId {
        return false;
      }
      var callData := st.finalizedCalls[item.driverId];
      var storedFinalizedCalls := st.finalizedCalls;
      storedFinalizedCalls := storedFinalizedCalls - {item.driverId};
      st.finalizedCalls := storedFinalizedCalls;
      var storedCalledDrivers := st.calledDrivers;
      storedCalledDrivers := storedCalledDrivers[ReopenKey(item.callId) := callData.(finalizedTimestamp := None)];
      st.calledDrivers := storedCalledDrivers;
      App.LogAction(st, "Reabrir Chamada (Métricas)", userRole,
                    App.Plain("Chamada " + ReopenKey(item.callId) + " do motorista " + item.driver.fullName + " reaberta."),
                    stamp);
      FetchFinalizedCalls(st, entriesAfter);
      isReportModalOpen := false;
      reopened := true;
    }
  }
}
