# motorista_painel — a Dafny model of the dashboard's logic

motorista_painel is a React dashboard for a logistics yard. Staff register
drivers, call them to a dock, assign runs and follow an audit log. All of
its state lives in the browser's key-value storage:

- `drivers`: the registry, a list;
- `calledDrivers`: the active calls, an object;
- `finalizedCalls`: the finalized calls, an object;
- `actionHistory`: the audit log;
- `userRole`: the session role.

The logic sits in the components' event handlers. This project lifts it
out of the JSX and states what each handler does to that state.

Layout, one module per source file plus three shared ones:

- `Strings`: `trim`, `toLowerCase`, `includes` and the digit regexes.
- `Seqs`: `Array.prototype.filter`, subsequences, and how `Object.entries`
  lists a map.
- `Model`:
  - the records `Driver`, `Call` and `LogEntry`;
  - the helpers the handlers share (find, filter and map by id, the call id
    format, the join of a stored object with the drivers);
  - the class `Storage`, whose fields are the stored collections.
- `App`, `Login`, `Dashboard`, `Registration`, `DriverActions`,
  `DriverList`, `AssignRun`, `FinalizedCalls`, `Metrics`, `EditDriver`,
  `CallPanel`, `History`: one per component or library file.

How the source's shape is kept:

- A component whose handlers update its state is a class. Its fields are
  the component's state, and its handlers are methods. They take the
  `Storage` object and name exactly the fields they change.
- Code that only computes (searches, joins, guards, tables) is functions.
- The counters of the metrics panel are computed by a loop, as in the
  source.

Two keying conventions for active calls coexist, as in the source:

- The driver list tab (`DriverList`) and the call panel (`CallPanel`) key
  calls by driver id.
- Run assignment, the shared handlers and reopening key them by a call id
  `call_<time>_<driverId>_<random>`.

Each operation is stated with the key it uses. Lemmas show where the two
conventions meet:

- `Metrics.CallIdKeyedCallsAreNotSeen`;
- `CallPanel.CallIdKeyedCallsAreHidden`;
- `AssignRun.AssignAcceptsWhatCallRefuses`.

No invariant that a call lives in exactly one collection is claimed: the
code does not keep one. There is no finalize operation in the code, so
only reopening is modelled.

Conventions:

- An attribute a stored record may lack (a driver's dock or service status,
  a call's dock) is the empty string. Every use of such an attribute is a
  truthiness test or an `x || default`, which treat a missing value and
  `""` alike.
- A call's `driverId` and `callId` are `Option`s, because the driver-keyed
  call stores neither.
- Ids, clock readings and random suffixes are parameters.
- `window.confirm` is a boolean parameter.
- The order in which `Object.entries` lists a stored object is a parameter
  `entries`. The ghost predicate `Seqs.Enumerates` ties it to the map.

## Model

| member | source | states |
|---|---|---|
| App.DetailsText | src/App.jsx:12 | a string detail is stored unchanged; an object is stored as a `{…}` text |
| App.Logged | src/App.jsx:16-19 | the new entry is first. Below 100 entries the old log follows it unchanged. At 100 the oldest entry is dropped and the other 99 keep their order. A log within 100 stays within 100 |
| App.LogAllBounded | src/App.jsx:16-19 | from a log within the bound, any run of logging leaves min(old + new, 100) entries, with the last entry logged first |
| App.LogAction | src/App.jsx:7-22 | the stored log becomes `Logged` of the old log and an entry with action and role verbatim and the details as text |
| App.Session.constructor | src/App.jsx:28-33 | a non-empty stored role is restored, otherwise there is no session |
| App.Session.HandleLogin | src/App.jsx:35-38 | the role is set and stored, then "Login" is logged with that role |
| App.Session.HandleLogout | src/App.jsx:45-48 | "Logout" is logged with the role still in force, then the role is cleared and removed from storage |
| App.LoginLandsOnVisibleTab | src/components/Dashboard.jsx:40-91 | every role a password logs in as has a permission row, and its first tab is one that row shows |
| Login.RoleForPassword | src/components/LoginScreen.jsx:25-37 | "123", "master123" and "adm123" log in as motorista, master and adm, each iff; any other password logs in as nobody |
| Login.LoginScreen.constructor | src/components/LoginScreen.jsx:16-17 | empty password, not loading |
| Login.LoginScreen.HandleSubmit | src/components/LoginScreen.jsx:20-40 | at most one login, with the matched role; afterwards the field is empty and loading is off |
| Dashboard.PermissionTable | src/components/Dashboard.jsx:55-89 | the table has rows for exactly master, adm and motorista |
| Dashboard.PermissionsFor | src/components/Dashboard.jsx:91 | a known role gets its row; any other role gets motorista's |
| Dashboard.MotoristaOnlyViewsDriverPanel | src/components/Dashboard.jsx:78-91 | motorista, and any unknown role, has every flag false except viewing the driver panel |
| Dashboard.AdmIsMasterWithoutOverviewAndHistory | src/components/Dashboard.jsx:55-77 | adm's row is master's with the overview and history flags turned off |
| Dashboard.InitialTab | src/components/Dashboard.jsx:40-46 | motorista lands on "painel_motorista", adm on "motoristas", master on "painel"; another role keeps the current tab |
| Dashboard.InitialTabIsVisible | src/components/Dashboard.jsx:40-46 | each known role's first tab is one its permissions show |
| Dashboard.DashboardView.constructor | src/components/Dashboard.jsx:24-26 | tab "painel", no drivers, key 0 |
| Dashboard.DashboardView.RefreshData | src/components/Dashboard.jsx:28-32 | the drivers are reloaded and the metrics key goes up by exactly one |
| Dashboard.DashboardView.SelectInitialTab | src/components/Dashboard.jsx:40-46 | the active tab becomes the initial tab of the role |
| Registration.EmptyForm | src/components/DriverRegistrationForm.jsx:84-96 | the reset form: id, name, phone, plate, transporter, destination, dock, client, seller and password all empty; availability "online"; status "disponivel" |
| Registration.FieldErrors | src/components/DriverRegistrationForm.jsx:28-34 | blank name or plate is an error. A blank phone gives the "required" error. Otherwise the phone errs iff its digits number neither 10 nor 11. A password errs iff it is non-empty and not exactly 3 digits |
| Registration.ValidIff | src/components/DriverRegistrationForm.jsx:30-37 | no errors iff name, plate and phone are filled, the phone has 10 or 11 digits and the password is empty or 3 digits |
| Registration.GeneratedId | src/components/DriverRegistrationForm.jsx:63 | a generated id starts with "driver_" |
| Registration.WithId | src/components/DriverRegistrationForm.jsx:63 | a non-empty id is kept, an empty one replaced by a generated one; the id is never empty |
| Registration.Upsert | src/components/DriverRegistrationForm.jsx:66-72 | an existing id: the first driver with it is replaced in place, nothing else changes. A new id: the driver is appended |
| Registration.UpsertKeepsIdsUnique | src/components/DriverRegistrationForm.jsx:66-72 | registering into a registry with unique ids keeps them unique and leaves exactly one driver with the id |
| Registration.UpsertIdempotent | src/components/DriverRegistrationForm.jsx:66-72 | submitting the same driver twice equals submitting it once |
| Registration.RegistrationForm.constructor | src/components/DriverRegistrationForm.jsx:13-26 | the form starts empty with no errors |
| Registration.RegistrationForm.ValidateForm | src/components/DriverRegistrationForm.jsx:28-38 | the errors become `FieldErrors` of the form; valid iff there are none |
| Registration.RegistrationForm.HandleSubmit | src/components/DriverRegistrationForm.jsx:52-97 | an invalid form leaves drivers and log alone. A valid one is upserted under its id, "Cadastrar Motorista" is logged, and the form resets |
| Model.OrElse | src/lib/driverListActions.js:101-102 | `x || fallback` on a string attribute: a non-empty value is kept, an empty or missing one gives the fallback |
| Seqs.Filter | src/components/DriverList.jsx:52-56 | keeps every occurrence of each accepted element and none of the rejected ones (equal multiplicities), in their order, never more than there were |
| Strings.TrimStart | src/components/DriverRegistrationForm.jsx:30 | only leading white space is removed, and the result does not start with white space |
| Strings.TrimEnd | src/components/DriverRegistrationForm.jsx:30 | only trailing white space is removed, and the result does not end with white space |
| Strings.NatToString | src/lib/driverListActions.js:92 | the decimal text of a clock reading is non-empty and all digits |
| Model.WithDefaultStatus | src/components/DriverList.jsx:31 | a missing status becomes "disponivel"; a set status is kept; nothing else changes |
| Model.IndexOfId | src/components/DriverRegistrationForm.jsx:66 | -1 iff no driver has the id, otherwise the first position holding it |
| Model.FindDriver | src/lib/driverListActions.js:6 | found iff some driver has the id, and then it is the first such driver |
| Model.WithoutDriver | src/lib/driverListActions.js:8 | no driver with the id is left; every other driver is kept, in order |
| Model.ReplaceById | src/lib/driverListActions.js:132 | same length and ids; drivers with the id become the edited driver; the rest are untouched |
| Model.CallId | src/lib/driverListActions.js:92 | a call id starts with "call_" and is longer than the driver id and suffix together |
| Model.DisplayName | src/lib/driverListActions.js:28 | an unknown id is named by itself; a registered driver with a name is named by it; the name is the id or that driver's name, and never empty for a non-empty id |
| Model.JoinByDriverKey | src/components/DriverCallPanel.jsx:20-32 | every row comes from an entry whose key is a driver's id, and every such entry gives a row |
| Model.JoinListsStoredRecords | src/components/DriverCallPanel.jsx:20-32 | for a listing of a stored map, every row comes from a key that is a registered driver's id, every such key gives its row, and there are exactly as many rows as such keys |
| Strings.TrimEmptyIffBlank | src/components/DriverRegistrationForm.jsx:30 | a string trims to nothing iff it is all white space |
| Strings.StripNonDigits | src/components/DriverRegistrationForm.jsx:32 | removing non-digits leaves only digits, never more characters |
| Strings.StripNonDigitsKeepsDigits | src/components/DriverRegistrationForm.jsx:32 | stripping is filtering by digit: every digit of the phone is kept, as often as it occurs and in order, and nothing else |
| Strings.Trim | src/components/DriverRegistrationForm.jsx:30 | the result is a contiguous slice of the input with only white space before and after it, and it neither starts nor ends with white space |
| Strings.Lower | src/components/DriverList.jsx:53-55 | same length; each ASCII capital becomes its small letter, every other character is kept |
| Strings.Upper | src/App.jsx:38 | same length; each ASCII small letter becomes its capital, every other character is kept |
| Strings.IncludesIffOccurs | src/components/DriverList.jsx:53-55 | the search test holds iff the term is the slice of the text at some position |
| DriverActions.WithoutCallsOf | src/lib/driverListActions.js:15-19 | an active call stays iff its `driverId` is not the deleted driver's, under its own key |
| DriverActions.HandleDeleteDriverAction | src/lib/driverListActions.js:1-34 | without permission or confirmation nothing changes. Otherwise the driver leaves the list, every active call naming it goes, and its finalized record goes; all else stays, and the delete is logged |
| DriverActions.OpenCallModalAction | src/lib/driverListActions.js:36-81 | opens iff permitted, online or busy, no finalized record under the id and no active call naming the driver; rejections come in that order |
| DriverActions.ConfirmCallDriverAction | src/lib/driverListActions.js:83-106 | no driver or a blank message: nothing changes. Otherwise the call is stored under its call id beside the others and logged |
| DriverActions.NewCall | src/lib/driverListActions.js:96-103 | the record names the driver and its own key, carries message and time, the driver's destination or "Não especificado", no dock, the driver's password, and is not finalized |
| DriverActions.NewCallStoresDriverAndKey | src/lib/driverListActions.js:92-104 | the stored call names the driver and its own key, has the placeholder destination when none is set, and is active; under a new key it adds exactly one call |
| DriverActions.HandleSaveDriverAction | src/lib/driverListActions.js:130-137 | the stored list gets the edited driver in place of each driver with its id; the edit is logged |
| DriverActions.ConfirmedCallBlocksRecall | src/lib/driverListActions.js:54-76 | after a confirmed call the checks refuse to call that driver again |
| DriverActions.DeleteClearsCallBlockers | src/lib/driverListActions.js:15-24 | after the cascade, a callable driver with the same id passes the checks again |
| DriverActions.DeleteCascades | src/lib/driverListActions.js:15-24 | no active call names the deleted driver, its finalized record is gone, other finalized records stay |
| DriverActions.SaveAgreesWithRegister | src/lib/driverListActions.js:131-133 | with unique ids, saving an existing driver equals registering it, and saving an unknown id changes nothing |
| DriverList.WithDefaultStatuses | src/components/DriverList.jsx:31 | each loaded driver is the stored one with its status defaulted |
| DriverList.DefaultStatusesProperties | src/components/DriverList.jsx:29-34 | every loaded status is set, set statuses are kept, a missing one becomes "disponivel", and loading twice is loading once |
| DriverList.SearchDrivers | src/components/DriverList.jsx:52-56 | a driver is listed iff the lower-cased term occurs in its lower-cased name, plate or transporter; order is kept |
| DriverList.EmptySearchListsAll | src/components/DriverList.jsx:52-56 | an empty term lists every driver in order |
| DriverList.CallGuardByDriverKey | src/components/DriverList.jsx:82-106 | opens iff permitted, online or busy, and no call is stored under the driver's id; rejections in that order |
| DriverList.DriverKeyedCall | src/components/DriverList.jsx:121-127 | the record kept under the driver's id has no driverId, callId or dock; it carries message and time, the destination or "Não especificado", and the password, and is not finalized |
| DriverList.ConfirmedCallBlocksRecall | src/components/DriverList.jsx:96-130 | after this tab stores a call under a driver's id, calling that driver again is refused |
| DriverList.DriverListView.constructor | src/components/DriverList.jsx:15-21 | empty lists, closed dialog |
| DriverList.DriverListView.FetchDriversData | src/components/DriverList.jsx:29-34 | the tab's drivers are the stored ones with statuses defaulted; its calls are the stored calls |
| DriverList.DriverListView.HandleDeleteDriver | src/components/DriverList.jsx:58-80 | without permission or confirmation nothing changes. Otherwise the tab's list minus the driver and its calls minus the key equal to the id are stored; finalized records are untouched; the delete is logged |
| DriverList.DriverListView.OpenCallModal | src/components/DriverList.jsx:82-110 | the dialog opens with the driver and the default message iff the checks pass; otherwise nothing changes |
| DriverList.DriverListView.ConfirmCallDriver | src/components/DriverList.jsx:112-145 | no driver or a blank message: nothing changes. Otherwise the call is stored under the driver's id, replacing any call there, with the placeholder destination and the password defaulted. Then it is logged and the dialog is cleared |
| DriverList.DriverListView.HandleSaveDriver | src/components/DriverList.jsx:156-168 | the tab's list with the edited driver in place of each driver with its id is stored and logged |
| AssignRun.SearchRunDrivers | src/components/AssignRun.jsx:40-45 | as the driver search, and also matching a dock when the driver has one; order kept |
| AssignRun.RunSearchWidensDriverSearch | src/components/AssignRun.jsx:40-45 | the driver list's results are a subsequence of this tab's results for the same term |
| AssignRun.AssignCheck | src/components/AssignRun.jsx:47-59 | opens iff permitted and the driver is not exactly "offline" |
| AssignRun.RunCall | src/components/AssignRun.jsx:80-88 | the run names the driver and its key, carries message and time, the destination and dock typed in the dialog, and the driver's password, and is not finalized |
| AssignRun.CallableIsAssignable | src/components/AssignRun.jsx:48-59 | any driver the call checks accept can be given a run |
| AssignRun.AssignAcceptsWhatCallRefuses | src/components/AssignRun.jsx:47-65 | a run can go to a driver already called, to one with a finalized record, or to one with an unknown availability, all of which the call checks refuse |
| AssignRun.AssignRunView.constructor | src/components/AssignRun.jsx:12-19 | empty list, closed dialog, empty fields |
| AssignRun.AssignRunView.FetchDriversData | src/components/AssignRun.jsx:21-24 | the stored drivers, as stored |
| AssignRun.AssignRunView.OpenAssignModal | src/components/AssignRun.jsx:47-65 | when the checks pass, the dialog opens with the driver, "Corrida para X. Detalhes: ", and the driver's destination and dock or ""; otherwise nothing changes |
| AssignRun.AssignRunView.ConfirmAssignRun | src/components/AssignRun.jsx:67-108 | no driver or a blank destination: nothing changes; an empty message is accepted. Otherwise the run is stored under its call id beside all other calls, without any per-driver check. It records the driver, the key, the destination, the dock and the password; it is logged and the dialog cleared |
| FinalizedCalls.ItemOf | src/components/AllFinalizedCallsModal.jsx:23-33 | a row has status "finalized", the driver's id as `driverId`, and the call's id, dock and finalization time |
| FinalizedCalls.TimeOf | src/components/AllFinalizedCallsModal.jsx:38 | the sort key is the finalization time; a null time counts as 0 |
| FinalizedCalls.InsertNewestFirst | src/components/AllFinalizedCallsModal.jsx:38 | inserting adds exactly that row |
| FinalizedCalls.InsertKeepsNewestFirst | src/components/AllFinalizedCallsModal.jsx:38 | inserting into a newest-first list keeps it newest first |
| FinalizedCalls.SortNewestFirst | src/components/AllFinalizedCallsModal.jsx:38 | the result is a permutation of the rows, most recently finalized first |
| FinalizedCalls.Listing | src/components/AllFinalizedCallsModal.jsx:15-40 | the listing is the joined rows, newest first |
| FinalizedCalls.ListingIsJoin | src/components/AllFinalizedCallsModal.jsx:19-38 | the listing holds exactly the finalized records under a registered driver's id, one row per such key, orphans dropped. Each is a "finalized" row whose `driverId` is its key; the rows are newest first |
| FinalizedCalls.FilteredCalls | src/components/AllFinalizedCallsModal.jsx:83-89 | a row is listed iff the term occurs, ignoring case, in name, plate, destination, dock or call id; order kept |
| FinalizedCalls.ReopenKey | src/components/AllFinalizedCallsModal.jsx:67 | a reopened call is stored under its call id, or under the text "undefined" when the record has none |
| FinalizedCalls.Reopen | src/components/AllFinalizedCallsModal.jsx:54-68 | nothing happens unless a record sits under the row's `driverId` with the row's call id. Then it leaves the finalized records and reappears under its call id with no finalization time, other active calls untouched |
| FinalizedCalls.ReopenMovesOneRecord | src/components/AllFinalizedCallsModal.jsx:63-68 | the finalized records lose exactly one. The active keys gain the call id. The record keeps every other field, including its call id |
| FinalizedCalls.ReopenedDriverIsAlreadyCalled | src/components/AllFinalizedCallsModal.jsx:63-68 | after a reopen the call checks see the driver as already called, no longer as finalized |
| FinalizedCalls.AllFinalizedCallsView.constructor | src/components/AllFinalizedCallsModal.jsx:10-13 | empty listing, closed report |
| FinalizedCalls.AllFinalizedCallsView.FetchFinalizedCalls | src/components/AllFinalizedCallsModal.jsx:15-40 | the listing becomes `Listing` of the stored records and drivers |
| FinalizedCalls.AllFinalizedCallsView.HandleReopenCall | src/components/AllFinalizedCallsModal.jsx:54-76 | a missing record or another call id changes nothing. Otherwise the stored collections become `Reopen`'s result, the reopen is logged, the listing refreshed and the report closed |
| Metrics.Classify | src/components/MetricsPanel.jsx:22-33 | "aguardando" counts as awaiting a status, "em_servico"/"em_progresso" as in service. Awaiting a call means online, no call under the id, and status "disponivel" (or none). Each is an iff |
| Metrics.CountOf | src/components/MetricsPanel.jsx:22-34 | a count never exceeds the number of drivers |
| Metrics.CalculateMetrics | src/components/MetricsPanel.jsx:12-38 | the total is the number of stored drivers, and each counter counts exactly the drivers of its category |
| Metrics.CountsPartition | src/components/MetricsPanel.jsx:27-33 | each driver falls in exactly one category: the four counts sum to the total |
| Metrics.CountersWithinTotal | src/components/MetricsPanel.jsx:27-33 | the three counters sum to at most the total |
| Metrics.CallIdKeyedCallsAreNotSeen | src/components/MetricsPanel.jsx:23-32 | a driver whose call is stored under a call id still counts as awaiting a call |
| Metrics.AwaitingStatusWins | src/components/MetricsPanel.jsx:27-28 | "aguardando" counts as awaiting a status whatever the availability or calls |
| Metrics.MetricsPanel.constructor | src/components/MetricsPanel.jsx:6-9 | all counters 0 |
| Metrics.MetricsPanel.Refresh | src/components/MetricsPanel.jsx:12-38 | the counters become those of the stored drivers and calls |
| EditDriver.SeedForm | src/components/EditDriverModal.jsx:14-20 | no driver gives no form. A driver with a status is the form as it is. A driver without one gets "disponivel", everything else unchanged |
| EditDriver.MissingFields | src/components/EditDriverModal.jsx:35-36 | a field is listed iff it is required and empty; listed in the required order |
| EditDriver.EditSubmit | src/components/EditDriverModal.jsx:31-47 | no form does nothing. Missing fields are reported, and saving happens iff none are missing, with the form data unchanged |
| EditDriver.SavedIffRequiredFilled | src/components/EditDriverModal.jsx:35-46 | the edit is saved iff name, phone, plate, transporter and seller are all non-empty |
| EditDriver.MissingListsEmptyField | src/components/EditDriverModal.jsx:35-36 | an empty required field makes the missing list non-empty |
| EditDriver.EditAcceptsWhatRegistrationRejects | src/components/EditDriverModal.jsx:36 | every form whose required fields are non-empty is saved on edit, including fields of white space only, which registration reports as blank (name, phone, plate) |
| CallPanel.PanelItemOf | src/components/DriverCallPanel.jsx:23-29 | a card carries the driver with the call's message, time and destination |
| CallPanel.PanelListsDriverKeyedCalls | src/components/DriverCallPanel.jsx:20-33 | the panel shows one card per active call kept under a registered driver's id, and no other: as many cards as such keys |
| CallPanel.CallIdKeyedCallsAreHidden | src/components/DriverCallPanel.jsx:20-33 | calls whose keys are no driver's id show no card |
| CallPanel.FilteredCalledDrivers | src/components/DriverCallPanel.jsx:72-77 | a card is listed iff the term occurs, ignoring case, in name, plate, destination or message; order kept |
| CallPanel.CardDrivers | src/components/DriverCallPanel.jsx:55 | the drivers of the cards, position by position |
| CallPanel.RemovedDriverCanBeCalledAgain | src/components/DriverCallPanel.jsx:55-57 | after its key is removed, a callable driver passes the driver list's checks again |
| CallPanel.DriverCallPanelView.constructor | src/components/DriverCallPanel.jsx:10-12 | no cards, no drivers, empty search |
| CallPanel.DriverCallPanelView.FetchCalledDrivers | src/components/DriverCallPanel.jsx:14-34 | the cards are the join of the stored calls with the stored drivers |
| CallPanel.DriverCallPanelView.HandleRemoveFromPanel | src/components/DriverCallPanel.jsx:49-66 | without permission nothing changes. Otherwise exactly the key leaves the active calls, drivers and finalized records stay, the removal is logged and the panel refreshed |
| History.FilteredHistory | src/components/ActionHistory.jsx:74-80 | an entry is shown iff the term occurs, ignoring case, in action, details or role, and the role filter is "todos" or that role. The entries keep the log's order |
| History.UnfilteredShowsAll | src/components/ActionHistory.jsx:74-80 | no term and "todos" show the whole log |
| History.RoleFilterAlone | src/components/ActionHistory.jsx:78 | with no term, another role filter shows exactly that role's entries |

## Left out

- Rendering, animation, toasts, tab switches after a call, and the report and view dialogs are not modelled. They are presentation only.
- `openEditModal`, `openEditModalAction`, `openViewModal`, `openViewModalAction`, `openReport`, and the field-change handlers are not modelled. They only open a dialog or copy a typed value into the form.
- JSON parsing and serialisation of storage are not modelled; the collections are held as values. `App.DetailsText` writes an object detail without JSON string escaping.
- Custom events, their listeners and the panel's five-second polling are not modelled. The refetch they trigger is modelled where the handler itself calls it.
- The login's one-second timer is not modelled; only the comparison inside it is.
- `Date.now`, `Math.random`, `toISOString` and `toLocaleTimeString` are not modelled. Their values are parameters. Finalization times are milliseconds; a null time counts as 0, as `new Date(null)` does. A missing time (`NaN`) is not modelled.
- `Strings.Lower`, `Strings.Upper`: ASCII case mapping only, not the Unicode mapping of `toLowerCase`/`toUpperCase`.
- `Strings.IsWhitespace`: the white space of `trim` restricted to the ASCII and Latin-1 characters and the byte-order mark.
- The order of `Object.entries` is not computed from insertion order. It is a parameter, constrained only to list each key once.
- `FinalizedCalls.SortNewestFirst` is a stable insertion sort, and stability is not proved. Only the newest-first order and the permutation are.
- `App.Session.HandleLogout`: requires a session role, since the logout button only exists while one is set; with none the source would fail on `toUpperCase`.
- Property lookups that would reach `Object.prototype`, such as a driver id `"constructor"`, are not modelled. Stored objects are plain maps.
- The edit form's `onSave` callback is modelled as the `Save` outcome carrying the form data. Which handler receives it depends on the parent.
- Interleavings between tabs that each hold a stale copy of storage are not modelled; each handler is atomic.
