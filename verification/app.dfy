/** src/App.jsx: the bounded, newest-first audit log (`logAction`) and the
    session role set at login and cleared at logout. */
module App {
  import opened Model
  import opened Strings
  import Login
  import Dashboard

  /** The audit log keeps at most this many entries. */
  const MaxHistory := 100

  /** The `details` argument of `logAction`: a string, or an object that
      is stored serialised. */
  datatype Details = Plain(text: string) | Fields(pairs: seq<(string, string)>)

  function Quoted(s: string): string {
    "\"" + s + "\""
  }

  function Members(pairs: seq<(string, string)>): string {
    if pairs == [] then ""
    else
      Quoted(pairs[0].0) + ":" + Quoted(pairs[0].1) +
      (if |pairs| > 1 then "," + Members(pairs[1..]) else "")
  }

  /** The text a log entry stores: a string detail as it is, an object
      (here one whose values are strings) as its JSON text. */
  function DetailsText(d: Details): (r: string)
    ensures d.Plain? ==> r == d.text
    ensures d.Fields? ==> |r| >= 2 && r[0] == '{' && r[|r| - 1] == '}'
    ensures d == Fields([]) ==> r == "{}"
  {
    match d
    case Plain(text) => text
    case Fields(pairs) => "{" + Members(pairs) + "}"
  }

  /** The history with the new entry put in front and, when that makes it
      longer than the bound, its last entry dropped. */
  function Logged(history: seq<LogEntry>, e: LogEntry): (r: seq<LogEntry>)
    ensures |r| > 0 && r[0] == e
    ensures |history| <= MaxHistory ==> |r| <= MaxHistory
    ensures |history| < MaxHistory ==> r == [e] + history
    ensures |history| == MaxHistory ==> r == [e] + history[..MaxHistory - 1]
    ensures |history| >= MaxHistory ==> |r| == |history|
  {
    var pushed := [e] + history;
    if |pushed| > MaxHistory then pushed[..|pushed| - 1] else pushed
  }

  /** The history after logging `es` one after another, oldest first. */
  function LogAll(history: seq<LogEntry>, es: seq<LogEntry>): seq<LogEntry>
    decreases |es|
  {
    if es == [] then history else LogAll(Logged(history, es[0]), es[1..])
  }

  function Min(a: int, b: int): int {
    if a <= b then a else b
  }

  /** From a history within the bound, any run of logging keeps the history
      within the bound: it grows to at most 100 entries and the last entry
      logged comes first. */
  lemma {:induction false} LogAllBounded(history: seq<LogEntry>, es: seq<LogEntry>)
    requires |history| <= MaxHistory
    ensures |LogAll(history, es)| == Min(|history| + |es|, MaxHistory)
    ensures es != [] ==> LogAll(history, es)[0] == es[|es| - 1]
    decreases |es|
  {
    if es != [] {
      var h' := Logged(history, es[0]);
      LogAllBounded(h', es[1..]);
      if |es| == 1 {
        assert es[1..] == [];
      } else {
        assert es[1..][|es[1..]| - 1] == es[|es| - 1];
      }
    }
  }

  /** Logging an action: the entry stores action and role verbatim and the
      details as text, and goes to the front. */
  method LogAction(st: Storage, action: string, userRole: string, details: Details, stamp: Stamp)
    modifies st`actionHistory
    ensures st.actionHistory ==
      Logged(old(st.actionHistory), LogEntry(action, userRole, DetailsText(details), stamp.timestamp, stamp.id))
    ensures |old(st.actionHistory)| <= MaxHistory ==> |st.actionHistory| <= MaxHistory
  {
    var entry := LogEntry(action, userRole, DetailsText(details), stamp.timestamp, stamp.id);
    var history := st.actionHistory;
    history := [entry] + history;
    if |history| > MaxHistory {
      history := history[..|history| - 1];
    }
    st.actionHistory := history;
  }

  /** The session role held by the application component. */
  class Session {
    var userRole: Option<string>

    /** On mount, a non-empty role found in storage is restored. */
    constructor (st: Storage)
      ensures userRole == if st.userRole.Some? && st.userRole.value != "" then st.userRole else None
    {
      if st.userRole.Some? && st.userRole.value != "" {
        userRole := st.userRole;
      } else {
        userRole := None;
      }
    }

    /** `handleLogin`: the role is set and stored, then "Login" is logged
        with that role. */
    method HandleLogin(st: Storage, role: string, stamp: Stamp)
      modifies this, st`userRole, st`actionHistory
      ensures userRole == Some(role) && st.userRole == Some(role)
      ensures st.actionHistory == Logged(old(st.actionHistory),
        LogEntry("Login", role, "Usuário " + Upper(role) + " acessou o sistema.", stamp.timestamp, stamp.id))
    {
      userRole := Some(role);
      st.userRole := Some(role);
      LogAction(st, "Login", role, Plain("Usuário " + Upper(role) + " acessou o sistema."), stamp);
    }

    /** `handleLogout`: "Logout" is logged with the role still in force,
        then the role is cleared and removed from storage. */
    method HandleLogout(st: Storage, stamp: Stamp)
      requires userRole.Some?
      modifies this, st`userRole, st`actionHistory
      ensures userRole == None && st.userRole == None
      ensures st.actionHistory == Logged(old(st.actionHistory),
        LogEntry("Logout", old(userRole).value, "Usuário " + Upper(old(userRole).value) + " saiu do sistema.",
                 stamp.timestamp, stamp.id))
    {
      var role := userRole.value;
      LogAction(st, "Logout", role, Plain("Usuário " + Upper(role) + " saiu do sistema."), stamp);
      userRole := None;
      st.userRole := None;
    }
  }

  /** Every role a password can log in as has its own row in the permission
      table, and its first tab is one that row lets it see. */
  lemma LoginLandsOnVisibleTab(password: string)
    requires Login.RoleForPassword(password).Some?
    ensures Login.RoleForPassword(password).value in Dashboard.PermissionTable()
    ensures Dashboard.CanView(Dashboard.PermissionsFor(Login.RoleForPassword(password).value),
                              Dashboard.InitialTab(Login.RoleForPassword(password).value, Dashboard.DefaultTab))
  {
  }
}
