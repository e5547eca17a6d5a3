/** src/components/ActionHistory.jsx: the search and role filter over the
    audit log. */
module History {
  import opened Model
  import opened Seqs
  import opened Strings

  /** The role filter value that accepts every entry. */
  const AllRoles := "todos"

  /** The term occurs, ignoring case, in the action, the details or (when
      there is one) the role. */
  predicate TermMatches(e: LogEntry, term: string) {
    var t := Lower(term);
    Includes(Lower(e.action), t) || Includes(Lower(e.details), t) ||
    (e.userRole != "" && Includes(Lower(e.userRole), t))
  }

  /** "todos" accepts every role; any other value only that exact role. */
  predicate RoleMatches(e: LogEntry, filterRole: string) {
    filterRole == AllRoles || e.userRole == filterRole
  }

  /** `filteredHistory`: the entries matching both, newest first as in the
      log. */
  function FilteredHistory(history: seq<LogEntry>, term: string, filterRole: string): (r: seq<LogEntry>)
    ensures forall e :: e in r <==> e in history && TermMatches(e, term) && RoleMatches(e, filterRole)
    ensures IsSubsequence(r, history)
  {
    Filter(history, (e: LogEntry) => TermMatches(e, term) && RoleMatches(e, filterRole))
  }

  /** With no term and "todos", the whole log is shown. */
  lemma UnfilteredShowsAll(history: seq<LogEntry>)
    ensures FilteredHistory(history, "", AllRoles) == history
  {
    var p := (e: LogEntry) => TermMatches(e, "") && RoleMatches(e, AllRoles);
    forall i | 0 <= i < |history| ensures p(history[i]) {
      IncludesEmpty(Lower(history[i].action));
    }
    FilterKeepsAll(history, p);
  }

  /** With no term, a role filter other than "todos" shows exactly that
      role's entries. */
  lemma RoleFilterAlone(history: seq<LogEntry>, role: string)
    requires role != AllRoles
    ensures forall e :: e in FilteredHistory(history, "", role) <==> e in history && e.userRole == role
  {
    forall e | e in history ensures TermMatches(e, "") {
      IncludesEmpty(Lower(e.action));
    }
  }
}
