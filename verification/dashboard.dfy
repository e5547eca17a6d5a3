/** src/components/Dashboard.jsx: the role permission table with its
    fallback, the choice of the first tab, and the refresh counter. */
module Dashboard {
  import opened Model

  /** The capability flags of one role. */
  datatype Permissions = Permissions(
    canViewPainel: bool,
    canViewMotoristas: bool,
    canViewPainelMotorista: bool,
    canViewCadastro: bool,
    canViewHistorico: bool,
    canEditDrivers: bool,
    canDeleteDrivers: bool,
    canCallDrivers: bool,
    canRemoveCalls: bool
  )

  const MasterPermissions := Permissions(true, true, true, true, true, true, true, true, true)
  const AdmPermissions := Permissions(false, true, true, true, false, true, true, true, true)
  const MotoristaPermissions := Permissions(false, false, true, false, false, false, false, false, false)

  /** The `permissions` object, keyed by role. */
  function PermissionTable(): (t: map<string, Permissions>)
    ensures t.Keys == {"master", "adm", "motorista"}
  {
    map["master" := MasterPermissions, "adm" := AdmPermissions, "motorista" := MotoristaPermissions]
  }

  /** The role's row of the table; a role without one gets motorista's. */
  function PermissionsFor(role: string): (p: Permissions)
    ensures role in PermissionTable() ==> p == PermissionTable()[role]
    ensures role !in PermissionTable() ==> p == MotoristaPermissions
  {
    var table := PermissionTable();
    if role in table then table[role] else table["motorista"]
  }

  /** A driver (and any unknown role) only sees the driver panel. */
  lemma MotoristaOnlyViewsDriverPanel(role: string)
    requires role !in {"master", "adm"}
    ensures PermissionsFor(role) == PermissionsFor("motorista")
    ensures var p := PermissionsFor(role);
      p.canViewPainelMotorista &&
      !p.canViewPainel && !p.canViewMotoristas && !p.canViewCadastro && !p.canViewHistorico &&
      !p.canEditDrivers && !p.canDeleteDrivers && !p.canCallDrivers && !p.canRemoveCalls
  {
  }

  /** An administrator has every capability of the master role except the
      overview and history tabs. */
  lemma AdmIsMasterWithoutOverviewAndHistory()
    ensures PermissionsFor("adm") ==
      PermissionsFor("master").(canViewPainel := false, canViewHistorico := false)
    ensures PermissionsFor("master").canViewPainel && PermissionsFor("master").canViewHistorico
  {
  }

  const DefaultTab := "painel"

  /** The tab selected when the dashboard mounts; an unknown role keeps the
      current one. */
  function InitialTab(role: string, current: string): (tab: string)
    ensures role == "motorista" ==> tab == "painel_motorista"
    ensures role == "adm" ==> tab == "motoristas"
    ensures role == "master" ==> tab == "painel"
    ensures role !in {"motorista", "adm", "master"} ==> tab == current
  {
    if role == "motorista" then "painel_motorista"
    else if role == "adm" then "motoristas"
    else if role == "master" then "painel"
    else current
  }

  /** Whether a permission row shows the tab with the given value. */
  predicate CanView(p: Permissions, tab: string) {
    (tab == "painel" && p.canViewPainel) ||
    (tab == "motoristas" && p.canViewMotoristas) ||
    (tab == "painel_motorista" && p.canViewPainelMotorista) ||
    (tab == "cadastro" && p.canViewCadastro) ||
    (tab == "historico" && p.canViewHistorico)
  }

  /** Every known role lands on a tab it is allowed to see. */
  lemma InitialTabIsVisible(role: string)
    requires role in PermissionTable()
    ensures CanView(PermissionsFor(role), InitialTab(role, DefaultTab))
  {
  }

  /** The dashboard component's own state. */
  class DashboardView {
    var activeTab: string
    var drivers: seq<Driver>
    var metricsKey: int

    constructor ()
      ensures activeTab == DefaultTab && drivers == [] && metricsKey == 0
    {
      activeTab := DefaultTab;
      drivers := [];
      metricsKey := 0;
    }

    /** `refreshData`: reload the drivers and bump the key that remounts
        the metrics panel. */
    method RefreshData(st: Storage)
      modifies this`drivers, this`metricsKey
      ensures drivers == st.drivers
      ensures metricsKey == old(metricsKey) + 1
    {
      drivers := st.drivers;
      metricsKey := metricsKey + 1;
    }

    /** The mount effect's choice of tab for the session role. */
    method SelectInitialTab(role: string)
      modifies this`activeTab
      ensures activeTab == InitialTab(role, old(activeTab))
    {
      if role == "motorista" {
        activeTab := "painel_motorista";
      } else if role == "adm" {
        activeTab := "motoristas";
      } else if role == "master" {
        activeTab := "painel";
      }
    }
  }
}
