/** The static role-to-capability table and its three lookups. */
module Permissions {
  import opened Wrappers
  import opened Text

  datatype Role =
    | BranchAgent | ShiftSupervisor | BranchManager | FleetCoordinator | DamageClaimsStaff
    | FinanceStaff | FinanceManager | OperationsDirector | Admin | Auditor
  {
    function Name(): string {
      match this
      case BranchAgent => "BRANCH_AGENT"
      case ShiftSupervisor => "SHIFT_SUPERVISOR"
      case BranchManager => "BRANCH_MANAGER"
      case FleetCoordinator => "FLEET_COORDINATOR"
      case DamageClaimsStaff => "DAMAGE_CLAIMS_STAFF"
      case FinanceStaff => "FINANCE_STAFF"
      case FinanceManager => "FINANCE_MANAGER"
      case OperationsDirector => "OPERATIONS_DIRECTOR"
      case Admin => "ADMIN"
      case Auditor => "AUDITOR"
    }
  }

  const AllRoles: seq<Role> := [BranchAgent, ShiftSupervisor, BranchManager, FleetCoordinator,
    DamageClaimsStaff, FinanceStaff, FinanceManager, OperationsDirector, Admin, Auditor]

  /** The role a stored role string denotes; `None` for a string outside the enumeration. */
  function RoleNamed(s: string): (r: Option<Role>)
    ensures r.Some? ==> r.value.Name() == s
  {
    if s == "BRANCH_AGENT" then Some(BranchAgent)
    else if s == "SHIFT_SUPERVISOR" then Some(ShiftSupervisor)
    else if s == "BRANCH_MANAGER" then Some(BranchManager)
    else if s == "FLEET_COORDINATOR" then Some(FleetCoordinator)
    else if s == "DAMAGE_CLAIMS_STAFF" then Some(DamageClaimsStaff)
    else if s == "FINANCE_STAFF" then Some(FinanceStaff)
    else if s == "FINANCE_MANAGER" then Some(FinanceManager)
    else if s == "OPERATIONS_DIRECTOR" then Some(OperationsDirector)
    else if s == "ADMIN" then Some(Admin)
    else if s == "AUDITOR" then Some(Auditor)
    else None
  }

  datatype Permission =
    | FleetRead | FleetWrite | FleetTransition | FleetTransfer | FleetOverride
    | RentalRead | RentalWrite | RentalCancel
    | PickupExecute | PickupWaiveDeposit
    | TaskRead | TaskWrite | TaskAssign | TaskComplete
    | IncidentRead | IncidentWrite | IncidentResolve
    | ClaimsRead | ClaimsManage | ClaimsSettle
    | MaintenanceRead | MaintenanceRequest | MaintenanceApprove
    | FinanceRead | FinanceWrite | FinanceApproveRefund | FinanceOverride
    | ChatRead | ChatWrite
    | AnalyticsRead | AnalyticsBranchCompare
    | AuditRead
    | ApprovalRead | ApprovalDecide
    | ShortcutCreate | ShortcutPublishBranch | ShortcutPublishOrg
    | AdminManageUsers | AdminManageBranches
    | ExportData
  {
    function Name(): string {
      match this
      case FleetRead => "fleet:read"
      case FleetWrite => "fleet:write"
      case FleetTransition => "fleet:transition"
      case FleetTransfer => "fleet:transfer"
      case FleetOverride => "fleet:override"
      case RentalRead => "rental:read"
      case RentalWrite => "rental:write"
      case RentalCancel => "rental:cancel"
      case PickupExecute => "pickup:execute"
      case PickupWaiveDeposit => "pickup:waive_deposit"
      case TaskRead => "task:read"
      case TaskWrite => "task:write"
      case TaskAssign => "task:assign"
      case TaskComplete => "task:complete"
      case IncidentRead => "incident:read"
      case IncidentWrite => "incident:write"
      case IncidentResolve => "incident:resolve"
      case ClaimsRead => "claims:read"
      case ClaimsManage => "claims:manage"
      case ClaimsSettle => "claims:settle"
      case MaintenanceRead => "maintenance:read"
      case MaintenanceRequest => "maintenance:request"
      case MaintenanceApprove => "maintenance:approve"
      case FinanceRead => "finance:read"
      case FinanceWrite => "finance:write"
      case FinanceApproveRefund => "finance:approve_refund"
      case FinanceOverride => "finance:override"
      case ChatRead => "chat:read"
      case ChatWrite => "chat:write"
      case AnalyticsRead => "analytics:read"
      case AnalyticsBranchCompare => "analytics:branch_compare"
      case AuditRead => "audit:read"
      case ApprovalRead => "approval:read"
      case ApprovalDecide => "approval:decide"
      case ShortcutCreate => "shortcut:create"
      case ShortcutPublishBranch => "shortcut:publish_branch"
      case ShortcutPublishOrg => "shortcut:publish_org"
      case AdminManageUsers => "admin:manage_users"
      case AdminManageBranches => "admin:manage_branches"
      case ExportData => "export:data"
    }

    /** The capabilities whose name ends in ":read". */
    predicate IsRead() {
      this in {FleetRead, RentalRead, TaskRead, IncidentRead, ClaimsRead, MaintenanceRead,
        FinanceRead, ChatRead, AnalyticsRead, AuditRead, ApprovalRead}
    }
  }

  /** The capabilities of each role, listed in the table's own order. */
  function RolePermissions(r: Role): set<Permission> {
    match r
    case BranchAgent => {
      FleetRead, FleetTransition,
      RentalRead, RentalWrite,
      PickupExecute,
      TaskRead, TaskWrite, TaskComplete,
      IncidentRead, IncidentWrite,
      MaintenanceRead,
      FinanceRead,
      ChatRead, ChatWrite,
      ShortcutCreate}
    case ShiftSupervisor => {
      FleetRead, FleetWrite, FleetTransition,
      RentalRead, RentalWrite, RentalCancel,
      PickupExecute,
      TaskRead, TaskWrite, TaskAssign, TaskComplete,
      IncidentRead, IncidentWrite,
      MaintenanceRead, MaintenanceRequest,
      FinanceRead,
      ChatRead, ChatWrite,
      AnalyticsRead,
      ShortcutCreate}
    case BranchManager => {
      FleetRead, FleetWrite, FleetTransition, FleetTransfer,
      RentalRead, RentalWrite, RentalCancel,
      PickupExecute, PickupWaiveDeposit,
      TaskRead, TaskWrite, TaskAssign, TaskComplete,
      IncidentRead, IncidentWrite, IncidentResolve,
      ClaimsRead,
      MaintenanceRead, MaintenanceRequest, MaintenanceApprove,
      FinanceRead, FinanceWrite, FinanceApproveRefund,
      ChatRead, ChatWrite,
      AnalyticsRead,
      AuditRead,
      ApprovalRead, ApprovalDecide,
      ShortcutCreate, ShortcutPublishBranch,
      ExportData}
    case FleetCoordinator => {
      FleetRead, FleetWrite, FleetTransition, FleetTransfer,
      RentalRead,
      TaskRead, TaskWrite, TaskAssign, TaskComplete,
      IncidentRead,
      MaintenanceRead, MaintenanceRequest, MaintenanceApprove,
      ChatRead, ChatWrite,
      AnalyticsRead,
      ShortcutCreate,
      ExportData}
    case DamageClaimsStaff => {
      FleetRead,
      RentalRead,
      TaskRead, TaskWrite, TaskComplete,
      IncidentRead, IncidentWrite, IncidentResolve,
      ClaimsRead, ClaimsManage,
      MaintenanceRead,
      FinanceRead,
      ChatRead, ChatWrite,
      ShortcutCreate,
      ExportData}
    case FinanceStaff => {
      FleetRead,
      RentalRead,
      TaskRead, TaskWrite, TaskComplete,
      FinanceRead, FinanceWrite,
      ChatRead, ChatWrite,
      ShortcutCreate,
      ExportData}
    case FinanceManager => {
      FleetRead,
      RentalRead,
      PickupWaiveDeposit,
      TaskRead, TaskWrite, TaskAssign, TaskComplete,
      ClaimsRead,
      FinanceRead, FinanceWrite, FinanceApproveRefund, FinanceOverride,
      ChatRead, ChatWrite,
      AnalyticsRead,
      AuditRead,
      ApprovalRead, ApprovalDecide,
      ShortcutCreate,
      ExportData}
    case OperationsDirector => {
      FleetRead, FleetWrite, FleetTransition, FleetTransfer, FleetOverride,
      RentalRead, RentalWrite, RentalCancel,
      PickupExecute, PickupWaiveDeposit,
      TaskRead, TaskWrite, TaskAssign, TaskComplete,
      IncidentRead, IncidentWrite, IncidentResolve,
      ClaimsRead, ClaimsManage, ClaimsSettle,
      MaintenanceRead, MaintenanceRequest, MaintenanceApprove,
      FinanceRead, FinanceWrite, FinanceApproveRefund, FinanceOverride,
      ChatRead, ChatWrite,
      AnalyticsRead, AnalyticsBranchCompare,
      AuditRead,
      ApprovalRead, ApprovalDecide,
      ShortcutCreate, ShortcutPublishOrg,
      ExportData}
    case Admin => {
      FleetRead, FleetWrite, FleetTransition, FleetTransfer, FleetOverride,
      RentalRead, RentalWrite, RentalCancel,
      PickupExecute, PickupWaiveDeposit,
      TaskRead, TaskWrite, TaskAssign, TaskComplete,
      IncidentRead, IncidentWrite, IncidentResolve,
      ClaimsRead, ClaimsManage, ClaimsSettle,
      MaintenanceRead, MaintenanceRequest, MaintenanceApprove,
      FinanceRead, FinanceWrite, FinanceApproveRefund, FinanceOverride,
      ChatRead, ChatWrite,
      AnalyticsRead, AnalyticsBranchCompare,
      AuditRead,
      ApprovalRead, ApprovalDecide,
      ShortcutCreate, ShortcutPublishBranch, ShortcutPublishOrg,
      ExportData,
      AdminManageUsers, AdminManageBranches}
    case Auditor => {
      FleetRead,
      RentalRead,
      TaskRead,
      IncidentRead,
      ClaimsRead,
      MaintenanceRead,
      FinanceRead,
      AnalyticsRead, AnalyticsBranchCompare,
      AuditRead,
      ApprovalRead,
      ExportData}
  }

  /** Whether role `r` holds capability `p`. */
  predicate HasPermission(r: Role, p: Permission) {
    p in RolePermissions(r)
  }

  /** The role's capability list. */
  function GetPermissions(r: Role): (ps: set<Permission>)
    ensures forall p :: p in ps <==> HasPermission(r, p)
  {
    RolePermissions(r)
  }

  /** Whether the role holds at least one of `ps`. */
  function HasAnyPermission(r: Role, ps: seq<Permission>): (b: bool)
    ensures b <==> exists i :: 0 <= i < |ps| && HasPermission(r, ps[i])
    ensures ps == [] ==> !b
  {
    if ps == [] then false
    else if HasPermission(r, ps[0]) then true
    else
      var rest := HasAnyPermission(r, ps[1..]);
      assert forall i :: 1 <= i < |ps| ==> ps[i] == ps[1..][i - 1];
      rest
  }

  /** The lookups for a role given by its stored name: an unknown name holds nothing. */
  function GetPermissionsByName(roleName: string): (ps: set<Permission>)
    ensures RoleNamed(roleName).None? ==> ps == {}
    ensures RoleNamed(roleName).Some? ==> ps == RolePermissions(RoleNamed(roleName).value)
  {
    match RoleNamed(roleName)
    case None => {}
    case Some(r) => RolePermissions(r)
  }

  predicate HasPermissionByName(roleName: string, p: Permission) {
    p in GetPermissionsByName(roleName)
  }

  lemma UnknownRoleHoldsNothing(roleName: string, p: Permission)
    requires RoleNamed(roleName).None?
    ensures !HasPermissionByName(roleName, p)
    ensures GetPermissionsByName(roleName) == {}
  {
  }

  lemma RoleNamedInverse(r: Role)
    ensures RoleNamed(r.Name()) == Some(r)
  {
  }

  /** `hasPermission(role as Role, name as Permission)` on two stored names: `includes` compares
      strings, so it holds when the role name is known and one of its capabilities has that name. */
  predicate HoldsNamed(roleName: string, permName: string) {
    exists p :: p in GetPermissionsByName(roleName) && p.Name() == permName
  }

  /** A held capability is found under its name. */
  lemma HoldsByName(roleName: string, p: Permission)
    ensures HasPermissionByName(roleName, p) ==> HoldsNamed(roleName, p.Name())
    ensures RoleNamed(roleName).None? ==> !HoldsNamed(roleName, p.Name())
  {
  }

  // ---- Facts about the table ----

  /** ADMIN holds every member of the union. */
  lemma AdminHoldsEverything(p: Permission)
    ensures HasPermission(Admin, p)
  {
    match p
    case FleetRead => case FleetWrite => case FleetTransition => case FleetTransfer => case FleetOverride =>
    case RentalRead => case RentalWrite => case RentalCancel =>
    case PickupExecute => case PickupWaiveDeposit =>
    case TaskRead => case TaskWrite => case TaskAssign => case TaskComplete =>
    case IncidentRead => case IncidentWrite => case IncidentResolve =>
    case ClaimsRead => case ClaimsManage => case ClaimsSettle =>
    case MaintenanceRead => case MaintenanceRequest => case MaintenanceApprove =>
    case FinanceRead => case FinanceWrite => case FinanceApproveRefund => case FinanceOverride =>
    case ChatRead => case ChatWrite =>
    case AnalyticsRead => case AnalyticsBranchCompare =>
    case AuditRead =>
    case ApprovalRead => case ApprovalDecide =>
    case ShortcutCreate => case ShortcutPublishBranch => case ShortcutPublishOrg =>
    case AdminManageUsers => case AdminManageBranches =>
    case ExportData =>
  }

  /** The user-management capability belongs to ADMIN alone. */
  lemma OnlyAdminManagesUsers(r: Role)
    ensures HasPermission(r, AdminManageUsers) <==> r == Admin
  {
    if r.BranchAgent? || r.ShiftSupervisor? || r.BranchManager? || r.FleetCoordinator? || r.DamageClaimsStaff? {
      OnlyAdminManagesUsersFrontDesk(r);
    } else {
      OnlyAdminManagesUsersBackOffice(r);
    }
  }

  lemma OnlyAdminManagesUsersFrontDesk(r: Role)
    requires r.BranchAgent? || r.ShiftSupervisor? || r.BranchManager? || r.FleetCoordinator? || r.DamageClaimsStaff?
    ensures HasPermission(r, AdminManageUsers) <==> r == Admin
  {
    match r
    case BranchAgent =>
    case ShiftSupervisor =>
    case BranchManager =>
    case FleetCoordinator =>
    case DamageClaimsStaff =>
  }

  lemma OnlyAdminManagesUsersBackOffice(r: Role)
    requires r.FinanceStaff? || r.FinanceManager? || r.OperationsDirector? || r.Admin? || r.Auditor?
    ensures HasPermission(r, AdminManageUsers) <==> r == Admin
  {
    match r
    case FinanceStaff =>
    case FinanceManager =>
    case OperationsDirector =>
    case Admin =>
    case Auditor =>
  }

  /** The branch-management capability belongs to ADMIN alone. */
  lemma OnlyAdminManagesBranches(r: Role)
    ensures HasPermission(r, AdminManageBranches) <==> r == Admin
  {
    if r.BranchAgent? || r.ShiftSupervisor? || r.BranchManager? || r.FleetCoordinator? || r.DamageClaimsStaff? {
      OnlyAdminManagesBranchesFrontDesk(r);
    } else {
      OnlyAdminManagesBranchesBackOffice(r);
    }
  }

  lemma OnlyAdminManagesBranchesFrontDesk(r: Role)
    requires r.BranchAgent? || r.ShiftSupervisor? || r.BranchManager? || r.FleetCoordinator? || r.DamageClaimsStaff?
    ensures HasPermission(r, AdminManageBranches) <==> r == Admin
  {
    match r
    case BranchAgent =>
    case ShiftSupervisor =>
    case BranchManager =>
    case FleetCoordinator =>
    case DamageClaimsStaff =>
  }

  lemma OnlyAdminManagesBranchesBackOffice(r: Role)
    requires r.FinanceStaff? || r.FinanceManager? || r.OperationsDirector? || r.Admin? || r.Auditor?
    ensures HasPermission(r, AdminManageBranches) <==> r == Admin
  {
    match r
    case FinanceStaff =>
    case FinanceManager =>
    case OperationsDirector =>
    case Admin =>
    case Auditor =>
  }

  /** The vehicle override capability belongs to OPERATIONS_DIRECTOR and ADMIN alone. */
  lemma OnlyDirectorAndAdminOverride(r: Role)
    ensures HasPermission(r, FleetOverride) <==> r == OperationsDirector || r == Admin
  {
    if r.BranchAgent? || r.ShiftSupervisor? || r.BranchManager? || r.FleetCoordinator? || r.DamageClaimsStaff? {
      OnlyDirectorAndAdminOverrideFrontDesk(r);
    } else {
      OnlyDirectorAndAdminOverrideBackOffice(r);
    }
  }

  lemma OnlyDirectorAndAdminOverrideFrontDesk(r: Role)
    requires r.BranchAgent? || r.ShiftSupervisor? || r.BranchManager? || r.FleetCoordinator? || r.DamageClaimsStaff?
    ensures HasPermission(r, FleetOverride) <==> r == OperationsDirector || r == Admin
  {
    match r
    case BranchAgent =>
    case ShiftSupervisor =>
    case BranchManager =>
    case FleetCoordinator =>
    case DamageClaimsStaff =>
  }

  lemma OnlyDirectorAndAdminOverrideBackOffice(r: Role)
    requires r.FinanceStaff? || r.FinanceManager? || r.OperationsDirector? || r.Admin? || r.Auditor?
    ensures HasPermission(r, FleetOverride) <==> r == OperationsDirector || r == Admin
  {
    match r
    case FinanceStaff =>
    case FinanceManager =>
    case OperationsDirector =>
    case Admin =>
    case Auditor =>
  }

  lemma RefundApprovalExamples()
    ensures !HasPermission(BranchAgent, FinanceApproveRefund)
    ensures HasPermission(FinanceManager, FinanceApproveRefund)
  {
  }

  /** AUDITOR holds only read capabilities other than chat, branch comparison and data export. */
  lemma AuditorIsReadOnly(p: Permission)
    ensures HasPermission(Auditor, p) <==> (p.IsRead() && p != ChatRead) || p == AnalyticsBranchCompare || p == ExportData
  {
    if p.FleetRead? || p.FleetWrite? || p.FleetTransition? || p.FleetTransfer? || p.FleetOverride? {
      AuditorRowsA(p);
    } else if p.RentalRead? || p.RentalWrite? || p.RentalCancel? || p.PickupExecute? || p.PickupWaiveDeposit? {
      AuditorRowsB(p);
    } else if p.TaskRead? || p.TaskWrite? || p.TaskAssign? || p.TaskComplete? || p.IncidentRead? {
      AuditorRowsC(p);
    } else if p.IncidentWrite? || p.IncidentResolve? || p.ClaimsRead? || p.ClaimsManage? || p.ClaimsSettle? {
      AuditorRowsD(p);
    } else if p.MaintenanceRead? || p.MaintenanceRequest? || p.MaintenanceApprove? || p.FinanceRead? || p.FinanceWrite? {
      AuditorRowsE(p);
    } else if p.FinanceApproveRefund? || p.FinanceOverride? || p.ChatRead? || p.ChatWrite? || p.AnalyticsRead? {
      AuditorRowsF(p);
    } else if p.AnalyticsBranchCompare? || p.AuditRead? || p.ApprovalRead? || p.ApprovalDecide? || p.ShortcutCreate? {
      AuditorRowsG(p);
    } else {
      AuditorRowsH(p);
    }
  }

  lemma AuditorRowsA(p: Permission)
    requires p.FleetRead? || p.FleetWrite? || p.FleetTransition? || p.FleetTransfer? || p.FleetOverride?
    ensures HasPermission(Auditor, p) <==> (p.IsRead() && p != ChatRead) || p == AnalyticsBranchCompare || p == ExportData
  {
    match p
    case FleetRead =>
    case FleetWrite =>
    case FleetTransition =>
    case FleetTransfer =>
    case FleetOverride =>
  }

  lemma AuditorRowsB(p: Permission)
    requires p.RentalRead? || p.RentalWrite? || p.RentalCancel? || p.PickupExecute? || p.PickupWaiveDeposit?
    ensures HasPermission(Auditor, p) <==> (p.IsRead() && p != ChatRead) || p == AnalyticsBranchCompare || p == ExportData
  {
    match p
    case RentalRead =>
    case RentalWrite =>
    case RentalCancel =>
    case PickupExecute =>
    case PickupWaiveDeposit =>
  }

  lemma AuditorRowsC(p: Permission)
    requires p.TaskRead? || p.TaskWrite? || p.TaskAssign? || p.TaskComplete? || p.IncidentRead?
    ensures HasPermission(Auditor, p) <==> (p.IsRead() && p != ChatRead) || p == AnalyticsBranchCompare || p == ExportData
  {
    match p
    case TaskRead =>
    case TaskWrite =>
    case TaskAssign =>
    case TaskComplete =>
    case IncidentRead =>
  }

  lemma AuditorRowsD(p: Permission)
    requires p.IncidentWrite? || p.IncidentResolve? || p.ClaimsRead? || p.ClaimsManage? || p.ClaimsSettle?
    ensures HasPermission(Auditor, p) <==> (p.IsRead() && p != ChatRead) || p == AnalyticsBranchCompare || p == ExportData
  {
    match p
    case IncidentWrite =>
    case IncidentResolve =>
    case ClaimsRead =>
    case ClaimsManage =>
    case ClaimsSettle =>
  }

  lemma AuditorRowsE(p: Permission)
    requires p.MaintenanceRead? || p.MaintenanceRequest? || p.MaintenanceApprove? || p.FinanceRead? || p.FinanceWrite?
    ensures HasPermission(Auditor, p) <==> (p.IsRead() && p != ChatRead) || p == AnalyticsBranchCompare || p == ExportData
  {
    match p
    case MaintenanceRead =>
    case MaintenanceRequest =>
    case MaintenanceApprove =>
    case FinanceRead =>
    case FinanceWrite =>
  }

  lemma AuditorRowsF(p: Permission)
    requires p.FinanceApproveRefund? || p.FinanceOverride? || p.ChatRead? || p.ChatWrite? || p.AnalyticsRead?
    ensures HasPermission(Auditor, p) <==> (p.IsRead() && p != ChatRead) || p == AnalyticsBranchCompare || p == ExportData
  {
    match p
    case FinanceApproveRefund =>
    case FinanceOverride =>
    case ChatRead =>
    case ChatWrite =>
    case AnalyticsRead =>
  }

  lemma AuditorRowsG(p: Permission)
    requires p.AnalyticsBranchCompare? || p.AuditRead? || p.ApprovalRead? || p.ApprovalDecide? || p.ShortcutCreate?
    ensures HasPermission(Auditor, p) <==> (p.IsRead() && p != ChatRead) || p == AnalyticsBranchCompare || p == ExportData
  {
    match p
    case AnalyticsBranchCompare =>
    case AuditRead =>
    case ApprovalRead =>
    case ApprovalDecide =>
    case ShortcutCreate =>
  }

  lemma AuditorRowsH(p: Permission)
    requires p.ShortcutPublishBranch? || p.ShortcutPublishOrg? || p.AdminManageUsers? || p.AdminManageBranches? || p.ExportData?
    ensures HasPermission(Auditor, p) <==> (p.IsRead() && p != ChatRead) || p == AnalyticsBranchCompare || p == ExportData
  {
    match p
    case ShortcutPublishBranch =>
    case ShortcutPublishOrg =>
    case AdminManageUsers =>
    case AdminManageBranches =>
    case ExportData =>
  }
}
