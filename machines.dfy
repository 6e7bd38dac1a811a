/** The seven entity lifecycles configured in the state-machine module. */
module Machines {
  import opened Wrappers
  import opened StateMachine

  datatype VehicleStatus =
    | Available | ReservedPrepPending | PickupReady | OnRent | ReturnPendingCheckin
    | InspectionInProgress | CleaningPending | MaintenancePending | DamageHold
    | ComplianceHold | TransferPending | TransferInTransit | OutOfService
  {
    function Name(): string {
      match this
      case Available => "AVAILABLE"
      case ReservedPrepPending => "RESERVED_PREP_PENDING"
      case PickupReady => "PICKUP_READY"
      case OnRent => "ON_RENT"
      case ReturnPendingCheckin => "RETURN_PENDING_CHECKIN"
      case InspectionInProgress => "INSPECTION_IN_PROGRESS"
      case CleaningPending => "CLEANING_PENDING"
      case MaintenancePending => "MAINTENANCE_PENDING"
      case DamageHold => "DAMAGE_HOLD"
      case ComplianceHold => "COMPLIANCE_HOLD"
      case TransferPending => "TRANSFER_PENDING"
      case TransferInTransit => "TRANSFER_IN_TRANSIT"
      case OutOfService => "OUT_OF_SERVICE"
    }
  }

  /** The status a status string denotes, if any. */
  function VehicleStatusNamed(s: string): (r: Option<VehicleStatus>)
    ensures r.Some? ==> r.value.Name() == s
  {
    if s == "AVAILABLE" then Some(VehicleStatus.Available)
    else if s == "RESERVED_PREP_PENDING" then Some(VehicleStatus.ReservedPrepPending)
    else if s == "PICKUP_READY" then Some(VehicleStatus.PickupReady)
    else if s == "ON_RENT" then Some(VehicleStatus.OnRent)
    else if s == "RETURN_PENDING_CHECKIN" then Some(VehicleStatus.ReturnPendingCheckin)
    else if s == "INSPECTION_IN_PROGRESS" then Some(VehicleStatus.InspectionInProgress)
    else if s == "CLEANING_PENDING" then Some(VehicleStatus.CleaningPending)
    else if s == "MAINTENANCE_PENDING" then Some(VehicleStatus.MaintenancePending)
    else if s == "DAMAGE_HOLD" then Some(VehicleStatus.DamageHold)
    else if s == "COMPLIANCE_HOLD" then Some(VehicleStatus.ComplianceHold)
    else if s == "TRANSFER_PENDING" then Some(VehicleStatus.TransferPending)
    else if s == "TRANSFER_IN_TRANSIT" then Some(VehicleStatus.TransferInTransit)
    else if s == "OUT_OF_SERVICE" then Some(VehicleStatus.OutOfService)
    else None
  }

  /** Parsing a status's own name gives the status back, so names are injective. */
  lemma VehicleStatusNamedInverse(v: VehicleStatus)
    ensures VehicleStatusNamed(v.Name()) == Some(v)
  {
    if v.Available? || v.ReservedPrepPending? || v.PickupReady? || v.OnRent? {
      NamedInverseFirst(v);
    } else if v.ReturnPendingCheckin? || v.InspectionInProgress? || v.CleaningPending? || v.MaintenancePending? {
      NamedInverseMiddle(v);
    } else {
      NamedInverseLast(v);
    }
  }

  lemma NamedInverseFirst(v: VehicleStatus)
    requires v.Available? || v.ReservedPrepPending? || v.PickupReady? || v.OnRent?
    ensures VehicleStatusNamed(v.Name()) == Some(v)
  {
    match v
    case Available =>
    case ReservedPrepPending =>
    case PickupReady =>
    case OnRent =>
  }

  lemma NamedInverseMiddle(v: VehicleStatus)
    requires v.ReturnPendingCheckin? || v.InspectionInProgress? || v.CleaningPending? || v.MaintenancePending?
    ensures VehicleStatusNamed(v.Name()) == Some(v)
  {
    match v
    case ReturnPendingCheckin =>
    case InspectionInProgress =>
    case CleaningPending =>
    case MaintenancePending =>
  }

  lemma NamedInverseLast(v: VehicleStatus)
    requires v.DamageHold? || v.ComplianceHold? || v.TransferPending? || v.TransferInTransit? || v.OutOfService?
    ensures VehicleStatusNamed(v.Name()) == Some(v)
  {
    match v
    case DamageHold =>
    case ComplianceHold =>
    case TransferPending =>
    case TransferInTransit =>
    case OutOfService =>
  }

  datatype RentalStatus = Draft | Confirmed | Active | Completed | Cancelled | NoShow | Closed
  {
    function Name(): string {
      match this
      case Draft => "DRAFT"
      case Confirmed => "CONFIRMED"
      case Active => "ACTIVE"
      case Completed => "COMPLETED"
      case Cancelled => "CANCELLED"
      case NoShow => "NO_SHOW"
      case Closed => "CLOSED"
    }
  }

  datatype TaskStatus = Pending | InProgress | Blocked | Completed | Cancelled
  {
    function Name(): string {
      match this
      case Pending => "PENDING"
      case InProgress => "IN_PROGRESS"
      case Blocked => "BLOCKED"
      case Completed => "COMPLETED"
      case Cancelled => "CANCELLED"
    }
  }

  datatype MaintenanceStatus =
    | Requested | Approved | Scheduled | InProgress | Paused | NeedsRecheck | Completed | Cancelled | Denied
  {
    function Name(): string {
      match this
      case Requested => "REQUESTED"
      case Approved => "APPROVED"
      case Scheduled => "SCHEDULED"
      case InProgress => "IN_PROGRESS"
      case Paused => "PAUSED"
      case NeedsRecheck => "NEEDS_RECHECK"
      case Completed => "COMPLETED"
      case Cancelled => "CANCELLED"
      case Denied => "DENIED"
    }
  }

  datatype ClaimStatus =
    | Draft | Submitted | UnderReview | NeedsInfo | Approved | Denied | Appeal | Settled | Closed
  {
    function Name(): string {
      match this
      case Draft => "DRAFT"
      case Submitted => "SUBMITTED"
      case UnderReview => "UNDER_REVIEW"
      case NeedsInfo => "NEEDS_INFO"
      case Approved => "APPROVED"
      case Denied => "DENIED"
      case Appeal => "APPEAL"
      case Settled => "SETTLED"
      case Closed => "CLOSED"
    }
  }

  datatype ApprovalStatus = Pending | Escalated | Approved | Denied | Expired
  {
    function Name(): string {
      match this
      case Pending => "PENDING"
      case Escalated => "ESCALATED"
      case Approved => "APPROVED"
      case Denied => "DENIED"
      case Expired => "EXPIRED"
    }
  }

  datatype InspectionStatus = Pending | InProgress | Completed | Disputed
  {
    function Name(): string {
      match this
      case Pending => "PENDING"
      case InProgress => "IN_PROGRESS"
      case Completed => "COMPLETED"
      case Disputed => "DISPUTED"
    }
  }

  const VehicleMachine: Config<VehicleStatus> := Config(
    "VehicleStatus",
    map[
      VehicleStatus.Available := [VehicleStatus.ReservedPrepPending, VehicleStatus.MaintenancePending, VehicleStatus.OutOfService, VehicleStatus.TransferPending],
      VehicleStatus.ReservedPrepPending := [VehicleStatus.PickupReady, VehicleStatus.Available],
      VehicleStatus.PickupReady := [VehicleStatus.OnRent, VehicleStatus.Available],
      VehicleStatus.OnRent := [VehicleStatus.ReturnPendingCheckin],
      VehicleStatus.ReturnPendingCheckin := [VehicleStatus.InspectionInProgress],
      VehicleStatus.InspectionInProgress := [VehicleStatus.CleaningPending, VehicleStatus.DamageHold, VehicleStatus.Available],
      VehicleStatus.CleaningPending := [VehicleStatus.Available, VehicleStatus.MaintenancePending],
      VehicleStatus.MaintenancePending := [VehicleStatus.Available, VehicleStatus.OutOfService],
      VehicleStatus.DamageHold := [VehicleStatus.MaintenancePending, VehicleStatus.OutOfService, VehicleStatus.Available],
      VehicleStatus.ComplianceHold := [VehicleStatus.Available, VehicleStatus.OutOfService],
      VehicleStatus.TransferPending := [VehicleStatus.TransferInTransit],
      VehicleStatus.TransferInTransit := [VehicleStatus.Available],
      VehicleStatus.OutOfService := [VehicleStatus.Available, VehicleStatus.MaintenancePending]
    ],
    Some([VehicleStatus.Available, VehicleStatus.OutOfService, VehicleStatus.MaintenancePending]),
    Some([VehicleStatus.OutOfService, VehicleStatus.DamageHold, VehicleStatus.ComplianceHold]),
    None,
    (s: VehicleStatus) => s.Name())

  const RentalMachine: Config<RentalStatus> := Config(
    "RentalStatus",
    map[
      RentalStatus.Draft := [RentalStatus.Confirmed, RentalStatus.Cancelled],
      RentalStatus.Confirmed := [RentalStatus.Active, RentalStatus.Cancelled],
      RentalStatus.Active := [RentalStatus.Completed, RentalStatus.Cancelled],
      RentalStatus.Completed := [RentalStatus.Closed],
      RentalStatus.Cancelled := [],
      RentalStatus.NoShow := [],
      RentalStatus.Closed := []
    ],
    None,
    Some([RentalStatus.Cancelled]),
    Some([RentalStatus.Cancelled, RentalStatus.Closed]),
    (s: RentalStatus) => s.Name())

  const TaskMachine: Config<TaskStatus> := Config(
    "TaskStatus",
    map[
      TaskStatus.Pending := [TaskStatus.InProgress, TaskStatus.Blocked, TaskStatus.Cancelled],
      TaskStatus.InProgress := [TaskStatus.Completed, TaskStatus.Blocked, TaskStatus.Cancelled],
      TaskStatus.Blocked := [TaskStatus.Pending, TaskStatus.InProgress, TaskStatus.Cancelled],
      TaskStatus.Completed := [],
      TaskStatus.Cancelled := []
    ],
    None,
    Some([TaskStatus.Blocked, TaskStatus.Cancelled]),
    Some([TaskStatus.Completed, TaskStatus.Cancelled]),
    (s: TaskStatus) => s.Name())

  const MaintenanceMachine: Config<MaintenanceStatus> := Config(
    "MaintenanceStatus",
    map[
      MaintenanceStatus.Requested := [MaintenanceStatus.Approved, MaintenanceStatus.Denied, MaintenanceStatus.Cancelled],
      MaintenanceStatus.Approved := [MaintenanceStatus.Scheduled, MaintenanceStatus.Cancelled],
      MaintenanceStatus.Scheduled := [MaintenanceStatus.InProgress, MaintenanceStatus.Cancelled],
      MaintenanceStatus.InProgress := [MaintenanceStatus.Completed, MaintenanceStatus.Paused, MaintenanceStatus.NeedsRecheck],
      MaintenanceStatus.Paused := [MaintenanceStatus.InProgress, MaintenanceStatus.Cancelled],
      MaintenanceStatus.NeedsRecheck := [MaintenanceStatus.InProgress, MaintenanceStatus.Completed],
      MaintenanceStatus.Completed := [],
      MaintenanceStatus.Cancelled := [],
      MaintenanceStatus.Denied := []
    ],
    None,
    Some([MaintenanceStatus.Denied, MaintenanceStatus.Cancelled, MaintenanceStatus.Paused]),
    Some([MaintenanceStatus.Completed, MaintenanceStatus.Cancelled, MaintenanceStatus.Denied]),
    (s: MaintenanceStatus) => s.Name())

  const ClaimMachine: Config<ClaimStatus> := Config(
    "ClaimStatus",
    map[
      ClaimStatus.Draft := [ClaimStatus.Submitted],
      ClaimStatus.Submitted := [ClaimStatus.UnderReview],
      ClaimStatus.UnderReview := [ClaimStatus.Approved, ClaimStatus.Denied, ClaimStatus.NeedsInfo],
      ClaimStatus.NeedsInfo := [ClaimStatus.Submitted],
      ClaimStatus.Approved := [ClaimStatus.Settled],
      ClaimStatus.Denied := [ClaimStatus.Appeal, ClaimStatus.Closed],
      ClaimStatus.Appeal := [ClaimStatus.UnderReview],
      ClaimStatus.Settled := [ClaimStatus.Closed],
      ClaimStatus.Closed := []
    ],
    None,
    Some([ClaimStatus.Denied]),
    Some([ClaimStatus.Closed]),
    (s: ClaimStatus) => s.Name())

  const ApprovalMachine: Config<ApprovalStatus> := Config(
    "ApprovalStatus",
    map[
      ApprovalStatus.Pending := [ApprovalStatus.Approved, ApprovalStatus.Denied, ApprovalStatus.Expired, ApprovalStatus.Escalated],
      ApprovalStatus.Escalated := [ApprovalStatus.Approved, ApprovalStatus.Denied, ApprovalStatus.Expired],
      ApprovalStatus.Approved := [],
      ApprovalStatus.Denied := [],
      ApprovalStatus.Expired := []
    ],
    None,
    Some([ApprovalStatus.Denied]),
    Some([ApprovalStatus.Approved, ApprovalStatus.Denied, ApprovalStatus.Expired]),
    (s: ApprovalStatus) => s.Name())

  const InspectionMachine: Config<InspectionStatus> := Config(
    "InspectionStatus",
    map[
      InspectionStatus.Pending := [InspectionStatus.InProgress],
      InspectionStatus.InProgress := [InspectionStatus.Completed, InspectionStatus.Disputed],
      InspectionStatus.Completed := [],
      InspectionStatus.Disputed := [InspectionStatus.InProgress]
    ],
    None,
    None,
    Some([InspectionStatus.Completed]),
    (s: InspectionStatus) => s.Name())

  // ---- Every configuration is well formed and uses tag-shaped names ----

  lemma VehicleMachineWellFormed()
    ensures WellFormed(VehicleMachine)
  {
    forall s: VehicleStatus
      ensures s in VehicleMachine.transitions
      ensures IsTerminal(VehicleMachine, s) ==> AllowedTransitions(VehicleMachine, s) == []
    {
      match s
      case Available =>
      case ReservedPrepPending =>
      case PickupReady =>
      case OnRent =>
      case ReturnPendingCheckin =>
      case InspectionInProgress =>
      case CleaningPending =>
      case MaintenancePending =>
      case DamageHold =>
      case ComplianceHold =>
      case TransferPending =>
      case TransferInTransit =>
      case OutOfService =>
    }
  }

  lemma VehicleMachineTags()
    ensures TagsOnly(VehicleMachine)
  {
    forall s: VehicleStatus ensures IsTag(VehicleMachine.show(s)) {
      if s.Available? || s.ReservedPrepPending? || s.PickupReady? {
        VehicleTagsA(s);
      } else if s.OnRent? || s.ReturnPendingCheckin? || s.InspectionInProgress? {
        VehicleTagsB(s);
      } else if s.CleaningPending? || s.MaintenancePending? || s.DamageHold? {
        VehicleTagsC(s);
      } else if s.ComplianceHold? || s.TransferPending? {
        VehicleTagsD(s);
      } else {
        VehicleTagsE(s);
      }
    }
  }

  lemma VehicleTagsA(s: VehicleStatus)
    requires s.Available? || s.ReservedPrepPending? || s.PickupReady?
    ensures IsTag(s.Name())
  {
    match s
    case Available =>
    case ReservedPrepPending =>
    case PickupReady =>
  }

  lemma VehicleTagsB(s: VehicleStatus)
    requires s.OnRent? || s.ReturnPendingCheckin? || s.InspectionInProgress?
    ensures IsTag(s.Name())
  {
    match s
    case OnRent =>
    case ReturnPendingCheckin =>
    case InspectionInProgress =>
  }

  lemma VehicleTagsC(s: VehicleStatus)
    requires s.CleaningPending? || s.MaintenancePending? || s.DamageHold?
    ensures IsTag(s.Name())
  {
    match s
    case CleaningPending =>
    case MaintenancePending =>
    case DamageHold =>
  }

  lemma VehicleTagsD(s: VehicleStatus)
    requires s.ComplianceHold? || s.TransferPending?
    ensures IsTag(s.Name())
  {
    match s
    case ComplianceHold =>
    case TransferPending =>
  }

  lemma VehicleTagsE(s: VehicleStatus)
    requires s.TransferInTransit? || s.OutOfService?
    ensures IsTag(s.Name())
  {
    match s
    case TransferInTransit =>
    case OutOfService =>
  }

  lemma RentalMachineWellFormed()
    ensures WellFormed(RentalMachine)
  {
    forall s: RentalStatus
      ensures s in RentalMachine.transitions
      ensures IsTerminal(RentalMachine, s) ==> AllowedTransitions(RentalMachine, s) == []
    {
      match s
      case Draft =>
      case Confirmed =>
      case Active =>
      case Completed =>
      case Cancelled =>
      case NoShow =>
      case Closed =>
    }
  }

  lemma RentalMachineTags()
    ensures TagsOnly(RentalMachine)
  {
    forall s: RentalStatus ensures IsTag(RentalMachine.show(s)) {
      match s
      case Draft =>
      case Confirmed =>
      case Active =>
      case Completed =>
      case Cancelled =>
      case NoShow =>
      case Closed =>
    }
  }

  lemma TaskMachineWellFormed()
    ensures WellFormed(TaskMachine)
  {
    forall s: TaskStatus
      ensures s in TaskMachine.transitions
      ensures IsTerminal(TaskMachine, s) ==> AllowedTransitions(TaskMachine, s) == []
    {
      match s
      case Pending =>
      case InProgress =>
      case Blocked =>
      case Completed =>
      case Cancelled =>
    }
  }

  lemma TaskMachineTags()
    ensures TagsOnly(TaskMachine)
  {
    forall s: TaskStatus ensures IsTag(TaskMachine.show(s)) {
      match s
      case Pending =>
      case InProgress =>
      case Blocked =>
      case Completed =>
      case Cancelled =>
    }
  }

  lemma MaintenanceMachineWellFormed()
    ensures WellFormed(MaintenanceMachine)
  {
    forall s: MaintenanceStatus
      ensures s in MaintenanceMachine.transitions
      ensures IsTerminal(MaintenanceMachine, s) ==> AllowedTransitions(MaintenanceMachine, s) == []
    {
      match s
      case Requested =>
      case Approved =>
      case Scheduled =>
      case InProgress =>
      case Paused =>
      case NeedsRecheck =>
      case Completed =>
      case Cancelled =>
      case Denied =>
    }
  }

  lemma MaintenanceMachineTags()
    ensures TagsOnly(MaintenanceMachine)
  {
    forall s: MaintenanceStatus ensures IsTag(MaintenanceMachine.show(s)) {
      match s
      case Requested =>
      case Approved =>
      case Scheduled =>
      case InProgress =>
      case Paused =>
      case NeedsRecheck =>
      case Completed =>
      case Cancelled =>
      case Denied =>
    }
  }

  lemma ClaimMachineWellFormed()
    ensures WellFormed(ClaimMachine)
  {
    forall s: ClaimStatus
      ensures s in ClaimMachine.transitions
      ensures IsTerminal(ClaimMachine, s) ==> AllowedTransitions(ClaimMachine, s) == []
    {
      match s
      case Draft =>
      case Submitted =>
      case UnderReview =>
      case NeedsInfo =>
      case Approved =>
      case Denied =>
      case Appeal =>
      case Settled =>
      case Closed =>
    }
  }

  lemma ClaimMachineTags()
    ensures TagsOnly(ClaimMachine)
  {
    forall s: ClaimStatus ensures IsTag(ClaimMachine.show(s)) {
      match s
      case Draft =>
      case Submitted =>
      case UnderReview =>
      case NeedsInfo =>
      case Approved =>
      case Denied =>
      case Appeal =>
      case Settled =>
      case Closed =>
    }
  }

  lemma ApprovalMachineWellFormed()
    ensures WellFormed(ApprovalMachine)
  {
    forall s: ApprovalStatus
      ensures s in ApprovalMachine.transitions
      ensures IsTerminal(ApprovalMachine, s) ==> AllowedTransitions(ApprovalMachine, s) == []
    {
      match s
      case Pending =>
      case Escalated =>
      case Approved =>
      case Denied =>
      case Expired =>
    }
  }

  lemma ApprovalMachineTags()
    ensures TagsOnly(ApprovalMachine)
  {
    forall s: ApprovalStatus ensures IsTag(ApprovalMachine.show(s)) {
      match s
      case Pending =>
      case Escalated =>
      case Approved =>
      case Denied =>
      case Expired =>
    }
  }

  lemma InspectionMachineWellFormed()
    ensures WellFormed(InspectionMachine)
  {
    forall s: InspectionStatus
      ensures s in InspectionMachine.transitions
      ensures IsTerminal(InspectionMachine, s) ==> AllowedTransitions(InspectionMachine, s) == []
    {
      match s
      case Pending =>
      case InProgress =>
      case Completed =>
      case Disputed =>
    }
  }

  lemma InspectionMachineTags()
    ensures TagsOnly(InspectionMachine)
  {
    forall s: InspectionStatus ensures IsTag(InspectionMachine.show(s)) {
      match s
      case Pending =>
      case InProgress =>
      case Completed =>
      case Disputed =>
    }
  }

  // ---- Concrete scenarios ----

  /** AVAILABLE cannot go straight to ON_RENT; PICKUP_READY can, with no reason;
      AVAILABLE to OUT_OF_SERVICE is a legal edge that still needs a reason. */
  lemma VehicleScenarios()
    ensures !Validate(VehicleMachine, VehicleStatus.Available, VehicleStatus.OnRent, false).valid
    ensures var r := Validate(VehicleMachine, VehicleStatus.PickupReady, VehicleStatus.OnRent, false);
      r.valid && !r.reasonRequired
    ensures var r := Validate(VehicleMachine, VehicleStatus.Available, VehicleStatus.OutOfService, false);
      r.valid && r.reasonRequired
    ensures forall s :: !IsTerminal(VehicleMachine, s)
  {
  }

  /** CANCELLED is terminal: leaving it for ACTIVE fails with the terminal message, and the
      override flag cannot help because rentals declare no override list. */
  lemma RentalScenarios()
    ensures var r := Validate(RentalMachine, RentalStatus.Cancelled, RentalStatus.Active, false);
      !r.valid && r.reason == Some(TerminalMessage(RentalMachine, RentalStatus.Cancelled))
    ensures !Validate(RentalMachine, RentalStatus.Cancelled, RentalStatus.Active, true).valid
  {
    RentalMachineWellFormed();
    RentalMachineTags();
    TerminalHasNoExits(RentalMachine, RentalStatus.Cancelled, RentalStatus.Active, false);
    TerminalHasNoExits(RentalMachine, RentalStatus.Cancelled, RentalStatus.Active, true);
  }
}
