/** The string-keyed vehicle transition table the fleet router consults, with its label and
    colour tables. It duplicates the vehicle machine's table; the lemmas here show the two agree. */
module VehicleStatusTable {
  import opened Wrappers
  import opened StateMachine
  import opened Machines

  const Transitions: map<string, seq<string>> := map[
    "AVAILABLE" := ["RESERVED_PREP_PENDING", "MAINTENANCE_PENDING", "OUT_OF_SERVICE", "TRANSFER_PENDING"],
    "RESERVED_PREP_PENDING" := ["PICKUP_READY", "AVAILABLE"],
    "PICKUP_READY" := ["ON_RENT", "AVAILABLE"],
    "ON_RENT" := ["RETURN_PENDING_CHECKIN"],
    "RETURN_PENDING_CHECKIN" := ["INSPECTION_IN_PROGRESS"],
    "INSPECTION_IN_PROGRESS" := ["CLEANING_PENDING", "DAMAGE_HOLD", "AVAILABLE"],
    "CLEANING_PENDING" := ["AVAILABLE", "MAINTENANCE_PENDING"],
    "MAINTENANCE_PENDING" := ["AVAILABLE", "OUT_OF_SERVICE"],
    "DAMAGE_HOLD" := ["MAINTENANCE_PENDING", "OUT_OF_SERVICE", "AVAILABLE"],
    "COMPLIANCE_HOLD" := ["AVAILABLE", "OUT_OF_SERVICE"],
    "TRANSFER_PENDING" := ["TRANSFER_IN_TRANSIT"],
    "TRANSFER_IN_TRANSIT" := ["AVAILABLE"],
    "OUT_OF_SERVICE" := ["AVAILABLE", "MAINTENANCE_PENDING"]
  ]

  const Labels: map<string, string> := map[
    "AVAILABLE" := "Available",
    "RESERVED_PREP_PENDING" := "Reserved \U{2013} Prep Pending",
    "PICKUP_READY" := "Pickup Ready",
    "ON_RENT" := "On Rent",
    "RETURN_PENDING_CHECKIN" := "Return \U{2013} Check-in Pending",
    "INSPECTION_IN_PROGRESS" := "Inspection In Progress",
    "CLEANING_PENDING" := "Cleaning Pending",
    "MAINTENANCE_PENDING" := "Maintenance Pending",
    "DAMAGE_HOLD" := "Damage Hold",
    "COMPLIANCE_HOLD" := "Compliance Hold",
    "TRANSFER_PENDING" := "Transfer Pending",
    "TRANSFER_IN_TRANSIT" := "Transfer In Transit",
    "OUT_OF_SERVICE" := "Out of Service"
  ]

  const Colors: map<string, string> := map[
    "AVAILABLE" := "bg-green-100 text-green-800",
    "RESERVED_PREP_PENDING" := "bg-blue-100 text-blue-800",
    "PICKUP_READY" := "bg-cyan-100 text-cyan-800",
    "ON_RENT" := "bg-purple-100 text-purple-800",
    "RETURN_PENDING_CHECKIN" := "bg-yellow-100 text-yellow-800",
    "INSPECTION_IN_PROGRESS" := "bg-orange-100 text-orange-800",
    "CLEANING_PENDING" := "bg-amber-100 text-amber-800",
    "MAINTENANCE_PENDING" := "bg-red-100 text-red-800",
    "DAMAGE_HOLD" := "bg-red-200 text-red-900",
    "COMPLIANCE_HOLD" := "bg-pink-100 text-pink-800",
    "TRANSFER_PENDING" := "bg-indigo-100 text-indigo-800",
    "TRANSFER_IN_TRANSIT" := "bg-indigo-200 text-indigo-900",
    "OUT_OF_SERVICE" := "bg-gray-200 text-gray-800"
  ]

  /** `to` is listed under `from`; a `from` with no row admits nothing. */
  predicate IsValidTransition(from: string, to: string) {
    from in Transitions && to in Transitions[from]
  }

  function Names(states: seq<VehicleStatus>): (r: seq<string>)
    ensures |r| == |states| && forall i :: 0 <= i < |r| ==> r[i] == states[i].Name()
  {
    if states == [] then [] else [states[0].Name()] + Names(states[1..])
  }

  /** Each string row is the vehicle machine's row written with the state names. */
  lemma RowAgrees(f: VehicleStatus)
    ensures f.Name() in Transitions
    ensures Transitions[f.Name()] == Names(AllowedTransitions(VehicleMachine, f))
  {
    if f.Available? {
      AvailableRowAgrees(f);
    } else if f.ReservedPrepPending? || f.PickupReady? {
      PreparationRowsAgree(f);
    } else if f.OnRent? || f.ReturnPendingCheckin? {
      RentalRowsAgree(f);
    } else if f.InspectionInProgress? || f.CleaningPending? {
      InspectionRowsAgree(f);
    } else if f.MaintenancePending? || f.DamageHold? {
      RepairRowsAgree(f);
    } else if f.ComplianceHold? || f.TransferPending? {
      ComplianceAndTransferRowsAgree(f);
    } else {
      TransitAndServiceRowsAgree(f);
    }
  }

  /** The tag each status prints as. */
  lemma NameLiterals()
    ensures VehicleStatus.Available.Name() == "AVAILABLE"
    ensures VehicleStatus.ReservedPrepPending.Name() == "RESERVED_PREP_PENDING"
    ensures VehicleStatus.PickupReady.Name() == "PICKUP_READY"
    ensures VehicleStatus.OnRent.Name() == "ON_RENT"
    ensures VehicleStatus.ReturnPendingCheckin.Name() == "RETURN_PENDING_CHECKIN"
    ensures VehicleStatus.InspectionInProgress.Name() == "INSPECTION_IN_PROGRESS"
    ensures VehicleStatus.CleaningPending.Name() == "CLEANING_PENDING"
    ensures VehicleStatus.MaintenancePending.Name() == "MAINTENANCE_PENDING"
    ensures VehicleStatus.DamageHold.Name() == "DAMAGE_HOLD"
    ensures VehicleStatus.ComplianceHold.Name() == "COMPLIANCE_HOLD"
    ensures VehicleStatus.TransferPending.Name() == "TRANSFER_PENDING"
    ensures VehicleStatus.TransferInTransit.Name() == "TRANSFER_IN_TRANSIT"
    ensures VehicleStatus.OutOfService.Name() == "OUT_OF_SERVICE"
  {
  }

  lemma AvailableRowAgrees(f: VehicleStatus)
    requires f.Available?
    ensures f.Name() in Transitions
    ensures Transitions[f.Name()] == Names(AllowedTransitions(VehicleMachine, f))
  {
    match f
    case Available =>
      assert AllowedTransitions(VehicleMachine, f) == [VehicleStatus.ReservedPrepPending, VehicleStatus.MaintenancePending, VehicleStatus.OutOfService, VehicleStatus.TransferPending];
      assert Names([VehicleStatus.ReservedPrepPending, VehicleStatus.MaintenancePending, VehicleStatus.OutOfService, VehicleStatus.TransferPending]) == ["RESERVED_PREP_PENDING", "MAINTENANCE_PENDING", "OUT_OF_SERVICE", "TRANSFER_PENDING"] by {
        NameLiterals();
      }
  }

  lemma PreparationRowsAgree(f: VehicleStatus)
    requires f.ReservedPrepPending? || f.PickupReady?
    ensures f.Name() in Transitions
    ensures Transitions[f.Name()] == Names(AllowedTransitions(VehicleMachine, f))
  {
    match f
    case ReservedPrepPending =>
      assert AllowedTransitions(VehicleMachine, f) == [VehicleStatus.PickupReady, VehicleStatus.Available];
      assert Names([VehicleStatus.PickupReady, VehicleStatus.Available]) == ["PICKUP_READY", "AVAILABLE"] by {
        NameLiterals();
      }
    case PickupReady =>
      assert AllowedTransitions(VehicleMachine, f) == [VehicleStatus.OnRent, VehicleStatus.Available];
      assert Names([VehicleStatus.OnRent, VehicleStatus.Available]) == ["ON_RENT", "AVAILABLE"] by {
        NameLiterals();
      }
  }

  lemma RentalRowsAgree(f: VehicleStatus)
    requires f.OnRent? || f.ReturnPendingCheckin?
    ensures f.Name() in Transitions
    ensures Transitions[f.Name()] == Names(AllowedTransitions(VehicleMachine, f))
  {
    match f
    case OnRent =>
      assert AllowedTransitions(VehicleMachine, f) == [VehicleStatus.ReturnPendingCheckin];
      assert Names([VehicleStatus.ReturnPendingCheckin]) == ["RETURN_PENDING_CHECKIN"] by {
        NameLiterals();
      }
    case ReturnPendingCheckin =>
      assert AllowedTransitions(VehicleMachine, f) == [VehicleStatus.InspectionInProgress];
      assert Names([VehicleStatus.InspectionInProgress]) == ["INSPECTION_IN_PROGRESS"] by {
        NameLiterals();
      }
  }

  lemma InspectionRowsAgree(f: VehicleStatus)
    requires f.InspectionInProgress? || f.CleaningPending?
    ensures f.Name() in Transitions
    ensures Transitions[f.Name()] == Names(AllowedTransitions(VehicleMachine, f))
  {
    match f
    case InspectionInProgress =>
      assert AllowedTransitions(VehicleMachine, f) == [VehicleStatus.CleaningPending, VehicleStatus.DamageHold, VehicleStatus.Available];
      assert Names([VehicleStatus.CleaningPending, VehicleStatus.DamageHold, VehicleStatus.Available]) == ["CLEANING_PENDING", "DAMAGE_HOLD", "AVAILABLE"] by {
        NameLiterals();
      }
    case CleaningPending =>
      assert AllowedTransitions(VehicleMachine, f) == [VehicleStatus.Available, VehicleStatus.MaintenancePending];
      assert Names([VehicleStatus.Available, VehicleStatus.MaintenancePending]) == ["AVAILABLE", "MAINTENANCE_PENDING"] by {
        NameLiterals();
      }
  }

  lemma RepairRowsAgree(f: VehicleStatus)
    requires f.MaintenancePending? || f.DamageHold?
    ensures f.Name() in Transitions
    ensures Transitions[f.Name()] == Names(AllowedTransitions(VehicleMachine, f))
  {
    match f
    case MaintenancePending =>
      assert AllowedTransitions(VehicleMachine, f) == [VehicleStatus.Available, VehicleStatus.OutOfService];
      assert Names([VehicleStatus.Available, VehicleStatus.OutOfService]) == ["AVAILABLE", "OUT_OF_SERVICE"] by {
        NameLiterals();
      }
    case DamageHold =>
      assert AllowedTransitions(VehicleMachine, f) == [VehicleStatus.MaintenancePending, VehicleStatus.OutOfService, VehicleStatus.Available];
      assert Names([VehicleStatus.MaintenancePending, VehicleStatus.OutOfService, VehicleStatus.Available]) == ["MAINTENANCE_PENDING", "OUT_OF_SERVICE", "AVAILABLE"] by {
        NameLiterals();
      }
  }

  lemma ComplianceAndTransferRowsAgree(f: VehicleStatus)
    requires f.ComplianceHold? || f.TransferPending?
    ensures f.Name() in Transitions
    ensures Transitions[f.Name()] == Names(AllowedTransitions(VehicleMachine, f))
  {
    match f
    case ComplianceHold =>
      assert AllowedTransitions(VehicleMachine, f) == [VehicleStatus.Available, VehicleStatus.OutOfService];
      assert Names([VehicleStatus.Available, VehicleStatus.OutOfService]) == ["AVAILABLE", "OUT_OF_SERVICE"] by {
        NameLiterals();
      }
    case TransferPending =>
      assert AllowedTransitions(VehicleMachine, f) == [VehicleStatus.TransferInTransit];
      assert Names([VehicleStatus.TransferInTransit]) == ["TRANSFER_IN_TRANSIT"] by {
        NameLiterals();
      }
  }

  lemma TransitAndServiceRowsAgree(f: VehicleStatus)
    requires f.TransferInTransit? || f.OutOfService?
    ensures f.Name() in Transitions
    ensures Transitions[f.Name()] == Names(AllowedTransitions(VehicleMachine, f))
  {
    match f
    case TransferInTransit =>
      assert AllowedTransitions(VehicleMachine, f) == [VehicleStatus.Available];
      assert Names([VehicleStatus.Available]) == ["AVAILABLE"] by {
        NameLiterals();
      }
    case OutOfService =>
      assert AllowedTransitions(VehicleMachine, f) == [VehicleStatus.Available, VehicleStatus.MaintenancePending];
      assert Names([VehicleStatus.Available, VehicleStatus.MaintenancePending]) == ["AVAILABLE", "MAINTENANCE_PENDING"] by {
        NameLiterals();
      }
  }

  lemma NameInjective(a: VehicleStatus, b: VehicleStatus)
    ensures a.Name() == b.Name() <==> a == b
  {
    VehicleStatusNamedInverse(a);
    VehicleStatusNamedInverse(b);
  }

  lemma NamesMembership(t: VehicleStatus, row: seq<VehicleStatus>)
    ensures t.Name() in Names(row) <==> t in row
  {
    if t.Name() in Names(row) {
      var i :| 0 <= i < |row| && Names(row)[i] == t.Name();
      NameInjective(t, row[i]);
    }
  }

  /** The table's keys are exactly the status names. */
  lemma KeysAreNames(k: string)
    ensures k in Transitions <==> VehicleStatusNamed(k).Some?
  {
    if VehicleStatusNamed(k).Some? {
      RowAgrees(VehicleStatusNamed(k).value);
    }
  }

  /** On status names the string table decides exactly as the vehicle machine does without
      override. */
  lemma AgreesWithMachine(f: VehicleStatus, t: VehicleStatus)
    ensures IsValidTransition(f.Name(), t.Name()) == Validate(VehicleMachine, f, t, false).valid
  {
    RowAgrees(f);
    NamesMembership(t, AllowedTransitions(VehicleMachine, f));
  }

  /** A source string that names no status has no row, so nothing is valid from it. */
  lemma UnknownSourceRejects(f: string, t: string)
    requires VehicleStatusNamed(f).None?
    ensures !IsValidTransition(f, t)
  {
    KeysAreNames(f);
  }

  /** The shape of the vehicle machine's rows: no self-loops, nothing enters COMPLIANCE_HOLD, and
      only PICKUP_READY leads to ON_RENT. */
  lemma VehicleRowShape(v: VehicleStatus)
    ensures v !in AllowedTransitions(VehicleMachine, v)
    ensures VehicleStatus.ComplianceHold !in AllowedTransitions(VehicleMachine, v)
    ensures VehicleStatus.OnRent in AllowedTransitions(VehicleMachine, v) <==> v == VehicleStatus.PickupReady
  {
    match v
    case Available =>
    case ReservedPrepPending =>
    case PickupReady =>
    case OnRent =>
    case ReturnPendingCheckin =>
    case InspectionInProgress =>
    case CleaningPending =>
    case MaintenancePending =>
    case DamageHold =>
    case ComplianceHold =>
    case TransferPending =>
    case TransferInTransit =>
    case OutOfService =>
  }

  /** The status a table key stands for, and that key's row in machine terms. */
  lemma KeyRow(k: string) returns (v: VehicleStatus)
    requires k in Transitions
    ensures k == v.Name()
    ensures Transitions[k] == Names(AllowedTransitions(VehicleMachine, v))
  {
    KeysAreNames(k);
    v := VehicleStatusNamed(k).value;
    RowAgrees(v);
  }

  lemma NoSelfLoops(k: string)
    requires k in Transitions
    ensures k !in Transitions[k]
  {
    var v := KeyRow(k);
    VehicleRowShape(v);
    NamesMembership(v, AllowedTransitions(VehicleMachine, v));
  }

  /** Every listed target has a row of its own. */
  lemma NoDanglingTargets(k: string, t: string)
    requires k in Transitions && t in Transitions[k]
    ensures t in Transitions
  {
    var v := KeyRow(k);
    var row := AllowedTransitions(VehicleMachine, v);
    var i :| 0 <= i < |row| && Names(row)[i] == t;
    RowAgrees(row[i]);
  }

  lemma NothingEntersComplianceHold(k: string)
    requires k in Transitions
    ensures "COMPLIANCE_HOLD" !in Transitions[k]
  {
    var v := KeyRow(k);
    NoRowNamesComplianceHold(v);
    assert VehicleStatus.ComplianceHold.Name() == "COMPLIANCE_HOLD";
  }

  lemma NoRowNamesComplianceHold(v: VehicleStatus)
    ensures VehicleStatus.ComplianceHold.Name() !in Names(AllowedTransitions(VehicleMachine, v))
  {
    VehicleRowShape(v);
    NamesMembership(VehicleStatus.ComplianceHold, AllowedTransitions(VehicleMachine, v));
  }

  lemma OnRentOnlyFromPickupReady(k: string)
    requires k in Transitions
    ensures "ON_RENT" in Transitions[k] <==> k == "PICKUP_READY"
  {
    var v := KeyRow(k);
    OnRentRow(v);
    NameInjective(v, VehicleStatus.PickupReady);
    assert VehicleStatus.OnRent.Name() == "ON_RENT" && VehicleStatus.PickupReady.Name() == "PICKUP_READY";
  }

  lemma OnRentRow(v: VehicleStatus)
    ensures VehicleStatus.OnRent.Name() in Names(AllowedTransitions(VehicleMachine, v)) <==> v == VehicleStatus.PickupReady
  {
    VehicleRowShape(v);
    NamesMembership(VehicleStatus.OnRent, AllowedTransitions(VehicleMachine, v));
  }

  /** Every status key has a non-empty label and a non-empty colour. */
  lemma LabelsAndColorsTotal(k: string)
    requires k in Transitions
    ensures k in Labels && k in Colors && Labels[k] != "" && Colors[k] != ""
  {
    LabelsAndColorsNonEmpty();
    var v := KeyRow(k);
    match v
    case Available =>
    case ReservedPrepPending =>
    case PickupReady =>
    case OnRent =>
    case ReturnPendingCheckin =>
    case InspectionInProgress =>
    case CleaningPending =>
    case MaintenancePending =>
    case DamageHold =>
    case ComplianceHold =>
    case TransferPending =>
    case TransferInTransit =>
    case OutOfService =>
  }

  lemma LabelsAndColorsNonEmpty()
    ensures forall k :: k in Labels ==> Labels[k] != ""
    ensures forall k :: k in Colors ==> Colors[k] != ""
  {
  }
}
