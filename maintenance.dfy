/** The maintenance router: opening a request, moving it through the maintenance machine (with
    the forced vehicle status on completion) and recording parts. */
module Maintenance {
  import opened Wrappers
  import opened StateMachine
  import opened Machines
  import opened Permissions
  import opened Gate
  import opened Store
  import Fleet

  const NotFoundMessage := "Maintenance request not found"

  function ReasonRequiredMessage(to: MaintenanceStatus): string {
    "Reason required when transitioning to " + to.Name()
  }

  /** The first check of `transition` that fails after the gate, if any: a missing request, a
      transition the machine refuses (without override), a reason-required target without a
      truthy reason. */
  function TransitionRejection(rows: map<Id, Store.MaintenanceRequest>, id: Id, to: MaintenanceStatus,
                               reason: Option<string>): (e: Option<TrpcError>)
    ensures id !in rows ==> e == Some(TrpcError(NotFound, Some(NotFoundMessage)))
    ensures e.None? <==>
      && id in rows && Validate(MaintenanceMachine, rows[id].status, to, false).valid
      && (Validate(MaintenanceMachine, rows[id].status, to, false).reasonRequired ==> Truthy(reason))
  {
    if id !in rows then Some(TrpcError(NotFound, Some(NotFoundMessage)))
    else
      var v := Validate(MaintenanceMachine, rows[id].status, to, false);
      if !v.valid then Some(TrpcError(BadRequest, Some(v.reason.GetOr("Invalid status transition"))))
      else if v.reasonRequired && !Truthy(reason) then Some(TrpcError(BadRequest, Some(ReasonRequiredMessage(to))))
      else None
  }

  /** The request after a transition to `to`: the decision stamps on APPROVED and COMPLETED, the
      optional work fields only when supplied, and every other field as it was. */
  function Transitioned(req: Store.MaintenanceRequest, to: MaintenanceStatus, actor: Id, now: Time,
                        technicianNotes: Option<string>, actualCost: Option<real>,
                        actualDuration: Option<real>): (r: Store.MaintenanceRequest)
    ensures r.status == to
    ensures to == MaintenanceStatus.Approved ==> r.approvedById == Some(actor) && r.approvedAt == Some(now)
    ensures to != MaintenanceStatus.Approved ==> r.approvedById == req.approvedById && r.approvedAt == req.approvedAt
    ensures r.completedDate == if to == MaintenanceStatus.Completed then Some(now) else req.completedDate
    ensures r.technicianNotes == if Truthy(technicianNotes) then technicianNotes else req.technicianNotes
    ensures r.actualCost == if actualCost.Some? then actualCost else req.actualCost
    ensures r.actualDuration == if actualDuration.Some? then actualDuration else req.actualDuration
    ensures r.(status := req.status, approvedById := req.approvedById, approvedAt := req.approvedAt,
               completedDate := req.completedDate, technicianNotes := req.technicianNotes,
               actualCost := req.actualCost, actualDuration := req.actualDuration) == req
  {
    var r0 := req.(status := to);
    var r1 := if to == MaintenanceStatus.Approved then r0.(approvedById := Some(actor), approvedAt := Some(now)) else r0;
    var r2 := if to == MaintenanceStatus.Completed then r1.(completedDate := Some(now)) else r1;
    var r3 := if Truthy(technicianNotes) then r2.(technicianNotes := technicianNotes) else r2;
    var r4 := if actualCost.Some? then r3.(actualCost := actualCost) else r3;
    if actualDuration.Some? then r4.(actualDuration := actualDuration) else r4
  }

  /** Whether a transition forces the vehicle's status: only a completion of a request whose fleet
      impact is NEEDS_INSPECTION and whose vehicle exists. */
  predicate ForcesInspection(req: Store.MaintenanceRequest, to: MaintenanceStatus, vehicles: map<Id, Vehicle>) {
    to == MaintenanceStatus.Completed && req.vehicleId in vehicles && req.fleetImpact == Some("NEEDS_INSPECTION")
  }

  function StatusReasonSnapshot(to: MaintenanceStatus, reason: Option<string>): Snapshot {
    Put(map["status" := Text(to.Name())], "reason", TextOf(reason))
  }

  /** `maintenance.create`: the vehicle must exist; the request takes the vehicle's branch, starts
      REQUESTED, and one "maintenance.created" entry is logged. */
  method Create(db: Db, session: Option<SessionUser>, vehicleId: Id, maintenanceType: string, priority: string,
                description: string, estimatedCost: Option<real>, estimatedDuration: Option<real>,
                scheduledDate: Option<Time>)
    returns (r: Result<Id, TrpcError>)
    requires db.Valid()
    modifies db.maintenance, db.audit
    ensures db.Valid()
    ensures RequirePermission(Permission.MaintenanceRequest, session).Failure? ==>
      r == Failure(RequirePermission(Permission.MaintenanceRequest, session).error)
    ensures RequirePermission(Permission.MaintenanceRequest, session).Success? && vehicleId !in db.vehicles.rows ==>
      r == Fail(NotFound, "Vehicle not found")
    ensures r.Success? <==> RequirePermission(Permission.MaintenanceRequest, session).Success? && vehicleId in db.vehicles.rows
    ensures r.Failure? ==> unchanged(db.maintenance, db.audit)
    ensures r.Success? ==>
      var branch := db.vehicles.rows[vehicleId].branchId;
      && r.value !in old(db.maintenance.rows)
      && db.maintenance.rows == old(db.maintenance.rows)[r.value := Store.MaintenanceRequest(
           vehicleId, branch, session.value.id, maintenanceType, priority, description, estimatedCost,
           estimatedDuration, scheduledDate, MaintenanceStatus.Requested, None, None, None, None, None, None, None)]
      && db.audit.entries == old(db.audit.entries) + [AuditEntry(session.value.id, "maintenance.created",
           "MaintenanceRequest", RowRef(r.value), None,
           Some(map["vehicleId" := Ref(vehicleId), "type" := Text(maintenanceType), "priority" := Text(priority)]),
           None, Some(branch))]
  {
    var gate := RequirePermission(Permission.MaintenanceRequest, session);
    if gate.Failure? {
      return Failure(gate.error);
    }
    var actor := gate.value.user.id;
    if vehicleId !in db.vehicles.rows {
      return Fail(NotFound, "Vehicle not found");
    }
    var branch := db.vehicles.rows[vehicleId].branchId;
    var id := db.InsertMaintenance(Store.MaintenanceRequest(vehicleId, branch, actor, maintenanceType, priority,
      description, estimatedCost, estimatedDuration, scheduledDate, MaintenanceStatus.Requested,
      None, None, None, None, None, None, None));
    db.audit.Append(AuditEntry(actor, "maintenance.created", "MaintenanceRequest", RowRef(id), None,
      Some(map["vehicleId" := Ref(vehicleId), "type" := Text(maintenanceType), "priority" := Text(priority)]),
      None, Some(branch)));
    return Success(id);
  }

  /** `maintenance.transition`: the machine's verdict without override, the reason policy, the
      field updates, one audit entry, and on completion with NEEDS_INSPECTION the vehicle's status
      overwritten with INSPECTION_IN_PROGRESS without any vehicle-graph check. */
  method Transition(db: Db, session: Option<SessionUser>, id: Id, to: MaintenanceStatus, reason: Option<string>,
                    technicianNotes: Option<string>, actualCost: Option<real>, actualDuration: Option<real>,
                    now: Time)
    returns (r: Result<Store.MaintenanceRequest, TrpcError>)
    requires db.Valid()
    modifies db.maintenance, db.audit, db.vehicles
    ensures db.Valid()
    ensures RequirePermission(MaintenanceApprove, session).Failure? ==>
      r == Failure(RequirePermission(MaintenanceApprove, session).error)
    ensures (RequirePermission(MaintenanceApprove, session).Success?
             && TransitionRejection(old(db.maintenance.rows), id, to, reason).Some?) ==>
      r == Failure(TransitionRejection(old(db.maintenance.rows), id, to, reason).value)
    ensures r.Success? <==>
      && RequirePermission(MaintenanceApprove, session).Success?
      && TransitionRejection(old(db.maintenance.rows), id, to, reason).None?
    ensures r.Failure? ==> unchanged(db.maintenance, db.audit, db.vehicles)
    ensures r.Success? ==>
      var before := old(db.maintenance.rows[id]);
      && r.value == Transitioned(before, to, session.value.id, now, technicianNotes, actualCost, actualDuration)
      && db.maintenance.rows == old(db.maintenance.rows)[id := r.value]
      && db.audit.entries == old(db.audit.entries) + [AuditEntry(session.value.id, "maintenance.status_change",
           "MaintenanceRequest", RowRef(id), Some(map["status" := Text(before.status.Name())]),
           Some(StatusReasonSnapshot(to, reason)), reason, Some(before.branchId))]
      && db.vehicles.rows == if ForcesInspection(before, to, old(db.vehicles.rows))
           then old(db.vehicles.rows)[before.vehicleId :=
                  old(db.vehicles.rows[before.vehicleId]).(status := VehicleStatus.InspectionInProgress)]
           else old(db.vehicles.rows)
  {
    var gate := RequirePermission(MaintenanceApprove, session);
    if gate.Failure? {
      return Failure(gate.error);
    }
    var actor := gate.value.user.id;
    var rejection := TransitionRejection(db.maintenance.rows, id, to, reason);
    if rejection.Some? {
      return Failure(rejection.value);
    }
    var request := db.maintenance.rows[id];
    var updated := Transitioned(request, to, actor, now, technicianNotes, actualCost, actualDuration);
    db.UpdateMaintenance(id, updated);
    db.audit.Append(AuditEntry(actor, "maintenance.status_change", "MaintenanceRequest", RowRef(id),
      Some(map["status" := Text(request.status.Name())]), Some(StatusReasonSnapshot(to, reason)), reason,
      Some(request.branchId)));
    if ForcesInspection(request, to, db.vehicles.rows) {
      var vehicle := db.vehicles.rows[request.vehicleId];
      db.UpdateVehicle(request.vehicleId, vehicle.(status := VehicleStatus.InspectionInProgress));
    }
    return Success(updated);
  }

  /** `maintenance.addPart`: the request must exist; one part row, no audit entry. */
  method AddPart(db: Db, session: Option<SessionUser>, requestId: Id, name: string, partNumber: Option<string>,
                 quantity: int, unitCost: Option<real>)
    returns (r: Result<Id, TrpcError>)
    requires db.Valid()
    modifies db.parts
    ensures db.Valid()
    ensures RequirePermission(MaintenanceApprove, session).Failure? ==>
      r == Failure(RequirePermission(MaintenanceApprove, session).error)
    ensures RequirePermission(MaintenanceApprove, session).Success? && requestId !in db.maintenance.rows ==>
      r == Fail(NotFound, NotFoundMessage)
    ensures r.Success? <==> RequirePermission(MaintenanceApprove, session).Success? && requestId in db.maintenance.rows
    ensures r.Failure? ==> unchanged(db.parts)
    ensures r.Success? ==>
      && r.value !in old(db.parts.rows)
      && db.parts.rows == old(db.parts.rows)[r.value := MaintenancePart(requestId, name, partNumber, quantity, unitCost)]
  {
    var gate := RequirePermission(MaintenanceApprove, session);
    if gate.Failure? {
      return Failure(gate.error);
    }
    if requestId !in db.maintenance.rows {
      return Fail(NotFound, NotFoundMessage);
    }
    var id := db.InsertPart(MaintenancePart(requestId, name, partNumber, quantity, unitCost));
    return Success(id);
  }

  // ---- Properties of the transition checks ----

  /** The targets that demand a reason are exactly DENIED, CANCELLED and PAUSED. */
  lemma ReasonTargets(to: MaintenanceStatus)
    ensures Includes(MaintenanceMachine.requiresReason, to) <==>
      to == MaintenanceStatus.Denied || to == MaintenanceStatus.Cancelled || to == MaintenanceStatus.Paused
  {
  }

  /** A valid move to a reason-demanding target without a truthy reason is refused with the
      reason message, before any write. */
  lemma MissingReasonRejected(rows: map<Id, Store.MaintenanceRequest>, id: Id, to: MaintenanceStatus, reason: Option<string>)
    requires id in rows && Validate(MaintenanceMachine, rows[id].status, to, false).valid
    requires Includes(MaintenanceMachine.requiresReason, to) && !Truthy(reason)
    ensures TransitionRejection(rows, id, to, reason) == Some(TrpcError(BadRequest, Some(ReasonRequiredMessage(to))))
  {
    DirectEdgeWins(MaintenanceMachine, rows[id].status, to, false);
  }

  /** A refused move reports the validator's own message: the fallback text is never used. */
  lemma GraphRejectionMessage(rows: map<Id, Store.MaintenanceRequest>, id: Id, to: MaintenanceStatus, reason: Option<string>)
    requires id in rows && !Validate(MaintenanceMachine, rows[id].status, to, false).valid
    ensures TransitionRejection(rows, id, to, reason) ==
      Some(TrpcError(BadRequest, Validate(MaintenanceMachine, rows[id].status, to, false).reason))
  {
    RejectionShape(MaintenanceMachine, rows[id].status, to, false);
  }

  /** A finished request (COMPLETED, CANCELLED or DENIED) accepts no further transition. */
  lemma FinishedRequestsAreFinal(rows: map<Id, Store.MaintenanceRequest>, id: Id, to: MaintenanceStatus, reason: Option<string>)
    requires id in rows && IsTerminal(MaintenanceMachine, rows[id].status)
    ensures TransitionRejection(rows, id, to, reason).Some?
  {
    MaintenanceMachineWellFormed();
    TerminalHasNoExits(MaintenanceMachine, rows[id].status, to, false);
  }

  /** The forced status bypasses the vehicle graph: INSPECTION_IN_PROGRESS is reachable only from
      RETURN_PENDING_CHECKIN there, yet completion writes it from any status, e.g. AVAILABLE. */
  lemma ForcedStatusBypassesVehicleGraph()
    ensures !Fleet.CanTransition(VehicleStatus.Available, VehicleStatus.InspectionInProgress)
    ensures !Validate(VehicleMachine, VehicleStatus.Available, VehicleStatus.InspectionInProgress, true).valid
  {
    Fleet.RouterIsMachineWithoutOverride(VehicleStatus.Available, VehicleStatus.InspectionInProgress);
  }
}
