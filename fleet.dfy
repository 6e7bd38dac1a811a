/** The fleet router's two mutations: registering a vehicle and moving it between statuses. The
    status check is the string table's membership test, not the vehicle machine's validator. */
module Fleet {
  import opened Wrappers
  import opened StateMachine
  import opened Machines
  import opened Permissions
  import opened Gate
  import opened Store
  import VehicleStatusTable

  /** The router's transition test, on the statuses' names. */
  predicate CanTransition(from: VehicleStatus, to: VehicleStatus) {
    VehicleStatusTable.IsValidTransition(from.Name(), to.Name())
  }

  function TransitionMessage(from: VehicleStatus, to: VehicleStatus): string {
    "Invalid transition: " + from.Name() + " \U{2192} " + to.Name()
  }

  function StatusSnapshot(s: VehicleStatus): Snapshot {
    map["status" := Text(s.Name())]
  }

  /** The creation input as the audit log stores it, undefined optional fields dropped. */
  function InputSnapshot(info: VehicleInfo, branchId: Id): Snapshot {
    var required := map[
      "plate" := Text(info.plate), "branchId" := Ref(branchId), "class" := Text(info.vehicleClass),
      "make" := Text(info.make), "model" := Text(info.model), "year" := Whole(info.year),
      "mileage" := Whole(info.mileage)];
    var s1 := Put(required, "vin", TextOf(info.vin));
    var s2 := Put(s1, "internalCode", TextOf(info.internalCode));
    var s3 := Put(s2, "color", TextOf(info.color));
    var s4 := Put(s3, "fuelLevel", WholeOf(info.fuelLevel));
    Put(s4, "notes", TextOf(info.notes))
  }

  /** `fleet.create`: a new active AVAILABLE vehicle and one "vehicle.create" audit entry. */
  method Create(db: Db, session: Option<SessionUser>, info: VehicleInfo, branchId: Id)
    returns (r: Result<Id, TrpcError>)
    requires db.Valid()
    modifies db.vehicles, db.audit
    ensures db.Valid()
    ensures r.Success? <==> RequirePermission(FleetWrite, session).Success?
    ensures r.Failure? ==> r.error == RequirePermission(FleetWrite, session).error
    ensures r.Failure? ==> unchanged(db.vehicles, db.audit)
    ensures r.Success? ==>
      && r.value !in old(db.vehicles.rows)
      && db.vehicles.rows == old(db.vehicles.rows)[r.value := Vehicle(info, branchId, VehicleStatus.Available, true)]
      && db.audit.entries == old(db.audit.entries) + [AuditEntry(session.value.id, "vehicle.create",
           "Vehicle", RowRef(r.value), None, Some(InputSnapshot(info, branchId)), None, Some(branchId))]
  {
    var gate := RequirePermission(FleetWrite, session);
    if gate.Failure? {
      return Failure(gate.error);
    }
    var actor := gate.value.user.id;
    var id := db.InsertVehicle(Vehicle(info, branchId, VehicleStatus.Available, true));
    db.audit.Append(AuditEntry(actor, "vehicle.create", "Vehicle", RowRef(id), None,
      Some(InputSnapshot(info, branchId)), None, Some(branchId)));
    return Success(id);
  }

  /** `fleet.transitionStatus`: gate, load, table check, then the status write, one history row
      and one audit entry as a single step. No reason is demanded and no override is consulted. */
  method TransitionStatus(db: Db, session: Option<SessionUser>, vehicleId: Id, toStatus: VehicleStatus,
                          reason: Option<string>)
    returns (r: Result<Vehicle, TrpcError>)
    requires db.Valid()
    modifies db.vehicles, db.history, db.audit
    ensures db.Valid()
    ensures RequirePermission(FleetTransition, session).Failure? ==>
      r == Failure(RequirePermission(FleetTransition, session).error)
    ensures RequirePermission(FleetTransition, session).Success? && vehicleId !in old(db.vehicles.rows) ==>
      r == Fail(NotFound, "Vehicle not found")
    ensures (RequirePermission(FleetTransition, session).Success? && vehicleId in old(db.vehicles.rows)
             && !CanTransition(old(db.vehicles.rows[vehicleId].status), toStatus)) ==>
      r == Fail(BadRequest, TransitionMessage(old(db.vehicles.rows[vehicleId].status), toStatus))
    ensures r.Success? <==>
      RequirePermission(FleetTransition, session).Success? && vehicleId in old(db.vehicles.rows)
      && CanTransition(old(db.vehicles.rows[vehicleId].status), toStatus)
    ensures r.Failure? ==> unchanged(db.vehicles, db.history, db.audit)
    ensures r.Success? ==>
      var before := old(db.vehicles.rows[vehicleId]);
      && r.value == before.(status := toStatus)
      && db.vehicles.rows == old(db.vehicles.rows)[vehicleId := r.value]
      && db.history.rows == old(db.history.rows)[old(db.history.nextId) :=
           StatusHistory(vehicleId, before.status, toStatus, reason, session.value.id)]
      && db.audit.entries == old(db.audit.entries) + [AuditEntry(session.value.id,
           "vehicle.transition_status", "Vehicle", RowRef(vehicleId), Some(StatusSnapshot(before.status)),
           Some(StatusSnapshot(toStatus)), reason, Some(before.branchId))]
  {
    var gate := RequirePermission(FleetTransition, session);
    if gate.Failure? {
      return Failure(gate.error);
    }
    var actor := gate.value.user.id;
    if vehicleId !in db.vehicles.rows {
      return Fail(NotFound, "Vehicle not found");
    }
    var vehicle := db.vehicles.rows[vehicleId];
    if !CanTransition(vehicle.status, toStatus) {
      return Fail(BadRequest, TransitionMessage(vehicle.status, toStatus));
    }
    var updated := vehicle.(status := toStatus);
    db.UpdateVehicle(vehicleId, updated);
    var historyId := db.InsertHistory(StatusHistory(vehicleId, vehicle.status, toStatus, reason, actor));
    db.audit.Append(AuditEntry(actor, "vehicle.transition_status", "Vehicle", RowRef(vehicleId),
      Some(StatusSnapshot(vehicle.status)), Some(StatusSnapshot(toStatus)), reason, Some(vehicle.branchId)));
    return Success(updated);
  }

  /** The router's test is exactly the vehicle machine's verdict without override, whatever the
      caller's role: holding `fleet:override` opens no extra path. */
  lemma RouterIsMachineWithoutOverride(from: VehicleStatus, to: VehicleStatus)
    ensures CanTransition(from, to) == Validate(VehicleMachine, from, to, false).valid
  {
    VehicleStatusTable.AgreesWithMachine(from, to);
  }

  /** Two witnesses of the gap between the router and the machine: AVAILABLE to OUT_OF_SERVICE is
      accepted although the machine says a reason is required, and ON_RENT to AVAILABLE is refused
      although the machine would allow it under override. */
  lemma RouterSkipsReasonAndOverride()
    ensures CanTransition(VehicleStatus.Available, VehicleStatus.OutOfService)
    ensures Validate(VehicleMachine, VehicleStatus.Available, VehicleStatus.OutOfService, false).reasonRequired
    ensures !CanTransition(VehicleStatus.OnRent, VehicleStatus.Available)
    ensures Validate(VehicleMachine, VehicleStatus.OnRent, VehicleStatus.Available, true).valid
  {
    RouterIsMachineWithoutOverride(VehicleStatus.Available, VehicleStatus.OutOfService);
    RouterIsMachineWithoutOverride(VehicleStatus.OnRent, VehicleStatus.Available);
  }
}
