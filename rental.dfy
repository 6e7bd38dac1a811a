/** The rental router: list pagination, opening a rental on an available vehicle, and the status
    update that bypasses the rental machine. */
module Rentals {
  import opened Wrappers
  import opened StateMachine
  import opened Machines
  import opened Permissions
  import opened Gate
  import opened Store

  // ---- Pagination of `list` ----

  const DefaultPage := 1
  const DefaultLimit := 20

  /** The rows skipped before page `page`. */
  function Skip(page: int, limit: int): (n: nat)
    requires page >= 1 && limit >= 1
    ensures n == (page - 1) * limit
  {
    (page - 1) * limit
  }

  /** `Math.ceil(total / limit)`. */
  function TotalPages(total: nat, limit: int): (n: nat)
    requires limit >= 1
  {
    (total + limit - 1) / limit
  }

  /** `totalPages` is the least page count whose pages hold every row: the pages before the last
      do not reach `total`, and all of them together do. */
  lemma TotalPagesIsCeiling(total: nat, limit: int)
    requires limit >= 1
    ensures TotalPages(total, limit) * limit >= total
    ensures total > 0 ==> (TotalPages(total, limit) - 1) * limit < total
    ensures total == 0 <==> TotalPages(total, limit) == 0
  {
    var n := TotalPages(total, limit);
    var m := total + limit - 1;
    assert m == n * limit + m % limit;
    assert m % limit < limit;
  }

  /** Row `i` of the result (0-based) appears on page `i / limit + 1`, which is within
      `totalPages` and skips exactly the rows before its page. */
  lemma RowOnPage(i: nat, total: nat, limit: int)
    requires limit >= 1 && i < total
    ensures var p := i / limit + 1;
      1 <= p <= TotalPages(total, limit) && Skip(p, limit) <= i < Skip(p, limit) + limit
  {
    var q := i / limit;
    assert i == q * limit + i % limit;
    assert (q + 1) * limit == q * limit + limit;
    AtMostQuotient(q + 1, limit, total + limit - 1);
  }

  /** A multiple of `l` that fits in `m` has a factor of at most `m / l`. */
  lemma AtMostQuotient(a: nat, l: int, m: nat)
    requires l >= 1 && a * l <= m
    ensures a <= m / l
  {
    var d := m / l;
    var r := m % l;
    assert m == d * l + r && 0 <= r < l;
    assert a * l < (d + 1) * l;
  }

  // ---- create ----

  /** `depositStatus`: HELD exactly when a non-zero deposit is given; otherwise the column's
      default applies (`None`). */
  function DepositStatus(depositAmount: Option<real>): (s: Option<string>)
    ensures s == Some("HELD") <==> depositAmount.Some? && depositAmount.value != 0.0
    ensures s.None? <==> !(depositAmount.Some? && depositAmount.value != 0.0)
  {
    if depositAmount.Some? && depositAmount.value != 0.0 then Some("HELD") else None
  }

  predicate Rentable(s: VehicleStatus) {
    s == VehicleStatus.Available || s == VehicleStatus.PickupReady
  }

  function NotRentableMessage(s: VehicleStatus): string {
    "Vehicle is " + s.Name() + ", not available for rent"
  }

  /** `rental.create`: the vehicle must exist and be AVAILABLE or PICKUP_READY; the new DRAFT
      rental (contract number as the database generates it) and one "rental.create" entry. The
      vehicle's status is not changed. */
  method Create(db: Db, session: Option<SessionUser>, contractNumber: string, customerId: Id, vehicleId: Id,
                branchOutId: Id, branchInId: Option<Id>, pickupTime: Time, returnTime: Option<Time>,
                dailyRate: real, depositAmount: Option<real>, notes: Option<string>)
    returns (r: Result<Id, TrpcError>)
    requires db.Valid()
    modifies db.rentals, db.audit
    ensures db.Valid()
    ensures RequirePermission(RentalWrite, session).Failure? ==> r == Failure(RequirePermission(RentalWrite, session).error)
    ensures (RequirePermission(RentalWrite, session).Success? && vehicleId !in db.vehicles.rows) ==>
      r == Fail(NotFound, "Vehicle not found")
    ensures (RequirePermission(RentalWrite, session).Success? && vehicleId in db.vehicles.rows
             && !Rentable(db.vehicles.rows[vehicleId].status)) ==>
      r == Fail(BadRequest, NotRentableMessage(db.vehicles.rows[vehicleId].status))
    ensures r.Success? <==>
      && RequirePermission(RentalWrite, session).Success? && vehicleId in db.vehicles.rows
      && Rentable(db.vehicles.rows[vehicleId].status)
    ensures r.Failure? ==> unchanged(db.rentals, db.audit)
    ensures r.Success? ==>
      && r.value !in old(db.rentals.rows)
      && db.rentals.rows == old(db.rentals.rows)[r.value := Rental(contractNumber, customerId, vehicleId, branchOutId,
           branchInId, pickupTime, returnTime, dailyRate, depositAmount, notes, DepositStatus(depositAmount),
           RentalStatus.Draft, None, None, None)]
      && db.audit.entries == old(db.audit.entries) + [AuditEntry(session.value.id, "rental.create", "Rental",
           RowRef(r.value), None, Some(map["contractNumber" := Text(contractNumber), "vehicleId" := Ref(vehicleId)]),
           None, Some(branchOutId))]
  {
    var gate := RequirePermission(RentalWrite, session);
    if gate.Failure? {
      return Failure(gate.error);
    }
    var actor := gate.value.user.id;
    if vehicleId !in db.vehicles.rows {
      return Fail(NotFound, "Vehicle not found");
    }
    var status := db.vehicles.rows[vehicleId].status;
    if !Rentable(status) {
      return Fail(BadRequest, NotRentableMessage(status));
    }
    var id := db.InsertRental(Rental(contractNumber, customerId, vehicleId, branchOutId, branchInId, pickupTime,
      returnTime, dailyRate, depositAmount, notes, DepositStatus(depositAmount), RentalStatus.Draft, None, None, None));
    db.audit.Append(AuditEntry(actor, "rental.create", "Rental", RowRef(id), None,
      Some(map["contractNumber" := Text(contractNumber), "vehicleId" := Ref(vehicleId)]), None, Some(branchOutId)));
    return Success(id);
  }

  // ---- updateStatus ----

  /** `rental.updateStatus`: any target status is written, whatever the rental machine says; only a
      missing rental fails. `actualReturnTime` is written only when given. */
  method UpdateStatus(db: Db, session: Option<SessionUser>, id: Id, status: RentalStatus, actualReturnTime: Option<Time>)
    returns (r: Result<Rental, TrpcError>)
    requires db.Valid()
    modifies db.rentals, db.audit
    ensures db.Valid()
    ensures RequirePermission(RentalWrite, session).Failure? ==> r == Failure(RequirePermission(RentalWrite, session).error)
    ensures (RequirePermission(RentalWrite, session).Success? && id !in old(db.rentals.rows)) ==>
      r == Failure(TrpcError(NotFound, None))
    ensures r.Success? <==> RequirePermission(RentalWrite, session).Success? && id in old(db.rentals.rows)
    ensures r.Failure? ==> unchanged(db.rentals, db.audit)
    ensures r.Success? ==>
      var before := old(db.rentals.rows[id]);
      && r.value == before.(status := status,
           actualReturnTime := if actualReturnTime.Some? then actualReturnTime else before.actualReturnTime)
      && db.rentals.rows == old(db.rentals.rows)[id := r.value]
      && db.audit.entries == old(db.audit.entries) + [AuditEntry(session.value.id, "rental.update_status", "Rental",
           RowRef(id), Some(map["status" := Text(before.status.Name())]), Some(map["status" := Text(status.Name())]),
           None, Some(before.branchOutId))]
  {
    var gate := RequirePermission(RentalWrite, session);
    if gate.Failure? {
      return Failure(gate.error);
    }
    var actor := gate.value.user.id;
    if id !in db.rentals.rows {
      return Failure(TrpcError(NotFound, None));
    }
    var rental := db.rentals.rows[id];
    var updated := rental.(status := status,
      actualReturnTime := if actualReturnTime.Some? then actualReturnTime else rental.actualReturnTime);
    db.UpdateRental(id, updated);
    db.audit.Append(AuditEntry(actor, "rental.update_status", "Rental", RowRef(id),
      Some(map["status" := Text(rental.status.Name())]), Some(map["status" := Text(status.Name())]), None,
      Some(rental.branchOutId)));
    return Success(updated);
  }

  /** Moves `updateStatus` accepts although the rental machine refuses them even with override:
      reopening a cancelled rental, and going straight from DRAFT to CLOSED. */
  lemma UpdateStatusBypassesMachine()
    ensures !Validate(RentalMachine, RentalStatus.Cancelled, RentalStatus.Active, true).valid
    ensures !Validate(RentalMachine, RentalStatus.Draft, RentalStatus.Closed, true).valid
  {
  }
}
