/** The inspection router: starting an inspection, recording checkpoint items, and completing it
    (discrepancy flag, rental link, follow-up task, audit entry). */
module Inspections {
  import opened Wrappers
  import opened Text
  import opened StateMachine
  import opened Machines
  import opened Permissions
  import opened Gate
  import opened Store

  const CreatedAction := "inspection.created"
  const CompletedAction := "inspection.completed"
  const InspectionEntity := "Inspection"

  const NotFoundMessage := "Inspection not found"

  /** The ids of the items recorded for inspection `id`. */
  function ItemsOf(items: map<Id, InspectionItem>, id: Id): (ks: set<Id>)
    ensures forall k :: k in ks <==> k in items && items[k].inspectionId == id
  {
    set k | k in items.Keys && items[k].inspectionId == id
  }

  /** `items.some(item => item.condition !== "OK")`. */
  predicate HasDiscrepancy(items: map<Id, InspectionItem>, id: Id) {
    exists k :: k in ItemsOf(items, id) && items[k].condition != "OK"
  }

  /** With no items, or only OK items, there is no discrepancy; one item in another condition is
      enough for one. */
  lemma DiscrepancyIff(items: map<Id, InspectionItem>, id: Id)
    ensures !HasDiscrepancy(items, id) <==> forall k :: k in items && items[k].inspectionId == id ==> items[k].condition == "OK"
  {
  }

  /** The follow-up task a discrepancy opens: HIGH priority, linked to the vehicle, sourced from
      the inspection. */
  function DiscrepancyTask(insp: Inspection, id: Id, actor: Id, discrepancyNotes: Option<string>): (t: Task)
    ensures t.priority == "HIGH" && t.linkedEntityType == "VEHICLE" && t.linkedEntityId == insp.vehicleId
    ensures t.sourceType == "inspection" && t.sourceId == id && t.creatorId == actor && t.branchId == insp.branchId
    ensures t.status == TaskStatus.Pending
    ensures t.description == if Truthy(discrepancyNotes) then discrepancyNotes.value else "Inspection items flagged with damage"
  {
    Task("inspection_discrepancy", "Review " + Lower(insp.inspectionType) + " inspection discrepancy",
      if Truthy(discrepancyNotes) then discrepancyNotes.value else "Inspection items flagged with damage",
      "VEHICLE", insp.vehicleId, "inspection", id, actor, "HIGH", insp.branchId, TaskStatus.Pending)
  }

  /** The rental after completing inspection `id` of type `kind`: PICKUP and RETURN fill their
      link, any other type leaves the rental as it was. */
  function Linked(r: Rental, kind: string, id: Id): (r': Rental)
    ensures kind == "PICKUP" ==> r' == r.(pickupInspectionId := Some(id))
    ensures kind == "RETURN" ==> r' == r.(returnInspectionId := Some(id))
    ensures kind != "PICKUP" && kind != "RETURN" ==> r' == r
  {
    if kind == "PICKUP" then r.(pickupInspectionId := Some(id))
    else if kind == "RETURN" then r.(returnInspectionId := Some(id))
    else r
  }

  /** The rental patch of `complete`: written only for a PICKUP or RETURN inspection. */
  method LinkRental(db: Db, rentalId: Id, kind: string, id: Id)
    requires db.Valid() && rentalId in db.rentals.rows
    modifies db.rentals
    ensures db.Valid()
    ensures db.rentals.rows == old(db.rentals.rows)[rentalId := Linked(old(db.rentals.rows[rentalId]), kind, id)]
    ensures db.rentals.nextId == old(db.rentals.nextId)
  {
    if kind == "PICKUP" || kind == "RETURN" {
      db.UpdateRental(rentalId, Linked(db.rentals.rows[rentalId], kind, id));
    } else {
      assert db.rentals.rows == db.rentals.rows[rentalId := db.rentals.rows[rentalId]];
    }
  }

  /** The follow-up task of `complete`: inserted only when a discrepancy was found. */
  method OpenTaskIf(db: Db, flagged: bool, t: Task)
    requires db.Valid()
    modifies db.tasks
    ensures db.Valid()
    ensures db.tasks.rows == if flagged then old(db.tasks.rows)[old(db.tasks.nextId) := t] else old(db.tasks.rows)
  {
    if flagged {
      var taskId := db.InsertTask(t);
    }
  }

  /** `inspection.create`: rental and vehicle must exist; the inspection starts IN_PROGRESS in
      the vehicle's branch, and one "inspection.created" entry is logged. */
  method Create(db: Db, session: Option<SessionUser>, rentalId: Id, vehicleId: Id, kind: string,
                fuelLevel: Option<int>, mileage: Option<int>)
    returns (r: Result<Id, TrpcError>)
    requires db.Valid()
    modifies db.inspections, db.audit
    ensures db.Valid()
    ensures RequirePermission(PickupExecute, session).Failure? ==> r == Failure(RequirePermission(PickupExecute, session).error)
    ensures (RequirePermission(PickupExecute, session).Success? && rentalId !in db.rentals.rows) ==>
      r == Fail(NotFound, "Rental not found")
    ensures (RequirePermission(PickupExecute, session).Success? && rentalId in db.rentals.rows && vehicleId !in db.vehicles.rows) ==>
      r == Fail(NotFound, "Vehicle not found")
    ensures r.Success? <==>
      RequirePermission(PickupExecute, session).Success? && rentalId in db.rentals.rows && vehicleId in db.vehicles.rows
    ensures r.Failure? ==> unchanged(db.inspections, db.audit)
    ensures r.Success? ==>
      var branch := db.vehicles.rows[vehicleId].branchId;
      && r.value !in old(db.inspections.rows)
      && db.inspections.rows == old(db.inspections.rows)[r.value := Inspection(rentalId, vehicleId, kind,
           session.value.id, branch, InspectionStatus.InProgress, fuelLevel, mileage, None, None, false, None)]
      && db.audit.entries == old(db.audit.entries) + [AuditEntry(session.value.id, CreatedAction, InspectionEntity,
           RowRef(r.value), None,
           Some(map["type" := Text(kind), "vehicleId" := Ref(vehicleId), "rentalId" := Ref(rentalId)]),
           None, Some(branch))]
  {
    var gate := RequirePermission(PickupExecute, session);
    if gate.Failure? {
      return Failure(gate.error);
    }
    var actor := gate.value.user.id;
    if rentalId !in db.rentals.rows {
      return Fail(NotFound, "Rental not found");
    }
    if vehicleId !in db.vehicles.rows {
      return Fail(NotFound, "Vehicle not found");
    }
    var branch := db.vehicles.rows[vehicleId].branchId;
    var id := db.InsertInspection(Inspection(rentalId, vehicleId, kind, actor, branch, InspectionStatus.InProgress,
      fuelLevel, mileage, None, None, false, None));
    db.audit.Append(AuditEntry(actor, CreatedAction, InspectionEntity, RowRef(id), None,
      Some(map["type" := Text(kind), "vehicleId" := Ref(vehicleId), "rentalId" := Ref(rentalId)]), None, Some(branch)));
    return Success(id);
  }

  /** `inspection.addItem`: only while the inspection is IN_PROGRESS; one item row, no audit. */
  method AddItem(db: Db, session: Option<SessionUser>, item: InspectionItem)
    returns (r: Result<Id, TrpcError>)
    requires db.Valid()
    modifies db.items
    ensures db.Valid()
    ensures RequirePermission(PickupExecute, session).Failure? ==> r == Failure(RequirePermission(PickupExecute, session).error)
    ensures (RequirePermission(PickupExecute, session).Success? && item.inspectionId !in db.inspections.rows) ==>
      r == Fail(NotFound, NotFoundMessage)
    ensures (RequirePermission(PickupExecute, session).Success? && item.inspectionId in db.inspections.rows
             && db.inspections.rows[item.inspectionId].status != InspectionStatus.InProgress) ==>
      r == Fail(BadRequest, "Can only add items to in-progress inspections")
    ensures r.Success? <==>
      && RequirePermission(PickupExecute, session).Success? && item.inspectionId in db.inspections.rows
      && db.inspections.rows[item.inspectionId].status == InspectionStatus.InProgress
    ensures r.Failure? ==> unchanged(db.items)
    ensures r.Success? ==> r.value !in old(db.items.rows) && db.items.rows == old(db.items.rows)[r.value := item]
  {
    var gate := RequirePermission(PickupExecute, session);
    if gate.Failure? {
      return Failure(gate.error);
    }
    if item.inspectionId !in db.inspections.rows {
      return Fail(NotFound, NotFoundMessage);
    }
    if db.inspections.rows[item.inspectionId].status != InspectionStatus.InProgress {
      return Fail(BadRequest, "Can only add items to in-progress inspections");
    }
    var id := db.InsertItem(item);
    return Success(id);
  }

  /** The first check of `complete` that fails after the gate, if any. */
  function CompleteRejection(rows: map<Id, Inspection>, id: Id): (e: Option<TrpcError>)
    ensures e.None? <==> id in rows && Validate(InspectionMachine, rows[id].status, InspectionStatus.Completed, false).valid
  {
    if id !in rows then Some(TrpcError(NotFound, Some(NotFoundMessage)))
    else
      var v := Validate(InspectionMachine, rows[id].status, InspectionStatus.Completed, false);
      if !v.valid then Some(TrpcError(BadRequest, Some(v.reason.GetOr("Cannot complete inspection")))) else None
  }

  /** Completion is possible exactly from IN_PROGRESS. */
  lemma CompletesOnlyFromInProgress(rows: map<Id, Inspection>, id: Id)
    requires id in rows
    ensures CompleteRejection(rows, id).None? <==> rows[id].status == InspectionStatus.InProgress
  {
  }

  function CompletionSnapshot(kind: string, discrepancy: bool, itemCount: nat): Snapshot {
    map["type" := Text(kind), "discrepancyFlag" := Flag(discrepancy), "itemCount" := Whole(itemCount)]
  }

  /** The inspection after completion: COMPLETED, stamped, the flag recomputed, the optional texts
      written only when supplied. */
  function Completed(insp: Inspection, now: Time, flagged: bool, overallCondition: Option<string>,
                     discrepancyNotes: Option<string>): (r: Inspection)
    ensures r.status == InspectionStatus.Completed && r.completedAt == Some(now) && r.discrepancyFlag == flagged
    ensures r.overallCondition == if overallCondition.Some? then overallCondition else insp.overallCondition
    ensures r.discrepancyNotes == if discrepancyNotes.Some? then discrepancyNotes else insp.discrepancyNotes
    ensures r.(status := insp.status, completedAt := insp.completedAt, discrepancyFlag := insp.discrepancyFlag,
               overallCondition := insp.overallCondition, discrepancyNotes := insp.discrepancyNotes) == insp
  {
    insp.(status := InspectionStatus.Completed, completedAt := Some(now),
      overallCondition := if overallCondition.Some? then overallCondition else insp.overallCondition,
      discrepancyFlag := flagged,
      discrepancyNotes := if discrepancyNotes.Some? then discrepancyNotes else insp.discrepancyNotes)
  }

  /** The writes of a completion that passed its checks. */
  method ApplyCompletion(db: Db, id: Id, actor: Id, overallCondition: Option<string>,
                         discrepancyNotes: Option<string>, now: Time)
    returns (updated: Inspection)
    requires db.Valid() && id in db.inspections.rows
    modifies db.inspections, db.rentals, db.tasks, db.audit
    ensures db.Valid()
    ensures updated == Completed(old(db.inspections.rows[id]), now, HasDiscrepancy(db.items.rows, id),
      overallCondition, discrepancyNotes)
    ensures db.inspections.rows == old(db.inspections.rows)[id := updated]
    ensures var before := old(db.inspections.rows[id]);
      db.rentals.rows == old(db.rentals.rows)[before.rentalId :=
        Linked(old(db.rentals.rows[before.rentalId]), before.inspectionType, id)]
    ensures db.tasks.rows == (if HasDiscrepancy(db.items.rows, id)
      then old(db.tasks.rows)[old(db.tasks.nextId) := DiscrepancyTask(old(db.inspections.rows[id]), id, actor, discrepancyNotes)]
      else old(db.tasks.rows))
    ensures var before := old(db.inspections.rows[id]);
      db.audit.entries == old(db.audit.entries) + [AuditEntry(actor, CompletedAction, InspectionEntity,
        RowRef(id), None, Some(CompletionSnapshot(before.inspectionType, HasDiscrepancy(db.items.rows, id),
        |ItemsOf(db.items.rows, id)|)), None, Some(before.branchId))]
  {
    var inspection := db.inspections.rows[id];
    var flagged := HasDiscrepancy(db.items.rows, id);
    var entry := AuditEntry(actor, CompletedAction, InspectionEntity, RowRef(id), None,
      Some(CompletionSnapshot(inspection.inspectionType, flagged, |ItemsOf(db.items.rows, id)|)), None,
      Some(inspection.branchId));
    var task := DiscrepancyTask(inspection, id, actor, discrepancyNotes);
    updated := Completed(inspection, now, flagged, overallCondition, discrepancyNotes);
    db.UpdateInspection(id, updated);
    LinkRental(db, inspection.rentalId, inspection.inspectionType, id);
    FollowUp(db, flagged, task, entry);
  }

  /** The follow-up task, when flagged, and the audit entry of a completion. */
  method FollowUp(db: Db, flagged: bool, task: Task, entry: AuditEntry)
    requires db.Valid()
    modifies db.tasks, db.audit
    ensures db.Valid()
    ensures db.tasks.rows == if flagged then old(db.tasks.rows)[old(db.tasks.nextId) := task] else old(db.tasks.rows)
    ensures db.audit.entries == old(db.audit.entries) + [entry]
  {
    OpenTaskIf(db, flagged, task);
    db.audit.Append(entry);
  }

  /** `inspection.complete`: the machine must allow COMPLETED; then the inspection, the rental
      link, the follow-up task on a discrepancy, and one audit entry with the item count. */
  method Complete(db: Db, session: Option<SessionUser>, id: Id, overallCondition: Option<string>,
                  discrepancyNotes: Option<string>, now: Time)
    returns (r: Result<Inspection, TrpcError>)
    requires db.Valid()
    modifies db.inspections, db.rentals, db.tasks, db.audit
    ensures db.Valid()
    ensures RequirePermission(PickupExecute, session).Failure? ==> r == Failure(RequirePermission(PickupExecute, session).error)
    ensures (RequirePermission(PickupExecute, session).Success? && CompleteRejection(old(db.inspections.rows), id).Some?) ==>
      r == Failure(CompleteRejection(old(db.inspections.rows), id).value)
    ensures r.Success? <==>
      RequirePermission(PickupExecute, session).Success? && CompleteRejection(old(db.inspections.rows), id).None?
    ensures r.Failure? ==> unchanged(db.inspections, db.rentals, db.tasks, db.audit)
    ensures r.Success? ==>
      var before := old(db.inspections.rows[id]);
      var flagged := HasDiscrepancy(db.items.rows, id);
      && r.value == Completed(before, now, flagged, overallCondition, discrepancyNotes)
      && db.inspections.rows == old(db.inspections.rows)[id := r.value]
      && db.rentals.rows == old(db.rentals.rows)[before.rentalId :=
           Linked(old(db.rentals.rows[before.rentalId]), before.inspectionType, id)]
      && db.tasks.rows == (if flagged
           then old(db.tasks.rows)[old(db.tasks.nextId) := DiscrepancyTask(before, id, session.value.id, discrepancyNotes)]
           else old(db.tasks.rows))
      && db.audit.entries == old(db.audit.entries) + [AuditEntry(session.value.id, CompletedAction, InspectionEntity,
           RowRef(id), None, Some(CompletionSnapshot(before.inspectionType, flagged, |ItemsOf(db.items.rows, id)|)),
           None, Some(before.branchId))]
  {
    var gate := RequirePermission(PickupExecute, session);
    if gate.Failure? {
      return Failure(gate.error);
    }
    var rejection := CompleteRejection(db.inspections.rows, id);
    if rejection.Some? {
      return Failure(rejection.value);
    }
    var updated := ApplyCompletion(db, id, gate.value.user.id, overallCondition, discrepancyNotes, now);
    return Success(updated);
  }
}
