/** The persistent store the routers work on: one keyed table per record type and an append-only
    audit log. Ids are allocated by the table, standing in for the database's generated keys. */
module Store {
  import opened Wrappers
  import opened Machines
  import opened Permissions
  import opened Gate

  /** Milliseconds since the epoch. */
  type Time = int

  /** A JSON value as stored in the audit log's state columns. */
  datatype Val =
    | Text(text: string) | Number(number: real) | Whole(whole: int) | Flag(flag: bool) | Ref(id: Id)
    | Obj(fields: map<string, Val>)

  /** A JSON object; a key whose value was undefined is absent. */
  type Snapshot = map<string, Val>

  /** `s` extended with `key` when the value is defined, as a JSON round trip keeps it. */
  function Put(s: Snapshot, key: string, v: Option<Val>): (r: Snapshot)
    ensures v.Some? ==> r == s[key := v.value]
    ensures v.None? ==> r == s
  {
    match v
    case None => s
    case Some(x) => s[key := x]
  }

  function TextOf(s: Option<string>): Option<Val> {
    match s case None => None case Some(t) => Some(Text(t))
  }

  function NumberOf(n: Option<real>): Option<Val> {
    match n case None => None case Some(x) => Some(Number(x))
  }

  function WholeOf(n: Option<int>): Option<Val> {
    match n case None => None case Some(x) => Some(Whole(x))
  }

  /** JavaScript truthiness of an optional string: present and not empty. */
  predicate Truthy(s: Option<string>) {
    s.Some? && s.value != ""
  }

  /** What an audit entry is about: a stored row, or a named thing such as a tool. */
  datatype EntityRef = RowRef(id: Id) | NameRef(name: string)

  datatype AuditEntry = AuditEntry(
    actorId: Id,
    action: string,
    entityType: string,
    entityId: EntityRef,
    previousState: Option<Snapshot>,
    newState: Option<Snapshot>,
    reason: Option<string>,
    branchId: Option<Id>)

  // ---- Records ----

  /** The descriptive columns of a vehicle, none of which any decision here consults. */
  datatype VehicleInfo = VehicleInfo(
    plate: string, vin: Option<string>, internalCode: Option<string>, vehicleClass: string,
    make: string, model: string, year: int, color: Option<string>, mileage: int,
    fuelLevel: Option<int>, notes: Option<string>)

  datatype Vehicle = Vehicle(info: VehicleInfo, branchId: Id, status: VehicleStatus, isActive: bool)

  datatype StatusHistory = StatusHistory(
    vehicleId: Id, fromStatus: VehicleStatus, toStatus: VehicleStatus, reason: Option<string>, actorId: Id)

  datatype MaintenanceRequest = MaintenanceRequest(
    vehicleId: Id, branchId: Id, requestedById: Id, maintenanceType: string, priority: string,
    description: string, estimatedCost: Option<real>, estimatedDuration: Option<real>,
    scheduledDate: Option<Time>, status: MaintenanceStatus, approvedById: Option<Id>,
    approvedAt: Option<Time>, completedDate: Option<Time>, technicianNotes: Option<string>,
    actualCost: Option<real>, actualDuration: Option<real>, fleetImpact: Option<string>)

  datatype MaintenancePart = MaintenancePart(
    requestId: Id, name: string, partNumber: Option<string>, quantity: int, unitCost: Option<real>)

  datatype Incident = Incident(branchId: Id, status: string, severity: string, claimsStatus: Option<string>)

  datatype Claim = Claim(
    incidentId: Id, vehicleId: Id, rentalId: Option<Id>, customerId: Option<Id>, claimType: string,
    responsibleParty: string, amount: Option<real>, insurerRef: Option<string>, filedById: Id,
    status: ClaimStatus, filedAt: Option<Time>, resolvedAt: Option<Time>,
    settlementAmount: Option<real>, assessorNotes: Option<string>)

  datatype ApprovalRequest = ApprovalRequest(
    approvalType: string, requesterId: Id, entityType: string, entityId: string, reason: string,
    payload: Snapshot, expiresAt: Option<Time>, status: ApprovalStatus, approverId: Option<Id>,
    approverNotes: Option<string>, decidedAt: Option<Time>)

  datatype Rental = Rental(
    contractNumber: string, customerId: Id, vehicleId: Id, branchOutId: Id, branchInId: Option<Id>, pickupTime: Time,
    returnTime: Option<Time>, dailyRate: real, depositAmount: Option<real>, notes: Option<string>,
    depositStatus: Option<string>, status: RentalStatus, actualReturnTime: Option<Time>,
    pickupInspectionId: Option<Id>, returnInspectionId: Option<Id>)

  datatype Inspection = Inspection(
    rentalId: Id, vehicleId: Id, inspectionType: string, inspectorId: Id, branchId: Id,
    status: InspectionStatus, fuelLevel: Option<int>, mileage: Option<int>, completedAt: Option<Time>,
    overallCondition: Option<string>, discrepancyFlag: bool, discrepancyNotes: Option<string>)

  datatype InspectionItem = InspectionItem(
    inspectionId: Id, category: string, checkpointName: string, condition: string,
    photoRef: Option<string>, notes: Option<string>, previousCondition: Option<string>)

  datatype Task = Task(
    taskType: string, title: string, description: string, linkedEntityType: string,
    linkedEntityId: Id, sourceType: string, sourceId: Id, creatorId: Id, priority: string,
    branchId: Id, status: TaskStatus)

  datatype Payment = Payment(
    rentalId: Id, amount: real, paymentMethod: string, paymentType: string, status: string,
    invoiceRef: Option<string>, receiptRef: Option<string>, notes: Option<string>,
    reason: Option<string>, paidAt: Option<Time>, approvedById: Option<Id>)

  datatype SequenceStep = SequenceStep(toolName: string, input: Snapshot)

  datatype Shortcut = Shortcut(
    name: string, description: Option<string>, icon: Option<string>, actionType: string,
    promptTemplate: Option<string>, toolName: Option<string>, toolSequence: Option<seq<SequenceStep>>,
    defaultInputs: Option<Snapshot>, outputMode: string, permissionScopeRequired: Option<string>,
    visibilityScope: string, createdById: Id, isActive: bool)

  /** A stored PIN hash, kept symbolic: the hashing library is not modelled, only which PIN it
      was computed from. */
  datatype PinHash = HashOf(pin: string)

  datatype User = User(identifier: string, name: string, pinHash: PinHash, role: Role)

  datatype ToolResult = ToolResult(success: bool, title: string, displayMode: string, error: Option<string>)

  /** The structured output a tool message carries. */
  datatype ToolOutput =
    | ErrorOutput(code: string, message: string, toolName: string, requiredPermission: Option<string>)
    | ResultOutput(result: ToolResult)

  datatype Message = Message(
    conversationId: Id, role: string, content: string, toolName: Option<string>,
    toolInput: Option<Snapshot>, toolOutput: Option<ToolOutput>)

  datatype Conversation = Conversation(userId: Id, updatedAt: Time)

  // ---- Containers ----

  /** A table of rows keyed by id; ids are handed out in increasing order and never reused. */
  class Table<T> {
    var rows: map<Id, T>
    var nextId: Id

    ghost predicate Valid()
      reads this
    {
      forall id :: id in rows ==> id < nextId
    }

    constructor ()
      ensures Valid() && rows == map[] && nextId == 0
    {
      rows := map[];
      nextId := 0;
    }

    method Insert(v: T) returns (id: Id)
      requires Valid()
      modifies this
      ensures Valid()
      ensures id == old(nextId) && id !in old(rows)
      ensures rows == old(rows)[id := v] && nextId == old(nextId) + 1
    {
      id := nextId;
      rows := rows[id := v];
      nextId := nextId + 1;
    }

    method Update(id: Id, v: T)
      requires id in rows
      modifies this
      ensures rows == old(rows)[id := v] && nextId == old(nextId)
    {
      rows := rows[id := v];
    }

    method Delete(id: Id)
      modifies this
      ensures rows == old(rows) - {id} && nextId == old(nextId)
    {
      rows := rows - {id};
    }
  }

  /** An append-only log. */
  class Log<T> {
    var entries: seq<T>

    constructor ()
      ensures entries == []
    {
      entries := [];
    }

    method Append(e: T)
      modifies this
      ensures entries == old(entries) + [e]
    {
      entries := entries + [e];
    }
  }

  /** The whole store. */
  class Db {
    const vehicles: Table<Vehicle>
    const history: Table<StatusHistory>
    const maintenance: Table<MaintenanceRequest>
    const parts: Table<MaintenancePart>
    const incidents: Table<Incident>
    const claims: Table<Claim>
    const approvals: Table<ApprovalRequest>
    const rentals: Table<Rental>
    const inspections: Table<Inspection>
    const items: Table<InspectionItem>
    const tasks: Table<Task>
    const payments: Table<Payment>
    const shortcuts: Table<Shortcut>
    const users: Table<User>
    const messages: Table<Message>
    const conversations: Table<Conversation>
    const audit: Log<AuditEntry>

    // Each reference invariant below holds because the router that inserts the referring row
    // first loads the referenced one; every handler requires and ensures them all, as `Valid`.

    ghost predicate HistoryRefsVehicles()
      reads history, vehicles
    {
      forall id :: id in history.rows ==> history.rows[id].vehicleId in vehicles.rows
    }

    ghost predicate MaintenanceRefsVehicles()
      reads maintenance, vehicles
    {
      forall id :: id in maintenance.rows ==> maintenance.rows[id].vehicleId in vehicles.rows
    }

    ghost predicate PartsRefRequests()
      reads parts, maintenance
    {
      forall id :: id in parts.rows ==> parts.rows[id].requestId in maintenance.rows
    }

    ghost predicate ClaimsRefIncidents()
      reads claims, incidents
    {
      forall id :: id in claims.rows ==> claims.rows[id].incidentId in incidents.rows
    }

    ghost predicate InspectionsRefRentals()
      reads inspections, rentals, vehicles
    {
      forall id :: id in inspections.rows ==>
        inspections.rows[id].rentalId in rentals.rows && inspections.rows[id].vehicleId in vehicles.rows
    }

    ghost predicate RentalsRefVehicles()
      reads rentals, vehicles
    {
      forall id :: id in rentals.rows ==> rentals.rows[id].vehicleId in vehicles.rows
    }

    ghost predicate ItemsRefInspections()
      reads items, inspections
    {
      forall id :: id in items.rows ==> items.rows[id].inspectionId in inspections.rows
    }

    /** Every table hands out fresh ids and every reference above holds. */
    ghost predicate Valid()
      reads vehicles, history, maintenance, parts, incidents, claims, approvals, rentals,
        inspections, items, tasks, payments, shortcuts, users, messages, conversations
    {
      && vehicles.Valid() && history.Valid() && maintenance.Valid() && parts.Valid()
      && incidents.Valid() && claims.Valid() && approvals.Valid() && rentals.Valid()
      && inspections.Valid() && items.Valid() && tasks.Valid() && payments.Valid()
      && shortcuts.Valid() && users.Valid() && messages.Valid() && conversations.Valid()
      && HistoryRefsVehicles() && MaintenanceRefsVehicles() && PartsRefRequests()
      && ClaimsRefIncidents() && InspectionsRefRentals() && RentalsRefVehicles() && ItemsRefInspections()
    }

    /** A store over empty tables. */
    constructor (vehicles: Table<Vehicle>, history: Table<StatusHistory>,
                 maintenance: Table<MaintenanceRequest>, parts: Table<MaintenancePart>,
                 incidents: Table<Incident>, claims: Table<Claim>, approvals: Table<ApprovalRequest>,
                 rentals: Table<Rental>, inspections: Table<Inspection>, items: Table<InspectionItem>,
                 tasks: Table<Task>, payments: Table<Payment>, shortcuts: Table<Shortcut>,
                 users: Table<User>, messages: Table<Message>, conversations: Table<Conversation>,
                 audit: Log<AuditEntry>)
      requires vehicles.rows == map[] && history.rows == map[] && maintenance.rows == map[]
      requires parts.rows == map[] && incidents.rows == map[] && claims.rows == map[]
      requires approvals.rows == map[] && rentals.rows == map[] && inspections.rows == map[]
      requires items.rows == map[] && tasks.rows == map[] && payments.rows == map[]
      requires shortcuts.rows == map[] && users.rows == map[] && messages.rows == map[]
      requires conversations.rows == map[]
      ensures Valid()
    {
      this.vehicles := vehicles;
      this.history := history;
      this.maintenance := maintenance;
      this.parts := parts;
      this.incidents := incidents;
      this.claims := claims;
      this.approvals := approvals;
      this.rentals := rentals;
      this.inspections := inspections;
      this.items := items;
      this.tasks := tasks;
      this.payments := payments;
      this.shortcuts := shortcuts;
      this.users := users;
      this.messages := messages;
      this.conversations := conversations;
      this.audit := audit;
    }

    // ---- Writes: each keeps every invariant above. A row may be written only when the rows it
    // refers to exist. ----

    method InsertVehicle(v: Vehicle) returns (id: Id)
      requires Valid()
      modifies vehicles
      ensures Valid()
      ensures id == old(vehicles.nextId) && id !in old(vehicles.rows)
      ensures vehicles.rows == old(vehicles.rows)[id := v] && vehicles.nextId == old(vehicles.nextId) + 1
    {
      id := vehicles.Insert(v);
    }

    method UpdateVehicle(id: Id, v: Vehicle)
      requires Valid() && id in vehicles.rows
      modifies vehicles
      ensures Valid()
      ensures vehicles.rows == old(vehicles.rows)[id := v] && vehicles.nextId == old(vehicles.nextId)
    {
      vehicles.Update(id, v);
    }

    method InsertHistory(v: StatusHistory) returns (id: Id)
      requires Valid() && v.vehicleId in vehicles.rows
      modifies history
      ensures Valid()
      ensures id == old(history.nextId) && id !in old(history.rows)
      ensures history.rows == old(history.rows)[id := v] && history.nextId == old(history.nextId) + 1
    {
      id := history.Insert(v);
    }

    method InsertMaintenance(v: MaintenanceRequest) returns (id: Id)
      requires Valid() && v.vehicleId in vehicles.rows
      modifies maintenance
      ensures Valid()
      ensures id == old(maintenance.nextId) && id !in old(maintenance.rows)
      ensures maintenance.rows == old(maintenance.rows)[id := v] && maintenance.nextId == old(maintenance.nextId) + 1
    {
      id := maintenance.Insert(v);
    }

    method UpdateMaintenance(id: Id, v: MaintenanceRequest)
      requires Valid() && id in maintenance.rows && v.vehicleId in vehicles.rows
      modifies maintenance
      ensures Valid()
      ensures maintenance.rows == old(maintenance.rows)[id := v] && maintenance.nextId == old(maintenance.nextId)
    {
      maintenance.Update(id, v);
    }

    method InsertPart(v: MaintenancePart) returns (id: Id)
      requires Valid() && v.requestId in maintenance.rows
      modifies parts
      ensures Valid()
      ensures id == old(parts.nextId) && id !in old(parts.rows)
      ensures parts.rows == old(parts.rows)[id := v] && parts.nextId == old(parts.nextId) + 1
    {
      id := parts.Insert(v);
    }

    method UpdateIncident(id: Id, v: Incident)
      requires Valid() && id in incidents.rows
      modifies incidents
      ensures Valid()
      ensures incidents.rows == old(incidents.rows)[id := v] && incidents.nextId == old(incidents.nextId)
    {
      incidents.Update(id, v);
    }

    method InsertClaim(v: Claim) returns (id: Id)
      requires Valid() && v.incidentId in incidents.rows
      modifies claims
      ensures Valid()
      ensures id == old(claims.nextId) && id !in old(claims.rows)
      ensures claims.rows == old(claims.rows)[id := v] && claims.nextId == old(claims.nextId) + 1
    {
      id := claims.Insert(v);
    }

    method UpdateClaim(id: Id, v: Claim)
      requires Valid() && id in claims.rows && v.incidentId in incidents.rows
      modifies claims
      ensures Valid()
      ensures claims.rows == old(claims.rows)[id := v] && claims.nextId == old(claims.nextId)
    {
      claims.Update(id, v);
    }

    method InsertApproval(v: ApprovalRequest) returns (id: Id)
      requires Valid()
      modifies approvals
      ensures Valid()
      ensures id == old(approvals.nextId) && id !in old(approvals.rows)
      ensures approvals.rows == old(approvals.rows)[id := v] && approvals.nextId == old(approvals.nextId) + 1
    {
      id := approvals.Insert(v);
    }

    method UpdateApproval(id: Id, v: ApprovalRequest)
      requires Valid() && id in approvals.rows
      modifies approvals
      ensures Valid()
      ensures approvals.rows == old(approvals.rows)[id := v] && approvals.nextId == old(approvals.nextId)
    {
      approvals.Update(id, v);
    }

    method InsertRental(v: Rental) returns (id: Id)
      requires Valid() && v.vehicleId in vehicles.rows
      modifies rentals
      ensures Valid()
      ensures id == old(rentals.nextId) && id !in old(rentals.rows)
      ensures rentals.rows == old(rentals.rows)[id := v] && rentals.nextId == old(rentals.nextId) + 1
    {
      id := rentals.Insert(v);
    }

    method UpdateRental(id: Id, v: Rental)
      requires Valid() && id in rentals.rows && v.vehicleId in vehicles.rows
      modifies rentals
      ensures Valid()
      ensures rentals.rows == old(rentals.rows)[id := v] && rentals.nextId == old(rentals.nextId)
    {
      rentals.Update(id, v);
    }

    method InsertInspection(v: Inspection) returns (id: Id)
      requires Valid() && v.rentalId in rentals.rows && v.vehicleId in vehicles.rows
      modifies inspections
      ensures Valid()
      ensures id == old(inspections.nextId) && id !in old(inspections.rows)
      ensures inspections.rows == old(inspections.rows)[id := v] && inspections.nextId == old(inspections.nextId) + 1
    {
      id := inspections.Insert(v);
    }

    method UpdateInspection(id: Id, v: Inspection)
      requires Valid() && id in inspections.rows && v.rentalId in rentals.rows && v.vehicleId in vehicles.rows
      modifies inspections
      ensures Valid()
      ensures inspections.rows == old(inspections.rows)[id := v] && inspections.nextId == old(inspections.nextId)
    {
      inspections.Update(id, v);
    }

    method InsertItem(v: InspectionItem) returns (id: Id)
      requires Valid() && v.inspectionId in inspections.rows
      modifies items
      ensures Valid()
      ensures id == old(items.nextId) && id !in old(items.rows)
      ensures items.rows == old(items.rows)[id := v] && items.nextId == old(items.nextId) + 1
    {
      id := items.Insert(v);
    }

    method InsertTask(v: Task) returns (id: Id)
      requires Valid()
      modifies tasks
      ensures Valid()
      ensures id == old(tasks.nextId) && id !in old(tasks.rows)
      ensures tasks.rows == old(tasks.rows)[id := v] && tasks.nextId == old(tasks.nextId) + 1
    {
      id := tasks.Insert(v);
    }

    method InsertPayment(v: Payment) returns (id: Id)
      requires Valid()
      modifies payments
      ensures Valid()
      ensures id == old(payments.nextId) && id !in old(payments.rows)
      ensures payments.rows == old(payments.rows)[id := v] && payments.nextId == old(payments.nextId) + 1
    {
      id := payments.Insert(v);
    }

    method UpdatePayment(id: Id, v: Payment)
      requires Valid() && id in payments.rows
      modifies payments
      ensures Valid()
      ensures payments.rows == old(payments.rows)[id := v] && payments.nextId == old(payments.nextId)
    {
      payments.Update(id, v);
    }

    method InsertShortcut(v: Shortcut) returns (id: Id)
      requires Valid()
      modifies shortcuts
      ensures Valid()
      ensures id == old(shortcuts.nextId) && id !in old(shortcuts.rows)
      ensures shortcuts.rows == old(shortcuts.rows)[id := v] && shortcuts.nextId == old(shortcuts.nextId) + 1
    {
      id := shortcuts.Insert(v);
    }

    method UpdateShortcut(id: Id, v: Shortcut)
      requires Valid() && id in shortcuts.rows
      modifies shortcuts
      ensures Valid()
      ensures shortcuts.rows == old(shortcuts.rows)[id := v] && shortcuts.nextId == old(shortcuts.nextId)
    {
      shortcuts.Update(id, v);
    }

    method DeleteShortcut(id: Id)
      requires Valid()
      modifies shortcuts
      ensures Valid()
      ensures shortcuts.rows == old(shortcuts.rows) - {id} && shortcuts.nextId == old(shortcuts.nextId)
    {
      shortcuts.Delete(id);
    }

    method InsertUser(v: User) returns (id: Id)
      requires Valid()
      modifies users
      ensures Valid()
      ensures id == old(users.nextId) && id !in old(users.rows)
      ensures users.rows == old(users.rows)[id := v] && users.nextId == old(users.nextId) + 1
    {
      id := users.Insert(v);
    }

    method InsertMessage(v: Message) returns (id: Id)
      requires Valid()
      modifies messages
      ensures Valid()
      ensures id == old(messages.nextId) && id !in old(messages.rows)
      ensures messages.rows == old(messages.rows)[id := v] && messages.nextId == old(messages.nextId) + 1
    {
      id := messages.Insert(v);
    }

    method UpdateConversation(id: Id, v: Conversation)
      requires Valid() && id in conversations.rows
      modifies conversations
      ensures Valid()
      ensures conversations.rows == old(conversations.rows)[id := v] && conversations.nextId == old(conversations.nextId)
    {
      conversations.Update(id, v);
    }
  }
}
