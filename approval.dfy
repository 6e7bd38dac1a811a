/** The approval router: requesting an approval (with its expiry), deciding it, and the list
    filter. */
module Approvals {
  import opened Wrappers
  import opened Text
  import opened StateMachine
  import opened Machines
  import opened Permissions
  import opened Gate
  import opened Store

  const HourMs := 3600000
  const NotFoundMessage := "Approval request not found"
  const ExpiredMessage := "This approval request has expired"

  /** The two verdicts `decide` accepts. */
  datatype Decision = Approve | Deny {
    function Status(): (s: ApprovalStatus)
      ensures s == ApprovalStatus.Approved || s == ApprovalStatus.Denied
    {
      match this
      case Approve => ApprovalStatus.Approved
      case Deny => ApprovalStatus.Denied
    }
  }

  /** The audit action: "approval." followed by the lower-cased decision. */
  function DecisionAction(d: Decision): string {
    "approval." + Lower(d.Status().Name())
  }

  /** `expiresAt` of a new request: `now` plus the given hours, or none when the hours are absent
      or zero (a falsy number). */
  function ExpiresAt(now: Time, expiresInHours: Option<int>): (r: Option<Time>)
    ensures r.Some? <==> expiresInHours.Some? && expiresInHours.value != 0
    ensures r.Some? ==> r.value == now + expiresInHours.value * HourMs
  {
    if expiresInHours.Some? && expiresInHours.value != 0 then Some(now + expiresInHours.value * HourMs) else None
  }

  /** Within the schema's 1..168 hours, a request expires strictly after `now` and at most a week
      later. */
  lemma ExpiryWithinAWeek(now: Time, hours: int)
    requires 1 <= hours <= 168
    ensures var e := ExpiresAt(now, Some(hours)); e.Some? && now < e.value <= now + 7 * 24 * HourMs
  {
  }

  // ---- The list filter ----

  datatype ListFilter = ListFilter(status: Option<ApprovalStatus>, approvalType: Option<string>)

  /** `list`'s `where`: the given status and type, with `mine` forcing the status to PENDING. */
  function ListWhere(status: Option<ApprovalStatus>, approvalType: Option<string>, mine: Option<bool>): (f: ListFilter)
    ensures mine == Some(true) ==> f.status == Some(ApprovalStatus.Pending)
    ensures mine != Some(true) ==> f.status == status
    ensures f.approvalType == (if Truthy(approvalType) then approvalType else None)
  {
    var s := if mine == Some(true) then Some(ApprovalStatus.Pending) else status;
    ListFilter(s, if Truthy(approvalType) then approvalType else None)
  }

  predicate Matches(f: ListFilter, req: ApprovalRequest) {
    (f.status.Some? ==> req.status == f.status.value)
    && (f.approvalType.Some? ==> req.approvalType == f.approvalType.value)
  }

  /** With `mine`, only pending requests are listed, whatever status was asked for. */
  lemma MineListsOnlyPending(status: Option<ApprovalStatus>, approvalType: Option<string>, req: ApprovalRequest)
    ensures Matches(ListWhere(status, approvalType, Some(true)), req) ==> req.status == ApprovalStatus.Pending
    ensures req.status != ApprovalStatus.Pending ==> !Matches(ListWhere(status, approvalType, Some(true)), req)
  {
  }

  // ---- create ----

  /** `approval.create`: any signed-in user; a PENDING request with the computed expiry, and one
      "approval.requested" entry under the requester's branch. */
  method Create(db: Db, session: Option<SessionUser>, approvalType: string, entityType: string, entityId: string,
                reason: string, payload: Snapshot, expiresInHours: Option<int>, now: Time)
    returns (r: Result<Id, TrpcError>)
    requires db.Valid()
    modifies db.approvals, db.audit
    ensures db.Valid()
    ensures r.Success? <==> EnforceAuth(session).Success?
    ensures r.Failure? ==> r.error == EnforceAuth(session).error && unchanged(db.approvals, db.audit)
    ensures r.Success? ==>
      && r.value !in old(db.approvals.rows)
      && db.approvals.rows == old(db.approvals.rows)[r.value := ApprovalRequest(approvalType, session.value.id,
           entityType, entityId, reason, payload, ExpiresAt(now, expiresInHours), ApprovalStatus.Pending, None, None, None)]
      && db.audit.entries == old(db.audit.entries) + [AuditEntry(session.value.id, "approval.requested",
           "ApprovalRequest", RowRef(r.value), None,
           Some(map["type" := Text(approvalType), "entityType" := Text(entityType), "entityId" := Text(entityId)]),
           None, session.value.branchId)]
  {
    var gate := EnforceAuth(session);
    if gate.Failure? {
      return Failure(gate.error);
    }
    var user := gate.value.user;
    var id := db.InsertApproval(ApprovalRequest(approvalType, user.id, entityType, entityId, reason, payload,
      ExpiresAt(now, expiresInHours), ApprovalStatus.Pending, None, None, None));
    db.audit.Append(AuditEntry(user.id, "approval.requested", "ApprovalRequest", RowRef(id), None,
      Some(map["type" := Text(approvalType), "entityType" := Text(entityType), "entityId" := Text(entityId)]),
      None, user.branchId));
    return Success(id);
  }

  // ---- decide ----

  predicate HasExpired(req: ApprovalRequest, now: Time) {
    req.expiresAt.Some? && now > req.expiresAt.value
  }

  /** The first check of `decide` that fails after the gate, in source order: the request must
      exist, the machine must allow the decision, and only then is expiry looked at. */
  function DecideRejection(rows: map<Id, ApprovalRequest>, id: Id, d: Decision, now: Time): (e: Option<TrpcError>)
    ensures e.None? <==>
      id in rows && Validate(ApprovalMachine, rows[id].status, d.Status(), false).valid && !HasExpired(rows[id], now)
  {
    if id !in rows then Some(TrpcError(NotFound, Some(NotFoundMessage)))
    else
      var v := Validate(ApprovalMachine, rows[id].status, d.Status(), false);
      if !v.valid then Some(TrpcError(BadRequest, Some(v.reason.GetOr("Invalid status transition"))))
      else if HasExpired(rows[id], now) then Some(TrpcError(BadRequest, Some(ExpiredMessage)))
      else None
  }

  /** Whether `decide` marks the request EXPIRED: it passed the graph check but has expired. */
  predicate ExpiresOnDecide(rows: map<Id, ApprovalRequest>, id: Id, d: Decision, now: Time) {
    id in rows && Validate(ApprovalMachine, rows[id].status, d.Status(), false).valid && HasExpired(rows[id], now)
  }

  /** `approval.decide`. */
  method Decide(db: Db, session: Option<SessionUser>, id: Id, d: Decision, notes: Option<string>, now: Time)
    returns (r: Result<ApprovalRequest, TrpcError>)
    requires db.Valid()
    modifies db.approvals, db.audit
    ensures db.Valid()
    ensures RequirePermission(ApprovalDecide, session).Failure? ==>
      r == Failure(RequirePermission(ApprovalDecide, session).error)
    ensures (RequirePermission(ApprovalDecide, session).Success? && DecideRejection(old(db.approvals.rows), id, d, now).Some?) ==>
      r == Failure(DecideRejection(old(db.approvals.rows), id, d, now).value)
    ensures r.Success? <==>
      RequirePermission(ApprovalDecide, session).Success? && DecideRejection(old(db.approvals.rows), id, d, now).None?
    ensures r.Failure? ==> unchanged(db.audit)
    ensures (r.Failure? && RequirePermission(ApprovalDecide, session).Success? && ExpiresOnDecide(old(db.approvals.rows), id, d, now)) ==>
      db.approvals.rows == old(db.approvals.rows)[id := old(db.approvals.rows[id]).(status := ApprovalStatus.Expired)]
    ensures (r.Failure? && !(RequirePermission(ApprovalDecide, session).Success? && ExpiresOnDecide(old(db.approvals.rows), id, d, now))) ==>
      unchanged(db.approvals)
    ensures r.Success? ==>
      var before := old(db.approvals.rows[id]);
      && r.value == before.(status := d.Status(), approverId := Some(session.value.id),
                            approverNotes := if notes.Some? then notes else before.approverNotes, decidedAt := Some(now))
      && db.approvals.rows == old(db.approvals.rows)[id := r.value]
      && db.audit.entries == old(db.audit.entries) + [AuditEntry(session.value.id, DecisionAction(d), "ApprovalRequest",
           RowRef(id), Some(map["status" := Text(before.status.Name())]),
           Some(map["status" := Text(d.Status().Name()), "type" := Text(before.approvalType),
                    "entityType" := Text(before.entityType), "entityId" := Text(before.entityId)]),
           None, session.value.branchId)]
  {
    var gate := RequirePermission(ApprovalDecide, session);
    if gate.Failure? {
      return Failure(gate.error);
    }
    var user := gate.value.user;
    if id !in db.approvals.rows {
      return Fail(NotFound, NotFoundMessage);
    }
    var request := db.approvals.rows[id];
    var v := Validate(ApprovalMachine, request.status, d.Status(), false);
    if !v.valid {
      return Fail(BadRequest, v.reason.GetOr("Invalid status transition"));
    }
    if HasExpired(request, now) {
      db.UpdateApproval(id, request.(status := ApprovalStatus.Expired));
      return Fail(BadRequest, ExpiredMessage);
    }
    var updated := request.(status := d.Status(), approverId := Some(user.id),
      approverNotes := if notes.Some? then notes else request.approverNotes, decidedAt := Some(now));
    db.UpdateApproval(id, updated);
    db.audit.Append(AuditEntry(user.id, DecisionAction(d), "ApprovalRequest", RowRef(id),
      Some(map["status" := Text(request.status.Name())]),
      Some(map["status" := Text(d.Status().Name()), "type" := Text(request.approvalType),
               "entityType" := Text(request.entityType), "entityId" := Text(request.entityId)]),
      None, user.branchId));
    return Success(updated);
  }

  /** The two audit actions. */
  lemma ApproveAction()
    ensures DecisionAction(Decision.Approve) == "approval.approved"
  {
  }

  lemma DenyAction()
    ensures DecisionAction(Decision.Deny) == "approval.denied"
  {
  }

  /** The graph check comes first: a request already decided or expired is refused with the
      terminal message even when it is past its expiry, and so is never re-marked EXPIRED. */
  lemma GraphBeforeExpiry(rows: map<Id, ApprovalRequest>, id: Id, d: Decision, now: Time)
    requires id in rows && IsTerminal(ApprovalMachine, rows[id].status)
    ensures DecideRejection(rows, id, d, now) ==
      Some(TrpcError(BadRequest, Some(TerminalMessage(ApprovalMachine, rows[id].status))))
    ensures !ExpiresOnDecide(rows, id, d, now)
  {
    ApprovalMachineWellFormed();
    ApprovalMachineTags();
    TerminalHasNoExits(ApprovalMachine, rows[id].status, d.Status(), false);
  }

  /** Only an open request (PENDING or ESCALATED) can be decided or re-marked EXPIRED, and an open
      request that has not expired is always decidable. */
  lemma OpenRequestsDecidable(rows: map<Id, ApprovalRequest>, id: Id, d: Decision, now: Time)
    requires id in rows
    ensures DecideRejection(rows, id, d, now).None? || ExpiresOnDecide(rows, id, d, now) <==>
      rows[id].status == ApprovalStatus.Pending || rows[id].status == ApprovalStatus.Escalated
    ensures ((rows[id].status == ApprovalStatus.Pending || rows[id].status == ApprovalStatus.Escalated)
             && !HasExpired(rows[id], now)) ==> DecideRejection(rows, id, d, now).None?
  {
  }

  /** DENIED is a reason-required target in the machine, yet `decide` never asks for notes: an
      open, unexpired request is denied without any. */
  lemma DenialNeedsNoNotes(rows: map<Id, ApprovalRequest>, id: Id, now: Time)
    requires id in rows && rows[id].status == ApprovalStatus.Pending && !HasExpired(rows[id], now)
    ensures Validate(ApprovalMachine, ApprovalStatus.Pending, ApprovalStatus.Denied, false).reasonRequired
    ensures DecideRejection(rows, id, Decision.Deny, now).None?
  {
  }
}
