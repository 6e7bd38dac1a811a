/** The claim router: filing a claim against an incident and moving it through the claim machine. */
module Claims {
  import opened Wrappers
  import opened StateMachine
  import opened Machines
  import opened Permissions
  import opened Gate
  import opened Store

  const NotFoundMessage := "Claim not found"

  function ReasonRequiredMessage(to: ClaimStatus): string {
    "Reason required when transitioning to " + to.Name()
  }

  /** The first check of `transition` that fails after the gate, if any. */
  function TransitionRejection(rows: map<Id, Claim>, id: Id, to: ClaimStatus, reason: Option<string>): (e: Option<TrpcError>)
    ensures id !in rows ==> e == Some(TrpcError(NotFound, Some(NotFoundMessage)))
    ensures e.None? <==>
      && id in rows && Validate(ClaimMachine, rows[id].status, to, false).valid
      && (Validate(ClaimMachine, rows[id].status, to, false).reasonRequired ==> Truthy(reason))
  {
    if id !in rows then Some(TrpcError(NotFound, Some(NotFoundMessage)))
    else
      var v := Validate(ClaimMachine, rows[id].status, to, false);
      if !v.valid then Some(TrpcError(BadRequest, Some(v.reason.GetOr("Invalid status transition"))))
      else if v.reasonRequired && !Truthy(reason) then Some(TrpcError(BadRequest, Some(ReasonRequiredMessage(to))))
      else None
  }

  /** The claim after a transition: SUBMITTED stamps `filedAt`, SETTLED or CLOSED stamps
      `resolvedAt`, the settlement fields change only when supplied, the rest stays. */
  function Transitioned(c: Claim, to: ClaimStatus, now: Time, settlementAmount: Option<real>,
                        assessorNotes: Option<string>): (r: Claim)
    ensures r.status == to
    ensures r.filedAt == if to == ClaimStatus.Submitted then Some(now) else c.filedAt
    ensures r.resolvedAt == if to == ClaimStatus.Settled || to == ClaimStatus.Closed then Some(now) else c.resolvedAt
    ensures r.settlementAmount == if settlementAmount.Some? then settlementAmount else c.settlementAmount
    ensures r.assessorNotes == if Truthy(assessorNotes) then assessorNotes else c.assessorNotes
    ensures r.(status := c.status, filedAt := c.filedAt, resolvedAt := c.resolvedAt,
               settlementAmount := c.settlementAmount, assessorNotes := c.assessorNotes) == c
  {
    var r0 := c.(status := to);
    var r1 := if to == ClaimStatus.Submitted then r0.(filedAt := Some(now)) else r0;
    var r2 := if to == ClaimStatus.Settled || to == ClaimStatus.Closed then r1.(resolvedAt := Some(now)) else r1;
    var r3 := if settlementAmount.Some? then r2.(settlementAmount := settlementAmount) else r2;
    if Truthy(assessorNotes) then r3.(assessorNotes := assessorNotes) else r3
  }

  function CreatedSnapshot(incidentId: Id, claimType: string, amount: Option<real>): Snapshot {
    Put(map["incidentId" := Ref(incidentId), "claimType" := Text(claimType)], "amount", NumberOf(amount))
  }

  /** `claim.create`: the incident must exist; the new DRAFT claim, the incident's claims status
      set to PENDING, and one "claim.created" entry. The vehicle, rental and customer ids are
      stored unchecked. */
  method Create(db: Db, session: Option<SessionUser>, incidentId: Id, vehicleId: Id, rentalId: Option<Id>,
                customerId: Option<Id>, claimType: string, responsibleParty: string, amount: Option<real>,
                insurerRef: Option<string>)
    returns (r: Result<Id, TrpcError>)
    requires db.Valid()
    modifies db.claims, db.incidents, db.audit
    ensures db.Valid()
    ensures RequirePermission(ClaimsManage, session).Failure? ==> r == Failure(RequirePermission(ClaimsManage, session).error)
    ensures (RequirePermission(ClaimsManage, session).Success? && incidentId !in old(db.incidents.rows)) ==>
      r == Fail(NotFound, "Incident not found")
    ensures r.Success? <==> RequirePermission(ClaimsManage, session).Success? && incidentId in old(db.incidents.rows)
    ensures r.Failure? ==> unchanged(db.claims, db.incidents, db.audit)
    ensures r.Success? ==>
      var incident := old(db.incidents.rows[incidentId]);
      && r.value !in old(db.claims.rows)
      && db.claims.rows == old(db.claims.rows)[r.value := Claim(incidentId, vehicleId, rentalId, customerId,
           claimType, responsibleParty, amount, insurerRef, session.value.id, ClaimStatus.Draft, None, None, None, None)]
      && db.incidents.rows == old(db.incidents.rows)[incidentId := incident.(claimsStatus := Some("PENDING"))]
      && db.audit.entries == old(db.audit.entries) + [AuditEntry(session.value.id, "claim.created", "Claim",
           RowRef(r.value), None, Some(CreatedSnapshot(incidentId, claimType, amount)), None, Some(incident.branchId))]
  {
    var gate := RequirePermission(ClaimsManage, session);
    if gate.Failure? {
      return Failure(gate.error);
    }
    var actor := gate.value.user.id;
    if incidentId !in db.incidents.rows {
      return Fail(NotFound, "Incident not found");
    }
    var incident := db.incidents.rows[incidentId];
    var id := db.InsertClaim(Claim(incidentId, vehicleId, rentalId, customerId, claimType, responsibleParty,
      amount, insurerRef, actor, ClaimStatus.Draft, None, None, None, None));
    db.UpdateIncident(incidentId, incident.(claimsStatus := Some("PENDING")));
    db.audit.Append(AuditEntry(actor, "claim.created", "Claim", RowRef(id), None,
      Some(CreatedSnapshot(incidentId, claimType, amount)), None, Some(incident.branchId)));
    return Success(id);
  }

  /** `claim.transition`: the claim machine without override, the reason policy, the field
      updates and one audit entry carrying the incident's branch. */
  method Transition(db: Db, session: Option<SessionUser>, id: Id, to: ClaimStatus, reason: Option<string>,
                    settlementAmount: Option<real>, assessorNotes: Option<string>, now: Time)
    returns (r: Result<Claim, TrpcError>)
    requires db.Valid()
    modifies db.claims, db.audit
    ensures db.Valid()
    ensures RequirePermission(ClaimsManage, session).Failure? ==> r == Failure(RequirePermission(ClaimsManage, session).error)
    ensures (RequirePermission(ClaimsManage, session).Success?
             && TransitionRejection(old(db.claims.rows), id, to, reason).Some?) ==>
      r == Failure(TransitionRejection(old(db.claims.rows), id, to, reason).value)
    ensures r.Success? <==>
      && RequirePermission(ClaimsManage, session).Success?
      && TransitionRejection(old(db.claims.rows), id, to, reason).None?
    ensures r.Failure? ==> unchanged(db.claims, db.audit)
    ensures r.Success? ==>
      var before := old(db.claims.rows[id]);
      && r.value == Transitioned(before, to, now, settlementAmount, assessorNotes)
      && db.claims.rows == old(db.claims.rows)[id := r.value]
      && db.audit.entries == old(db.audit.entries) + [AuditEntry(session.value.id, "claim.status_change", "Claim",
           RowRef(id), Some(map["status" := Text(before.status.Name())]),
           Some(Put(map["status" := Text(to.Name())], "reason", TextOf(reason))), reason,
           Some(db.incidents.rows[before.incidentId].branchId))]
  {
    var gate := RequirePermission(ClaimsManage, session);
    if gate.Failure? {
      return Failure(gate.error);
    }
    var actor := gate.value.user.id;
    var rejection := TransitionRejection(db.claims.rows, id, to, reason);
    if rejection.Some? {
      return Failure(rejection.value);
    }
    var claim := db.claims.rows[id];
    var incident := db.incidents.rows[claim.incidentId];
    var updated := Transitioned(claim, to, now, settlementAmount, assessorNotes);
    db.UpdateClaim(id, updated);
    db.audit.Append(AuditEntry(actor, "claim.status_change", "Claim", RowRef(id),
      Some(map["status" := Text(claim.status.Name())]), Some(Put(map["status" := Text(to.Name())], "reason", TextOf(reason))),
      reason, Some(incident.branchId)));
    return Success(updated);
  }

  /** Only DENIED demands a reason; a valid move there without one is refused before any write. */
  lemma DeniedNeedsReason(rows: map<Id, Claim>, id: Id, to: ClaimStatus, reason: Option<string>)
    requires id in rows && Validate(ClaimMachine, rows[id].status, to, false).valid
    ensures Includes(ClaimMachine.requiresReason, to) <==> to == ClaimStatus.Denied
    ensures to == ClaimStatus.Denied && !Truthy(reason) ==>
      TransitionRejection(rows, id, to, reason) == Some(TrpcError(BadRequest, Some(ReasonRequiredMessage(to))))
  {
    DirectEdgeWins(ClaimMachine, rows[id].status, to, false);
  }

  /** A refused move reports the validator's own message, which for a CLOSED claim is the
      terminal text. */
  lemma GraphRejectionMessage(rows: map<Id, Claim>, id: Id, to: ClaimStatus, reason: Option<string>)
    requires id in rows && !Validate(ClaimMachine, rows[id].status, to, false).valid
    ensures TransitionRejection(rows, id, to, reason) ==
      Some(TrpcError(BadRequest, Validate(ClaimMachine, rows[id].status, to, false).reason))
    ensures rows[id].status == ClaimStatus.Closed ==>
      TransitionRejection(rows, id, to, reason) ==
        Some(TrpcError(BadRequest, Some(TerminalMessage(ClaimMachine, ClaimStatus.Closed))))
  {
    RejectionShape(ClaimMachine, rows[id].status, to, false);
  }

  /** A closed claim accepts no transition at all. */
  lemma ClosedIsFinal(rows: map<Id, Claim>, id: Id, to: ClaimStatus, reason: Option<string>)
    requires id in rows && rows[id].status == ClaimStatus.Closed
    ensures TransitionRejection(rows, id, to, reason).Some?
  {
    ClaimMachineWellFormed();
    TerminalHasNoExits(ClaimMachine, ClaimStatus.Closed, to, false);
  }
}
