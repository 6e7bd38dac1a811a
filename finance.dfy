/** The finance router's mutations: recording a payment, requesting a refund of one, and
    approving a pending refund. */
module Finance {
  import opened Wrappers
  import opened Text
  import opened Permissions
  import opened Gate
  import opened Store

  const Paid := "PAID"
  const RefundPending := "REFUND_PENDING"
  const Refunded := "REFUNDED"
  const NotPendingMessage := "Payment is not pending refund approval"

  /** `finance.createPayment`: the payment is stored PAID, stamped `now`; one "payment.create"
      entry. */
  method CreatePayment(db: Db, session: Option<SessionUser>, rentalId: Id, amount: real, paymentMethod: string,
                       paymentType: string, invoiceRef: Option<string>, receiptRef: Option<string>,
                       notes: Option<string>, now: Time)
    returns (r: Result<Id, TrpcError>)
    requires db.Valid()
    modifies db.payments, db.audit
    ensures db.Valid()
    ensures r.Success? <==> RequirePermission(FinanceWrite, session).Success?
    ensures r.Failure? ==> r.error == RequirePermission(FinanceWrite, session).error && unchanged(db.payments, db.audit)
    ensures r.Success? ==>
      && r.value !in old(db.payments.rows)
      && db.payments.rows == old(db.payments.rows)[r.value := Payment(rentalId, amount, paymentMethod, paymentType,
           Paid, invoiceRef, receiptRef, notes, None, Some(now), None)]
      && db.audit.entries == old(db.audit.entries) + [AuditEntry(session.value.id, "payment.create", "Payment",
           RowRef(r.value), None,
           Some(map["amount" := Number(amount), "type" := Text(paymentType), "method" := Text(paymentMethod)]),
           None, None)]
  {
    var gate := RequirePermission(FinanceWrite, session);
    if gate.Failure? {
      return Failure(gate.error);
    }
    var actor := gate.value.user.id;
    var id := db.InsertPayment(Payment(rentalId, amount, paymentMethod, paymentType, Paid, invoiceRef, receiptRef,
      notes, None, Some(now), None));
    db.audit.Append(AuditEntry(actor, "payment.create", "Payment", RowRef(id), None,
      Some(map["amount" := Number(amount), "type" := Text(paymentType), "method" := Text(paymentMethod)]), None, None));
    return Success(id);
  }

  /** The refund row for `original`: same rental and method, the negated amount, type REFUND,
      status REFUND_PENDING. */
  function RefundOf(original: Payment, paymentId: Id, amount: real, reason: string): (p: Payment)
    ensures p.rentalId == original.rentalId && p.paymentMethod == original.paymentMethod
    ensures p.amount == -amount && p.paymentType == "REFUND" && p.status == RefundPending
    ensures p.reason == Some(reason) && p.paidAt.None? && p.approvedById.None?
  {
    Payment(original.rentalId, -amount, original.paymentMethod, "REFUND", RefundPending, None, None,
      Some("Refund for payment " + NatToString(paymentId)), Some(reason), None, None)
  }

  /** `finance.requestRefund`: the original payment must exist; one refund row and one
      "payment.request_refund" entry. The original is not changed. */
  method RequestRefund(db: Db, session: Option<SessionUser>, paymentId: Id, amount: real, reason: string)
    returns (r: Result<Id, TrpcError>)
    requires db.Valid()
    modifies db.payments, db.audit
    ensures db.Valid()
    ensures RequirePermission(FinanceWrite, session).Failure? ==> r == Failure(RequirePermission(FinanceWrite, session).error)
    ensures (RequirePermission(FinanceWrite, session).Success? && paymentId !in old(db.payments.rows)) ==>
      r == Failure(TrpcError(NotFound, None))
    ensures r.Success? <==> RequirePermission(FinanceWrite, session).Success? && paymentId in old(db.payments.rows)
    ensures r.Failure? ==> unchanged(db.payments, db.audit)
    ensures r.Success? ==>
      && r.value !in old(db.payments.rows) && r.value != paymentId
      && db.payments.rows == old(db.payments.rows)[r.value := RefundOf(old(db.payments.rows[paymentId]), paymentId, amount, reason)]
      && db.audit.entries == old(db.audit.entries) + [AuditEntry(session.value.id, "payment.request_refund", "Payment",
           RowRef(r.value), None,
           Some(map["amount" := Number(-amount), "reason" := Text(reason), "originalPaymentId" := Ref(paymentId)]),
           None, None)]
  {
    var gate := RequirePermission(FinanceWrite, session);
    if gate.Failure? {
      return Failure(gate.error);
    }
    var actor := gate.value.user.id;
    if paymentId !in db.payments.rows {
      return Failure(TrpcError(NotFound, None));
    }
    var original := db.payments.rows[paymentId];
    var id := db.InsertPayment(RefundOf(original, paymentId, amount, reason));
    db.audit.Append(AuditEntry(actor, "payment.request_refund", "Payment", RowRef(id), None,
      Some(map["amount" := Number(-amount), "reason" := Text(reason), "originalPaymentId" := Ref(paymentId)]), None, None));
    return Success(id);
  }

  /** `finance.approveRefund`: only a REFUND_PENDING payment can be approved; it becomes
      REFUNDED, with the approver and `paidAt` set, and one "payment.approve_refund" entry. */
  method ApproveRefund(db: Db, session: Option<SessionUser>, paymentId: Id, now: Time)
    returns (r: Result<Payment, TrpcError>)
    requires db.Valid()
    modifies db.payments, db.audit
    ensures db.Valid()
    ensures RequirePermission(FinanceApproveRefund, session).Failure? ==>
      r == Failure(RequirePermission(FinanceApproveRefund, session).error)
    ensures (RequirePermission(FinanceApproveRefund, session).Success? && paymentId !in old(db.payments.rows)) ==>
      r == Failure(TrpcError(NotFound, None))
    ensures (RequirePermission(FinanceApproveRefund, session).Success? && paymentId in old(db.payments.rows)
             && old(db.payments.rows[paymentId].status) != RefundPending) ==>
      r == Fail(BadRequest, NotPendingMessage)
    ensures r.Success? <==>
      && RequirePermission(FinanceApproveRefund, session).Success? && paymentId in old(db.payments.rows)
      && old(db.payments.rows[paymentId].status) == RefundPending
    ensures r.Failure? ==> unchanged(db.payments, db.audit)
    ensures r.Success? ==>
      && r.value == old(db.payments.rows[paymentId]).(status := Refunded, approvedById := Some(session.value.id), paidAt := Some(now))
      && db.payments.rows == old(db.payments.rows)[paymentId := r.value]
      && db.audit.entries == old(db.audit.entries) + [AuditEntry(session.value.id, "payment.approve_refund", "Payment",
           RowRef(paymentId), Some(map["status" := Text(RefundPending)]),
           Some(map["status" := Text(Refunded), "approvedById" := Ref(session.value.id)]), None, None)]
  {
    var gate := RequirePermission(FinanceApproveRefund, session);
    if gate.Failure? {
      return Failure(gate.error);
    }
    var actor := gate.value.user.id;
    if paymentId !in db.payments.rows {
      return Failure(TrpcError(NotFound, None));
    }
    var payment := db.payments.rows[paymentId];
    if payment.status != RefundPending {
      return Fail(BadRequest, NotPendingMessage);
    }
    var updated := payment.(status := Refunded, approvedById := Some(actor), paidAt := Some(now));
    db.UpdatePayment(paymentId, updated);
    db.audit.Append(AuditEntry(actor, "payment.approve_refund", "Payment", RowRef(paymentId),
      Some(map["status" := Text(RefundPending)]), Some(map["status" := Text(Refunded), "approvedById" := Ref(actor)]),
      None, None));
    return Success(updated);
  }

  /** Approving the same refund twice: whatever the first call does, the second fails, and it
      writes nothing, so exactly one approval entry can come of the pair. */
  method ApproveTwice(db: Db, session: Option<SessionUser>, paymentId: Id, now: Time, later: Time)
    returns (first: Result<Payment, TrpcError>, second: Result<Payment, TrpcError>)
    requires db.Valid()
    modifies db.payments, db.audit
    ensures db.Valid()
    ensures second.Failure?
    ensures first.Success? ==> second == Fail(BadRequest, NotPendingMessage)
    ensures |db.audit.entries| == |old(db.audit.entries)| + (if first.Success? then 1 else 0)
  {
    first := ApproveRefund(db, session, paymentId, now);
    second := ApproveRefund(db, session, paymentId, later);
  }
}
