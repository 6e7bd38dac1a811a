/** The two request gates every procedure passes through: authentication alone, or authentication
    followed by one capability check. */
module Gate {
  import opened Wrappers
  import opened Permissions

  type Id = nat

  /** The error codes the procedures raise. */
  datatype ErrorCode = Unauthorized | Forbidden | NotFound | BadRequest | InternalServerError

  /** A raised procedure error; `message` is `None` when the error carries no text. */
  datatype TrpcError = TrpcError(code: ErrorCode, message: Option<string>)

  /** The signed-in user a session carries. */
  datatype SessionUser = SessionUser(id: Id, role: Role, branchId: Option<Id>)

  /** What a passing gate hands to the procedure body. */
  datatype Ctx = Ctx(user: SessionUser)

  function Fail<T>(code: ErrorCode, message: string): Result<T, TrpcError> {
    Failure(TrpcError(code, Some(message)))
  }

  /** The authentication gate: a request without a session user is rejected. `session` is `None`
      when either the session or its user is absent. */
  function EnforceAuth(session: Option<SessionUser>): (r: Result<Ctx, TrpcError>)
    ensures r.Success? <==> session.Some?
    ensures r.Success? ==> r.value.user == session.value
    ensures r.Failure? ==> r.error == TrpcError(Unauthorized, None)
  {
    match session
    case None => Failure(TrpcError(Unauthorized, None))
    case Some(u) => Success(Ctx(u))
  }

  function MissingPermissionMessage(p: Permission): string {
    "Missing permission: " + p.Name()
  }

  /** The capability gate for `p`: authentication first, then the role's table entry. */
  function RequirePermission(p: Permission, session: Option<SessionUser>): (r: Result<Ctx, TrpcError>)
    ensures session.None? ==> r == Failure(TrpcError(Unauthorized, None))
    ensures session.Some? && !HasPermission(session.value.role, p) ==>
      r == Failure(TrpcError(Forbidden, Some(MissingPermissionMessage(p))))
    ensures r.Success? <==> session.Some? && HasPermission(session.value.role, p)
    ensures r.Success? ==> r.value.user == session.value
  {
    match session
    case None => Failure(TrpcError(Unauthorized, None))
    case Some(u) =>
      if !HasPermission(u.role, p) then Failure(TrpcError(Forbidden, Some(MissingPermissionMessage(p))))
      else Success(Ctx(u))
  }

  /** The capability gate passes exactly when authentication passes and the role holds `p`, and
      then hands on the same context. */
  lemma PermissionGateRefinesAuth(p: Permission, session: Option<SessionUser>)
    ensures RequirePermission(p, session).Success? <==>
      EnforceAuth(session).Success? && HasPermission(EnforceAuth(session).value.user.role, p)
    ensures RequirePermission(p, session).Success? ==> RequirePermission(p, session) == EnforceAuth(session)
    ensures EnforceAuth(session).Failure? ==> RequirePermission(p, session) == EnforceAuth(session)
  {
  }

  /** Authentication never looks at the role: two sessions with the same presence get the same
      verdict whatever roles they carry. */
  lemma AuthIgnoresRole(u: SessionUser, r: Role)
    ensures EnforceAuth(Some(u)).Success?
    ensures EnforceAuth(Some(u.(role := r))).value.user == u.(role := r)
  {
  }

  /** The two rejections of the capability gate are distinguishable by code. */
  lemma ForbiddenIffLacking(p: Permission, u: SessionUser)
    ensures RequirePermission(p, Some(u)).Failure? <==> !HasPermission(u.role, p)
    ensures RequirePermission(p, Some(u)).Failure? ==> RequirePermission(p, Some(u)).error.code == Forbidden
  {
  }
}
