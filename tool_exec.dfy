/** The tool-execution router: listing the tools and slash commands a caller may use, the
    executability precheck, and `execute`, which records exactly one message on every path. */
module ToolExec {
  import opened Wrappers
  import opened Permissions
  import opened Gate
  import opened Store
  import opened Registry

  const NotFoundCode := "TOOL_NOT_FOUND"
  const DeniedCode := "PERMISSION_DENIED"
  const ExecutionErrorCode := "EXECUTION_ERROR"
  const UnknownErrorMessage := "Unknown execution error"

  /** A role's stored name is never empty, so the listings below always filter. */
  lemma RoleNamesNonEmpty(r: Role)
    ensures r.Name() != ""
  {
  }

  /** `listTools`: exactly the registered tools the caller's role may use, in registration order. */
  function ListTools(registry: ToolRegistry, session: Option<SessionUser>): (r: Result<seq<Tool>, TrpcError>)
    reads registry
    requires registry.Valid()
    ensures r.Success? <==> session.Some?
    ensures r.Failure? ==> r == Failure(EnforceAuth(session).error)
    ensures r.Success? ==> Subsequence(r.value, registry.ToolsIn(registry.order))
    ensures r.Success? ==> forall t :: t in r.value <==>
      t in registry.tools.Values && HasPermission(session.value.role, t.requiredPermission)
  {
    var gate := EnforceAuth(session);
    if gate.Failure? then Failure(gate.error)
    else
      var role := gate.value.user.role;
      RoleNamedInverse(role);
      RoleNamesNonEmpty(role);
      Success(registry.ListTools(Some(role.Name())))
  }

  /** `listSlashCommands`: the caller's permitted commands, in registration order. */
  function ListSlashCommands(registry: ToolRegistry, session: Option<SessionUser>): (r: Result<seq<SlashCommand>, TrpcError>)
    reads registry
    ensures r.Success? <==> session.Some?
    ensures r.Failure? ==> r == Failure(EnforceAuth(session).error)
    ensures r.Success? ==> Subsequence(r.value, registry.slashCommands) && forall c :: c in r.value <==>
      (c in registry.slashCommands && c.toolName in registry.tools
       && HasPermission(session.value.role, registry.tools[c.toolName].requiredPermission))
  {
    var gate := EnforceAuth(session);
    if gate.Failure? then Failure(gate.error)
    else
      var role := gate.value.user.role;
      RoleNamedInverse(role);
      RoleNamesNonEmpty(role);
      Success(registry.ListSlashCommands(Some(role.Name())))
  }

  datatype PrecheckResult = PrecheckResult(
    executable: bool, code: Option<string>, reason: Option<string>, requiredPermission: Option<string>)

  /** `precheck`: unknown tool, missing capability, or executable. */
  function Precheck(registry: ToolRegistry, session: Option<SessionUser>, toolName: string): (r: Result<PrecheckResult, TrpcError>)
    reads registry
    requires registry.Valid()
    ensures r.Failure? <==> session.None?
    ensures r.Failure? ==> r == Failure(EnforceAuth(session).error)
    ensures r.Success? && toolName !in registry.tools ==>
      r.value == PrecheckResult(false, Some(NotFoundCode), Some("Tool \"" + toolName + "\" not found"), None)
    ensures (r.Success? && toolName in registry.tools
      && !HasPermission(session.value.role, registry.tools[toolName].requiredPermission)) ==>
      var p := registry.tools[toolName].requiredPermission.Name();
      r.value == PrecheckResult(false, Some(DeniedCode), Some("Requires permission: " + p), Some(p))
    ensures r.Success? ==> (r.value.executable <==>
      toolName in registry.tools && HasPermission(session.value.role, registry.tools[toolName].requiredPermission))
    ensures r.Success? && r.value.executable ==> r.value == PrecheckResult(true, None, None, None)
  {
    var gate := EnforceAuth(session);
    if gate.Failure? then Failure(gate.error)
    else
      var tool := registry.GetTool(toolName);
      if tool.None? then
        Success(PrecheckResult(false, Some(NotFoundCode), Some("Tool \"" + toolName + "\" not found"), None))
      else if !HasPermission(gate.value.user.role, tool.value.requiredPermission) then
        var p := tool.value.requiredPermission.Name();
        Success(PrecheckResult(false, Some(DeniedCode), Some("Requires permission: " + p), Some(p)))
      else Success(PrecheckResult(true, None, None, None))
  }

  // ---- execute ----

  /** What the tool's body did; it reads the database and is not modelled here. A throw carries
      its message when it was an `Error`. */
  datatype Outcome = Returned(result: ToolResult) | Threw(message: Option<string>)

  function ErrorMessage(conversationId: Id, toolName: string, content: string, error: ToolOutput): Message {
    Message(conversationId, "system", content, Some(toolName), None, Some(error))
  }

  function ToolEntry(actorId: Id, action: string, toolName: string, state: Snapshot): AuditEntry {
    AuditEntry(actorId, action, "Tool", NameRef(toolName), None, Some(state), None, None)
  }

  /** The message `execute` stores, given the lookup, the permission check and the outcome. */
  function StoredMessage(tool: Option<Tool>, permitted: bool, conversationId: Id, toolName: string,
                         input: Snapshot, outcome: Outcome): (m: Message)
    ensures m.conversationId == conversationId && m.toolName == Some(toolName)
    ensures m.role == "tool_result" <==> tool.Some? && permitted && outcome.Returned?
  {
    if tool.None? then
      var text := "Unknown tool: " + toolName;
      ErrorMessage(conversationId, toolName, text, ErrorOutput(NotFoundCode, text, toolName, None))
    else if !permitted then
      var p := tool.value.requiredPermission.Name();
      var text := "Permission denied: requires " + p;
      ErrorMessage(conversationId, toolName, text, ErrorOutput(DeniedCode, text, toolName, Some(p)))
    else match outcome
      case Returned(result) =>
        Message(conversationId, "tool_result", result.title, Some(toolName), Some(input), Some(ResultOutput(result)))
      case Threw(msg) =>
        var text := msg.GetOr(UnknownErrorMessage);
        ErrorMessage(conversationId, toolName, "Tool error: " + text, ErrorOutput(ExecutionErrorCode, text, toolName, None))
  }

  /** The audit entries `execute` appends: one for each failure path, one for a write action's
      success, none for a read-only success. */
  function StoredAudit(tool: Option<Tool>, permitted: bool, user: SessionUser, toolName: string,
                       input: Snapshot, outcome: Outcome): (es: seq<AuditEntry>)
    ensures |es| <= 1
    ensures es == [] <==> tool.Some? && permitted && outcome.Returned? && !tool.value.isWriteAction
  {
    if tool.None? then
      [ToolEntry(user.id, "tool.execute_failed", toolName, map["error" := Text(NotFoundCode), "toolName" := Text(toolName)])]
    else if !permitted then
      [ToolEntry(user.id, "tool.permission_denied", toolName,
        map["error" := Text(DeniedCode), "requiredPermission" := Text(tool.value.requiredPermission.Name()),
            "userRole" := Text(user.role.Name())])]
    else match outcome
      case Returned(result) =>
        if tool.value.isWriteAction then
          [ToolEntry(user.id, "tool." + toolName, toolName, map["toolInput" := Obj(input), "result" := Flag(result.success)])]
        else []
      case Threw(msg) =>
        [ToolEntry(user.id, "tool.execute_error", toolName,
          map["error" := Text(ExecutionErrorCode), "message" := Text(msg.GetOr(UnknownErrorMessage)),
              "toolInput" := Obj(input)])]
  }

  /** `execute`. The conversation must exist: its timestamp is updated after a successful run. */
  method Execute(db: Db, registry: ToolRegistry, session: Option<SessionUser>, conversationId: Id,
                 toolName: string, input: Snapshot, outcome: Outcome, now: Time)
    returns (r: Result<Id, TrpcError>)
    requires registry.Valid() && db.Valid()
    requires conversationId in db.conversations.rows
    modifies db.messages, db.audit, db.conversations
    ensures db.Valid()
    ensures r.Failure? <==> session.None?
    ensures r.Failure? ==> (r == Failure(EnforceAuth(session).error)
      && unchanged(db.messages, db.audit, db.conversations))
    ensures r.Success? ==>
      var user := session.value;
      var tool := registry.GetTool(toolName);
      var permitted := tool.Some? && HasPermission(user.role, tool.value.requiredPermission);
      && r.value !in old(db.messages.rows)
      && db.messages.rows == old(db.messages.rows)[r.value := StoredMessage(tool, permitted, conversationId, toolName, input, outcome)]
      && db.audit.entries == old(db.audit.entries) + StoredAudit(tool, permitted, user, toolName, input, outcome)
      && (if permitted && outcome.Returned?
          then db.conversations.rows == old(db.conversations.rows)[conversationId :=
                 old(db.conversations.rows[conversationId]).(updatedAt := now)]
          else db.conversations.rows == old(db.conversations.rows))
  {
    var gate := EnforceAuth(session);
    if gate.Failure? {
      return Failure(gate.error);
    }
    var user := gate.value.user;
    var found := registry.GetTool(toolName);
    if found.None? {
      var text := "Unknown tool: " + toolName;
      var id := db.InsertMessage(ErrorMessage(conversationId, toolName, text, ErrorOutput(NotFoundCode, text, toolName, None)));
      db.audit.Append(ToolEntry(user.id, "tool.execute_failed", toolName,
        map["error" := Text(NotFoundCode), "toolName" := Text(toolName)]));
      return Success(id);
    }
    var tool := found.value;
    if !HasPermission(user.role, tool.requiredPermission) {
      var p := tool.requiredPermission.Name();
      var text := "Permission denied: requires " + p;
      var id := db.InsertMessage(ErrorMessage(conversationId, toolName, text, ErrorOutput(DeniedCode, text, toolName, Some(p))));
      db.audit.Append(ToolEntry(user.id, "tool.permission_denied", toolName,
        map["error" := Text(DeniedCode), "requiredPermission" := Text(p), "userRole" := Text(user.role.Name())]));
      return Success(id);
    }
    var id := RunTool(db, user, tool, conversationId, toolName, input, outcome, now);
    return Success(id);
  }

  /** The `try` block and its `catch`, once the tool is known and permitted. */
  method RunTool(db: Db, user: SessionUser, tool: Tool, conversationId: Id, toolName: string,
                 input: Snapshot, outcome: Outcome, now: Time)
    returns (id: Id)
    requires db.Valid()
    requires conversationId in db.conversations.rows
    modifies db.messages, db.audit, db.conversations
    ensures db.Valid()
    ensures id !in old(db.messages.rows)
    ensures db.messages.rows == old(db.messages.rows)[id := StoredMessage(Some(tool), true, conversationId, toolName, input, outcome)]
    ensures db.audit.entries == old(db.audit.entries) + StoredAudit(Some(tool), true, user, toolName, input, outcome)
    ensures outcome.Returned? ==> db.conversations.rows == old(db.conversations.rows)[conversationId :=
      old(db.conversations.rows[conversationId]).(updatedAt := now)]
    ensures outcome.Threw? ==> db.conversations.rows == old(db.conversations.rows)
  {
    match outcome
    case Returned(result) =>
      if tool.isWriteAction {
        db.audit.Append(ToolEntry(user.id, "tool." + toolName, toolName,
          map["toolInput" := Obj(input), "result" := Flag(result.success)]));
      }
      id := db.InsertMessage(Message(conversationId, "tool_result", result.title, Some(toolName), Some(input),
        Some(ResultOutput(result))));
      var conversation := db.conversations.rows[conversationId];
      db.UpdateConversation(conversationId, conversation.(updatedAt := now));
    case Threw(msg) =>
      var text := msg.GetOr(UnknownErrorMessage);
      id := db.InsertMessage(ErrorMessage(conversationId, toolName, "Tool error: " + text,
        ErrorOutput(ExecutionErrorCode, text, toolName, None)));
      db.audit.Append(ToolEntry(user.id, "tool.execute_error", toolName,
        map["error" := Text(ExecutionErrorCode), "message" := Text(text), "toolInput" := Obj(input)]));
  }

  /** A denied or unknown tool never runs: its outcome changes neither the message nor the log. */
  lemma RefusalIgnoresOutcome(tool: Option<Tool>, permitted: bool, user: SessionUser, conversationId: Id,
                              toolName: string, input: Snapshot, o1: Outcome, o2: Outcome)
    requires tool.None? || !permitted
    ensures StoredMessage(tool, permitted, conversationId, toolName, input, o1)
         == StoredMessage(tool, permitted, conversationId, toolName, input, o2)
    ensures StoredAudit(tool, permitted, user, toolName, input, o1) == StoredAudit(tool, permitted, user, toolName, input, o2)
  {
  }

  /** A result message always carries the tool's title; read-only tools, every one registered
      here, leave no audit entry when they succeed. */
  lemma SuccessShape(tool: Tool, user: SessionUser, conversationId: Id, toolName: string, input: Snapshot, result: ToolResult)
    ensures StoredMessage(Some(tool), true, conversationId, toolName, input, Returned(result)).content == result.title
    ensures StoredAudit(Some(tool), true, user, toolName, input, Returned(result)) == [] <==> !tool.isWriteAction
  {
  }
}
