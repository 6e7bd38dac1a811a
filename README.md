# Kinsen-OPS fleet-rental core, modelled in Dafny

Kinsen-OPS is the operations back office of a car-rental business.
Staff sign in with an identifier and a four-digit PIN. Each staff member has one of ten roles, and each role holds a fixed set of capabilities.
Every mutation goes through a typed procedure (a tRPC router). The procedure checks the session and the capability, checks the entity's lifecycle graph, writes the change and appends one audit-log entry.

This project models that core:

- **`StateMachine`**: the generic transition validator, with its priority order:
  - a direct edge first;
  - then the override flag with an override-allowed target;
  - otherwise a rejection with the terminal text or the invalid-edge text.
- **`Machines`**: the seven lifecycle configurations (vehicle, rental, task, maintenance, claim, approval, inspection) and the vehicle status names.
- **`Permissions`**: the role-to-capability table and its queries.
- **`VehicleStatusTable`**: the front end's copy of the vehicle graph, keyed by name, with its labels and colours.
- **`Gate`**: the two procedure gates, authentication and capability.
- **Routers**, each a `Db` class whose tables are fields that the methods update in place:
  - `Fleet`, `Maintenance`, `Claims`, `Approvals`, `Inspections`, `Rentals`, `Finance` and `Shortcuts`;
  - each has its error paths and its audit entries.
- **`ShortcutValidation`**: the execution check for saved shortcuts.
- **`Registry`**: the tool registry class together with the slash-command parser.
- **`AllTools`**: the built-in registrations and the argument-to-filter logic of the tools.
- **`ToolExec`**: the tool execution router.
- **`Pin`**: hashing and lockout.
- **`Signup`**: the sign-up route.
- **`Middleware`**: the sign-in redirect.

Shared helpers:

- **`Wrappers`**: Option and Result.
- **`Text`**: JavaScript's `trim`, `split` and `join`; `toLowerCase` and `toUpperCase` for every character whose JavaScript case mapping is ASCII (A to Z and the Kelvin sign; a to z, dotless i, long s, sharp s and the Latin ligatures), other characters kept; and `length` counted in UTF-16 code units.
- **`Store`**: tables, the audit log and the database object. The object's invariant `Db.Valid` says every table hands out fresh ids and every stored reference (history, maintenance, rentals and inspections to vehicles; parts to requests; claims to incidents; inspections to rentals; items to inspections) points at an existing row. Every router method requires and ensures it, and writes go through the object's `Insert…`, `Update…` and `Delete…` methods, which demand that the rows a new row refers to exist.

Time (`Date.now()`) enters as a `now` parameter. The database assigns ids from a per-table counter. The bcrypt hash is an uninterpreted injective `HashOf`. A tool body's run, with its database queries, is an `Outcome` parameter: it returned a result, or it threw a message.

## Model

| member | source | states |
|---|---|---|
| StateMachine.AllowedTransitions | src/lib/state-machine.ts:48-50 | the configured row for a state, or the empty list for a state without a row |
| StateMachine.Validate | src/lib/state-machine.ts:26-46 | every validation echoes the requested pair and reports the allowed list of the source state |
| StateMachine.DirectEdgeWins | src/lib/state-machine.ts:27-34 | a listed edge is valid whatever the override flag says: it needs no override, carries no message, and needs a reason exactly when the target is reason-required |
| StateMachine.OverrideLaw | src/lib/state-machine.ts:36-39 | off the graph, an override makes the move valid exactly for override-allowed targets, and such a move always needs a reason |
| StateMachine.ValidIff | src/lib/state-machine.ts:26-46 | valid if and only if it is a direct edge, or the override is held and the target is override-allowed |
| StateMachine.NoOverrideListNoFabrication | src/lib/state-machine.ts:37-39 | a configuration without an override list accepts exactly its edges |
| StateMachine.RejectionShape | src/lib/state-machine.ts:41-45 | a rejection needs neither reason nor override, and its message is the terminal text from a terminal state and the invalid-edge text otherwise |
| StateMachine.MessagesDiffer | src/lib/state-machine.ts:41-43 | with tag-shaped state names, the terminal text and the invalid-edge text never coincide |
| StateMachine.TerminalMessageIff | src/lib/state-machine.ts:41-45 | a rejection carries the terminal text if and only if the source state is terminal |
| StateMachine.TerminalHasNoExits | src/lib/state-machine.ts:27-45 | in a well-formed configuration, nothing leaves a terminal state except an override to an override-allowed target, and a rejection there carries the terminal text |
| Machines.VehicleStatusNamed | src/lib/state-machine.ts:62-76 | parsing a vehicle status name yields the status of that name, and fails for any other string |
| Machines.VehicleStatusNamedInverse | src/lib/state-machine.ts:62-76 | every vehicle status parses back from its own name |
| Machines.VehicleMachineWellFormed | src/lib/state-machine.ts:60-79 | the vehicle graph has a row for every status and closes over its targets |
| Machines.VehicleMachineTags | src/lib/state-machine.ts:62-76 | every vehicle status name is an upper-case tag, so its two rejection messages can be told apart |
| Machines.RentalMachineWellFormed | src/lib/state-machine.ts:83-96 | the rental graph is total and closed, and its terminal states have empty rows |
| Machines.RentalMachineTags | src/lib/state-machine.ts:85-93 | rental status names are tags |
| Machines.TaskMachineWellFormed | src/lib/state-machine.ts:100-111 | the graph of task statuses is total and closed, and its terminal states have empty rows |
| Machines.TaskMachineTags | src/lib/state-machine.ts:102-108 | task status names are tags |
| Machines.MaintenanceMachineWellFormed | src/lib/state-machine.ts:115-130 | the maintenance graph is total and closed, and its terminal states have empty rows |
| Machines.MaintenanceMachineTags | src/lib/state-machine.ts:117-127 | maintenance status names are tags |
| Machines.ClaimMachineWellFormed | src/lib/state-machine.ts:134-149 | the claim graph is total and closed, and its terminal states have empty rows |
| Machines.ClaimMachineTags | src/lib/state-machine.ts:136-146 | claim status names are tags |
| Machines.ApprovalMachineWellFormed | src/lib/state-machine.ts:153-164 | the approval graph is total and closed, and its terminal states have empty rows |
| Machines.ApprovalMachineTags | src/lib/state-machine.ts:155-161 | approval status names are tags |
| Machines.InspectionMachineWellFormed | src/lib/state-machine.ts:168-177 | the inspection graph is total and closed, and its terminal states have empty rows |
| Machines.InspectionMachineTags | src/lib/state-machine.ts:170-175 | inspection status names are tags |
| Machines.VehicleScenarios | src/lib/state-machine.ts:60-79 | AVAILABLE cannot go straight to ON_RENT; PICKUP_READY to ON_RENT is valid without a reason; AVAILABLE to OUT_OF_SERVICE is valid and needs a reason; no vehicle status is terminal |
| Machines.RentalScenarios | src/lib/state-machine.ts:83-96 | a cancelled rental cannot be reactivated, even with the override, and the rejection carries the terminal text |
| Permissions.RoleNamed | src/lib/permissions.ts:45-176 | a role name parses to the role of that name, or to nothing for an unknown name |
| Permissions.RoleNamedInverse | src/lib/permissions.ts:45-176 | every role parses back from its own name |
| Permissions.GetPermissions | src/lib/permissions.ts:183-185 | the listed capabilities are exactly those the role holds |
| Permissions.HasAnyPermission | src/lib/permissions.ts:187-189 | true if and only if the role holds at least one of the listed capabilities |
| Permissions.GetPermissionsByName | src/lib/permissions.ts:179-185 | a known role name lists that role's capabilities, and an unknown name lists none |
| Permissions.UnknownRoleHoldsNothing | src/lib/permissions.ts:179-185 | a string that names no role holds no capability |
| Permissions.HoldsByName | src/lib/permissions.ts:179-181 | a capability the role holds is found under its name, and an unknown role name holds no capability name |
| Permissions.AdminHoldsEverything | src/lib/permissions.ts:147-163 | ADMIN holds every capability |
| Permissions.OnlyAdminManagesUsers | src/lib/permissions.ts:46-176 | admin:manage_users is held by ADMIN and by no other role |
| Permissions.OnlyAdminManagesBranches | src/lib/permissions.ts:46-176 | admin:manage_branches is held by ADMIN and by no other role |
| Permissions.OnlyDirectorAndAdminOverride | src/lib/permissions.ts:46-176 | the status-override capability is held by exactly OPERATIONS_DIRECTOR and ADMIN |
| Permissions.RefundApprovalExamples | src/lib/permissions.ts:46-123 | a branch agent cannot approve refunds and a finance manager can |
| Permissions.AuditorIsReadOnly | src/lib/permissions.ts:164-176 | AUDITOR holds a capability if and only if it is a read capability other than chat:read, or branch comparison, or data export |
| VehicleStatusTable.RowAgrees | src/lib/vehicle-status.ts:1-15 | each row of the front-end table lists, by name, the same targets as the vehicle machine's row |
| VehicleStatusTable.KeysAreNames | src/lib/vehicle-status.ts:1-15 | the table's keys are exactly the thirteen vehicle status names |
| VehicleStatusTable.AgreesWithMachine | src/lib/vehicle-status.ts:17-20 | the front-end check accepts a pair of names exactly when the vehicle machine accepts the pair without override |
| VehicleStatusTable.UnknownSourceRejects | src/lib/vehicle-status.ts:17-20 | a source name outside the table accepts no target |
| VehicleStatusTable.VehicleRowShape | src/lib/state-machine.ts:62-75 | no vehicle row lists its own state or COMPLIANCE_HOLD, and only PICKUP_READY lists ON_RENT |
| VehicleStatusTable.KeyRow | src/lib/vehicle-status.ts:1-15 | every key is the name of a status whose row the key maps to |
| VehicleStatusTable.NoSelfLoops | src/lib/vehicle-status.ts:2-14 | no row lists its own key |
| VehicleStatusTable.NoDanglingTargets | src/lib/vehicle-status.ts:2-14 | every listed target is itself a key |
| VehicleStatusTable.NothingEntersComplianceHold | src/lib/vehicle-status.ts:2-14 | no row lists COMPLIANCE_HOLD |
| VehicleStatusTable.OnRentOnlyFromPickupReady | src/lib/vehicle-status.ts:2-14 | ON_RENT is listed by the PICKUP_READY row and by no other |
| VehicleStatusTable.LabelsAndColorsTotal | src/lib/vehicle-status.ts:22-52 | every key has a non-empty label and a non-empty colour |
| Gate.EnforceAuth | src/server/trpc.ts:24-34 | passes exactly when there is a session user, hands that user on, and otherwise fails UNAUTHORIZED |
| Gate.RequirePermission | src/server/trpc.ts:38-55 | UNAUTHORIZED without a session; FORBIDDEN with the missing capability's name when the role lacks it; passes exactly when the role holds it |
| Gate.PermissionGateRefinesAuth | src/server/trpc.ts:38-55 | the capability gate is the authentication gate followed by the role check |
| Gate.AuthIgnoresRole | src/server/trpc.ts:24-36 | the authentication gate admits a user whatever their role |
| Gate.ForbiddenIffLacking | src/server/trpc.ts:43-48 | for a signed-in user the capability gate fails, with FORBIDDEN, if and only if the role lacks the capability |
| Fleet.Create | src/server/routers/fleet.ts:79-111 | with fleet:write, inserts one active AVAILABLE vehicle and one "vehicle.create" entry carrying the defined inputs; otherwise changes nothing |
| Fleet.TransitionStatus | src/server/routers/fleet.ts:113-161 | NOT_FOUND for a missing vehicle; BAD_REQUEST naming both statuses for an edge the table lacks; otherwise updates the status, adds one history row and one audit entry |
| Fleet.RouterIsMachineWithoutOverride | src/server/routers/fleet.ts:125-130 | the router accepts a move exactly when the vehicle machine accepts it without override |
| Fleet.RouterSkipsReasonAndOverride | src/server/routers/fleet.ts:113-131 | the router accepts AVAILABLE to OUT_OF_SERVICE, which the machine marks reason-required, and refuses ON_RENT to AVAILABLE, which the machine accepts with the override |
| Maintenance.TransitionRejection | src/server/routers/maintenance.ts:115-129 | the first failing check, in source order: the request exists, the graph allows the move, and a reason is given where one is required |
| Maintenance.Transitioned | src/server/routers/maintenance.ts:131-146 | the new status is set; approval stamps the approver and time; completion stamps the date; notes, cost and duration are written only when given; every other field is kept |
| Maintenance.Create | src/server/routers/maintenance.ts:56-102 | a missing vehicle is NOT_FOUND; otherwise inserts a REQUESTED request under the vehicle's branch, with one audit entry |
| Maintenance.Transition | src/server/routers/maintenance.ts:104-173 | rejects as TransitionRejection says, changing nothing; a success writes the Transitioned request and one audit entry, and a completion with fleet impact NEEDS_INSPECTION forces the vehicle to INSPECTION_IN_PROGRESS |
| Maintenance.AddPart | src/server/routers/maintenance.ts:175-200 | inserts the part for an existing request, writes no audit entry, and refuses a missing request |
| Maintenance.ReasonTargets | src/lib/state-machine.ts:115-130 | the maintenance targets that need a reason are exactly DENIED, CANCELLED and PAUSED |
| Maintenance.MissingReasonRejected | src/server/routers/maintenance.ts:127-129 | a valid move to a reason-required target without reason text is BAD_REQUEST |
| Maintenance.GraphRejectionMessage | src/server/routers/maintenance.ts:122-125 | an off-graph move is BAD_REQUEST with the machine's own message |
| Maintenance.FinishedRequestsAreFinal | src/server/routers/maintenance.ts:122-125 | a COMPLETED, CANCELLED or DENIED request accepts no move |
| Maintenance.ForcedStatusBypassesVehicleGraph | src/server/routers/maintenance.ts:161-170 | the forced write reaches INSPECTION_IN_PROGRESS from AVAILABLE, a move neither the vehicle table nor the vehicle machine allows, even with the override |
| Claims.TransitionRejection | src/server/routers/claim.ts:128-142 | the first failing check: the claim exists, the graph allows the move, and a denial carries a reason |
| Claims.Transitioned | src/server/routers/claim.ts:144-153 | the new status is set; submission stamps the filing time; settling or closing stamps the resolution time; amount and notes are written only when given; the rest is kept |
| Claims.Create | src/server/routers/claim.ts:63-116 | a missing incident is NOT_FOUND; otherwise inserts a DRAFT claim, marks the incident's claims status PENDING, and appends one audit entry |
| Claims.Transition | src/server/routers/claim.ts:118-169 | rejects as TransitionRejection says; on success the claim becomes Transitioned and one audit entry is appended |
| Claims.DeniedNeedsReason | src/server/routers/claim.ts:140-142 | a move to DENIED without a reason is BAD_REQUEST |
| Claims.GraphRejectionMessage | src/server/routers/claim.ts:135-138 | an off-graph move is BAD_REQUEST with the machine's message |
| Claims.ClosedIsFinal | src/server/routers/claim.ts:135-138 | a CLOSED claim accepts no move |
| Approvals.ExpiresAt | src/server/routers/approval.ts:68-70 | there is an expiry exactly when a non-zero hour count is given, and it lies that many hours after now |
| Approvals.ExpiryWithinAWeek | src/server/routers/approval.ts:64-70 | an hour count from 1 to 168 puts the expiry after now and at most one week later |
| Approvals.ListWhere | src/server/routers/approval.ts:19-23 | the list filter keeps the given status and a non-empty type, and "mine" replaces the status with PENDING |
| Approvals.MineListsOnlyPending | src/server/routers/approval.ts:21-23 | with no status given, "mine" lists only PENDING requests |
| Approvals.Create | src/server/routers/approval.ts:56-100 | any signed-in user inserts one PENDING request with the computed expiry and one "approval.requested" entry |
| Approvals.DecideRejection | src/server/routers/approval.ts:110-129 | the first failing check: the request exists, the graph allows the decision, and only then has it not expired |
| Approvals.Decide | src/server/routers/approval.ts:102-159 | an expired request is marked EXPIRED and refused; a success records the decision, the approver, the notes when given and the time, with one audit entry |
| Approvals.ApproveAction | src/server/routers/approval.ts:144 | approving logs "approval.approved" |
| Approvals.DenyAction | src/server/routers/approval.ts:144 | denying logs "approval.denied" |
| Approvals.GraphBeforeExpiry | src/server/routers/approval.ts:117-129 | an already decided request is refused by the graph even when it has also expired |
| Approvals.OpenRequestsDecidable | src/server/routers/approval.ts:117-129 | the graph admits a decision exactly for PENDING and ESCALATED requests, and an unexpired one of those accepts either decision |
| Approvals.DenialNeedsNoNotes | src/server/routers/approval.ts:102-139 | although the approval machine marks DENIED as reason-required, the router accepts a denial of a pending unexpired request without notes |
| Inspections.ItemsOf | src/server/routers/inspection.ts:134-137 | the items of an inspection are exactly those that point at it |
| Inspections.DiscrepancyIff | src/server/routers/inspection.ts:145-147 | no discrepancy if and only if every item of the inspection is OK |
| Inspections.DiscrepancyTask | src/server/routers/inspection.ts:172-187 | the follow-up task is a HIGH-priority PENDING task on the vehicle, with the notes or the default text |
| Inspections.Linked | src/server/routers/inspection.ts:161-169 | a PICKUP or RETURN inspection is linked into the matching rental field, and other kinds leave the rental as it was |
| Inspections.LinkRental | src/server/routers/inspection.ts:161-169 | updates only the rental's link field |
| Inspections.OpenTaskIf | src/server/routers/inspection.ts:172-187 | inserts the follow-up task exactly when the inspection is flagged |
| Inspections.Create | src/server/routers/inspection.ts:59-101 | a missing rental or vehicle is NOT_FOUND; otherwise inserts an IN_PROGRESS inspection under the vehicle's branch, with one audit entry |
| Inspections.AddItem | src/server/routers/inspection.ts:103-123 | items are added only to an existing in-progress inspection |
| Inspections.CompleteRejection | src/server/routers/inspection.ts:138-143 | completion is refused for a missing inspection or an edge the graph lacks |
| Inspections.CompletesOnlyFromInProgress | src/server/routers/inspection.ts:140-143 | an inspection can be completed exactly when it is IN_PROGRESS |
| Inspections.Completed | src/server/routers/inspection.ts:149-158 | completion sets the status, the time and the recomputed flag, writes the optional texts only when given, and keeps everything else |
| Inspections.ApplyCompletion | src/server/routers/inspection.ts:149-202 | writes the completed inspection, links the rental, opens a follow-up task when flagged, and appends one entry with the item count |
| Inspections.FollowUp | src/server/routers/inspection.ts:171-202 | adds the follow-up task only when flagged, and always the one audit entry |
| Inspections.Complete | src/server/routers/inspection.ts:125-205 | the whole procedure: gate, rejection, then the completion effects, with nothing changed on failure |
| Rentals.TotalPagesIsCeiling | src/server/routers/rental.ts:51 | the page count is the ceiling of total over the page size |
| Rentals.RowOnPage | src/server/routers/rental.ts:45-51 | every row index falls on exactly one existing page, inside that page's window |
| Rentals.DepositStatus | src/server/routers/rental.ts:98 | the deposit is HELD exactly when a non-zero amount is given, and otherwise left to the column default |
| Rentals.Create | src/server/routers/rental.ts:72-114 | a missing vehicle is NOT_FOUND, a vehicle neither AVAILABLE nor PICKUP_READY is BAD_REQUEST naming its status; otherwise inserts a DRAFT rental with one audit entry and leaves the vehicle unchanged |
| Rentals.UpdateStatus | src/server/routers/rental.ts:116-149 | writes any requested status with one audit entry, refusing only a missing rental |
| Rentals.UpdateStatusBypassesMachine | src/server/routers/rental.ts:124-134 | moves the router writes, reactivating a cancelled rental or closing a draft, are rejected by the rental machine even with the override |
| Finance.CreatePayment | src/server/routers/finance.ts:50-78 | with finance:write, inserts one PAID payment stamped now and one audit entry |
| Finance.RefundOf | src/server/routers/finance.ts:92-102 | a refund keeps the original's rental and method, negates the amount, and is REFUND_PENDING with the reason |
| Finance.RequestRefund | src/server/routers/finance.ts:80-115 | a missing payment is NOT_FOUND; otherwise inserts a fresh refund row and one entry naming the original |
| Finance.ApproveRefund | src/server/routers/finance.ts:117-143 | only a REFUND_PENDING payment becomes REFUNDED, with approver and time; otherwise BAD_REQUEST and nothing changes |
| Finance.ApproveTwice | src/server/routers/finance.ts:122-124 | a second approval of the same payment always fails, and a pair of approvals writes at most one audit entry |
| Shortcuts.ListFor | src/server/routers/shortcuts.ts:7-23 | lists exactly the active shortcuts that are the caller's own or shared, each once, in ascending name order |
| Shortcuts.ListHidesPrivateAndInactive | src/server/routers/shortcuts.ts:8-17 | another user's private shortcut and any inactive shortcut are hidden; the caller's own active ones are shown |
| Shortcuts.OnlyAdminShares | src/server/routers/shortcuts.ts:43-50 | only ADMIN may create org or branch shortcuts; everyone may create private or team ones |
| Shortcuts.NewShortcut | src/server/routers/shortcuts.ts:52-59 | the new shortcut is active, owned by the caller, and has the requested scope |
| Shortcuts.Create | src/server/routers/shortcuts.ts:25-73 | refused for a shared scope without the admin capabilities; otherwise inserts the shortcut and one audit entry |
| Shortcuts.Patched | src/server/routers/shortcuts.ts:90-99 | each given field is replaced, each absent field is kept, and owner, scope, kind, sequence and scope requirement never change |
| Shortcuts.EmptyPatchIsIdentity | src/server/routers/shortcuts.ts:96-99 | an update with no fields leaves the shortcut as it was |
| Shortcuts.Update | src/server/routers/shortcuts.ts:75-100 | only the owner may update; the row becomes the patched shortcut and no audit entry is written |
| Shortcuts.Delete | src/server/routers/shortcuts.ts:102-123 | only the owner may delete; the row is removed and one entry records its name |
| ShortcutValidation.KindOf | src/lib/shortcut-validation.ts:64-100 | each of the four action-type strings maps to its kind, and any other string is unknown |
| ShortcutValidation.ConfigProblem | src/lib/shortcut-validation.ts:64-112 | a shortcut is well configured exactly when its kind has what it needs: a known tool, a template, a non-empty sequence, or a saved view |
| ShortcutValidation.ConfigCodes | src/lib/shortcut-validation.ts:64-100 | each configuration failure code occurs exactly for its own defect |
| ShortcutValidation.SequenceMissingExtends | src/lib/shortcut-validation.ts:136-145 | the sequence loop only appends to the list it is given |
| ShortcutValidation.SequenceMissingNoDuplicates | src/lib/shortcut-validation.ts:136-145 | the capabilities the loop appends are new and distinct |
| ShortcutValidation.SequenceMissingMembers | src/lib/shortcut-validation.ts:136-145 | a capability ends up in the list if and only if it was already there or some step's known tool requires it and the role lacks it |
| ShortcutValidation.ExpectedMissingMembers | src/lib/shortcut-validation.ts:121-145 | the missing list holds exactly the unheld scope, the tool action's unpermitted capability, and the sequence's unpermitted capabilities |
| ShortcutValidation.Validate | src/lib/shortcut-validation.ts:39-169 | inactive is hidden; a config problem is visible but invalid; otherwise enabled exactly when nothing is missing; the context message takes precedence over the permission message; enabled exactly when the code is "ok" |
| ShortcutValidation.CheckConfig | src/lib/shortcut-validation.ts:63-100 | the configuration branch returns exactly the problem ConfigProblem names, or "ok" |
| ShortcutValidation.CheckRequirements | src/lib/shortcut-validation.ts:114-145 | the requirement branch returns the missing context and the missing capabilities |
| ShortcutValidation.MissingFromSequence | src/lib/shortcut-validation.ts:137-144 | the loop over the sequence computes the list SequenceMissing describes |
| Registry.FindCommand | src/lib/tools/registry.ts:43 | finds the first command with the given name, and nothing when none has it |
| Registry.CollectArgs | src/lib/tools/registry.ts:47-56 | the loop over the tokens builds the argument record ArgsOf describes, where an assignment to the key "__proto__" stores nothing, as on a plain JavaScript object |
| Registry.KeyValueToken | src/lib/tools/registry.ts:50-52 | a token with "=" is stored under the text before the first "=", with the whole rest after it as value |
| Registry.ArgsKeys | src/lib/tools/registry.ts:47-56 | the record's keys are exactly the keys of the tokens other than "__proto__" |
| Registry.ProtoKeyNeverStored | src/lib/tools/registry.ts:46-52 | the record never has a "__proto__" key, since assigning it on a plain object calls the prototype setter |
| Registry.ProtoTokenDropped | src/lib/tools/registry.ts:46-52 | the token "__proto__=x" leaves the record empty |
| Registry.LastWins | src/lib/tools/registry.ts:49-56 | a token whose key is not "__proto__" and that no later token repeats supplies that key's value |
| Registry.PositionalKeysDistinct | src/lib/tools/registry.ts:54 | distinct positions give distinct positional keys |
| Registry.AllPositional | src/lib/tools/registry.ts:53-55 | without "=" tokens, the token at position i is stored under "arg" followed by i |
| Registry.ToolRegistry.constructor | src/lib/tools/registry.ts:5-6 | a new registry is empty |
| Registry.ToolRegistry.GetTool | src/lib/tools/registry.ts:15-17 | finds a tool exactly when its name is registered, and the tool carries that name |
| Registry.ToolRegistry.RegisterTool | src/lib/tools/registry.ts:8-13 | adds or replaces the tool under its name, keeps first-registration order, appends its slash command, and changes no other tool |
| Registry.ToolRegistry.ListTools | src/lib/tools/registry.ts:19-25 | without a role, lists every tool in registration order; with a role, lists exactly the registered tools whose capability the role holds, in registration order |
| Registry.ToolRegistry.PermittedCommands | src/lib/tools/registry.ts:29-32 | keeps, in order, exactly the commands whose tool the role may use |
| Registry.ToolRegistry.ListSlashCommands | src/lib/tools/registry.ts:27-33 | without a role, lists every command; with a role, the permitted ones in order |
| Registry.ToolRegistry.ParseSlashCommand | src/lib/tools/registry.ts:35-59 | input not starting with "/" is not a command; otherwise the lower-cased first word must name a registered command, and the result pairs its tool with ArgsOf of the remaining words, in which a "__proto__" key is never stored |
| Registry.Permitted | src/lib/tools/registry.ts:22-24 | keeps, in order, exactly the tools whose capability the role holds |
| AllTools.RegisterEach | src/lib/tools/all-tools.ts:5-280 | registering distinct tools in order leaves them all registered, in that order, with one command each |
| AllTools.RegisterAll | src/lib/tools/all-tools.ts:5-280 | the built-in registrations end up registered in source order, each with its slash command |
| AllTools.NamesDistinct | src/lib/tools/all-tools.ts:7-245 | the built-in tools have pairwise distinct names |
| AllTools.ReadOnlyTools | src/lib/tools/all-tools.ts:11-12 | every built-in tool is read-only and guarded by a read capability |
| AllTools.Present | src/lib/tools/all-tools.ts:19-20 | an input key counts only when it is present and non-empty |
| AllTools.TaskListWhere | src/lib/tools/all-tools.ts:99-111 | the positional argument, upper-cased, sets the status when it is a status word, otherwise the priority when it is a priority word; the named fields apply otherwise |
| AllTools.StatusAndPriorityWordsDisjoint | src/lib/tools/all-tools.ts:105-108 | no word is both a task status and a priority |
| AllTools.IncidentListWhere | src/lib/tools/all-tools.ts:154-160 | open incidents only; the positional argument, or else the named field, gives the severity |
| AllTools.FleetListWhere | src/lib/tools/all-tools.ts:17-27 | the fleet filter is active vehicles of the branch, with only the named status and search fields |
| AllTools.FleetListWhereIntended | src/lib/tools/all-tools.ts:17-27 | the corrected filter also takes the positional argument, upper-cased, as the status |
| AllTools.FleetPositionalStatus | src/lib/tools/all-tools.ts:17-27 | for "/fleet available", the as-written filter has no status and the intended one filters on AVAILABLE |
| AllTools.StatusCounts | src/lib/tools/all-tools.ts:70-74 | the summary counts each status as often as it occurs, lists only occurring statuses, and reports the total |
| AllTools.StatsAddUp | src/lib/tools/all-tools.ts:70-78 | the per-status counts add up to the total |
| ToolExec.ListTools | src/server/routers/tool-exec.ts:24-33 | signed in only; lists exactly the tools the caller's role may use, in registration order |
| ToolExec.ListSlashCommands | src/server/routers/tool-exec.ts:35-38 | signed in only; lists, in order, the commands whose tool the caller may use |
| ToolExec.Precheck | src/server/routers/tool-exec.ts:41-57 | not found, denied with the capability's name, or executable, and executable exactly when the tool exists and the role may use it |
| ToolExec.StoredMessage | src/server/routers/tool-exec.ts:68-206 | the stored message belongs to the conversation and names the tool, and is a tool result exactly when the tool ran and returned |
| ToolExec.StoredAudit | src/server/routers/tool-exec.ts:86-204 | at most one audit entry, and none exactly for a read-only tool that ran and returned |
| ToolExec.Execute | src/server/routers/tool-exec.ts:59-208 | signed in only; stores one message and the entries StoredAudit gives, and touches the conversation only after a permitted run that returned |
| ToolExec.RunTool | src/server/routers/tool-exec.ts:135-207 | the permitted path: the outcome's message and entries, with the conversation stamped only when the tool returned |
| ToolExec.RefusalIgnoresOutcome | src/server/routers/tool-exec.ts:68-132 | a missing or forbidden tool stores the same message and entries whatever the tool would have done |
| ToolExec.SuccessShape | src/server/routers/tool-exec.ts:143-166 | a returned run stores the result's title and is audited exactly when the tool writes |
| Pin.ValidPinsAreFourDigitNumbers | src/lib/pin.ts:3-10 | valid PINs are exactly the four-digit renderings of 0 to 9999 |
| Pin.HashPin | src/lib/pin.ts:16-19 | an invalid PIN is refused with the format message, and a valid one is hashed |
| Pin.HashPinInjective | src/lib/pin.ts:16-19 | two valid PINs with the same hash are equal |
| Pin.IsLockedOut | src/lib/pin.ts:25-37 | locked exactly when the attempts reached five and the lock time lies ahead, with the remaining time then, and zero otherwise |
| Pin.GetLockoutUntil | src/lib/pin.ts:39-41 | the lock ends fifteen minutes after now |
| Pin.LockoutWindow | src/lib/pin.ts:25-41 | a lock set at some time holds exactly for the next fifteen minutes, with a remaining time between zero and fifteen minutes |
| Pin.FewAttemptsNeverLock | src/lib/pin.ts:29-31 | fewer than five failed attempts never lock, whatever the stored time |
| Signup.Refuse | src/app/api/auth/signup/route.ts:11-61 | a taken identifier answers 409, every other refusal answers 400, and each refusal carries an error |
| Signup.FormRefusal | src/app/api/auth/signup/route.ts:11-50 | the checks on the body alone never report a taken identifier |
| Signup.Rejection | src/app/api/auth/signup/route.ts:11-61 | the taken-identifier refusal comes exactly when the body passes and the cleaned identifier is in use |
| Signup.AcceptedIff | src/app/api/auth/signup/route.ts:11-61 | accepted if and only if all four fields are given, the cleaned identifier is valid, the trimmed name is 2 to 100 UTF-16 code units long, the PIN is valid and confirmed, and the identifier is free |
| Signup.ChecksInOrder | src/app/api/auth/signup/route.ts:11-50 | each refusal implies that every earlier check passed |
| Signup.Post | src/app/api/auth/signup/route.ts:5-95 | an unreadable body answers 500; a refusal changes nothing; an acceptance answers 201 and stores the cleaned identifier, trimmed name, hash and default role, with one audit entry |
| Signup.SignupKeepsIdentifiersUnique | src/app/api/auth/signup/route.ts:53-71 | an accepted sign-up keeps identifiers unique |
| Signup.SecondSignupConflicts | src/app/api/auth/signup/route.ts:53-61 | a second sign-up whose identifier cleans to the same value is refused as taken |
| Signup.StoredIdentifierIsClean | src/app/api/auth/signup/route.ts:19-25 | the stored identifier is already lower case and trimmed, with 2 to 30 characters |
| Signup.EmojiNameLength | src/app/api/auth/signup/route.ts:28-29 | a name of one character beyond U+FFFF is two code units long and passes the length check |
| Text.KelvinLowers | src/app/api/auth/signup/route.ts:19 | lower-casing turns the Kelvin sign into an ASCII "k", as JavaScript's `toLowerCase` does |
| Text.DotlessIUppers | src/lib/tools/all-tools.ts:99-111 | upper-casing turns "pend\u0131ng" into the status word PENDING, as JavaScript's `toUpperCase` does |
| Text.SharpSUppers | src/lib/tools/all-tools.ts:99-111 | upper-casing turns sharp s into "SS", as JavaScript's `toUpperCase` does |
| Middleware.DecideWith | src/middleware.ts:5-30 | redirects to the login page, with the path as callback, exactly when the path is not public, not an API path, and no session cookie is present |
| Middleware.Decide | src/middleware.ts:5-30 | as written, with /login as the only public prefix |
| Middleware.AuthPrefixIsApi | src/middleware.ts:9-16 | every authentication API path is already exempt as an API path |
| Middleware.SignupPageRedirects | src/middleware.ts:3-27 | a signed-out visitor to /signup is redirected to the login page |
| Middleware.DecideIntended | src/middleware.ts:3-30 | the corrected gate lets /signup through and otherwise decides as written |
| Middleware.SignupReachable | src/middleware.ts:3-16 | the sign-up page and its API are reachable without a session |
| Middleware.SessionOpensEverything | src/middleware.ts:19-29 | with a session cookie no path redirects |
| Middleware.Handle | src/middleware.ts:5-34 | as written: paths outside the matcher skip the gate; a matched path redirects exactly when it is not under /login or /api/ and no session cookie is present |
| Middleware.HandleIntended | src/middleware.ts:3-34 | with the corrected public paths: a matched path redirects exactly when it is not under /login, /signup or /api/ and no session cookie is present |
| Middleware.HandleDiffersOnSignup | src/middleware.ts:3-34 | the as-written and corrected servers answer differently exactly for signed-out requests to matched /signup paths |

## Left out

- Input validation by the schema library: string lengths, number ranges and enum membership are assumed of the inputs; the model takes them as given values.
- Approvals.ExpiresAt: hours are whole numbers; JavaScript's fractional hours and millisecond arithmetic on them are not modelled.
- Database-generated values are modelled as a per-table counter: row ids, contract numbers, timestamps' defaults and column defaults. The sign-up default role is a parameter.
- Foreign keys are kept only as the table invariants the methods preserve. Apart from the fleet transaction, the source's multi-step writes are not atomic; the model runs them in order with no interleaving or partial failure.
- Rentals.DepositStatus: `None` stands for leaving the column default; the default's own value is not modelled.
- Tool bodies' database queries, their result titles and error texts are the `Outcome` parameter; only the filters they build and the status summary's counting are modelled.
- The finance summary's floating-point sums are not modelled; amounts are reals.
- bcrypt is an uninterpreted injective hash, `HashOf`. Salting and `verifyPin` are not modelled.
- ShortcutValidation.Validate: a `toolSequence` that is not an array, and the `__proto__` key, are not modelled; sequences are typed lists.
- The tool-execution router's `parseCommand` endpoint is the capability gate followed by Registry.ToolRegistry.ParseSlashCommand, both modelled separately.
- ShortcutValidation.Validate: the "Missing context:" branch is unreachable in the source, because the context check returns first; the model keeps the reachable behaviour.
- ToolExec.Execute: requires the conversation row to exist. The source's database failures inside the try block are not modelled.
- Permissions.HoldsByName: proves only that a held name denotes a capability of the role, not the converse for arbitrary strings.
- Tool input values are strings; non-string JSON values in tool inputs and in the sign-up body are not modelled.
- AllTools.RegisterEach: the module's top-level calls are modelled as one loop over the registration list, a faithful ordering of the same calls.
- Middleware.Handle: the Next.js matcher regular expression is approximated by prefix and suffix checks.
- Read-only queries beyond those modelled (`fleet.list`, `fleet.getById`, `fleet.statusSummary`, and the other routers' `list` and `getById` queries) are database reads with no logic beyond filters. The approval list filter, rental pagination and the shortcuts list are modelled.
- Signup.Post: the response omits the constant `success` flag.
- Shortcuts.ListFor: names are ordered by code point; the database's collation, the order among rows with equal names, and the `createdBy` include are not modelled.
- Registry.ToolRegistry.ParseSlashCommand: the command word is lower-cased only where JavaScript's lower case of a character is ASCII (A to Z, the Kelvin sign); other characters are kept, although JavaScript maps some of them to other non-ASCII text. Every command name is ASCII, so which command is found is exact.
- AllTools.TaskListWhere: upper-casing keeps every character whose JavaScript upper case is not ASCII (JavaScript turns "é" into "É", the model keeps "é"), so a filter value holding such letters differs from the source's; whether a word is a status or a priority word is exact, because those words are ASCII.
- AllTools.IncidentListWhere: the severity is upper-cased with the same partial mapping as AllTools.TaskListWhere.
- AllTools.FleetListWhereIntended: the status is upper-cased with the same partial mapping as AllTools.TaskListWhere.
- Signup.FormRefusal: strings are sequences of Unicode scalar values, so a name holding an unpaired surrogate is not modelled; lengths are counted in UTF-16 code units as JavaScript counts them.
- Signup.AcceptedIff: the same string model as Signup.FormRefusal.
- Signup.Post: the same string model as Signup.FormRefusal; the identifier check agrees with the source, because only ASCII letters and the Kelvin sign lower-case to ASCII and the identifier pattern is ASCII.
- Rentals.Skip is a helper with no row of its own; its meaning is stated by Rentals.RowOnPage.
- The user interface, realtime updates, the sign-in framework, analytics, and the chat, task, incident, notification, branch, audit and workspace routers are not part of this model.

## Findings

| source | as written | input that shows it | evidently intended | confidence | as-written member | corrected member |
|---|---|---|---|---|---|---|
| src/lib/tools/all-tools.ts:17-27 | the fleet tool builds its filter from the named `status` field only, so a positional status is ignored | `/fleet available` lists every active vehicle instead of the available ones | the usage text "/fleet [status]" promises a positional status, as /tasks and /incidents accept | not executed | AllTools.FleetPositionalStatus | AllTools.FleetListWhereIntended |
| src/middleware.ts:3 | the public paths hold only /login, so a signed-out visitor to /signup is redirected to the login page | visiting /signup with no session cookie | the sign-up page is public: the login page links to it (src/app/(auth)/login/page.tsx:102) and it posts to the public sign-up API (src/app/(auth)/signup/page.tsx:33) | not executed | Middleware.SignupPageRedirects | Middleware.DecideIntended |
