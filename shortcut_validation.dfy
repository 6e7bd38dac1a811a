/** The client-side precheck of whether a shortcut can run: active, configured for its action type,
    the conversation it needs, and the capabilities its scope and its tools require. */
module ShortcutValidation {
  import opened Wrappers
  import opened Text
  import opened Permissions
  import opened Store
  import opened Registry

  datatype Context = Context(
    conversationId: Option<string>, entityId: Option<string>, entityType: Option<string>,
    entityState: Option<string>)

  datatype Validation = Validation(
    visible: bool, enabled: bool, disabledReason: Option<string>, missingContext: seq<string>,
    missingPermissions: seq<string>, configValid: bool, validationCode: string)

  datatype ConfigFailure = ConfigFailure(reason: string, code: string)

  const InactiveResult := Validation(false, false, Some("Shortcut is inactive"), [], [], true, "inactive")
  const ConversationMessage := "Start a conversation first"
  const NoToolReason := "Shortcut configuration invalid (missing tool_name)"
  const NoTemplateReason := "Shortcut configuration invalid (missing prompt template)"
  const NoSequenceReason := "Shortcut configuration invalid (empty tool sequence)"
  const NoToolCode := "config_invalid_no_tool"
  const UnknownToolCode := "config_invalid_unknown_tool"
  const NoTemplateCode := "config_invalid_no_template"
  const NoSequenceCode := "config_invalid_no_sequence"
  const UnknownActionCode := "config_invalid_unknown_action"

  /** The cases of the `switch` on `actionType`. */
  datatype ActionKind = ToolAction | PromptTemplate | ToolSequence | SavedView | OtherAction

  function KindOf(actionType: string): (k: ActionKind)
    ensures k == ToolAction <==> actionType == "tool_action"
    ensures k == PromptTemplate <==> actionType == "prompt_template"
    ensures k == ToolSequence <==> actionType == "tool_sequence"
    ensures k == SavedView <==> actionType == "saved_view"
  {
    if actionType == "tool_action" then ToolAction
    else if actionType == "prompt_template" then PromptTemplate
    else if actionType == "tool_sequence" then ToolSequence
    else if actionType == "saved_view" then SavedView
    else OtherAction
  }

  /** The configuration step: what is missing for the shortcut's action type, if anything. */
  function ConfigProblem(s: Shortcut, tools: map<string, Tool>): (r: Option<ConfigFailure>)
    ensures r.None? <==>
      || (KindOf(s.actionType) == ToolAction && Truthy(s.toolName) && s.toolName.value in tools)
      || (KindOf(s.actionType) == PromptTemplate && Truthy(s.promptTemplate))
      || (KindOf(s.actionType) == ToolSequence && s.toolSequence.Some? && s.toolSequence.value != [])
      || KindOf(s.actionType) == SavedView
  {
    match KindOf(s.actionType)
    case ToolAction =>
      if !Truthy(s.toolName) then
        Some(ConfigFailure(NoToolReason, NoToolCode))
      else if s.toolName.value !in tools then
        Some(ConfigFailure("Tool \"" + s.toolName.value + "\" not found", UnknownToolCode))
      else None
    case PromptTemplate =>
      if !Truthy(s.promptTemplate) then
        Some(ConfigFailure(NoTemplateReason, NoTemplateCode))
      else None
    case ToolSequence =>
      if s.toolSequence.None? || s.toolSequence.value == [] then
        Some(ConfigFailure(NoSequenceReason, NoSequenceCode))
      else None
    case SavedView => None
    case OtherAction => Some(ConfigFailure("Unknown action type: " + s.actionType, UnknownActionCode))
  }

  /** Each configuration code is raised by exactly its own defect. */
  lemma ConfigCodes(s: Shortcut, tools: map<string, Tool>)
    ensures var p := ConfigProblem(s, tools); var k := KindOf(s.actionType);
      && ((p.Some? && p.value.code == NoToolCode) <==> k == ToolAction && !Truthy(s.toolName))
      && ((p.Some? && p.value.code == UnknownToolCode)
          <==> k == ToolAction && Truthy(s.toolName) && s.toolName.value !in tools)
      && ((p.Some? && p.value.code == NoTemplateCode) <==> k == PromptTemplate && !Truthy(s.promptTemplate))
      && ((p.Some? && p.value.code == NoSequenceCode)
          <==> k == ToolSequence && (s.toolSequence.None? || s.toolSequence.value == []))
      && ((p.Some? && p.value.code == UnknownActionCode) <==> k == OtherAction)
  {
  }

  // ---- Missing capabilities ----

  /** The capability name a step's tool needs and the role lacks; unknown tools are skipped. */
  function Lacked(step: SequenceStep, tools: map<string, Tool>, role: string): Option<string> {
    if step.toolName in tools && !HasPermissionByName(role, tools[step.toolName].requiredPermission)
    then Some(tools[step.toolName].requiredPermission.Name())
    else None
  }

  /** `missingPermissions` after the loop over `steps` has run, starting from `acc`: each lacked
      capability appended the first time it is met. */
  function SequenceMissing(acc: seq<string>, steps: seq<SequenceStep>, tools: map<string, Tool>, role: string): seq<string>
    decreases |steps|
  {
    if steps == [] then acc
    else
      var before := SequenceMissing(acc, steps[..|steps| - 1], tools, role);
      var l := Lacked(steps[|steps| - 1], tools, role);
      if l.Some? && l.value !in before then before + [l.value] else before
  }

  /** The loop only appends: `acc` stays a prefix. */
  lemma {:induction false} SequenceMissingExtends(acc: seq<string>, steps: seq<SequenceStep>, tools: map<string, Tool>, role: string)
    ensures var r := SequenceMissing(acc, steps, tools, role);
      |acc| <= |r| && r[..|acc|] == acc
    decreases |steps|
  {
    if steps != [] {
      SequenceMissingExtends(acc, steps[..|steps| - 1], tools, role);
    }
  }

  /** What the loop appends is duplicate-free and new to `acc`. */
  lemma {:induction false} SequenceMissingNoDuplicates(acc: seq<string>, steps: seq<SequenceStep>, tools: map<string, Tool>, role: string)
    ensures var r := SequenceMissing(acc, steps, tools, role);
      && |acc| <= |r|
      && (forall i :: |acc| <= i < |r| ==> r[i] !in acc)
      && (forall i, j :: |acc| <= i < j < |r| ==> r[i] != r[j])
    decreases |steps|
  {
    if steps != [] {
      var before := SequenceMissing(acc, steps[..|steps| - 1], tools, role);
      SequenceMissingNoDuplicates(acc, steps[..|steps| - 1], tools, role);
      SequenceMissingExtends(acc, steps[..|steps| - 1], tools, role);
      var l := Lacked(steps[|steps| - 1], tools, role);
      if l.Some? && l.value !in before {
        assert forall x :: x in acc ==> x in before by {
          forall x | x in acc ensures x in before {
            var k :| 0 <= k < |acc| && acc[k] == x;
            assert before[..|acc|][k] == x;
          }
        }
      }
    }
  }

  /** After the loop, a name is listed exactly when it was there before or some step's tool needs
      it and the role lacks it. */
  lemma {:induction false} SequenceMissingMembers(acc: seq<string>, steps: seq<SequenceStep>, tools: map<string, Tool>, role: string, p: string)
    ensures p in SequenceMissing(acc, steps, tools, role)
      <==> p in acc || exists i :: 0 <= i < |steps| && Lacked(steps[i], tools, role) == Some(p)
    decreases |steps|
  {
    if steps != [] {
      var n := |steps| - 1;
      SequenceMissingMembers(acc, steps[..n], tools, role, p);
      assert forall i :: 0 <= i < n ==> steps[..n][i] == steps[i];
    }
  }

  /** The shortcut's own scope, when set and not held. */
  function ScopeMissing(s: Shortcut, role: string): seq<string> {
    if Truthy(s.permissionScopeRequired) && !HoldsNamed(role, s.permissionScopeRequired.value)
    then [s.permissionScopeRequired.value] else []
  }

  /** A tool action's own tool, when known and not permitted. */
  function ToolMissing(s: Shortcut, tools: map<string, Tool>, role: string): seq<string> {
    if KindOf(s.actionType) == ToolAction && Truthy(s.toolName) && s.toolName.value in tools
      && !HasPermissionByName(role, tools[s.toolName.value].requiredPermission)
    then [tools[s.toolName.value].requiredPermission.Name()] else []
  }

  /** The whole `missingPermissions` list of a configured shortcut. */
  function ExpectedMissing(s: Shortcut, tools: map<string, Tool>, role: string): seq<string> {
    var direct := ScopeMissing(s, role) + ToolMissing(s, tools, role);
    if KindOf(s.actionType) == ToolSequence && s.toolSequence.Some? then SequenceMissing(direct, s.toolSequence.value, tools, role)
    else direct
  }

  /** The three kinds of entry, and nothing else: the unheld scope, the tool action's unpermitted
      tool, and the unpermitted tools of a sequence. */
  lemma ExpectedMissingMembers(s: Shortcut, tools: map<string, Tool>, role: string, p: string)
    ensures p in ExpectedMissing(s, tools, role) <==>
      || (Truthy(s.permissionScopeRequired) && !HoldsNamed(role, p) && p == s.permissionScopeRequired.value)
      || (KindOf(s.actionType) == ToolAction && Truthy(s.toolName) && s.toolName.value in tools
          && !HasPermissionByName(role, tools[s.toolName.value].requiredPermission)
          && p == tools[s.toolName.value].requiredPermission.Name())
      || (KindOf(s.actionType) == ToolSequence && s.toolSequence.Some?
          && exists i :: 0 <= i < |s.toolSequence.value| && Lacked(s.toolSequence.value[i], tools, role) == Some(p))
  {
    var direct := ScopeMissing(s, role) + ToolMissing(s, tools, role);
    if KindOf(s.actionType) == ToolSequence && s.toolSequence.Some? {
      SequenceMissingMembers(direct, s.toolSequence.value, tools, role, p);
    }
  }

  // ---- The whole check ----

  /** The context the shortcut lacks: a conversation, for every action type except a saved view. */
  function MissingContext(s: Shortcut, ctx: Context): seq<string> {
    if !Truthy(ctx.conversationId) && KindOf(s.actionType) != SavedView then ["conversationId"] else []
  }

  /** `validateShortcutExecution`. */
  method Validate(s: Shortcut, ctx: Context, role: string, tools: map<string, Tool>) returns (r: Validation)
    ensures !s.isActive ==> r == InactiveResult
    ensures s.isActive && ConfigProblem(s, tools).Some? ==>
      r == Validation(true, false, Some(ConfigProblem(s, tools).value.reason), [], [], false, ConfigProblem(s, tools).value.code)
    ensures s.isActive && ConfigProblem(s, tools).None? ==>
      && r.visible && r.configValid
      && r.missingContext == MissingContext(s, ctx)
      && r.missingPermissions == ExpectedMissing(s, tools, role)
      && r.enabled == (r.missingContext == [] && r.missingPermissions == [])
      && (r.missingContext != [] ==> r.disabledReason == Some(ConversationMessage) && r.validationCode == "missing_context")
      && (r.missingContext == [] && r.missingPermissions != [] ==>
            r.disabledReason == Some("Requires permission: " + Join(r.missingPermissions, ", "))
            && r.validationCode == "permission_denied")
    ensures r.enabled <==> r.validationCode == "ok"
    ensures r.enabled ==> r.disabledReason == None && r.visible && r.configValid
  {
    if !s.isActive {
      return InactiveResult;
    }
    var configValid, reason, code := CheckConfig(s, tools);
    if !configValid {
      return Validation(true, false, reason, [], [], configValid, code);
    }
    var missingContext, missingPermissions := CheckRequirements(s, ctx, role, tools);
    var disabledReason: Option<string> := None;
    var validationCode := "ok";
    if |missingContext| > 0 {
      disabledReason := if "conversationId" in missingContext then Some(ConversationMessage)
        else Some("Missing context: " + Join(missingContext, ", "));
      validationCode := "missing_context";
    } else if |missingPermissions| > 0 {
      disabledReason := Some("Requires permission: " + Join(missingPermissions, ", "));
      validationCode := "permission_denied";
    }
    var enabled := configValid && |missingContext| == 0 && |missingPermissions| == 0;
    return Validation(true, enabled, disabledReason, missingContext, missingPermissions, configValid, validationCode);
  }

  /** Step 2, the `switch` on the action type, setting the three locals it may change. */
  method CheckConfig(s: Shortcut, tools: map<string, Tool>)
    returns (configValid: bool, disabledReason: Option<string>, validationCode: string)
    ensures configValid ==> disabledReason == None && validationCode == "ok"
    ensures !configValid ==> disabledReason.Some?
    ensures ConfigProblem(s, tools) ==
      if configValid then None else Some(ConfigFailure(disabledReason.value, validationCode))
  {
    configValid := true;
    disabledReason := None;
    validationCode := "ok";
    match KindOf(s.actionType)
    case ToolAction =>
      if !Truthy(s.toolName) {
        configValid := false;
        disabledReason := Some(NoToolReason);
        validationCode := NoToolCode;
      } else if s.toolName.value !in tools {
        configValid := false;
        disabledReason := Some("Tool \"" + s.toolName.value + "\" not found");
        validationCode := UnknownToolCode;
      }
    case PromptTemplate =>
      if !Truthy(s.promptTemplate) {
        configValid := false;
        disabledReason := Some(NoTemplateReason);
        validationCode := NoTemplateCode;
      }
    case ToolSequence =>
      if s.toolSequence.None? || s.toolSequence.value == [] {
        configValid := false;
        disabledReason := Some(NoSequenceReason);
        validationCode := NoSequenceCode;
      }
    case SavedView =>
    case OtherAction =>
      configValid := false;
      disabledReason := Some("Unknown action type: " + s.actionType);
      validationCode := UnknownActionCode;
  }

  /** Steps 3 and 4: the context and capability lists of a configured shortcut. */
  method CheckRequirements(s: Shortcut, ctx: Context, role: string, tools: map<string, Tool>)
    returns (missingContext: seq<string>, missingPermissions: seq<string>)
    ensures missingContext == MissingContext(s, ctx)
    ensures missingPermissions == ExpectedMissing(s, tools, role)
  {
    missingContext := [];
    missingPermissions := [];
    if !Truthy(ctx.conversationId) && KindOf(s.actionType) != SavedView {
      missingContext := missingContext + ["conversationId"];
    }
    if Truthy(s.permissionScopeRequired) {
      if !HoldsNamed(role, s.permissionScopeRequired.value) {
        missingPermissions := missingPermissions + [s.permissionScopeRequired.value];
      }
    }
    if KindOf(s.actionType) == ToolAction && Truthy(s.toolName) {
      if s.toolName.value in tools && !HasPermissionByName(role, tools[s.toolName.value].requiredPermission) {
        missingPermissions := missingPermissions + [tools[s.toolName.value].requiredPermission.Name()];
      }
    }
    assert missingPermissions == ScopeMissing(s, role) + ToolMissing(s, tools, role);
    if KindOf(s.actionType) == ToolSequence && s.toolSequence.Some? {
      missingPermissions := MissingFromSequence(missingPermissions, s.toolSequence.value, tools, role);
    }
  }

  /** The `for` loop over a tool sequence. */
  method MissingFromSequence(acc: seq<string>, steps: seq<SequenceStep>, tools: map<string, Tool>, role: string)
    returns (missing: seq<string>)
    ensures missing == SequenceMissing(acc, steps, tools, role)
  {
    missing := acc;
    var i := 0;
    while i < |steps|
      invariant 0 <= i <= |steps|
      invariant missing == SequenceMissing(acc, steps[..i], tools, role)
    {
      var step := steps[i];
      assert steps[..i + 1][..i] == steps[..i];
      if step.toolName in tools && !HasPermissionByName(role, tools[step.toolName].requiredPermission) {
        var needed := tools[step.toolName].requiredPermission.Name();
        if needed !in missing {
          missing := missing + [needed];
        }
      }
      i := i + 1;
    }
    assert steps[..i] == steps;
  }
}
