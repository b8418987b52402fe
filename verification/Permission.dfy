/** The permission engine: classification of a request, the grants a decision stands for, and the
    coverage relation between them (pkg/rtagent/permission_center_policy.go, permission_center_grants.go). */
module Permission {
  import opened Types
  import opened Wrappers
  import Text

  const ANY := "*"
  const TOOL_CALL := "tool.call"
  const WORKSPACE_WRITE := "workspace.write"
  const SHELL_EXEC := "shell.exec"
  const MCP_CALL := "mcp.call"
  const MODEL_APPROVAL := "model.approval"
  const YOLO := "yolo"
  const ACCEPT_EDITS := "acceptEdits"

  datatype Decision = Deny | AllowOnce | AllowForRun | AllowForSession | AllowAllForRun | AllowAllForSession

  /** An action id given by the caller, or the hash of what it would otherwise be derived from. */
  datatype ActionId = Named(id: string) | Derived(kind: string, target: string, preview: string)

  /** Absent arguments are distinguished from empty ones. */
  datatype Action = Action(actionId: ActionId, kind: string, target: string, args: Option<string>)

  datatype Request = Request(scope: Scope, action: Action, toolCall: Option<ToolCall>, toolSpec: Option<ToolSpec>)

  /** Who asks to do what, as far as grants and approvals are concerned. */
  datatype Subject = Subject(scope: Scope, action: Action, capability: string, toolTarget: string, resource: string)

  datatype Check = Check(subject: Subject, readOnly: bool, workspaceWrite: bool, dangerousCommand: bool)

  /****** Normalisation ******/

  function NormalScope(scope: Scope): Scope {
    var mode := if Text.Blank(scope.mode) then "default" else scope.mode;
    var actor := if Text.Blank(scope.actorId) then "local" else scope.actorId;
    var owner := if Text.Blank(scope.ownerId) then actor else scope.ownerId;
    var root := if Text.Blank(scope.rootRunId) then scope.runId else scope.rootRunId;
    scope.(mode := mode, actorId := actor, ownerId := owner, rootRunId := root)
  }

  predicate BlankAction(id: ActionId) {
    id.Named? && Text.Blank(id.id)
  }

  function Preview(args: Option<string>, max: nat): string {
    if args.None? then "" else if |args.value| <= max then args.value else args.value[..max]
  }

  function FillFromCall(action: Action, call: ToolCall): Action {
    Action(
      if BlankAction(action.actionId) then Named(call.id) else action.actionId,
      if Text.Blank(action.kind) then TOOL_CALL else action.kind,
      if Text.Blank(action.target) then call.name else action.target,
      if action.args.None? then Some(call.arguments) else action.args)
  }

  function NormalAction(action: Action, call: Option<ToolCall>): Action {
    var filled := if call.Some? then FillFromCall(action, call.value) else action;
    if BlankAction(filled.actionId) then
      filled.(actionId := Derived(filled.kind, filled.target, Preview(filled.args, 2048)))
    else filled
  }

  function CapabilityFor(action: Action): string {
    var kind := Text.Trim(action.kind);
    if kind in {TOOL_CALL, "tool", "tool_call"} then TOOL_CALL
    else if kind in {WORKSPACE_WRITE, "fs.write", "file.write", "workspace.file.write"} then WORKSPACE_WRITE
    else if kind in {SHELL_EXEC, "command.exec", "exec", "shell"} then SHELL_EXEC
    else if kind in {MCP_CALL, "mcp", "mcp.tool"} then MCP_CALL
    else if Text.HasPrefix(kind, "tool.") then TOOL_CALL
    else if Text.Contains(kind, "write") then WORKSPACE_WRITE
    else kind
  }

  predicate ReadOnlyAction(action: Action) {
    Text.Trim(action.kind) in {"fs.read", "file.read", "workspace.read", "context.read", "memory.read"}
  }

  function DangerousPatterns(): seq<string> {
    ["rm -rf /", "rm -rf ~", "rm -rf *", "chmod -r 777 /", "mkfs", ":(){:|:&};:"]
  }

  predicate DangerousCommand(action: Action) {
    var text := Text.ToLower(Text.Trim(action.target + " " + Preview(action.args, 2048)));
    exists i :: 0 <= i < |DangerousPatterns()| && Text.Contains(text, DangerousPatterns()[i])
  }

  predicate WritesWorkspace(sideEffectKind: string) {
    Text.Trim(sideEffectKind) in {WORKSPACE_WRITE, "fs.write", "file.write"}
  }

  function NormalizeCheck(req: Request): Check {
    var action := NormalAction(req.action, req.toolCall);
    var declared := CapabilityFor(action);
    var sideEffect := if req.toolSpec.Some? then req.toolSpec.value.sideEffectKind else "";
    var writes := declared == WORKSPACE_WRITE || WritesWorkspace(sideEffect);
    var capability := if writes && sideEffect != "" then WORKSPACE_WRITE else declared;
    Check(
      Subject(NormalScope(req.scope), action, capability,
        if declared == TOOL_CALL then Text.Trim(action.target) else "", Text.Trim(action.target)),
      || ReadOnlyAction(action)
      || (req.toolCall.Some? && req.toolCall.value.readOnly) || (req.toolSpec.Some? && req.toolSpec.value.readOnly),
      writes,
      capability == SHELL_EXEC && DangerousCommand(action))
  }

  /** Normalising the scope and the action again changes nothing. */
  predicate Normalised(a: Subject) {
    NormalScope(a.scope) == a.scope && NormalAction(a.action, None) == a.action
  }

  lemma NormalizeIdempotent(req: Request)
    ensures Normalised(NormalizeCheck(req).subject)
  {
    assert Text.Trimmed("default") && Text.Trimmed("local");
  }

  /****** Decisions and grants ******/

  function NormalizeDecision(decision: string): Decision {
    match Text.Trim(decision)
    case "allow_once" => AllowOnce
    case "allow_for_run" => AllowForRun
    case "allow_for_session" => AllowForSession
    case "allow_all_for_run" => AllowAllForRun
    case "allow_all_for_session" => AllowAllForSession
    case _ => Deny
  }

  datatype GrantScope = ActionScope | RunScope | SessionScope

  /** A grant is identified by exactly these fields. */
  datatype Grant = Grant(
    scope: GrantScope, decision: Decision, capability: string, toolTarget: string, resource: string,
    actionId: ActionId, runId: string, sessionId: string, rootRunId: string, taskId: string,
    actorId: string, ownerId: string)

  /** An approval is identified by its check, or by the id the model chose for it. */
  datatype ApprovalId =
    | ForCheck(runId: string, sessionId: string, actionId: ActionId, capability: string, toolTarget: string,
               resource: string, actorId: string)
    | ForModel(id: string)

  const NO_ACTION := Named("")

  function CapabilityKey(capability: string): string {
    if Text.Blank(capability) then ANY else capability
  }

  /** The grant a decision stands for. */
  function GrantFor(c: Subject, d: Decision): Grant {
    var s := c.scope;
    var once := Grant(ActionScope, if d == Deny then AllowOnce else d, CapabilityKey(c.capability), c.toolTarget, c.resource,
      c.action.actionId, s.runId, s.sessionId, s.rootRunId, s.taskId, s.actorId, s.ownerId);
    match d
    case Deny | AllowOnce => once
    case AllowForRun => once.(scope := RunScope, actionId := NO_ACTION)
    case AllowAllForRun => once.(scope := RunScope, actionId := NO_ACTION, capability := ANY, toolTarget := ANY, resource := ANY)
    case AllowForSession => once.(scope := SessionScope, actionId := NO_ACTION, runId := "", rootRunId := "", taskId := "")
    case AllowAllForSession =>
      once.(scope := SessionScope, actionId := NO_ACTION, runId := "", rootRunId := "", taskId := "",
        capability := ANY, toolTarget := ANY, resource := ANY)
  }

  function ApprovalFor(c: Subject): ApprovalId {
    ForCheck(c.scope.runId, c.scope.sessionId, c.action.actionId, c.capability, c.toolTarget, c.resource, c.scope.actorId)
  }

  /****** Coverage ******/

  predicate SameParty(a: Subject, b: Subject) {
    a.scope.sessionId == b.scope.sessionId && a.scope.actorId == b.scope.actorId && a.scope.ownerId == b.scope.ownerId
  }

  predicate SameRun(a: Subject, b: Subject) {
    a.scope.runId == b.scope.runId && a.scope.rootRunId == b.scope.rootRunId && a.scope.taskId == b.scope.taskId
  }

  /** A blank capability counts as any. */
  predicate SameTarget(a: Subject, b: Subject) {
    && CapabilityKey(a.capability) == CapabilityKey(b.capability)
    && a.toolTarget == b.toolTarget && a.resource == b.resource
  }

  /** A decision taken on one subject speaks for another. */
  predicate Covers(d: Decision, decided: Subject, asked: Subject) {
    && SameParty(decided, asked)
    && match d
       case Deny => false
       case AllowOnce => SameRun(decided, asked) && SameTarget(decided, asked) && decided.action.actionId == asked.action.actionId
       case AllowForRun => SameRun(decided, asked) && SameTarget(decided, asked)
       case AllowForSession => SameTarget(decided, asked)
       case AllowAllForRun => SameRun(decided, asked)
       case AllowAllForSession => true
  }

  /** Grants match by identity, and identity is coverage. */
  lemma GrantIdentity(decided: Subject, d: Decision, asked: Subject, e: Decision)
    requires d != Deny && e != Deny
    ensures GrantFor(decided, d) == GrantFor(asked, e) <==> d == e && Covers(d, decided, asked)
  {
  }

  /** Once lies within run, run within session and all-for-run, and both within all-for-session. */
  lemma CoverageOrdered(decided: Subject, asked: Subject)
    ensures Covers(AllowOnce, decided, asked) ==> Covers(AllowForRun, decided, asked)
    ensures Covers(AllowForRun, decided, asked) <==> Covers(AllowForSession, decided, asked) && Covers(AllowAllForRun, decided, asked)
    ensures Covers(AllowForSession, decided, asked) || Covers(AllowAllForRun, decided, asked) ==>
      Covers(AllowAllForSession, decided, asked)
  {
  }

  /****** Merging scopes ******/

  /** Every field the override names replaces that of the base. */
  function MergeScope(base: Scope, override: Scope): Scope {
    Scope(Text.Override(base.runId, override.runId), Text.Override(base.sessionId, override.sessionId),
      Text.Override(base.rootRunId, override.rootRunId), Text.Override(base.taskId, override.taskId),
      Text.Override(base.actorId, override.actorId), Text.Override(base.ownerId, override.ownerId), Text.Override(base.mode, override.mode))
  }

  /****** The classification, step by step ******/

  method NormalizePermissionCheck(req: Request) returns (check: Check)
    ensures check == NormalizeCheck(req)
  {
    var scope := req.scope;
    if Text.Blank(scope.mode) {
      scope := scope.(mode := "default");
    }
    if Text.Blank(scope.actorId) {
      scope := scope.(actorId := "local");
    }
    if Text.Blank(scope.ownerId) {
      scope := scope.(ownerId := scope.actorId);
    }
    if Text.Blank(scope.rootRunId) {
      scope := scope.(rootRunId := scope.runId);
    }
    assert scope == NormalScope(req.scope);
    var action := req.action;
    if req.toolCall.Some? {
      var call := req.toolCall.value;
      if BlankAction(action.actionId) {
        action := action.(actionId := Named(call.id));
      }
      if Text.Blank(action.kind) {
        action := action.(kind := TOOL_CALL);
      }
      if Text.Blank(action.target) {
        action := action.(target := call.name);
      }
      if action.args.None? {
        action := action.(args := Some(call.arguments));
      }
    }
    if BlankAction(action.actionId) {
      action := action.(actionId := Derived(action.kind, action.target, Preview(action.args, 2048)));
    }
    assert action == NormalAction(req.action, req.toolCall);
    check := Classify(scope, action, req);
  }

  method Classify(scope: Scope, action: Action, req: Request) returns (check: Check)
    requires scope == NormalScope(req.scope) && action == NormalAction(req.action, req.toolCall)
    ensures check == NormalizeCheck(req)
  {
    var capability := CapabilityFor(action);
    var toolTarget, resource := "", Text.Trim(action.target);
    if capability == TOOL_CALL {
      toolTarget := Text.Trim(action.target);
      resource := toolTarget;
    }
    var readOnly, workspaceWrite := ReadOnlyAction(action), capability == WORKSPACE_WRITE;
    if req.toolCall.Some? {
      readOnly := readOnly || req.toolCall.value.readOnly;
    }
    if req.toolSpec.Some? {
      readOnly := readOnly || req.toolSpec.value.readOnly;
      if req.toolSpec.value.sideEffectKind != "" {
        workspaceWrite := workspaceWrite || WritesWorkspace(req.toolSpec.value.sideEffectKind);
        if workspaceWrite {
          capability := WORKSPACE_WRITE;
        }
      }
    }
    check := Check(Subject(scope, action, capability, toolTarget, resource), readOnly, workspaceWrite,
      capability == SHELL_EXEC && DangerousCommand(action));
  }
}
