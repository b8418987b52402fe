/** What permission modes, read-only actions, guards and decisions come to, in the terms of requests, over
    every trace of the center (pkg/rtagent/permission_center.go, permission_center_policy.go). */
module PermissionModes {
  import opened Types
  import opened Wrappers
  import opened Permission
  import opened PermissionCenter
  import Text

  /****** Guards ******/

  /** The stored run is unknown, or the session is stopping or stopped. */
  predicate RunUnknown(w: World, runId: string) {
    Text.Blank(runId) || Text.Trim(runId) !in w.runs
  }

  predicate SessionClosed(w: World, sessionId: string) {
    Text.Trim(sessionId) in w.sessions && w.sessions[Text.Trim(sessionId)] != Active
  }

  /** A check is refused exactly when it names an unknown run, or none for an action that is not read-only, or
      when it is not read-only and its session is closed. */
  lemma RefusedExactly(w: World, c: Check)
    ensures
      var scope := c.subject.scope;
      CheckRefusal(w, c).Some? <==>
        || (RunUnknown(w, scope.runId) && !(c.readOnly && Text.Blank(scope.runId)))
        || (!c.readOnly && !Text.Blank(scope.sessionId) && SessionClosed(w, scope.sessionId))
  {
  }

  /** A resolution is refused exactly when there is no such approval, its run is unknown, or it allows in a
      session that is blank or closed; a denial passes a closed session. */
  lemma ResolutionRefusedExactly(s: Center, w: World, approval: ApprovalId, d: Decision, override: Scope)
    ensures
      ResolveSpec(s, w, approval, d, override).1.Err? <==>
        || approval !in s.records
        || var scope := ResolveScope(s.records[approval], override);
           || RunUnknown(w, scope.runId)
           || (d != Deny && (Text.Blank(scope.sessionId) || SessionClosed(w, scope.sessionId)))
  {
  }

  /** A resolution that goes through notes on its record whether it allowed, and nothing else of any record;
      a denial grants nothing. */
  lemma ResolutionRecords(s: Center, w: World, approval: ApprovalId, d: Decision, override: Scope)
    requires ResolveSpec(s, w, approval, d, override).1.Ok?
    ensures
      var s' := ResolveSpec(s, w, approval, d, override).0;
      && s'.records == s.records[approval := s.records[approval].(granted := d != Deny)]
      && (d == Deny ==> s'.grants == s.grants)
  {
  }

  /****** Modes ******/

  predicate Yolo(c: Check) {
    c.subject.scope.mode == "yolo"
  }

  /** A workspace write that the mode acceptEdits lets through. */
  predicate AcceptedEdit(c: Check) {
    c.subject.scope.mode == "acceptEdits" && c.workspaceWrite && !c.readOnly
  }

  /** The check is let through by its mode: not refused, and with no grant to match. */
  predicate ByMode(s: Center, op: Op) {
    && op.CheckOp? && (Yolo(op.check) || AcceptedEdit(op.check))
    && CheckRefusal(op.world, op.check).None? && Match(s.grants, op.check.subject).None?
  }

  /** It speaks for the subject: for everything in its run if it was yolo, for the same target in its run if
      it was an accepted edit. */
  predicate ModeReaches(op: Op, c: Subject)
    requires op.CheckOp?
  {
    && SameParty(op.check.subject, c) && SameRun(op.check.subject, c)
    && (Yolo(op.check) || SameTarget(op.check.subject, c))
  }

  /** Some check of the trace was let through by its mode and reaches the subject. */
  predicate ReachedByMode(ops: seq<Op>, c: Subject) {
    ops != [] &&
      var op := ops[|ops| - 1];
      ReachedByMode(ops[..|ops| - 1], c) || (ByMode(Execute(ops[..|ops| - 1]), op) && ModeReaches(op, c))
  }

  lemma IssueByMode(s: Center, op: Op, c: Subject)
    requires op.CheckOp?
    ensures IssueCovers(s, op, c) <==> ByMode(s, op) && ModeReaches(op, c)
  {
  }

  /** A decision was issued for the subject by a resolution or by a mode. */
  lemma {:induction false} CoveredSplits(ops: seq<Op>, c: Subject)
    ensures Covered(ops, c) <==> CoveredByResolution(ops, c) || ReachedByMode(ops, c)
  {
    if ops != [] {
      var op := ops[|ops| - 1];
      CoveredSplits(ops[..|ops| - 1], c);
      if op.CheckOp? {
        IssueByMode(Execute(ops[..|ops| - 1]), op, c);
      }
    }
  }

  /** After any trace, a check that is not refused, not read-only and not let through by its own mode is
      allowed if and only if an earlier resolution covers it, or an earlier check of its run and party was let
      through in mode yolo, or an earlier accepted edit of its run and party was let through on its target. */
  lemma AllowedExactly(ops: seq<Op>, world: World, c: Check)
    requires !c.readOnly && !Yolo(c) && !AcceptedEdit(c) && CheckRefusal(world, c).None?
    ensures CheckSpec(Execute(ops), world, c).1.value.Allowed? <==>
      CoveredByResolution(ops, c.subject) || ReachedByMode(ops, c.subject)
  {
    CoverageExact(ops, world, c);
    CoveredSplits(ops, c.subject);
  }

  /** A check that is read-only or let through by its mode is allowed whenever it is not refused. */
  lemma FreelyAllowedExactly(s: Center, world: World, c: Check)
    requires CheckRefusal(world, c).None? && (c.readOnly || Yolo(c) || AcceptedEdit(c))
    ensures CheckSpec(s, world, c).1.Ok? && CheckSpec(s, world, c).1.value.Allowed?
  {
  }

  /** Read-only checks leave no grant behind, except in mode yolo. */
  lemma ReadOnlyGrantsNothing(s: Center, world: World, c: Check)
    requires c.readOnly && !Yolo(c)
    ensures CheckSpec(s, world, c).0 == s
  {
  }

  /** In mode yolo one check opens its run, and no more: a later check of another run is not let through by it. */
  lemma YoloStaysInRun(world: World, c: Check, later: World, other: Check)
    requires Yolo(c) && CheckRefusal(world, c).None? && CheckRefusal(later, other).None?
    requires !other.readOnly && !Yolo(other) && !AcceptedEdit(other)
    ensures
      CheckSpec(CheckSpec(Center({}, map[]), world, c).0, later, other).1.value.Allowed? <==>
        SameParty(c.subject, other.subject) && SameRun(c.subject, other.subject)
  {
    var ops := [CheckOp(world, c)];
    assert ops[..0] == [] && ops[0] == CheckOp(world, c);
    MatchIs({}, c.subject, 0);
    AllowedExactly(ops, later, other);
    assert Execute(ops) == CheckSpec(Center({}, map[]), world, c).0;
  }

  /****** Decisions by name ******/

  function NameOf(d: Decision): string {
    match d
    case Deny => "deny"
    case AllowOnce => "allow_once"
    case AllowForRun => "allow_for_run"
    case AllowForSession => "allow_for_session"
    case AllowAllForRun => "allow_all_for_run"
    case AllowAllForSession => "allow_all_for_session"
  }

  /** A decision allows exactly when it is spelled as one that does, up to white space; it is then that one. */
  lemma DecisionByName(decision: string, d: Decision)
    ensures d != Deny ==> (NormalizeDecision(decision) == d <==> Text.Trim(decision) == NameOf(d))
    ensures NormalizeDecision(decision) == Deny <==> forall e: Decision :: e != Deny ==> Text.Trim(decision) != NameOf(e)
  {
    var t := Text.Trim(decision);
    assert t == NameOf(AllowOnce) || t == NameOf(AllowForRun) || t == NameOf(AllowForSession)
      || t == NameOf(AllowAllForRun) || t == NameOf(AllowAllForSession) || NormalizeDecision(decision) == Deny;
  }

  /****** Classification ******/

  /** The names of the four capabilities that are known, with their aliases. */
  predicate NameOfKind(kind: string, capability: string) {
    || (capability == "tool.call" && kind in {"tool.call", "tool", "tool_call"})
    || (capability == "workspace.write" && kind in {"workspace.write", "fs.write", "file.write", "workspace.file.write"})
    || (capability == "shell.exec" && kind in {"shell.exec", "command.exec", "exec", "shell"})
    || (capability == "mcp.call" && kind in {"mcp.call", "mcp", "mcp.tool"})
  }

  predicate KnownKind(kind: string) {
    NameOfKind(kind, "tool.call") || NameOfKind(kind, "workspace.write") || NameOfKind(kind, "shell.exec") || NameOfKind(kind, "mcp.call")
  }

  /** What an action is by its kind alone: a capability by name or alias; else a tool by the prefix of tools, a
      workspace write by the word, or the kind itself. */
  lemma CapabilityExactly(action: Action, capability: string)
    requires capability in {"tool.call", "workspace.write", "shell.exec", "mcp.call"}
    ensures
      var kind := Text.Trim(action.kind);
      CapabilityFor(action) == capability <==>
        || NameOfKind(kind, capability)
        || (capability == "tool.call" && !KnownKind(kind) && Text.HasPrefix(kind, "tool."))
        || (capability == "workspace.write" && !KnownKind(kind) && !Text.HasPrefix(kind, "tool.") && Text.Contains(kind, "write"))
  {
  }

  lemma OtherKinds(action: Action)
    ensures
      var kind := Text.Trim(action.kind);
      !KnownKind(kind) && !Text.HasPrefix(kind, "tool.") && !Text.Contains(kind, "write") ==> CapabilityFor(action) == kind
  {
  }

  /** A request is read-only exactly when its action reads, or its call or spec says so. */
  lemma ReadOnlyExactly(req: Request)
    ensures
      var c := NormalizeCheck(req);
      c.readOnly <==>
        || Text.Trim(c.subject.action.kind) in {"fs.read", "file.read", "workspace.read", "context.read", "memory.read"}
        || (req.toolCall.Some? && req.toolCall.value.readOnly) || (req.toolSpec.Some? && req.toolSpec.value.readOnly)
  {
  }

  /** A side effect of the spec makes a workspace write of any action, and keeps the target it had. */
  lemma SideEffectRewrites(req: Request)
    requires req.toolSpec.Some? && Text.Trim(req.toolSpec.value.sideEffectKind) in {"workspace.write", "fs.write", "file.write"}
    ensures
      var c := NormalizeCheck(req);
      && c.workspaceWrite && c.subject.capability == "workspace.write" && !c.dangerousCommand
      && c.subject.resource == Text.Trim(c.subject.action.target)
      && c.subject.toolTarget == if CapabilityFor(c.subject.action) == "tool.call" then c.subject.resource else ""
  {
    assert req.toolSpec.value.sideEffectKind != "";
  }

  /** Otherwise the kind of the action decides. */
  lemma WithoutSideEffect(req: Request)
    requires req.toolSpec.Some? ==> Text.Trim(req.toolSpec.value.sideEffectKind) !in {"workspace.write", "fs.write", "file.write"}
    ensures
      var c := NormalizeCheck(req);
      && c.subject.capability == CapabilityFor(c.subject.action)
      && (c.workspaceWrite <==> c.subject.capability == "workspace.write")
      && c.subject.resource == Text.Trim(c.subject.action.target)
      && c.subject.toolTarget == if c.subject.capability == "tool.call" then c.subject.resource else ""
  {
  }

  /** Blank fields of a scope have defaults; given ones, the run, the session and the task are kept. */
  lemma ScopeDefaults(req: Request)
    ensures
      var given, scope := req.scope, NormalizeCheck(req).subject.scope;
      && scope.runId == given.runId && scope.sessionId == given.sessionId && scope.taskId == given.taskId
      && scope.mode == (if Text.Blank(given.mode) then "default" else given.mode)
      && scope.actorId == (if Text.Blank(given.actorId) then "local" else given.actorId)
      && scope.ownerId == (if Text.Blank(given.ownerId) then scope.actorId else given.ownerId)
      && scope.rootRunId == (if Text.Blank(given.rootRunId) then given.runId else given.rootRunId)
  {
  }

  /** A given action is kept; what it leaves blank comes from the call, and an id that is missing even there
      is derived from the action itself. */
  lemma ActionDefaults(req: Request)
    requires req.toolCall.Some?
    ensures
      var given, call, action := req.action, req.toolCall.value, NormalizeCheck(req).subject.action;
      && action.kind == (if Text.Blank(given.kind) then "tool.call" else given.kind)
      && action.target == (if Text.Blank(given.target) then call.name else given.target)
      && action.args == (if given.args.None? then Some(call.arguments) else given.args)
      && (!(given.actionId.Named? && Text.Blank(given.actionId.id)) ==> action.actionId == given.actionId)
      && (given.actionId.Named? && Text.Blank(given.actionId.id) && !Text.Blank(call.id) ==> action.actionId == Named(call.id))
      && (given.actionId.Named? && Text.Blank(given.actionId.id) && Text.Blank(call.id) ==>
            action.actionId.Derived? && action.actionId.kind == action.kind && action.actionId.target == action.target)
  {
  }

  /** What the danger check looks at. */
  function CommandText(action: Action): string {
    Text.ToLower(Text.Trim(action.target + " " + Preview(action.args, 2048)))
  }

  /** A shell action is dangerous exactly when its text, whatever the case of its letters, contains one of six
      patterns; the default policy denies it where nothing allows it. */
  lemma DangerousExactly(req: Request)
    ensures
      var c := NormalizeCheck(req);
      var text := CommandText(c.subject.action);
      c.dangerousCommand <==>
        && c.subject.capability == "shell.exec"
        && (Text.Contains(text, "rm -rf /") || Text.Contains(text, "rm -rf ~") || Text.Contains(text, "rm -rf *")
            || Text.Contains(text, "chmod -r 777 /") || Text.Contains(text, "mkfs") || Text.Contains(text, ":(){:|:&};:"))
  {
    var action := NormalizeCheck(req).subject.action;
    var patterns, text := DangerousPatterns(), CommandText(action);
    assert patterns[0] == "rm -rf /" && patterns[1] == "rm -rf ~" && patterns[2] == "rm -rf *"
      && patterns[3] == "chmod -r 777 /" && patterns[4] == "mkfs" && patterns[5] == ":(){:|:&};:";
    assert DangerousCommand(action) <==> exists i :: 0 <= i < 6 && Text.Contains(text, patterns[i]);
  }
}
