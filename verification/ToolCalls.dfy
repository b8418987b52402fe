/** The rules of the loop for tool calls: completing, validating and classifying a call
    (pkg/rtagent/loop_helpers.go, tool_schema.go, loop_tools.go). */
module ToolCalls {
  import opened Types
  import opened Wrappers
  import opened Permission
  import opened PermissionCenter
  import opened RunLoop
  import Text

  function FindSpec(specs: seq<ToolSpec>, name: string): Option<ToolSpec> {
    if specs == [] then None
    else if specs[0].name == Text.Trim(name) then Some(specs[0])
    else FindSpec(specs[1..], name)
  }

  function SpecEpoch(spec: ToolSpec): string {
    Text.FirstNonEmpty([spec.epoch, spec.version, spec.schemaHash])
  }

  /** Completes a call: an id from its position, schema hash and epoch from its spec. */
  function Prepare(specs: seq<ToolSpec>, call: ToolCall, runId: string, round: nat, index: nat): ToolCall {
    var id := if Text.Blank(call.id) then "tool:" + runId + ":" + Text.Itoa(round) + ":" + Text.Itoa(index) else call.id;
    var spec := FindSpec(specs, call.name);
    call.(
      id := id,
      schemaHash := if spec.Some? && Text.Blank(call.schemaHash) then Text.Trim(spec.value.schemaHash) else call.schemaHash,
      epoch := if spec.Some? && Text.Blank(call.epoch) then SpecEpoch(spec.value) else call.epoch)
  }

  predicate ValidAgainst(call: ToolCall, spec: Option<ToolSpec>) {
    && !call.epochClosed
    && match spec
       case None => Text.Blank(call.schemaHash) && Text.Blank(call.epoch)
       case Some(s) =>
         && (Text.Blank(call.schemaHash) || (!Text.Blank(s.schemaHash) && Text.Trim(call.schemaHash) == Text.Trim(s.schemaHash)))
         && (Text.Blank(call.epoch) || (SpecEpoch(s) != "" && Text.Trim(call.epoch) == SpecEpoch(s)))
  }

  predicate ValidCall(specs: seq<ToolSpec>, call: ToolCall) {
    ValidAgainst(call, FindSpec(specs, call.name))
  }

  /** The request the loop makes for a tool call. */
  function ToolRequest(specs: seq<ToolSpec>, scope: Scope, call: ToolCall): Request {
    Request(scope, Action(Named(call.id), TOOL_CALL, call.name, Some(call.arguments)), Some(call), FindSpec(specs, call.name))
  }

  function ToolCheck(specs: seq<ToolSpec>, call: ToolCall): Check {
    NormalizeCheck(ToolRequest(specs, NO_OVERRIDE, call))
  }

  /** The rules in force. */
  function LoopRules(): Rules {
    Rules(
      (specs, call, runId, round: nat, index: nat) => Prepare(specs, call, runId, round, index),
      (specs, call) => ValidCall(specs, call),
      (specs, call) => ToolCheck(specs, call),
      (ask, scope) => AskSubject(ask, scope))
  }

  /** The classification of a call does not depend on the scope it is made in. */
  lemma ToolCheckInScope(specs: seq<ToolSpec>, scope: Scope, call: ToolCall)
    ensures
      var c := ToolCheck(specs, call);
      NormalizeCheck(ToolRequest(specs, scope, call)) == c.(subject := c.subject.(scope := NormalScope(scope)))
  {
  }

  lemma NeverDangerous(specs: seq<ToolSpec>, call: ToolCall)
    ensures !ToolCheck(specs, call).dangerousCommand
  {
    assert Text.Trim(TOOL_CALL) == TOOL_CALL;
  }

  /** What a call of the loop is to the permission center: a tool call on its tool, or a workspace write on it
      where its spec says so; read-only where call or spec says so. */
  lemma LoopClassification(specs: seq<ToolSpec>, call: ToolCall)
    ensures
      var c, spec := ToolCheck(specs, call), FindSpec(specs, call.name);
      var writes := spec.Some? && Text.Trim(spec.value.sideEffectKind) in {"workspace.write", "fs.write", "file.write"};
      && c.subject.capability == (if writes then "workspace.write" else "tool.call") && c.workspaceWrite == writes
      && c.subject.toolTarget == Text.Trim(call.name) && c.subject.resource == Text.Trim(call.name)
      && (c.readOnly <==> call.readOnly || (spec.Some? && spec.value.readOnly))
      && (!Text.Blank(call.id) ==> c.subject.action.actionId == Named(call.id))
      && c.subject.action.args == Some(call.arguments)
  {
    assert Text.Trim(TOOL_CALL) == TOOL_CALL;
    assert TOOL_CALL[0] != 'f' && TOOL_CALL[0] != 'w' && TOOL_CALL[0] != 'c' && TOOL_CALL[0] != 'm';
  }

  /** The k-th spec is the first that bears the name. */
  predicate FirstNamed(specs: seq<ToolSpec>, name: string, k: int) {
    0 <= k < |specs| && specs[k].name == Text.Trim(name) && forall j :: 0 <= j < k ==> specs[j].name != Text.Trim(name)
  }

  /** The spec of a call is the first that bears its name, up to white space around the name in the call. */
  lemma {:induction false} FindSpecMeans(specs: seq<ToolSpec>, name: string)
    ensures FindSpec(specs, name).None? ==> forall k :: 0 <= k < |specs| ==> specs[k].name != Text.Trim(name)
    ensures FindSpec(specs, name).Some? ==> exists k :: FirstNamed(specs, name, k) && specs[k] == FindSpec(specs, name).value
  {
    if specs != [] {
      if specs[0].name == Text.Trim(name) {
        assert FirstNamed(specs, name, 0);
      } else {
        var rest := specs[1..];
        FindSpecMeans(rest, name);
        assert forall k :: 0 < k < |specs| ==> specs[k] == rest[k - 1];
        if FindSpec(rest, name).Some? {
          var k :| FirstNamed(rest, name, k) && rest[k] == FindSpec(rest, name).value;
          assert FirstNamed(specs, name, k + 1);
        }
      }
    }
  }

  /** What preparing a call completes: an id from its position where it has none, schema hash and epoch of its
      spec where it has none; the rest is kept. */
  lemma PrepareMeans(specs: seq<ToolSpec>, call: ToolCall, runId: string, round: nat, i: nat)
    ensures
      var p, spec := Prepare(specs, call, runId, round, i), FindSpec(specs, call.name);
      && p.name == call.name && p.arguments == call.arguments && p.readOnly == call.readOnly && p.epochClosed == call.epochClosed
      && p.id == (if Text.Blank(call.id) then "tool:" + runId + ":" + Text.Itoa(round) + ":" + Text.Itoa(i) else call.id)
      && (spec.None? || !Text.Blank(call.schemaHash) ==> p.schemaHash == call.schemaHash)
      && (spec.Some? && Text.Blank(call.schemaHash) ==> p.schemaHash == Text.Trim(spec.value.schemaHash))
      && (spec.None? || !Text.Blank(call.epoch) ==> p.epoch == call.epoch)
      && (spec.Some? && Text.Blank(call.epoch) ==> p.epoch == Text.FirstNonEmpty([spec.value.epoch, spec.value.version, spec.value.schemaHash]))
  {
  }

  /** A prepared call is valid unless its epoch is closed, it names a hash or an epoch without a spec, or those
      of another spec than the one that bears its name. */
  lemma ValidMeans(specs: seq<ToolSpec>, call: ToolCall)
    ensures
      var spec := FindSpec(specs, call.name);
      ValidCall(specs, call) <==>
        && !call.epochClosed
        && (!Text.Blank(call.schemaHash) ==>
              spec.Some? && !Text.Blank(spec.value.schemaHash) && Text.Trim(call.schemaHash) == Text.Trim(spec.value.schemaHash))
        && (!Text.Blank(call.epoch) ==>
              spec.Some? && var epoch := Text.FirstNonEmpty([spec.value.epoch, spec.value.version, spec.value.schemaHash]);
                            epoch != "" && Text.Trim(call.epoch) == epoch)
  {
  }

  /****** Preparing is idempotent ******/

  lemma BindBlank(a: string, b: string)
    requires Text.Trimmed(b)
    ensures var r := if Text.Blank(a) then b else a; Text.Blank(r) ==> r == b && b == ""
  {
  }

  /** Preparing a prepared call again, under any position, changes nothing. */
  lemma PrepareAgain(specs: seq<ToolSpec>, call: ToolCall, runId: string, round: nat, i: nat, runId': string, round': nat, i': nat)
    ensures
      var p := Prepare(specs, call, runId, round, i);
      Prepare(specs, p, runId', round', i') == p
  {
    Text.NotBlank("tool:" + runId + ":" + Text.Itoa(round) + ":" + Text.Itoa(i));
    var spec := FindSpec(specs, call.name);
    if spec.Some? {
      Text.TrimIs(spec.value.schemaHash);
      BindBlank(call.schemaHash, Text.Trim(spec.value.schemaHash));
      BindBlank(call.epoch, SpecEpoch(spec.value));
    }
  }
}
