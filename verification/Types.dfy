/** The values that flow through a run: scopes, tool calls, messages, events. */
module Types {
  import opened Wrappers

  type RunId = string
  type SessionId = string

  datatype Scope = Scope(
    runId: string, sessionId: string, rootRunId: string, taskId: string,
    actorId: string, ownerId: string, mode: string)

  /** A tool call as the model asks for it. Arguments are kept in encoded form. */
  datatype ToolCall = ToolCall(
    id: string, name: string, arguments: string, readOnly: bool,
    schemaHash: string, epoch: string, epochClosed: bool)

  datatype ToolSpec = ToolSpec(
    name: string, namespace: string, providerName: string, readOnly: bool, sideEffectKind: string,
    schemaHash: string, epoch: string, version: string)

  datatype Observation = Observation(
    callId: string, name: string, status: string, modelSummary: string, userSummary: string, outputRef: string)

  datatype Message =
    | Text(role: string, content: string)
    | Assistant(role: string, content: string, toolCalls: seq<ToolCall>)
    | ToolResult(role: string, observation: Observation)

  /** "run:000001" as the pair it encodes. */
  datatype EventId = Numbered(run: string, number: nat)

  datatype EventKind =
    | RunCreated | SessionStarted | SessionEnded | TurnStarted | TurnCompleted | TurnFailed | TurnCancelled
    | AgentStarted | PlanProposed | RunInterrupted | RunHeartbeat
    | ActivityStarted | ActivityCompleted
    | ContextPacketCreated | ContextCompacted
    | ModelRequested | ModelDelta | ModelResponded
    | PermissionRequested | PermissionGranted | PermissionDenied
    | ToolInvoked | ToolSucceeded | ToolFailed
    | CheckpointCreated
    | HostDefined(name: string)

  datatype SessionStatus = Active | Stopping | Stopped

  datatype Packet = Packet(id: string, input: string, toolSpecs: seq<ToolSpec>)

  /** What a suspended run needs to go on once its approval is resolved. The transcript is what the
      conversation would be without trimming; the program does not keep it. */
  datatype Continuation = Continuation(
    pendingToolCalls: seq<ToolCall>, plan: Option<string>, iteration: int, toolRounds: nat,
    messages: seq<Message>, transcript: seq<Message>, observations: seq<Observation>, packet: Packet)
}
