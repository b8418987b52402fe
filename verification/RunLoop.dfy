/** The model-tool loop of a run, cut at its external calls: batches of tool calls, suspension for an
    approval, resumption and the exits (pkg/rtagent/loop.go, loop_tools.go, loop_outcomes.go,
    loop_activity.go, approval_resume.go). Model, tools, leases and the stored session states answer
    as an environment decides. */
module RunLoop {
  import opened Types
  import opened Wrappers
  import opened Permission
  import opened PermissionCenter
  import Convergence
  import MessageWindow
  import Text

  datatype Failure =
    | LeaseAcquireFailed | ContextPacketFailed | ModelTurnFailed | ToolIterationLimitExceeded
    | ToolProviderMissing | ToolSchemaValidationFailed | PermissionCheckFailed | ToolCallFailed

  datatype Status = Running | Completed | DeniedRun | Failed(code: Failure) | Suspended(approval: ApprovalId)

  datatype Response = Response(output: string, toolCalls: seq<ToolCall>, plan: Option<string>, ask: Option<ApprovalAsk>)

  /** A model turn streams some deltas and then answers, or fails. */
  datatype ModelTurn = ModelTurn(deltas: nat, response: Option<Response>)

  /** How the loop treats tool calls and the model's own approvals before the permission center sees
      them: completing a call, validating it, classifying it. Module ToolCalls has the rules in force. */
  datatype Rules = Rules(
    prepare: (seq<ToolSpec>, ToolCall, string, nat, nat) -> ToolCall,
    valid: (seq<ToolSpec>, ToolCall) -> bool,
    classify: (seq<ToolSpec>, ToolCall) -> Check,
    askSubject: (ApprovalAsk, Scope) -> Subject)

  datatype Config = Config(maxToolIterations: nat, maxContextMessages: int, toolsConfigured: bool, rules: Rules)

  /** The answers of everything outside: the n-th model turn, a tool call after the calls executed
      so far, the stored world at the n-th look at it, and whether an exit finds its session drained. A
      lease and a context packet are asked for between two looks. */
  datatype Env = Env(
    model: nat -> ModelTurn, tool: (seq<ToolCall>, ToolCall) -> Option<Observation>, world: nat -> World,
    drained: nat -> bool, leased: nat -> bool, packet: nat -> Option<Packet>)

  /** The part of a run that executing tools changes. The transcript is the conversation untrimmed. */
  datatype Work = Work(
    messages: seq<Message>, transcript: seq<Message>, observations: seq<Observation>, toolRounds: nat,
    executed: seq<ToolCall>)

  /** What the model was sent, and the transcript at that time. */
  datatype Sent = Sent(messages: seq<Message>, transcript: seq<Message>)

  /** A tool invocation with the check it passed and the world that check saw. */
  datatype Invocation = Invocation(call: ToolCall, check: Check, world: World)

  /** The part of a run that a batch leaves alone. */
  datatype Frame = Frame(
    scope: Scope, packet: Packet, plan: Option<string>, iteration: int, turns: nat, sent: seq<Sent>, requested: seq<ToolCall>)

  datatype St = St(
    frame: Frame, work: Work, status: Status, center: Center, journal: seq<EventKind>, checks: nat, invoked: seq<Invocation>)
  {
    const scope := frame.scope
    const packet := frame.packet
    const plan := frame.plan
    const iteration := frame.iteration
    const turns := frame.turns
    const sent := frame.sent
    const requested := frame.requested
  }

  /****** Tool calls ******/

  /** The calls of a batch from index i on, prepared. */
  function Prepared(cfg: Config, specs: seq<ToolSpec>, calls: seq<ToolCall>, runId: string, round: nat, i: nat): (p: seq<ToolCall>)
    requires i <= |calls|
    ensures |p| == |calls| - i
    decreases |calls| - i
  {
    if i == |calls| then [] else
      [cfg.rules.prepare(specs, calls[i], runId, round, i)] + Prepared(cfg, specs, calls, runId, round, i + 1)
  }

  /** The check of a tool call in the scope of a run. */
  function CheckIn(cfg: Config, s: St, call: ToolCall): Check {
    var c := cfg.rules.classify(s.packet.toolSpecs, call);
    c.(subject := c.subject.(scope := NormalScope(s.scope)))
  }

  function Observed(call: ToolCall, o: Observation): Observation {
    o.(callId := if Text.Blank(o.callId) then call.id else o.callId,
       name := if Text.Blank(o.name) then call.name else o.name,
       status := if Text.Blank(o.status) then "ok" else o.status)
  }

  /** Executes one tool call; the flag tells whether the tool answered. */
  function Perform(env: Env, w: Work, call: ToolCall): (Work, bool) {
    var answer := env.tool(w.executed, call);
    var w' := w.(executed := w.executed + [call]);
    if answer.None? then (w', false) else
      var o := Observed(call, answer.value);
      var m := ToolResult("tool", o);
      (w'.(messages := w.messages + [m], transcript := w.transcript + [m], observations := w.observations + [o]), true)
  }

  /****** Exits ******/

  function Close(env: Env, s: St, status: Status, kind: EventKind): St {
    s.(status := status,
       journal := s.journal + [kind, ActivityCompleted] + (if env.drained(|s.journal|) then [SessionEnded] else []))
  }

  function FailRun(env: Env, s: St, code: Failure): St {
    Close(env, s, Failed(code), TurnFailed)
  }

  function DenyRun(env: Env, s: St): St {
    Close(env, s, DeniedRun, TurnFailed)
  }

  function CompleteRun(env: Env, s: St): St {
    Close(env, s, Completed, TurnCompleted)
  }

  function ContinuationOf(s: St, pending: seq<ToolCall>): Continuation {
    Continuation(pending, s.plan, s.iteration + 1, s.work.toolRounds, s.work.messages, s.work.transcript, s.work.observations, s.packet)
  }

  /** Suspends a batch before its pending calls. */
  function SuspendBatch(s: St, approval: ApprovalId, pending: seq<ToolCall>, round: nat): St {
    s.(status := Suspended(approval),
       center := ContinuationSpec(s.center, approval, ContinuationOf(s, pending).(toolRounds := round)),
       journal := s.journal + [ActivityCompleted])
  }

  /****** A batch ******/

  /** A permission check of the loop. */
  function Consult(cfg: Config, env: Env, s: St, call: ToolCall): (St, Result<Verdict, PermissionError>) {
    var (center, verdict, events) := CheckSpec(s.center, env.world(s.checks), CheckIn(cfg, s, call));
    (s.(center := center, checks := s.checks + 1, journal := s.journal + events), verdict)
  }

  /** Invokes an allowed call: ToolInvoked, then ToolSucceeded or, ending the run, ToolFailed. */
  function Invoke(cfg: Config, env: Env, before: St, s: St, call: ToolCall): St {
    var (work, answered) := Perform(env, s.work, call);
    var s' := s.(
      work := work,
      invoked := s.invoked + [Invocation(call, CheckIn(cfg, before, call), env.world(before.checks))],
      journal := s.journal + [ToolInvoked, if answered then ToolSucceeded else ToolFailed]);
    if answered then s' else FailRun(env, s', ToolCallFailed)
  }

  /** One call of a batch; the run goes on exactly when its status stays Running. */
  function BatchStep(cfg: Config, env: Env, s: St, calls: seq<ToolCall>, round: nat, i: nat): St
    requires i < |calls|
  {
    var call := cfg.rules.prepare(s.packet.toolSpecs, calls[i], s.scope.runId, round, i);
    if !cfg.rules.valid(s.packet.toolSpecs, call) then FailRun(env, s, ToolSchemaValidationFailed) else
      var (s', verdict) := Consult(cfg, env, s, call);
      match verdict
      case Err(_) => FailRun(env, s', PermissionCheckFailed)
      case Ok(Denied) => DenyRun(env, s')
      case Ok(RequiresApproval(approval)) =>
        SuspendBatch(s', approval, Prepared(cfg, s.packet.toolSpecs, calls, s.scope.runId, round, i), round)
      case Ok(Allowed(_, _)) => Invoke(cfg, env, s, s', call)
  }

  /** The calls of a batch in order, until one of them stops the run. */
  function Batch(cfg: Config, env: Env, s: St, calls: seq<ToolCall>, round: nat, i: nat): (r: St)
    requires i <= |calls|
    ensures r.status == Running ==> r.work.toolRounds == round + 1
    decreases |calls| - i
  {
    if i == |calls| then s.(work := s.work.(toolRounds := round + 1)) else
      var s' := BatchStep(cfg, env, s, calls, round, i);
      if s'.status != Running then s' else Batch(cfg, env, s', calls, round, i + 1)
  }

  /** The state after all calls of a batch are done; a run that stopped stays as it is. */
  function Finished(s: St, round: nat): St {
    if s.status == Running then s.(work := s.work.(toolRounds := round + 1)) else s
  }

  /** The single steps of a batch satisfy the relation. */
  predicate StepSatisfies(cfg: Config, env: Env, calls: seq<ToolCall>, round: nat, keeps: (St, nat, St) -> bool, s: St, k: nat) {
    k < |calls| && s.status == Running ==> keeps(s, k, BatchStep(cfg, env, s, calls, round, k))
  }

  predicate TrailStep(keeps: (St, nat, St) -> bool, i: nat, states: seq<St>, k: nat)
    requires 0 < k < |states|
  {
    states[k - 1].status == Running && keeps(states[k - 1], i + k - 1, states[k])
  }

  /** A succession of states, each but the last running and related to the next. */
  ghost predicate Trail(keeps: (St, nat, St) -> bool, i: nat, states: seq<St>) {
    states != [] && forall k :: 0 < k < |states| ==> TrailStep(keeps, i, states, k)
  }

  lemma TrailExtend(keeps: (St, nat, St) -> bool, i: nat, s: St, rest: seq<St>)
    requires Trail(keeps, i + 1, rest) && s.status == Running && keeps(s, i, rest[0])
    ensures Trail(keeps, i, [s] + rest)
  {
    var states := [s] + rest;
    forall k | 0 < k < |states|
      ensures TrailStep(keeps, i, states, k)
    {
      if k > 1 {
        assert TrailStep(keeps, i + 1, rest, k - 1);
        assert states[k - 1] == rest[k - 2] && states[k] == rest[k - 1];
      }
    }
  }

  /** From a state in which r is still to come, one step leads to r or to another such state. */
  ghost predicate Onward(comes: (St, nat) -> bool, keeps: (St, nat, St) -> bool, n: nat, r: St, x: St, k: nat) {
    comes(x, k) && x.status == Running && k < n ==>
      exists y :: keeps(x, k, y) && if y.status == Running then comes(y, k + 1) else r == y
  }

  lemma {:induction false} BuildTrail(comes: (St, nat) -> bool, keeps: (St, nat, St) -> bool, n: nat, r: St, s: St, i: nat)
    returns (states: seq<St>)
    requires comes(s, i) && s.status == Running && i <= n && forall x, k: nat :: Onward(comes, keeps, n, r, x, k)
    ensures Trail(keeps, i, states) && states[0] == s && (i < n ==> |states| > 1) && |states| <= n - i + 1
    ensures
      var last := states[|states| - 1];
      if last.status == Running then comes(last, n) && |states| == n - i + 1 else r == last
    decreases n - i
  {
    if i == n {
      states := [s];
    } else {
      assert Onward(comes, keeps, n, r, s, i);
      var s' :| keeps(s, i, s') && if s'.status == Running then comes(s', i + 1) else r == s';
      var rest := [s'];
      if s'.status == Running {
        rest := BuildTrail(comes, keeps, n, r, s', i + 1);
      }
      TrailExtend(keeps, i, s, rest);
      states := [s] + rest;
    }
  }

  /** The first step of a batch, and what is left of it. */
  lemma BatchNext(cfg: Config, env: Env, s: St, calls: seq<ToolCall>, round: nat, i: nat, keeps: (St, nat, St) -> bool, r: St)
    returns (s': St)
    requires s.status == Running && i < |calls| && r == Batch(cfg, env, s, calls, round, i)
    requires StepSatisfies(cfg, env, calls, round, keeps, s, i)
    ensures keeps(s, i, s')
    ensures if s'.status == Running then r == Batch(cfg, env, s', calls, round, i + 1) else r == s'
  {
    s' := BatchStep(cfg, env, s, calls, round, i);
  }

  /** The relation holds where r is still to come from the k-th call on. */
  predicate ComesAt(cfg: Config, env: Env, calls: seq<ToolCall>, round: nat, r: St, comes: (St, nat) -> bool, x: St, k: nat) {
    comes(x, k) <==> k <= |calls| && r == Batch(cfg, env, x, calls, round, k)
  }

  lemma OnwardBy(comes: (St, nat) -> bool, keeps: (St, nat, St) -> bool, n: nat, r: St, x: St, k: nat, y: St)
    requires keeps(x, k, y) && if y.status == Running then comes(y, k + 1) else r == y
    ensures Onward(comes, keeps, n, r, x, k)
  {
  }

  lemma BatchOnward(cfg: Config, env: Env, calls: seq<ToolCall>, round: nat, keeps: (St, nat, St) -> bool, r: St,
                    comes: (St, nat) -> bool, x: St, k: nat)
    requires forall y, j: nat :: ComesAt(cfg, env, calls, round, r, comes, y, j)
    requires StepSatisfies(cfg, env, calls, round, keeps, x, k)
    ensures Onward(comes, keeps, |calls|, r, x, k)
  {
    if comes(x, k) && x.status == Running && k < |calls| {
      assert ComesAt(cfg, env, calls, round, r, comes, x, k);
      var y := BatchNext(cfg, env, x, calls, round, k, keeps, r);
      assert ComesAt(cfg, env, calls, round, r, comes, y, k + 1);
      OnwardBy(comes, keeps, |calls|, r, x, k, y);
    }
  }

  lemma AlwaysOnward(cfg: Config, env: Env, calls: seq<ToolCall>, round: nat, keeps: (St, nat, St) -> bool, r: St,
                     comes: (St, nat) -> bool)
    requires forall y, j: nat :: ComesAt(cfg, env, calls, round, r, comes, y, j)
    requires forall x, k: nat :: StepSatisfies(cfg, env, calls, round, keeps, x, k)
    ensures forall x, k: nat :: Onward(comes, keeps, |calls|, r, x, k)
  {
    forall x, k: nat
      ensures Onward(comes, keeps, |calls|, r, x, k)
    {
      assert StepSatisfies(cfg, env, calls, round, keeps, x, k);
      BatchOnward(cfg, env, calls, round, keeps, r, comes, x, k);
    }
  }

  /** A running state in which r is still to come and no call is left. */
  predicate Ends(comes: (St, nat) -> bool, n: nat, r: St, round: nat, x: St) {
    comes(x, n) && x.status == Running ==> r == Finished(x, round)
  }

  lemma AlwaysEnds(cfg: Config, env: Env, calls: seq<ToolCall>, round: nat, r: St, comes: (St, nat) -> bool)
    requires forall y, j: nat :: ComesAt(cfg, env, calls, round, r, comes, y, j)
    ensures forall x :: Ends(comes, |calls|, r, round, x)
  {
    forall x
      ensures Ends(comes, |calls|, r, round, x)
    {
      assert ComesAt(cfg, env, calls, round, r, comes, x, |calls|);
    }
  }

  /** When the result of a batch is still to come. */
  lemma Coming(cfg: Config, env: Env, calls: seq<ToolCall>, round: nat, r: St) returns (comes: (St, nat) -> bool)
    ensures forall y, j: nat :: ComesAt(cfg, env, calls, round, r, comes, y, j)
  {
    comes := (x, k: nat) => k <= |calls| && r == Batch(cfg, env, x, calls, round, k);
  }

  /** Every batch leaves a trail of whatever relation its single steps satisfy. */
  lemma BatchTrail(cfg: Config, env: Env, s: St, calls: seq<ToolCall>, round: nat, keeps: (St, nat, St) -> bool, r: St)
    returns (states: seq<St>)
    requires s.status == Running && r == Batch(cfg, env, s, calls, round, 0)
    requires forall x, k: nat :: StepSatisfies(cfg, env, calls, round, keeps, x, k)
    ensures Trail(keeps, 0, states) && states[0] == s && (calls != [] ==> |states| > 1)
    ensures r == Finished(states[|states| - 1], round)
    ensures |states| <= |calls| + 1 && (states[|states| - 1].status == Running ==> |states| == |calls| + 1)
  {
    var comes := Coming(cfg, env, calls, round, r);
    AlwaysOnward(cfg, env, calls, round, keeps, r, comes);
    AlwaysEnds(cfg, env, calls, round, r, comes);
    assert ComesAt(cfg, env, calls, round, r, comes, s, 0);
    states := TrailOf(comes, keeps, |calls|, r, round, s);
  }

  lemma TrailOf(comes: (St, nat) -> bool, keeps: (St, nat, St) -> bool, n: nat, r: St, round: nat, s: St) returns (states: seq<St>)
    requires s.status == Running && comes(s, 0)
    requires (forall x, k: nat :: Onward(comes, keeps, n, r, x, k)) && forall x :: Ends(comes, n, r, round, x)
    ensures Trail(keeps, 0, states) && states[0] == s && (n > 0 ==> |states| > 1)
    ensures r == Finished(states[|states| - 1], round)
    ensures |states| <= n + 1 && (states[|states| - 1].status == Running ==> |states| == n + 1)
  {
    states := BuildTrail(comes, keeps, n, r, s, 0);
    assert Ends(comes, n, r, round, states[|states| - 1]);
  }

  /****** The loop ******/

  function Repeat(kind: EventKind, n: nat): seq<EventKind> {
    if n == 0 then [] else Repeat(kind, n - 1) + [kind]
  }

  function Initial(input: string): seq<Message> {
    if Text.Blank(input) then [] else [Message.Text("user", Text.Trim(input))]
  }

  function AppendMessages(w: Work, added: seq<Message>): Work {
    w.(messages := w.messages + added, transcript := w.transcript + added)
  }

  function AssistantMessages(r: Response): seq<Message> {
    if Text.Blank(r.output) && r.toolCalls == [] then [] else [Assistant("assistant", r.output, r.toolCalls)]
  }

  /** Applies the message window and asks the model. */
  function RequestTurn(cfg: Config, env: Env, s: St): St {
    var trimmed := MessageWindow.Window(s.work.messages, cfg.maxContextMessages);
    s.(work := s.work.(messages := trimmed),
       frame := s.frame.(sent := s.sent + [Sent(trimmed, s.work.transcript)], turns := s.turns + 1),
       journal := s.journal + (if |trimmed| < |s.work.messages| then [ContextCompacted] else [])
         + [ModelRequested] + Repeat(ModelDelta, env.model(s.turns).deltas))
  }

  /** Takes up a response: the assistant message, the plan and the prepared calls it requests. */
  function Respond(s: St, r: Response): St {
    s.(work := AppendMessages(s.work, AssistantMessages(r)),
       frame := s.frame.(plan := r.plan),
       journal := s.journal + (if r.plan.Some? then [ModelResponded, PlanProposed] else [ModelResponded]))
  }

  /** Suspends for an approval the model asks for. */
  function SuspendForModel(cfg: Config, s: St, ask: ApprovalAsk): St {
    s.(status := Suspended(ForModel(AskId(ask, s.scope))),
       center := AskSpec(s.center, AskId(ask, s.scope), s.scope.runId, cfg.rules.askSubject(ask, s.scope), ContinuationOf(s, [])),
       journal := s.journal + [PermissionRequested, ActivityCompleted])
  }

  /** The observations of a round, as the convergence controller receives them. */
  function LastObservations(observations: seq<Observation>, n: nat): seq<Observation> {
    if n > 0 && |observations| >= n then observations[|observations| - n..] else []
  }

  function SteeringMessage(d: Convergence.Decision): Message {
    Message.Text("user", if d.Finalize? then "Runtime convergence checkpoint" else "Runtime observation checkpoint")
  }

  /** Steers the conversation after a tool turn and counts the iteration. */
  function Steer(s: St, d: Convergence.Decision): St {
    var next := s.(frame := s.frame.(iteration := s.iteration + 1));
    if d.Continue? then next
    else next.(work := AppendMessages(s.work, [SteeringMessage(d)]), journal := s.journal + [RunHeartbeat])
  }

  /** What becomes of a turn before its tool calls are executed: the run ends, or Running remains. */
  function Answer(cfg: Config, env: Env, s: St, turn: ModelTurn, finalizing: bool): St {
    if turn.response.None? then FailRun(env, s, ModelTurnFailed)
    else if finalizing then CompleteRun(env, s.(journal := s.journal + [TurnCompleted]))
    else
      var r := turn.response.value;
      var s' := Respond(s, r);
      if r.ask.Some? then SuspendForModel(cfg, s', r.ask.value)
      else if r.toolCalls == [] then CompleteRun(env, s')
      else if s'.work.toolRounds >= cfg.maxToolIterations then FailRun(env, s', ToolIterationLimitExceeded)
      else if !cfg.toolsConfigured then FailRun(env, s', ToolProviderMissing)
      else s'
  }

  /** Takes note of the calls that a turn requests. */
  function Requesting(cfg: Config, s: St, calls: seq<ToolCall>): St {
    s.(frame := s.frame.(requested :=
      s.requested + Prepared(cfg, s.packet.toolSpecs, calls, s.scope.runId, s.work.toolRounds, 0)))
  }

  /** Executes the calls of an answered turn. */
  function Act(cfg: Config, env: Env, s: St, calls: seq<ToolCall>): St {
    Batch(cfg, env, Requesting(cfg, s, calls), calls, s.work.toolRounds, 0)
  }

  function TurnOf(cfg: Config, s: St, calls: seq<ToolCall>): Convergence.Turn {
    Convergence.TurnOf(s.iteration + 1, cfg.maxToolIterations, calls, LastObservations(s.work.observations, |calls|))
  }

  /** How a round of the loop ends: the run is over or waits, or another round follows. */
  datatype RoundEnd = Over(state: St) | Again(state: St, history: seq<Convergence.Turn>, finalizing: bool)

  /** A model turn and the tool calls it asks for, which are returned as well. */
  function TakeTurn(cfg: Config, env: Env, s: St, finalizing: bool): (r: (St, seq<ToolCall>))
    ensures r.0.status == Running ==>
      s.work.toolRounds < cfg.maxToolIterations && r.0.work.toolRounds == s.work.toolRounds + 1
  {
    var turn := env.model(s.turns);
    var answered := Answer(cfg, env, RequestTurn(cfg, env, s), turn, finalizing);
    if answered.status != Running then (answered, [])
    else (Act(cfg, env, answered, turn.response.value.toolCalls), turn.response.value.toolCalls)
  }

  /** One round: a turn, and the controller's verdict on its tool calls. */
  function Round(cfg: Config, env: Env, s: St, history: seq<Convergence.Turn>, finalizing: bool): (r: RoundEnd)
    ensures r.Again? ==> s.work.toolRounds < cfg.maxToolIterations && r.state.work.toolRounds == s.work.toolRounds + 1
  {
    var (acted, calls) := TakeTurn(cfg, env, s, finalizing);
    if acted.status != Running then Over(acted) else
      var history' := history + [TurnOf(cfg, acted, calls)];
      var decision := Convergence.Decide(history');
      Again(Steer(acted, decision), history', decision.Finalize?)
  }

  /** The model-tool loop; history is what the convergence controller of this entry has seen. */
  function Loop(cfg: Config, env: Env, s: St, history: seq<Convergence.Turn>, finalizing: bool): St
    decreases if s.work.toolRounds < cfg.maxToolIterations then cfg.maxToolIterations - s.work.toolRounds else 0
  {
    match Round(cfg, env, s, history, finalizing)
    case Over(r) => r
    case Again(s', history', finalizing') => Loop(cfg, env, s', history', finalizing')
  }

  /** An empty conversation starts from the input. */
  function Entered(s: St): St {
    if s.work.messages == [] then s.(work := AppendMessages(s.work, Initial(s.packet.input))) else s
  }

  /** Entry of the loop, with a fresh controller. */
  function EnterLoop(cfg: Config, env: Env, s: St): St {
    Loop(cfg, env, Entered(s), [], false)
  }

  /****** Segments ******/

  const NO_PACKET := Packet("", "", [])

  /** A run as initializeRun leaves it. */
  function Created(scope: Scope, center: Center, newSession: bool): St {
    St(Frame(scope, NO_PACKET, None, 0, 0, [], []), Work([], [], [], 0, []), Running, center,
       (if newSession then [SessionStarted] else []) + [RunCreated, TurnStarted], 0, [])
  }

  function Begin(s: St, kinds: seq<EventKind>): St {
    s.(status := Running, journal := s.journal + kinds)
  }

  /** A run with its context packet, about to enter the loop. */
  function Opened(s: St, packet: Packet): St {
    Begin(s, [ContextPacketCreated, AgentStarted]).(
      frame := s.frame.(packet := packet), work := AppendMessages(s.work, Initial(packet.input)))
  }

  /** The first segment of a run. */
  function Run(cfg: Config, env: Env, created: St): St {
    var s := Begin(created, [ActivityStarted]);
    var packet := env.packet(s.checks);
    if !env.leased(s.checks) then FailRun(env, s, LeaseAcquireFailed)
    else if packet.None? then FailRun(env, s, ContextPacketFailed)
    else EnterLoop(cfg, env, Opened(s, packet.value))
  }

  datatype ResumeError =
    | NoSuchApproval | ScopeMismatch | NoContinuation | NotResolved(error: PermissionError) | NotResumable
    | NotAccepting(refusal: PermissionError) | NoToolProvider

  predicate Mismatch(stored: string, override: string) {
    !Text.Blank(stored) && !Text.Blank(override) && Text.Trim(stored) != Text.Trim(override)
  }

  predicate ScopesAgree(stored: Scope, override: Scope) {
    !Mismatch(stored.runId, override.runId) && !Mismatch(stored.sessionId, override.sessionId)
    && !Mismatch(stored.rootRunId, override.rootRunId)
  }

  function NormalizeApprovalDecision(decision: string): Decision {
    var d := Text.ToLower(Text.Trim(decision));
    if d in {"approve", "approved", "allow", "allowed", "yes", "y"} then AllowOnce
    else if d in {"reject", "rejected", "deny", "denied", "no", "n"} then Deny
    else NormalizeDecision(decision)
  }

  predicate Resumable(status: Status) {
    status.Suspended? || status.Running? || status.Failed?
  }

  /** The state a continuation describes, in the given scope. */
  function Restored(s: St, k: Continuation, scope: Scope): St {
    s.(frame := s.frame.(scope := scope, packet := k.packet, plan := k.plan,
         iteration := if k.iteration <= 0 then 1 else k.iteration),
       work := AppendMessages(
         s.work.(messages := k.messages, transcript := k.transcript, observations := k.observations, toolRounds := k.toolRounds),
         if k.pendingToolCalls == [] then [Message.Text("user", "Approval granted.")]
         else if k.messages == [] then Initial(k.packet.input)
         else []))
  }

  /** Goes on from a restored state: the pending calls first, then the loop. */
  function Continued(cfg: Config, env: Env, s: St, pending: seq<ToolCall>): St {
    if pending == [] then EnterLoop(cfg, env, s) else
      var acted := Batch(cfg, env, s, pending, s.work.toolRounds, 0);
      if acted.status != Running then acted else EnterLoop(cfg, env, acted)
  }

  /** A look at the stored world. */
  function Looked(s: St): St {
    s.(checks := s.checks + 1)
  }

  /** Puts a run back to work, up to its pending calls; it stays Running if all goes well. */
  function Reopened(cfg: Config, env: Env, s: St, k: Continuation, scope: Scope): (St, Option<ResumeError>) {
    var refusal := SessionRefusal(env.world(s.checks), scope.sessionId);
    if !Resumable(s.status) then (s, Some(NotResumable))
    else if refusal.Some? then (Looked(s), Some(NotAccepting(refusal.value)))
    else if k.pendingToolCalls != [] && !cfg.toolsConfigured then (Looked(s), Some(NoToolProvider))
    else
      var s' := Begin(Restored(Looked(s), k, scope), [ActivityStarted]);
      if !env.leased(s'.checks) then (FailRun(env, s', LeaseAcquireFailed), None)
      else (Begin(s', [ContextPacketCreated]), None)
  }

  /** The scope an approval is resumed in: the recorded one, with what the caller overrides. */
  function ResumeScope(rec: Record, override: Scope): Scope {
    var stored := ResolveScope(rec, NO_OVERRIDE);
    if override.runId != "" then MergeScope(stored, override) else stored
  }

  /** The center looks at the world, resolves and appends its events. */
  function Resolved(s: St, center: Center, events: seq<EventKind>): St {
    Looked(s).(center := center, journal := s.journal + events)
  }

  /** Resolves an approval; a denial ends the run, anything else puts it back to work. */
  function Reopen(cfg: Config, env: Env, s: St, approval: ApprovalId, d: Decision, override: Scope)
    : (St, Option<ResumeError>)
  {
    if approval !in s.center.records then (s, Some(NoSuchApproval)) else
      var rec := s.center.records[approval];
      var scope := ResumeScope(rec, override);
      if !ScopesAgree(ResolveScope(rec, NO_OVERRIDE), override) then (s, Some(ScopeMismatch))
      else if d != Deny && rec.continuation.None? then (s, Some(NoContinuation))
      else
        var (center, resolved, events) := ResolveSpec(s.center, env.world(s.checks), approval, d, scope);
        var s' := Resolved(s, center, events);
        if resolved.Err? then (s', Some(NotResolved(resolved.error)))
        else if d == Deny then (DenyRun(env, Begin(s', [ActivityStarted])), None)
        else Reopened(cfg, env, s', rec.continuation.value, scope)
  }

  function Pending(s: St, approval: ApprovalId): seq<ToolCall> {
    if approval !in s.center.records || s.center.records[approval].continuation.None? then []
    else s.center.records[approval].continuation.value.pendingToolCalls
  }

  /** A later segment of a run: the approval is resolved, then the pending calls and the loop go on. */
  function Resume(cfg: Config, env: Env, s: St, approval: ApprovalId, d: Decision, override: Scope)
    : (St, Option<ResumeError>)
  {
    var (s', error) := Reopen(cfg, env, s, approval, d, override);
    if error.Some? || s'.status != Running then (s', error)
    else (Continued(cfg, env, s', Pending(s, approval)), None)
  }
}
