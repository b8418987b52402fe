/** The core loop as the program runs it: an object that updates its conversation, counters, status
    and journal in place, and meets the specification of module RunLoop
    (pkg/rtagent/loop.go, loop_tools.go, loop_outcomes.go, approval_resume.go). */
module LoopEngine {
  import opened Types
  import opened Wrappers
  import opened Permission
  import opened PermissionCenter
  import opened RunLoop
  import Convergence
  import MessageWindow

  class CoreLoop {
    const cfg: Config
    const env: Env
    const permissions: PermissionCenter
    var frame: Frame
    var work: Work
    var status: Status
    var journal: seq<EventKind>
    var checks: nat
    ghost var invoked: seq<Invocation>

    ghost function View(): St
      reads this, permissions
    {
      St(frame, work, status, permissions.View(), journal, checks, invoked)
    }

    constructor (cfg: Config, env: Env, permissions: PermissionCenter, scope: Scope, newSession: bool)
      ensures this.cfg == cfg && this.env == env && this.permissions == permissions
      ensures View() == Created(scope, permissions.View(), newSession)
    {
      this.cfg, this.env, this.permissions := cfg, env, permissions;
      frame, work, status := Frame(scope, NO_PACKET, None, 0, 0, [], []), Work([], [], [], 0, []), Running;
      journal := (if newSession then [SessionStarted] else []) + [RunCreated, TurnStarted];
      checks, invoked := 0, [];
    }

    /****** Exits ******/

    /** putRunStatus, the closing event, activity.completed and, where the session is drained by it, session.ended. */
    method CloseRun(next: Status, kind: EventKind)
      modifies this`status, this`journal
      ensures View() == Close(env, old(View()), next, kind)
    {
      var drained := env.drained(|journal|);
      status := next;
      journal := journal + [kind, ActivityCompleted];
      if drained {
        journal := journal + [SessionEnded];
      } else {
        assert journal + [] == journal;
      }
    }

    /****** Tool calls ******/

    method ExecuteToolCall(call: ToolCall) returns (answered: bool)
      modifies this`journal, this`work
      ensures (work, answered) == Perform(env, old(work), call)
      ensures journal == old(journal) + [ToolInvoked, if answered then ToolSucceeded else ToolFailed]
    {
      journal := journal + [ToolInvoked];
      var answer := env.tool(work.executed, call);
      work := work.(executed := work.executed + [call]);
      if answer.None? {
        journal := journal + [ToolFailed];
        return false;
      }
      journal := journal + [ToolSucceeded];
      var observation := Observed(call, answer.value);
      work := work.(observations := work.observations + [observation]);
      work := AppendMessages(work, [ToolResult("tool", observation)]);
      return true;
    }

    /** Invokes a call that was just allowed. */
    method InvokeToolCall(call: ToolCall, ghost before: St)
      requires status == Running
      modifies this`journal, this`work, this`status, this`invoked
      ensures View() == Invoke(cfg, env, before, old(View()), call)
    {
      var answered := ExecuteToolCall(call);
      invoked := invoked + [Invocation(call, CheckIn(cfg, before, call), env.world(before.checks))];
      if !answered {
        CloseRun(Failed(ToolCallFailed), TurnFailed);
      }
    }

    /** Suspends before the given calls, leaving a continuation with the approval. */
    method SuspendRunWithApproval(approval: ApprovalId, pending: seq<ToolCall>, toolRound: nat)
      modifies this, permissions
      ensures View() == SuspendBatch(old(View()), approval, pending, toolRound)
    {
      var continuation := Continuation(
        pending, frame.plan, frame.iteration + 1, toolRound, work.messages, work.transcript, work.observations, frame.packet);
      var found := permissions.StorePermissionApprovalContinuation(approval, continuation);
      status := Suspended(approval);
      journal := journal + [ActivityCompleted];
    }

    /** The calls from index i on, completed. */
    method PreparedFrom(calls: seq<ToolCall>, toolRound: nat, i: nat) returns (pending: seq<ToolCall>)
      requires i <= |calls|
      ensures pending == Prepared(cfg, frame.packet.toolSpecs, calls, frame.scope.runId, toolRound, i)
    {
      pending := [];
      var k := |calls|;
      while k > i
        invariant i <= k <= |calls|
        invariant pending == Prepared(cfg, frame.packet.toolSpecs, calls, frame.scope.runId, toolRound, k)
      {
        k := k - 1;
        pending := [cfg.rules.prepare(frame.packet.toolSpecs, calls[k], frame.scope.runId, toolRound, k)] + pending;
      }
    }

    method CheckToolCall(call: ToolCall) returns (verdict: Result<Verdict, PermissionError>)
      modifies this, permissions
      ensures (View(), verdict) == Consult(cfg, env, old(View()), call)
    {
      var classified := cfg.rules.classify(frame.packet.toolSpecs, call);
      var check := classified.(subject := classified.subject.(scope := NormalScope(frame.scope)));
      var events;
      verdict, events := permissions.Decide(env.world(checks), check);
      checks := checks + 1;
      journal := journal + events;
    }

    /** One call of a batch: completed, validated, checked, and executed, suspended or refused. */
    method ExecuteOne(calls: seq<ToolCall>, toolRound: nat, i: nat)
      requires status == Running && i < |calls|
      modifies this, permissions
      ensures View() == BatchStep(cfg, env, old(View()), calls, toolRound, i)
    {
      ghost var before := View();
      var call := cfg.rules.prepare(frame.packet.toolSpecs, calls[i], frame.scope.runId, toolRound, i);
      if !cfg.rules.valid(frame.packet.toolSpecs, call) {
        CloseRun(Failed(ToolSchemaValidationFailed), TurnFailed);
        return;
      }
      var verdict := CheckToolCall(call);
      match verdict
      case Err(_) => CloseRun(Failed(PermissionCheckFailed), TurnFailed);
      case Ok(Denied) => CloseRun(DeniedRun, TurnFailed);
      case Ok(RequiresApproval(approval)) =>
        var pending := PreparedFrom(calls, toolRound, i);
        SuspendRunWithApproval(approval, pending, toolRound);
      case Ok(Allowed(_, _)) => InvokeToolCall(call, before);
    }

    method ExecuteToolCallsWithPermission(calls: seq<ToolCall>, toolRound: nat)
      requires status == Running
      modifies this, permissions
      ensures View() == Batch(cfg, env, old(View()), calls, toolRound, 0)
    {
      ghost var start := View();
      for i := 0 to |calls|
        invariant status == Running
        invariant Batch(cfg, env, start, calls, toolRound, 0) == Batch(cfg, env, View(), calls, toolRound, i)
      {
        ExecuteOne(calls, toolRound, i);
        if status != Running {
          return;
        }
      }
      work := work.(toolRounds := toolRound + 1);
    }

    /****** The loop ******/

    method EmitDeltas(deltas: nat)
      modifies this`journal
      ensures journal == old(journal) + Repeat(ModelDelta, deltas)
    {
      assert journal + [] == journal;
      for i := 0 to deltas
        invariant journal == old(journal) + Repeat(ModelDelta, i)
      {
        journal := journal + [ModelDelta];
      }
    }

    /** Applies the message window and asks the model. */
    method RequestModelTurn() returns (turn: ModelTurn)
      modifies this`frame, this`work, this`journal
      ensures View() == RequestTurn(cfg, env, old(View())) && turn == env.model(old(frame).turns)
    {
      var trimmed := MessageWindow.TrimMessagesToWindow(work.messages, cfg.maxContextMessages);
      if |trimmed| < |work.messages| {
        journal := journal + [ContextCompacted];
      } else {
        assert journal + [] == journal;
      }
      journal := journal + [ModelRequested];
      work := work.(messages := trimmed);
      turn := env.model(frame.turns);
      frame := frame.(sent := frame.sent + [Sent(trimmed, work.transcript)], turns := frame.turns + 1);
      EmitDeltas(turn.deltas);
    }

    method TakeResponse(response: RunLoop.Response)
      modifies this`frame, this`work, this`journal
      ensures View() == Respond(old(View()), response)
    {
      work := AppendMessages(work, AssistantMessages(response));
      frame := frame.(plan := response.plan);
      journal := journal + [ModelResponded];
      if response.plan.Some? {
        journal := journal + [PlanProposed];
      }
    }

    method SuspendRun(ask: ApprovalAsk)
      modifies this, permissions
      ensures View() == SuspendForModel(cfg, old(View()), ask)
    {
      var continuation := Continuation(
        [], frame.plan, frame.iteration + 1, work.toolRounds, work.messages, work.transcript, work.observations, frame.packet);
      permissions.StoreModelApproval(AskId(ask, frame.scope), frame.scope.runId, cfg.rules.askSubject(ask, frame.scope), continuation);
      status := Suspended(ForModel(AskId(ask, frame.scope)));
      journal := journal + [PermissionRequested, ActivityCompleted];
    }

    /** Everything about a turn that comes before its tool calls are executed. */
    method TakeAnswer(turn: ModelTurn, finalizing: bool)
      requires status == Running
      modifies this, permissions
      ensures View() == Answer(cfg, env, old(View()), turn, finalizing)
    {
      if turn.response.None? {
        CloseRun(Failed(ModelTurnFailed), TurnFailed);
        return;
      }
      var response := turn.response.value;
      if finalizing {
        journal := journal + [TurnCompleted];
        CloseRun(Completed, TurnCompleted);
        return;
      }
      TakeResponse(response);
      if response.ask.Some? {
        SuspendRun(response.ask.value);
      } else if |response.toolCalls| == 0 {
        CloseRun(Completed, TurnCompleted);
      } else if work.toolRounds >= cfg.maxToolIterations {
        CloseRun(Failed(ToolIterationLimitExceeded), TurnFailed);
      } else if !cfg.toolsConfigured {
        CloseRun(Failed(ToolProviderMissing), TurnFailed);
      }
    }

    method ExecuteTurn(calls: seq<ToolCall>)
      requires status == Running
      modifies this, permissions
      ensures View() == Act(cfg, env, old(View()), calls)
    {
      var prepared := PreparedFrom(calls, work.toolRounds, 0);
      frame := frame.(requested := frame.requested + prepared);
      ExecuteToolCallsWithPermission(calls, work.toolRounds);
    }

    method SteerRun(decision: Convergence.Decision)
      modifies this`frame, this`work, this`journal
      ensures View() == Steer(old(View()), decision)
    {
      if !decision.Continue? {
        work := AppendMessages(work, [SteeringMessage(decision)]);
        journal := journal + [RunHeartbeat];
      }
      frame := frame.(iteration := frame.iteration + 1);
    }

    /** The model-tool loop, with a convergence controller of its own. */
    method RunModelToolLoop()
      requires status == Running
      modifies this, permissions
      ensures View() == EnterLoop(cfg, env, old(View()))
    {
      if |work.messages| == 0 {
        work := AppendMessages(work, Initial(frame.packet.input));
      }
      var convergence := new Convergence.ConvergenceController();
      var finalizing, done := false, false;
      ghost var entered := View();
      while !done
        invariant fresh(convergence) && convergence.Valid()
        invariant Loop(cfg, env, entered, [], false)
          == if done then View() else Loop(cfg, env, View(), convergence.history, finalizing)
        invariant !done ==> status == Running
        decreases !done, if work.toolRounds < cfg.maxToolIterations then cfg.maxToolIterations - work.toolRounds else 0
      {
        finalizing, done := RunRound(convergence, finalizing);
      }
    }

    /** One round of the loop; done when the run is over or waits. */
    method RunRound(convergence: Convergence.ConvergenceController, finalizing: bool) returns (finalize: bool, done: bool)
      requires status == Running && convergence.Valid()
      modifies this, permissions, convergence
      ensures convergence.Valid() && (!done ==> status == Running)
      ensures Round(cfg, env, old(View()), old(convergence.history), finalizing)
        == if done then Over(View()) else Again(View(), convergence.history, finalize)
    {
      var calls := TakeTurn(finalizing);
      if status != Running {
        return false, true;
      }
      finalize := Conclude(convergence, calls);
      return finalize, false;
    }

    /** Shows the round to the controller and steers as it decides. */
    method Conclude(convergence: Convergence.ConvergenceController, calls: seq<ToolCall>) returns (finalize: bool)
      requires convergence.Valid()
      modifies this`frame, this`work, this`journal, convergence
      ensures convergence.Valid()
      ensures convergence.history == old(convergence.history) + [TurnOf(cfg, old(View()), calls)]
      ensures View() == Steer(old(View()), Convergence.Decide(convergence.history))
      ensures finalize == Convergence.Decide(convergence.history).Finalize?
    {
      var decision := ObserveRound(convergence, calls);
      SteerRun(decision);
      finalize := decision.Finalize?;
    }

    method ObserveRound(convergence: Convergence.ConvergenceController, calls: seq<ToolCall>) returns (decision: Convergence.Decision)
      requires convergence.Valid()
      modifies convergence
      ensures convergence.Valid()
      ensures convergence.history == old(convergence.history) + [TurnOf(cfg, View(), calls)]
      ensures decision == Convergence.Decide(convergence.history)
    {
      var last := LastObservations(work.observations, |calls|);
      decision := convergence.Observe(frame.iteration + 1, cfg.maxToolIterations, calls, last);
    }

    /** A model turn and the tool calls it asks for. */
    method TakeTurn(finalizing: bool) returns (calls: seq<ToolCall>)
      requires status == Running
      modifies this, permissions
      ensures (View(), calls) == RunLoop.TakeTurn(cfg, env, old(View()), finalizing)
    {
      var turn := RequestModelTurn();
      TakeAnswer(turn, finalizing);
      if status != Running {
        return [];
      }
      calls := turn.response.value.toolCalls;
      ExecuteTurn(calls);
    }

    /****** Segments ******/

    /** The first segment, from the state that initializeRun leaves. */
    method Run()
      modifies this, permissions
      ensures View() == RunLoop.Run(cfg, env, old(View()))
    {
      status := Running;
      journal := journal + [ActivityStarted];
      if !env.leased(checks) {
        CloseRun(Failed(LeaseAcquireFailed), TurnFailed);
        return;
      }
      var built := env.packet(checks);
      if built.None? {
        CloseRun(Failed(ContextPacketFailed), TurnFailed);
        return;
      }
      OpenRun(built.value);
      RunModelToolLoop();
    }

    method OpenRun(packet: Packet)
      requires status == Running
      modifies this`frame, this`work, this`journal
      ensures View() == Opened(old(View()), packet)
    {
      journal := journal + [ContextPacketCreated, AgentStarted];
      frame := frame.(packet := packet);
      work := AppendMessages(work, Initial(packet.input));
    }

    /** Rebuilds the state from a continuation. */
    method Restore(k: Continuation, resumeScope: Scope)
      modifies this`frame, this`work
      ensures View() == Restored(old(View()), k, resumeScope)
    {
      var iteration := k.iteration;
      if iteration <= 0 {
        iteration := 1;
      }
      frame := frame.(scope := resumeScope, packet := k.packet, plan := k.plan, iteration := iteration);
      work := work.(
        messages := k.messages, transcript := k.transcript, observations := k.observations, toolRounds := k.toolRounds);
      var added := [];
      if |k.pendingToolCalls| == 0 {
        added := [Message.Text("user", "Approval granted.")];
      } else if |k.messages| == 0 {
        added := Initial(k.packet.input);
      }
      work := AppendMessages(work, added);
    }

    /** Resumes by a decision as a caller spells it; what it does not recognise denies. */
    method ResumeApproval(approval: ApprovalId, decision: string, override: Scope) returns (error: Option<ResumeError>)
      modifies this, permissions
      ensures (View(), error) == Resume(cfg, env, old(View()), approval, NormalizeApprovalDecision(decision), override)
    {
      error := ResumeRun(approval, NormalizeApprovalDecision(decision), override);
    }

    /** Resolves an approval and goes on from its continuation, or ends the run denied. */
    method ResumeRun(approval: ApprovalId, decision: Decision, override: Scope) returns (error: Option<ResumeError>)
      modifies this, permissions
      ensures (View(), error) == Resume(cfg, env, old(View()), approval, decision, override)
    {
      var pending := if approval in permissions.records && permissions.records[approval].continuation.Some?
        then permissions.records[approval].continuation.value.pendingToolCalls else [];
      error := ReopenRun(approval, decision, override);
      if error.Some? || status != Running {
        return;
      }
      ContinueRun(pending);
    }

    /** Executes the pending calls and goes on with the loop. */
    method ContinueRun(pending: seq<ToolCall>)
      requires status == Running
      modifies this, permissions
      ensures View() == Continued(cfg, env, old(View()), pending)
    {
      if |pending| > 0 {
        ExecuteToolCallsWithPermission(pending, work.toolRounds);
        if status != Running {
          return;
        }
      }
      RunModelToolLoop();
    }

    method ReopenRun(approval: ApprovalId, decision: Decision, override: Scope) returns (error: Option<ResumeError>)
      modifies this, permissions
      ensures (View(), error) == Reopen(cfg, env, old(View()), approval, decision, override)
    {
      if approval !in permissions.records {
        return Some(NoSuchApproval);
      }
      var rec := permissions.records[approval];
      var resumeScope := ResumeScope(rec, override);
      if !ScopesAgree(ResolveScope(rec, NO_OVERRIDE), override) {
        return Some(ScopeMismatch);
      }
      if decision != Deny && rec.continuation.None? {
        return Some(NoContinuation);
      }
      var resolved, events := permissions.Settle(env.world(checks), approval, decision, resumeScope);
      checks := checks + 1;
      journal := journal + events;
      if resolved.Err? {
        return Some(NotResolved(resolved.error));
      }
      if decision == Deny {
        EndDenied();
        return None;
      }
      error := ReopenAllowed(rec.continuation.value, resumeScope);
    }

    method EndDenied()
      modifies this`status, this`journal
      ensures View() == DenyRun(env, Begin(old(View()), [ActivityStarted]))
    {
      status := Running;
      journal := journal + [ActivityStarted];
      CloseRun(DeniedRun, TurnFailed);
    }

    method ReopenAllowed(k: Continuation, resumeScope: Scope) returns (error: Option<ResumeError>)
      modifies this
      ensures (View(), error) == Reopened(cfg, env, old(View()), k, resumeScope)
    {
      if !Resumable(status) {
        return Some(NotResumable);
      }
      var refusal := SessionRefusal(env.world(checks), resumeScope.sessionId);
      checks := checks + 1;
      if refusal.Some? {
        return Some(NotAccepting(refusal.value));
      }
      if |k.pendingToolCalls| > 0 && !cfg.toolsConfigured {
        return Some(NoToolProvider);
      }
      Restore(k, resumeScope);
      status := Running;
      journal := journal + [ActivityStarted];
      if !env.leased(checks) {
        CloseRun(Failed(LeaseAcquireFailed), TurnFailed);
        return None;
      }
      journal := journal + [ContextPacketCreated];
      return None;
    }
  }
}
