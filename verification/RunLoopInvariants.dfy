/** What every step of a run keeps: the model sees exactly the window of the transcript, requested
    calls are executed once and in order or still pending, and only open sessions see side effects
    (pkg/rtagent/loop.go, loop_tools.go, approval_resume.go). */
module RunLoopInvariants {
  import opened Types
  import opened Wrappers
  import opened Permission
  import opened PermissionCenter
  import opened RunLoop
  import opened RunLoopConservation
  import Convergence
  import W = MessageWindow
  import Text

  /****** What holds of every run, however it is resumed ******/

  /** Whatever was sent to the model was the window of the transcript of that time. */
  predicate SentWindows(cfg: Config, sent: seq<Sent>) {
    forall k :: 0 <= k < |sent| ==> sent[k].messages == W.Window(sent[k].transcript, cfg.maxContextMessages)
  }

  /** A conversation and its transcript have the same window. */
  predicate Synced(cfg: Config, messages: seq<Message>, transcript: seq<Message>) {
    W.Window(messages, cfg.maxContextMessages) == W.Window(transcript, cfg.maxContextMessages)
  }

  /** Each executed call was invoked after passing a check that its session did not refuse. */
  predicate Safe(invoked: seq<Invocation>, executed: seq<ToolCall>) {
    && |invoked| == |executed|
    && forall k :: 0 <= k < |invoked| ==>
         invoked[k].call == executed[k] && CheckRefusal(invoked[k].world, invoked[k].check).None?
  }

  /** Calls that are prepared already, whatever run they are prepared for again. */
  ghost predicate Stable(cfg: Config, specs: seq<ToolSpec>, calls: seq<ToolCall>, round: nat) {
    forall runId :: Prepared(cfg, specs, calls, runId, round, 0) == calls
  }

  /** A continuation from which a run can go on. */
  ghost predicate Sound(cfg: Config, k: Continuation) {
    Synced(cfg, k.messages, k.transcript) && Stable(cfg, k.packet.toolSpecs, k.pendingToolCalls, k.toolRounds)
  }

  ghost predicate SoundRecord(cfg: Config, rec: Record) {
    rec.continuation.Some? ==> Sound(cfg, rec.continuation.value)
  }

  ghost predicate SoundRecords(cfg: Config, center: Center) {
    forall approval <- center.records :: SoundRecord(cfg, center.records[approval])
  }

  ghost predicate Core(cfg: Config, s: St) {
    && SentWindows(cfg, s.sent) && Synced(cfg, s.work.messages, s.work.transcript) && Safe(s.invoked, s.work.executed)
    && SoundRecords(cfg, s.center)
  }

  /****** What holds of runs that are resumed while they wait ******/

  predicate Grows(sent: seq<Sent>, transcript: seq<Message>) {
    forall k :: 0 <= k < |sent| ==> sent[k].transcript <= transcript
  }

  /** Executed and owed calls together are the requested ones, and the transcript has only grown. */
  predicate Owes(s: St, owed: seq<ToolCall>) {
    s.work.executed + owed == s.requested && Grows(s.sent, s.work.transcript)
  }

  /** A suspended run can be rebuilt from the record of its approval. */
  predicate OnRecord(s: St) {
    s.status.Suspended? ==>
      && s.status.approval in s.center.records
      && s.center.records[s.status.approval].continuation.Some?
      && s.center.records[s.status.approval].continuation.value == ContinuationOf(s, Pending(s, s.status.approval))
  }

  /** Requested calls are executed once, in order: all of them when the run completes, all but the
      pending ones when it is suspended, the first of them when it fails or is denied. */
  predicate Accounted(s: St) {
    && Grows(s.sent, s.work.transcript) && OnRecord(s)
    && match s.status
       case Suspended(approval) => s.work.executed + Pending(s, approval) == s.requested
       case Failed(_) => s.work.executed <= s.requested
       case DeniedRun => s.work.executed <= s.requested
       case _ => s.work.executed == s.requested
  }

  /****** Batches ******/

  lemma PerformKeeps(cfg: Config, env: Env, w: Work, call: ToolCall)
    requires Synced(cfg, w.messages, w.transcript)
    ensures
      var w' := Perform(env, w, call).0;
      && Synced(cfg, w'.messages, w'.transcript) && w.transcript <= w'.transcript
      && w'.executed == w.executed + [call] && w'.toolRounds == w.toolRounds
  {
    if env.tool(w.executed, call).Some? {
      W.SyncedAppend(w.messages, w.transcript, [ToolResult("tool", Observed(call, env.tool(w.executed, call).value))],
        cfg.maxContextMessages);
    }
  }

  lemma InvokeKeeps(cfg: Config, env: Env, s: St, s': St, call: ToolCall)
    requires Core(cfg, s') && s'.status == Running
    requires CheckRefusal(env.world(s.checks), CheckIn(cfg, s, call)).None?
    ensures
      var r := Invoke(cfg, env, s, s', call);
      && Core(cfg, r) && r.work.executed == s'.work.executed + [call] && s'.work.transcript <= r.work.transcript
      && (r.status == Running || r.status.Failed?)
  {
    PerformKeeps(cfg, env, s'.work, call);
  }

  lemma SuspendBatchKeeps(cfg: Config, s: St, approval: ApprovalId, pending: seq<ToolCall>)
    requires Core(cfg, s) && Stable(cfg, s.packet.toolSpecs, pending, s.work.toolRounds)
    ensures Core(cfg, SuspendBatch(s, approval, pending, s.work.toolRounds))
    ensures Owes(s, pending) && approval in s.center.records ==> Accounted(SuspendBatch(s, approval, pending, s.work.toolRounds))
  {
  }

  lemma PreparedStable(cfg: Config, specs: seq<ToolSpec>, calls: seq<ToolCall>, runId: string, round: nat, i: nat)
    requires Regular(cfg) && i <= |calls|
    ensures Stable(cfg, specs, Prepared(cfg, specs, calls, runId, round, i), round)
  {
    forall runId'
      ensures Prepared(cfg, specs, Prepared(cfg, specs, calls, runId, round, i), runId', round, 0)
        == Prepared(cfg, specs, calls, runId, round, i)
    {
      PreparedAgain(cfg, specs, calls, runId, runId', round, i, 0);
    }
  }

  /** A check changes neither the work nor a continuation on record. */
  lemma ConsultKeeps(cfg: Config, env: Env, s: St, call: ToolCall)
    requires Core(cfg, s)
    ensures
      var (s', verdict) := Consult(cfg, env, s, call);
      && Core(cfg, s') && s'.work == s.work && s'.frame == s.frame && s'.status == s.status
      && (verdict.Ok? && verdict.value.RequiresApproval? ==> verdict.value.approval in s'.center.records)
      && (verdict.Ok? ==> CheckRefusal(env.world(s.checks), CheckIn(cfg, s, call)).None?)
  {
  }

  /** The calls owed from index i of a batch on. */
  function Rest(cfg: Config, s: St, calls: seq<ToolCall>, i: nat): seq<ToolCall>
    requires i <= |calls|
  {
    Prepared(cfg, s.packet.toolSpecs, calls, s.scope.runId, s.work.toolRounds, i)
  }

  /** Where a step of a batch leads: in any case it keeps the frame; a run that owed what is left of the
      batch owes one call less, or is accounted for where it stops. */
  ghost predicate StepLeads(cfg: Config, s: St, r: St, calls: seq<ToolCall>, i: nat)
    requires i < |calls|
  {
    && Core(cfg, r) && r.frame == s.frame && r.work.toolRounds == s.work.toolRounds
    && (Owes(s, Rest(cfg, s, calls, i)) ==> if r.status == Running then Owes(r, Rest(cfg, s, calls, i + 1)) else Accounted(r))
  }

  lemma StepKeeps(cfg: Config, env: Env, s: St, calls: seq<ToolCall>, i: nat)
    requires Regular(cfg) && s.status == Running && i < |calls| && Core(cfg, s)
    ensures StepLeads(cfg, s, BatchStep(cfg, env, s, calls, s.work.toolRounds, i), calls, i)
  {
    var call := cfg.rules.prepare(s.packet.toolSpecs, calls[i], s.scope.runId, s.work.toolRounds, i);
    var rest := Rest(cfg, s, calls, i + 1);
    assert s.work.executed + ([call] + rest) == s.work.executed + [call] + rest;
    if cfg.rules.valid(s.packet.toolSpecs, call) {
      var (s', verdict) := Consult(cfg, env, s, call);
      ConsultKeeps(cfg, env, s, call);
      if verdict.Ok? && verdict.value.RequiresApproval? {
        PreparedStable(cfg, s.packet.toolSpecs, calls, s.scope.runId, s.work.toolRounds, i);
        SuspendBatchKeeps(cfg, s', verdict.value.approval, [call] + rest);
      } else if verdict.Ok? && verdict.value.Allowed? {
        InvokeKeeps(cfg, env, s, s', call);
      }
    }
  }

  /** Where a batch leads from index i on. */
  ghost predicate BatchLeads(cfg: Config, s: St, r: St, calls: seq<ToolCall>, i: nat)
    requires i <= |calls|
  {
    && Core(cfg, r) && r.frame == s.frame
    && (Owes(s, Rest(cfg, s, calls, i)) ==> Accounted(r))
  }

  lemma {:induction false} BatchKeeps(cfg: Config, env: Env, s: St, calls: seq<ToolCall>, round: nat, i: nat, r: St)
    requires Regular(cfg) && s.status == Running && i <= |calls| && Core(cfg, s) && s.work.toolRounds == round
    requires r == Batch(cfg, env, s, calls, round, i)
    ensures BatchLeads(cfg, s, r, calls, i)
    decreases |calls| - i
  {
    if i < |calls| {
      StepKeeps(cfg, env, s, calls, i);
      var s' := BatchStep(cfg, env, s, calls, round, i);
      if s'.status == Running {
        BatchKeeps(cfg, env, s', calls, round, i + 1, r);
      }
    }
  }

  /****** The loop ******/

  /** A state between the steps of the loop. */
  ghost predicate Between(cfg: Config, s: St) {
    s.status == Running && Core(cfg, s)
  }

  lemma AppendKeeps(cfg: Config, w: Work, added: seq<Message>)
    requires Synced(cfg, w.messages, w.transcript)
    ensures
      var w' := AppendMessages(w, added);
      Synced(cfg, w'.messages, w'.transcript) && w.transcript <= w'.transcript
  {
    W.SyncedAppend(w.messages, w.transcript, added, cfg.maxContextMessages);
  }

  /** Trimming keeps the window. */
  lemma WindowOfWindow(messages: seq<Message>, max: int)
    ensures W.Window(W.Window(messages, max), max) == W.Window(messages, max)
  {
    var none: seq<Message> := [];
    assert messages + none == messages && W.Window(messages, max) + none == W.Window(messages, max);
    W.IncrementalTrim(messages, none, max);
  }

  /** The next state of the loop is sound, and accounted for if this one is. */
  ghost predicate Leads(cfg: Config, s: St, r: St) {
    Core(cfg, r) && (Accounted(s) ==> Accounted(r))
  }

  lemma RequestTurnKeeps(cfg: Config, env: Env, s: St)
    requires Between(cfg, s)
    ensures Between(cfg, RequestTurn(cfg, env, s)) && Leads(cfg, s, RequestTurn(cfg, env, s))
  {
    WindowOfWindow(s.work.messages, cfg.maxContextMessages);
    var r := RequestTurn(cfg, env, s);
    assert r.sent == s.sent + [Sent(W.Window(s.work.messages, cfg.maxContextMessages), s.work.transcript)];
  }

  lemma RespondKeeps(cfg: Config, s: St, response: Response)
    requires Between(cfg, s)
    ensures Between(cfg, Respond(s, response)) && Leads(cfg, s, Respond(s, response))
  {
    AppendKeeps(cfg, s.work, AssistantMessages(response));
  }

  lemma SuspendForModelKeeps(cfg: Config, s: St, ask: ApprovalAsk)
    requires Between(cfg, s)
    ensures Leads(cfg, s, SuspendForModel(cfg, s, ask))
  {
    assert s.work.executed + [] == s.work.executed;
  }

  lemma AnswerKeeps(cfg: Config, env: Env, s: St, turn: ModelTurn, finalizing: bool)
    requires Between(cfg, s)
    ensures Leads(cfg, s, Answer(cfg, env, s, turn, finalizing))
    ensures Answer(cfg, env, s, turn, finalizing).status == Running ==>
      turn.response.Some? && !finalizing && s.work.toolRounds < cfg.maxToolIterations
  {
    if turn.response.Some? && !finalizing {
      RespondKeeps(cfg, s, turn.response.value);
      if turn.response.value.ask.Some? {
        SuspendForModelKeeps(cfg, Respond(s, turn.response.value), turn.response.value.ask.value);
      }
    }
  }

  lemma ActKeeps(cfg: Config, env: Env, s: St, calls: seq<ToolCall>)
    requires Regular(cfg) && Between(cfg, s)
    ensures Leads(cfg, s, Act(cfg, env, s, calls))
  {
    BatchKeeps(cfg, env, Requesting(cfg, s, calls), calls, s.work.toolRounds, 0, Act(cfg, env, s, calls));
  }

  lemma SteerKeeps(cfg: Config, s: St, d: Convergence.Decision)
    requires Between(cfg, s)
    ensures Between(cfg, Steer(s, d)) && Leads(cfg, s, Steer(s, d))
  {
    if !d.Continue? {
      AppendKeeps(cfg, s.work, [SteeringMessage(d)]);
    }
  }

  lemma TakeTurnKeeps(cfg: Config, env: Env, s: St, finalizing: bool)
    requires Regular(cfg) && Between(cfg, s)
    ensures Leads(cfg, s, TakeTurn(cfg, env, s, finalizing).0)
  {
    var turn := env.model(s.turns);
    var asked := RequestTurn(cfg, env, s);
    RequestTurnKeeps(cfg, env, s);
    AnswerKeeps(cfg, env, asked, turn, finalizing);
    var answered := Answer(cfg, env, asked, turn, finalizing);
    if answered.status == Running {
      ActKeeps(cfg, env, answered, turn.response.value.toolCalls);
    }
  }

  lemma {:induction false} LoopKeeps(cfg: Config, env: Env, s: St, history: seq<Convergence.Turn>, finalizing: bool, r: St)
    requires Regular(cfg) && Between(cfg, s) && r == Loop(cfg, env, s, history, finalizing)
    ensures Leads(cfg, s, r)
    decreases if s.work.toolRounds < cfg.maxToolIterations then cfg.maxToolIterations - s.work.toolRounds else 0
  {
    TakeTurnKeeps(cfg, env, s, finalizing);
    var (acted, calls) := TakeTurn(cfg, env, s, finalizing);
    if acted.status == Running {
      var history' := history + [TurnOf(cfg, acted, calls)];
      var decision := Convergence.Decide(history');
      SteerKeeps(cfg, acted, decision);
      LoopKeeps(cfg, env, Steer(acted, decision), history', decision.Finalize?, r);
    }
  }

  lemma EnterLoopKeeps(cfg: Config, env: Env, s: St)
    requires Regular(cfg) && Between(cfg, s)
    ensures Leads(cfg, s, EnterLoop(cfg, env, s))
  {
    AppendKeeps(cfg, s.work, Initial(s.packet.input));
    LoopKeeps(cfg, env, Entered(s), [], false, EnterLoop(cfg, env, s));
  }

  lemma RunKeeps(cfg: Config, env: Env, created: St)
    requires Regular(cfg) && Between(cfg, created)
    ensures Leads(cfg, created, Run(cfg, env, created))
  {
    var s := Begin(created, [ActivityStarted]);
    if env.leased(s.checks) && env.packet(s.checks).Some? {
      var packet := env.packet(s.checks).value;
      AppendKeeps(cfg, s.work, Initial(packet.input));
      EnterLoopKeeps(cfg, env, Opened(s, packet));
    }
  }

  /****** Resumption ******/

  lemma RestoredKeeps(cfg: Config, s: St, k: Continuation, scope: Scope)
    requires Core(cfg, s) && Sound(cfg, k)
    ensures Core(cfg, Restored(s, k, scope)) && Restored(s, k, scope).work.executed == s.work.executed
    ensures Restored(s, k, scope).work.toolRounds == k.toolRounds && Restored(s, k, scope).packet == k.packet
  {
    AppendKeeps(cfg, s.work.(messages := k.messages, transcript := k.transcript, observations := k.observations, toolRounds := k.toolRounds),
      if k.pendingToolCalls == [] then [Message.Text("user", "Approval granted.")]
      else if k.messages == [] then Initial(k.packet.input)
      else []);
  }

  /** Status, journal and looks at the world have no part in it. */
  lemma SameCore(cfg: Config, s: St, r: St)
    requires Core(cfg, s) && r.sent == s.sent && r.work == s.work && r.invoked == s.invoked && r.center == s.center
    ensures Core(cfg, r)
  {
  }

  lemma ReopenedKeeps(cfg: Config, env: Env, s: St, k: Continuation, scope: Scope)
    requires Core(cfg, s) && Sound(cfg, k)
    ensures
      var (r, error) := Reopened(cfg, env, s, k, scope);
      && Core(cfg, r) && r.work.executed == s.work.executed
      && (error.None? && r.status == Running ==> r.work.toolRounds == k.toolRounds && r.packet == k.packet)
  {
    var restored := Restored(Looked(s), k, scope);
    SameCore(cfg, s, Looked(s));
    RestoredKeeps(cfg, Looked(s), k, scope);
    SameCore(cfg, restored, FailRun(env, Begin(restored, [ActivityStarted]), LeaseAcquireFailed));
    SameCore(cfg, restored, Begin(Begin(restored, [ActivityStarted]), [ContextPacketCreated]));
  }

  lemma ResolvedKeeps(cfg: Config, s: St, w: World, approval: ApprovalId, d: Decision, scope: Scope)
    requires Core(cfg, s)
    ensures
      var (center, _, events) := ResolveSpec(s.center, w, approval, d, scope);
      Core(cfg, Resolved(s, center, events))
  {
    var center := ResolveSpec(s.center, w, approval, d, scope).0;
    forall a | a in center.records
      ensures SoundRecord(cfg, center.records[a])
    {
      assert SoundRecord(cfg, s.center.records[a]);
    }
  }

  lemma ReopenKeeps(cfg: Config, env: Env, s: St, approval: ApprovalId, d: Decision, override: Scope)
    requires Core(cfg, s)
    ensures
      var (r, error) := Reopen(cfg, env, s, approval, d, override);
      && Core(cfg, r)
      && (error.None? && r.status == Running ==> Stable(cfg, r.packet.toolSpecs, Pending(s, approval), r.work.toolRounds))
  {
    if approval in s.center.records {
      var rec := s.center.records[approval];
      var scope := ResumeScope(rec, override);
      assert SoundRecord(cfg, rec);
      var (center, resolved, events) := ResolveSpec(s.center, env.world(s.checks), approval, d, scope);
      ResolvedKeeps(cfg, s, env.world(s.checks), approval, d, scope);
      if rec.continuation.Some? {
        ReopenedKeeps(cfg, env, Resolved(s, center, events), rec.continuation.value, scope);
      }
    }
  }

  lemma ContinuedKeeps(cfg: Config, env: Env, s: St, pending: seq<ToolCall>)
    requires Regular(cfg) && Between(cfg, s) && Stable(cfg, s.packet.toolSpecs, pending, s.work.toolRounds)
    ensures Core(cfg, Continued(cfg, env, s, pending))
    ensures Owes(s, pending) ==> Accounted(Continued(cfg, env, s, pending))
  {
    assert s.work.executed + [] == s.work.executed;
    if pending == [] {
      EnterLoopKeeps(cfg, env, s);
    } else {
      assert Prepared(cfg, s.packet.toolSpecs, pending, s.scope.runId, s.work.toolRounds, 0) == pending;
      var acted := Batch(cfg, env, s, pending, s.work.toolRounds, 0);
      BatchKeeps(cfg, env, s, pending, s.work.toolRounds, 0, acted);
      if acted.status == Running {
        EnterLoopKeeps(cfg, env, acted);
      }
    }
  }

  /** Resolving any approval on record, whatever became of the run meanwhile. */
  lemma ResumeKeeps(cfg: Config, env: Env, s: St, approval: ApprovalId, d: Decision, override: Scope)
    requires Regular(cfg) && Core(cfg, s)
    ensures Core(cfg, Resume(cfg, env, s, approval, d, override).0)
  {
    ReopenKeeps(cfg, env, s, approval, d, override);
    var (r, error) := Reopen(cfg, env, s, approval, d, override);
    if error.None? && r.status == Running {
      ContinuedKeeps(cfg, env, r, Pending(s, approval));
    }
  }

  /** Reopening a run that waits, by the approval it waits for. */
  lemma ReopenOwes(cfg: Config, env: Env, s: St, d: Decision, override: Scope)
    requires Accounted(s) && s.status.Suspended?
    ensures
      var pending := Pending(s, s.status.approval);
      var (r, error) := Reopen(cfg, env, s, s.status.approval, d, override);
      && (error.None? && r.status == Running ==> Owes(r, pending))
      && (error.None? && r.status != Running ==> Accounted(r))
      && (error.Some? ==> Accounted(r))
  {
    var rec := s.center.records[s.status.approval];
    var scope := ResumeScope(rec, override);
    var (center, resolved, events) := ResolveSpec(s.center, env.world(s.checks), s.status.approval, d, scope);
    ResolvedAccounts(s, env.world(s.checks), d, scope);
    ReopenedOwes(cfg, env, Resolved(s, center, events), rec.continuation.value, scope);
  }

  lemma ResolvedAccounts(s: St, w: World, d: Decision, scope: Scope)
    requires Accounted(s) && s.status.Suspended?
    ensures
      var (center, _, events) := ResolveSpec(s.center, w, s.status.approval, d, scope);
      var r := Resolved(s, center, events);
      Accounted(r) && r.center.records[r.status.approval].continuation == s.center.records[s.status.approval].continuation
  {
  }

  lemma ReopenedOwes(cfg: Config, env: Env, s: St, k: Continuation, scope: Scope)
    requires Accounted(s) && s.status.Suspended? && s.center.records[s.status.approval].continuation == Some(k)
    ensures
      var (r, error) := Reopened(cfg, env, s, k, scope);
      if error.None? && r.status == Running then Owes(r, k.pendingToolCalls) else Accounted(r)
  {
    assert k == ContinuationOf(s, k.pendingToolCalls);
    RestoredOwes(s, k, scope);
  }

  lemma RestoredOwes(s: St, k: Continuation, scope: Scope)
    requires Grows(s.sent, s.work.transcript) && k.transcript == s.work.transcript
    ensures
      var r := Restored(s, k, scope);
      Grows(r.sent, r.work.transcript) && r.work.executed == s.work.executed && r.requested == s.requested
  {
  }

  lemma ResumeAccounts(cfg: Config, env: Env, s: St, d: Decision, override: Scope)
    requires Regular(cfg) && Core(cfg, s) && Accounted(s) && s.status.Suspended?
    ensures Accounted(Resume(cfg, env, s, s.status.approval, d, override).0)
  {
    ReopenKeeps(cfg, env, s, s.status.approval, d, override);
    ReopenOwes(cfg, env, s, d, override);
    var (r, error) := Reopen(cfg, env, s, s.status.approval, d, override);
    if error.None? && r.status == Running {
      ContinuedKeeps(cfg, env, r, Pending(s, s.status.approval));
    }
  }

  /****** Whole runs ******/

  /** The ruling on an approval, which resumes the run or is refused. */
  datatype Ruling = Ruling(approval: ApprovalId, decision: Decision, override: Scope)

  function Ruled(cfg: Config, env: Env, s: St, a: Ruling): (St, Option<ResumeError>) {
    Resume(cfg, env, s, a.approval, a.decision, a.override)
  }

  /** The further life of a run: rulings on any approvals on record, whether the run waits for them,
      waits for another one, or has ended. */
  function Life(cfg: Config, env: Env, s: St, rulings: seq<Ruling>): St
    decreases |rulings|
  {
    if rulings == [] then s else Life(cfg, env, Ruled(cfg, env, s, rulings[0]).0, rulings[1..])
  }

  /** Every ruling is on the approval that the run waits for. */
  predicate Orderly(cfg: Config, env: Env, s: St, rulings: seq<Ruling>)
    decreases |rulings|
  {
    rulings == [] ||
      (s.status == Suspended(rulings[0].approval) && Orderly(cfg, env, Ruled(cfg, env, s, rulings[0]).0, rulings[1..]))
  }

  lemma {:induction false} LifeKeeps(cfg: Config, env: Env, s: St, rulings: seq<Ruling>)
    requires Regular(cfg) && Core(cfg, s)
    ensures Core(cfg, Life(cfg, env, s, rulings))
    ensures Accounted(s) && Orderly(cfg, env, s, rulings) ==> Accounted(Life(cfg, env, s, rulings))
    decreases |rulings|
  {
    if rulings != [] {
      var a := rulings[0];
      ResumeKeeps(cfg, env, s, a.approval, a.decision, a.override);
      if Accounted(s) && Orderly(cfg, env, s, rulings) {
        ResumeAccounts(cfg, env, s, a.decision, a.override);
      }
      LifeKeeps(cfg, env, Ruled(cfg, env, s, a).0, rulings[1..]);
    }
  }

  /** The first segment of a run. */
  function Started(cfg: Config, env: Env, scope: Scope, center: Center, newSession: bool): St {
    Run(cfg, env, Created(scope, center, newSession))
  }

  function WholeRun(cfg: Config, env: Env, scope: Scope, center: Center, newSession: bool, rulings: seq<Ruling>): St {
    Life(cfg, env, Started(cfg, env, scope, center, newSession), rulings)
  }

  /** Every run keeps the center's continuations sound, so runs may follow one another on one center. */
  lemma WholeRunKeeps(cfg: Config, env: Env, scope: Scope, center: Center, newSession: bool, rulings: seq<Ruling>)
    requires Regular(cfg) && SoundRecords(cfg, center)
    ensures Core(cfg, WholeRun(cfg, env, scope, center, newSession, rulings))
    ensures Orderly(cfg, env, Started(cfg, env, scope, center, newSession), rulings) ==>
      Accounted(WholeRun(cfg, env, scope, center, newSession, rulings))
  {
    RunKeeps(cfg, env, Created(scope, center, newSession));
    LifeKeeps(cfg, env, Started(cfg, env, scope, center, newSession), rulings);
  }

  predicate EndsAlike(a: seq<Message>, b: seq<Message>) {
    a != [] ==> b != [] && b[|b| - 1] == a[|a| - 1]
  }

  /** Every model request of a whole run, whatever approvals are ruled on and when, carries exactly the
      window of the untrimmed transcript and ends with its last message; where rulings are on the approvals
      waited for, the transcript only grows. */
  lemma ModelSeesTheWindow(cfg: Config, env: Env, scope: Scope, center: Center, newSession: bool, rulings: seq<Ruling>)
    requires Regular(cfg) && SoundRecords(cfg, center)
    ensures
      var r := WholeRun(cfg, env, scope, center, newSession, rulings);
      && (forall k :: 0 <= k < |r.sent| ==>
            r.sent[k].messages == W.Window(r.sent[k].transcript, cfg.maxContextMessages)
            && EndsAlike(r.sent[k].transcript, r.sent[k].messages))
      && (Orderly(cfg, env, Started(cfg, env, scope, center, newSession), rulings) ==>
            forall k :: 0 <= k < |r.sent| ==> r.sent[k].transcript <= r.work.transcript)
  {
    WholeRunKeeps(cfg, env, scope, center, newSession, rulings);
    var sent := WholeRun(cfg, env, scope, center, newSession, rulings).sent;
    forall k | 0 <= k < |sent|
      ensures EndsAlike(sent[k].transcript, sent[k].messages)
    {
      assert sent[k].messages == W.Window(sent[k].transcript, cfg.maxContextMessages);
      W.WindowIsRecent(sent[k].transcript, cfg.maxContextMessages);
    }
  }

  predicate InOpenSession(i: Invocation) {
    var session := Text.Trim(i.check.subject.scope.sessionId);
    i.check.readOnly || session == "" || session !in i.world.sessions || i.world.sessions[session] == Active
  }

  /** No tool call with side effects is ever invoked once the session has been seen closed, whatever
      approvals are ruled on and when: at the check right before each invocation the session was unknown
      or active. */
  lemma InvokedInOpenSession(cfg: Config, env: Env, scope: Scope, center: Center, newSession: bool, rulings: seq<Ruling>)
    requires Regular(cfg) && SoundRecords(cfg, center)
    ensures
      var invoked := WholeRun(cfg, env, scope, center, newSession, rulings).invoked;
      forall k :: 0 <= k < |invoked| ==> InOpenSession(invoked[k])
  {
    WholeRunKeeps(cfg, env, scope, center, newSession, rulings);
    var invoked := WholeRun(cfg, env, scope, center, newSession, rulings).invoked;
    forall k | 0 <= k < |invoked|
      ensures InOpenSession(invoked[k])
    {
      assert CheckRefusal(invoked[k].world, invoked[k].check).None?;
    }
  }
}
