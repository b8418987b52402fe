/** The journal of a run is accepted by one automaton (pkg/rtagent/loop.go, loop_tools.go,
    loop_outcomes.go, permission_center_events.go). */
module RunLoopJournal {
  import opened Types
  import opened Wrappers
  import opened Permission
  import opened PermissionCenter
  import opened RunLoop
  import opened RunLoopConservation
  import opened RunLoopInvariants
  import Convergence
  import MessageWindow
  import Text

  datatype Phase =
    | Start | SessionKnown | Initialized
    | Apart      // between segments, for a run that waits or after a resolution
    | Begun | Packed | Idle | Compacted
    | Asking | Answered | Planned
    | Requested | Granted | Refused
    | Invoked | Worked | Broken
    | Finalized | Closing | Closed | Ended
    | Rejected

  /** Phases in which a tool call may be taken up. */
  predicate Live(p: Phase) {
    p == Packed || p == Answered || p == Planned || p == Worked
  }

  /** Phases in which a model turn may be taken up. */
  predicate AtTop(p: Phase) {
    p == Packed || p == Idle || p == Worked
  }

  /** Phases between segments, in which an approval may be resolved and a segment may begin. */
  predicate Rests(p: Phase) {
    p == Apart || p == Closed || p == Ended
  }

  function When(enabled: bool, p: Phase): Phase {
    if enabled then p else Rejected
  }

  /** For each kind of event, the phases that allow it and the phase it leads to. */
  function Next(p: Phase, k: EventKind): Phase {
    match k
    case SessionStarted => When(p == Start, SessionKnown)
    case RunCreated => When(p == Start || p == SessionKnown, Initialized)
    case TurnStarted => When(p == Initialized, Apart)
    case ActivityStarted => When(Rests(p), Begun)
    case ContextPacketCreated => When(p == Begun, Packed)
    case AgentStarted => When(p == Packed, Idle)
    case ContextCompacted => When(AtTop(p), Compacted)
    case ModelRequested => When(AtTop(p) || p == Compacted, Asking)
    case ModelDelta => When(p == Asking, Asking)
    case ModelResponded => When(p == Asking, Answered)
    case PlanProposed => When(p == Answered, Planned)
    case PermissionRequested => When(Live(p), Requested)
    case PermissionGranted => if Rests(p) then Apart else When(Live(p), Granted)
    case PermissionDenied => if Rests(p) then Apart else When(Live(p), Refused)
    case ToolInvoked => When(p == Granted, Invoked)
    case ToolSucceeded => When(p == Invoked, Worked)
    case ToolFailed => When(p == Invoked, Broken)
    case RunHeartbeat => When(p == Worked, Idle)
    case TurnCompleted => if p == Asking then Finalized else When(p == Finalized || p == Answered || p == Planned, Closing)
    case TurnFailed => When(p == Begun || p == Asking || p == Refused || p == Broken || Live(p), Closing)
    case ActivityCompleted => if p == Requested then Apart else When(p == Closing, Closed)
    case SessionEnded => When(p == Closed, Ended)
    case _ => Rejected
  }

  predicate Follows(at: (seq<EventKind>, Phase) -> bool, journal: seq<EventKind>, p: Phase, k: EventKind) {
    at(journal, p) && Next(p, k) != Rejected ==> at(journal + [k], Next(p, k))
  }

  /** A relation that follows the automaton: it holds at the start and along every allowed event. */
  ghost predicate Tracks(at: (seq<EventKind>, Phase) -> bool) {
    at([], Start) && forall journal, p, k :: Follows(at, journal, p, k)
  }

  lemma Append(at: (seq<EventKind>, Phase) -> bool, journal: seq<EventKind>, p: Phase, k: EventKind)
    requires Tracks(at) && at(journal, p) && Next(p, k) != Rejected
    ensures at(journal + [k], Next(p, k))
  {
    assert Follows(at, journal, p, k);
  }

  lemma AppendTwo(at: (seq<EventKind>, Phase) -> bool, journal: seq<EventKind>, p: Phase, k: EventKind, l: EventKind)
    requires Tracks(at) && at(journal, p) && Next(p, k) != Rejected && Next(Next(p, k), l) != Rejected
    ensures at(journal + [k, l], Next(Next(p, k), l))
  {
    Append(at, journal, p, k);
    Append(at, journal + [k], Next(p, k), l);
    assert journal + [k, l] == journal + [k] + [l];
  }

  lemma {:induction false} AppendRepeat(at: (seq<EventKind>, Phase) -> bool, journal: seq<EventKind>, n: nat)
    requires Tracks(at) && at(journal, Asking)
    ensures at(journal + Repeat(ModelDelta, n), Asking)
  {
    if n == 0 {
      assert journal + Repeat(ModelDelta, n) == journal;
    } else {
      AppendRepeat(at, journal, n - 1);
      Append(at, journal + Repeat(ModelDelta, n - 1), Asking, ModelDelta);
      assert journal + Repeat(ModelDelta, n) == journal + Repeat(ModelDelta, n - 1) + [ModelDelta];
    }
  }

  /****** The loop stays within the automaton ******/

  /** The phases for a status: the given one while the run goes on, between segments when it waits,
      at the end otherwise. */
  predicate Fits(status: Status, p: Phase, q: Phase) {
    match status
    case Running => q == p
    case Suspended(_) => q == Apart
    case _ => q == Closed || q == Ended
  }

  /** Where the journal of a run stands. */
  ghost predicate Placed(at: (seq<EventKind>, Phase) -> bool, s: St, p: Phase) {
    exists q :: at(s.journal, q) && Fits(s.status, p, q)
  }

  /** The journal of a run that is closed with an event. */
  function ClosedJournal(env: Env, journal: seq<EventKind>, kind: EventKind): seq<EventKind> {
    journal + [kind, ActivityCompleted] + (if env.drained(|journal|) then [SessionEnded] else [])
  }

  lemma JournalCloses(at: (seq<EventKind>, Phase) -> bool, env: Env, journal: seq<EventKind>, p: Phase, kind: EventKind)
    requires Tracks(at) && at(journal, p) && Next(p, kind) == Closing
    ensures at(ClosedJournal(env, journal, kind), if env.drained(|journal|) then Ended else Closed)
  {
    AppendTwo(at, journal, p, kind, ActivityCompleted);
    if env.drained(|journal|) {
      Append(at, journal + [kind, ActivityCompleted], Closed, SessionEnded);
    } else {
      assert journal + [kind, ActivityCompleted] + [] == journal + [kind, ActivityCompleted];
    }
  }

  lemma PlacedOver(at: (seq<EventKind>, Phase) -> bool, s: St, p: Phase, q: Phase)
    requires at(s.journal, q) && (q == Closed || q == Ended) && !s.status.Running? && !s.status.Suspended?
    ensures Placed(at, s, p)
  {
  }

  lemma ClosePlaced(at: (seq<EventKind>, Phase) -> bool, env: Env, s: St, p: Phase, status: Status, kind: EventKind)
    requires Tracks(at) && at(s.journal, p) && Next(p, kind) == Closing && !status.Running? && !status.Suspended?
    ensures Placed(at, Close(env, s, status, kind), p)
  {
    JournalCloses(at, env, s.journal, p, kind);
    PlacedOver(at, Close(env, s, status, kind), p, if env.drained(|s.journal|) then Ended else Closed);
  }

  /** Where a permission check leads, and the event it appends. */
  function Asked(p: Phase, verdict: Result<Verdict, PermissionError>): Phase {
    if verdict.Err? then p
    else if verdict.value.Allowed? then Granted
    else if verdict.value.Denied? then Refused
    else Requested
  }

  function Notes(verdict: Result<Verdict, PermissionError>): seq<EventKind> {
    if verdict.Err? then []
    else if verdict.value.Allowed? then [PermissionGranted]
    else if verdict.value.Denied? then [PermissionDenied]
    else [PermissionRequested]
  }

  lemma NotesPlaced(at: (seq<EventKind>, Phase) -> bool, journal: seq<EventKind>, p: Phase, verdict: Result<Verdict, PermissionError>)
    requires Tracks(at) && at(journal, p) && Live(p)
    ensures at(journal + Notes(verdict), Asked(p, verdict))
  {
    if verdict.Err? {
      assert journal + [] == journal;
    } else if verdict.value.Allowed? {
      Append(at, journal, p, PermissionGranted);
    } else if verdict.value.Denied? {
      Append(at, journal, p, PermissionDenied);
    } else {
      Append(at, journal, p, PermissionRequested);
    }
  }

  lemma ConsultNotes(cfg: Config, env: Env, s: St, call: ToolCall)
    requires !Text.Blank(s.scope.runId)
    ensures
      var (s', verdict) := Consult(cfg, env, s, call);
      s'.journal == s.journal + Notes(verdict) && s'.status == s.status && s'.scope == s.scope
  {
  }

  /** The journal of a run that has just invoked a tool. */
  function InvokedJournal(env: Env, journal: seq<EventKind>, answered: bool): seq<EventKind> {
    if answered then journal + [ToolInvoked, ToolSucceeded]
    else ClosedJournal(env, journal + [ToolInvoked, ToolFailed], TurnFailed)
  }

  lemma InvokedJournalIs(cfg: Config, env: Env, s: St, s': St, call: ToolCall)
    requires s'.status == Running
    ensures
      var r, answered := Invoke(cfg, env, s, s', call), Perform(env, s'.work, call).1;
      r.journal == InvokedJournal(env, s'.journal, answered) && r.status == if answered then Running else Failed(ToolCallFailed)
  {
  }

  lemma InvokedPlaced(at: (seq<EventKind>, Phase) -> bool, env: Env, journal: seq<EventKind>, answered: bool, r: St)
    requires Tracks(at) && at(journal, Granted) && r.journal == InvokedJournal(env, journal, answered)
    requires r.status == if answered then Running else Failed(ToolCallFailed)
    ensures Placed(at, r, Worked)
  {
    if answered {
      AppendTwo(at, journal, Granted, ToolInvoked, ToolSucceeded);
      assert at(r.journal, Worked);
    } else {
      AppendTwo(at, journal, Granted, ToolInvoked, ToolFailed);
      JournalCloses(at, env, journal + [ToolInvoked, ToolFailed], Broken, TurnFailed);
      PlacedOver(at, r, Worked, if env.drained(|journal + [ToolInvoked, ToolFailed]|) then Ended else Closed);
    }
  }

  lemma InvokePlaced(at: (seq<EventKind>, Phase) -> bool, cfg: Config, env: Env, s: St, s': St, call: ToolCall)
    requires Tracks(at) && at(s'.journal, Granted) && s'.status == Running
    ensures Placed(at, Invoke(cfg, env, s, s', call), Worked)
  {
    InvokedJournalIs(cfg, env, s, s', call);
    InvokedPlaced(at, env, s'.journal, Perform(env, s'.work, call).1, Invoke(cfg, env, s, s', call));
  }

  /** The rest of a step, once its call was checked. */
  lemma VerdictPlaced(at: (seq<EventKind>, Phase) -> bool, cfg: Config, env: Env, s: St, s': St, p: Phase, call: ToolCall,
                      pending: seq<ToolCall>, round: nat, verdict: Result<Verdict, PermissionError>)
    requires Tracks(at) && Live(p) && at(s'.journal, Asked(p, verdict)) && s'.status == Running
    ensures verdict.Err? ==> Placed(at, FailRun(env, s', PermissionCheckFailed), Worked)
    ensures verdict.Ok? && verdict.value.Denied? ==> Placed(at, DenyRun(env, s'), Worked)
    ensures verdict.Ok? && verdict.value.RequiresApproval? ==> Placed(at, SuspendBatch(s', verdict.value.approval, pending, round), Worked)
    ensures verdict.Ok? && verdict.value.Allowed? ==> Placed(at, Invoke(cfg, env, s, s', call), Worked)
  {
    if verdict.Err? {
      ClosePlaced(at, env, s', p, Failed(PermissionCheckFailed), TurnFailed);
    } else if verdict.value.Denied? {
      ClosePlaced(at, env, s', Refused, DeniedRun, TurnFailed);
    } else if verdict.value.RequiresApproval? {
      Append(at, s'.journal, Requested, ActivityCompleted);
    } else {
      InvokePlaced(at, cfg, env, s, s', call);
    }
  }

  lemma StepPlaced(at: (seq<EventKind>, Phase) -> bool, cfg: Config, env: Env, s: St, p: Phase, calls: seq<ToolCall>, round: nat, i: nat)
    requires Tracks(at) && at(s.journal, p) && Live(p) && s.status == Running && i < |calls| && !Text.Blank(s.scope.runId)
    ensures Placed(at, BatchStep(cfg, env, s, calls, round, i), Worked)
  {
    var call := cfg.rules.prepare(s.packet.toolSpecs, calls[i], s.scope.runId, round, i);
    if !cfg.rules.valid(s.packet.toolSpecs, call) {
      ClosePlaced(at, env, s, p, Failed(ToolSchemaValidationFailed), TurnFailed);
    } else {
      var (s', verdict) := Consult(cfg, env, s, call);
      ConsultNotes(cfg, env, s, call);
      NotesPlaced(at, s.journal, p, verdict);
      VerdictPlaced(at, cfg, env, s, s', p, call, Prepared(cfg, s.packet.toolSpecs, calls, s.scope.runId, round, i), round, verdict);
    }
  }

  lemma StepScope(cfg: Config, env: Env, s: St, calls: seq<ToolCall>, round: nat, i: nat)
    requires i < |calls|
    ensures BatchStep(cfg, env, s, calls, round, i).scope == s.scope
  {
  }

  /** A step taken up in a live phase leads to where it should, in the same scope. */
  ghost predicate StepLands(at: (seq<EventKind>, Phase) -> bool, s: St, r: St) {
    (exists p :: at(s.journal, p) && Live(p)) && !Text.Blank(s.scope.runId) ==> Placed(at, r, Worked) && r.scope == s.scope
  }

  lemma {:induction false} TrailPlaced(at: (seq<EventKind>, Phase) -> bool, keeps: (St, nat, St) -> bool, p: Phase, i: nat,
                                       states: seq<St>, n: nat)
    requires Trail(keeps, i, states) && n < |states| && (forall x, k: nat, y :: keeps(x, k, y) ==> StepLands(at, x, y))
    requires at(states[0].journal, p) && Live(p) && !Text.Blank(states[0].scope.runId)
    ensures states[n].scope == states[0].scope && (n > 0 ==> Placed(at, states[n], Worked))
  {
    if n > 0 {
      TrailPlaced(at, keeps, p, i, states, n - 1);
      assert TrailStep(keeps, i, states, n);
      assert StepLands(at, states[n - 1], states[n]);
      if n == 1 {
        assert at(states[0].journal, p) && Live(p);
      } else {
        var q :| at(states[n - 1].journal, q) && Fits(states[n - 1].status, Worked, q);
        assert at(states[n - 1].journal, Worked) && Live(Worked);
      }
    }
  }

  lemma StepsLand(at: (seq<EventKind>, Phase) -> bool, cfg: Config, env: Env, s: St, calls: seq<ToolCall>, round: nat, k: nat)
    requires Tracks(at) && k < |calls| && s.status == Running
    ensures StepLands(at, s, BatchStep(cfg, env, s, calls, round, k))
  {
    if (exists p :: at(s.journal, p) && Live(p)) && !Text.Blank(s.scope.runId) {
      var p :| at(s.journal, p) && Live(p);
      StepPlaced(at, cfg, env, s, p, calls, round, k);
      StepScope(cfg, env, s, calls, round, k);
    }
  }

  lemma BatchPlaced(at: (seq<EventKind>, Phase) -> bool, cfg: Config, env: Env, s: St, p: Phase, calls: seq<ToolCall>, round: nat, r: St)
    requires Tracks(at) && at(s.journal, p) && Live(p) && s.status == Running && calls != [] && !Text.Blank(s.scope.runId)
    requires r == Batch(cfg, env, s, calls, round, 0)
    ensures Placed(at, r, Worked) && r.scope == s.scope
  {
    var keeps := (x: St, k: nat, y: St) => StepLands(at, x, y);
    forall x, k: nat
      ensures StepSatisfies(cfg, env, calls, round, keeps, x, k)
    {
      if k < |calls| && x.status == Running {
        StepsLand(at, cfg, env, x, calls, round, k);
      }
    }
    var states := BatchTrail(cfg, env, s, calls, round, keeps, r);
    TrailPlaced(at, keeps, p, 0, states, |states| - 1);
  }

  lemma RequestPlaced(at: (seq<EventKind>, Phase) -> bool, cfg: Config, env: Env, s: St, p: Phase)
    requires Tracks(at) && at(s.journal, p) && AtTop(p)
    ensures at(RequestTurn(cfg, env, s).journal, Asking)
  {
    var compacted := |MessageWindow.Window(s.work.messages, cfg.maxContextMessages)| < |s.work.messages|;
    RequestedPlaced(at, s.journal, p, compacted, env.model(s.turns).deltas);
  }

  lemma RequestedPlaced(at: (seq<EventKind>, Phase) -> bool, journal: seq<EventKind>, p: Phase, compacted: bool, deltas: nat)
    requires Tracks(at) && at(journal, p) && AtTop(p)
    ensures at(journal + (if compacted then [ContextCompacted] else []) + [ModelRequested] + Repeat(ModelDelta, deltas), Asking)
  {
    var before := journal + if compacted then [ContextCompacted] else [];
    if compacted {
      Append(at, journal, p, ContextCompacted);
      Append(at, before, Compacted, ModelRequested);
    } else {
      assert before == journal;
      Append(at, before, p, ModelRequested);
    }
    AppendRepeat(at, before + [ModelRequested], deltas);
  }

  function ResponsePhase(turn: ModelTurn): Phase {
    if turn.response.Some? && turn.response.value.plan.Some? then Planned else Answered
  }

  lemma RespondPlaced(at: (seq<EventKind>, Phase) -> bool, s: St, turn: ModelTurn)
    requires Tracks(at) && at(s.journal, Asking) && turn.response.Some?
    ensures at(Respond(s, turn.response.value).journal, ResponsePhase(turn))
  {
    Append(at, s.journal, Asking, ModelResponded);
    if turn.response.value.plan.Some? {
      AppendTwo(at, s.journal, Asking, ModelResponded, PlanProposed);
    }
  }

  lemma AnswerPlaced(at: (seq<EventKind>, Phase) -> bool, cfg: Config, env: Env, s: St, turn: ModelTurn, finalizing: bool)
    requires Tracks(at) && at(s.journal, Asking) && s.status == Running
    ensures Placed(at, Answer(cfg, env, s, turn, finalizing), ResponsePhase(turn))
  {
    if turn.response.None? {
      ClosePlaced(at, env, s, Asking, Failed(ModelTurnFailed), TurnFailed);
    } else if finalizing {
      Append(at, s.journal, Asking, TurnCompleted);
      ClosePlaced(at, env, s.(journal := s.journal + [TurnCompleted]), Finalized, Completed, TurnCompleted);
    } else {
      RespondPlaced(at, s, turn);
      var s', p := Respond(s, turn.response.value), ResponsePhase(turn);
      if turn.response.value.ask.Some? {
        AskPlaced(at, cfg, s', p, turn.response.value.ask.value);
      } else {
        ResponsePlaced(at, env, s', p);
      }
    }
  }

  lemma AskPlaced(at: (seq<EventKind>, Phase) -> bool, cfg: Config, s: St, p: Phase, ask: ApprovalAsk)
    requires Tracks(at) && at(s.journal, p) && (p == Answered || p == Planned)
    ensures Placed(at, SuspendForModel(cfg, s, ask), p)
  {
    AppendTwo(at, s.journal, p, PermissionRequested, ActivityCompleted);
  }

  /** The ways in which a response ends the run. */
  lemma ResponsePlaced(at: (seq<EventKind>, Phase) -> bool, env: Env, s: St, p: Phase)
    requires Tracks(at) && at(s.journal, p) && (p == Answered || p == Planned)
    ensures Placed(at, CompleteRun(env, s), p)
    ensures Placed(at, FailRun(env, s, ToolIterationLimitExceeded), p) && Placed(at, FailRun(env, s, ToolProviderMissing), p)
  {
    ClosePlaced(at, env, s, p, Completed, TurnCompleted);
    ClosePlaced(at, env, s, p, Failed(ToolIterationLimitExceeded), TurnFailed);
    ClosePlaced(at, env, s, p, Failed(ToolProviderMissing), TurnFailed);
  }

  lemma AnswerScope(cfg: Config, env: Env, s: St, turn: ModelTurn, finalizing: bool)
    requires s.status == Running
    ensures
      var r := Answer(cfg, env, RequestTurn(cfg, env, s), turn, finalizing);
      r.scope == s.scope && (r.status == Running ==> turn.response.Some? && turn.response.value.toolCalls != [])
  {
  }

  lemma ActPlaced(at: (seq<EventKind>, Phase) -> bool, cfg: Config, env: Env, s: St, p: Phase, calls: seq<ToolCall>)
    requires Tracks(at) && at(s.journal, p) && Live(p) && s.status == Running && calls != [] && !Text.Blank(s.scope.runId)
    ensures Placed(at, Act(cfg, env, s, calls), Worked) && Act(cfg, env, s, calls).scope == s.scope
  {
    BatchPlaced(at, cfg, env, Requesting(cfg, s, calls), p, calls, s.work.toolRounds, Act(cfg, env, s, calls));
  }

  function Steered(d: Convergence.Decision): Phase {
    if d.Continue? then Worked else Idle
  }

  lemma SteerPlaced(at: (seq<EventKind>, Phase) -> bool, s: St, d: Convergence.Decision)
    requires Tracks(at) && at(s.journal, Worked)
    ensures at(Steer(s, d).journal, Steered(d))
  {
    if !d.Continue? {
      Append(at, s.journal, Worked, RunHeartbeat);
    }
  }

  lemma {:induction false} LoopPlaced(at: (seq<EventKind>, Phase) -> bool, cfg: Config, env: Env, s: St, p: Phase,
                                      history: seq<Convergence.Turn>, finalizing: bool, r: St)
    requires Tracks(at) && at(s.journal, p) && AtTop(p) && s.status == Running && !Text.Blank(s.scope.runId)
    requires r == Loop(cfg, env, s, history, finalizing)
    ensures Placed(at, r, Idle) && r.status != Running && r.scope == s.scope
    decreases if s.work.toolRounds < cfg.maxToolIterations then cfg.maxToolIterations - s.work.toolRounds else 0
  {
    var turn, asked := env.model(s.turns), RequestTurn(cfg, env, s);
    RequestPlaced(at, cfg, env, s, p);
    AnswerPlaced(at, cfg, env, asked, turn, finalizing);
    AnswerScope(cfg, env, s, turn, finalizing);
    var answered := Answer(cfg, env, asked, turn, finalizing);
    if answered.status == Running {
      var calls := turn.response.value.toolCalls;
      ActPlaced(at, cfg, env, answered, ResponsePhase(turn), calls);
      var acted := Act(cfg, env, answered, calls);
      if acted.status == Running {
        var history' := history + [TurnOf(cfg, acted, calls)];
        var decision := Convergence.Decide(history');
        SteerPlaced(at, acted, decision);
        LoopPlaced(at, cfg, env, Steer(acted, decision), Steered(decision), history', decision.Finalize?, r);
      }
    }
  }

  lemma EnterLoopPlaced(at: (seq<EventKind>, Phase) -> bool, cfg: Config, env: Env, s: St, p: Phase)
    requires Tracks(at) && at(s.journal, p) && AtTop(p) && s.status == Running && !Text.Blank(s.scope.runId)
    ensures
      var r := EnterLoop(cfg, env, s);
      Placed(at, r, Idle) && r.status != Running && r.scope == s.scope
  {
    LoopPlaced(at, cfg, env, Entered(s), p, [], false, EnterLoop(cfg, env, s));
  }

  lemma RunPlaced(at: (seq<EventKind>, Phase) -> bool, cfg: Config, env: Env, created: St)
    requires Tracks(at) && at(created.journal, Apart) && !Text.Blank(created.scope.runId)
    ensures
      var r := Run(cfg, env, created);
      Placed(at, r, Idle) && r.status != Running && r.scope == created.scope
  {
    var s := Begin(created, [ActivityStarted]);
    Append(at, created.journal, Apart, ActivityStarted);
    if !env.leased(s.checks) {
      ClosePlaced(at, env, s, Begun, Failed(LeaseAcquireFailed), TurnFailed);
    } else if env.packet(s.checks).None? {
      ClosePlaced(at, env, s, Begun, Failed(ContextPacketFailed), TurnFailed);
    } else {
      AppendTwo(at, s.journal, Begun, ContextPacketCreated, AgentStarted);
      var packet := env.packet(s.checks).value;
      EnterLoopPlaced(at, cfg, env, Opened(s, packet), Idle);
    }
  }

  /****** Between segments ******/

  /** The journal of a run at rest, whether it waits or is over. */
  ghost predicate Settled(at: (seq<EventKind>, Phase) -> bool, s: St) {
    exists q :: at(s.journal, q) && Rests(q) && (s.status.Suspended? ==> q == Apart)
  }

  lemma PlacedSettles(at: (seq<EventKind>, Phase) -> bool, s: St, p: Phase)
    requires Placed(at, s, p) && s.status != Running
    ensures Settled(at, s)
  {
    var q :| at(s.journal, q) && Fits(s.status, p, q);
  }

  lemma ReopenedPlaced(at: (seq<EventKind>, Phase) -> bool, cfg: Config, env: Env, s: St, q: Phase, k: Continuation, scope: Scope)
    requires Tracks(at) && at(s.journal, q) && Rests(q)
    ensures
      var (r, error) := Reopened(cfg, env, s, k, scope);
      if error.Some? then r == s || r == Looked(s)
      else Placed(at, r, Packed) && r.scope == scope && (r.status == Running || r.status.Failed?)
  {
    var s' := Begin(Restored(Looked(s), k, scope), [ActivityStarted]);
    Append(at, s.journal, q, ActivityStarted);
    ClosePlaced(at, env, s', Begun, Failed(LeaseAcquireFailed), TurnFailed);
    Append(at, s'.journal, Begun, ContextPacketCreated);
  }

  /** A resolution appends at most one event, between segments. */
  lemma ResolvedPlaced(at: (seq<EventKind>, Phase) -> bool, s: St, q: Phase, w: World, approval: ApprovalId, d: Decision, scope: Scope)
    returns (q': Phase)
    requires Tracks(at) && at(s.journal, q) && Rests(q)
    ensures at(s.journal + ResolveSpec(s.center, w, approval, d, scope).2, q') && Rests(q') && (q == Apart ==> q' == Apart)
  {
    Append(at, s.journal, q, PermissionGranted);
    Append(at, s.journal, q, PermissionDenied);
    assert s.journal + [] == s.journal;
    q' := if ResolveSpec(s.center, w, approval, d, scope).2 == [] then q else Apart;
  }

  lemma DeniedPlaced(at: (seq<EventKind>, Phase) -> bool, env: Env, s: St, q: Phase)
    requires Tracks(at) && at(s.journal, q) && Rests(q)
    ensures Placed(at, DenyRun(env, Begin(s, [ActivityStarted])), Packed)
  {
    Append(at, s.journal, q, ActivityStarted);
    ClosePlaced(at, env, Begin(s, [ActivityStarted]), Begun, DeniedRun, TurnFailed);
  }

  /** Where a resolution leaves a run: at rest as it was when it is refused, else taken up or over. */
  ghost predicate ReopenLands(at: (seq<EventKind>, Phase) -> bool, s: St, r: St, error: Option<ResumeError>) {
    && !Text.Blank(r.scope.runId)
    && (if error.Some? then Settled(at, r) && r.status == s.status
        else Placed(at, r, Packed) && !r.status.Suspended?)
  }

  lemma ReopenPlaced(at: (seq<EventKind>, Phase) -> bool, cfg: Config, env: Env, s: St, q: Phase, approval: ApprovalId, d: Decision,
                     override: Scope, r: St, error: Option<ResumeError>)
    requires Tracks(at) && at(s.journal, q) && Rests(q) && (s.status.Suspended? ==> q == Apart) && !Text.Blank(s.scope.runId)
    requires (r, error) == Reopen(cfg, env, s, approval, d, override)
    ensures ReopenLands(at, s, r, error)
  {
    SettledStays(at, s, s, q);
    if approval in s.center.records {
      var rec := s.center.records[approval];
      var scope := ResumeScope(rec, override);
      var (center, resolved, events) := ResolveSpec(s.center, env.world(s.checks), approval, d, scope);
      var q' := ResolvedPlaced(at, s, q, env.world(s.checks), approval, d, scope);
      var s' := Resolved(s, center, events);
      SettledStays(at, s, s', q');
      if resolved.Ok? && (d == Deny || rec.continuation.Some?) {
        ResolvedRun(s.center, env.world(s.checks), approval, d, override);
        RuledPlaced(at, cfg, env, s', q', rec, d, scope);
      }
    }
  }

  /** What follows a resolution that went through. */
  lemma RuledPlaced(at: (seq<EventKind>, Phase) -> bool, cfg: Config, env: Env, s: St, q: Phase, rec: Record, d: Decision, scope: Scope)
    requires Tracks(at) && at(s.journal, q) && Rests(q) && (s.status.Suspended? ==> q == Apart)
    requires !Text.Blank(s.scope.runId) && !Text.Blank(scope.runId) && (d == Deny || rec.continuation.Some?)
    ensures d == Deny ==> ReopenLands(at, s, DenyRun(env, Begin(s, [ActivityStarted])), None)
    ensures d != Deny ==>
      var (r, error) := Reopened(cfg, env, s, rec.continuation.value, scope);
      ReopenLands(at, s, r, error)
  {
    if d == Deny {
      DeniedPlaced(at, env, s, q);
    } else {
      TakenUpLands(at, cfg, env, s, q, rec.continuation.value, scope);
    }
  }

  lemma SettledStays(at: (seq<EventKind>, Phase) -> bool, s: St, r: St, q: Phase)
    requires at(r.journal, q) && Rests(q) && (s.status.Suspended? ==> q == Apart) && r.status == s.status
    ensures Settled(at, r)
  {
  }

  lemma TakenUpLands(at: (seq<EventKind>, Phase) -> bool, cfg: Config, env: Env, s: St, q: Phase, k: Continuation, scope: Scope)
    requires Tracks(at) && at(s.journal, q) && Rests(q) && (s.status.Suspended? ==> q == Apart)
    requires !Text.Blank(s.scope.runId) && !Text.Blank(scope.runId)
    ensures
      var (r, error) := Reopened(cfg, env, s, k, scope);
      ReopenLands(at, s, r, error)
  {
    ReopenedPlaced(at, cfg, env, s, q, k, scope);
    SettledStays(at, s, s, q);
    SettledStays(at, s, Looked(s), q);
  }

  /** A resolution goes through only for a run that exists. */
  lemma ResolvedRun(center: Center, w: World, approval: ApprovalId, d: Decision, override: Scope)
    requires approval in center.records
    ensures
      var scope := ResumeScope(center.records[approval], override);
      ResolveSpec(center, w, approval, d, scope).1.Ok? ==> !Text.Blank(scope.runId)
  {
  }

  /** A later segment, from a run at rest: refused, it rests as before; else it runs to a rest of its own. */
  ghost predicate ResumeLands(at: (seq<EventKind>, Phase) -> bool, r: St, error: Option<ResumeError>) {
    && !Text.Blank(r.scope.runId) && r.status != Running && Settled(at, r)
    && (error.None? ==> Placed(at, r, Idle))
  }

  lemma ResumePlaced(at: (seq<EventKind>, Phase) -> bool, cfg: Config, env: Env, s: St, approval: ApprovalId, d: Decision,
                     override: Scope, r: St, error: Option<ResumeError>)
    requires Tracks(at) && Settled(at, s) && s.status != Running && !Text.Blank(s.scope.runId)
    requires (r, error) == Resume(cfg, env, s, approval, d, override)
    ensures ResumeLands(at, r, error)
  {
    var (s', refused) := Reopen(cfg, env, s, approval, d, override);
    var q :| at(s.journal, q) && Rests(q) && (s.status.Suspended? ==> q == Apart);
    ReopenPlaced(at, cfg, env, s, q, approval, d, override, s', refused);
    if refused.None? && s'.status == Running {
      ContinuedPlaced(at, cfg, env, s', Pending(s, approval), r);
      PlacedSettles(at, r, Idle);
    } else if refused.None? {
      PlacedSettles(at, s', Packed);
    }
  }

  lemma ContinuedPlaced(at: (seq<EventKind>, Phase) -> bool, cfg: Config, env: Env, s: St, pending: seq<ToolCall>, r: St)
    requires Tracks(at) && at(s.journal, Packed) && s.status == Running && !Text.Blank(s.scope.runId)
    requires r == Continued(cfg, env, s, pending)
    ensures Placed(at, r, Idle) && r.status != Running && r.scope == s.scope
  {
    if pending == [] {
      EnterLoopPlaced(at, cfg, env, s, Packed);
    } else {
      var acted := Batch(cfg, env, s, pending, s.work.toolRounds, 0);
      BatchPlaced(at, cfg, env, s, Packed, pending, s.work.toolRounds, acted);
      if acted.status == Running {
        EnterLoopPlaced(at, cfg, env, acted, Worked);
      }
    }
  }

  /** No ruling is refused. */
  predicate Unrefused(cfg: Config, env: Env, s: St, rulings: seq<Ruling>)
    decreases |rulings|
  {
    rulings == [] || (Ruled(cfg, env, s, rulings[0]).1.None? && Unrefused(cfg, env, Ruled(cfg, env, s, rulings[0]).0, rulings[1..]))
  }

  lemma {:induction false} LifePlaced(at: (seq<EventKind>, Phase) -> bool, cfg: Config, env: Env, s: St, rulings: seq<Ruling>, r: St)
    requires Tracks(at) && Settled(at, s) && s.status != Running && !Text.Blank(s.scope.runId)
    requires r == Life(cfg, env, s, rulings)
    ensures Settled(at, r) && r.status != Running
    ensures Placed(at, s, Idle) && Unrefused(cfg, env, s, rulings) ==> Placed(at, r, Idle)
    decreases |rulings|
  {
    if rulings != [] {
      var a := rulings[0];
      var (s', error) := Ruled(cfg, env, s, a);
      ResumePlaced(at, cfg, env, s, a.approval, a.decision, a.override, s', error);
      LifePlaced(at, cfg, env, s', rulings[1..], r);
    }
  }

  lemma CreatedPlaced(at: (seq<EventKind>, Phase) -> bool, scope: Scope, center: Center, newSession: bool)
    requires Tracks(at)
    ensures at(Created(scope, center, newSession).journal, Apart)
  {
    if newSession {
      Append(at, [], Start, SessionStarted);
      assert [] + [SessionStarted] == [SessionStarted];
      AppendTwo(at, [SessionStarted], SessionKnown, RunCreated, TurnStarted);
    } else {
      AppendTwo(at, [], Start, RunCreated, TurnStarted);
      assert [] + [RunCreated, TurnStarted] == [RunCreated, TurnStarted];
    }
  }

  lemma StartedPlaced(at: (seq<EventKind>, Phase) -> bool, cfg: Config, env: Env, scope: Scope, center: Center, newSession: bool)
    requires Tracks(at) && !Text.Blank(scope.runId)
    ensures
      var r := Started(cfg, env, scope, center, newSession);
      Placed(at, r, Idle) && Settled(at, r) && r.status != Running && !Text.Blank(r.scope.runId)
  {
    CreatedPlaced(at, scope, center, newSession);
    RunPlaced(at, cfg, env, Created(scope, center, newSession));
    PlacedSettles(at, Started(cfg, env, scope, center, newSession), Idle);
  }

  /** Whatever relation follows the automaton, it holds of the journal of every whole run, whatever
      approvals are ruled on and when. */
  lemma WholeRunPlaced(at: (seq<EventKind>, Phase) -> bool, cfg: Config, env: Env, scope: Scope, center: Center, newSession: bool,
                       rulings: seq<Ruling>)
    requires Tracks(at) && !Text.Blank(scope.runId)
    ensures
      var r := WholeRun(cfg, env, scope, center, newSession, rulings);
      && Settled(at, r) && r.status != Running
      && (Unrefused(cfg, env, Started(cfg, env, scope, center, newSession), rulings) ==> Placed(at, r, Idle))
  {
    StartedPlaced(at, cfg, env, scope, center, newSession);
    LifePlaced(at, cfg, env, Started(cfg, env, scope, center, newSession), rulings,
      WholeRun(cfg, env, scope, center, newSession, rulings));
  }

  /****** Acceptance ******/

  /** The phases that a journal passes through. */
  ghost predicate Path(journal: seq<EventKind>, phases: seq<Phase>) {
    && |phases| == |journal| + 1 && phases[0] == Start
    && forall i :: 0 <= i < |journal| ==> Step(phases[i], journal[i], phases[i + 1])
  }

  predicate Step(p: Phase, k: EventKind, q: Phase) {
    q == Next(p, k) && q != Rejected
  }

  /** The automaton accepts the journal and ends in the phase. */
  ghost predicate Accepts(journal: seq<EventKind>, p: Phase) {
    exists phases :: Path(journal, phases) && phases[|journal|] == p
  }

  lemma AcceptsFollows(at: (seq<EventKind>, Phase) -> bool, journal: seq<EventKind>, p: Phase, k: EventKind)
    requires at == ((j, q) => Accepts(j, q))
    ensures Follows(at, journal, p, k)
  {
    if at(journal, p) && Next(p, k) != Rejected {
      var phases :| Path(journal, phases) && phases[|journal|] == p;
      PathExtend(journal, phases, k, Next(p, k));
    }
  }

  lemma PathExtend(journal: seq<EventKind>, phases: seq<Phase>, k: EventKind, q: Phase)
    requires Path(journal, phases) && Step(phases[|journal|], k, q)
    ensures Path(journal + [k], phases + [q]) && Accepts(journal + [k], q)
  {
  }

  /** Every journal a whole run produces is accepted, whatever approvals are ruled on and when: it ends
      between segments. Where no ruling is refused it ends with its last segment: apart when the run
      waits, after activity.completed or session.ended when it is over. */
  lemma JournalAccepted(cfg: Config, env: Env, scope: Scope, center: Center, newSession: bool, rulings: seq<Ruling>)
    requires !Text.Blank(scope.runId)
    ensures
      var r := WholeRun(cfg, env, scope, center, newSession, rulings);
      exists p :: Accepts(r.journal, p) && Rests(p) && (r.status.Suspended? ==> p == Apart)
        && (Unrefused(cfg, env, Started(cfg, env, scope, center, newSession), rulings) && !r.status.Suspended? ==> p != Apart)
  {
    var at: (seq<EventKind>, Phase) -> bool := (j, q) => Accepts(j, q);
    assert Path([], [Start]);
    forall journal, p, k
      ensures Follows(at, journal, p, k)
    {
      AcceptsFollows(at, journal, p, k);
    }
    WholeRunPlaced(at, cfg, env, scope, center, newSession, rulings);
    SettledAccepted(at, WholeRun(cfg, env, scope, center, newSession, rulings));
  }

  lemma SettledAccepted(at: (seq<EventKind>, Phase) -> bool, r: St)
    requires at == ((j, q) => Accepts(j, q)) && Settled(at, r) && r.status != Running
    ensures
      exists p :: Accepts(r.journal, p) && Rests(p) && (r.status.Suspended? ==> p == Apart)
        && (Placed(at, r, Idle) && !r.status.Suspended? ==> p != Apart)
  {
    if Placed(at, r, Idle) {
      var p :| at(r.journal, p) && Fits(r.status, Idle, p);
      assert Accepts(r.journal, p);
    } else {
      var p :| at(r.journal, p) && Rests(p) && (r.status.Suspended? ==> p == Apart);
      assert Accepts(r.journal, p);
    }
  }

  /** How phases are entered. */
  lemma EnteredBy(p: Phase, k: EventKind)
    ensures Next(p, k) == Granted ==> k.PermissionGranted?
    ensures Next(p, k) == Invoked ==> k.ToolInvoked?
    ensures k.ActivityCompleted? && Next(p, k) != Rejected ==> Rests(Next(p, k))
  {
  }

  /** How phases are left. */
  lemma LeftBy(p: Phase, k: EventKind)
    ensures p == Invoked && Next(p, k) != Rejected ==> k.ToolSucceeded? || k.ToolFailed?
    ensures Rests(p) && Next(p, k) != Rejected ==>
      k.PermissionGranted? || k.PermissionDenied? || k.ActivityStarted? || (p == Closed && k.SessionEnded?)
    ensures Rests(p) && Next(p, k) != Rejected && !k.ActivityStarted? ==> Rests(Next(p, k)) && Next(p, k) != Closed
  {
  }

  /** One step of a path, with the step after it. */
  lemma PairedAt(journal: seq<EventKind>, phases: seq<Phase>, i: nat)
    requires Path(journal, phases) && i + 1 < |journal|
    ensures journal[i].ToolInvoked? ==> journal[i + 1].ToolSucceeded? || journal[i + 1].ToolFailed?
    ensures journal[i + 1].ToolInvoked? ==> journal[i].PermissionGranted?
    ensures journal[i + 1].ToolSucceeded? || journal[i + 1].ToolFailed? ==> journal[i].ToolInvoked?
  {
    assert Step(phases[i], journal[i], phases[i + 1]) && Step(phases[i + 1], journal[i + 1], phases[i + 2]);
    EnteredBy(phases[i], journal[i]);
    LeftBy(phases[i + 1], journal[i + 1]);
  }

  /** In a journal that ends between segments each tool.invoked directly follows permission.granted and is
      directly followed by its outcome, and each outcome directly follows a tool.invoked. */
  lemma ToolEventsPaired(journal: seq<EventKind>, p: Phase, i: nat)
    requires Accepts(journal, p) && Rests(p) && i < |journal|
    ensures journal[i].ToolInvoked? ==> i > 0 && journal[i - 1].PermissionGranted?
    ensures journal[i].ToolInvoked? ==> i + 1 < |journal| && (journal[i + 1].ToolSucceeded? || journal[i + 1].ToolFailed?)
    ensures journal[i].ToolSucceeded? || journal[i].ToolFailed? ==> i > 0 && journal[i - 1].ToolInvoked?
  {
    var phases :| Path(journal, phases) && phases[|journal|] == p;
    assert Step(phases[i], journal[i], phases[i + 1]);
    if i > 0 {
      PairedAt(journal, phases, i - 1);
    }
    if i + 1 < |journal| {
      PairedAt(journal, phases, i);
    }
  }

  /** From activity.completed on, up to the next activity.started, the run is between segments. */
  lemma {:induction false} StaysAtRest(journal: seq<EventKind>, phases: seq<Phase>, i: nat, j: nat)
    requires Path(journal, phases) && i < j <= |journal| && journal[i].ActivityCompleted?
    requires forall m :: i < m < j ==> !journal[m].ActivityStarted?
    ensures Rests(phases[j]) && (j > i + 1 ==> phases[j] != Closed)
    decreases j
  {
    assert Step(phases[j - 1], journal[j - 1], phases[j]);
    if j == i + 1 {
      EnteredBy(phases[i], journal[i]);
    } else {
      StaysAtRest(journal, phases, i, j - 1);
      LeftBy(phases[j - 1], journal[j - 1]);
    }
  }

  /** In an accepted journal activity.completed ends a segment: up to the next activity.started there is at
      most one session.ended, directly after it, and resolutions of approvals; no model or tool event. */
  lemma SegmentEnds(journal: seq<EventKind>, p: Phase, i: nat, j: nat)
    requires Accepts(journal, p) && i < j < |journal| && journal[i].ActivityCompleted?
    requires forall m :: i < m < j ==> !journal[m].ActivityStarted?
    ensures
      || journal[j].ActivityStarted? || journal[j].PermissionGranted? || journal[j].PermissionDenied?
      || (journal[j].SessionEnded? && j == i + 1)
  {
    var phases :| Path(journal, phases) && phases[|journal|] == p;
    StaysAtRest(journal, phases, i, j);
    assert Step(phases[j], journal[j], phases[j + 1]);
    LeftBy(phases[j], journal[j]);
  }
}
