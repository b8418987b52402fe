/** What executing calls and taking turns leaves in a run: each observation is the answer to its call, the
    conversation records turns, answers and steering, and a run that ends shows how in its journal
    (pkg/rtagent/loop.go, loop_tools.go, loop_outcomes.go). */
module RunLoopTranscript {
  import opened Types
  import opened Wrappers
  import opened Permission
  import opened PermissionCenter
  import opened RunLoop
  import opened RunLoopConservation
  import opened RunLoopInvariants
  import opened RunLoopBudget
  import Convergence
  import W = MessageWindow
  import Text

  /****** Executed calls ******/

  /** The observation is the answer to the call; what the answer leaves blank is taken from the call. */
  predicate Answers(o: Observation, call: ToolCall, answer: Observation) {
    && o.callId == (if Text.Blank(answer.callId) then call.id else answer.callId)
    && o.name == (if Text.Blank(answer.name) then call.name else answer.name)
    && o.status == (if Text.Blank(answer.status) then "ok" else answer.status)
    && o.modelSummary == answer.modelSummary && o.userSummary == answer.userSummary && o.outputRef == answer.outputRef
  }

  /** The messages that report observations. */
  function Results(observations: seq<Observation>): seq<Message> {
    seq(|observations|, i requires 0 <= i < |observations| => ToolResult("tool", observations[i]))
  }

  /** The tools answered these calls, one after the other, and their answers were taken down. */
  ghost predicate Recorded(env: Env, w: Work, w': Work, calls: seq<ToolCall>) {
    && w'.executed == w.executed + calls
    && |w'.observations| == |w.observations| + |calls| && w.observations <= w'.observations
    && w'.messages == w.messages + Results(w'.observations[|w.observations|..])
    && w'.transcript == w.transcript + Results(w'.observations[|w.observations|..])
    && forall k :: 0 <= k < |calls| ==> AnsweredAt(env, w, w', calls, k)
  }

  /** The k-th of the calls was answered after exactly the calls before it. */
  predicate AnsweredAt(env: Env, w: Work, w': Work, calls: seq<ToolCall>, k: nat)
    requires k < |calls| && |w'.observations| == |w.observations| + |calls|
  {
    var answer := env.tool(w.executed + calls[..k], calls[k]);
    answer.Some? && Answers(w'.observations[|w.observations| + k], calls[k], answer.value)
  }

  lemma NothingRecorded(env: Env, w: Work, w': Work)
    requires w'.executed == w.executed && w'.observations == w.observations
    requires w'.messages == w.messages && w'.transcript == w.transcript
    ensures Recorded(env, w, w', [])
  {
    assert w.executed + [] == w.executed;
    assert w'.observations[|w.observations|..] == [] && Results([]) == [];
    assert w.messages + [] == w.messages && w.transcript + [] == w.transcript;
  }

  lemma OneRecorded(env: Env, w: Work, call: ToolCall)
    requires Perform(env, w, call).1
    ensures Recorded(env, w, Perform(env, w, call).0, [call])
  {
    var w' := Perform(env, w, call).0;
    var o := w'.observations[|w.observations|];
    assert w'.observations[|w.observations|..] == [o] && Results([o]) == [ToolResult("tool", o)];
    assert w.executed + [call][..0] == w.executed;
  }

  lemma ResultsAppend(a: seq<Observation>, b: seq<Observation>)
    ensures Results(a + b) == Results(a) + Results(b)
  {
  }

  lemma MoreRecorded(env: Env, w: Work, v: Work, w': Work, calls: seq<ToolCall>, more: seq<ToolCall>)
    requires Recorded(env, w, v, calls) && Recorded(env, v, w', more)
    ensures Recorded(env, w, w', calls + more)
  {
    var all := calls + more;
    var a, b := v.observations[|w.observations|..], w'.observations[|v.observations|..];
    assert w'.observations[|w.observations|..] == a + b;
    ResultsAppend(a, b);
    assert w.executed + calls + more == w.executed + all;
    assert w.messages + Results(a) + Results(b) == w.messages + (Results(a) + Results(b));
    assert w.transcript + Results(a) + Results(b) == w.transcript + (Results(a) + Results(b));
    forall k | 0 <= k < |all|
      ensures AnsweredAt(env, w, w', all, k)
    {
      if k < |calls| {
        assert AnsweredAt(env, w, v, calls, k) && all[..k] == calls[..k];
      } else {
        assert AnsweredAt(env, v, w', more, k - |calls|);
        assert w.executed + all[..k] == v.executed + more[..k - |calls|];
      }
    }
  }

  /** Where the reference stops, and why: at an invalid call, which is not executed, or at a call that its tool
      does not answer, which is. */
  ghost predicate StopsAt(cfg: Config, env: Env, specs: seq<ToolSpec>, v: Work, w': Work, calls: seq<ToolCall>, n: nat, failure: Option<Failure>)
    requires n <= |calls|
  {
    match failure
    case None => n == |calls| && w' == v.(toolRounds := w'.toolRounds)
    case Some(code) =>
      && n < |calls|
      && if cfg.rules.valid(specs, calls[n]) then
           code == ToolCallFailed && w' == v.(executed := v.executed + [calls[n]]) && env.tool(v.executed, calls[n]).None?
         else code == ToolSchemaValidationFailed && w' == v
  }

  /** Everything the reference does: the prepared calls in order, each answered and taken down, up to the first
      that is invalid or not answered. */
  lemma {:induction false} StraightRecords(cfg: Config, env: Env, specs: seq<ToolSpec>, w: Work, calls: seq<ToolCall>, runId: string, round: nat, i: nat)
    returns (n: nat, v: Work)
    requires i <= |calls|
    ensures
      var (w', failure) := Straight(cfg, env, specs, w, calls, runId, round, i);
      var prepared := Prepared(cfg, specs, calls, runId, round, i);
      && n <= |prepared| && Recorded(env, w, v, prepared[..n]) && StopsAt(cfg, env, specs, v, w', prepared, n, failure)
      && (failure.None? ==> w'.toolRounds == round + 1)
    decreases |calls| - i
  {
    var prepared := Prepared(cfg, specs, calls, runId, round, i);
    if i < |calls| && cfg.rules.valid(specs, prepared[0]) && Perform(env, w, prepared[0]).1 {
      var w1 := Perform(env, w, prepared[0]).0;
      var m, u := StraightRecords(cfg, env, specs, w1, calls, runId, round, i + 1);
      var (w', failure) := Straight(cfg, env, specs, w1, calls, runId, round, i + 1);
      OneRecorded(env, w, prepared[0]);
      GoneOn(cfg, env, specs, w, w1, u, w', prepared[0], Prepared(cfg, specs, calls, runId, round, i + 1), m, failure);
      n, v := m + 1, u;
    } else {
      n, v := 0, w;
      NothingRecorded(env, w, w);
      assert prepared[..0] == [];
    }
  }

  /** One call more in front. */
  lemma GoneOn(cfg: Config, env: Env, specs: seq<ToolSpec>, w: Work, w1: Work, v: Work, w': Work, call: ToolCall, rest: seq<ToolCall>,
               m: nat, failure: Option<Failure>)
    requires m <= |rest| && Recorded(env, w, w1, [call]) && Recorded(env, w1, v, rest[..m])
    requires StopsAt(cfg, env, specs, v, w', rest, m, failure)
    ensures Recorded(env, w, v, ([call] + rest)[..m + 1]) && StopsAt(cfg, env, specs, v, w', [call] + rest, m + 1, failure)
  {
    MoreRecorded(env, w, w1, v, [call], rest[..m]);
    assert ([call] + rest)[..m + 1] == [call] + rest[..m];
  }

  /****** Batches and turns ******/

  /** A step of a batch that goes on executed its call and took down the answer. */
  lemma StepRecords(cfg: Config, env: Env, s: St, calls: seq<ToolCall>, round: nat, i: nat)
    requires i < |calls| && s.status == Running
    ensures
      var r := BatchStep(cfg, env, s, calls, round, i);
      var call := cfg.rules.prepare(s.packet.toolSpecs, calls[i], s.scope.runId, round, i);
      r.status == Running ==>
        r.frame == s.frame && r.work == Perform(env, s.work, call).0 && Perform(env, s.work, call).1
  {
  }

  /** A step leads on with its call recorded. */
  ghost predicate LeadsOn(cfg: Config, env: Env, calls: seq<ToolCall>, round: nat, x: St, k: nat, y: St) {
    k < |calls| && y.status == Running ==>
      && y.frame == x.frame
      && Recorded(env, x.work, y.work, [cfg.rules.prepare(x.packet.toolSpecs, calls[k], x.scope.runId, round, k)])
  }

  lemma {:induction false} TrailRecords(cfg: Config, env: Env, calls: seq<ToolCall>, round: nat, keeps: (St, nat, St) -> bool,
                                        states: seq<St>, n: nat)
    requires Trail(keeps, 0, states) && n < |states| <= |calls| + 1 && states[n].status == Running
    requires forall x, k: nat, y :: keeps(x, k, y) ==> LeadsOn(cfg, env, calls, round, x, k, y)
    ensures states[n].frame == states[0].frame
    ensures Recorded(env, states[0].work, states[n].work,
      Prepared(cfg, states[0].packet.toolSpecs, calls, states[0].scope.runId, round, 0)[..n])
  {
    var s := states[0];
    var prepared := Prepared(cfg, s.packet.toolSpecs, calls, s.scope.runId, round, 0);
    if n == 0 {
      assert prepared[..0] == [];
      NothingRecorded(env, s.work, s.work);
    } else {
      assert TrailStep(keeps, 0, states, n);
      TrailRecords(cfg, env, calls, round, keeps, states, n - 1);
      assert LeadsOn(cfg, env, calls, round, states[n - 1], n - 1, states[n]);
      PreparedAt(cfg, s.packet.toolSpecs, calls, s.scope.runId, round, 0, n - 1);
      MoreRecorded(env, s.work, states[n - 1].work, states[n].work, prepared[..n - 1], [prepared[n - 1]]);
      assert prepared[..n] == prepared[..n - 1] + [prepared[n - 1]];
    }
  }

  /** A batch that goes through executed all its calls, prepared, in order, and took down their answers. */
  lemma BatchRecords(cfg: Config, env: Env, s: St, calls: seq<ToolCall>, round: nat, r: St)
    requires s.status == Running && r == Batch(cfg, env, s, calls, round, 0) && r.status == Running
    ensures r.frame == s.frame && r.work.toolRounds == round + 1
    ensures Recorded(env, s.work, r.work, Prepared(cfg, s.packet.toolSpecs, calls, s.scope.runId, round, 0))
  {
    var keeps := (x: St, k: nat, y: St) => LeadsOn(cfg, env, calls, round, x, k, y);
    forall x, k: nat
      ensures StepSatisfies(cfg, env, calls, round, keeps, x, k)
    {
      if k < |calls| && x.status == Running && BatchStep(cfg, env, x, calls, round, k).status == Running {
        StepRecords(cfg, env, x, calls, round, k);
        OneRecorded(env, x.work, cfg.rules.prepare(x.packet.toolSpecs, calls[k], x.scope.runId, round, k));
      }
    }
    var states := BatchTrail(cfg, env, s, calls, round, keeps, r);
    TrailRecords(cfg, env, calls, round, keeps, states, |states| - 1);
    RecordedButRounds(cfg, env, s, states[|states| - 1], calls, round);
  }

  lemma RecordedButRounds(cfg: Config, env: Env, s: St, last: St, calls: seq<ToolCall>, round: nat)
    requires last.status == Running
    requires Recorded(env, s.work, last.work, Prepared(cfg, s.packet.toolSpecs, calls, s.scope.runId, round, 0)[..|calls|])
    ensures Recorded(env, s.work, Finished(last, round).work, Prepared(cfg, s.packet.toolSpecs, calls, s.scope.runId, round, 0))
  {
    var prepared := Prepared(cfg, s.packet.toolSpecs, calls, s.scope.runId, round, 0);
    assert prepared[..|calls|] == prepared;
    forall k | 0 <= k < |prepared|
      ensures AnsweredAt(env, s.work, Finished(last, round).work, prepared, k)
    {
      assert AnsweredAt(env, s.work, last.work, prepared, k);
    }
  }

  /** The message of the assistant; a response without text and calls leaves none. */
  function AssistantTurn(r: Response): seq<Message> {
    if Text.Blank(r.output) && r.toolCalls == [] then [] else [Assistant("assistant", r.output, r.toolCalls)]
  }

  /** The work after a model turn was sent and its response taken up. */
  lemma AnswerRecords(cfg: Config, env: Env, s: St, finalizing: bool)
    requires s.status == Running && Answer(cfg, env, RequestTurn(cfg, env, s), env.model(s.turns), finalizing).status == Running
    ensures env.model(s.turns).response.Some?
    ensures
      var r := Answer(cfg, env, RequestTurn(cfg, env, s), env.model(s.turns), finalizing);
      var said := AssistantTurn(env.model(s.turns).response.value);
      && r.work.transcript == s.work.transcript + said
      && r.work.messages == W.Window(s.work.messages, cfg.maxContextMessages) + said
      && r.work.observations == s.work.observations && r.work.executed == s.work.executed && r.work.toolRounds == s.work.toolRounds
      && r.packet == s.packet && r.scope == s.scope && r.plan == env.model(s.turns).response.value.plan
  {
  }

  /** A turn whose tools go through: the model is sent the window, what it says is taken down, and then the
      answers to all its calls; one more round is counted. */
  lemma TurnRecords(cfg: Config, env: Env, s: St, finalizing: bool) returns (answered: Work)
    requires s.status == Running && TakeTurn(cfg, env, s, finalizing).0.status == Running
    ensures env.model(s.turns).response.Some?
    ensures
      var r, response := TakeTurn(cfg, env, s, finalizing).0, env.model(s.turns).response.value;
      && answered.transcript == s.work.transcript + AssistantTurn(response)
      && answered.messages == W.Window(s.work.messages, cfg.maxContextMessages) + AssistantTurn(response)
      && answered.observations == s.work.observations && answered.executed == s.work.executed
      && Recorded(env, answered, r.work,
           Prepared(cfg, s.packet.toolSpecs, response.toolCalls, s.scope.runId, s.work.toolRounds, 0))
      && r.work.toolRounds == s.work.toolRounds + 1 && r.plan == response.plan
  {
    var a := Answer(cfg, env, RequestTurn(cfg, env, s), env.model(s.turns), finalizing);
    AnswerRecords(cfg, env, s, finalizing);
    answered := a.work;
    var calls := env.model(s.turns).response.value.toolCalls;
    BatchRecords(cfg, env, Requesting(cfg, a, calls), calls, a.work.toolRounds, Act(cfg, env, a, calls));
  }

  /** What the controller is shown of a round: iteration and budget, and each call of the model with the
      observation that answers it. */
  lemma RoundObserves(cfg: Config, env: Env, s: St, history: seq<Convergence.Turn>, finalizing: bool)
    requires s.status == Running && Round(cfg, env, s, history, finalizing).Again?
    ensures env.model(s.turns).response.Some?
    ensures
      var Again(r, history', finalize) := Round(cfg, env, s, history, finalizing);
      var calls, acted := env.model(s.turns).response.value.toolCalls, TakeTurn(cfg, env, s, finalizing).0;
      && acted.status == Running && |acted.work.observations| == |s.work.observations| + |calls|
      && |history'| == |history| + 1 && history'[..|history|] == history
      && Shown(history'[|history|], s.iteration + 1, cfg.maxToolIterations, calls, acted.work.observations[|s.work.observations|..])
      && r == Steer(acted, Convergence.Decide(history')) && r.iteration == s.iteration + 1
      && finalize == Convergence.Decide(history').Finalize?
  {
    var answered := TurnRecords(cfg, env, s, finalizing);
    RoundCalls(cfg, env, s, finalizing);
    var calls, acted := env.model(s.turns).response.value.toolCalls, TakeTurn(cfg, env, s, finalizing).0;
    LastOfRound(s.work.observations, acted.work.observations, |calls|);
  }

  lemma RoundCalls(cfg: Config, env: Env, s: St, finalizing: bool)
    requires s.status == Running && TakeTurn(cfg, env, s, finalizing).0.status == Running
    ensures env.model(s.turns).response.Some?
    ensures
      var (acted, calls) := TakeTurn(cfg, env, s, finalizing);
      calls == env.model(s.turns).response.value.toolCalls && acted.iteration == s.iteration
  {
    var a := Answer(cfg, env, RequestTurn(cfg, env, s), env.model(s.turns), finalizing);
    AnswerRecords(cfg, env, s, finalizing);
    AnswerBudget(cfg, env, s, finalizing);
    ActBudget(cfg, env, a, env.model(s.turns).response.value.toolCalls);
  }

  lemma LastOfRound(before: seq<Observation>, after: seq<Observation>, n: nat)
    requires before <= after && |after| == |before| + n
    ensures n > 0 ==> LastObservations(after, n) == after[|before|..]
    ensures n == 0 ==> LastObservations(after, n) == [] && after[|before|..] == []
  {
  }

  /** A turn as the controller should see it. */
  predicate Shown(turn: Convergence.Turn, iteration: int, limit: int, calls: seq<ToolCall>, observations: seq<Observation>)
    requires |observations| == |calls|
  {
    && turn.iteration == iteration && turn.limit == limit && turn.observations == |observations| && |turn.signatures| == |calls|
    && forall k :: 0 <= k < |calls| ==> turn.signatures[k] == Convergence.SignatureOf(calls[k], Some(observations[k]))
  }

  /** Steering adds one message of the user, and a heartbeat, exactly when the controller asks for it. */
  lemma SteeringRecords(s: St, d: Convergence.Decision)
    ensures
      var r := Steer(s, d);
      if d.Continue? then r.work == s.work && r.journal == s.journal
      else
        && |r.work.transcript| == |s.work.transcript| + 1 && r.work.transcript[..|s.work.transcript|] == s.work.transcript
        && r.work.transcript[|s.work.transcript|].role == "user"
        && r.work.executed == s.work.executed && r.journal == s.journal + [RunHeartbeat]
  {
  }

  /****** Taking up a continuation ******/

  /** Reopening restores the conversation, the observations, the rounds and the plan of the continuation, and
      executes nothing; an approval that the model asked for is reported to it. */
  lemma ReopenRestores(cfg: Config, env: Env, s: St, k: Continuation, scope: Scope)
    requires Reopened(cfg, env, s, k, scope).1.None?
    ensures
      var r := Reopened(cfg, env, s, k, scope).0;
      && r.work.executed == s.work.executed && r.work.observations == k.observations && r.work.toolRounds == k.toolRounds
      && r.plan == k.plan && r.packet == k.packet && r.scope == scope && r.turns == s.turns
      && (k.iteration > 0 ==> r.iteration == k.iteration)
      && (k.pendingToolCalls == [] ==>
            r.work.messages == k.messages + [Message.Text("user", "Approval granted.")]
            && r.work.transcript == k.transcript + [Message.Text("user", "Approval granted.")])
      && (k.pendingToolCalls != [] && k.messages != [] ==> r.work.messages == k.messages && r.work.transcript == k.transcript)
  {
  }

  /** What a run puts on record when it waits is what it has: its conversation, observations, plan and packet. */
  lemma WaitingRecords(s: St)
    requires Accounted(s) && s.status.Suspended?
    ensures
      var k := s.center.records[s.status.approval].continuation.value;
      && k.messages == s.work.messages && k.transcript == s.work.transcript && k.observations == s.work.observations
      && k.toolRounds == s.work.toolRounds && k.plan == s.plan && k.packet == s.packet && k.iteration == s.iteration + 1
  {
  }

  /****** How a segment shows its end ******/

  /** The journal ends as the status says: with the outcome, the end of the activity, and the end of the session
      where the exit finds it drained; a run that waits ends its activity only. */
  ghost predicate Shows(env: Env, s: St) {
    match s.status
    case Running => true
    case Suspended(_) => s.journal != [] && s.journal[|s.journal| - 1] == ActivityCompleted
    case Completed => exists before :: ShowsAfter(env, s.journal, before, TurnCompleted)
    case _ => exists before :: ShowsAfter(env, s.journal, before, TurnFailed)
  }

  predicate ShowsAfter(env: Env, journal: seq<EventKind>, before: seq<EventKind>, outcome: EventKind) {
    journal == before + [outcome, ActivityCompleted] + (if env.drained(|before|) then [SessionEnded] else [])
  }

  lemma CloseShows(env: Env, s: St, status: Status)
    requires !status.Running? && !status.Suspended?
    ensures Shows(env, Close(env, s, status, if status.Completed? then TurnCompleted else TurnFailed))
  {
    assert ShowsAfter(env, Close(env, s, status, if status.Completed? then TurnCompleted else TurnFailed).journal, s.journal,
      if status.Completed? then TurnCompleted else TurnFailed);
  }

  lemma StepShows(cfg: Config, env: Env, s: St, calls: seq<ToolCall>, round: nat, i: nat)
    requires i < |calls| && s.status == Running
    ensures Shows(env, BatchStep(cfg, env, s, calls, round, i))
  {
    var call := cfg.rules.prepare(s.packet.toolSpecs, calls[i], s.scope.runId, round, i);
    CloseShows(env, s, Failed(ToolSchemaValidationFailed));
    if cfg.rules.valid(s.packet.toolSpecs, call) {
      var (s', verdict) := Consult(cfg, env, s, call);
      CloseShows(env, s', Failed(PermissionCheckFailed));
      CloseShows(env, s', DeniedRun);
      if verdict.Ok? && verdict.value.Allowed? {
        InvokeShows(cfg, env, s, s', call);
      }
    }
  }

  lemma InvokeShows(cfg: Config, env: Env, before: St, s: St, call: ToolCall)
    requires s.status == Running
    ensures Shows(env, Invoke(cfg, env, before, s, call))
  {
    var (work, answered) := Perform(env, s.work, call);
    var s' := s.(
      work := work,
      invoked := s.invoked + [Invocation(call, CheckIn(cfg, before, call), env.world(before.checks))],
      journal := s.journal + [ToolInvoked, if answered then ToolSucceeded else ToolFailed]);
    CloseShows(env, s', Failed(ToolCallFailed));
  }

  lemma {:induction false} TrailShows(env: Env, keeps: (St, nat, St) -> bool, states: seq<St>, n: nat)
    requires Trail(keeps, 0, states) && n < |states| && Shows(env, states[0])
    requires forall x, k: nat, y :: keeps(x, k, y) ==> Shows(env, y)
    ensures Shows(env, states[n])
  {
    if n > 0 {
      assert TrailStep(keeps, 0, states, n);
    }
  }

  lemma BatchShows(cfg: Config, env: Env, s: St, calls: seq<ToolCall>, round: nat, r: St)
    requires s.status == Running && r == Batch(cfg, env, s, calls, round, 0)
    ensures Shows(env, r)
  {
    var keeps := (x: St, k: nat, y: St) => Shows(env, y);
    forall x, k: nat
      ensures StepSatisfies(cfg, env, calls, round, keeps, x, k)
    {
      if k < |calls| && x.status == Running {
        StepShows(cfg, env, x, calls, round, k);
      }
    }
    var states := BatchTrail(cfg, env, s, calls, round, keeps, r);
    TrailShows(env, keeps, states, |states| - 1);
  }

  lemma AnswerShows(cfg: Config, env: Env, s: St, turn: ModelTurn, finalizing: bool)
    requires s.status == Running
    ensures Shows(env, Answer(cfg, env, s, turn, finalizing))
  {
    CloseShows(env, s, Failed(ModelTurnFailed));
    CloseShows(env, s.(journal := s.journal + [TurnCompleted]), Completed);
    if turn.response.Some? {
      var s' := Respond(s, turn.response.value);
      CloseShows(env, s', Completed);
      CloseShows(env, s', Failed(ToolIterationLimitExceeded));
      CloseShows(env, s', Failed(ToolProviderMissing));
    }
  }

  lemma {:induction false} LoopShows(cfg: Config, env: Env, s: St, history: seq<Convergence.Turn>, finalizing: bool, r: St)
    requires s.status == Running && r == Loop(cfg, env, s, history, finalizing)
    ensures Shows(env, r) && r.status != Running
    decreases if s.work.toolRounds < cfg.maxToolIterations then cfg.maxToolIterations - s.work.toolRounds else 0
  {
    AnswerShows(cfg, env, RequestTurn(cfg, env, s), env.model(s.turns), finalizing);
    var (acted, calls) := TakeTurn(cfg, env, s, finalizing);
    if Answer(cfg, env, RequestTurn(cfg, env, s), env.model(s.turns), finalizing).status == Running {
      var answered := Answer(cfg, env, RequestTurn(cfg, env, s), env.model(s.turns), finalizing);
      BatchShows(cfg, env, Requesting(cfg, answered, calls), calls, answered.work.toolRounds, acted);
    }
    if acted.status == Running {
      var history' := history + [TurnOf(cfg, acted, calls)];
      var decision := Convergence.Decide(history');
      LoopShows(cfg, env, Steer(acted, decision), history', decision.Finalize?, r);
    }
  }

  /** The first segment of a run ends, and shows how. */
  lemma StartShows(cfg: Config, env: Env, scope: Scope, center: Center, newSession: bool)
    ensures
      var r := Started(cfg, env, scope, center, newSession);
      r.status != Running && Shows(env, r)
  {
    var s := Begin(Created(scope, center, newSession), [ActivityStarted]);
    CloseShows(env, s, Failed(LeaseAcquireFailed));
    CloseShows(env, s, Failed(ContextPacketFailed));
    if env.leased(s.checks) && env.packet(s.checks).Some? {
      var entered := Entered(Opened(s, env.packet(s.checks).value));
      LoopShows(cfg, env, entered, [], false, Loop(cfg, env, entered, [], false));
    }
  }

  /** So does every later one that is not refused, whatever approval it rules on. */
  lemma ResumeShows(cfg: Config, env: Env, s: St, approval: ApprovalId, d: Decision, override: Scope)
    requires Resume(cfg, env, s, approval, d, override).1.None?
    ensures
      var r := Resume(cfg, env, s, approval, d, override).0;
      r.status != Running && Shows(env, r)
  {
    var (s', error) := Reopen(cfg, env, s, approval, d, override);
    ReopenShows(cfg, env, s, approval, d, override, s', error);
    if s'.status == Running {
      ContinuedShows(cfg, env, s', Pending(s, approval));
    }
  }

  lemma ContinuedShows(cfg: Config, env: Env, s: St, pending: seq<ToolCall>)
    requires s.status == Running
    ensures Shows(env, Continued(cfg, env, s, pending)) && Continued(cfg, env, s, pending).status != Running
  {
    if pending == [] {
      LoopShows(cfg, env, Entered(s), [], false, EnterLoop(cfg, env, s));
    } else {
      var acted := Batch(cfg, env, s, pending, s.work.toolRounds, 0);
      BatchShows(cfg, env, s, pending, s.work.toolRounds, acted);
      if acted.status == Running {
        LoopShows(cfg, env, Entered(acted), [], false, EnterLoop(cfg, env, acted));
      }
    }
  }

  lemma ReopenShows(cfg: Config, env: Env, s: St, approval: ApprovalId, d: Decision, override: Scope, r: St, error: Option<ResumeError>)
    requires (r, error) == Reopen(cfg, env, s, approval, d, override) && error.None?
    ensures Shows(env, r)
  {
    var rec := s.center.records[approval];
    var scope := ResumeScope(rec, override);
    var (center, resolved, events) := ResolveSpec(s.center, env.world(s.checks), approval, d, scope);
    var s' := Resolved(s, center, events);
    CloseShows(env, Begin(s', [ActivityStarted]), DeniedRun);
    if d != Deny {
      ReopenedShows(cfg, env, s', rec.continuation.value, scope);
    }
  }

  lemma ReopenedShows(cfg: Config, env: Env, s: St, k: Continuation, scope: Scope)
    requires Reopened(cfg, env, s, k, scope).1.None?
    ensures Shows(env, Reopened(cfg, env, s, k, scope).0)
  {
    CloseShows(env, Begin(Restored(Looked(s), k, scope), [ActivityStarted]), Failed(LeaseAcquireFailed));
  }
}
