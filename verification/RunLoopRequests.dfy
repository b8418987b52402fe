/** The calls that the model asked for, read off its turns, and what became of them: nothing that was asked
    for in a turn that went on to tools is dropped, and nothing else is executed
    (pkg/rtagent/loop.go, loop_tools.go, approval_resume.go). */
module RunLoopRequests {
  import opened Types
  import opened Wrappers
  import opened Permission
  import opened PermissionCenter
  import opened RunLoop
  import opened RunLoopConservation
  import opened RunLoopInvariants
  import opened RunLoopBudget
  import Convergence
  import Text

  /****** One turn ******/

  /** A turn that answers with tool calls and asks for no approval of its own. */
  predicate WantsTools(turn: ModelTurn) {
    turn.response.Some? && turn.response.value.ask.None? && turn.response.value.toolCalls != []
  }

  /** The turn goes on to its tools. */
  predicate GoesOnToTools(cfg: Config, s: St, turn: ModelTurn, finalizing: bool) {
    WantsTools(turn) && !finalizing && s.work.toolRounds < cfg.maxToolIterations && cfg.toolsConfigured
  }

  /** How a turn ends that does not. */
  predicate EndsWithoutTools(cfg: Config, s: St, turn: ModelTurn, finalizing: bool, status: Status) {
    if turn.response.None? then status == Failed(ModelTurnFailed)
    else if finalizing then status == Completed
    else if turn.response.value.ask.Some? then status.Suspended? && status.approval.ForModel?
    else if turn.response.value.toolCalls == [] then status == Completed
    else if s.work.toolRounds >= cfg.maxToolIterations then status == LIMIT
    else status == Failed(ToolProviderMissing)
  }

  lemma AnswerDecides(cfg: Config, env: Env, s: St, finalizing: bool)
    requires s.status == Running
    ensures
      var turn := env.model(s.turns);
      var r := Answer(cfg, env, RequestTurn(cfg, env, s), turn, finalizing);
      && (r.status == Running <==> GoesOnToTools(cfg, s, turn, finalizing))
      && (r.status != Running ==> EndsWithoutTools(cfg, s, turn, finalizing, r.status))
      && r.requested == s.requested && r.turns == s.turns + 1 && r.packet == s.packet && r.scope == s.scope
      && r.iteration == s.iteration && r.work.executed == s.work.executed && r.work.toolRounds == s.work.toolRounds
      && (r.status.Suspended? ==> Pending(r, r.status.approval) == [])
  {
  }

  /** A turn that goes on to tools requests exactly the calls of the model, prepared; any other requests and
      executes nothing and ends the segment. */
  lemma TurnRequests(cfg: Config, env: Env, s: St, finalizing: bool)
    requires s.status == Running
    ensures
      var turn := env.model(s.turns);
      var (r, calls) := TakeTurn(cfg, env, s, finalizing);
      && r.turns == s.turns + 1 && r.packet == s.packet && r.scope == s.scope && r.iteration == s.iteration
      && (if GoesOnToTools(cfg, s, turn, finalizing) then
            && calls == turn.response.value.toolCalls
            && r.requested == s.requested + Prepared(cfg, s.packet.toolSpecs, calls, s.scope.runId, s.work.toolRounds, 0)
          else
            r.requested == s.requested && r.work.executed == s.work.executed && EndsWithoutTools(cfg, s, turn, finalizing, r.status))
  {
    var turn := env.model(s.turns);
    AnswerDecides(cfg, env, s, finalizing);
    var answered := Answer(cfg, env, RequestTurn(cfg, env, s), turn, finalizing);
    if answered.status == Running {
      ActBudget(cfg, env, answered, turn.response.value.toolCalls);
    }
  }

  /****** What the model asked for ******/

  /** How many of the first n turns want tools. */
  function Rounds(env: Env, n: nat): nat {
    if n == 0 then 0 else Rounds(env, n - 1) + if WantsTools(env.model(n - 1)) then 1 else 0
  }

  /** The calls of the first n turns that want tools, in order, prepared for their runs and rounds. */
  function Asked(cfg: Config, env: Env, specs: seq<ToolSpec>, ids: seq<string>, n: nat): seq<ToolCall>
    requires n <= |ids|
  {
    if n == 0 then [] else
      Asked(cfg, env, specs, ids, n - 1)
        + if WantsTools(env.model(n - 1))
          then Prepared(cfg, specs, env.model(n - 1).response.value.toolCalls, ids[n - 1], Rounds(env, n - 1), 0) else []
  }

  lemma {:induction false} AskedPrefix(cfg: Config, env: Env, specs: seq<ToolSpec>, ids: seq<string>, more: seq<string>, n: nat)
    requires n <= |ids|
    ensures Asked(cfg, env, specs, ids + more, n) == Asked(cfg, env, specs, ids, n)
  {
    if n > 0 {
      AskedPrefix(cfg, env, specs, ids, more, n - 1);
    }
  }

  /** The requested calls are what the first n turns asked for, for some run ids. */
  ghost predicate Booked(cfg: Config, env: Env, specs: seq<ToolSpec>, requested: seq<ToolCall>, n: nat) {
    exists ids: seq<string> :: |ids| == n && requested == Asked(cfg, env, specs, ids, n)
  }

  lemma BookNext(cfg: Config, env: Env, specs: seq<ToolSpec>, before: seq<ToolCall>, after: seq<ToolCall>, n: nat, runId: string)
    requires Booked(cfg, env, specs, before, n)
    requires after == before + if WantsTools(env.model(n))
      then Prepared(cfg, specs, env.model(n).response.value.toolCalls, runId, Rounds(env, n), 0) else []
    ensures Booked(cfg, env, specs, after, n + 1)
  {
    var ids: seq<string> :| |ids| == n && before == Asked(cfg, env, specs, ids, n);
    AskedPrefix(cfg, env, specs, ids, [runId], n);
    assert |ids + [runId]| == n + 1 && after == Asked(cfg, env, specs, ids + [runId], n + 1);
  }

  /** Between turns everything asked for is requested, and every turn that wanted tools was a round. */
  ghost predicate OpenBooks(cfg: Config, env: Env, s: St) {
    Booked(cfg, env, s.packet.toolSpecs, s.requested, s.turns) && s.work.toolRounds == Rounds(env, s.turns)
  }

  /** The calls of the last turn were discarded: the answer of a run that was told to finish, the limit, or
      no tools to call. */
  predicate Discards(cfg: Config, env: Env, s: St) {
    && s.turns > 0 && WantsTools(env.model(s.turns - 1))
    && match s.status
       case Completed => s.iteration >= cfg.maxToolIterations - 1
       case Failed(ToolIterationLimitExceeded) => s.work.toolRounds >= cfg.maxToolIterations
       case Failed(ToolProviderMissing) => !cfg.toolsConfigured
       case _ => false
  }

  /** Where a segment ends: everything asked for is requested, except for the last turn where it is discarded. */
  ghost predicate ClosedBooks(cfg: Config, env: Env, s: St) {
    if Discards(cfg, env, s) then Booked(cfg, env, s.packet.toolSpecs, s.requested, s.turns - 1)
    else
      && Booked(cfg, env, s.packet.toolSpecs, s.requested, s.turns)
      && (s.status.Suspended? ==>
            s.work.toolRounds + (if Pending(s, s.status.approval) == [] then 0 else 1) == Rounds(env, s.turns))
  }

  /****** The books are kept ******/

  predicate WaitsWithCalls(r: St) {
    r.status.Suspended? ==> Pending(r, r.status.approval) != []
  }

  lemma StepWaits(cfg: Config, env: Env, s: St, calls: seq<ToolCall>, round: nat, i: nat)
    requires i < |calls| && s.status == Running
    ensures
      var r := BatchStep(cfg, env, s, calls, round, i);
      WaitsWithCalls(r) && r.status != Completed && r.status != LIMIT && r.status != Failed(ToolProviderMissing)
  {
  }

  /** How a batch ends: with calls pending where it waits, and in no way that discards calls. */
  predicate BatchEnd(r: St) {
    WaitsWithCalls(r) && r.status != Completed && r.status != LIMIT && r.status != Failed(ToolProviderMissing)
  }

  lemma {:induction false} TrailWaits(keeps: (St, nat, St) -> bool, i: nat, states: seq<St>, n: nat)
    requires Trail(keeps, i, states) && n < |states| && states[0].status == Running
    requires forall x, k: nat, y :: keeps(x, k, y) ==> BatchEnd(y)
    ensures BatchEnd(states[n])
  {
    if n > 0 {
      assert TrailStep(keeps, i, states, n);
    }
  }

  lemma BatchWaits(cfg: Config, env: Env, s: St, calls: seq<ToolCall>, round: nat, r: St)
    requires s.status == Running && r == Batch(cfg, env, s, calls, round, 0)
    ensures BatchEnd(r)
  {
    var keeps := (x: St, k: nat, y: St) => BatchEnd(y);
    forall x, k: nat
      ensures StepSatisfies(cfg, env, calls, round, keeps, x, k)
    {
      if k < |calls| && x.status == Running {
        StepWaits(cfg, env, x, calls, round, k);
      }
    }
    var states := BatchTrail(cfg, env, s, calls, round, keeps, r);
    TrailWaits(keeps, 0, states, |states| - 1);
  }

  /** A batch whose calls are in the books leaves them open or closes them. */
  lemma BatchBooks(cfg: Config, env: Env, s: St, calls: seq<ToolCall>, r: St)
    requires s.status == Running && r == Batch(cfg, env, s, calls, s.work.toolRounds, 0)
    requires Booked(cfg, env, s.packet.toolSpecs, s.requested, s.turns) && s.work.toolRounds + 1 == Rounds(env, s.turns)
    ensures if r.status == Running then OpenBooks(cfg, env, r) else ClosedBooks(cfg, env, r)
  {
    BatchKeepsBudget(cfg, env, s, calls, s.work.toolRounds, r);
    BatchWaits(cfg, env, s, calls, s.work.toolRounds, r);
  }

  /** A turn that ends without tools closes the books. */
  lemma EndBooks(cfg: Config, env: Env, s: St, finalizing: bool, r: St)
    requires OpenBooks(cfg, env, s) && (finalizing ==> s.iteration >= cfg.maxToolIterations - 1)
    requires r.requested == s.requested && r.turns == s.turns + 1 && r.packet == s.packet
    requires r.iteration == s.iteration && r.work.toolRounds == s.work.toolRounds
    requires !GoesOnToTools(cfg, s, env.model(s.turns), finalizing)
    requires EndsWithoutTools(cfg, s, env.model(s.turns), finalizing, r.status)
    requires r.status.Suspended? ==> Pending(r, r.status.approval) == []
    ensures ClosedBooks(cfg, env, r)
  {
    if !WantsTools(env.model(s.turns)) {
      assert s.requested == s.requested + [];
      BookNext(cfg, env, s.packet.toolSpecs, s.requested, s.requested, s.turns, "");
    }
  }

  lemma TurnBooks(cfg: Config, env: Env, s: St, finalizing: bool, r: St)
    requires s.status == Running && OpenBooks(cfg, env, s) && r == TakeTurn(cfg, env, s, finalizing).0
    requires finalizing ==> s.iteration >= cfg.maxToolIterations - 1
    ensures if r.status == Running then OpenBooks(cfg, env, r) else ClosedBooks(cfg, env, r)
  {
    var turn := env.model(s.turns);
    AnswerDecides(cfg, env, s, finalizing);
    var answered := Answer(cfg, env, RequestTurn(cfg, env, s), turn, finalizing);
    if answered.status == Running {
      ToolsBooks(cfg, env, s, answered, r);
    } else {
      EndBooks(cfg, env, s, finalizing, r);
    }
  }

  /** A turn that goes on to tools enters their calls in the books and works through them. */
  lemma ToolsBooks(cfg: Config, env: Env, s: St, answered: St, r: St)
    requires OpenBooks(cfg, env, s) && WantsTools(env.model(s.turns)) && answered.status == Running
    requires answered.requested == s.requested && answered.turns == s.turns + 1 && answered.packet == s.packet
    requires answered.work.toolRounds == s.work.toolRounds
    requires r == Act(cfg, env, answered, env.model(s.turns).response.value.toolCalls)
    ensures if r.status == Running then OpenBooks(cfg, env, r) else ClosedBooks(cfg, env, r)
  {
    var calls := env.model(s.turns).response.value.toolCalls;
    EnteredInBooks(cfg, env, s, Requesting(cfg, answered, calls), answered.scope.runId);
    BatchBooks(cfg, env, Requesting(cfg, answered, calls), calls, r);
  }

  lemma EnteredInBooks(cfg: Config, env: Env, s: St, r: St, runId: string)
    requires OpenBooks(cfg, env, s) && WantsTools(env.model(s.turns))
    requires r.turns == s.turns + 1 && r.packet == s.packet && r.work.toolRounds == s.work.toolRounds
    requires r.requested == s.requested
      + Prepared(cfg, s.packet.toolSpecs, env.model(s.turns).response.value.toolCalls, runId, s.work.toolRounds, 0)
    ensures Booked(cfg, env, r.packet.toolSpecs, r.requested, r.turns) && r.work.toolRounds + 1 == Rounds(env, r.turns)
  {
    BookNext(cfg, env, s.packet.toolSpecs, s.requested, r.requested, s.turns, runId);
  }

  lemma {:induction false} LoopBooks(cfg: Config, env: Env, s: St, history: seq<Convergence.Turn>, finalizing: bool, r: St)
    requires s.status == Running && OpenBooks(cfg, env, s) && r == Loop(cfg, env, s, history, finalizing)
    requires finalizing ==> s.iteration >= cfg.maxToolIterations - 1
    ensures ClosedBooks(cfg, env, r)
    decreases if s.work.toolRounds < cfg.maxToolIterations then cfg.maxToolIterations - s.work.toolRounds else 0
  {
    var (acted, calls) := TakeTurn(cfg, env, s, finalizing);
    TurnBooks(cfg, env, s, finalizing, acted);
    if acted.status == Running {
      var next := TurnOf(cfg, acted, calls);
      var decision := Convergence.Decide(history + [next]);
      FinalizesAhead(history, next);
      LoopBooks(cfg, env, Steer(acted, decision), history + [next], decision.Finalize?, r);
    }
  }

  lemma StartedBooks(cfg: Config, env: Env, scope: Scope, center: Center, newSession: bool)
    ensures ClosedBooks(cfg, env, Started(cfg, env, scope, center, newSession))
  {
    var s := Begin(Created(scope, center, newSession), [ActivityStarted]);
    var none: seq<string> := [];
    assert Asked(cfg, env, s.packet.toolSpecs, none, 0) == [] && Booked(cfg, env, s.packet.toolSpecs, [], 0);
    if env.leased(s.checks) && env.packet(s.checks).Some? {
      var entered := Entered(Opened(s, env.packet(s.checks).value));
      assert Asked(cfg, env, entered.packet.toolSpecs, none, 0) == [] && Booked(cfg, env, entered.packet.toolSpecs, [], 0);
      LoopBooks(cfg, env, entered, [], false, Loop(cfg, env, entered, [], false));
    }
  }

  /** What reopening a run that waits leaves of its books. */
  predicate SameBooks(s: St, r: St) {
    r.requested == s.requested && r.turns == s.turns && r.packet == s.packet && r.work.toolRounds == s.work.toolRounds
  }

  lemma ReopenedBooks(cfg: Config, env: Env, s: St, k: Continuation, scope: Scope)
    requires s.status.Suspended? && k == ContinuationOf(s, k.pendingToolCalls)
    ensures
      var (r, error) := Reopened(cfg, env, s, k, scope);
      && SameBooks(s, r) && (error.Some? ==> r.status == s.status && r.center == s.center)
      && (error.None? ==> r.status == Running || r.status == Failed(LeaseAcquireFailed))
  {
  }

  lemma ReopenBooks(cfg: Config, env: Env, s: St, d: Decision, override: Scope)
    requires s.status.Suspended? && Accounted(s)
    ensures
      var (r, error) := Reopen(cfg, env, s, s.status.approval, d, override);
      && SameBooks(s, r)
      && (error.Some? ==> r.status == s.status && Pending(r, s.status.approval) == Pending(s, s.status.approval))
      && (error.None? ==> r.status == Running || r.status == DeniedRun || r.status == Failed(LeaseAcquireFailed))
  {
    var rec := s.center.records[s.status.approval];
    var scope := ResumeScope(rec, override);
    var (center, resolved, events) := ResolveSpec(s.center, env.world(s.checks), s.status.approval, d, scope);
    ReopenedBooks(cfg, env, Resolved(s, center, events), rec.continuation.value, scope);
  }

  lemma ResumeBooks(cfg: Config, env: Env, s: St, d: Decision, override: Scope, r: St)
    requires s.status.Suspended? && Accounted(s) && ClosedBooks(cfg, env, s)
    requires r == Resume(cfg, env, s, s.status.approval, d, override).0
    ensures ClosedBooks(cfg, env, r)
  {
    ReopenBooks(cfg, env, s, d, override);
    var (s', error) := Reopen(cfg, env, s, s.status.approval, d, override);
    var pending := Pending(s, s.status.approval);
    if error.None? && s'.status == Running {
      if pending == [] {
        LoopBooks(cfg, env, Entered(s'), [], false, r);
      } else {
        var acted := Batch(cfg, env, s', pending, s'.work.toolRounds, 0);
        BatchBooks(cfg, env, s', pending, acted);
        if acted.status == Running {
          LoopBooks(cfg, env, Entered(acted), [], false, r);
        }
      }
    }
  }

  lemma {:induction false} LifeBooks(cfg: Config, env: Env, s: St, rulings: seq<Ruling>, r: St)
    requires Regular(cfg) && Core(cfg, s) && Accounted(s) && ClosedBooks(cfg, env, s) && Orderly(cfg, env, s, rulings)
    requires r == Life(cfg, env, s, rulings)
    ensures ClosedBooks(cfg, env, r)
    decreases |rulings|
  {
    if rulings != [] {
      var a := rulings[0];
      var s' := Ruled(cfg, env, s, a).0;
      ResumeKeeps(cfg, env, s, a.approval, a.decision, a.override);
      ResumeAccounts(cfg, env, s, a.decision, a.override);
      ResumeBooks(cfg, env, s, a.decision, a.override, s');
      LifeBooks(cfg, env, s', rulings[1..], r);
    }
  }

  /****** The theorem ******/

  /** The calls that the model asked for in the turns of a run, without those that were discarded. */
  ghost predicate AskedFor(cfg: Config, env: Env, r: St, calls: seq<ToolCall>) {
    Booked(cfg, env, r.packet.toolSpecs, calls, if Discards(cfg, env, r) then r.turns - 1 else r.turns)
  }

  /** Over a whole run whose rulings are on the approvals it waits for, whatever model, tools, sessions and
      approvers do: the calls that the model asked for, turn by turn, are executed at most once and in order;
      all of them when the run completes, all but the pending ones while it waits. Only the last turn's calls
      can be discarded. Module RunLoopRepetition has what other rulings do. */
  lemma ExecutedOnce(cfg: Config, env: Env, scope: Scope, center: Center, newSession: bool, rulings: seq<Ruling>)
    requires Regular(cfg) && SoundRecords(cfg, center)
    requires Orderly(cfg, env, Started(cfg, env, scope, center, newSession), rulings)
    ensures
      var r := WholeRun(cfg, env, scope, center, newSession, rulings);
      && AskedFor(cfg, env, r, r.requested)
      && r.work.executed <= r.requested
      && (r.status == Completed ==> r.work.executed == r.requested)
      && (r.status.Suspended? ==> r.work.executed + Pending(r, r.status.approval) == r.requested)
  {
    var s := Started(cfg, env, scope, center, newSession);
    RunKeeps(cfg, env, Created(scope, center, newSession));
    StartedBooks(cfg, env, scope, center, newSession);
    LifeBooks(cfg, env, s, rulings, Life(cfg, env, s, rulings));
    WholeRunKeeps(cfg, env, scope, center, newSession, rulings);
  }
}
