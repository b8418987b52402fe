/** The iteration budget of a run: how many model calls it makes, and exactly when it can fail with
    tool_iteration_limit_exceeded (pkg/rtagent/loop.go, convergence.go, approval_resume.go). */
module RunLoopBudget {
  import opened Types
  import opened Wrappers
  import opened Permission
  import opened PermissionCenter
  import opened RunLoop
  import opened RunLoopConservation
  import opened RunLoopInvariants
  import Convergence
  import Text

  const LIMIT := Failed(ToolIterationLimitExceeded)

  /** A batch makes no model call, counts no iteration and never fails for the limit. */
  predicate BatchBudget(s: St, r: St) {
    r.frame == s.frame && r.status != LIMIT && (r.status.Suspended? ==> r.work.toolRounds == s.work.toolRounds)
  }

  lemma StepBudget(cfg: Config, env: Env, s: St, calls: seq<ToolCall>, round: nat, i: nat)
    requires i < |calls| && s.status == Running
    ensures BatchBudget(s, BatchStep(cfg, env, s, calls, round, i))
    ensures BatchStep(cfg, env, s, calls, round, i).work.toolRounds == s.work.toolRounds
  {
  }

  /** What a step of a batch counts, and that it leaves the rounds alone. */
  predicate StepCounts(s: St, k: nat, r: St) {
    BatchBudget(s, r) && r.work.toolRounds == s.work.toolRounds
  }

  lemma {:induction false} TrailBudget(i: nat, states: seq<St>, n: nat)
    requires Trail(StepCounts, i, states) && n < |states| && states[0].status == Running
    ensures StepCounts(states[0], i, states[n])
  {
    if n > 0 {
      TrailBudget(i, states, n - 1);
      assert TrailStep(StepCounts, i, states, n);
    }
  }

  lemma BatchKeepsBudget(cfg: Config, env: Env, s: St, calls: seq<ToolCall>, round: nat, r: St)
    requires s.status == Running && r == Batch(cfg, env, s, calls, round, 0)
    ensures BatchBudget(s, r)
  {
    forall x, k: nat
      ensures StepSatisfies(cfg, env, calls, round, StepCounts, x, k)
    {
      if k < |calls| && x.status == Running {
        StepBudget(cfg, env, x, calls, round, k);
      }
    }
    var states := BatchTrail(cfg, env, s, calls, round, StepCounts, r);
    TrailBudget(0, states, |states| - 1);
  }

  lemma AnswerBudget(cfg: Config, env: Env, s: St, finalizing: bool)
    requires s.status == Running
    ensures
      var asked := RequestTurn(cfg, env, s);
      var r := Answer(cfg, env, asked, env.model(s.turns), finalizing);
      && r.turns == s.turns + 1 && r.iteration == s.iteration && r.work.toolRounds == s.work.toolRounds && r.scope == s.scope
      && (r.status == Running ==> !finalizing && env.model(s.turns).response.Some? && s.work.toolRounds < cfg.maxToolIterations)
      && (r.status == LIMIT ==> !finalizing && s.work.toolRounds >= cfg.maxToolIterations)
  {
  }

  /** The controller finalizes one iteration ahead of the budget, and for no other reason. */
  lemma FinalizesAhead(history: seq<Convergence.Turn>, turn: Convergence.Turn)
    ensures Convergence.Decide(history + [turn]).Finalize? <==> turn.limit > 0 && turn.iteration >= turn.limit - 1
  {
  }

  function Max(a: int, b: int): int {
    if a >= b then a else b
  }

  /** Model calls left at an entry of the loop. */
  function CallsLeft(cfg: Config, s: St, finalizing: bool): int {
    if finalizing then 1 else Max(cfg.maxToolIterations - 1 - s.iteration, 1) + 1
  }

  /** The exact condition under which no model can drive a loop entry into the limit. */
  predicate WithinLimit(cfg: Config, s: St) {
    s.work.toolRounds < cfg.maxToolIterations && s.iteration + 1 >= s.work.toolRounds
  }

  /** The iteration count is not behind the tool rounds. */
  predicate Leads(s: St) {
    s.iteration >= s.work.toolRounds
  }

  lemma {:induction false} LoopWithinBudget(cfg: Config, env: Env, s: St, history: seq<Convergence.Turn>, finalizing: bool)
    requires s.status == Running && cfg.maxToolIterations >= 1
    ensures Loop(cfg, env, s, history, finalizing).turns <= s.turns + CallsLeft(cfg, s, finalizing)
    ensures finalizing || WithinLimit(cfg, s) ==> Loop(cfg, env, s, history, finalizing).status != LIMIT
    decreases if s.work.toolRounds < cfg.maxToolIterations then cfg.maxToolIterations - s.work.toolRounds else 0
  {
    var turn := env.model(s.turns);
    AnswerBudget(cfg, env, s, finalizing);
    var answered := Answer(cfg, env, RequestTurn(cfg, env, s), turn, finalizing);
    if answered.status == Running {
      var calls := turn.response.value.toolCalls;
      ActBudget(cfg, env, answered, calls);
      var acted := Act(cfg, env, answered, calls);
      if acted.status == Running {
        var next := TurnOf(cfg, acted, calls);
        var decision := Convergence.Decide(history + [next]);
        FinalizesAhead(history, next);
        LoopWithinBudget(cfg, env, Steer(acted, decision), history + [next], decision.Finalize?);
      }
    }
  }

  lemma ActBudget(cfg: Config, env: Env, s: St, calls: seq<ToolCall>)
    requires s.status == Running
    ensures
      var r := Act(cfg, env, s, calls);
      BatchBudget(Requesting(cfg, s, calls), r) && (r.status == Running ==> r.work.toolRounds == s.work.toolRounds + 1)
  {
    BatchKeepsBudget(cfg, env, Requesting(cfg, s, calls), calls, s.work.toolRounds, Act(cfg, env, s, calls));
  }

  /** Bounded graceful exit: the first segment of a run with budget M makes at most max(M, 2) model
      calls and never fails for the limit. */
  lemma FreshRunWithinBudget(cfg: Config, env: Env, scope: Scope, center: Center, newSession: bool)
    requires cfg.maxToolIterations >= 1
    ensures
      var r := Run(cfg, env, Created(scope, center, newSession));
      r.turns <= Max(cfg.maxToolIterations, 2) && r.status != LIMIT
  {
    var s := Begin(Created(scope, center, newSession), [ActivityStarted]);
    if env.leased(s.checks) && env.packet(s.checks).Some? {
      EnterLoopWithinBudget(cfg, env, Opened(s, env.packet(s.checks).value));
    }
  }

  lemma EnterLoopWithinBudget(cfg: Config, env: Env, s: St)
    requires s.status == Running && cfg.maxToolIterations >= 1
    ensures EnterLoop(cfg, env, s).turns <= s.turns + CallsLeft(cfg, s, false)
    ensures WithinLimit(cfg, s) ==> EnterLoop(cfg, env, s).status != LIMIT
  {
    LoopWithinBudget(cfg, env, Entered(s), [], false);
  }

  /****** Continuations on record ******/

  /** The iteration count of a continuation is ahead of its tool rounds. */
  predicate AheadRecord(rec: Record) {
    rec.continuation.Some? ==> rec.continuation.value.iteration > rec.continuation.value.toolRounds
  }

  ghost predicate AheadRecords(center: Center) {
    forall approval <- center.records :: AheadRecord(center.records[approval])
  }

  lemma StepAhead(cfg: Config, env: Env, s: St, calls: seq<ToolCall>, round: nat, i: nat)
    requires i < |calls| && s.iteration >= round && AheadRecords(s.center)
    ensures AheadRecords(BatchStep(cfg, env, s, calls, round, i).center)
    ensures BatchStep(cfg, env, s, calls, round, i).frame == s.frame
  {
  }

  /** Records stay ahead from one state to the next, in the same frame. */
  ghost predicate StaysAhead(round: nat, s: St, r: St) {
    s.iteration >= round && AheadRecords(s.center) ==> r.frame == s.frame && AheadRecords(r.center)
  }

  lemma {:induction false} TrailAhead(round: nat, keeps: (St, nat, St) -> bool, i: nat, states: seq<St>, n: nat)
    requires Trail(keeps, i, states) && n < |states| && (forall x, k: nat, y :: keeps(x, k, y) ==> StaysAhead(round, x, y))
    ensures StaysAhead(round, states[0], states[n])
  {
    if n > 0 {
      TrailAhead(round, keeps, i, states, n - 1);
      assert TrailStep(keeps, i, states, n);
      assert StaysAhead(round, states[n - 1], states[n]);
    }
  }

  lemma BatchAhead(cfg: Config, env: Env, s: St, calls: seq<ToolCall>, round: nat, r: St)
    requires s.status == Running && r == Batch(cfg, env, s, calls, round, 0)
    ensures StaysAhead(round, s, r)
  {
    var keeps := (x: St, k: nat, y: St) => StaysAhead(round, x, y);
    forall x, k: nat
      ensures StepSatisfies(cfg, env, calls, round, keeps, x, k)
    {
      if k < |calls| && x.iteration >= round && AheadRecords(x.center) {
        StepAhead(cfg, env, x, calls, round, k);
      }
    }
    var states := BatchTrail(cfg, env, s, calls, round, keeps, r);
    TrailAhead(round, keeps, 0, states, |states| - 1);
  }

  /** A state of the loop with the iteration count and all records ahead. */
  ghost predicate AllAhead(s: St) {
    Leads(s) && AheadRecords(s.center)
  }

  lemma AnswerAhead(cfg: Config, env: Env, s: St, finalizing: bool)
    requires s.status == Running && AllAhead(s)
    ensures AllAhead(Answer(cfg, env, RequestTurn(cfg, env, s), env.model(s.turns), finalizing))
  {
  }

  lemma {:induction false} LoopAhead(cfg: Config, env: Env, s: St, history: seq<Convergence.Turn>, finalizing: bool, r: St)
    requires s.status == Running && AllAhead(s) && r == Loop(cfg, env, s, history, finalizing)
    ensures AheadRecords(r.center)
    decreases if s.work.toolRounds < cfg.maxToolIterations then cfg.maxToolIterations - s.work.toolRounds else 0
  {
    var turn := env.model(s.turns);
    AnswerBudget(cfg, env, s, finalizing);
    AnswerAhead(cfg, env, s, finalizing);
    var answered := Answer(cfg, env, RequestTurn(cfg, env, s), turn, finalizing);
    if answered.status == Running {
      var calls := turn.response.value.toolCalls;
      var acted := Act(cfg, env, answered, calls);
      ActBudget(cfg, env, answered, calls);
      BatchAhead(cfg, env, Requesting(cfg, answered, calls), calls, answered.work.toolRounds, acted);
      if acted.status == Running {
        var history' := history + [TurnOf(cfg, acted, calls)];
        var decision := Convergence.Decide(history');
        LoopAhead(cfg, env, Steer(acted, decision), history', decision.Finalize?, r);
      }
    }
  }

  lemma RunAhead(cfg: Config, env: Env, scope: Scope, center: Center, newSession: bool)
    requires AheadRecords(center)
    ensures AheadRecords(Started(cfg, env, scope, center, newSession).center)
  {
    var s := Begin(Created(scope, center, newSession), [ActivityStarted]);
    if env.leased(s.checks) && env.packet(s.checks).Some? {
      var entered := Entered(Opened(s, env.packet(s.checks).value));
      LoopAhead(cfg, env, entered, [], false, Loop(cfg, env, entered, [], false));
    }
  }

  /****** Resumed segments ******/

  /** The tool rounds with which the loop is entered again once a continuation is taken up. */
  function RoundsOnReturn(k: Continuation): nat {
    k.toolRounds + if k.pendingToolCalls == [] then 0 else 1
  }

  /** An approval whose continuation returns with its rounds used up. */
  predicate LateApproval(cfg: Config, center: Center, approval: ApprovalId) {
    && approval in center.records && center.records[approval].continuation.Some?
    && RoundsOnReturn(center.records[approval].continuation.value) >= cfg.maxToolIterations
  }

  /** What reopening leaves of the counts of a run. */
  predicate ReopenCounts(s: St, approval: ApprovalId, r: St, error: Option<ResumeError>) {
    && r.turns == s.turns
    && (if error.Some? then r.frame == s.frame && r.status == s.status else r.status != LIMIT && !r.status.Suspended?)
    && (error.None? && r.status == Running ==>
          && approval in s.center.records && s.center.records[approval].continuation.Some?
          && var k := s.center.records[approval].continuation.value;
             r.iteration >= k.iteration && r.work.toolRounds == k.toolRounds && Pending(s, approval) == k.pendingToolCalls)
  }

  lemma ReopenedCounts(cfg: Config, env: Env, s: St, k: Continuation, scope: Scope)
    ensures
      var (r, error) := Reopened(cfg, env, s, k, scope);
      && r.turns == s.turns && r.center == s.center
      && (if error.Some? then r.frame == s.frame && r.status == s.status
          else (r.status == Running || r.status == Failed(LeaseAcquireFailed)) && r.iteration >= k.iteration && r.work.toolRounds == k.toolRounds)
  {
  }

  lemma ReopenBudget(cfg: Config, env: Env, s: St, approval: ApprovalId, d: Decision, override: Scope)
    requires AheadRecords(s.center)
    ensures
      var (r, error) := Reopen(cfg, env, s, approval, d, override);
      ReopenCounts(s, approval, r, error) && AheadRecords(r.center)
  {
    if approval in s.center.records {
      var rec := s.center.records[approval];
      var scope := ResumeScope(rec, override);
      var (center, resolved, events) := ResolveSpec(s.center, env.world(s.checks), approval, d, scope);
      ResolvedAhead(s.center, env.world(s.checks), approval, d, scope);
      if rec.continuation.Some? {
        ReopenedCounts(cfg, env, Resolved(s, center, events), rec.continuation.value, scope);
      }
    }
  }

  lemma ResolvedAhead(s: Center, w: World, approval: ApprovalId, d: Decision, scope: Scope)
    requires AheadRecords(s)
    ensures AheadRecords(ResolveSpec(s, w, approval, d, scope).0)
  {
    var center := ResolveSpec(s, w, approval, d, scope).0;
    forall a | a in center.records
      ensures AheadRecord(center.records[a])
    {
      assert AheadRecord(s.records[a]);
    }
  }

  /** Taking up pending calls and going on. */
  lemma ContinuedWithinBudget(cfg: Config, env: Env, s: St, pending: seq<ToolCall>)
    requires s.status == Running && s.iteration > s.work.toolRounds && AheadRecords(s.center) && cfg.maxToolIterations >= 1
    ensures
      var r := Continued(cfg, env, s, pending);
      && r.turns <= s.turns + Max(cfg.maxToolIterations, 2) && AheadRecords(r.center)
      && (r.status == LIMIT ==> s.work.toolRounds + (if pending == [] then 0 else 1) >= cfg.maxToolIterations)
  {
    if pending == [] {
      EnterLoopWithinBudget(cfg, env, s);
      LoopAhead(cfg, env, Entered(s), [], false, EnterLoop(cfg, env, s));
    } else {
      var acted := Batch(cfg, env, s, pending, s.work.toolRounds, 0);
      BatchKeepsBudget(cfg, env, s, pending, s.work.toolRounds, acted);
      BatchAhead(cfg, env, s, pending, s.work.toolRounds, acted);
      if acted.status == Running {
        EnterLoopWithinBudget(cfg, env, acted);
        LoopAhead(cfg, env, Entered(acted), [], false, EnterLoop(cfg, env, acted));
      }
    }
  }

  /** Whatever approval is ruled on and whatever became of the run meanwhile: the segment makes at most
      max(M, 2) model calls and fails for the limit only if the approval is late. */
  lemma ResumeWithinBudget(cfg: Config, env: Env, s: St, approval: ApprovalId, d: Decision, override: Scope)
    requires AheadRecords(s.center) && cfg.maxToolIterations >= 1
    ensures
      var (r, error) := Resume(cfg, env, s, approval, d, override);
      && r.turns <= s.turns + Max(cfg.maxToolIterations, 2) && AheadRecords(r.center)
      && (if error.Some? then r.status == s.status else r.status == LIMIT ==> LateApproval(cfg, s.center, approval))
  {
    ReopenBudget(cfg, env, s, approval, d, override);
    var (s', error) := Reopen(cfg, env, s, approval, d, override);
    if error.None? && s'.status == Running {
      assert AheadRecord(s.center.records[approval]);
      ContinuedWithinBudget(cfg, env, s', Pending(s, approval));
    }
  }

  /** The n-th ruling is on an approval that is late where it is made. */
  predicate LateRuling(cfg: Config, env: Env, s: St, rulings: seq<Ruling>, n: nat)
    requires n < |rulings|
  {
    LateApproval(cfg, Life(cfg, env, s, rulings[..n]).center, rulings[n].approval)
  }

  lemma {:induction false} LimitNeedsLateApproval(cfg: Config, env: Env, s: St, rulings: seq<Ruling>)
    requires AheadRecords(s.center) && cfg.maxToolIterations >= 1 && s.status != LIMIT
    ensures Life(cfg, env, s, rulings).status == LIMIT ==> exists n: nat :: n < |rulings| && LateRuling(cfg, env, s, rulings, n)
    decreases |rulings|
  {
    if Life(cfg, env, s, rulings).status == LIMIT {
      var a, rest := rulings[0], rulings[1..];
      ResumeWithinBudget(cfg, env, s, a.approval, a.decision, a.override);
      var r := Ruled(cfg, env, s, a).0;
      if LateApproval(cfg, s.center, a.approval) {
        assert rulings[..0] == [];
        assert LateRuling(cfg, env, s, rulings, 0);
      } else {
        LimitNeedsLateApproval(cfg, env, r, rest);
        var n: nat :| n < |rest| && LateRuling(cfg, env, r, rest, n);
        assert rulings[..n + 1][1..] == rest[..n];
        assert LateRuling(cfg, env, s, rulings, n + 1);
      }
    }
  }

  /** Over a whole run, whatever approvals are ruled on and when, the limit is hit only if a late one was. */
  lemma RunNeedsLateApproval(cfg: Config, env: Env, scope: Scope, center: Center, newSession: bool, rulings: seq<Ruling>)
    requires AheadRecords(center) && cfg.maxToolIterations >= 1
    ensures WholeRun(cfg, env, scope, center, newSession, rulings).status == LIMIT ==>
      exists n: nat :: n < |rulings| && LateRuling(cfg, env, Started(cfg, env, scope, center, newSession), rulings, n)
  {
    FreshRunWithinBudget(cfg, env, scope, center, newSession);
    RunAhead(cfg, env, scope, center, newSession);
    LimitNeedsLateApproval(cfg, env, Started(cfg, env, scope, center, newSession), rulings);
  }

  /****** The condition is exact: a model that never stops asking for tools ******/

  /** Every call is valid, whatever position it is prepared for. */
  ghost predicate AllValid(cfg: Config, specs: seq<ToolSpec>, calls: seq<ToolCall>) {
    forall k, runId, round: nat, i: nat :: 0 <= k < |calls| ==>
      cfg.rules.valid(specs, cfg.rules.prepare(specs, calls[k], runId, round, i))
  }

  ghost predicate AsksOn(cfg: Config, specs: seq<ToolSpec>, turn: ModelTurn) {
    turn.response.Some? && turn.response.value.ask.None? && turn.response.value.toolCalls != []
    && AllValid(cfg, specs, turn.response.value.toolCalls)
  }

  /** Every model turn asks for valid tool calls and every tool answers. */
  ghost predicate Stubborn(cfg: Config, env: Env, specs: seq<ToolSpec>) {
    && cfg.toolsConfigured && (forall n: nat :: AsksOn(cfg, specs, env.model(n))) && (forall n: nat :: env.leased(n))
    && (forall done, call :: env.tool(done, call).Some?)
  }

  /** Everything is allowed for the run. */
  predicate Trusted(s: St, c: Subject) {
    GrantFor(c.(scope := NormalScope(s.scope)), AllowAllForRun) in s.center.grants
  }

  lemma TrustedPasses(cfg: Config, env: Env, s: St, c: Subject, call: ToolCall)
    requires Trusted(s, c) && Accepting(env, s.scope)
    ensures PassesNow(cfg, env, s, call)
  {
    var subject := SubjectOf(cfg, s, call);
    EveryDecisionIsACandidate(AllowAllForRun);
    MatchIs(s.center.grants, subject, 0);
    assert GrantFor(subject, AllowAllForRun) == GrantFor(c.(scope := NormalScope(s.scope)), AllowAllForRun);
    assert RunExists(env.world(s.checks), s.scope.runId) && SessionRefusal(env.world(s.checks), s.scope.sessionId).None?;
  }

  lemma StubbornStep(cfg: Config, env: Env, s: St, c: Subject, calls: seq<ToolCall>, round: nat, i: nat)
    requires Stubborn(cfg, env, s.packet.toolSpecs) && Trusted(s, c) && Accepting(env, s.scope) && s.status == Running
    requires i < |calls| && AllValid(cfg, s.packet.toolSpecs, calls)
    ensures
      var r := BatchStep(cfg, env, s, calls, round, i);
      r.status == Running && Trusted(r, c) && r.scope == s.scope && r.packet == s.packet
  {
    var call := cfg.rules.prepare(s.packet.toolSpecs, calls[i], s.scope.runId, round, i);
    TrustedPasses(cfg, env, s, c, call);
    assert cfg.rules.valid(s.packet.toolSpecs, call) && env.tool(s.work.executed, call).Some?;
  }

  /** The run goes on, trusted as before, in the same scope and with the same specs. */
  predicate GoesOn(env: Env, s: St, c: Subject, r: St) {
    r.status == Running && Trusted(r, c) && r.frame == s.frame
  }

  lemma {:induction false} TrailGoesOn(env: Env, keeps: (St, nat, St) -> bool, s: St, c: Subject, i: nat, states: seq<St>, n: nat)
    requires Trail(keeps, i, states) && n < |states| && GoesOn(env, s, c, states[0])
    requires forall x, k: nat, y :: keeps(x, k, y) && GoesOn(env, s, c, x) ==> GoesOn(env, s, c, y)
    ensures GoesOn(env, s, c, states[n])
  {
    if n > 0 {
      TrailGoesOn(env, keeps, s, c, i, states, n - 1);
      assert TrailStep(keeps, i, states, n);
    }
  }

  lemma StubbornBatch(cfg: Config, env: Env, s: St, c: Subject, calls: seq<ToolCall>, round: nat, r: St)
    requires Stubborn(cfg, env, s.packet.toolSpecs) && Trusted(s, c) && Accepting(env, s.scope) && s.status == Running
    requires AllValid(cfg, s.packet.toolSpecs, calls) && r == Batch(cfg, env, s, calls, round, 0)
    ensures r.status == Running && Trusted(r, c) && r.scope == s.scope && r.packet == s.packet
  {
    var keeps := (x: St, k: nat, y: St) => GoesOn(env, s, c, x) ==> GoesOn(env, s, c, y);
    forall x, k: nat
      ensures StepSatisfies(cfg, env, calls, round, keeps, x, k)
    {
      if k < |calls| && GoesOn(env, s, c, x) {
        StubbornStep(cfg, env, x, c, calls, round, k);
        StepBudget(cfg, env, x, calls, round, k);
      }
    }
    var states := BatchTrail(cfg, env, s, calls, round, keeps, r);
    TrailGoesOn(env, keeps, s, c, 0, states, |states| - 1);
  }

  lemma StubbornRound(cfg: Config, env: Env, s: St, c: Subject, r: St)
    requires Stubborn(cfg, env, s.packet.toolSpecs) && Trusted(s, c) && Accepting(env, s.scope) && s.status == Running
    requires s.work.toolRounds < cfg.maxToolIterations
    requires r == Act(cfg, env, Answer(cfg, env, RequestTurn(cfg, env, s), env.model(s.turns), false), env.model(s.turns).response.value.toolCalls)
    ensures Answer(cfg, env, RequestTurn(cfg, env, s), env.model(s.turns), false).status == Running
    ensures r.status == Running && Trusted(r, c) && r.scope == s.scope && r.packet == s.packet
    ensures r.iteration == s.iteration && r.work.toolRounds == s.work.toolRounds + 1
  {
    assert AsksOn(cfg, s.packet.toolSpecs, env.model(s.turns));
    AnswerBudget(cfg, env, s, false);
    var calls := env.model(s.turns).response.value.toolCalls;
    var a := Answer(cfg, env, RequestTurn(cfg, env, s), env.model(s.turns), false);
    StubbornBatch(cfg, env, Requesting(cfg, a, calls), c, calls, a.work.toolRounds, r);
    ActBudget(cfg, env, a, calls);
  }

  /** A stubborn model drives every entry that is not within the limit into the limit. */
  lemma {:induction false} StubbornHitsLimit(cfg: Config, env: Env, s: St, c: Subject, history: seq<Convergence.Turn>)
    requires Stubborn(cfg, env, s.packet.toolSpecs) && Trusted(s, c) && Accepting(env, s.scope) && s.status == Running
    requires !WithinLimit(cfg, s)
    ensures Loop(cfg, env, s, history, false).status == LIMIT
    decreases if s.work.toolRounds < cfg.maxToolIterations then cfg.maxToolIterations - s.work.toolRounds else 0
  {
    assert AsksOn(cfg, s.packet.toolSpecs, env.model(s.turns));
    if s.work.toolRounds < cfg.maxToolIterations {
      var calls := env.model(s.turns).response.value.toolCalls;
      var acted := Act(cfg, env, Answer(cfg, env, RequestTurn(cfg, env, s), env.model(s.turns), false), calls);
      StubbornRound(cfg, env, s, c, acted);
      var next := TurnOf(cfg, acted, calls);
      FinalizesAhead(history, next);
      var decision := Convergence.Decide(history + [next]);
      StubbornHitsLimit(cfg, env, Steer(acted, decision), c, history + [next]);
    }
  }

  /** Allowing everything for the run of any approval on record reopens it trusted. */
  lemma ReopenTrusted(cfg: Config, env: Env, s: St, approval: ApprovalId, k: Continuation) returns (s': St, c: Subject)
    requires approval in s.center.records && s.center.records[approval].continuation == Some(k) && Resumable(s.status)
    requires Admitted(cfg, env, ResolveScope(s.center.records[approval], NO_OVERRIDE))
    ensures Reopen(cfg, env, s, approval, AllowAllForRun, NO_OVERRIDE) == (s', None) && s'.status == Running
    ensures Trusted(s', c) && Accepting(env, s'.scope)
    ensures s'.packet == k.packet && s'.work.toolRounds == k.toolRounds
  {
    var rec := s.center.records[approval];
    var scope := ResolveScope(rec, NO_OVERRIDE);
    assert RunExists(env.world(s.checks), scope.runId) && SessionRefusal(env.world(s.checks), scope.sessionId).None?;
    assert RunExists(env.world(s.checks + 1), scope.runId) && SessionRefusal(env.world(s.checks + 1), scope.sessionId).None?;
    assert MergeScope(scope, scope) == scope && scope.runId != "";
    c := StoredSubject(rec, scope);
    s' := Reopen(cfg, env, s, approval, AllowAllForRun, NO_OVERRIDE).0;
  }

  /** The guarantee that a run never ends at the limit fails: once everything is allowed for the run of a
      late approval, it ends there, if the model stays stubborn. */
  lemma LateApprovalHitsLimit(cfg: Config, env: Env, s: St, approval: ApprovalId, k: Continuation)
    requires approval in s.center.records && s.center.records[approval].continuation == Some(k) && Resumable(s.status)
    requires Admitted(cfg, env, ResolveScope(s.center.records[approval], NO_OVERRIDE))
    requires Stubborn(cfg, env, k.packet.toolSpecs) && AllValid(cfg, k.packet.toolSpecs, k.pendingToolCalls)
    requires LateApproval(cfg, s.center, approval)
    ensures Resume(cfg, env, s, approval, AllowAllForRun, NO_OVERRIDE).0.status == LIMIT
  {
    var s', subject := ReopenTrusted(cfg, env, s, approval, k);
    if k.pendingToolCalls == [] {
      StubbornHitsLimit(cfg, env, Entered(s'), subject, []);
    } else {
      var acted := Batch(cfg, env, s', k.pendingToolCalls, s'.work.toolRounds, 0);
      StubbornBatch(cfg, env, s', subject, k.pendingToolCalls, s'.work.toolRounds, acted);
      StubbornHitsLimit(cfg, env, Entered(acted), subject, []);
    }
  }

  /** Under a stubborn model and with everything allowed, the rounds of the continuation decide: the run
      ends at the limit exactly when its approval is late. */
  lemma LimitExactly(cfg: Config, env: Env, s: St, approval: ApprovalId, k: Continuation)
    requires approval in s.center.records && s.center.records[approval].continuation == Some(k) && Resumable(s.status)
    requires Admitted(cfg, env, ResolveScope(s.center.records[approval], NO_OVERRIDE))
    requires Stubborn(cfg, env, k.packet.toolSpecs) && AllValid(cfg, k.packet.toolSpecs, k.pendingToolCalls)
    requires AheadRecords(s.center) && cfg.maxToolIterations >= 1
    ensures Resume(cfg, env, s, approval, AllowAllForRun, NO_OVERRIDE).0.status == LIMIT <==> LateApproval(cfg, s.center, approval)
  {
    var s', _ := ReopenTrusted(cfg, env, s, approval, k);
    ResumeWithinBudget(cfg, env, s, approval, AllowAllForRun, NO_OVERRIDE);
    if LateApproval(cfg, s.center, approval) {
      LateApprovalHitsLimit(cfg, env, s, approval, k);
    }
  }

  /** The first call of the first turn is one that the permission center asks about. */
  predicate AsksFirst(cfg: Config, specs: seq<ToolSpec>, calls: seq<ToolCall>, scope: Scope) {
    calls != [] &&
      var c := cfg.rules.classify(specs, cfg.rules.prepare(specs, calls[0], scope.runId, 0, 0));
      !FreelyAllowed(c.(subject := c.subject.(scope := NormalScope(scope))))
  }

  lemma FirstCallWaits(cfg: Config, env: Env, s: St, calls: seq<ToolCall>)
    requires Regular(cfg) && Accepting(env, s.scope) && s.status == Running && s.center.grants == {}
    requires AllValid(cfg, s.packet.toolSpecs, calls) && AsksFirst(cfg, s.packet.toolSpecs, calls, s.scope)
    ensures BatchStep(cfg, env, s, calls, 0, 0).status.Suspended?
  {
    var call := cfg.rules.prepare(s.packet.toolSpecs, calls[0], s.scope.runId, 0, 0);
    ConsultVerdict(cfg, env, s, call);
    MatchIs({}, SubjectOf(cfg, s, call), 0);
    assert cfg.rules.valid(s.packet.toolSpecs, call);
  }

  lemma FirstBatchWaits(cfg: Config, env: Env, s: St, calls: seq<ToolCall>)
    requires Regular(cfg) && Accepting(env, s.scope) && s.status == Running && s.center.grants == {} && s.work.toolRounds == 0
    requires AllValid(cfg, s.packet.toolSpecs, calls) && AsksFirst(cfg, s.packet.toolSpecs, calls, s.scope)
    ensures
      var r := Act(cfg, env, s, calls);
      && SuspendedBefore(cfg, r, Prepared(cfg, s.packet.toolSpecs, calls, s.scope.runId, 0, 0), 0)
      && r.work.toolRounds == 0 && |r.work.messages| >= |s.work.messages| && r.scope == s.scope && r.packet == s.packet
  {
    var s' := Requesting(cfg, s, calls);
    FirstCallWaits(cfg, env, s', calls);
    StepAgainstStraight(cfg, env, s', calls, 0, 0);
  }

  lemma PreparedValid(cfg: Config, specs: seq<ToolSpec>, calls: seq<ToolCall>, runId: string)
    requires Regular(cfg) && AllValid(cfg, specs, calls)
    ensures AllValid(cfg, specs, Prepared(cfg, specs, calls, runId, 0, 0))
  {
    var p := Prepared(cfg, specs, calls, runId, 0, 0);
    forall k, runId', round: nat, i: nat | 0 <= k < |p|
      ensures cfg.rules.valid(specs, cfg.rules.prepare(specs, p[k], runId', round, i))
    {
      PreparedAt(cfg, specs, calls, runId, 0, 0, k);
      assert PreparedOnce(cfg, specs, cfg.rules.prepare(specs, calls[k], runId, 0, k), runId', round, i);
    }
  }

  /** With a budget of one round: the first call of the first turn asks for approval, allowing
      everything for the run resumes it, and it ends at the limit. */
  lemma OneRoundHitsLimit(cfg: Config, env: Env, scope: Scope)
    requires cfg.maxToolIterations == 1 && Regular(cfg) && Accepting(env, scope) && !Text.Blank(scope.runId)
    requires env.packet(0).Some? && Stubborn(cfg, env, env.packet(0).value.toolSpecs)
    requires env.model(0).response.Some? && AsksFirst(cfg, env.packet(0).value.toolSpecs, env.model(0).response.value.toolCalls, scope)
    ensures
      var r := Run(cfg, env, Created(scope, Center({}, map[]), true));
      r.status.Suspended? && Resume(cfg, env, r, r.status.approval, AllowAllForRun, NO_OVERRIDE).0.status == LIMIT
  {
    var packet := env.packet(0).value;
    var begun := Begin(Created(scope, Center({}, map[]), true), [ActivityStarted]);
    var s := Entered(Opened(begun, packet));
    var r := Run(cfg, env, Created(scope, Center({}, map[]), true));
    assert r == Loop(cfg, env, s, [], false);
    FirstTurnWaits(cfg, env, s, r);
    var calls := env.model(0).response.value.toolCalls;
    PreparedValid(cfg, packet.toolSpecs, calls, scope.runId);
    WaitingAdmitted(cfg, env, r, Prepared(cfg, packet.toolSpecs, calls, scope.runId, 0, 0));
    LateApprovalHitsLimit(cfg, env, r, r.status.approval, r.center.records[r.status.approval].continuation.value);
  }

  /** The approval that a batch waits for names the scope of the run. */
  lemma WaitingAdmitted(cfg: Config, env: Env, s: St, pending: seq<ToolCall>)
    requires SuspendedBefore(cfg, s, pending, 0) && Accepting(env, s.scope) && !Text.Blank(s.scope.runId)
    ensures Accepting(env, ResolveScope(s.center.records[s.status.approval], NO_OVERRIDE))
  {
    var rec := s.center.records[s.status.approval];
    FitsKeeps(SubjectOf(cfg, s, pending[0]), rec, NO_OVERRIDE);
    AcceptingSame(env, s.scope, ResolveScope(rec, NO_OVERRIDE));
  }

  lemma FirstTurnWaits(cfg: Config, env: Env, s: St, r: St)
    requires cfg.maxToolIterations == 1 && Regular(cfg) && Stubborn(cfg, env, s.packet.toolSpecs) && Accepting(env, s.scope)
    requires s.status == Running && s.turns == 0 && s.work.toolRounds == 0 && s.center.grants == {}
    requires env.model(0).response.Some? && AsksFirst(cfg, s.packet.toolSpecs, env.model(0).response.value.toolCalls, s.scope)
    requires r == Loop(cfg, env, s, [], false)
    ensures
      var calls := env.model(0).response.value.toolCalls;
      && SuspendedBefore(cfg, r, Prepared(cfg, s.packet.toolSpecs, calls, s.scope.runId, 0, 0), 0)
      && r.work.toolRounds == 0 && r.work.messages != [] && r.scope == s.scope && r.packet == s.packet
  {
    assert AsksOn(cfg, s.packet.toolSpecs, env.model(0));
    AnswerBudget(cfg, env, s, false);
    var a := Answer(cfg, env, RequestTurn(cfg, env, s), env.model(0), false);
    FirstBatchWaits(cfg, env, a, env.model(0).response.value.toolCalls);
  }
}
