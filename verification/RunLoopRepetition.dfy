/** An approval that is resolved again after its run went on and failed: the guards of a resumption let
    it through, and the call it stands for is executed again (pkg/rtagent/approval_resume.go). */
module RunLoopRepetition {
  import opened Types
  import opened Wrappers
  import opened Permission
  import opened PermissionCenter
  import opened RunLoop
  import opened RunLoopConservation
  import opened RunLoopInvariants
  import Convergence
  import Text

  /** The record of an approval for the first of the pending calls, resolved before or not. */
  predicate OnRecordFor(cfg: Config, center: Center, subject: Subject, k: Continuation) {
    && k.pendingToolCalls != [] && ApprovalFor(subject) in center.records
    && center.records[ApprovalFor(subject)].(granted := false) == RecordOf(subject).(continuation := Some(k))
    && subject == cfg.rules.classify(k.packet.toolSpecs, k.pendingToolCalls[0]).subject.(scope := subject.scope)
    && NormalScope(subject.scope) == subject.scope && !Text.Blank(subject.scope.runId)
  }

  /** A record stands for its subject and names its scope, also when it was resolved before. */
  lemma RecordStands(cfg: Config, center: Center, subject: Subject, k: Continuation)
    requires OnRecordFor(cfg, center, subject, k) && Regular(cfg)
    ensures
      var rec := center.records[ApprovalFor(subject)];
      && ResolveScope(rec, NO_OVERRIDE) == subject.scope && ResumeScope(rec, NO_OVERRIDE) == subject.scope
      && ResolveScope(rec, subject.scope) == subject.scope
      && StoredSubject(rec, subject.scope) == subject.(capability := CapabilityKey(subject.capability))
  {
    assert RegularCheck(cfg.rules.classify(k.packet.toolSpecs, k.pendingToolCalls[0]));
    assert subject.scope.runId != "";
  }

  /** The state in which the run takes up the pending calls again. */
  lemma ResolvedAgain(cfg: Config, env: Env, f: St, subject: Subject, k: Continuation, d: Decision) returns (s: St)
    requires Regular(cfg) && OnRecordFor(cfg, f.center, subject, k) && Admitted(cfg, env, subject.scope)
    requires Resumable(f.status) && d != Deny
    ensures Reopen(cfg, env, f, ApprovalFor(subject), d, NO_OVERRIDE) == (s, None) && s.status == Running
    ensures s.work.executed == f.work.executed && s.work.toolRounds == k.toolRounds
    ensures s.scope == subject.scope && s.packet == k.packet && OnRecordFor(cfg, s.center, subject, k)
    ensures Pending(f, ApprovalFor(subject)) == k.pendingToolCalls
    ensures GrantFor(subject.(capability := CapabilityKey(subject.capability)), d) in s.center.grants
  {
    RecordStands(cfg, f.center, subject, k);
    assert RunExists(env.world(f.checks), subject.scope.runId) && SessionRefusal(env.world(f.checks), subject.scope.sessionId).None?;
    assert RunExists(env.world(f.checks + 1), subject.scope.runId) && SessionRefusal(env.world(f.checks + 1), subject.scope.sessionId).None?;
    s := Reopen(cfg, env, f, ApprovalFor(subject), d, NO_OVERRIDE).0;
  }

  lemma PassesAgain(cfg: Config, env: Env, s: St, subject: Subject, k: Continuation, center: Center, d: Decision)
    requires Regular(cfg) && OnRecordFor(cfg, center, subject, k) && Accepting(env, subject.scope) && d != Deny
    requires s.scope == subject.scope && s.packet == k.packet
    requires GrantFor(subject.(capability := CapabilityKey(subject.capability)), d) in s.center.grants
    ensures PassesNow(cfg, env, s, k.pendingToolCalls[0])
  {
    RecordStands(cfg, center, subject, k);
    assert RegularCheck(cfg.rules.classify(k.packet.toolSpecs, k.pendingToolCalls[0]));
    assert SubjectOf(cfg, s, k.pendingToolCalls[0]) == subject;
    GrantedPasses(cfg, env, s, k.pendingToolCalls[0], center.records[ApprovalFor(subject)], d);
  }

  /****** Executed calls are never taken back ******/

  lemma StepGrows(cfg: Config, env: Env, s: St, calls: seq<ToolCall>, round: nat, i: nat)
    requires i < |calls|
    ensures s.work.executed <= BatchStep(cfg, env, s, calls, round, i).work.executed
  {
  }

  lemma {:induction false} TrailGrows(keeps: (St, nat, St) -> bool, i: nat, states: seq<St>, m: nat, n: nat)
    requires Trail(keeps, i, states) && m <= n < |states|
    requires forall x, k: nat, y :: keeps(x, k, y) ==> x.work.executed <= y.work.executed
    ensures states[m].work.executed <= states[n].work.executed
    decreases n
  {
    if m < n {
      TrailGrows(keeps, i, states, m, n - 1);
      assert TrailStep(keeps, i, states, n);
    }
  }

  /** A batch takes nothing back, from its beginning or from its first step on. */
  lemma BatchGrows(cfg: Config, env: Env, s: St, calls: seq<ToolCall>, round: nat, r: St)
    requires s.status == Running && calls != [] && r == Batch(cfg, env, s, calls, round, 0)
    ensures s.work.executed <= BatchStep(cfg, env, s, calls, round, 0).work.executed <= r.work.executed
  {
    var first := BatchStep(cfg, env, s, calls, round, 0);
    var keeps := (x: St, k: nat, y: St) => x.work.executed <= y.work.executed && (x == s && k == 0 ==> y == first);
    forall x, k: nat
      ensures StepSatisfies(cfg, env, calls, round, keeps, x, k)
    {
      if k < |calls| {
        StepGrows(cfg, env, x, calls, round, k);
      }
    }
    var states := BatchTrail(cfg, env, s, calls, round, keeps, r);
    assert TrailStep(keeps, 0, states, 1);
    TrailGrows(keeps, 0, states, 1, |states| - 1);
  }

  lemma AnswerGrows(cfg: Config, env: Env, s: St, finalizing: bool)
    ensures Answer(cfg, env, RequestTurn(cfg, env, s), env.model(s.turns), finalizing).work.executed == s.work.executed
    ensures Answer(cfg, env, RequestTurn(cfg, env, s), env.model(s.turns), finalizing).status == Running ==>
      env.model(s.turns).response.Some? && env.model(s.turns).response.value.toolCalls != []
      && s.work.toolRounds < cfg.maxToolIterations
  {
  }

  lemma TurnGrows(cfg: Config, env: Env, s: St, finalizing: bool)
    requires s.status == Running
    ensures s.work.executed <= TakeTurn(cfg, env, s, finalizing).0.work.executed
  {
    var answered := Answer(cfg, env, RequestTurn(cfg, env, s), env.model(s.turns), finalizing);
    AnswerGrows(cfg, env, s, finalizing);
    if answered.status == Running {
      var calls := env.model(s.turns).response.value.toolCalls;
      BatchGrows(cfg, env, Requesting(cfg, answered, calls), calls, answered.work.toolRounds, Act(cfg, env, answered, calls));
    }
  }

  lemma {:induction false} LoopGrows(cfg: Config, env: Env, s: St, history: seq<Convergence.Turn>, finalizing: bool, r: St)
    requires s.status == Running && r == Loop(cfg, env, s, history, finalizing)
    ensures s.work.executed <= r.work.executed
    decreases if s.work.toolRounds < cfg.maxToolIterations then cfg.maxToolIterations - s.work.toolRounds else 0
  {
    TurnGrows(cfg, env, s, finalizing);
    var (acted, calls) := TakeTurn(cfg, env, s, finalizing);
    if acted.status == Running {
      var history' := history + [TurnOf(cfg, acted, calls)];
      var decision := Convergence.Decide(history');
      LoopGrows(cfg, env, Steer(acted, decision), history', decision.Finalize?, r);
    }
  }

  /****** The first pending call ******/

  /** The first pending call is taken up and executed. */
  lemma FirstExecuted(cfg: Config, env: Env, s: St, calls: seq<ToolCall>, round: nat)
    requires calls != [] && s.status == Running
    requires
      var call := cfg.rules.prepare(s.packet.toolSpecs, calls[0], s.scope.runId, round, 0);
      call == calls[0] && cfg.rules.valid(s.packet.toolSpecs, call) && PassesNow(cfg, env, s, call)
    ensures BatchStep(cfg, env, s, calls, round, 0).work.executed == s.work.executed + [calls[0]]
  {
  }

  /** What goes on from pending calls starts with what their first step has executed. */
  lemma ContinuedStarts(cfg: Config, env: Env, s: St, pending: seq<ToolCall>)
    requires s.status == Running && pending != []
    ensures BatchStep(cfg, env, s, pending, s.work.toolRounds, 0).work.executed <= Continued(cfg, env, s, pending).work.executed
  {
    var acted := Batch(cfg, env, s, pending, s.work.toolRounds, 0);
    BatchGrows(cfg, env, s, pending, s.work.toolRounds, acted);
    if acted.status == Running {
      LoopGrows(cfg, env, Entered(acted), [], false, EnterLoop(cfg, env, acted));
    }
  }

  /** The executed calls, one more call, and whatever follows. */
  predicate ExecutedNext(f: St, r: St, call: ToolCall) {
    f.work.executed + [call] <= r.work.executed
  }

  /** Whether resolving an approval, for the first time or again, has its pending call executed (again)
      depends on the status of the run alone, where session, leases and tools admit it: it is executed
      next exactly when the run is suspended, running or failed. */
  lemma ExecutedAgainExactly(cfg: Config, env: Env, f: St, subject: Subject, k: Continuation, d: Decision)
    requires Regular(cfg) && OnRecordFor(cfg, f.center, subject, k) && Admitted(cfg, env, subject.scope) && d != Deny
    requires cfg.rules.valid(k.packet.toolSpecs, k.pendingToolCalls[0])
    requires Stable(cfg, k.packet.toolSpecs, k.pendingToolCalls, k.toolRounds)
    ensures ExecutedNext(f, Resume(cfg, env, f, ApprovalFor(subject), d, NO_OVERRIDE).0, k.pendingToolCalls[0])
      <==> f.status.Suspended? || f.status.Running? || f.status.Failed?
  {
    if Resumable(f.status) {
      var s := ResolvedAgain(cfg, env, f, subject, k, d);
      PassesAgain(cfg, env, s, subject, k, f.center, d);
      FirstStable(cfg, k.packet.toolSpecs, k.pendingToolCalls, s.scope.runId, k.toolRounds);
      FirstExecuted(cfg, env, s, k.pendingToolCalls, k.toolRounds);
      ContinuedStarts(cfg, env, s, k.pendingToolCalls);
    } else {
      NotResumed(cfg, env, f, subject, k, d);
    }
  }

  lemma NotResumed(cfg: Config, env: Env, f: St, subject: Subject, k: Continuation, d: Decision)
    requires Regular(cfg) && OnRecordFor(cfg, f.center, subject, k) && !Resumable(f.status) && d != Deny
    ensures Resume(cfg, env, f, ApprovalFor(subject), d, NO_OVERRIDE).0.work == f.work
  {
  }

  lemma FirstStable(cfg: Config, specs: seq<ToolSpec>, calls: seq<ToolCall>, runId: string, round: nat)
    requires calls != [] && Stable(cfg, specs, calls, round)
    ensures cfg.rules.prepare(specs, calls[0], runId, round, 0) == calls[0]
  {
    assert Prepared(cfg, specs, calls, runId, round, 0) == calls;
  }

  /** A run that is resumed and fails in its first pending call has that approval on record still. */
  lemma FailsOnRecord(cfg: Config, env: Env, w: St, subject: Subject, k: Continuation, d: Decision, f: St)
    requires Regular(cfg) && OnRecordFor(cfg, w.center, subject, k) && Admitted(cfg, env, subject.scope) && d != Deny
    requires Resumable(w.status) && cfg.rules.valid(k.packet.toolSpecs, k.pendingToolCalls[0])
    requires Stable(cfg, k.packet.toolSpecs, k.pendingToolCalls, k.toolRounds)
    requires env.tool(w.work.executed, k.pendingToolCalls[0]).None?
    requires f == Resume(cfg, env, w, ApprovalFor(subject), d, NO_OVERRIDE).0
    ensures f.status == Failed(ToolCallFailed) && f.work.executed == w.work.executed + [k.pendingToolCalls[0]]
    ensures OnRecordFor(cfg, f.center, subject, k)
  {
    var s := ResolvedAgain(cfg, env, w, subject, k, d);
    PassesAgain(cfg, env, s, subject, k, w.center, d);
    FirstStable(cfg, k.packet.toolSpecs, k.pendingToolCalls, s.scope.runId, k.toolRounds);
    FailsAtOnce(cfg, env, s, k.pendingToolCalls, f);
  }

  lemma FailsAtOnce(cfg: Config, env: Env, s: St, calls: seq<ToolCall>, f: St)
    requires calls != [] && s.status == Running && f == Continued(cfg, env, s, calls)
    requires
      var call := cfg.rules.prepare(s.packet.toolSpecs, calls[0], s.scope.runId, s.work.toolRounds, 0);
      call == calls[0] && cfg.rules.valid(s.packet.toolSpecs, call) && PassesNow(cfg, env, s, call)
    requires env.tool(s.work.executed, calls[0]).None?
    ensures f.center.records == s.center.records && f.status == Failed(ToolCallFailed)
    ensures f.work.executed == s.work.executed + [calls[0]]
  {
    assert f == BatchStep(cfg, env, s, calls, s.work.toolRounds, 0);
  }

  /** Resolving one approval twice, with a failure in between, executes its call twice. */
  lemma ResolvedTwiceExecutesTwice(cfg: Config, env: Env, w: St, subject: Subject, k: Continuation, d: Decision, again: Decision)
    requires Regular(cfg) && OnRecordFor(cfg, w.center, subject, k) && Admitted(cfg, env, subject.scope) && d != Deny && again != Deny
    requires w.status.Suspended? && cfg.rules.valid(k.packet.toolSpecs, k.pendingToolCalls[0])
    requires Stable(cfg, k.packet.toolSpecs, k.pendingToolCalls, k.toolRounds)
    requires env.tool(w.work.executed, k.pendingToolCalls[0]).None?
    ensures
      var call, approval := k.pendingToolCalls[0], ApprovalFor(subject);
      var f := Resume(cfg, env, w, approval, d, NO_OVERRIDE).0;
      && f.status == Failed(ToolCallFailed)
      && w.work.executed + [call, call] <= Resume(cfg, env, f, approval, again, NO_OVERRIDE).0.work.executed
  {
    var f := Resume(cfg, env, w, ApprovalFor(subject), d, NO_OVERRIDE).0;
    FailsOnRecord(cfg, env, w, subject, k, d, f);
    ExecutedAgainExactly(cfg, env, f, subject, k, again);
    assert w.work.executed + [k.pendingToolCalls[0]] + [k.pendingToolCalls[0]]
      == w.work.executed + [k.pendingToolCalls[0], k.pendingToolCalls[0]];
  }

  /****** Denied for good ******/

  /** A denial goes through for any approval on record whose scope and run are in order, whatever became of
      the run; it ends the run as denied, executes nothing and grants nothing. */
  lemma DenialEnds(cfg: Config, env: Env, s: St, approval: ApprovalId, override: Scope)
    ensures
      var (r, error) := Resume(cfg, env, s, approval, Deny, override);
      && (error.None? <==>
            && approval in s.center.records && ScopesAgree(ResolveScope(s.center.records[approval], NO_OVERRIDE), override)
            && RunExists(env.world(s.checks),
                 ResolveScope(s.center.records[approval], ResumeScope(s.center.records[approval], override)).runId))
      && (error.None? ==> r.status == DeniedRun)
      && (error.Some? ==> r.status == s.status)
      && r.work == s.work && r.center.grants == s.center.grants && r.invoked == s.invoked && r.frame == s.frame
  {
  }

  /** Statuses from which no ruling takes a run up again. */
  predicate IsOver(status: Status) {
    status.Completed? || status.DeniedRun?
  }

  /** What no ruling changes of a run that is over. */
  predicate Rests(s: St, r: St) {
    IsOver(r.status) && r.work == s.work && r.invoked == s.invoked && r.frame == s.frame
  }

  /** A decision that allows is refused. */
  lemma AllowRefused(cfg: Config, env: Env, s: St, approval: ApprovalId, d: Decision, override: Scope, r: St, error: Option<ResumeError>)
    requires IsOver(s.status) && d != Deny && (r, error) == Reopen(cfg, env, s, approval, d, override)
    ensures error.Some? && r.status == s.status && r.work == s.work && r.invoked == s.invoked && r.frame == s.frame
  {
    if approval in s.center.records && s.center.records[approval].continuation.Some? {
      var rec := s.center.records[approval];
      var scope := ResumeScope(rec, override);
      var (center, resolved, events) := ResolveSpec(s.center, env.world(s.checks), approval, d, scope);
      NotTakenUp(cfg, env, Resolved(s, center, events), rec.continuation.value, scope);
    }
  }

  lemma NotTakenUp(cfg: Config, env: Env, s: St, k: Continuation, scope: Scope)
    requires IsOver(s.status)
    ensures Reopened(cfg, env, s, k, scope) == (s, Some(NotResumable))
  {
  }

  lemma RulingRests(cfg: Config, env: Env, s: St, approval: ApprovalId, d: Decision, override: Scope)
    requires IsOver(s.status)
    ensures Rests(s, Resume(cfg, env, s, approval, d, override).0)
    ensures s.status.DeniedRun? ==> Resume(cfg, env, s, approval, d, override).0.status.DeniedRun?
  {
    if d == Deny {
      DenialEnds(cfg, env, s, approval, override);
    } else {
      var (r, error) := Reopen(cfg, env, s, approval, d, override);
      AllowRefused(cfg, env, s, approval, d, override, r, error);
    }
  }

  /** A run that has completed or was denied stays over, whatever approvals are ruled on: no call is executed
      and no model asked. A denied run stays denied. */
  lemma {:induction false} OverForGood(cfg: Config, env: Env, s: St, rulings: seq<Ruling>)
    requires IsOver(s.status)
    ensures Rests(s, Life(cfg, env, s, rulings))
    ensures s.status.DeniedRun? ==> Life(cfg, env, s, rulings).status.DeniedRun?
    decreases |rulings|
  {
    if rulings != [] {
      var a := rulings[0];
      RulingRests(cfg, env, s, a.approval, a.decision, a.override);
      OverForGood(cfg, env, Ruled(cfg, env, s, a).0, rulings[1..]);
    }
  }

  /** A call that waits for an approval is never executed once that approval was denied, whatever is ruled
      afterwards. */
  lemma DeniedForGood(cfg: Config, env: Env, s: St, approval: ApprovalId, override: Scope, rulings: seq<Ruling>)
    requires Resume(cfg, env, s, approval, Deny, override).1.None?
    ensures
      var r := Life(cfg, env, Resume(cfg, env, s, approval, Deny, override).0, rulings);
      r.status == DeniedRun && r.work == s.work && r.invoked == s.invoked
  {
    DenialEnds(cfg, env, s, approval, override);
    OverForGood(cfg, env, Resume(cfg, env, s, approval, Deny, override).0, rulings);
  }
}
