/** Suspending and resuming a batch conserves its tool work (pkg/rtagent/loop_tools.go,
    approval_resume.go): whatever approvals are asked for, each call is executed once, in order. */
module RunLoopConservation {
  import opened Types
  import opened Wrappers
  import opened Permission
  import opened PermissionCenter
  import opened RunLoop
  import Text

  /** The reference: a batch without permissions. */
  function Straight(cfg: Config, env: Env, specs: seq<ToolSpec>, w: Work, calls: seq<ToolCall>, runId: string, round: nat, i: nat)
    : (Work, Option<Failure>)
    requires i <= |calls|
    decreases |calls| - i
  {
    if i == |calls| then (w.(toolRounds := round + 1), None) else
      var call := cfg.rules.prepare(specs, calls[i], runId, round, i);
      if !cfg.rules.valid(specs, call) then (w, Some(ToolSchemaValidationFailed)) else
        var (w', answered) := Perform(env, w, call);
        if !answered then (w', Some(ToolCallFailed)) else Straight(cfg, env, specs, w', calls, runId, round, i + 1)
  }

  /** The run exists and its session accepts work whenever the center looks. */
  ghost predicate Accepting(env: Env, scope: Scope) {
    forall n: nat :: RunExists(env.world(n), scope.runId) && SessionRefusal(env.world(n), scope.sessionId).None?
  }

  predicate RegularCheck(c: Check) {
    NormalAction(c.subject.action, None) == c.subject.action && !c.dangerousCommand
  }

  predicate PreparedOnce(cfg: Config, specs: seq<ToolSpec>, call: ToolCall, runId: string, round: nat, i: nat) {
    cfg.rules.prepare(specs, call, runId, round, i) == call
  }

  /** What the theorems need of the rules, and what module ToolCalls shows of the rules in force:
      a prepared call stays as it is, and a check has a normal action and no dangerous command. */
  ghost predicate Regular(cfg: Config) {
    && (forall specs, call :: RegularCheck(cfg.rules.classify(specs, call)))
    && (forall specs, call, runId, round: nat, i: nat, runId', round': nat, i': nat ::
          PreparedOnce(cfg, specs, cfg.rules.prepare(specs, call, runId, round, i), runId', round', i'))
  }

  /** Everything about a state that a batch leaves alone. */
  predicate SameRunState(s: St, r: St) {
    r.frame == s.frame
  }

  function SubjectOf(cfg: Config, s: St, call: ToolCall): Subject {
    CheckIn(cfg, s, call).subject
  }

  /** A batch suspended before the given pending calls, with the continuation on record. */
  predicate SuspendedBefore(cfg: Config, s: St, pending: seq<ToolCall>, round: nat) {
    && pending != []
    && var subject := SubjectOf(cfg, s, pending[0]);
    && s.status == Suspended(ApprovalFor(subject))
    && ApprovalFor(subject) in s.center.records
    && s.center.records[ApprovalFor(subject)] ==
         RecordOf(subject).(continuation := Some(ContinuationOf(s, pending).(toolRounds := round)))
  }

  predicate PassesNow(cfg: Config, env: Env, s: St, call: ToolCall) {
    var verdict := CheckSpec(s.center, env.world(s.checks), CheckIn(cfg, s, call)).1;
    verdict.Ok? && verdict.value.Allowed?
  }

  lemma ConsultVerdict(cfg: Config, env: Env, s: St, call: ToolCall)
    requires Accepting(env, s.scope) && Regular(cfg)
    ensures
      var (s', verdict) := Consult(cfg, env, s, call);
      && verdict.Ok? && !verdict.value.Denied?
      && SameRunState(s, s') && s'.work == s.work && s'.status == s.status
      && (verdict.value.RequiresApproval? ==>
            verdict.value.approval == ApprovalFor(SubjectOf(cfg, s, call)) && s'.center.records ==
            s.center.records[ApprovalFor(SubjectOf(cfg, s, call)) := RecordOf(SubjectOf(cfg, s, call))])
  {
    assert RegularCheck(cfg.rules.classify(s.packet.toolSpecs, call));
    assert RunExists(env.world(s.checks), s.scope.runId);
  }

  lemma SuspendStep(cfg: Config, s: St, s': St, pending: seq<ToolCall>, round: nat)
    requires pending != [] && SameRunState(s, s')
    requires
      var subject := SubjectOf(cfg, s, pending[0]);
      s'.center.records == s.center.records[ApprovalFor(subject) := RecordOf(subject)]
    ensures
      var r := SuspendBatch(s', ApprovalFor(SubjectOf(cfg, s, pending[0])), pending, round);
      SameRunState(s, r) && r.work == s'.work && SuspendedBefore(cfg, r, pending, round)
  {
  }

  lemma InvokeStep(cfg: Config, env: Env, s: St, s': St, call: ToolCall)
    requires s'.status == Running && SameRunState(s, s')
    ensures
      var (r, done) := (Invoke(cfg, env, s, s', call), Perform(env, s'.work, call));
      && SameRunState(s, r) && r.work == done.0
      && r.status == if done.1 then Running else Failed(ToolCallFailed)
  {
  }

  predicate FollowsStraight(cfg: Config, env: Env, s: St, r: St, calls: seq<ToolCall>, round: nat, i: nat, j: nat)
    requires i <= |calls| && j <= |calls|
  {
    Straight(cfg, env, s.packet.toolSpecs, s.work, calls, s.scope.runId, round, i)
      == if r.status.Failed? then (r.work, Some(r.status.code))
         else Straight(cfg, env, s.packet.toolSpecs, r.work, calls, s.scope.runId, round, j)
  }

  /** One call of a batch against the reference. */
  lemma StepAgainstStraight(cfg: Config, env: Env, s: St, calls: seq<ToolCall>, round: nat, i: nat)
    requires s.status == Running && i < |calls| && Accepting(env, s.scope) && Regular(cfg)
    ensures
      var r := BatchStep(cfg, env, s, calls, round, i);
      && SameRunState(s, r) && (r.status == Running || r.status.Failed? || r.status.Suspended?)
      && |s.work.messages| <= |r.work.messages| && r.work.toolRounds == s.work.toolRounds
      && FollowsStraight(cfg, env, s, r, calls, round, i, if r.status == Running then i + 1 else i)
    ensures
      var r := BatchStep(cfg, env, s, calls, round, i);
      var pending := Prepared(cfg, s.packet.toolSpecs, calls, s.scope.runId, round, i);
      r.status.Suspended? ==> SuspendedBefore(cfg, r, pending, round) && !PassesNow(cfg, env, s, pending[0])
  {
    var call := cfg.rules.prepare(s.packet.toolSpecs, calls[i], s.scope.runId, round, i);
    if cfg.rules.valid(s.packet.toolSpecs, call) {
      var (s', verdict) := Consult(cfg, env, s, call);
      ConsultVerdict(cfg, env, s, call);
      if verdict.value.RequiresApproval? {
        SuspendStep(cfg, s, s', Prepared(cfg, s.packet.toolSpecs, calls, s.scope.runId, round, i), round);
      } else {
        InvokeStep(cfg, env, s, s', call);
      }
    }
  }

  /** A batch from i stopped at j, in line with the reference. */
  predicate StoppedAt(cfg: Config, env: Env, s: St, r: St, calls: seq<ToolCall>, round: nat, i: nat, j: nat)
    requires i <= |calls|
  {
    && i <= j <= |calls| && |s.work.messages| <= |r.work.messages|
    && SameRunState(s, r) && FollowsStraight(cfg, env, s, r, calls, round, i, j)
    && match r.status
       case Running => j == |calls| && r.work.toolRounds == round + 1
       case Failed(_) => true
       case Suspended(_) =>
         && r.work.toolRounds == round && j < |calls|
         && SuspendedBefore(cfg, r, Prepared(cfg, s.packet.toolSpecs, calls, s.scope.runId, round, j), round)
         && (j == i ==> !PassesNow(cfg, env, s, cfg.rules.prepare(s.packet.toolSpecs, calls[i], s.scope.runId, round, i)))
       case _ => false
  }

  predicate InLine(cfg: Config, env: Env, s: St, r: St, calls: seq<ToolCall>, round: nat, i: nat)
    requires i <= |calls|
  {
    exists j: nat :: j <= |calls| && StoppedAt(cfg, env, s, r, calls, round, i, j)
  }

  /** A call of a batch led from one state to the next, in line with the reference. */
  predicate LedTo(cfg: Config, env: Env, s: St, s': St, calls: seq<ToolCall>, round: nat, i: nat)
    requires i < |calls|
  {
    SameRunState(s, s') && |s.work.messages| <= |s'.work.messages| && FollowsStraight(cfg, env, s, s', calls, round, i, i + 1)
  }

  lemma InLineCompose(cfg: Config, env: Env, s: St, s': St, r: St, calls: seq<ToolCall>, round: nat, i: nat)
    requires i < |calls| && s'.status == Running && LedTo(cfg, env, s, s', calls, round, i)
    requires InLine(cfg, env, s', r, calls, round, i + 1)
    ensures InLine(cfg, env, s, r, calls, round, i)
  {
    var j: nat :| j <= |calls| && StoppedAt(cfg, env, s', r, calls, round, i + 1, j);
    assert StoppedAt(cfg, env, s, r, calls, round, i, j);
  }

  /** The next call of a batch stops in line or leads on. */
  lemma StepInLine(cfg: Config, env: Env, s: St, calls: seq<ToolCall>, round: nat, i: nat, s': St)
    requires s.status == Running && i < |calls| && Accepting(env, s.scope) && Regular(cfg) && s.work.toolRounds == round
    requires s' == BatchStep(cfg, env, s, calls, round, i)
    ensures s'.status != Running ==> InLine(cfg, env, s, s', calls, round, i)
    ensures s'.status == Running ==> LedTo(cfg, env, s, s', calls, round, i) && s'.work.toolRounds == round
  {
    StepAgainstStraight(cfg, env, s, calls, round, i);
    assert s'.status != Running ==> StoppedAt(cfg, env, s, s', calls, round, i, i);
  }

  /** One call of a batch, related to the reference: it leads on or stops in line. */
  ghost predicate StepRelates(cfg: Config, env: Env, s: St, s': St, calls: seq<ToolCall>, round: nat, i: nat) {
    i < |calls| && Accepting(env, s.scope) && s.work.toolRounds == round ==>
      if s'.status == Running then LedTo(cfg, env, s, s', calls, round, i) && s'.work.toolRounds == round
      else InLine(cfg, env, s, s', calls, round, i)
  }

  /** Either way, being in line from the next state on carries back to this one. */
  lemma StepCarries(cfg: Config, env: Env, s: St, s': St, r: St, calls: seq<ToolCall>, round: nat, i: nat)
    requires s.status == Running && i < |calls| && Accepting(env, s.scope) && s.work.toolRounds == round
    requires StepRelates(cfg, env, s, s', calls, round, i)
    ensures s'.status == Running ==>
      && Accepting(env, s'.scope) && s'.work.toolRounds == round
      && (InLine(cfg, env, s', r, calls, round, i + 1) ==> InLine(cfg, env, s, r, calls, round, i))
    ensures s'.status != Running ==> InLine(cfg, env, s, s', calls, round, i)
  {
    if s'.status == Running && InLine(cfg, env, s', r, calls, round, i + 1) {
      InLineCompose(cfg, env, s, s', r, calls, round, i);
    }
  }

  lemma InLineEnd(cfg: Config, env: Env, s: St, calls: seq<ToolCall>, round: nat)
    requires s.status == Running
    ensures InLine(cfg, env, s, Finished(s, round), calls, round, |calls|)
  {
    assert StoppedAt(cfg, env, s, Finished(s, round), calls, round, |calls|, |calls|);
  }

  /** What holds carries back along a step, and good states lead to good states. */
  ghost predicate Carries(keeps: (St, nat, St) -> bool, good: (St, nat) -> bool, holds: (St, nat) -> bool, r: St, x: St, k: nat, y: St) {
    keeps(x, k, y) && good(x, k) ==>
      if y.status == Running then good(y, k + 1) && (holds(y, k + 1) ==> holds(x, k)) else r == y ==> holds(x, k)
  }

  /** What carries back along every step holds at the start of a trail if it holds at its end. */
  lemma {:induction false} TrailHolds(keeps: (St, nat, St) -> bool, good: (St, nat) -> bool, holds: (St, nat) -> bool, r: St,
                                      states: seq<St>, n: nat)
    requires Trail(keeps, 0, states) && n < |states| && states[n].status == Running && good(states[n], n)
    requires forall x, k: nat, y :: Carries(keeps, good, holds, r, x, k, y)
    requires
      var last := states[|states| - 1];
      if last.status == Running then good(last, |states| - 1) ==> holds(last, |states| - 1) else r == last
    ensures holds(states[n], n)
    decreases |states| - n
  {
    if n < |states| - 1 {
      assert TrailStep(keeps, 0, states, n + 1);
      assert Carries(keeps, good, holds, r, states[n], n, states[n + 1]);
      assert n + 2 < |states| ==> TrailStep(keeps, 0, states, n + 2);
      if states[n + 1].status == Running {
        TrailHolds(keeps, good, holds, r, states, n + 1);
      }
    }
  }

  /** Every batch runs in line with the reference. */
  lemma BatchAgainstStraight(cfg: Config, env: Env, s: St, calls: seq<ToolCall>, round: nat, r: St)
    requires s.status == Running && Accepting(env, s.scope) && Regular(cfg)
    requires s.work.toolRounds == round && r == Batch(cfg, env, s, calls, round, 0)
    ensures InLine(cfg, env, s, r, calls, round, 0)
  {
    var keeps: (St, nat, St) -> bool := (x, k: nat, y) => k < |calls| && StepRelates(cfg, env, x, y, calls, round, k);
    forall x, k: nat
      ensures StepSatisfies(cfg, env, calls, round, keeps, x, k)
    {
      if k < |calls| && x.status == Running && Accepting(env, x.scope) && x.work.toolRounds == round {
        StepInLine(cfg, env, x, calls, round, k, BatchStep(cfg, env, x, calls, round, k));
      }
    }
    var states := BatchTrail(cfg, env, s, calls, round, keeps, r);
    TrailInLine(cfg, env, calls, round, keeps, states, r);
  }

  lemma TrailInLine(cfg: Config, env: Env, calls: seq<ToolCall>, round: nat, keeps: (St, nat, St) -> bool, states: seq<St>, r: St)
    requires keeps == ((x, k: nat, y) => k < |calls| && StepRelates(cfg, env, x, y, calls, round, k))
    requires Trail(keeps, 0, states) && states[0].status == Running
    requires Accepting(env, states[0].scope) && states[0].work.toolRounds == round
    requires r == Finished(states[|states| - 1], round)
    requires states[|states| - 1].status == Running ==> |states| == |calls| + 1
    ensures InLine(cfg, env, states[0], r, calls, round, 0)
  {
    var good := (x: St, k: nat) => x.status == Running && Accepting(env, x.scope) && x.work.toolRounds == round;
    var holds := (x: St, k: nat) => k <= |calls| && InLine(cfg, env, x, r, calls, round, k);
    forall x, k: nat, y
      ensures Carries(keeps, good, holds, r, x, k, y)
    {
      if keeps(x, k, y) && good(x, k) {
        StepCarries(cfg, env, x, y, r, calls, round, k);
      }
    }
    var last := states[|states| - 1];
    if last.status == Running {
      InLineEnd(cfg, env, last, calls, round);
    }
    TrailHolds(keeps, good, holds, r, states, 0);
  }

  /****** Pending calls are the rest of the batch ******/

  lemma {:induction false} PreparedAt(cfg: Config, specs: seq<ToolSpec>, calls: seq<ToolCall>, runId: string, round: nat, j: nat, m: nat)
    requires j <= |calls| && m < |calls| - j
    ensures Prepared(cfg, specs, calls, runId, round, j)[m] == cfg.rules.prepare(specs, calls[j + m], runId, round, j + m)
    decreases m
  {
    if m > 0 {
      PreparedAt(cfg, specs, calls, runId, round, j + 1, m - 1);
    }
  }

  /** Executing the pending calls of a stopped batch is executing the rest of the batch. */
  lemma {:induction false} PendingIsTheRest(cfg: Config, env: Env, specs: seq<ToolSpec>, w: Work, calls: seq<ToolCall>, runId: string, runId': string, round: nat, j: nat, m: nat)
    requires Regular(cfg) && j <= |calls| && m <= |calls| - j
    ensures Straight(cfg, env, specs, w, Prepared(cfg, specs, calls, runId, round, j), runId', round, m)
      == Straight(cfg, env, specs, w, calls, runId, round, j + m)
    decreases |calls| - j - m
  {
    if m < |calls| - j {
      PreparedAt(cfg, specs, calls, runId, round, j, m);
      assert PreparedOnce(cfg, specs, cfg.rules.prepare(specs, calls[j + m], runId, round, j + m), runId', round, m);
      var done := Perform(env, w, cfg.rules.prepare(specs, calls[j + m], runId, round, j + m));
      PendingIsTheRest(cfg, env, specs, done.0, calls, runId, runId', round, j, m + 1);
    }
  }

  lemma {:induction false} PreparedAgain(cfg: Config, specs: seq<ToolSpec>, calls: seq<ToolCall>, runId: string, runId': string, round: nat, j: nat, m: nat)
    requires Regular(cfg) && j <= |calls| && m <= |calls| - j
    ensures Prepared(cfg, specs, Prepared(cfg, specs, calls, runId, round, j), runId', round, m) == Prepared(cfg, specs, calls, runId, round, j + m)
    decreases |calls| - j - m
  {
    if m < |calls| - j {
      PreparedAt(cfg, specs, calls, runId, round, j, m);
      assert PreparedOnce(cfg, specs, cfg.rules.prepare(specs, calls[j + m], runId, round, j + m), runId', round, m);
      PreparedAgain(cfg, specs, calls, runId, runId', round, j, m + 1);
    }
  }

  /****** Resuming ******/

  /** Scopes that name the same run, session and root run, up to surrounding white space. */
  predicate SameIds(a: Scope, b: Scope) {
    Text.Trim(a.runId) == Text.Trim(b.runId) && Text.Trim(a.sessionId) == Text.Trim(b.sessionId)
    && Text.Trim(a.rootRunId) == Text.Trim(b.rootRunId)
  }

  predicate Agrees(base: string, override: string) {
    override == "" || Text.Trim(override) == Text.Trim(base)
  }

  /** An override that, where it names the run, session or root run, names those of the scope. */
  predicate Fits(scope: Scope, override: Scope) {
    Agrees(scope.runId, override.runId) && Agrees(scope.sessionId, override.sessionId)
    && Agrees(NormalScope(scope).rootRunId, override.rootRunId)
  }

  lemma FitsKeeps(subject: Subject, rec: Record, override: Scope)
    requires Fits(subject.scope, override) && !Text.Blank(subject.scope.runId) && NormalScope(subject.scope) == subject.scope
    requires rec.(continuation := None) == RecordOf(subject)
    ensures ResolveScope(rec, NO_OVERRIDE) == subject.scope
    ensures ScopesAgree(subject.scope, override)
    ensures SameIds(NormalScope(ResumeScope(rec, override)), subject.scope)
    ensures ResumeScope(rec, override).runId != "" && ResolveScope(rec, ResumeScope(rec, override)) == ResumeScope(rec, override)
  {
  }

  lemma AcceptingSame(env: Env, a: Scope, b: Scope)
    requires Accepting(env, a) && Text.Trim(a.runId) == Text.Trim(b.runId) && Text.Trim(a.sessionId) == Text.Trim(b.sessionId)
    ensures Accepting(env, b)
  {
  }

  /****** From a suspension to the next ******/

  /** What a resumption needs besides the approval: leases, a tool provider and a conversation. */
  ghost predicate Ready(cfg: Config, env: Env, s: St) {
    cfg.toolsConfigured && (forall n: nat :: env.leased(n)) && s.work.messages != [] && !Text.Blank(s.scope.runId)
  }

  /** What a resumption asks for besides a resumable run. */
  ghost predicate Admitted(cfg: Config, env: Env, scope: Scope) {
    cfg.toolsConfigured && (forall n: nat :: env.leased(n)) && Accepting(env, scope)
  }

  lemma ReopenedRestores(cfg: Config, env: Env, s: St, k: Continuation, scope: Scope)
    requires Ready(cfg, env, s) && Accepting(env, scope) && s.status.Suspended?
    requires k.pendingToolCalls != [] && k.messages == s.work.messages && k.transcript == s.work.transcript && k.observations == s.work.observations
      && k.toolRounds == s.work.toolRounds && k.packet == s.packet
    ensures
      var (s', error) := Reopened(cfg, env, s, k, scope);
      && error.None? && s'.status == Running && s'.work == s.work && s'.packet == s.packet && s'.requested == s.requested
      && s'.scope == scope && s'.center == s.center
  {
  }

  lemma ReopenResolves(cfg: Config, env: Env, s: St, pending: seq<ToolCall>, round: nat, d: Decision, override: Scope)
    requires SuspendedBefore(cfg, s, pending, round) && s.work.toolRounds == round && Accepting(env, s.scope) && Ready(cfg, env, s)
    requires d != Deny && Fits(NormalScope(s.scope), override)
    ensures
      var subject := SubjectOf(cfg, s, pending[0]);
      var rec := s.center.records[ApprovalFor(subject)];
      var scope := ResumeScope(rec, override);
      var (s', error) := Reopen(cfg, env, s, s.status.approval, d, override);
      && Accepting(env, scope) && SameIds(NormalScope(scope), NormalScope(s.scope))
      && StoredSubject(rec, scope).scope == NormalScope(scope)
      && error.None? && s'.status == Running && s'.work == s.work && s'.packet == s.packet && s'.requested == s.requested
      && s'.scope == scope && GrantFor(StoredSubject(rec, scope), d) in s'.center.grants
  {
    var subject := SubjectOf(cfg, s, pending[0]);
    var rec := s.center.records[ApprovalFor(subject)];
    var scope := ResumeScope(rec, override);
    FitsKeeps(subject, rec, override);
    AcceptingSame(env, s.scope, scope);
    assert RunExists(env.world(s.checks), scope.runId) && SessionRefusal(env.world(s.checks), scope.sessionId).None?;
    var (center, resolved, events) := ResolveSpec(s.center, env.world(s.checks), s.status.approval, d, scope);
    ReopenedRestores(cfg, env, Resolved(s, center, events), rec.continuation.value, scope);
  }

  /** Reopening a suspended batch with a decision that allows restores its work exactly, and the
      call it stopped at passes. */
  lemma ReopenPasses(cfg: Config, env: Env, s: St, pending: seq<ToolCall>, round: nat, d: Decision, override: Scope)
    requires Regular(cfg) && Accepting(env, s.scope) && Ready(cfg, env, s)
    requires SuspendedBefore(cfg, s, pending, round) && s.work.toolRounds == round
    requires d != Deny && Fits(NormalScope(s.scope), override)
    ensures
      var (s', error) := Reopen(cfg, env, s, s.status.approval, d, override);
      && error.None? && s'.status == Running && s'.work == s.work && s'.packet == s.packet && s'.requested == s.requested
      && Accepting(env, s'.scope) && Ready(cfg, env, s')
      && SameIds(NormalScope(s'.scope), NormalScope(s.scope))
      && PassesNow(cfg, env, s', pending[0])
  {
    var rec := s.center.records[s.status.approval];
    ReopenResolves(cfg, env, s, pending, round, d, override);
    var s' := Reopen(cfg, env, s, s.status.approval, d, override).0;
    assert RegularCheck(cfg.rules.classify(s.packet.toolSpecs, pending[0]));
    assert RunExists(env.world(0), s'.scope.runId);
    GrantedPasses(cfg, env, s', pending[0], rec, d);
  }

  /** The grant issued for a stored call lets that call pass in the scope it was resolved in. */
  lemma GrantedPasses(cfg: Config, env: Env, s: St, call: ToolCall, rec: Record, d: Decision)
    requires d != Deny && Accepting(env, s.scope)
    requires StoredSubject(rec, s.scope) ==
      SubjectOf(cfg, s, call).(capability := CapabilityKey(SubjectOf(cfg, s, call).capability))
    requires GrantFor(StoredSubject(rec, s.scope), d) in s.center.grants
    ensures PassesNow(cfg, env, s, call)
  {
    var subject := SubjectOf(cfg, s, call);
    CoversByApproval(d, subject, subject);
    GrantIdentity(StoredSubject(rec, s.scope), d, subject, d);
    EveryDecisionIsACandidate(d);
    MatchIs(s.center.grants, subject, 0);
    assert RunExists(env.world(s.checks), s.scope.runId) && SessionRefusal(env.world(s.checks), s.scope.sessionId).None?;
  }

  datatype Resolution = Resolution(decision: Decision, override: Scope)

  /** Answers the approvals of a suspended batch one after the other, up to the end of the batch. */
  function Drive(cfg: Config, env: Env, s: St, resolutions: seq<Resolution>): St
    decreases |resolutions|
  {
    if !s.status.Suspended? || resolutions == [] then s else
      var pending := Pending(s, s.status.approval);
      var (s', error) := Reopen(cfg, env, s, s.status.approval, resolutions[0].decision, resolutions[0].override);
      if error.Some? || s'.status != Running then s'
      else Drive(cfg, env, Batch(cfg, env, s', pending, s'.work.toolRounds, 0), resolutions[1..])
  }

  /** Every resolution allows, and overrides nothing that names the run. */
  predicate AllAllow(scope: Scope, resolutions: seq<Resolution>) {
    forall k :: 0 <= k < |resolutions| ==> resolutions[k].decision != Deny && Fits(scope, resolutions[k].override)
  }

  function EndOf(r: St): (Work, Option<Failure>) {
    (r.work, if r.status.Failed? then Some(r.status.code) else None)
  }

  lemma AllAllowRest(a: Scope, b: Scope, resolutions: seq<Resolution>)
    requires resolutions != [] && AllAllow(a, resolutions) && NormalScope(a) == a && NormalScope(b) == b && SameIds(a, b)
    ensures AllAllow(b, resolutions[1..])
  {
  }

  /** How many approvals a batch from i may still ask for. */
  function MayAsk(cfg: Config, env: Env, s: St, calls: seq<ToolCall>, round: nat, i: nat): nat
    requires i <= |calls|
  {
    if i < |calls| && PassesNow(cfg, env, s, cfg.rules.prepare(s.packet.toolSpecs, calls[i], s.scope.runId, round, i))
    then |calls| - i - 1 else |calls| - i
  }

  /** Once the call it stopped at passes, a stopped batch may ask for one approval less than it has calls left. */
  lemma PendingMayAsk(cfg: Config, env: Env, specs: seq<ToolSpec>, s': St, calls: seq<ToolCall>, runId: string, round: nat, j: nat)
    requires Regular(cfg) && j < |calls| && s'.packet.toolSpecs == specs
    requires PassesNow(cfg, env, s', Prepared(cfg, specs, calls, runId, round, j)[0])
    ensures MayAsk(cfg, env, s', Prepared(cfg, specs, calls, runId, round, j), round, 0) == |calls| - j - 1
  {
    var pending := Prepared(cfg, specs, calls, runId, round, j);
    assert pending[0] == cfg.rules.prepare(specs, calls[j], runId, round, j);
    assert PreparedOnce(cfg, specs, pending[0], s'.scope.runId, round, 0);
  }

  /** The state in which the next segment takes up a batch that stopped at j. */
  lemma NextSegment(cfg: Config, env: Env, s: St, b: St, calls: seq<ToolCall>, round: nat, i: nat, j: nat, res: Resolution)
    returns (s': St)
    requires Regular(cfg) && Accepting(env, s.scope) && Ready(cfg, env, s)
    requires i <= |calls| && StoppedAt(cfg, env, s, b, calls, round, i, j) && b.status.Suspended?
    requires res.decision != Deny && Fits(NormalScope(s.scope), res.override)
    ensures Reopen(cfg, env, b, b.status.approval, res.decision, res.override) == (s', None) && s'.status == Running
    ensures Accepting(env, s'.scope) && Ready(cfg, env, s') && SameIds(NormalScope(s'.scope), NormalScope(s.scope))
    ensures s'.work == b.work && s'.packet == s.packet
    ensures PassesNow(cfg, env, s', Prepared(cfg, s.packet.toolSpecs, calls, s.scope.runId, round, j)[0])
  {
    ReopenPasses(cfg, env, b, Prepared(cfg, s.packet.toolSpecs, calls, s.scope.runId, round, j), round, res.decision, res.override);
    s' := Reopen(cfg, env, b, b.status.approval, res.decision, res.override).0;
  }

  lemma PendingIs(cfg: Config, env: Env, s: St, b: St, calls: seq<ToolCall>, round: nat, i: nat, j: nat)
    requires i <= |calls| && StoppedAt(cfg, env, s, b, calls, round, i, j) && b.status.Suspended?
    ensures Pending(b, b.status.approval) == Prepared(cfg, s.packet.toolSpecs, calls, s.scope.runId, round, j)
  {
  }

  /** A batch that does not wait has done what the reference does. */
  lemma EndsInLine(cfg: Config, env: Env, s: St, b: St, calls: seq<ToolCall>, round: nat, i: nat)
    requires i <= |calls| && InLine(cfg, env, s, b, calls, round, i) && !b.status.Suspended?
    ensures b.status == Running || b.status.Failed?
    ensures EndOf(b) == Straight(cfg, env, s.packet.toolSpecs, s.work, calls, s.scope.runId, round, i)
  {
  }

  /** How many approvals a segment that takes up a waiting batch may ask for. */
  lemma RestMayAsk(cfg: Config, env: Env, s: St, b: St, s': St, calls: seq<ToolCall>, round: nat, i: nat, j: nat)
    requires Regular(cfg) && i <= |calls| && StoppedAt(cfg, env, s, b, calls, round, i, j) && b.status.Suspended?
    requires s'.packet == s.packet && PassesNow(cfg, env, s', Prepared(cfg, s.packet.toolSpecs, calls, s.scope.runId, round, j)[0])
    ensures MayAsk(cfg, env, s', Prepared(cfg, s.packet.toolSpecs, calls, s.scope.runId, round, j), round, 0)
      < MayAsk(cfg, env, s, calls, round, i)
  {
    PendingMayAsk(cfg, env, s.packet.toolSpecs, s', calls, s.scope.runId, round, j);
  }

  lemma WaitsInLine(cfg: Config, env: Env, s: St, b: St, calls: seq<ToolCall>, round: nat, i: nat, j: nat)
    requires i <= |calls| && StoppedAt(cfg, env, s, b, calls, round, i, j) && b.status.Suspended?
    ensures Straight(cfg, env, s.packet.toolSpecs, s.work, calls, s.scope.runId, round, i)
      == Straight(cfg, env, s.packet.toolSpecs, b.work, calls, s.scope.runId, round, j)
  {
  }

  lemma StraightRest(cfg: Config, env: Env, s: St, b: St, calls: seq<ToolCall>, runId: string, round: nat, i: nat, j: nat)
    requires Regular(cfg) && i <= |calls| && StoppedAt(cfg, env, s, b, calls, round, i, j) && b.status.Suspended?
    ensures Straight(cfg, env, s.packet.toolSpecs, b.work, Prepared(cfg, s.packet.toolSpecs, calls, s.scope.runId, round, j), runId, round, 0)
      == Straight(cfg, env, s.packet.toolSpecs, s.work, calls, s.scope.runId, round, i)
  {
    WaitsInLine(cfg, env, s, b, calls, round, i, j);
    PendingIsTheRest(cfg, env, s.packet.toolSpecs, b.work, calls, s.scope.runId, runId, round, j, 0);
  }

  lemma DriveOn(cfg: Config, env: Env, b: St, resolutions: seq<Resolution>, s': St)
    requires b.status.Suspended? && resolutions != [] && s'.status == Running
    requires Reopen(cfg, env, b, b.status.approval, resolutions[0].decision, resolutions[0].override) == (s', None)
    ensures Drive(cfg, env, b, resolutions)
      == Drive(cfg, env, Batch(cfg, env, s', Pending(b, b.status.approval), s'.work.toolRounds, 0), resolutions[1..])
  {
  }

  /** The next segment may ask for less, and what is left to do is the same. */
  lemma RestIsSame(cfg: Config, env: Env, s: St, b: St, s': St, calls: seq<ToolCall>, round: nat, i: nat, j: nat)
    requires Regular(cfg) && i <= |calls| && StoppedAt(cfg, env, s, b, calls, round, i, j) && b.status.Suspended?
    requires s'.packet == s.packet && s'.work == b.work
    requires PassesNow(cfg, env, s', Prepared(cfg, s.packet.toolSpecs, calls, s.scope.runId, round, j)[0])
    ensures
      var pending := Prepared(cfg, s.packet.toolSpecs, calls, s.scope.runId, round, j);
      && MayAsk(cfg, env, s', pending, round, 0) < MayAsk(cfg, env, s, calls, round, i)
      && Straight(cfg, env, s.packet.toolSpecs, s'.work, pending, s'.scope.runId, round, 0)
         == Straight(cfg, env, s.packet.toolSpecs, s.work, calls, s.scope.runId, round, i)
  {
    RestMayAsk(cfg, env, s, b, s', calls, round, i, j);
    StraightRest(cfg, env, s, b, calls, s'.scope.runId, round, i, j);
  }

  lemma WaitsInRound(cfg: Config, env: Env, s: St, b: St, calls: seq<ToolCall>, round: nat, i: nat, j: nat)
    requires i <= |calls| && StoppedAt(cfg, env, s, b, calls, round, i, j) && b.status.Suspended?
    ensures b.work.toolRounds == round
  {
  }

  /** The state and the calls with which the next segment takes up a batch that stopped at j. */
  lemma RestOfBatch(cfg: Config, env: Env, s: St, b: St, calls: seq<ToolCall>, round: nat, i: nat, j: nat, res: Resolution)
    returns (pending: seq<ToolCall>, s': St)
    requires Regular(cfg) && Accepting(env, s.scope) && Ready(cfg, env, s)
    requires i <= |calls| && StoppedAt(cfg, env, s, b, calls, round, i, j) && b.status.Suspended?
    requires res.decision != Deny && Fits(NormalScope(s.scope), res.override)
    ensures pending == Pending(b, b.status.approval)
    ensures Reopen(cfg, env, b, b.status.approval, res.decision, res.override) == (s', None)
    ensures s'.status == Running && s'.work.toolRounds == round && s'.packet == s.packet
    ensures Accepting(env, s'.scope) && Ready(cfg, env, s') && SameIds(NormalScope(s'.scope), NormalScope(s.scope))
    ensures MayAsk(cfg, env, s', pending, round, 0) < MayAsk(cfg, env, s, calls, round, i)
    ensures Straight(cfg, env, s.packet.toolSpecs, s'.work, pending, s'.scope.runId, round, 0)
      == Straight(cfg, env, s.packet.toolSpecs, s.work, calls, s.scope.runId, round, i)
  {
    s' := NextSegment(cfg, env, s, b, calls, round, i, j, res);
    RestIsSame(cfg, env, s, b, s', calls, round, i, j);
    WaitsInRound(cfg, env, s, b, calls, round, i, j);
    PendingIs(cfg, env, s, b, calls, round, i, j);
    pending := Prepared(cfg, s.packet.toolSpecs, calls, s.scope.runId, round, j);
  }

  /** What the first of the answers left makes of a batch that waits. */
  lemma FirstAnswer(cfg: Config, env: Env, s: St, b: St, calls: seq<ToolCall>, round: nat, i: nat, resolutions: seq<Resolution>)
    returns (pending: seq<ToolCall>, s': St)
    requires Regular(cfg) && Accepting(env, s.scope) && Ready(cfg, env, s) && AllAllow(NormalScope(s.scope), resolutions)
    requires i <= |calls| && InLine(cfg, env, s, b, calls, round, i) && b.status.Suspended?
    requires resolutions != []
    ensures pending == Pending(b, b.status.approval)
    ensures Reopen(cfg, env, b, b.status.approval, resolutions[0].decision, resolutions[0].override) == (s', None)
    ensures s'.status == Running && s'.work.toolRounds == round && s'.packet == s.packet
    ensures Accepting(env, s'.scope) && Ready(cfg, env, s') && AllAllow(NormalScope(s'.scope), resolutions[1..])
    ensures MayAsk(cfg, env, s', pending, round, 0) < MayAsk(cfg, env, s, calls, round, i)
    ensures Straight(cfg, env, s.packet.toolSpecs, s'.work, pending, s'.scope.runId, round, 0)
      == Straight(cfg, env, s.packet.toolSpecs, s.work, calls, s.scope.runId, round, i)
  {
    var j: nat :| j <= |calls| && StoppedAt(cfg, env, s, b, calls, round, i, j);
    pending, s' := RestOfBatch(cfg, env, s, b, calls, round, i, j, resolutions[0]);
    AllAllowRest(NormalScope(s.scope), NormalScope(s'.scope), resolutions);
  }

  /** A batch that waits may still ask. */
  lemma WaitsMayAsk(cfg: Config, env: Env, s: St, b: St, calls: seq<ToolCall>, round: nat, i: nat)
    requires i <= |calls| && InLine(cfg, env, s, b, calls, round, i) && b.status.Suspended?
    ensures MayAsk(cfg, env, s, calls, round, i) > 0
  {
    var j: nat :| j <= |calls| && StoppedAt(cfg, env, s, b, calls, round, i, j);
  }

  /** The next segment runs the rest of a batch that waits, and may ask for one approval less. */
  lemma NextBatch(cfg: Config, env: Env, s: St, b: St, calls: seq<ToolCall>, round: nat, i: nat, resolutions: seq<Resolution>)
    returns (pending: seq<ToolCall>, s': St, b': St)
    requires Regular(cfg) && Accepting(env, s.scope) && Ready(cfg, env, s) && AllAllow(NormalScope(s.scope), resolutions)
    requires i <= |calls| && InLine(cfg, env, s, b, calls, round, i) && b.status.Suspended?
    requires |resolutions| >= MayAsk(cfg, env, s, calls, round, i)
    ensures resolutions != [] && Drive(cfg, env, b, resolutions) == Drive(cfg, env, b', resolutions[1..])
    ensures s'.status == Running && s'.work.toolRounds == round && s'.packet == s.packet
    ensures Accepting(env, s'.scope) && Ready(cfg, env, s') && AllAllow(NormalScope(s'.scope), resolutions[1..])
    ensures InLine(cfg, env, s', b', pending, round, 0) && |resolutions[1..]| >= MayAsk(cfg, env, s', pending, round, 0)
    ensures Straight(cfg, env, s.packet.toolSpecs, s'.work, pending, s'.scope.runId, round, 0)
      == Straight(cfg, env, s.packet.toolSpecs, s.work, calls, s.scope.runId, round, i)
  {
    WaitsMayAsk(cfg, env, s, b, calls, round, i);
    pending, s' := FirstAnswer(cfg, env, s, b, calls, round, i, resolutions);
    b' := Batch(cfg, env, s', pending, round, 0);
    BatchAgainstStraight(cfg, env, s', pending, round, b');
    DriveOn(cfg, env, b, resolutions, s');
  }

  lemma {:induction false} DriveConserves(cfg: Config, env: Env, s: St, calls: seq<ToolCall>, round: nat, i: nat, b: St,
                                          resolutions: seq<Resolution>, r: St)
    requires s.status == Running && i <= |calls| && s.work.toolRounds == round
    requires Regular(cfg) && Accepting(env, s.scope) && Ready(cfg, env, s)
    requires AllAllow(NormalScope(s.scope), resolutions) && |resolutions| >= MayAsk(cfg, env, s, calls, round, i)
    requires InLine(cfg, env, s, b, calls, round, i) && r == Drive(cfg, env, b, resolutions)
    ensures r.status == Running || r.status.Failed?
    ensures EndOf(r) == Straight(cfg, env, s.packet.toolSpecs, s.work, calls, s.scope.runId, round, i)
    decreases |resolutions|
  {
    if b.status.Suspended? {
      var pending, s', b' := NextBatch(cfg, env, s, b, calls, round, i, resolutions);
      DriveConserves(cfg, env, s', pending, round, 0, b', resolutions[1..], r);
    } else {
      EndsInLine(cfg, env, s, b, calls, round, i);
    }
  }

  /** Suspending and resuming conserves tool work: whatever approvals a batch asks for, with each of
      them resolved by a decision that allows, the batch ends with exactly the executed calls,
      observations, messages, rounds and failure of the batch that asks for nothing; no batch asks
      for more approvals than it has calls. */
  lemma SuspensionConservesWork(cfg: Config, env: Env, s: St, calls: seq<ToolCall>, resolutions: seq<Resolution>)
    requires s.status == Running && Regular(cfg) && Accepting(env, s.scope) && Ready(cfg, env, s)
    requires AllAllow(NormalScope(s.scope), resolutions) && |resolutions| >= |calls|
    ensures
      var r := Drive(cfg, env, Batch(cfg, env, s, calls, s.work.toolRounds, 0), resolutions);
      && (r.status == Running || r.status.Failed?)
      && EndOf(r) == Straight(cfg, env, s.packet.toolSpecs, s.work, calls, s.scope.runId, s.work.toolRounds, 0)
  {
    var b := Batch(cfg, env, s, calls, s.work.toolRounds, 0);
    BatchAgainstStraight(cfg, env, s, calls, s.work.toolRounds, b);
    DriveConserves(cfg, env, s, calls, s.work.toolRounds, 0, b, resolutions, Drive(cfg, env, b, resolutions));
  }

  /** The same in terms of two runs: one that had to ask, and one that had everything granted. */
  lemma SameAsGranted(cfg: Config, env: Env, s: St, granted: St, calls: seq<ToolCall>, resolutions: seq<Resolution>)
    requires s.status == Running && Regular(cfg) && Accepting(env, s.scope) && Ready(cfg, env, s)
    requires AllAllow(NormalScope(s.scope), resolutions) && |resolutions| >= |calls|
    requires granted.status == Running && granted.work == s.work && granted.packet == s.packet && granted.scope == s.scope
    ensures
      var straight := Batch(cfg, env, granted, calls, s.work.toolRounds, 0);
      !straight.status.Suspended? ==>
        EndOf(Drive(cfg, env, Batch(cfg, env, s, calls, s.work.toolRounds, 0), resolutions)) == EndOf(straight)
  {
    var straight := Batch(cfg, env, granted, calls, s.work.toolRounds, 0);
    if !straight.status.Suspended? {
      SuspensionConservesWork(cfg, env, s, calls, resolutions);
      GrantedIsStraight(cfg, env, granted, calls, s.work.toolRounds, straight);
    }
  }

  lemma GrantedIsStraight(cfg: Config, env: Env, s: St, calls: seq<ToolCall>, round: nat, r: St)
    requires s.status == Running && Regular(cfg) && Accepting(env, s.scope) && s.work.toolRounds == round
    requires r == Batch(cfg, env, s, calls, round, 0) && !r.status.Suspended?
    ensures EndOf(r) == Straight(cfg, env, s.packet.toolSpecs, s.work, calls, s.scope.runId, round, 0)
  {
    BatchAgainstStraight(cfg, env, s, calls, round, r);
    EndsInLine(cfg, env, s, r, calls, round, 0);
  }

  /** Executed calls, observations and messages grew, the calls by the given ones, in order, or by the first of them. */
  predicate InOrder(w: Work, w': Work, calls: seq<ToolCall>, failure: Option<Failure>) {
    && w.executed <= w'.executed <= w.executed + calls && w.observations <= w'.observations && w.messages <= w'.messages
    && (failure.None? ==>
          w'.executed == w.executed + calls && |w'.observations| == |w.observations| + |calls|
          && |w'.messages| == |w.messages| + |calls|)
  }

  lemma InOrderCompose(env: Env, w: Work, call: ToolCall, w': Work, rest: seq<ToolCall>, failure: Option<Failure>)
    requires Perform(env, w, call).1 && InOrder(Perform(env, w, call).0, w', rest, failure)
    ensures InOrder(w, w', [call] + rest, failure)
  {
    assert w.executed + ([call] + rest) == w.executed + [call] + rest;
  }

  /** What the reference does: it executes the prepared calls in order, each once, up to the first
      that is invalid or fails. */
  lemma {:induction false} StraightExecutesInOrder(cfg: Config, env: Env, specs: seq<ToolSpec>, w: Work, calls: seq<ToolCall>, runId: string, round: nat, i: nat)
    requires i <= |calls|
    ensures
      var (w', failure) := Straight(cfg, env, specs, w, calls, runId, round, i);
      InOrder(w, w', Prepared(cfg, specs, calls, runId, round, i), failure)
    decreases |calls| - i
  {
    if i < |calls| {
      var call := cfg.rules.prepare(specs, calls[i], runId, round, i);
      var (w', answered) := Perform(env, w, call);
      if cfg.rules.valid(specs, call) && answered {
        StraightExecutesInOrder(cfg, env, specs, w', calls, runId, round, i + 1);
        var end := Straight(cfg, env, specs, w', calls, runId, round, i + 1);
        InOrderCompose(env, w, call, end.0, Prepared(cfg, specs, calls, runId, round, i + 1), end.1);
      }
    }
  }
}
