/** What single store operations and sequences of them do to sessions, whatever run ids callers choose:
    when a drain gets stuck, how a status moves and how often a session ends (pkg/rtagent/session.go,
    session_stop.go, runtime_run.go, runtime_projection.go, loop_outcomes.go, loop_activity.go). */
module SessionOps {
  import opened Types
  import opened Session

  /** The store operations of submissions, loops, approvals, interrupts and stops. A loop and a denial act
      in the scope that was recorded for them, which names a session of its own. */
  datatype Operation =
    | Keep
    | SubmitOp(run: RunId, session: SessionId)
    | ExitOp(run: RunId, scope: SessionId, status: RunStatus)
    | ResumeOp(run: RunId)
    | InterruptOp(run: RunId)
    | StopOp(session: SessionId, mode: StopMode)

  /** A terminal exit checks whether the session of its scope is drained; a suspension does not. */
  function Exited(s: Store, run: RunId, scope: SessionId, status: RunStatus): Store
    requires run in s.runs
  {
    if IsTerminal(status) then ExitSpec(s, run, scope, status) else WithStatus(s, run, status)
  }

  function Perform(s: Store, op: Operation): Store {
    match op
    case Keep => s
    case SubmitOp(run, session) => SubmitSpec(s, session, run)
    case ExitOp(run, scope, status) => if run in s.runs then Exited(s, run, scope, status) else s
    case ResumeOp(run) => if run in s.runs then WithStatus(s, run, Running) else s
    case InterruptOp(run) => InterruptSpec(s, run)
    case StopOp(session, mode) => StopSpec(s, session, mode)
  }

  ghost predicate Distinct(runs: seq<RunId>) {
    forall i, j :: 0 <= i < j < |runs| ==> runs[i] != runs[j]
  }

  /** The order of creation lists each run once, and the sessions of runs are on record. */
  ghost predicate WellFormed(s: Store) {
    && (forall run :: run in s.runs <==> run in s.order)
    && Distinct(s.order)
    && (forall run :: run in s.runs ==> s.runs[run].session in s.threads)
  }

  /****** Stopping ******/

  /** Interrupting all active runs cancels them and, where the session was being drained, completes it. */
  lemma {:induction false} InterruptAllEffect(s: Store, session: SessionId, runs: seq<RunId>)
    requires forall run :: ActiveIn(s, session, run) <==> run in runs
    requires Distinct(runs)
    ensures
      var r := InterruptAllSpec(s, runs);
      && (forall run :: !ActiveIn(r, session, run))
      && r.runs.Keys == s.runs.Keys && r.order == s.order
      && (forall run :: run in s.runs ==> r.runs[run].session == s.runs[run].session)
      && (forall run :: run in s.runs && s.runs[run].session != session ==> r.runs[run] == s.runs[run])
      && (forall other :: other != session ==> (other in r.threads <==> other in s.threads))
      && (forall other :: other != session && other in s.threads ==> r.threads[other] == s.threads[other])
      && (if Has(s, session, Stopping) && runs != [] then Has(r, session, Stopped) && r.ended == s.ended + [session]
          else r.threads == s.threads && r.ended == s.ended)
    decreases |runs|
  {
    if runs != [] {
      var run := runs[0];
      assert ActiveIn(s, session, run);
      var s' := InterruptSpec(s, run);
      assert s'.runs == s.runs[run := s.runs[run].(status := Canceled)];
      forall other
        ensures ActiveIn(s', session, other) <==> other in runs[1..]
      {
        assert other in runs <==> other == run || other in runs[1..];
        if other in runs[1..] {
          var k :| 0 <= k < |runs| - 1 && runs[1..][k] == other;
          assert runs[k + 1] != runs[0];
        }
      }
      if |runs| > 1 {
        assert runs[1] in runs[1..];
        assert ActiveIn(s', session, runs[1]) && HasActive(s', session);
      } else {
        assert !HasActive(s', session);
      }
      InterruptAllEffect(s', session, runs[1..]);
    }
  }

  lemma {:induction false} ActiveRunsAre(s: Store, session: SessionId, order: seq<RunId>)
    requires Distinct(order)
    ensures forall run :: run in ActiveRuns(s, session, order) <==> run in order && ActiveIn(s, session, run)
    ensures Distinct(ActiveRuns(s, session, order))
  {
    if order != [] {
      var n := |order| - 1;
      ActiveRunsAre(s, session, order[..n]);
      assert order == order[..n] + [order[n]];
      assert order[n] !in order[..n];
      var before, active := ActiveRuns(s, session, order[..n]), ActiveRuns(s, session, order);
      assert forall i :: 0 <= i < |before| ==> before[i] in before && before[i] in order[..n];
      assert forall run :: run in active <==> run in before || (run == order[n] && ActiveIn(s, session, run));
    }
  }

  /** Nothing about the runs and threads of other sessions changes. */
  ghost predicate Confined(s: Store, r: Store, session: SessionId) {
    && r.runs.Keys == s.runs.Keys && r.order == s.order
    && (forall run :: run in s.runs ==> r.runs[run].session == s.runs[run].session)
    && (forall run :: run in s.runs && s.runs[run].session != session ==> r.runs[run] == s.runs[run])
    && (forall other :: other != session ==> (other in r.threads <==> other in s.threads))
    && (forall other :: other != session && other in s.threads ==> r.threads[other] == s.threads[other])
  }

  lemma ActiveRunsAll(s: Store, session: SessionId)
    requires WellFormed(s)
    ensures
      var active := ActiveRuns(s, session, s.order);
      && Distinct(active) && (forall run :: ActiveIn(s, session, run) <==> run in active)
      && (active != [] <==> HasActive(s, session))
  {
    var active := ActiveRuns(s, session, s.order);
    ActiveRunsAre(s, session, s.order);
    if HasActive(s, session) {
      var run :| run in s.runs && ActiveIn(s, session, run);
      assert run in active;
    }
    if active != [] {
      assert active[0] in active;
      assert ActiveIn(s, session, active[0]);
    }
  }

  /** A drain waits for the active runs, or ends a session that has none. */
  lemma DrainEffect(s: Store, session: SessionId)
    requires WellFormed(s) && Known(s, session) && !Has(s, session, Stopped)
    ensures
      var r := StopSpec(s, session, Drain);
      && Confined(s, r, session) && r.runs == s.runs
      && (if HasActive(s, session) then Has(r, session, Stopping) && r.ended == s.ended
          else Has(r, session, Stopped) && r.ended == s.ended + [session])
  {
    ActiveRunsAll(s, session);
  }

  /** A cancellation leaves no active run; one that cuts short a drain with active runs ends the session twice. */
  lemma CancelEffect(s: Store, session: SessionId)
    requires WellFormed(s) && Known(s, session) && !Has(s, session, Stopped)
    ensures
      var r := StopSpec(s, session, CancelActive);
      && Confined(s, r, session) && Has(r, session, Stopped) && (forall run :: !ActiveIn(r, session, run))
      && r.ended == s.ended + if Has(s, session, Stopping) && HasActive(s, session) then [session, session] else [session]
  {
    var active := ActiveRuns(s, session, s.order);
    ActiveRunsAll(s, session);
    InterruptAllEffect(s, session, active);
    var i := InterruptAllSpec(s, active);
    assert s.ended + [session] + [session] == s.ended + [session, session];
    assert forall run :: ActiveIn(StopSpec(s, session, CancelActive), session, run) <==> ActiveIn(i, session, run);
  }

  lemma StopNothing(s: Store, session: SessionId, mode: StopMode)
    requires !Known(s, session) || Has(s, session, Stopped)
    ensures StopSpec(s, session, mode) == s
  {
  }

  lemma StopKeepsForm(s: Store, session: SessionId, mode: StopMode)
    requires WellFormed(s)
    ensures WellFormed(StopSpec(s, session, mode))
  {
    if !Known(s, session) || Has(s, session, Stopped) {
      StopNothing(s, session, mode);
    } else if mode == Drain {
      DrainEffect(s, session);
    } else {
      CancelEffect(s, session);
    }
  }

  lemma PerformKeepsForm(s: Store, op: Operation)
    requires WellFormed(s)
    ensures WellFormed(Perform(s, op))
  {
    match op
    case StopOp(session, mode) => StopKeepsForm(s, session, mode);
    case SubmitOp(run, session) => SubmitKeepsForm(s, session, run);
    case _ =>
  }

  lemma SubmitKeepsForm(s: Store, session: SessionId, run: RunId)
    requires WellFormed(s)
    ensures WellFormed(SubmitSpec(s, session, run))
  {
  }

  /****** Runs ******/

  /** No run but the given one changes. */
  predicate OtherRunsSame(s: Store, r: Store, run: RunId) {
    && r.runs.Keys == s.runs.Keys + {run}
    && forall other <- s.runs :: other != run ==> r.runs[other] == s.runs[other]
  }

  /** A submission to an accepting session records the run as running in it, and as the latest of it; any
      other changes nothing. */
  lemma SubmitEffect(s: Store, session: SessionId, run: RunId)
    ensures
      var r := SubmitSpec(s, session, run);
      if session in s.threads && s.threads[session].status != Active then r == s
      else
        && OtherRunsSame(s, r, run) && r.runs[run].session == session && r.runs[run].status == RunStatus.Running
        && session in r.threads && r.threads[session].status == Active && r.threads[session].latestRun == run
        && r.ended == s.ended
  {
  }

  /** An exit puts the status it exits with; an interrupt cancels a run that is not over and leaves one that is;
      a resumption sets the run running. */
  lemma StatusEffects(s: Store, run: RunId, scope: SessionId, status: RunStatus)
    requires run in s.runs
    ensures
      var r := Perform(s, ExitOp(run, scope, status));
      OtherRunsSame(s, r, run) && r.runs[run].status == status && r.runs[run].session == s.runs[run].session
    ensures
      var r := Perform(s, InterruptOp(run));
      var over := s.runs[run].status in {RunStatus.Completed, RunStatus.Failed, RunStatus.Canceled, RunStatus.Denied};
      OtherRunsSame(s, r, run) && r.runs[run].session == s.runs[run].session
      && r.runs[run].status == if over then s.runs[run].status else RunStatus.Canceled
    ensures
      var r := Perform(s, ResumeOp(run));
      OtherRunsSame(s, r, run) && r.runs[run].status == RunStatus.Running && r.threads == s.threads && r.ended == s.ended
  {
  }

  /** A run is active exactly while it is queued, running, blocked or suspended. */
  lemma ActiveMeans(s: Store, session: SessionId)
    ensures HasActive(s, session) <==> exists run <- s.runs :: Unfinished(s.runs[run], session)
  {
    if run :| run in s.runs && Unfinished(s.runs[run], session) {
      assert ActiveIn(s, session, run);
    }
    if run :| run in s.runs && ActiveIn(s, session, run) {
      assert Unfinished(s.runs[run], session);
    }
  }

  /** A run of the session that is queued, running, blocked or suspended. */
  predicate Unfinished(r: RunRecord, session: SessionId) {
    r.session == session && r.status in {RunStatus.Queued, RunStatus.Running, RunStatus.Blocked, RunStatus.Suspended}
  }

  /****** Where runs become active ******/

  /** Nothing is active after an operation that was not active before, except the run it submits to an
      accepting session, resumes or suspends. */
  lemma ActiveAfter(s: Store, op: Operation, session: SessionId, run: RunId)
    requires WellFormed(s) && ActiveIn(Perform(s, op), session, run)
    ensures
      || ActiveIn(s, session, run)
      || (op == SubmitOp(run, session) && Accepts(s, session))
      || ((op.ExitOp? || op.ResumeOp?) && op.run == run && run in s.runs && s.runs[run].session == session
          && (op.ExitOp? ==> !IsTerminal(op.status)))
  {
    if op.StopOp? && Known(s, op.session) && !Has(s, op.session, Stopped) {
      if op.mode == Drain {
        DrainEffect(s, op.session);
      } else {
        CancelEffect(s, op.session);
      }
    }
  }

  /** A session that an operation stops is left without active runs. */
  lemma JustStoppedIsIdle(s: Store, op: Operation, session: SessionId)
    requires WellFormed(s) && !Has(s, session, Stopped) && Has(Perform(s, op), session, Stopped)
    ensures forall run :: !ActiveIn(Perform(s, op), session, run)
  {
    if op.StopOp? && Known(s, op.session) && !Has(s, op.session, Stopped) {
      if op.mode == Drain {
        DrainEffect(s, op.session);
      } else {
        CancelEffect(s, op.session);
      }
    }
  }

  /****** When a drain gets stuck ******/

  /** A session that is being drained has something to wait for. */
  predicate Drains(s: Store, session: SessionId) {
    Has(s, session, Stopping) ==> HasActive(s, session)
  }

  /** The run is the only active one of the session. */
  ghost predicate LastActive(s: Store, session: SessionId, run: RunId) {
    ActiveIn(s, session, run) && forall other :: ActiveIn(s, session, other) ==> other == run
  }

  /** The operation takes its last active run from a session that is being drained and does not look at
      it: by submitting the run to another session, or by ending it in the scope of another session. */
  ghost predicate Strands(s: Store, op: Operation, session: SessionId) {
    && Has(s, session, Stopping)
    && match op
       case SubmitOp(run, target) => Accepts(s, target) && LastActive(s, session, run)
       case ExitOp(run, scope, status) => IsTerminal(status) && scope != session && LastActive(s, session, run)
       case _ => false
  }

  lemma SubmitStrands(s: Store, run: RunId, target: SessionId, session: SessionId)
    requires Drains(s, session)
    ensures Drains(SubmitSpec(s, target, run), session) <==> !Strands(s, SubmitOp(run, target), session)
  {
    var r := SubmitSpec(s, target, run);
    if Has(s, session, Stopping) && Accepts(s, target) {
      assert forall other :: ActiveIn(r, session, other) <==> ActiveIn(s, session, other) && other != run;
      if !LastActive(s, session, run) {
        var some :| some in s.runs && ActiveIn(s, session, some);
        var other :| ActiveIn(s, session, other) && other != run;
        assert ActiveIn(r, session, other);
      }
    }
  }

  /** Where the runs of a session stay active, its drain goes on. */
  lemma SameActive(s: Store, r: Store, session: SessionId)
    requires Drains(s, session) && (Has(r, session, Stopping) ==> Has(s, session, Stopping))
    requires forall run :: ActiveIn(s, session, run) ==> ActiveIn(r, session, run)
    ensures Drains(r, session)
  {
    if Has(r, session, Stopping) {
      var run :| run in s.runs && ActiveIn(s, session, run);
      assert ActiveIn(r, session, run);
    }
  }

  lemma DrainSpecDrains(s: Store, scope: SessionId, session: SessionId)
    ensures scope == session ==> Drains(DrainSpec(s, scope), session)
    ensures scope != session ==> (Drains(DrainSpec(s, scope), session) <==> Drains(s, session))
  {
    var r := DrainSpec(s, scope);
    assert forall run :: ActiveIn(r, session, run) <==> ActiveIn(s, session, run);
    assert HasActive(r, session) <==> HasActive(s, session);
  }

  lemma StatusStrands(s: Store, run: RunId, status: RunStatus, session: SessionId)
    requires Drains(s, session) && run in s.runs
    ensures Drains(WithStatus(s, run, status), session)
      <==> !(Has(s, session, Stopping) && IsTerminal(status) && LastActive(s, session, run))
  {
    var r := WithStatus(s, run, status);
    assert forall other :: other != run ==> (ActiveIn(r, session, other) <==> ActiveIn(s, session, other));
    if Has(s, session, Stopping) {
      var some :| some in s.runs && ActiveIn(s, session, some);
      if !IsTerminal(status) {
        assert ActiveIn(r, session, some);
      } else if !LastActive(s, session, run) {
        var other := if some != run then some else var o :| ActiveIn(s, session, o) && o != run; o;
        assert ActiveIn(r, session, other);
      }
    }
  }

  lemma StopDrains(s: Store, stopped: SessionId, mode: StopMode, session: SessionId)
    requires WellFormed(s) && Drains(s, session)
    ensures Drains(StopSpec(s, stopped, mode), session)
  {
    if !Known(s, stopped) || Has(s, stopped, Stopped) {
      StopNothing(s, stopped, mode);
    } else {
      var r := StopSpec(s, stopped, mode);
      if mode == Drain {
        DrainEffect(s, stopped);
        assert forall run :: ActiveIn(r, session, run) <==> ActiveIn(s, session, run);
      } else {
        CancelEffect(s, stopped);
      }
      if stopped != session {
        SameActive(s, r, session);
      }
    }
  }

  /** Exactly which operations leave a session stuck in its drain, with no active run to wait for. */
  lemma StrandsExactly(s: Store, op: Operation, session: SessionId)
    requires WellFormed(s) && Drains(s, session)
    ensures Drains(Perform(s, op), session) <==> !Strands(s, op, session)
  {
    match op
    case Keep =>
    case SubmitOp(run, target) => SubmitStrands(s, run, target, session);
    case ExitOp(run, scope, status) =>
      if run in s.runs {
        StatusStrands(s, run, status, session);
        DrainSpecDrains(WithStatus(s, run, status), scope, session);
      }
    case ResumeOp(run) =>
      if run in s.runs {
        StatusStrands(s, run, Running, session);
      }
    case InterruptOp(run) =>
      if run in s.runs {
        DrainSpecDrains(s, s.runs[run].session, session);
        StatusStrands(s, run, Canceled, session);
        DrainSpecDrains(WithStatus(s, run, Canceled), s.runs[run].session, session);
      }
    case StopOp(stopped, mode) => StopDrains(s, stopped, mode, session);
  }

  /** A run that was not on record is nobody's active run. */
  lemma FreshNeverStrands(s: Store, run: RunId, target: SessionId, session: SessionId)
    requires run !in s.runs
    ensures !Strands(s, SubmitOp(run, target), session)
  {
  }

  /** A stuck session is not stuck for good: stopping it again, in either mode, ends it once. */
  lemma StopEndsStranded(s: Store, session: SessionId, mode: StopMode)
    requires WellFormed(s) && Has(s, session, Stopping) && !HasActive(s, session)
    ensures Has(Perform(s, StopOp(session, mode)), session, Stopped)
    ensures Perform(s, StopOp(session, mode)).ended == s.ended + [session]
  {
    if mode == Drain {
      DrainEffect(s, session);
    } else {
      CancelEffect(s, session);
    }
  }

  /****** Status and end of a session ******/

  function Times(ended: seq<SessionId>, session: SessionId): nat {
    multiset(ended)[session]
  }

  function Rank(s: Store, session: SessionId): nat {
    if Has(s, session, Stopped) then 2 else if Has(s, session, Stopping) then 1 else 0
  }

  /** The operation cancels a session that is being drained and has active runs. */
  predicate CutsDrainShort(s: Store, op: Operation, session: SessionId) {
    op == StopOp(session, CancelActive) && Has(s, session, Stopping) && HasActive(s, session)
  }

  /** A status only advances; a session ends once when it stops, twice when that cuts a drain short. */
  predicate Advances(s: Store, op: Operation, r: Store, session: SessionId) {
    && Rank(s, session) <= Rank(r, session)
    && (CutsDrainShort(s, op, session) ==> Has(r, session, Stopped))
    && Times(r.ended, session) == Times(s.ended, session) +
         if CutsDrainShort(s, op, session) then 2
         else if Has(r, session, Stopped) && !Has(s, session, Stopped) then 1
         else 0
  }

  lemma StopAdvances(s: Store, stopped: SessionId, mode: StopMode, session: SessionId)
    requires WellFormed(s)
    ensures Advances(s, StopOp(stopped, mode), StopSpec(s, stopped, mode), session)
  {
    if !Known(s, stopped) || Has(s, stopped, Stopped) {
      StopNothing(s, stopped, mode);
      assert !CutsDrainShort(s, StopOp(stopped, mode), session);
    } else if mode == Drain {
      DrainAdvances(s, stopped, session);
    } else {
      CancelAdvances(s, stopped, session);
    }
  }

  lemma DrainAdvances(s: Store, stopped: SessionId, session: SessionId)
    requires WellFormed(s) && Known(s, stopped) && !Has(s, stopped, Stopped)
    ensures Advances(s, StopOp(stopped, Drain), StopSpec(s, stopped, Drain), session)
  {
    DrainEffect(s, stopped);
  }

  lemma CancelAdvances(s: Store, stopped: SessionId, session: SessionId)
    requires WellFormed(s) && Known(s, stopped) && !Has(s, stopped, Stopped)
    ensures Advances(s, StopOp(stopped, CancelActive), StopSpec(s, stopped, CancelActive), session)
  {
    CancelEffect(s, stopped);
  }

  /** Completing a drain ends the session once. */
  lemma DrainSpecAdvances(s: Store, scope: SessionId, op: Operation, session: SessionId)
    requires !op.StopOp?
    ensures Advances(s, op, DrainSpec(s, scope), session)
  {
  }

  lemma StatusAdvances(s: Store, run: RunId, status: RunStatus, scope: SessionId, op: Operation, session: SessionId)
    requires run in s.runs && !op.StopOp?
    ensures Advances(s, op, WithStatus(s, run, status), session) && Advances(s, op, ExitSpec(s, run, scope, status), session)
  {
    DrainSpecAdvances(WithStatus(s, run, status), scope, op, session);
  }

  lemma PerformAdvances(s: Store, op: Operation, session: SessionId)
    requires WellFormed(s)
    ensures Advances(s, op, Perform(s, op), session)
  {
    match op
    case Keep =>
    case SubmitOp(_, _) =>
    case ResumeOp(_) =>
    case StopOp(stopped, mode) => StopAdvances(s, stopped, mode, session);
    case ExitOp(run, scope, status) =>
      if run in s.runs {
        StatusAdvances(s, run, status, scope, op, session);
      }
    case InterruptOp(run) =>
      if run in s.runs {
        DrainSpecAdvances(s, s.runs[run].session, op, session);
        StatusAdvances(s, run, Canceled, s.runs[run].session, op, session);
      }
  }

  /****** Sequences of operations ******/

  const EMPTY := Store(map[], map[], [], [])

  function Execute(ops: seq<Operation>): Store {
    if ops == [] then EMPTY else Perform(Execute(ops[..|ops| - 1]), ops[|ops| - 1])
  }

  lemma {:induction false} ExecuteForm(ops: seq<Operation>)
    ensures WellFormed(Execute(ops))
  {
    if ops != [] {
      ExecuteForm(ops[..|ops| - 1]);
      PerformKeepsForm(Execute(ops[..|ops| - 1]), ops[|ops| - 1]);
    }
  }

  /** No operation of the sequence strands the session. */
  ghost predicate NeverStranded(ops: seq<Operation>, session: SessionId) {
    ops == [] ||
      (NeverStranded(ops[..|ops| - 1], session) && !Strands(Execute(ops[..|ops| - 1]), ops[|ops| - 1], session))
  }

  /** Whatever run ids are used: a drain has something to wait for as long as no operation strands it,
      and the first operation that does leaves it stuck. */
  lemma {:induction false} DrainStuckExactly(ops: seq<Operation>, op: Operation, session: SessionId)
    requires NeverStranded(ops, session)
    ensures Drains(Execute(ops), session)
    ensures Drains(Execute(ops + [op]), session) <==> NeverStranded(ops + [op], session)
  {
    if ops != [] {
      DrainStuckExactly(ops[..|ops| - 1], ops[|ops| - 1], session);
      assert ops[..|ops| - 1] + [ops[|ops| - 1]] == ops;
    }
    ExecuteForm(ops);
    StrandsExactly(Execute(ops), op, session);
    assert (ops + [op])[..|ops|] == ops;
  }

  /** Some operation cancels the session while it is drained and has active runs. */
  predicate DrainCutShort(ops: seq<Operation>, session: SessionId) {
    ops != [] && (DrainCutShort(ops[..|ops| - 1], session)
      || CutsDrainShort(Execute(ops[..|ops| - 1]), ops[|ops| - 1], session))
  }

  /** Over every sequence: a session that is not stopped has not ended, one whose drain was cut short by
      a cancellation has ended twice, any other stopped session exactly once. */
  lemma {:induction false} EndedExactly(ops: seq<Operation>, session: SessionId)
    ensures DrainCutShort(ops, session) ==> Has(Execute(ops), session, Stopped)
    ensures Times(Execute(ops).ended, session) ==
      if !Has(Execute(ops), session, Stopped) then 0 else if DrainCutShort(ops, session) then 2 else 1
  {
    if ops != [] {
      EndedExactly(ops[..|ops| - 1], session);
      ExecuteForm(ops[..|ops| - 1]);
      PerformAdvances(Execute(ops[..|ops| - 1]), ops[|ops| - 1], session);
    }
  }

  /** Over every sequence the status of a session moves from active to stopping to stopped and never back. */
  lemma {:induction false} StatusNeverGoesBack(ops: seq<Operation>, n: nat, session: SessionId)
    requires n <= |ops|
    ensures Rank(Execute(ops[..n]), session) <= Rank(Execute(ops), session)
    decreases |ops|
  {
    if n == |ops| {
      assert ops[..n] == ops;
    } else {
      var before := ops[..|ops| - 1];
      StatusNeverGoesBack(before, n, session);
      assert before[..n] == ops[..n];
      ExecuteForm(before);
      PerformAdvances(Execute(before), ops[|ops| - 1], session);
    }
  }

  /****** Stuck drains ******/

  const SUBMITTED := Store(map["s" := Thread(Active, "r")], map["r" := RunRecord("s", Running)], ["r"], [])

  lemma OneSubmitted()
    ensures Perform(EMPTY, SubmitOp("r", "s")) == SUBMITTED
    ensures ActiveRuns(SUBMITTED, "s", SUBMITTED.order) == ["r"]
  {
    assert SUBMITTED.order[..0] == [];
    assert EMPTY.order + ["r"] == ["r"];
  }

  lemma OneDraining()
    ensures StopSpec(SUBMITTED, "s", Drain) == SUBMITTED.(threads := map["s" := Thread(Stopping, "r")])
  {
    OneSubmitted();
  }

  /** A run id used again moves the run to another session and leaves the first one stuck. */
  lemma ReusedIdBlocksDrain()
    ensures
      var r := Perform(Perform(Perform(EMPTY, SubmitOp("r", "s")), StopOp("s", Drain)), SubmitOp("r", "t"));
      Has(r, "s", Stopping) && !HasActive(r, "s")
  {
    OneSubmitted();
    OneDraining();
    assert "s" != "t";
  }
}
