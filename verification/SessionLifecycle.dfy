/** Sessions, runs and live loops in every interleaving: when a stopped session still gets active runs,
    and which side effects can follow a stop (pkg/rtagent/session_stop.go, loop_tools.go,
    permission_center.go, approval_resume.go). */
module SessionLifecycle {
  import opened Types
  import opened Session
  import opened SessionOps

  type LoopId = nat

  /** The scope a loop works in: a run, and the session it was submitted to. */
  datatype Work = Work(run: RunId, session: SessionId)

  /** A tool call that has passed its permission check and is yet to be invoked. */
  datatype Checked = Checked(session: SessionId, readOnly: bool)

  /** A tool.invoked event. */
  datatype ToolEvent = ToolEvent(loop: LoopId, run: RunId, session: SessionId, readOnly: bool)

  /** The store, the scopes that runs were submitted in, the loops at work, their checked calls, the
      tool.invoked events, and for each stopped session its runs that had a loop at work when it stopped. */
  datatype System = System(
    store: Store, begun: set<Work>, loops: map<LoopId, Work>, checked: map<LoopId, Checked>, invoked: seq<ToolEvent>,
    liveAtStop: map<SessionId, set<RunId>>)

  datatype Step =
    | Submit(loop: LoopId, run: RunId, session: SessionId)
    | CheckTool(loop: LoopId, readOnly: bool)
    | InvokeTool(loop: LoopId)
    | Suspend(loop: LoopId)
    | Exit(loop: LoopId, status: RunStatus)
    | Resume(loop: LoopId, run: RunId, session: SessionId)
    | Deny(run: RunId, session: SessionId)
    | Interrupt(run: RunId)
    | Stop(session: SessionId, mode: StopMode)

  const INITIAL := System(EMPTY, {}, map[], map[], [], map[])

  /** A loop invokes a checked call before it does anything else. */
  predicate Enabled(y: System, step: Step) {
    match step
    case Submit(loop, _, session) => loop !in y.loops && Accepts(y.store, session)
    case CheckTool(loop, _) => loop in y.loops && loop !in y.checked
    case InvokeTool(loop) => loop in y.loops && loop in y.checked
    case Suspend(loop) => loop in y.loops && loop !in y.checked
    case Exit(loop, status) => loop in y.loops && loop !in y.checked && IsTerminal(status) && status != Canceled
    case Resume(loop, run, session) => loop !in y.loops && Work(run, session) in y.begun && CanResume(y.store, run, session)
    case Deny(run, session) => Work(run, session) in y.begun
    case Interrupt(_) => true
    case Stop(_, _) => true
  }

  /** The check of a call with side effects refuses a session that does not accept work. */
  predicate Refused(y: System, step: Step) {
    step.CheckTool? && !step.readOnly && step.loop in y.loops && !Accepts(y.store, y.loops[step.loop].session)
  }

  predicate Leaves(y: System, step: Step) {
    step.Suspend? || step.Exit? || Refused(y, step)
  }

  /** The store operation of a step. */
  function OperationOf(y: System, step: Step): Operation {
    if !Enabled(y, step) then Keep else
      match step
      case Submit(_, run, session) => SubmitOp(run, session)
      case CheckTool(loop, _) => if Refused(y, step) then ExitOp(y.loops[loop].run, y.loops[loop].session, Failed) else Keep
      case InvokeTool(_) => Keep
      case Suspend(loop) => ExitOp(y.loops[loop].run, y.loops[loop].session, Suspended)
      case Exit(loop, status) => ExitOp(y.loops[loop].run, y.loops[loop].session, status)
      case Resume(_, run, _) => ResumeOp(run)
      case Deny(run, session) => ExitOp(run, session, Denied)
      case Interrupt(run) => InterruptOp(run)
      case Stop(session, mode) => StopOp(session, mode)
  }

  function LoopsAfter(y: System, step: Step): map<LoopId, Work>
    requires Enabled(y, step)
  {
    if step.Submit? || step.Resume? then y.loops[step.loop := Work(step.run, step.session)]
    else if Leaves(y, step) then y.loops - {step.loop}
    else y.loops
  }

  function CheckedAfter(y: System, step: Step): map<LoopId, Checked>
    requires Enabled(y, step)
  {
    match step
    case CheckTool(loop, readOnly) =>
      if Refused(y, step) then y.checked else y.checked[loop := Checked(y.loops[loop].session, readOnly)]
    case InvokeTool(loop) => y.checked - {loop}
    case _ => y.checked
  }

  function InvokedAfter(y: System, step: Step): seq<ToolEvent>
    requires Enabled(y, step)
  {
    if step.InvokeTool? then
      y.invoked + [ToolEvent(step.loop, y.loops[step.loop].run, y.checked[step.loop].session, y.checked[step.loop].readOnly)]
    else y.invoked
  }

  function RunsAtWork(loops: map<LoopId, Work>, session: SessionId): set<RunId> {
    set loop | loop in loops && loops[loop].session == session :: loops[loop].run
  }

  /** Remembers, for each session that has just stopped, its runs at work. */
  function Noted(before: Store, after: Store, loops: map<LoopId, Work>, noted: map<SessionId, set<RunId>>): map<SessionId, set<RunId>> {
    noted + map session | session in after.threads && Has(after, session, Stopped) && !Has(before, session, Stopped)
              :: RunsAtWork(loops, session)
  }

  /** One atomic step. A step that is not enabled changes nothing. */
  function Apply(y: System, step: Step): System {
    if !Enabled(y, step) then y else
      var store, loops := Perform(y.store, OperationOf(y, step)), LoopsAfter(y, step);
      System(store, if step.Submit? then y.begun + {Work(step.run, step.session)} else y.begun,
        loops, CheckedAfter(y, step), InvokedAfter(y, step), Noted(y.store, store, loops, y.liveAtStop))
  }

  function Execute(y: System, steps: seq<Step>): System
    decreases |steps|
  {
    if steps == [] then y else Execute(Apply(y, steps[0]), steps[1..])
  }

  /****** What every step keeps, whatever run ids are used ******/

  ghost predicate Consistent(y: System) {
    && WellFormed(y.store)
    && (forall loop :: loop in y.loops ==> y.loops[loop] in y.begun)
    && (forall loop :: loop in y.checked ==> loop in y.loops)
    && (forall w <- y.begun :: w.run in y.store.runs)
  }

  lemma PerformKeepsRuns(s: Store, op: Operation, run: RunId)
    requires WellFormed(s) && run in s.runs
    ensures run in Perform(s, op).runs
    ensures !op.SubmitOp? ==> Perform(s, op).runs[run].session == s.runs[run].session
  {
    if op.StopOp? && Known(s, op.session) && !Has(s, op.session, Stopped) {
      if op.mode == Drain {
        DrainEffect(s, op.session);
      } else {
        CancelEffect(s, op.session);
      }
    }
  }

  lemma StepKeepsLoops(y: System, step: Step)
    requires Consistent(y)
    ensures forall loop :: loop in Apply(y, step).loops ==> Apply(y, step).loops[loop] in Apply(y, step).begun
    ensures forall loop :: loop in Apply(y, step).checked ==> loop in Apply(y, step).loops
  {
  }

  lemma StepConsistent(y: System, step: Step)
    requires Consistent(y)
    ensures Consistent(Apply(y, step))
  {
    var op := OperationOf(y, step);
    PerformKeepsForm(y.store, op);
    StepKeepsLoops(y, step);
    forall w | w in Apply(y, step).begun
      ensures w.run in Apply(y, step).store.runs
    {
      if w in y.begun {
        PerformKeepsRuns(y.store, op, w.run);
      }
    }
  }

  /** A session that does not accept work never does so again. */
  lemma StaysClosed(y: System, step: Step, session: SessionId)
    requires Consistent(y) && !Accepts(y.store, session)
    ensures !Accepts(Apply(y, step).store, session)
  {
    PerformAdvances(y.store, OperationOf(y, step), session);
  }

  /****** Side effects after a stop ******/

  /** The loop has a checked call with side effects in the session. */
  predicate Pending(y: System, loop: LoopId, session: SessionId) {
    loop in y.checked && y.checked[loop] == Checked(session, false)
  }

  predicate SideEffect(e: ToolEvent, session: SessionId) {
    e.session == session && !e.readOnly
  }

  /** Since the first n, tool events with side effects in the session come from calls that were pending
      at the start and are not any more. */
  ghost predicate OnlyPending(y: System, z: System, n: nat, session: SessionId) {
    && n <= |z.invoked|
    && (forall loop :: Pending(z, loop, session) ==> Pending(y, loop, session))
    && (forall k :: n <= k < |z.invoked| && SideEffect(z.invoked[k], session) ==>
          Pending(y, z.invoked[k].loop, session) && !Pending(z, z.invoked[k].loop, session))
    && (forall j, k :: n <= j < k < |z.invoked| && SideEffect(z.invoked[j], session) && SideEffect(z.invoked[k], session) ==>
          z.invoked[j].loop != z.invoked[k].loop)
  }

  /** A step in a closed session lets at most one pending call through, and makes none pending. */
  lemma StepPending(z: System, step: Step, session: SessionId)
    requires Consistent(z) && !Accepts(z.store, session)
    ensures
      var z' := Apply(z, step);
      && (forall loop :: Pending(z', loop, session) ==> Pending(z, loop, session))
      && (z'.invoked == z.invoked
          || exists e :: z'.invoked == z.invoked + [e]
              && (SideEffect(e, session) ==> Pending(z, e.loop, session) && !Pending(z', e.loop, session)))
  {
    if step.InvokeTool? && Enabled(z, step) {
      var e := ToolEvent(step.loop, z.loops[step.loop].run, z.checked[step.loop].session, z.checked[step.loop].readOnly);
      assert Apply(z, step).invoked == z.invoked + [e];
    }
  }

  lemma OnlyPendingStep(y: System, z: System, step: Step, n: nat, session: SessionId)
    requires Consistent(z) && !Accepts(z.store, session) && OnlyPending(y, z, n, session)
    ensures OnlyPending(y, Apply(z, step), n, session)
  {
    StepPending(z, step, session);
  }

  lemma {:induction false} OnlyPendingHolds(y: System, z: System, steps: seq<Step>, n: nat, session: SessionId)
    requires Consistent(z) && !Accepts(z.store, session) && OnlyPending(y, z, n, session)
    ensures OnlyPending(y, Execute(z, steps), n, session)
    decreases |steps|
  {
    if steps != [] {
      StepConsistent(z, steps[0]);
      StaysClosed(z, steps[0], session);
      OnlyPendingStep(y, z, steps[0], n, session);
      OnlyPendingHolds(y, Apply(z, steps[0]), steps[1..], n, session);
    }
  }

  /** From the moment a session is stopping or stopped, whatever follows: every further tool.invoked with
      side effects in it is of a call that had passed its check before, and each such call is invoked once. */
  lemma NoSideEffectAfterStop(y: System, steps: seq<Step>, session: SessionId)
    requires Consistent(y) && !Accepts(y.store, session)
    ensures
      var invoked := Execute(y, steps).invoked;
      && |y.invoked| <= |invoked|
      && (forall k :: |y.invoked| <= k < |invoked| && SideEffect(invoked[k], session) ==> Pending(y, invoked[k].loop, session))
      && (forall j, k :: |y.invoked| <= j < k < |invoked| && SideEffect(invoked[j], session) && SideEffect(invoked[k], session) ==>
            invoked[j].loop != invoked[k].loop)
  {
    OnlyPendingHolds(y, y, steps, |y.invoked|, session);
  }

  /** Some tool event of the continuation has side effects in the session. */
  ghost predicate LateSideEffect(y: System, steps: seq<Step>, session: SessionId) {
    exists k :: |y.invoked| <= k < |Execute(y, steps).invoked| && SideEffect(Execute(y, steps).invoked[k], session)
  }

  /** A side effect can follow a stop exactly when a loop stands between the check and the invocation of
      a call with side effects. */
  lemma SideEffectAfterStopExactly(y: System, session: SessionId)
    requires Consistent(y) && !Accepts(y.store, session)
    ensures (exists steps :: LateSideEffect(y, steps, session)) <==> exists loop :: Pending(y, loop, session)
  {
    if steps :| LateSideEffect(y, steps, session) {
      NoSideEffectAfterStop(y, steps, session);
      var k :| |y.invoked| <= k < |Execute(y, steps).invoked| && SideEffect(Execute(y, steps).invoked[k], session);
      assert Pending(y, Execute(y, steps).invoked[k].loop, session);
    }
    if loop :| Pending(y, loop, session) {
      var steps := [InvokeTool(loop)];
      assert Execute(y, steps) == Execute(Apply(y, InvokeTool(loop)), []) == Apply(y, InvokeTool(loop));
      assert SideEffect(Execute(y, steps).invoked[|y.invoked|], session);
      assert LateSideEffect(y, steps, session);
    }
  }

  /****** Active runs after a stop ******/

  /** Every submission brings a run id not seen before. */
  predicate Fresh(y: System, step: Step) {
    step.Submit? ==> step.run !in y.store.runs
  }

  predicate FreshIds(y: System, steps: seq<Step>)
    decreases |steps|
  {
    steps == [] || (Fresh(y, steps[0]) && FreshIds(Apply(y, steps[0]), steps[1..]))
  }

  /** A loop is at work on a run of the session. */
  ghost predicate LoopOn(y: System, session: SessionId) {
    exists loop :: loop in y.loops && y.loops[loop].session == session
  }

  /** The scope of a run names the session on record for it. */
  ghost predicate ScopesAgree(y: System) {
    forall w <- y.begun :: w.run in y.store.runs && y.store.runs[w.run].session == w.session
  }

  /** A stopped session has only such active runs, and only loops on such runs, as it had loops on when it stopped. */
  ghost predicate LateRunsOnly(y: System, session: SessionId) {
    Has(y.store, session, Stopped) ==>
      && session in y.liveAtStop
      && (forall run :: ActiveIn(y.store, session, run) ==> run in y.liveAtStop[session])
      && (forall loop :: loop in y.loops && y.loops[loop].session == session ==> y.loops[loop].run in y.liveAtStop[session])
  }

  ghost predicate Invariant(y: System) {
    Consistent(y) && ScopesAgree(y) && (forall session :: LateRunsOnly(y, session)) && forall session :: Drains(y.store, session)
  }

  lemma StepScopes(y: System, step: Step)
    requires Consistent(y) && ScopesAgree(y) && Fresh(y, step)
    ensures ScopesAgree(Apply(y, step))
  {
    var op := OperationOf(y, step);
    forall w | w in y.begun
      ensures w.run in Apply(y, step).store.runs && Apply(y, step).store.runs[w.run].session == w.session
    {
      PerformKeepsRuns(y.store, op, w.run);
    }
  }

  /** In a stopped session a run becomes active only under a loop that is at work on it. */
  lemma ActiveNeedsLoop(y: System, step: Step, session: SessionId, run: RunId)
    requires Consistent(y) && ScopesAgree(y) && Has(y.store, session, Stopped)
    requires ActiveIn(Apply(y, step).store, session, run)
    ensures ActiveIn(y.store, session, run) || (step.Suspend? && step.loop in y.loops && y.loops[step.loop] == Work(run, session))
  {
    if Enabled(y, step) {
      ActiveAfter(y.store, OperationOf(y, step), session, run);
    }
  }

  lemma NewLoops(y: System, step: Step, session: SessionId, loop: LoopId)
    requires !Accepts(y.store, session)
    requires loop in Apply(y, step).loops && Apply(y, step).loops[loop].session == session
    ensures loop in y.loops && y.loops[loop] == Apply(y, step).loops[loop]
  {
  }

  lemma LateRunsStay(y: System, step: Step, session: SessionId)
    requires Consistent(y) && ScopesAgree(y) && LateRunsOnly(y, session) && Has(y.store, session, Stopped)
    ensures LateRunsOnly(Apply(y, step), session)
  {
    var y' := Apply(y, step);
    PerformAdvances(y.store, OperationOf(y, step), session);
    assert session in y'.liveAtStop && y'.liveAtStop[session] == y.liveAtStop[session];
    forall run | ActiveIn(y'.store, session, run)
      ensures run in y.liveAtStop[session]
    {
      ActiveNeedsLoop(y, step, session, run);
    }
    forall loop | loop in y'.loops && y'.loops[loop].session == session
      ensures y'.loops[loop].run in y.liveAtStop[session]
    {
      NewLoops(y, step, session, loop);
    }
  }

  lemma LateRunsNoted(y: System, step: Step, session: SessionId)
    requires Consistent(y) && !Has(y.store, session, Stopped) && Has(Apply(y, step).store, session, Stopped)
    ensures LateRunsOnly(Apply(y, step), session) && !HasActive(Apply(y, step).store, session)
    ensures Apply(y, step).liveAtStop[session] == RunsAtWork(Apply(y, step).loops, session)
  {
    JustStoppedIsIdle(y.store, OperationOf(y, step), session);
    var y' := Apply(y, step);
    assert y'.liveAtStop[session] == RunsAtWork(y'.loops, session);
    assert forall loop :: loop in y'.loops && y'.loops[loop].session == session ==> y'.loops[loop].run in RunsAtWork(y'.loops, session);
  }

  lemma NothingStrands(y: System, step: Step, session: SessionId)
    requires Consistent(y) && ScopesAgree(y) && Fresh(y, step)
    ensures !Strands(y.store, OperationOf(y, step), session)
  {
    if step.Submit? {
      FreshNeverStrands(y.store, step.run, step.session, session);
    }
  }

  /** With fresh run ids every step keeps the invariant. */
  lemma StepKeeps(y: System, step: Step)
    requires Invariant(y) && Fresh(y, step)
    ensures Invariant(Apply(y, step))
  {
    var y' := Apply(y, step);
    StepConsistent(y, step);
    StepScopes(y, step);
    forall session
      ensures LateRunsOnly(y', session) && Drains(y'.store, session)
    {
      assert LateRunsOnly(y, session) && Drains(y.store, session);
      NothingStrands(y, step, session);
      StrandsExactly(y.store, OperationOf(y, step), session);
      if Has(y'.store, session, Stopped) {
        if Has(y.store, session, Stopped) {
          LateRunsStay(y, step, session);
        } else {
          LateRunsNoted(y, step, session);
        }
      }
    }
  }

  lemma {:induction false} InvariantHolds(y: System, steps: seq<Step>)
    requires Invariant(y) && FreshIds(y, steps)
    ensures Invariant(Execute(y, steps))
    decreases |steps|
  {
    if steps != [] {
      StepKeeps(y, steps[0]);
      InvariantHolds(Apply(y, steps[0]), steps[1..]);
    }
  }

  /** In every state reachable with fresh run ids: a stopping session has an active run, and an active run
      of a stopped session is one of its own that had a loop at work when it stopped. */
  lemma LifecycleInvariant(steps: seq<Step>, session: SessionId, run: RunId)
    requires FreshIds(INITIAL, steps)
    ensures
      var y := Execute(INITIAL, steps);
      && (Has(y.store, session, Stopping) ==> HasActive(y.store, session))
      && (Has(y.store, session, Stopped) && ActiveIn(y.store, session, run) ==>
            session in y.liveAtStop && run in y.liveAtStop[session])
  {
    InvariantHolds(INITIAL, steps);
    var y := Execute(INITIAL, steps);
    assert LateRunsOnly(y, session) && Drains(y.store, session);
  }

  /** Stopped, with no active run and no loop at work. */
  ghost predicate Quiet(y: System, session: SessionId) {
    Has(y.store, session, Stopped) && !HasActive(y.store, session) && !LoopOn(y, session)
  }

  lemma QuietStays(y: System, step: Step, session: SessionId)
    requires Consistent(y) && ScopesAgree(y) && Quiet(y, session)
    ensures Quiet(Apply(y, step), session)
  {
    var y' := Apply(y, step);
    PerformAdvances(y.store, OperationOf(y, step), session);
    forall run
      ensures !ActiveIn(y'.store, session, run)
    {
      if ActiveIn(y'.store, session, run) {
        ActiveNeedsLoop(y, step, session, run);
      }
    }
    if loop :| loop in y'.loops && y'.loops[loop].session == session {
      NewLoops(y, step, session, loop);
    }
  }

  lemma {:induction false} QuietForGood(y: System, steps: seq<Step>, session: SessionId)
    requires Consistent(y) && ScopesAgree(y) && Quiet(y, session) && FreshIds(y, steps)
    ensures Quiet(Execute(y, steps), session)
    decreases |steps|
  {
    if steps != [] {
      StepConsistent(y, steps[0]);
      StepScopes(y, steps[0]);
      QuietStays(y, steps[0], session);
      QuietForGood(Apply(y, steps[0]), steps[1..], session);
    }
  }

  /** Invokes what the loop has checked, and waits for an approval. */
  function Park(y: System, loop: LoopId): seq<Step> {
    if loop in y.checked then [InvokeTool(loop), Suspend(loop)] else [Suspend(loop)]
  }

  lemma ParkIs(y: System, loop: LoopId) returns (z: System)
    requires loop in y.loops
    ensures z.store == y.store && z.loops == y.loops && loop !in z.checked
    ensures Execute(y, Park(y, loop)) == Apply(z, Suspend(loop)) && FreshIds(y, Park(y, loop))
  {
    if loop in y.checked {
      z := Apply(y, InvokeTool(loop));
      assert Park(y, loop)[1..] == [Suspend(loop)] && [Suspend(loop)][1..] == [];
      assert Execute(y, Park(y, loop)) == Execute(z, [Suspend(loop)]) == Execute(Apply(z, Suspend(loop)), []);
    } else {
      z := y;
      assert [Suspend(loop)][1..] == [];
      assert Execute(y, Park(y, loop)) == Execute(Apply(z, Suspend(loop)), []);
    }
  }

  /** A loop at work puts its own status over a cancellation: whatever stopped the session, it can leave
      its run waiting in it. */
  lemma LoopMayPark(y: System, loop: LoopId)
    requires Consistent(y) && ScopesAgree(y) && loop in y.loops && Has(y.store, y.loops[loop].session, Stopped)
    ensures FreshIds(y, Park(y, loop))
    ensures ActiveIn(Execute(y, Park(y, loop)).store, y.loops[loop].session, y.loops[loop].run)
  {
    var z := ParkIs(y, loop);
    assert y.loops[loop] in y.begun;
    ParkedAfterStop(z, loop);
  }

  ghost predicate ActiveLater(y: System, steps: seq<Step>, session: SessionId) {
    FreshIds(y, steps) && HasActive(Execute(y, steps).store, session)
  }

  /** A stopped session can have an active run in some continuation exactly when it has one now or a loop
      is at work on one of its runs. */
  lemma ActiveAfterStopExactly(y: System, session: SessionId)
    requires Invariant(y) && Has(y.store, session, Stopped)
    ensures (exists steps :: ActiveLater(y, steps, session)) <==> HasActive(y.store, session) || LoopOn(y, session)
  {
    if steps :| ActiveLater(y, steps, session) {
      if Quiet(y, session) {
        QuietForGood(y, steps, session);
      }
    }
    if HasActive(y.store, session) {
      assert Execute(y, []) == y;
      assert ActiveLater(y, [], session);
    }
    if loop :| loop in y.loops && y.loops[loop].session == session {
      LoopMayPark(y, loop);
      assert ActiveLater(y, Park(y, loop), session);
    }
  }

  lemma StopKeepsLoops(y: System, step: Step, session: SessionId)
    requires step.Stop?
    ensures LoopOn(Apply(y, step), session) <==> LoopOn(y, session)
  {
    assert Apply(y, step).loops == y.loops;
  }

  /** Seen from the step that stops the session: an active run can follow exactly when the step leaves a
      loop at work on one of its runs; a stop leaves those that it finds. */
  lemma StopLeavesActiveExactly(y: System, step: Step, session: SessionId)
    requires Invariant(y) && Fresh(y, step)
    requires !Has(y.store, session, Stopped) && Has(Apply(y, step).store, session, Stopped)
    ensures (exists steps :: ActiveLater(Apply(y, step), steps, session)) <==> LoopOn(Apply(y, step), session)
    ensures step.Stop? ==> (LoopOn(Apply(y, step), session) <==> LoopOn(y, session))
  {
    StepKeeps(y, step);
    LateRunsNoted(y, step, session);
    ActiveAfterStopExactly(Apply(y, step), session);
    if step.Stop? {
      StopKeepsLoops(y, step, session);
    }
  }

  const SUBMITTED_LOOP := System(SUBMITTED, {Work("r", "s")}, map[0 := Work("r", "s")], map[], [], map[])

  lemma OneLoop()
    ensures Apply(INITIAL, Submit(0, "r", "s")) == SUBMITTED_LOOP
  {
    OneSubmitted();
  }

  lemma OneCancelled()
    ensures Has(StopSpec(SUBMITTED, "s", CancelActive), "s", Stopped)
    ensures "r" in StopSpec(SUBMITTED, "s", CancelActive).runs
    ensures StopSpec(SUBMITTED, "s", CancelActive).runs["r"].session == "s"
  {
    CancelEffect(SUBMITTED, "s");
  }

  lemma ParkedAfterStop(y: System, loop: LoopId)
    requires loop in y.loops && loop !in y.checked && Has(y.store, y.loops[loop].session, Stopped)
    requires y.loops[loop].run in y.store.runs && y.store.runs[y.loops[loop].run].session == y.loops[loop].session
    ensures
      var z := Apply(y, Suspend(loop));
      Has(z.store, y.loops[loop].session, Stopped) && ActiveIn(z.store, y.loops[loop].session, y.loops[loop].run)
  {
  }

  lemma CancelledLoop(z: System)
    requires z == Apply(SUBMITTED_LOOP, Stop("s", CancelActive))
    ensures z.loops == map[0 := Work("r", "s")] && z.checked == map[] && Has(z.store, "s", Stopped)
    ensures "r" in z.store.runs && z.store.runs["r"].session == "s"
  {
    OneCancelled();
    assert z.store == StopSpec(SUBMITTED, "s", CancelActive);
  }

  /** A run of a cancelled session that waits for an approval. */
  lemma SuspendedAfterStop(y: System)
    requires y == Apply(Apply(INITIAL, Submit(0, "r", "s")), Stop("s", CancelActive))
    ensures Has(Apply(y, Suspend(0)).store, "s", Stopped) && ActiveIn(Apply(y, Suspend(0)).store, "s", "r")
  {
    OneLoop();
    CancelledLoop(y);
    ParkedAfterStop(y, 0);
  }

  /****** Steps and store operations ******/

  function Operations(y: System, steps: seq<Step>): seq<Operation>
    decreases |steps|
  {
    if steps == [] then [] else [OperationOf(y, steps[0])] + Operations(Apply(y, steps[0]), steps[1..])
  }

  /** What holds of every sequence of store operations holds of the store in every interleaving. */
  lemma {:induction false} StoreOfTrace(ops: seq<Operation>, y: System, steps: seq<Step>)
    requires y.store == SessionOps.Execute(ops)
    ensures Execute(y, steps).store == SessionOps.Execute(ops + Operations(y, steps))
    decreases |steps|
  {
    if steps == [] {
      assert ops + Operations(y, steps) == ops;
    } else {
      var op := OperationOf(y, steps[0]);
      assert (ops + [op])[..|ops|] == ops;
      StoreOfTrace(ops + [op], Apply(y, steps[0]), steps[1..]);
      assert ops + Operations(y, steps) == ops + [op] + Operations(Apply(y, steps[0]), steps[1..]);
    }
  }

  /****** One operation at a time ******/

  /** Operations follow one another: each begins when no loop is at work. */
  predicate OneAtATime(y: System, steps: seq<Step>)
    decreases |steps|
  {
    steps == [] ||
      ((steps[0].Submit? || steps[0].Resume? || steps[0].Deny? || steps[0].Interrupt? || steps[0].Stop? ==> y.loops == map[])
       && OneAtATime(Apply(y, steps[0]), steps[1..]))
  }

  /** At most one loop is at work, and no session stopped around one. */
  ghost predicate Alone(y: System) {
    && (forall a, b :: a in y.loops && b in y.loops ==> a == b)
    && (forall session :: Has(y.store, session, Stopped) ==> Quiet(y, session))
  }

  lemma AloneStep(y: System, step: Step)
    requires Consistent(y) && ScopesAgree(y) && Alone(y)
    requires step.Submit? || step.Resume? || step.Deny? || step.Interrupt? || step.Stop? ==> y.loops == map[]
    ensures Alone(Apply(y, step))
  {
    var y' := Apply(y, step);
    forall session | Has(y'.store, session, Stopped)
      ensures Quiet(y', session)
    {
      if Has(y.store, session, Stopped) {
        QuietStays(y, step, session);
      } else {
        LateRunsNoted(y, step, session);
        StopsAlone(y, step, session);
      }
    }
  }

  /** Where at most one loop is at work, a step that stops a session leaves none. */
  lemma StopsAlone(y: System, step: Step, session: SessionId)
    requires forall a, b :: a in y.loops && b in y.loops ==> a == b
    requires step.Submit? || step.Resume? || step.Deny? || step.Interrupt? || step.Stop? ==> y.loops == map[]
    requires !Has(y.store, session, Stopped) && Has(Apply(y, step).store, session, Stopped)
    ensures !LoopOn(Apply(y, step), session)
  {
  }

  lemma {:induction false} AloneHolds(y: System, steps: seq<Step>)
    requires Consistent(y) && ScopesAgree(y) && Alone(y) && FreshIds(y, steps) && OneAtATime(y, steps)
    ensures Alone(Execute(y, steps))
    decreases |steps|
  {
    if steps != [] {
      StepConsistent(y, steps[0]);
      StepScopes(y, steps[0]);
      AloneStep(y, steps[0]);
      AloneHolds(Apply(y, steps[0]), steps[1..]);
    }
  }

  /** With operations one at a time and fresh run ids, a stopped session has no active run at all. */
  lemma StoppedIsIdle(steps: seq<Step>, session: SessionId)
    requires FreshIds(INITIAL, steps) && OneAtATime(INITIAL, steps)
    ensures Has(Execute(INITIAL, steps).store, session, Stopped) ==> !HasActive(Execute(INITIAL, steps).store, session)
  {
    AloneHolds(INITIAL, steps);
  }
}
