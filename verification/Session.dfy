/** The life of a session: runs that start, wait, end and are interrupted, and a session that is
    drained or cancelled around them (pkg/rtagent/session.go, session_stop.go, runtime_run.go,
    runtime_projection.go, loop_outcomes.go, loop_activity.go, approval_resume.go). */
module Session {
  import opened Types
  import opened Wrappers
  import PermissionCenter
  import Text

  datatype RunStatus = Queued | Running | Blocked | Suspended | Completed | Failed | Denied | Canceled

  predicate IsActive(status: RunStatus) {
    status == Queued || status == Running || status == Blocked || status == Suspended
  }

  predicate IsTerminal(status: RunStatus) {
    status == Completed || status == Failed || status == Canceled || status == Denied
  }

  datatype StopMode = Drain | CancelActive

  datatype Thread = Thread(status: SessionStatus, latestRun: RunId)

  datatype RunRecord = RunRecord(session: SessionId, status: RunStatus)

  /** The stored sessions and runs, the runs in order of creation, and the session.ended events. */
  datatype Store = Store(
    threads: map<SessionId, Thread>, runs: map<RunId, RunRecord>, order: seq<RunId>, ended: seq<SessionId>)

  predicate ActiveIn(s: Store, session: SessionId, run: RunId) {
    run in s.runs && s.runs[run].session == session && IsActive(s.runs[run].status)
  }

  predicate HasActive(s: Store, session: SessionId) {
    exists run :: run in s.runs && ActiveIn(s, session, run)
  }

  /** ensureSessionCanAcceptRun for a session id that is not blank. */
  predicate Accepts(s: Store, session: SessionId) {
    session in s.threads ==> s.threads[session].status == Active
  }

  predicate Has(s: Store, session: SessionId, status: SessionStatus) {
    session in s.threads && s.threads[session].status == status
  }

  /** The world a permission check sees. */
  function WorldOf(s: Store): PermissionCenter.World {
    PermissionCenter.World(s.runs.Keys, map session | session in s.threads :: s.threads[session].status)
  }

  /** Accepting a session here and in the permission center is the same. */
  lemma AcceptsIsNoRefusal(s: Store, session: SessionId)
    requires Text.Trimmed(session) && session != ""
    ensures PermissionCenter.SessionRefusal(WorldOf(s), session).None? <==> Accepts(s, session)
  {
    Text.TrimIs(session);
  }

  /****** Specification of the operations ******/

  function WithStatus(s: Store, run: RunId, status: RunStatus): Store
    requires run in s.runs
  {
    s.(runs := s.runs[run := s.runs[run].(status := status)])
  }

  function End(s: Store, session: SessionId, thread: Thread): Store {
    s.(threads := s.threads[session := thread.(status := Stopped)], ended := s.ended + [session])
  }

  /** completeDrainedSessionIfIdle. */
  function DrainSpec(s: Store, session: SessionId): Store {
    if Has(s, session, Stopping) && !HasActive(s, session) then End(s, session, s.threads[session]) else s
  }

  /** putRunStatus followed by the drain check of emitActivityCompleted, which looks at the session of
      the scope that the loop runs in. */
  function ExitSpec(s: Store, run: RunId, scope: SessionId, status: RunStatus): Store
    requires run in s.runs
  {
    DrainSpec(WithStatus(s, run, status), scope)
  }

  /** InterruptRun looks at the session on record. */
  function InterruptSpec(s: Store, run: RunId): Store {
    if run !in s.runs then s
    else if IsTerminal(s.runs[run].status) then DrainSpec(s, s.runs[run].session)
    else ExitSpec(s, run, s.runs[run].session, Canceled)
  }

  function InterruptAllSpec(s: Store, runs: seq<RunId>): Store
    decreases |runs|
  {
    if runs == [] then s else InterruptAllSpec(InterruptSpec(s, runs[0]), runs[1..])
  }

  /** The active runs of a session in order of creation. */
  function ActiveRuns(s: Store, session: SessionId, order: seq<RunId>): seq<RunId> {
    if order == [] then [] else
      var before, last := ActiveRuns(s, session, order[..|order| - 1]), order[|order| - 1];
      if ActiveIn(s, session, last) then before + [last] else before
  }

  predicate Known(s: Store, session: SessionId) {
    session in s.threads || exists run :: run in s.runs && s.runs[run].session == session
  }

  /** The stored thread, or the one synthesized from the runs. */
  function ThreadOf(s: Store, session: SessionId): Thread {
    if session in s.threads then s.threads[session] else Thread(Active, "")
  }

  function StopSpec(s: Store, session: SessionId, mode: StopMode): Store {
    if !Known(s, session) || Has(s, session, Stopped) then s else
      var active, thread := ActiveRuns(s, session, s.order), ThreadOf(s, session);
      if mode == Drain && active != [] then s.(threads := s.threads[session := thread.(status := Stopping)])
      else End(if mode == Drain then s else InterruptAllSpec(s, active), session, thread)
  }

  /** initializeRun: the run is stored as running and its session recorded. */
  function SubmitSpec(s: Store, session: SessionId, run: RunId): Store {
    if !Accepts(s, session) then s
    else
      s.(runs := s.runs[run := RunRecord(session, Running)],
         order := if run in s.runs then s.order else s.order + [run],
         threads := s.threads[session := ThreadOf(s, session).(latestRun := run)])
  }

  predicate Resumable(status: RunStatus) {
    status == Suspended || status == Running || status == Failed
  }

  predicate CanResume(s: Store, run: RunId, scope: SessionId) {
    run in s.runs && Resumable(s.runs[run].status) && Accepts(s, scope)
  }

  /****** The store ******/

  class SessionStore {
    var threads: map<SessionId, Thread>
    var runs: map<RunId, RunRecord>
    var order: seq<RunId>
    var ended: seq<SessionId>

    function View(): Store
      reads this
    {
      Store(threads, runs, order, ended)
    }

    constructor ()
      ensures View() == Store(map[], map[], [], [])
    {
      threads, runs, order, ended := map[], map[], [], [];
    }

    method PutRunStatus(run: RunId, status: RunStatus)
      requires run in runs
      modifies this`runs
      ensures View() == WithStatus(old(View()), run, status)
    {
      runs := runs[run := runs[run].(status := status)];
    }

    /** Is any run of the session still active? */
    method AnyActive(session: SessionId) returns (found: bool)
      ensures found <==> HasActive(View(), session)
    {
      found := false;
      var todo := runs.Keys;
      while todo != {}
        invariant todo <= runs.Keys
        invariant found ==> HasActive(View(), session)
        invariant !found ==> forall run :: run in runs && ActiveIn(View(), session, run) ==> run in todo
      {
        var run :| run in todo;
        todo := todo - {run};
        if ActiveIn(View(), session, run) {
          found := true;
        }
      }
    }

    method CompleteDrainedSessionIfIdle(session: SessionId)
      modifies this
      ensures View() == DrainSpec(old(View()), session)
    {
      if session !in threads || threads[session].status != Stopping {
        return;
      }
      var busy := AnyActive(session);
      if busy {
        return;
      }
      threads := threads[session := threads[session].(status := Stopped)];
      ended := ended + [session];
    }

    method InterruptRun(run: RunId) returns (found: bool)
      modifies this
      ensures View() == InterruptSpec(old(View()), run) && (found <==> run in old(runs))
    {
      if run !in runs {
        return false;
      }
      if IsTerminal(runs[run].status) {
        CompleteDrainedSessionIfIdle(runs[run].session);
        return true;
      }
      PutRunStatus(run, Canceled);
      CompleteDrainedSessionIfIdle(runs[run].session);
      return true;
    }

    method CollectActive(session: SessionId) returns (active: seq<RunId>)
      ensures active == ActiveRuns(View(), session, order)
    {
      active := [];
      for i := 0 to |order|
        invariant active == ActiveRuns(View(), session, order[..i])
      {
        assert order[..i + 1][..i] == order[..i];
        if ActiveIn(View(), session, order[i]) {
          active := active + [order[i]];
        }
      }
      assert order[..|order|] == order;
    }

    method StopSession(session: SessionId, mode: StopMode) returns (known: bool)
      modifies this
      ensures View() == StopSpec(old(View()), session, mode) && (known <==> Known(old(View()), session))
    {
      known := Known(View(), session);
      if !known {
        return;
      }
      var thread := ThreadOf(View(), session);
      if thread.status == Stopped {
        return;
      }
      var active := CollectActive(session);
      var next := Stopped;
      if mode == Drain {
        if |active| > 0 {
          next := Stopping;
        }
      } else {
        InterruptEach(active);
      }
      threads := threads[session := thread.(status := next)];
      if next == Stopped {
        ended := ended + [session];
      }
    }

    method InterruptEach(active: seq<RunId>)
      modifies this
      ensures View() == InterruptAllSpec(old(View()), active)
    {
      var i := 0;
      while i < |active|
        invariant i <= |active|
        invariant InterruptAllSpec(View(), active[i..]) == InterruptAllSpec(old(View()), active)
      {
        var found := InterruptRun(active[i]);
        i := i + 1;
      }
    }

    method InitializeRun(session: SessionId, run: RunId) returns (accepted: bool)
      modifies this
      ensures View() == SubmitSpec(old(View()), session, run) && (accepted <==> Accepts(old(View()), session))
    {
      if session in threads && threads[session].status != Active {
        return false;
      }
      if run !in runs {
        order := order + [run];
      }
      runs := runs[run := RunRecord(session, Running)];
      if session !in threads {
        threads := threads[session := Thread(Active, run)];
      } else {
        threads := threads[session := threads[session].(latestRun := run)];
      }
      return true;
    }

    /** The exit of a loop: the run status is put and the session of its scope completed if that drained it. */
    method ExitRun(run: RunId, scope: SessionId, status: RunStatus)
      requires run in runs
      modifies this
      ensures View() == ExitSpec(old(View()), run, scope, status)
    {
      PutRunStatus(run, status);
      CompleteDrainedSessionIfIdle(scope);
    }
  }
}
