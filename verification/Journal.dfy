/** The event journal: sequence allocation, append and the projection watermark
    (pkg/rtagent/runtime_events.go, pkg/rtagent/world_state_cache.go). */
module Journal {
  import opened Types
  import opened Wrappers

  datatype Payload = Payload(toolCallId: string, toolName: string)

  datatype Event = Event(id: EventId, kind: EventKind, sequence: nat, occurredAt: string, payload: Payload)

  /** An event to be emitted; a sequence of zero or less asks for the next free one. */
  datatype Draft = Draft(run: RunId, kind: EventKind, sequence: int, occurredAt: string, payload: Payload)

  /** The kinds of events that can change a partition of the projection. */
  predicate ProjectionRelevant(kind: EventKind) {
    match kind
    case ContextPacketCreated | ToolInvoked | ToolSucceeded | ToolFailed | ActivityStarted | ActivityCompleted
       | PermissionRequested | PermissionGranted | PermissionDenied | TurnCompleted | TurnFailed | TurnCancelled
       | RunInterrupted => true
    case _ => false
  }

  function MaxSequence(events: seq<Event>): nat {
    if events == [] then 0 else
      var before, last := MaxSequence(events[..|events| - 1]), events[|events| - 1].sequence;
      if last > before then last else before
  }

  /** The highest sequence of a projection-relevant event. */
  function HighestRelevant(events: seq<Event>): nat {
    if events == [] then 0 else
      var before, last := HighestRelevant(events[..|events| - 1]), events[|events| - 1];
      if ProjectionRelevant(last.kind) && last.sequence > before then last.sequence else before
  }

  lemma MaxSequenceAppend(events: seq<Event>, e: Event)
    ensures MaxSequence(events + [e]) == if e.sequence > MaxSequence(events) then e.sequence else MaxSequence(events)
    ensures HighestRelevant(events + [e])
      == if ProjectionRelevant(e.kind) && e.sequence > HighestRelevant(events) then e.sequence else HighestRelevant(events)
  {
  }

  /** Sequences count up from one without gaps, and ids are those of the sequences. */
  ghost predicate Contiguous(run: RunId, events: seq<Event>) {
    forall i :: 0 <= i < |events| ==> events[i].sequence == i + 1 && events[i].id == Numbered(run, i + 1)
  }

  lemma {:induction false} ContiguousMax(run: RunId, events: seq<Event>)
    requires Contiguous(run, events)
    ensures MaxSequence(events) == |events|
  {
    if events != [] {
      ContiguousMax(run, events[..|events| - 1]);
    }
  }

  /** The sequence of the last relevant event, or zero when there is none. */
  ghost predicate IsHighestRelevant(events: seq<Event>, sequence: nat) {
    && (forall e <- events :: ProjectionRelevant(e.kind) ==> e.sequence <= sequence)
    && (sequence == 0 || exists e <- events :: ProjectionRelevant(e.kind) && e.sequence == sequence)
  }

  lemma {:induction false} HighestRelevantIs(events: seq<Event>)
    ensures IsHighestRelevant(events, HighestRelevant(events))
  {
    if events != [] {
      var n := |events| - 1;
      HighestRelevantIs(events[..n]);
      assert events == events[..n] + [events[n]];
    }
  }

  /****** Concurrent emitters ******/

  type Emitter = nat

  /** Where an emitter stands between its call and its return. */
  datatype Phase =
    | Idle
    | Waiting(draft: Draft)
    | Locked(draft: Draft)
    | Sequenced(draft: Draft, sequence: nat)
    | Appended(draft: Draft, sequence: nat)

  datatype Action =
    | Call(emitter: Emitter, draft: Draft)
    | Lock(emitter: Emitter)
    | ReadMax(emitter: Emitter)
    | Append(emitter: Emitter)
    | Abandon(emitter: Emitter)
    | ObserveEvent(emitter: Emitter)

  datatype State = State(
    mutex: Option<Emitter>, phases: map<Emitter, Phase>, events: map<RunId, seq<Event>>, watermark: map<RunId, nat>)

  const INITIAL := State(None, map[], map[], map[])

  function PhaseOf(s: State, e: Emitter): Phase {
    if e in s.phases then s.phases[e] else Idle
  }

  function EventsOf(s: State, run: RunId): seq<Event> {
    if run in s.events then s.events[run] else []
  }

  function Watermark(s: State, run: RunId): nat {
    Lookup(s.watermark, run)
  }

  function Advance(watermark: map<RunId, nat>, run: RunId, kind: EventKind, sequence: nat): map<RunId, nat> {
    if ProjectionRelevant(kind) && sequence > Lookup(watermark, run) then watermark[run := sequence] else watermark
  }

  function NewEvent(draft: Draft, sequence: nat): Event {
    Event(Numbered(draft.run, sequence), draft.kind, sequence, draft.occurredAt, draft.payload)
  }

  /** One atomic step of one emitter. A step that is not enabled leaves the state as it is. */
  function Step(s: State, a: Action): State {
    var e := a.emitter;
    match (a, PhaseOf(s, e))
    case (Call(_, draft), Idle) => if draft.sequence > 0 then s else s.(phases := s.phases[e := Waiting(draft)])
    case (Lock(_), Waiting(draft)) => if s.mutex.Some? then s else s.(mutex := Some(e), phases := s.phases[e := Locked(draft)])
    case (ReadMax(_), Locked(draft)) =>
      s.(phases := s.phases[e := Sequenced(draft, MaxSequence(EventsOf(s, draft.run)) + 1)])
    case (Append(_), Sequenced(draft, sequence)) =>
      s.(mutex := None, phases := s.phases[e := Appended(draft, sequence)],
         events := s.events[draft.run := EventsOf(s, draft.run) + [NewEvent(draft, sequence)]])
    case (Abandon(_), Locked(_)) => s.(mutex := None, phases := s.phases[e := Idle])
    case (Abandon(_), Sequenced(_, _)) => s.(mutex := None, phases := s.phases[e := Idle])
    case (ObserveEvent(_), Appended(draft, sequence)) =>
      s.(phases := s.phases[e := Idle], watermark := Advance(s.watermark, draft.run, draft.kind, sequence))
    case _ => s
  }

  function Execute(actions: seq<Action>): State {
    if actions == [] then INITIAL else Step(Execute(actions[..|actions| - 1]), actions[|actions| - 1])
  }

  predicate HoldsMutex(p: Phase) {
    p.Locked? || p.Sequenced?
  }

  /** An emitter has appended a relevant event of the run but not yet reported its sequence. */
  ghost predicate InFlight(s: State, run: RunId, sequence: nat) {
    exists e: Emitter :: PhaseOf(s, e).Appended? && PhaseOf(s, e).draft.run == run
      && ProjectionRelevant(PhaseOf(s, e).draft.kind) && PhaseOf(s, e).sequence == sequence
  }

  ghost predicate Invariant(s: State) {
    && (forall e: Emitter :: HoldsMutex(PhaseOf(s, e)) <==> s.mutex == Some(e))
    && (forall run :: Contiguous(run, EventsOf(s, run)))
    && (forall e: Emitter :: PhaseOf(s, e).Sequenced? ==> PhaseOf(s, e).sequence == |EventsOf(s, PhaseOf(s, e).draft.run)| + 1)
    && (forall run :: Watermark(s, run) <= HighestRelevant(EventsOf(s, run)))
    && (forall e: Emitter :: PhaseOf(s, e).Appended? && ProjectionRelevant(PhaseOf(s, e).draft.kind) ==>
          PhaseOf(s, e).sequence <= HighestRelevant(EventsOf(s, PhaseOf(s, e).draft.run)))
    && (forall run :: HighestRelevant(EventsOf(s, run)) <= Watermark(s, run)
          || InFlight(s, run, HighestRelevant(EventsOf(s, run))))
  }

  lemma StepAppend(s: State, e: Emitter)
    requires Invariant(s) && PhaseOf(s, e).Sequenced?
    ensures Invariant(Step(s, Append(e)))
  {
    var Sequenced(draft, sequence) := PhaseOf(s, e);
    var s' := Step(s, Append(e));
    assert EventsOf(s', draft.run) == EventsOf(s, draft.run) + [NewEvent(draft, sequence)];
    assert forall run :: run != draft.run ==> EventsOf(s', run) == EventsOf(s, run);
    assert forall other: Emitter :: other != e ==> PhaseOf(s', other) == PhaseOf(s, other);
    EventAppended(s, s', e, draft, sequence);
  }

  /** The holder of the mutex appends its event. */
  lemma EventAppended(s: State, s': State, e: Emitter, draft: Draft, sequence: nat)
    requires Invariant(s) && PhaseOf(s, e) == Sequenced(draft, sequence) && PhaseOf(s', e) == Appended(draft, sequence)
    requires forall other: Emitter :: other != e ==> PhaseOf(s', other) == PhaseOf(s, other)
    requires s'.mutex == None && s'.watermark == s.watermark
    requires EventsOf(s', draft.run) == EventsOf(s, draft.run) + [NewEvent(draft, sequence)]
    requires forall run :: run != draft.run ==> EventsOf(s', run) == EventsOf(s, run)
    ensures Invariant(s')
  {
    AppendRaises(draft.run, EventsOf(s, draft.run), NewEvent(draft, sequence));
    AppendPhases(s, s', e, draft.run);
    forall run
      ensures HighestRelevant(EventsOf(s', run)) <= Watermark(s', run) || InFlight(s', run, HighestRelevant(EventsOf(s', run)))
    {
      AppendCovered(s, s', e, draft, run);
    }
  }

  /** Whoever appends held the mutex, so nobody else had read the highest sequence. */
  lemma AppendPhases(s: State, s': State, e: Emitter, run: RunId)
    requires Invariant(s) && HoldsMutex(PhaseOf(s, e)) && !HoldsMutex(PhaseOf(s', e)) && s'.mutex == None
    requires forall other: Emitter :: other != e ==> PhaseOf(s', other) == PhaseOf(s, other)
    ensures forall other: Emitter :: !HoldsMutex(PhaseOf(s', other))
  {
    forall other: Emitter
      ensures !HoldsMutex(PhaseOf(s', other))
    {
      assert HoldsMutex(PhaseOf(s, other)) <==> s.mutex == Some(other);
    }
  }

  lemma AppendCovered(s: State, s': State, e: Emitter, draft: Draft, run: RunId)
    requires !PhaseOf(s, e).Appended? && PhaseOf(s', e).Appended? && PhaseOf(s', e).draft == draft
    requires forall other: Emitter :: other != e ==> PhaseOf(s', other) == PhaseOf(s, other)
    requires Watermark(s', run) == Watermark(s, run)
    requires HighestRelevant(EventsOf(s, run)) <= Watermark(s, run) || InFlight(s, run, HighestRelevant(EventsOf(s, run)))
    requires HighestRelevant(EventsOf(s', run)) ==
      if run == draft.run && ProjectionRelevant(draft.kind) then PhaseOf(s', e).sequence else HighestRelevant(EventsOf(s, run))
    ensures HighestRelevant(EventsOf(s', run)) <= Watermark(s', run) || InFlight(s', run, HighestRelevant(EventsOf(s', run)))
  {
  }

  /** The event appended next keeps the journal contiguous, and is the highest relevant one if it is relevant. */
  lemma AppendRaises(run: RunId, before: seq<Event>, event: Event)
    requires Contiguous(run, before) && event.sequence == |before| + 1 && event.id == Numbered(run, |before| + 1)
    ensures Contiguous(run, before + [event])
    ensures HighestRelevant(before + [event]) == if ProjectionRelevant(event.kind) then event.sequence else HighestRelevant(before)
    ensures HighestRelevant(before) <= |before|
  {
    MaxSequenceAppend(before, event);
    HighestRelevantBound(run, before);
  }

  lemma HighestRelevantBound(run: RunId, events: seq<Event>)
    requires Contiguous(run, events)
    ensures HighestRelevant(events) <= |events|
  {
  }

  /** What another emitter has in flight stays in flight. */
  lemma StillInFlight(s: State, s': State, e: Emitter, run: RunId)
    requires !PhaseOf(s, e).Appended?
    requires forall other: Emitter :: other != e ==> PhaseOf(s', other) == PhaseOf(s, other)
    requires InFlight(s, run, HighestRelevant(EventsOf(s, run)))
    ensures InFlight(s', run, HighestRelevant(EventsOf(s, run)))
  {
  }

  lemma StepObserve(s: State, e: Emitter)
    requires Invariant(s) && PhaseOf(s, e).Appended?
    ensures Invariant(Step(s, ObserveEvent(e)))
  {
    var Appended(draft, sequence) := PhaseOf(s, e);
    var s' := Step(s, ObserveEvent(e));
    assert forall run :: EventsOf(s', run) == EventsOf(s, run);
    assert forall other: Emitter :: other != e ==> PhaseOf(s', other) == PhaseOf(s, other);
    assert PhaseOf(s', e) == Idle;
    assert forall run :: run != draft.run ==> Watermark(s', run) == Watermark(s, run);
    forall run
      ensures HighestRelevant(EventsOf(s', run)) <= Watermark(s', run) || InFlight(s', run, HighestRelevant(EventsOf(s', run)))
    {
      ObserveCovered(s, s', e, draft, run);
    }
  }

  /** What was in flight is reported, or is in flight still. */
  lemma ObserveCovered(s: State, s': State, e: Emitter, draft: Draft, run: RunId)
    requires PhaseOf(s, e).Appended? && PhaseOf(s, e).draft == draft && EventsOf(s', run) == EventsOf(s, run)
    requires forall other: Emitter :: other != e ==> PhaseOf(s', other) == PhaseOf(s, other)
    requires Watermark(s', run) >= Watermark(s, run)
    requires run == draft.run && ProjectionRelevant(draft.kind) ==> Watermark(s', run) >= PhaseOf(s, e).sequence
    requires HighestRelevant(EventsOf(s, run)) <= Watermark(s, run) || InFlight(s, run, HighestRelevant(EventsOf(s, run)))
    ensures HighestRelevant(EventsOf(s', run)) <= Watermark(s', run) || InFlight(s', run, HighestRelevant(EventsOf(s', run)))
  {
    var high := HighestRelevant(EventsOf(s, run));
    if high > Watermark(s', run) {
      var q: Emitter :| PhaseOf(s, q).Appended? && PhaseOf(s, q).draft.run == run
        && ProjectionRelevant(PhaseOf(s, q).draft.kind) && PhaseOf(s, q).sequence == high;
      assert PhaseOf(s', q) == PhaseOf(s, q);
    }
  }

  /** An emitter moves on without touching journal and watermark. */
  lemma PhaseMoves(s: State, s': State, e: Emitter)
    requires Invariant(s) && s'.events == s.events && s'.watermark == s.watermark
    requires !PhaseOf(s, e).Appended? && !PhaseOf(s', e).Appended?
    requires forall other: Emitter :: other != e ==> PhaseOf(s', other) == PhaseOf(s, other)
    requires forall other: Emitter :: HoldsMutex(PhaseOf(s', other)) <==> s'.mutex == Some(other)
    requires PhaseOf(s', e).Sequenced? ==> PhaseOf(s', e).sequence == |EventsOf(s, PhaseOf(s', e).draft.run)| + 1
    ensures Invariant(s')
  {
    assert forall run :: EventsOf(s', run) == EventsOf(s, run) && Watermark(s', run) == Watermark(s, run);
    forall run
      ensures HighestRelevant(EventsOf(s', run)) <= Watermark(s', run) || InFlight(s', run, HighestRelevant(EventsOf(s', run)))
    {
      if HighestRelevant(EventsOf(s, run)) > Watermark(s, run) {
        StillInFlight(s, s', e, run);
      }
    }
  }

  /** Who holds the mutex after a step that neither appends nor reports. */
  lemma MutexMoves(s: State, a: Action)
    requires forall other: Emitter :: HoldsMutex(PhaseOf(s, other)) <==> s.mutex == Some(other)
    requires !(a.Append? && PhaseOf(s, a.emitter).Sequenced?) && !(a.ObserveEvent? && PhaseOf(s, a.emitter).Appended?)
    ensures forall other: Emitter :: HoldsMutex(PhaseOf(Step(s, a), other)) <==> Step(s, a).mutex == Some(other)
  {
  }

  lemma StepOther(s: State, a: Action)
    requires Invariant(s)
    requires !(a.Append? && PhaseOf(s, a.emitter).Sequenced?) && !(a.ObserveEvent? && PhaseOf(s, a.emitter).Appended?)
    ensures Invariant(Step(s, a))
  {
    var s', e := Step(s, a), a.emitter;
    if s' != s {
      assert forall other: Emitter :: other != e ==> PhaseOf(s', other) == PhaseOf(s, other);
      MutexMoves(s, a);
      if a.ReadMax? {
        ContiguousMax(PhaseOf(s, e).draft.run, EventsOf(s, PhaseOf(s, e).draft.run));
      }
      PhaseMoves(s, s', e);
    }
  }

  lemma {:induction false} InvariantHolds(actions: seq<Action>)
    ensures Invariant(Execute(actions))
  {
    if actions != [] {
      var s, a := Execute(actions[..|actions| - 1]), actions[|actions| - 1];
      InvariantHolds(actions[..|actions| - 1]);
      if a.Append? && PhaseOf(s, a.emitter).Sequenced? {
        StepAppend(s, a.emitter);
      } else if a.ObserveEvent? && PhaseOf(s, a.emitter).Appended? {
        StepObserve(s, a.emitter);
      } else {
        StepOther(s, a);
      }
    }
  }

  /** Emission is linear: under any interleaving of any number of emitters each journal holds the
      sequences 1..n with distinct ids; the watermark never runs ahead of the highest relevant
      sequence and equals it whenever no emitter of a relevant event is in flight. */
  lemma EmissionIsLinear(actions: seq<Action>, run: RunId)
    ensures
      var s := Execute(actions);
      && (forall i :: 0 <= i < |EventsOf(s, run)| ==> EventsOf(s, run)[i].sequence == i + 1)
      && (forall i, j :: 0 <= i < j < |EventsOf(s, run)| ==> EventsOf(s, run)[i].id != EventsOf(s, run)[j].id)
      && Watermark(s, run) <= HighestRelevant(EventsOf(s, run)) && IsHighestRelevant(EventsOf(s, run), HighestRelevant(EventsOf(s, run)))
      && ((forall e: Emitter :: !PhaseOf(s, e).Appended?) ==> Watermark(s, run) == HighestRelevant(EventsOf(s, run)))
  {
    InvariantHolds(actions);
    var s := Execute(actions);
    HighestRelevantIs(EventsOf(s, run));
    assert Contiguous(run, EventsOf(s, run));
  }

  /****** What the events are ******/

  /** Some emitter was called with the draft. */
  ghost predicate Called(actions: seq<Action>, draft: Draft) {
    exists k :: 0 <= k < |actions| && actions[k].Call? && actions[k].draft == draft
  }

  /** The event says what the draft says. */
  predicate Carries(e: Event, draft: Draft) {
    e.kind == draft.kind && e.occurredAt == draft.occurredAt && e.payload == draft.payload
  }

  ghost predicate FromCall(actions: seq<Action>, run: RunId, e: Event) {
    exists draft :: Called(actions, draft) && draft.run == run && Carries(e, draft)
  }

  /** What an emitter is about, it was called with; what it has appended is in the journal. */
  ghost predicate PhaseFromCall(s: State, actions: seq<Action>, e: Emitter) {
    && (!PhaseOf(s, e).Idle? ==> Called(actions, PhaseOf(s, e).draft))
    && (PhaseOf(s, e).Appended? ==>
          var events := EventsOf(s, PhaseOf(s, e).draft.run);
          0 < PhaseOf(s, e).sequence <= |events| && Carries(events[PhaseOf(s, e).sequence - 1], PhaseOf(s, e).draft))
  }

  ghost predicate AllFromCalls(s: State, actions: seq<Action>) {
    && (forall e: Emitter :: PhaseFromCall(s, actions, e))
    && (forall run, i :: 0 <= i < |EventsOf(s, run)| ==> FromCall(actions, run, EventsOf(s, run)[i]))
  }

  lemma CalledLater(actions: seq<Action>, a: Action, draft: Draft)
    ensures Called(actions, draft) ==> Called(actions + [a], draft)
    ensures a.Call? && a.draft == draft ==> Called(actions + [a], draft)
  {
    var all := actions + [a];
    assert all[|actions|] == a;
    if k :| 0 <= k < |actions| && actions[k].Call? && actions[k].draft == draft {
      assert all[k] == actions[k];
    }
  }

  lemma FromCallLater(actions: seq<Action>, a: Action, run: RunId, e: Event)
    requires FromCall(actions, run, e)
    ensures FromCall(actions + [a], run, e)
  {
    var draft :| Called(actions, draft) && draft.run == run && Carries(e, draft);
    CalledLater(actions, a, draft);
  }

  /** Where a journal is after a step: as it was, or longer by the event that its emitter was called with. */
  lemma StepEvents(s: State, a: Action, run: RunId)
    requires Invariant(s)
    ensures
      var p := PhaseOf(s, a.emitter);
      if a.Append? && p.Sequenced? && p.draft.run == run then
        && EventsOf(Step(s, a), run) == EventsOf(s, run) + [NewEvent(p.draft, p.sequence)]
        && p.sequence == |EventsOf(s, run)| + 1 && PhaseOf(Step(s, a), a.emitter) == Appended(p.draft, p.sequence)
      else EventsOf(Step(s, a), run) == EventsOf(s, run)
  {
  }

  lemma StepPhase(s: State, actions: seq<Action>, a: Action, e: Emitter)
    requires Invariant(s) && PhaseFromCall(s, actions, e)
    ensures PhaseFromCall(Step(s, a), actions + [a], e)
  {
    var p, p' := PhaseOf(s, e), PhaseOf(Step(s, a), e);
    if !p.Idle? {
      CalledLater(actions, a, p.draft);
    }
    if !p'.Idle? {
      CalledLater(actions, a, p'.draft);
      StepEvents(s, a, p'.draft.run);
    }
  }

  lemma StepFromCalls(s: State, actions: seq<Action>, a: Action)
    requires Invariant(s) && AllFromCalls(s, actions)
    ensures AllFromCalls(Step(s, a), actions + [a])
  {
    var s' := Step(s, a);
    forall e: Emitter
      ensures PhaseFromCall(s', actions + [a], e)
    {
      StepPhase(s, actions, a, e);
    }
    forall run, i | 0 <= i < |EventsOf(s', run)|
      ensures FromCall(actions + [a], run, EventsOf(s', run)[i])
    {
      StepEvents(s, a, run);
      if i < |EventsOf(s, run)| {
        FromCallLater(actions, a, run, EventsOf(s, run)[i]);
      } else {
        var draft := PhaseOf(s, a.emitter).draft;
        assert PhaseFromCall(s, actions, a.emitter);
        CalledLater(actions, a, draft);
        assert Carries(EventsOf(s', run)[i], draft);
      }
    }
  }

  /** Under every interleaving each event says what some emitter was called with for its run, and an emitter
      that has appended finds its own event in the journal, under the sequence it was given. */
  lemma {:induction false} EventsAreEmitted(actions: seq<Action>)
    ensures AllFromCalls(Execute(actions), actions)
  {
    if actions != [] {
      var n := |actions| - 1;
      EventsAreEmitted(actions[..n]);
      InvariantHolds(actions[..n]);
      StepFromCalls(Execute(actions[..n]), actions[..n], actions[n]);
      assert actions[..n] + [actions[n]] == actions;
    }
  }
}
