/** The activity partition of the WorldState and the cache that serves it
    (pkg/rtagent/world_state_runtime.go, world_state_cache.go, runtime_projection.go, runtime_events.go). */
module ActivityCache {
  import opened Types
  import opened Wrappers
  import opened Journal
  import opened WorldState
  import Text

  /****** The activity partition of a journal ******/

  function ToolActivityState(kind: EventKind): string {
    match kind
    case ToolSucceeded => "completed"
    case ToolFailed => "failed"
    case _ => "running"
  }

  /** The entry a tool event contributes; other events and events without a call id contribute none. */
  function ActivityEntry(e: Event): Option<Item> {
    var callId := Text.Trim(e.payload.toolCallId);
    if !(e.kind.ToolInvoked? || e.kind.ToolSucceeded? || e.kind.ToolFailed?) || callId == "" then None
    else
      Some(Item("activity:tool:" + callId, callId, e.sequence, "activity",
        EntryBody("tool_activity", ToolActivityState(e.kind), Some(e.id), "runtime_control", 1.0, e.occurredAt,
          Text.Trim(e.payload.toolName))))
  }

  function ActivityEntries(events: seq<Event>): seq<Item> {
    if events == [] then [] else
      var before, last := ActivityEntries(events[..|events| - 1]), ActivityEntry(events[|events| - 1]);
      if last.Some? then before + [last.value] else before
  }

  /** The activity entries of a journal, as a rebuild computes them. */
  function Rebuild(events: seq<Event>): seq<Item> {
    Build(ActivityEntries(events))
  }

  lemma ActivityEntryIsComplete(e: Event)
    requires ActivityEntry(e).Some?
    ensures IsEntry(ActivityEntry(e).value)
    ensures NormalizedEntry(ActivityEntry(e).value, "activity") == ActivityEntry(e).value
  {
    var item := ActivityEntry(e).value;
    Text.NotBlank(item.id);
    Text.NotBlank(item.partition);
    Text.NotBlank(item.body.authority);
  }

  method AddActivityWorldState(events: seq<Event>) returns (draft: PartitionDraft)
    ensures fresh(draft) && draft.Valid()
    ensures draft.addedEntries == ActivityEntries(events)
  {
    draft := new PartitionDraft("activity", "");
    for i := 0 to |events|
      invariant fresh(draft) && draft.Valid() && draft.partition == "activity"
      invariant draft.addedEntries == ActivityEntries(events[..i])
    {
      assert events[..i + 1][..i] == events[..i];
      var event := events[i];
      if !event.kind.ToolInvoked? && !event.kind.ToolSucceeded? && !event.kind.ToolFailed? {
        continue;
      }
      var toolCallId := Text.Trim(event.payload.toolCallId);
      if toolCallId == "" {
        continue;
      }
      ActivityEntryIsComplete(event);
      draft.AddEntry(Item("activity:tool:" + toolCallId, toolCallId, event.sequence, "activity",
        EntryBody("tool_activity", ToolActivityState(event.kind), Some(event.id), "runtime_control", 1.0, event.occurredAt,
          Text.Trim(event.payload.toolName))));
    }
    assert events[..|events|] == events;
  }

  method BuildActivity(events: seq<Event>) returns (entries: seq<Item>)
    ensures entries == Rebuild(events)
  {
    var draft := AddActivityWorldState(events);
    draft.BuildPartition();
    entries := draft.entries;
  }

  /****** The journal as the store lists it: by ascending sequence ******/

  function Place(events: seq<Event>, e: Event): seq<Event> {
    if events == [] || events[|events| - 1].sequence < e.sequence then events + [e]
    else Place(events[..|events| - 1], e) + [events[|events| - 1]]
  }

  ghost predicate Ascending(events: seq<Event>) {
    forall i, j :: 0 <= i < j < |events| ==> events[i].sequence < events[j].sequence
  }

  predicate Uses(events: seq<Event>, sequence: nat) {
    exists i :: 0 <= i < |events| && events[i].sequence == sequence
  }

  lemma {:induction false} PlaceMembers(events: seq<Event>, e: Event)
    ensures forall x :: x in Place(events, e) <==> x in events || x == e
    ensures MaxSequence(Place(events, e)) == if e.sequence > MaxSequence(events) then e.sequence else MaxSequence(events)
  {
    var n := |events|;
    if n == 0 || events[n - 1].sequence < e.sequence {
      MaxSequenceAppend(events, e);
    } else {
      PlaceMembers(events[..n - 1], e);
      assert events == events[..n - 1] + [events[n - 1]];
      MaxSequenceAppend(Place(events[..n - 1], e), events[n - 1]);
    }
  }

  lemma {:induction false} PlaceAscending(events: seq<Event>, e: Event)
    requires Ascending(events) && !Uses(events, e.sequence)
    ensures Ascending(Place(events, e))
  {
    var n := |events|;
    if n > 0 && events[n - 1].sequence >= e.sequence {
      var before, last := events[..n - 1], events[n - 1];
      assert forall i :: 0 <= i < n - 1 ==> before[i] == events[i];
      PlaceAscending(before, e);
      PlaceMembers(before, e);
      var placed := Place(before, e);
      forall i | 0 <= i < |placed|
        ensures placed[i].sequence < last.sequence
      {
        assert placed[i] in before || placed[i] == e;
      }
    }
  }

  /****** The cache specification ******/

  datatype Cached = Cached(entries: seq<Item>, upToProjSeq: nat)

  datatype Projection = Projection(journal: map<RunId, seq<Event>>, projSeq: map<RunId, nat>, cached: map<RunId, Cached>)

  datatype Error = RunNotFound | SequenceTaken

  datatype Op = CreateRun(run: RunId) | Emit(draft: Draft) | Query(run: RunId) | Restart

  predicate Fresh(s: Projection, run: RunId) {
    run in s.cached && s.cached[run].upToProjSeq >= Lookup(s.projSeq, run)
  }

  function SequenceFor(s: Projection, draft: Draft): nat
    requires draft.run in s.journal
  {
    if draft.sequence <= 0 then MaxSequence(s.journal[draft.run]) + 1 else draft.sequence
  }

  function EmitSpec(s: Projection, draft: Draft): (r: (Projection, Result<Event, Error>)) {
    if draft.run !in s.journal then (s, Err(RunNotFound)) else
      var sequence := SequenceFor(s, draft);
      var e := NewEvent(draft, sequence);
      if Uses(s.journal[draft.run], sequence) then (s, Err(SequenceTaken))
      else
        (s.(journal := s.journal[draft.run := Place(s.journal[draft.run], e)],
            projSeq := Advance(s.projSeq, draft.run, draft.kind, sequence)),
         Ok(e))
  }

  function QuerySpec(s: Projection, run: RunId): (r: (Projection, Result<seq<Item>, Error>)) {
    if run !in s.journal then (s, Err(RunNotFound))
    else if Fresh(s, run) then (s, Ok(s.cached[run].entries))
    else
      var built := Rebuild(s.journal[run]);
      (s.(cached := s.cached[run := Cached(built, Lookup(s.projSeq, run))]), Ok(built))
  }

  function Apply(s: Projection, op: Op): Projection {
    match op
    case CreateRun(run) => if run in s.journal then s else s.(journal := s.journal[run := []])
    case Emit(draft) => EmitSpec(s, draft).0
    case Query(run) => QuerySpec(s, run).0
    case Restart => Projection(s.journal, map[], map[])
  }

  /****** The cache and the runtime around it ******/

  datatype CacheEntry = CacheEntry(snapshot: array<Item>, upToProjSeq: nat)

  class WorldStateCache {
    var entries: map<RunId, CacheEntry>
    var projSeq: map<RunId, nat>
    ghost var Repr: set<object>

    /** Every cached snapshot belongs to the cache alone. */
    ghost predicate Valid()
      reads this, Repr
      ensures Valid() ==> this in Repr
    {
      this in Repr && forall run :: run in entries ==> entries[run].snapshot in Repr
    }

    ghost function Contents(): map<RunId, Cached>
      requires Valid()
      reads this, Repr
    {
      map run | run in entries :: Cached(entries[run].snapshot[..], entries[run].upToProjSeq)
    }

    constructor ()
      ensures Valid() && fresh(Repr)
      ensures Contents() == map[] && projSeq == map[]
    {
      entries, projSeq, Repr := map[], map[], {this};
    }

    method ObserveEvent(run: RunId, kind: EventKind, sequence: nat)
      requires Valid()
      modifies this
      ensures Valid() && Repr == old(Repr)
      ensures Contents() == old(Contents())
      ensures projSeq == Advance(old(projSeq), run, kind, sequence)
    {
      if !ProjectionRelevant(kind) {
        return;
      }
      if sequence > Lookup(projSeq, run) {
        projSeq := projSeq[run := sequence];
      }
    }

    /** A copy of the fresh snapshot; the caller may change it without reaching the cache. */
    method Get(run: RunId) returns (found: Option<array<Item>>)
      requires Valid()
      ensures found.Some? <==> run in entries && entries[run].upToProjSeq >= Lookup(projSeq, run)
      ensures found.Some? ==> fresh(found.value) && found.value[..] == Contents()[run].entries
    {
      if run !in entries || entries[run].upToProjSeq < Lookup(projSeq, run) {
        return None;
      }
      var copied := CopyEntries(entries[run].snapshot);
      return Some(copied);
    }

    /** Keeps a copy of the snapshot, fresh up to the current watermark. */
    method Put(run: RunId, snapshot: array<Item>)
      requires Valid()
      modifies this
      ensures Valid() && fresh(Repr - old(Repr)) && projSeq == old(projSeq)
      ensures Contents() == old(Contents())[run := Cached(old(snapshot[..]), Lookup(projSeq, run))]
    {
      var copied := CopyEntries(snapshot);
      entries := entries[run := CacheEntry(copied, Lookup(projSeq, run))];
      Repr := Repr + {copied};
    }
  }

  method CopyEntries(src: array<Item>) returns (dst: array<Item>)
    ensures fresh(dst) && dst[..] == src[..]
  {
    dst := new Item[src.Length];
    for i := 0 to src.Length
      invariant dst[..i] == src[..i] && src[..] == old(src[..])
    {
      dst[i] := src[i];
    }
  }

  class Runtime {
    var journal: map<RunId, seq<Event>>
    const cache: WorldStateCache

    ghost predicate Valid()
      reads this, cache, cache.Repr
    {
      cache.Valid() && this !in cache.Repr
    }

    ghost function View(): Projection
      requires Valid()
      reads this, cache, cache.Repr
    {
      Projection(journal, cache.projSeq, cache.Contents())
    }

    constructor ()
      ensures Valid() && fresh(cache) && fresh(cache.Repr)
      ensures View() == Projection(map[], map[], map[])
    {
      journal := map[];
      cache := new WorldStateCache();
    }

    method Emit(draft: Draft) returns (result: Result<Event, Error>)
      requires Valid()
      modifies this, cache
      ensures Valid() && cache.Repr == old(cache.Repr)
      ensures (View(), result) == EmitSpec(old(View()), draft)
    {
      if draft.run !in journal {
        return Err(RunNotFound);
      }
      var sequence := draft.sequence;
      if sequence <= 0 {
        sequence := MaxSequence(journal[draft.run]) + 1;
      }
      if Uses(journal[draft.run], sequence) {
        return Err(SequenceTaken);
      }
      var event := NewEvent(draft, sequence);
      journal := journal[draft.run := Place(journal[draft.run], event)];
      cache.ObserveEvent(draft.run, draft.kind, sequence);
      return Ok(event);
    }

    /** An unfiltered query: served from the cache when that is fresh, else rebuilt and cached. */
    method WorldState(run: RunId) returns (result: Result<array<Item>, Error>)
      requires Valid()
      modifies this, cache
      ensures Valid() && fresh(cache.Repr - old(cache.Repr))
      ensures View() == QuerySpec(old(View()), run).0
      ensures result.Ok? <==> QuerySpec(old(View()), run).1.Ok?
      ensures result.Ok? ==>
        fresh(result.value) && result.value !in cache.Repr && Ok(result.value[..]) == QuerySpec(old(View()), run).1
      ensures result.Err? ==> Err(result.error) == QuerySpec(old(View()), run).1
    {
      if run !in journal {
        return Err(RunNotFound);
      }
      var cached := cache.Get(run);
      if cached.Some? {
        return Ok(cached.value);
      }
      var snapshot := Snapshot(journal[run]);
      cache.Put(run, snapshot);
      return Ok(snapshot);
    }

    method Snapshot(events: seq<Event>) returns (snapshot: array<Item>)
      ensures fresh(snapshot) && snapshot[..] == Rebuild(events)
    {
      var built := BuildActivity(events);
      snapshot := new Item[|built|](i requires 0 <= i < |built| => built[i]);
      assert snapshot[..] == built;
    }
  }

  /****** The cache agrees with a rebuild ******/

  const INITIAL := Projection(map[], map[], map[])

  ghost predicate RunInvariant(s: Projection, run: RunId) {
    && (run in s.journal ==> Ascending(s.journal[run]) && Lookup(s.projSeq, run) <= MaxSequence(s.journal[run]))
    && (run in s.projSeq || run in s.cached ==> run in s.journal)
    && (run in s.cached ==> s.cached[run].upToProjSeq <= Lookup(s.projSeq, run))
  }

  ghost predicate Invariant(s: Projection) {
    forall run :: RunInvariant(s, run)
  }

  /** What the cache would serve is what a rebuild from the current journal would give. */
  predicate AgreesOn(s: Projection, run: RunId) {
    run in s.journal && Fresh(s, run) ==> s.cached[run].entries == Rebuild(s.journal[run])
  }

  ghost predicate Agrees(s: Projection) {
    forall run :: AgreesOn(s, run)
  }

  /** A later event of the journal already speaks for the same tool call. */
  predicate Superseded(events: seq<Event>, e: Event) {
    && ActivityEntry(e).Some?
    && exists i :: 0 <= i < |events| && events[i].sequence > e.sequence
        && ActivityEntry(events[i]).Some? && ActivityEntry(events[i]).value.id == ActivityEntry(e).value.id
  }

  /** The emission is refused, passes the watermark, or cannot change the activity partition. */
  predicate Harmless(s: Projection, draft: Draft) {
    draft.run !in s.journal ||
      var events, sequence := s.journal[draft.run], SequenceFor(s, draft);
      var e := NewEvent(draft, sequence);
      || Uses(events, sequence) || !Fresh(s, draft.run) || sequence > Lookup(s.projSeq, draft.run)
      || ActivityEntry(e).None? || Superseded(events, e)
  }

  lemma {:induction false} EntriesAreOfEvents(events: seq<Event>, x: Item)
    ensures x in ActivityEntries(events) <==> exists i :: 0 <= i < |events| && ActivityEntry(events[i]) == Some(x)
  {
    if events != [] {
      var n := |events| - 1;
      EntriesAreOfEvents(events[..n], x);
      assert forall i :: 0 <= i < n ==> events[..n][i] == events[i];
    }
  }

  lemma AscendingHasNoTies(events: seq<Event>)
    requires Ascending(events)
    ensures NoTies(ActivityEntries(events))
  {
    var items := ActivityEntries(events);
    forall x, y | Maximal(items, x) && Maximal(items, y) && x.id == y.id
      ensures x == y
    {
      EntriesAreOfEvents(events, x);
      EntriesAreOfEvents(events, y);
      var i :| 0 <= i < |events| && ActivityEntry(events[i]) == Some(x);
      var j :| 0 <= j < |events| && ActivityEntry(events[j]) == Some(y);
      assert events[i].sequence == events[j].sequence;
      assert i == j;
    }
  }

  lemma EntriesAfterPlace(events: seq<Event>, e: Event, x: Item)
    ensures x in ActivityEntries(Place(events, e)) <==> x in ActivityEntries(events) || ActivityEntry(e) == Some(x)
  {
    var placed := Place(events, e);
    EntriesAreOfEvents(events, x);
    EntriesAreOfEvents(placed, x);
    PlaceMembers(events, e);
    if x in ActivityEntries(placed) {
      var i :| 0 <= i < |placed| && ActivityEntry(placed[i]) == Some(x);
      assert placed[i] in events || placed[i] == e;
    }
    if x in ActivityEntries(events) {
      var i :| 0 <= i < |events| && ActivityEntry(events[i]) == Some(x);
      assert events[i] in placed;
    }
    if ActivityEntry(e) == Some(x) {
      assert e in placed;
    }
  }

  lemma SupersededIs(events: seq<Event>, e: Event)
    requires ActivityEntry(e).Some?
    ensures Superseded(events, e) <==> Outranked(ActivityEntries(events), ActivityEntry(e).value)
  {
  }

  /** Exactly which unused sequences may be filled in without changing the activity partition. */
  lemma RebuildAfterPlace(events: seq<Event>, e: Event)
    requires Ascending(events) && !Uses(events, e.sequence)
    ensures Rebuild(Place(events, e)) == Rebuild(events) <==> ActivityEntry(e).None? || Superseded(events, e)
  {
    var a, b := ActivityEntries(events), ActivityEntries(Place(events, e));
    PlaceAscending(events, e);
    AscendingHasNoTies(events);
    AscendingHasNoTies(Place(events, e));
    forall x
      ensures x in b <==> x in a || ActivityEntry(e) == Some(x)
    {
      EntriesAfterPlace(events, e, x);
    }
    if ActivityEntry(e).None? {
      SameItemsSameBuild(a, b);
    } else {
      var x := ActivityEntry(e).value;
      EntriesAreOfEvents(events, x);
      SupersededIs(events, e);
      OneMoreItem(a, b, x);
    }
  }

  lemma EmitInvariant(s: Projection, draft: Draft)
    requires Invariant(s)
    ensures Invariant(EmitSpec(s, draft).0)
  {
    var s' := EmitSpec(s, draft).0;
    forall run
      ensures RunInvariant(s', run)
    {
      assert RunInvariant(s, run);
      if run == draft.run && run in s.journal && !Uses(s.journal[run], SequenceFor(s, draft)) {
        var e := NewEvent(draft, SequenceFor(s, draft));
        PlaceAscending(s.journal[run], e);
        PlaceMembers(s.journal[run], e);
      }
    }
  }

  lemma EmitAgreesOn(s: Projection, draft: Draft)
    requires RunInvariant(s, draft.run) && AgreesOn(s, draft.run)
    ensures AgreesOn(EmitSpec(s, draft).0, draft.run) <==> Harmless(s, draft)
  {
    var run := draft.run;
    if run in s.journal && !Uses(s.journal[run], SequenceFor(s, draft)) {
      var e, s' := NewEvent(draft, SequenceFor(s, draft)), EmitSpec(s, draft).0;
      assert s'.journal[run] == Place(s.journal[run], e) && s'.cached == s.cached;
      assert Rebuild(s'.journal[run]) == Rebuild(s.journal[run]) <==> ActivityEntry(e).None? || Superseded(s.journal[run], e) by {
        RebuildAfterPlace(s.journal[run], e);
      }
      FreshAfterEmit(s, draft, e);
    }
  }

  /** An emission leaves a snapshot fresh unless it passes the watermark with a relevant event. */
  lemma FreshAfterEmit(s: Projection, draft: Draft, e: Event)
    requires RunInvariant(s, draft.run) && draft.run in s.journal && e == NewEvent(draft, SequenceFor(s, draft))
    requires !Uses(s.journal[draft.run], SequenceFor(s, draft))
    ensures Fresh(EmitSpec(s, draft).0, draft.run) <==>
      Fresh(s, draft.run) && (!ProjectionRelevant(draft.kind) || e.sequence <= Lookup(s.projSeq, draft.run))
    ensures ActivityEntry(e).Some? ==> ProjectionRelevant(draft.kind)
  {
  }

  /** An emission keeps the cache truthful exactly when it is harmless. */
  lemma EmitAgrees(s: Projection, draft: Draft)
    requires Invariant(s) && Agrees(s)
    ensures Agrees(EmitSpec(s, draft).0) <==> Harmless(s, draft)
  {
    var s' := EmitSpec(s, draft).0;
    assert RunInvariant(s, draft.run) && AgreesOn(s, draft.run);
    EmitAgreesOn(s, draft);
    forall run | run != draft.run
      ensures AgreesOn(s', run)
    {
      assert AgreesOn(s, run);
    }
  }

  lemma QueryAgrees(s: Projection, run: RunId)
    requires Invariant(s) && Agrees(s)
    ensures Invariant(QuerySpec(s, run).0) && Agrees(QuerySpec(s, run).0)
    ensures run in s.journal ==> QuerySpec(s, run).1 == Ok(Rebuild(s.journal[run]))
  {
    var s' := QuerySpec(s, run).0;
    forall other
      ensures RunInvariant(s', other) && AgreesOn(s', other)
    {
      assert RunInvariant(s, other) && AgreesOn(s, other);
    }
    assert AgreesOn(s, run);
  }

  function Execute(ops: seq<Op>): Projection {
    if ops == [] then INITIAL else Apply(Execute(ops[..|ops| - 1]), ops[|ops| - 1])
  }

  /** Every emission of a trace is harmless in the state it meets. */
  predicate HarmlessTrace(ops: seq<Op>) {
    ops == [] || (HarmlessTrace(ops[..|ops| - 1])
      && (ops[|ops| - 1].Emit? ==> Harmless(Execute(ops[..|ops| - 1]), ops[|ops| - 1].draft)))
  }

  lemma {:induction false} TraceAgrees(ops: seq<Op>)
    requires HarmlessTrace(ops)
    ensures Invariant(Execute(ops)) && Agrees(Execute(ops))
  {
    if ops != [] {
      var s, op := Execute(ops[..|ops| - 1]), ops[|ops| - 1];
      TraceAgrees(ops[..|ops| - 1]);
      match op
      case Emit(draft) =>
        EmitInvariant(s, draft);
        EmitAgrees(s, draft);
      case Query(run) => QueryAgrees(s, run);
      case _ =>
        forall run
          ensures RunInvariant(Execute(ops), run) && AgreesOn(Execute(ops), run)
        {
          assert RunInvariant(s, run) && AgreesOn(s, run);
        }
    }
  }

  /** Over every trace of emissions, queries and restarts whose emissions are harmless, a query
      serves what a rebuild of the current journal gives. */
  lemma CacheAgreement(ops: seq<Op>, run: RunId)
    requires HarmlessTrace(ops) && run in Execute(ops).journal
    ensures QuerySpec(Execute(ops), run).1 == Ok(Rebuild(Execute(ops).journal[run]))
  {
    TraceAgrees(ops);
    QueryAgrees(Execute(ops), run);
  }

  /** Emissions that leave the sequence to the runtime are harmless, in every trace. */
  lemma {:induction false} AutomaticIsHarmless(ops: seq<Op>)
    requires forall k :: 0 <= k < |ops| && ops[k].Emit? ==> ops[k].draft.sequence <= 0
    ensures HarmlessTrace(ops)
  {
    if ops != [] {
      var n := |ops| - 1;
      AutomaticIsHarmless(ops[..n]);
      TraceAgrees(ops[..n]);
      if ops[n].Emit? {
        var s, run := Execute(ops[..n]), ops[n].draft.run;
        assert RunInvariant(s, run);
      }
    }
  }

  /** The first emission of a trace that is not harmless makes the next query serve a stale snapshot. */
  lemma FirstHarmfulEmission(ops: seq<Op>, draft: Draft)
    requires HarmlessTrace(ops) && !Harmless(Execute(ops), draft)
    ensures
      var s := Execute(ops + [Emit(draft)]);
      draft.run in s.journal && QuerySpec(s, draft.run).1 != Ok(Rebuild(s.journal[draft.run]))
  {
    TraceAgrees(ops);
    var s := Execute(ops);
    assert RunInvariant(s, draft.run) && AgreesOn(s, draft.run);
    EmitAgreesOn(s, draft);
    assert (ops + [Emit(draft)])[..|ops|] == ops;
  }

  lemma ExecuteAppend(ops: seq<Op>, op: Op)
    requires HarmlessTrace(ops) && (op.Emit? ==> Harmless(Execute(ops), op.draft))
    ensures Execute(ops + [op]) == Apply(Execute(ops), op) && HarmlessTrace(ops + [op])
  {
  }

  const FIRST := Draft("r", ToolInvoked, 5, "", Payload("a", "t"))
  const LATE := Draft("r", ToolInvoked, 3, "", Payload("b", "t"))

  const SNAPSHOT_TAKEN := [CreateRun("r"), Emit(FIRST), Query("r")]

  /** Filling in sequence 3 after a snapshot that covers sequence 5 is not harmless. */
  lemma LateEventGoesUnseen()
    ensures
      var s := Execute(SNAPSHOT_TAKEN + [Emit(LATE)]);
      "r" in s.journal && QuerySpec(s, "r").1 != Ok(Rebuild(s.journal["r"]))
  {
    SnapshotTaken();
    LateIsHarmful(Execute(SNAPSHOT_TAKEN));
    FirstHarmfulEmission(SNAPSHOT_TAKEN, LATE);
  }

  lemma SnapshotTaken()
    ensures HarmlessTrace(SNAPSHOT_TAKEN)
    ensures
      var s := Execute(SNAPSHOT_TAKEN);
      "r" in s.journal && s.journal["r"] == [NewEvent(FIRST, 5)] && Fresh(s, "r") && Lookup(s.projSeq, "r") == 5
  {
    RunCreated();
    assert Harmless(Execute([CreateRun("r")]), FIRST) by {
      assert !Fresh(Execute([CreateRun("r")]), "r");
    }
    ThreeSteps(CreateRun("r"), FIRST, "r");
    FirstIsServed(Execute([CreateRun("r")]));
  }

  lemma ThreeSteps(first: Op, draft: Draft, run: RunId)
    requires HarmlessTrace([first]) && Harmless(Execute([first]), draft)
    ensures HarmlessTrace([first, Emit(draft), Query(run)])
    ensures Execute([first, Emit(draft), Query(run)]) == Apply(Apply(Execute([first]), Emit(draft)), Query(run))
  {
    ExecuteAppend([first], Emit(draft));
    ExecuteAppend([first] + [Emit(draft)], Query(run));
    assert [first, Emit(draft), Query(run)] == [first] + [Emit(draft)] + [Query(run)];
  }

  lemma RunCreated()
    ensures HarmlessTrace([CreateRun("r")])
    ensures Execute([CreateRun("r")]) == Projection(map["r" := []], map[], map[])
  {
  }

  lemma FirstIsServed(s: Projection)
    requires s == Projection(map["r" := []], map[], map[])
    ensures
      var s' := Apply(Apply(s, Emit(FIRST)), Query("r"));
      "r" in s'.journal && s'.journal["r"] == [NewEvent(FIRST, 5)] && Fresh(s', "r") && Lookup(s'.projSeq, "r") == 5
  {
    var s1 := EmitSpec(s, FIRST).0;
    assert s1.journal["r"] == [NewEvent(FIRST, 5)];
  }

  lemma LateIsHarmful(s: Projection)
    requires "r" in s.journal && Fresh(s, "r") && Lookup(s.projSeq, "r") == 5
    requires s.journal["r"] == [NewEvent(FIRST, 5)]
    ensures !Harmless(s, LATE)
  {
    var e := NewEvent(LATE, 3);
    assert Text.Trim("b") == "b" && Text.Trim("a") == "a";
    assert ActivityEntry(e).value.id == "activity:tool:" + "b";
    assert ("activity:tool:" + "b")[14] != ("activity:tool:" + "a")[14];
  }

  /****** What the activity partition shows ******/

  /** A tool event about the call. */
  predicate About(e: Event, callId: string) {
    (e.kind == ToolInvoked || e.kind == ToolSucceeded || e.kind == ToolFailed) && Text.Trim(e.payload.toolCallId) == callId
  }

  /** The last event about the call. */
  predicate LatestAbout(events: seq<Event>, e: Event, callId: string) {
    e in events && About(e, callId) && forall other <- events :: About(other, callId) ==> other.sequence <= e.sequence
  }

  /** The entry tells of the call what the event says: running since it was invoked, completed, or failed. */
  predicate Tells(x: Item, e: Event, callId: string) {
    && x.id == "activity:tool:" + callId && x.subject == callId && x.sourceSeq == e.sequence && x.partition == "activity"
    && x.body.EntryBody? && x.body.kind == "tool_activity" && x.body.sourceId == Some(e.id) && x.body.observedAt == e.occurredAt
    && x.body.toolName == Text.Trim(e.payload.toolName)
    && x.body.state == (if e.kind == ToolSucceeded then "completed" else if e.kind == ToolFailed then "failed" else "running")
  }

  lemma EntryTells(e: Event, callId: string)
    requires callId != ""
    ensures About(e, callId) ==> ActivityEntry(e).Some? && Tells(ActivityEntry(e).value, e, callId)
    ensures ActivityEntry(e).Some? && ActivityEntry(e).value.id == "activity:tool:" + callId ==> About(e, callId)
  {
    var own := Text.Trim(e.payload.toolCallId);
    assert ("activity:tool:" + own)[14..] == own && ("activity:tool:" + callId)[14..] == callId;
  }

  /** A rebuilt partition shows a call exactly when there is a tool event about it, and tells what the last
      one says; there is one entry for each call. */
  lemma ActivityShows(events: seq<Event>, callId: string, e: Event)
    requires Ascending(events) && callId != "" && LatestAbout(events, e, callId)
    ensures exists x :: x in Rebuild(events) && Tells(x, e, callId)
    ensures forall x :: x in Rebuild(events) && x.id == "activity:tool:" + callId ==> Tells(x, e, callId)
  {
    var items, x := ActivityEntries(events), ActivityEntry(e).value;
    EntryTells(e, callId);
    BuildStrictlyOrdered(items);
    AscendingHasNoTies(events);
    LatestIsMaximal(events, callId, e, x);
    MembersAreMaximal(items, x);
    assert x in Rebuild(events);
    forall y | y in Rebuild(events) && y.id == "activity:tool:" + callId
      ensures Tells(y, e, callId)
    {
      MembersAreMaximal(items, y);
      assert x == y;
    }
  }

  lemma LatestIsMaximal(events: seq<Event>, callId: string, e: Event, x: Item)
    requires callId != "" && LatestAbout(events, e, callId) && ActivityEntry(e) == Some(x) && Tells(x, e, callId)
    ensures Maximal(ActivityEntries(events), x)
  {
    EntriesAreOfEvents(events, x);
    forall y | y in ActivityEntries(events) && y.id == x.id
      ensures y.sourceSeq <= x.sourceSeq
    {
      EntriesAreOfEvents(events, y);
      var i :| 0 <= i < |events| && ActivityEntry(events[i]) == Some(y);
      EntryTells(events[i], callId);
    }
  }

  /** A call without a tool event is not shown. */
  lemma OnlyCallsShown(events: seq<Event>, callId: string)
    requires callId != "" && forall e <- events :: !About(e, callId)
    ensures forall x <- Rebuild(events) :: x.id != "activity:tool:" + callId
  {
    BuildStrictlyOrdered(ActivityEntries(events));
    forall x | x in Rebuild(events)
      ensures x.id != "activity:tool:" + callId
    {
      MembersAreMaximal(ActivityEntries(events), x);
      EntriesAreOfEvents(events, x);
      var i :| 0 <= i < |events| && ActivityEntry(events[i]) == Some(x);
      EntryTells(events[i], callId);
    }
  }

  /** Frequent events that change no partition leave the cache as fresh as it was. */
  lemma FrequentEventsKeepTheCache(s: Projection, draft: Draft, run: RunId)
    requires draft.kind in {ModelRequested, ModelDelta, ModelResponded, RunHeartbeat, CheckpointCreated, ContextCompacted}
    ensures Fresh(EmitSpec(s, draft).0, run) <==> Fresh(s, run)
    ensures EmitSpec(s, draft).0.cached == s.cached
  {
  }
}
