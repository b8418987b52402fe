/** Queries that interleave with emitters: a query that misses the cache reads the journal, builds, and
    stamps what it built with the watermark of the time it stores it
    (pkg/rtagent/runtime_projection.go, world_state_cache.go, runtime_events.go). */
module CacheRace {
  import opened Types
  import opened Wrappers
  import opened Journal
  import opened WorldState
  import opened ActivityCache
  import Text

  type Reader = nat

  /** A stored snapshot: the entries, how much of the journal they cover, and the stamp. */
  datatype Snapshot = Snapshot(entries: seq<Item>, covers: nat, stamp: nat)

  /** One run: its journal, the watermark, the sequences appended but not yet reported to the watermark,
      the readers that have read a prefix of the journal, and the cached snapshot. */
  datatype System = System(
    events: seq<Event>, projSeq: nat, inFlight: set<nat>, readers: map<Reader, nat>, cached: Option<Snapshot>)

  datatype Action =
    | AppendEvent(draft: Draft)
    | Observe(sequence: nat)
    | Read(reader: Reader)
    | Put(reader: Reader)

  const INITIAL := System([], 0, {}, map[], None)

  /** The cache serves its snapshot. */
  predicate Hit(s: System) {
    s.cached.Some? && s.cached.value.stamp >= s.projSeq
  }

  function Raised(s: System, sequence: nat): nat {
    if 0 < sequence <= |s.events| && ProjectionRelevant(s.events[sequence - 1].kind) && sequence > s.projSeq then sequence else s.projSeq
  }

  /** One atomic action. An action that is not enabled leaves the state as it is. The miss that leads to a
      read may lie further back, so a read is always enabled. */
  function Step(s: System, a: Action): System {
    match a
    case AppendEvent(draft) =>
      var sequence := |s.events| + 1;
      s.(events := s.events + [NewEvent(draft, sequence)], inFlight := s.inFlight + {sequence})
    case Observe(sequence) =>
      if sequence !in s.inFlight then s else s.(projSeq := Raised(s, sequence), inFlight := s.inFlight - {sequence})
    case Read(reader) => s.(readers := s.readers[reader := |s.events|])
    case Put(reader) =>
      if reader !in s.readers || s.readers[reader] > |s.events| then s
      else
        var covers := s.readers[reader];
        s.(cached := Some(Snapshot(Rebuild(s.events[..covers]), covers, s.projSeq)), readers := s.readers - {reader})
  }

  function Execute(actions: seq<Action>): System {
    if actions == [] then INITIAL else Step(Execute(actions[..|actions| - 1]), actions[|actions| - 1])
  }

  /****** What every action keeps ******/

  ghost predicate InSequence(events: seq<Event>) {
    forall i :: 0 <= i < |events| ==> events[i].sequence == i + 1
  }

  /** A relevant event is in flight or below the watermark. */
  ghost predicate Accounted(s: System) {
    forall i :: 0 <= i < |s.events| && ProjectionRelevant(s.events[i].kind) ==> i + 1 in s.inFlight || i + 1 <= s.projSeq
  }

  ghost predicate Covered(s: System) {
    s.cached.Some? ==>
      && s.cached.value.covers <= |s.events| && s.cached.value.stamp <= s.projSeq
      && s.cached.value.entries == Rebuild(s.events[..s.cached.value.covers])
  }

  ghost predicate Invariant(s: System) {
    && InSequence(s.events) && Accounted(s) && Covered(s) && s.projSeq <= |s.events|
    && (forall reader :: reader in s.readers ==> s.readers[reader] <= |s.events|)
  }

  lemma StepInvariant(s: System, a: Action)
    requires Invariant(s)
    ensures Invariant(Step(s, a))
  {
    match a
    case AppendEvent(draft) =>
      if s.cached.Some? {
        assert Step(s, a).events[..s.cached.value.covers] == s.events[..s.cached.value.covers];
      }
    case Observe(sequence) =>
      assert Step(s, a).events == s.events;
    case _ =>
  }

  lemma {:induction false} InvariantHolds(actions: seq<Action>)
    ensures Invariant(Execute(actions))
  {
    if actions != [] {
      InvariantHolds(actions[..|actions| - 1]);
      StepInvariant(Execute(actions[..|actions| - 1]), actions[|actions| - 1]);
    }
  }

  /****** When a served snapshot is stale ******/

  /** An event after the first n that the activity partition shows. */
  predicate Shown(events: seq<Event>, n: nat, i: int) {
    n <= i < |events| && ActivityEntry(events[i]).Some?
  }

  lemma InSequenceAscends(events: seq<Event>)
    requires InSequence(events)
    ensures Ascending(events)
  {
  }

  /** A journal that grew shows the same activity exactly when none of the new events is shown. */
  lemma RebuildAfterGrowth(events: seq<Event>, n: nat)
    requires InSequence(events) && n <= |events|
    ensures Rebuild(events[..n]) == Rebuild(events) <==> forall i :: !Shown(events, n, i)
  {
    var a, b := ActivityEntries(events[..n]), ActivityEntries(events);
    InSequenceAscends(events);
    InSequenceAscends(events[..n]);
    AscendingHasNoTies(events);
    AscendingHasNoTies(events[..n]);
    if forall i :: !Shown(events, n, i) {
      forall x
        ensures x in a <==> x in b
      {
        PrefixEntries(events, n, x);
      }
      SameItemsSameBuild(a, b);
    } else {
      var x := LastShown(events, n);
      MembersAreMaximal(b, x);
      MembersAreMaximal(a, x);
      PrefixEntries(events, n, x);
      BuildStrictlyOrdered(a);
      BuildStrictlyOrdered(b);
      assert x in Build(b) && x !in Build(a);
    }
  }

  /** The entries of a journal are those of a prefix and of the events shown after it. */
  lemma {:induction false} PrefixEntries(events: seq<Event>, n: nat, x: Item)
    requires InSequence(events) && n <= |events|
    ensures x in ActivityEntries(events) <==>
      x in ActivityEntries(events[..n]) || exists i :: Shown(events, n, i) && ActivityEntry(events[i]) == Some(x)
    ensures x in ActivityEntries(events[..n]) ==> x.sourceSeq <= n
  {
    EntriesAreOfEvents(events, x);
    EntriesAreOfEvents(events[..n], x);
    forall i | 0 <= i < |events| && ActivityEntry(events[i]) == Some(x)
      ensures Shown(events, n, i) || x in ActivityEntries(events[..n])
    {
      assert i < n ==> events[..n][i] == events[i];
    }
    assert forall i :: 0 <= i < n ==> events[..n][i] == events[i];
  }

  /** The last shown event is newer than anything else. */
  lemma LastShown(events: seq<Event>, n: nat) returns (x: Item)
    requires InSequence(events) && n <= |events| && exists i :: Shown(events, n, i)
    ensures Maximal(ActivityEntries(events), x) && x.sourceSeq > n
  {
    var k := |events| - 1;
    while ActivityEntry(events[k]).None?
      invariant n <= k < |events|
      invariant forall i :: k < i < |events| ==> ActivityEntry(events[i]).None?
      decreases k
    {
      assert forall i :: Shown(events, n, i) ==> i < k;
      k := k - 1;
    }
    x := ActivityEntry(events[k]).value;
    EntriesAreOfEvents(events, x);
    forall y | y in ActivityEntries(events)
      ensures y.sourceSeq <= x.sourceSeq
    {
      EntriesAreOfEvents(events, y);
      var i :| 0 <= i < |events| && ActivityEntry(events[i]) == Some(y);
    }
  }

  /** The cache serves something other than a rebuild would give. */
  predicate Stale(s: System) {
    Hit(s) && s.cached.value.entries != Rebuild(s.events)
  }

  lemma UncoveredEvents(s: System, covers: nat, stamp: nat)
    requires Accounted(s) && s.projSeq <= stamp
    ensures forall i :: Shown(s.events, covers, i) ==> i + 1 in s.inFlight || i + 1 <= stamp
  {
    forall i | Shown(s.events, covers, i)
      ensures i + 1 in s.inFlight || i + 1 <= stamp
    {
      assert ProjectionRelevant(s.events[i].kind);
    }
  }

  /** Under every interleaving: what is served is stale exactly when the activity shows an event that the
      snapshot does not cover, and each such event is in flight or was stamped over. */
  lemma StaleExactly(actions: seq<Action>)
    requires Hit(Execute(actions))
    ensures
      var s := Execute(actions);
      && (Stale(s) <==> exists i :: Shown(s.events, s.cached.value.covers, i))
      && (forall i :: Shown(s.events, s.cached.value.covers, i) ==> i + 1 in s.inFlight || i + 1 <= s.cached.value.stamp)
  {
    InvariantHolds(actions);
    var s := Execute(actions);
    RebuildAfterGrowth(s.events, s.cached.value.covers);
    UncoveredEvents(s, s.cached.value.covers, s.cached.value.stamp);
  }

  /** A shown event was appended and reported after the snapshot had been read and before it was stored. */
  ghost predicate StampedOver(events: seq<Event>, covers: nat, stamp: nat) {
    exists i :: Shown(events, covers, i) && i + 1 <= stamp
  }

  /** With no emitter in flight, what is served is stale exactly when a shown event was stamped over. */
  lemma StaleWhenQuiet(actions: seq<Action>)
    requires Execute(actions).inFlight == {} && Hit(Execute(actions))
    ensures
      var s := Execute(actions);
      Stale(s) <==> StampedOver(s.events, s.cached.value.covers, s.cached.value.stamp)
  {
    StaleExactly(actions);
  }

  /** The condition can be told when a reader stores: a shown event above what it read and not above the
      watermark. Whatever follows, the snapshot it stores is stale whenever it is served with no emitter in
      flight if that was so, and never if it was not. */
  lemma {:induction false} PutDecides(actions: seq<Action>, reader: Reader, more: seq<Action>)
    requires
      var s := Execute(actions);
      reader in s.readers
    requires forall k :: 0 <= k < |more| ==> !more[k].Put?
    ensures
      var s, z := Execute(actions), Execute(actions + [Put(reader)] + more);
      && z.cached.Some? && z.cached.value.covers == s.readers[reader] && z.cached.value.stamp == s.projSeq
      && (StampedOver(z.events, s.readers[reader], s.projSeq) <==> StampedOver(s.events, s.readers[reader], s.projSeq))
      && s.events <= z.events
      && (z.inFlight == {} && Hit(z) ==> (Stale(z) <==> StampedOver(s.events, s.readers[reader], s.projSeq)))
    decreases |more|
  {
    var s, all := Execute(actions), actions + [Put(reader)] + more;
    InvariantHolds(actions);
    if more == [] {
      assert all == actions + [Put(reader)] && all[..|all| - 1] == actions;
    } else {
      var init := more[..|more| - 1];
      PutDecides(actions, reader, init);
      assert all[..|all| - 1] == actions + [Put(reader)] + init;
      assert all[|all| - 1] == more[|more| - 1];
    }
    var z := Execute(all);
    StampedOverStays(s.events, z.events, s.readers[reader], s.projSeq);
    if z.inFlight == {} && Hit(z) {
      StaleWhenQuiet(all);
    }
  }

  lemma StampedOverStays(events: seq<Event>, later: seq<Event>, covers: nat, stamp: nat)
    requires events <= later && stamp <= |events|
    ensures StampedOver(later, covers, stamp) <==> StampedOver(events, covers, stamp)
  {
    if i :| Shown(later, covers, i) && i + 1 <= stamp {
      assert Shown(events, covers, i);
    }
    if i :| Shown(events, covers, i) && i + 1 <= stamp {
      assert Shown(later, covers, i);
    }
  }

  lemma OneMore(actions: seq<Action>, a: Action)
    ensures Execute(actions + [a]) == Step(Execute(actions), a)
  {
    assert (actions + [a])[..|actions|] == actions;
  }

  const CALL := Draft("r", ToolInvoked, 0, "", Payload("a", "t"))

  const RACE: seq<Action> := [] + [Read(0)] + [AppendEvent(CALL)] + [Observe(1)] + [Put(0)]

  lemma RaceBegins()
    ensures Execute([] + [Read(0)] + [AppendEvent(CALL)]) == System([NewEvent(CALL, 1)], 0, {1}, map[0 := 0], None)
  {
    var none: seq<Action> := [];
    OneMore(none, Read(0));
    OneMore(none + [Read(0)], AppendEvent(CALL));
    assert [] + [NewEvent(CALL, 1)] == [NewEvent(CALL, 1)];
  }

  lemma RaceEnds(begun: seq<Action>, e: Event)
    requires e == NewEvent(CALL, 1) && Execute(begun) == System([e], 0, {1}, map[0 := 0], None)
    ensures Execute(begun + [Observe(1)] + [Put(0)]) == System([e], 1, {}, map[], Some(Snapshot(Rebuild([]), 0, 1)))
  {
    OneMore(begun, Observe(1));
    assert Execute(begun + [Observe(1)]) == System([e], 1, {}, map[0 := 0], None);
    OneMore(begun + [Observe(1)], Put(0));
    assert [e][..0] == [];
  }

  lemma Race()
    ensures Execute(RACE) == System([NewEvent(CALL, 1)], 1, {}, map[], Some(Snapshot(Rebuild([]), 0, 1)))
  {
    RaceBegins();
    RaceEnds([] + [Read(0)] + [AppendEvent(CALL)], NewEvent(CALL, 1));
  }

  /** A tool call that starts while the first query builds stays unseen by the next ones. */
  lemma EventStampedOver()
    ensures Execute(RACE).inFlight == {} && Stale(Execute(RACE))
  {
    Race();
    assert Text.Trim("a") == "a";
    assert Shown(Execute(RACE).events, 0, 0);
    StaleWhenQuiet(RACE);
  }
}
