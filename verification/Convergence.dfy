/** Convergence control of the model-tool loop (pkg/rtagent/convergence.go). */
module Convergence {
  import opened Types
  import opened Wrappers
  import Text

  const REPEATED_TOOL_INTERACTION_THRESHOLD: nat := 3
  const SOFT_NO_PROGRESS_ITERATION_FLOOR: nat := 12
  const NO_PROGRESS_THRESHOLD: nat := 3

  /** What identifies a tool interaction; the result is absent when no observation answers the call. */
  datatype Signature = Signature(name: string, arguments: string, result: Option<(string, string)>)

  datatype Reason = RepeatedToolInteraction | NoNewObservation | HardBudgetPreflush

  datatype Decision = Continue | Finalize(reason: Reason) | Replan(reason: Reason)

  /** One observed tool turn. */
  datatype Turn = Turn(iteration: int, limit: int, signatures: seq<Signature>, observations: nat)

  function SignatureOf(call: ToolCall, observation: Option<Observation>): Signature {
    Signature(call.name, call.arguments,
      if observation.None? || observation.value.callId == "" then None else
        var summary := Text.Trim(observation.value.modelSummary);
        Some((observation.value.status, if summary == "" then Text.Trim(observation.value.userSummary) else summary)))
  }

  function Signatures(calls: seq<ToolCall>, observations: seq<Observation>): (s: seq<Signature>)
    ensures |s| == |calls|
  {
    seq(|calls|, i requires 0 <= i < |calls| =>
      SignatureOf(calls[i], if i < |observations| then Some(observations[i]) else None))
  }

  function TurnOf(iteration: int, limit: int, calls: seq<ToolCall>, observations: seq<Observation>): Turn {
    Turn(iteration, limit, Signatures(calls, observations), |observations|)
  }

  /****** The history specification ******/

  function Count(signatures: seq<Signature>, s: Signature): nat {
    multiset(signatures)[s]
  }

  function Occurrences(history: seq<Turn>, s: Signature): nat {
    if history == [] then 0 else
      Occurrences(history[..|history| - 1], s) + Count(history[|history| - 1].signatures, s)
  }

  function ObservationTotal(history: seq<Turn>): nat {
    if history == [] then 0 else ObservationTotal(history[..|history| - 1]) + history[|history| - 1].observations
  }

  /** A turn sees a signature that no earlier turn had seen. */
  predicate Novel(earlier: seq<Turn>, turn: Turn) {
    exists s :: s in turn.signatures && Occurrences(earlier, s) == 0
  }

  /** Number of trailing turns without a first-seen signature. */
  function Stale(history: seq<Turn>): nat {
    if history == [] || Novel(history[..|history| - 1], history[|history| - 1]) then 0
    else 1 + Stale(history[..|history| - 1])
  }

  predicate Preflush(t: Turn) {
    t.limit > 0 && t.iteration >= t.limit - 1
  }

  /** The last turn repeats some interaction for at least the third time. */
  predicate Repeats(history: seq<Turn>)
    requires history != []
  {
    exists s :: s in history[|history| - 1].signatures
      && Occurrences(history, s) >= REPEATED_TOOL_INTERACTION_THRESHOLD
  }

  /** The last turn reaches the condition of a replan reason. */
  predicate Reaches(history: seq<Turn>, reason: Reason)
    requires history != []
  {
    var last := history[|history| - 1];
    && !Preflush(last)
    && match reason
       case RepeatedToolInteraction => Repeats(history)
       case NoNewObservation =>
         && !Repeats(history)
         && last.iteration >= SOFT_NO_PROGRESS_ITERATION_FLOOR
         && Stale(history) >= NO_PROGRESS_THRESHOLD
         && ObservationTotal(history) > 0
       case HardBudgetPreflush => false
  }

  /** How many turns have reached a replan reason. */
  function TimesReached(history: seq<Turn>, reason: Reason): nat {
    if history == [] then 0 else
      TimesReached(history[..|history| - 1], reason) + if Reaches(history, reason) then 1 else 0
  }

  /** The decision taken on the last turn of a history. */
  function Decide(history: seq<Turn>): Decision
    requires history != []
  {
    if Preflush(history[|history| - 1]) then Finalize(HardBudgetPreflush)
    else if Reaches(history, RepeatedToolInteraction) && TimesReached(history, RepeatedToolInteraction) == 1 then
      Replan(RepeatedToolInteraction)
    else if Reaches(history, NoNewObservation) && TimesReached(history, NoNewObservation) == 1 then
      Replan(NoNewObservation)
    else Continue
  }

  lemma CountAppend(all: seq<Signature>, idx: nat, sig: Signature)
    requires idx < |all| && all[idx] == sig
    ensures forall s :: Count(all[..idx + 1], s) == Count(all[..idx], s) + if s == sig then 1 else 0
    ensures forall s :: s in all[..idx + 1] <==> s in all[..idx] || s == sig
    ensures forall s :: s in all[..idx] <==> Count(all[..idx], s) > 0
  {
    assert all[..idx + 1] == all[..idx] + [sig];
  }

  /****** The controller ******/

  lemma Extend(earlier: seq<Turn>, turn: Turn)
    ensures
      var h := earlier + [turn];
      && h[..|h| - 1] == earlier && h[|h| - 1] == turn
      && (forall s :: Occurrences(h, s) == Occurrences(earlier, s) + Count(turn.signatures, s))
      && ObservationTotal(h) == ObservationTotal(earlier) + turn.observations
      && Stale(h) == (if Novel(earlier, turn) then 0 else 1 + Stale(earlier))
      && (forall r :: TimesReached(h, r) == TimesReached(earlier, r) + if Reaches(h, r) then 1 else 0)
  {
  }

  class ConvergenceController {
    var signatures: map<Signature, nat>
    var noProgressStreak: nat
    var observations: nat
    var replans: map<Reason, nat>
    ghost var history: seq<Turn>

    ghost predicate Valid()
      reads this
    {
      && (forall s :: Lookup(signatures, s) == Occurrences(history, s))
      && noProgressStreak == Stale(history)
      && observations == ObservationTotal(history)
      && (forall r :: Lookup(replans, r) == TimesReached(history, r))
    }

    constructor ()
      ensures Valid() && history == []
    {
      signatures, noProgressStreak, observations, replans := map[], 0, 0, map[];
      history := [];
    }

    /** Evaluates one tool turn. */
    method Observe(iteration: int, hardIterationLimit: int, calls: seq<ToolCall>, results: seq<Observation>)
      returns (decision: Decision)
      requires Valid()
      modifies this
      ensures Valid()
      ensures history == old(history) + [TurnOf(iteration, hardIterationLimit, calls, results)]
      ensures decision == Decide(history)
    {
      ghost var turn := TurnOf(iteration, hardIterationLimit, calls, results);
      Extend(history, turn);
      observations := observations + |results|;
      var maxRepeat, novel := CountTurn(calls, results);
      if |calls| == 0 || !novel {
        noProgressStreak := noProgressStreak + 1;
      } else {
        noProgressStreak := 0;
      }
      history := history + [turn];
      decision := Steer(iteration, hardIterationLimit, maxRepeat);
    }

    /** The decision on the turn just counted: finalize ahead of the budget, else replan, else go on. */
    method Steer(iteration: int, hardIterationLimit: int, maxRepeat: nat) returns (decision: Decision)
      requires history != []
      requires history[|history| - 1].iteration == iteration && history[|history| - 1].limit == hardIterationLimit
      requires maxRepeat >= REPEATED_TOOL_INTERACTION_THRESHOLD <==> Repeats(history)
      requires noProgressStreak == Stale(history) && observations == ObservationTotal(history)
      requires forall r :: Lookup(replans, r) == TimesReached(history[..|history| - 1], r)
      modifies this`replans
      ensures forall r :: Lookup(replans, r) == TimesReached(history, r)
      ensures decision == Decide(history)
    {
      if hardIterationLimit > 0 && iteration >= hardIterationLimit - 1 {
        return Finalize(HardBudgetPreflush);
      }
      if maxRepeat >= REPEATED_TOOL_INTERACTION_THRESHOLD {
        decision := ReplanDecision(RepeatedToolInteraction);
        return;
      }
      if iteration >= SOFT_NO_PROGRESS_ITERATION_FLOOR && noProgressStreak >= NO_PROGRESS_THRESHOLD && observations > 0 {
        decision := ReplanDecision(NoNewObservation);
        return;
      }
      return Continue;
    }

    /** Counts the signatures of one turn into the map, noting novelty and the highest count reached. */
    method CountTurn(calls: seq<ToolCall>, results: seq<Observation>) returns (maxRepeat: nat, novel: bool)
      modifies this`signatures
      ensures forall s :: Lookup(signatures, s) == Lookup(old(signatures), s) + Count(Signatures(calls, results), s)
      ensures novel <==> exists s :: s in Signatures(calls, results) && Lookup(old(signatures), s) == 0
      ensures maxRepeat >= REPEATED_TOOL_INTERACTION_THRESHOLD <==>
        exists s :: s in Signatures(calls, results) && Lookup(signatures, s) >= REPEATED_TOOL_INTERACTION_THRESHOLD
    {
      ghost var all := Signatures(calls, results);
      maxRepeat, novel := 0, false;
      for idx := 0 to |calls|
        invariant forall s :: Lookup(signatures, s) == Lookup(old(signatures), s) + Count(all[..idx], s)
        invariant novel <==> exists s :: s in all[..idx] && Lookup(old(signatures), s) == 0
        invariant maxRepeat >= REPEATED_TOOL_INTERACTION_THRESHOLD <==>
          exists s :: s in all[..idx] && Lookup(signatures, s) >= REPEATED_TOOL_INTERACTION_THRESHOLD
      {
        var observation := if idx < |results| then Some(results[idx]) else None;
        var sig := SignatureOf(calls[idx], observation);
        CountAppend(all, idx, sig);
        if Lookup(signatures, sig) == 0 {
          novel := true;
        }
        var count := Increment(sig);
        if count > maxRepeat {
          maxRepeat := count;
        }
      }
      assert all[..|calls|] == all;
    }

    method Increment(sig: Signature) returns (count: nat)
      modifies this`signatures
      ensures forall s :: Lookup(signatures, s) == Lookup(old(signatures), s) + if s == sig then 1 else 0
      ensures count == Lookup(signatures, sig)
    {
      signatures := signatures[sig := Lookup(signatures, sig) + 1];
      count := signatures[sig];
    }

    /** Emits a replan for a reason at most once. */
    method ReplanDecision(reason: Reason) returns (decision: Decision)
      modifies this`replans
      ensures forall r :: Lookup(replans, r) == Lookup(old(replans), r) + if r == reason then 1 else 0
      ensures decision == if Lookup(old(replans), reason) == 0 then Replan(reason) else Continue
    {
      replans := replans[reason := Lookup(replans, reason) + 1];
      if replans[reason] > 1 {
        return Continue;
      }
      return Replan(reason);
    }
  }

  /****** What the history specification promises ******/

  predicate ReachesAt(history: seq<Turn>, k: nat, reason: Reason)
    requires k < |history|
  {
    Reaches(history[..k + 1], reason)
  }

  /** Prefixes of a prefix are prefixes. */
  lemma ReachesAtPrefix(history: seq<Turn>, n: nat, reason: Reason)
    requires n <= |history|
    ensures forall k: nat :: k < n ==> (ReachesAt(history[..n], k, reason) <==> ReachesAt(history, k, reason))
  {
    forall k: nat | k < n
      ensures ReachesAt(history[..n], k, reason) <==> ReachesAt(history, k, reason)
    {
      assert history[..n][..k + 1] == history[..k + 1];
    }
  }

  lemma {:induction false} NeverReached(history: seq<Turn>, reason: Reason)
    ensures TimesReached(history, reason) == 0 <==> forall k: nat :: k < |history| ==> !ReachesAt(history, k, reason)
  {
    if history != [] {
      var n := |history| - 1;
      assert history[..n + 1] == history;
      NeverReached(history[..n], reason);
      ReachesAtPrefix(history, n, reason);
      assert ReachesAt(history, n, reason) <==> Reaches(history, reason);
    }
  }

  /** A replan is issued on turn k exactly when k is the first turn to reach its reason. */
  lemma ReplanOnFirstReach(history: seq<Turn>, k: nat, reason: Reason)
    requires k < |history| && reason != HardBudgetPreflush
    ensures Decide(history[..k + 1]) == Replan(reason) <==>
      ReachesAt(history, k, reason) && forall j: nat :: j < k ==> !ReachesAt(history, j, reason)
  {
    var h := history[..k + 1];
    assert h[..k] == history[..k];
    NeverReached(history[..k], reason);
    ReachesAtPrefix(history, k, reason);
  }

  /** Each replan reason is issued at most once in a run. */
  lemma ReplanAtMostOnce(history: seq<Turn>, j: nat, k: nat)
    requires j < k < |history| && Decide(history[..j + 1]).Replan?
    ensures Decide(history[..k + 1]) != Decide(history[..j + 1])
  {
    var reason := Decide(history[..j + 1]).reason;
    ReplanOnFirstReach(history, j, reason);
    ReplanOnFirstReach(history, k, reason);
  }

  /****** What counts as the same, and how often ******/

  /** The summary of an observation that interactions are told apart by. */
  function Summary(o: Observation): string {
    if Text.Blank(o.modelSummary) then Text.Trim(o.userSummary) else Text.Trim(o.modelSummary)
  }

  /** The call has an observation with the id of a call. */
  predicate Answered(o: Option<Observation>) {
    o.Some? && o.value.callId != ""
  }

  /** Two interactions are the same exactly when they call the same tool with the same arguments and, as far as
      they are answered, have the same status and summary. */
  lemma SameInteraction(a: ToolCall, ao: Option<Observation>, b: ToolCall, bo: Option<Observation>)
    ensures SignatureOf(a, ao) == SignatureOf(b, bo) <==>
      && a.name == b.name && a.arguments == b.arguments && (Answered(ao) <==> Answered(bo))
      && (Answered(ao) && Answered(bo) ==> ao.value.status == bo.value.status && Summary(ao.value) == Summary(bo.value))
  {
  }

  /** The streak is the number of trailing turns in which nothing was new. */
  lemma {:induction false} StaleMeans(history: seq<Turn>)
    ensures Stale(history) <= |history|
    ensures forall k :: |history| - Stale(history) <= k < |history| ==> !Novel(history[..k], history[k])
    ensures Stale(history) < |history| ==>
      Novel(history[..|history| - Stale(history) - 1], history[|history| - Stale(history) - 1])
  {
    if history != [] && Stale(history) > 0 {
      var init := history[..|history| - 1];
      StaleMeans(init);
      assert forall k :: 0 <= k < |init| ==> init[..k] == history[..k] && init[k] == history[k];
    }
  }

  /** The thresholds: a turn within one of the budget finalizes; else an interaction seen for the third time
      replans; else, from iteration 12 on, three turns in a row without anything new replan, once something
      has been observed. */
  lemma Thresholds(history: seq<Turn>)
    requires history != []
    ensures
      var last := history[|history| - 1];
      var finalizes := last.limit > 0 && last.iteration >= last.limit - 1;
      var repeats := exists s :: s in last.signatures && Occurrences(history, s) >= 3;
      && (Decide(history).Finalize? <==> finalizes)
      && (Reaches(history, RepeatedToolInteraction) <==> !finalizes && repeats)
      && (Reaches(history, NoNewObservation) <==>
            !finalizes && !repeats && last.iteration >= 12 && Stale(history) >= 3 && ObservationTotal(history) > 0)
  {
  }
}
