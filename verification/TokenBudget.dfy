/** Greedy allocation of a token budget to context handles (internal/runtime/contextengine/materializer.go). */
module TokenBudget {
  import Sorting

  /** Materialization policies; any other string is treated as an optional handle. */
  datatype Policy = Preload | DemandLoad | Required | Other(name: string)

  datatype ContextHandle = ContextHandle(id: string, tokenEstimate: int, policy: Policy)

  predicate Cheaper(a: ContextHandle, b: ContextHandle) {
    a.tokenEstimate < b.tokenEstimate
  }

  /** Nothing but the policy of a handle is decided by the allocation. */
  function Identity(h: ContextHandle): ContextHandle {
    h.(policy := Preload)
  }

  function Identities(s: seq<ContextHandle>): seq<ContextHandle> {
    seq(|s|, i requires 0 <= i < |s| => Identity(s[i]))
  }

  function Total(s: seq<ContextHandle>): int {
    if s == [] then 0 else s[0].tokenEstimate + Total(s[1..])
  }

  /** Tokens of the handles that were given the preload policy. */
  function PreloadedTotal(s: seq<ContextHandle>): int {
    if s == [] then 0 else (if s[0].policy == Preload then s[0].tokenEstimate else 0) + PreloadedTotal(s[1..])
  }

  function PreloadedCount(s: seq<ContextHandle>): nat {
    if s == [] then 0 else (if s[0].policy == Preload then 1 else 0) + PreloadedCount(s[1..])
  }

  predicate NonNegative(s: seq<ContextHandle>) {
    forall i :: 0 <= i < |s| ==> s[i].tokenEstimate >= 0
  }

  predicate NoneRequired(s: seq<ContextHandle>) {
    forall i :: 0 <= i < |s| ==> s[i].policy != Required
  }

  function AvailableBudget(maxPrompt: int, reserved: int): int {
    if maxPrompt - reserved <= 0 then 8000 else maxPrompt - reserved
  }

  /** The policy a handle gets when used tokens are already taken. */
  function Charge(h: ContextHandle, used: int, budget: int): ContextHandle {
    h.(policy := if h.policy == Required || used + h.tokenEstimate <= budget then Preload else DemandLoad)
  }

  /** The allocation of an ordered list of handles, from a number of tokens already used. */
  function Greedy(sorted: seq<ContextHandle>, used: int, budget: int): (r: seq<ContextHandle>)
    ensures |r| == |sorted|
  {
    if sorted == [] then [] else
      var first := Charge(sorted[0], used, budget);
      [first] + Greedy(sorted[1..], if first.policy == Preload then used + first.tokenEstimate else used, budget)
  }

  /** Every handle keeps its identity and gets one of the two policies; a required one is always preloaded. */
  lemma GreedyPolicies(sorted: seq<ContextHandle>, used: int, budget: int)
    ensures forall i :: 0 <= i < |sorted| ==>
      var h := Greedy(sorted, used, budget)[i];
      Identity(h) == Identity(sorted[i]) && h.policy in {Preload, DemandLoad} && (sorted[i].policy == Required ==> h.policy == Preload)
  {
  }

  ghost predicate SortedCopy(sorted: seq<ContextHandle>, handles: seq<ContextHandle>) {
    multiset(sorted) == multiset(handles) && Sorting.Sorted(Cheaper, sorted)
  }

  /** sort.Slice promises only an ordered permutation: handles of equal size may come in any order. */
  method SortSlice(handles: seq<ContextHandle>) returns (sorted: seq<ContextHandle>)
    ensures SortedCopy(sorted, handles)
  {
    sorted := Sorting.Sort(Cheaper, handles);
    Sorting.SortSorted(Cheaper, handles);
  }

  lemma GreedyStep(s: seq<ContextHandle>, i: nat, used: int, budget: int)
    requires i < |s|
    ensures
      var h := Charge(s[i], used, budget);
      Greedy(s[i..], used, budget)
        == [h] + Greedy(s[i + 1..], if h.policy == Preload then used + h.tokenEstimate else used, budget)
  {
  }

  /** The result is the greedy allocation of some ordered copy of the handles. */
  ghost predicate Allocates(handles: seq<ContextHandle>, budget: int, result: seq<ContextHandle>) {
    exists sorted :: SortedCopy(sorted, handles) && result == Greedy(sorted, 0, budget)
  }

  method AllocatePolicies(maxPrompt: int, reserved: int, handles: seq<ContextHandle>) returns (result: seq<ContextHandle>)
    ensures Allocates(handles, AvailableBudget(maxPrompt, reserved), result)
    ensures multiset(Identities(result)) == multiset(Identities(handles))
    ensures forall h <- result :: h.policy == Preload || h.policy == DemandLoad
    ensures NonNegative(handles) && NoneRequired(handles) ==> PreloadedTotal(result) <= if maxPrompt > reserved then maxPrompt - reserved else 8000
    ensures NonNegative(handles) ==> forall chosen :: FitsIn(chosen, handles, if maxPrompt > reserved then maxPrompt - reserved else 8000) ==>
      |chosen| <= PreloadedCount(result)
  {
    var availableBudget := maxPrompt - reserved;
    if availableBudget <= 0 {
      availableBudget := 8000;
    }
    var sortedHandles := SortSlice(handles);
    result := AllocateInOrder(sortedHandles, availableBudget);
    AllocationPermutes(handles, sortedHandles, availableBudget);
    GreedyPolicies(sortedHandles, 0, availableBudget);
    AllocationBest(handles, availableBudget, result);
  }

  /** A selection of the handles, with every required one, that fits the budget. */
  ghost predicate FitsIn(chosen: seq<ContextHandle>, handles: seq<ContextHandle>, budget: int) {
    && multiset(chosen) <= multiset(handles) && Total(chosen) <= budget
    && forall h: ContextHandle :: h.policy == Required ==> multiset(chosen)[h] == multiset(handles)[h]
  }

  lemma AllocationBest(handles: seq<ContextHandle>, budget: int, result: seq<ContextHandle>)
    requires Allocates(handles, budget, result) && budget > 0
    ensures NonNegative(handles) ==> forall chosen :: FitsIn(chosen, handles, budget) ==> |chosen| <= PreloadedCount(result)
    ensures NonNegative(handles) && NoneRequired(handles) ==> PreloadedTotal(result) <= budget
  {
    if NonNegative(handles) {
      forall chosen | FitsIn(chosen, handles, budget)
        ensures |chosen| <= PreloadedCount(result)
      {
        AllocationOptimal(handles, budget, result, chosen);
      }
      if NoneRequired(handles) {
        NothingFits(handles, budget);
        AllocationOptimal(handles, budget, result, []);
      }
    }
  }

  lemma NothingFits(handles: seq<ContextHandle>, budget: int)
    requires NoneRequired(handles) && budget > 0
    ensures FitsIn([], handles, budget)
  {
    forall h: ContextHandle | h.policy == Required
      ensures multiset(handles)[h] == 0
    {
      assert h !in handles;
    }
  }

  method AllocateInOrder(sortedHandles: seq<ContextHandle>, availableBudget: int) returns (result: seq<ContextHandle>)
    ensures result == Greedy(sortedHandles, 0, availableBudget)
  {
    var currentUsed := 0;
    result := [];
    ghost var left := Greedy(sortedHandles, 0, availableBudget);
    assert sortedHandles[0..] == sortedHandles;
    for i := 0 to |sortedHandles|
      invariant left == Greedy(sortedHandles[i..], currentUsed, availableBudget)
      invariant result + left == Greedy(sortedHandles, 0, availableBudget)
    {
      GreedyStep(sortedHandles, i, currentUsed, availableBudget);
      var handle;
      handle, currentUsed := AllocateOne(sortedHandles[i], currentUsed, availableBudget);
      assert result + left == (result + [handle]) + left[1..];
      left := left[1..];
      result := result + [handle];
    }
  }

  /** The policy of one handle and the budget used with it. */
  method AllocateOne(handle: ContextHandle, used: int, availableBudget: int) returns (charged: ContextHandle, currentUsed: int)
    ensures charged == Charge(handle, used, availableBudget)
    ensures currentUsed == if charged.policy == Preload then used + handle.tokenEstimate else used
  {
    charged, currentUsed := handle, used;
    if handle.policy == Required {
      charged := handle.(policy := Preload);
      currentUsed := currentUsed + handle.tokenEstimate;
    } else if currentUsed + handle.tokenEstimate <= availableBudget {
      charged := handle.(policy := Preload);
      currentUsed := currentUsed + handle.tokenEstimate;
    } else {
      charged := handle.(policy := DemandLoad);
    }
  }

  /** Up to policy, the output is a permutation of the input. */
  lemma AllocationPermutes(handles: seq<ContextHandle>, sorted: seq<ContextHandle>, budget: int)
    requires multiset(sorted) == multiset(handles)
    ensures multiset(Identities(Greedy(sorted, 0, budget))) == multiset(Identities(handles))
  {
    GreedyPolicies(sorted, 0, budget);
    assert Identities(Greedy(sorted, 0, budget)) == Identities(sorted);
    IdentitiesPermute(sorted, handles);
  }

  lemma {:induction false} IdentitiesPermute(a: seq<ContextHandle>, b: seq<ContextHandle>)
    requires multiset(a) == multiset(b)
    ensures multiset(Identities(a)) == multiset(Identities(b))
  {
    if a == [] {
      assert |multiset(b)| == 0;
    } else {
      assert a[0] in multiset(b);
      var i :| 0 <= i < |b| && b[i] == a[0];
      WithoutFacts(a, 0);
      WithoutFacts(b, i);
      assert multiset(Without(a, 0)) == multiset(a) - multiset{a[0]} == multiset(Without(b, i));
      IdentitiesPermute(Without(a, 0), Without(b, i));
    }
  }

  /** Without required handles the preloaded ones fit the budget. */
  lemma {:induction false} WithinBudget(sorted: seq<ContextHandle>, used: int, budget: int)
    requires NoneRequired(sorted) && used <= budget
    ensures used + PreloadedTotal(Greedy(sorted, used, budget)) <= budget
  {
    if sorted != [] {
      var first := Charge(sorted[0], used, budget);
      WithinBudget(sorted[1..], if first.policy == Preload then used + first.tokenEstimate else used, budget);
    }
  }

  function RequiredOnly(s: seq<ContextHandle>): multiset<ContextHandle> {
    if s == [] then multiset{} else
      (if s[0].policy == Required then multiset{s[0]} else multiset{}) + RequiredOnly(s[1..])
  }

  lemma {:induction false} RequiredOnlyCount(s: seq<ContextHandle>, h: ContextHandle)
    ensures RequiredOnly(s)[h] == if h.policy == Required then multiset(s)[h] else 0
  {
    if s != [] {
      assert s == [s[0]] + s[1..];
      RequiredOnlyCount(s[1..], h);
    }
  }

  function Without(s: seq<ContextHandle>, i: nat): seq<ContextHandle>
    requires i < |s|
  {
    s[..i] + s[i + 1..]
  }

  lemma WithoutFacts(s: seq<ContextHandle>, i: nat)
    requires i < |s|
    ensures NonNegative(s) ==> NonNegative(Without(s, i))
    ensures |Without(s, i)| == |s| - 1 && multiset(s) == multiset(Without(s, i)) + multiset{s[i]}
    ensures Total(s) == Total(Without(s, i)) + s[i].tokenEstimate
    ensures multiset(Identities(s)) == multiset(Identities(Without(s, i))) + multiset{Identity(s[i])}
  {
    var a, b := Identities(s[..i]), Identities(s[i + 1..]);
    assert Identities(s) == a + ([Identity(s[i])] + b);
    assert Identities(Without(s, i)) == a + b;
    assert s == s[..i] + ([s[i]] + s[i + 1..]);
    TotalAppend(s[..i], s[i + 1..]);
    TotalAppend(s[..i], [s[i]] + s[i + 1..]);
  }

  lemma TotalAppend(a: seq<ContextHandle>, b: seq<ContextHandle>)
    ensures Total(a + b) == Total(a) + Total(b)
  {
    if a == [] {
      assert a + b == b;
    } else {
      assert (a + b)[1..] == a[1..] + b;
    }
  }

  lemma TotalNonNegative(s: seq<ContextHandle>)
    requires NonNegative(s)
    ensures Total(s) >= 0
    ensures forall i :: 0 <= i < |s| ==> s[i].tokenEstimate <= Total(s)
  {
  }

  lemma PreloadedAtLeastRequired(sorted: seq<ContextHandle>, used: int, budget: int)
    ensures PreloadedCount(Greedy(sorted, used, budget)) >= |RequiredOnly(sorted)|
  {
  }

  /** Greedy preload is optimal: no choice of handles that contains the required ones and fits
      what is left of the budget has more members than the preloaded set. */
  lemma {:induction false} GreedyOptimal(sorted: seq<ContextHandle>, used: int, budget: int, chosen: seq<ContextHandle>)
    requires Sorting.Sorted(Cheaper, sorted) && NonNegative(sorted)
    requires RequiredOnly(sorted) <= multiset(chosen) <= multiset(sorted)
    requires used + Total(chosen) <= budget
    ensures |chosen| <= PreloadedCount(Greedy(sorted, used, budget))
    decreases |sorted|
  {
    if sorted == [] {
      assert multiset(chosen) == multiset{};
      assert chosen == [];
    } else if i: nat :| i < |chosen| && Removable(sorted[0], chosen, i) {
      var rest, taken, fewer := sorted[1..], used + sorted[0].tokenEstimate, Without(chosen, i);
      assert taken <= budget && |fewer| <= PreloadedCount(Greedy(rest, taken, budget)) by {
        ChosenFromSorted(sorted, chosen);
        ChosenWithinBudget(sorted[0], chosen, i, used, budget);
        RestOfChosen(sorted, chosen, i);
        SortedRest(sorted);
        GreedyOptimal(rest, taken, budget, fewer);
      }
      PreloadedHead(sorted, used, budget, |fewer|);
    } else {
      NothingRemovable(sorted, chosen);
      PreloadedAtLeastRequired(sorted, used, budget);
    }
  }

  lemma SortedRest(sorted: seq<ContextHandle>)
    requires sorted != [] && Sorting.Sorted(Cheaper, sorted) && NonNegative(sorted)
    ensures Sorting.Sorted(Cheaper, sorted[1..]) && NonNegative(sorted[1..])
  {
  }

  lemma PreloadedHead(sorted: seq<ContextHandle>, used: int, budget: int, n: nat)
    requires sorted != [] && used + sorted[0].tokenEstimate <= budget
    requires n <= PreloadedCount(Greedy(sorted[1..], used + sorted[0].tokenEstimate, budget))
    ensures n + 1 <= PreloadedCount(Greedy(sorted, used, budget))
  {
  }

  /** When nothing can be removed for the head, the head is optional and the choice holds required handles only. */
  lemma NothingRemovable(sorted: seq<ContextHandle>, chosen: seq<ContextHandle>)
    requires sorted != []
    requires RequiredOnly(sorted) <= multiset(chosen) <= multiset(sorted)
    requires forall i: nat :: i < |chosen| ==> !Removable(sorted[0], chosen, i)
    ensures |chosen| == |RequiredOnly(sorted)|
  {
    var x := sorted[0];
    assert forall i: nat :: i < |chosen| ==> !Removable(x, chosen, i) && chosen[i] != x;
    assert x !in chosen && x !in multiset(chosen);
    RequiredOnlyCount(sorted, x);
    assert RequiredOnly(sorted)[x] <= multiset(chosen)[x];
    assert x in multiset(sorted);
    assert forall i: nat :: i < |chosen| ==> !Removable(x, chosen, i) && chosen[i].policy == Required;
    OnlyRequired(sorted, chosen);
  }

  /** The member of a choice that may stand in for the head of the list. */
  predicate Removable(x: ContextHandle, chosen: seq<ContextHandle>, i: nat)
    requires i < |chosen|
  {
    chosen[i] == x || (x !in chosen && x.policy != Required && chosen[i].policy != Required)
  }

  lemma ChosenWithinBudget(x: ContextHandle, chosen: seq<ContextHandle>, i: nat, used: int, budget: int)
    requires i < |chosen| && NonNegative(chosen) && x.tokenEstimate <= chosen[i].tokenEstimate
    requires used + Total(chosen) <= budget
    ensures used + x.tokenEstimate + Total(Without(chosen, i)) <= budget
    ensures used + x.tokenEstimate <= budget
  {
    WithoutFacts(chosen, i);
    TotalNonNegative(Without(chosen, i));
  }

  /** Whatever is chosen from a sorted list is non-negative and not cheaper than its head. */
  lemma ChosenFromSorted(sorted: seq<ContextHandle>, chosen: seq<ContextHandle>)
    requires sorted != [] && Sorting.Sorted(Cheaper, sorted) && NonNegative(sorted)
    requires multiset(chosen) <= multiset(sorted)
    ensures NonNegative(chosen)
    ensures forall i :: 0 <= i < |chosen| ==> sorted[0].tokenEstimate <= chosen[i].tokenEstimate
    ensures sorted[0].policy == Required && RequiredOnly(sorted) <= multiset(chosen) ==> sorted[0] in chosen
  {
    forall i | 0 <= i < |chosen|
      ensures 0 <= sorted[0].tokenEstimate <= chosen[i].tokenEstimate
    {
      assert chosen[i] in multiset(chosen);
      var j :| 0 <= j < |sorted| && sorted[j] == chosen[i];
      assert j > 0 ==> !Cheaper(sorted[j], sorted[0]);
    }
    if sorted[0].policy == Required && RequiredOnly(sorted) <= multiset(chosen) {
      RequiredOnlyCount(sorted, sorted[0]);
      assert sorted[0] in multiset(sorted);
      assert sorted[0] in multiset(chosen);
    }
  }

  /** Dropping the head of the list, or an optional handle in its place, leaves a valid choice from the rest. */
  lemma RestOfChosen(sorted: seq<ContextHandle>, chosen: seq<ContextHandle>, i: nat)
    requires sorted != [] && i < |chosen|
    requires RequiredOnly(sorted) <= multiset(chosen) <= multiset(sorted)
    requires Removable(sorted[0], chosen, i)
    ensures RequiredOnly(sorted[1..]) <= multiset(Without(chosen, i)) <= multiset(sorted[1..])
  {
    var x, rest, fewer := sorted[0], sorted[1..], Without(chosen, i);
    assert sorted == [x] + rest;
    WithoutFacts(chosen, i);
    forall h
      ensures RequiredOnly(rest)[h] <= multiset(fewer)[h] <= multiset(rest)[h]
    {
      RequiredOnlyCount(sorted, h);
      RequiredOnlyCount(rest, h);
      assert RequiredOnly(sorted)[h] <= multiset(chosen)[h] <= multiset(sorted)[h];
      assert multiset(sorted)[h] == multiset(rest)[h] + if h == x then 1 else 0;
      assert multiset(chosen)[h] == multiset(fewer)[h] + if h == chosen[i] then 1 else 0;
    }
  }

  lemma OnlyRequired(sorted: seq<ContextHandle>, chosen: seq<ContextHandle>)
    requires RequiredOnly(sorted) <= multiset(chosen) <= multiset(sorted)
    requires forall h :: h in chosen ==> h.policy == Required
    ensures |chosen| == |RequiredOnly(sorted)|
  {
    forall h
      ensures multiset(chosen)[h] == RequiredOnly(sorted)[h]
    {
      RequiredOnlyCount(sorted, h);
      assert h !in chosen ==> h !in multiset(chosen);
    }
    assert multiset(chosen) == RequiredOnly(sorted);
    assert |multiset(chosen)| == |chosen|;
  }

  /** Whatever order an unstable sort leaves equal estimates in: with non-negative estimates no
      selection that contains every required handle and fits the budget has more members than the
      preloaded set, and without required handles the preloaded set itself fits. */
  lemma AllocationOptimal(handles: seq<ContextHandle>, budget: int, result: seq<ContextHandle>, chosen: seq<ContextHandle>)
    requires Allocates(handles, budget, result) && NonNegative(handles) && budget >= 0
    requires multiset(chosen) <= multiset(handles) && Total(chosen) <= budget
    requires forall h: ContextHandle :: h.policy == Required ==> multiset(chosen)[h] == multiset(handles)[h]
    ensures |chosen| <= PreloadedCount(result)
    ensures NoneRequired(handles) ==> PreloadedTotal(result) <= budget
  {
    var sorted: seq<ContextHandle> :| SortedCopy(sorted, handles) && result == Greedy(sorted, 0, budget);
    forall i | 0 <= i < |sorted|
      ensures sorted[i].tokenEstimate >= 0 && (NoneRequired(handles) ==> sorted[i].policy != Required)
    {
      assert sorted[i] in multiset(sorted);
      assert sorted[i] in handles;
    }
    forall h
      ensures RequiredOnly(sorted)[h] <= multiset(chosen)[h]
    {
      RequiredOnlyCount(sorted, h);
    }
    GreedyOptimal(sorted, 0, budget, chosen);
    if NoneRequired(handles) {
      WithinBudget(sorted, 0, budget);
    }
  }
}
