/** When required handles carry a greedy allocation over its budget, for a given order and over all
    orders that an unstable sort may choose (internal/runtime/contextengine/materializer.go). */
module BudgetOverrun {
  import Sorting
  import opened TokenBudget

  /** A required handle that no longer fits behind everything that comes before it. */
  predicate ForcedOver(sorted: seq<ContextHandle>, used: int, budget: int, i: nat)
    requires i < |sorted|
  {
    sorted[i].policy == Required && used + Total(sorted[..i + 1]) > budget
  }

  ghost predicate Forced(sorted: seq<ContextHandle>, used: int, budget: int) {
    exists i: nat :: i < |sorted| && ForcedOver(sorted, used, budget, i)
  }

  lemma {:induction false} PreloadedNonNegative(sorted: seq<ContextHandle>, used: int, budget: int)
    requires NonNegative(sorted)
    ensures PreloadedTotal(Greedy(sorted, used, budget)) >= 0
  {
    if sorted != [] {
      var first := Charge(sorted[0], used, budget);
      PreloadedNonNegative(sorted[1..], if first.policy == Preload then used + first.tokenEstimate else used, budget);
    }
  }

  /** Where no handle fits any more, only a required one is preloaded. */
  lemma {:induction false} AfterTurnedAway(rest: seq<ContextHandle>, used: int, budget: int)
    requires NonNegative(rest) && used <= budget
    requires forall h <- rest :: used + h.tokenEstimate > budget
    ensures used + PreloadedTotal(Greedy(rest, used, budget)) > budget <==> exists h <- rest :: h.policy == Required
  {
    if rest != [] {
      if rest[0].policy == Required {
        assert rest[0] in rest;
        PreloadedNonNegative(rest[1..], used + rest[0].tokenEstimate, budget);
      } else {
        AfterTurnedAway(rest[1..], used, budget);
      }
    }
  }

  /** The first handle of a list contributes to every prefix. */
  lemma ForcedRest(sorted: seq<ContextHandle>, used: int, budget: int, i: nat)
    requires 0 < i < |sorted|
    ensures ForcedOver(sorted, used, budget, i) <==> ForcedOver(sorted[1..], used + sorted[0].tokenEstimate, budget, i - 1)
  {
    assert sorted[..i + 1][1..] == sorted[1..][..i];
  }

  lemma ForcedOnceFitting(sorted: seq<ContextHandle>, used: int, budget: int)
    requires sorted != [] && used + sorted[0].tokenEstimate <= budget
    ensures Forced(sorted, used, budget) <==> Forced(sorted[1..], used + sorted[0].tokenEstimate, budget)
  {
    var rest, taken := sorted[1..], used + sorted[0].tokenEstimate;
    assert Total(sorted[..1]) == sorted[0].tokenEstimate;
    if i: nat :| i < |sorted| && ForcedOver(sorted, used, budget, i) {
      ForcedRest(sorted, used, budget, i);
    }
    if i: nat :| i < |rest| && ForcedOver(rest, taken, budget, i) {
      ForcedRest(sorted, used, budget, i + 1);
      assert ForcedOver(sorted, used, budget, i + 1);
    }
  }

  lemma ForcedOnceOver(sorted: seq<ContextHandle>, used: int, budget: int)
    requires sorted != [] && NonNegative(sorted) && used + sorted[0].tokenEstimate > budget
    ensures Forced(sorted, used, budget) <==> exists h <- sorted :: h.policy == Required
  {
    if h :| h in sorted && h.policy == Required {
      var i: nat :| i < |sorted| && sorted[i] == h;
      assert sorted[..i + 1] == [sorted[0]] + sorted[1..i + 1];
      TotalNonNegative(sorted[1..i + 1]);
      assert ForcedOver(sorted, used, budget, i);
    }
  }

  /** A greedy allocation overruns its budget exactly when some required handle does not fit behind
      everything that is cheaper or comes before it, whether or not that is required. */
  lemma {:induction false} OverrunExactly(sorted: seq<ContextHandle>, used: int, budget: int)
    requires Sorting.Sorted(Cheaper, sorted) && NonNegative(sorted) && used <= budget
    ensures used + PreloadedTotal(Greedy(sorted, used, budget)) > budget <==> Forced(sorted, used, budget)
  {
    if sorted != [] {
      SortedRest(sorted);
      var taken := used + sorted[0].tokenEstimate;
      if taken <= budget {
        OverrunExactly(sorted[1..], taken, budget);
        ForcedOnceFitting(sorted, used, budget);
      } else {
        forall h | h in sorted
          ensures used + h.tokenEstimate > budget
        {
          var j: nat :| j < |sorted| && sorted[j] == h;
          assert j > 0 ==> !Cheaper(sorted[j], sorted[0]);
        }
        AfterTurnedAway(sorted, used, budget);
        ForcedOnceOver(sorted, used, budget);
      }
    }
  }

  /****** Over all orders ******/

  /** Tokens of the handles of some kind. */
  function TotalOf(s: seq<ContextHandle>, kind: ContextHandle -> bool): int {
    if s == [] then 0 else (if kind(s[0]) then s[0].tokenEstimate else 0) + TotalOf(s[1..], kind)
  }

  lemma {:induction false} TotalOfAppend(a: seq<ContextHandle>, b: seq<ContextHandle>, kind: ContextHandle -> bool)
    ensures TotalOf(a + b, kind) == TotalOf(a, kind) + TotalOf(b, kind)
  {
    if a == [] {
      assert a + b == b;
    } else {
      assert (a + b)[1..] == a[1..] + b;
      TotalOfAppend(a[1..], b, kind);
    }
  }

  lemma {:induction false} TotalOfMiddle(a: seq<ContextHandle>, x: ContextHandle, b: seq<ContextHandle>, kind: ContextHandle -> bool)
    ensures TotalOf(a + [x] + b, kind) == TotalOf(a + b, kind) + if kind(x) then x.tokenEstimate else 0
  {
    if a == [] {
      assert a + [x] + b == [x] + b && a + b == b;
    } else {
      assert (a + [x] + b)[1..] == a[1..] + [x] + b && (a + b)[1..] == a[1..] + b;
      TotalOfMiddle(a[1..], x, b, kind);
    }
  }

  lemma TotalOfWithout(s: seq<ContextHandle>, i: nat, kind: ContextHandle -> bool)
    requires i < |s|
    ensures TotalOf(s, kind) == TotalOf(Without(s, i), kind) + if kind(s[i]) then s[i].tokenEstimate else 0
  {
    assert s == s[..i] + [s[i]] + s[i + 1..];
    TotalOfMiddle(s[..i], s[i], s[i + 1..], kind);
  }

  lemma StillPermuted(a: seq<ContextHandle>, b: seq<ContextHandle>, i: nat)
    requires multiset(a) == multiset(b) && a != [] && i < |b| && b[i] == a[0]
    ensures multiset(Without(a, 0)) == multiset(Without(b, i)) && |Without(a, 0)| == |a| - 1
  {
    WithoutFacts(a, 0);
    WithoutFacts(b, i);
    assert multiset(Without(a, 0)) == multiset(a) - multiset{a[0]} == multiset(Without(b, i));
  }

  lemma {:induction false} TotalOfPermuted(a: seq<ContextHandle>, b: seq<ContextHandle>, kind: ContextHandle -> bool)
    requires multiset(a) == multiset(b)
    ensures TotalOf(a, kind) == TotalOf(b, kind)
  {
    if a == [] {
      assert |multiset(b)| == 0;
    } else {
      assert a[0] in multiset(b);
      var i: nat :| i < |b| && b[i] == a[0];
      StillPermuted(a, b, i);
      TotalOfWithout(a, 0, kind);
      TotalOfWithout(b, i, kind);
      TotalOfPermuted(Without(a, 0), Without(b, i), kind);
    }
  }

  lemma {:induction false} TotalOfBounds(s: seq<ContextHandle>, kind: ContextHandle -> bool)
    requires NonNegative(s)
    ensures 0 <= TotalOf(s, kind) <= Total(s)
    ensures (forall h <- s :: kind(h)) ==> TotalOf(s, kind) == Total(s)
    ensures (forall h <- s :: !kind(h)) ==> TotalOf(s, kind) == 0
  {
    if s != [] {
      assert s[0] in s;
      TotalOfBounds(s[1..], kind);
    }
  }

  /** What may come before a required handle of the size in some order: handles not larger. */
  function UpTo(size: int): ContextHandle -> bool {
    (h: ContextHandle) => h.tokenEstimate <= size
  }

  /** What comes before the last required handle of the size in every order, with itself: smaller
      handles and required ones of the size. */
  function Ahead(size: int): ContextHandle -> bool {
    (h: ContextHandle) => h.tokenEstimate < size || (h.tokenEstimate == size && h.policy == Required)
  }

  /** Ties put to the required handles last, and first. */
  predicate RequiredLast(a: ContextHandle, b: ContextHandle) {
    a.tokenEstimate < b.tokenEstimate || (a.tokenEstimate == b.tokenEstimate && a.policy != Required && b.policy == Required)
  }

  predicate RequiredFirst(a: ContextHandle, b: ContextHandle) {
    a.tokenEstimate < b.tokenEstimate || (a.tokenEstimate == b.tokenEstimate && a.policy == Required && b.policy != Required)
  }

  /** The last required handle of a size. */
  lemma LastRequired(sorted: seq<ContextHandle>, size: int) returns (i: nat)
    requires exists h <- sorted :: h.policy == Required && h.tokenEstimate == size
    ensures i < |sorted| && sorted[i].policy == Required && sorted[i].tokenEstimate == size
    ensures forall j :: i < j < |sorted| ==> !(sorted[j].policy == Required && sorted[j].tokenEstimate == size)
  {
    var n := |sorted| - 1;
    if sorted[n].policy == Required && sorted[n].tokenEstimate == size {
      i := n;
    } else {
      assert sorted == sorted[..n] + [sorted[n]];
      i := LastRequired(sorted[..n], size);
    }
  }

  /** A prefix against the handles of some kind: it holds no others, or all of them. */
  lemma PrefixAgainst(sorted: seq<ContextHandle>, handles: seq<ContextHandle>, n: nat, kind: ContextHandle -> bool)
    requires multiset(sorted) == multiset(handles) && NonNegative(sorted) && n <= |sorted|
    ensures (forall j :: 0 <= j < n ==> kind(sorted[j])) ==> Total(sorted[..n]) <= TotalOf(handles, kind)
    ensures (forall j :: n <= j < |sorted| ==> !kind(sorted[j])) ==> TotalOf(handles, kind) <= Total(sorted[..n])
  {
    var before, after := sorted[..n], sorted[n..];
    assert sorted == before + after;
    TotalOfAppend(before, after, kind);
    TotalOfPermuted(sorted, handles, kind);
    TotalOfBounds(before, kind);
    TotalOfBounds(after, kind);
  }

  ghost predicate OverrunBy(handles: seq<ContextHandle>, budget: int, kindUpTo: int -> (ContextHandle -> bool)) {
    exists h <- handles :: h.policy == Required && TotalOf(handles, kindUpTo(h.tokenEstimate)) > budget
  }

  lemma SortedCopyFacts(sorted: seq<ContextHandle>, handles: seq<ContextHandle>)
    requires SortedCopy(sorted, handles) && NonNegative(handles)
    ensures NonNegative(sorted) && forall h :: h in sorted <==> h in handles
  {
    assert forall h :: h in sorted <==> h in multiset(sorted);
    assert forall h :: h in handles <==> h in multiset(handles);
    assert forall i :: 0 <= i < |sorted| ==> sorted[i] in sorted;
  }

  /** A handle forced over, if everything before it is of some kind, does not fit with that kind. */
  lemma ForcedAt(sorted: seq<ContextHandle>, handles: seq<ContextHandle>, budget: int, i: nat, kind: ContextHandle -> bool)
    requires multiset(sorted) == multiset(handles) && NonNegative(sorted)
    requires i < |sorted| && ForcedOver(sorted, 0, budget, i)
    requires forall j :: 0 <= j <= i ==> kind(sorted[j])
    ensures TotalOf(handles, kind) > budget
  {
    PrefixAgainst(sorted, handles, i + 1, kind);
  }

  /** An order that overruns has a required handle that does not fit with everything not larger. */
  lemma ForcedBySome(sorted: seq<ContextHandle>, handles: seq<ContextHandle>, budget: int)
    requires SortedCopy(sorted, handles) && NonNegative(handles) && Forced(sorted, 0, budget)
    ensures OverrunBy(handles, budget, UpTo)
  {
    SortedCopyFacts(sorted, handles);
    var i: nat :| i < |sorted| && ForcedOver(sorted, 0, budget, i);
    assert sorted[i] in sorted;
    assert forall j :: 0 <= j < i ==> !Cheaper(sorted[i], sorted[j]);
    ForcedAt(sorted, handles, budget, i, UpTo(sorted[i].tokenEstimate));
  }

  /** An order with required handles first that overruns has one that does not fit with what is ahead in every order. */
  lemma ForcedByAll(sorted: seq<ContextHandle>, handles: seq<ContextHandle>, budget: int)
    requires SortedCopy(sorted, handles) && NonNegative(handles) && Forced(sorted, 0, budget)
    requires Sorting.Sorted(RequiredFirst, sorted)
    ensures OverrunBy(handles, budget, Ahead)
  {
    SortedCopyFacts(sorted, handles);
    var i: nat :| i < |sorted| && ForcedOver(sorted, 0, budget, i);
    assert sorted[i] in sorted;
    assert forall j :: 0 <= j < i ==> !RequiredFirst(sorted[i], sorted[j]);
    ForcedAt(sorted, handles, budget, i, Ahead(sorted[i].tokenEstimate));
  }

  /** A required handle that does not fit with some kind of handles is forced over, if after the last
      required one of its size no handle is of that kind. */
  lemma ForcedByLast(sorted: seq<ContextHandle>, handles: seq<ContextHandle>, budget: int, size: int, kind: ContextHandle -> bool)
    requires multiset(sorted) == multiset(handles) && NonNegative(sorted)
    requires exists h <- sorted :: h.policy == Required && h.tokenEstimate == size
    requires forall i, j :: 0 <= i < j < |sorted| && sorted[i].policy == Required && sorted[i].tokenEstimate == size ==>
      !kind(sorted[j]) || (sorted[j].policy == Required && sorted[j].tokenEstimate == size)
    requires TotalOf(handles, kind) > budget
    ensures Forced(sorted, 0, budget)
  {
    var i := LastRequired(sorted, size);
    PrefixAgainst(sorted, handles, i + 1, kind);
    assert ForcedOver(sorted, 0, budget, i);
  }

  /** A required handle that does not fit with what is ahead in every order overruns in every order. */
  lemma ForcedAlways(sorted: seq<ContextHandle>, handles: seq<ContextHandle>, budget: int)
    requires SortedCopy(sorted, handles) && NonNegative(handles) && OverrunBy(handles, budget, Ahead)
    ensures Forced(sorted, 0, budget)
  {
    SortedCopyFacts(sorted, handles);
    var h :| h in handles && h.policy == Required && TotalOf(handles, Ahead(h.tokenEstimate)) > budget;
    assert forall i, j :: 0 <= i < j < |sorted| ==> !Cheaper(sorted[j], sorted[i]);
    ForcedByLast(sorted, handles, budget, h.tokenEstimate, Ahead(h.tokenEstimate));
  }

  /** One that does not fit with everything not larger overruns in the order with required handles last. */
  lemma ForcedWhenLast(sorted: seq<ContextHandle>, handles: seq<ContextHandle>, budget: int)
    requires SortedCopy(sorted, handles) && NonNegative(handles) && OverrunBy(handles, budget, UpTo)
    requires Sorting.Sorted(RequiredLast, sorted)
    ensures Forced(sorted, 0, budget)
  {
    SortedCopyFacts(sorted, handles);
    var h :| h in handles && h.policy == Required && TotalOf(handles, UpTo(h.tokenEstimate)) > budget;
    assert forall i, j :: 0 <= i < j < |sorted| ==> !RequiredLast(sorted[j], sorted[i]);
    ForcedByLast(sorted, handles, budget, h.tokenEstimate, UpTo(h.tokenEstimate));
  }

  /** Sorting by a finer order is one of the orders that sorting by size may choose. */
  lemma FinerCopy(less: (ContextHandle, ContextHandle) -> bool, handles: seq<ContextHandle>) returns (sorted: seq<ContextHandle>)
    requires Sorting.StrictOrder(less) && forall a, b :: Cheaper(a, b) ==> less(a, b)
    ensures SortedCopy(sorted, handles) && Sorting.Sorted(less, sorted)
  {
    sorted := Sorting.Sort(less, handles);
    Sorting.SortSorted(less, handles);
    assert forall i, j :: 0 <= i < j < |sorted| ==> !less(sorted[j], sorted[i]);
  }

  ghost predicate Overruns(handles: seq<ContextHandle>, budget: int, result: seq<ContextHandle>) {
    Allocates(handles, budget, result) && PreloadedTotal(result) > budget
  }

  /** An unstable sort may lead to an overrun exactly when some required handle does not fit with all
      handles that are not larger. */
  lemma MayOverrun(handles: seq<ContextHandle>, budget: int)
    requires NonNegative(handles) && budget >= 0
    ensures (exists result :: Overruns(handles, budget, result)) <==> OverrunBy(handles, budget, UpTo)
  {
    if result :| Overruns(handles, budget, result) {
      var sorted: seq<ContextHandle> :| SortedCopy(sorted, handles) && result == Greedy(sorted, 0, budget);
      SortedCopyFacts(sorted, handles);
      OverrunExactly(sorted, 0, budget);
      ForcedBySome(sorted, handles, budget);
    }
    if OverrunBy(handles, budget, UpTo) {
      var sorted := FinerCopy(RequiredLast, handles);
      SortedCopyFacts(sorted, handles);
      ForcedWhenLast(sorted, handles, budget);
      OverrunExactly(sorted, 0, budget);
      assert Allocates(handles, budget, Greedy(sorted, 0, budget));
      assert Overruns(handles, budget, Greedy(sorted, 0, budget));
    }
  }

  /** Every order overruns exactly when some required handle does not fit with the smaller handles and
      the required ones of its own size. */
  lemma MustOverrun(handles: seq<ContextHandle>, budget: int)
    requires NonNegative(handles) && budget >= 0
    ensures (forall result :: Allocates(handles, budget, result) ==> Overruns(handles, budget, result))
      <==> OverrunBy(handles, budget, Ahead)
  {
    if OverrunBy(handles, budget, Ahead) {
      forall result | Allocates(handles, budget, result)
        ensures Overruns(handles, budget, result)
      {
        var sorted: seq<ContextHandle> :| SortedCopy(sorted, handles) && result == Greedy(sorted, 0, budget);
        SortedCopyFacts(sorted, handles);
        ForcedAlways(sorted, handles, budget);
        OverrunExactly(sorted, 0, budget);
      }
    }
    if forall result :: Allocates(handles, budget, result) ==> Overruns(handles, budget, result) {
      var sorted := FinerCopy(RequiredFirst, handles);
      SortedCopyFacts(sorted, handles);
      assert Allocates(handles, budget, Greedy(sorted, 0, budget));
      assert Overruns(handles, budget, Greedy(sorted, 0, budget));
      OverrunExactly(sorted, 0, budget);
      ForcedByAll(sorted, handles, budget);
    }
  }

  /** An optional handle of 5 takes the budget of 10 from a required one of 6 that would fit alone. */
  lemma OptionalCrowdsOut()
    ensures
      var optional, required := ContextHandle("a", 5, DemandLoad), ContextHandle("b", 6, Required);
      && (forall result :: Allocates([optional, required], 10, result) ==> Overruns([optional, required], 10, result))
      && !exists result :: Overruns([required], 10, result)
  {
    var optional, required := ContextHandle("a", 5, DemandLoad), ContextHandle("b", 6, Required);
    var both := [optional, required];
    assert TotalOf(both[1..], Ahead(6)) == 6;
    assert required in both && TotalOf(both, Ahead(6)) == 11;
    MustOverrun(both, 10);
    assert TotalOf([required], UpTo(6)) == 6;
    MayOverrun([required], 10);
  }

  /** With an optional and a required handle of 5 and a budget of 5, the order of the two decides. */
  lemma TiesDecide()
    ensures
      var tied := [ContextHandle("a", 5, DemandLoad), ContextHandle("b", 5, Required)];
      && (exists result :: Overruns(tied, 5, result))
      && !(forall result :: Allocates(tied, 5, result) ==> Overruns(tied, 5, result))
  {
    var tied := [ContextHandle("a", 5, DemandLoad), ContextHandle("b", 5, Required)];
    assert TotalOf(tied[1..], UpTo(5)) == 5 && TotalOf(tied[1..], Ahead(5)) == 5;
    assert tied[1] in tied && TotalOf(tied, UpTo(5)) == 10 && TotalOf(tied, Ahead(5)) == 5;
    MayOverrun(tied, 5);
    MustOverrun(tied, 5);
  }
}
