/** Run leases (internal/runtime/governance/lease.go over the lease table of
    internal/infrastructure/persistence/sqlite/adapters/permission_governance_store.go).
    Time is counted in whole seconds, as the stored timestamps are. */
module Lease {
  import opened Wrappers

  type LeaseId = string

  datatype Lease = Lease(resource: string, holder: string, acquiredAt: int, expiresAt: int, releasedAt: Option<int>)

  type Table = map<LeaseId, Lease>

  datatype Error = Conflict(holder: string) | NotFound

  datatype Op =
    | Acquire(resource: string, activity: string, ttl: int, newId: LeaseId)
    | Release(id: LeaseId)
    | Renew(id: LeaseId, ttl: int)

  predicate Active(l: Lease, now: int) {
    l.releasedAt.None? && l.expiresAt > now
  }

  predicate Holds(t: Table, id: LeaseId, resource: string, now: int) {
    id in t && t[id].resource == resource && Active(t[id], now)
  }

  /** No resource has two leases that are neither released nor expired. */
  ghost predicate Exclusive(t: Table, now: int) {
    forall a, b, r :: Holds(t, a, r, now) && Holds(t, b, r, now) ==> a == b
  }

  function Renewed(t: Table, id: LeaseId, expiresAt: int): Table
    requires id in t
  {
    t[id := t[id].(expiresAt := expiresAt)]
  }

  function Released(t: Table, id: LeaseId, now: int): Table
    requires id in t
  {
    t[id := t[id].(releasedAt := Some(now), expiresAt := now)]
  }

  /** The most recently acquired active lease of a resource. */
  ghost predicate Newest(t: Table, id: LeaseId, resource: string, now: int) {
    Holds(t, id, resource, now) && forall other :: Holds(t, other, resource, now) ==> t[other].acquiredAt <= t[id].acquiredAt
  }

  ghost predicate AcquireStep(t: Table, now: int, op: Op, result: Result<LeaseId, Error>, t': Table)
    requires op.Acquire?
  {
    match result
    case Err(Conflict(holder)) =>
      t' == t && exists id :: Newest(t, id, op.resource, now) && t[id].holder == holder && holder != op.activity
    case Err(NotFound) => false
    case Ok(id) =>
      || (Newest(t, id, op.resource, now) && t[id].holder == op.activity && t' == Renewed(t, id, now + op.ttl))
      || (id == op.newId && (forall other :: !Holds(t, other, op.resource, now))
          && t' == t[id := Lease(op.resource, op.activity, now, now + op.ttl, None)])
  }

  ghost predicate Step(t: Table, now: int, op: Op, t': Table) {
    match op
    case Acquire(_, _, _, _) => exists result :: AcquireStep(t, now, op, result, t')
    case Release(id) => t' == if id in t then Released(t, id, now) else t
    case Renew(id, ttl) => t' == if id in t then Renewed(t, id, now + ttl) else t
  }

  class LocalLeaseManager {
    var leases: Table

    constructor ()
      ensures leases == map[]
    {
      leases := map[];
    }

    /** The lease query: unreleased, unexpired, newest first. */
    method GetActiveLeaseByResource(resource: string, now: int) returns (found: Option<LeaseId>)
      ensures found.None? ==> forall id :: !Holds(leases, id, resource, now)
      ensures found.Some? ==> Newest(leases, found.value, resource, now)
    {
      found := None;
      var todo := leases.Keys;
      while todo != {}
        invariant todo <= leases.Keys
        invariant found.None? ==> forall id :: Holds(leases, id, resource, now) ==> id in todo
        invariant found.Some? ==> Holds(leases, found.value, resource, now)
        invariant found.Some? ==> forall id :: Holds(leases, id, resource, now) && id !in todo ==>
          leases[id].acquiredAt <= leases[found.value].acquiredAt
      {
        var id :| id in todo;
        todo := todo - {id};
        if Holds(leases, id, resource, now)
          && (found.None? || leases[id].acquiredAt > leases[found.value].acquiredAt)
        {
          found := Some(id);
        }
      }
    }

    method Acquire(resource: string, activityId: string, ttl: int, now: int, newId: LeaseId)
      returns (result: Result<LeaseId, Error>)
      modifies this
      ensures AcquireStep(old(leases), now, Op.Acquire(resource, activityId, ttl, newId), result, leases)
    {
      var activeLease := GetActiveLeaseByResource(resource, now);
      if activeLease.Some? {
        var held := leases[activeLease.value];
        if held.holder != activityId {
          return Err(Conflict(held.holder));
        }
        leases := Renewed(leases, activeLease.value, now + ttl);
        return Ok(activeLease.value);
      }
      leases := leases[newId := Lease(resource, activityId, now, now + ttl, None)];
      return Ok(newId);
    }

    method Release(leaseId: LeaseId, now: int) returns (result: Result<(), Error>)
      modifies this
      ensures Step(old(leases), now, Op.Release(leaseId), leases)
      ensures result.Ok? <==> leaseId in old(leases)
    {
      if leaseId !in leases {
        return Err(NotFound);
      }
      leases := Released(leases, leaseId, now);
      return Ok(());
    }

    /** Extends a lease, even one that has expired or has been released. */
    method Renew(leaseId: LeaseId, ttl: int, now: int) returns (result: Result<(), Error>)
      modifies this
      ensures Step(old(leases), now, Op.Renew(leaseId, ttl), leases)
      ensures result.Ok? <==> leaseId in old(leases)
    {
      if leaseId !in leases {
        return Err(NotFound);
      }
      leases := Renewed(leases, leaseId, now + ttl);
      return Ok(());
    }
  }

  /** Exactly when a renewal keeps a resource exclusive: the lease was released or is still
      running, the extension is empty, or nobody else holds the resource. */
  lemma RenewExclusive(t: Table, id: LeaseId, ttl: int, now: int)
    requires id in t && Exclusive(t, now)
    ensures Exclusive(Renewed(t, id, now + ttl), now) <==>
      || t[id].releasedAt.Some? || Active(t[id], now) || ttl <= 0
      || forall other :: other != id ==> !Holds(t, other, t[id].resource, now)
  {
    var t', r := Renewed(t, id, now + ttl), t[id].resource;
    assert forall other, q :: other != id ==> (Holds(t', other, q, now) <==> Holds(t, other, q, now));
    if Exclusive(t', now) && t[id].releasedAt.None? && ttl > 0 {
      assert Holds(t', id, r, now);
    }
    if Active(t[id], now) {
      assert Holds(t, id, r, now);
    }
  }

  /** Renewing an expired lease after the resource was acquired anew leaves two holders. */
  lemma RenewRevives()
    ensures
      var t: Table := map["a" := Lease("run:1", "x", 0, 5, None), "b" := Lease("run:1", "y", 6, 11, None)];
      Exclusive(t, 7) && !Exclusive(Renewed(t, "a", 7 + 5), 7)
  {
    var t: Table := map["a" := Lease("run:1", "x", 0, 5, None), "b" := Lease("run:1", "y", 6, 11, None)];
    assert forall id :: id in t ==> id == "a" || id == "b";
    assert !Active(t["a"], 7);
    RenewExclusive(t, "a", 5, 7);
    assert Holds(t, "b", "run:1", 7);
  }

  /****** What the operations are for ******/

  /** No operation on a lease touches another. */
  ghost predicate OthersSame(t: Table, t': Table, id: LeaseId) {
    forall other :: other != id ==> (other in t' <==> other in t) && (other in t ==> t'[other] == t[other])
  }

  /** A released lease holds nothing from then on, however often it is renewed. */
  lemma ReleaseFrees(t: Table, id: LeaseId, now: int, t': Table)
    requires id in t && Step(t, now, Release(id), t')
    ensures OthersSame(t, t', id) && id in t' && t'[id].resource == t[id].resource && t'[id].holder == t[id].holder
    ensures forall resource, later :: later >= now ==> !Holds(t', id, resource, later)
    ensures t'[id].releasedAt == Some(now)
  {
  }

  lemma RenewKeepsReleased(t: Table, id: LeaseId, ttl: int, now: int, t': Table)
    requires id in t && Step(t, now, Renew(id, ttl), t')
    ensures t'[id].releasedAt == t[id].releasedAt && OthersSame(t, t', id)
    ensures t[id].releasedAt.Some? ==> forall resource, later :: !Holds(t', id, resource, later)
  {
  }

  /** A renewed lease that was not released holds its resource up to the end of the extension, and not longer. */
  lemma RenewExtends(t: Table, id: LeaseId, ttl: int, now: int, t': Table)
    requires id in t && t[id].releasedAt.None? && Step(t, now, Renew(id, ttl), t')
    ensures forall resource, later :: Holds(t', id, resource, later) <==> resource == t[id].resource && later < now + ttl
  {
  }

  /** What acquiring a resource comes to, in an exclusive table: a conflict with the other activity that holds
      it, an extension of one's own lease, or a lease of the new id where nobody holds it; a lease that is
      won holds up to the end of its time. */
  lemma AcquireExactly(t: Table, now: int, op: Op, result: Result<LeaseId, Error>, t': Table)
    requires op.Acquire? && op.newId !in t && Exclusive(t, now) && AcquireStep(t, now, op, result, t')
    ensures
      if exists id :: Holds(t, id, op.resource, now) then
        var id :| Holds(t, id, op.resource, now);
        if t[id].holder == op.activity then result == Ok(id) else result == Err(Conflict(t[id].holder)) && t' == t
      else result == Ok(op.newId)
    ensures result.Ok? ==>
      && OthersSame(t, t', result.value) && result.value in t' && t'[result.value].holder == op.activity
      && forall resource, later :: Holds(t', result.value, resource, later) <==> resource == op.resource && later < now + op.ttl
  {
  }

  /** Release hands a resource over: whoever held it alone and releases it, the next to acquire it wins a new
      lease, at that time or later. */
  lemma ReleaseHandsOver(t: Table, id: LeaseId, now: int, t': Table, later: int, op: Op, result: Result<LeaseId, Error>, t'': Table)
    requires op.Acquire? && Exclusive(t, now) && Holds(t, id, op.resource, now) && Step(t, now, Release(id), t')
    requires now <= later && op.newId !in t' && AcquireStep(t', later, op, result, t'')
    ensures result == Ok(op.newId)
  {
    ReleaseFrees(t, id, now, t');
    forall other
      ensures !Holds(t', other, op.resource, later)
    {
      assert other != id && Holds(t', other, op.resource, later) ==> Holds(t, other, op.resource, now);
    }
  }

  /** The uses a caller is held to: new ids are unused, and a lease is renewed only while it runs
      or once it has been released. */
  predicate Disciplined(t: Table, now: int, op: Op) {
    match op
    case Acquire(_, _, _, newId) => newId !in t
    case Release(_) => true
    case Renew(id, _) => id in t ==> t[id].releasedAt.Some? || Active(t[id], now)
  }

  lemma ExclusiveLater(t: Table, now: int, later: int)
    requires Exclusive(t, now) && now <= later
    ensures Exclusive(t, later)
  {
    assert forall id, r :: Holds(t, id, r, later) ==> Holds(t, id, r, now);
  }

  lemma StepExclusive(t: Table, now: int, op: Op, t': Table)
    requires Exclusive(t, now) && Disciplined(t, now, op) && Step(t, now, op, t')
    ensures Exclusive(t', now)
  {
    match op
    case Acquire(resource, activity, ttl, newId) =>
      var result :| AcquireStep(t, now, op, result, t');
      if result.Ok? && Newest(t, result.value, resource, now) {
        RenewExclusive(t, result.value, ttl, now);
      } else if result.Ok? {
        assert forall other, r :: other != newId ==> (Holds(t', other, r, now) <==> Holds(t, other, r, now));
      }
    case Release(id) =>
      assert forall other, r :: Holds(t', other, r, now) ==> Holds(t, other, r, now);
    case Renew(id, ttl) =>
      if id in t {
        RenewExclusive(t, id, ttl, now);
      }
  }

  /** A trace: tables[k + 1] results from ops[k] at times[k]. */
  ghost predicate Trace(tables: seq<Table>, ops: seq<Op>, times: seq<int>) {
    && |tables| == |ops| + 1 == |times| + 1
    && tables[0] == map[]
    && (forall k :: 0 < k < |times| ==> times[k - 1] <= times[k])
    && (forall k :: 0 <= k < |ops| ==> Step(tables[k], times[k], ops[k], tables[k + 1]))
    && (forall k :: 0 <= k < |ops| ==> Disciplined(tables[k], times[k], ops[k]))
  }

  /** Mutual exclusion over every trace: after any number of operations, from the time of the last
      one on, no resource has two running leases. */
  lemma {:induction false} MutualExclusion(tables: seq<Table>, ops: seq<Op>, times: seq<int>, k: nat, now: int)
    requires Trace(tables, ops, times) && k <= |ops|
    requires k > 0 ==> times[k - 1] <= now
    ensures Exclusive(tables[k], now)
  {
    if k > 0 {
      MutualExclusion(tables, ops, times, k - 1, times[k - 1]);
      StepExclusive(tables[k - 1], times[k - 1], ops[k - 1], tables[k]);
      ExclusiveLater(tables[k], times[k - 1], now);
    }
  }
}
