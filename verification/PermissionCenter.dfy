/** The permission center: checks, resolutions and the grants and records they leave behind
    (pkg/rtagent/permission_center.go, permission_center_store.go, permission_center_grants.go). */
module PermissionCenter {
  import opened Types
  import opened Wrappers
  import opened Permission
  import Text

  datatype PermissionError = RunNotFound | SessionRequired | SessionNotAccepting | ApprovalNotFound

  datatype Verdict = Allowed(decision: Decision, grant: Grant) | Denied | RequiresApproval(approval: ApprovalId)

  datatype Record = Record(
    runId: string, scope: Scope, action: Action, capability: string, toolTarget: string, resource: string,
    granted: bool, continuation: Option<Continuation>)

  /** What the center consults but does not own: the stored runs and the session statuses. */
  datatype World = World(runs: set<string>, sessions: map<string, SessionStatus>)

  datatype Center = Center(grants: set<Grant>, records: map<ApprovalId, Record>)

  /** An approval that the model itself asks for. */
  datatype ApprovalAsk = ApprovalAsk(id: string, boundaryId: string, description: string)

  /****** Guards ******/

  predicate RunExists(w: World, runId: string) {
    !Text.Blank(runId) && Text.Trim(runId) in w.runs
  }

  /** Why a session does not accept work; an unknown session does. */
  function SessionRefusal(w: World, sessionId: string): Option<PermissionError> {
    var id := Text.Trim(sessionId);
    if id == "" then Some(SessionRequired)
    else if id in w.sessions && w.sessions[id] != Active then Some(SessionNotAccepting)
    else None
  }

  /** Why a check is refused before it is looked at. Read-only actions pass a closed session. */
  function CheckRefusal(w: World, c: Check): Option<PermissionError> {
    var scope := c.subject.scope;
    if (!Text.Blank(scope.runId) || !c.readOnly) && !RunExists(w, scope.runId) then Some(RunNotFound)
    else if c.readOnly || Text.Blank(scope.sessionId) then None
    else SessionRefusal(w, scope.sessionId)
  }

  /****** Specification of the operations ******/

  const CANDIDATES := [AllowOnce, AllowForRun, AllowForSession, AllowAllForRun, AllowAllForSession]

  function MatchFrom(grants: set<Grant>, c: Subject, i: nat): (m: Option<Decision>)
    requires i <= |CANDIDATES|
    decreases |CANDIDATES| - i
  {
    if i == |CANDIDATES| then None
    else if GrantFor(c, CANDIDATES[i]) in grants then Some(CANDIDATES[i])
    else MatchFrom(grants, c, i + 1)
  }

  function Match(grants: set<Grant>, c: Subject): Option<Decision> {
    MatchFrom(grants, c, 0)
  }

  /** The grant that the permission mode issues without asking anyone. */
  function ModeGrant(c: Check): Option<Decision> {
    if c.subject.scope.mode == YOLO then Some(AllowAllForRun)
    else if !c.readOnly && c.subject.scope.mode == ACCEPT_EDITS && c.workspaceWrite then Some(AllowForRun)
    else None
  }

  function RecordOf(c: Subject): Record {
    var grant := GrantFor(c, AllowOnce);
    Record(c.scope.runId, c.scope, c.action, grant.capability, grant.toolTarget, grant.resource, false, None)
  }

  function Noted(c: Subject, kind: EventKind): seq<EventKind> {
    if Text.Blank(c.scope.runId) then [] else [kind]
  }

  function CheckSpec(s: Center, w: World, c: Check): (r: (Center, Result<Verdict, PermissionError>, seq<EventKind>)) {
    var refusal, found, mode := CheckRefusal(w, c), Match(s.grants, c.subject), ModeGrant(c);
    if refusal.Some? then (s, Err(refusal.value), [])
    else if found.Some? then
      (s, Ok(Allowed(found.value, GrantFor(c.subject, found.value))), Noted(c.subject, PermissionGranted))
    else if mode.Some? then
      var grant := GrantFor(c.subject, mode.value);
      (s.(grants := s.grants + {grant}), Ok(Allowed(mode.value, grant)), Noted(c.subject, PermissionGranted))
    else if c.readOnly then
      (s, Ok(Allowed(AllowOnce, GrantFor(c.subject, AllowOnce))), Noted(c.subject, PermissionGranted))
    else if c.dangerousCommand then (s, Ok(Denied), Noted(c.subject, PermissionDenied))
    else
      var approval := ApprovalFor(c.subject);
      (s.(records := s.records[approval := RecordOf(c.subject)]), Ok(RequiresApproval(approval)),
       Noted(c.subject, PermissionRequested))
  }

  /** The scope a record is resolved in. */
  function ResolveScope(r: Record, override: Scope): Scope {
    var stored := if Text.Blank(r.scope.runId) then r.scope.(runId := Text.Trim(r.runId)) else r.scope;
    if override.runId != "" then MergeScope(stored, override) else stored
  }

  /** What a record stands for: its scope and action, normalised anew, with the capability, target
      and resource that were decided when it was made. */
  function StoredSubject(r: Record, override: Scope): Subject {
    Subject(NormalScope(ResolveScope(r, override)), NormalAction(r.action, None), r.capability, r.toolTarget, r.resource)
  }

  function ResolveRefusal(s: Center, w: World, approval: ApprovalId, d: Decision, override: Scope): Option<PermissionError> {
    if approval !in s.records then Some(ApprovalNotFound) else
      var scope := ResolveScope(s.records[approval], override);
      if !RunExists(w, scope.runId) then Some(RunNotFound)
      else if d == Deny then None
      else SessionRefusal(w, scope.sessionId)
  }

  function ResolveSpec(s: Center, w: World, approval: ApprovalId, d: Decision, override: Scope)
    : (r: (Center, Result<Option<Grant>, PermissionError>, seq<EventKind>))
  {
    var refusal := ResolveRefusal(s, w, approval, d, override);
    if refusal.Some? then (s, Err(refusal.value), []) else
      var rec := s.records[approval];
      var c := StoredSubject(rec, override);
      var records := s.records[approval := rec.(granted := d != Deny)];
      if d == Deny then (s.(records := records), Ok(None), Noted(c, PermissionDenied))
      else
        (Center(s.grants + {GrantFor(c, d)}, records), Ok(Some(GrantFor(c, d))), Noted(c, PermissionGranted))
  }

  function ContinuationSpec(s: Center, approval: ApprovalId, k: Continuation): Center {
    if approval !in s.records then s
    else s.(records := s.records[approval := s.records[approval].(continuation := Some(k))])
  }

  function AskId(ask: ApprovalAsk, scope: Scope): string {
    if ask.id == "" then "approval:" + scope.runId else ask.id
  }

  function AskSubject(ask: ApprovalAsk, scope: Scope): Subject {
    var id := AskId(ask, scope);
    NormalizeCheck(Request(scope,
      Action(Named(Text.FirstNonEmpty([ask.boundaryId, id])), MODEL_APPROVAL,
        Text.FirstNonEmpty([ask.boundaryId, id, ask.description]), Some(id)),
      None, None)).subject
  }

  function AskSpec(s: Center, id: string, runId: string, subject: Subject, k: Continuation): Center {
    s.(records := s.records[ForModel(id) := RecordOf(subject).(runId := runId, continuation := Some(k))])
  }

  /****** The center ******/

  class PermissionCenter {
    var grants: set<Grant>
    var records: map<ApprovalId, Record>

    function View(): Center
      reads this
    {
      Center(grants, records)
    }

    constructor ()
      ensures View() == Center({}, map[])
    {
      grants, records := {}, map[];
    }

    /** Builds the five candidate grants of a check and looks them up in order. */
    method FindPermissionGrant(check: Subject) returns (found: Option<Decision>)
      ensures found == Match(grants, check)
    {
      for i := 0 to |CANDIDATES|
        invariant Match(grants, check) == MatchFrom(grants, check, i)
      {
        if GrantFor(check, CANDIDATES[i]) in grants {
          return Some(CANDIDATES[i]);
        }
      }
      return None;
    }

    method CheckPermission(world: World, req: Request) returns (result: Result<Verdict, PermissionError>, events: seq<EventKind>)
      modifies this
      ensures (View(), result, events) == CheckSpec(old(View()), world, NormalizeCheck(req))
    {
      var check := NormalizePermissionCheck(req);
      result, events := Decide(world, check);
    }

    method Decide(world: World, check: Check) returns (result: Result<Verdict, PermissionError>, events: seq<EventKind>)
      modifies this
      ensures (View(), result, events) == CheckSpec(old(View()), world, check)
    {
      var subject := check.subject;
      var refusal := CheckRefusal(world, check);
      if refusal.Some? {
        return Err(refusal.value), [];
      }
      var found := FindPermissionGrant(subject);
      if found.Some? {
        return Ok(Allowed(found.value, GrantFor(subject, found.value))), Noted(subject, PermissionGranted);
      }
      if subject.scope.mode == YOLO {
        grants := grants + {GrantFor(subject, AllowAllForRun)};
        return Ok(Allowed(AllowAllForRun, GrantFor(subject, AllowAllForRun))), Noted(subject, PermissionGranted);
      }
      if check.readOnly {
        return Ok(Allowed(AllowOnce, GrantFor(subject, AllowOnce))), Noted(subject, PermissionGranted);
      }
      if subject.scope.mode == ACCEPT_EDITS && check.workspaceWrite {
        grants := grants + {GrantFor(subject, AllowForRun)};
        return Ok(Allowed(AllowForRun, GrantFor(subject, AllowForRun))), Noted(subject, PermissionGranted);
      }
      if check.dangerousCommand {
        return Ok(Denied), Noted(subject, PermissionDenied);
      }
      records := records[ApprovalFor(subject) := RecordOf(subject)];
      return Ok(RequiresApproval(ApprovalFor(subject))), Noted(subject, PermissionRequested);
    }

    method ResolvePermission(world: World, approval: ApprovalId, decision: string, override: Scope)
      returns (result: Result<Option<Grant>, PermissionError>, events: seq<EventKind>)
      modifies this
      ensures (View(), result, events) == ResolveSpec(old(View()), world, approval, NormalizeDecision(decision), override)
    {
      result, events := Settle(world, approval, NormalizeDecision(decision), override);
    }

    method Settle(world: World, approval: ApprovalId, normalized: Decision, override: Scope)
      returns (result: Result<Option<Grant>, PermissionError>, events: seq<EventKind>)
      modifies this
      ensures (View(), result, events) == ResolveSpec(old(View()), world, approval, normalized, override)
    {
      events := [];
      if approval !in records {
        return Err(ApprovalNotFound), events;
      }
      var rec := records[approval];
      var scope := ResolveScope(rec, override);
      if !RunExists(world, scope.runId) {
        return Err(RunNotFound), events;
      }
      var check := StoredSubject(rec, override);
      if normalized != Deny {
        var refusal := SessionRefusal(world, scope.sessionId);
        if refusal.Some? {
          return Err(refusal.value), events;
        }
      }
      records := records[approval := rec.(granted := normalized != Deny)];
      if normalized == Deny {
        return Ok(None), Noted(check, PermissionDenied);
      }
      grants := grants + {GrantFor(check, normalized)};
      return Ok(Some(GrantFor(check, normalized))), Noted(check, PermissionGranted);
    }

    method StorePermissionApprovalContinuation(approval: ApprovalId, continuation: Continuation) returns (found: bool)
      modifies this`records
      ensures View() == ContinuationSpec(old(View()), approval, continuation)
      ensures found <==> approval in old(records)
    {
      if approval !in records {
        return false;
      }
      records := records[approval := records[approval].(continuation := Some(continuation))];
      return true;
    }

    method StoreModelApproval(id: string, runId: string, subject: Subject, continuation: Continuation)
      modifies this`records
      ensures View() == AskSpec(old(View()), id, runId, subject, continuation)
    {
      records := records[ForModel(id) := RecordOf(subject).(runId := runId, continuation := Some(continuation))];
    }
  }

  /****** Traces ******/

  /** The world may change in any way between operations. */
  datatype Op =
    | CheckOp(world: World, check: Check)
    | ResolveOp(world: World, approval: ApprovalId, decision: Decision, override: Scope)
    | ContinueOp(approval: ApprovalId, continuation: Continuation)
    | AskOp(id: string, runId: string, subject: Subject, continuation: Continuation)

  function Apply(s: Center, op: Op): Center {
    match op
    case CheckOp(world, check) => CheckSpec(s, world, check).0
    case ResolveOp(world, approval, decision, override) => ResolveSpec(s, world, approval, decision, override).0
    case ContinueOp(approval, continuation) => ContinuationSpec(s, approval, continuation)
    case AskOp(id, runId, subject, continuation) => AskSpec(s, id, runId, subject, continuation)
  }

  function Execute(ops: seq<Op>): Center {
    if ops == [] then Center({}, map[]) else Apply(Execute(ops[..|ops| - 1]), ops[|ops| - 1])
  }

  /** The subject and decision an operation issues a grant for, if any: a resolution that allows, or
      a check that its permission mode allows for the first time. */
  function Issued(s: Center, op: Op): Option<(Subject, Decision)> {
    match op
    case ResolveOp(world, approval, decision, override) =>
      if decision != Deny && ResolveRefusal(s, world, approval, decision, override).None?
      then Some((StoredSubject(s.records[approval], override), decision)) else None
    case CheckOp(world, c) =>
      if CheckRefusal(world, c).None? && Match(s.grants, c.subject).None? && ModeGrant(c).Some?
      then Some((c.subject, ModeGrant(c).value)) else None
    case _ => None
  }

  predicate IssueCovers(s: Center, op: Op, c: Subject) {
    Issued(s, op).Some? && Covers(Issued(s, op).value.1, Issued(s, op).value.0, c)
  }

  /** Some operation of the trace issued a decision that covers the subject. */
  predicate Covered(ops: seq<Op>, c: Subject) {
    ops != [] && (Covered(ops[..|ops| - 1], c) || IssueCovers(Execute(ops[..|ops| - 1]), ops[|ops| - 1], c))
  }

  /** A check that is let through on its nature or its mode alone. */
  predicate FreelyAllowed(c: Check) {
    c.readOnly || ModeGrant(c).Some?
  }

  /** An operation adds exactly the grant it issues; grants are never taken back. */
  lemma StepGrants(s: Center, op: Op)
    ensures Apply(s, op).grants == s.grants +
      (if Issued(s, op).Some? then {GrantFor(Issued(s, op).value.0, Issued(s, op).value.1)} else {})
  {
  }

  lemma {:induction false} MatchIs(grants: set<Grant>, c: Subject, i: nat)
    requires i <= |CANDIDATES|
    ensures MatchFrom(grants, c, i).Some? <==> exists k :: i <= k < |CANDIDATES| && GrantFor(c, CANDIDATES[k]) in grants
    decreases |CANDIDATES| - i
  {
    if i < |CANDIDATES| {
      MatchIs(grants, c, i + 1);
    }
  }

  lemma EveryDecisionIsACandidate(d: Decision)
    ensures d != Deny <==> exists k :: 0 <= k < |CANDIDATES| && CANDIDATES[k] == d
  {
    assert CANDIDATES[0] == AllowOnce && CANDIDATES[1] == AllowForRun && CANDIDATES[2] == AllowForSession
      && CANDIDATES[3] == AllowAllForRun && CANDIDATES[4] == AllowAllForSession;
  }

  lemma IssuedAllows(s: Center, op: Op)
    ensures Issued(s, op).Some? ==> Issued(s, op).value.1 != Deny
  {
  }

  lemma MatchAfterIssue(grants: set<Grant>, c: Subject, issuer: Subject, d: Decision)
    requires d != Deny
    ensures Match(grants + {GrantFor(issuer, d)}, c).Some? <==> Match(grants, c).Some? || Covers(d, issuer, c)
  {
    var grants' := grants + {GrantFor(issuer, d)};
    MatchIs(grants, c, 0);
    MatchIs(grants', c, 0);
    forall k | 0 <= k < |CANDIDATES|
      ensures GrantFor(c, CANDIDATES[k]) in grants' <==>
        GrantFor(c, CANDIDATES[k]) in grants || (CANDIDATES[k] == d && Covers(d, issuer, c))
    {
      EveryDecisionIsACandidate(CANDIDATES[k]);
      GrantIdentity(issuer, d, c, CANDIDATES[k]);
    }
    EveryDecisionIsACandidate(d);
  }

  lemma MatchAfterStep(s: Center, op: Op, c: Subject)
    ensures Match(Apply(s, op).grants, c).Some? <==> Match(s.grants, c).Some? || IssueCovers(s, op, c)
  {
    StepGrants(s, op);
    IssuedAllows(s, op);
    if Issued(s, op).Some? {
      MatchAfterIssue(s.grants, c, Issued(s, op).value.0, Issued(s, op).value.1);
    }
  }

  /** A check finds a grant exactly when an earlier decision covers it. */
  lemma {:induction false} MatchIsCovered(ops: seq<Op>, c: Subject)
    ensures Match(Execute(ops).grants, c).Some? <==> Covered(ops, c)
  {
    if ops == [] {
      MatchIs({}, c, 0);
    } else {
      MatchIsCovered(ops[..|ops| - 1], c);
      MatchAfterStep(Execute(ops[..|ops| - 1]), ops[|ops| - 1], c);
    }
  }

  /** Coverage is exact: after any trace, a check that is not refused is allowed if and only if it is
      read-only, its mode allows it, or some earlier decision covers it. */
  lemma CoverageExact(ops: seq<Op>, world: World, c: Check)
    ensures
      var result := CheckSpec(Execute(ops), world, c).1;
      && (result.Err? <==> CheckRefusal(world, c).Some?)
      && (result.Ok? ==> (result.value.Allowed? <==> FreelyAllowed(c) || Covered(ops, c.subject)))
      && (result.Ok? ==> (result.value.Denied? <==> !FreelyAllowed(c) && !Covered(ops, c.subject) && c.dangerousCommand))
  {
    MatchIsCovered(ops, c.subject);
  }

  /** A check whose mode issues grants of its own accord. */
  predicate ModeIssues(op: Op) {
    op.CheckOp? && ModeGrant(op.check).Some?
  }

  /** The resolution goes through and its decision covers the subject. */
  predicate ResolutionCovers(s: Center, op: Op, c: Subject) {
    && op.ResolveOp?
    && ResolveRefusal(s, op.world, op.approval, op.decision, op.override).None?
    && Covers(op.decision, StoredSubject(s.records[op.approval], op.override), c)
  }

  predicate CoveredByResolution(ops: seq<Op>, c: Subject) {
    ops != [] &&
      (CoveredByResolution(ops[..|ops| - 1], c) || ResolutionCovers(Execute(ops[..|ops| - 1]), ops[|ops| - 1], c))
  }

  lemma {:induction false} OnlyResolutionsCover(ops: seq<Op>, c: Subject)
    requires forall k :: 0 <= k < |ops| ==> !ModeIssues(ops[k])
    ensures Covered(ops, c) <==> CoveredByResolution(ops, c)
  {
    if ops != [] {
      OnlyResolutionsCover(ops[..|ops| - 1], c);
      assert !ModeIssues(ops[|ops| - 1]);
    }
  }

  /** Where no check comes with a mode that issues grants, a check that is not read-only is allowed
      if and only if an earlier resolution that allows covers it, relative to the stored subject. */
  lemma CoverageByResolution(ops: seq<Op>, world: World, c: Check)
    requires forall k :: 0 <= k < |ops| ==> !ModeIssues(ops[k])
    requires !FreelyAllowed(c) && CheckRefusal(world, c).None?
    ensures CheckSpec(Execute(ops), world, c).1.value.Allowed? <==> CoveredByResolution(ops, c.subject)
  {
    CoverageExact(ops, world, c);
    OnlyResolutionsCover(ops, c.subject);
  }

  /****** The round trip of an approval ******/

  const NO_OVERRIDE := Scope("", "", "", "", "", "", "")

  /** The record of a check stands for its subject, whatever rewrote the capability. */
  lemma StoredSubjectIs(c: Subject)
    requires Normalised(c) && !Text.Blank(c.scope.runId)
    ensures StoredSubject(RecordOf(c), NO_OVERRIDE) == c.(capability := CapabilityKey(c.capability))
  {
  }

  /** Agreement on the fields that an approval id leaves out. */
  predicate SameUnlisted(d: Decision, stored: Subject, c: Subject) {
    stored.scope.ownerId == c.scope.ownerId
    && (d == AllowForSession || d == AllowAllForSession
        || (stored.scope.rootRunId == c.scope.rootRunId && stored.scope.taskId == c.scope.taskId))
  }

  lemma CoversByApproval(d: Decision, stored: Subject, c: Subject)
    requires d != Deny && ApprovalFor(stored) == ApprovalFor(c)
    ensures Covers(d, stored.(capability := CapabilityKey(stored.capability)), c) <==> SameUnlisted(d, stored, c)
  {
  }

  /** The approval that one check asked for and another recorded last: allowing it lets the first
      check through exactly when the two agree on what the approval id leaves out. */
  lemma ApprovalRoundTripExact(s: Center, c: Check, recorded: Subject, world: World, d: Decision, later: World)
    requires Normalised(recorded) && !Text.Blank(c.subject.scope.runId) && ApprovalFor(recorded) == ApprovalFor(c.subject)
    requires ApprovalFor(recorded) in s.records
      && s.records[ApprovalFor(recorded)].(granted := false, continuation := None) == RecordOf(recorded)
    requires !FreelyAllowed(c) && Match(s.grants, c.subject).None? && CheckRefusal(later, c).None?
    requires d != Deny && ResolveRefusal(s, world, ApprovalFor(c.subject), d, NO_OVERRIDE).None?
    ensures
      var s' := ResolveSpec(s, world, ApprovalFor(c.subject), d, NO_OVERRIDE).0;
      CheckSpec(s', later, c).1.value.Allowed? <==> SameUnlisted(d, recorded, c.subject)
  {
    var kept := StoredSubject(s.records[ApprovalFor(recorded)], NO_OVERRIDE);
    assert kept == StoredSubject(RecordOf(recorded), NO_OVERRIDE);
    StoredSubjectIs(recorded);
    CoversByApproval(d, recorded, c.subject);
    MatchAfterIssue(s.grants, c.subject, kept, d);
  }

  /** Approval round trip: once a request asks for approval, any decision that allows it makes the
      same request pass. */
  lemma ApprovalRoundTrip(s: Center, asked: World, req: Request, world: World, d: Decision, later: World)
    requires
      var c := NormalizeCheck(req);
      && CheckSpec(s, asked, c).1.Ok? && CheckSpec(s, asked, c).1.value.RequiresApproval?
      && d != Deny && RunExists(world, c.subject.scope.runId) && SessionRefusal(world, c.subject.scope.sessionId).None?
      && CheckRefusal(later, c).None?
    ensures
      var c := NormalizeCheck(req);
      var s1 := CheckSpec(s, asked, c).0;
      var resolved := ResolveSpec(s1, world, CheckSpec(s, asked, c).1.value.approval, d, NO_OVERRIDE);
      resolved.1.Ok? && CheckSpec(resolved.0, later, c).1.value.Allowed?
  {
    NormalizeIdempotent(req);
    RoundTrip(s, asked, NormalizeCheck(req), world, d, later);
  }

  lemma RoundTrip(s: Center, asked: World, c: Check, world: World, d: Decision, later: World)
    requires Normalised(c.subject)
    requires CheckSpec(s, asked, c).1.Ok? && CheckSpec(s, asked, c).1.value.RequiresApproval?
    requires d != Deny && RunExists(world, c.subject.scope.runId) && SessionRefusal(world, c.subject.scope.sessionId).None?
    requires CheckRefusal(later, c).None?
    ensures
      var s1 := CheckSpec(s, asked, c).0;
      var resolved := ResolveSpec(s1, world, CheckSpec(s, asked, c).1.value.approval, d, NO_OVERRIDE);
      resolved.1.Ok? && CheckSpec(resolved.0, later, c).1.value.Allowed?
  {
    assert RunExists(asked, c.subject.scope.runId);
    assert ResolveScope(RecordOf(c.subject), NO_OVERRIDE) == c.subject.scope;
    ApprovalRoundTripExact(CheckSpec(s, asked, c).0, c, c.subject, world, d, later);
  }

  function ExecuteFrom(s: Center, ops: seq<Op>): Center {
    if ops == [] then s else Apply(ExecuteFrom(s, ops[..|ops| - 1]), ops[|ops| - 1])
  }

  lemma {:induction false} GrantsGrow(s: Center, ops: seq<Op>)
    ensures s.grants <= ExecuteFrom(s, ops).grants
  {
    if ops != [] {
      GrantsGrow(s, ops[..|ops| - 1]);
      StepGrants(ExecuteFrom(s, ops[..|ops| - 1]), ops[|ops| - 1]);
    }
  }

  /** What is allowed stays allowed, whatever happens to the center afterwards. */
  lemma AllowedStaysAllowed(s: Center, ops: seq<Op>, world: World, later: World, c: Check)
    requires CheckSpec(s, world, c).1.Ok? && CheckSpec(s, world, c).1.value.Allowed?
    requires CheckRefusal(later, c).None?
    ensures CheckSpec(ExecuteFrom(s, ops), later, c).1.value.Allowed?
  {
    GrantsGrow(s, ops);
    MatchIs(s.grants, c.subject, 0);
    MatchIs(ExecuteFrom(s, ops).grants, c.subject, 0);
  }
}
