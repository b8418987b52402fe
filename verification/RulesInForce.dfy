/** The theorems on runs hold for the rules in force, and a concrete run that ends at the limit. */
module RulesInForce {
  import opened Types
  import opened Wrappers
  import opened Permission
  import opened PermissionCenter
  import opened RunLoop
  import opened RunLoopConservation
  import opened RunLoopBudget
  import opened ToolCalls
  import Text

  ghost predicate InForce(cfg: Config) {
    cfg.rules == LoopRules()
  }

  lemma CheckIsRegular(specs: seq<ToolSpec>, call: ToolCall)
    ensures RegularCheck(ToolCheck(specs, call))
  {
  }

  /** The rules in force are regular, so the theorems that ask for it apply. */
  lemma InForceIsRegular(cfg: Config)
    requires InForce(cfg)
    ensures Regular(cfg)
  {
    forall specs, call
      ensures RegularCheck(cfg.rules.classify(specs, call))
    {
      CheckIsRegular(specs, call);
    }
    forall specs, call, runId, round: nat, i: nat, runId', round': nat, i': nat
      ensures PreparedOnce(cfg, specs, cfg.rules.prepare(specs, call, runId, round, i), runId', round', i')
    {
      PrepareAgain(specs, call, runId, round, i, runId', round', i');
    }
  }

  /** The check of the loop is what the permission center makes of the request for the call. */
  lemma CheckInForce(cfg: Config, s: St, call: ToolCall)
    requires InForce(cfg)
    ensures CheckIn(cfg, s, call) == NormalizeCheck(ToolRequest(s.packet.toolSpecs, s.scope, call))
  {
    ToolCheckInScope(s.packet.toolSpecs, s.scope, call);
  }

  /** The built-in center never denies a call of the loop: it allows it, asks for it or refuses to look. */
  lemma LoopNeverDenied(cfg: Config, env: Env, s: St, call: ToolCall)
    requires InForce(cfg)
    ensures
      var verdict := Consult(cfg, env, s, call).1;
      verdict.Ok? ==> verdict.value.Allowed? || verdict.value.RequiresApproval?
  {
    NeverDangerous(s.packet.toolSpecs, call);
  }

  /****** A run that ends with tool_iteration_limit_exceeded ******/

  const SCOPE := Scope("r", "s", "r", "", "a", "a", "default")
  const CALL := ToolCall("c", "t", "", false, "", "", false)

  function OneRound(): Config {
    Config(1, 0, true, LoopRules())
  }

  function AlwaysCalling(): Env {
    Env(
      (n: nat) => ModelTurn(0, Some(Response("", [CALL], None, None))),
      (done, call) => Some(Observation("", "", "", "", "", "")),
      (n: nat) => World({"r"}, map[]),
      (n: nat) => false,
      (n: nat) => true,
      (n: nat) => Some(Packet("p", "", [])))
  }

  lemma CallIsValid(runId: string, round: nat, i: nat)
    ensures ValidCall([], Prepare([], CALL, runId, round, i)) && Prepare([], CALL, runId, round, i) == CALL
  {
  }

  lemma CallAsks()
    ensures
      var c := ToolCheck([], CALL);
      !FreelyAllowed(c.(subject := c.subject.(scope := NormalScope(SCOPE))))
  {
    assert Text.Trim(TOOL_CALL) == TOOL_CALL;
    Text.NotBlank("default");
    assert "default"[0] != YOLO[0] && "default"[0] != ACCEPT_EDITS[0];
  }

  /** Budget one, default mode, one tool: the run waits for its first call, and once everything is
      allowed for it, it ends at the limit. */
  lemma ARunEndsAtTheLimit()
    ensures
      var cfg, env := OneRound(), AlwaysCalling();
      var r := Run(cfg, env, Created(SCOPE, Center({}, map[]), true));
      r.status.Suspended? && Resume(cfg, env, r, r.status.approval, AllowAllForRun, NO_OVERRIDE).0.status == LIMIT
  {
    var cfg, env := OneRound(), AlwaysCalling();
    InForceIsRegular(cfg);
    Text.NotBlank("r");
    assert Accepting(env, SCOPE) by {
      assert Text.Trim("r") == "r" && Text.Trim("s") == "s";
    }
    assert Stubborn(cfg, env, []) by {
      forall k, runId, round: nat, i: nat | 0 <= k < 1
        ensures cfg.rules.valid([], cfg.rules.prepare([], [CALL][k], runId, round, i))
      {
        CallIsValid(runId, round, i);
      }
      assert forall n: nat :: env.model(n) == ModelTurn(0, Some(Response("", [CALL], None, None)));
    }
    assert AsksFirst(cfg, [], [CALL], SCOPE) by {
      CallIsValid("r", 0, 0);
      CallAsks();
    }
    OneRoundHitsLimit(cfg, env, SCOPE);
  }
}
