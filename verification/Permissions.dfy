/** The permission gate: input guardrails, deny rules, allow rules, then mode and risk. */
module Permissions {
  import opened Common

  datatype Risk = Low | Medium | High {
    function Rank(): nat {
      match this
      case Low => 0
      case Medium => 1
      case High => 2
    }
  }

  datatype Mode = Plan | Default | AcceptEdits | Auto | DontAsk | Bypass

  datatype Outcome = Allow | Deny | Review

  datatype Decision = Decision(outcome: Outcome, reason: string, risk: Risk, rule: string)

  datatype ToolAction = ToolAction(toolId: string, category: string, risk: Risk, args: map<string, string>,
                                   requiresNetwork: bool)

  /** A validator returns an error text, and "" when it has none; `glob` is any matching relation. */
  datatype Policy = Policy(
    mode: Mode,
    ceiling: Risk,
    allowRules: seq<string>,
    denyRules: seq<string>,
    glob: (string, string) -> bool,
    inputValidators: seq<ToolAction -> string>,
    outputValidators: seq<(ToolAction, string) -> string>)

  function FirstInputError(validators: seq<ToolAction -> string>, action: ToolAction): string {
    if validators == [] then ""
    else
      var err := validators[0](action);
      if err != "" then err else FirstInputError(validators[1..], action)
  }

  function FirstMatch(rules: seq<string>, target: string, glob: (string, string) -> bool): Option<string> {
    if rules == [] then None
    else if glob(target, rules[0]) then Some(rules[0])
    else FirstMatch(rules[1..], target, glob)
  }

  function Target(action: ToolAction): string {
    action.category + ":" + action.toolId
  }

  function ModeDecision(p: Policy, action: ToolAction): Decision {
    var risk := action.risk;
    match p.mode
    case Bypass => Decision(Allow, "bypass mode", risk, "mode:bypass")
    case DontAsk => Decision(Allow, "dont_ask mode (logged)", risk, "mode:dont_ask")
    case Plan => Decision(Review, "plan mode forbids execution until approved", risk, "mode:plan")
    case Auto =>
      if risk.Rank() <= p.ceiling.Rank() then Decision(Allow, "auto mode within ceiling", risk, "mode:auto")
      else Decision(Review, "risk exceeds ceiling", risk, "mode:auto")
    case AcceptEdits =>
      if risk.Rank() <= Medium.Rank() then Decision(Allow, "accept_edits allows low/medium", risk, "mode:accept_edits")
      else Decision(Review, "high-risk action needs review", risk, "mode:accept_edits")
    case Default =>
      if risk == Low then Decision(Allow, "default mode allows low risk", risk, "mode:default")
      else Decision(Review, "action needs approval", risk, "mode:default")
  }

  function Check(p: Policy, action: ToolAction): Decision {
    var err := FirstInputError(p.inputValidators, action);
    if err != "" then Decision(Deny, "input guardrail: " + err, action.risk, "input_validator")
    else match FirstMatch(p.denyRules, Target(action), p.glob)
      case Some(rule) => Decision(Deny, "matched deny rule '" + rule + "'", action.risk, rule)
      case None =>
        match FirstMatch(p.allowRules, Target(action), p.glob)
        case Some(rule) => Decision(Allow, "matched allow rule '" + rule + "'", action.risk, rule)
        case None => ModeDecision(p, action)
  }

  function ValidateResult(validators: seq<(ToolAction, string) -> string>, action: ToolAction, output: string): string {
    if validators == [] then ""
    else
      var err := validators[0](action, output);
      if err != "" then err else ValidateResult(validators[1..], action, output)
  }

  // ---- what a decision means ------------------------------------------------

  /** Some input guardrail objects, or some deny rule matches the category and tool. */
  ghost predicate Forbidden(p: Policy, action: ToolAction) {
    || (exists i :: 0 <= i < |p.inputValidators| && p.inputValidators[i](action) != "")
    || (exists i :: 0 <= i < |p.denyRules| && p.glob(action.category + ":" + action.toolId, p.denyRules[i]))
  }

  ghost predicate Listed(p: Policy, action: ToolAction) {
    exists i :: 0 <= i < |p.allowRules| && p.glob(action.category + ":" + action.toolId, p.allowRules[i])
  }

  /** The highest risk a mode lets through unattended; none in plan mode. */
  ghost function UnattendedRank(p: Policy): int {
    match p.mode
    case Plan => -1
    case Default => 0
    case AcceptEdits => 1
    case Auto => p.ceiling.Rank()
    case DontAsk => 2
    case Bypass => 2
  }

  ghost predicate PassesOutput(p: Policy, action: ToolAction, output: string) {
    forall i :: 0 <= i < |p.outputValidators| ==> p.outputValidators[i](action, output) == ""
  }

  lemma {:induction false} FirstInputErrorMeans(validators: seq<ToolAction -> string>, action: ToolAction)
    ensures FirstInputError(validators, action) != "" <==>
            exists i :: 0 <= i < |validators| && validators[i](action) != ""
  {
    if validators != [] && validators[0](action) == "" {
      FirstInputErrorMeans(validators[1..], action);
      assert forall i :: 0 < i < |validators| ==> validators[i] == validators[1..][i - 1];
    }
  }

  lemma {:induction false} FirstMatchMeans(rules: seq<string>, target: string, glob: (string, string) -> bool)
    ensures FirstMatch(rules, target, glob).Some? <==> exists i :: 0 <= i < |rules| && glob(target, rules[i])
  {
    if rules != [] && !glob(target, rules[0]) {
      FirstMatchMeans(rules[1..], target, glob);
      assert forall i :: 0 < i < |rules| ==> rules[i] == rules[1..][i - 1];
    }
  }

  lemma {:induction false} ValidateResultMeans(validators: seq<(ToolAction, string) -> string>, action: ToolAction,
                                               output: string)
    ensures ValidateResult(validators, action, output) == "" <==>
            forall i :: 0 <= i < |validators| ==> validators[i](action, output) == ""
  {
    if validators != [] && validators[0](action, output) == "" {
      ValidateResultMeans(validators[1..], action, output);
      assert forall i :: 0 < i < |validators| ==> validators[i] == validators[1..][i - 1];
    }
  }

  /** Denied exactly when forbidden, whatever the mode and the allow rules say; otherwise allowed
      exactly when listed or within the mode's unattended risk. */
  lemma CheckMeans(p: Policy, action: ToolAction)
    ensures Check(p, action).outcome == Deny <==> Forbidden(p, action)
    ensures Check(p, action).outcome == Allow <==>
            !Forbidden(p, action) && (Listed(p, action) || action.risk.Rank() <= UnattendedRank(p))
    ensures Check(p, action).risk == action.risk
  {
    FirstInputErrorMeans(p.inputValidators, action);
    FirstMatchMeans(p.denyRules, Target(action), p.glob);
    FirstMatchMeans(p.allowRules, Target(action), p.glob);
  }

  /** The first of these rules that matches. */
  ghost predicate IsFirstMatch(rules: seq<string>, target: string, glob: (string, string) -> bool, i: nat) {
    i < |rules| && glob(target, rules[i]) && forall k :: 0 <= k < i ==> !glob(target, rules[k])
  }

  ghost predicate IsFirstObjection(validators: seq<ToolAction -> string>, action: ToolAction, i: nat) {
    i < |validators| && validators[i](action) != "" && forall k :: 0 <= k < i ==> validators[k](action) == ""
  }

  lemma {:induction false} FirstMatchIs(rules: seq<string>, target: string, glob: (string, string) -> bool)
    returns (i: nat)
    ensures match FirstMatch(rules, target, glob)
            case None => forall k :: 0 <= k < |rules| ==> !glob(target, rules[k])
            case Some(rule) => IsFirstMatch(rules, target, glob, i) && rule == rules[i]
  {
    i := 0;
    if rules != [] && !glob(target, rules[0]) {
      i := FirstMatchIs(rules[1..], target, glob);
      i := i + 1;
    }
  }

  lemma {:induction false} FirstObjectionIs(validators: seq<ToolAction -> string>, action: ToolAction) returns (i: nat)
    ensures var err := FirstInputError(validators, action);
            if err == "" then forall k :: 0 <= k < |validators| ==> validators[k](action) == ""
            else IsFirstObjection(validators, action, i) && err == validators[i](action)
  {
    i := 0;
    if validators != [] && validators[0](action) == "" {
      i := FirstObjectionIs(validators[1..], action);
      i := i + 1;
    }
  }

  /** What objects is named: the first input guardrail that does. */
  lemma ObjectionIsNamed(p: Policy, action: ToolAction) returns (i: nat)
    requires exists k :: 0 <= k < |p.inputValidators| && p.inputValidators[k](action) != ""
    ensures IsFirstObjection(p.inputValidators, action, i)
    ensures Check(p, action) == Decision(Deny, "input guardrail: " + p.inputValidators[i](action), action.risk,
                                         "input_validator")
  {
    i := FirstObjectionIs(p.inputValidators, action);
  }

  /** A deny or allow rule that decides is named, the first one that matches: an allow rule only when nothing
      forbids, and a deny rule only when no guardrail objects. */
  lemma RuleIsNamed(p: Policy, action: ToolAction) returns (i: nat)
    requires forall k :: 0 <= k < |p.inputValidators| ==> p.inputValidators[k](action) == ""
    requires Forbidden(p, action) || Listed(p, action)
    ensures var rules := if Forbidden(p, action) then p.denyRules else p.allowRules;
            IsFirstMatch(rules, action.category + ":" + action.toolId, p.glob, i) && Check(p, action).rule == rules[i]
  {
    CheckMeans(p, action);
    FirstInputErrorMeans(p.inputValidators, action);
    FirstMatchMeans(p.denyRules, Target(action), p.glob);
    var rules := if Forbidden(p, action) then p.denyRules else p.allowRules;
    i := FirstMatchIs(rules, Target(action), p.glob);
  }

  /** Adding a guardrail or a deny rule can only turn a decision into a denial. */
  lemma TighteningOnlyDenies(p: Policy, action: ToolAction, validator: ToolAction -> string, rule: string)
    ensures var q := p.(inputValidators := p.inputValidators + [validator], denyRules := p.denyRules + [rule]);
            Check(q, action).outcome == Deny || Check(q, action).outcome == Check(p, action).outcome
  {
    var q := p.(inputValidators := p.inputValidators + [validator], denyRules := p.denyRules + [rule]);
    CheckMeans(p, action);
    CheckMeans(q, action);
    if !Forbidden(q, action) {
      forall i | 0 <= i < |p.inputValidators|
        ensures p.inputValidators[i](action) == ""
      {
        assert q.inputValidators[i](action) == "";
      }
      forall i | 0 <= i < |p.denyRules|
        ensures !p.glob(Target(action), p.denyRules[i])
      {
        assert !q.glob(Target(action), q.denyRules[i]);
      }
      assert Listed(q, action) <==> Listed(p, action);
    }
  }
}
