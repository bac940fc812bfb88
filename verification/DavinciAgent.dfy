/** The engine's loop as it runs: an agent, its budget, its tracer and the current plan, changed in place. */
module DavinciAgent {
  import opened Common
  import opened Engine
  import opened Observability
  import opened Permissions
  import opened Planning
  import opened PlanObject
  import AgentLife
  import Memory
  import Replay
  import RunLaws
  import TurnLaws

  class Agent {
    const c: Config
    const budget: Budget
    const tracer: Tracer
    var episodes: seq<Event>
    var working: seq<Item>
    var marks: map<string, nat>
    var reviews: seq<ReviewEntry>
    var executed: seq<Execution>
    var delivered: bool

    constructor (c: Config, budget: Budget, tracer: Tracer)
      ensures this.c == c && this.budget == budget && this.tracer == tracer
      ensures episodes == [] && working == [] && marks == map[] && reviews == [] && executed == [] && !delivered
      ensures budget.State() == Usage(0, 0, 0) && tracer.events == [] && tracer.last == 0 ==> Trusted()
    {
      this.c, this.budget, this.tracer := c, budget, tracer;
      episodes, working, marks, reviews, executed, delivered := [], [], map[], [], [], false;
      new;
      AgentLife.NewAgentIsTrustworthy(c);
    }

    /** Only what the policy allows was executed, and the trace tells all that was charged. */
    ghost predicate Trusted()
      reads this, budget, tracer
    {
      AgentLife.Trustworthy(c, StateWith(EMPTY))
    }

    ghost function State(plan: Plan): Engine.Agent
      reads this, budget, tracer, plan
    {
      StateWith(plan.State())
    }

    ghost function StateWith(plan: PlanState): Engine.Agent
      reads this, budget, tracer
    {
      Engine.Agent(plan, budget.State(), marks, Journal(tracer.events, tracer.last, episodes), working,
                   reviews, executed, delivered)
    }

    method Record(kind: Kind)
      modifies this`episodes, tracer
      ensures Journal(tracer.events, tracer.last, episodes) ==
              Observability.Record(old(Journal(tracer.events, tracer.last, episodes)), kind)
    {
      var event := tracer.Emit(kind);
      episodes := episodes + [event];
    }

    method Remember(item: Item)
      modifies this`working
      ensures working == Memory.Remember(old(working), item, c.maxItems)
    {
      working := working + [item];
      if |working| > c.maxItems {
        working := working[..1] + SliceFromEnd(working, c.maxItems - 1);
      }
    }

    /** `plan.complete` or `plan.fail`. */
    method Conclude(plan: Plan, id: nat, status: Status, note: string)
      modifies plan
      requires WellNumbered(plan.State()) && 1 <= id <= |plan.steps|
      ensures State(plan) == Concluded(old(State(plan)), id, status, note)
    {
      FindIsPosition(plan.State(), id - 1);
      var _ := plan.Mark(id, status, Some(note));
    }

    /** `plan.complete` or `plan.fail`, and the event that goes with it. */
    method Settle(plan: Plan, id: nat, status: Status, note: string, kind: Kind)
      modifies this`episodes, tracer, plan
      requires WellNumbered(plan.State()) && 1 <= id <= |plan.steps|
      ensures State(plan) == Settled(old(State(plan)), id, status, note, kind)
    {
      Conclude(plan, id, status, note);
      Record(kind);
    }

    /** The call of the executor, and what its outcome leads to. */
    method Execute(plan: Plan, id: nat, action: ToolAction, reply: ToolReply)
      modifies this, budget, tracer, plan
      requires WellNumbered(plan.State()) && 1 <= id <= |plan.steps|
      ensures State(plan) == Executed(c, old(State(plan)), id, action, reply)
    {
      budget.ChargeToolCall();
      executed := executed + [Execution(id, action, reply)];
      match reply {
        case Raised(message) => Settle(plan, id, Failed, "executor error: " + message, StepError(id));
        case Replied(ok, output, error) =>
          if !ok {
            Settle(plan, id, Failed, "tool error: " + error, ToolReturned(id, false));
            return;
          }
          var err := ValidateResult(c.policy.outputValidators, action, output);
          if err != "" {
            Settle(plan, id, Failed, "output guardrail: " + err, GuardrailBlock(id));
            return;
          }
          Accept(plan, id, output);
      }
    }

    /** The output passed its guardrails. */
    method Accept(plan: Plan, id: nat, output: string)
      modifies this`working, this`episodes, budget, tracer, plan
      requires WellNumbered(plan.State()) && 1 <= id <= |plan.steps|
      ensures State(plan) == Accepted(c, old(State(plan)), id, output)
    {
      budget.ChargeTokens(TokensIn(output));
      Remember(Item("tool_result", output));
      Settle(plan, id, Done, "ok", ToolReturned(id, true));
    }

    /** Loop check, permission check, and what each answer leads to. */
    method Gate(plan: Plan, id: nat, action: ToolAction, reply: ToolReply)
      modifies this, budget, tracer, plan
      requires WellNumbered(plan.State()) && 1 <= id <= |plan.steps|
      ensures State(plan) == Gated(c, old(State(plan)), id, action, reply)
      ensures executed == old(executed) +
                          if MayExecute(c, old(marks), action) then [Execution(id, action, reply)] else []
    {
      GatedMeans(c, State(plan), id, action, reply);
      var fp := c.fingerprint(action);
      var tally := Mark(plan, fp);
      if tally > c.maxAttempts {
        Settle(plan, id, Failed, "stuck: identical action repeated", Stuck(id));
        return;
      }
      Decide(plan, id, action, reply);
    }

    /** Counts one more proposal of this fingerprint. */
    method Mark(ghost plan: Plan, fp: string) returns (tally: nat)
      modifies this`marks
      ensures State(plan) == old(State(plan)).(marks := old(marks)[fp := Tally(old(marks), fp) + 1])
      ensures tally == Tally(old(marks), fp) + 1
    {
      tally := Tally(marks, fp) + 1;
      marks := marks[fp := tally];
    }

    /** The permission check. */
    method Decide(plan: Plan, id: nat, action: ToolAction, reply: ToolReply)
      modifies this, budget, tracer, plan
      requires WellNumbered(plan.State()) && 1 <= id <= |plan.steps|
      ensures State(plan) == Judged(c, old(State(plan)), id, action, reply, Check(c.policy, action))
      ensures executed == old(executed) +
                          if Check(c.policy, action).outcome == Allow then [Execution(id, action, reply)] else []
      ensures reviews == old(reviews) +
                         if Check(c.policy, action).outcome == Review then [ReviewEntry(id, action)] else []
    {
      JudgedMeans(c, State(plan), id, action, reply, Check(c.policy, action));
      var decision := Check(c.policy, action);
      Record(Decided(id, decision.outcome));
      match decision.outcome {
        case Deny => Conclude(plan, id, Failed, "denied: " + decision.reason);
        case Review =>
          reviews := reviews + [ReviewEntry(id, action)];
          Settle(plan, id, Done, "(awaiting human review)", HumanReview(id));
        case Allow => Execute(plan, id, action, reply);
      }
    }

    /** `_run_step` on the plan's pending step number `id`. */
    method RunStep(plan: Plan, id: nat, answers: Answers) returns (answer: Option<string>)
      modifies this, budget, tracer, plan
      requires WellNumbered(plan.State()) && 1 <= id <= |plan.steps|
      ensures State(plan) == Engine.RunStep(c, old(State(plan)), id - 1, answers)
      ensures answer == StepEffect(c, old(marks), id, answers).answer
    {
      ghost var before := State(plan);
      Start(plan, id);
      InPlaceIsRunStep(c, before, id, answers);
      StepAnswers(c, marks, id, answers);
      if answers.proposal.finalAnswer.Some? {
        var text := answers.proposal.finalAnswer.value;
        Conclude(plan, id, Done, text);
        Remember(Item("assistant", text));
        var next := plan.NextPending();
        if next.None? {
          delivered := true;
        }
        return Some(text);
      }
      if answers.proposal.tool.None? {
        Conclude(plan, id, Done, "(no tool required)");
        return None;
      }
      Gate(plan, id, ActionFor(answers.proposal.tool.value, answers.proposal.args), answers.reply);
      return None;
    }

    method Start(plan: Plan, id: nat)
      modifies this`episodes, budget, tracer, plan
      requires WellNumbered(plan.State()) && 1 <= id <= |plan.steps|
      ensures State(plan) == Started(old(State(plan)), id)
      ensures WellNumbered(plan.State())
    {
      budget.ChargeStep();
      FindIsPosition(plan.State(), id - 1);
      plan.StartAttempt(id);
      Record(Reason(id));
    }

    /** One turn of the loop in `run`; `input` is what the outside says if it is asked. */
    method Turn(plan: Plan, replansLeft: int, answer: string, input: Input)
      returns (replansLeft': int, stopped: bool, answer': string)
      modifies this, budget, tracer, plan
      requires WellNumbered(plan.State()) && budget.limits == c.limits
      ensures Engine.Run(State(plan), replansLeft', stopped, answer') ==
              Engine.Turn(c, Engine.Run(old(State(plan)), replansLeft, false, answer), input)
      ensures !old(delivered) ==>
                (stopped <==>
                   || TurnLaws.Spent(c.limits, old(budget.State()), input.elapsed)
                   || (input.answers.proposal.finalAnswer.Some? && TurnLaws.OneLeft(old(plan.steps)))
                   || (!TurnLaws.Unfinished(old(plan.steps)) && TurnLaws.Settles(replansLeft, input.reflection)))
    {
      if !delivered {
        TurnLaws.TurnStopsIff(c, Engine.Run(State(plan), replansLeft, false, answer), input);
      }
      replansLeft', stopped, answer' := replansLeft, false, answer;
      var limit := budget.FirstExceeded(input.elapsed);
      if limit.Some? {
        Record(BudgetExceeded(limit.value));
        stopped := true;
        return;
      }
      var step := plan.NextPending();
      if step.None? {
        replansLeft', stopped := Reflect(plan, replansLeft, answer, input.reflection);
        return;
      }
      assert step.value.id == Planning.NextPending(plan.steps) + 1;
      var said := RunStep(plan, step.value.id, input.answers);
      answer' := if said.Some? && said.value != "" then said.value else answer;
      if delivered {
        Record(FinalAnswer);
        stopped := true;
      }
    }

    /** The plan is exhausted: reflect, and replan or stop. */
    method Reflect(plan: Plan, replansLeft: int, ghost answer: string, reflection: Reflection)
      returns (replansLeft': int, stopped: bool)
      modifies this`episodes, tracer, plan
      ensures Engine.Run(State(plan), replansLeft', stopped, answer) ==
              ReflectTurn(Engine.Run(old(State(plan)), replansLeft, false, answer), reflection)
    {
      replansLeft', stopped := replansLeft, false;
      Record(Reflected(reflection.satisfied));
      if reflection.satisfied || replansLeft <= 0 || reflection.titles == [] {
        stopped := true;
        return;
      }
      plan.ReplanFailed(reflection.titles);
      replansLeft' := replansLeft - 1;
      Record(Replanned(Snapshot(plan)));
    }

    /** `plan.to_dict()`. */
    function Snapshot(plan: Plan): PlanState
      reads plan
    {
      PlanState(plan.steps, plan.revision, plan.nextId)
    }

    /**
      A whole `run` against an outside that answers `world(k)` in turn `k`. It always returns, after some
      number `n` of turns; with a step left only for a limit, and otherwise for a limit, a delivered answer
      or a reflection that settles it.
     */
    method Run(conversation: seq<Item>, specs: seq<Spec>, replanBudget: int, world: nat -> Input, elapsed: int,
               synthesis: Synthesis, summary: string, blank: string -> bool)
      returns (plan: Plan, success: bool, answer: string, n: nat)
      modifies this, budget, tracer
      requires budget.limits == c.limits
      ensures var r := Turns(c, Begin(c, old(StateWith(EMPTY)), conversation, specs, replanBudget), world, n);
              r.stopped && (State(plan), success, answer) == End(c, r, elapsed, synthesis, summary, blank)
      ensures old(Trusted()) && RunLaws.Honest(conversation) ==> Trusted() && Replay.Tells(State(plan), Usage(0, 0, 0))
      ensures n > 0 && (TurnLaws.Unfinished(plan.steps) ==>
                          TurnLaws.Spent(c.limits, budget.State(), world(n - 1).elapsed))
      ensures TurnLaws.Spent(c.limits, budget.State(), world(n - 1).elapsed) || delivered ||
              TurnLaws.Settles(replanBudget - plan.revision, world(n - 1).reflection)
    {
      plan, success, answer, n := Perform(conversation, specs, replanBudget, world, elapsed, synthesis, summary, blank);
      ghost var script :=
        RunLaws.Script(conversation, specs, replanBudget, world, n, elapsed, synthesis, summary, blank);
      RunIsTold(c, old(StateWith(EMPTY)), script);
      TurnLaws.WhyRunStopped(c, old(StateWith(EMPTY)), script);
      assert StateWith(EMPTY) == State(plan).(plan := EMPTY);
    }

    /** The body of `run`. Its last turn is the first one that stops. */
    method Perform(conversation: seq<Item>, specs: seq<Spec>, replanBudget: int, world: nat -> Input, elapsed: int,
                   synthesis: Synthesis, summary: string, blank: string -> bool)
      returns (plan: Plan, success: bool, answer: string, n: nat)
      modifies this, budget, tracer
      requires budget.limits == c.limits
      ensures var begun := Begin(c, old(StateWith(EMPTY)), conversation, specs, replanBudget);
              var r := Turns(c, begun, world, n);
              && n > 0 && !Turns(c, begun, world, n - 1).stopped && r.stopped
              && (State(plan), success, answer) == End(c, r, elapsed, synthesis, summary, blank)
    {
      plan := Prepare(conversation, specs, replanBudget);
      var replansLeft;
      replansLeft, answer, n := Loop(plan, replanBudget, world);
      success, answer := Finish(plan, replansLeft, answer, elapsed, synthesis, summary, blank);
    }

    /** The loop of `run`. It always ends. */
    method Loop(plan: Plan, replanBudget: int, world: nat -> Input) returns (replansLeft: int, answer: string, n: nat)
      modifies this, budget, tracer, plan
      requires WellNumbered(plan.State()) && budget.limits == c.limits
      ensures Engine.Run(State(plan), replansLeft, true, answer) ==
              Turns(c, Engine.Run(old(State(plan)), replanBudget, false, ""), world, n)
      ensures n > 0 && !Turns(c, Engine.Run(old(State(plan)), replanBudget, false, ""), world, n - 1).stopped
    {
      ghost var begun := Engine.Run(State(plan), replanBudget, false, "");
      ghost var left := LeftToDo(begun);
      var stopped := false;
      replansLeft, answer, n := replanBudget, "", 0;
      while !stopped
        invariant Engine.Run(State(plan), replansLeft, stopped, answer) == Turns(c, begun, world, n)
        invariant WellNumbered(plan.State())
        invariant left == LeftToDo(Turns(c, begun, world, n))
        invariant stopped ==> n > 0 && !Turns(c, begun, world, n - 1).stopped
        decreases left.0, left.1, !stopped
      {
        NextTurn(c, begun, world, n);
        replansLeft, stopped, answer := Turn(plan, replansLeft, answer, world(n));
        n := n + 1;
        left := LeftToDo(Turns(c, begun, world, n));
      }
    }

    /** What `run` does before its loop. */
    method Prepare(conversation: seq<Item>, specs: seq<Spec>, ghost replans: int) returns (plan: Plan)
      modifies this, tracer
      ensures fresh(plan) && WellNumbered(plan.State())
      ensures Engine.Run(State(plan), replans, false, "") ==
              Begin(c, old(StateWith(EMPTY)), conversation, specs, replans)
    {
      delivered, reviews := false, [];
      RememberTurns(conversation);
      Record(RunStart);
      plan := MakePlan(specs);
      Record(PlanMade(Snapshot(plan)));
    }

    method RememberTurns(conversation: seq<Item>)
      modifies this`working
      ensures working == RememberSeq(old(working), conversation, c.maxItems)
    {
      assert conversation[..0] == [];
      for i := 0 to |conversation|
        invariant working == RememberSeq(old(working), conversation[..i], c.maxItems)
      {
        assert conversation[..i + 1][..i] == conversation[..i];
        Remember(conversation[i]);
      }
      assert conversation[..|conversation|] == conversation;
    }

    method MakePlan(specs: seq<Spec>) returns (plan: Plan)
      ensures fresh(plan) && plan.State() == AddAll(EMPTY, specs) && WellNumbered(plan.State())
    {
      plan := new Plan();
      assert specs[..0] == [];
      for i := 0 to |specs|
        invariant plan.State() == AddAll(EMPTY, specs[..i])
      {
        assert specs[..i + 1][..i] == specs[..i];
        plan.AddStep(specs[i]);
      }
      assert specs[..|specs|] == specs;
      AddAllAppends(EMPTY, specs);
    }

    /** What `run` does after its loop. */
    method Finish(plan: Plan, ghost replansLeft: int, last: string, elapsed: int, synthesis: Synthesis,
                  summary: string, blank: string -> bool)
      returns (success: bool, answer: string)
      modifies this`episodes, tracer
      requires budget.limits == c.limits
      ensures (State(plan), success, answer) ==
              End(c, Engine.Run(old(State(plan)), replansLeft, true, last), elapsed, synthesis, summary, blank)
    {
      var limit := budget.FirstExceeded(elapsed);
      success := IsComplete(plan.steps) && !HasFailures(plan.steps) && limit.None?;
      answer := Resolve(plan, last, synthesis, summary, blank);
      Record(RunEnd(success));
    }

    /** The final answer, and `_final_answer` with the error it may record. */
    method Resolve(ghost plan: Plan, last: string, synthesis: Synthesis, summary: string, blank: string -> bool)
      returns (answer: string)
      modifies this`episodes, tracer
      ensures var keep := Keeps(delivered, last, blank);
              && answer == AnswerOf(keep, last, synthesis, summary)
              && State(plan) == if !keep && synthesis.SynthesisRaises? then Note(old(State(plan)), SynthesisError)
                                else old(State(plan))
    {
      answer := last;
      if !(delivered && answer != "" && !blank(answer)) {
        if synthesis.SynthesisRaises? {
          Record(SynthesisError);
        }
        if synthesis.Synthesized? && synthesis.text != "" {
          answer := synthesis.text;
        } else if answer == "" {
          answer := summary;
        }
      }
    }
  }

  /** What a whole run leaves behind. */
  lemma RunIsTold(c: Config, a: Engine.Agent, s: RunLaws.Script)
    ensures AgentLife.Trustworthy(c, a) && RunLaws.HonestRoles(s) ==>
              AgentLife.Trustworthy(c, RunLaws.Perform(c, a, s).(plan := EMPTY)) &&
              Replay.Tells(RunLaws.Perform(c, a, s), Usage(0, 0, 0))
  {
    if AgentLife.Trustworthy(c, a) && RunLaws.HonestRoles(s) {
      AgentLife.RunKeepsTrust(c, a, s);
      AgentLife.TrustIgnoresPlan(c, RunLaws.Perform(c, a, s), EMPTY);
    }
  }

  ghost function LeftToDo(r: Engine.Run): (nat, nat) {
    if r.stopped then (0, 0) else (RunLaws.ReplansIn(r), RunLaws.PendingIn(r))
  }

  lemma NextTurn(c: Config, begun: Engine.Run, world: nat -> Input, n: nat)
    requires var now := Turns(c, begun, world, n); !now.stopped && WellNumbered(now.agent.plan)
    ensures var (now, next) := (Turns(c, begun, world, n), Turns(c, begun, world, n + 1));
            && next == Engine.Turn(c, now, world(n)) && WellNumbered(next.agent.plan)
            && (!next.stopped ==> LeftToDo(next).0 < LeftToDo(now).0 ||
                                  (LeftToDo(next).0 == LeftToDo(now).0 && LeftToDo(next).1 < LeftToDo(now).1))
  {
    var now := Turns(c, begun, world, n);
    RunLaws.TurnKeepsNumbers(c, now, world(n));
    if !Engine.Turn(c, now, world(n)).stopped {
      RunLaws.TurnMakesProgress(c, now, world(n));
    }
  }

  // ---- the same step, told in the order it happens --------------------------

  ghost function Started(a: Engine.Agent, id: nat): Engine.Agent
    requires 1 <= id <= |a.plan.steps|
  {
    var step := a.plan.steps[id - 1];
    var started := step.(status := InProgress, attempts := step.attempts + 1);
    Note(a.(usage := a.usage.(steps := a.usage.steps + 1),
            plan := a.plan.(steps := a.plan.steps[id - 1 := started])),
         Reason(id))
  }

  ghost function Concluded(a: Engine.Agent, id: nat, status: Status, note: string): Engine.Agent
    requires 1 <= id <= |a.plan.steps|
  {
    var step := a.plan.steps[id - 1].(status := status, result := note);
    a.(plan := a.plan.(steps := a.plan.steps[id - 1 := step]))
  }

  ghost function Settled(a: Engine.Agent, id: nat, status: Status, note: string, kind: Kind): Engine.Agent
    requires 1 <= id <= |a.plan.steps|
  {
    Note(Concluded(a, id, status, note), kind)
  }

  ghost function Accepted(c: Config, a: Engine.Agent, id: nat, output: string): Engine.Agent
    requires 1 <= id <= |a.plan.steps|
  {
    Settled(a.(usage := a.usage.(tokens := a.usage.tokens + TokensIn(output)),
               working := Memory.Remember(a.working, Item("tool_result", output), c.maxItems)),
            id, Done, "ok", ToolReturned(id, true))
  }

  /** What `Execute` leaves, from the effect of the same tool call. */
  ghost function Executed(c: Config, a: Engine.Agent, id: nat, action: ToolAction, reply: ToolReply): Engine.Agent
    requires 1 <= id <= |a.plan.steps|
  {
    Ended(c, a, id, Execution(id, action, reply), ExecuteEffect(c, id, action, reply))
  }

  ghost function Ended(c: Config, a: Engine.Agent, id: nat, x: Execution, e: Effect): Engine.Agent
    requires 1 <= id <= |a.plan.steps| && |e.events| == 3
  {
    Settled(a.(usage := Usage(a.usage.steps, a.usage.calls + 1, a.usage.tokens + e.tokens),
               working := if e.memo.Some? then Memory.Remember(a.working, e.memo.value, c.maxItems) else a.working,
               executed := a.executed + [x]),
            id, e.status, e.note, e.events[2])
  }

  ghost function Gated(c: Config, a: Engine.Agent, id: nat, action: ToolAction, reply: ToolReply): Engine.Agent
    requires 1 <= id <= |a.plan.steps|
  {
    var fp := c.fingerprint(action);
    var marked := a.(marks := a.marks[fp := Tally(a.marks, fp) + 1]);
    if Tally(a.marks, fp) + 1 > c.maxAttempts then
      Settled(marked, id, Failed, "stuck: identical action repeated", Stuck(id))
    else Judged(c, marked, id, action, reply, Check(c.policy, action))
  }

  ghost function Judged(c: Config, a: Engine.Agent, id: nat, action: ToolAction, reply: ToolReply,
                        decision: Decision): Engine.Agent
    requires 1 <= id <= |a.plan.steps|
  {
    var noted := Note(a, Decided(id, decision.outcome));
    match decision.outcome
    case Deny => Concluded(noted, id, Failed, "denied: " + decision.reason)
    case Review =>
      Settled(noted.(reviews := a.reviews + [ReviewEntry(id, action)]), id, Done, "(awaiting human review)",
              HumanReview(id))
    case Allow => Executed(c, noted, id, action, reply)
  }

  /** The action has been proposed few enough times, and the policy allows it. */
  predicate MayExecute(c: Config, marks: map<string, nat>, action: ToolAction) {
    Tally(marks, c.fingerprint(action)) + 1 <= c.maxAttempts && Check(c.policy, action).outcome == Allow
  }

  /** A decision leads to one call of the executor, one review, or neither; and a review, as well as a step
      that is not allowed, charges no tool call. */
  lemma JudgedMeans(c: Config, a: Engine.Agent, id: nat, action: ToolAction, reply: ToolReply, decision: Decision)
    requires 1 <= id <= |a.plan.steps|
    ensures var b := Judged(c, a, id, action, reply, decision);
            && b.executed == a.executed + (if decision.outcome == Allow then [Execution(id, action, reply)] else [])
            && b.reviews == a.reviews + (if decision.outcome == Review then [ReviewEntry(id, action)] else [])
            && b.usage.calls == a.usage.calls + (if decision.outcome == Allow then 1 else 0)
            && (decision.outcome == Deny ==> b.plan.steps[id - 1].status == Failed)
            && (decision.outcome == Review ==> b.plan.steps[id - 1].status == Done)
  {
  }

  /** The executor is called exactly when the action has been proposed few enough times and is allowed; the
      proposal is counted in any case. */
  lemma GatedMeans(c: Config, a: Engine.Agent, id: nat, action: ToolAction, reply: ToolReply)
    requires 1 <= id <= |a.plan.steps|
    ensures var b := Gated(c, a, id, action, reply);
            && b.executed == a.executed +
                             (if MayExecute(c, a.marks, action) then [Execution(id, action, reply)] else [])
            && b.usage.calls == a.usage.calls + (if MayExecute(c, a.marks, action) then 1 else 0)
            && Tally(b.marks, c.fingerprint(action)) == Tally(a.marks, c.fingerprint(action)) + 1
            && (Tally(a.marks, c.fingerprint(action)) + 1 > c.maxAttempts ==>
                  b.plan.steps[id - 1].status == Failed && b.reviews == a.reviews)
  {
    var fp := c.fingerprint(action);
    JudgedMeans(c, a.(marks := a.marks[fp := Tally(a.marks, fp) + 1]), id, action, reply, Check(c.policy, action));
  }

  ghost function InPlace(c: Config, a: Engine.Agent, id: nat, answers: Answers): Engine.Agent
    requires 1 <= id <= |a.plan.steps|
  {
    var started := Started(a, id);
    var Answers(proposal, reply) := answers;
    if proposal.finalAnswer.Some? then
      var done := Concluded(started, id, Done, proposal.finalAnswer.value);
      done.(working := Memory.Remember(a.working, Item("assistant", proposal.finalAnswer.value), c.maxItems),
            delivered := a.delivered || Planning.NextPending(done.plan.steps) == |done.plan.steps|)
    else if proposal.tool.None? then Concluded(started, id, Done, "(no tool required)")
    else Gated(c, started, id, ActionFor(proposal.tool.value, proposal.args), reply)
  }

  lemma RecordShort(j: Journal, x: Kind, y: Kind, z: Kind)
    ensures RecordAll(j, [x]) == Record(j, x)
    ensures RecordAll(j, [x, y]) == Record(Record(j, x), y)
    ensures RecordAll(j, [x, y, z]) == Record(Record(Record(j, x), y), z)
  {
    FoldShort(Observability.Record, j, x, y, z);
  }

  lemma StepAnswers(c: Config, marks: map<string, nat>, id: nat, answers: Answers)
    ensures StepEffect(c, marks, id, answers).answer == answers.proposal.finalAnswer
  {
  }

  /** `Started` and then the outcome of an effect is that effect, applied. */
  lemma StartedThen(c: Config, a: Engine.Agent, id: nat, e: Effect)
    requires 1 <= id <= |a.plan.steps| && e.events != [] && e.answer.None?
    requires e.events[0] == Reason(id) && |e.events| <= 3
    ensures ApplyEffect(c, a, id - 1, e) ==
            Concluded(Started(a, id), id, e.status, e.note).(
              usage := Usage(a.usage.steps + 1, a.usage.calls + if e.execution.Some? then 1 else 0,
                             a.usage.tokens + e.tokens),
              marks := if e.mark.Some? then a.marks[e.mark.value := Tally(a.marks, e.mark.value) + 1] else a.marks,
              journal := RecordAll(a.journal, e.events),
              working := if e.memo.Some? then Memory.Remember(a.working, e.memo.value, c.maxItems) else a.working,
              reviews := if e.review.Some? then a.reviews + [e.review.value] else a.reviews,
              executed := if e.execution.Some? then a.executed + [e.execution.value] else a.executed)
  {
  }

  lemma EndedIsEffect(c: Config, a: Engine.Agent, id: nat, x: Execution, e: Effect, mark: string, last: Kind)
    requires 1 <= id <= |a.plan.steps|
    requires e.events == [Reason(id), Decided(id, Allow), last] && e.review.None? && e.answer.None?
    ensures var marked := Started(a, id).(marks := a.marks[mark := Tally(a.marks, mark) + 1]);
            ApplyEffect(c, a, id - 1, e.(execution := Some(x), mark := Some(mark))) ==
            Ended(c, Note(marked, Decided(id, Allow)), id, x, e)
  {
    StartedThen(c, a, id, e.(execution := Some(x), mark := Some(mark)));
    RecordShort(a.journal, Reason(id), Decided(id, Allow), last);
  }

  lemma JudgedIsEffect(c: Config, a: Engine.Agent, id: nat, action: ToolAction, reply: ToolReply, decision: Decision,
                       mark: string)
    requires 1 <= id <= |a.plan.steps|
    ensures var e := DecisionEffect(c, id, action, reply, decision).(mark := Some(mark));
            var marked := Started(a, id).(marks := a.marks[mark := Tally(a.marks, mark) + 1]);
            ApplyEffect(c, a, id - 1, e) == Judged(c, marked, id, action, reply, decision)
  {
    var e := DecisionEffect(c, id, action, reply, decision).(mark := Some(mark));
    match decision.outcome {
      case Deny =>
        StartedThen(c, a, id, e);
        RecordShort(a.journal, Reason(id), Decided(id, Deny), Stuck(id));
      case Review =>
        StartedThen(c, a, id, e);
        RecordShort(a.journal, Reason(id), Decided(id, Review), HumanReview(id));
      case Allow =>
        var executed := ExecuteEffect(c, id, action, reply);
        EndedIsEffect(c, a, id, Execution(id, action, reply), executed, mark, executed.events[2]);
    }
  }

  lemma GatedIsEffect(c: Config, a: Engine.Agent, id: nat, action: ToolAction, reply: ToolReply)
    requires 1 <= id <= |a.plan.steps|
    ensures ApplyEffect(c, a, id - 1,
                        GateEffect(c, a.marks, id, action, reply).(mark := Some(c.fingerprint(action)))) ==
            Gated(c, Started(a, id), id, action, reply)
  {
    var mark := c.fingerprint(action);
    if Tally(a.marks, mark) + 1 > c.maxAttempts {
      StartedThen(c, a, id, GateEffect(c, a.marks, id, action, reply).(mark := Some(mark)));
      RecordShort(a.journal, Reason(id), Stuck(id), Stuck(id));
    } else {
      JudgedIsEffect(c, a, id, action, reply, Check(c.policy, action), mark);
    }
  }

  lemma AnsweredIsEffect(c: Config, a: Engine.Agent, id: nat, answers: Answers)
    requires WellNumbered(a.plan) && 1 <= id <= |a.plan.steps| && answers.proposal.finalAnswer.Some?
    ensures InPlace(c, a, id, answers) == ApplyEffect(c, a, id - 1, StepEffect(c, a.marks, id, answers))
  {
    RecordShort(a.journal, Reason(id), Reason(id), Reason(id));
    var done := Concluded(Started(a, id), id, Done, answers.proposal.finalAnswer.value);
    assert done.plan == ApplyEffect(c, a, id - 1, StepEffect(c, a.marks, id, answers)).plan;
  }

  /** Told in order or told as one effect, a step does the same. */
  lemma InPlaceIsRunStep(c: Config, a: Engine.Agent, id: nat, answers: Answers)
    requires WellNumbered(a.plan) && 1 <= id <= |a.plan.steps|
    ensures InPlace(c, a, id, answers) == Engine.RunStep(c, a, id - 1, answers)
  {
    assert a.plan.steps[id - 1].id == id;
    if answers.proposal.finalAnswer.Some? {
      AnsweredIsEffect(c, a, id, answers);
    } else if answers.proposal.tool.None? {
      StartedThen(c, a, id, StepEffect(c, a.marks, id, answers));
      RecordShort(a.journal, Reason(id), Reason(id), Reason(id));
    } else {
      GatedIsEffect(c, a, id, ActionFor(answers.proposal.tool.value, answers.proposal.args), answers.reply);
    }
  }
}
