/**
  The agent's turns as functions of its state and of what the outside answers. The reasoner, the tools
  and the clock are arbitrary: whatever they say in one turn is that turn's input.
 */
module Engine {
  import opened Common
  import opened Memory
  import opened Observability
  import opened Permissions
  import opened Planning

  /** A registered tool, with the risk its descriptor declares. */
  datatype Tool = Tool(name: string, category: string, risk: Risk, requiresNetwork: bool)

  datatype Proposal = Proposal(tool: Option<Tool>, args: map<string, string>, finalAnswer: Option<string>)

  /** What the executor does when it is called. */
  datatype ToolReply = Raised(message: string) | Replied(ok: bool, output: string, error: string)

  datatype Answers = Answers(proposal: Proposal, reply: ToolReply)

  datatype Reflection = Reflection(satisfied: bool, titles: seq<string>)

  datatype Item = Item(role: string, content: string)

  datatype ReviewEntry = ReviewEntry(stepId: nat, action: ToolAction)

  /** One call of the executor. */
  datatype Execution = Execution(stepId: nat, action: ToolAction, reply: ToolReply)

  datatype Config = Config(policy: Policy, limits: Limits, fingerprint: ToolAction -> string, maxAttempts: int,
                           maxItems: int)

  datatype Agent = Agent(
    plan: PlanState,
    usage: Usage,
    marks: map<string, nat>,   // how often each action fingerprint was proposed
    journal: Journal,
    working: seq<Item>,
    reviews: seq<ReviewEntry>,  // this run's pending_review
    executed: seq<Execution>,   // the executor calls, over all runs of this agent
    delivered: bool)

  // ---- one step -------------------------------------------------------------

  function ActionFor(tool: Tool, args: map<string, string>): ToolAction {
    ToolAction(tool.name, tool.category, tool.risk, args, tool.requiresNetwork)
  }

  function Tally(marks: map<string, nat>, mark: string): nat {
    if mark in marks then marks[mark] else 0
  }

  function TokensIn(output: string): nat {
    if |output| / 4 < 1 then 1 else |output| / 4
  }

  /** All that running one step does. */
  datatype Effect = Effect(
    status: Status,
    note: string,
    events: seq<Kind>,
    mark: Option<string>,
    execution: Option<Execution>,
    tokens: nat,
    memo: Option<Item>,
    review: Option<ReviewEntry>,
    answer: Option<string>)

  function Plainly(status: Status, note: string, events: seq<Kind>): Effect {
    Effect(status, note, events, None, None, 0, None, None, None)
  }

  function StepEffect(c: Config, marks: map<string, nat>, id: nat, answers: Answers): Effect {
    var Answers(proposal, reply) := answers;
    if proposal.finalAnswer.Some? then
      var text := proposal.finalAnswer.value;
      Plainly(Done, text, [Reason(id)]).(memo := Some(Item("assistant", text)), answer := Some(text))
    else if proposal.tool.None? then
      Plainly(Done, "(no tool required)", [Reason(id)])
    else
      var action := ActionFor(proposal.tool.value, proposal.args);
      GateEffect(c, marks, id, action, reply).(mark := Some(c.fingerprint(action)))
  }

  /** The loop check. */
  function GateEffect(c: Config, marks: map<string, nat>, id: nat, action: ToolAction, reply: ToolReply): Effect {
    if Tally(marks, c.fingerprint(action)) + 1 > c.maxAttempts then
      Plainly(Failed, "stuck: identical action repeated", [Reason(id), Stuck(id)])
    else DecisionEffect(c, id, action, reply, Check(c.policy, action))
  }

  /** What follows from the permission check. */
  function DecisionEffect(c: Config, id: nat, action: ToolAction, reply: ToolReply, decision: Decision): Effect {
    match decision.outcome
    case Deny => Plainly(Failed, "denied: " + decision.reason, [Reason(id), Decided(id, Deny)])
    case Review =>
      Plainly(Done, "(awaiting human review)", [Reason(id), Decided(id, Review), HumanReview(id)])
        .(review := Some(ReviewEntry(id, action)))
    case Allow => ExecuteEffect(c, id, action, reply).(execution := Some(Execution(id, action, reply)))
  }

  /** The tool call and the output guardrails. */
  function ExecuteEffect(c: Config, id: nat, action: ToolAction, reply: ToolReply): Effect {
    match reply
    case Raised(message) => Ran(id, Failed, "executor error: " + message, StepError(id))
    case Replied(ok, output, error) =>
      if !ok then Ran(id, Failed, "tool error: " + error, ToolReturned(id, false))
      else
        var err := ValidateResult(c.policy.outputValidators, action, output);
        if err != "" then Ran(id, Failed, "output guardrail: " + err, GuardrailBlock(id))
        else Ran(id, Done, "ok", ToolReturned(id, true))
             .(tokens := TokensIn(output), memo := Some(Item("tool_result", output)))
  }

  function Ran(id: nat, status: Status, note: string, last: Kind): Effect {
    Plainly(status, note, [Reason(id), Decided(id, Allow), last])
  }

  function ApplyEffect(c: Config, a: Agent, i: nat, e: Effect): Agent
    requires i < |a.plan.steps|
  {
    var step := a.plan.steps[i];
    var steps := a.plan.steps[i := step.(status := e.status, result := e.note, attempts := step.attempts + 1)];
    Agent(
      a.plan.(steps := steps),
      Usage(a.usage.steps + 1, a.usage.calls + if e.execution.Some? then 1 else 0, a.usage.tokens + e.tokens),
      if e.mark.Some? then a.marks[e.mark.value := Tally(a.marks, e.mark.value) + 1] else a.marks,
      RecordAll(a.journal, e.events),
      if e.memo.Some? then Remember(a.working, e.memo.value, c.maxItems) else a.working,
      if e.review.Some? then a.reviews + [e.review.value] else a.reviews,
      if e.execution.Some? then a.executed + [e.execution.value] else a.executed,
      a.delivered || (e.answer.Some? && NextPending(steps) == |steps|))
  }

  function RunStep(c: Config, a: Agent, i: nat, answers: Answers): Agent
    requires i < |a.plan.steps|
  {
    ApplyEffect(c, a, i, StepEffect(c, a.marks, a.plan.steps[i].id, answers))
  }

  // ---- the loop -------------------------------------------------------------

  /** What the outside says during one turn of the loop; only what the turn asks for is used. */
  datatype Input = Input(elapsed: int, answers: Answers, reflection: Reflection)

  datatype Run = Run(agent: Agent, replansLeft: int, stopped: bool, answer: string)

  function Note(a: Agent, kind: Kind): Agent {
    a.(journal := Record(a.journal, kind))
  }

  function ReflectTurn(r: Run, reflection: Reflection): Run {
    var a := Note(r.agent, Reflected(reflection.satisfied));
    if reflection.satisfied || r.replansLeft <= 0 || reflection.titles == [] then r.(agent := a, stopped := true)
    else
      var plan := ReplanFailed(a.plan, reflection.titles);
      r.(agent := Note(a.(plan := plan), Replanned(plan)), replansLeft := r.replansLeft - 1)
  }

  function StepTurn(c: Config, r: Run, i: nat, answers: Answers): Run
    requires i < |r.agent.plan.steps|
  {
    var effect := StepEffect(c, r.agent.marks, r.agent.plan.steps[i].id, answers);
    var a := ApplyEffect(c, r.agent, i, effect);
    var answer := if effect.answer.Some? && effect.answer.value != "" then effect.answer.value else r.answer;
    if a.delivered then Run(Note(a, FinalAnswer), r.replansLeft, true, answer)
    else Run(a, r.replansLeft, false, answer)
  }

  function Turn(c: Config, r: Run, input: Input): Run {
    if r.stopped then r
    else match Exceeded(c.limits, r.agent.usage, input.elapsed)
      case Some(limit) => r.(agent := Note(r.agent, BudgetExceeded(limit)), stopped := true)
      case None =>
        var i := NextPending(r.agent.plan.steps);
        if i == |r.agent.plan.steps| then ReflectTurn(r, input.reflection)
        else StepTurn(c, r, i, input.answers)
  }

  /** After `n` turns of a run in which the outside answers `world(k)` in turn `k`. */
  function Turns(c: Config, r: Run, world: nat -> Input, n: nat): Run {
    if n == 0 then r else Turn(c, Turns(c, r, world, n - 1), world(n - 1))
  }

  /** What one turn keeps, whatever the outside says, every number of turns keeps. */
  lemma {:induction false} TurnsKeep(c: Config, r: Run, world: nat -> Input, n: nat, inv: Run -> bool)
    requires inv(r)
    requires forall p, input :: inv(p) ==> inv(Turn(c, p, input))
    ensures inv(Turns(c, r, world, n))
  {
    if n > 0 {
      TurnsKeep(c, r, world, n - 1, inv);
    }
  }

  /** What `run` does before its loop: the conversation is remembered, the plan is made and recorded. */
  function Begin(c: Config, a: Agent, conversation: seq<Item>, specs: seq<Spec>, replanBudget: int): Run {
    var plan := AddAll(EMPTY, specs);
    var seeded := a.(working := RememberSeq(a.working, conversation, c.maxItems), delivered := false,
                     reviews := [], plan := plan);
    Run(Note(Note(seeded, RunStart), PlanMade(plan)), replanBudget, false, "")
  }

  function RememberSeq(items: seq<Item>, xs: seq<Item>, maxItems: int): seq<Item> {
    if xs == [] then items
    else Remember(RememberSeq(items, xs[..|xs| - 1], maxItems), xs[|xs| - 1], maxItems)
  }

  /** The reasoner's optional end-of-run synthesis. */
  datatype Synthesis = NoSynthesis | SynthesisRaises | Synthesized(text: string)

  predicate Succeeded(c: Config, a: Agent, elapsed: int) {
    IsComplete(a.plan.steps) && !HasFailures(a.plan.steps) && Exceeded(c.limits, a.usage, elapsed).None?
  }

  /** A step has answered directly; `blank` says which answers are only white space. */
  predicate Keeps(delivered: bool, answer: string, blank: string -> bool) {
    delivered && answer != "" && !blank(answer)
  }

  function AnswerOf(keep: bool, last: string, synthesis: Synthesis, summary: string): string {
    if keep then last
    else if synthesis.Synthesized? && synthesis.text != "" then synthesis.text
    else if last != "" then last
    else summary
  }

  /** What `run` does after its loop. */
  function End(c: Config, r: Run, elapsed: int, synthesis: Synthesis, summary: string, blank: string -> bool):
    (Agent, bool, string)
  {
    var success := Succeeded(c, r.agent, elapsed);
    var keep := Keeps(r.agent.delivered, r.answer, blank);
    var a := if !keep && synthesis.SynthesisRaises? then Note(r.agent, SynthesisError) else r.agent;
    (Note(a, RunEnd(success)), success, AnswerOf(keep, r.answer, synthesis, summary))
  }
}
