/** What holds over whole runs of the agent, for every reasoner, tool, clock and fingerprint. */
module RunLaws {
  import opened Common
  import opened Engine
  import History
  import opened Memory
  import opened Observability
  import opened Permissions
  import opened Planning

  // ---- the loop ends --------------------------------------------------------

  function PendingIn(r: Run): nat {
    PendingCount(Statuses(r.agent.plan.steps))
  }

  function ReplansIn(r: Run): nat {
    if r.replansLeft < 0 then 0 else r.replansLeft
  }

  /** A turn that does not end the run uses up a replan or a pending step. */
  lemma TurnMakesProgress(c: Config, r: Run, input: Input)
    requires !r.stopped && !Turn(c, r, input).stopped
    ensures var r' := Turn(c, r, input);
            ReplansIn(r') < ReplansIn(r) || (ReplansIn(r') == ReplansIn(r) && PendingIn(r') < PendingIn(r))
  {
    var i := NextPending(r.agent.plan.steps);
    if i < |r.agent.plan.steps| {
      StepUsesUpPending(c, r.agent, i, input.answers);
    }
  }

  lemma StepUsesUpPending(c: Config, a: Agent, i: nat, answers: Answers)
    requires i < |a.plan.steps| && a.plan.steps[i].status == Pending
    ensures var steps := RunStep(c, a, i, answers).plan.steps;
            PendingCount(Statuses(steps)) == PendingCount(Statuses(a.plan.steps)) - 1
  {
    var e := StepEffect(c, a.marks, a.plan.steps[i].id, answers);
    PendingCountUpdate(Statuses(a.plan.steps), i, e.status);
    assert Statuses(RunStep(c, a, i, answers).plan.steps) == Statuses(a.plan.steps)[i := e.status];
  }

  /** Every run ends, even if no budget limit is ever reached. */
  lemma {:induction false} EveryRunStops(c: Config, r: Run, world: nat -> Input, k: nat) returns (n: nat)
    ensures n >= k && Turns(c, r, world, n).stopped
    decreases ReplansIn(Turns(c, r, world, k)), PendingIn(Turns(c, r, world, k)), Turns(c, r, world, k).stopped
  {
    var now := Turns(c, r, world, k);
    if now.stopped {
      n := k;
    } else if Turns(c, r, world, k + 1).stopped {
      n := k + 1;
    } else {
      TurnMakesProgress(c, now, world(k));
      n := EveryRunStops(c, r, world, k + 1);
    }
  }

  lemma TurnKeepsNumbers(c: Config, r: Run, input: Input)
    requires WellNumbered(r.agent.plan)
    ensures WellNumbered(Turn(c, r, input).agent.plan)
  {
    ReplanKeepsNumbers(r.agent.plan, input.reflection.titles);
  }

  // ---- the budget -----------------------------------------------------------

  function AtLeast(a: int, b: int): int {
    if a >= b then a else b
  }

  ghost predicate WithinBudget(c: Config, was: Usage, now: Usage) {
    && was.steps <= now.steps <= AtLeast(was.steps, c.limits.maxSteps)
    && was.calls <= now.calls <= AtLeast(was.calls, c.limits.maxToolCalls)
    && now.calls - was.calls <= now.steps - was.steps
    && was.tokens <= now.tokens
  }

  /** A turn charges at most one step, and a tool call only together with a step. */
  lemma TurnCharges(c: Config, r: Run, input: Input)
    ensures var (was, now) := (r.agent.usage, Turn(c, r, input).agent.usage);
            now == was || (was.steps < c.limits.maxSteps && was.calls < c.limits.maxToolCalls &&
                           now.steps == was.steps + 1 && was.calls <= now.calls <= was.calls + 1 &&
                           was.tokens <= now.tokens)
  {
  }

  /** The limits are never overrun, and tool calls never grow faster than steps. */
  lemma BudgetBounds(c: Config, r: Run, world: nat -> Input, n: nat)
    ensures WithinBudget(c, r.agent.usage, Turns(c, r, world, n).agent.usage)
  {
    var bounded := (p: Run) => WithinBudget(c, r.agent.usage, p.agent.usage);
    forall p, input | bounded(p)
      ensures bounded(Turn(c, p, input))
    {
      TurnCharges(c, p, input);
    }
    TurnsKeep(c, r, world, n, bounded);
  }

  // ---- what is executed -----------------------------------------------------

  function Executions(executed: seq<Execution>, mark: string, fingerprint: ToolAction -> string): nat {
    if executed == [] then 0
    else
      Executions(executed[..|executed| - 1], mark, fingerprint) +
      if fingerprint(executed[|executed| - 1].action) == mark then 1 else 0
  }

  ghost predicate Permitted(c: Config, executed: seq<Execution>) {
    forall x :: x in executed ==> Check(c.policy, x.action).outcome == Allow
  }

  ghost predicate Limited(c: Config, a: Agent) {
    forall mark :: Executions(a.executed, mark, c.fingerprint) <= Tally(a.marks, mark) &&
                   Executions(a.executed, mark, c.fingerprint) <= AtLeast(0, c.maxAttempts)
  }

  /** `text` is the output of a permitted execution, and no output guardrail objected to it. */
  ghost predicate Vouched(c: Config, executed: seq<Execution>, text: string) {
    exists x :: x in executed && x.reply.Replied? && x.reply.ok && x.reply.output == text &&
                PassesOutput(c.policy, x.action, text)
  }

  ghost predicate MemoryVouched(c: Config, a: Agent) {
    forall item :: item in a.working && item.role == "tool_result" ==> Vouched(c, a.executed, item.content)
  }

  ghost predicate Safe(c: Config, a: Agent) {
    Permitted(c, a.executed) && Limited(c, a) && MemoryVouched(c, a)
  }

  /** What one step's effect guarantees, read off its cases. */
  lemma EffectIsGuarded(c: Config, marks: map<string, nat>, id: nat, answers: Answers)
    ensures var e := StepEffect(c, marks, id, answers);
            && (e.status == Done || e.status == Failed)
            && (e.execution.Some? ==>
                  && var Execution(id', action, _) := e.execution.value;
                     && id' == id && Check(c.policy, action).outcome == Allow
                     && e.mark == Some(c.fingerprint(action))
                     && Tally(marks, c.fingerprint(action)) + 1 <= c.maxAttempts)
            && (e.review.Some? ==> e.execution.None? && e.review.value.stepId == id &&
                                   Check(c.policy, e.review.value.action).outcome == Review)
            && (e.memo.Some? && e.memo.value.role == "tool_result" ==>
                  e.execution.Some? && Vouched(c, [e.execution.value], e.memo.value.content))
  {
    var e := StepEffect(c, marks, id, answers);
    if answers.proposal.finalAnswer.None? && answers.proposal.tool.Some? {
      var action := ActionFor(answers.proposal.tool.value, answers.proposal.args);
      if e.memo.Some? {
        ValidateResultMeans(c.policy.outputValidators, action, answers.reply.output);
        assert e.execution.value in [e.execution.value];
      }
    } else {
      assert "assistant"[0] != "tool_result"[0];
    }
  }

  lemma RememberedItems(items: seq<Item>, x: Item, maxItems: int, y: Item)
    requires y in Remember(items, x, maxItems)
    ensures y in items || y == x
  {
  }

  lemma VouchedGrows(c: Config, executed: seq<Execution>, more: seq<Execution>, text: string)
    requires Vouched(c, executed, text) || Vouched(c, more, text)
    ensures Vouched(c, executed + more, text)
  {
    if Vouched(c, executed, text) {
      var x :| x in executed && x.reply.Replied? && x.reply.ok && x.reply.output == text &&
               PassesOutput(c.policy, x.action, text);
      assert x in executed + more;
    } else {
      var x :| x in more && x.reply.Replied? && x.reply.ok && x.reply.output == text &&
               PassesOutput(c.policy, x.action, text);
      assert x in executed + more;
    }
  }

  lemma StepStaysLimited(c: Config, a: Agent, i: nat, answers: Answers)
    requires Limited(c, a) && i < |a.plan.steps|
    ensures Limited(c, RunStep(c, a, i, answers))
  {
    var e := StepEffect(c, a.marks, a.plan.steps[i].id, answers);
    var a' := RunStep(c, a, i, answers);
    EffectIsGuarded(c, a.marks, a.plan.steps[i].id, answers);
    forall mark
      ensures Executions(a'.executed, mark, c.fingerprint) <= Tally(a'.marks, mark)
      ensures Executions(a'.executed, mark, c.fingerprint) <= AtLeast(0, c.maxAttempts)
    {
      assert Executions(a.executed, mark, c.fingerprint) <= Tally(a.marks, mark);
      if e.execution.Some? {
        assert a'.executed[..|a.executed|] == a.executed;
      }
    }
  }

  lemma StepStaysVouched(c: Config, a: Agent, i: nat, answers: Answers)
    requires MemoryVouched(c, a) && i < |a.plan.steps|
    ensures MemoryVouched(c, RunStep(c, a, i, answers))
  {
    var e := StepEffect(c, a.marks, a.plan.steps[i].id, answers);
    var a' := RunStep(c, a, i, answers);
    EffectIsGuarded(c, a.marks, a.plan.steps[i].id, answers);
    var latest := if e.execution.Some? then [e.execution.value] else [];
    assert a'.executed == a.executed + latest;
    forall item | item in a'.working && item.role == "tool_result"
      ensures Vouched(c, a'.executed, item.content)
    {
      if e.memo.Some? {
        RememberedItems(a.working, e.memo.value, c.maxItems, item);
      }
      VouchedGrows(c, a.executed, latest, item.content);
    }
  }

  lemma StepStaysSafe(c: Config, a: Agent, i: nat, answers: Answers)
    requires Safe(c, a) && i < |a.plan.steps|
    ensures Safe(c, RunStep(c, a, i, answers))
  {
    EffectIsGuarded(c, a.marks, a.plan.steps[i].id, answers);
    StepStaysLimited(c, a, i, answers);
    StepStaysVouched(c, a, i, answers);
  }

  lemma TurnStaysSafe(c: Config, r: Run, input: Input)
    requires Safe(c, r.agent)
    ensures Safe(c, Turn(c, r, input).agent)
  {
    var i := NextPending(r.agent.plan.steps);
    if i < |r.agent.plan.steps| {
      StepStaysSafe(c, r.agent, i, input.answers);
    }
  }

  lemma TurnsStaySafe(c: Config, r: Run, world: nat -> Input, n: nat)
    requires Safe(c, r.agent)
    ensures Safe(c, Turns(c, r, world, n).agent)
  {
    var safe := (p: Run) => Safe(c, p.agent);
    forall p, input | safe(p)
      ensures safe(Turn(c, p, input))
    {
      TurnStaysSafe(c, p, input);
    }
    TurnsKeep(c, r, world, n, safe);
  }

  lemma {:induction false} RememberSeqItems(items: seq<Item>, xs: seq<Item>, maxItems: int, y: Item)
    requires y in RememberSeq(items, xs, maxItems)
    ensures y in items || y in xs
  {
    if xs != [] {
      var front := xs[..|xs| - 1];
      RememberedItems(RememberSeq(items, front, maxItems), xs[|xs| - 1], maxItems, y);
      if y in RememberSeq(items, front, maxItems) {
        RememberSeqItems(items, front, maxItems, y);
      }
    }
  }

  /** One call of `run`: its conversation, plan, replans, and everything the outside says during it. */
  datatype Script = Script(conversation: seq<Item>, specs: seq<Spec>, replans: int, world: nat -> Input, turns: nat,
                           elapsed: int, synthesis: Synthesis, summary: string, blank: string -> bool)

  /** No turn of the conversation can pass itself off as a tool result: roles are normalised before. */
  ghost predicate HonestRoles(s: Script) {
    Honest(s.conversation)
  }

  ghost predicate Honest(conversation: seq<Item>) {
    forall item :: item in conversation ==> item.role != "tool_result"
  }

  function Speaker(render: History.Render): History.Json -> Option<Item> {
    raw => var turn := History.ReadTurn(render, raw);
           if turn.Some? then Some(Item(turn.value.role, turn.value.content)) else None
  }

  /** What `run` remembers of the history it is given. */
  function Conversation(render: History.Render, history: seq<History.Json>): seq<Item> {
    Collect(Speaker(render), history)
  }

  /** The conversation is what the history's messages read as, in order: each one's role and text. */
  lemma ConversationPicks(render: History.Render, history: seq<History.Json>) returns (at: seq<nat>)
    ensures var items := Conversation(render, history);
            && |items| == |at| && (forall i, j :: 0 <= i < j < |at| ==> at[i] < at[j])
            && (forall k :: 0 <= k < |history| ==> (k in at <==> History.ReadTurn(render, history[k]).Some?))
            && (forall i :: 0 <= i < |at| ==>
                  at[i] < |history| &&
                  match History.ReadTurn(render, history[at[i]])
                  case None => false
                  case Some(turn) => items[i].role == turn.role && items[i].content == turn.content)
  {
    at := CollectPicks(Speaker(render), history);
  }

  /** Whatever history a caller passes, the normalised one is honest. */
  lemma ConversationIsHonest(render: History.Render, history: seq<History.Json>, s: Script)
    requires s.conversation == Conversation(render, history)
    ensures HonestRoles(s)
  {
    CollectGives(Speaker(render), history);
    forall item | item in s.conversation
      ensures item.role != "tool_result"
    {
      var raw :| raw in history && Speaker(render)(raw) == Some(item);
      History.ReadIsClean(render, raw);
      assert item.role[0] in {'u', 'a', 's'};
    }
  }

  function Perform(c: Config, a: Agent, s: Script): Agent {
    var r := Turns(c, Begin(c, a, s.conversation, s.specs, s.replans), s.world, s.turns);
    End(c, r, s.elapsed, s.synthesis, s.summary, s.blank).0
  }

  function PerformAll(c: Config, a: Agent, scripts: seq<Script>): Agent {
    if scripts == [] then a
    else Perform(c, PerformAll(c, a, scripts[..|scripts| - 1]), scripts[|scripts| - 1])
  }

  lemma PerformStaysSafe(c: Config, a: Agent, s: Script)
    requires Safe(c, a) && HonestRoles(s)
    ensures Safe(c, Perform(c, a, s))
  {
    var begun := Begin(c, a, s.conversation, s.specs, s.replans);
    forall item | item in begun.agent.working && item.role == "tool_result"
      ensures Vouched(c, a.executed, item.content)
    {
      RememberSeqItems(a.working, s.conversation, c.maxItems, item);
    }
    TurnsStaySafe(c, begun, s.world, s.turns);
  }

  /**
    Over any number of runs of one agent: only permitted actions are ever executed, no fingerprint more
    than `max_step_attempts` times, and only guarded outputs are remembered as tool results.
   */
  lemma {:induction false} AgentStaysSafe(c: Config, a: Agent, scripts: seq<Script>)
    requires Safe(c, a) && forall s :: s in scripts ==> HonestRoles(s)
    ensures Safe(c, PerformAll(c, a, scripts))
  {
    if scripts != [] {
      AgentStaysSafe(c, a, scripts[..|scripts| - 1]);
      PerformStaysSafe(c, PerformAll(c, a, scripts[..|scripts| - 1]), scripts[|scripts| - 1]);
    }
  }

  /** In particular nothing forbidden is ever executed, in any mode. */
  lemma NothingForbiddenIsExecuted(c: Config, a: Agent, scripts: seq<Script>, x: Execution)
    requires Safe(c, a) && (forall s :: s in scripts ==> HonestRoles(s))
    requires x in PerformAll(c, a, scripts).executed
    ensures !Forbidden(c.policy, x.action)
    ensures Listed(c.policy, x.action) || x.action.risk.Rank() <= UnattendedRank(c.policy)
  {
    AgentStaysSafe(c, a, scripts);
    CheckMeans(c.policy, x.action);
  }
}
