/** What one step, one turn and the two ends of a run do, and exactly when a run stops. */
module TurnLaws {
  import opened Common
  import opened Engine
  import opened Observability
  import opened Permissions
  import opened Planning
  import Lifecycle
  import Memory
  import RunLaws

  // ---- one step -------------------------------------------------------------

  /** Step `i` was attempted once more and ended like this; the other steps are as they were. */
  ghost predicate Attempted(a: Agent, a': Agent, i: nat, status: Status, note: string, kinds: seq<Kind>)
    requires i < |a.plan.steps|
  {
    var step := a.plan.steps[i];
    && |a'.plan.steps| == |a.plan.steps| && a'.plan.revision == a.plan.revision && a'.plan.nextId == a.plan.nextId
    && a'.plan.steps[i] == PlanStep(step.id, step.title, step.category, step.rationale, status, note,
                                    step.attempts + 1)
    && (forall j :: 0 <= j < |a.plan.steps| && j != i ==> a'.plan.steps[j] == a.plan.steps[j])
    && a'.usage.steps == a.usage.steps + 1
    && a'.journal == RecordAll(a.journal, kinds)
  }

  ghost predicate NothingRan(a: Agent, a': Agent) {
    a'.executed == a.executed && a'.usage.calls == a.usage.calls && a'.usage.tokens == a.usage.tokens
  }

  ghost predicate OneRan(a: Agent, a': Agent, x: Execution, tokens: nat) {
    && a'.executed == a.executed + [x] && a'.usage.calls == a.usage.calls + 1
    && a'.usage.tokens == a.usage.tokens + tokens
  }

  ghost predicate Unfinished(steps: seq<PlanStep>) {
    exists i :: 0 <= i < |steps| && steps[i].status == Pending
  }

  lemma UnfinishedMeans(steps: seq<PlanStep>)
    ensures Unfinished(steps) <==> NextPending(steps) < |steps|
  {
    if NextPending(steps) < |steps| {
      assert steps[NextPending(steps)].status == Pending;
    }
  }

  /** A step without a tool: the answer, if there is one, is remembered, and is the run's when no step is left. */
  lemma ThoughtMeans(c: Config, a: Agent, i: nat, answers: Answers)
    requires i < |a.plan.steps| && (answers.proposal.finalAnswer.Some? || answers.proposal.tool.None?)
    ensures var (a', final) := (RunStep(c, a, i, answers), answers.proposal.finalAnswer);
            && Attempted(a, a', i, Done, if final.Some? then final.value else "(no tool required)",
                         [Reason(a.plan.steps[i].id)])
            && NothingRan(a, a') && a'.marks == a.marks && a'.reviews == a.reviews
            && a'.working == (if final.Some? then Memory.Remember(a.working, Item("assistant", final.value), c.maxItems)
                              else a.working)
            && (a'.delivered <==> a.delivered || (final.Some? && !Unfinished(a'.plan.steps)))
  {
    UnfinishedMeans(RunStep(c, a, i, answers).plan.steps);
  }

  /** The action put to the gate is what the tool declares and what the reasoner proposes. */
  ghost predicate Proposed(answers: Answers, action: ToolAction) {
    && answers.proposal.finalAnswer.None? && answers.proposal.tool.Some?
    && var tool := answers.proposal.tool.value;
       && action.toolId == tool.name && action.category == tool.category && action.risk == tool.risk
       && action.args == answers.proposal.args && action.requiresNetwork == tool.requiresNetwork
  }

  ghost predicate CountedProposal(c: Config, a: Agent, a': Agent, action: ToolAction) {
    var mark := c.fingerprint(action);
    && mark in a'.marks && a'.marks[mark] == (if mark in a.marks then a.marks[mark] else 0) + 1
    && (forall other :: other != mark ==> (other in a'.marks <==> other in a.marks))
    && (forall other :: other != mark && other in a.marks ==> a'.marks[other] == a.marks[other])
  }

  ghost predicate UsedUp(c: Config, marks: map<string, nat>, action: ToolAction) {
    (if c.fingerprint(action) in marks then marks[c.fingerprint(action)] else 0) >= c.maxAttempts
  }

  ghost predicate Cleared(p: Policy, action: ToolAction) {
    Listed(p, action) || action.risk.Rank() <= UnattendedRank(p)
  }

  /** The tool answered, and no output guardrail objected. */
  ghost predicate Accepted(p: Policy, action: ToolAction, reply: ToolReply) {
    reply.Replied? && reply.ok && PassesOutput(p, action, reply.output)
  }

  /** An effect is what its step, its counters and its lists get. */
  lemma EffectApplies(c: Config, a: Agent, i: nat, e: Effect, action: ToolAction)
    requires i < |a.plan.steps| && e.mark == Some(c.fingerprint(action)) && e.answer.None?
    ensures var a' := ApplyEffect(c, a, i, e);
            && Attempted(a, a', i, e.status, e.note, e.events) && CountedProposal(c, a, a', action)
            && a'.delivered == a.delivered
  {
  }

  lemma ActionIs(answers: Answers, action: ToolAction)
    requires Proposed(answers, action)
    ensures action == ActionFor(answers.proposal.tool.value, answers.proposal.args)
  {
  }

  /** The three ways not to get to the executor. */
  lemma HeldBackEffect(c: Config, marks: map<string, nat>, id: nat, answers: Answers, action: ToolAction)
    requires Proposed(answers, action)
    requires UsedUp(c, marks, action) || Forbidden(c.policy, action) || !Cleared(c.policy, action)
    ensures var e := StepEffect(c, marks, id, answers);
            && e.mark == Some(c.fingerprint(action)) && e.execution.None? && e.memo.None? && e.answer.None?
            && e.tokens == 0
            && (if UsedUp(c, marks, action) then
                  && e.status == Failed && e.note == "stuck: identical action repeated" && e.review.None?
                  && e.events == [Reason(id), Stuck(id)]
                else if Forbidden(c.policy, action) then
                  && e.status == Failed && e.note == "denied: " + Check(c.policy, action).reason && e.review.None?
                  && e.events == [Reason(id), Decided(id, Deny)]
                else
                  && e.status == Done && e.note == "(awaiting human review)"
                  && e.review == Some(ReviewEntry(id, action))
                  && e.events == [Reason(id), Decided(id, Review), HumanReview(id)])
  {
    ActionIs(answers, action);
    CheckMeans(c.policy, action);
  }

  /** A step with a tool that does not get to the executor: a loop, a denial, or a review. */
  lemma HeldBackMeans(c: Config, a: Agent, i: nat, answers: Answers, action: ToolAction)
    requires i < |a.plan.steps| && Proposed(answers, action)
    requires UsedUp(c, a.marks, action) || Forbidden(c.policy, action) || !Cleared(c.policy, action)
    ensures var (a', id) := (RunStep(c, a, i, answers), a.plan.steps[i].id);
            && CountedProposal(c, a, a', action)
            && NothingRan(a, a') && a'.working == a.working && a'.delivered == a.delivered
            && (if UsedUp(c, a.marks, action) then
                  Attempted(a, a', i, Failed, "stuck: identical action repeated", [Reason(id), Stuck(id)]) &&
                  a'.reviews == a.reviews
                else if Forbidden(c.policy, action) then
                  Attempted(a, a', i, Failed, "denied: " + Check(c.policy, action).reason,
                            [Reason(id), Decided(id, Deny)]) &&
                  a'.reviews == a.reviews
                else
                  Attempted(a, a', i, Done, "(awaiting human review)",
                            [Reason(id), Decided(id, Review), HumanReview(id)]) &&
                  a'.reviews == a.reviews + [ReviewEntry(id, action)])
  {
    HeldBackEffect(c, a.marks, a.plan.steps[i].id, answers, action);
    EffectApplies(c, a, i, StepEffect(c, a.marks, a.plan.steps[i].id, answers), action);
  }

  /** How a call of the executor is recorded. */
  function CallEvent(id: nat, reply: ToolReply, accepted: bool): Kind {
    if reply.Raised? then StepError(id)
    else if reply.ok && !accepted then GuardrailBlock(id)
    else ToolReturned(id, reply.ok)
  }

  lemma CalledEffect(c: Config, marks: map<string, nat>, id: nat, answers: Answers, action: ToolAction)
    requires Proposed(answers, action)
    requires !UsedUp(c, marks, action) && !Forbidden(c.policy, action) && Cleared(c.policy, action)
    ensures var (e, reply) := (StepEffect(c, marks, id, answers), answers.reply);
            var accepted := Accepted(c.policy, action, reply);
            && e.mark == Some(c.fingerprint(action)) && e.execution == Some(Execution(id, action, reply))
            && e.review.None? && e.answer.None?
            && e.status == (if accepted then Done else Failed)
            && e.events == [Reason(id), Decided(id, Allow), CallEvent(id, reply, accepted)]
            && e.memo == (if accepted then Some(Item("tool_result", reply.output)) else None)
            && e.tokens == (if !accepted then 0 else if |reply.output| < 8 then 1 else |reply.output| / 4)
  {
    ActionIs(answers, action);
    CheckMeans(c.policy, action);
    if answers.reply.Replied? {
      ValidateResultMeans(c.policy.outputValidators, action, answers.reply.output);
    }
  }

  /** A step whose tool is called: it is done exactly when the output is accepted, which is then remembered
      and charged a token for every four characters, but at least one. */
  lemma CalledMeans(c: Config, a: Agent, i: nat, answers: Answers, action: ToolAction)
    requires i < |a.plan.steps| && Proposed(answers, action)
    requires !UsedUp(c, a.marks, action) && !Forbidden(c.policy, action) && Cleared(c.policy, action)
    ensures var (a', id, reply) := (RunStep(c, a, i, answers), a.plan.steps[i].id, answers.reply);
            var accepted := Accepted(c.policy, action, reply);
            && CountedProposal(c, a, a', action) && a'.reviews == a.reviews && a'.delivered == a.delivered
            && Attempted(a, a', i, if accepted then Done else Failed, a'.plan.steps[i].result,
                         [Reason(id), Decided(id, Allow), CallEvent(id, reply, accepted)])
            && OneRan(a, a', Execution(id, action, reply),
                      if !accepted then 0 else if |reply.output| < 8 then 1 else |reply.output| / 4)
            && a'.working == (if accepted then
                                Memory.Remember(a.working, Item("tool_result", reply.output), c.maxItems)
                              else a.working)
  {
    CalledEffect(c, a.marks, a.plan.steps[i].id, answers, action);
    EffectApplies(c, a, i, StepEffect(c, a.marks, a.plan.steps[i].id, answers), action);
  }

  // ---- one turn -------------------------------------------------------------

  /** Some limit is used up. */
  ghost predicate Spent(l: Limits, u: Usage, elapsed: int) {
    exists limit :: AtLimit(l, u, elapsed, limit)
  }

  lemma SpentMeans(l: Limits, u: Usage, elapsed: int)
    ensures Spent(l, u, elapsed) <==> Exceeded(l, u, elapsed).Some?
  {
    ExceededMeans(l, u, elapsed, Exceeded(l, u, elapsed));
  }

  /** An exhausted plan is left at that. */
  predicate Settles(replansLeft: int, reflection: Reflection) {
    reflection.satisfied || replansLeft <= 0 || reflection.titles == []
  }

  /** Exactly one step is pending. */
  ghost predicate OneLeft(steps: seq<PlanStep>) {
    exists i :: 0 <= i < |steps| && steps[i].status == Pending &&
                forall j :: 0 <= j < |steps| && steps[j].status == Pending ==> j == i
  }

  lemma OneLeftMeans(c: Config, a: Agent, i: nat, answers: Answers)
    requires i == NextPending(a.plan.steps) < |a.plan.steps| && answers.proposal.finalAnswer.Some?
    ensures OneLeft(a.plan.steps) <==> !Unfinished(RunStep(c, a, i, answers).plan.steps)
  {
    var now := RunStep(c, a, i, answers).plan.steps;
    assert now[i].status == Done && forall j :: 0 <= j < |now| && j != i ==> now[j] == a.plan.steps[j];
    if Unfinished(now) {
      var k :| 0 <= k < |now| && now[k].status == Pending;
      assert a.plan.steps[k].status == Pending && a.plan.steps[i].status == Pending && k != i;
    } else {
      assert forall j :: 0 <= j < |now| && a.plan.steps[j].status == Pending ==> j == i;
    }
  }

  lemma DeliversIff(c: Config, a: Agent, i: nat, answers: Answers)
    requires i == NextPending(a.plan.steps) < |a.plan.steps|
    ensures RunStep(c, a, i, answers).delivered <==>
            a.delivered || (answers.proposal.finalAnswer.Some? && OneLeft(a.plan.steps))
  {
    if answers.proposal.finalAnswer.Some? {
      ThoughtMeans(c, a, i, answers);
      OneLeftMeans(c, a, i, answers);
    }
  }

  /** A turn ends the run exactly when a limit is used up, the last pending step was answered directly, or
      nothing was pending and nothing is replanned. */
  lemma TurnStopsIff(c: Config, r: Run, input: Input)
    requires !r.stopped && !r.agent.delivered
    ensures var r' := Turn(c, r, input);
            var answered := input.answers.proposal.finalAnswer.Some? && OneLeft(r.agent.plan.steps);
            var spent := Spent(c.limits, r.agent.usage, input.elapsed);
            && (r'.stopped <==> || spent || answered
                                || (!Unfinished(r.agent.plan.steps) && Settles(r.replansLeft, input.reflection)))
            && (r'.agent.delivered <==> answered && !spent)
  {
    SpentMeans(c.limits, r.agent.usage, input.elapsed);
    UnfinishedMeans(r.agent.plan.steps);
    var i := NextPending(r.agent.plan.steps);
    if i < |r.agent.plan.steps| {
      DeliversIff(c, r.agent, i, input.answers);
    }
  }

  /** With a limit used up a turn only says which one it was. */
  lemma SpentTurnMeans(c: Config, r: Run, input: Input, limit: Limit)
    requires !r.stopped && IsFirstLimit(c.limits, r.agent.usage, input.elapsed, Some(limit))
    ensures var r' := Turn(c, r, input);
            && r'.stopped && r'.replansLeft == r.replansLeft && r'.answer == r.answer
            && r'.agent == r.agent.(journal := Record(r.agent.journal, BudgetExceeded(limit)))
  {
    ExceededMeans(c.limits, r.agent.usage, input.elapsed, Some(limit));
  }

  /** With a step pending a turn attempts the first one, and nothing else; its answer, if not empty, is the
      run's answer so far. */
  lemma StepTurnMeans(c: Config, r: Run, input: Input, i: nat)
    requires !r.stopped && !Spent(c.limits, r.agent.usage, input.elapsed) && i < |r.agent.plan.steps|
    requires r.agent.plan.steps[i].status == Pending
    requires forall j :: 0 <= j < i ==> r.agent.plan.steps[j].status != Pending
    ensures var (r', a', final) := (Turn(c, r, input), RunStep(c, r.agent, i, input.answers),
                                    input.answers.proposal.finalAnswer);
            && r'.agent == a'.(journal := if a'.delivered then Record(a'.journal, FinalAnswer) else a'.journal)
            && r'.stopped == a'.delivered && r'.replansLeft == r.replansLeft
            && r'.answer == (if final.Some? && final.value != "" then final.value else r.answer)
  {
    SpentMeans(c.limits, r.agent.usage, input.elapsed);
    assert i == NextPending(r.agent.plan.steps);
  }

  /** The failed steps are skipped, and one pending step is appended for each title. */
  ghost predicate Regrown(p: PlanState, q: PlanState, titles: seq<string>) {
    && q.revision == p.revision + 1 && q.nextId == p.nextId + |titles| && |q.steps| == |p.steps| + |titles|
    && (forall i :: 0 <= i < |p.steps| ==>
          q.steps[i] == if p.steps[i].status == Failed then p.steps[i].(status := Skipped) else p.steps[i])
    && (forall i :: 0 <= i < |titles| ==>
          q.steps[|p.steps| + i] ==
          PlanStep(p.nextId + i, titles[i], "replan", "Inserted by replan-on-failure", Pending, "", 0))
  }

  lemma ReplanRegrows(p: PlanState, titles: seq<string>)
    ensures Regrown(p, ReplanFailed(p, titles), titles)
  {
    AddAllAppends(p.(steps := SkipFailed(p.steps)), ReplanSpecs(titles));
  }

  /** With no step pending a turn reflects; unless that settles it, a replan is used up to regrow the plan. */
  lemma ReflectTurnMeans(c: Config, r: Run, input: Input)
    requires !r.stopped && !Spent(c.limits, r.agent.usage, input.elapsed) && !Unfinished(r.agent.plan.steps)
    ensures var (r', a, said) := (Turn(c, r, input), r.agent, input.reflection);
            var (plan, journal) := (r'.agent.plan, Record(a.journal, Reflected(said.satisfied)));
            && r'.answer == r.answer
            && if Settles(r.replansLeft, said) then
                 r'.stopped && r'.replansLeft == r.replansLeft && r'.agent == a.(journal := journal)
               else
                 && !r'.stopped && r'.replansLeft == r.replansLeft - 1
                 && r'.agent == a.(journal := Record(journal, Replanned(plan)), plan := plan)
                 && Regrown(a.plan, plan, said.titles)
  {
    SpentMeans(c.limits, r.agent.usage, input.elapsed);
    UnfinishedMeans(r.agent.plan.steps);
    ReplanRegrows(r.agent.plan, input.reflection.titles);
  }

  // ---- one run --------------------------------------------------------------

  lemma RememberAllSnoc(history: seq<Item>, x: Item, maxItems: int)
    ensures Memory.RememberAll(history + [x], maxItems) ==
            Memory.Remember(Memory.RememberAll(history, maxItems), x, maxItems)
  {
    assert (history + [x])[..|history|] == history;
  }

  lemma {:induction false} RememberSeqAppends(history: seq<Item>, xs: seq<Item>, maxItems: int)
    ensures RememberSeq(Memory.RememberAll(history, maxItems), xs, maxItems) ==
            Memory.RememberAll(history + xs, maxItems)
  {
    if xs == [] {
      assert history + xs == history;
    } else {
      var front, last := xs[..|xs| - 1], xs[|xs| - 1];
      RememberSeqAppends(history, front, maxItems);
      RememberAllSnoc(history + front, last, maxItems);
      assert history + xs == history + front + [last];
    }
  }

  /** One pending step for each step of the planner, numbered from one. */
  ghost predicate Planned(plan: PlanState, specs: seq<Spec>) {
    && plan.revision == 0 && plan.nextId == |specs| + 1 && |plan.steps| == |specs|
    && forall i :: 0 <= i < |specs| ==>
         plan.steps[i] == PlanStep(i + 1, specs[i].title, specs[i].category, specs[i].rationale, Pending, "", 0)
  }

  lemma AddAllPlans(specs: seq<Spec>)
    ensures Planned(AddAll(EMPTY, specs), specs)
  {
    AddAllAppends(EMPTY, specs);
  }

  /** A run starts with a plan of pending steps, no replan used, no answer and nothing under review, and with
      the conversation after all that was remembered before; marks, usage and executions carry on. */
  lemma BeginMeans(c: Config, a: Agent, s: RunLaws.Script, history: seq<Item>)
    requires a.working == Memory.RememberAll(history, c.maxItems)
    ensures var r := Begin(c, a, s.conversation, s.specs, s.replans);
            && !r.stopped && r.replansLeft == s.replans && r.answer == "" && !r.agent.delivered
            && r.agent.reviews == [] && r.agent.marks == a.marks && r.agent.usage == a.usage
            && r.agent.executed == a.executed
            && r.agent.working == Memory.RememberAll(history + s.conversation, c.maxItems)
            && Planned(r.agent.plan, s.specs)
            && r.agent.journal == Record(Record(a.journal, RunStart), PlanMade(r.agent.plan))
  {
    RememberSeqAppends(history, s.conversation, c.maxItems);
    AddAllPlans(s.specs);
  }

  /** An answer only ends a run, so one that goes on has none. */
  lemma NotDeliveredYet(c: Config, a: Agent, s: RunLaws.Script, n: nat)
    ensures var r := Turns(c, Begin(c, a, s.conversation, s.specs, s.replans), s.world, n);
            r.agent.delivered ==> r.stopped
  {
    var open := (r: Run) => r.agent.delivered ==> r.stopped;
    forall r, input | open(r)
      ensures open(Turn(c, r, input))
    {
      if !r.stopped {
        TurnStopsIff(c, r, input);
      }
    }
    TurnsKeep(c, Begin(c, a, s.conversation, s.specs, s.replans), s.world, n, open);
  }

  ghost predicate EndsWith(j: Journal, kind: Kind) {
    j.events != [] && j.events[|j.events| - 1].kind == kind
  }

  /** The run stopped when the outside said `said`: because this limit was used up, and the last event says so;
      or, with no limit and no step left, because the answer was delivered or the reflection settled it. */
  ghost predicate StoppedFor(c: Config, r: Run, said: Input, limit: Option<Limit>) {
    match limit
    case Some(first) =>
      && !r.agent.delivered && EndsWith(r.agent.journal, BudgetExceeded(first))
      && IsFirstLimit(c.limits, r.agent.usage, said.elapsed, limit)
    case None =>
      && !Unfinished(r.agent.plan.steps)
      && if r.agent.delivered then EndsWith(r.agent.journal, FinalAnswer)
         else EndsWith(r.agent.journal, Reflected(said.reflection.satisfied)) &&
              Settles(r.replansLeft, said.reflection)
  }

  lemma TurnStopsForAReason(c: Config, r: Run, input: Input) returns (limit: Option<Limit>)
    requires !r.stopped && !r.agent.delivered && Turn(c, r, input).stopped
    ensures StoppedFor(c, Turn(c, r, input), input, limit)
  {
    limit := Exceeded(c.limits, r.agent.usage, input.elapsed);
    ExceededMeans(c.limits, r.agent.usage, input.elapsed, limit);
    UnfinishedMeans(r.agent.plan.steps);
    var i := NextPending(r.agent.plan.steps);
    if limit.None? && i < |r.agent.plan.steps| {
      DeliversIff(c, r.agent, i, input.answers);
      UnfinishedMeans(RunStep(c, r.agent, i, input.answers).plan.steps);
    }
  }

  lemma StoppedTurn(c: Config, r: Run, input: Input)
    requires r.stopped
    ensures Turn(c, r, input) == r
  {
  }

  /** Where a flag that never goes down went up. */
  lemma {:induction false} GoesUp(flag: nat -> bool, n: nat) returns (k: nat)
    requires !flag(0) && flag(n)
    ensures k < n && !flag(k) && flag(k + 1)
  {
    assert n != 0;
    if flag(n - 1) {
      k := GoesUp(flag, n - 1);
    } else {
      k := n - 1;
    }
  }

  lemma {:induction false} StaysStopped(c: Config, r: Run, world: nat -> Input, k: nat, n: nat)
    requires k <= n && Turns(c, r, world, k).stopped
    ensures Turns(c, r, world, n) == Turns(c, r, world, k)
  {
    if k < n {
      StaysStopped(c, r, world, k, n - 1);
      StoppedTurn(c, Turns(c, r, world, n - 1), world(n - 1));
    }
  }

  function Stopped(c: Config, r: Run, world: nat -> Input): nat -> bool {
    (n: nat) => Turns(c, r, world, n).stopped
  }

  lemma StoppedMeans(c: Config, r: Run, world: nat -> Input, n: nat)
    ensures Stopped(c, r, world)(0) <==> r.stopped
    ensures Stopped(c, r, world)(n) <==> Turns(c, r, world, n).stopped
  {
  }

  lemma LastOpen(c: Config, r: Run, world: nat -> Input, n: nat) returns (k: nat)
    requires !Stopped(c, r, world)(0) && Stopped(c, r, world)(n)
    ensures k < n && StopsIn(c, r, world, k)
  {
    k := GoesUp(Stopped(c, r, world), n);
  }

  /** The run is open before this turn, and stopped after it. */
  ghost predicate StopsIn(c: Config, r: Run, world: nat -> Input, k: nat) {
    !Stopped(c, r, world)(k) && Stopped(c, r, world)(k + 1)
  }

  /** The turn of a run that was its last one. */
  lemma LastTurn(c: Config, r: Run, world: nat -> Input, n: nat) returns (k: nat)
    requires !r.stopped && Turns(c, r, world, n).stopped
    ensures k < n && !Turns(c, r, world, k).stopped && Turns(c, r, world, k + 1) == Turns(c, r, world, n)
  {
    StoppedMeans(c, r, world, n);
    k := LastOpen(c, r, world, n);
    StaysStopped(c, r, world, k + 1, n);
  }

  /**
    Whatever the outside says, a run that has stopped did so in one of its turns and for a reason: while a
    step is pending, because a limit was used up; otherwise for a limit, because the answer was delivered, or
    because the reflection was satisfied, no replan was left or no title came.
   */
  lemma RunStopsForAReason(c: Config, a: Agent, s: RunLaws.Script, n: nat) returns (k: nat, limit: Option<Limit>)
    requires Turns(c, Begin(c, a, s.conversation, s.specs, s.replans), s.world, n).stopped
    ensures var begun := Begin(c, a, s.conversation, s.specs, s.replans);
            var r := Turns(c, begun, s.world, n);
            && k < n && !Turns(c, begun, s.world, k).stopped && Turns(c, begun, s.world, k + 1) == r
            && StoppedFor(c, r, s.world(k), limit)
            && (Unfinished(r.agent.plan.steps) ==> limit.Some?)
  {
    var begun := Begin(c, a, s.conversation, s.specs, s.replans);
    k := LastTurn(c, begun, s.world, n);
    NotDeliveredYet(c, a, s, k);
    limit := TurnStopsForAReason(c, Turns(c, begun, s.world, k), s.world(k));
  }

  // ---- the end --------------------------------------------------------------

  /** The answer of a run: the one delivered, unless it is blank; else the synthesis; else what was answered
      last; else the summary. What is empty is passed over, and only a synthesis that raises is recorded. */
  lemma EndMeans(c: Config, r: Run, elapsed: int, synthesis: Synthesis, summary: string, blank: string -> bool)
    ensures var (a, success, answer) := End(c, r, elapsed, synthesis, summary, blank);
            var kept := r.agent.delivered && r.answer != "" && !blank(r.answer);
            var drafted := synthesis.Synthesized? && synthesis.text != "";
            && (kept ==> answer == r.answer)
            && (!kept && drafted ==> answer == synthesis.text)
            && (!kept && !drafted && r.answer != "" ==> answer == r.answer)
            && (!kept && !drafted && r.answer == "" ==> answer == summary)
            && a == r.agent.(journal := RecordAll(r.agent.journal,
                                                  if !kept && synthesis.SynthesisRaises? then
                                                    [SynthesisError, RunEnd(success)]
                                                  else [RunEnd(success)]))
  {
    FoldShort(Record, r.agent.journal, SynthesisError, RunEnd(End(c, r, elapsed, synthesis, summary, blank).1),
              RunStart);
    FoldShort(Record, r.agent.journal, RunEnd(End(c, r, elapsed, synthesis, summary, blank).1), RunStart, RunStart);
  }

  lemma ReplansLeft(c: Config, a: Agent, s: RunLaws.Script, n: nat)
    ensures var r := Turns(c, Begin(c, a, s.conversation, s.specs, s.replans), s.world, n);
            r.replansLeft == s.replans - r.agent.plan.revision
  {
    Lifecycle.RunKeepsChronicle(c, a, s, n);
    ReplansLeftIn(Turns(c, Begin(c, a, s.conversation, s.specs, s.replans), s.world, n), |a.journal.events|,
                  |a.executed|, s.replans);
  }

  lemma ReplansLeftIn(r: Run, from: nat, ran: nat, replans: int)
    requires Lifecycle.Kept(r, from, ran, replans)
    ensures r.replansLeft == replans - r.agent.plan.revision
  {
  }

  lemma EndKeeps(c: Config, r: Run, elapsed: int, synthesis: Synthesis, summary: string, blank: string -> bool)
    ensures var a := End(c, r, elapsed, synthesis, summary, blank).0; a == r.agent.(journal := a.journal)
  {
  }

  /** What the reason for a stop says about the state that is left. */
  ghost predicate Concluded(c: Config, a: Agent, replansLeft: int, said: Input) {
    || Spent(c.limits, a.usage, said.elapsed)
    || (!Unfinished(a.plan.steps) && (a.delivered || Settles(replansLeft, said.reflection)))
  }

  lemma StoppedIsConcluded(c: Config, r: Run, said: Input, limit: Option<Limit>)
    requires StoppedFor(c, r, said, limit)
    ensures Concluded(c, r.agent, r.replansLeft, said)
  {
  }

  lemma ConcludedIgnoresJournal(c: Config, a: Agent, b: Agent, replansLeft: int, said: Input)
    requires b == a.(journal := b.journal) && Concluded(c, a, replansLeft, said)
    ensures Concluded(c, b, replansLeft, said)
  {
  }

  lemma LastTurnConcludes(c: Config, a: Agent, s: RunLaws.Script, n: nat)
    requires var begun := Begin(c, a, s.conversation, s.specs, s.replans);
             !Turns(c, begun, s.world, n).stopped && Turns(c, begun, s.world, n + 1).stopped
    ensures var r := Turns(c, Begin(c, a, s.conversation, s.specs, s.replans), s.world, n + 1);
            Concluded(c, r.agent, r.replansLeft, s.world(n))
  {
    var last := Turns(c, Begin(c, a, s.conversation, s.specs, s.replans), s.world, n);
    NotDeliveredYet(c, a, s, n);
    var limit := TurnStopsForAReason(c, last, s.world(n));
    StoppedIsConcluded(c, Turn(c, last, s.world(n)), s.world(n), limit);
  }

  /** Told of a whole run, whose last turn was number `turns - 1`. */
  lemma WhyRunStopped(c: Config, a: Agent, s: RunLaws.Script)
    requires var begun := Begin(c, a, s.conversation, s.specs, s.replans);
             s.turns > 0 && !Turns(c, begun, s.world, s.turns - 1).stopped && Turns(c, begun, s.world, s.turns).stopped
    ensures var b := RunLaws.Perform(c, a, s);
            Concluded(c, b, s.replans - b.plan.revision, s.world(s.turns - 1))
  {
    var r := Turns(c, Begin(c, a, s.conversation, s.specs, s.replans), s.world, s.turns);
    LastTurnConcludes(c, a, s, s.turns - 1);
    ReplansLeft(c, a, s, s.turns);
    EndKeeps(c, r, s.elapsed, s.synthesis, s.summary, s.blank);
    ConcludedIgnoresJournal(c, r.agent, RunLaws.Perform(c, a, s), r.replansLeft, s.world(s.turns - 1));
  }
}
