/** The trace as an event source: folding the events alone gives back the plan and the counters. */
module Replay {
  import opened Common
  import opened Engine
  import opened Observability
  import opened Permissions
  import opened Planning

  /** What a reader of the trace knows: every step's status, and how much of the budget is used. */
  datatype View = View(statuses: seq<Status>, steps: nat, calls: nat)

  function SetStatus(v: View, id: nat, s: Status): View {
    if 1 <= id <= |v.statuses| then v.(statuses := v.statuses[id - 1 := s]) else v
  }

  /** A replan supersedes the failed steps and appends as many pending ones as the plan has grown by. */
  function AfterReplan(statuses: seq<Status>, size: nat): (r: seq<Status>)
    ensures |r| == if size > |statuses| then size else |statuses|
    ensures forall i :: 0 <= i < |r| ==>
              r[i] == if i >= |statuses| then Pending else if statuses[i] == Failed then Skipped else statuses[i]
  {
    seq(if size > |statuses| then size else |statuses|, i requires 0 <= i =>
      if i >= |statuses| then Pending else if statuses[i] == Failed then Skipped else statuses[i])
  }

  /** One event. A step counts as done once it is reasoned about, until a later event says otherwise. */
  function Read(v: View, k: Kind): View {
    match k
    case PlanMade(p) => v.(statuses := Statuses(p.steps))
    case Replanned(p) => v.(statuses := AfterReplan(v.statuses, |p.steps|))
    case Reason(id) => SetStatus(v, id, Done).(steps := v.steps + 1)
    case Stuck(id) => SetStatus(v, id, Failed)
    case Decided(id, outcome) => if outcome == Deny then SetStatus(v, id, Failed) else v
    case HumanReview(id) => SetStatus(v, id, Done)
    case StepError(id) => SetStatus(v, id, Failed).(calls := v.calls + 1)
    case ToolReturned(id, ok) => SetStatus(v, id, if ok then Done else Failed).(calls := v.calls + 1)
    case GuardrailBlock(id) => SetStatus(v, id, Failed).(calls := v.calls + 1)
    case _ => v
  }

  function ReadAll(v: View, kinds: seq<Kind>): View {
    Fold(Read, v, kinds)
  }

  function ReplayEvents(events: seq<Event>): View {
    if events == [] then View([], 0, 0)
    else Read(ReplayEvents(events[..|events| - 1]), events[|events| - 1].kind)
  }

  /** The trace tells the plan's statuses and what has been charged since the usage was `base`. */
  ghost predicate Tells(a: Agent, base: Usage) {
    && ReplayEvents(a.journal.events).statuses == Statuses(a.plan.steps)
    && TellsUsage(a, base)
  }

  ghost predicate TellsUsage(a: Agent, base: Usage) {
    var v := ReplayEvents(a.journal.events);
    a.usage.steps == base.steps + v.steps && a.usage.calls == base.calls + v.calls
  }

  lemma RecordReplays(j: Journal, k: Kind)
    ensures ReplayEvents(Record(j, k).events) == Read(ReplayEvents(j.events), k)
  {
    assert Record(j, k).events[..|j.events|] == j.events;
  }

  /** Events that tell nothing about steps. */
  predicate Neutral(k: Kind) {
    k.RunStart? || k.BudgetExceeded? || k.Reflected? || k.FinalAnswer? || k.SynthesisError? || k.RunEnd?
  }

  lemma NoteTells(a: Agent, k: Kind, base: Usage)
    requires Tells(a, base) && Neutral(k)
    ensures Tells(Note(a, k), base)
  {
    RecordReplays(a.journal, k);
  }

  lemma {:induction false} RecordAllReplays(j: Journal, kinds: seq<Kind>)
    ensures ReplayEvents(RecordAll(j, kinds).events) == ReadAll(ReplayEvents(j.events), kinds)
  {
    if kinds != [] {
      RecordAllReplays(j, kinds[..|kinds| - 1]);
      RecordReplays(RecordAll(j, kinds[..|kinds| - 1]), kinds[|kinds| - 1]);
    }
  }

  lemma ReadShort(v: View, x: Kind, y: Kind, z: Kind)
    ensures ReadAll(v, [x]) == Read(v, x)
    ensures ReadAll(v, [x, y]) == Read(Read(v, x), y)
    ensures ReadAll(v, [x, y, z]) == Read(Read(Read(v, x), y), z)
  {
    FoldShort(Read, v, x, y, z);
  }

  /** What a step's events must tell, given what became of it and how many tool calls it made. */
  ghost function Told(v: View, id: nat, status: Status, calls: nat): View {
    SetStatus(v, id, status).(steps := v.steps + 1, calls := v.calls + calls)
  }

  lemma ExecuteEventsTell(c: Config, id: nat, action: ToolAction, reply: ToolReply, v: View)
    ensures var e := ExecuteEffect(c, id, action, reply);
            ReadAll(v, e.events) == Told(v, id, e.status, 1) && e.execution.None?
  {
    var e := ExecuteEffect(c, id, action, reply);
    assert e.events == [Reason(id), Decided(id, Allow), e.events[2]];
    ReadShort(v, Reason(id), Decided(id, Allow), e.events[2]);
  }

  lemma DecisionEventsTell(c: Config, id: nat, action: ToolAction, reply: ToolReply, decision: Decision, v: View)
    ensures var e := DecisionEffect(c, id, action, reply, decision);
            ReadAll(v, e.events) == Told(v, id, e.status, if e.execution.Some? then 1 else 0)
  {
    match decision.outcome {
      case Deny => ReadShort(v, Reason(id), Decided(id, Deny), Stuck(id));
      case Review => ReadShort(v, Reason(id), Decided(id, Review), HumanReview(id));
      case Allow => ExecuteEventsTell(c, id, action, reply, v);
    }
  }

  lemma GateEventsTell(c: Config, marks: map<string, nat>, id: nat, action: ToolAction, reply: ToolReply, v: View)
    ensures var e := GateEffect(c, marks, id, action, reply);
            ReadAll(v, e.events) == Told(v, id, e.status, if e.execution.Some? then 1 else 0)
  {
    ReadShort(v, Reason(id), Stuck(id), Stuck(id));
    DecisionEventsTell(c, id, action, reply, Check(c.policy, action), v);
  }

  /** The events of one step say what became of it and whether a tool was called. */
  lemma StepEventsTell(c: Config, marks: map<string, nat>, id: nat, answers: Answers, v: View)
    ensures var e := StepEffect(c, marks, id, answers);
            ReadAll(v, e.events) == Told(v, id, e.status, if e.execution.Some? then 1 else 0)
  {
    ReadShort(v, Reason(id), Stuck(id), Stuck(id));
    if answers.proposal.finalAnswer.None? && answers.proposal.tool.Some? {
      GateEventsTell(c, marks, id, ActionFor(answers.proposal.tool.value, answers.proposal.args), answers.reply, v);
    }
  }

  lemma StepKeepsTelling(c: Config, a: Agent, i: nat, answers: Answers, base: Usage)
    requires i < |a.plan.steps| && WellNumbered(a.plan) && Tells(a, base)
    ensures Tells(RunStep(c, a, i, answers), base) && WellNumbered(RunStep(c, a, i, answers).plan)
  {
    var id := a.plan.steps[i].id;
    var e := StepEffect(c, a.marks, id, answers);
    RecordAllReplays(a.journal, e.events);
    StepEventsTell(c, a.marks, id, answers, ReplayEvents(a.journal.events));
    assert Statuses(RunStep(c, a, i, answers).plan.steps) == Statuses(a.plan.steps)[i := e.status];
  }

  lemma ReplanKeepsTelling(a: Agent, titles: seq<string>, base: Usage)
    requires WellNumbered(a.plan) && Tells(a, base)
    ensures var plan := ReplanFailed(a.plan, titles);
            WellNumbered(plan) && Tells(Note(a.(plan := plan), Replanned(plan)), base)
  {
    ReplanKeepsNumbers(a.plan, titles);
    var plan := ReplanFailed(a.plan, titles);
    RecordReplays(a.journal, Replanned(plan));
    assert Statuses(plan.steps) == AfterReplan(Statuses(a.plan.steps), |plan.steps|);
  }

  lemma StepTurnKeepsTelling(c: Config, r: Run, i: nat, answers: Answers, base: Usage)
    requires i < |r.agent.plan.steps| && WellNumbered(r.agent.plan) && Tells(r.agent, base)
    ensures var r' := StepTurn(c, r, i, answers); WellNumbered(r'.agent.plan) && Tells(r'.agent, base)
  {
    var a := RunStep(c, r.agent, i, answers);
    StepKeepsTelling(c, r.agent, i, answers, base);
    NoteTells(a, FinalAnswer, base);
    assert StepTurn(c, r, i, answers).agent == if a.delivered then Note(a, FinalAnswer) else a;
  }

  lemma ReflectTurnKeepsTelling(r: Run, reflection: Reflection, base: Usage)
    requires WellNumbered(r.agent.plan) && Tells(r.agent, base)
    ensures var r' := ReflectTurn(r, reflection); WellNumbered(r'.agent.plan) && Tells(r'.agent, base)
  {
    var noted := Note(r.agent, Reflected(reflection.satisfied));
    NoteTells(r.agent, Reflected(reflection.satisfied), base);
    ReplanKeepsTelling(noted, reflection.titles, base);
  }

  lemma TurnKeepsTelling(c: Config, r: Run, input: Input, base: Usage)
    requires WellNumbered(r.agent.plan) && Tells(r.agent, base)
    ensures var r' := Turn(c, r, input); WellNumbered(r'.agent.plan) && Tells(r'.agent, base)
  {
    var i := NextPending(r.agent.plan.steps);
    match Exceeded(c.limits, r.agent.usage, input.elapsed) {
      case Some(limit) => NoteTells(r.agent, BudgetExceeded(limit), base);
      case None =>
        if i < |r.agent.plan.steps| {
          StepTurnKeepsTelling(c, r, i, input.answers, base);
        } else {
          ReflectTurnKeepsTelling(r, input.reflection, base);
        }
    }
  }

  lemma BeginTells(c: Config, a: Agent, conversation: seq<Item>, specs: seq<Spec>, replanBudget: int, base: Usage)
    requires TellsUsage(a, base)
    ensures var r := Begin(c, a, conversation, specs, replanBudget);
            WellNumbered(r.agent.plan) && Tells(r.agent, base)
  {
    AddAllAppends(EMPTY, specs);
    var plan := AddAll(EMPTY, specs);
    RecordReplays(a.journal, RunStart);
    RecordReplays(Record(a.journal, RunStart), PlanMade(plan));
  }

  /** After every turn of every run, the trace alone reconstructs the plan and the counters. */
  lemma TraceIsFaithful(c: Config, a: Agent, conversation: seq<Item>, specs: seq<Spec>, replanBudget: int,
                        world: nat -> Input, n: nat, base: Usage)
    requires TellsUsage(a, base)
    ensures var r := Turns(c, Begin(c, a, conversation, specs, replanBudget), world, n);
            WellNumbered(r.agent.plan) && Tells(r.agent, base)
  {
    BeginTells(c, a, conversation, specs, replanBudget, base);
    var tracked := (r: Run) => WellNumbered(r.agent.plan) && Tells(r.agent, base);
    forall r, input | tracked(r)
      ensures tracked(Turn(c, r, input))
    {
      TurnKeepsTelling(c, r, input, base);
    }
    TurnsKeep(c, Begin(c, a, conversation, specs, replanBudget), world, n, tracked);
  }

  lemma EndTells(c: Config, r: Run, elapsed: int, synthesis: Synthesis, summary: string, blank: string -> bool,
                 base: Usage)
    requires Tells(r.agent, base)
    ensures Tells(End(c, r, elapsed, synthesis, summary, blank).0, base)
  {
    var end := RunEnd(Succeeded(c, r.agent, elapsed));
    NoteTells(r.agent, SynthesisError, base);
    NoteTells(r.agent, end, base);
    NoteTells(Note(r.agent, SynthesisError), end, base);
    var a := End(c, r, elapsed, synthesis, summary, blank).0;
    assert a == Note(r.agent, end) || a == Note(Note(r.agent, SynthesisError), end);
  }

  // ---- the journal itself ---------------------------------------------------

  lemma {:induction false} RecordAllStaysGapFree(j: Journal, kinds: seq<Kind>)
    requires GapFree(j)
    ensures GapFree(RecordAll(j, kinds)) && j.events <= RecordAll(j, kinds).events
  {
    if kinds != [] {
      RecordAllStaysGapFree(j, kinds[..|kinds| - 1]);
    }
  }

  lemma StepTurnStaysGapFree(c: Config, r: Run, i: nat, answers: Answers)
    requires GapFree(r.agent.journal) && i < |r.agent.plan.steps|
    ensures GapFree(StepTurn(c, r, i, answers).agent.journal)
    ensures r.agent.journal.events <= StepTurn(c, r, i, answers).agent.journal.events
  {
    RecordAllStaysGapFree(r.agent.journal, StepEffect(c, r.agent.marks, r.agent.plan.steps[i].id, answers).events);
  }

  lemma TurnStaysGapFree(c: Config, r: Run, input: Input)
    requires GapFree(r.agent.journal)
    ensures GapFree(Turn(c, r, input).agent.journal)
    ensures r.agent.journal.events <= Turn(c, r, input).agent.journal.events
  {
    var i := NextPending(r.agent.plan.steps);
    if r.stopped {
    } else if Exceeded(c.limits, r.agent.usage, input.elapsed).None? && i < |r.agent.plan.steps| {
      StepTurnStaysGapFree(c, r, i, input.answers);
    } else {
      assert Turn(c, r, input).agent.journal.events[..|r.agent.journal.events|] == r.agent.journal.events;
    }
  }

  /** Events are only appended, numbered from one without a gap, and the episodic log is the same list. */
  lemma JournalStaysGapFree(c: Config, r: Run, world: nat -> Input, n: nat)
    requires GapFree(r.agent.journal)
    ensures GapFree(Turns(c, r, world, n).agent.journal)
    ensures r.agent.journal.events <= Turns(c, r, world, n).agent.journal.events
  {
    var kept := (p: Run) => GapFree(p.agent.journal) && r.agent.journal.events <= p.agent.journal.events;
    forall p, input | kept(p)
      ensures kept(Turn(c, p, input))
    {
      TurnStaysGapFree(c, p, input);
    }
    TurnsKeep(c, r, world, n, kept);
  }
}
