/** The budget that bounds a run, and the tracer that records it. */
module Observability {
  import opened Common
  import opened Permissions
  import opened Planning

  datatype Limits = Limits(maxSteps: int, maxToolCalls: int, maxTokens: int, maxWall: int)

  datatype Usage = Usage(steps: nat, calls: nat, tokens: nat)

  datatype Limit = MaxSteps | MaxToolCalls | MaxTokens | MaxWall

  /** The first exhausted limit, `elapsed` being what the clock says. */
  function Exceeded(l: Limits, u: Usage, elapsed: int): Option<Limit> {
    if u.steps >= l.maxSteps then Some(MaxSteps)
    else if u.calls >= l.maxToolCalls then Some(MaxToolCalls)
    else if u.tokens >= l.maxTokens then Some(MaxTokens)
    else if elapsed >= l.maxWall then Some(MaxWall)
    else None
  }

  /** This limit is used up. */
  predicate AtLimit(l: Limits, u: Usage, elapsed: int, limit: Limit) {
    match limit
    case MaxSteps => u.steps >= l.maxSteps
    case MaxToolCalls => u.calls >= l.maxToolCalls
    case MaxTokens => u.tokens >= l.maxTokens
    case MaxWall => elapsed >= l.maxWall
  }

  function Rank(limit: Limit): nat {
    match limit
    case MaxSteps => 0
    case MaxToolCalls => 1
    case MaxTokens => 2
    case MaxWall => 3
  }

  /** No limit is reported iff none is used up; the one reported is used up, and none before it is. */
  ghost predicate IsFirstLimit(l: Limits, u: Usage, elapsed: int, found: Option<Limit>) {
    match found
    case None => forall limit :: !AtLimit(l, u, elapsed, limit)
    case Some(first) =>
      AtLimit(l, u, elapsed, first) && forall limit :: Rank(limit) < Rank(first) ==> !AtLimit(l, u, elapsed, limit)
  }

  lemma ExceededMeans(l: Limits, u: Usage, elapsed: int, found: Option<Limit>)
    ensures Exceeded(l, u, elapsed) == found <==> IsFirstLimit(l, u, elapsed, found)
  {
    assert AtLimit(l, u, elapsed, MaxSteps) <==> u.steps >= l.maxSteps;
    assert AtLimit(l, u, elapsed, MaxToolCalls) <==> u.calls >= l.maxToolCalls;
    assert AtLimit(l, u, elapsed, MaxTokens) <==> u.tokens >= l.maxTokens;
    assert AtLimit(l, u, elapsed, MaxWall) <==> elapsed >= l.maxWall;
  }

  /** A limit once reached stays reached: usage and time only grow. */
  lemma ExceededStays(l: Limits, u: Usage, elapsed: int, u': Usage, elapsed': int)
    requires u'.steps >= u.steps && u'.calls >= u.calls && u'.tokens >= u.tokens && elapsed' >= elapsed
    ensures Exceeded(l, u, elapsed).Some? ==> Exceeded(l, u', elapsed').Some?
  {
    ExceededMeans(l, u', elapsed', None);
    if Exceeded(l, u, elapsed).Some? {
      assert AtLimit(l, u', elapsed', Exceeded(l, u, elapsed).value);
    }
  }

  /** What an event says; secret masking leaves ids, kinds, outcomes and flags as they are. */
  datatype Kind =
    | RunStart
    | PlanMade(plan: PlanState)
    | BudgetExceeded(limit: Limit)
    | Reflected(satisfied: bool)
    | Replanned(plan: PlanState)
    | Reason(stepId: nat)
    | Stuck(stepId: nat)
    | Decided(stepId: nat, outcome: Outcome)
    | HumanReview(stepId: nat)
    | StepError(stepId: nat)
    | ToolReturned(stepId: nat, ok: bool)
    | GuardrailBlock(stepId: nat)
    | FinalAnswer
    | SynthesisError
    | RunEnd(success: bool)

  datatype Event = Event(seqNo: nat, kind: Kind)

  /** The tracer's list and counter, and the episodic log every event is appended to as well. */
  datatype Journal = Journal(events: seq<Event>, last: nat, episodes: seq<Event>)

  const NO_EVENTS := Journal([], 0, [])

  function Record(j: Journal, kind: Kind): Journal {
    var event := Event(j.last + 1, kind);
    Journal(j.events + [event], j.last + 1, j.episodes + [event])
  }

  function RecordAll(j: Journal, kinds: seq<Kind>): Journal {
    Fold(Record, j, kinds)
  }

  /** Sequence numbers count from one without a gap, and both logs agree. */
  ghost predicate GapFree(j: Journal) {
    j.last == |j.events| && j.episodes == j.events && forall i :: 0 <= i < |j.events| ==> j.events[i].seqNo == i + 1
  }

  class Budget {
    const limits: Limits
    var stepsUsed: nat
    var toolCallsUsed: nat
    var tokensUsed: nat

    constructor (limits: Limits)
      ensures this.limits == limits && State() == Usage(0, 0, 0)
    {
      this.limits := limits;
      stepsUsed, toolCallsUsed, tokensUsed := 0, 0, 0;
    }

    ghost function State(): Usage
      reads this
    {
      Usage(stepsUsed, toolCallsUsed, tokensUsed)
    }

    method ChargeStep()
      modifies this
      ensures State() == old(State()).(steps := old(stepsUsed) + 1)
    {
      stepsUsed := stepsUsed + 1;
    }

    method ChargeToolCall()
      modifies this
      ensures State() == old(State()).(calls := old(toolCallsUsed) + 1)
    {
      toolCallsUsed := toolCallsUsed + 1;
    }

    method ChargeTokens(n: int)
      modifies this
      ensures State() == old(State()).(tokens := old(tokensUsed) + if n > 0 then n else 0)
    {
      tokensUsed := tokensUsed + if n > 0 then n else 0;
    }

    method FirstExceeded(elapsed: int) returns (limit: Option<Limit>)
      ensures limit == Exceeded(limits, State(), elapsed) && IsFirstLimit(limits, State(), elapsed, limit)
    {
      ExceededMeans(limits, State(), elapsed, Exceeded(limits, State(), elapsed));
      if stepsUsed >= limits.maxSteps {
        return Some(MaxSteps);
      }
      if toolCallsUsed >= limits.maxToolCalls {
        return Some(MaxToolCalls);
      }
      if tokensUsed >= limits.maxTokens {
        return Some(MaxTokens);
      }
      if elapsed >= limits.maxWall {
        return Some(MaxWall);
      }
      return None;
    }
  }

  class Tracer {
    var events: seq<Event>
    var last: nat

    constructor ()
      ensures events == [] && last == 0
    {
      events, last := [], 0;
    }

    method Emit(kind: Kind) returns (event: Event)
      modifies this
      ensures event == Event(old(last) + 1, kind) && events == old(events) + [event] && last == old(last) + 1
    {
      last := last + 1;
      event := Event(last, kind);
      events := events + [event];
    }
  }
}
